/** The session: the tables as fields that the endpoints update in place. */
module Database {
  import opened Types
  import opened Schema

  class Session {
    var users: set<Id>
    var households: Households
    var memberships: seq<Membership>
    var definitions: Definitions
    var instances: Instances
    var ledger: seq<LedgerRow>
    var invites: Invites
    var nextId: Id

    function View(): DB
      reads this
    {
      DB(users, households, memberships, definitions, instances, ledger, invites, nextId)
    }

    constructor ()
      ensures View() == EMPTY
    {
      users, households, memberships, definitions := {}, map[], [], map[];
      instances, ledger, invites, nextId := map[], [], map[], 0;
    }

    /** Put the tables back as they were when the transaction began. */
    method Rollback(s: DB)
      modifies this
      ensures View() == s
    {
      users, households, memberships, definitions := s.users, s.households, s.memberships, s.definitions;
      instances, ledger, invites, nextId := s.instances, s.ledger, s.invites, s.nextId;
    }

    /** The database's ON DELETE rules for one DELETE on households. */
    method DeleteHouseholdRows(hs: set<Id>)
      modifies this
      ensures View() == DeleteHouseholds(old(View()), hs)
    {
      Rollback(DeleteHouseholds(View(), hs));
    }

    method DeleteUserRow(u: Id)
      modifies this
      ensures View() == DeleteUser(old(View()), u)
    {
      Rollback(DeleteUser(View(), u));
    }
  }
}
