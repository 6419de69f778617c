/** Vocabulary shared by every component of the model. */
module Types {

  datatype Option<+T> = None | Some(value: T)

  /** Primary keys. A single counter hands them out, so no key is ever used twice. */
  type Id = nat

  /** A calendar day as a proleptic Gregorian ordinal; day 1 is 1 January of year 1. */
  type Day = n: int | 1 <= n witness 1

  /** An instant on the server's clock. */
  type Time = int

  /** `rows` lists each element of `s` exactly once: what a query without ORDER BY may return. */
  ghost predicate Enumerates<T(!new)>(rows: seq<T>, s: set<T>) {
    && (forall i, j :: 0 <= i < j < |rows| ==> rows[i] != rows[j])
    && (forall x :: x in rows <==> x in s)
  }

  function Min(a: int, b: int): int {
    if a <= b then a else b
  }
}
