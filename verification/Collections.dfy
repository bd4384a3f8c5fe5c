/** What several modules need of numbers, sequences and sets. */
module Collections {

  function Min(x: int, y: int): int { if x <= y then x else y }

  function Max(x: int, y: int): int { if x >= y then x else y }

  function Elements<T(==)>(s: seq<T>): set<T> { set x | x in s }

  ghost predicate Distinct<T(!new)>(s: seq<T>) {
    forall i, j :: 0 <= i < j < |s| ==> s[i] != s[j]
  }

  /** `order` lists every member of the set once. */
  ghost predicate Lists<T(!new)>(order: seq<T>, members: set<T>) {
    Distinct(order) && forall x :: x in order <==> x in members
  }

  /** A set that is not empty has a member. */
  lemma Member<T>(s: set<T>) returns (x: T)
    requires s != {}
    ensures x in s
  {
    x :| x in s;
  }

  lemma Associative<T>(a: seq<T>, b: seq<T>, c: seq<T>)
    ensures a + (b + c) == a + b + c
  {
  }
}
