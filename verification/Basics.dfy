// What every module shares: an optional value, a fallible one, and the few
// facts about sets and sequences that the counting arguments rest on.
module Basics {

  datatype Option<+T> = None | Some(value: T) {
    function GetOr(default: T): T {
      if None? then default else value
    }
  }

  datatype Result<+T> = Ok(value: T) | Err(message: string)

  function Max(a: int, b: int): int {
    if a < b then b else a
  }

  function Min(a: int, b: int): int {
    if a < b then a else b
  }

  lemma SubsetSize<T>(a: set<T>, b: set<T>)
    requires a <= b
    ensures |a| <= |b|
  {
    var rest := b - a;
    assert b == a + rest;
  }

  // A set that lies inside a union is no larger than the two parts together.
  lemma CoverSize<T>(all: set<T>, a: set<T>, b: set<T>)
    requires all <= a + b
    ensures |all| <= |a| + |b|
  {
    SubsetSize(all, a + b);
    SubsetSize((a + b) - a, b);
  }

  predicate Distinct<T(==)>(s: seq<T>) {
    forall i, j :: 0 <= i < j < |s| ==> s[i] != s[j]
  }
}
