// The library sort that the operators order their lists with.
module Sorting {
  import opened Basics

  ghost predicate TotalPreorder<T(!new)>(le: (T, T) -> bool) {
    && (forall a, b :: le(a, b) || le(b, a))
    && (forall a, b, c :: le(a, b) && le(b, c) ==> le(a, c))
  }

  ghost predicate Ascending<T>(s: seq<T>, le: (T, T) -> bool) {
    forall i, j :: 0 <= i < j < |s| ==> le(s[i], s[j])
  }

  function Insert<T(!new)>(x: T, s: seq<T>, le: (T, T) -> bool): (out: seq<T>)
    requires TotalPreorder(le) && Ascending(s, le)
    ensures Ascending(out, le) && multiset(out) == multiset(s) + multiset{x}
  {
    if s == [] || le(x, s[0]) then [x] + s
    else
      var rest := Insert(x, s[1..], le);
      assert s == [s[0]] + s[1..];
      AllAfter(s[0], rest, s[1..], x, le);
      [s[0]] + rest
  }

  // What comes before a list, and before the one put into it, comes before all.
  lemma AllAfter<T(!new)>(first: T, rest: seq<T>, s: seq<T>, x: T, le: (T, T) -> bool)
    requires multiset(rest) == multiset(s) + multiset{x}
    requires le(first, x) && forall j :: 0 <= j < |s| ==> le(first, s[j])
    ensures forall j :: 0 <= j < |rest| ==> le(first, rest[j])
  {
    forall j | 0 <= j < |rest| ensures le(first, rest[j]) {
      assert rest[j] in multiset(rest);
      assert rest[j] == x || rest[j] in s;
    }
  }

  function Sorted<T(!new)>(s: seq<T>, le: (T, T) -> bool): (out: seq<T>)
    requires TotalPreorder(le)
    ensures Ascending(out, le) && multiset(out) == multiset(s) && |out| == |s|
  {
    if s == [] then []
    else
      assert s == [s[0]] + s[1..];
      var out := Insert(s[0], Sorted(s[1..], le), le);
      assert |out| == |multiset(out)|;
      out
  }

  lemma {:induction false} SortedStays<T(!new)>(s: seq<T>, le: (T, T) -> bool)
    requires TotalPreorder(le) && Ascending(s, le)
    ensures Sorted(s, le) == s
  {
    if s != [] {
      SortedStays(s[1..], le);
      assert s == [s[0]] + s[1..];
    }
  }

  lemma SameMembers<T(!new)>(s: seq<T>, le: (T, T) -> bool, x: T)
    requires TotalPreorder(le)
    ensures x in s <==> x in Sorted(s, le)
  {
    assert x in multiset(s) <==> x in s;
    assert x in multiset(Sorted(s, le)) <==> x in Sorted(s, le);
  }

  lemma {:induction false} DistinctCountsOnce<T>(s: seq<T>, x: T)
    requires Distinct(s)
    ensures multiset(s)[x] <= 1
  {
    if s != [] {
      assert s == [s[0]] + s[1..];
      DistinctCountsOnce(s[1..], x);
      assert s[0] !in s[1..];
    }
  }

  // A list with the members of one that holds no member twice holds none twice.
  lemma SameMembersStayDistinct<T>(s: seq<T>, t: seq<T>)
    requires Distinct(s) && multiset(s) == multiset(t)
    ensures Distinct(t)
  {
    forall i, j | 0 <= i < j < |t| ensures t[i] != t[j] {
      DistinctCountsOnce(s, t[i]);
      assert t == t[..j] + [t[j]] + t[j + 1..];
      assert t[i] in t[..j];
    }
  }
}
