// Facts about the entries of status.outboxes: which entry a claim has, and how
// far the pending frames exceed the frames that the last Job left.
module Accounts {
  import opened Basics
  import opened Targets

  predicate DistinctClaims(o: seq<OutboxFrames>) {
    forall i, j :: 0 <= i < j < |o| ==> o[i].claim != o[j].claim
  }

  // One entry for a claim, and no entry with more left than pending.
  predicate Sound(o: seq<OutboxFrames>) {
    DistinctClaims(o) && forall i :: 0 <= i < |o| ==> o[i].left <= o[i].pending
  }

  // How far pending exceeds left, over all the entries: the frames that a new
  // Job would be started for.
  function Excess(o: seq<OutboxFrames>): int {
    if o == [] then 0 else Excess(o[..|o| - 1]) + o[|o| - 1].pending - o[|o| - 1].left
  }

  lemma {:induction false} ExcessNeverNegative(o: seq<OutboxFrames>)
    requires Sound(o)
    ensures Excess(o) >= 0
  {
    if o != [] { ExcessNeverNegative(o[..|o| - 1]); }
  }

  lemma {:induction false} ExcessOfUpdate(o: seq<OutboxFrames>, i: nat, x: OutboxFrames)
    requires i < |o|
    ensures Excess(o[i := x]) == Excess(o) + (x.pending - x.left) - (o[i].pending - o[i].left)
  {
    var n := |o| - 1;
    if i == n {
      assert o[i := x][..n] == o[..n];
    } else {
      assert o[i := x][..n] == o[..n][i := x];
      ExcessOfUpdate(o[..n], i, x);
    }
  }

  lemma {:induction false} ExcessOfRemoved(o: seq<OutboxFrames>, i: nat)
    requires i < |o|
    ensures Excess(Removed(o, i)) == Excess(o) - (o[i].pending - o[i].left)
  {
    var n := |o| - 1;
    if i == n {
      assert Removed(o, i) == o[..n];
    } else {
      assert Removed(o, i)[..n - 1] == Removed(o[..n], i);
      ExcessOfRemoved(o[..n], i);
    }
  }

  lemma {:induction false} ExcessOfCleared(o: seq<OutboxFrames>)
    ensures Excess(LeftCleared(o)) == Excess(o) + AllLeft(o)
  {
    if o != [] {
      var n := |o| - 1;
      assert LeftCleared(o)[..n] == LeftCleared(o[..n]);
      ExcessOfCleared(o[..n]);
    }
  }

  lemma IndexOfEntry(o: seq<OutboxFrames>, i: nat)
    requires DistinctClaims(o) && i < |o|
    ensures OutboxIndex(o, o[i].claim) == i
  {
  }

  lemma SameClaimsSameIndex(o: seq<OutboxFrames>, p: seq<OutboxFrames>, c: string)
    requires |o| == |p| && forall k :: 0 <= k < |o| ==> o[k].claim == p[k].claim
    ensures OutboxIndex(o, c) == OutboxIndex(p, c)
  {
    var a, b := OutboxIndex(o, c), OutboxIndex(p, c);
    if a >= 0 { assert p[a].claim == c; }
    if b >= 0 { assert o[b].claim == c; }
  }

  lemma ExcessOfAppended(o: seq<OutboxFrames>, x: OutboxFrames)
    ensures Excess(o + [x]) == Excess(o) + x.pending - x.left
  {
    assert (o + [x])[..|o|] == o;
  }

  lemma AppendedSound(o: seq<OutboxFrames>, x: OutboxFrames)
    requires Sound(o) && x.left <= x.pending && forall k :: 0 <= k < |o| ==> o[k].claim != x.claim
    ensures Sound(o + [x])
  {
  }

  lemma UpdatedSound(o: seq<OutboxFrames>, i: nat, x: OutboxFrames)
    requires Sound(o) && i < |o| && x.claim == o[i].claim && x.left <= x.pending
    ensures Sound(o[i := x])
  {
  }

  lemma OneMoreSound(o: seq<OutboxFrames>, claim: string)
    requires Sound(o)
    ensures Sound(OneMore(o, claim)) && Excess(OneMore(o, claim)) == Excess(o) + 1
  {
    var i := OutboxIndex(o, claim);
    if i < 0 {
      ExcessOfAppended(o, OutboxFrames(claim, 1, 0));
      AppendedSound(o, OutboxFrames(claim, 1, 0));
    } else {
      var x := o[i].(pending := o[i].pending + 1);
      ExcessOfUpdate(o, i, x);
      UpdatedSound(o, i, x);
    }
  }

  lemma OneMoreHere(o: seq<OutboxFrames>, claim: string, c: string)
    requires Sound(o) && OutboxIndex(o, claim) >= 0
    ensures OutboxIndex(OneMore(o, claim), c) == OutboxIndex(o, c)
    ensures PendingOf(OneMore(o, claim), c) == PendingOf(o, c) + (if c == claim then 1 else 0)
  {
    SameClaimsSameIndex(o, OneMore(o, claim), c);
  }

  lemma OneMoreThere(o: seq<OutboxFrames>, claim: string, c: string)
    requires Sound(o) && Sound(OneMore(o, claim)) && OutboxIndex(o, claim) < 0
    ensures PendingOf(OneMore(o, claim), c) == PendingOf(o, c) + (if c == claim then 1 else 0)
    ensures OutboxIndex(o, c) >= 0 ==> OutboxIndex(OneMore(o, claim), c) == OutboxIndex(o, c)
  {
    var k, more := OutboxIndex(o, c), OneMore(o, claim);
    if c == claim {
      IndexOfEntry(more, |o|);
    } else if k >= 0 {
      IndexOfEntry(more, k);
    }
  }

  // One frame more in a claim, and every other claim as it was.
  lemma OneMoreCounts(o: seq<OutboxFrames>, claim: string, c: string)
    requires Sound(o)
    ensures PendingOf(OneMore(o, claim), c) == PendingOf(o, c) + (if c == claim then 1 else 0)
    ensures OutboxIndex(o, c) >= 0 ==>
              && OutboxIndex(OneMore(o, claim), c) == OutboxIndex(o, c)
              && OneMore(o, claim)[OutboxIndex(o, c)].left == o[OutboxIndex(o, c)].left
  {
    OneMoreSound(o, claim);
    if OutboxIndex(o, claim) >= 0 {
      OneMoreHere(o, claim, c);
    } else {
      OneMoreThere(o, claim, c);
    }
  }

  // A claim's entry with new counts, and every other claim as it was.
  lemma UpdateCounts(o: seq<OutboxFrames>, i: nat, x: OutboxFrames)
    requires Sound(o) && i < |o| && x.claim == o[i].claim && x.left <= x.pending
    ensures Sound(o[i := x])
    ensures forall c :: OutboxIndex(o[i := x], c) == OutboxIndex(o, c)
    ensures forall c :: PendingOf(o[i := x], c) == if c == x.claim then x.pending else PendingOf(o, c)
  {
    UpdatedSound(o, i, x);
    IndexOfEntry(o, i);
    forall c
      ensures OutboxIndex(o[i := x], c) == OutboxIndex(o, c)
      ensures PendingOf(o[i := x], c) == if c == x.claim then x.pending else PendingOf(o, c)
    {
      SameClaimsSameIndex(o, o[i := x], c);
      var k := OutboxIndex(o, c);
      assert k == i <==> c == x.claim;
    }
  }

  lemma RemovedCounts(o: seq<OutboxFrames>, i: nat)
    requires Sound(o) && i < |o|
    ensures Sound(Removed(o, i))
    ensures forall c :: PendingOf(Removed(o, i), c) == if c == o[i].claim then 0 else PendingOf(o, c)
  {
    var r := Removed(o, i);
    forall k | 0 <= k < |r| ensures r[k] == o[if k < i then k else k + 1] {}
    forall c ensures PendingOf(r, c) == if c == o[i].claim then 0 else PendingOf(o, c) {
      var k := OutboxIndex(o, c);
      if k >= 0 && k != i {
        IndexOfEntry(r, if k < i then k else k - 1);
      }
    }
  }

  lemma ClearedCounts(o: seq<OutboxFrames>)
    requires Sound(o)
    ensures Sound(LeftCleared(o))
    ensures forall c ::
              OutboxIndex(LeftCleared(o), c) == OutboxIndex(o, c) && PendingOf(LeftCleared(o), c) == PendingOf(o, c)
  {
    forall c ensures OutboxIndex(LeftCleared(o), c) == OutboxIndex(o, c) {
      var k := OutboxIndex(o, c);
      if k >= 0 { IndexOfEntry(LeftCleared(o), k); }
    }
  }
}
