// The representation that a request gets, by section 12.5.1 of RFC 9110.
// audio-operator/mediatypes.go.
module MediaTypes {
  import opened Basics
  import opened Text

  // One range of an Accept header, in lower case. Every quality is a number.
  datatype MediaRange = MediaRange(kind: string, subtype: string, quality: real)

  // Every spelling that an Accept header may use for one form.
  datatype Form = Form(extension: string, accepted: seq<string>)

  // The text in front of the first slash of a spelling.
  function TypeOf(spelling: string): string {
    var i := IndexOf(spelling, '/');
    if i < 0 then spelling else spelling[..i]
  }

  predicate MatchesType(kind: string, form: Form) {
    exists i :: 0 <= i < |form.accepted| && TypeOf(form.accepted[i]) == kind
  }

  predicate MatchesExactly(r: MediaRange, form: Form) {
    r.kind + "/" + r.subtype in form.accepted
  }

  // How specific a range is for a form, or -1 when it does not match.
  function Rank(r: MediaRange, form: Form): int {
    if r.kind == "*" && r.subtype == "*" then 0
    else if r.subtype == "*" && MatchesType(r.kind, form) then 1
    else if MatchesExactly(r, form) then 2
    else -1
  }

  // Range k decides a form's weight: no range is more specific, and none before
  // it is as specific.
  ghost predicate Decides(ranges: seq<MediaRange>, form: Form, k: nat)
    requires k < |ranges|
  {
    && Rank(ranges[k], form) >= 0
    && (forall i :: 0 <= i < |ranges| ==> Rank(ranges[i], form) <= Rank(ranges[k], form))
    && (forall i :: 0 <= i < k ==> Rank(ranges[i], form) < Rank(ranges[k], form))
  }

  ghost predicate Matched(ranges: seq<MediaRange>, form: Form) {
    exists k :: 0 <= k < |ranges| && Rank(ranges[k], form) >= 0
  }

  lemma {:induction false} SomeRangeDecides(ranges: seq<MediaRange>, form: Form)
    requires Matched(ranges, form)
    ensures exists k :: 0 <= k < |ranges| && Decides(ranges, form, k)
  {
    var n := |ranges| - 1;
    if Matched(ranges[..n], form) {
      SomeRangeDecides(ranges[..n], form);
      var k :| 0 <= k < n && Decides(ranges[..n], form, k);
      assert forall i :: 0 <= i < n ==> ranges[..n][i] == ranges[i];
      assert Decides(ranges, form, if Rank(ranges[n], form) > Rank(ranges[k], form) then n else k);
    } else {
      assert forall i :: 0 <= i < n ==> ranges[..n][i] == ranges[i] && Rank(ranges[..n][i], form) < 0;
      assert Decides(ranges, form, n);
    }
  }

  lemma OneRangeDecides(ranges: seq<MediaRange>, form: Form, j: nat, k: nat)
    requires j < |ranges| && k < |ranges| && Decides(ranges, form, j) && Decides(ranges, form, k)
    ensures j == k
  {
  }

  // The weight that a header gives a form: the quality of the deciding range,
  // and none when no range matches.
  ghost function Weight(ranges: seq<MediaRange>, form: Form): Option<real> {
    if !Matched(ranges, form) then None
    else
      SomeRangeDecides(ranges, form);
      var k :| 0 <= k < |ranges| && Decides(ranges, form, k);
      Some(ranges[k].quality)
  }

  method Quality(ranges: seq<MediaRange>, form: Form) returns (best: real, matched: bool)
    ensures matched <==> Weight(ranges, form).Some?
    ensures matched ==> Weight(ranges, form) == Some(best)
  {
    var precision := -1;
    best, matched := 0.0, false;
    ghost var decides := 0;
    for i := 0 to |ranges|
      invariant matched <==> precision >= 0
      invariant -1 <= precision <= 2
      invariant forall k :: 0 <= k < i ==> Rank(ranges[k], form) <= precision
      invariant matched ==>
                  0 <= decides < i && Rank(ranges[decides], form) == precision && ranges[decides].quality == best
      invariant matched ==> forall k :: 0 <= k < decides ==> Rank(ranges[k], form) < precision
    {
      var accepted := ranges[i];
      var rank := -1;
      if accepted.kind == "*" && accepted.subtype == "*" {
        rank := 0;
      } else if accepted.subtype == "*" && MatchesType(accepted.kind, form) {
        rank := 1;
      } else if MatchesExactly(accepted, form) {
        rank := 2;
      }
      if rank <= precision {
        continue;
      }
      best, precision, matched := accepted.quality, rank, true;
      decides := i;
    }
    if matched {
      assert Decides(ranges, form, decides);
      forall k | 0 <= k < |ranges| && Decides(ranges, form, k) ensures k == decides {
        OneRangeDecides(ranges, form, k, decides);
      }
    }
  }

  // A header, with nothing in it or with its ranges.
  datatype Accept = Blank | Ranges(ranges: seq<MediaRange>)

  ghost predicate Acceptable(ranges: seq<MediaRange>, form: Form) {
    Weight(ranges, form).Some? && Weight(ranges, form).value > 0.0
  }

  // Form k is the best one served: the client takes it, no form weighs more, and
  // the server prefers it to every form that weighs as much.
  ghost predicate IsBest(serves: seq<Form>, ranges: seq<MediaRange>, k: nat)
    requires k < |serves|
  {
    && Acceptable(ranges, serves[k])
    && forall i :: 0 <= i < |serves| && Acceptable(ranges, serves[i]) ==>
         var w, best := Weight(ranges, serves[i]).value, Weight(ranges, serves[k]).value;
         w <= best && (i < k ==> w < best)
  }

  // Form i does not keep form k, of weight best, from being chosen.
  ghost predicate NoBetter(serves: seq<Form>, ranges: seq<MediaRange>, i: nat, k: nat, best: real)
    requires i < |serves|
  {
    Acceptable(ranges, serves[i]) ==>
      Weight(ranges, serves[i]).value <= best && (i < k ==> Weight(ranges, serves[i]).value < best)
  }

  // The same, among the first n forms.
  ghost predicate BestSoFar(serves: seq<Form>, ranges: seq<MediaRange>, n: nat, k: nat, best: real)
    requires k < n <= |serves|
  {
    && Weight(ranges, serves[k]) == Some(best) && best > 0.0
    && forall i :: 0 <= i < n ==> NoBetter(serves, ranges, i, k, best)
  }

  lemma StaysBest(serves: seq<Form>, ranges: seq<MediaRange>, n: nat, k: nat, best: real)
    requires k < n < |serves| && BestSoFar(serves, ranges, n, k, best)
    requires !Acceptable(ranges, serves[n]) || Weight(ranges, serves[n]).value <= best
    ensures BestSoFar(serves, ranges, n + 1, k, best)
  {
    assert NoBetter(serves, ranges, n, k, best);
  }

  lemma BecomesBest(serves: seq<Form>, ranges: seq<MediaRange>, n: nat, weight: real)
    requires n < |serves| && Weight(ranges, serves[n]) == Some(weight) && weight > 0.0
    requires forall i :: 0 <= i < n && Acceptable(ranges, serves[i]) ==> Weight(ranges, serves[i]).value < weight
    ensures BestSoFar(serves, ranges, n + 1, n, weight)
  {
    forall i | 0 <= i <= n ensures NoBetter(serves, ranges, i, n, weight) {}
  }

  lemma BestOfAll(serves: seq<Form>, ranges: seq<MediaRange>, k: nat, best: real)
    requires k < |serves| && BestSoFar(serves, ranges, |serves|, k, best)
    ensures IsBest(serves, ranges, k)
  {
    forall i | 0 <= i < |serves| && Acceptable(ranges, serves[i])
      ensures Weight(ranges, serves[i]).value <= best && (i < k ==> Weight(ranges, serves[i]).value < best)
    {
      assert NoBetter(serves, ranges, i, k, best);
    }
  }

  method Negotiate(serves: seq<Form>, accept: Accept) returns (chosen: Option<Form>)
    ensures accept.Blank? ==> chosen == if serves == [] then None else Some(serves[0])
    ensures accept.Ranges? ==>
              (chosen.None? <==> forall i :: 0 <= i < |serves| ==> !Acceptable(accept.ranges, serves[i]))
    ensures accept.Ranges? && chosen.Some? ==>
              exists k :: 0 <= k < |serves| && serves[k] == chosen.value && IsBest(serves, accept.ranges, k)
  {
    if accept.Blank? {
      if |serves| == 0 {
        return None;
      }
      return Some(serves[0]);
    }
    ghost var k: nat;
    chosen, k := Heaviest(serves, accept.ranges);
  }

  method Heaviest(serves: seq<Form>, ranges: seq<MediaRange>) returns (chosen: Option<Form>, ghost k: nat)
    ensures chosen.None? ==> forall i :: 0 <= i < |serves| ==> !Acceptable(ranges, serves[i])
    ensures chosen.Some? ==> k < |serves| && serves[k] == chosen.value && IsBest(serves, ranges, k)
  {
    var best := 0.0;
    chosen, k := None, 0;
    for i := 0 to |serves|
      invariant chosen.None? ==> forall j :: 0 <= j < i ==> !Acceptable(ranges, serves[j])
      invariant chosen.Some? ==> k < i && serves[k] == chosen.value && BestSoFar(serves, ranges, i, k, best)
    {
      var weight, matched := Quality(ranges, serves[i]);
      assert Acceptable(ranges, serves[i]) <==> matched && weight > 0.0;
      if !matched || weight <= 0.0 {
        if chosen.Some? { StaysBest(serves, ranges, i, k, best); }
        continue;
      }
      if chosen.Some? && weight <= best {
        StaysBest(serves, ranges, i, k, best);
        continue;
      }
      forall j | 0 <= j < i && Acceptable(ranges, serves[j]) ensures Weight(ranges, serves[j]).value < weight {
        if chosen.Some? { assert NoBetter(serves, ranges, j, k, best); }
      }
      BecomesBest(serves, ranges, i, weight);
      chosen, best, k := Some(serves[i]), weight, i;
    }
    if chosen.Some? { BestOfAll(serves, ranges, k, best); }
  }

  // A type in front of a spelling's first slash.
  lemma TypesStandInFront(kind: string, spelling: string)
    ensures TypeOf(spelling) == kind
       <==> '/' !in kind && (spelling == kind || (kind <= spelling && |kind| < |spelling| && spelling[|kind|] == '/'))
  {
    var i := IndexOf(spelling, '/');
    if '/' !in kind && kind <= spelling && |kind| < |spelling| && spelling[|kind|] == '/' {
      assert forall k :: 0 <= k < |kind| ==> spelling[k] == kind[k];
      assert spelling[..|kind|] == kind && i == |kind|;
    }
    if i >= 0 && spelling[..i] == kind {
      assert forall k :: 0 <= k < |kind| ==> kind[k] == spelling[k];
    }
  }

  // A range that admits every form, one that admits a type's, and one that names
  // the form itself.
  predicate AdmitsAll(r: MediaRange) {
    r.kind == "*" && r.subtype == "*"
  }

  predicate AdmitsType(r: MediaRange, form: Form) {
    !AdmitsAll(r) && r.subtype == "*" && MatchesType(r.kind, form)
  }

  predicate NamesIt(r: MediaRange, form: Form) {
    !AdmitsAll(r) && !AdmitsType(r, form) && MatchesExactly(r, form)
  }

  lemma TheDecidingRange(ranges: seq<MediaRange>, form: Form, k: nat)
    requires k < |ranges| && Decides(ranges, form, k)
    ensures Weight(ranges, form) == Some(ranges[k].quality)
  {
    forall j | 0 <= j < |ranges| && Decides(ranges, form, j) ensures j == k {
      OneRangeDecides(ranges, form, j, k);
    }
  }

  // The weight of a form is the quality of the first range that names it, else of
  // the first that admits its type, else of the first that admits everything.
  lemma TheMostSpecificRangeDecides(ranges: seq<MediaRange>, form: Form, k: nat)
    requires k < |ranges|
    ensures NamesIt(ranges[k], form) && (forall i :: 0 <= i < k ==> !NamesIt(ranges[i], form)) ==>
              Weight(ranges, form) == Some(ranges[k].quality)
    ensures AdmitsType(ranges[k], form) && (forall i :: 0 <= i < k ==> !AdmitsType(ranges[i], form))
            && (forall i :: 0 <= i < |ranges| ==> !NamesIt(ranges[i], form)) ==>
              Weight(ranges, form) == Some(ranges[k].quality)
    ensures AdmitsAll(ranges[k]) && (forall i :: 0 <= i < k ==> !AdmitsAll(ranges[i]))
            && (forall i :: 0 <= i < |ranges| ==> !NamesIt(ranges[i], form) && !AdmitsType(ranges[i], form)) ==>
              Weight(ranges, form) == Some(ranges[k].quality)
  {
    if Decides(ranges, form, k) { TheDecidingRange(ranges, form, k); }
  }

  // A form that no range names or admits has no weight.
  lemma UnadmittedFormsHaveNoWeight(ranges: seq<MediaRange>, form: Form)
    ensures Weight(ranges, form).None? <==>
              forall i :: 0 <= i < |ranges| ==>
                !AdmitsAll(ranges[i]) && !AdmitsType(ranges[i], form) && !NamesIt(ranges[i], form)
  {
    assert forall i :: 0 <= i < |ranges| ==>
      (Rank(ranges[i], form) >= 0
       <==> AdmitsAll(ranges[i]) || AdmitsType(ranges[i], form) || NamesIt(ranges[i], form));
  }

  // A client that excludes a form by name does not get it, whatever the
  // wildcards beside it admit.
  lemma AnExclusionStands(ranges: seq<MediaRange>, form: Form, k: nat)
    requires k < |ranges| && MatchesExactly(ranges[k], form) && ranges[k].subtype != "*" && ranges[k].quality <= 0.0
    requires forall i :: 0 <= i < k ==> !MatchesExactly(ranges[i], form)
    ensures !Acceptable(ranges, form)
  {
    TheMostSpecificRangeDecides(ranges, form, k);
  }
}
