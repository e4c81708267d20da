// Which target a runner images next, and what its passes over the targets do:
// the claim of the first eligible target, the frames in flight that a restart
// finishes, and the supervisor's release of the claims that ended. A pass works
// from a list that the store may have moved on from.
module Selection {
  import opened Basics
  import opened Sorting
  import opened Text
  import opened Sequences
  import opened Targets

  datatype Named = Named(name: string, created: int, api: Object)

  // ---------------------------------------------------------------------------
  // The order a runner takes targets in

  // The highest priority, then the oldest, then the first name.
  predicate Before(a: Named, b: Named) {
    var p, q := a.api.spec.priority, b.api.spec.priority;
    p > q || (p == q && (a.created < b.created || (a.created == b.created && NameBefore(a.name, b.name))))
  }

  lemma OrderIsStrictAndTotal(a: Named, b: Named, c: Named)
    ensures !Before(a, a)
    ensures a.name != b.name ==> Before(a, b) || Before(b, a)
    ensures Before(a, b) && Before(b, c) ==> Before(a, c)
    ensures a.api.spec.priority > b.api.spec.priority ==> Before(a, b)
    ensures a.api.spec.priority == b.api.spec.priority && a.created < b.created ==> Before(a, b)
    ensures a.api.spec.priority == b.api.spec.priority && a.created == b.created && NameBefore(a.name, b.name) ==>
              Before(a, b)
  {
    NamesAreOrdered(a.name, b.name, c.name);
  }

  predicate InOrder(s: seq<Named>) {
    forall i, j :: 0 <= i < j < |s| ==> Before(s[i], s[j])
  }

  predicate DistinctNames(s: seq<Named>) {
    forall i, j :: 0 <= i < j < |s| ==> s[i].name != s[j].name
  }

  predicate UpTo(a: Named, b: Named) {
    !Before(b, a)
  }

  lemma OrderIsAPreorder()
    ensures TotalPreorder(UpTo)
  {
    forall a, b ensures UpTo(a, b) || UpTo(b, a) { OrderIsStrictAndTotal(a, b, a); }
    NamesAreAPreorder();
    forall a, b, c | UpTo(a, b) && UpTo(b, c) ensures UpTo(a, c) {
      assert NameUpTo(a.name, b.name) && NameUpTo(b.name, c.name) ==> NameUpTo(a.name, c.name);
    }
  }

  // The targets in the order that a runner takes them in.
  function InTurn(s: seq<Named>): (out: seq<Named>)
    requires DistinctNames(s)
    ensures InOrder(out) && multiset(out) == multiset(s) && DistinctNames(out)
  {
    OrderIsAPreorder();
    var out := Sorted(s, UpTo);
    NamesStayDistinct(s, out);
    assert InOrder(out) by {
      forall i, j | 0 <= i < j < |out| ensures Before(out[i], out[j]) {
        assert UpTo(out[i], out[j]);
        OrderIsStrictAndTotal(out[i], out[j], out[i]);
      }
    }
    out
  }

  lemma NamesStayDistinct(s: seq<Named>, out: seq<Named>)
    requires DistinctNames(s) && multiset(out) == multiset(s)
    ensures DistinctNames(out)
  {
    assert Distinct(s);
    SameMembersStayDistinct(s, out);
    forall i, j | 0 <= i < j < |out| ensures out[i].name != out[j].name {
      assert out[i] in multiset(out) && out[j] in multiset(out);
      assert out[i] in s && out[j] in s;
    }
  }

  // ---------------------------------------------------------------------------
  // What a pass finds of each target

  // What a runner reads beside the targets: the targets its session has a
  // camera for, the Ready reservations, and the targets below the horizon with
  // the time that each rises, when it rises within a day.
  datatype Night = Night(cameras: set<string>, ready: set<string>, below: map<string, Option<int>>)

  predicate CanClaim(t: Named, night: Night, runner: string) {
    && !FailedOn(t.api, runner)
    && Eligible(t.api, t.name in night.cameras, night.ready + {runner}, runner)
    && t.name !in night.below
  }

  predicate Sinks(t: Named, night: Night, runner: string) {
    && !FailedOn(t.api, runner)
    && Eligible(t.api, t.name in night.cameras, night.ready + {runner}, runner)
    && t.name in night.below
  }

  // The reason to end a claim that the runner can no longer use. A claim that it
  // cannot use for another reason came from another writer, and stays.
  function WhyRelease(t: Object, runner: string): Option<string> {
    if t.status.reservation != runner then None
    else if t.deleting then Some("Deleting")
    else if t.spec.suspend then Some("Suspended")
    else if NextSequence(Aligned(t.spec.sequences, t.status.sequences)) < 0 then Some("SequencesDone")
    else None
  }

  function Wrote(t: Object, status: Option<Status>): Object {
    if status.None? || status.value == t.status then t else t.(version := t.version + 1, status := status.value)
  }

  // A settled write: nothing when the listed copy needs none, and otherwise the
  // write composed from the copy, or once more from the store's own when the
  // store has moved on.
  function SettledOver(t: Object, now: Object, compose: Object -> Option<Status>): Object {
    if compose(t).None? || compose(t).value == t.status then now else Wrote(now, compose(now))
  }

  // The store's object under a listed copy: the copy, or a later version.
  predicate MovedOn(t: Object, now: Object) {
    t.version <= now.version && (now.version == t.version ==> now == t)
  }

  function Releasing(runner: string, reason: string): Object -> Option<Status> {
    (o: Object) => AfterRelease(o.status, runner, None, reason)
  }

  function Lowering(runner: string): Object -> Option<Status> {
    (o: Object) => AfterBelow(o.status, runner)
  }

  function Claiming(t: Named, night: Night, runner: string): Object -> Option<Status> {
    (o: Object) => AfterClaim(o, t.name in night.cameras, night.ready + {runner}, runner)
  }

  // Whether the pass claims a target that it listed as t. A copy that shows the
  // claim in place already needs no write, and is taken at its word.
  predicate Takes(t: Named, now: Object, night: Night, runner: string) {
    var claim := Claiming(t, night, runner);
    CanClaim(t, night, runner) && (claim(t.api) == Some(t.api.status) || claim(now).Some?)
  }

  // What a pass leaves of a target that it does not claim.
  function Passed(t: Named, now: Object, night: Night, runner: string): Object {
    if FailedOn(t.api, runner) then now
    else if !Eligible(t.api, t.name in night.cameras, night.ready + {runner}, runner)
    then
      var reason := WhyRelease(t.api, runner);
      if reason.None? then now else SettledOver(t.api, now, Releasing(runner, reason.value))
    else if t.name in night.below then SettledOver(t.api, now, Lowering(runner))
    else now
  }

  function Claimed(t: Named, now: Object, night: Night, runner: string): Object {
    SettledOver(t.api, now, Claiming(t, night, runner))
  }

  // A list of targets, over a store that may have moved on from it.
  predicate Lists(listed: seq<Named>, store: map<string, Object>) {
    && DistinctNames(listed)
    && forall i :: 0 <= i < |listed| ==> listed[i].name in store && MovedOn(listed[i].api, store[listed[i].name])
  }

  predicate Held(listed: seq<Named>, store: map<string, Object>) {
    forall t :: t in listed ==> t.name in store
  }

  // The first of two rises, where a target may not rise at all.
  function Sooner(a: Option<int>, b: Option<int>): Option<int> {
    if b.None? then a else if a.None? || b.value < a.value then b else a
  }

  function FirstRise(listed: seq<Named>, night: Night, runner: string): Option<int> {
    if listed == [] then None
    else
      var t := listed[|listed| - 1];
      var before := FirstRise(listed[..|listed| - 1], night, runner);
      if Sinks(t, night, runner) then Sooner(before, night.below[t.name]) else before
  }

  // The wait of an idle runner ends at the first rise of a target that sank.
  lemma {:induction false} FirstRiseIsLeast(listed: seq<Named>, night: Night, runner: string)
    ensures var first := FirstRise(listed, night, runner);
            && (forall i :: 0 <= i < |listed| && Sinks(listed[i], night, runner) && night.below[listed[i].name].Some?
                  ==> first.Some? && first.value <= night.below[listed[i].name].value)
            && (first.Some? ==> exists i :: 0 <= i < |listed| && Sinks(listed[i], night, runner)
                                            && night.below[listed[i].name] == first)
  {
    if listed != [] {
      var front := listed[..|listed| - 1];
      FirstRiseIsLeast(front, night, runner);
      assert forall i :: 0 <= i < |front| ==> front[i] == listed[i];
    }
  }

  // One reservation's runner, over the API server's targets.
  class Runner {
    const name: string
    var store: map<string, Object>
    var nextRise: Option<int>

    constructor (name: string, store: map<string, Object>)
      ensures this.name == name && this.store == store
    {
      this.name, this.store, this.nextRise := name, store, None;
    }

    // The write that settles: composed from the copy, sent over its version, and
    // composed once more from a fresh copy when the server refuses it as stale. It
    // answers what was composed last.
    method Send(t: Named, compose: Object -> Option<Status>) returns (last: Option<Status>)
      requires t.name in store && MovedOn(t.api, store[t.name])
      modifies `store
      ensures last == if compose(t.api).None? || compose(t.api).value == t.api.status then compose(t.api)
                      else compose(old(store)[t.name])
      ensures store == old(store)[t.name := SettledOver(t.api, old(store)[t.name], compose)]
    {
      last := compose(t.api);
      if last.None? || last.value == t.api.status {
        return;
      }
      var current := store[t.name];
      if current.version != t.api.version {
        last := compose(current);
        if last.None? || last.value == current.status {
          return;
        }
      }
      store := store[t.name := current.(version := current.version + 1, status := last.value)];
    }

    // What claimNext does with one target.
    method Consider(t: Named, night: Night) returns (claimed: bool)
      requires t.name in store && MovedOn(t.api, store[t.name])
      modifies this
      ensures claimed <==> Takes(t, old(store)[t.name], night, name)
      ensures store == old(store)[t.name := if claimed then Claimed(t, old(store)[t.name], night, name)
                                            else Passed(t, old(store)[t.name], night, name)]
      ensures nextRise == if Sinks(t, night, name) then Sooner(old(nextRise), night.below[t.name]) else old(nextRise)
    {
      var camera, ready := t.name in night.cameras, night.ready + {name};
      if FailedOn(t.api, name) {
        return false;
      }
      if !Eligible(t.api, camera, ready, name) {
        var reason := WhyRelease(t.api, name);
        if reason.Some? {
          var _ := Send(t, Releasing(name, reason.value));
        }
        return false;
      }
      if t.name in night.below {
        nextRise := Sooner(nextRise, night.below[t.name]);
        var _ := Send(t, Lowering(name));
        return false;
      }
      var claim := Send(t, Claiming(t, night, name));
      return claim.Some?;
    }

    // The loop of claimNext over the targets in the order of byPriority. It
    // answers the index of the target it claimed, or the length. A claim that
    // the fresh copy refuses does not end the loop.
    method ClaimFirst(targets: seq<Named>, night: Night) returns (chosen: nat)
      requires Lists(targets, store)
      modifies this
      ensures chosen <= |targets| && store.Keys == old(store).Keys
      ensures forall k :: 0 <= k < chosen ==> !Takes(targets[k], old(store)[targets[k].name], night, name)
      ensures chosen < |targets| ==> Takes(targets[chosen], old(store)[targets[chosen].name], night, name)
      ensures Took(targets, chosen, old(store), store, night, name)
      ensures nextRise == FirstRise(targets[..chosen], night, name)
    {
      nextRise := None;
      chosen := 0;
      while chosen < |targets|
        invariant chosen <= |targets| && store.Keys == old(store).Keys && Held(targets, store)
        invariant nextRise == FirstRise(targets[..chosen], night, name)
        invariant forall k :: 0 <= k < chosen ==> !Takes(targets[k], old(store)[targets[k].name], night, name)
        invariant forall k :: 0 <= k < |targets| ==>
                    store[targets[k].name]
                    == if k < chosen then Passed(targets[k], old(store)[targets[k].name], night, name)
                       else old(store)[targets[k].name]
      {
        assert targets[..chosen + 1][..chosen] == targets[..chosen];
        var claimed := Consider(targets[chosen], night);
        if claimed {
          return;
        }
        chosen := chosen + 1;
      }
    }

    // The runner takes the target of the highest priority, then the oldest, then
    // the first name, among those that it can claim as they are listed and as
    // they are now. It releases what it can no longer image and marks what is
    // below the horizon only ahead of that target.
    method ClaimNext(listed: seq<Named>, night: Night) returns (claimed: Option<Named>)
      requires Lists(listed, store)
      modifies this
      ensures store.Keys == old(store).Keys && Held(listed, old(store))
      ensures claimed.None? ==> forall t :: t in listed ==>
                !Takes(t, old(store)[t.name], night, name)
                && store[t.name] == Passed(t, old(store)[t.name], night, name)
      ensures claimed.Some? ==>
                && claimed.value in listed && Takes(claimed.value, old(store)[claimed.value.name], night, name)
                && store[claimed.value.name] == Claimed(claimed.value, old(store)[claimed.value.name], night, name)
                && (forall t :: t in listed && t != claimed.value && Takes(t, old(store)[t.name], night, name) ==>
                      var p, q := claimed.value.api.spec.priority, t.api.spec.priority;
                      || q < p
                      || (q == p && claimed.value.created < t.created)
                      || (q == p && claimed.value.created == t.created && NameBefore(claimed.value.name, t.name)))
                && forall t :: t in listed && t != claimed.value ==>
                     store[t.name] == if Before(t, claimed.value) then Passed(t, old(store)[t.name], night, name)
                                      else old(store)[t.name]
      ensures claimed.None? ==> nextRise == FirstRise(InTurn(listed), night, name)
    {
      var targets := InTurn(listed);
      forall t ensures t in listed <==> t in targets {
        OrderIsAPreorder();
        SameMembers(listed, UpTo, t);
      }
      forall k | 0 <= k < |targets|
        ensures targets[k].name in store && MovedOn(targets[k].api, store[targets[k].name])
      {
        assert targets[k] in listed;
      }
      var chosen := ClaimFirst(targets, night);
      assert targets[..|targets|] == targets;
      TookInTurn(targets, chosen, old(store), store, night, name);
      if chosen == |targets| {
        return None;
      }
      NoneIsPreferred(targets, chosen, old(store), night, name);
      return Some(targets[chosen]);
    }

    // A restart finishes each frame in flight of the reservation: it counts
    // the frame when the outbox holds its file, and clears it either way.
    method Resume(listed: seq<Named>, inBox: set<FrameId>, claim: string)
      requires Lists(listed, store)
      modifies `store
      ensures store.Keys == old(store).Keys
      ensures forall t :: t in listed ==>
                t.name in store && store[t.name] == Finished(t.api, old(store)[t.name], name, inBox, claim)
    {
      for i := 0 to |listed|
        invariant store.Keys == old(store).Keys
        invariant forall k :: 0 <= k < |listed| ==>
                    store[listed[k].name]
                    == if k < i then Finished(listed[k].api, old(store)[listed[k].name], name, inBox, claim)
                       else old(store)[listed[k].name]
      {
        var t := listed[i];
        if t.api.status.exposure.Some? && t.api.status.exposure.value.reservation == name {
          var e := t.api.status.exposure.value;
          var _ := Send(t, Counting(e, e.frameID in inBox, claim, name));
        }
      }
    }

    // The supervisor ends each claim and each failure of a reservation that is
    // not Ready.
    method ReleaseEnded(listed: seq<Named>, ready: set<string>)
      requires Lists(listed, store)
      modifies `store
      ensures store.Keys == old(store).Keys
      ensures forall t :: t in listed ==>
                t.name in store && store[t.name] == EndsReleased(t.api, old(store)[t.name], ready)
    {
      for i := 0 to |listed|
        invariant store.Keys == old(store).Keys
        invariant forall k :: 0 <= k < |listed| ==>
                    store[listed[k].name]
                    == if k < i then EndsReleased(listed[k].api, old(store)[listed[k].name], ready)
                       else old(store)[listed[k].name]
      {
        var t := listed[i];
        var held, failed := t.api.status.reservation, t.api.status.failed;
        var claimEnded := held != "" && held !in ready;
        var failureEnded := failed.Some? && failed.value.reservation !in ready;
        if !claimEnded && !failureEnded {
          continue;
        }
        var _ := Send(t, Ending(if claimEnded then Some(held) else None, if failureEnded then failed else None));
      }
    }
  }

  function Counting(e: Exposure, counted: bool, claim: string, runner: string): Object -> Option<Status> {
    (o: Object) => AfterCount(o.spec, o.status, e, counted, claim, runner, false)
  }

  function Ending(ended: Option<string>, failure: Option<Failure>): Object -> Option<Status> {
    (o: Object) => AfterEnded(o.status, ended, failure)
  }

  // What the store holds after a pass over targets that claimed the one at
  // chosen, or none when chosen is their number.
  predicate Took(targets: seq<Named>, chosen: nat, before: map<string, Object>, store: map<string, Object>,
                 night: Night, runner: string) {
    && Held(targets, before) && Held(targets, store)
    && forall k :: 0 <= k < |targets| ==>
         store[targets[k].name] == if k < chosen then Passed(targets[k], before[targets[k].name], night, runner)
                                   else if k == chosen then Claimed(targets[k], before[targets[k].name], night, runner)
                                   else before[targets[k].name]
  }

  lemma TookInTurn(targets: seq<Named>, chosen: nat, before: map<string, Object>, store: map<string, Object>,
                   night: Night, runner: string)
    requires InOrder(targets) && chosen <= |targets| && Took(targets, chosen, before, store, night, runner)
    ensures chosen == |targets| ==>
              forall t :: t in targets ==> store[t.name] == Passed(t, before[t.name], night, runner)
    ensures chosen < |targets| ==>
              && store[targets[chosen].name] == Claimed(targets[chosen], before[targets[chosen].name], night, runner)
              && (forall k :: chosen < k < |targets| ==> Before(targets[chosen], targets[k]))
              && forall t :: t in targets && t != targets[chosen] ==>
                   store[t.name] == if Before(t, targets[chosen]) then Passed(t, before[t.name], night, runner)
                                    else before[t.name]
  {
    if chosen < |targets| { FirstInOrder(targets, chosen); }
  }

  // Every other target that could be taken has a lower priority, or is younger, or
  // has a later name.
  lemma NoneIsPreferred(targets: seq<Named>, chosen: nat, before: map<string, Object>, night: Night, runner: string)
    requires InOrder(targets) && chosen < |targets| && Held(targets, before)
    requires forall k :: 0 <= k < chosen ==> !Takes(targets[k], before[targets[k].name], night, runner)
    ensures forall t :: t in targets && t != targets[chosen] && Takes(t, before[t.name], night, runner) ==>
              var c := targets[chosen];
              var p, q := c.api.spec.priority, t.api.spec.priority;
              || q < p
              || (q == p && c.created < t.created)
              || (q == p && c.created == t.created && NameBefore(c.name, t.name))
  {
    forall t | t in targets && t != targets[chosen] && Takes(t, before[t.name], night, runner)
      ensures Before(targets[chosen], t)
    {
      var k :| 0 <= k < |targets| && targets[k] == t;
      assert chosen < k;
    }
  }

  lemma FirstInOrder(s: seq<Named>, i: nat)
    requires InOrder(s) && i < |s|
    ensures forall k :: 0 <= k < |s| ==> (Before(s[k], s[i]) <==> k < i) && (Before(s[i], s[k]) <==> i < k)
  {
    forall k | 0 <= k < |s| ensures (Before(s[k], s[i]) <==> k < i) && (Before(s[i], s[k]) <==> i < k) {
      OrderIsStrictAndTotal(s[k], s[i], s[k]);
      OrderIsStrictAndTotal(s[i], s[k], s[i]);
    }
  }

  // ---------------------------------------------------------------------------
  // What the passes mean

  function Finished(t: Object, now: Object, runner: string, inBox: set<FrameId>, claim: string): Object {
    if t.status.exposure.Some? && t.status.exposure.value.reservation == runner
    then
      var e := t.status.exposure.value;
      SettledOver(t, now, Counting(e, e.frameID in inBox, claim, runner))
    else now
  }

  function EndsReleased(t: Object, now: Object, ready: set<string>): Object {
    var held, failed := t.status.reservation, t.status.failed;
    var claimEnded := held != "" && held !in ready;
    var failureEnded := failed.Some? && failed.value.reservation !in ready;
    if !claimEnded && !failureEnded then now
    else SettledOver(t, now, Ending(if claimEnded then Some(held) else None, if failureEnded then failed else None))
  }

  // The frame that a listed copy has in flight is in flight no more, the outbox
  // entry grew exactly when the store's copy still had it in flight and the file
  // is in the outbox, and a second pass over the same list counts nothing.
  lemma ResumeCountsOnce(t: Object, now: Object, runner: string, inBox: set<FrameId>, claim: string)
    requires MovedOn(t, now) && t.status.exposure.Some? && t.status.exposure.value.reservation == runner
    ensures var f, m := t.status.exposure.value.frameID, Finished(t, now, runner, inBox, claim);
            var inFlight := now.status.exposure.Some? && now.status.exposure.value.frameID == f;
            && (m.status.exposure.Some? ==> m.status.exposure.value.frameID != f)
            && m.status.outboxes == (if inFlight && f in inBox then OneMore(now.status.outboxes, claim)
                                     else now.status.outboxes)
            && Finished(t, m, runner, inBox, claim) == m
  {
  }

  // After the supervisor's pass over a current list, every reservation and every
  // failure that a target names is Ready.
  lemma ReleaseEndedLeavesReady(t: Object, ready: set<string>)
    ensures var m := EndsReleased(t, t, ready);
            && (m.status.reservation != "" ==> m.status.reservation in ready)
            && (m.status.failed.Some? ==> m.status.failed.value.reservation in ready)
            && (t.status.reservation in ready ==> m.status.reservation == t.status.reservation
                                                  && m.status.exposure == t.status.exposure)
            && (t.status.reservation != "" && t.status.reservation !in ready ==> m.status.exposure.None?)
  {
  }

  // Over a list that the store has moved on from, the reservation that the list
  // showed as ended is gone, and any other claim is as it was.
  lemma OnlyTheEndedClaimGoes(t: Object, now: Object, ready: set<string>)
    requires MovedOn(t, now)
    ensures var m := EndsReleased(t, now, ready);
            if t.status.reservation != "" && t.status.reservation !in ready
               && now.status.reservation == t.status.reservation
            then m.status.reservation == "" && m.status.exposure.None?
            else m.status.reservation == now.status.reservation && m.status.exposure == now.status.exposure
  {
  }

  // A current target is claimed exactly when nobody suspended, deleted or finished
  // it, no other Ready reservation holds it, the session has a camera for it, it is
  // above the horizon, some sequence has work left, and the reservation did not
  // fail on it at this spec.
  lemma WhatIsTaken(t: Named, night: Night, runner: string)
    ensures Takes(t, t.api, night, runner) <==>
              && !t.api.spec.suspend && !t.api.deleting && !t.api.status.complete
              && (t.api.status.reservation == "" || t.api.status.reservation == runner
                  || t.api.status.reservation !in night.ready)
              && t.name in night.cameras && t.name !in night.below
              && (exists i :: 0 <= i < |t.api.spec.sequences|
                              && WorkLeft(Aligned(t.api.spec.sequences, t.api.status.sequences)[i]) > 0)
              && t.api.status.failed != Some(Failure(runner, t.api.generation))
  {
    var i := NextSequence(Aligned(t.api.spec.sequences, t.api.status.sequences));
    if i >= 0 { assert WorkLeft(Aligned(t.api.spec.sequences, t.api.status.sequences)[i]) > 0; }
  }

  // What a pass leaves of a current target that it does not claim: the runner's own
  // claim is released when the target is deleted, suspended, or done, and one below
  // the horizon that no other reservation holds is marked so.
  lemma WhatIsPassed(t: Named, night: Night, runner: string)
    requires !Takes(t, t.api, night, runner)
    ensures var m, s := Passed(t, t.api, night, runner), t.api.status;
            && m == t.api.(version := m.version, status := m.status)
            && (m.status.reservation != s.reservation ==>
                  s.reservation == runner && m.status.reservation == "" && m.status.exposure.None?)
            && (s.reservation == runner && s.reservation != "" && (t.api.deleting || t.api.spec.suspend)
                && !FailedOn(t.api, runner) ==>
                  m.status == s.(reservation := "", exposure := None,
                                 imaging := Released(if t.api.deleting then "Deleting" else "Suspended")))
            && (Sinks(t, night, runner) && (s.reservation == "" || s.reservation == runner) ==>
                  m.status.imaging.BelowHorizon? && (!s.imaging.BelowHorizon? ==> m.status.reservation == ""))
            && (m.status == s <==> m == t.api)
  {
  }

  // No sequence of the spec wants another frame.
  predicate AllExposed(t: Object) {
    forall i :: 0 <= i < |Aligned(t.spec.sequences, t.status.sequences)| ==>
      var p := Aligned(t.spec.sequences, t.status.sequences)[i]; p.archived + p.pending >= p.sequence.count
  }

  // And so is a claim whose sequences want no more frames.
  lemma AnExposedTargetIsReleased(t: Named, night: Night, runner: string)
    requires t.api.status.reservation == runner && runner != "" && AllExposed(t.api)
    requires !t.api.deleting && !t.api.spec.suspend && !FailedOn(t.api, runner)
    ensures !Takes(t, t.api, night, runner)
    ensures Passed(t, t.api, night, runner).status
         == t.api.status.(reservation := "", exposure := None, imaging := Released("SequencesDone"))
  {
    var p := Aligned(t.api.spec.sequences, t.api.status.sequences);
    assert forall i :: 0 <= i < |p| ==> WorkLeft(p[i]) == 0;
  }

  // A claim lands over the store's own copy: the target is then the runner's,
  // and no other Ready reservation held it. The one claim that the store does
  // not show is that of a copy which had it in place already, and is out of date.
  lemma AClaimLands(t: Named, now: Object, night: Night, runner: string)
    requires MovedOn(t.api, now) && Takes(t, now, night, runner)
    ensures var m := Claimed(t, now, night, runner);
            && (m.status.reservation == runner
                <==> Claiming(t, night, runner)(t.api) != Some(t.api.status) || now.status.reservation == runner)
            && (m != now ==>
                  && (now.status.reservation in night.ready ==> now.status.reservation in {"", runner})
                  && !now.deleting && !now.spec.suspend && !FailedOn(now, runner))
  {
  }
}
