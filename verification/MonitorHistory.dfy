// What the answers of a monitor hold mean over whole histories of reads.
// audio-operator/monitorhold.go.
module MonitorHistory {
  import opened Basics
  import opened Elds
  import opened Devices
  import opened MonitorHolds

  // ---------------------------------------------------------------------------
  // One slot: a run of reads

  function StateAfter(s: SlotState, run: seq<Read>, arms: bool): SlotState {
    if run == [] then s else ReadSlot(StateAfter(s, run[..|run| - 1], arms), run[|run| - 1], arms).1
  }

  function AnswerAt(s: SlotState, run: seq<Read>, k: nat, arms: bool): Endpoint
    requires k < |run|
  {
    ReadSlot(StateAfter(s, run[..k], arms), run[k], arms).0
  }

  predicate InTime(run: seq<Read>) {
    forall i, j :: 0 <= i < j < |run| ==> run[i].time <= run[j].time
  }

  predicate AllEmpty(run: seq<Read>) {
    forall i :: 0 <= i < |run| ==> !run[i].endpoint.monitor
  }

  function LitBy(e: Endpoint): SlotState {
    SlotState(Some(e), None)
  }

  // An empty read, before the ceiling, with an ELD change since the read before.
  predicate Moves(run: seq<Read>, j: nat)
    requires j < |run|
  {
    0 < j && run[j].count != run[j - 1].count && run[j].time - run[0].time < CEILING
  }

  // Read j closes an unbroken stretch of empty reads that is long enough.
  ghost predicate Settled(run: seq<Read>, j: nat)
    requires j < |run|
  {
    exists i :: 0 <= i <= j && run[j].time - run[i].time >= SETTLE
                && forall n :: i < n <= j ==> !Moves(run, n)
  }

  ghost predicate SettledBy(run: seq<Read>, k: nat)
    requires k < |run|
  {
    exists j :: 0 <= j <= k && Settled(run, j)
  }

  // The read that the hold runs from.
  function Since(run: seq<Read>, j: nat): (i: nat)
    requires j < |run|
    ensures i <= j && (i == 0 || Moves(run, i))
    ensures forall n :: i < n <= j ==> !Moves(run, n)
  {
    if j == 0 || Moves(run, j) then j else Since(run, j - 1)
  }

  lemma SettledSince(run: seq<Read>, j: nat)
    requires j < |run| && InTime(run)
    ensures Settled(run, j) <==> run[j].time - run[Since(run, j)].time >= SETTLE
  {
    if i :| 0 <= i <= j && run[j].time - run[i].time >= SETTLE && forall n :: i < n <= j ==> !Moves(run, n) {
      assert i >= Since(run, j);
    }
  }

  // How the hold stands after k + 1 empty reads.
  ghost predicate Stands(s: SlotState, e: Endpoint, run: seq<Read>, k: nat, arms: bool)
    requires k < |run|
  {
    if SettledBy(run, k) then s == Unknown
    else
      && s.lit == Some(e) && s.dark.Some?
      && s.dark.value.first == run[0].time && s.dark.value.since == run[Since(run, k)].time
      && (s.dark.value.seen == run[k].count || run[k].time - run[0].time >= CEILING)
      && s.dark.value.timer == Deadline(s.dark.value.since, arms)
  }

  // One more empty read of a slot that is held.
  lemma OneMoreEmptyRead(s: SlotState, e: Endpoint, run: seq<Read>, k: nat, arms: bool)
    requires 0 < k < |run| && InTime(run) && AllEmpty(run)
    requires Stands(s, e, run, k - 1, arms) && !SettledBy(run, k - 1)
    ensures Stands(ReadSlot(s, run[k], arms).1, e, run, k, arms)
    ensures ReadSlot(s, run[k], arms).0 == if SettledBy(run, k) then run[k].endpoint else e
  {
    assert Restarts(s.dark.value, run[k]) <==> Moves(run, k);
    SettledSince(run, k);
    assert SettledBy(run, k) <==> Settled(run, k);
  }

  // The first empty read of a lit slot is held.
  lemma FirstEmptyRead(e: Endpoint, run: seq<Read>, arms: bool)
    requires 0 < |run| && !run[0].endpoint.monitor
    ensures Stands(ReadSlot(LitBy(e), run[0], arms).1, e, run, 0, arms)
    ensures ReadSlot(LitBy(e), run[0], arms).0 == e && !SettledBy(run, 0)
  {
    assert !Settled(run, 0);
  }

  lemma {:induction false} DropStands(e: Endpoint, run: seq<Read>, k: nat, arms: bool)
    requires k < |run| && InTime(run) && AllEmpty(run)
    ensures Stands(StateAfter(LitBy(e), run[..k + 1], arms), e, run, k, arms)
    ensures AnswerAt(LitBy(e), run, k, arms) == if SettledBy(run, k) then run[k].endpoint else e
  {
    assert run[..k + 1][..k] == run[..k];
    assert StateAfter(LitBy(e), run[..k + 1], arms) == ReadSlot(StateAfter(LitBy(e), run[..k], arms), run[k], arms).1;
    if k == 0 {
      FirstEmptyRead(e, run, arms);
    } else {
      DropStands(e, run, k - 1, arms);
      if !SettledBy(run, k - 1) {
        OneMoreEmptyRead(StateAfter(LitBy(e), run[..k], arms), e, run, k, arms);
      }
    }
  }

  // However often its ELD changes, a slot that was read empty once is settled
  // by the ceiling and one settle more.
  lemma SettledByTheCeiling(run: seq<Read>, k: nat)
    requires k < |run| && InTime(run)
    requires run[k].time >= run[0].time + CEILING + SETTLE
    ensures SettledBy(run, k)
  {
    SettledSince(run, k);
  }

  // A read without a change since the hold's read, or after the ceiling, leaves
  // the hold running from where it ran.
  lemma NothingMoves(run: seq<Read>, k: nat)
    requires 0 < k < |run| && InTime(run) && !SettledBy(run, k - 1)
    requires run[k].count == run[k - 1].count || run[k].time - run[0].time >= CEILING
    ensures SettledBy(run, k) <==> run[k].time - run[Since(run, k - 1)].time >= SETTLE
  {
    assert !Moves(run, k);
    SettledSince(run, k);
    assert SettledBy(run, k) <==> Settled(run, k);
  }

  // The timer of a held slot wakes the pass that reports it: a read at the
  // deadline, with no ELD change since, is answered empty.
  lemma TheDeadlineReports(e: Endpoint, run: seq<Read>, k: nat)
    requires 0 < k < |run| && InTime(run) && AllEmpty(run) && !SettledBy(run, k - 1)
    requires run[k].count == run[k - 1].count || run[k].time - run[0].time >= CEILING
    ensures var held := StateAfter(LitBy(e), run[..k], true);
            && held.dark.Some? && held.dark.value.timer.Some?
            && (AnswerAt(LitBy(e), run, k, true) == run[k].endpoint && SettledBy(run, k)
                <==> run[k].time >= held.dark.value.timer.value)
  {
    DropStands(e, run, k - 1, true);
    DropStands(e, run, k, true);
    NothingMoves(run, k);
    assert run[..k - 1 + 1] == run[..k];
  }

  // The bound counts from the first empty read, not from the moment that the
  // monitor left: the first empty read is held, however late it comes.
  lemma TheFirstEmptyReadIsHeld(e: Endpoint, r: Read, arms: bool)
    requires !r.endpoint.monitor
    ensures AnswerAt(LitBy(e), [r], 0, arms) == e
  {
    DropStands(e, [r], 0, arms);
    SettledSince([r], 0);
  }

  // ---------------------------------------------------------------------------
  // One slot: any history

  lemma {:induction false} StateComposes(s: SlotState, a: seq<Read>, b: seq<Read>, arms: bool)
    ensures StateAfter(s, a + b, arms) == StateAfter(StateAfter(s, a, arms), b, arms)
  {
    if b == [] {
      assert a + b == a;
    } else {
      StateComposes(s, a, b[..|b| - 1], arms);
      assert (a + b)[..|a + b| - 1] == a + b[..|b| - 1];
    }
  }

  lemma AnswerComposes(s: SlotState, run: seq<Read>, m: nat, k: nat, arms: bool)
    requires m <= k < |run|
    ensures AnswerAt(s, run, k, arms) == AnswerAt(StateAfter(s, run[..m], arms), run[m..], k - m, arms)
  {
    StateComposes(s, run[..m], run[m..k], arms);
    assert run[..m] + run[m..k] == run[..k];
    assert run[m..][..k - m] == run[m..k];
  }

  // From read m to read k the slot read empty.
  predicate EmptyFrom(run: seq<Read>, m: nat, k: nat) {
    m <= k < |run| && AllEmpty(run[m..k + 1])
  }

  // A lit read is answered as it is. After it, each empty read of one outage is
  // answered by that very reading, until the outage has settled, and as it is
  // from then on.
  lemma AnswersSinceTheLitRead(s: SlotState, run: seq<Read>, m: nat, k: nat, arms: bool)
    requires m < k && InTime(run) && EmptyFrom(run, m + 1, k) && run[m].endpoint.monitor
    ensures AnswerAt(s, run, m, arms) == run[m].endpoint
    ensures AnswerAt(s, run, k, arms)
            == if SettledBy(run[m + 1..k + 1], k - m - 1) then run[k].endpoint else run[m].endpoint
  {
    var drop := run[m + 1..k + 1];
    assert run[..m + 1][..m] == run[..m];
    assert run[..k + 1][..k] == run[..k];
    AnswerComposes(s, run[..k + 1], m + 1, k, arms);
    assert run[..k + 1][..m + 1] == run[..m + 1];
    assert run[..k + 1][m + 1..] == drop;
    DropStands(run[m].endpoint, drop, k - m - 1, arms);
  }

  // A slot that nothing lit is answered as it reads.
  lemma {:induction false} NeverLit(run: seq<Read>, k: nat, arms: bool)
    requires k < |run| && AllEmpty(run[..k + 1])
    ensures StateAfter(Unknown, run[..k + 1], arms) == Unknown
    ensures AnswerAt(Unknown, run, k, arms) == run[k].endpoint
  {
    assert run[..k + 1][..k] == run[..k];
    if k > 0 {
      assert run[..k + 1][..k - 1 + 1] == run[..k];
      NeverLit(run, k - 1, arms);
    }
    assert run[..k + 1][k] == run[k];
  }

  // What every history leaves of a slot: the hold of an outage never runs from a
  // read after the ceiling, and the outage opened at a read.
  predicate Sane(s: SlotState, time: int) {
    s.dark.Some? ==> s.lit.Some? && s.dark.value.first <= time && s.dark.value.since < s.dark.value.first + CEILING
  }

  lemma {:induction false} HistoriesAreSane(s: SlotState, run: seq<Read>, arms: bool, time: int)
    requires InTime(run) && forall i :: 0 <= i < |run| ==> run[i].time <= time
    requires Sane(s, if run == [] then time else run[0].time)
    ensures Sane(StateAfter(s, run, arms), time)
  {
    if run != [] {
      var n := |run| - 1;
      HistoriesAreSane(s, run[..n], arms, run[n].time);
    }
  }

  // Dark since read f or before it, or not lit at all.
  predicate DarkSince(s: SlotState, first: int) {
    s.lit.None? || (s.dark.Some? && s.dark.value.first <= first && s.dark.value.since < s.dark.value.first + CEILING)
  }

  lemma {:induction false} EmptyReadsStayDark(s: SlotState, run: seq<Read>, k: nat, arms: bool)
    requires k < |run| && InTime(run) && AllEmpty(run[..k + 1]) && Sane(s, run[0].time)
    ensures DarkSince(StateAfter(s, run[..k + 1], arms), run[0].time)
  {
    assert run[..k + 1][..k] == run[..k] && run[..k + 1][k] == run[k];
    if k > 0 {
      assert forall i :: 0 <= i < k ==> run[..k][i] == run[..k + 1][i];
      EmptyReadsStayDark(s, run, k - 1, arms);
    }
  }

  // A monitor that left is reported: by the ceiling and one settle after any
  // read since which the slot only read empty, it is answered empty, whatever
  // its ELD does in between.
  lemma AMonitorThatLeftIsReported(s: SlotState, run: seq<Read>, f: nat, k: nat, arms: bool)
    requires InTime(run) && EmptyFrom(run, f, k) && Sane(s, run[0].time)
    requires run[k].time >= run[f].time + CEILING + SETTLE
    ensures AnswerAt(s, run, k, arms) == run[k].endpoint
  {
    var mid, tail := StateAfter(s, run[..f], arms), run[f..];
    assert f < k && tail[0] == run[f];
    HistoriesAreSane(s, run[..f], arms, run[f].time);
    assert tail[..k - f] == run[f..k + 1][..k - f];
    assert tail[..k - f - 1 + 1] == tail[..k - f];
    EmptyReadsStayDark(mid, tail, k - f - 1, arms);
    AnswerComposes(s, run, f, k, arms);
    assert run[f..k + 1][k - f] == run[k];
  }

  // ---------------------------------------------------------------------------
  // One pass over the card

  // What the card's enumeration gives: one endpoint for a slot, one for a name.
  predicate WellFormed(endpoints: seq<Endpoint>) {
    forall i, j :: 0 <= i < j < |endpoints| && CanBeHeld(endpoints[i]) && CanBeHeld(endpoints[j]) ==>
      SlotOf(endpoints[i]) != SlotOf(endpoints[j]) && endpoints[i].name != endpoints[j].name
  }

  lemma OtherSlotStays(h: Hold, e: Endpoint, now: int, arms: bool, slot: Slot)
    requires CanBeHeld(e) ==> SlotOf(e) != slot
    ensures StateOf(ApplyOne(h, e, now, arms).1, slot) == StateOf(h, slot)
  {
  }

  lemma ChangesStay(h: Hold, e: Endpoint, now: int, arms: bool)
    ensures ApplyOne(h, e, now, arms).1.changes == h.changes
    ensures ApplyOne(h, e, now, arms).1.seeds == if CanBeHeld(e) then h.seeds - {e.name} else h.seeds
  {
  }

  lemma OwnSlotReads(h: Hold, e: Endpoint, now: int, arms: bool)
    requires CanBeHeld(e)
    ensures var s := StateOf(PlantSeed(h, e), SlotOf(e));
            var next := ReadSlot(s, Read(now, e, ChangesOf(h.changes, SlotOf(e))), arms);
            && ApplyOne(h, e, now, arms).0 == next.0
            && StateOf(ApplyOne(h, e, now, arms).1, SlotOf(e)) == next.1
  {
  }

  predicate NoneAt(endpoints: seq<Endpoint>, slot: Slot) {
    forall i :: 0 <= i < |endpoints| && CanBeHeld(endpoints[i]) ==> SlotOf(endpoints[i]) != slot
  }

  predicate NoneNamed(endpoints: seq<Endpoint>, name: string) {
    forall i :: 0 <= i < |endpoints| && CanBeHeld(endpoints[i]) ==> endpoints[i].name != name
  }

  lemma {:induction false} OthersLeaveTheSlot(h: Hold, endpoints: seq<Endpoint>, now: int, arms: bool, slot: Slot,
                                              name: string)
    ensures NoneAt(endpoints, slot) ==> StateOf(After(h, endpoints, now, arms), slot) == StateOf(h, slot)
    ensures After(h, endpoints, now, arms).changes == h.changes
    ensures NoneNamed(endpoints, name) ==>
              && (name in After(h, endpoints, now, arms).seeds <==> name in h.seeds)
              && (name in h.seeds ==> After(h, endpoints, now, arms).seeds[name] == h.seeds[name])
  {
    if endpoints != [] {
      var n := |endpoints| - 1;
      OthersLeaveTheSlot(h, endpoints[..n], now, arms, slot, name);
      var before := After(h, endpoints[..n], now, arms);
      ChangesStay(before, endpoints[n], now, arms);
      if NoneAt(endpoints, slot) { OtherSlotStays(before, endpoints[n], now, arms, slot); }
    }
  }

  lemma LastReadsItsSlot(h: Hold, endpoints: seq<Endpoint>, e: Endpoint, now: int, arms: bool)
    requires CanBeHeld(e) && NoneAt(endpoints, SlotOf(e)) && NoneNamed(endpoints, e.name)
    ensures var read := Read(now, e, ChangesOf(h.changes, SlotOf(e)));
            var next := ReadSlot(StateOf(PlantSeed(h, e), SlotOf(e)), read, arms);
            var before := After(h, endpoints, now, arms);
            ApplyOne(before, e, now, arms).0 == next.0 && StateOf(ApplyOne(before, e, now, arms).1, SlotOf(e)) == next.1
  {
    var before := After(h, endpoints, now, arms);
    OthersLeaveTheSlot(h, endpoints, now, arms, SlotOf(e), e.name);
    OwnSlotReads(before, e, now, arms);
    assert StateOf(PlantSeed(before, e), SlotOf(e)) == StateOf(PlantSeed(h, e), SlotOf(e));
  }

  lemma {:induction false} PassReadsTheSlot(h: Hold, endpoints: seq<Endpoint>, now: int, arms: bool, i: nat)
    requires WellFormed(endpoints) && i < |endpoints| && CanBeHeld(endpoints[i])
    ensures var e := endpoints[i];
            var read := Read(now, e, ChangesOf(h.changes, SlotOf(e)));
            var next := ReadSlot(StateOf(PlantSeed(h, e), SlotOf(e)), read, arms);
            && Answers(h, endpoints, now, arms)[i] == next.0
            && StateOf(After(h, endpoints, now, arms), SlotOf(e)) == next.1
  {
    var e, n := endpoints[i], |endpoints| - 1;
    if i == n {
      LastReadsItsSlot(h, endpoints[..n], e, now, arms);
    } else {
      PassReadsTheSlot(h, endpoints[..n], now, arms, i);
      OtherSlotStays(After(h, endpoints[..n], now, arms), endpoints[n], now, arms, SlotOf(e));
    }
  }

  // An endpoint that carries no ELD passes through unchanged.
  lemma {:induction false} OthersPassThrough(h: Hold, endpoints: seq<Endpoint>, now: int, arms: bool, i: nat)
    requires i < |endpoints| && (!endpoints[i].hdmi || endpoints[i].capture)
    ensures Answers(h, endpoints, now, arms)[i] == endpoints[i]
  {
    if i < |endpoints| - 1 { OthersPassThrough(h, endpoints[..|endpoints| - 1], now, arms, i); }
  }

  // ---------------------------------------------------------------------------
  // A run of passes and control events

  datatype Event = Control(event: ControlEvent) | Pass(now: int, endpoints: seq<Endpoint>)

  function Next(h: Hold, event: Event, arms: bool): Hold {
    match event
    case Control(c) => AfterEvent(h, c)
    case Pass(now, endpoints) => After(h, endpoints, now, arms).(seeds := map[])
  }

  function HoldAfter(h: Hold, events: seq<Event>, arms: bool): Hold {
    if events == [] then h else Next(HoldAfter(h, events[..|events| - 1], arms), events[|events| - 1], arms)
  }

  function IndexAt(endpoints: seq<Endpoint>, slot: Slot): (i: int)
    ensures -1 <= i < |endpoints|
    ensures i >= 0 ==> CanBeHeld(endpoints[i]) && SlotOf(endpoints[i]) == slot
    ensures i < 0 ==> NoneAt(endpoints, slot)
  {
    if endpoints == [] then -1
    else
      var n := |endpoints| - 1;
      if CanBeHeld(endpoints[n]) && SlotOf(endpoints[n]) == slot then n else IndexAt(endpoints[..n], slot)
  }

  // How many ELD changes of a slot the card reported.
  function Heard(events: seq<Event>, slot: Slot): nat {
    if events == [] then 0
    else
      var last := events[|events| - 1];
      Heard(events[..|events| - 1], slot)
      + if last.Control? && last.event.name == ELD_ELEMENT
        && Slot(last.event.card, last.event.device) == slot then 1 else 0
  }

  // The reads of a slot in a run, and the answers that the passes gave.
  function ReadsOf(events: seq<Event>, slot: Slot, base: nat): seq<Read> {
    if events == [] then []
    else
      var before, last := events[..|events| - 1], events[|events| - 1];
      if last.Pass? && IndexAt(last.endpoints, slot) >= 0
      then ReadsOf(before, slot, base)
           + [Read(last.now, last.endpoints[IndexAt(last.endpoints, slot)], base + Heard(before, slot))]
      else ReadsOf(before, slot, base)
  }

  function AnswersOf(h: Hold, events: seq<Event>, slot: Slot, arms: bool): seq<Endpoint> {
    if events == [] then []
    else
      var before, last := events[..|events| - 1], events[|events| - 1];
      if last.Pass? && IndexAt(last.endpoints, slot) >= 0
      then AnswersOf(h, before, slot, arms)
           + [Answers(HoldAfter(h, before, arms), last.endpoints, last.now, arms)[IndexAt(last.endpoints, slot)]]
      else AnswersOf(h, before, slot, arms)
  }

  predicate PassesWellFormed(events: seq<Event>) {
    forall i :: 0 <= i < |events| && events[i].Pass? ==> WellFormed(events[i].endpoints)
  }

  // The first pass of a run, the one that takes the seeds, or -1.
  function FirstPass(events: seq<Event>): (i: int)
    ensures -1 <= i < |events| && (i >= 0 ==> events[i].Pass?)
  {
    if events == [] then -1
    else
      var n := |events| - 1;
      if FirstPass(events[..n]) >= 0 then FirstPass(events[..n]) else if events[n].Pass? then n else -1
  }

  // What the hold knows of a slot when its first pass reads it.
  function Start(h: Hold, events: seq<Event>, slot: Slot): SlotState {
    var f := FirstPass(events);
    if f < 0 || IndexAt(events[f].endpoints, slot) < 0 then StateOf(h, slot)
    else StateOf(PlantSeed(h, events[f].endpoints[IndexAt(events[f].endpoints, slot)]), slot)
  }

  lemma {:induction false} ChangesAreHeard(h: Hold, events: seq<Event>, slot: Slot, arms: bool)
    ensures ChangesOf(HoldAfter(h, events, arms).changes, slot) == ChangesOf(h.changes, slot) + Heard(events, slot)
  {
    if events != [] {
      var n := |events| - 1;
      ChangesAreHeard(h, events[..n], slot, arms);
      if events[n].Pass? {
        OthersLeaveTheSlot(HoldAfter(h, events[..n], arms), events[n].endpoints, events[n].now, arms, slot, "");
      }
    }
  }

  // The seeds stand until the first pass, and no later.
  lemma {:induction false} SeedsServeTheFirstPass(h: Hold, events: seq<Event>, slot: Slot, arms: bool)
    ensures var held := HoldAfter(h, events, arms);
            if FirstPass(events) >= 0 then held.seeds == map[]
            else held.seeds == h.seeds && held.lit == h.lit && held.dark == h.dark
    ensures FirstPass(events) < 0 ==> ReadsOf(events, slot, ChangesOf(h.changes, slot)) == []
  {
    if events != [] {
      SeedsServeTheFirstPass(h, events[..|events| - 1], slot, arms);
    }
  }

  function ReadOf(h: Hold, event: Event, slot: Slot): Option<Read> {
    if event.Pass? && IndexAt(event.endpoints, slot) >= 0
    then Some(Read(event.now, event.endpoints[IndexAt(event.endpoints, slot)], ChangesOf(h.changes, slot)))
    else None
  }

  // What the hold knows of a slot when an event reads it.
  function Planted(h: Hold, event: Event, slot: Slot): SlotState {
    if event.Pass? && IndexAt(event.endpoints, slot) >= 0
    then StateOf(PlantSeed(h, event.endpoints[IndexAt(event.endpoints, slot)]), slot)
    else StateOf(h, slot)
  }

  lemma OneEventReads(h: Hold, event: Event, slot: Slot, arms: bool)
    requires event.Pass? ==> WellFormed(event.endpoints)
    ensures ReadOf(h, event, slot).None? ==> StateOf(Next(h, event, arms), slot) == StateOf(h, slot)
    ensures ReadOf(h, event, slot).Some? ==>
              var next := ReadSlot(Planted(h, event, slot), ReadOf(h, event, slot).value, arms);
              && StateOf(Next(h, event, arms), slot) == next.1
              && Answers(h, event.endpoints, event.now, arms)[IndexAt(event.endpoints, slot)] == next.0
  {
    if event.Pass? {
      var i := IndexAt(event.endpoints, slot);
      if i >= 0 {
        PassReadsTheSlot(h, event.endpoints, event.now, arms, i);
      } else {
        OthersLeaveTheSlot(h, event.endpoints, event.now, arms, slot, "");
      }
    }
  }

  // A run that goes on: the slot starts as before, unless this is the first
  // pass, in front of which nothing was read.
  lemma StartStands(h: Hold, before: seq<Event>, last: Event, slot: Slot, arms: bool)
    ensures var run := ReadsOf(before, slot, ChangesOf(h.changes, slot)); var held := HoldAfter(h, before, arms);
            if FirstPass(before) >= 0
            then Start(h, before + [last], slot) == Start(h, before, slot) && held.seeds == map[]
            else run == [] && Start(h, before + [last], slot) == Planted(held, last, slot)
                 && Start(h, before, slot) == StateOf(held, slot)
  {
    SeedsServeTheFirstPass(h, before, slot, arms);
    assert (before + [last])[..|before|] == before;
  }

  predicate AnswersAre(answers: seq<Endpoint>, s: SlotState, run: seq<Read>, arms: bool) {
    |answers| == |run| && forall k :: 0 <= k < |run| ==> answers[k] == AnswerAt(s, run, k, arms)
  }

  lemma OneMoreRead(s: SlotState, run: seq<Read>, r: Read, answers: seq<Endpoint>, answer: Endpoint, arms: bool)
    requires AnswersAre(answers, s, run, arms) && answer == ReadSlot(StateAfter(s, run, arms), r, arms).0
    ensures AnswersAre(answers + [answer], s, run + [r], arms)
    ensures StateAfter(s, run + [r], arms) == ReadSlot(StateAfter(s, run, arms), r, arms).1
  {
    assert forall k :: 0 <= k <= |run| ==> (run + [r])[..k] == run[..k];
    assert run[..|run|] == run;
  }

  // What one event adds to the reads of a slot and to their answers.
  lemma OneEventAdds(h: Hold, before: seq<Event>, last: Event, slot: Slot, arms: bool)
    ensures var events, base := before + [last], ChangesOf(h.changes, slot);
            var r := ReadOf(HoldAfter(h, before, arms), last, slot);
            && ReadsOf(events, slot, base) == ReadsOf(before, slot, base) + (if r.None? then [] else [r.value])
            && AnswersOf(h, events, slot, arms)
               == AnswersOf(h, before, slot, arms)
                  + (if r.None? then []
                     else
                       var answers := Answers(HoldAfter(h, before, arms), last.endpoints, last.now, arms);
                       [answers[IndexAt(last.endpoints, slot)]])
  {
    ChangesAreHeard(h, before, slot, arms);
    assert (before + [last])[..|before|] == before;
  }

  // One event more, seen at one slot: no read, or one that goes on from what the
  // run had left of the slot.
  lemma OneEventMore(h: Hold, before: seq<Event>, last: Event, slot: Slot, arms: bool, r: Option<Read>)
    requires (last.Pass? ==> WellFormed(last.endpoints)) && r == ReadOf(HoldAfter(h, before, arms), last, slot)
    requires StateOf(HoldAfter(h, before, arms), slot)
             == StateAfter(Start(h, before, slot), ReadsOf(before, slot, ChangesOf(h.changes, slot)), arms)
    ensures var run, events := ReadsOf(before, slot, ChangesOf(h.changes, slot)), before + [last];
            var s := Start(h, events, slot);
            && (r.None? ==> StateOf(HoldAfter(h, events, arms), slot) == StateAfter(s, run, arms))
            && (r.Some? ==>
                  && StateOf(HoldAfter(h, events, arms), slot) == ReadSlot(StateAfter(s, run, arms), r.value, arms).1
                  && Answers(HoldAfter(h, before, arms), last.endpoints, last.now, arms)[IndexAt(last.endpoints, slot)]
                     == ReadSlot(StateAfter(s, run, arms), r.value, arms).0)
            && (run == [] || s == Start(h, before, slot))
  {
    StartStands(h, before, last, slot, arms);
    OneEventReads(HoldAfter(h, before, arms), last, slot, arms);
    assert (before + [last])[..|before|] == before;
  }

  // The card's passes, seen at one slot, are the reads of that slot alone, from
  // what the hold knew of it, or from its seed.
  lemma {:induction false} RunReadsEachSlot(h: Hold, events: seq<Event>, slot: Slot, arms: bool)
    requires PassesWellFormed(events)
    ensures var run := ReadsOf(events, slot, ChangesOf(h.changes, slot));
            && StateOf(HoldAfter(h, events, arms), slot) == StateAfter(Start(h, events, slot), run, arms)
            && AnswersAre(AnswersOf(h, events, slot, arms), Start(h, events, slot), run, arms)
  {
    if events != [] {
      var n := |events| - 1;
      RunReadsEachSlot(h, events[..n], slot, arms);
      OneEventGoesOn(h, events[..n], events[n], slot, arms);
      assert events == events[..n] + [events[n]];
    }
  }

  lemma OneEventGoesOn(h: Hold, before: seq<Event>, last: Event, slot: Slot, arms: bool)
    requires last.Pass? ==> WellFormed(last.endpoints)
    requires var run := ReadsOf(before, slot, ChangesOf(h.changes, slot));
             && StateOf(HoldAfter(h, before, arms), slot) == StateAfter(Start(h, before, slot), run, arms)
             && AnswersAre(AnswersOf(h, before, slot, arms), Start(h, before, slot), run, arms)
    ensures var events := before + [last]; var run := ReadsOf(events, slot, ChangesOf(h.changes, slot));
            && StateOf(HoldAfter(h, events, arms), slot) == StateAfter(Start(h, events, slot), run, arms)
            && AnswersAre(AnswersOf(h, events, slot, arms), Start(h, events, slot), run, arms)
  {
    var run, r := ReadsOf(before, slot, ChangesOf(h.changes, slot)), ReadOf(HoldAfter(h, before, arms), last, slot);
    var s, answers := Start(h, before + [last], slot), AnswersOf(h, before, slot, arms);
    OneEventMore(h, before, last, slot, arms, r);
    OneEventAdds(h, before, last, slot, arms);
    assert AnswersAre(answers, s, run, arms);
    if r.Some? {
      var answer := Answers(HoldAfter(h, before, arms), last.endpoints, last.now, arms)[IndexAt(last.endpoints, slot)];
      OneMoreRead(s, run, r.value, answers, answer, arms);
    }
  }

  // ---------------------------------------------------------------------------
  // The two promises, over whole runs of one process

  predicate PassesInTime(events: seq<Event>) {
    forall i, j :: 0 <= i < j < |events| && events[i].Pass? && events[j].Pass? ==> events[i].now <= events[j].now
  }

  ghost predicate PassAt(events: seq<Event>, time: int) {
    exists i :: 0 <= i < |events| && events[i].Pass? && events[i].now == time
  }

  lemma {:induction false} ReadsArePasses(events: seq<Event>, slot: Slot, base: nat)
    ensures forall k :: 0 <= k < |ReadsOf(events, slot, base)| ==> PassAt(events, ReadsOf(events, slot, base)[k].time)
  {
    if events != [] {
      var n := |events| - 1;
      ReadsArePasses(events[..n], slot, base);
      var run, all := ReadsOf(events[..n], slot, base), ReadsOf(events, slot, base);
      forall k | 0 <= k < |all| ensures PassAt(events, all[k].time) {
        if k < |run| {
          assert PassAt(events[..n], run[k].time);
          var i :| 0 <= i < n && events[..n][i].Pass? && events[..n][i].now == run[k].time;
          assert events[i].Pass? && events[i].now == all[k].time;
        } else {
          assert events[n].Pass? && events[n].now == all[k].time;
        }
      }
    }
  }

  lemma {:induction false} ReadsComeInTime(events: seq<Event>, slot: Slot, base: nat)
    requires PassesInTime(events)
    ensures InTime(ReadsOf(events, slot, base))
  {
    if events != [] {
      var n := |events| - 1;
      ReadsComeInTime(events[..n], slot, base);
      ReadsArePasses(events[..n], slot, base);
      var run, all := ReadsOf(events[..n], slot, base), ReadsOf(events, slot, base);
      forall i, j | 0 <= i < j < |all| ensures all[i].time <= all[j].time {
        if j == |run| {
          assert PassAt(events[..n], run[i].time);
          var k :| 0 <= k < n && events[..n][k].Pass? && events[..n][k].now == run[i].time;
          assert events[k].now <= events[n].now;
        }
      }
    }
  }

  // A slot's drop is invisible until it has settled: over any run, an empty read
  // is answered by the last lit reading of the slot until then, and by itself
  // from then on.
  lemma AShortDropIsInvisible(h: Hold, events: seq<Event>, slot: Slot, arms: bool, m: nat, k: nat)
    requires PassesWellFormed(events) && PassesInTime(events)
    requires var run := ReadsOf(events, slot, ChangesOf(h.changes, slot));
             m < k && EmptyFrom(run, m + 1, k) && run[m].endpoint.monitor
    ensures var run, answers := ReadsOf(events, slot, ChangesOf(h.changes, slot)), AnswersOf(h, events, slot, arms);
            && |answers| == |run|
            && answers[m] == run[m].endpoint
            && answers[k] == if SettledBy(run[m + 1..k + 1], k - m - 1) then run[k].endpoint else run[m].endpoint
  {
    RunReadsEachSlot(h, events, slot, arms);
    var run := ReadsOf(events, slot, ChangesOf(h.changes, slot));
    ReadsComeInTime(events, slot, ChangesOf(h.changes, slot));
    AnswersSinceTheLitRead(Start(h, events, slot), run, m, k, arms);
  }

  // A drop of less than five seconds never shows, whatever its ELD does.
  lemma FiveSecondsNeverShow(h: Hold, events: seq<Event>, slot: Slot, arms: bool, m: nat, k: nat)
    requires PassesWellFormed(events) && PassesInTime(events)
    requires var run := ReadsOf(events, slot, ChangesOf(h.changes, slot));
             && m < k && EmptyFrom(run, m + 1, k) && run[m].endpoint.monitor
             && run[k].time < run[m + 1].time + 5
    ensures var run, answers := ReadsOf(events, slot, ChangesOf(h.changes, slot)), AnswersOf(h, events, slot, arms);
            |answers| == |run| && answers[k] == run[m].endpoint
  {
    var run := ReadsOf(events, slot, ChangesOf(h.changes, slot));
    AShortDropIsInvisible(h, events, slot, arms, m, k);
    ReadsComeInTime(events, slot, ChangesOf(h.changes, slot));
    var drop := run[m + 1..k + 1];
    assert forall i :: 0 <= i < |drop| ==> drop[i] == run[m + 1 + i];
    forall j | 0 <= j <= k - m - 1 ensures !Settled(drop, j) {
      assert drop[j].time <= drop[|drop| - 1].time;
      assert forall i :: 0 <= i <= j ==> drop[0].time <= drop[i].time;
    }
  }

  // So is a drop that the run opens in: the lit reading is then the one that the
  // slot starts with, a seed's or the hold's own.
  lemma ADropFromTheStart(h: Hold, events: seq<Event>, slot: Slot, arms: bool, k: nat)
    requires PassesWellFormed(events) && PassesInTime(events) && Start(h, events, slot).dark.None?
    requires EmptyFrom(ReadsOf(events, slot, ChangesOf(h.changes, slot)), 0, k)
    ensures var run, answers := ReadsOf(events, slot, ChangesOf(h.changes, slot)), AnswersOf(h, events, slot, arms);
            && |answers| == |run|
            && answers[k] == if Start(h, events, slot).lit.None? || SettledBy(run[..k + 1], k) then run[k].endpoint
                             else Start(h, events, slot).lit.value
  {
    RunReadsEachSlot(h, events, slot, arms);
    var run, s := ReadsOf(events, slot, ChangesOf(h.changes, slot)), Start(h, events, slot);
    ReadsComeInTime(events, slot, ChangesOf(h.changes, slot));
    assert run[0..k + 1] == run[..k + 1];
    if s.lit.None? {
      NeverLit(run, k, arms);
    } else {
      assert run[..k + 1][..k] == run[..k] && run[..k + 1][k] == run[k];
      DropStands(s.lit.value, run[..k + 1], k, arms);
    }
  }

  lemma SeedsLeaveItSane(h: Hold, events: seq<Event>, slot: Slot, time: int)
    requires Sane(StateOf(h, slot), time)
    ensures Sane(Start(h, events, slot), time)
  {
  }

  // A monitor that left shows: over any run, from any seeds, and from whatever
  // an earlier run left, a pass finds the slot empty when it reads it empty and
  // has read it so, and never lit, since a read the ceiling and one settle before:
  // fifteen seconds and five.
  lemma AMonitorThatLeftShows(h: Hold, events: seq<Event>, slot: Slot, arms: bool, f: nat, k: nat)
    requires PassesWellFormed(events) && PassesInTime(events)
    requires var run := ReadsOf(events, slot, ChangesOf(h.changes, slot));
             && EmptyFrom(run, f, k) && run[k].time >= run[f].time + 20
             && Sane(StateOf(h, slot), run[0].time)
    ensures var answers := AnswersOf(h, events, slot, arms);
            k < |answers| && !answers[k].monitor
  {
    RunReadsEachSlot(h, events, slot, arms);
    var run := ReadsOf(events, slot, ChangesOf(h.changes, slot));
    ReadsComeInTime(events, slot, ChangesOf(h.changes, slot));
    SeedsLeaveItSane(h, events, slot, run[0].time);
    AMonitorThatLeftIsReported(Start(h, events, slot), run, f, k, arms);
    assert run[k] == run[f..k + 1][k - f];
  }

  // ---------------------------------------------------------------------------
  // A restart

  // A process as it starts: nothing but the seeds.
  function Started(seeds: map<string, Block>): Hold {
    Hold(map[], map[], map[], seeds)
  }

  // Whatever a process did, what it left of each slot is what the promise of a
  // monitor that left asks for.
  lemma EveryRunLeavesItSane(seeds: map<string, Block>, events: seq<Event>, slot: Slot, arms: bool, time: int)
    requires PassesWellFormed(events) && PassesInTime(events)
    requires forall i :: 0 <= i < |events| && events[i].Pass? ==> events[i].now <= time
    ensures Sane(StateOf(HoldAfter(Started(seeds), events, arms), slot), time)
  {
    var h := Started(seeds);
    RunReadsEachSlot(h, events, slot, arms);
    var run := ReadsOf(events, slot, ChangesOf(h.changes, slot));
    ReadsComeInTime(events, slot, ChangesOf(h.changes, slot));
    ReadsArePasses(events, slot, ChangesOf(h.changes, slot));
    forall i | 0 <= i < |run| ensures run[i].time <= time { assert PassAt(events, run[i].time); }
    HistoriesAreSane(Start(h, events, slot), run, arms, time);
  }

  // An operator that starts while a slot is in a drop answers the block that the
  // one before published for it, and holds it as it would a reading of its own:
  // from its first read until the drop has settled.
  lemma ARestartKeepsTheMonitor(published: seq<Endpoint>, nodes: map<Address, string>, events: seq<Event>, slot: Slot,
                                arms: bool, p: nat, k: nat)
    requires EndpointsNamedApart(published) && forall n :: 0 <= n < |published| ==> AsRead(published[n])
    requires PassesWellFormed(events) && PassesInTime(events) && EmptyFrom(ReadsOf(events, slot, 0), 0, k)
    requires FirstPass(events) >= 0 && IndexAt(events[FirstPass(events)].endpoints, slot) >= 0
    requires p < |published|
    requires var first := events[FirstPass(events)].endpoints;
             && published[p].name == first[IndexAt(first, slot)].name
             && !first[IndexAt(first, slot)].monitor
    ensures Publishable(published)
    ensures var h, first := Started(SeedsOf(Slice(published, nodes))), events[FirstPass(events)].endpoints;
            var run, answers := ReadsOf(events, slot, 0), AnswersOf(h, events, slot, arms);
            && |answers| == |run|
            && answers[k] == if published[p].monitor && !SettledBy(run[..k + 1], k)
                             then first[IndexAt(first, slot)].(monitor := true, eld := published[p].eld)
                             else run[k].endpoint
  {
    SeedsAreTheLitSlots(published, nodes);
    ADropFromTheStart(Started(SeedsOf(Slice(published, nodes))), events, slot, arms, k);
  }
}
