// The hold on an HDMI slot whose monitor stops answering for a moment: a read
// of the card goes through it, and a short drop does not show.
// audio-operator/monitorhold.go.
module MonitorHolds {
  import opened Basics
  import opened Elds
  import opened Devices

  const SETTLE := 5
  const CEILING := 3 * SETTLE
  const ELD_ELEMENT := "ELD"

  datatype Slot = Slot(card: int, pcm: int)

  // first is the first empty read of the outage, since the one that the hold
  // runs from, seen the slot's changes at that read, and timer the deadline of
  // the timer that ends the hold.
  datatype HeldSlot = HeldSlot(first: int, since: int, seen: nat, timer: Option<int>)

  datatype ControlEvent = ControlEvent(name: string, card: int, device: int)

  datatype Hold = Hold(lit: map<Slot, Endpoint>, dark: map<Slot, HeldSlot>, changes: map<Slot, nat>,
                       seeds: map<string, Block>)

  function SlotOf(e: Endpoint): Slot {
    Slot(e.card, e.pcm)
  }

  predicate CanBeHeld(e: Endpoint) {
    e.hdmi && !e.capture
  }

  function ChangesOf(changes: map<Slot, nat>, slot: Slot): nat {
    if slot in changes then changes[slot] else 0
  }

  // ---------------------------------------------------------------------------
  // One slot

  // What the hold knows of one slot.
  datatype SlotState = SlotState(lit: Option<Endpoint>, dark: Option<HeldSlot>)

  const Unknown := SlotState(None, None)

  // One read of a slot, with the changes that the card had reported by then.
  datatype Read = Read(time: int, endpoint: Endpoint, count: nat)

  function Deadline(now: int, arms: bool): Option<int> {
    if arms then Some(now + SETTLE) else None
  }

  predicate Restarts(dark: HeldSlot, r: Read) {
    dark.seen != r.count && r.time - dark.first < CEILING
  }

  function HeldFrom(dark: Option<HeldSlot>, r: Read, arms: bool): HeldSlot {
    if dark.Some? && !Restarts(dark.value, r) then dark.value
    else HeldSlot(if dark.Some? then dark.value.first else r.time, r.time, r.count, Deadline(r.time, arms))
  }

  // The answer to one read, and what the hold knows after it.
  function ReadSlot(s: SlotState, r: Read, arms: bool): (Endpoint, SlotState) {
    if r.endpoint.monitor then (r.endpoint, SlotState(Some(r.endpoint), None))
    else if s.lit.None? then (r.endpoint, s)
    else
      var dark := HeldFrom(s.dark, r, arms);
      if r.time - dark.since >= SETTLE then (r.endpoint, Unknown)
      else (s.lit.value, SlotState(s.lit, Some(dark)))
  }

  // ---------------------------------------------------------------------------
  // The whole card

  function StateOf(h: Hold, slot: Slot): SlotState {
    SlotState(if slot in h.lit then Some(h.lit[slot]) else None, if slot in h.dark then Some(h.dark[slot]) else None)
  }

  function Put<K, V>(m: map<K, V>, key: K, value: Option<V>): map<K, V> {
    if value.Some? then m[key := value.value] else m - {key}
  }

  // A seed serves a slot that this process never read lit, as its lit reading.
  function PlantSeed(h: Hold, e: Endpoint): Hold {
    if e.name !in h.seeds then h
    else
      var slot := SlotOf(e);
      Hold(if slot !in h.lit && !e.monitor then h.lit[slot := e.(monitor := true, eld := h.seeds[e.name])] else h.lit,
           h.dark, h.changes, h.seeds - {e.name})
  }

  // A seed's block serves the one slot of its name, which reads empty and that this
  // process never read lit, and a seed is used once.
  lemma WhatASeedServes(h: Hold, e: Endpoint)
    ensures var m, slot := PlantSeed(h, e), SlotOf(e);
            && e.name !in m.seeds && m.dark == h.dark && m.changes == h.changes
            && (slot in h.lit || e.name !in h.seeds || e.monitor ==> m.lit == h.lit)
            && (slot !in h.lit && e.name in h.seeds && !e.monitor ==>
                  m.lit == h.lit[slot := e.(monitor := true, eld := h.seeds[e.name])])
            && (forall name :: name != e.name ==> (name in m.seeds <==> name in h.seeds))
  {
  }

  function ReadIn(h: Hold, e: Endpoint, now: int, arms: bool): (Endpoint, Hold) {
    var slot := SlotOf(e);
    var (answer, s) := ReadSlot(StateOf(h, slot), Read(now, e, ChangesOf(h.changes, slot)), arms);
    (answer, Hold(Put(h.lit, slot, s.lit), Put(h.dark, slot, s.dark), h.changes, h.seeds))
  }

  function ApplyOne(h: Hold, e: Endpoint, now: int, arms: bool): (Endpoint, Hold) {
    if CanBeHeld(e) then ReadIn(PlantSeed(h, e), e, now, arms) else (e, h)
  }

  function After(h: Hold, endpoints: seq<Endpoint>, now: int, arms: bool): Hold {
    if endpoints == [] then h
    else
      var n := |endpoints| - 1;
      ApplyOne(After(h, endpoints[..n], now, arms), endpoints[n], now, arms).1
  }

  function Answers(h: Hold, endpoints: seq<Endpoint>, now: int, arms: bool): (answers: seq<Endpoint>)
    ensures |answers| == |endpoints|
  {
    if endpoints == [] then []
    else
      var n := |endpoints| - 1;
      Answers(h, endpoints[..n], now, arms)
      + [ApplyOne(After(h, endpoints[..n], now, arms), endpoints[n], now, arms).0]
  }

  class MonitorHold {
    const arms: bool
    var lit: map<Slot, Endpoint>
    var dark: map<Slot, HeldSlot>
    var changes: map<Slot, nat>
    var seeds: map<string, Block>

    constructor (arms: bool)
      ensures this.arms == arms && State() == Hold(map[], map[], map[], map[])
    {
      this.arms, lit, dark, changes, seeds := arms, map[], map[], map[], map[];
    }

    ghost function State(): Hold
      reads this
    {
      Hold(lit, dark, changes, seeds)
    }

    method Seed(blocks: map<string, Block>)
      modifies this
      ensures State() == old(State()).(seeds := old(seeds) + blocks)
    {
      seeds := seeds + blocks;
    }

    method Heard(event: ControlEvent)
      modifies this
      ensures State() == AfterEvent(old(State()), event)
    {
      if event.name != ELD_ELEMENT {
        return;
      }
      var slot := Slot(event.card, event.device);
      changes := changes[slot := ChangesOf(changes, slot) + 1];
    }

    method Release(slot: Slot)
      modifies `dark
      ensures dark == old(dark) - {slot}
    {
      if slot in dark {
        dark := dark - {slot};
      }
    }

    method Plant(endpoint: Endpoint)
      modifies `lit, `seeds
      ensures State() == PlantSeed(old(State()), endpoint)
    {
      if endpoint.name in seeds {
        var block := seeds[endpoint.name];
        seeds := seeds - {endpoint.name};
        if SlotOf(endpoint) !in lit && !endpoint.monitor {
          lit := lit[SlotOf(endpoint) := endpoint.(monitor := true, eld := block)];
        }
      }
    }

    method ReadAt(endpoint: Endpoint, now: int) returns (answer: Endpoint)
      modifies `lit, `dark
      ensures (answer, State()) == ReadIn(old(State()), endpoint, now, arms)
    {
      answer := endpoint;
      var slot := SlotOf(endpoint);
      ghost var next := ReadIn(old(State()), endpoint, now, arms).1;
      if endpoint.monitor {
        lit := lit[slot := endpoint];
        Release(slot);
        assert lit == next.lit && dark == next.dark;
        return;
      }
      if slot !in lit {
        assert lit == next.lit && dark == next.dark;
        return;
      }
      var last := lit[slot];
      var count := ChangesOf(changes, slot);
      var holding := slot in dark;
      if !holding || (dark[slot].seen != count && now - dark[slot].first < CEILING) {
        var first := if holding then dark[slot].first else now;
        Release(slot);
        dark := dark[slot := HeldSlot(first, now, count, if arms then Some(now + SETTLE) else None)];
      }
      if now - dark[slot].since >= SETTLE {
        lit := lit - {slot};
        Release(slot);
        assert lit == next.lit && dark == next.dark;
        return;
      }
      assert lit == next.lit && dark == next.dark;
      answer := last;
    }

    method ApplyTo(endpoint: Endpoint, now: int) returns (answer: Endpoint)
      modifies this
      ensures (answer, State()) == ApplyOne(old(State()), endpoint, now, arms)
    {
      if !CanBeHeld(endpoint) {
        return endpoint;
      }
      Plant(endpoint);
      answer := ReadAt(endpoint, now);
    }

    method Apply(endpoints: seq<Endpoint>, now: int) returns (held: seq<Endpoint>)
      modifies this
      ensures held == Answers(old(State()), endpoints, now, arms)
      ensures State() == After(old(State()), endpoints, now, arms).(seeds := map[])
    {
      held := [];
      for i := 0 to |endpoints|
        invariant held == Answers(old(State()), endpoints[..i], now, arms)
        invariant State() == After(old(State()), endpoints[..i], now, arms)
      {
        assert endpoints[..i + 1][..i] == endpoints[..i];
        var answer := ApplyTo(endpoints[i], now);
        held := held + [answer];
      }
      assert endpoints[..|endpoints|] == endpoints;
      seeds := map[];
    }
  }

  function AfterEvent(h: Hold, event: ControlEvent): Hold {
    var slot := Slot(event.card, event.device);
    if event.name != ELD_ELEMENT then h else h.(changes := h.changes[slot := ChangesOf(h.changes, slot) + 1])
  }
}
