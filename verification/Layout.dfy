// The channel layout that each declared sink carries.
// audio-operator/layout.go and the plan in layoutdrift.go.
module Layouts {
  import opened Basics
  import opened Elds
  import opened Devices

  // The source is one of the four words below, or "" for a layout that the
  // declaration does not give.
  datatype Layout = Layout(stated: string, positions: seq<string>) {
    function Origin(): string {
      if stated == "" then NO_LAYOUT else stated
    }

    predicate Same(other: Layout) {
      Origin() == other.Origin() && positions == other.positions
    }
  }

  const FROM_SPEC := "Spec"
  const FROM_ELD := "ELD"
  const FROM_CHANNEL_MAP := "ChannelMap"
  const NO_LAYOUT := "None"
  const Undeclared := Layout("", [])

  const SURROUND_71 := ["FL", "FR", "RL", "RR", "FC", "LFE", "SL", "SR"]
  const SURROUND_51 := ["FL", "FR", "RL", "RR", "FC", "LFE"]
  const STEREO := ["FL", "FR"]

  const ALLOCATION_51: Byte := 1 | 2 | 4 | 8
  const ALLOCATION_71: Byte := ALLOCATION_51 | 64

  function EldPositions(b: Block): seq<string> {
    if b.lpcmChannels >= 8 && b.speakerAllocation & ALLOCATION_71 == ALLOCATION_71 then SURROUND_71
    else if b.lpcmChannels >= 6 && b.speakerAllocation & ALLOCATION_51 == ALLOCATION_51 then SURROUND_51
    else STEREO
  }

  predicate NamesSurround(a: Byte) {
    HasBit(a, 0) && HasBit(a, 1) && HasBit(a, 2) && HasBit(a, 3)
  }

  // No channel of the layout goes to a speaker that the monitor does not name,
  // or past the channels that it takes: each position past the front pair is
  // there exactly when the block names its group's speakers and takes the
  // group's channels. They stand in the order of the card's own channels.
  lemma PositionsHaveSpeakers(b: Block)
    ensures var p := EldPositions(b);
            && 2 <= |p| && p <= ["FL", "FR", "RL", "RR", "FC", "LFE", "SL", "SR"] && (|p| == 2 || |p| <= b.lpcmChannels)
            && (forall x :: x in ["FC", "LFE", "RL", "RR"] ==>
                  (x in p <==> b.lpcmChannels >= 6 && NamesSurround(b.speakerAllocation)))
            && (forall x :: x in ["SL", "SR"] ==>
                  (x in p <==> b.lpcmChannels >= 8 && NamesSurround(b.speakerAllocation)
                               && HasBit(b.speakerAllocation, 6)))
  {
    AllocationBits(b.speakerAllocation);
    assert forall x :: x in ["FC", "LFE", "RL", "RR"] ==> x !in STEREO && x in SURROUND_51 && x in SURROUND_71;
    assert forall x :: x in ["SL", "SR"] ==> x !in STEREO && x !in SURROUND_51 && x in SURROUND_71;
  }

  lemma AllocationBits(a: Byte)
    ensures a & ALLOCATION_51 == ALLOCATION_51 <==> NamesSurround(a)
    ensures a & ALLOCATION_71 == ALLOCATION_71 <==> NamesSurround(a) && HasBit(a, 6)
  {
  }

  type Specs = map<Address, seq<string>>

  function SpecOf(specs: Specs, address: Address): seq<string> {
    if address in specs then specs[address] else []
  }

  function DeclaredAt(declared: map<Address, Layout>, address: Address): Layout {
    if address in declared then declared[address] else Undeclared
  }

  function Select(e: Endpoint, spec: seq<string>, running: Layout): Layout {
    if spec != [] then Layout(FROM_SPEC, spec)
    else if e.hdmi && e.monitor then Layout(FROM_ELD, EldPositions(e.eld))
    else if e.hdmi && running.Origin() == FROM_ELD then running
    else if e.hdmi then Layout(NO_LAYOUT, [])
    else if e.usb then Layout(FROM_CHANNEL_MAP, [])
    else Layout(NO_LAYOUT, [])
  }

  // Which source a playback endpoint's layout comes from. A person's own layout
  // comes first; an HDMI output takes its monitor's, or keeps the last one while no
  // monitor answers; and only USB takes the device's channel map.
  lemma WhereALayoutComesFrom(e: Endpoint, spec: seq<string>, running: Layout)
    ensures var chosen := Select(e, spec, running);
            && (chosen.Origin() == "Spec" && chosen.positions == spec <== spec != [])
            && (spec == [] && e.hdmi && e.monitor ==>
                  chosen.Origin() == "ELD" && chosen.positions == EldPositions(e.eld))
            && (spec == [] && e.hdmi && !e.monitor ==>
                  if running.Origin() == "ELD" then chosen == running
                  else chosen.Origin() == "None" && chosen.positions == [])
            && (spec == [] && !e.hdmi ==>
                  chosen.positions == [] && chosen.Origin() == if e.usb then "ChannelMap" else "None")
  {
  }

  function Selected(outputs: seq<Endpoint>, specs: Specs, declared: map<Address, Layout>): map<Address, Layout> {
    if outputs == [] then map[]
    else
      var n := |outputs| - 1;
      var before, address := Selected(outputs[..n], specs, declared), AddressOf(outputs[n]);
      if outputs[n].capture then before
      else before[address := Select(outputs[n], SpecOf(specs, address), DeclaredAt(declared, address))]
  }

  method SelectLayouts(outputs: seq<Endpoint>, specs: Specs, declared: map<Address, Layout>)
    returns (layouts: map<Address, Layout>)
    ensures layouts == Selected(outputs, specs, declared)
  {
    layouts := map[];
    for i := 0 to |outputs|
      invariant layouts == Selected(outputs[..i], specs, declared)
    {
      assert outputs[..i + 1][..i] == outputs[..i];
      if outputs[i].capture {
        continue;
      }
      var address := AddressOf(outputs[i]);
      layouts := layouts[address := Select(outputs[i], SpecOf(specs, address), DeclaredAt(declared, address))];
    }
    assert outputs[..|outputs|] == outputs;
  }

  lemma {:induction false} SelectedAddresses(outputs: seq<Endpoint>, specs: Specs, declared: map<Address, Layout>,
                                             a: Address)
    ensures a in Selected(outputs, specs, declared)
            <==> exists i :: 0 <= i < |outputs| && !outputs[i].capture && AddressOf(outputs[i]) == a
  {
    if outputs != [] {
      var n := |outputs| - 1;
      var front := outputs[..n];
      SelectedAddresses(front, specs, declared, a);
      assert forall i :: 0 <= i < n ==> front[i] == outputs[i];
      if i :| 0 <= i < n && !outputs[i].capture && AddressOf(outputs[i]) == a {
        assert AddressOf(front[i]) == a;
      }
    }
  }

  lemma {:induction false} EachPlaybackIsSelected(outputs: seq<Endpoint>, specs: Specs, declared: map<Address,
                                                  Layout>, i: nat)
    requires OneForAnAddress(outputs) && i < |outputs| && !outputs[i].capture
    ensures var a := AddressOf(outputs[i]);
            && a in Selected(outputs, specs, declared)
            && Selected(outputs, specs, declared)[a] == Select(outputs[i], SpecOf(specs, a), DeclaredAt(declared, a))
  {
    var n := |outputs| - 1;
    if i < n {
      var front := outputs[..n];
      assert front[i] == outputs[i];
      EachPlaybackIsSelected(front, specs, declared, i);
      assert AddressOf(outputs[n]) != AddressOf(outputs[i]);
    }
  }

  // ---------------------------------------------------------------------------
  // The plan

  datatype Change = Change(endpoint: Endpoint, from: Layout, to: Layout)

  // What one endpoint's layout changes to, or none.
  function ChangeOf(declared: map<Address, Layout>, e: Endpoint, specs: Specs): (change: Option<Change>)
    ensures change.Some? ==> change.value.endpoint == e && !e.capture && AddressOf(e) in declared
  {
    var address := AddressOf(e);
    if e.capture || address !in declared then None
    else
      var wanted := Select(e, SpecOf(specs, address), declared[address]);
      if wanted.Same(declared[address]) then None else Some(Change(e, declared[address], wanted))
  }

  function Plan(declared: map<Address, Layout>, endpoints: seq<Endpoint>, specs: Specs): seq<Change> {
    if endpoints == [] then []
    else
      var n := |endpoints| - 1;
      var change := ChangeOf(declared, endpoints[n], specs);
      Plan(declared, endpoints[..n], specs) + if change.Some? then [change.value] else []
  }

  method PlanLayouts(declared: map<Address, Layout>, endpoints: seq<Endpoint>, specs: Specs)
    returns (changes: seq<Change>)
    ensures changes == Plan(declared, endpoints, specs)
  {
    changes := [];
    for i := 0 to |endpoints|
      invariant changes == Plan(declared, endpoints[..i], specs)
    {
      assert endpoints[..i + 1][..i] == endpoints[..i];
      var e := endpoints[i];
      var address := AddressOf(e);
      if e.capture || address !in declared {
        continue;
      }
      var running := declared[address];
      var wanted := Select(e, SpecOf(specs, address), running);
      if !wanted.Same(running) {
        changes := changes + [Change(e, running, wanted)];
      }
    }
    assert endpoints[..|endpoints|] == endpoints;
  }

  lemma {:induction false} PlanHolds(declared: map<Address, Layout>, endpoints: seq<Endpoint>, specs: Specs)
    ensures forall c :: c in Plan(declared, endpoints, specs)
              <==> exists i :: 0 <= i < |endpoints| && ChangeOf(declared, endpoints[i], specs) == Some(c)
  {
    if endpoints != [] {
      var n := |endpoints| - 1;
      PlanHolds(declared, endpoints[..n], specs);
      forall c ensures c in Plan(declared, endpoints, specs)
              <==> exists i :: 0 <= i < |endpoints| && ChangeOf(declared, endpoints[i], specs) == Some(c) {
        if i :| 0 <= i < n && ChangeOf(declared, endpoints[i], specs) == Some(c) {
          assert endpoints[..n][i] == endpoints[i];
        }
      }
    }
  }

  // The plan changes exactly the declared playback endpoints whose selection has
  // other positions, or another source, than what is declared.
  lemma ThePlanIsWhatDiffers(declared: map<Address, Layout>, endpoints: seq<Endpoint>, specs: Specs, c: Change)
    ensures c in Plan(declared, endpoints, specs)
            <==> && c.endpoint in endpoints && !c.endpoint.capture && AddressOf(c.endpoint) in declared
                 && c.from == declared[AddressOf(c.endpoint)]
                 && c.to == Select(c.endpoint, SpecOf(specs, AddressOf(c.endpoint)), c.from)
                 && (c.to.positions != c.from.positions || c.to.Origin() != c.from.Origin())
  {
    PlanHolds(declared, endpoints, specs);
  }

  // The layouts with every change in them.
  function WithChanges(declared: map<Address, Layout>, changes: seq<Change>): map<Address, Layout> {
    if changes == [] then declared
    else
      var n := |changes| - 1;
      WithChanges(declared, changes[..n])[AddressOf(changes[n].endpoint) := changes[n].to]
  }

  predicate OneForAnAddress(endpoints: seq<Endpoint>) {
    forall i, j :: 0 <= i < j < |endpoints| ==> AddressOf(endpoints[i]) != AddressOf(endpoints[j])
  }

  // After the changes of a plan, each sink carries what it was selected to, and
  // every other entry what it carried.
  lemma {:induction false} PlanSelects(declared: map<Address, Layout>, endpoints: seq<Endpoint>, specs: Specs)
    requires OneForAnAddress(endpoints)
    ensures var next := WithChanges(declared, Plan(declared, endpoints, specs));
            && next.Keys == declared.Keys
            && (forall i :: 0 <= i < |endpoints| && AddressOf(endpoints[i]) in declared ==>
                  var change := ChangeOf(declared, endpoints[i], specs);
                  next[AddressOf(endpoints[i])]
                  == if change.Some? then change.value.to else declared[AddressOf(endpoints[i])])
            && (forall a :: a in declared && (forall i :: 0 <= i < |endpoints| ==> AddressOf(endpoints[i]) != a) ==>
                  next[a] == declared[a])
  {
    if endpoints != [] {
      var n := |endpoints| - 1;
      var before := Plan(declared, endpoints[..n], specs);
      PlanSelects(declared, endpoints[..n], specs);
      var change := ChangeOf(declared, endpoints[n], specs);
      assert forall i :: 0 <= i < n ==> endpoints[..n][i] == endpoints[i];
      var next := WithChanges(declared, Plan(declared, endpoints, specs));
      if change.Some? {
        assert (before + [change.value])[..|before|] == before;
        assert next == WithChanges(declared, before)[AddressOf(endpoints[n]) := change.value.to];
        assert next.Keys == WithChanges(declared, before).Keys + {AddressOf(endpoints[n])};
      } else {
        assert before + [] == before;
      }
    }
  }
}
