// The layout step of the reconcile pass, and what a run of passes writes. Every
// write restarts PipeWire.
// audio-operator/layoutdrift.go.
module LayoutRuns {
  import opened Basics
  import opened Sorting
  import opened Text
  import opened Elds
  import opened Devices
  import opened Layouts
  import opened Declarations

  // What one pass finds: the endpoints, whether a stream plays, the specs when
  // the Sinks read, and whether a write lands.
  datatype Pass = Pass(endpoints: seq<Endpoint>, playing: bool, specs: Option<Specs>, lands: bool)

  datatype Reason = Applied | AwaitingIdle | Restarting

  datatype LayoutState = LayoutState(layout: Layout, reason: Reason)

  function Declared(document: seq<StaticNode>): map<Address, Layout>
    requires Readable(document)
  {
    LayoutsIn(NodesIn(document))
  }

  function Wanted(document: seq<StaticNode>, pass: Pass): seq<Change>
    requires Readable(document)
  {
    if pass.specs.None? then [] else Plan(Declared(document), pass.endpoints, pass.specs.value)
  }

  predicate Writes(document: seq<StaticNode>, pass: Pass)
    requires Readable(document)
  {
    Wanted(document, pass) != [] && !pass.playing && pass.lands
  }

  function Rewritten(document: seq<StaticNode>, changes: seq<Change>): seq<StaticNode>
    requires Readable(document)
  {
    Document(EndpointsIn(NodesIn(document)), WithChanges(Declared(document), changes))
  }

  function DocumentAfter(document: seq<StaticNode>, pass: Pass): seq<StaticNode> {
    if Readable(document) && Writes(document, pass) then Rewritten(document, Wanted(document, pass)) else document
  }

  function NamesIn(changes: seq<Change>): set<string> {
    set c | c in changes :: c.endpoint.name
  }

  function StateOf(e: Endpoint, layout: Layout, waiting: set<string>, stale: bool): LayoutState {
    LayoutState(layout, if e.name in waiting then AwaitingIdle else if stale then Restarting else Applied)
  }

  function StatesOf(declared: map<Address, Layout>, endpoints: seq<Endpoint>, waiting: set<string>, stale: bool)
    : map<string, LayoutState>
  {
    if endpoints == [] then map[]
    else
      var n := |endpoints| - 1;
      var before, address := StatesOf(declared, endpoints[..n], waiting, stale), AddressOf(endpoints[n]);
      if endpoints[n].capture || address !in declared then before
      else before[endpoints[n].name := StateOf(endpoints[n], declared[address], waiting, stale)]
  }

  // What a pass reports of one endpoint: the layout that the document has for it,
  // which waits while its change is not written, and otherwise is in force, or is
  // about to be when the daemon still runs an older document.
  lemma {:induction false} WhatIsReported(declared: map<Address, Layout>, endpoints: seq<Endpoint>,
                                          waiting: set<string>, stale: bool, i: nat)
    requires i < |endpoints| && !endpoints[i].capture && AddressOf(endpoints[i]) in declared
    requires forall k :: 0 <= k < |endpoints| && k != i ==> endpoints[k].name != endpoints[i].name
    ensures var states, e := StatesOf(declared, endpoints, waiting, stale), endpoints[i];
            && e.name in states && states[e.name].layout == declared[AddressOf(e)]
            && (states[e.name].reason == AwaitingIdle <==> e.name in waiting)
            && (states[e.name].reason == Restarting <==> e.name !in waiting && stale)
  {
    var n := |endpoints| - 1;
    if i < n {
      assert endpoints[..n][i] == endpoints[i];
      WhatIsReported(declared, endpoints[..n], waiting, stale, i);
    }
  }

  class Reconciler {
    var document: seq<StaticNode>

    constructor (document: seq<StaticNode>)
      ensures this.document == document
    {
      this.document := document;
    }

    method LayoutStates(declared: map<Address, Layout>, endpoints: seq<Endpoint>, waiting: set<string>, stale: bool)
      returns (states: map<string, LayoutState>)
      ensures states == StatesOf(declared, endpoints, waiting, stale)
    {
      states := map[];
      for i := 0 to |endpoints|
        invariant states == StatesOf(declared, endpoints[..i], waiting, stale)
      {
        assert endpoints[..i + 1][..i] == endpoints[..i];
        var address := AddressOf(endpoints[i]);
        if endpoints[i].capture || address !in declared {
          continue;
        }
        states := states[endpoints[i].name := StateOf(endpoints[i], declared[address], waiting, stale)];
      }
      assert endpoints[..|endpoints|] == endpoints;
    }

    method ApplyLayouts(nodes: seq<DeclaredNode>, declared: map<Address, Layout>, changes: seq<Change>, lands: bool)
      returns (next: Option<map<Address, Layout>>)
      modifies this
      ensures next == if lands then Some(WithChanges(declared, changes)) else None
      ensures document == if lands then Document(EndpointsIn(nodes), WithChanges(declared, changes)) else old(document)
    {
      var layouts := declared;
      for i := 0 to |changes|
        invariant layouts == WithChanges(declared, changes[..i])
      {
        assert changes[..i + 1][..i] == changes[..i];
        layouts := layouts[AddressOf(changes[i].endpoint) := changes[i].to];
      }
      assert changes[..|changes|] == changes;
      if !lands {
        return None;
      }
      document := NodeConfig(EndpointsIn(nodes), layouts);
      return Some(layouts);
    }

    // The states it reports are those of the layouts it declared or left, with
    // every change that it did not write waiting.
    method ReconcileLayouts(pass: Pass, stale: bool) returns (states: Option<map<string, LayoutState>>)
      modifies this
      ensures document == DocumentAfter(old(document), pass)
      ensures pass.playing || pass.specs.None? || !pass.lands ==> document == old(document)
      ensures Readable(old(document)) && !pass.playing && pass.specs.Some? && pass.lands ==>
                var changes := Plan(Declared(old(document)), pass.endpoints, pass.specs.value);
                document == if changes == [] then old(document) else Rewritten(old(document), changes)
      ensures states.None? <==> !Readable(old(document))
      ensures states.Some? ==>
                states.value
                == if Writes(old(document), pass)
                   then
                     var changed := WithChanges(Declared(old(document)), Wanted(old(document), pass));
                     StatesOf(changed, pass.endpoints, {}, stale)
                   else StatesOf(Declared(old(document)), pass.endpoints, NamesIn(Wanted(old(document), pass)), stale)
    {
      var parsed := ParseDeclaration(document);
      if parsed.Err? {
        return None;
      }
      var nodes := parsed.value;
      var declared := DeclaredLayouts(nodes);
      assert NamesIn([]) == {};
      if pass.specs.None? {
        var kept := LayoutStates(declared, pass.endpoints, {}, stale);
        return Some(kept);
      }
      var changes := PlanLayouts(declared, pass.endpoints, pass.specs.value);
      var waiting: set<string> := {};
      if changes == [] {
      } else if pass.playing {
        waiting := NamesIn(changes);
      } else {
        var next := ApplyLayouts(nodes, declared, changes, pass.lands);
        if next.None? {
          waiting := NamesIn(changes);
        } else {
          declared := next.value;
        }
      }
      var reported := LayoutStates(declared, pass.endpoints, waiting, stale);
      return Some(reported);
    }
  }

  // ---------------------------------------------------------------------------
  // Documents of fixed outputs

  predicate SpecsWritable(specs: Specs) {
    forall a :: a in specs ==> Writable(specs[a])
  }

  lemma EldPositionsAreWritable(b: Block)
    ensures Writable(EldPositions(b))
  {
    assert Writable(SURROUND_71);
    assert Writable(SURROUND_51);
    assert Writable(STEREO);
  }

  lemma SelectedIsWritable(e: Endpoint, spec: seq<string>, running: Layout)
    requires Writable(spec) && Writable(running.positions)
    ensures Writable(Select(e, spec, running).positions)
    ensures Kept(Select(e, spec, running)).Same(Select(e, spec, running))
  {
    EldPositionsAreWritable(e.eld);
  }

  function LayoutsOf(outputs: seq<Endpoint>, layouts: map<Address, Layout>): map<Address, Layout>
    requires AllWritable(layouts)
  {
    LayoutsReadBack(outputs, layouts);
    Declared(Document(outputs, layouts))
  }

  // What the pass declares next, when it writes.
  function Next(outputs: seq<Endpoint>, layouts: map<Address, Layout>, pass: Pass): map<Address, Layout>
    requires AllWritable(layouts) && pass.specs.Some?
  {
    WithChanges(LayoutsOf(outputs, layouts), Plan(LayoutsOf(outputs, layouts), pass.endpoints, pass.specs.value))
  }

  lemma ChangesAreWritable(declared: map<Address, Layout>, e: Endpoint, specs: Specs)
    requires AllWritable(declared) && SpecsWritable(specs)
    ensures ChangeOf(declared, e, specs).Some? ==> Writable(ChangeOf(declared, e, specs).value.to.positions)
  {
    if !e.capture && AddressOf(e) in declared {
      SelectedIsWritable(e, SpecOf(specs, AddressOf(e)), declared[AddressOf(e)]);
    }
  }

  lemma {:induction false} WithChangesWritable(declared: map<Address, Layout>, changes: seq<Change>)
    requires AllWritable(declared) && forall c :: c in changes ==> Writable(c.to.positions)
    ensures AllWritable(WithChanges(declared, changes))
  {
    if changes != [] { WithChangesWritable(declared, changes[..|changes| - 1]); }
  }

  lemma DeclaredAreKept(outputs: seq<Endpoint>, layouts: map<Address, Layout>, a: Address)
    requires AllWritable(layouts)
    ensures a in LayoutsOf(outputs, layouts) <==> exists e :: e in outputs && !e.capture && AddressOf(e) == a
    ensures a in LayoutsOf(outputs, layouts) ==> LayoutsOf(outputs, layouts)[a] == Kept(DeclaredAt(layouts, a))
  {
    LayoutsReadBack(outputs, layouts);
  }

  lemma DeclaredAreWritable(outputs: seq<Endpoint>, layouts: map<Address, Layout>)
    requires AllWritable(layouts)
    ensures AllWritable(LayoutsOf(outputs, layouts))
  {
    forall a | a in LayoutsOf(outputs, layouts) ensures Writable(LayoutsOf(outputs, layouts)[a].positions) {
      DeclaredAreKept(outputs, layouts, a);
    }
  }

  lemma NextIsWritable(outputs: seq<Endpoint>, layouts: map<Address, Layout>, pass: Pass)
    requires AllWritable(layouts) && pass.specs.Some? && SpecsWritable(pass.specs.value)
    ensures AllWritable(Next(outputs, layouts, pass))
  {
    var declared, specs := LayoutsOf(outputs, layouts), pass.specs.value;
    DeclaredAreWritable(outputs, layouts);
    PlanHolds(declared, pass.endpoints, specs);
    var changes := Plan(declared, pass.endpoints, specs);
    forall c | c in changes ensures Writable(c.to.positions) {
      var i :| 0 <= i < |pass.endpoints| && ChangeOf(declared, pass.endpoints[i], specs) == Some(c);
      ChangesAreWritable(declared, pass.endpoints[i], specs);
    }
    WithChangesWritable(declared, changes);
  }

  // A pass over a generated document leaves a generated document of the same
  // outputs.
  lemma PassWrites(outputs: seq<Endpoint>, layouts: map<Address, Layout>, pass: Pass)
    requires AllWritable(layouts)
    ensures Readable(Document(outputs, layouts))
    ensures DocumentAfter(Document(outputs, layouts), pass)
            == if Writes(Document(outputs, layouts), pass) then Document(outputs, Next(outputs, layouts, pass))
               else Document(outputs, layouts)
  {
    LayoutsReadBack(outputs, layouts);
    if Writes(Document(outputs, layouts), pass) {
      RewriteIsAFreshDocument(outputs, layouts, Next(outputs, layouts, pass));
    }
  }

  // What each sink is declared with after a write.
  lemma SinkAfterWrite(outputs: seq<Endpoint>, layouts: map<Address, Layout>, pass: Pass, a: Address)
    requires AllWritable(layouts) && pass.specs.Some? && SpecsWritable(pass.specs.value)
    requires OneForAnAddress(pass.endpoints) && a in LayoutsOf(outputs, layouts)
    ensures AllWritable(Next(outputs, layouts, pass)) && a in LayoutsOf(outputs, Next(outputs, layouts, pass))
    ensures var after := LayoutsOf(outputs, Next(outputs, layouts, pass))[a];
            && ((forall i :: 0 <= i < |pass.endpoints| ==> AddressOf(pass.endpoints[i]) != a) ==>
                  after == LayoutsOf(outputs, layouts)[a])
            && forall i :: 0 <= i < |pass.endpoints| && AddressOf(pass.endpoints[i]) == a ==>
                 var change := ChangeOf(LayoutsOf(outputs, layouts), pass.endpoints[i], pass.specs.value);
                 after == if change.Some? then Kept(change.value.to) else LayoutsOf(outputs, layouts)[a]
  {
    DeclaredAreKept(outputs, layouts, a);
    NextIsWritable(outputs, layouts, pass);
    DeclaredAreKept(outputs, Next(outputs, layouts, pass), a);
    PlanSelects(LayoutsOf(outputs, layouts), pass.endpoints, pass.specs.value);
    KeptWritesTheSame(DeclaredAt(layouts, a));
  }

  // ---------------------------------------------------------------------------
  // A write settles the plan

  lemma SelectionIsStable(e: Endpoint, spec: seq<string>, running: Layout)
    ensures var wanted := Select(e, spec, running);
            Select(e, spec, Kept(wanted)).Same(Kept(wanted))
  {
  }

  lemma NoChangeIsLeft(outputs: seq<Endpoint>, layouts: map<Address, Layout>, pass: Pass, i: nat)
    requires AllWritable(layouts) && OneForAnAddress(pass.endpoints)
    requires pass.specs.Some? && SpecsWritable(pass.specs.value) && i < |pass.endpoints|
    ensures AllWritable(Next(outputs, layouts, pass))
    ensures ChangeOf(LayoutsOf(outputs, Next(outputs, layouts, pass)), pass.endpoints[i], pass.specs.value).None?
  {
    NextIsWritable(outputs, layouts, pass);
    var e, next := pass.endpoints[i], Next(outputs, layouts, pass);
    var a := AddressOf(e);
    DeclaredAreKept(outputs, layouts, a);
    DeclaredAreKept(outputs, next, a);
    if !e.capture && a in LayoutsOf(outputs, next) {
      SinkAfterWrite(outputs, layouts, pass, a);
      SelectionIsStable(e, SpecOf(pass.specs.value, a), LayoutsOf(outputs, layouts)[a]);
    }
  }

  lemma {:induction false} NoChangeNoPlan(declared: map<Address, Layout>, endpoints: seq<Endpoint>, specs: Specs)
    requires forall i :: 0 <= i < |endpoints| ==> ChangeOf(declared, endpoints[i], specs).None?
    ensures Plan(declared, endpoints, specs) == []
  {
    if endpoints != [] {
      NoChangeNoPlan(declared, endpoints[..|endpoints| - 1], specs);
    }
  }

  lemma NextPlansNothing(outputs: seq<Endpoint>, layouts: map<Address, Layout>, pass: Pass)
    requires AllWritable(layouts) && OneForAnAddress(pass.endpoints)
    requires pass.specs.Some? && SpecsWritable(pass.specs.value)
    ensures AllWritable(Next(outputs, layouts, pass))
    ensures Plan(LayoutsOf(outputs, Next(outputs, layouts, pass)), pass.endpoints, pass.specs.value) == []
  {
    NextIsWritable(outputs, layouts, pass);
    var after := LayoutsOf(outputs, Next(outputs, layouts, pass));
    forall i | 0 <= i < |pass.endpoints| ensures ChangeOf(after, pass.endpoints[i], pass.specs.value).None? {
      NoChangeIsLeft(outputs, layouts, pass, i);
    }
    NoChangeNoPlan(after, pass.endpoints, pass.specs.value);
  }

  // Right after a write, the same pass plans nothing.
  lemma AWriteSettlesThePlan(outputs: seq<Endpoint>, layouts: map<Address, Layout>, pass: Pass)
    requires AllWritable(layouts) && OneForAnAddress(pass.endpoints)
    requires pass.specs.Some? && SpecsWritable(pass.specs.value)
    requires Readable(Document(outputs, layouts)) && Writes(Document(outputs, layouts), pass)
    ensures Readable(DocumentAfter(Document(outputs, layouts), pass))
    ensures Wanted(DocumentAfter(Document(outputs, layouts), pass), pass) == []
  {
    PassWrites(outputs, layouts, pass);
    NextPlansNothing(outputs, layouts, pass);
    LayoutsReadBack(outputs, Next(outputs, layouts, pass));
  }

  // ---------------------------------------------------------------------------
  // Runs with fixed hardware

  // What stays the same of a sink while its monitor comes and goes.
  datatype Facts = Facts(hdmi: bool, usb: bool, eld: Block)

  predicate Fits(e: Endpoint, facts: Facts) {
    e.hdmi == facts.hdmi && e.usb == facts.usb && (e.monitor ==> e.eld == facts.eld)
  }

  type Hardware = map<Address, Facts>

  predicate Steady(pass: Pass, hardware: Hardware, specs: Specs) {
    && OneForAnAddress(pass.endpoints)
    && (pass.specs.Some? ==> pass.specs.value == specs)
    && forall i :: 0 <= i < |pass.endpoints| && AddressOf(pass.endpoints[i]) in hardware ==>
         Fits(pass.endpoints[i], hardware[AddressOf(pass.endpoints[i])])
  }

  predicate AllSteady(passes: seq<Pass>, hardware: Hardware, specs: Specs) {
    forall i :: 0 <= i < |passes| ==> Steady(passes[i], hardware, specs)
  }

  // How many changes a sink's layout has left at most.
  function Rank(layout: Layout, facts: Facts, spec: seq<string>): (n: nat)
    ensures n <= 2
  {
    if spec != [] then (if layout.Same(Layout(FROM_SPEC, spec)) then 0 else 1)
    else if facts.hdmi then
      (if layout.Same(Layout(FROM_ELD, EldPositions(facts.eld))) then 0
       else if layout.Same(Layout(NO_LAYOUT, [])) then 1 else 2)
    else if facts.usb then (if layout.Same(Layout(FROM_CHANNEL_MAP, [])) then 0 else 1)
    else (if layout.Same(Layout(NO_LAYOUT, [])) then 0 else 1)
  }

  lemma AChangeLowersTheRank(e: Endpoint, facts: Facts, spec: seq<string>, running: Layout)
    requires Fits(e, facts)
    ensures var wanted := Select(e, spec, running);
            !wanted.Same(running) ==> Rank(Kept(wanted), facts, spec) < Rank(running, facts, spec)
  {
  }

  // Over one write each sink keeps its layout or falls in rank.
  lemma SinkFalls(outputs: seq<Endpoint>, layouts: map<Address, Layout>, pass: Pass, a: Address, hardware: Hardware,
                  specs: Specs)
    requires AllWritable(layouts) && SpecsWritable(specs) && pass.specs == Some(specs) && Steady(pass, hardware, specs)
    requires a in LayoutsOf(outputs, layouts) && a in hardware
    ensures AllWritable(Next(outputs, layouts, pass)) && a in LayoutsOf(outputs, Next(outputs, layouts, pass))
    ensures var before, after := LayoutsOf(outputs, layouts)[a], LayoutsOf(outputs, Next(outputs, layouts, pass))[a];
            after == before
            || Rank(after, hardware[a], SpecOf(specs, a)) < Rank(before, hardware[a], SpecOf(specs, a))
    ensures (exists i :: 0 <= i < |pass.endpoints| && AddressOf(pass.endpoints[i]) == a
                         && ChangeOf(LayoutsOf(outputs, layouts), pass.endpoints[i], specs).Some?) ==>
              var before, after := LayoutsOf(outputs, layouts)[a], LayoutsOf(outputs, Next(outputs, layouts, pass))[a];
              Rank(after, hardware[a], SpecOf(specs, a)) < Rank(before, hardware[a], SpecOf(specs, a))
  {
    SinkAfterWrite(outputs, layouts, pass, a);
    if i :| 0 <= i < |pass.endpoints| && AddressOf(pass.endpoints[i]) == a {
      AChangeLowersTheRank(pass.endpoints[i], hardware[a], SpecOf(specs, a), LayoutsOf(outputs, layouts)[a]);
    }
  }

  // ---------------------------------------------------------------------------
  // One sink changes at most twice

  function Run(document: seq<StaticNode>, passes: seq<Pass>): seq<StaticNode> {
    if passes == [] then document else DocumentAfter(Run(document, passes[..|passes| - 1]), passes[|passes| - 1])
  }

  function LayoutIn(document: seq<StaticNode>, a: Address): Option<Layout> {
    if Readable(document) && a in Declared(document) then Some(Declared(document)[a]) else None
  }

  // How many passes of a run change what a sink is declared with.
  function ChangesAt(document: seq<StaticNode>, passes: seq<Pass>, a: Address): nat {
    if passes == [] then 0
    else
      var before := passes[..|passes| - 1];
      ChangesAt(document, before, a)
      + if LayoutIn(Run(document, passes), a) != LayoutIn(Run(document, before), a) then 1 else 0
  }

  // How many passes of a run write the document, and so restart PipeWire.
  function WritesOf(document: seq<StaticNode>, passes: seq<Pass>): nat {
    if passes == [] then 0
    else
      var n := |passes| - 1;
      var before := Run(document, passes[..n]);
      WritesOf(document, passes[..n]) + if Readable(before) && Writes(before, passes[n]) then 1 else 0
  }

  predicate Covers(hardware: Hardware, outputs: seq<Endpoint>) {
    forall e :: e in outputs && !e.capture ==> AddressOf(e) in hardware
  }

  // The layouts behind the document after one pass.
  ghost function After(outputs: seq<Endpoint>, layouts: map<Address, Layout>, pass: Pass, specs: Specs)
    : (after: map<Address, Layout>)
    requires AllWritable(layouts) && SpecsWritable(specs) && (pass.specs.Some? ==> pass.specs.value == specs)
    ensures AllWritable(after)
    ensures DocumentAfter(Document(outputs, layouts), pass) == Document(outputs, after)
  {
    PassWrites(outputs, layouts, pass);
    if Writes(Document(outputs, layouts), pass) then
      NextIsWritable(outputs, layouts, pass);
      Next(outputs, layouts, pass)
    else layouts
  }

  ghost function RankAt(outputs: seq<Endpoint>, layouts: map<Address, Layout>, a: Address, hardware: Hardware,
                        specs: Specs)
    : nat
    requires AllWritable(layouts) && a in LayoutsOf(outputs, layouts) && a in hardware
  {
    Rank(LayoutsOf(outputs, layouts)[a], hardware[a], SpecOf(specs, a))
  }

  lemma OnePass(outputs: seq<Endpoint>, layouts: map<Address, Layout>, pass: Pass, a: Address, hardware: Hardware,
                specs: Specs)
    requires AllWritable(layouts) && SpecsWritable(specs) && Steady(pass, hardware, specs)
    requires a in LayoutsOf(outputs, layouts) && a in hardware
    ensures a in LayoutsOf(outputs, After(outputs, layouts, pass, specs))
    ensures var after := After(outputs, layouts, pass, specs);
            || RankAt(outputs, after, a, hardware, specs) < RankAt(outputs, layouts, a, hardware, specs)
            || LayoutsOf(outputs, after)[a] == LayoutsOf(outputs, layouts)[a]
  {
    PassWrites(outputs, layouts, pass);
    if Writes(Document(outputs, layouts), pass) {
      SinkFalls(outputs, layouts, pass, a, hardware, specs);
    }
  }

  // The layouts behind the document after a run.
  ghost function AfterAll(outputs: seq<Endpoint>, layouts: map<Address, Layout>, passes: seq<Pass>, hardware: Hardware,
                          specs: Specs): (after: map<Address, Layout>)
    requires AllWritable(layouts) && SpecsWritable(specs) && AllSteady(passes, hardware, specs)
    ensures AllWritable(after)
    ensures Run(Document(outputs, layouts), passes) == Document(outputs, after)
    decreases |passes|
  {
    if passes == [] then layouts
    else
      var n := |passes| - 1;
      After(outputs, AfterAll(outputs, layouts, passes[..n], hardware, specs), passes[n], specs)
  }

  lemma LayoutInIs(outputs: seq<Endpoint>, layouts: map<Address, Layout>, a: Address)
    requires AllWritable(layouts) && a in LayoutsOf(outputs, layouts)
    ensures LayoutIn(Document(outputs, layouts), a) == Some(LayoutsOf(outputs, layouts)[a])
  {
    LayoutsReadBack(outputs, layouts);
  }

  // One pass uses up one rank for a change.
  lemma OneChangeUsesARank(outputs: seq<Endpoint>, layouts: map<Address, Layout>, pass: Pass, a: Address,
                           hardware: Hardware, specs: Specs)
    requires AllWritable(layouts) && SpecsWritable(specs) && Steady(pass, hardware, specs)
    requires a in LayoutsOf(outputs, layouts) && a in hardware
    ensures a in LayoutsOf(outputs, After(outputs, layouts, pass, specs))
    ensures (if LayoutIn(Document(outputs, After(outputs, layouts, pass, specs)), a)
                != LayoutIn(Document(outputs, layouts), a)
             then 1 else 0)
            + RankAt(outputs, After(outputs, layouts, pass, specs), a, hardware, specs)
            <= RankAt(outputs, layouts, a, hardware, specs)
  {
    OnePass(outputs, layouts, pass, a, hardware, specs);
    LayoutInIs(outputs, layouts, a);
    LayoutInIs(outputs, After(outputs, layouts, pass, specs), a);
  }

  lemma OneMorePass(document: seq<StaticNode>, passes: seq<Pass>, a: Address)
    requires passes != []
    ensures var before := passes[..|passes| - 1];
            ChangesAt(document, passes, a)
            == ChangesAt(document, before, a)
               + if LayoutIn(Run(document, passes), a) != LayoutIn(Run(document, before), a) then 1 else 0
  {
  }

  lemma {:induction false} ChangesUseUpTheRank(outputs: seq<Endpoint>, layouts: map<Address, Layout>, passes: seq<Pass>,
                                               a: Address, hardware: Hardware, specs: Specs, document: seq<StaticNode>)
    requires AllWritable(layouts) && SpecsWritable(specs) && AllSteady(passes, hardware, specs)
    requires a in LayoutsOf(outputs, layouts) && a in hardware && document == Document(outputs, layouts)
    ensures a in LayoutsOf(outputs, AfterAll(outputs, layouts, passes, hardware, specs))
    ensures ChangesAt(document, passes, a)
            + RankAt(outputs, AfterAll(outputs, layouts, passes, hardware, specs), a, hardware, specs)
            <= RankAt(outputs, layouts, a, hardware, specs)
    decreases |passes|
  {
    if passes != [] {
      var front := passes[..|passes| - 1];
      ChangesUseUpTheRank(outputs, layouts, front, a, hardware, specs, document);
      var before := AfterAll(outputs, layouts, front, hardware, specs);
      OneChangeUsesARank(outputs, before, passes[|passes| - 1], a, hardware, specs);
      OneMorePass(document, passes, a);
    }
  }

  // With specs, hardware and ELDs fixed, a sink's layout changes at most twice
  // over any run, in whatever order the monitors come and go.
  lemma ASinkChangesTwice(outputs: seq<Endpoint>, layouts: map<Address, Layout>, passes: seq<Pass>, a: Address,
                          hardware: Hardware, specs: Specs)
    requires AllWritable(layouts) && SpecsWritable(specs) && AllSteady(passes, hardware, specs)
    requires a in LayoutsOf(outputs, layouts) && a in hardware
    ensures ChangesAt(Document(outputs, layouts), passes, a) <= 2
  {
    ChangesUseUpTheRank(outputs, layouts, passes, a, hardware, specs, Document(outputs, layouts));
  }

  // ---------------------------------------------------------------------------
  // And PipeWire restarts at most twice for each sink

  function Playback(outputs: seq<Endpoint>): nat {
    if outputs == [] then 0
    else Playback(outputs[..|outputs| - 1]) + if outputs[|outputs| - 1].capture then 0 else 1
  }

  ghost predicate AllDeclared(sinks: seq<Endpoint>, outputs: seq<Endpoint>, layouts: map<Address, Layout>,
                              hardware: Hardware)
    requires AllWritable(layouts)
  {
    forall e :: e in sinks && !e.capture ==> AddressOf(e) in LayoutsOf(outputs, layouts) && AddressOf(e) in hardware
  }

  // The ranks of some sinks, added up.
  ghost function TotalRank(sinks: seq<Endpoint>, outputs: seq<Endpoint>, layouts: map<Address, Layout>,
                           hardware: Hardware, specs: Specs): (n: nat)
    requires AllWritable(layouts) && AllDeclared(sinks, outputs, layouts, hardware)
    ensures n <= 2 * Playback(sinks)
    decreases |sinks|
  {
    if sinks == [] then 0
    else
      var n := |sinks| - 1;
      TotalRank(sinks[..n], outputs, layouts, hardware, specs)
      + if sinks[n].capture then 0 else RankAt(outputs, layouts, AddressOf(sinks[n]), hardware, specs)
  }

  ghost predicate NoneRises(sinks: seq<Endpoint>, outputs: seq<Endpoint>, before: map<Address, Layout>,
                            after: map<Address, Layout>, hardware: Hardware, specs: Specs)
    requires AllWritable(before) && AllDeclared(sinks, outputs, before, hardware)
    requires AllWritable(after) && AllDeclared(sinks, outputs, after, hardware)
  {
    forall e :: e in sinks && !e.capture ==>
      RankAt(outputs, after, AddressOf(e), hardware, specs) <= RankAt(outputs, before, AddressOf(e), hardware, specs)
  }

  lemma {:induction false} TotalFalls(sinks: seq<Endpoint>, outputs: seq<Endpoint>, before: map<Address, Layout>,
                                      after: map<Address, Layout>, hardware: Hardware, specs: Specs)
    requires AllWritable(before) && AllDeclared(sinks, outputs, before, hardware)
    requires AllWritable(after) && AllDeclared(sinks, outputs, after, hardware)
    requires NoneRises(sinks, outputs, before, after, hardware, specs)
    ensures var b := TotalRank(sinks, outputs, before, hardware, specs);
            var a := TotalRank(sinks, outputs, after, hardware, specs);
            && a <= b
            && ((exists e :: e in sinks && !e.capture
                             && RankAt(outputs, after, AddressOf(e), hardware, specs)
                                < RankAt(outputs, before, AddressOf(e), hardware, specs)) ==> a < b)
    decreases |sinks|
  {
    if sinks != [] {
      var n := |sinks| - 1;
      assert forall e :: e in sinks <==> e in sinks[..n] || e == sinks[n];
      TotalFalls(sinks[..n], outputs, before, after, hardware, specs);
    }
  }

  lemma SinksAreDeclared(outputs: seq<Endpoint>, layouts: map<Address, Layout>, hardware: Hardware)
    requires AllWritable(layouts) && Covers(hardware, outputs)
    ensures AllDeclared(outputs, outputs, layouts, hardware)
  {
    LayoutsReadBack(outputs, layouts);
  }

  // A write changes some sink that the document declares.
  lemma AWriteLowersASink(outputs: seq<Endpoint>, layouts: map<Address, Layout>, pass: Pass, hardware: Hardware,
                          specs: Specs)
    returns (e: Endpoint)
    requires AllWritable(layouts) && SpecsWritable(specs) && Steady(pass, hardware, specs) && Covers(hardware, outputs)
    requires Readable(Document(outputs, layouts)) && Writes(Document(outputs, layouts), pass)
    ensures e in outputs && !e.capture && AddressOf(e) in LayoutsOf(outputs, layouts) && AddressOf(e) in hardware
    ensures AddressOf(e) in LayoutsOf(outputs, After(outputs, layouts, pass, specs))
    ensures RankAt(outputs, After(outputs, layouts, pass, specs), AddressOf(e), hardware, specs)
            < RankAt(outputs, layouts, AddressOf(e), hardware, specs)
  {
    var declared := LayoutsOf(outputs, layouts);
    var change := Plan(declared, pass.endpoints, specs)[0];
    PlanHolds(declared, pass.endpoints, specs);
    assert change in Plan(declared, pass.endpoints, specs);
    var i :| 0 <= i < |pass.endpoints| && ChangeOf(declared, pass.endpoints[i], specs) == Some(change);
    var a := AddressOf(pass.endpoints[i]);
    DeclaredAreKept(outputs, layouts, a);
    e :| e in outputs && !e.capture && AddressOf(e) == a;
    SinkFalls(outputs, layouts, pass, a, hardware, specs);
  }

  lemma OnePassLowersTheTotal(outputs: seq<Endpoint>, layouts: map<Address, Layout>, pass: Pass, hardware: Hardware,
                              specs: Specs)
    requires AllWritable(layouts) && SpecsWritable(specs) && Steady(pass, hardware, specs) && Covers(hardware, outputs)
    requires Readable(Document(outputs, layouts))
    requires AllDeclared(outputs, outputs, layouts, hardware)
    ensures AllDeclared(outputs, outputs, After(outputs, layouts, pass, specs), hardware)
    ensures TotalRank(outputs, outputs, After(outputs, layouts, pass, specs), hardware, specs)
            + (if Writes(Document(outputs, layouts), pass) then 1 else 0)
            <= TotalRank(outputs, outputs, layouts, hardware, specs)
  {
    var after := After(outputs, layouts, pass, specs);
    SinksAreDeclared(outputs, after, hardware);
    forall e | e in outputs && !e.capture
      ensures RankAt(outputs, after, AddressOf(e), hardware, specs)
           <= RankAt(outputs, layouts, AddressOf(e), hardware, specs)
    {
      OnePass(outputs, layouts, pass, AddressOf(e), hardware, specs);
    }
    if Writes(Document(outputs, layouts), pass) {
      var e := AWriteLowersASink(outputs, layouts, pass, hardware, specs);
    }
    TotalFalls(outputs, outputs, layouts, after, hardware, specs);
  }

  lemma {:induction false} WritesUseUpTheTotal(outputs: seq<Endpoint>, layouts: map<Address, Layout>, passes: seq<Pass>,
                                               hardware: Hardware, specs: Specs)
    requires AllWritable(layouts) && SpecsWritable(specs) && AllSteady(passes, hardware, specs)
             && Covers(hardware, outputs)
    requires AllDeclared(outputs, outputs, layouts, hardware)
    ensures AllDeclared(outputs, outputs, AfterAll(outputs, layouts, passes, hardware, specs), hardware)
    ensures WritesOf(Document(outputs, layouts), passes)
            + TotalRank(outputs, outputs, AfterAll(outputs, layouts, passes, hardware, specs), hardware, specs)
            <= TotalRank(outputs, outputs, layouts, hardware, specs)
    decreases |passes|
  {
    if passes != [] {
      var n := |passes| - 1;
      WritesUseUpTheTotal(outputs, layouts, passes[..n], hardware, specs);
      var before := AfterAll(outputs, layouts, passes[..n], hardware, specs);
      LayoutsReadBack(outputs, before);
      OnePassLowersTheTotal(outputs, before, passes[n], hardware, specs);
    }
  }

  // Over any run with specs, hardware and ELDs fixed, PipeWire restarts for a
  // layout at most twice for each playback device, however long the run is.
  lemma RestartsAreFew(outputs: seq<Endpoint>, layouts: map<Address, Layout>, passes: seq<Pass>, hardware: Hardware,
                       specs: Specs)
    requires AllWritable(layouts) && SpecsWritable(specs) && AllSteady(passes, hardware, specs)
             && Covers(hardware, outputs)
    ensures WritesOf(Document(outputs, layouts), passes) <= 2 * Playback(outputs)
  {
    SinksAreDeclared(outputs, layouts, hardware);
    WritesUseUpTheTotal(outputs, layouts, passes, hardware, specs);
  }
}
