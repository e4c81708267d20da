// The declaration that PipeWire loads, and the same facts read back out of it.
// audio-operator/nodes.go and declared.go.
//
// A document is the list of its objects: the JSON text between is taken as an
// encoder and a decoder that undo each other.
module Declarations {
  import opened Basics
  import opened Sorting
  import opened Text
  import opened Elds
  import opened Devices
  import opened Layouts

  // The names of the properties, each another word in the document.
  datatype Property = FactoryName | Path | AlsaCard | NodeName | Description | MediaClass | CardNumber | PcmNumber
    | AudioChannels | AudioPosition | UseChmap | LayoutSource

  type Args = map<Property, string>

  datatype StaticNode = StaticNode(factory: string, flags: seq<string>, args: Args)

  datatype DeclaredNode = DeclaredNode(address: Address, layout: Layout)

  const SINK_CLASS := "Audio/Sink"
  const SOURCE_CLASS := "Audio/Source"
  const BRACKETS := {'[', ']', ' '}

  // ---------------------------------------------------------------------------
  // Writing

  function LayoutArgs(layout: Layout): Args {
    if layout.Origin() == FROM_CHANNEL_MAP then map[UseChmap := "true", LayoutSource := FROM_CHANNEL_MAP]
    else if layout.Origin() == NO_LAYOUT then map[]
    else map[AudioChannels := Itoa(|layout.positions|), AudioPosition := "[ " + Join(layout.positions, " ") + " ]",
             LayoutSource := layout.stated]
  }

  function SinkNodeName(card: int, pcm: int): string {
    "liken.audio.card" + Itoa(card) + "-pcm" + Itoa(pcm)
  }

  function NodeArgs(card: int, pcm: int, capture: bool): Args {
    map[FactoryName := if capture then "api.alsa.pcm.source" else "api.alsa.pcm.sink",
        Path := "hw:" + Itoa(card) + "," + Itoa(pcm),
        AlsaCard := Itoa(card),
        NodeName := SinkNodeName(card, pcm) + if capture then "c" else "",
        Description := "liken audio " + (if capture then "input" else "output") + ", ALSA card " + Itoa(card)
                       + " device " + Itoa(pcm),
        MediaClass := if capture then SOURCE_CLASS else SINK_CLASS,
        CardNumber := Itoa(card),
        PcmNumber := Itoa(pcm)]
  }

  function SinkObject(card: int, pcm: int, layout: Layout): StaticNode {
    StaticNode("adapter", ["nofail"], NodeArgs(card, pcm, false) + LayoutArgs(layout))
  }

  function SourceObject(card: int, pcm: int): StaticNode {
    StaticNode("adapter", ["nofail"], NodeArgs(card, pcm, true))
  }

  // The order of the document: by card, by PCM device, the sink first.
  predicate InDocument(a: Endpoint, b: Endpoint) {
    if a.card != b.card then a.card < b.card
    else if a.pcm != b.pcm then a.pcm < b.pcm
    else !a.capture || b.capture
  }

  lemma DocumentOrder()
    ensures TotalPreorder(InDocument)
  {
  }

  function ObjectOf(e: Endpoint, layouts: map<Address, Layout>): StaticNode {
    if e.capture then SourceObject(e.card, e.pcm) else SinkObject(e.card, e.pcm, DeclaredAt(layouts, AddressOf(e)))
  }

  function ObjectsOf(outputs: seq<Endpoint>, layouts: map<Address, Layout>): (objects: seq<StaticNode>)
    ensures |objects| == |outputs|
    ensures forall i :: 0 <= i < |outputs| ==> objects[i] == ObjectOf(outputs[i], layouts)
  {
    seq(|outputs|, i requires 0 <= i < |outputs| => ObjectOf(outputs[i], layouts))
  }

  function Document(outputs: seq<Endpoint>, layouts: map<Address, Layout>): seq<StaticNode> {
    DocumentOrder();
    ObjectsOf(Sorted(outputs, InDocument), layouts)
  }

  method NodeConfig(outputs: seq<Endpoint>, layouts: map<Address, Layout>) returns (objects: seq<StaticNode>)
    ensures objects == Document(outputs, layouts)
  {
    DocumentOrder();
    var sorted := Sorted(outputs, InDocument);
    ghost var all := ObjectsOf(sorted, layouts);
    objects := [];
    for i := 0 to |sorted|
      invariant objects == all[..i]
    {
      var e := sorted[i];
      if e.capture {
        objects := objects + [SourceObject(e.card, e.pcm)];
        continue;
      }
      objects := objects + [SinkObject(e.card, e.pcm, DeclaredAt(layouts, AddressOf(e)))];
    }
    assert objects == all;
  }

  // ---------------------------------------------------------------------------
  // Reading

  function Arg(args: Args, key: Property): string {
    if key in args then args[key] else ""
  }

  function DirectionOf(class_: string): Direction {
    if class_ == SINK_CLASS then Sink else if class_ == SOURCE_CLASS then Source else Neither
  }

  function DeclaredLayout(args: Args): Layout {
    if Arg(args, LayoutSource) == "" then Layout(NO_LAYOUT, [])
    else Layout(Arg(args, LayoutSource), Fields(Trim(Arg(args, AudioPosition), BRACKETS)))
  }

  function NodeIn(o: StaticNode): Option<DeclaredNode> {
    var card, pcm := Atoi(Arg(o.args, CardNumber)), Atoi(Arg(o.args, PcmNumber));
    if card.None? || pcm.None? then None
    else
      var direction := DirectionOf(Arg(o.args, MediaClass));
      Some(DeclaredNode(Address(card.value, pcm.value, direction),
                        if direction == Sink then DeclaredLayout(o.args) else Undeclared))
  }

  predicate Readable(document: seq<StaticNode>) {
    forall i :: 0 <= i < |document| ==> NodeIn(document[i]).Some?
  }

  function NodesIn(document: seq<StaticNode>): (nodes: seq<DeclaredNode>)
    requires Readable(document)
    ensures |nodes| == |document|
    ensures forall i :: 0 <= i < |document| ==> nodes[i] == NodeIn(document[i]).value
  {
    seq(|document|, i requires 0 <= i < |document| => NodeIn(document[i]).value)
  }

  method ParseDeclaration(document: seq<StaticNode>) returns (nodes: Result<seq<DeclaredNode>>)
    ensures nodes.Ok? <==> Readable(document)
    ensures nodes.Ok? ==> nodes.value == NodesIn(document)
  {
    var list := [];
    for i := 0 to |document|
      invariant |list| == i
      invariant forall k :: 0 <= k < i ==> NodeIn(document[k]) == Some(list[k])
    {
      var args := document[i].args;
      var card := Atoi(Arg(args, CardNumber));
      var pcm := Atoi(Arg(args, PcmNumber));
      if card.None? || pcm.None? {
        return Err("a node has no card and PCM device number");
      }
      var direction := DirectionOf(Arg(args, MediaClass));
      var layout := Undeclared;
      if direction == Sink {
        layout := DeclaredLayout(args);
      }
      list := list + [DeclaredNode(Address(card.value, pcm.value, direction), layout)];
    }
    assert Readable(document);
    assert list == NodesIn(document);
    return Ok(list);
  }

  function LayoutsIn(nodes: seq<DeclaredNode>): map<Address, Layout> {
    if nodes == [] then map[]
    else
      var n := |nodes| - 1;
      var before := LayoutsIn(nodes[..n]);
      if nodes[n].address.direction == Sink then before[nodes[n].address := nodes[n].layout] else before
  }

  method DeclaredLayouts(nodes: seq<DeclaredNode>) returns (layouts: map<Address, Layout>)
    ensures layouts == LayoutsIn(nodes)
  {
    layouts := map[];
    for i := 0 to |nodes|
      invariant layouts == LayoutsIn(nodes[..i])
    {
      assert nodes[..i + 1][..i] == nodes[..i];
      if nodes[i].address.direction == Sink {
        layouts := layouts[nodes[i].address := nodes[i].layout];
      }
    }
    assert nodes[..|nodes|] == nodes;
  }

  function Bare(card: int, pcm: int, capture: bool): Endpoint {
    Endpoint(card, pcm, capture, false, false, Unread, false, "")
  }

  function EndpointsIn(nodes: seq<DeclaredNode>): (endpoints: seq<Endpoint>)
    ensures |endpoints| == |nodes|
    ensures forall i :: 0 <= i < |nodes| ==>
              endpoints[i] == Bare(nodes[i].address.card, nodes[i].address.pcm, nodes[i].address.direction == Source)
  {
    seq(|nodes|, i requires 0 <= i < |nodes| =>
      Bare(nodes[i].address.card, nodes[i].address.pcm, nodes[i].address.direction == Source))
  }

  function AddressSet(endpoints: seq<Endpoint>): set<Address> {
    set e | e in endpoints :: AddressOf(e)
  }

  function NodeAddresses(nodes: seq<DeclaredNode>): set<Address> {
    set n | n in nodes :: n.address
  }

  predicate SamePcmDevices(nodes: seq<DeclaredNode>, outputs: seq<Endpoint>) {
    NodeAddresses(nodes) == AddressSet(outputs)
  }

  // ---------------------------------------------------------------------------
  // A layout reads back

  // What PipeWire's position names are like, and all that the list needs.
  predicate Writable(positions: seq<string>) {
    && AllWords(positions)
    && forall i :: 0 <= i < |positions| ==>
         positions[i][0] !in BRACKETS && positions[i][|positions[i]| - 1] !in BRACKETS
  }

  predicate AllWritable(layouts: map<Address, Layout>) {
    forall a :: a in layouts ==> Writable(layouts[a].positions)
  }

  // The layout as the document keeps it.
  function Kept(layout: Layout): Layout {
    if layout.Origin() == NO_LAYOUT then Layout(NO_LAYOUT, [])
    else if layout.Origin() == FROM_CHANNEL_MAP then Layout(FROM_CHANNEL_MAP, [])
    else layout
  }

  lemma {:induction false} JoinEnds(parts: seq<string>)
    requires AllWords(parts) && parts != []
    ensures var text := Join(parts, " "); var last := parts[|parts| - 1];
            text != [] && text[0] == parts[0][0] && text[|text| - 1] == last[|last| - 1]
  {
    if |parts| > 1 {
      JoinEnds(parts[1..]);
      var rest := Join(parts[1..], " ");
      assert Join(parts, " ") == parts[0] + " " + rest;
    }
  }

  lemma PositionsReadBack(positions: seq<string>)
    requires Writable(positions)
    ensures Fields(Trim("[ " + Join(positions, " ") + " ]", BRACKETS)) == positions
  {
    var text := Join(positions, " ");
    FieldsOfJoin(positions);
    if positions == [] {
      TrimLeftOf("[  ]", "", BRACKETS);
      assert "[ " + text + " ]" == "[  ]" + "";
    } else {
      JoinEnds(positions);
      assert "[ " + text + " ]" == "[ " + (text + " ]");
      TrimLeftOf("[ ", text + " ]", BRACKETS);
      TrimRightOf(text, " ]", BRACKETS);
    }
  }

  lemma LayoutReadsBack(args: Args, layout: Layout)
    requires Writable(layout.positions) && LayoutSource !in args && AudioPosition !in args
    ensures DeclaredLayout(args + LayoutArgs(layout)) == Kept(layout)
  {
    if layout.Origin() == FROM_CHANNEL_MAP {
      assert Arg(args + LayoutArgs(layout), AudioPosition) == "";
    } else if layout.Origin() != NO_LAYOUT {
      PositionsReadBack(layout.positions);
    }
  }

  lemma KeptWritesTheSame(layout: Layout)
    ensures LayoutArgs(Kept(layout)) == LayoutArgs(layout)
    ensures Kept(Kept(layout)) == Kept(layout)
  {
  }

  // ---------------------------------------------------------------------------
  // The document reads back

  lemma SinkArgs(card: int, pcm: int, layout: Layout)
    ensures var all := NodeArgs(card, pcm, false) + LayoutArgs(layout);
            && Arg(all, CardNumber) == Itoa(card) && Arg(all, PcmNumber) == Itoa(pcm)
            && Arg(all, MediaClass) == SINK_CLASS
  {
  }

  lemma SinkReadsBack(card: int, pcm: int, layout: Layout)
    requires Writable(layout.positions)
    ensures NodeIn(SinkObject(card, pcm, layout)) == Some(DeclaredNode(Address(card, pcm, Sink), Kept(layout)))
  {
    AtoiOfItoa(card);
    AtoiOfItoa(pcm);
    SinkArgs(card, pcm, layout);
    LayoutReadsBack(NodeArgs(card, pcm, false), layout);
  }

  lemma SourceReadsBack(card: int, pcm: int)
    ensures NodeIn(SourceObject(card, pcm)) == Some(DeclaredNode(Address(card, pcm, Source), Undeclared))
  {
    AtoiOfItoa(card);
    AtoiOfItoa(pcm);
    assert SOURCE_CLASS != SINK_CLASS by { assert |SOURCE_CLASS| != |SINK_CLASS|; }
  }

  function NodeFor(e: Endpoint, layouts: map<Address, Layout>): DeclaredNode {
    DeclaredNode(AddressOf(e), if e.capture then Undeclared else Kept(DeclaredAt(layouts, AddressOf(e))))
  }

  lemma ObjectReadsBack(e: Endpoint, layouts: map<Address, Layout>)
    requires AllWritable(layouts)
    ensures NodeIn(ObjectOf(e, layouts)) == Some(NodeFor(e, layouts))
  {
    if e.capture {
      SourceReadsBack(e.card, e.pcm);
    } else {
      SinkReadsBack(e.card, e.pcm, DeclaredAt(layouts, AddressOf(e)));
    }
  }

  // Every address comes back, in the document's order, each sink with its layout.
  lemma DocumentReadsBack(outputs: seq<Endpoint>, layouts: map<Address, Layout>)
    requires AllWritable(layouts)
    ensures TotalPreorder(InDocument)
    ensures var sorted, document := Sorted(outputs, InDocument), Document(outputs, layouts);
            && Readable(document)
            && |NodesIn(document)| == |sorted|
            && forall i :: 0 <= i < |sorted| ==> NodesIn(document)[i] == NodeFor(sorted[i], layouts)
  {
    DocumentOrder();
    var sorted := Sorted(outputs, InDocument);
    forall i | 0 <= i < |sorted| ensures NodeIn(Document(outputs, layouts)[i]) == Some(NodeFor(sorted[i], layouts)) {
      ObjectReadsBack(sorted[i], layouts);
    }
  }

  // What the declared layouts of a generated document are.
  lemma {:induction false} LayoutsInAre(nodes: seq<DeclaredNode>)
    ensures forall a :: a in LayoutsIn(nodes)
              <==> a.direction == Sink && exists i :: 0 <= i < |nodes| && nodes[i].address == a
    ensures forall a :: a in LayoutsIn(nodes) ==>
              exists i :: 0 <= i < |nodes| && nodes[i] == DeclaredNode(a, LayoutsIn(nodes)[a])
  {
    if nodes != [] {
      var n := |nodes| - 1;
      LayoutsInAre(nodes[..n]);
      forall a ensures a in LayoutsIn(nodes)
              <==> a.direction == Sink && exists i :: 0 <= i < |nodes| && nodes[i].address == a {
        if i :| 0 <= i < n && nodes[i].address == a { assert nodes[..n][i].address == a; }
      }
      forall a | a in LayoutsIn(nodes)
        ensures exists i :: 0 <= i < |nodes| && nodes[i] == DeclaredNode(a, LayoutsIn(nodes)[a]) {
        if nodes[n].address != a || nodes[n].address.direction != Sink {
          var i :| 0 <= i < n && nodes[..n][i] == DeclaredNode(a, LayoutsIn(nodes[..n])[a]);
          assert nodes[i] == DeclaredNode(a, LayoutsIn(nodes)[a]);
        } else {
          assert nodes[n] == DeclaredNode(a, LayoutsIn(nodes)[a]);
        }
      }
    }
  }

  lemma {:induction false} SortedNodes(outputs: seq<Endpoint>, sorted: seq<Endpoint>, nodes: seq<DeclaredNode>,
                                       layouts: map<Address, Layout>)
    requires forall e :: e in sorted <==> e in outputs
    requires |nodes| == |sorted| && forall i :: 0 <= i < |sorted| ==> nodes[i] == NodeFor(sorted[i], layouts)
    ensures forall e :: e in outputs && !e.capture ==>
              && AddressOf(e) in LayoutsIn(nodes)
              && LayoutsIn(nodes)[AddressOf(e)] == Kept(DeclaredAt(layouts, AddressOf(e)))
    ensures forall a :: a in LayoutsIn(nodes) ==> exists e :: e in outputs && !e.capture && AddressOf(e) == a
  {
    LayoutsInAre(nodes);
    var declared := LayoutsIn(nodes);
    forall a | a in declared
      ensures exists e :: e in outputs && !e.capture && AddressOf(e) == a
      ensures declared[a] == Kept(DeclaredAt(layouts, a))
    {
      var i :| 0 <= i < |nodes| && nodes[i] == DeclaredNode(a, declared[a]);
      assert nodes[i] == NodeFor(sorted[i], layouts) && sorted[i] in outputs;
    }
    forall e | e in outputs && !e.capture ensures AddressOf(e) in declared {
      var i :| 0 <= i < |sorted| && sorted[i] == e;
      assert nodes[i].address == AddressOf(e);
    }
  }

  lemma LayoutsReadBack(outputs: seq<Endpoint>, layouts: map<Address, Layout>)
    requires AllWritable(layouts)
    ensures Readable(Document(outputs, layouts))
    ensures var declared := LayoutsIn(NodesIn(Document(outputs, layouts)));
            && (forall e :: e in outputs && !e.capture ==>
                  AddressOf(e) in declared && declared[AddressOf(e)] == Kept(DeclaredAt(layouts, AddressOf(e))))
            && (forall a :: a in declared ==> exists e :: e in outputs && !e.capture && AddressOf(e) == a)
  {
    DocumentReadsBack(outputs, layouts);
    var sorted := Sorted(outputs, InDocument);
    forall e ensures e in sorted <==> e in outputs { SameMembers(outputs, InDocument, e); }
    SortedNodes(outputs, sorted, NodesIn(Document(outputs, layouts)), layouts);
  }

  // ---------------------------------------------------------------------------
  // Regeneration

  // The endpoints that a document is rewritten from: as sorted as it was, and
  // with the same addresses.
  lemma RebuiltEndpoints(outputs: seq<Endpoint>, layouts: map<Address, Layout>)
    requires AllWritable(layouts)
    ensures TotalPreorder(InDocument) && Readable(Document(outputs, layouts))
    ensures var sorted, rebuilt := Sorted(outputs, InDocument), EndpointsIn(NodesIn(Document(outputs, layouts)));
            && |rebuilt| == |sorted| && Sorted(rebuilt, InDocument) == rebuilt
            && forall i :: 0 <= i < |sorted| ==> rebuilt[i] == Bare(sorted[i].card, sorted[i].pcm, sorted[i].capture)
  {
    DocumentReadsBack(outputs, layouts);
    var sorted, rebuilt := Sorted(outputs, InDocument), EndpointsIn(NodesIn(Document(outputs, layouts)));
    assert forall i :: 0 <= i < |sorted| ==> rebuilt[i] == Bare(sorted[i].card, sorted[i].pcm, sorted[i].capture);
    assert Ascending(rebuilt, InDocument) by {
      forall i, j | 0 <= i < j < |rebuilt| ensures InDocument(rebuilt[i], rebuilt[j]) {
        assert InDocument(sorted[i], sorted[j]);
      }
    }
    SortedStays(rebuilt, InDocument);
  }

  // A rewrite with other layouts is the document that the same outputs and those
  // layouts give.
  lemma RewriteIsAFreshDocument(outputs: seq<Endpoint>, layouts: map<Address, Layout>, next: map<Address, Layout>)
    requires AllWritable(layouts)
    ensures Readable(Document(outputs, layouts))
    ensures Document(EndpointsIn(NodesIn(Document(outputs, layouts))), next) == Document(outputs, next)
  {
    RebuiltEndpoints(outputs, layouts);
    var sorted, rebuilt := Sorted(outputs, InDocument), EndpointsIn(NodesIn(Document(outputs, layouts)));
    forall i | 0 <= i < |sorted| ensures ObjectOf(rebuilt[i], next) == ObjectOf(sorted[i], next) {
      assert AddressOf(rebuilt[i]) == AddressOf(sorted[i]);
    }
    assert Document(rebuilt, next) == Document(outputs, next);
  }

  lemma SameObjects(outputs: seq<Endpoint>, a: map<Address, Layout>, b: map<Address, Layout>)
    requires forall e :: e in outputs && !e.capture ==>
               LayoutArgs(DeclaredAt(a, AddressOf(e))) == LayoutArgs(DeclaredAt(b, AddressOf(e)))
    ensures ObjectsOf(outputs, a) == ObjectsOf(outputs, b)
  {
    forall i | 0 <= i < |outputs| ensures ObjectOf(outputs[i], a) == ObjectOf(outputs[i], b) {
      assert outputs[i] in outputs;
    }
  }

  // A document generated again from what was read out of it is the same document.
  lemma RegenerationIsIdentity(outputs: seq<Endpoint>, layouts: map<Address, Layout>)
    requires AllWritable(layouts)
    ensures Readable(Document(outputs, layouts))
    ensures var document := Document(outputs, layouts); var nodes := NodesIn(document);
            Document(EndpointsIn(nodes), LayoutsIn(nodes)) == document
  {
    LayoutsReadBack(outputs, layouts);
    var declared := LayoutsIn(NodesIn(Document(outputs, layouts)));
    RewriteIsAFreshDocument(outputs, layouts, declared);
    DocumentOrder();
    var sorted := Sorted(outputs, InDocument);
    forall e | e in sorted && !e.capture
      ensures LayoutArgs(DeclaredAt(declared, AddressOf(e))) == LayoutArgs(DeclaredAt(layouts, AddressOf(e))) {
      SameMembers(outputs, InDocument, e);
      KeptWritesTheSame(DeclaredAt(layouts, AddressOf(e)));
    }
    SameObjects(sorted, declared, layouts);
  }

  lemma SameAddresses(outputs: seq<Endpoint>, sorted: seq<Endpoint>, nodes: seq<DeclaredNode>)
    requires forall e :: e in sorted <==> e in outputs
    requires |nodes| == |sorted| && forall i :: 0 <= i < |sorted| ==> nodes[i].address == AddressOf(sorted[i])
    ensures SamePcmDevices(nodes, outputs)
  {
    forall a ensures a in NodeAddresses(nodes) <==> a in AddressSet(outputs) {
      if a in NodeAddresses(nodes) {
        var i :| 0 <= i < |nodes| && nodes[i].address == a;
        assert sorted[i] in outputs && AddressOf(sorted[i]) == a;
      }
      if a in AddressSet(outputs) {
        var e :| e in outputs && AddressOf(e) == a;
        var i :| 0 <= i < |sorted| && sorted[i] == e;
        assert nodes[i] in nodes && nodes[i].address == a;
      }
    }
  }

  lemma DocumentKeepsThePcmDevices(outputs: seq<Endpoint>, layouts: map<Address, Layout>)
    requires AllWritable(layouts)
    ensures Readable(Document(outputs, layouts)) && SamePcmDevices(NodesIn(Document(outputs, layouts)), outputs)
  {
    DocumentReadsBack(outputs, layouts);
    var sorted, nodes := Sorted(outputs, InDocument), NodesIn(Document(outputs, layouts));
    forall e ensures e in sorted <==> e in outputs { SameMembers(outputs, InDocument, e); }
    forall i | 0 <= i < |sorted| ensures nodes[i].address == AddressOf(sorted[i]) {
      assert nodes[i] == NodeFor(sorted[i], layouts);
    }
    SameAddresses(outputs, sorted, nodes);
  }

  // A rewrite for new layouts keeps the PCM devices that PipeWire runs.
  lemma RewriteKeepsThePcmDevices(outputs: seq<Endpoint>, layouts: map<Address, Layout>, next: map<Address, Layout>)
    requires AllWritable(layouts) && AllWritable(next)
    ensures Readable(Document(outputs, layouts))
    ensures var rewritten := Document(EndpointsIn(NodesIn(Document(outputs, layouts))), next);
            Readable(rewritten) && SamePcmDevices(NodesIn(rewritten), outputs)
  {
    RewriteIsAFreshDocument(outputs, layouts, next);
    DocumentKeepsThePcmDevices(outputs, next);
  }

  // A sink states its channels when a person or a monitor gave them, and takes the
  // device's own map when the device describes itself.
  lemma WhatASinkStates(card: int, pcm: int, layout: Layout)
    ensures var args := SinkObject(card, pcm, layout).args;
            && (Arg(args, UseChmap) == "true" <==> layout.Origin() == "ChannelMap")
            && (AudioChannels in args <==> layout.Origin() != "ChannelMap" && layout.Origin() != "None")
            && (AudioChannels in args ==> Atoi(Arg(args, AudioChannels)) == Some(|layout.positions|))
  {
    AtoiOfItoa(|layout.positions|);
  }

  // ---------------------------------------------------------------------------
  // Each node opens its own device, under its own name

  lemma NumbersHoldNoLetter(n: int)
    ensures 'p' !in Itoa(n) && 'c' !in Itoa(n)
  {
    DigitsAreDigits(if n < 0 then -n else n);
  }

  // A text up to the first of its letters.
  lemma SameUpTo(a: string, x: string, b: string, y: string, c: char)
    requires c !in a && c !in b && x != [] && y != [] && x[0] == c && y[0] == c && a + x == b + y
    ensures a == b && x == y
  {
    assert (a + x)[|a|] == c && (b + y)[|b|] == c;
    assert forall i :: 0 <= i < |a| ==> (a + x)[i] == a[i];
    assert forall i :: 0 <= i < |b| ==> (b + y)[i] == b[i];
    assert |a| == |b|;
    assert a == (a + x)[..|a|] && b == (b + y)[..|b|];
    assert x == (a + x)[|a|..] && y == (b + y)[|b|..];
  }

  lemma NumbersDiffer(m: int, n: int)
    requires Itoa(m) == Itoa(n)
    ensures m == n
  {
    AtoiOfItoa(m);
    AtoiOfItoa(n);
  }

  lemma DirectionsDiffer(m: int, n: int, capture: bool, other: bool)
    requires Itoa(m) + (if capture then "c" else "") == Itoa(n) + (if other then "c" else "")
    ensures m == n && capture == other
  {
    NumbersHoldNoLetter(m);
    NumbersHoldNoLetter(n);
    var a, b := Itoa(m) + (if capture then "c" else ""), Itoa(n) + (if other then "c" else "");
    assert 'c' in a <==> capture;
    assert 'c' in b <==> other;
    if capture {
      assert Itoa(m) == a[..|a| - 1] && Itoa(n) == b[..|b| - 1];
    } else {
      assert Itoa(m) == a && Itoa(n) == b;
    }
    NumbersDiffer(m, n);
  }

  function NodeNameOf(e: Endpoint): string {
    "liken.audio.card" + Itoa(e.card) + "-pcm" + Itoa(e.pcm) + (if e.capture then "c" else "")
  }

  lemma NamesSplit(prefix: string, x: string, m: string, y: string, n: string)
    requires 'p' !in x && 'p' !in y && prefix + x + "-pcm" + m == prefix + y + "-pcm" + n
    ensures x == y && m == n
  {
    var a, b := x + "-" + ("pcm" + m), y + "-" + ("pcm" + n);
    assert prefix + x + "-pcm" + m == prefix + a && prefix + y + "-pcm" + n == prefix + b;
    assert a == (prefix + a)[|prefix|..] && b == (prefix + b)[|prefix|..];
    SameUpTo(x + "-", "pcm" + m, y + "-", "pcm" + n, 'p');
    assert x == (x + "-")[..|x|] && y == (y + "-")[..|y|];
    assert m == ("pcm" + m)[3..] && n == ("pcm" + n)[3..];
  }

  // The name of a node tells its card, its PCM device, and its direction.
  lemma NodeNamesDiffer(a: Endpoint, b: Endpoint)
    requires NodeNameOf(a) == NodeNameOf(b)
    ensures AddressOf(a) == AddressOf(b)
  {
    var m, n := Itoa(a.pcm) + (if a.capture then "c" else ""), Itoa(b.pcm) + (if b.capture then "c" else "");
    NumbersHoldNoLetter(a.card);
    NumbersHoldNoLetter(b.card);
    assert NodeNameOf(a) == "liken.audio.card" + Itoa(a.card) + "-pcm" + m;
    assert NodeNameOf(b) == "liken.audio.card" + Itoa(b.card) + "-pcm" + n;
    NamesSplit("liken.audio.card", Itoa(a.card), m, Itoa(b.card), n);
    NumbersDiffer(a.card, b.card);
    DirectionsDiffer(a.pcm, b.pcm, a.capture, b.capture);
  }

  lemma ObjectNames(e: Endpoint, layouts: map<Address, Layout>)
    ensures var args := ObjectOf(e, layouts).args;
            && Arg(args, NodeName) == NodeNameOf(e)
            && Arg(args, Path) == "hw:" + Itoa(e.card) + "," + Itoa(e.pcm)
            && Arg(args, FactoryName) == (if e.capture then "api.alsa.pcm.source" else "api.alsa.pcm.sink")
            && Arg(args, AlsaCard) == Itoa(e.card)
            && ObjectOf(e, layouts).factory == "adapter" && ObjectOf(e, layouts).flags == ["nofail"]
  {
  }

  lemma ObjectsAreDescribed(e: Endpoint, layouts: map<Address, Layout>)
    ensures Arg(ObjectOf(e, layouts).args, Description)
         == (if e.capture then "liken audio input, ALSA card " else "liken audio output, ALSA card ")
            + Itoa(e.card) + " device " + Itoa(e.pcm)
  {
    assert "liken audio " + "input" + ", ALSA card " == "liken audio input, ALSA card ";
    assert "liken audio " + "output" + ", ALSA card " == "liken audio output, ALSA card ";
  }

  lemma SortedAddressesDiffer(outputs: seq<Endpoint>, i: nat, j: nat)
    requires OneForAnAddress(outputs) && i < |outputs| && j < |outputs| && i != j
    ensures TotalPreorder(InDocument)
    ensures AddressOf(Sorted(outputs, InDocument)[i]) != AddressOf(Sorted(outputs, InDocument)[j])
  {
    DocumentOrder();
    var sorted := Sorted(outputs, InDocument);
    assert Distinct(outputs) by {
      forall k, n | 0 <= k < n < |outputs| ensures outputs[k] != outputs[n] {
        assert AddressOf(outputs[k]) != AddressOf(outputs[n]);
      }
    }
    SameMembersStayDistinct(outputs, sorted);
    SameMembers(outputs, InDocument, sorted[i]);
    SameMembers(outputs, InDocument, sorted[j]);
    var k :| 0 <= k < |outputs| && outputs[k] == sorted[i];
    var n :| 0 <= n < |outputs| && outputs[n] == sorted[j];
    assert k != n;
  }

  // In a generated document every node opens the device of its own address, and no
  // two have the same name. The nodes stand in the order of their cards and PCM
  // devices, a sink in front of the source of its device.
  lemma EachNodeOpensItsDevice(outputs: seq<Endpoint>, layouts: map<Address, Layout>, i: nat, j: nat)
    requires AllWritable(layouts) && OneForAnAddress(outputs) && i < |outputs| && j < |outputs|
    ensures |Document(outputs, layouts)| == |outputs|
    ensures var o := Document(outputs, layouts)[i]; var node := NodeIn(o);
            && node.Some? && o.factory == "adapter" && o.flags == ["nofail"]
            && Arg(o.args, AlsaCard) == Itoa(node.value.address.card)
            && Arg(o.args, Path) == "hw:" + Itoa(node.value.address.card) + "," + Itoa(node.value.address.pcm)
            && Arg(o.args, FactoryName) == (if node.value.address.direction == Source then "api.alsa.pcm.source"
                                            else "api.alsa.pcm.sink")
            && (i != j ==> Arg(o.args, NodeName) != Arg(Document(outputs, layouts)[j].args, NodeName))
    ensures i < j ==>
              var a, b := NodeIn(Document(outputs, layouts)[i]), NodeIn(Document(outputs, layouts)[j]);
              && a.Some? && b.Some?
              && (a.value.address.card < b.value.address.card
                  || (a.value.address.card == b.value.address.card
                      && (a.value.address.pcm < b.value.address.pcm
                          || (a.value.address.pcm == b.value.address.pcm
                              && a.value.address.direction == Sink && b.value.address.direction == Source))))
  {
    DocumentOrder();
    var sorted := Sorted(outputs, InDocument);
    ObjectReadsBack(sorted[i], layouts);
    ObjectReadsBack(sorted[j], layouts);
    ObjectNames(sorted[i], layouts);
    ObjectNames(sorted[j], layouts);
    if i < j { assert InDocument(sorted[i], sorted[j]); }
    if i != j {
      SortedAddressesDiffer(outputs, i, j);
      if NodeNameOf(sorted[i]) == NodeNameOf(sorted[j]) { NodeNamesDiffer(sorted[i], sorted[j]); }
    }
  }
}
