// The table of the capture API: the router that matches a path against it, and
// the template that the discovery document publishes of it.
// audio-operator/apiroutes.go, and the expansion in fragments.go.
module Routes {
  import opened Basics
  import opened Text
  import opened Queries

  datatype Kind = Discovery | OpenApi | Info | Tap

  // A knob with no extensions is taken by every form that the route serves.
  datatype Knob = Knob(name: string, extensions: seq<string>)

  datatype Route = Route(kind: Kind, segments: seq<string>, resource: string, extension: string, query: seq<Knob>)

  const RESOURCES := ["sinks", "sources"]
  const EXTENSIONS := ["wav", "flac", "opus"]
  const SpanKnob := Knob("t", [])
  const BitrateKnob := Knob("bitrate", ["opus"])
  const VARIABLE := "{name}"
  const EXTENSION_LABEL := "{.ext}"

  function PathOf(segments: seq<string>): string {
    "/" + Join(segments, "/")
  }

  // ---------------------------------------------------------------------------
  // The table

  function Aspect(extension: string): string {
    if extension == "" then "audio" else "audio." + extension
  }

  function InfoRow(resource: string): Route {
    Route(Info, ["v1", "audio", resource, VARIABLE], resource, "", [])
  }

  function TapRow(resource: string, extension: string): Route {
    Route(Tap, ["v1", "audio", resource, VARIABLE, Aspect(extension)], resource, extension,
          if extension == "" || extension in BitrateKnob.extensions then [SpanKnob, BitrateKnob] else [SpanKnob])
  }

  function ExtensionRows(resource: string, n: nat): seq<Route>
    requires n <= |EXTENSIONS|
  {
    if n == 0 then [] else ExtensionRows(resource, n - 1) + [TapRow(resource, EXTENSIONS[n - 1])]
  }

  function RowsOf(resource: string): seq<Route> {
    [InfoRow(resource), TapRow(resource, "")] + ExtensionRows(resource, |EXTENSIONS|)
  }

  function ResourceRows(n: nat): seq<Route>
    requires n <= |RESOURCES|
  {
    if n == 0 then [] else ResourceRows(n - 1) + RowsOf(RESOURCES[n - 1])
  }

  function Table(): seq<Route> {
    [Route(Discovery, ["v1", "audio"], "", "", []), Route(OpenApi, ["v1", "audio", "openapi.json"], "", "", [])]
    + ResourceRows(|RESOURCES|)
  }

  method BuildRoutes() returns (routes: seq<Route>)
    ensures routes == Table()
  {
    routes := [Route(Discovery, ["v1", "audio"], "", "", []),
      Route(OpenApi, ["v1", "audio", "openapi.json"], "", "", [])];
    ghost var documents := routes;
    for i := 0 to |RESOURCES|
      invariant routes == documents + ResourceRows(i)
    {
      var resource := RESOURCES[i];
      routes := routes + [InfoRow(resource)];
      routes := routes + [TapRow(resource, "")];
      for j := 0 to |EXTENSIONS|
        invariant routes == documents + ResourceRows(i) + [InfoRow(resource), TapRow(resource, "")]
                  + ExtensionRows(resource, j)
      {
        var query := [SpanKnob];
        if EXTENSIONS[j] in BitrateKnob.extensions {
          query := query + [BitrateKnob];
        }
        var segments := ["v1", "audio", resource, VARIABLE, "audio." + EXTENSIONS[j]];
        var row := Route(Tap, segments, resource, EXTENSIONS[j], query);
        assert EXTENSIONS[j] != "";
        assert row == TapRow(resource, EXTENSIONS[j]);
        routes := routes + [row];
      }
    }
  }

  const DiscoveryRow := Route(Discovery, ["v1", "audio"], "", "", [])
  const OpenApiRow := Route(OpenApi, ["v1", "audio", "openapi.json"], "", "", [])

  predicate IsRow(r: Route) {
    || r == DiscoveryRow
    || r == OpenApiRow
    || (r.resource in RESOURCES && (r == InfoRow(r.resource)
                                    || ((r.extension == "" || r.extension in EXTENSIONS)
                                        && r == TapRow(r.resource, r.extension))))
  }

  lemma {:induction false} ExtensionRowsAreTaps(resource: string, n: nat)
    requires n <= |EXTENSIONS|
    ensures forall r ::
              r in ExtensionRows(resource, n) <==> exists j :: 0 <= j < n && r == TapRow(resource, EXTENSIONS[j])
  {
    if n > 0 { ExtensionRowsAreTaps(resource, n - 1); }
  }

  lemma RowsOfAre(resource: string)
    requires resource in RESOURCES
    ensures forall r :: r in RowsOf(resource) ==> IsRow(r)
    ensures InfoRow(resource) in RowsOf(resource)
    ensures forall e :: e == "" || e in EXTENSIONS ==> TapRow(resource, e) in RowsOf(resource)
  {
    ExtensionRowsAreTaps(resource, |EXTENSIONS|);
  }

  lemma TableIsTheseRows()
    ensures forall r :: r in Table() ==> IsRow(r)
    ensures DiscoveryRow in Table() && OpenApiRow in Table()
    ensures forall resource :: resource in RESOURCES ==> InfoRow(resource) in Table()
    ensures forall resource, e :: resource in RESOURCES && (e == "" || e in EXTENSIONS) ==>
              TapRow(resource, e) in Table()
  {
    RowsOfAre(RESOURCES[0]);
    RowsOfAre(RESOURCES[1]);
    assert ResourceRows(2) == ResourceRows(1) + RowsOf(RESOURCES[1]);
    assert ResourceRows(1) == [] + RowsOf(RESOURCES[0]);
    assert Table()[0] == DiscoveryRow && Table()[1] == OpenApiRow;
  }

  // ---------------------------------------------------------------------------
  // The router

  function SegmentsOf(path: string): seq<string> {
    Split(if path != "" && path[0] == '/' then path[1..] else path, '/')
  }

  predicate FitsAt(want: string, got: string) {
    if want == VARIABLE then got != "" else got == want
  }

  predicate Fits(want: seq<string>, got: seq<string>) {
    |want| == |got| && forall i :: 0 <= i < |want| ==> FitsAt(want[i], got[i])
  }

  function NameIn(want: seq<string>, got: seq<string>): string
    requires |want| <= |got|
  {
    if want == [] then ""
    else
      var n := |want| - 1;
      if want[n] == VARIABLE then got[n] else NameIn(want[..n], got)
  }

  datatype Match = Match(route: Route, name: string)

  // What the router compares a path with: a row's own path, cut again.
  function Wanted(r: Route): seq<string> {
    SegmentsOf(PathOf(r.segments))
  }

  function FirstFit(routes: seq<Route>, got: seq<string>): Option<Match> {
    if routes == [] then None
    else if Fits(Wanted(routes[0]), got) then Some(Match(routes[0], NameIn(Wanted(routes[0]), got)))
    else FirstFit(routes[1..], got)
  }

  function Matched(path: string): Option<Match> {
    FirstFit(Table(), SegmentsOf(path))
  }

  method MatchRoute(path: string) returns (found: Option<Match>)
    ensures found == Matched(path)
  {
    var segments := SegmentsOf(path);
    var routes := BuildRoutes();
    for k := 0 to |routes|
      invariant FirstFit(routes[k..], segments) == Matched(path)
    {
      assert routes[k..][1..] == routes[k + 1..];
      var want := Wanted(routes[k]);
      if |want| != |segments| {
        continue;
      }
      var matched, name := MatchSegments(want, segments);
      if matched {
        return Some(Match(routes[k], name));
      }
    }
    return None;
  }

  method MatchSegments(want: seq<string>, segments: seq<string>) returns (matched: bool, name: string)
    requires |want| == |segments|
    ensures matched <==> Fits(want, segments)
    ensures matched ==> name == NameIn(want, segments)
  {
    name, matched := "", true;
    for i := 0 to |want|
      invariant forall j :: 0 <= j < i ==> FitsAt(want[j], segments[j])
      invariant matched && name == NameIn(want[..i], segments)
    {
      assert want[..i + 1][..i] == want[..i];
      if want[i] == VARIABLE {
        if segments[i] == "" {
          return false, name;
        }
        name := segments[i];
        continue;
      }
      if want[i] != segments[i] {
        return false, name;
      }
    }
    assert want[..|want|] == want;
  }

  // ---------------------------------------------------------------------------
  // The knobs

  function FindKnob(query: seq<Knob>, name: string): Option<Knob> {
    if query == [] then None else if query[0].name == name then Some(query[0]) else FindKnob(query[1..], name)
  }

  predicate Takes(r: Route, name: string) {
    var knob := FindKnob(r.query, name);
    knob.Some? && (knob.value.extensions == [] || r.extension == "" || r.extension in knob.value.extensions)
  }

  // Every form takes the span, and Opus alone the bitrate.
  lemma WhoTakesWhat(resource: string, extension: string, name: string)
    ensures Takes(TapRow(resource, extension), name)
            <==> name == "t" || (name == "bitrate" && (extension == "" || extension == "opus"))
  {
    assert "t" != "bitrate" by { assert |"t"| != |"bitrate"|; }
    assert [SpanKnob, BitrateKnob][1..] == [BitrateKnob] && [BitrateKnob][1..] == [] && [SpanKnob][1..] == [];
    assert extension in BitrateKnob.extensions <==> extension == "opus";
    assert FindKnob([SpanKnob], name) == if name == "t" then Some(SpanKnob) else None;
    assert FindKnob([BitrateKnob], name) == if name == "bitrate" then Some(BitrateKnob) else None;
    assert FindKnob([SpanKnob, BitrateKnob], name)
        == if name == "t" then Some(SpanKnob) else FindKnob([BitrateKnob], name);
  }

  function KnobNames(query: seq<Knob>): (names: seq<string>)
    ensures |names| == |query| && forall i :: 0 <= i < |query| ==> names[i] == query[i].name
  {
    seq(|query|, i requires 0 <= i < |query| => query[i].name)
  }

  const MIN_BITRATE := 6
  const MAX_BITRATE := 256

  // The text of the span, when one is given, and the bitrate, or 0.
  datatype CaptureKnobs = CaptureKnobs(span: Option<string>, bitrate: int)

  predicate Readable(p: Pair, isSpan: string -> bool) {
    && (p.name == "t" ==> isSpan(p.value))
    && (p.name == "bitrate" ==> Atoi(p.value).Some? && MIN_BITRATE <= Atoi(p.value).value <= MAX_BITRATE)
  }

  // A bitrate reads as a whole number from 6 to 256, and a span by its grammar.
  lemma WhatReads(p: Pair, isSpan: string -> bool)
    ensures p.name == "t" ==> (Readable(p, isSpan) <==> isSpan(p.value))
    ensures p.name == "bitrate" ==> (Readable(p, isSpan) <==> exists n :: 6 <= n <= 256 && Atoi(p.value) == Some(n))
    ensures p.name != "t" && p.name != "bitrate" ==> Readable(p, isSpan)
  {
    assert "t" != "bitrate" by { assert |"t"| != |"bitrate"|; }
  }

  predicate NamedOnce(pairs: seq<Pair>) {
    forall i, j :: 0 <= i < j < |pairs| ==> pairs[i].name != pairs[j].name
  }

  predicate Names(pairs: seq<Pair>, name: string) {
    exists i :: 0 <= i < |pairs| && pairs[i].name == name
  }

  // The knobs of a query, or none when it is refused. isSpan is the grammar of
  // the temporal dimension.
  function KnobsIn(route: Route, pairs: seq<Pair>, isSpan: string -> bool): Option<CaptureKnobs> {
    if pairs == [] then Some(CaptureKnobs(None, 0))
    else
      var n := |pairs| - 1;
      var before := KnobsIn(route, pairs[..n], isSpan);
      if || before.None? || !Takes(route, pairs[n].name)
         || Names(pairs[..n], pairs[n].name) || !Readable(pairs[n], isSpan)
      then None
      else Some(WithKnob(before.value, pairs[n]))
  }

  method ParseKnobs(route: Route, pairs: seq<Pair>, isSpan: string -> bool) returns (knobs: Option<CaptureKnobs>)
    ensures knobs == KnobsIn(route, pairs, isSpan)
  {
    var held := CaptureKnobs(None, 0);
    var seen: set<string> := {};
    for i := 0 to |pairs|
      invariant forall n :: n in seen <==> Names(pairs[..i], n)
      invariant KnobsIn(route, pairs[..i], isSpan) == Some(held)
    {
      var pair := pairs[i];
      assert pairs[..i + 1][..i] == pairs[..i];
      RefusedStaysRefused(route, pairs, i + 1, isSpan);
      if !Takes(route, pair.name) {
        return None;
      }
      if pair.name in seen {
        return None;
      }
      NamesOneMore(pairs, i);
      seen := seen + {pair.name};
      var next := ReadKnob(pair, held, isSpan);
      if next.None? {
        return None;
      }
      held := next.value;
    }
    assert pairs[..|pairs|] == pairs;
    return Some(held);
  }

  lemma NamesOneMore(pairs: seq<Pair>, i: nat)
    requires i < |pairs|
    ensures forall n :: Names(pairs[..i + 1], n) <==> Names(pairs[..i], n) || n == pairs[i].name
  {
    forall n ensures Names(pairs[..i + 1], n) <==> Names(pairs[..i], n) || n == pairs[i].name {
      if k :| 0 <= k < i && pairs[..i][k].name == n {
        assert pairs[..i + 1][k].name == n;
      }
      assert pairs[..i + 1][i].name == pairs[i].name;
    }
  }

  lemma {:induction false} RefusedStaysRefused(route: Route, pairs: seq<Pair>, n: nat, isSpan: string -> bool)
    requires n <= |pairs|
    ensures KnobsIn(route, pairs[..n], isSpan).None? ==> KnobsIn(route, pairs, isSpan).None?
    decreases |pairs|
  {
    if n == |pairs| {
      assert pairs[..n] == pairs;
    } else {
      assert pairs[..|pairs| - 1][..n] == pairs[..n];
      RefusedStaysRefused(route, pairs[..|pairs| - 1], n, isSpan);
    }
  }

  lemma NamedOnceExtends(front: seq<Pair>, last: Pair)
    ensures NamedOnce(front + [last]) <==> NamedOnce(front) && !Names(front, last.name)
  {
    var pairs := front + [last];
    assert pairs[|front|] == last && forall i :: 0 <= i < |front| ==> pairs[i] == front[i];
    if i :| 0 <= i < |front| && front[i].name == last.name {
      assert pairs[i].name == pairs[|front|].name;
    }
    if NamedOnce(pairs) {
      assert forall i, j :: 0 <= i < j < |front| ==> pairs[i].name != pairs[j].name;
    }
  }

  predicate Taken(route: Route, pairs: seq<Pair>, isSpan: string -> bool) {
    forall i :: 0 <= i < |pairs| ==> Takes(route, pairs[i].name) && Readable(pairs[i], isSpan)
  }

  lemma TakenExtends(route: Route, front: seq<Pair>, last: Pair, isSpan: string -> bool)
    ensures Taken(route, front + [last], isSpan) <==>
              Taken(route, front, isSpan) && Takes(route, last.name) && Readable(last, isSpan)
  {
    var pairs := front + [last];
    assert pairs[|front|] == last && forall i :: 0 <= i < |front| ==> pairs[i] == front[i];
  }

  // A query is refused for a name that the route does not take, a name that
  // comes twice, and a value that does not read, and for nothing else.
  lemma {:induction false} WhatIsRefused(route: Route, pairs: seq<Pair>, isSpan: string -> bool)
    ensures KnobsIn(route, pairs, isSpan).Some? <==> NamedOnce(pairs) && Taken(route, pairs, isSpan)
  {
    if pairs != [] {
      var n := |pairs| - 1;
      WhatIsRefused(route, pairs[..n], isSpan);
      NamedOnceExtends(pairs[..n], pairs[n]);
      TakenExtends(route, pairs[..n], pairs[n], isSpan);
      assert pairs == pairs[..n] + [pairs[n]];
    }
  }

  // Nothing that is given is dropped.
  lemma {:induction false} WhatIsTaken(route: Route, pairs: seq<Pair>, isSpan: string -> bool)
    requires KnobsIn(route, pairs, isSpan).Some?
    ensures Holds(KnobsIn(route, pairs, isSpan).value, pairs)
  {
    if pairs != [] {
      var n := |pairs| - 1;
      WhatIsTaken(route, pairs[..n], isSpan);
      HoldsOneMore(KnobsIn(route, pairs[..n], isSpan).value, pairs[..n], pairs[n]);
      assert pairs == pairs[..n] + [pairs[n]];
    }
  }

  // What the knobs say of the pairs that were read: each name's value, and
  // nothing for a name that is not given.
  predicate Holds(knobs: CaptureKnobs, pairs: seq<Pair>) {
    && (forall i :: 0 <= i < |pairs| && pairs[i].name == "t" ==> knobs.span == Some(pairs[i].value))
    && (forall i :: 0 <= i < |pairs| && pairs[i].name == "bitrate" ==> Some(knobs.bitrate) == Atoi(pairs[i].value))
    && ((forall i :: 0 <= i < |pairs| ==> pairs[i].name != "t") ==> knobs.span == None)
    && ((forall i :: 0 <= i < |pairs| ==> pairs[i].name != "bitrate") ==> knobs.bitrate == 0)
  }

  function WithKnob(held: CaptureKnobs, p: Pair): CaptureKnobs {
    if p.name == "t" then held.(span := Some(p.value))
    else if p.name == "bitrate" then held.(bitrate := Atoi(p.value).GetOr(0))
    else held
  }

  lemma HoldsOneMore(held: CaptureKnobs, pairs: seq<Pair>, p: Pair)
    requires Holds(held, pairs) && forall i :: 0 <= i < |pairs| ==> pairs[i].name != p.name
    requires p.name == "bitrate" ==> Atoi(p.value).Some?
    ensures Holds(WithKnob(held, p), pairs + [p])
  {
    var more := pairs + [p];
    assert more[|pairs|] == p && forall i :: 0 <= i < |pairs| ==> more[i] == pairs[i];
    assert "t" != "bitrate" by { assert |"t"| != |"bitrate"|; }
  }

  method ReadKnob(pair: Pair, held: CaptureKnobs, isSpan: string -> bool) returns (next: Option<CaptureKnobs>)
    ensures next == if Readable(pair, isSpan) then Some(WithKnob(held, pair)) else None
  {
    assert "t" != "bitrate" by { assert |"t"| != |"bitrate"|; }
    if pair.name == "t" {
      if !isSpan(pair.value) {
        return None;
      }
      return Some(held.(span := Some(pair.value)));
    } else if pair.name == "bitrate" {
      var rate := Atoi(pair.value);
      if rate.None? || rate.value < MIN_BITRATE || rate.value > MAX_BITRATE {
        return None;
      }
      return Some(held.(bitrate := rate.value));
    }
    return Some(held);
  }

  // ---------------------------------------------------------------------------
  // The template

  function TemplateFor(resource: string, aspect: string, query: seq<Knob>): string {
    "/v1/audio/" + resource + "/" + VARIABLE + "/" + aspect + EXTENSION_LABEL + "{?" + Join(KnobNames(query), ",") + "}"
  }

  function AspectTemplate(resource: string, aspect: string): string {
    var found := Matched("/v1/audio/" + resource + "/" + VARIABLE + "/" + aspect);
    if found.None? then "" else TemplateFor(resource, aspect, found.value.route.query)
  }

  predicate StartsWith(s: string, part: string) {
    |part| <= |s| && forall i :: 0 <= i < |part| ==> s[i] == part[i]
  }

  function Find(s: string, part: string): (i: int)
    ensures i < 0 || i + |part| <= |s|
  {
    if StartsWith(s, part) then 0
    else if s == "" then -1
    else
      var i := Find(s[1..], part);
      if i < 0 then -1 else i + 1
  }

  function ReplaceAll(s: string, part: string, value: string): string
    requires part != ""
    decreases |s|
  {
    if StartsWith(s, part) then value + ReplaceAll(s[|part|..], part, value)
    else if s == "" then "" else [s[0]] + ReplaceAll(s[1..], part, value)
  }

  predicate AllBytes(knobs: map<string, string>) {
    forall k :: k in knobs ==> Bytes(knobs[k])
  }

  // The knobs that are given, in the template's order.
  function Given(names: seq<string>, knobs: map<string, string>): (pairs: seq<Pair>)
    ensures forall i :: 0 <= i < |pairs| ==> pairs[i].name in knobs && pairs[i].value == knobs[pairs[i].name]
    ensures forall i :: 0 <= i < |pairs| ==> pairs[i].name in names
  {
    if names == [] then []
    else
      var n := |names| - 1;
      Given(names[..n], knobs) + if names[n] in knobs then [Pair(names[n], knobs[names[n]])] else []
  }

  function PartBefore(template: string): string {
    var i := Find(template, EXTENSION_LABEL);
    if i < 0 then template else template[..i]
  }

  function PartAfter(template: string): string {
    var i := Find(template, EXTENSION_LABEL);
    if i < 0 then "" else template[i + |EXTENSION_LABEL|..]
  }

  function NamesIn(template: string): seq<string> {
    Split(Trim(PartAfter(template), {'{', '?', '}'}), ',')
  }

  function ExpandedPath(template: string, name: string, extension: string): string {
    var path := ReplaceAll(PartBefore(template), VARIABLE, name);
    if extension != "" then path + "." + extension else path
  }

  function Expanded(template: string, name: string, extension: string, knobs: map<string, string>): string
    requires AllBytes(knobs)
  {
    var query := AllWritten(Given(NamesIn(template), knobs));
    var path := ExpandedPath(template, name, extension);
    if query == [] then path else path + "?" + Join(query, "&")
  }

  method ExpandAspectTemplate(template: string, name: string, extension: string, knobs: map<string, string>)
    returns (expanded: string)
    requires AllBytes(knobs)
    ensures expanded == Expanded(template, name, extension, knobs)
  {
    expanded := ReplaceAll(PartBefore(template), VARIABLE, name);
    if extension != "" {
      expanded := expanded + "." + extension;
    }
    var query := QueryParts(NamesIn(template), knobs);
    if |query| == 0 {
      return;
    }
    expanded := expanded + "?" + Join(query, "&");
  }

  method QueryParts(names: seq<string>, knobs: map<string, string>) returns (query: seq<string>)
    requires AllBytes(knobs)
    ensures query == AllWritten(Given(names, knobs))
  {
    query := [];
    for i := 0 to |names|
      invariant query == AllWritten(Given(names[..i], knobs))
    {
      assert names[..i + 1][..i] == names[..i];
      if names[i] !in knobs {
        continue;
      }
      var pair := Pair(names[i], knobs[names[i]]);
      AllWrittenExtends(Given(names[..i], knobs), pair);
      query := query + [Written(pair)];
    }
    assert names[..|names|] == names;
  }

  // ---------------------------------------------------------------------------
  // The router finds the row

  predicate Served(extension: string) {
    extension == "" || extension in EXTENSIONS
  }

  predicate PlainSegments(segments: seq<string>) {
    segments != [] && forall i :: 0 <= i < |segments| ==> '/' !in segments[i]
  }

  lemma SegmentsReadBack(segments: seq<string>)
    requires PlainSegments(segments)
    ensures SegmentsOf(PathOf(segments)) == segments
  {
    SplitOfJoin(segments, '/');
    assert PathOf(segments)[1..] == Join(segments, "/");
  }

  lemma RowsArePlain(r: Route)
    requires IsRow(r)
    ensures PlainSegments(r.segments)
  {
    assert '/' !in "v1" && '/' !in "audio" && '/' !in "openapi.json" && '/' !in VARIABLE && '/' !in "sinks"
           && '/' !in "sources";
    assert '/' !in Aspect("") && '/' !in Aspect("wav") && '/' !in Aspect("flac") && '/' !in Aspect("opus");
  }

  lemma AspectsDiffer(a: string, b: string)
    requires Served(a) && Served(b)
    ensures Aspect(a) == Aspect(b) <==> a == b
    ensures Aspect(a) != VARIABLE
  {
    assert Aspect(a)[0] != VARIABLE[0];
    if Aspect(a) == Aspect(b) && a != "" && b != "" {
      assert Aspect(a)[6..] == a && Aspect(b)[6..] == b;
    }
  }

  function TapPath(resource: string, name: string, extension: string): seq<string> {
    ["v1", "audio", resource, name, Aspect(extension)]
  }

  lemma OnlyTheTapRowFits(r: Route, resource: string, name: string, extension: string)
    requires IsRow(r) && resource in RESOURCES && Served(extension) && name != ""
    ensures Fits(r.segments, TapPath(resource, name, extension)) <==> r == TapRow(resource, extension)
  {
    assert "v1" != VARIABLE && "audio" != VARIABLE && "sinks" != VARIABLE && "sources" != VARIABLE;
    if |r.segments| == 5 {
      var got := TapPath(resource, name, extension);
      assert r == TapRow(r.resource, r.extension);
      AspectsDiffer(r.extension, extension);
      assert FitsAt(r.segments[2], got[2]) <==> r.resource == resource;
      assert FitsAt(r.segments[4], got[4]) <==> r.extension == extension;
    }
  }

  lemma {:induction false} TheOneFit(routes: seq<Route>, got: seq<string>, row: Route)
    requires row in routes
    requires forall r :: r in routes ==> (Fits(Wanted(r), got) <==> r == row)
    ensures Fits(Wanted(row), got)
    ensures FirstFit(routes, got) == Some(Match(row, NameIn(Wanted(row), got)))
  {
    assert routes[0] in routes;
    if routes[0] != row {
      assert row in routes[1..];
      TheOneFit(routes[1..], got, row);
    }
  }

  lemma TapName(resource: string, name: string, extension: string)
    requires Served(extension)
    ensures NameIn(TapRow(resource, extension).segments, TapPath(resource, name, extension)) == name
  {
    AspectsDiffer(extension, extension);
    var want := TapRow(resource, extension).segments;
    assert want[..4][3] == VARIABLE;
  }

  lemma RouterFindsTheTapRow(resource: string, name: string, extension: string)
    requires resource in RESOURCES && Served(extension) && name != "" && '/' !in name
    ensures Matched(PathOf(TapPath(resource, name, extension))) == Some(Match(TapRow(resource, extension), name))
  {
    var got := TapPath(resource, name, extension);
    TableIsTheseRows();
    var row := TapRow(resource, extension);
    assert IsRow(row);
    RowsArePlain(row);
    assert PlainSegments(got) by {
      assert forall i :: 0 <= i < 5 && i != 3 ==> got[i] == row.segments[i];
    }
    SegmentsReadBack(got);
    forall r | r in Table() ensures Fits(Wanted(r), got) <==> r == row {
      RowsArePlain(r);
      SegmentsReadBack(r.segments);
      OnlyTheTapRowFits(r, resource, name, extension);
    }
    TheOneFit(Table(), got, row);
    SegmentsReadBack(row.segments);
    TapName(resource, name, extension);
  }

  // A path that one row fits is answered by that row.
  lemma OneRowFits(got: seq<string>, row: Route)
    requires row in Table() && PlainSegments(got) && Fits(row.segments, got)
    requires forall r :: r in Table() && IsRow(r) ==> (Fits(r.segments, got) <==> r == row)
    ensures Matched(PathOf(got)) == Some(Match(row, NameIn(row.segments, got)))
  {
    TableIsTheseRows();
    SegmentsReadBack(got);
    forall r | r in Table() ensures Fits(Wanted(r), got) <==> r == row {
      RowsArePlain(r);
      SegmentsReadBack(r.segments);
    }
    TheOneFit(Table(), got, row);
    RowsArePlain(row);
    SegmentsReadBack(row.segments);
  }

  lemma NoVariable(want: seq<string>, got: seq<string>)
    requires |want| <= |got| && VARIABLE !in want
    ensures NameIn(want, got) == ""
  {
    if want != [] { NoVariable(want[..|want| - 1], got); }
  }

  lemma FixedRowsFit(r: Route, row: Route)
    requires IsRow(r) && (row == DiscoveryRow || row == OpenApiRow)
    ensures Fits(r.segments, row.segments) <==> r == row
  {
    assert VARIABLE[0] == '{';
    assert VARIABLE != "v1" && VARIABLE != "audio" && VARIABLE != "openapi.json";
  }

  lemma FixedSegments(row: Route)
    requires row == DiscoveryRow || row == OpenApiRow
    ensures NameIn(row.segments, row.segments) == ""
  {
    assert VARIABLE[0] == '{';
    NoVariable(row.segments, row.segments);
  }

  lemma RouterFindsTheDocument(row: Route)
    requires row == DiscoveryRow || row == OpenApiRow
    ensures Matched(PathOf(row.segments)) == Some(Match(row, ""))
  {
    forall r | r in Table() && IsRow(r) ensures Fits(r.segments, row.segments) <==> r == row {
      FixedRowsFit(r, row);
    }
    FixedRowsFit(row, row);
    TableIsTheseRows();
    RowsArePlain(row);
    OneRowFits(row.segments, row);
    FixedSegments(row);
  }

  lemma TwoSegments(a: string, b: string)
    ensures PathOf([a, b]) == "/" + a + "/" + b
  {
    assert Join([a, b], "/") == a + "/" + b by { assert [a, b][1..] == [b]; }
  }

  lemma ThreeSegments(a: string, b: string, c: string)
    ensures PathOf([a, b, c]) == "/" + a + "/" + b + "/" + c
  {
    assert Join([b, c], "/") == b + "/" + c by { assert [b, c][1..] == [c]; }
    assert Join([a, b, c], "/") == a + "/" + (b + "/" + c) by { assert [a, b, c][1..] == [b, c]; }
  }

  // The service's two documents are served under their own paths.
  lemma RouterFindsTheDocuments()
    ensures Matched("/" + "v1" + "/" + "audio") == Some(Match(DiscoveryRow, ""))
    ensures Matched("/" + "v1" + "/" + "audio" + "/" + "openapi.json") == Some(Match(OpenApiRow, ""))
  {
    RouterFindsTheDocument(DiscoveryRow);
    RouterFindsTheDocument(OpenApiRow);
    TwoSegments("v1", "audio");
    ThreeSegments("v1", "audio", "openapi.json");
  }

  lemma OnlyTheInfoRowFits(r: Route, resource: string, name: string)
    requires IsRow(r) && resource in RESOURCES && name != ""
    ensures Fits(r.segments, ["v1", "audio", resource, name]) <==> r == InfoRow(resource)
  {
    assert VARIABLE[0] == '{';
    assert "v1" != VARIABLE && "audio" != VARIABLE && "sinks" != VARIABLE && "sources" != VARIABLE;
    var got := ["v1", "audio", resource, name];
    if |r.segments| == 4 {
      assert r == InfoRow(r.resource);
      assert FitsAt(r.segments[2], got[2]) <==> r.resource == resource;
    }
  }

  // The path of a resource and a name that is one segment is answered by that
  // resource's row, with that name.
  lemma RouterFindsTheInfoRow(resource: string, name: string)
    requires resource in RESOURCES && name != "" && '/' !in name
    ensures Matched(PathOf(["v1", "audio", resource, name])) == Some(Match(InfoRow(resource), name))
  {
    var got, row := ["v1", "audio", resource, name], InfoRow(resource);
    TableIsTheseRows();
    RowsArePlain(row);
    assert PlainSegments(got) by {
      assert forall i :: 0 <= i < 3 ==> got[i] == row.segments[i];
    }
    forall r | r in Table() && IsRow(r) ensures Fits(r.segments, got) <==> r == row {
      OnlyTheInfoRowFits(r, resource, name);
    }
    OnlyTheInfoRowFits(row, resource, name);
    OneRowFits(got, row);
    assert row.segments[3] == VARIABLE;
  }

  // ---------------------------------------------------------------------------
  // The expansion of the published template

  function Front(resource: string): string {
    "/v1/audio/" + resource + "/"
  }

  lemma TapPathText(resource: string, name: string, extension: string)
    ensures PathOf(TapPath(resource, name, extension)) == Front(resource) + name + "/" + Aspect(extension)
  {
    var a := Aspect(extension);
    assert Join([name, a], "/") == name + "/" + a by { assert [name, a][1..] == [a]; }
    assert Join([resource, name, a], "/") == resource + "/" + (name + "/" + a) by {
      assert [resource, name, a][1..] == [name, a];
    }
    var rest := resource + "/" + (name + "/" + a);
    assert Join(["audio", resource, name, a], "/") == "audio" + "/" + rest by {
      assert ["audio", resource, name, a][1..] == [resource, name, a];
    }
    assert Join(TapPath(resource, name, extension), "/") == "v1" + "/" + ("audio" + "/" + rest) by {
      assert TapPath(resource, name, extension)[1..] == ["audio", resource, name, a];
    }
  }

  const PUBLISHED_NAMES := ["t", "bitrate"]

  lemma TheTemplatePath(resource: string)
    requires resource in RESOURCES
    ensures Matched("/v1/audio/" + resource + "/" + VARIABLE + "/" + "audio")
            == Some(Match(TapRow(resource, ""), VARIABLE))
  {
    assert VARIABLE != "" && '/' !in VARIABLE;
    RouterFindsTheTapRow(resource, VARIABLE, "");
    TapPathText(resource, VARIABLE, "");
    assert "/v1/audio/" + resource + "/" + VARIABLE + "/" + "audio" == Front(resource) + VARIABLE + "/" + Aspect("");
  }

  lemma TheTemplateText(resource: string)
    ensures TemplateFor(resource, "audio", TapRow(resource, "").query)
            == Front(resource) + VARIABLE + "/audio" + EXTENSION_LABEL + "{?" + Join(PUBLISHED_NAMES, ",") + "}"
  {
    assert KnobNames(TapRow(resource, "").query) == PUBLISHED_NAMES;
    assert "/v1/audio/" + resource + "/" + VARIABLE + "/" + "audio" == Front(resource) + VARIABLE + "/audio";
  }

  lemma TheTemplate(resource: string)
    requires resource in RESOURCES
    ensures AspectTemplate(resource, "audio")
            == Front(resource) + VARIABLE + "/audio" + EXTENSION_LABEL + "{?" + Join(PUBLISHED_NAMES, ",") + "}"
  {
    TheTemplatePath(resource);
    TheTemplateText(resource);
  }

  // A label opens with two characters that stand together nowhere before it.
  lemma {:induction false} FindBehind(front: string, part: string, rest: string)
    requires |part| >= 2
    requires forall i :: 0 <= i < |front| && front[i] == part[0] ==> i + 1 < |front| && front[i + 1] != part[1]
    ensures Find(front + part + rest, part) == |front|
  {
    var s := front + part + rest;
    if front != "" {
      assert s[0] != part[0] || s[1] != part[1];
      assert s[1..] == front[1..] + part + rest;
      FindBehind(front[1..], part, rest);
    }
  }

  lemma NotHere(s: string, part: string, value: string)
    requires s != "" && part != "" && s[0] != part[0]
    ensures ReplaceAll(s, part, value) == [s[0]] + ReplaceAll(s[1..], part, value)
  {
  }

  lemma HereFirst(part: string, rest: string, value: string)
    requires part != ""
    ensures ReplaceAll(part + rest, part, value) == value + ReplaceAll(rest, part, value)
  {
    assert (part + rest)[..|part|] == part && (part + rest)[|part|..] == rest;
  }

  lemma {:induction false} NothingToReplace(s: string, part: string, value: string)
    requires part != "" && part[0] !in s
    ensures ReplaceAll(s, part, value) == s
  {
    if s != "" {
      NotHere(s, part, value);
      NothingToReplace(s[1..], part, value);
    }
  }

  lemma {:induction false} ReplaceOnce(front: string, part: string, rest: string, value: string)
    requires part != "" && part[0] !in front && part[0] !in rest
    ensures ReplaceAll(front + part + rest, part, value) == front + value + rest
  {
    if front == "" {
      HereFirst(part, rest, value);
      NothingToReplace(rest, part, value);
      assert front + part + rest == part + rest;
    } else {
      var s := front + part + rest;
      assert s[1..] == front[1..] + part + rest;
      NotHere(s, part, value);
      ReplaceOnce(front[1..], part, rest, value);
    }
  }

  lemma FrontHoldsNoBrace(resource: string)
    requires resource in RESOURCES
    ensures '{' !in Front(resource) && '?' !in Front(resource)
  {
    assert '{' !in "/v1/audio/" && '{' !in "sinks" && '{' !in "sources" && '{' !in "/";
    assert '?' !in "/v1/audio/" && '?' !in "sinks" && '?' !in "sources" && '?' !in "/";
  }

  // In front of the label only the variable opens with the label's brace.
  lemma OnlyTheVariableOpens(front: string)
    requires '{' !in front
    ensures var text := front + VARIABLE + "/audio";
            forall i :: 0 <= i < |text| && text[i] == '{' ==> i + 1 < |text| && text[i + 1] == 'n'
  {
    var text := front + VARIABLE + "/audio";
    assert forall i :: 0 <= i < |front| ==> text[i] == front[i];
    assert forall i :: 1 <= i < |VARIABLE| ==> text[|front| + i] == VARIABLE[i] && VARIABLE[i] != '{';
    assert forall i :: 0 <= i < |"/audio"| ==> text[|front| + |VARIABLE| + i] == "/audio"[i] && "/audio"[i] != '{';
    assert text[|front| + 1] == VARIABLE[1];
  }

  lemma PartsAroundTheLabel(front: string, rest: string)
    requires Find(front + EXTENSION_LABEL + rest, EXTENSION_LABEL) == |front|
    ensures PartBefore(front + EXTENSION_LABEL + rest) == front && PartAfter(front + EXTENSION_LABEL + rest) == rest
  {
    var template := front + EXTENSION_LABEL + rest;
    assert template[..|front|] == front && template[|front| + |EXTENSION_LABEL|..] == rest;
  }

  predicate Published(template: string, resource: string) {
    && PartBefore(template) == Front(resource) + VARIABLE + "/audio"
    && PartAfter(template) == "{?" + Join(PUBLISHED_NAMES, ",") + "}"
  }

  lemma TheParts(template: string, resource: string)
    requires resource in RESOURCES
    requires template == Front(resource) + VARIABLE + "/audio" + EXTENSION_LABEL
             + "{?" + Join(PUBLISHED_NAMES, ",") + "}"
    ensures Published(template, resource)
  {
    var front, rest := Front(resource) + VARIABLE + "/audio", "{?" + Join(PUBLISHED_NAMES, ",") + "}";
    FrontHoldsNoBrace(resource);
    OnlyTheVariableOpens(Front(resource));
    FindBehind(front, EXTENSION_LABEL, rest);
    PartsAroundTheLabel(front, rest);
    assert template == front + EXTENSION_LABEL + rest;
  }

  lemma TheTemplateParts(resource: string)
    requires resource in RESOURCES
    ensures Published(AspectTemplate(resource, "audio"), resource)
  {
    TheTemplate(resource);
    TheParts(AspectTemplate(resource, "audio"), resource);
  }

  lemma NamesFromTheTail(template: string)
    requires PartAfter(template) == "{?" + Join(PUBLISHED_NAMES, ",") + "}"
    ensures NamesIn(template) == PUBLISHED_NAMES
  {
    var list := "t,bitrate";
    assert Join(PUBLISHED_NAMES, ",") == list by { assert PUBLISHED_NAMES[1..] == ["bitrate"]; }
    assert "{?" + list + "}" == "{?" + (list + "}");
    TrimLeftOf("{?", list + "}", {'{', '?', '}'});
    TrimRightOf(list, "}", {'{', '?', '}'});
    assert ',' !in "t" && ',' !in "bitrate";
    SplitOfJoin(PUBLISHED_NAMES, ',');
  }

  lemma AspectText(front: string, extension: string)
    ensures (if extension != "" then front + "/audio" + "." + extension else front + "/audio")
            == front + "/" + Aspect(extension)
  {
  }

  lemma PathFromTheFront(template: string, resource: string, name: string, extension: string)
    requires resource in RESOURCES && PartBefore(template) == Front(resource) + VARIABLE + "/audio"
    ensures ExpandedPath(template, name, extension) == PathOf(TapPath(resource, name, extension))
  {
    FrontHoldsNoBrace(resource);
    assert '{' !in "/audio";
    ReplaceOnce(Front(resource), VARIABLE, "/audio", name);
    AspectText(Front(resource) + name, extension);
    TapPathText(resource, name, extension);
  }

  // ---------------------------------------------------------------------------
  // A request for the expanded text

  // The bytes that a request line can hold in its target.
  predicate Visible(c: char) {
    ' ' < c && c != '\U{7f}'
  }

  predicate AllVisible(s: string) {
    forall i :: 0 <= i < |s| ==> Visible(s[i])
  }

  function BeforeMark(target: string): string {
    var i := IndexOf(target, '?');
    if i < 0 then target else target[..i]
  }

  function QueryIn(target: string): string {
    var i := IndexOf(target, '?');
    if i < 0 then "" else target[i + 1..]
  }

  // The path that the handler reads: the server refuses a target that no request
  // line can hold, cuts it at the first question mark, and percent-decodes the
  // rest.
  function PathIn(target: string): Option<string> {
    if AllVisible(target) then PathUnescape(BeforeMark(target)) else None
  }

  // The answer to a request for a target: none when the server refuses it, or
  // when no row fits the path.
  function Routed(target: string): Option<Match> {
    var path := PathIn(target);
    if path.None? then None else Matched(path.value)
  }

  // A client keeps back what follows the first number sign of a text.
  function Sent(text: string): string {
    var i := IndexOf(text, '#');
    if i < 0 then text else text[..i]
  }

  // One segment of a path, as the template takes it and the server leaves it.
  predicate OneSegment(name: string) {
    name != "" && '/' !in name && '?' !in name && '%' !in name && AllVisible(name)
  }

  lemma PathAndQuery(path: string, query: string)
    requires '?' !in path
    ensures BeforeMark(path) == path && QueryIn(path) == ""
    ensures BeforeMark(path + "?" + query) == path && QueryIn(path + "?" + query) == query
  {
    var text := path + "?" + query;
    assert text[|path|] == '?' && forall k :: 0 <= k < |path| ==> text[k] == path[k];
    assert IndexOf(text, '?') == |path|;
    assert text[..|path|] == path && text[|path| + 1..] == query;
  }

  lemma TapPathIsPlain(resource: string, name: string, extension: string, c: char)
    requires resource in RESOURCES && Served(extension) && c in {'?', '%', '#'} && c !in name
    ensures c !in PathOf(TapPath(resource, name, extension))
  {
    TapPathText(resource, name, extension);
    assert c !in "/v1/audio/" && c !in "sinks" && c !in "sources" && c !in "/";
    assert c !in Aspect("") && c !in Aspect("wav") && c !in Aspect("flac") && c !in Aspect("opus");
  }

  lemma FrontIsVisible(resource: string)
    requires resource in RESOURCES
    ensures AllVisible(Front(resource))
  {
    assert AllVisible("/v1/audio/") && AllVisible("sinks") && AllVisible("sources") && AllVisible("/");
    VisibleParts("/v1/audio/", resource);
    VisibleParts("/v1/audio/" + resource, "/");
  }

  lemma BackIsVisible(extension: string)
    requires Served(extension)
    ensures AllVisible("/" + Aspect(extension))
  {
    assert AllVisible("/") && AllVisible("audio") && AllVisible("audio.");
    assert AllVisible("") && AllVisible("wav") && AllVisible("flac") && AllVisible("opus");
    VisibleParts("audio.", extension);
    VisibleParts("/", Aspect(extension));
  }

  lemma TapPathIsVisible(resource: string, name: string, extension: string)
    requires resource in RESOURCES && Served(extension)
    ensures AllVisible(PathOf(TapPath(resource, name, extension))) <==> AllVisible(name)
  {
    TapPathText(resource, name, extension);
    FrontIsVisible(resource);
    BackIsVisible(extension);
    VisibleParts(Front(resource), name);
    VisibleParts(Front(resource) + name, "/" + Aspect(extension));
    assert Front(resource) + name + "/" + Aspect(extension) == Front(resource) + name + ("/" + Aspect(extension));
  }

  lemma VisibleParts(a: string, b: string)
    ensures AllVisible(a + b) <==> AllVisible(a) && AllVisible(b)
  {
    assert forall i :: 0 <= i < |a| ==> (a + b)[i] == a[i];
    assert forall i :: 0 <= i < |b| ==> (a + b)[|a| + i] == b[i];
  }

  lemma OneEscapeIsVisible(c: char)
    requires c < 256 as char
    ensures AllVisible(EscapeOne(c)) && '#' !in EscapeOne(c)
  {
    UpperDigit(c as int / 16);
    UpperDigit(c as int % 16);
    assert forall d :: 0 <= d < 16 ==> Visible(UPPER[d]) && UPPER[d] != '#';
  }

  lemma {:induction false} EscapesAreVisible(s: string)
    requires Bytes(s)
    ensures AllVisible(QueryEscape(s)) && '#' !in QueryEscape(s)
  {
    if s != "" {
      EscapesAreVisible(s[1..]);
      OneEscapeIsVisible(s[0]);
      VisibleParts(EscapeOne(s[0]), QueryEscape(s[1..]));
    }
  }

  lemma {:induction false} JoinIsVisible(parts: seq<string>)
    requires forall i :: 0 <= i < |parts| ==> AllVisible(parts[i]) && '#' !in parts[i]
    ensures AllVisible(Join(parts, "&")) && '#' !in Join(parts, "&")
  {
    if |parts| > 1 {
      JoinIsVisible(parts[1..]);
      VisibleParts(parts[0] + "&", Join(parts[1..], "&"));
      VisibleParts(parts[0], "&");
    }
  }

  lemma TheQueryIsVisible(knobs: map<string, string>)
    requires AllBytes(knobs)
    ensures var query := Join(AllWritten(Given(PUBLISHED_NAMES, knobs)), "&"); AllVisible(query) && '#' !in query
  {
    var pairs := Given(PUBLISHED_NAMES, knobs);
    forall i | 0 <= i < |pairs| ensures AllVisible(AllWritten(pairs)[i]) && '#' !in AllWritten(pairs)[i] {
      assert AllVisible("t") && AllVisible("bitrate");
      EscapesAreVisible(pairs[i].value);
      VisibleParts(pairs[i].name, "=");
      VisibleParts(pairs[i].name + "=", QueryEscape(pairs[i].value));
    }
    JoinIsVisible(AllWritten(pairs));
  }

  lemma GivenIsSimple(knobs: map<string, string>)
    requires AllBytes(knobs)
    ensures Simple(Given(PUBLISHED_NAMES, knobs))
  {
    assert IsKnobName("t") && IsKnobName("bitrate");
  }

  lemma NoneGivenNoneWritten(pairs: seq<Pair>)
    requires ByteValues(pairs)
    ensures AllWritten(pairs) == [] <==> pairs == []
  {
    assert |AllWritten(pairs)| == |pairs|;
  }

  // What a template with those two parts expands to.
  lemma TheExpansion(template: string, resource: string, name: string, extension: string, knobs: map<string, string>)
    requires resource in RESOURCES && Served(extension) && AllBytes(knobs) && Published(template, resource)
    ensures var pairs, path := Given(PUBLISHED_NAMES, knobs), PathOf(TapPath(resource, name, extension));
            Expanded(template, name, extension, knobs)
            == if pairs == [] then path else path + "?" + Join(AllWritten(pairs), "&")
  {
    NamesFromTheTail(template);
    PathFromTheFront(template, resource, name, extension);
    NoneGivenNoneWritten(Given(PUBLISHED_NAMES, knobs));
  }

  lemma TheExpandedQuery(template: string, resource: string, name: string, extension: string,
                         knobs: map<string, string>)
    requires resource in RESOURCES && Served(extension) && AllBytes(knobs) && Published(template, resource)
    requires '?' !in name
    ensures BeforeMark(Expanded(template, name, extension, knobs)) == PathOf(TapPath(resource, name, extension))
    ensures PairsIn(Split(QueryIn(Expanded(template, name, extension, knobs)), '&'))
            == AllAsRead(Given(PUBLISHED_NAMES, knobs))
  {
    var pairs := Given(PUBLISHED_NAMES, knobs);
    TheExpansion(template, resource, name, extension, knobs);
    TapPathIsPlain(resource, name, extension, '?');
    PathAndQuery(PathOf(TapPath(resource, name, extension)), Join(AllWritten(pairs), "&"));
    GivenIsSimple(knobs);
    TheQueryReadsBack(pairs);
  }

  lemma TheExpandedTarget(template: string, resource: string, name: string, extension: string,
                          knobs: map<string, string>)
    requires resource in RESOURCES && Served(extension) && AllBytes(knobs) && Published(template, resource)
    ensures AllVisible(Expanded(template, name, extension, knobs)) <==> AllVisible(name)
  {
    var path, query := PathOf(TapPath(resource, name, extension)), Join(AllWritten(Given(PUBLISHED_NAMES, knobs)), "&");
    TheExpansion(template, resource, name, extension, knobs);
    TapPathIsVisible(resource, name, extension);
    TheQueryIsVisible(knobs);
    assert AllVisible("?");
    VisibleParts(path, "?");
    VisibleParts(path + "?", query);
  }

  // The published template and the router agree. For every name that is one
  // segment, every served extension or none, and every set of knobs, a request
  // for the expanded text is answered by the one row of that resource and
  // extension, with that name, and its query is the given knobs in the template's
  // order, with a plus sign for each space of a value.
  lemma TheTemplateAgreesWithTheRouter(resource: string, name: string, extension: string, knobs: map<string, string>)
    requires resource in RESOURCES && Served(extension) && AllBytes(knobs) && OneSegment(name)
    ensures var text := Expanded(AspectTemplate(resource, "audio"), name, extension, knobs);
            && Routed(text) == Some(Match(TapRow(resource, extension), name))
            && PairsIn(Split(QueryIn(text), '&')) == AllAsRead(Given(PUBLISHED_NAMES, knobs))
  {
    TheTemplateParts(resource);
    TheExpandedPath(AspectTemplate(resource, "audio"), resource, name, extension, knobs);
    TheExpandedQuery(AspectTemplate(resource, "audio"), resource, name, extension, knobs);
    RouterFindsTheTapRow(resource, name, extension);
  }

  lemma TheExpandedPath(template: string, resource: string, name: string, extension: string, knobs: map<string, string>)
    requires resource in RESOURCES && Served(extension) && AllBytes(knobs) && Published(template, resource)
    requires OneSegment(name)
    ensures PathIn(Expanded(template, name, extension, knobs)) == Some(PathOf(TapPath(resource, name, extension)))
  {
    TheExpandedTarget(template, resource, name, extension, knobs);
    TheExpandedQuery(template, resource, name, extension, knobs);
    TapPathIsPlain(resource, name, extension, '%');
    PlainDecodes(PathOf(TapPath(resource, name, extension)));
  }

  // ---------------------------------------------------------------------------
  // And for no other name

  lemma {:induction false} PiecesHoldNoSeparator(s: string, c: char)
    ensures forall p :: p in Split(s, c) ==> c !in p && forall x :: x in p ==> x in s
    decreases |s|
  {
    var i := IndexOf(s, c);
    if i >= 0 {
      PiecesHoldNoSeparator(s[i + 1..], c);
      assert forall x :: x in s[i + 1..] ==> x in s;
      assert forall x :: x in s[..i] ==> x in s;
    }
  }

  lemma {:induction false} WhereTheFitIs(routes: seq<Route>, got: seq<string>) returns (k: nat)
    ensures k <= |routes| && forall i :: 0 <= i < k ==> !Fits(Wanted(routes[i]), got)
    ensures k < |routes| ==>
              && Fits(Wanted(routes[k]), got)
              && FirstFit(routes, got) == Some(Match(routes[k], NameIn(Wanted(routes[k]), got)))
    ensures k == |routes| ==> FirstFit(routes, got) == None
  {
    if routes == [] {
      k := 0;
    } else if Fits(Wanted(routes[0]), got) {
      k := 0;
    } else {
      var later := WhereTheFitIs(routes[1..], got);
      assert forall i :: 1 <= i <= later && i < |routes| ==> routes[1..][i - 1] == routes[i];
      k := later + 1;
    }
  }

  // The router answers none exactly when no row fits, and otherwise a row that
  // fits, with none in front of it that does.
  lemma FirstFitFits(routes: seq<Route>, got: seq<string>)
    ensures FirstFit(routes, got).None? <==> forall r :: r in routes ==> !Fits(Wanted(r), got)
    ensures FirstFit(routes, got).Some? ==>
              var m := FirstFit(routes, got).value;
              && Fits(Wanted(m.route), got) && m.name == NameIn(Wanted(m.route), got)
              && exists k :: 0 <= k < |routes| && routes[k] == m.route
                             && forall i :: 0 <= i < k ==> !Fits(Wanted(routes[i]), got)
  {
    var k := WhereTheFitIs(routes, got);
    if k < |routes| { assert routes[k] in routes; }
  }

  lemma {:induction false} JoinOfSplit(s: string, c: char)
    ensures Join(Split(s, c), [c]) == s
    decreases |s|
  {
    var i := IndexOf(s, c);
    if i >= 0 {
      JoinOfSplit(s[i + 1..], c);
      assert s == s[..i] + [c] + s[i + 1..];
    }
  }

  lemma SegmentsThatFit(resource: string, extension: string, got: seq<string>)
    requires resource in RESOURCES && Served(extension) && Fits(TapRow(resource, extension).segments, got)
    ensures got == TapPath(resource, NameIn(TapRow(resource, extension).segments, got), extension)
  {
    var want := TapRow(resource, extension).segments;
    AspectsDiffer(extension, extension);
    assert "v1" != VARIABLE && "audio" != VARIABLE && "sinks" != VARIABLE && "sources" != VARIABLE;
    assert want[..4][3] == VARIABLE;
    assert FitsAt(want[0], got[0]) && FitsAt(want[1], got[1]) && FitsAt(want[2], got[2]) && FitsAt(want[4], got[4]);
  }

  lemma TheRowThatMatched(path: string, row: Route, name: string)
    requires IsRow(row) && Matched(path) == Some(Match(row, name))
    ensures Fits(row.segments, SegmentsOf(path)) && name == NameIn(row.segments, SegmentsOf(path))
  {
    FirstFitFits(Table(), SegmentsOf(path));
    RowsArePlain(row);
    SegmentsReadBack(row.segments);
  }

  // A path is answered by a tap row with a name only when it is that row's path.
  lemma OnlyItsPathMatches(path: string, resource: string, extension: string, name: string)
    requires resource in RESOURCES && Served(extension) && path != "" && path[0] == '/'
    requires Matched(path) == Some(Match(TapRow(resource, extension), name))
    ensures path == PathOf(TapPath(resource, name, extension)) && name != "" && '/' !in name
  {
    var row, got := TapRow(resource, extension), SegmentsOf(path);
    assert IsRow(row);
    TheRowThatMatched(path, row, name);
    SegmentsThatFit(resource, extension, got);
    assert got[3] == name && FitsAt(row.segments[3], got[3]);
    JoinOfSplit(path[1..], '/');
    PiecesHoldNoSeparator(path[1..], '/');
    assert path == "/" + path[1..];
  }

  // Decoding never lengthens a text, and shortens one that holds a percent sign.
  lemma {:induction false} DecodingShortens(s: string)
    ensures PathUnescape(s).Some? ==>
              && |PathUnescape(s).value| <= |s| && ('%' in s ==> |PathUnescape(s).value| < |s|)
              && (s != "" && s[0] != '%' ==> PathUnescape(s).value != "" && PathUnescape(s).value[0] == s[0])
    decreases |s|
  {
    if s != "" {
      DecodingShortens(s[1..]);
      if |s| >= 3 { DecodingShortens(s[3..]); }
      assert '%' in s ==> s[0] == '%' || '%' in s[1..];
    }
  }

  lemma CutsWithinThePath(target: string, path: string, query: string)
    requires target <= path + "?" + query
    ensures BeforeMark(target) <= path && BeforeMark(target) <= target
  {
    var text := path + "?" + query;
    assert forall i :: 0 <= i < |path| ==> path[i] == text[i];
    assert |target| > |path| ==> target[|path|] == text[|path|] == '?';
  }

  // A part of a target that decodes to the whole of the path is the path, and
  // then nothing of it was there to decode.
  lemma AsLongAsThePath(cut: string, path: string)
    requires cut <= path && PathUnescape(cut) == Some(path)
    ensures cut == path && '%' !in path
  {
    DecodingShortens(cut);
  }

  lemma TheFirstCharacterStays(target: string)
    requires target != "" && target[0] == '/' && PathIn(target).Some?
    ensures PathIn(target).value != "" && PathIn(target).value[0] == '/'
  {
    DecodingShortens(BeforeMark(target));
  }

  lemma NameIsInItsPath(resource: string, name: string, extension: string, c: char)
    requires c in name
    ensures c in PathOf(TapPath(resource, name, extension))
  {
    TapPathText(resource, name, extension);
  }

  lemma NamesOfPlainPaths(resource: string, name: string, extension: string)
    requires resource in RESOURCES && Served(extension)
    requires var path := PathOf(TapPath(resource, name, extension)); AllVisible(path) && '?' !in path && '%' !in path
    ensures '?' !in name && '%' !in name && AllVisible(name)
  {
    TapPathIsVisible(resource, name, extension);
    if '?' in name { NameIsInItsPath(resource, name, extension, '?'); }
    if '%' in name { NameIsInItsPath(resource, name, extension, '%'); }
  }

  // The other half: for any part that is sent of a path and a query, the router
  // gives the path's own name back only when the name was one segment and the
  // part holds the whole path.
  lemma OnlyOneSegmentComesBack(target: string, resource: string, name: string, extension: string, query: string)
    requires resource in RESOURCES && Served(extension) && target != "" && target[0] == '/'
    requires target <= PathOf(TapPath(resource, name, extension)) + "?" + query
    requires Routed(target) == Some(Match(TapRow(resource, extension), name))
    ensures OneSegment(name) && PathOf(TapPath(resource, name, extension)) <= target
  {
    var path := PathOf(TapPath(resource, name, extension));
    TheFirstCharacterStays(target);
    OnlyItsPathMatches(PathIn(target).value, resource, extension, name);
    CutsWithinThePath(target, path, query);
    AsLongAsThePath(BeforeMark(target), path);
    NamesOfPlainPaths(resource, name, extension);
  }

  lemma SentIsAPrefix(text: string)
    ensures Sent(text) <= text && '#' !in Sent(text)
    ensures text != "" && text[0] == '/' ==> Sent(text) != "" && Sent(text)[0] == '/'
    ensures '#' !in text ==> Sent(text) == text
  {
  }

  lemma APathAndItsQuery(text: string, path: string, query: string)
    requires text == path || text == path + "?" + query
    requires path != "" && path[0] == '/' && '#' !in query
    ensures text <= path + "?" + query && path <= text && text[0] == '/'
    ensures '#' in text <==> '#' in path
  {
  }

  lemma ThePublishedText(resource: string, name: string, extension: string, knobs: map<string, string>)
      returns (query: string)
    requires resource in RESOURCES && Served(extension) && AllBytes(knobs)
    ensures var text, path := Expanded(AspectTemplate(resource, "audio"), name, extension, knobs),
                              PathOf(TapPath(resource, name, extension));
            && text <= path + "?" + query && path <= text && text[0] == '/'
            && ('#' in text <==> '#' in name)
  {
    var path := PathOf(TapPath(resource, name, extension));
    query := Join(AllWritten(Given(PUBLISHED_NAMES, knobs)), "&");
    TheTemplateParts(resource);
    TheExpansion(AspectTemplate(resource, "audio"), resource, name, extension, knobs);
    TheQueryIsVisible(knobs);
    if '#' in name {
      NameIsInItsPath(resource, name, extension, '#');
    } else {
      TapPathIsPlain(resource, name, extension, '#');
    }
    APathAndItsQuery(Expanded(AspectTemplate(resource, "audio"), name, extension, knobs), path, query);
  }

  // The router gives back the name that a template was expanded with exactly
  // when the name is one segment: not empty, with no slash, no question mark, at
  // which the query would start, no percent sign, which the server decodes, and
  // no byte that a request line cannot hold. A client that keeps back what
  // follows a number sign needs a name without one besides.
  lemma TheNamesThatComeBack(resource: string, name: string, extension: string, knobs: map<string, string>)
    requires resource in RESOURCES && Served(extension) && AllBytes(knobs)
    ensures var text, found := Expanded(AspectTemplate(resource, "audio"), name, extension, knobs),
                               Some(Match(TapRow(resource, extension), name));
            && (Routed(text) == found <==> OneSegment(name))
            && (Routed(Sent(text)) == found <==> OneSegment(name) && '#' !in name)
  {
    var text, path := Expanded(AspectTemplate(resource, "audio"), name, extension, knobs),
                      PathOf(TapPath(resource, name, extension));
    var query := ThePublishedText(resource, name, extension, knobs);
    SentIsAPrefix(text);
    if OneSegment(name) {
      TheTemplateAgreesWithTheRouter(resource, name, extension, knobs);
    }
    var found := Some(Match(TapRow(resource, extension), name));
    if Routed(text) == found {
      OnlyOneSegmentComesBack(text, resource, name, extension, query);
    }
    if Routed(Sent(text)) == found {
      OnlyOneSegmentComesBack(Sent(text), resource, name, extension, query);
      if '#' in name { NameIsInItsPath(resource, name, extension, '#'); }
    }
  }

  // The knobs come back exactly when no value holds a space.
  lemma TheKnobsThatComeBack(resource: string, name: string, extension: string, knobs: map<string, string>)
    requires resource in RESOURCES && Served(extension) && AllBytes(knobs) && '?' !in name
    ensures PairsIn(Split(QueryIn(Expanded(AspectTemplate(resource, "audio"), name, extension, knobs)), '&'))
            == Given(PUBLISHED_NAMES, knobs)
            <==> Spaceless(Given(PUBLISHED_NAMES, knobs))
  {
    TheTemplateParts(resource);
    TheExpandedQuery(AspectTemplate(resource, "audio"), resource, name, extension, knobs);
    PairsSurviveWithoutSpaces(Given(PUBLISHED_NAMES, knobs));
  }
}
