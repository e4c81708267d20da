// The codec that each request of a claim plays.
// audio-operator/codecs.go.
module Codecs {
  import opened Basics

  const DRIVER := "audio.liken.sh"
  const CODEC_PARAMETER := "codec"

  // What one parameter's value reads as, and a whole block of them. A null
  // value reads, and states nothing.
  datatype Value = Text(text: string) | Null | NoString

  datatype Parameters = NoParameters | NoMap | Given(values: map<string, Value>)

  datatype Opaque = Opaque(driver: string, parameters: Parameters)

  // An entry with no requests applies to every request of the claim.
  datatype Entry = Entry(fromClaim: bool, requests: seq<string>, block: Option<Opaque>)

  datatype Choice = Choice(codec: string, fromClaim: bool)

  datatype Selection = Selection(requests: map<string, Choice>, every: Choice)

  const NoChoice := Choice("", false)
  const EmptySelection := Selection(map[], NoChoice)

  function CodecOf(p: Parameters): Result<string> {
    match p
    case NoParameters => Ok("")
    case NoMap => Err("the parameters are not an object")
    case Given(values) =>
      if exists key :: key in values && key != CODEC_PARAMETER then Err("the parameters name another key")
      else if CODEC_PARAMETER !in values || values[CODEC_PARAMETER].Null? then Ok("")
      else if values[CODEC_PARAMETER].Text? then Ok(values[CODEC_PARAMETER].text)
      else Err("the codec is not a string")
  }

  // ---------------------------------------------------------------------------
  // One statement

  // The choice of the requests that an entry names, or of every request.
  function ChoiceAt(s: Selection, request: string): Choice {
    if request == "" then s.every else if request in s.requests then s.requests[request] else NoChoice
  }

  function Take(current: Choice, choice: Choice): Choice {
    if current.codec != "" && current.fromClaim && !choice.fromClaim then current else choice
  }

  function Stated(s: Selection, request: string, choice: Choice): Selection {
    if Take(ChoiceAt(s, request), choice) != choice then s
    else if request == "" then s.(every := choice)
    else s.(requests := s.requests[request := choice])
  }

  function StatedAll(s: Selection, requests: seq<string>, choice: Choice): Selection {
    if requests == [] then s
    else Stated(StatedAll(s, requests[..|requests| - 1], choice), requests[|requests| - 1], choice)
  }

  // The requests that an entry speaks for, with "" for every request.
  function SpeaksFor(e: Entry): seq<string> {
    if e.requests == [] then [""] else e.requests
  }

  predicate Ours(e: Entry) {
    e.block.Some? && e.block.value.driver == DRIVER
  }

  predicate Fails(e: Entry) {
    Ours(e) && CodecOf(e.block.value.parameters).Err?
  }

  // The codec that an entry states, or "" when it states none.
  function CodecIn(e: Entry): string {
    if Ours(e) && CodecOf(e.block.value.parameters).Ok? then CodecOf(e.block.value.parameters).value else ""
  }

  // The one parameter is read as a text, or as nothing said; a block of this
  // driver with another key, or with a codec that is no text, does not read.
  lemma WhatAnEntrySays(e: Entry)
    ensures Fails(e) <==>
              && e.block.Some? && e.block.value.driver == "audio.liken.sh" && !e.block.value.parameters.NoParameters?
              && (e.block.value.parameters.Given? ==>
                    exists key :: key in e.block.value.parameters.values
                                  && (key != "codec" || e.block.value.parameters.values[key].NoString?))
    ensures CodecIn(e) != "" ==> e.block.Some? && e.block.value.driver == "audio.liken.sh"
    ensures e.block.Some? && e.block.value.driver == "audio.liken.sh" && !Fails(e) ==>
              var p := e.block.value.parameters;
              CodecIn(e)
              == if p.Given? && "codec" in p.values && p.values["codec"].Text? then p.values["codec"].text else ""
  {
  }

  function AfterEntry(s: Selection, e: Entry): Selection {
    if CodecIn(e) == "" then s else StatedAll(s, SpeaksFor(e), Choice(CodecIn(e), e.fromClaim))
  }

  function AfterConfig(config: seq<Entry>): Selection {
    if config == [] then EmptySelection else AfterEntry(AfterConfig(config[..|config| - 1]), config[|config| - 1])
  }

  function Answer(s: Selection, request: string): string {
    var named := if request in s.requests then s.requests[request] else NoChoice;
    if named.codec == "" then s.every.codec
    else if s.every.codec != "" && s.every.fromClaim && !named.fromClaim then s.every.codec
    else named.codec
  }

  class CodecSelection {
    var requests: map<string, Choice>
    var every: Choice

    constructor ()
      ensures Value() == EmptySelection
    {
      requests, every := map[], NoChoice;
    }

    ghost function Value(): Selection
      reads this
    {
      Selection(requests, every)
    }

    method State(request: string, choice: Choice)
      modifies this
      ensures Value() == Stated(old(Value()), request, choice)
    {
      var current := every;
      if request != "" {
        current := if request in requests then requests[request] else NoChoice;
      }
      if current.codec != "" && current.fromClaim && !choice.fromClaim {
        return;
      }
      if request == "" {
        every := choice;
        return;
      }
      requests := requests[request := choice];
    }

    method StateEach(names: seq<string>, choice: Choice)
      modifies this
      ensures Value() == StatedAll(old(Value()), names, choice)
    {
      for i := 0 to |names|
        invariant Value() == StatedAll(old(Value()), names[..i], choice)
      {
        assert names[..i + 1][..i] == names[..i];
        State(names[i], choice);
      }
      assert names[..|names|] == names;
    }

    // One entry's statement, and whether it does not read.
    method TakeEntry(entry: Entry) returns (failed: bool)
      modifies this
      ensures failed == Fails(entry)
      ensures Value() == if failed then old(Value()) else AfterEntry(old(Value()), entry)
    {
      if entry.block.None? || entry.block.value.driver != DRIVER {
        return false;
      }
      var codec := CodecOf(entry.block.value.parameters);
      if codec.Err? {
        return true;
      }
      if codec.value == "" {
        return false;
      }
      var choice := Choice(codec.value, entry.fromClaim);
      if |entry.requests| == 0 {
        StateEach([""], choice);
        return false;
      }
      StateEach(entry.requests, choice);
      return false;
    }

    // A parameter that this driver does not read fails the claim, whoever wrote
    // it. Otherwise every request is answered by the precedence.
    method ClaimCodecs(config: seq<Entry>) returns (failed: bool)
      requires Value() == EmptySelection
      modifies this
      ensures failed <==> exists i :: 0 <= i < |config| && Fails(config[i])
      ensures !failed ==> Value() == AfterConfig(config)
      ensures !failed ==> forall r :: Answer(Value(), r) == Precedence(config, r)
    {
      for i := 0 to |config|
        invariant forall k :: 0 <= k < i ==> !Fails(config[k])
        invariant Value() == AfterConfig(config[..i])
      {
        assert config[..i + 1][..i] == config[..i];
        failed := TakeEntry(config[i]);
        if failed {
          return true;
        }
      }
      assert config[..|config|] == config;
      TheAnswersAreThePrecedence(config);
      return false;
    }

    // The codec that one request plays: by the precedence, whatever entries the
    // selection was stated from.
    method ForRequest(request: string) returns (codec: string)
      ensures forall config :: Value() == AfterConfig(config) ==> codec == Precedence(config, request)
    {
      forall config | Value() == AfterConfig(config) ensures Answer(Value(), request) == Precedence(config, request) {
        TheAnswerIsThePrecedence(config, request);
      }
      var named := if request in requests then requests[request] else NoChoice;
      if named.codec == "" {
        return every.codec;
      }
      if every.codec != "" && every.fromClaim && !named.fromClaim {
        return every.codec;
      }
      return named.codec;
    }
  }

  // ---------------------------------------------------------------------------
  // The precedence

  predicate SaysFor(e: Entry, request: string, fromClaim: bool) {
    && CodecIn(e) != "" && e.fromClaim == fromClaim
    && (request in e.requests || (e.requests == [] && request == ""))
  }

  // The codec of the last entry from one source that speaks for a request, or
  // "" when none does. "" as the request asks for the entries that name none.
  function LastSaid(config: seq<Entry>, request: string, fromClaim: bool): string {
    if config == [] then ""
    else
      var last := config[|config| - 1];
      if SaysFor(last, request, fromClaim) then CodecIn(last) else LastSaid(config[..|config| - 1], request, fromClaim)
  }

  function Or(a: string, b: string): string {
    if a != "" then a else b
  }

  // The last claim entry that names the request, else the last one for every
  // request, else the last class entry that names it, else the last for every.
  function Precedence(config: seq<Entry>, request: string): string {
    Or(LastSaid(config, request, true),
       Or(LastSaid(config, "", true),
          Or(LastSaid(config, request, false), LastSaid(config, "", false))))
  }

  lemma {:induction false} StatedAllIs(s: Selection, requests: seq<string>, choice: Choice, r: string)
    ensures ChoiceAt(StatedAll(s, requests, choice), r)
            == if r in requests then Take(ChoiceAt(s, r), choice) else ChoiceAt(s, r)
    ensures "" in s.requests <==> "" in StatedAll(s, requests, choice).requests
  {
    if requests != [] {
      var n := |requests| - 1;
      StatedAllIs(s, requests[..n], choice, r);
      assert r in requests <==> r in requests[..n] || r == requests[n];
    }
  }

  // The choice held for a request is its last word from the claim, else its last
  // word from the class.
  lemma {:induction false} HeldIsTheLastWord(config: seq<Entry>, r: string)
    ensures "" !in AfterConfig(config).requests
    ensures ChoiceAt(AfterConfig(config), r)
            == if LastSaid(config, r, true) != "" then Choice(LastSaid(config, r, true), true)
               else if LastSaid(config, r, false) != "" then Choice(LastSaid(config, r, false), false)
               else NoChoice
  {
    if config != [] {
      var before, last := config[..|config| - 1], config[|config| - 1];
      HeldIsTheLastWord(before, r);
      if CodecIn(last) != "" {
        StatedAllIs(AfterConfig(before), SpeaksFor(last), Choice(CodecIn(last), last.fromClaim), r);
      }
    }
  }

  lemma TheAnswerIsThePrecedence(config: seq<Entry>, r: string)
    ensures Answer(AfterConfig(config), r) == Precedence(config, r)
  {
    HeldIsTheLastWord(config, r);
    HeldIsTheLastWord(config, "");
  }

  lemma TheAnswersAreThePrecedence(config: seq<Entry>)
    ensures forall r :: Answer(AfterConfig(config), r) == Precedence(config, r)
  {
    forall r ensures Answer(AfterConfig(config), r) == Precedence(config, r) { TheAnswerIsThePrecedence(config, r); }
  }
}
