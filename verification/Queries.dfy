// The text that a template expands to, and the query read back out of it.
// audio-operator/fragments.go, by sections 3.2.2, 3.2.5 and 3.2.8 of RFC 6570.
module Queries {
  import opened Basics
  import opened Text

  // A text is its bytes.
  predicate Bytes(s: string) {
    forall i :: 0 <= i < |s| ==> s[i] < 256 as char
  }

  // ---------------------------------------------------------------------------
  // Percent encoding

  const UPPER := "0123456789ABCDEF"

  predicate Unreserved(c: char) {
    'a' <= c <= 'z' || 'A' <= c <= 'Z' || '0' <= c <= '9' || c in {'-', '_', '.', '~'}
  }

  function EscapeOne(c: char): string
    requires c < 256 as char
  {
    if Unreserved(c) then [c] else if c == ' ' then "+"
    else ['%', UPPER[c as int / 16], UPPER[c as int % 16]]
  }

  function QueryEscape(s: string): string
    requires Bytes(s)
  {
    if s == "" then "" else EscapeOne(s[0]) + QueryEscape(s[1..])
  }

  // None for a percent sign with no two digits behind it.
  function PathUnescape(s: string): Option<string> {
    if s == "" then Some("")
    else if s[0] != '%' then
      var rest := PathUnescape(s[1..]);
      if rest.None? then None else Some([s[0]] + rest.value)
    else if |s| < 3 || ValueOf(s[1]) == 16 || ValueOf(s[2]) == 16 then None
    else
      var rest := PathUnescape(s[3..]);
      if rest.None? then None else Some([(16 * ValueOf(s[1]) + ValueOf(s[2])) as char] + rest.value)
  }

  function Decode(s: string): string {
    PathUnescape(s).GetOr(s)
  }

  function Plus(c: char): char {
    if c == ' ' then '+' else c
  }

  function Plussed(s: string): (out: string)
    ensures |out| == |s| && forall i :: 0 <= i < |s| ==> out[i] == Plus(s[i])
  {
    seq(|s|, i requires 0 <= i < |s| => Plus(s[i]))
  }

  lemma UpperDigit(d: nat)
    requires d < 16
    ensures ValueOf(UPPER[d]) == d && UPPER[d] !in {'&', '=', '?', '%', '+'}
  {
  }

  lemma OneUnescapes(c: char, rest: string)
    requires c < 256 as char && PathUnescape(rest).Some?
    ensures PathUnescape(EscapeOne(c) + rest) == Some([Plus(c)] + PathUnescape(rest).value)
  {
    var text := EscapeOne(c) + rest;
    if Unreserved(c) || c == ' ' {
      assert text[0] != '%' && text[1..] == rest;
    } else {
      UpperDigit(c as int / 16);
      UpperDigit(c as int % 16);
      assert text[0] == '%' && text[3..] == rest;
      assert 16 * (c as int / 16) + c as int % 16 == c as int;
    }
  }

  // What a value decodes to after its escape: itself, with a plus sign for each
  // space.
  lemma {:induction false} EscapeReadsBack(s: string)
    requires Bytes(s)
    ensures PathUnescape(QueryEscape(s)) == Some(Plussed(s))
  {
    if s != "" {
      EscapeReadsBack(s[1..]);
      OneUnescapes(s[0], QueryEscape(s[1..]));
      assert Plussed(s) == [Plus(s[0])] + Plussed(s[1..]);
    }
  }

  lemma OneEscapeIsLong(c: char)
    requires c < 256 as char
    ensures EscapeOne(c) == [c] <==>
              'a' <= c <= 'z' || 'A' <= c <= 'Z' || '0' <= c <= '9' || c == '-' || c == '_' || c == '.' || c == '~'
    ensures |EscapeOne(c)| >= 1 && (EscapeOne(c)[0] == c ==> EscapeOne(c) == [c] || c == '%')
    ensures EscapeOne(c) != [c] && c != ' ' ==>
              |EscapeOne(c)| == 3 && EscapeOne(c)[0] == '%'
              && forall i :: 1 <= i < 3 ==> '0' <= EscapeOne(c)[i] <= '9' || 'A' <= EscapeOne(c)[i] <= 'F'
  {
  }

  // Exactly the letters, the digits and four marks are written as they are.
  lemma {:induction false} WhatIsWrittenAsItIs(s: string)
    requires Bytes(s)
    ensures QueryEscape(s) == s <==>
              forall i :: 0 <= i < |s| ==>
                || 'a' <= s[i] <= 'z' || 'A' <= s[i] <= 'Z' || '0' <= s[i] <= '9'
                || s[i] == '-' || s[i] == '_' || s[i] == '.' || s[i] == '~'
    ensures |QueryEscape(s)| >= |s|
  {
    if s != "" {
      WhatIsWrittenAsItIs(s[1..]);
      OneEscapeIsLong(s[0]);
      assert forall i :: 0 < i < |s| ==> s[i] == s[1..][i - 1];
      assert QueryEscape(s) == EscapeOne(s[0]) + QueryEscape(s[1..]);
      if EscapeOne(s[0]) == [s[0]] {
        assert QueryEscape(s)[1..] == QueryEscape(s[1..]);
      }
    }
  }

  // A value survives exactly when it holds no space.
  lemma ValuesSurviveWithoutSpaces(s: string)
    requires Bytes(s)
    ensures Decode(QueryEscape(s)) == s <==> ' ' !in s
  {
    EscapeReadsBack(s);
    if ' ' in s {
      var i :| 0 <= i < |s| && s[i] == ' ';
      assert Plussed(s)[i] == '+';
    } else {
      assert Plussed(s) == s;
    }
  }

  lemma {:induction false} EscapesHoldNoSeparator(s: string)
    requires Bytes(s)
    ensures '&' !in QueryEscape(s) && '=' !in QueryEscape(s)
  {
    if s != "" {
      EscapesHoldNoSeparator(s[1..]);
      UpperDigit(s[0] as int / 16);
      UpperDigit(s[0] as int % 16);
    }
  }

  // ---------------------------------------------------------------------------
  // The query

  datatype Pair = Pair(name: string, value: string)

  function PairIn(part: string): Pair {
    var i := IndexOf(part, '=');
    if i < 0 then Pair(Decode(part), Decode("")) else Pair(Decode(part[..i]), Decode(part[i + 1..]))
  }

  function PairsIn(parts: seq<string>): seq<Pair> {
    if parts == [] then []
    else
      var n := |parts| - 1;
      PairsIn(parts[..n]) + if parts[n] == "" then [] else [PairIn(parts[n])]
  }

  method SplitQuery(rawQuery: string) returns (pairs: seq<Pair>)
    ensures pairs == PairsIn(Split(rawQuery, '&'))
  {
    pairs := [];
    var parts := Split(rawQuery, '&');
    for i := 0 to |parts|
      invariant pairs == PairsIn(parts[..i])
    {
      assert parts[..i + 1][..i] == parts[..i];
      if parts[i] == "" {
        continue;
      }
      pairs := pairs + [PairIn(parts[i])];
    }
    assert parts[..|parts|] == parts;
  }

  // The names that a template's query holds: no separator, no percent sign.
  predicate IsKnobName(name: string) {
    name != "" && forall i :: 0 <= i < |name| ==> name[i] !in {'&', '=', '%', ',', '{', '}', '?'}
  }

  predicate ByteValues(pairs: seq<Pair>) {
    forall i :: 0 <= i < |pairs| ==> Bytes(pairs[i].value)
  }

  predicate Simple(pairs: seq<Pair>) {
    ByteValues(pairs) && forall i :: 0 <= i < |pairs| ==> IsKnobName(pairs[i].name)
  }

  function Written(p: Pair): string
    requires Bytes(p.value)
  {
    p.name + "=" + QueryEscape(p.value)
  }

  function AllWritten(pairs: seq<Pair>): (parts: seq<string>)
    requires ByteValues(pairs)
    ensures |parts| == |pairs| && forall i :: 0 <= i < |pairs| ==> parts[i] == Written(pairs[i])
  {
    seq(|pairs|, i requires 0 <= i < |pairs| => Written(pairs[i]))
  }

  lemma {:induction false} SplitOfJoin(parts: seq<string>, c: char)
    requires parts != [] && forall i :: 0 <= i < |parts| ==> c !in parts[i]
    ensures Split(Join(parts, [c]), c) == parts
  {
    if |parts| == 1 {
      SplitWhole(parts[0], c);
    } else {
      SplitAtFirst(parts[0], Join(parts[1..], [c]), c);
      SplitOfJoin(parts[1..], c);
      assert parts == [parts[0]] + parts[1..];
    }
  }

  lemma {:induction false} PlainDecodes(s: string)
    requires '%' !in s
    ensures PathUnescape(s) == Some(s)
  {
    if s != "" {
      PlainDecodes(s[1..]);
      assert s == [s[0]] + s[1..];
    }
  }

  // A pair as it comes back: a plus sign for each space.
  function AsRead(p: Pair): Pair {
    Pair(p.name, Plussed(p.value))
  }

  function AllAsRead(pairs: seq<Pair>): (out: seq<Pair>)
    ensures |out| == |pairs| && forall i :: 0 <= i < |pairs| ==> out[i] == AsRead(pairs[i])
  {
    seq(|pairs|, i requires 0 <= i < |pairs| => AsRead(pairs[i]))
  }

  lemma WrittenReadsBack(p: Pair)
    requires IsKnobName(p.name) && Bytes(p.value)
    ensures PairIn(Written(p)) == AsRead(p) && Written(p) != "" && '&' !in Written(p)
  {
    var part := Written(p);
    EscapesHoldNoSeparator(p.value);
    PlainDecodes(p.name);
    EscapeReadsBack(p.value);
    assert part[|p.name|] == '=';
    assert forall k :: 0 <= k < |p.name| ==> part[k] == p.name[k] && part[k] != '=';
    assert IndexOf(part, '=') == |p.name|;
    assert part[..|p.name|] == p.name && part[|p.name| + 1..] == QueryEscape(p.value);
  }

  lemma AllWrittenExtends(pairs: seq<Pair>, p: Pair)
    requires ByteValues(pairs) && Bytes(p.value)
    ensures ByteValues(pairs + [p]) && AllWritten(pairs + [p]) == AllWritten(pairs) + [Written(p)]
  {
    var all := pairs + [p];
    assert forall i :: 0 <= i < |all| ==> all[i] == if i < |pairs| then pairs[i] else p;
  }

  lemma OnePairMore(parts: seq<string>, part: string)
    requires part != ""
    ensures PairsIn(parts + [part]) == PairsIn(parts) + [PairIn(part)]
  {
    assert (parts + [part])[..|parts|] == parts;
  }

  lemma {:induction false} WrittenPairsReadBack(pairs: seq<Pair>)
    requires Simple(pairs)
    ensures PairsIn(AllWritten(pairs)) == AllAsRead(pairs)
  {
    if pairs != [] {
      var n := |pairs| - 1;
      WrittenPairsReadBack(pairs[..n]);
      WrittenReadsBack(pairs[n]);
      AllWrittenExtends(pairs[..n], pairs[n]);
      OnePairMore(AllWritten(pairs[..n]), Written(pairs[n]));
      assert pairs == pairs[..n] + [pairs[n]];
      assert AllAsRead(pairs) == AllAsRead(pairs[..n]) + [AsRead(pairs[n])];
    }
  }

  // The query that form-style expansion writes reads back pair for pair.
  lemma TheQueryReadsBack(pairs: seq<Pair>)
    requires Simple(pairs)
    ensures PairsIn(Split(Join(AllWritten(pairs), "&"), '&')) == AllAsRead(pairs)
  {
    if pairs != [] {
      forall i | 0 <= i < |pairs| ensures '&' !in AllWritten(pairs)[i] { WrittenReadsBack(pairs[i]); }
      SplitOfJoin(AllWritten(pairs), '&');
      WrittenPairsReadBack(pairs);
    }
  }

  predicate Spaceless(pairs: seq<Pair>) {
    forall i :: 0 <= i < |pairs| ==> ' ' !in pairs[i].value
  }

  lemma PairsSurviveWithoutSpaces(pairs: seq<Pair>)
    ensures AllAsRead(pairs) == pairs <==> Spaceless(pairs)
  {
    if AllAsRead(pairs) == pairs {
      forall i | 0 <= i < |pairs| ensures ' ' !in pairs[i].value {
        assert AllAsRead(pairs)[i] == pairs[i];
        assert forall k :: 0 <= k < |pairs[i].value| ==> pairs[i].value[k] == Plus(pairs[i].value[k]);
      }
    }
    if Spaceless(pairs) {
      forall i | 0 <= i < |pairs| ensures AllAsRead(pairs)[i] == pairs[i] {
        assert Plussed(pairs[i].value) == pairs[i].value;
      }
    }
  }
}
