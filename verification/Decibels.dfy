// The dB range that a control declares, read out of its TLV block: a type, a
// length in bytes, and the data, in 32-bit words.
// audio-operator/decibels.go.
module Decibels {
  import opened Basics
  import opened Text

  type Word = n: nat | n < 0x1_0000_0000

  datatype DbRange = DbRange(low: int, high: int)

  const MUTE := -9999999

  const CONTAINER: Word := 0
  const SCALE: Word := 1
  const LINEAR: Word := 2
  const RANGE: Word := 3
  const MIN_MAX: Word := 4
  const MIN_MAX_MUTE: Word := 5

  // A number as a signed 32-bit one: the one in range that differs by a multiple of
  // the size.
  function Wrap32(n: int): (i: int)
    ensures -0x8000_0000 <= i < 0x8000_0000 && (n - i) % 0x1_0000_0000 == 0
  {
    (n + 0x8000_0000) % 0x1_0000_0000 - 0x8000_0000
  }

  lemma WrapOnce(n: int) returns (k: int)
    ensures Wrap32(n) == n - 0x1_0000_0000 * k
  {
    k := (n + 0x8000_0000) / 0x1_0000_0000;
  }

  lemma WrapsAlike(n: int, k: int)
    ensures Wrap32(n + 0x1_0000_0000 * k) == Wrap32(n)
  {
  }

  lemma ProductShift(step: int, span: int, k: int)
    ensures step * (span - 0x1_0000_0000 * k) == step * span - 0x1_0000_0000 * (step * k)
  {
  }

  // The steps of 32-bit arithmetic add up to one reduction of the whole.
  lemma StepsWrapOnce(low: int, step: int, span: int)
    ensures Wrap32(low + Wrap32(step * Wrap32(span))) == Wrap32(low + step * span)
  {
    var k := WrapOnce(span);
    ProductShift(step, span, k);
    var m := WrapOnce(step * Wrap32(span));
    WrapsAlike(low + step * span, -(step * k) - m);
  }

  // ---------------------------------------------------------------------------
  // Bounds that pass over silence

  function LeastLevel(a: int, b: int): int {
    if b != MUTE && (a == MUTE || b < a) then b else a
  }

  function GreatestLevel(a: int, b: int): int {
    if b != MUTE && (a == MUTE || b > a) then b else a
  }

  function Widest(a: Option<DbRange>, b: Option<DbRange>): Option<DbRange> {
    if a.None? then b else if b.None? then a
    else Some(DbRange(LeastLevel(a.value.low, b.value.low), GreatestLevel(a.value.high, b.value.high)))
  }

  lemma WidestIsAssociative(a: Option<DbRange>, b: Option<DbRange>, c: Option<DbRange>)
    ensures Widest(Widest(a, b), c) == Widest(a, Widest(b, c))
  {
  }

  // ---------------------------------------------------------------------------
  // The walk

  // The range that one block with no blocks inside states. The span is the
  // number of control values between the ends.
  function LeafRange(kind: Word, data: seq<Word>, span: int): Option<DbRange> {
    if |data| < 2 then None
    else if kind == SCALE then
      var low := Wrap32(data[0]);
      Some(DbRange(low, Wrap32(low + Wrap32(data[1] % 0x1_0000 * Wrap32(span)))))
    else if kind == LINEAR || kind == MIN_MAX || kind == MIN_MAX_MUTE then
      Some(DbRange(Wrap32(data[0]), Wrap32(data[1])))
    else None
  }

  function DataOf(payload: seq<Word>): (data: seq<Word>)
    requires |payload| >= 2
    ensures |data| <= |payload| - 2
  {
    payload[2..2 + Min(payload[1] / 4, |payload| - 2)]
  }

  function RangeFrom(payload: seq<Word>, span: int): Option<DbRange>
    decreases |payload|, 0
  {
    if |payload| < 2 then None
    else if payload[0] == RANGE then Outer(DataOf(payload), true, 0)
    else if payload[0] == CONTAINER then Outer(DataOf(payload), false, 0)
    else LeafRange(payload[0], DataOf(payload), span)
  }

  // The words in front of a block: the two control values of a sub-range.
  function Ahead(ranged: bool): nat {
    if ranged then 2 else 0
  }

  function SpanAt(data: seq<Word>, ranged: bool, at: nat): int
    requires at + Ahead(ranged) <= |data|
  {
    if ranged then Wrap32(data[at + 1]) - Wrap32(data[at]) else 0
  }

  // The outer bounds of the blocks in a list from one of its words on.
  function Outer(data: seq<Word>, ranged: bool, at: nat): Option<DbRange>
    decreases |data|, 1, |data| - at
  {
    if at + Ahead(ranged) + 2 > |data| then None
    else
      var block := at + Ahead(ranged);
      Widest(RangeFrom(data[block..], SpanAt(data, ranged, at)), Outer(data, ranged, block + 2 + data[block + 1] / 4))
  }

  method DecibelRangeFrom(payload: seq<Word>, min: int, max: int) returns (levels: DbRange, declared: bool)
    ensures (if declared then Some(levels) else None) == RangeFrom(payload, max - min)
    ensures |payload| < 2 || (payload[0] != 0 && payload[0] != 3 && (payload[1] < 8 || |payload| < 4)) ==> !declared
    ensures |payload| >= 4 && payload[1] >= 8 && payload[0] == 1 ==>
              && declared && levels.low == Wrap32(payload[2])
              && levels.high == Wrap32(levels.low + payload[3] % 0x1_0000 * (max - min))
    ensures |payload| >= 4 && payload[1] >= 8 && (payload[0] == 2 || payload[0] == 4 || payload[0] == 5) ==>
              declared && levels == DbRange(Wrap32(payload[2]), Wrap32(payload[3]))
    ensures |payload| >= 2 && payload[0] == 3 ==> declared == Outer(DataOf(payload), true, 0).Some?
    ensures |payload| >= 2 && payload[0] == 0 ==> declared == Outer(DataOf(payload), false, 0).Some?
    ensures |payload| >= 2 && payload[0] > 5 ==> !declared
    decreases |payload|, 0
  {
    if |payload| < 2 {
      return DbRange(0, 0), false;
    }
    var words := payload[1] / 4;
    if words > |payload| - 2 {
      words := |payload| - 2;
    }
    var data := payload[2..2 + words];
    if payload[0] == SCALE {
      if |data| < 2 {
        return DbRange(0, 0), false;
      }
      var low := Wrap32(data[0]);
      var step := data[1] % 0x1_0000;
      StepsWrapOnce(low, step, max - min);
      return DbRange(low, Wrap32(low + Wrap32(step * Wrap32(max - min)))), true;
    } else if payload[0] == LINEAR || payload[0] == MIN_MAX || payload[0] == MIN_MAX_MUTE {
      if |data| < 2 {
        return DbRange(0, 0), false;
      }
      return DbRange(Wrap32(data[0]), Wrap32(data[1])), true;
    } else if payload[0] == RANGE {
      levels, declared := OuterBounds(data, true);
    } else if payload[0] == CONTAINER {
      levels, declared := OuterBounds(data, false);
    } else {
      return DbRange(0, 0), false;
    }
  }

  lemma OneStep(data: seq<Word>, ranged: bool, at: nat, payload: seq<Word>, span: int, next: nat)
    requires at + Ahead(ranged) + 2 <= |data|
    requires data[at + Ahead(ranged)..] == payload && SpanAt(data, ranged, at) == span
    requires next == at + Ahead(ranged) + 2 + data[at + Ahead(ranged) + 1] / 4
    ensures Outer(data, ranged, at) == Widest(RangeFrom(payload, span), Outer(data, ranged, next))
  {
  }

  // A block's range goes over from what the walk has left to what it holds.
  lemma StepFolds(data: seq<Word>, ranged: bool, at: nat, payload: seq<Word>, span: int, held: Option<DbRange>)
    requires at + Ahead(ranged) + 2 <= |data|
    requires data[at + Ahead(ranged)..] == payload && SpanAt(data, ranged, at) == span
    ensures var next := at + Ahead(ranged) + 2 + data[at + Ahead(ranged) + 1] / 4;
            Widest(Widest(held, RangeFrom(payload, span)), Outer(data, ranged, next))
            == Widest(held, Outer(data, ranged, at))
  {
    var next := at + Ahead(ranged) + 2 + data[at + Ahead(ranged) + 1] / 4;
    OneStep(data, ranged, at, payload, span, next);
    WidestIsAssociative(held, RangeFrom(payload, span), Outer(data, ranged, next));
  }

  // For any words it ends, and reads none outside the list.
  method OuterBounds(data: seq<Word>, ranged: bool) returns (bounds: DbRange, found: bool)
    ensures (if found then Some(bounds) else None) == Outer(data, ranged, 0)
    decreases |data|, 1
  {
    bounds, found := DbRange(MUTE, MUTE), false;
    var at := 0;
    while at + 2 <= |data|
      invariant !found ==> bounds == DbRange(MUTE, MUTE)
      invariant Widest(if found then Some(bounds) else None, Outer(data, ranged, at)) == Outer(data, ranged, 0)
      decreases |data| - at
    {
      var min, max := 0, 0;
      ghost var start := at;
      if ranged {
        if at + 4 > |data| {
          break;
        }
        min, max := Wrap32(data[at]), Wrap32(data[at + 1]);
        at := at + 2;
      }
      var inner, declared := DecibelRangeFrom(data[at..], min, max);
      StepFolds(data, ranged, start, data[at..], max - min, if found then Some(bounds) else None);
      bounds, found := Take(bounds, found, inner, declared);
      at := at + 2 + data[at + 1] / 4;
    }
  }

  // The bounds with one more block's range in them.
  method Take(held: DbRange, some: bool, inner: DbRange, declared: bool) returns (bounds: DbRange, found: bool)
    requires !some ==> held == DbRange(MUTE, MUTE)
    ensures (if found then Some(bounds) else None)
            == Widest(if some then Some(held) else None, if declared then Some(inner) else None)
    ensures !found ==> bounds == DbRange(MUTE, MUTE)
  {
    bounds, found := held, some;
    if declared {
      if inner.low != MUTE && (!found || bounds.low == MUTE || inner.low < bounds.low) {
        bounds := bounds.(low := inner.low);
      }
      if inner.high != MUTE && (!found || bounds.high == MUTE || inner.high > bounds.high) {
        bounds := bounds.(high := inner.high);
      }
      found := true;
    }
  }

  // ---------------------------------------------------------------------------
  // The trees that blocks are

  // A leaf is a block of another type than the two that hold blocks. The control
  // values of an entry are written in a range of ranges alone.
  datatype Tree = Leaf(kind: Word, data: seq<Word>) | Nested(ranged: bool, entries: seq<Entry>)

  datatype Entry = Entry(min: Word, max: Word, block: Tree)

  function Size(t: Tree): (n: nat)
    ensures n >= 2
    decreases t
  {
    match t
    case Leaf(_, data) => 2 + |data|
    case Nested(ranged, entries) => 2 + EntriesSize(entries, ranged)
  }

  function EntriesSize(entries: seq<Entry>, ranged: bool): nat
    decreases entries
  {
    if entries == [] then 0 else EntrySize(entries[0], ranged) + EntriesSize(entries[1..], ranged)
  }

  function EntrySize(e: Entry, ranged: bool): nat
    decreases e
  {
    Ahead(ranged) + Size(e.block)
  }

  // Every length fits its word, and a leaf is a leaf.
  predicate WellFormed(t: Tree)
    decreases t
  {
    && 4 * Size(t) < 0x1_0000_0000
    && match t
       case Leaf(kind, _) => kind != RANGE && kind != CONTAINER
       case Nested(_, entries) => AllWellFormed(entries)
  }

  predicate AllWellFormed(entries: seq<Entry>)
    decreases entries
  {
    entries == [] || (EntryWellFormed(entries[0]) && AllWellFormed(entries[1..]))
  }

  predicate EntryWellFormed(e: Entry)
    decreases e
  {
    WellFormed(e.block)
  }

  // The words of a tree.
  function Words(t: Tree): (words: seq<Word>)
    requires WellFormed(t)
    ensures |words| == Size(t) && words[1] == 4 * (Size(t) - 2)
    decreases t
  {
    match t
    case Leaf(kind, data) => [kind, 4 * |data|] + data
    case Nested(ranged, entries) =>
      [if ranged then RANGE else CONTAINER, 4 * EntriesSize(entries, ranged)] + EntriesWords(entries, ranged)
  }

  function EntriesWords(entries: seq<Entry>, ranged: bool): (words: seq<Word>)
    requires AllWellFormed(entries)
    ensures |words| == EntriesSize(entries, ranged)
    decreases entries
  {
    if entries == [] then [] else EntryWords(entries[0], ranged) + EntriesWords(entries[1..], ranged)
  }

  function EntryWords(e: Entry, ranged: bool): (words: seq<Word>)
    requires EntryWellFormed(e)
    ensures |words| == EntrySize(e, ranged)
    decreases e
  {
    (if ranged then [e.min, e.max] else []) + Words(e.block)
  }

  // The ranges that the leaves of a tree state. A range of ranges gives each
  // block the span of its own control values, and a container gives it none.
  function Leaves(t: Tree, span: int): seq<DbRange>
    decreases t
  {
    match t
    case Leaf(kind, data) => if LeafRange(kind, data, span).Some? then [LeafRange(kind, data, span).value] else []
    case Nested(ranged, entries) => EntryLeaves(entries, ranged)
  }

  function EntryLeaves(entries: seq<Entry>, ranged: bool): seq<DbRange>
    decreases entries
  {
    if entries == [] then [] else OneEntryLeaves(entries[0], ranged) + EntryLeaves(entries[1..], ranged)
  }

  function OneEntryLeaves(e: Entry, ranged: bool): seq<DbRange>
    decreases e
  {
    Leaves(e.block, if ranged then Wrap32(e.max) - Wrap32(e.min) else 0)
  }

  function WidestOf(ranges: seq<DbRange>): Option<DbRange> {
    if ranges == [] then None else Widest(Some(ranges[0]), WidestOf(ranges[1..]))
  }

  lemma {:induction false} WidestOfBoth(a: seq<DbRange>, b: seq<DbRange>)
    ensures WidestOf(a + b) == Widest(WidestOf(a), WidestOf(b))
  {
    if a == [] {
      assert a + b == b;
    } else {
      assert (a + b)[1..] == a[1..] + b;
      WidestOfBoth(a[1..], b);
      WidestIsAssociative(Some(a[0]), WidestOf(a[1..]), WidestOf(b));
    }
  }

  // ---------------------------------------------------------------------------
  // The walk is a fold over the leaves

  // The answer for a tree's words, whatever follows them.
  lemma TreeReads(t: Tree, tail: seq<Word>, span: int)
    requires WellFormed(t)
    ensures RangeFrom(Words(t) + tail, span) == WidestOf(Leaves(t, span))
    decreases t
  {
    var payload := Words(t) + tail;
    assert DataOf(payload) == Words(t)[2..];
    match t
    case Leaf(kind, data) =>
      assert Words(t)[2..] == data;
    case Nested(ranged, entries) =>
      assert Words(t)[2..] == EntriesWords(entries, ranged);
      EntriesRead(entries, ranged, []);
      assert [] + EntriesWords(entries, ranged) == EntriesWords(entries, ranged);
  }

  lemma {:induction false} EntriesRead(entries: seq<Entry>, ranged: bool, front: seq<Word>)
    requires AllWellFormed(entries)
    ensures Outer(front + EntriesWords(entries, ranged), ranged, |front|) == WidestOf(EntryLeaves(entries, ranged))
    decreases entries
  {
    if entries != [] {
      var here, rest := EntryWords(entries[0], ranged), EntriesWords(entries[1..], ranged);
      assert front + EntriesWords(entries, ranged) == front + here + rest;
      OneEntryReads(entries[0], ranged, front, rest);
      EntriesRead(entries[1..], ranged, front + here);
      WidestOfBoth(OneEntryLeaves(entries[0], ranged), EntryLeaves(entries[1..], ranged));
    }
  }

  lemma OneEntryReads(e: Entry, ranged: bool, front: seq<Word>, rest: seq<Word>)
    requires EntryWellFormed(e)
    ensures var data := front + EntryWords(e, ranged) + rest;
            Outer(data, ranged, |front|)
            == Widest(WidestOf(OneEntryLeaves(e, ranged)), Outer(data, ranged, |front + EntryWords(e, ranged)|))
    decreases e
  {
    var data, span := front + EntryWords(e, ranged) + rest, if ranged then Wrap32(e.max) - Wrap32(e.min) else 0;
    EntryLies(e, ranged, front, rest);
    OneStep(data, ranged, |front|, Words(e.block) + rest, span, |front + EntryWords(e, ranged)|);
    TreeReads(e.block, rest, span);
  }

  // Where an entry's block and its control values are in a list.
  lemma EntryLies(e: Entry, ranged: bool, front: seq<Word>, rest: seq<Word>)
    requires EntryWellFormed(e)
    ensures var data, block := front + EntryWords(e, ranged) + rest, |front| + Ahead(ranged);
            && block + 2 <= |data| && data[block..] == Words(e.block) + rest
            && data[block + 1] == 4 * (Size(e.block) - 2)
            && (ranged ==> data[|front|] == e.min && data[|front| + 1] == e.max)
  {
    var ahead: seq<Word> := if ranged then [e.min, e.max] else [];
    BlockLies(front, ahead, Words(e.block), rest);
    assert EntryWords(e, ranged) == ahead + Words(e.block);
    assert front + EntryWords(e, ranged) + rest == front + ahead + Words(e.block) + rest;
  }

  lemma BlockLies(front: seq<Word>, ahead: seq<Word>, words: seq<Word>, rest: seq<Word>)
    requires |words| >= 2
    ensures var data, block := front + ahead + words + rest, |front| + |ahead|;
            && data[block..] == words + rest && data[block + 1] == words[1]
            && forall i :: 0 <= i < |ahead| ==> data[|front| + i] == ahead[i]
  {
  }

  // ---------------------------------------------------------------------------
  // What the fold is

  predicate Silent(level: int) {
    level == -9999999
  }

  // One end of the answer: the best level of the leaves by an order, or silence
  // when every leaf is silent there.
  ghost predicate IsLeast(end: int, levels: seq<int>) {
    if forall i :: 0 <= i < |levels| ==> Silent(levels[i]) then Silent(end)
    else !Silent(end) && end in levels && forall i :: 0 <= i < |levels| && !Silent(levels[i]) ==> end <= levels[i]
  }

  ghost predicate IsGreatest(end: int, levels: seq<int>) {
    if forall i :: 0 <= i < |levels| ==> Silent(levels[i]) then Silent(end)
    else !Silent(end) && end in levels && forall i :: 0 <= i < |levels| && !Silent(levels[i]) ==> end >= levels[i]
  }

  function Lows(ranges: seq<DbRange>): (lows: seq<int>)
    ensures |lows| == |ranges| && forall i :: 0 <= i < |ranges| ==> lows[i] == ranges[i].low
  {
    seq(|ranges|, i requires 0 <= i < |ranges| => ranges[i].low)
  }

  function Highs(ranges: seq<DbRange>): (highs: seq<int>)
    ensures |highs| == |ranges| && forall i :: 0 <= i < |ranges| ==> highs[i] == ranges[i].high
  {
    seq(|ranges|, i requires 0 <= i < |ranges| => ranges[i].high)
  }

  lemma OneMoreLow(first: int, end: int, levels: seq<int>)
    requires IsLeast(end, levels)
    ensures IsLeast(LeastLevel(first, end), [first] + levels)
  {
    var all := [first] + levels;
    assert all[0] == first && forall i :: 0 <= i < |levels| ==> all[i + 1] == levels[i];
  }

  lemma OneMoreHigh(first: int, end: int, levels: seq<int>)
    requires IsGreatest(end, levels)
    ensures IsGreatest(GreatestLevel(first, end), [first] + levels)
  {
    var all := [first] + levels;
    assert all[0] == first && forall i :: 0 <= i < |levels| ==> all[i + 1] == levels[i];
  }

  lemma {:induction false} LowIsLeast(ranges: seq<DbRange>)
    requires ranges != []
    ensures WidestOf(ranges).Some? && IsLeast(WidestOf(ranges).value.low, Lows(ranges))
  {
    var first := [ranges[0].low];
    if |ranges| == 1 {
      assert WidestOf(ranges) == Some(ranges[0]);
      assert Lows(ranges) == first;
    } else {
      LowIsLeast(ranges[1..]);
      OneMoreLow(ranges[0].low, WidestOf(ranges[1..]).value.low, Lows(ranges[1..]));
      assert Lows(ranges) == first + Lows(ranges[1..]);
    }
  }

  lemma {:induction false} HighIsGreatest(ranges: seq<DbRange>)
    requires ranges != []
    ensures WidestOf(ranges).Some? && IsGreatest(WidestOf(ranges).value.high, Highs(ranges))
  {
    var first := [ranges[0].high];
    if |ranges| == 1 {
      assert WidestOf(ranges) == Some(ranges[0]);
      assert Highs(ranges) == first;
    } else {
      HighIsGreatest(ranges[1..]);
      OneMoreHigh(ranges[0].high, WidestOf(ranges[1..]).value.high, Highs(ranges[1..]));
      assert Highs(ranges) == first + Highs(ranges[1..]);
    }
  }

  // For every tree of blocks, in a buffer of any length, the answer's ends are
  // the least and the greatest level of the leaves that are not silent there,
  // and there is an answer exactly when some leaf states a range.
  lemma TheWalkFindsTheOuterBounds(t: Tree, tail: seq<Word>, min: int, max: int)
    requires WellFormed(t)
    ensures var leaves, answer := Leaves(t, max - min), RangeFrom(Words(t) + tail, max - min);
            && (answer.None? <==> leaves == [])
            && (answer.Some? ==>
                  IsLeast(answer.value.low, Lows(leaves)) && IsGreatest(answer.value.high, Highs(leaves)))
  {
    TreeReads(t, tail, max - min);
    var leaves := Leaves(t, max - min);
    if leaves != [] {
      LowIsLeast(leaves);
      HighIsGreatest(leaves);
    }
  }

  // ---------------------------------------------------------------------------
  // The decimal string

  // Go's division of a 32-bit number, toward zero.
  function Toward0(n: int, d: nat): int
    requires d > 0
  {
    if n < 0 then -(-n / d) else n / d
  }

  function TwoDigits(n: int): string {
    if 0 <= n < 10 then "0" + Itoa(n) else Itoa(n)
  }

  // A whole number's text, with the fraction behind it in the fewest places.
  function WithFraction(text: string, fraction: int): string {
    if fraction == 0 then text
    else if fraction % 10 == 0 then text + "." + Itoa(Toward0(fraction, 10))
    else text + "." + TwoDigits(fraction)
  }

  function Places(whole: int, fraction: int): string {
    WithFraction(Itoa(whole), fraction)
  }

  function Signed(negative: bool, text: string): string {
    if negative then "-" + text else text
  }

  function TextOfHundredths(n: int): string {
    Places(Toward0(n, 100), n - 100 * Toward0(n, 100))
  }

  function FormatDecibels(hundredths: int): string
    requires -0x8000_0000 <= hundredths < 0x8000_0000
  {
    Signed(hundredths < 0, TextOfHundredths(if hundredths < 0 then Wrap32(-hundredths) else hundredths))
  }

  // A decimal number of at most two places, in hundredths, from its parts.
  function MagnitudeOf(parts: seq<string>): Option<nat>
    requires |parts| > 0
  {
    var whole := Number(parts[0], 10);
    if whole.None? || |parts| > 2 then None
    else if |parts| == 1 then Some(100 * whole.value)
    else
      var fraction := Number(parts[1], 10);
      if fraction.None? || |parts[1]| > 2 then None
      else Some(100 * whole.value + if |parts[1]| == 1 then 10 * fraction.value else fraction.value)
  }

  function Magnitude(s: string): Option<nat> {
    MagnitudeOf(Split(s, '.'))
  }

  function HundredthsIn(s: string): Option<int> {
    var negative := s != [] && s[0] == '-';
    var m := Magnitude(if negative then s[1..] else s);
    if m.None? then None
    else
      var value: int := m.value;
      Some(if negative then -value else value)
  }

  lemma TextOfParts(n: nat, whole: nat, fraction: nat)
    requires Toward0(n, 100) == whole && n == 100 * whole + fraction
    ensures TextOfHundredths(n) == Places(whole, fraction)
  {
  }

  lemma FormatOfAMagnitude(h: int, whole: nat, fraction: nat)
    requires -0x8000_0000 < h < 0x8000_0000 && fraction < 100
    requires 100 * whole + fraction == if h < 0 then -h else h
    ensures FormatDecibels(h) == Signed(h < 0, Places(whole, fraction))
  {
    var n := if h < 0 then -h else h;
    MagnitudeFits(n);
    PartsOfAMagnitude(whole, fraction);
    TextOfParts(n, whole, fraction);
  }

  lemma MagnitudeFits(n: nat)
    requires n < 0x8000_0000
    ensures Wrap32(n) == n
  {
  }

  lemma PartsOfAMagnitude(whole: nat, fraction: nat)
    requires fraction < 100
    ensures Toward0(100 * whole + fraction, 100) == whole
  {
  }

  // A text with a point in it, of two texts that read as numbers.
  lemma PointReadsBack(text: string, whole: nat, places: string, fraction: nat, m: nat)
    requires '.' !in text && '.' !in places && |places| <= 2
    requires Number(text, 10) == Some(whole) && Number(places, 10) == Some(fraction)
    requires m == 100 * whole + if |places| == 1 then 10 * fraction else fraction
    ensures Magnitude(text + "." + places) == Some(m)
  {
    SplitAtFirst(text, places, '.');
    SplitWhole(places, '.');
    PartsReadBack(text, whole, places, fraction, m);
  }

  lemma PartsReadBack(text: string, whole: nat, places: string, fraction: nat, m: nat)
    requires |places| <= 2 && Number(text, 10) == Some(whole) && Number(places, 10) == Some(fraction)
    requires m == 100 * whole + if |places| == 1 then 10 * fraction else fraction
    ensures MagnitudeOf([text, places]) == Some(m)
  {
  }

  lemma TwoDigitsReadBack(n: nat)
    requires n < 100
    ensures |TwoDigits(n)| == 2 && Number(TwoDigits(n), 10) == Some(n) && '.' !in TwoDigits(n)
  {
    NumberOfDigits(n);
    DigitsAreDigits(n);
    if n < 10 {
      OneDigit(0, 10);
      NumberExtends([DigitOf(0)], 0, n, 10);
      assert TwoDigits(n) == [DigitOf(0)] + [DigitOf(n)];
    } else {
      assert |Digits(n / 10)| == 1;
    }
  }

  lemma PlacesOpenWithADigit(whole: nat, fraction: nat)
    ensures Places(whole, fraction) != [] && Places(whole, fraction)[0] != '-'
  {
    DigitsAreDigits(whole);
  }

  lemma DigitsHaveNoPoint(n: nat)
    ensures '.' !in Digits(n) && Digits(n)[0] != '-'
  {
    DigitsAreDigits(n);
  }

  lemma OnePlaceBack(text: string, whole: nat, tenths: nat, m: nat)
    requires tenths < 10 && '.' !in text && Number(text, 10) == Some(whole) && m == 100 * whole + 10 * tenths
    ensures Magnitude(text + "." + [DigitOf(tenths)]) == Some(m)
  {
    OneDigit(tenths, 10);
    DigitHasItsValue(tenths);
    PointReadsBack(text, whole, [DigitOf(tenths)], tenths, m);
  }

  lemma TwoPlacesBack(text: string, whole: nat, fraction: nat, m: nat)
    requires fraction < 100 && '.' !in text && Number(text, 10) == Some(whole) && m == 100 * whole + fraction
    ensures Magnitude(text + "." + TwoDigits(fraction)) == Some(m)
  {
    TwoDigitsReadBack(fraction);
    PointReadsBack(text, whole, TwoDigits(fraction), fraction, m);
  }

  lemma OneTenth(text: string, fraction: nat)
    requires 0 < fraction < 100 && fraction % 10 == 0
    ensures WithFraction(text, fraction) == text + "." + [DigitOf(fraction / 10)]
  {
  }

  lemma FractionReadsBack(text: string, whole: nat, fraction: nat, m: nat)
    requires fraction < 100 && '.' !in text && Number(text, 10) == Some(whole) && m == 100 * whole + fraction
    ensures Magnitude(WithFraction(text, fraction)) == Some(m)
  {
    if fraction == 0 {
      SplitWhole(text, '.');
    } else if fraction % 10 == 0 {
      OneTenth(text, fraction);
      OnePlaceBack(text, whole, fraction / 10, m);
    } else {
      TwoPlacesBack(text, whole, fraction, m);
    }
  }

  lemma PlacesReadBack(whole: nat, fraction: nat, m: nat)
    requires fraction < 100 && m == 100 * whole + fraction
    ensures Magnitude(Places(whole, fraction)) == Some(m)
  {
    NumberOfDigits(whole);
    DigitsHaveNoPoint(whole);
    FractionReadsBack(Digits(whole), whole, fraction, m);
  }

  lemma SignReadsBack(text: string, negative: bool, m: nat, value: int)
    requires text != [] && text[0] != '-' && Magnitude(text) == Some(m)
    requires value == if negative then 0 - m else m
    ensures HundredthsIn(Signed(negative, text)) == Some(value)
  {
    assert ("-" + text)[1..] == text;
  }

  // The text behind the sign of a level.
  lemma TextOfALevel(h: int) returns (text: string, m: nat)
    requires -0x8000_0000 < h < 0x8000_0000
    ensures FormatDecibels(h) == Signed(h < 0, text) && h == if h < 0 then 0 - m else m
    ensures text != [] && text[0] != '-' && Magnitude(text) == Some(m)
  {
    m := if h < 0 then -h else h;
    var whole, fraction := m / 100, m % 100;
    text := Places(whole, fraction);
    PlacesOpenWithADigit(whole, fraction);
    PlacesReadBack(whole, fraction, m);
    FormatOfAMagnitude(h, whole, fraction);
  }

  // The string states the level exactly, for every level but the least one of
  // the type, whose opposite the type does not hold.
  lemma TheStringIsExact(h: int)
    requires -0x8000_0000 <= h < 0x8000_0000
    ensures HundredthsIn(FormatDecibels(h)) == Some(h) <==> h != -0x8000_0000
  {
    if h != -0x8000_0000 {
      var text, m := TextOfALevel(h);
      SignReadsBack(text, h < 0, m, h);
    } else {
      TheLeastLevelIsNoNumber();
    }
  }

  lemma SignedTextIsNoNumber(text: string, places: string)
    requires '.' !in text && '.' !in places
    ensures Magnitude("-" + text + "." + places).None?
  {
    var front := "-" + text;
    assert '.' !in front;
    SplitAtFirst(front, places, '.');
    NoDigitNoNumber(front, 10);
  }

  // Go's opposite of the least level is itself, so its parts are negative.
  lemma TheLeastParts(whole: nat, fraction: nat)
    requires 100 * whole + fraction == 0x8000_0000 && fraction < 100
    ensures FormatDecibels(-0x8000_0000) == "-" + Places(0 - whole, 0 - fraction)
  {
    assert Wrap32(0x8000_0000) == -0x8000_0000;
    NegativeParts(whole, fraction);
  }

  lemma NegativeParts(whole: nat, fraction: nat)
    requires fraction < 100
    ensures Toward0(0 - (100 * whole + fraction), 100) == 0 - whole
  {
  }

  lemma NegativePlaces(whole: nat, fraction: nat)
    requires whole > 0 && 0 < fraction && fraction % 10 != 0
    ensures Places(0 - whole, 0 - fraction) == "-" + Digits(whole) + "." + ("-" + Digits(fraction))
  {
    assert (0 - fraction) % 10 != 0;
  }

  lemma TheLeastTextIsNoNumber(text: string, whole: nat, fraction: nat)
    requires text == "-" + Places(0 - whole, 0 - fraction)
    requires whole > 0 && 0 < fraction && fraction % 10 != 0
    ensures HundredthsIn(text).None?
  {
    NegativePlaces(whole, fraction);
    DigitsHaveNoPoint(whole);
    DigitsHaveNoPoint(fraction);
    SignedTextIsNoNumber(Digits(whole), "-" + Digits(fraction));
    assert text[1..] == Places(0 - whole, 0 - fraction);
  }

  lemma TheLeastLevelIsNoNumber()
    ensures HundredthsIn(FormatDecibels(-0x8000_0000)).None?
  {
    var whole: nat, fraction: nat :| whole == 21474836 && fraction == 48;
    TheLeastParts(whole, fraction);
    TheLeastTextIsNoNumber(FormatDecibels(-0x8000_0000), whole, fraction);
  }
}
