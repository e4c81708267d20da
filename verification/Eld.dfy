// The ELD block of a monitor: its parse, the attributes a device publishes of
// it, and the block read back from them.
// audio-operator/eld.go, devices.go, and the end of monitorhold.go.
module Elds {
  import opened Basics
  import opened Text

  type Byte = bv8

  // portID is the 64-bit Port_ID, and product the 16-bit product code.
  datatype Block = Block(version: nat, connectionType: string, manufacturer: string, product: nat,
                         monitorName: string, lpcmChannels: nat, lpcmMaxRateHz: nat, lpcmDepths: Byte,
                         speakers: string, speakerAllocation: Byte, portID: nat)

  const FIXED_BYTES := 20
  const MAX_NAME := 16
  const SPEAKER_NAMES := ["FL/FR", "LFE", "FC", "RL/RR", "RC", "FLC/FRC", "RLC/RRC"]
  const SAMPLE_RATES := [32000, 44100, 48000, 88200, 96000, 176400, 192000]
  const DEPTH_NAMES := ["16", "20", "24"]

  // ---------------------------------------------------------------------------
  // Bits and their names

  predicate HasBit(mask: Byte, i: nat)
    requires i < 8
  {
    if i == 0 then mask & 1 != 0 else if i == 1 then mask & 2 != 0
    else if i == 2 then mask & 4 != 0 else if i == 3 then mask & 8 != 0
    else if i == 4 then mask & 16 != 0 else if i == 5 then mask & 32 != 0
    else if i == 6 then mask & 64 != 0 else mask & 128 != 0
  }

  function WithBit(mask: Byte, i: nat): Byte
    requires i < 8
  {
    if i == 0 then mask | 1 else if i == 1 then mask | 2
    else if i == 2 then mask | 4 else if i == 3 then mask | 8
    else if i == 4 then mask | 16 else if i == 5 then mask | 32
    else if i == 6 then mask | 64 else mask | 128
  }

  lemma WithBitHasBit(mask: Byte, i: nat, k: nat)
    requires i < 8 && k < 8
    ensures HasBit(WithBit(mask, i), k) <==> (k == i || HasBit(mask, k))
  {
  }

  lemma OneBitMore(mask: Byte, i: nat)
    requires i < 8
    ensures forall k :: 0 <= k < 8 ==> (HasBit(WithBit(mask, i), k) <==> (k == i || HasBit(mask, k)))
  {
    forall k | 0 <= k < 8 ensures HasBit(WithBit(mask, i), k) <==> (k == i || HasBit(mask, k)) {
      WithBitHasBit(mask, i, k);
    }
  }

  lemma SameBits(a: Byte, b: Byte)
    requires forall k :: 0 <= k < 8 ==> (HasBit(a, k) <==> HasBit(b, k))
    ensures a == b
  {
    assert HasBit(a, 0) <==> HasBit(b, 0);
    assert HasBit(a, 1) <==> HasBit(b, 1);
    assert HasBit(a, 2) <==> HasBit(b, 2);
    assert HasBit(a, 3) <==> HasBit(b, 3);
    assert HasBit(a, 4) <==> HasBit(b, 4);
    assert HasBit(a, 5) <==> HasBit(b, 5);
    assert HasBit(a, 6) <==> HasBit(b, 6);
    assert HasBit(a, 7) <==> HasBit(b, 7);
    EightBits(a, b);
  }

  lemma EightBits(a: Byte, b: Byte)
    requires a & 1 == b & 1 && a & 2 == b & 2 && a & 4 == b & 4 && a & 8 == b & 8
    requires a & 16 == b & 16 && a & 32 == b & 32 && a & 64 == b & 64 && a & 128 == b & 128
    ensures a == b
  {
  }

  // The names of a mask's first n bits, in bit order.
  function BitNames(mask: Byte, names: seq<string>, n: nat): (out: seq<string>)
    requires n <= |names| <= 8
    ensures forall k :: 0 <= k < n && HasBit(mask, k) ==> names[k] in out
    ensures forall w :: w in out ==> exists k :: 0 <= k < n && HasBit(mask, k) && names[k] == w
  {
    if n == 0 then []
    else
      var before := BitNames(mask, names, n - 1);
      if HasBit(mask, n - 1) then before + [names[n - 1]] else before
  }

  // The mask of the first n names that a list holds.
  function BitsNamed(words: seq<string>, names: seq<string>, n: nat): (mask: Byte)
    requires n <= |names| <= 8
    ensures forall k :: 0 <= k < 8 ==> (HasBit(mask, k) <==> k < n && names[k] in words)
  {
    if n == 0 then 0
    else
      var before := BitsNamed(words, names, n - 1);
      if names[n - 1] in words then
        OneBitMore(before, n - 1);
        WithBit(before, n - 1)
      else before
  }

  method NamesOf(mask: Byte, names: seq<string>) returns (text: string)
    requires |names| <= 8
    ensures text == Join(BitNames(mask, names, |names|), " ")
  {
    var list := [];
    for i := 0 to |names|
      invariant list == BitNames(mask, names, i)
    {
      if HasBit(mask, i) {
        list := list + [names[i]];
      }
    }
    text := Join(list, " ");
  }

  method MaskOf(text: string, names: seq<string>) returns (mask: Byte)
    requires |names| <= 8
    ensures mask == BitsNamed(Fields(text), names, |names|)
  {
    mask := 0;
    for i := 0 to |names|
      invariant mask == BitsNamed(Fields(text), names, i)
    {
      if names[i] in Fields(text) {
        mask := WithBit(mask, i);
      }
    }
  }

  // A mask written as names and read back is the mask, when the names are
  // different words and cover its bits.
  lemma NamesReadBack(mask: Byte, names: seq<string>)
    requires |names| <= 8 && AllWords(names) && Distinct(names)
    requires forall k :: |names| <= k < 8 ==> !HasBit(mask, k)
    ensures BitsNamed(Fields(Join(BitNames(mask, names, |names|), " ")), names, |names|) == mask
  {
    var list := BitNames(mask, names, |names|);
    forall i | 0 <= i < |list| ensures IsWord(list[i]) {
      assert list[i] in list;
    }
    FieldsOfJoin(list);
    SameBits(BitsNamed(list, names, |names|), mask);
  }

  // ---------------------------------------------------------------------------
  // The parse

  function Value(b: Byte): (n: nat)
    ensures n < 256
  {
    b as nat
  }

  function LittleEndian(bytes: seq<Byte>): (n: nat)
    ensures |bytes| == 2 ==> n < 0x1_0000
    ensures |bytes| == 8 ==> n < 0x1_0000_0000_0000_0000
  {
    if |bytes| == 2 then Value(bytes[0]) + 256 * Value(bytes[1])
    else if |bytes| == 8 then
      LittleEndian(bytes[..2]) + 0x1_0000 * LittleEndian(bytes[2..4])
      + 0x1_0000_0000 * (LittleEndian(bytes[4..6]) + 0x1_0000 * LittleEndian(bytes[6..]))
    else 0
  }

  const LETTERS := "ABCDEFGHIJKLMNOPQRSTUVWXYZ"

  // The three letters of a manufacturer's code, or none when one of the three
  // five-bit numbers names no letter.
  function PnpId(id: nat): string {
    var a, b, c := id / 1024 % 32, id / 32 % 32, id % 32;
    if 1 <= a <= 26 && 1 <= b <= 26 && 1 <= c <= 26 then [LETTERS[a - 1], LETTERS[b - 1], LETTERS[c - 1]] else ""
  }

  function Characters(bytes: seq<Byte>): (s: string)
    ensures |s| == |bytes|
  {
    seq(|bytes|, i requires 0 <= i < |bytes| => Value(bytes[i]) as char)
  }

  function ConnectionType(bits: Byte): string {
    if bits == 0 then "hdmi" else if bits == 1 then "displayport" else ""
  }

  // What the descriptors say of uncompressed audio: the most channels, the
  // highest rate, and every depth.
  datatype Lpcm = Lpcm(channels: nat, rate: nat, depths: Byte)

  function MaxRate(rates: Byte, n: nat): nat
    requires n <= 7
  {
    if n == 0 then 0
    else if HasBit(rates, n - 1) then Max(MaxRate(rates, n - 1), SAMPLE_RATES[n - 1])
    else MaxRate(rates, n - 1)
  }

  method MaxSampleRate(rates: Byte) returns (highest: nat)
    ensures highest == MaxRate(rates, 7)
  {
    highest := 0;
    for i := 0 to 7
      invariant highest == MaxRate(rates, i)
    {
      if HasBit(rates, i) {
        highest := Max(highest, SAMPLE_RATES[i]);
      }
    }
  }

  predicate IsLpcm(descriptor: seq<Byte>)
    requires |descriptor| == 3
  {
    (descriptor[0] >> 3) & 0xf == 1
  }

  function Channels(descriptor: seq<Byte>): nat
    requires |descriptor| == 3
  {
    Value(descriptor[0] & 0x7) + 1
  }

  function Better(best: Lpcm, descriptor: seq<Byte>): Lpcm
    requires |descriptor| == 3
  {
    if !IsLpcm(descriptor) then best
    else Lpcm(Max(best.channels, Channels(descriptor)), Max(best.rate, MaxRate(descriptor[1], 7)),
              best.depths | (descriptor[2] & 0x7))
  }

  function Best(raw: seq<Byte>, start: nat, n: nat): Lpcm
    requires start + 3 * n <= |raw|
  {
    if n == 0 then Lpcm(0, 0, 0) else Better(Best(raw, start, n - 1), raw[start + 3 * (n - 1)..start + 3 * n])
  }

  function Version(raw: seq<Byte>): nat
    requires |raw| >= FIXED_BYTES
  {
    Value(raw[0] >> 3)
  }

  function NameLength(raw: seq<Byte>): nat
    requires |raw| >= FIXED_BYTES
  {
    Value(raw[4] & 0x1f)
  }

  function DescriptorCount(raw: seq<Byte>): nat
    requires |raw| >= FIXED_BYTES
  {
    Value((raw[5] >> 4) & 0xf)
  }

  predicate Accepted(raw: seq<Byte>) {
    && |raw| >= FIXED_BYTES
    && Version(raw) in {2, 31}
    && NameLength(raw) <= MAX_NAME
    && FIXED_BYTES + NameLength(raw) + 3 * DescriptorCount(raw) <= |raw|
  }

  function Parsed(raw: seq<Byte>, best: Lpcm): Block
    requires |raw| >= FIXED_BYTES && NameLength(raw) <= MAX_NAME && FIXED_BYTES + NameLength(raw) <= |raw|
  {
    var name := raw[FIXED_BYTES..FIXED_BYTES + NameLength(raw)];
    Block(Version(raw), ConnectionType((raw[5] >> 2) & 0x3), PnpId(256 * Value(raw[16]) + Value(raw[17])),
          LittleEndian(raw[18..20]), TrimRight(Characters(name), {'\0', ' ', '\t', '\r', '\n'}),
          best.channels, best.rate, best.depths,
          Join(BitNames(raw[7] & 0x7f, SPEAKER_NAMES, 7), " "), raw[7] & 0x7f, LittleEndian(raw[8..16]))
  }

  lemma HighBits(b: Byte)
    ensures Value(b >> 3) == Value(b) / 8 && Value((b >> 4) & 0xf) == Value(b) / 16
  {
  }

  lemma LowBits(b: Byte)
    ensures Value(b & 0x1f) == Value(b) % 32
  {
  }

  // A block is accepted when its twenty bytes of facts, its name and its three-byte
  // descriptors are all there, in a version that this parser reads.
  lemma WhatIsAccepted(raw: seq<Byte>)
    ensures Accepted(raw) <==>
              && |raw| >= 20 && (Value(raw[0]) / 8 == 2 || Value(raw[0]) / 8 == 31)
              && Value(raw[4]) % 32 <= 16
              && 20 + Value(raw[4]) % 32 + 3 * (Value(raw[5]) / 16) <= |raw|
    ensures |raw| >= 20 ==> Version(raw) == Value(raw[0]) / 8
    ensures |raw| >= 20 ==> NameLength(raw) == Value(raw[4]) % 32 && DescriptorCount(raw) == Value(raw[5]) / 16
  {
    if |raw| >= 20 {
      HighBits(raw[0]);
      LowBits(raw[4]);
      HighBits(raw[5]);
    }
  }

  // The characters of a monitor's name, up to the spaces and zeros behind them.
  predicate NameOf(all: string, name: string) {
    && name <= all && (name != [] ==> name[|name| - 1] !in {'\0', ' ', '\t', '\r', '\n'})
    && forall k :: |name| <= k < |all| ==> all[k] in {'\0', ' ', '\t', '\r', '\n'}
  }

  lemma PortOf(b: seq<Byte>)
    requires |b| == 8
    ensures LittleEndian(b) == Value(b[0]) + 0x100 * Value(b[1]) + 0x1_0000 * Value(b[2])
                               + 0x100_0000 * Value(b[3]) + 0x1_0000_0000 * Value(b[4])
                               + 0x100_0000_0000 * Value(b[5]) + 0x1_0000_0000_0000 * Value(b[6])
                               + 0x100_0000_0000_0000 * Value(b[7])
  {
    assert LittleEndian(b[..2]) == Value(b[0]) + 256 * Value(b[1]);
    assert LittleEndian(b[2..4]) == Value(b[2]) + 256 * Value(b[3]);
    assert LittleEndian(b[4..6]) == Value(b[4]) + 256 * Value(b[5]);
    assert LittleEndian(b[6..]) == Value(b[6]) + 256 * Value(b[7]);
  }

  // What a block says, byte for byte.
  predicate StatesTheBytes(raw: seq<Byte>, b: Block)
    requires |raw| >= FIXED_BYTES && FIXED_BYTES + NameLength(raw) <= |raw|
  {
    && b.connectionType == (if raw[5] & 0x0c == 0 then "hdmi" else if raw[5] & 0x0c == 4 then "displayport" else "")
    && b.product == Value(raw[18]) + 256 * Value(raw[19])
    && b.speakerAllocation == raw[7] & 0x7f
    && b.manufacturer == PnpId(256 * Value(raw[16]) + Value(raw[17]))
    && b.portID == Value(raw[8]) + 0x100 * Value(raw[9]) + 0x1_0000 * Value(raw[10])
                   + 0x100_0000 * Value(raw[11]) + 0x1_0000_0000 * Value(raw[12])
                   + 0x100_0000_0000 * Value(raw[13]) + 0x1_0000_0000_0000 * Value(raw[14])
                   + 0x100_0000_0000_0000 * Value(raw[15])
    && NameOf(Characters(raw[FIXED_BYTES..FIXED_BYTES + NameLength(raw)]), b.monitorName)
  }

  lemma ConnectionBits(b: Byte)
    ensures (b >> 2) & 0x3 == 0 <==> b & 0x0c == 0
    ensures (b >> 2) & 0x3 == 1 <==> b & 0x0c == 4
  {
  }

  lemma ParsedStatesTheBytes(raw: seq<Byte>, best: Lpcm)
    requires |raw| >= FIXED_BYTES && NameLength(raw) <= MAX_NAME && FIXED_BYTES + NameLength(raw) <= |raw|
    ensures StatesTheBytes(raw, Parsed(raw, best))
  {
    ConnectionBits(raw[5]);
    PortOf(raw[8..16]);
    TrimRightCuts(Characters(raw[FIXED_BYTES..FIXED_BYTES + NameLength(raw)]), {'\0', ' ', '\t', '\r', '\n'});
  }

  lemma FiveBits(high: nat, low: nat)
    requires low < 32
    ensures (32 * high + low) / 32 == high && (32 * high + low) % 32 == low
  {
  }

  lemma FifteenBits(id: nat)
    ensures id / 1024 == id / 32 / 32
  {
  }

  lemma LettersAt(id: nat, a: nat, b: nat, c: nat)
    requires 1 <= a <= 26 && 1 <= b <= 26 && 1 <= c <= 26
    requires id / 1024 % 32 == a && id / 32 % 32 == b && id % 32 == c
    ensures PnpId(id) == ["ABCDEFGHIJKLMNOPQRSTUVWXYZ"[a - 1], "ABCDEFGHIJKLMNOPQRSTUVWXYZ"[b - 1],
                          "ABCDEFGHIJKLMNOPQRSTUVWXYZ"[c - 1]]
  {
  }

  // Three letters, written as five bits each, come back.
  lemma LettersComeBack(a: nat, b: nat, c: nat)
    requires 1 <= a <= 26 && 1 <= b <= 26 && 1 <= c <= 26
    ensures PnpId(32 * (32 * a + b) + c) == ["ABCDEFGHIJKLMNOPQRSTUVWXYZ"[a - 1], "ABCDEFGHIJKLMNOPQRSTUVWXYZ"[b - 1],
                                             "ABCDEFGHIJKLMNOPQRSTUVWXYZ"[c - 1]]
  {
    var id := 32 * (32 * a + b) + c;
    FiveBits(32 * a + b, c);
    FiveBits(a, b);
    FiveBits(0, a);
    FifteenBits(id);
    LettersAt(id, a, b, c);
  }

  const Unread := Block(0, "", "", 0, "", 0, 0, 0, "", 0, 0)

  // The block, and why it is not accepted. A descriptor that runs past the end
  // keeps what was read before it.
  method ParseELD(raw: seq<Byte>) returns (block: Block, error: Option<string>)
    ensures error.None? <==> Accepted(raw)
    ensures error.None? ==> block == Parsed(raw, Best(raw, FIXED_BYTES + NameLength(raw), DescriptorCount(raw)))
    ensures error.None? ==> StatesTheBytes(raw, block)
  {
    if |raw| < FIXED_BYTES {
      return Unread, Some("the block is too short");
    }
    var version := Version(raw);
    if version != 2 && version != 31 {
      return Unread, Some("the version is not one this parser reads");
    }
    var nameLength := NameLength(raw);
    if nameLength > MAX_NAME {
      return Unread, Some("the monitor name length is a reserved value");
    }
    if FIXED_BYTES + nameLength > |raw| {
      return Unread, Some("the monitor name runs past the end");
    }
    var start := FIXED_BYTES + nameLength;
    var best, complete := ReadDescriptors(raw, start, DescriptorCount(raw));
    if !complete {
      return Parsed(raw, best), Some("a descriptor runs past the end");
    }
    ParsedStatesTheBytes(raw, best);
    return Parsed(raw, best), None;
  }

  // The descriptor loop. It stops at one that runs past the end, with what it
  // read before.
  method ReadDescriptors(raw: seq<Byte>, start: nat, count: nat) returns (best: Lpcm, complete: bool)
    requires start <= |raw|
    ensures complete <==> start + 3 * count <= |raw|
    ensures complete ==> best == Best(raw, start, count)
  {
    best := Lpcm(0, 0, 0);
    for i := 0 to count
      invariant start + 3 * i <= |raw|
      invariant best == Best(raw, start, i)
    {
      if start + 3 * i + 3 > |raw| {
        return best, false;
      }
      var descriptor := raw[start + 3 * i..start + 3 * i + 3];
      if IsLpcm(descriptor) {
        var rate := MaxSampleRate(descriptor[1]);
        best := Lpcm(Max(best.channels, Channels(descriptor)), Max(best.rate, rate),
          best.depths | (descriptor[2] & 0x7));
      }
    }
    complete := true;
  }

  // The highest rate that a bitmap names: one of the seven, and no lower than any
  // that it names.
  lemma {:induction false} HighestRate(rates: Byte, n: nat)
    requires n <= 7
    ensures forall i :: 0 <= i < n && HasBit(rates, i) ==> SAMPLE_RATES[i] <= MaxRate(rates, n)
    ensures MaxRate(rates, n) == 0 || exists i :: 0 <= i < n && HasBit(rates, i) && SAMPLE_RATES[i] == MaxRate(rates, n)
  {
    if n > 0 {
      HighestRate(rates, n - 1);
      assert SAMPLE_RATES[n - 1] > 0;
    }
  }

  // The rates that the seven bits name.
  lemma TheSevenRates(rates: Byte)
    ensures MaxRate(rates, 7)
         == if HasBit(rates, 6) then 192000 else if HasBit(rates, 5) then 176400
            else if HasBit(rates, 4) then 96000 else if HasBit(rates, 3) then 88200
            else if HasBit(rates, 2) then 48000 else if HasBit(rates, 1) then 44100
            else if HasBit(rates, 0) then 32000 else 0
  {
    assert MaxRate(rates, 1) == if HasBit(rates, 0) then 32000 else 0;
    assert MaxRate(rates, 2) == if HasBit(rates, 1) then 44100 else MaxRate(rates, 1);
    assert MaxRate(rates, 3) == if HasBit(rates, 2) then 48000 else MaxRate(rates, 2);
    assert MaxRate(rates, 4) == if HasBit(rates, 3) then 88200 else MaxRate(rates, 3);
    assert MaxRate(rates, 5) == if HasBit(rates, 4) then 96000 else MaxRate(rates, 4);
    assert MaxRate(rates, 6) == if HasBit(rates, 5) then 176400 else MaxRate(rates, 5);
  }

  // A descriptor's coding type, the fifteen of the four bits above the channels.
  predicate StatesLpcm(d: seq<Byte>)
    requires |d| == 3
  {
    d[0] & 0x78 == 0x08
  }

  lemma LpcmBits(d: seq<Byte>)
    requires |d| == 3
    ensures IsLpcm(d) <==> StatesLpcm(d)
  {
    CodingType(d[0]);
  }

  lemma CodingType(b: Byte)
    ensures (b >> 3) & 0xf == 1 <==> b & 0x78 == 0x08
  {
  }

  // The slice answers for the monitor at its best: no uncompressed descriptor
  // states more channels, a higher rate, or a depth that the block leaves out, and
  // some descriptor states the channels.
  lemma {:induction false} BestIsBest(raw: seq<Byte>, start: nat, n: nat)
    requires start + 3 * n <= |raw|
    ensures var best := Best(raw, start, n);
            && best.depths & 0xf8 == 0
            && (forall k :: 0 <= k < n && StatesLpcm(Descriptor(raw, start, k)) ==>
                  var d := Descriptor(raw, start, k);
                  && Value(d[0] & 0x7) + 1 <= best.channels
                  && (forall i :: 0 <= i < 7 && HasBit(d[1], i) ==> SAMPLE_RATES[i] <= best.rate)
                  && d[2] & 0x7 & best.depths == d[2] & 0x7)
            && (best.channels > 0 ==> exists k :: 0 <= k < n && StatesLpcm(Descriptor(raw, start, k))
                                                  && Value(Descriptor(raw, start, k)[0] & 0x7) + 1 == best.channels)
  {
    if n > 0 {
      BestIsBest(raw, start, n - 1);
      var d := Descriptor(raw, start, n - 1);
      LpcmBits(d);
      HighestRate(d[1], 7);
      DepthUnion(Best(raw, start, n - 1).depths, d[2]);
      forall k | 0 <= k < n - 1 && StatesLpcm(Descriptor(raw, start, k))
        ensures Descriptor(raw, start, k)[2] & 0x7 & Best(raw, start, n).depths == Descriptor(raw, start, k)[2] & 0x7
      {
        DepthStays(Descriptor(raw, start, k)[2], Best(raw, start, n - 1).depths, d[2]);
      }
    }
  }

  function Descriptor(raw: seq<Byte>, start: nat, k: nat): (d: seq<Byte>)
    requires start + 3 * k + 3 <= |raw|
    ensures |d| == 3
  {
    raw[start + 3 * k..start + 3 * (k + 1)]
  }

  lemma DepthUnion(depths: Byte, more: Byte)
    requires depths & 0xf8 == 0
    ensures (depths | (more & 0x7)) & 0xf8 == 0 && (more & 0x7) & (depths | (more & 0x7)) == more & 0x7
  {
  }

  lemma DepthStays(some: Byte, depths: Byte, more: Byte)
    requires some & 0x7 & depths == some & 0x7
    ensures some & 0x7 & (depths | (more & 0x7)) == some & 0x7
  {
  }
}
