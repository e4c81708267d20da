// The devices that a slice publishes of the card's endpoints, and the seeds
// that the next operator reads back out of them.
// audio-operator/devices.go and monitorhold.go.
module Devices {
  import opened Basics
  import opened Text
  import opened Elds
  import opened Sorting

  // One PCM device of a card in one direction, as a pass reads it.
  datatype Endpoint = Endpoint(card: int, pcm: int, capture: bool, hdmi: bool, monitor: bool, eld: Block,
                               usb: bool, name: string)

  // The names of the attributes. Each is another word in the slice.
  datatype Key = SinkKey | SourceKey | CardKey | PcmKey | ConnectionTypeKey | ManufacturerKey | ProductKey
    | MonitorNameKey | LpcmChannelsKey | LpcmMaxRateHzKey | LpcmBitDepthsKey | SpeakersKey | EldVersionKey
    | PortIdKey | PairingKey | NodeNameKey

  datatype Attribute = Str(text: string) | Int(number: int) | Flag(value: bool)

  datatype Taint = Disconnected | NoMonitor | NoSink

  datatype SliceDevice = SliceDevice(name: string, attributes: map<Key, Attribute>, taints: seq<Taint>)

  const MAX_ATTRIBUTE := 64
  const TWO_63 := 0x8000_0000_0000_0000
  const TWO_64 := 0x1_0000_0000_0000_0000

  // A value cut to the API's limit on a string attribute.
  function AttributeString(s: string): string {
    if |s| <= MAX_ATTRIBUTE then s else s[..MAX_ATTRIBUTE]
  }

  // A 64-bit unsigned number as the signed one with its bits, and back.
  function Signed(n: nat): int
    requires n < TWO_64
  {
    if n < TWO_63 then n else n - TWO_64
  }

  function Unsigned(i: int): nat {
    i % TWO_64
  }

  function LowerCase(s: string): string {
    if s == [] then [] else [if 'A' <= s[0] <= 'Z' then DigitLetter(s[0]) else s[0]] + LowerCase(s[1..])
  }

  function DigitLetter(c: char): char
    requires 'A' <= c <= 'Z'
  {
    (c as int + 32) as char
  }

  function Dashed(name: string): string {
    Join(Fields(LowerCase(name)), "-")
  }

  // The pairing value: the manufacturer, the product, and the monitor's name.
  function MonitorId(b: Block): string
    requires b.product < 0x1_0000
  {
    var manufacturer := LowerCase(TrimSpace(b.manufacturer));
    if manufacturer == "" then ""
    else
      manufacturer + "-" + Hex4(b.product) + (if Dashed(b.monitorName) != "" then "-" + Dashed(b.monitorName) else "")
  }

  predicate ThreeLetters(s: string) {
    |s| == 3 && 'A' <= s[0] <= 'Z' && 'A' <= s[1] <= 'Z' && 'A' <= s[2] <= 'Z'
  }

  lemma LowerThree(s: string)
    requires ThreeLetters(s)
    ensures LowerCase(TrimSpace(s))
         == [(s[0] as int + 32) as char, (s[1] as int + 32) as char, (s[2] as int + 32) as char]
  {
    assert TrimSpace(s) == s;
    assert LowerCase(s[1..][1..]) == [(s[2] as int + 32) as char] by { assert LowerCase(s[1..][1..][1..]) == []; }
    assert LowerCase(s[1..]) == [(s[1] as int + 32) as char, (s[2] as int + 32) as char];
  }

  lemma HexTellsApart(m: nat, n: nat)
    requires m < 0x1_0000 && n < 0x1_0000 && Hex4(m) == Hex4(n)
    ensures m == n
  {
    NumberOfHex4(m);
    NumberOfHex4(n);
  }

  // The parts of a pairing value, by where they stand in it.
  lemma MonitorIdParts(b: Block)
    requires ThreeLetters(b.manufacturer) && b.product < 0x1_0000
    ensures var id := MonitorId(b);
            && |id| >= 8 && id[..3] == LowerCase(TrimSpace(b.manufacturer)) && id[3] == '-'
            && id[4..8] == Hex4(b.product)
            && id[8..] == if Dashed(b.monitorName) != "" then "-" + Dashed(b.monitorName) else ""
  {
    LowerThree(b.manufacturer);
  }

  lemma LowerTellsApart(s: string, t: string)
    requires ThreeLetters(s) && ThreeLetters(t) && LowerCase(TrimSpace(s)) == LowerCase(TrimSpace(t))
    ensures s == t
  {
    LowerThree(s);
    LowerThree(t);
    var lower := LowerCase(TrimSpace(s));
    assert forall i :: 0 <= i < 3 ==> lower[i] as int - 32 == s[i] as int == t[i] as int;
  }

  lemma TailsTellApart(s: string, t: string)
    requires (if s != "" then "-" + s else "") == (if t != "" then "-" + t else "")
    ensures s == t
  {
    if s != "" { assert ("-" + s)[1..] == s; }
    if t != "" { assert ("-" + t)[1..] == t; }
  }

  // Two monitors have one pairing value exactly when they are one maker's one
  // product under one name, whatever the case and the spaces of the name.
  lemma PairingTellsMonitorsApart(b: Block, c: Block)
    requires ThreeLetters(b.manufacturer) && ThreeLetters(c.manufacturer)
    requires b.product < 0x1_0000 && c.product < 0x1_0000
    ensures MonitorId(b) == MonitorId(c)
            <==> b.manufacturer == c.manufacturer && b.product == c.product
                 && Join(Fields(LowerCase(b.monitorName)), "-") == Join(Fields(LowerCase(c.monitorName)), "-")
  {
    MonitorIdParts(b);
    MonitorIdParts(c);
    if MonitorId(b) == MonitorId(c) {
      LowerTellsApart(b.manufacturer, c.manufacturer);
      HexTellsApart(b.product, c.product);
      TailsTellApart(Dashed(b.monitorName), Dashed(c.monitorName));
    }
  }

  // ---------------------------------------------------------------------------
  // Publishing

  type Attributes = map<Key, Attribute>

  function PutIf(a: Attributes, condition: bool, key: Key, value: Attribute): Attributes {
    if condition then a[key := value] else a
  }

  function DepthNames(b: Block): string {
    Join(BitNames(b.lpcmDepths, DEPTH_NAMES, 3), " ")
  }

  predicate SixteenAndSixtyFour(b: Block) {
    b.product < 0x1_0000 && b.portID < TWO_64
  }

  function MonitorAttributes(a: Attributes, b: Block): Attributes
    requires SixteenAndSixtyFour(b)
  {
    var a1 := PutIf(a, b.manufacturer != "", ManufacturerKey, Str(b.manufacturer));
    var a2 := a1[ProductKey := Str(Hex4(b.product))];
    var a3 := PutIf(a2, b.monitorName != "", MonitorNameKey, Str(AttributeString(b.monitorName)));
    var a4 := PutIf(a3, b.lpcmChannels > 0, LpcmChannelsKey, Int(b.lpcmChannels));
    var a5 := PutIf(a4, b.lpcmMaxRateHz > 0, LpcmMaxRateHzKey, Int(b.lpcmMaxRateHz));
    var a6 := PutIf(a5, DepthNames(b) != "", LpcmBitDepthsKey, Str(AttributeString(DepthNames(b))));
    var a7 := PutIf(a6, b.speakers != "", SpeakersKey, Str(AttributeString(b.speakers)));
    var a8 := a7[EldVersionKey := Int(b.version)];
    var a9 := PutIf(a8, b.portID != 0, PortIdKey, Int(Signed(b.portID)));
    PutIf(a9, MonitorId(b) != "", PairingKey, Str(AttributeString(MonitorId(b))))
  }

  function ConnectionOf(e: Endpoint): string {
    if e.hdmi then (if e.monitor then e.eld.connectionType else "")
    else if e.usb then "usb" else "analog"
  }

  function BaseAttributes(e: Endpoint): Attributes {
    var a := map[(if e.capture then SourceKey else SinkKey) := Str(e.name), CardKey := Int(e.card),
      PcmKey := Int(e.pcm)];
    PutIf(a, ConnectionOf(e) != "", ConnectionTypeKey, Str(ConnectionOf(e)))
  }

  function EndpointAttributes(e: Endpoint): Attributes
    requires SixteenAndSixtyFour(e.eld)
  {
    if e.monitor then MonitorAttributes(BaseAttributes(e), e.eld) else BaseAttributes(e)
  }

  // node is the PipeWire node's name, when the graph holds one.
  function Published(e: Endpoint, node: Option<string>): SliceDevice
    requires SixteenAndSixtyFour(e.eld)
  {
    var unplugged := e.hdmi && !e.monitor;
    var named := node.Some? && |node.value| <= MAX_ATTRIBUTE;
    SliceDevice(e.name, PutIf(EndpointAttributes(e), named, NodeNameKey, Str(node.GetOr(""))),
                (if node.None? || unplugged then [Disconnected] else [])
                + (if unplugged then [NoMonitor] else [])
                + (if node.None? then [NoSink] else []))
  }

  // What a device states, in the words of the slice: which direction, which
  // PCM device, how it is connected, and why it cannot play.
  predicate StatesTheEndpoint(d: SliceDevice, e: Endpoint, node: Option<string>) {
    var a := d.attributes;
    && d.name == e.name
    && (e.capture ==> SourceKey in a && a[SourceKey] == Str(e.name) && SinkKey !in a)
    && (!e.capture ==> SinkKey in a && a[SinkKey] == Str(e.name) && SourceKey !in a)
    && CardKey in a && a[CardKey] == Int(e.card) && PcmKey in a && a[PcmKey] == Int(e.pcm)
    && (NoSink in d.taints <==> node.None?)
    && (NoMonitor in d.taints <==> e.hdmi && !e.monitor)
    && (Disconnected in d.taints <==> node.None? || (e.hdmi && !e.monitor))
    && (NodeNameKey in a <==> node.Some? && |node.value| <= 64)
    && (NodeNameKey in a ==> a[NodeNameKey] == Str(node.value))
  }

  predicate StatesTheConnection(a: Attributes, e: Endpoint) {
    && (!e.hdmi && e.usb ==> ConnectionTypeKey in a && a[ConnectionTypeKey] == Str("usb"))
    && (!e.hdmi && !e.usb ==> ConnectionTypeKey in a && a[ConnectionTypeKey] == Str("analog"))
    && (e.hdmi && !e.monitor ==> ConnectionTypeKey !in a)
    && (e.hdmi && e.monitor ==>
          (ConnectionTypeKey in a <==> e.eld.connectionType != "")
          && (ConnectionTypeKey in a ==> a[ConnectionTypeKey] == Str(e.eld.connectionType)))
  }

  // The text stands under its key, cut to 64 bytes, or is empty and absent.
  predicate StandsCut(a: Attributes, key: Key, text: string) {
    && (key in a <==> text != "")
    && (key in a ==> a[key].Str? && a[key].text <= text && |a[key].text| == if |text| <= 64 then |text| else 64)
  }

  predicate StandsPositive(a: Attributes, key: Key, number: nat) {
    && (key in a <==> number > 0)
    && (key in a ==> a[key] == Int(number))
  }

  // A 64-bit number stands as the signed number with its bits.
  predicate StandsSigned(a: Attributes, key: Key, number: nat) {
    && (key in a <==> number != 0)
    && (key in a ==> a[key].Int? && -0x8000_0000_0000_0000 <= a[key].number < 0x8000_0000_0000_0000
                     && (a[key].number == number || a[key].number == number - 0x1_0000_0000_0000_0000))
  }

  predicate StatesTheMonitor(a: Attributes, b: Block)
    requires SixteenAndSixtyFour(b)
  {
    && (ManufacturerKey in a <==> b.manufacturer != "")
    && (ManufacturerKey in a ==> a[ManufacturerKey] == Str(b.manufacturer))
    && ProductKey in a && a[ProductKey].Str? && |a[ProductKey].text| == 4
    && Number(a[ProductKey].text, 16) == Some(b.product)
    && StandsCut(a, MonitorNameKey, b.monitorName) && StandsCut(a, SpeakersKey, b.speakers)
    && StandsCut(a, LpcmBitDepthsKey, DepthNames(b)) && StandsCut(a, PairingKey, MonitorId(b))
    && StandsPositive(a, LpcmChannelsKey, b.lpcmChannels) && StandsPositive(a, LpcmMaxRateHzKey, b.lpcmMaxRateHz)
    && EldVersionKey in a && a[EldVersionKey] == Int(b.version)
    && StandsSigned(a, PortIdKey, b.portID)
  }

  const MONITOR_KEYS := {ManufacturerKey, ProductKey, MonitorNameKey, LpcmChannelsKey, LpcmMaxRateHzKey,
                         LpcmBitDepthsKey, SpeakersKey, EldVersionKey, PortIdKey, PairingKey}

  predicate NoMonitorKeys(a: Attributes) {
    a.Keys !! MONITOR_KEYS
  }

  lemma OtherKeysStay(a: Attributes, b: Block, key: Key)
    requires SixteenAndSixtyFour(b) && key !in MONITOR_KEYS
    ensures key in MonitorAttributes(a, b) <==> key in a
    ensures key in a ==> MonitorAttributes(a, b)[key] == a[key]
  {
  }

  lemma ManufacturerStands(a: Attributes, b: Block)
    requires SixteenAndSixtyFour(b) && NoMonitorKeys(a)
    ensures var m := MonitorAttributes(a, b);
            && (ManufacturerKey in m <==> b.manufacturer != "")
            && (ManufacturerKey in m ==> m[ManufacturerKey] == Str(b.manufacturer))
  {
  }

  lemma ProductStands(a: Attributes, b: Block)
    requires SixteenAndSixtyFour(b) && NoMonitorKeys(a)
    ensures var m := MonitorAttributes(a, b); ProductKey in m && m[ProductKey] == Str(Hex4(b.product))
  {
  }

  lemma VersionStands(a: Attributes, b: Block)
    requires SixteenAndSixtyFour(b) && NoMonitorKeys(a)
    ensures var m := MonitorAttributes(a, b); EldVersionKey in m && m[EldVersionKey] == Int(b.version)
  {
  }

  lemma MonitorNameStands(a: Attributes, b: Block)
    requires SixteenAndSixtyFour(b) && NoMonitorKeys(a)
    ensures StandsCut(MonitorAttributes(a, b), MonitorNameKey, b.monitorName)
  {
  }

  lemma SpeakersStand(a: Attributes, b: Block)
    requires SixteenAndSixtyFour(b) && NoMonitorKeys(a)
    ensures StandsCut(MonitorAttributes(a, b), SpeakersKey, b.speakers)
  {
  }

  lemma DepthsStand(a: Attributes, b: Block)
    requires SixteenAndSixtyFour(b) && NoMonitorKeys(a)
    ensures StandsCut(MonitorAttributes(a, b), LpcmBitDepthsKey, DepthNames(b))
  {
  }

  lemma PairingStands(a: Attributes, b: Block)
    requires SixteenAndSixtyFour(b) && NoMonitorKeys(a)
    ensures StandsCut(MonitorAttributes(a, b), PairingKey, MonitorId(b))
  {
  }

  lemma NumbersStand(a: Attributes, b: Block)
    requires SixteenAndSixtyFour(b) && NoMonitorKeys(a)
    ensures var m := MonitorAttributes(a, b);
            StandsPositive(m, LpcmChannelsKey, b.lpcmChannels) && StandsPositive(m, LpcmMaxRateHzKey, b.lpcmMaxRateHz)
  {
  }

  lemma PortStands(a: Attributes, b: Block)
    requires SixteenAndSixtyFour(b) && NoMonitorKeys(a)
    ensures StandsSigned(MonitorAttributes(a, b), PortIdKey, b.portID)
  {
  }

  lemma MonitorAttributesState(a: Attributes, b: Block)
    requires SixteenAndSixtyFour(b) && NoMonitorKeys(a)
    ensures StatesTheMonitor(MonitorAttributes(a, b), b)
  {
    ManufacturerStands(a, b);
    ProductStands(a, b);
    VersionStands(a, b);
    NumberOfHex4(b.product);
    MonitorNameStands(a, b);
    SpeakersStand(a, b);
    DepthsStand(a, b);
    PairingStands(a, b);
    NumbersStand(a, b);
    PortStands(a, b);
  }

  lemma TheNodesNameLeavesTheMonitor(m: Attributes, b: Block, condition: bool, name: string)
    requires SixteenAndSixtyFour(b) && StatesTheMonitor(m, b)
    ensures StatesTheMonitor(PutIf(m, condition, NodeNameKey, Str(name)), b)
  {
  }

  lemma EndpointKeys(e: Endpoint, key: Key)
    requires SixteenAndSixtyFour(e.eld) && key !in MONITOR_KEYS
    ensures key in EndpointAttributes(e) <==> key in BaseAttributes(e)
    ensures key in BaseAttributes(e) ==> EndpointAttributes(e)[key] == BaseAttributes(e)[key]
  {
    OtherKeysStay(BaseAttributes(e), e.eld, key);
  }

  lemma PublishedStatesTheEndpoint(e: Endpoint, node: Option<string>)
    requires SixteenAndSixtyFour(e.eld)
    ensures StatesTheEndpoint(Published(e, node), e, node)
  {
    EndpointKeys(e, SinkKey);
    EndpointKeys(e, SourceKey);
    EndpointKeys(e, CardKey);
    EndpointKeys(e, PcmKey);
    EndpointKeys(e, NodeNameKey);
  }

  lemma PublishedStatesTheConnection(e: Endpoint, node: Option<string>)
    requires SixteenAndSixtyFour(e.eld)
    ensures StatesTheConnection(Published(e, node).attributes, e)
  {
    EndpointKeys(e, ConnectionTypeKey);
  }

  lemma PublishedStatesTheMonitor(e: Endpoint, node: Option<string>)
    requires SixteenAndSixtyFour(e.eld)
    ensures e.monitor ==> StatesTheMonitor(Published(e, node).attributes, e.eld)
    ensures !e.monitor ==> NoMonitorKeys(Published(e, node).attributes)
  {
    if e.monitor {
      MonitorAttributesState(BaseAttributes(e), e.eld);
      TheNodesNameLeavesTheMonitor(MonitorAttributes(BaseAttributes(e), e.eld), e.eld,
                                   node.Some? && |node.value| <= MAX_ATTRIBUTE, node.GetOr(""));
    }
  }

  // A device under construction.
  class Device {
    var name: string
    var attributes: Attributes
    var taints: seq<Taint>

    constructor (name: string, attributes: Attributes)
      ensures this.name == name && this.attributes == attributes && this.taints == []
    {
      this.name, this.attributes, this.taints := name, attributes, [];
    }

    method Put(condition: bool, key: Key, value: Attribute)
      modifies `attributes
      ensures attributes == PutIf(old(attributes), condition, key, value)
    {
      if condition {
        attributes := attributes[key := value];
      }
    }

    method AddMonitorAttributes(b: Block)
      requires SixteenAndSixtyFour(b)
      modifies `attributes
      ensures attributes == MonitorAttributes(old(attributes), b)
    {
      Put(b.manufacturer != "", ManufacturerKey, Str(b.manufacturer));
      Put(true, ProductKey, Str(Hex4(b.product)));
      Put(b.monitorName != "", MonitorNameKey, Str(AttributeString(b.monitorName)));
      Put(b.lpcmChannels > 0, LpcmChannelsKey, Int(b.lpcmChannels));
      Put(b.lpcmMaxRateHz > 0, LpcmMaxRateHzKey, Int(b.lpcmMaxRateHz));
      var depths := NamesOf(b.lpcmDepths, DEPTH_NAMES);
      Put(depths != "", LpcmBitDepthsKey, Str(AttributeString(depths)));
      Put(b.speakers != "", SpeakersKey, Str(AttributeString(b.speakers)));
      Put(true, EldVersionKey, Int(b.version));
      Put(b.portID != 0, PortIdKey, Int(Signed(b.portID)));
      var id := MonitorId(b);
      Put(id != "", PairingKey, Str(AttributeString(id)));
    }

    method PublishNode(node: Option<string>)
      modifies this
      ensures name == old(name)
      ensures attributes
              == PutIf(old(attributes), node.Some? && |node.value| <= MAX_ATTRIBUTE, NodeNameKey, Str(node.GetOr("")))
      ensures taints == old(taints) + if node.None? then [NoSink] else []
    {
      if node.None? {
        taints := taints + [NoSink];
        return;
      }
      if |node.value| > MAX_ATTRIBUTE {
        return;
      }
      attributes := attributes[NodeNameKey := Str(node.value)];
    }
  }

  method Publish(e: Endpoint, node: Option<string>) returns (d: SliceDevice)
    requires SixteenAndSixtyFour(e.eld)
    ensures d == Published(e, node)
  {
    var device := new Device(e.name, map[(if e.capture then SourceKey else SinkKey) := Str(e.name),
                                         CardKey := Int(e.card), PcmKey := Int(e.pcm)]);
    var connection := ConnectionOf(e);
    if connection != "" {
      device.attributes := device.attributes[ConnectionTypeKey := Str(connection)];
    }
    if e.monitor {
      device.AddMonitorAttributes(e.eld);
    }
    var unplugged := e.hdmi && !e.monitor;
    if node.None? || unplugged {
      device.taints := device.taints + [Disconnected];
    }
    if unplugged {
      device.taints := device.taints + [NoMonitor];
    }
    device.PublishNode(node);
    d := SliceDevice(device.name, device.attributes, device.taints);
  }

  // ---------------------------------------------------------------------------
  // Reading back

  function TextOf(a: Attributes, key: Key): string {
    if key in a && a[key].Str? then a[key].text else ""
  }

  function NumberOf(a: Attributes, key: Key): int {
    if key in a && a[key].Int? then a[key].number else 0
  }

  function WithoutPrefix(s: string): string {
    if |s| >= 2 && s[..2] == "0x" then s[2..] else s
  }

  // A published number as the parser's own type holds it.
  function NonNegative(i: int): nat {
    if i < 0 then 0 else i
  }

  function LowByte(n: int): nat {
    n % 256
  }

  // The block that the attributes state, beside the product's code.
  function StatedBlock(a: Attributes, product: nat): Block {
    var speakers := TextOf(a, SpeakersKey);
    Block(LowByte(NumberOf(a, EldVersionKey)), TextOf(a, ConnectionTypeKey), TextOf(a, ManufacturerKey), product,
          TextOf(a, MonitorNameKey),
          NonNegative(NumberOf(a, LpcmChannelsKey)), NonNegative(NumberOf(a, LpcmMaxRateHzKey)),
          BitsNamed(Fields(TextOf(a, LpcmBitDepthsKey)), DEPTH_NAMES, 3),
          speakers, BitsNamed(Fields(speakers), SPEAKER_NAMES, 7), Unsigned(NumberOf(a, PortIdKey)))
  }

  function ReadBack(d: SliceDevice): Option<Block> {
    var a := d.attributes;
    var product := Number(WithoutPrefix(TextOf(a, ProductKey)), 16);
    if EldVersionKey !in a || !a[EldVersionKey].Int? || product.None? || product.value >= 0x1_0000 then None
    else Some(StatedBlock(a, product.value))
  }

  method PublishedELD(d: SliceDevice) returns (block: Option<Block>)
    ensures block == ReadBack(d)
  {
    var a := d.attributes;
    if EldVersionKey !in a || !a[EldVersionKey].Int? {
      return None;
    }
    var product := Number(WithoutPrefix(TextOf(a, ProductKey)), 16);
    if product.None? || product.value >= 0x1_0000 {
      return None;
    }
    var allocation := MaskOf(TextOf(a, SpeakersKey), SPEAKER_NAMES);
    var depths := MaskOf(TextOf(a, LpcmBitDepthsKey), DEPTH_NAMES);
    return Some(Block(LowByte(NumberOf(a, EldVersionKey)), TextOf(a, ConnectionTypeKey), TextOf(a, ManufacturerKey),
                      product.value, TextOf(a, MonitorNameKey),
                      NonNegative(NumberOf(a, LpcmChannelsKey)), NonNegative(NumberOf(a, LpcmMaxRateHzKey)),
                      depths, TextOf(a, SpeakersKey), allocation, Unsigned(NumberOf(a, PortIdKey))));
  }

  // What a block that the parser accepts is like.
  predicate IsParsed(b: Block) {
    && b.version in {2, 31} && SixteenAndSixtyFour(b)
    && |b.monitorName| <= MAX_NAME
    && b.lpcmDepths & 0xf8 == 0 && b.speakerAllocation & 0x80 == 0
    && b.speakers == Join(BitNames(b.speakerAllocation, SPEAKER_NAMES, 7), " ")
  }

  lemma ParsedIsParsed(raw: seq<Byte>)
    requires Accepted(raw)
    ensures IsParsed(Parsed(raw, Best(raw, FIXED_BYTES + NameLength(raw), DescriptorCount(raw))))
  {
    BestIsBest(raw, FIXED_BYTES + NameLength(raw), DescriptorCount(raw));
  }

  // ---------------------------------------------------------------------------
  // The length of a list of names

  function Weight(parts: seq<string>): nat {
    if parts == [] then 0 else Weight(parts[..|parts| - 1]) + |parts[|parts| - 1]| + 1
  }

  lemma {:induction false} WeightFromFront(parts: seq<string>)
    requires parts != []
    ensures Weight(parts) == |parts[0]| + 1 + Weight(parts[1..])
  {
    if |parts| > 1 {
      var n := |parts| - 1;
      WeightFromFront(parts[..n]);
      assert parts[1..][..n - 1] == parts[..n][1..];
    }
  }

  lemma {:induction false} JoinIsShort(parts: seq<string>)
    ensures |Join(parts, " ")| <= Weight(parts)
  {
    if parts != [] {
      WeightFromFront(parts);
      JoinIsShort(parts[1..]);
    }
  }

  lemma {:induction false} FewerNamesWeighLess(mask: Byte, names: seq<string>, n: nat)
    requires n <= |names| <= 8
    ensures Weight(BitNames(mask, names, n)) <= Weight(names[..n])
  {
    if n > 0 {
      FewerNamesWeighLess(mask, names, n - 1);
      assert names[..n][..n - 1] == names[..n - 1];
      var before := BitNames(mask, names, n - 1);
      assert (before + [names[n - 1]])[..|before|] == before;
    }
  }

  lemma NamesFit(mask: Byte, names: seq<string>)
    requires |names| <= 8 && Weight(names) <= MAX_ATTRIBUTE
    ensures AttributeString(Join(BitNames(mask, names, |names|), " ")) == Join(BitNames(mask, names, |names|), " ")
  {
    FewerNamesWeighLess(mask, names, |names|);
    assert names[..|names|] == names;
    JoinIsShort(BitNames(mask, names, |names|));
  }

  // ---------------------------------------------------------------------------
  // The round trip

  lemma AttributeStays(a: Attributes, condition: bool, key: Key, value: Attribute, other: Key)
    requires key != other
    ensures other in PutIf(a, condition, key, value) <==> other in a
    ensures other in a ==> PutIf(a, condition, key, value)[other] == a[other]
  {
  }

  // The attributes state a block: each reads as the block's own fact.
  predicate States(m: Attributes, b: Block)
    requires SixteenAndSixtyFour(b)
  {
    && TextOf(m, ManufacturerKey) == b.manufacturer
    && TextOf(m, ProductKey) == Hex4(b.product)
    && TextOf(m, MonitorNameKey) == AttributeString(b.monitorName)
    && NumberOf(m, LpcmChannelsKey) == b.lpcmChannels
    && NumberOf(m, LpcmMaxRateHzKey) == b.lpcmMaxRateHz
    && TextOf(m, LpcmBitDepthsKey) == AttributeString(DepthNames(b))
    && TextOf(m, SpeakersKey) == AttributeString(b.speakers)
    && EldVersionKey in m && m[EldVersionKey] == Int(b.version)
    && NumberOf(m, PortIdKey) == (if b.portID == 0 then 0 else Signed(b.portID))
    && TextOf(m, ConnectionTypeKey) == b.connectionType
  }

  lemma StandingReads(m: Attributes, key: Key, text: string)
    requires StandsCut(m, key, text)
    ensures TextOf(m, key) == AttributeString(text)
  {
  }

  lemma MonitorStates(a: Attributes, b: Block)
    requires SixteenAndSixtyFour(b) && NoMonitorKeys(a) && TextOf(a, ConnectionTypeKey) == b.connectionType
    ensures States(MonitorAttributes(a, b), b)
  {
    var m := MonitorAttributes(a, b);
    ManufacturerStands(a, b);
    ProductStands(a, b);
    VersionStands(a, b);
    MonitorNameStands(a, b);
    StandingReads(m, MonitorNameKey, b.monitorName);
    SpeakersStand(a, b);
    StandingReads(m, SpeakersKey, b.speakers);
    DepthsStand(a, b);
    StandingReads(m, LpcmBitDepthsKey, DepthNames(b));
    NumbersStand(a, b);
    PortStands(a, b);
    OtherKeysStay(a, b, ConnectionTypeKey);
  }

  lemma NodeNameLeavesTheBlock(m: Attributes, b: Block, condition: bool, name: string)
    requires SixteenAndSixtyFour(b) && States(m, b)
    ensures States(PutIf(m, condition, NodeNameKey, Str(name)), b)
  {
  }

  // The depth bits above the third, and the speaker bit above the seventh.
  lemma UpperBitsAreClear(b: Block)
    requires IsParsed(b)
    ensures forall k :: 3 <= k < 8 ==> !HasBit(b.lpcmDepths, k)
    ensures forall k :: 7 <= k < 8 ==> !HasBit(b.speakerAllocation, k)
  {
    UpperDepths(b.lpcmDepths);
  }

  lemma UpperDepths(depths: Byte)
    requires depths & 0xf8 == 0
    ensures depths & 8 == 0 && depths & 16 == 0 && depths & 32 == 0 && depths & 64 == 0 && depths & 128 == 0
  {
  }

  lemma SpeakersFit()
    ensures Weight(SPEAKER_NAMES) <= MAX_ATTRIBUTE && AllWords(SPEAKER_NAMES) && Distinct(SPEAKER_NAMES)
  {
    assert Weight(SPEAKER_NAMES[..1]) == 6;
    assert Weight(SPEAKER_NAMES[..2]) == 10 by { assert SPEAKER_NAMES[..2][..1] == SPEAKER_NAMES[..1]; }
    assert Weight(SPEAKER_NAMES[..3]) == 13 by { assert SPEAKER_NAMES[..3][..2] == SPEAKER_NAMES[..2]; }
    assert Weight(SPEAKER_NAMES[..4]) == 19 by { assert SPEAKER_NAMES[..4][..3] == SPEAKER_NAMES[..3]; }
    assert Weight(SPEAKER_NAMES[..5]) == 22 by { assert SPEAKER_NAMES[..5][..4] == SPEAKER_NAMES[..4]; }
    assert Weight(SPEAKER_NAMES[..6]) == 30 by { assert SPEAKER_NAMES[..6][..5] == SPEAKER_NAMES[..5]; }
    assert Weight(SPEAKER_NAMES) == 38 by { assert SPEAKER_NAMES[..|SPEAKER_NAMES| - 1] == SPEAKER_NAMES[..6]; }
  }

  lemma DepthsFit()
    ensures Weight(DEPTH_NAMES) <= MAX_ATTRIBUTE && AllWords(DEPTH_NAMES) && Distinct(DEPTH_NAMES)
  {
    assert Weight(DEPTH_NAMES[..1]) == 3;
    assert Weight(DEPTH_NAMES[..2]) == 6 by { assert DEPTH_NAMES[..2][..1] == DEPTH_NAMES[..1]; }
    assert Weight(DEPTH_NAMES) == 9 by { assert DEPTH_NAMES[..|DEPTH_NAMES| - 1] == DEPTH_NAMES[..2]; }
  }

  lemma DepthsReadBack(b: Block)
    requires IsParsed(b)
    ensures BitsNamed(Fields(AttributeString(DepthNames(b))), DEPTH_NAMES, 3) == b.lpcmDepths
  {
    DepthsFit();
    UpperBitsAreClear(b);
    NamesFit(b.lpcmDepths, DEPTH_NAMES);
    NamesReadBack(b.lpcmDepths, DEPTH_NAMES);
  }

  lemma SpeakersReadBack(b: Block)
    requires IsParsed(b)
    ensures AttributeString(b.speakers) == b.speakers
    ensures BitsNamed(Fields(b.speakers), SPEAKER_NAMES, 7) == b.speakerAllocation
  {
    SpeakersFit();
    UpperBitsAreClear(b);
    NamesFit(b.speakerAllocation, SPEAKER_NAMES);
    NamesReadBack(b.speakerAllocation, SPEAKER_NAMES);
  }

  lemma ProductReadsBack(product: nat)
    requires product < 0x1_0000
    ensures Number(WithoutPrefix(Hex4(product)), 16) == Some(product)
    ensures Number(WithoutPrefix("0x" + Hex4(product)), 16) == Some(product)
  {
    NumberOfHex4(product);
    Hex4HasNoPrefix(product);
    assert ("0x" + Hex4(product))[2..] == Hex4(product);
  }

  lemma PortReadsBack(port: nat)
    requires port < TWO_64
    ensures Unsigned(if port == 0 then 0 else Signed(port)) == port
  {
  }

  lemma TheStatedBlock(a: Attributes, b: Block)
    requires IsParsed(b) && States(a, b)
    ensures StatedBlock(a, b.product) == b
  {
    DepthsReadBack(b);
    SpeakersReadBack(b);
    PortReadsBack(b.portID);
  }

  lemma StatedBlockReadsBack(d: SliceDevice, b: Block)
    requires IsParsed(b) && States(d.attributes, b)
    ensures ReadBack(d) == Some(b)
  {
    ProductReadsBack(b.product);
    TheStatedBlock(d.attributes, b);
  }

  // Every accepted block of a lit slot reads back from the published device,
  // whatever its node is.
  lemma PublishedReadsBack(e: Endpoint, node: Option<string>)
    requires e.hdmi && e.monitor && IsParsed(e.eld)
    ensures ReadBack(Published(e, node)) == Some(e.eld)
  {
    var a := BaseAttributes(e);
    MonitorStates(a, e.eld);
    NodeNameLeavesTheBlock(MonitorAttributes(a, e.eld), e.eld, node.Some? && |node.value| <= MAX_ATTRIBUTE,
                           node.GetOr(""));
    StatedBlockReadsBack(Published(e, node), e.eld);
  }

  // ---------------------------------------------------------------------------
  // The slice, and the seeds that the next operator takes from it

  datatype Direction = Sink | Source | Neither

  datatype Address = Address(card: int, pcm: int, direction: Direction)

  function AddressOf(e: Endpoint): Address {
    Address(e.card, e.pcm, if e.capture then Source else Sink)
  }

  predicate Publishable(outputs: seq<Endpoint>) {
    forall i :: 0 <= i < |outputs| ==> SixteenAndSixtyFour(outputs[i].eld)
  }

  function NodeOf(e: Endpoint, nodes: map<Address, string>): Option<string> {
    if AddressOf(e) in nodes then Some(nodes[AddressOf(e)]) else None
  }

  predicate ByName(a: SliceDevice, b: SliceDevice) {
    NameUpTo(a.name, b.name)
  }

  lemma ByNameIsAPreorder()
    ensures TotalPreorder(ByName)
  {
    NamesAreAPreorder();
    forall a, b ensures ByName(a, b) || ByName(b, a) { assert NameUpTo(a.name, b.name) || NameUpTo(b.name, a.name); }
    forall a, b, c | ByName(a, b) && ByName(b, c) ensures ByName(a, c) {
      assert NameUpTo(a.name, b.name) && NameUpTo(b.name, c.name);
    }
  }

  function DevicesOf(outputs: seq<Endpoint>, nodes: map<Address, string>): (devices: seq<SliceDevice>)
    requires Publishable(outputs)
    ensures |devices| == |outputs|
    ensures forall i :: 0 <= i < |outputs| ==> devices[i] == Published(outputs[i], NodeOf(outputs[i], nodes))
  {
    seq(|outputs|, i requires 0 <= i < |outputs| => Published(outputs[i], NodeOf(outputs[i], nodes)))
  }

  function Slice(outputs: seq<Endpoint>, nodes: map<Address, string>): seq<SliceDevice>
    requires Publishable(outputs)
  {
    ByNameIsAPreorder();
    Sorted(DevicesOf(outputs, nodes), ByName)
  }

  method SliceDevices(outputs: seq<Endpoint>, nodes: map<Address, string>) returns (devices: seq<SliceDevice>)
    requires Publishable(outputs)
    ensures devices == Slice(outputs, nodes)
  {
    ghost var all := DevicesOf(outputs, nodes);
    devices := [];
    for i := 0 to |outputs|
      invariant devices == all[..i]
    {
      var d := Publish(outputs[i], NodeOf(outputs[i], nodes));
      assert d == all[i];
      devices := devices + [d];
    }
    assert devices == all;
    ByNameIsAPreorder();
    devices := Sorted(devices, ByName);
  }

  // Where the graph holds the node of an endpoint: by its card, its PCM device and
  // its direction.
  predicate IsNodeOf(node: Option<string>, e: Endpoint, nodes: map<Address, string>) {
    var address := Address(e.card, e.pcm, if e.capture then Source else Sink);
    && (node.Some? <==> address in nodes)
    && (address in nodes ==> node == Some(nodes[address]))
  }

  lemma TheNodeOf(node: Option<string>, e: Endpoint, nodes: map<Address, string>)
    ensures IsNodeOf(node, e, nodes) <==> node == NodeOf(e, nodes)
  {
  }

  lemma TheDeviceOf(outputs: seq<Endpoint>, nodes: map<Address, string>, d: SliceDevice)
    requires Publishable(outputs)
    ensures d in Slice(outputs, nodes)
            <==> exists i :: 0 <= i < |outputs| && d == Published(outputs[i], NodeOf(outputs[i], nodes))
  {
    ByNameIsAPreorder();
    SameMembers(DevicesOf(outputs, nodes), ByName, d);
    var all := DevicesOf(outputs, nodes);
    assert d in all <==> exists i :: 0 <= i < |all| && all[i] == d;
  }

  // The device of each endpoint is published with its own node, and no other is.
  lemma WhatTheSliceHolds(outputs: seq<Endpoint>, nodes: map<Address, string>, d: SliceDevice)
    requires Publishable(outputs)
    ensures d in Slice(outputs, nodes)
            <==> exists i, node :: 0 <= i < |outputs| && IsNodeOf(node, outputs[i], nodes)
                                   && d == Published(outputs[i], node)
  {
    TheDeviceOf(outputs, nodes, d);
    forall i, node | 0 <= i < |outputs|
      ensures IsNodeOf(node, outputs[i], nodes) <==> node == NodeOf(outputs[i], nodes)
    {
      TheNodeOf(node, outputs[i], nodes);
    }
  }

  // And they stand in the order of their names.
  lemma TheSliceIsInOrder(outputs: seq<Endpoint>, nodes: map<Address, string>, i: nat, j: nat)
    requires Publishable(outputs) && i < j < |outputs|
    ensures var slice := Slice(outputs, nodes);
            && |slice| == |outputs|
            && (slice[i].name == slice[j].name || NameBefore(slice[i].name, slice[j].name))
  {
    ByNameIsAPreorder();
    var slice := Slice(outputs, nodes);
    assert ByName(slice[i], slice[j]);
    NamesAreOrdered(slice[i].name, slice[j].name, "");
  }

  function SeedOf(d: SliceDevice): Option<Block> {
    if NoMonitor in d.taints then None else ReadBack(d)
  }

  function SeedsOf(devices: seq<SliceDevice>): map<string, Block> {
    if devices == [] then map[]
    else
      var d := devices[|devices| - 1];
      var before := SeedsOf(devices[..|devices| - 1]);
      if SeedOf(d).Some? then before[d.name := SeedOf(d).value] else before
  }

  method MonitorSeeds(devices: seq<SliceDevice>) returns (seeds: map<string, Block>)
    ensures seeds == SeedsOf(devices)
  {
    seeds := map[];
    for i := 0 to |devices|
      invariant seeds == SeedsOf(devices[..i])
    {
      assert devices[..i + 1][..i] == devices[..i];
      if NoMonitor in devices[i].taints {
        continue;
      }
      var block := PublishedELD(devices[i]);
      if block.Some? {
        seeds := seeds[devices[i].name := block.value];
      }
    }
    assert devices[..|devices|] == devices;
  }

  predicate NamedApart(devices: seq<SliceDevice>) {
    forall i, j :: 0 <= i < j < |devices| ==> devices[i].name != devices[j].name
  }

  // A name has a seed exactly when some device of it gives one.
  lemma {:induction false} SeededNames(devices: seq<SliceDevice>, name: string)
    ensures name in SeedsOf(devices) <==>
              exists k :: 0 <= k < |devices| && devices[k].name == name && SeedOf(devices[k]).Some?
  {
    if devices != [] {
      var n := |devices| - 1;
      var front := devices[..n];
      SeededNames(front, name);
      assert forall k :: 0 <= k < n ==> front[k] == devices[k];
      if k :| 0 <= k < n && devices[k].name == name && SeedOf(devices[k]).Some? {
        assert front[k].name == name;
      }
    }
  }

  lemma {:induction false} SeedOfEach(devices: seq<SliceDevice>, k: nat)
    requires NamedApart(devices) && k < |devices| && SeedOf(devices[k]).Some?
    ensures devices[k].name in SeedsOf(devices) && SeedsOf(devices)[devices[k].name] == SeedOf(devices[k]).value
  {
    var n := |devices| - 1;
    if k < n {
      var front := devices[..n];
      assert front[k] == devices[k];
      SeedOfEach(front, k);
      assert devices[n].name != devices[k].name;
    }
  }

  lemma SeedOfOne(devices: seq<SliceDevice>, k: nat)
    requires NamedApart(devices) && k < |devices|
    ensures devices[k].name in SeedsOf(devices) <==> SeedOf(devices[k]).Some?
    ensures SeedOf(devices[k]).Some? ==> SeedsOf(devices)[devices[k].name] == SeedOf(devices[k]).value
  {
    SeededNames(devices, devices[k].name);
    if SeedOf(devices[k]).Some? {
      SeedOfEach(devices, k);
    } else {
      assert forall j :: 0 <= j < |devices| && devices[j].name == devices[k].name ==> j == k;
    }
  }

  // A monitor answers on HDMI and DisplayPort playback slots alone, and each
  // lit slot holds a block that the parser accepted.
  predicate AsRead(e: Endpoint) {
    SixteenAndSixtyFour(e.eld) && (e.monitor ==> e.hdmi && !e.capture && IsParsed(e.eld))
  }

  lemma UnlitHasNoVersion(e: Endpoint)
    ensures EldVersionKey !in BaseAttributes(e)
  {
  }

  lemma UnlitReadsNothing(e: Endpoint, node: Option<string>)
    requires SixteenAndSixtyFour(e.eld) && !e.monitor
    ensures ReadBack(Published(e, node)).None?
  {
    UnlitHasNoVersion(e);
    AttributeStays(BaseAttributes(e), node.Some? && |node.value| <= MAX_ATTRIBUTE, NodeNameKey, Str(node.GetOr("")),
      EldVersionKey);
    assert EldVersionKey !in Published(e, node).attributes;
  }

  lemma LitHasNoTaint(e: Endpoint, node: Option<string>)
    requires SixteenAndSixtyFour(e.eld) && e.monitor
    ensures NoMonitor !in Published(e, node).taints
  {
  }

  lemma SeedOfPublished(e: Endpoint, node: Option<string>)
    requires AsRead(e)
    ensures SeedOf(Published(e, node)) == if e.monitor then Some(e.eld) else None
  {
    if e.monitor {
      PublishedReadsBack(e, node);
      LitHasNoTaint(e, node);
    } else {
      UnlitReadsNothing(e, node);
    }
  }

  predicate EndpointsNamedApart(outputs: seq<Endpoint>) {
    forall i, j :: 0 <= i < j < |outputs| ==> outputs[i].name != outputs[j].name
  }

  // A sort by name keeps the devices, and keeps different names apart.
  lemma SortedStayApart(list: seq<SliceDevice>)
    requires NamedApart(list)
    ensures TotalPreorder(ByName) && NamedApart(Sorted(list, ByName))
    ensures forall d :: d in Sorted(list, ByName) <==> d in list
  {
    ByNameIsAPreorder();
    var sorted := Sorted(list, ByName);
    forall d ensures d in sorted <==> d in list { SameMembers(list, ByName, d); }
    assert Distinct(list);
    SameMembersStayDistinct(list, sorted);
    forall i, j | 0 <= i < j < |sorted| ensures sorted[i].name != sorted[j].name {
      assert sorted[i] in list && sorted[j] in list;
    }
  }

  lemma PublishedName(e: Endpoint, node: Option<string>)
    requires SixteenAndSixtyFour(e.eld)
    ensures Published(e, node).name == e.name
  {
  }

  lemma SliceHoldsEachOutput(outputs: seq<Endpoint>, nodes: map<Address, string>)
    requires EndpointsNamedApart(outputs) && Publishable(outputs)
    ensures NamedApart(Slice(outputs, nodes))
    ensures forall d :: d in Slice(outputs, nodes) <==> d in DevicesOf(outputs, nodes)
  {
    var list := DevicesOf(outputs, nodes);
    forall i | 0 <= i < |list| ensures list[i].name == outputs[i].name {
      PublishedName(outputs[i], NodeOf(outputs[i], nodes));
    }
    SortedStayApart(list);
  }

  // The operator that starts next seeds its hold with exactly the slots that
  // were published with a monitor, and with the very block of each.
  lemma SeedsAreTheLitSlots(outputs: seq<Endpoint>, nodes: map<Address, string>)
    requires EndpointsNamedApart(outputs) && forall i :: 0 <= i < |outputs| ==> AsRead(outputs[i])
    ensures Publishable(outputs)
    ensures forall i :: 0 <= i < |outputs| ==>
              var seeds := SeedsOf(Slice(outputs, nodes));
              && (outputs[i].name in seeds <==> outputs[i].monitor)
              && (outputs[i].monitor ==> seeds[outputs[i].name] == outputs[i].eld)
    ensures forall name :: name in SeedsOf(Slice(outputs, nodes)) ==>
              exists i :: 0 <= i < |outputs| && outputs[i].name == name
  {
    var list, slice := DevicesOf(outputs, nodes), Slice(outputs, nodes);
    SliceHoldsEachOutput(outputs, nodes);
    forall i | 0 <= i < |outputs|
      ensures outputs[i].name in SeedsOf(slice) <==> outputs[i].monitor
      ensures outputs[i].monitor ==> SeedsOf(slice)[outputs[i].name] == outputs[i].eld
    {
      SeedOfPublished(outputs[i], NodeOf(outputs[i], nodes));
      PublishedName(outputs[i], NodeOf(outputs[i], nodes));
      assert list[i] in list;
      var k :| 0 <= k < |slice| && slice[k] == list[i];
      SeedOfOne(slice, k);
    }
    forall name | name in SeedsOf(slice) ensures exists i :: 0 <= i < |outputs| && outputs[i].name == name {
      SeededNames(slice, name);
      var k :| 0 <= k < |slice| && slice[k].name == name;
      assert slice[k] in list;
      var i :| 0 <= i < |list| && list[i] == slice[k];
      PublishedName(outputs[i], NodeOf(outputs[i], nodes));
    }
  }
}
