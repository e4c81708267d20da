// The counts of a Target's sequences: how a promotion report sets them, how an
// edit of the spec keeps them, and what is left to image.
// astrophotography-operator/promotionstatus.go and progress.go.
module Sequences {
  import opened Basics

  // An exposure as a person wrote it, with the length that the duration parser
  // reads out of it, or none when it does not parse.
  datatype Length = Length(text: string, seconds: Option<real>)

  datatype Sequence = Sequence(filter: string, exposure: Length, count: int,
                               binning: Option<int>, gain: Option<int>, offset: Option<int>)

  datatype Progress = Progress(sequence: Sequence, archived: nat, pending: nat)

  // The settings in one frame's header, and the catalog's count of frames with
  // one combination of them.
  datatype FrameSettings = FrameSettings(filter: string, exposureSeconds: real, binning: int,
                                         gain: Option<real>, offset: Option<real>)

  datatype Total = Total(settings: FrameSettings, frames: nat)

  // ---------------------------------------------------------------------------
  // Which frames a sequence takes

  // Whether two sequences take the same frames, whatever their counts. The
  // length that a text parses to comes with the text.
  predicate SameSettings(a: Sequence, b: Sequence) {
    && a.filter == b.filter && a.exposure == b.exposure
    && a.binning == b.binning && a.gain == b.gain && a.offset == b.offset
  }

  predicate OptionalMatches(want: Option<int>, got: Option<real>) {
    want.None? || (got.Some? && want.value as real == got.value)
  }

  function Distance(a: real, b: real): real {
    if a < b then b - a else a - b
  }

  // A setting the sequence leaves out matches every value.
  predicate CountsToward(s: Sequence, frame: FrameSettings) {
    && s.exposure.seconds.Some?
    && (s.filter == "" || s.filter == frame.filter)
    && Distance(s.exposure.seconds.value, frame.exposureSeconds) < 0.0005
    && (s.binning.None? || s.binning.value == frame.binning)
    && OptionalMatches(s.gain, frame.gain) && OptionalMatches(s.offset, frame.offset)
  }

  // A frame taken with the settings of a sequence counts toward it, whatever the
  // camera chose for the settings that the sequence leaves out.
  lemma ItsOwnFramesCount(s: Sequence, frame: FrameSettings)
    requires s.exposure.seconds == Some(frame.exposureSeconds)
    requires s.filter in ["", frame.filter] && s.binning in [None, Some(frame.binning)]
    requires s.gain == None || (frame.gain.Some? && s.gain.value as real == frame.gain.value)
    requires s.offset == None || (frame.offset.Some? && s.offset.value as real == frame.offset.value)
    ensures CountsToward(s, frame)
  {
  }

  // A frame that was taken with another value of a setting that the sequence
  // states does not, and neither does one whose exposure is half a millisecond
  // off, or more.
  lemma OtherFramesDoNotCount(s: Sequence, frame: FrameSettings)
    requires || (s.filter != "" && frame.filter != s.filter)
             || (s.binning.Some? && frame.binning != s.binning.value)
             || (s.gain.Some? && frame.gain != Some(s.gain.value as real))
             || (s.offset.Some? && frame.offset != Some(s.offset.value as real))
             || s.exposure.seconds.None?
             || frame.exposureSeconds <= s.exposure.seconds.value - 0.0005
             || frame.exposureSeconds >= s.exposure.seconds.value + 0.0005
    ensures !CountsToward(s, frame)
  {
  }

  // And less than that does not matter.
  lemma ASmallDifferenceCounts(s: Sequence, a: FrameSettings, b: FrameSettings)
    requires CountsToward(s, a) && b == a.(exposureSeconds := b.exposureSeconds)
    requires s.exposure.seconds.value - 0.0005 < b.exposureSeconds < s.exposure.seconds.value + 0.0005
    ensures CountsToward(s, b)
  {
  }

  function HeldIndex(held: seq<Progress>, s: Sequence): (i: int)
    ensures -1 <= i < |held|
    ensures i >= 0 ==> SameSettings(held[i].sequence, s)
    ensures forall k :: 0 <= k < (if i < 0 then |held| else i) ==> !SameSettings(held[k].sequence, s)
  {
    if held == [] then -1
    else if SameSettings(held[0].sequence, s) then 0
    else
      var rest := HeldIndex(held[1..], s);
      assert forall k :: 0 < k < |held| ==> held[k] == held[1..][k - 1];
      if rest < 0 then -1 else rest + 1
  }

  // The first sequence a frame counts toward, or -1.
  function TowardIndex(spec: seq<Sequence>, frame: FrameSettings): (i: int)
    ensures -1 <= i < |spec|
    ensures i >= 0 ==> CountsToward(spec[i], frame)
    ensures forall k :: 0 <= k < (if i < 0 then |spec| else i) ==> !CountsToward(spec[k], frame)
  {
    if spec == [] then -1
    else if CountsToward(spec[0], frame) then 0
    else
      var rest := TowardIndex(spec[1..], frame);
      assert forall k :: 0 < k < |spec| ==> spec[k] == spec[1..][k - 1];
      if rest < 0 then -1 else rest + 1
  }

  // ---------------------------------------------------------------------------
  // The report's counts

  // The frames that a list of totals gives to one sequence.
  function Counted(spec: seq<Sequence>, totals: seq<Total>, i: int): nat {
    if totals == [] then 0
    else
      var last := totals[|totals| - 1];
      Counted(spec, totals[..|totals| - 1], i) + (if TowardIndex(spec, last.settings) == i then last.frames else 0)
  }

  predicate Matched(spec: seq<Sequence>, totals: seq<Total>, i: int) {
    exists k :: 0 <= k < |totals| && TowardIndex(spec, totals[k].settings) == i
  }

  // A sequence of the spec with the counts of the first held entry that has
  // its settings, or with no counts.
  function Kept(held: seq<Progress>, s: Sequence): (p: Progress)
    ensures p.sequence == s
  {
    var j := HeldIndex(held, s);
    if j < 0 then Progress(s, 0, 0) else Progress(s, held[j].archived, held[j].pending)
  }

  // Entry j is the first held one with a sequence's settings.
  predicate FirstHeld(held: seq<Progress>, j: int, s: Sequence) {
    && 0 <= j < |held| && SameSettings(held[j].sequence, s)
    && forall k :: 0 <= k < j ==> !SameSettings(held[k].sequence, s)
  }

  lemma KeptIsTheFirst(held: seq<Progress>, j: int, s: Sequence)
    requires FirstHeld(held, j, s)
    ensures Kept(held, s) == Progress(s, held[j].archived, held[j].pending)
  {
  }

  // Archived becomes the catalog's count, and pending drops by as much as
  // archived rises.
  function Reported(p: Progress, counted: nat): Progress {
    p.(pending := Max(0, p.pending - Max(0, counted - p.archived)), archived := counted)
  }

  function EntryOf(spec: seq<Sequence>, held: seq<Progress>, totals: seq<Total>, truncated: bool, i: nat)
    : (p: Progress)
    requires i < |spec|
    ensures p.sequence == spec[i]
  {
    var kept := Kept(held, spec[i]);
    if truncated && !Matched(spec, totals, i) then kept else Reported(kept, Counted(spec, totals, i))
  }

  function ProgressOf(spec: seq<Sequence>, held: seq<Progress>, totals: seq<Total>, truncated: bool)
    : (out: seq<Progress>)
    ensures |out| == |spec|
    ensures forall i :: 0 <= i < |spec| ==> out[i] == EntryOf(spec, held, totals, truncated, i)
  {
    seq(|spec|, i requires 0 <= i < |spec| => EntryOf(spec, held, totals, truncated, i))
  }

  // The three loops of sequenceProgress: the counts the status holds, what
  // the totals give each sequence, and the two put together.
  method SequenceProgress(spec: seq<Sequence>, held: seq<Progress>, totals: seq<Total>, truncated: bool)
    returns (progress: seq<Progress>)
    ensures progress == ProgressOf(spec, held, totals, truncated)
  {
    var counted, matched := CountTotals(spec, totals);
    var out := StartFromHeld(spec, held);
    for i := 0 to |spec|
      invariant forall k :: 0 <= k < i ==> out[k] == EntryOf(spec, held, totals, truncated, k)
      invariant forall k :: i <= k < |spec| ==> out[k] == Kept(held, spec[k])
      modifies out
    {
      if !(truncated && !matched[i]) {
        out[i] := Reported(out[i], counted[i]);
      }
    }
    progress := out[..];
  }

  method StartFromHeld(spec: seq<Sequence>, held: seq<Progress>) returns (out: array<Progress>)
    ensures fresh(out) && out.Length == |spec|
    ensures forall k :: 0 <= k < |spec| ==> out[k] == Kept(held, spec[k])
  {
    out := new Progress[|spec|](i requires 0 <= i < |spec| => Progress(spec[i], 0, 0));
    for i := 0 to |spec|
      invariant forall k :: 0 <= k < i ==> out[k] == Kept(held, spec[k])
      invariant forall k :: i <= k < |spec| ==> out[k] == Progress(spec[k], 0, 0)
    {
      var j := HeldIndex(held, spec[i]);
      if j >= 0 {
        out[i] := out[i].(archived := held[j].archived, pending := held[j].pending);
      }
    }
  }

  // The middle loop: what each sequence counts of the totals, and which
  // sequences any total matched.
  method CountTotals(spec: seq<Sequence>, totals: seq<Total>) returns (counted: array<nat>, matched: array<bool>)
    ensures fresh(counted) && fresh(matched) && counted.Length == matched.Length == |spec|
    ensures forall k :: 0 <= k < |spec| ==> counted[k] == Counted(spec, totals, k)
    ensures forall k :: 0 <= k < |spec| ==> matched[k] == Matched(spec, totals, k)
  {
    counted := new nat[|spec|](_ => 0);
    matched := new bool[|spec|](_ => false);
    for i := 0 to |totals|
      invariant forall k :: 0 <= k < |spec| ==> counted[k] == Counted(spec, totals[..i], k)
      invariant forall k :: 0 <= k < |spec| ==> matched[k] == Matched(spec, totals[..i], k)
    {
      var at := TowardIndex(spec, totals[i].settings);
      forall k | 0 <= k < |spec|
        ensures Counted(spec, totals[..i + 1], k)
             == Counted(spec, totals[..i], k) + (if at == k then totals[i].frames else 0)
        ensures Matched(spec, totals[..i + 1], k) == (Matched(spec, totals[..i], k) || at == k)
      {
        ExtendTotals(spec, totals, i, k);
      }
      if at >= 0 {
        counted[at] := counted[at] + totals[i].frames;
        matched[at] := true;
      }
    }
    assert totals[..|totals|] == totals;
  }

  lemma ExtendTotals(spec: seq<Sequence>, totals: seq<Total>, i: nat, k: int)
    requires i < |totals|
    ensures Counted(spec, totals[..i + 1], k)
         == Counted(spec, totals[..i], k) + (if TowardIndex(spec, totals[i].settings) == k then totals[i].frames else 0)
    ensures Matched(spec, totals[..i + 1], k)
         == (Matched(spec, totals[..i], k) || TowardIndex(spec, totals[i].settings) == k)
  {
    var longer := totals[..i + 1];
    assert longer[..|longer| - 1] == totals[..i];
    assert longer[i] == totals[i];
    assert forall n :: 0 <= n < i ==> longer[n] == totals[..i][n];
  }

  // ---------------------------------------------------------------------------
  // Alignment with the spec, and the work that is left

  function Aligned(spec: seq<Sequence>, held: seq<Progress>): (out: seq<Progress>)
    ensures |out| == |spec|
    ensures forall i :: 0 <= i < |spec| ==> out[i] == Kept(held, spec[i])
  {
    ProgressOf(spec, held, [], true)
  }

  function WorkLeft(p: Progress): nat {
    Max(0, p.sequence.count - p.archived - p.pending)
  }

  // The first sequence with work left, or -1.
  function NextSequence(sequences: seq<Progress>): (i: int)
    ensures -1 <= i < |sequences|
    ensures i >= 0 ==> WorkLeft(sequences[i]) > 0
    ensures forall k :: 0 <= k < (if i < 0 then |sequences| else i) ==> WorkLeft(sequences[k]) == 0
  {
    if sequences == [] then -1
    else if WorkLeft(sequences[0]) > 0 then 0
    else
      var rest := NextSequence(sequences[1..]);
      assert forall k :: 0 < k < |sequences| ==> sequences[k] == sequences[1..][k - 1];
      if rest < 0 then -1 else rest + 1
  }

  // No sequence in front of it has its settings.
  predicate Leads(spec: seq<Sequence>, k: nat)
    requires k < |spec|
  {
    forall i :: 0 <= i < k ==> !SameSettings(spec[i], spec[k])
  }

  predicate Follows(spec: seq<Sequence>, held: seq<Progress>) {
    |held| == |spec| && forall i :: 0 <= i < |spec| ==> held[i].sequence == spec[i]
  }

  // A sequence's counts in a status that follows its spec: those of the first
  // entry with its settings.
  lemma CountsOfTheFirst(spec: seq<Sequence>, held: seq<Progress>, j: nat) returns (m: nat)
    requires Follows(spec, held) && j < |spec|
    ensures m <= j && m == HeldIndex(held, spec[j]) && SameSettings(spec[m], spec[j])
    ensures Kept(held, spec[j]) == Progress(spec[j], held[m].archived, held[m].pending)
  {
    assert SameSettings(held[j].sequence, spec[j]);
    m := HeldIndex(held, spec[j]);
  }

  lemma SameFirst(held: seq<Progress>, a: Sequence, b: Sequence)
    requires SameSettings(a, b)
    ensures HeldIndex(held, a) == HeldIndex(held, b)
  {
  }

  predicate SameCounts(a: Progress, b: Progress) {
    a.archived == b.archived && a.pending == b.pending
  }

  lemma AlignedIsTheSame(spec: seq<Sequence>, held: seq<Progress>, i: nat, j: nat)
    requires Follows(spec, held) && Aligned(spec, held) == held
    requires i < j < |spec| && SameSettings(spec[i], spec[j])
    ensures SameCounts(held[i], held[j])
  {
    SameFirst(held, spec[i], spec[j]);
    var m := CountsOfTheFirst(spec, held, i);
    var n := CountsOfTheFirst(spec, held, j);
    assert held[i] == Kept(held, spec[i]) && held[j] == Kept(held, spec[j]);
  }

  lemma WhereTheyDiffer(a: seq<Progress>, b: seq<Progress>) returns (k: nat)
    requires |a| == |b| && a != b
    ensures k < |a| && a[k] != b[k]
  {
    k :| k < |a| && a[k] != b[k];
  }

  lemma TheFirstDiffers(spec: seq<Sequence>, held: seq<Progress>, j: nat) returns (i: nat)
    requires Follows(spec, held) && j < |spec| && Kept(held, spec[j]) != held[j]
    ensures i < j && SameSettings(spec[i], spec[j]) && !SameCounts(held[i], held[j])
  {
    i := CountsOfTheFirst(spec, held, j);
  }

  lemma AlignedMoves(spec: seq<Sequence>, held: seq<Progress>, aligned: seq<Progress>) returns (i: nat, j: nat)
    requires Follows(spec, held) && |aligned| == |spec| && aligned != held
    requires forall k :: 0 <= k < |spec| ==> aligned[k] == Kept(held, spec[k])
    ensures i < j < |spec| && SameSettings(spec[i], spec[j]) && !SameCounts(held[i], held[j])
  {
    j := WhereTheyDiffer(aligned, held);
    i := TheFirstDiffers(spec, held, j);
  }

  // Aligning a status that follows its spec leaves it alone exactly when
  // sequences with the same settings hold the same counts, because each entry
  // takes the counts of the first one with its settings.
  lemma AlignmentIsIdentity(spec: seq<Sequence>, held: seq<Progress>)
    requires Follows(spec, held)
    ensures Aligned(spec, held) == held
       <==> forall i, j :: 0 <= i < j < |spec| && SameSettings(spec[i], spec[j]) ==> SameCounts(held[i], held[j])
  {
    if Aligned(spec, held) == held {
      forall i, j | 0 <= i < j < |spec| && SameSettings(spec[i], spec[j]) ensures SameCounts(held[i], held[j]) {
        AlignedIsTheSame(spec, held, i, j);
      }
    } else {
      var i, j := AlignedMoves(spec, held, Aligned(spec, held));
    }
  }

  lemma LeadsKeepTheirOwn(spec: seq<Sequence>, held: seq<Progress>, i: nat)
    requires Follows(spec, held) && i < |spec| && Leads(spec, i)
    ensures Kept(held, spec[i]) == held[i]
  {
    assert SameSettings(held[i].sequence, spec[i]);
  }

  // ---------------------------------------------------------------------------
  // A lost report

  // The catalog's count of one combination of settings.
  function FramesOf(totals: seq<Total>, settings: FrameSettings): nat {
    if totals == [] then 0
    else
      var last := totals[|totals| - 1];
      FramesOf(totals[..|totals| - 1], settings) + (if last.settings == settings then last.frames else 0)
  }

  // The catalog only grows, so no combination's count falls.
  ghost predicate Grown(earlier: seq<Total>, later: seq<Total>) {
    forall s :: FramesOf(earlier, s) <= FramesOf(later, s)
  }

  // The totals of every other combination than one.
  function Without(totals: seq<Total>, settings: FrameSettings): (out: seq<Total>)
    ensures |out| <= |totals|
    ensures forall k :: 0 <= k < |out| ==> out[k].settings != settings
  {
    if totals == [] then []
    else
      var last := totals[|totals| - 1];
      var rest := Without(totals[..|totals| - 1], settings);
      if last.settings == settings then rest else rest + [last]
  }

  lemma {:induction false} WithoutCounts(spec: seq<Sequence>, totals: seq<Total>, settings: FrameSettings, i: int)
    ensures Counted(spec, totals, i)
         == Counted(spec, Without(totals, settings), i)
            + (if TowardIndex(spec, settings) == i then FramesOf(totals, settings) else 0)
  {
    if totals != [] {
      var before, last := totals[..|totals| - 1], totals[|totals| - 1];
      WithoutCounts(spec, before, settings, i);
      var rest := Without(before, settings);
      assert (rest + [last])[..|rest|] == rest;
    }
  }

  lemma {:induction false} WithoutFrames(totals: seq<Total>, settings: FrameSettings, other: FrameSettings)
    ensures FramesOf(Without(totals, settings), other) == if other == settings then 0 else FramesOf(totals, other)
  {
    if totals != [] {
      var before, last := totals[..|totals| - 1], totals[|totals| - 1];
      WithoutFrames(before, settings, other);
      var rest := Without(before, settings);
      assert (rest + [last])[..|rest|] == rest;
    }
  }

  // A catalog that grew gives no sequence fewer frames.
  lemma {:induction false} CountedGrows(spec: seq<Sequence>, earlier: seq<Total>, later: seq<Total>, i: int)
    requires Grown(earlier, later)
    ensures Counted(spec, earlier, i) <= Counted(spec, later, i)
    decreases |earlier|
  {
    if earlier != [] {
      var s := earlier[|earlier| - 1].settings;
      var fewer, others := Without(earlier, s), Without(later, s);
      forall o ensures FramesOf(fewer, o) <= FramesOf(others, o) {
        WithoutFrames(earlier, s, o);
        WithoutFrames(later, s, o);
        assert FramesOf(earlier, o) <= FramesOf(later, o);
      }
      CountedGrows(spec, fewer, others, i);
      WithoutCounts(spec, earlier, s, i);
      WithoutCounts(spec, later, s, i);
      assert FramesOf(earlier, s) <= FramesOf(later, s);
    }
  }

  // What the catalog holds of each leading sequence is at least what the status
  // has of it.
  predicate WithinCatalog(spec: seq<Sequence>, held: seq<Progress>, catalog: seq<Total>) {
    forall i :: 0 <= i < |spec| && Leads(spec, i) ==> Kept(held, spec[i]).archived <= Counted(spec, catalog, i)
  }

  // A report that the operator never read is made up by the next one, in every
  // sequence that leads.
  lemma LostReportMadeUp(spec: seq<Sequence>, held: seq<Progress>, first: seq<Total>, second: seq<Total>, i: nat)
    requires WithinCatalog(spec, held, first) && Grown(first, second) && i < |spec| && Leads(spec, i)
    ensures ProgressOf(spec, ProgressOf(spec, held, first, false), second, false)[i]
         == ProgressOf(spec, held, second, false)[i]
  {
    LeadsKeepTheirOwn(spec, ProgressOf(spec, held, first, false), i);
    CountedGrows(spec, first, second, i);
  }

  // A sequence that a later one repeats, and that frames can count toward.
  ghost predicate TakesForBoth(spec: seq<Sequence>, i: nat, j: nat, frame: FrameSettings) {
    i < j < |spec| && SameSettings(spec[i], spec[j]) && TowardIndex(spec, frame) == i
  }

  ghost predicate MadeUp(spec: seq<Sequence>, held: seq<Progress>, first: seq<Total>, second: seq<Total>) {
    WithinCatalog(spec, held, first) && Grown(first, second) ==>
      ProgressOf(spec, ProgressOf(spec, held, first, false), second, false) == ProgressOf(spec, held, second, false)
  }

  lemma {:induction false} NothingToCount(spec: seq<Sequence>, totals: seq<Total>, i: nat)
    requires forall f :: TowardIndex(spec, f) != i
    ensures Counted(spec, totals, i) == 0
  {
    if totals != [] { NothingToCount(spec, totals[..|totals| - 1], i); }
  }

  // No frame counts toward the second of two sequences with the same settings.
  lemma RepeatsCountNothing(spec: seq<Sequence>, j: nat)
    requires j < |spec| && !Leads(spec, j)
    ensures forall f :: TowardIndex(spec, f) != j
  {
    var i :| 0 <= i < j && SameSettings(spec[i], spec[j]);
    assert forall f :: CountsToward(spec[j], f) ==> CountsToward(spec[i], f);
  }

  // The first sequence with the settings of another.
  lemma {:induction false} FirstAlike(spec: seq<Sequence>, j: nat) returns (m: nat)
    requires j < |spec|
    ensures m <= j && SameSettings(spec[m], spec[j]) && Leads(spec, m)
  {
    m := j;
    if !Leads(spec, j) {
      var i :| 0 <= i < j && SameSettings(spec[i], spec[j]);
      m := FirstAlike(spec, i);
    }
  }

  lemma RepeatsMadeUp(spec: seq<Sequence>, held: seq<Progress>, first: seq<Total>, second: seq<Total>, j: nat)
    requires WithinCatalog(spec, held, first) && j < |spec| && !Leads(spec, j)
    requires forall i, f :: !TakesForBoth(spec, i, j, f)
    ensures ProgressOf(spec, ProgressOf(spec, held, first, false), second, false)[j]
         == ProgressOf(spec, held, second, false)[j]
  {
    var once := ProgressOf(spec, held, first, false);
    var m := FirstAlike(spec, j);
    assert forall f :: TakesForBoth(spec, m, j, f) <==> TowardIndex(spec, f) == m;
    NothingToCount(spec, first, m);
    SameFirst(held, spec[m], spec[j]);
    SameFirst(once, spec[m], spec[j]);
    LeadsKeepTheirOwn(spec, once, m);
    RepeatsCountNothing(spec, j);
    NothingToCount(spec, second, j);
  }

  function Zeros(spec: seq<Sequence>): (held: seq<Progress>)
    ensures Follows(spec, held) && forall i :: 0 <= i < |spec| ==> held[i] == Progress(spec[i], 0, 0)
  {
    seq(|spec|, i requires 0 <= i < |spec| => Progress(spec[i], 0, 0))
  }

  // A status with one pending frame, and nothing else.
  function OnePending(spec: seq<Sequence>, j: nat): (held: seq<Progress>)
    requires j < |spec|
    ensures Follows(spec, held)
    ensures forall i :: 0 <= i < |spec| ==> held[i] == Progress(spec[i], 0, if i == j then 1 else 0)
  {
    Zeros(spec)[j := Progress(spec[j], 0, 1)]
  }

  lemma OneFrameCounts(spec: seq<Sequence>, frame: FrameSettings, k: int)
    ensures Counted(spec, [Total(frame, 1)], k) == if TowardIndex(spec, frame) == k then 1 else 0
  {
    assert [Total(frame, 1)][..0] == [];
  }

  lemma TheRepeatIsNotMadeUp(spec: seq<Sequence>, i: nat, j: nat, frame: FrameSettings)
    requires TakesForBoth(spec, i, j, frame)
    ensures !MadeUp(spec, OnePending(spec, i), [Total(frame, 1)], [Total(frame, 1)])
  {
    var held, totals := OnePending(spec, i), [Total(frame, 1)];
    var once := ProgressOf(spec, held, totals, false);
    assert Leads(spec, i) by {
      assert forall k :: 0 <= k < i && SameSettings(spec[k], spec[i]) ==> CountsToward(spec[k], frame);
    }
    forall k | 0 <= k < |spec| && Leads(spec, k) ensures Kept(held, spec[k]).archived == 0 {
      LeadsKeepTheirOwn(spec, held, k);
    }
    OneFrameCounts(spec, frame, i);
    OneFrameCounts(spec, frame, j);
    LeadsKeepTheirOwn(spec, held, i);
    LeadsKeepTheirOwn(spec, once, i);
    SameFirst(held, spec[i], spec[j]);
    SameFirst(once, spec[i], spec[j]);
    assert ProgressOf(spec, once, totals, false)[j].pending == 0
           && ProgressOf(spec, held, totals, false)[j].pending == 1;
  }

  // The whole list is made up, whatever was lost, exactly when no frame counts
  // toward a sequence that a later one repeats.
  lemma TheListIsMadeUp(spec: seq<Sequence>)
    ensures (forall held, first, second :: MadeUp(spec, held, first, second))
       <==> (forall i, j, frame :: !TakesForBoth(spec, i, j, frame))
  {
    if i, j, frame :| TakesForBoth(spec, i, j, frame) {
      TheRepeatIsNotMadeUp(spec, i, j, frame);
    } else {
      forall held, first, second | WithinCatalog(spec, held, first) && Grown(first, second)
        ensures MadeUp(spec, held, first, second)
      {
        forall j | 0 <= j < |spec|
          ensures ProgressOf(spec, ProgressOf(spec, held, first, false), second, false)[j]
               == ProgressOf(spec, held, second, false)[j]
        {
          if Leads(spec, j) {
            LostReportMadeUp(spec, held, first, second, j);
          } else {
            RepeatsMadeUp(spec, held, first, second, j);
          }
        }
      }
    }
  }

  // The frames a sequence needs no more: those archived and those pending. A
  // report lowers them exactly when the catalog holds fewer frames than the
  // status had as archived, and it raises the work left only then.
  lemma DoneFallsOnlyWithTheCatalog(p: Progress, counted: nat)
    ensures Reported(p, counted).archived + Reported(p, counted).pending >= p.archived + p.pending
       <==> counted >= p.archived
    ensures counted >= p.archived ==> WorkLeft(Reported(p, counted)) <= WorkLeft(p)
  {
  }

  // What an untruncated report makes of one sequence.
  lemma ReportedEntry(spec: seq<Sequence>, held: seq<Progress>, totals: seq<Total>, i: nat)
    requires i < |spec|
    ensures var e := EntryOf(spec, held, totals, false, i);
            && e.sequence == spec[i] && e.archived == Counted(spec, totals, i)
            && forall j :: FirstHeld(held, j, spec[i]) && held[j].archived <= e.archived ==>
                 e.archived + e.pending == Max(held[j].archived + held[j].pending, e.archived)
  {
    forall j | FirstHeld(held, j, spec[i]) ensures SameCounts(Kept(held, spec[i]), held[j]) {
      KeptIsTheFirst(held, j, spec[i]);
    }
  }

  // ---------------------------------------------------------------------------
  // Each total counts once

  function SumCounted(spec: seq<Sequence>, totals: seq<Total>, n: nat): nat {
    if n == 0 then 0 else SumCounted(spec, totals, n - 1) + Counted(spec, totals, n - 1)
  }

  function AllFrames(totals: seq<Total>): nat {
    if totals == [] then 0
    else AllFrames(totals[..|totals| - 1]) + totals[|totals| - 1].frames
  }

  // Each total counts toward exactly one sequence, or toward none.
  lemma {:induction false} EachTotalCountsOnce(spec: seq<Sequence>, totals: seq<Total>)
    ensures SumCounted(spec, totals, |spec|) + Counted(spec, totals, -1) == AllFrames(totals)
  {
    if totals == [] {
      NothingCounted(spec, |spec|);
    } else {
      EachTotalCountsOnce(spec, totals[..|totals| - 1]);
      OneMoreTotal(spec, totals, |spec|);
    }
  }

  lemma {:induction false} NothingCounted(spec: seq<Sequence>, n: nat)
    ensures SumCounted(spec, [], n) == 0
  {
    if n > 0 { NothingCounted(spec, n - 1); }
  }

  lemma {:induction false} OneMoreTotal(spec: seq<Sequence>, totals: seq<Total>, n: nat)
    requires totals != []
    ensures var last := totals[|totals| - 1];
            var at := TowardIndex(spec, last.settings);
            SumCounted(spec, totals, n)
            == SumCounted(spec, totals[..|totals| - 1], n) + (if 0 <= at < n then last.frames else 0)
  {
    if n > 0 { OneMoreTotal(spec, totals, n - 1); }
  }

  // ---------------------------------------------------------------------------
  // Complete

  function ArchivedOf(sequences: seq<Progress>): int {
    if sequences == [] then 0
    else
      var last := sequences[|sequences| - 1];
      ArchivedOf(sequences[..|sequences| - 1]) + Min(last.archived, last.sequence.count)
  }

  function WantedOf(sequences: seq<Progress>): int {
    if sequences == [] then 0
    else WantedOf(sequences[..|sequences| - 1]) + sequences[|sequences| - 1].sequence.count
  }

  // The printer column's two numbers, and whether Complete is True.
  method Completeness(sequences: seq<Progress>) returns (archived: int, wanted: int, complete: bool)
    ensures archived == ArchivedOf(sequences) && wanted == WantedOf(sequences)
    ensures complete == IsComplete(sequences)
  {
    archived, wanted := 0, 0;
    for i := 0 to |sequences|
      invariant archived == ArchivedOf(sequences[..i]) && wanted == WantedOf(sequences[..i])
    {
      var longer := sequences[..i + 1];
      assert longer[..|longer| - 1] == sequences[..i];
      archived := archived + Min(sequences[i].archived, sequences[i].sequence.count);
      wanted := wanted + sequences[i].sequence.count;
    }
    assert sequences[..|sequences|] == sequences;
    complete := !(archived < wanted || wanted == 0);
  }

  predicate IsComplete(sequences: seq<Progress>) {
    !(ArchivedOf(sequences) < WantedOf(sequences) || WantedOf(sequences) == 0)
  }

  // A sequence's frames beyond its count make up for no other sequence:
  // Complete is True exactly when each sequence has its own frames in the
  // archive, and the frames wanted do not add up to none.
  lemma {:induction false} CompleteMeansEverySequence(sequences: seq<Progress>)
    ensures ArchivedOf(sequences) <= WantedOf(sequences)
    ensures ArchivedOf(sequences) == WantedOf(sequences)
       <==> forall i :: 0 <= i < |sequences| ==> sequences[i].archived >= sequences[i].sequence.count
    ensures IsComplete(sequences)
       <==> WantedOf(sequences) != 0
            && forall i :: 0 <= i < |sequences| ==> sequences[i].archived >= sequences[i].sequence.count
  {
    if sequences != [] {
      var front, last := sequences[..|sequences| - 1], sequences[|sequences| - 1];
      CompleteMeansEverySequence(front);
      assert forall i :: 0 <= i < |front| ==> front[i] == sequences[i];
    }
  }

  // ---------------------------------------------------------------------------
  // A whole run of the counts

  // What changes a target's counts while its spec stands: a frame counted by a
  // runner, or a report. Each event carries the catalog at that moment.
  datatype CountEvent =
    | FrameCounted(index: nat)
    | ReportApplied(totals: seq<Total>)
    | ReportLost(totals: seq<Total>)

  function OneMorePending(sequences: seq<Progress>, index: nat): seq<Progress> {
    if index < |sequences| then sequences[index := sequences[index].(pending := sequences[index].pending + 1)]
    else sequences
  }

  function AfterEvent(spec: seq<Sequence>, held: seq<Progress>, event: CountEvent): seq<Progress> {
    match event
    case FrameCounted(index) => OneMorePending(Aligned(spec, held), index)
    case ReportApplied(totals) => ProgressOf(spec, held, totals, false)
    case ReportLost(_) => held
  }

  function AfterEvents(spec: seq<Sequence>, held: seq<Progress>, events: seq<CountEvent>): seq<Progress>
    decreases |events|
  {
    if events == [] then held
    else AfterEvents(spec, AfterEvent(spec, held, events[0]), events[1..])
  }

  // The reports' catalogs, in order, never lose a frame, and none falls below
  // the catalog that the run started from.
  ghost predicate CatalogGrows(catalog: seq<Total>, events: seq<CountEvent>)
    decreases |events|
  {
    if events == [] then true
    else match events[0]
      case FrameCounted(_) => CatalogGrows(catalog, events[1..])
      case ReportApplied(totals) => Grown(catalog, totals) && CatalogGrows(totals, events[1..])
      case ReportLost(totals) => Grown(catalog, totals) && CatalogGrows(totals, events[1..])
  }

  // A repeat of an earlier sequence's settings that wants frames of its own.
  predicate UsefulRepeat(spec: seq<Sequence>, i: nat, j: nat) {
    i < j < |spec| && SameSettings(spec[i], spec[j]) && spec[j].count > 0
  }

  predicate NoUsefulRepeat(spec: seq<Sequence>) {
    forall i, j :: 0 <= i < j < |spec| ==> !UsefulRepeat(spec, i, j)
  }

  lemma ProgressFollows(spec: seq<Sequence>, held: seq<Progress>, totals: seq<Total>, truncated: bool)
    ensures Follows(spec, ProgressOf(spec, held, totals, truncated))
  {
  }

  lemma EventsFollow(spec: seq<Sequence>, held: seq<Progress>, event: CountEvent)
    requires Follows(spec, held)
    ensures Follows(spec, AfterEvent(spec, held, event))
  {
    match event
    case FrameCounted(index) => ProgressFollows(spec, held, [], true);
    case ReportApplied(totals) => ProgressFollows(spec, held, totals, false);
    case ReportLost(_) =>
  }

  // One event, at a sequence that takes its own held counts.
  lemma OwnWorkNeverRises(spec: seq<Sequence>, held: seq<Progress>, event: CountEvent, k: nat, after: nat)
    requires |held| == |spec| && k < |spec| && Kept(held, spec[k]) == held[k] && held[k].archived <= after
    requires !event.FrameCounted? ==> after == Counted(spec, event.totals, k)
    ensures var next := AfterEvent(spec, held, event);
            |next| == |spec| && WorkLeft(next[k]) <= WorkLeft(held[k]) && next[k].archived <= after
  {
    match event
    case FrameCounted(index) =>
      var aligned := Aligned(spec, held);
      assert aligned[k] == held[k];
    case ReportApplied(totals) =>
      assert AfterEvent(spec, held, event)[k] == Reported(held[k], after);
      DoneFallsOnlyWithTheCatalog(held[k], after);
    case ReportLost(_) =>
  }

  lemma RepeatsHaveNoWork(spec: seq<Sequence>, held: seq<Progress>, k: nat)
    requires NoUsefulRepeat(spec) && Follows(spec, held) && k < |spec| && !Leads(spec, k)
    ensures WorkLeft(held[k]) == 0
  {
    var i :| 0 <= i < k && SameSettings(spec[i], spec[k]);
    assert !UsefulRepeat(spec, i, k);
  }

  lemma OneEventKeepsWork(spec: seq<Sequence>, held: seq<Progress>, catalog: seq<Total>, after: seq<Total>,
                          event: CountEvent, k: nat)
    requires NoUsefulRepeat(spec) && Follows(spec, held) && k < |spec| && WithinCatalog(spec, held, catalog)
    requires Grown(catalog, after) && (event.FrameCounted? || after == event.totals)
    ensures var next := AfterEvent(spec, held, event);
            && Follows(spec, next) && WorkLeft(next[k]) <= WorkLeft(held[k])
            && (Leads(spec, k) ==> next[k].archived <= Counted(spec, after, k))
  {
    EventsFollow(spec, held, event);
    if Leads(spec, k) {
      LeadsKeepTheirOwn(spec, held, k);
      CountedGrows(spec, catalog, after, k);
      OwnWorkNeverRises(spec, held, event, k, Counted(spec, after, k));
    } else {
      RepeatsHaveNoWork(spec, AfterEvent(spec, held, event), k);
    }
  }

  // Over any run of counts and reports, read or lost, in any order, the work
  // left of every sequence never rises, when no sequence that wants frames
  // repeats the settings of an earlier one.
  lemma {:induction false} WorkLeftNeverRises(spec: seq<Sequence>, held: seq<Progress>, catalog: seq<Total>,
                                              events: seq<CountEvent>, i: nat)
    requires NoUsefulRepeat(spec) && Follows(spec, held) && i < |spec|
    requires WithinCatalog(spec, held, catalog) && CatalogGrows(catalog, events)
    ensures Follows(spec, AfterEvents(spec, held, events))
    ensures WorkLeft(AfterEvents(spec, held, events)[i]) <= WorkLeft(held[i])
    decreases |events|
  {
    if events != [] {
      var next := AfterEvent(spec, held, events[0]);
      var after := if events[0].FrameCounted? then catalog else events[0].totals;
      forall k | 0 <= k < |spec|
        ensures Follows(spec, next) && WorkLeft(next[k]) <= WorkLeft(held[k])
        ensures Leads(spec, k) ==> Kept(next, spec[k]).archived <= Counted(spec, after, k)
      {
        OneEventKeepsWork(spec, held, catalog, after, events[0], k);
        if Leads(spec, k) { LeadsKeepTheirOwn(spec, next, k); }
      }
      WorkLeftNeverRises(spec, next, after, events[1..], i);
    }
  }

  // A run over which the work left of a sequence rises.
  ghost predicate Rises(spec: seq<Sequence>, held: seq<Progress>, catalog: seq<Total>, events: seq<CountEvent>,
                        i: nat) {
    && Follows(spec, held) && WithinCatalog(spec, held, catalog) && CatalogGrows(catalog, events)
    && i < |held| && i < |AfterEvents(spec, held, events)|
    && WorkLeft(AfterEvents(spec, held, events)[i]) > WorkLeft(held[i])
  }

  lemma OneEventRun(spec: seq<Sequence>, held: seq<Progress>, i: nat)
    ensures AfterEvents(spec, held, [FrameCounted(i)]) == AfterEvent(spec, held, FrameCounted(i))
    ensures CatalogGrows([], [FrameCounted(i)])
  {
    assert [FrameCounted(i)][1..] == [];
  }

  lemma ZerosStay(spec: seq<Sequence>, j: nat)
    requires j < |spec|
    ensures OnePending(spec, j) == AfterEvent(spec, Zeros(spec), FrameCounted(j))
  {
    var aligned := Aligned(spec, Zeros(spec));
    forall k | 0 <= k < |spec| ensures aligned[k] == Zeros(spec)[k] {
      var m := CountsOfTheFirst(spec, Zeros(spec), k);
    }
    assert aligned == Zeros(spec);
  }

  lemma OnePendingIsWithin(spec: seq<Sequence>, j: nat)
    requires j < |spec|
    ensures WithinCatalog(spec, OnePending(spec, j), [])
  {
    forall k | 0 <= k < |spec| ensures Kept(OnePending(spec, j), spec[k]).archived == 0 {
      var m := CountsOfTheFirst(spec, OnePending(spec, j), k);
    }
  }

  lemma TheCountIsGone(spec: seq<Sequence>, i: nat, j: nat)
    requires UsefulRepeat(spec, i, j)
    ensures var next := AfterEvent(spec, OnePending(spec, j), FrameCounted(i));
            |next| == |spec| && next[j] == Progress(spec[j], 0, 0)
  {
    var held := OnePending(spec, j);
    var m := CountsOfTheFirst(spec, held, j);
    var n := CountsOfTheFirst(spec, held, i);
    SameFirst(held, spec[i], spec[j]);
  }

  // A frame counted for the repeat is lost at the next alignment, which takes the
  // counts of the first sequence with its settings.
  lemma TheRepeatLosesItsCount(spec: seq<Sequence>, i: nat, j: nat)
    requires UsefulRepeat(spec, i, j)
    ensures OnePending(spec, j) == AfterEvent(spec, Zeros(spec), FrameCounted(j))
    ensures Rises(spec, OnePending(spec, j), [], [FrameCounted(i)], j)
  {
    ZerosStay(spec, j);
    OnePendingIsWithin(spec, j);
    OneEventRun(spec, OnePending(spec, j), i);
    TheCountIsGone(spec, i, j);
  }

  lemma NothingRises(spec: seq<Sequence>, held: seq<Progress>, catalog: seq<Total>, events: seq<CountEvent>, i: nat)
    requires NoUsefulRepeat(spec)
    ensures !Rises(spec, held, catalog, events, i)
  {
    if Follows(spec, held) && WithinCatalog(spec, held, catalog) && CatalogGrows(catalog, events) && i < |spec| {
      WorkLeftNeverRises(spec, held, catalog, events, i);
    }
  }

  // The work left never rises, over every run from every status, exactly when no
  // sequence that wants frames repeats the settings of an earlier one.
  lemma TheWorkLeftNeverRisesExactly(spec: seq<Sequence>)
    ensures (forall held, catalog, events, i :: !Rises(spec, held, catalog, events, i)) <==> NoUsefulRepeat(spec)
  {
    if NoUsefulRepeat(spec) {
      forall held, catalog, events, i ensures !Rises(spec, held, catalog, events, i) {
        NothingRises(spec, held, catalog, events, i);
      }
    } else {
      var i, j :| 0 <= i < j < |spec| && UsefulRepeat(spec, i, j);
      TheRepeatLosesItsCount(spec, i, j);
    }
  }
}
