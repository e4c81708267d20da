// A Target's status and every write that the operator composes over it: the
// claim of a runner, the frame in flight, the counts, the releases, a
// promotion report, and the retry. Each write is a function of the copy it
// writes over, and answers none when it leaves the copy alone.
module Targets {
  import opened Basics
  import opened Sequences

  type FrameId = string

  datatype Exposure = Exposure(frameID: FrameId, sequence: nat, reservation: string)

  datatype Failure = Failure(reservation: string, generation: int)

  datatype OutboxFrames = OutboxFrames(claim: string, pending: nat, left: nat)

  // The reason of the Imaging condition, as far as a write reads it again.
  datatype Imaging = Unset | Exposing | ExposureFailed | BelowHorizon | Waiting | Deleting | Released(reason: string)

  datatype Status = Status(reservation: string, failed: Option<Failure>, sequences: seq<Progress>,
                           outboxes: seq<OutboxFrames>, applied: nat, exposure: Option<Exposure>,
                           progress: (int, int), complete: bool, imaging: Imaging)

  datatype Spec = Spec(suspend: bool, priority: int, sequences: seq<Sequence>)

  // The object as the API server holds it. finalizer is the operator's own,
  // and deleting is a deletion timestamp.
  datatype Object = Object(version: nat, generation: int, deleting: bool, finalizer: bool,
                           retryAsked: bool, spec: Spec, status: Status)

  const EmptyStatus := Status("", None, [], [], 0, None, (0, 0), false, Unset)

  // ---------------------------------------------------------------------------
  // The outbox entries

  function OutboxIndex(outboxes: seq<OutboxFrames>, claim: string): (i: int)
    ensures -1 <= i < |outboxes|
    ensures i >= 0 ==> outboxes[i].claim == claim
    ensures forall k :: 0 <= k < (if i < 0 then |outboxes| else i) ==> outboxes[k].claim != claim
  {
    if outboxes == [] then -1
    else if outboxes[0].claim == claim then 0
    else
      var rest := OutboxIndex(outboxes[1..], claim);
      assert forall k :: 0 < k < |outboxes| ==> outboxes[k] == outboxes[1..][k - 1];
      if rest < 0 then -1 else rest + 1
  }

  function PendingOf(outboxes: seq<OutboxFrames>, claim: string): nat {
    var i := OutboxIndex(outboxes, claim);
    if i < 0 then 0 else outboxes[i].pending
  }

  function OneMore(outboxes: seq<OutboxFrames>, claim: string): seq<OutboxFrames> {
    var i := OutboxIndex(outboxes, claim);
    if i < 0 then outboxes + [OutboxFrames(claim, 1, 0)]
    else outboxes[i := outboxes[i].(pending := outboxes[i].pending + 1)]
  }

  function LeftCleared(outboxes: seq<OutboxFrames>): (out: seq<OutboxFrames>)
    ensures |out| == |outboxes|
    ensures forall i :: 0 <= i < |outboxes| ==> out[i] == outboxes[i].(left := 0)
  {
    seq(|outboxes|, i requires 0 <= i < |outboxes| => outboxes[i].(left := 0))
  }

  function AllLeft(outboxes: seq<OutboxFrames>): nat {
    if outboxes == [] then 0 else AllLeft(outboxes[..|outboxes| - 1]) + outboxes[|outboxes| - 1].left
  }

  function Removed<T>(s: seq<T>, i: nat): seq<T>
    requires i < |s|
  {
    s[..i] + s[i + 1..]
  }

  // ---------------------------------------------------------------------------
  // The runner's writes

  function PendingAdded(spec: Spec, status: Status, index: nat, claim: string): Status {
    status.(sequences := OneMorePending(Aligned(spec.sequences, status.sequences), index),
            outboxes := OneMore(status.outboxes, claim))
  }

  // exposing turns Imaging True for a runner that still holds the target.
  function AfterCount(spec: Spec, status: Status, e: Exposure, counted: bool, claim: string, runner: string,
                      exposing: bool): Option<Status> {
    if status.exposure.None? || status.exposure.value.frameID != e.frameID then None
    else
      var cleared := status.(exposure := None);
      var added := if counted then PendingAdded(spec, cleared, e.sequence, claim) else cleared;
      Some(if exposing && status.reservation == runner then added.(imaging := Exposing) else added)
  }

  function AfterExposureFailed(status: Status, runner: string): Option<Status> {
    if status.reservation != runner then None
    else Some(status.(exposure := None, imaging := ExposureFailed))
  }

  function AfterRecord(status: Status, e: Exposure, runner: string): Option<Status> {
    if status.reservation != runner then None
    else
      Some(status.(exposure := Some(e), imaging := if status.imaging.ExposureFailed? then ExposureFailed else Exposing))
  }

  function AfterRelease(status: Status, runner: string, failed: Option<Failure>, reason: string): Option<Status> {
    if status.reservation != runner then None
    else
      Some(status.(reservation := "", exposure := None, failed := if failed.Some? then failed else status.failed,
                   imaging := Released(reason)))
  }

  function AfterBelow(status: Status, runner: string): Option<Status> {
    if status.imaging.BelowHorizon? || (status.reservation != "" && status.reservation != runner) then None
    else Some(status.(reservation := "", exposure := None, imaging := BelowHorizon))
  }

  // The supervisor's release of a claim it read as ended, and of a failure it
  // read as ended.
  function AfterEnded(status: Status, ended: Option<string>, failure: Option<Failure>): Option<Status> {
    var s := if failure.Some? && status.failed == failure then status.(failed := None) else status;
    if ended.Some? && s.reservation == ended.value
    then Some(s.(reservation := "", exposure := None, imaging := Waiting))
    else Some(s)
  }

  predicate FailedOn(t: Object, runner: string) {
    && t.status.failed.Some? && t.status.failed.value.reservation == runner
    && t.status.failed.value.generation == t.generation
  }

  // Whether a runner can claim a target. camera says that the session has a
  // camera for it, and ready names the Ready reservations of the namespace.
  predicate Eligible(t: Object, camera: bool, ready: set<string>, runner: string) {
    && !t.spec.suspend && !t.deleting
    && !t.status.complete
    && !(t.status.reservation != "" && t.status.reservation != runner && t.status.reservation in ready)
    && camera
    && NextSequence(Aligned(t.spec.sequences, t.status.sequences)) >= 0
  }

  function AfterClaim(t: Object, camera: bool, ready: set<string>, runner: string): Option<Status> {
    if !Eligible(t, camera, ready, runner) || FailedOn(t, runner) then None
    else
      var failed := t.status.failed;
      Some(t.status.(reservation := runner,
                          failed := if failed.Some? && failed.value.reservation == runner then None else failed))
  }

  // ---------------------------------------------------------------------------
  // The promotion loop's writes

  // left counts the frames of the target that the Job saw and did not move.
  datatype Report = Report(totals: seq<Total>, truncated: bool, left: nat)

  // What a finished promotion Job tells its Target, with no report when the
  // Job failed or when its message does not read.
  datatype Outcome = Outcome(number: nat, claim: string, pending: nat, report: Option<Report>)

  function WithProgress(status: Status): Status {
    status.(progress := (ArchivedOf(status.sequences), WantedOf(status.sequences)),
            complete := IsComplete(status.sequences))
  }

  function AfterProgress(spec: Spec, status: Status): Option<Status> {
    Some(WithProgress(status.(sequences := Aligned(spec.sequences, status.sequences))))
  }

  function Settled(outboxes: seq<OutboxFrames>, entry: nat, left: nat, snapshot: nat): seq<OutboxFrames>
    requires entry < |outboxes|
  {
    var pending := left + Max(0, outboxes[entry].pending - snapshot);
    if pending == 0 then Removed(outboxes, entry)
    else outboxes[entry := outboxes[entry].(pending := pending, left := left)]
  }

  function AfterOutcome(spec: Spec, status: Status, r: Outcome): Option<Status> {
    if status.applied >= r.number then None
    else
      var s := status.(applied := r.number);
      var entry := OutboxIndex(s.outboxes, r.claim);
      if r.report.None? then
        Some(if entry < 0 then s
             else s.(outboxes := s.outboxes[entry := s.outboxes[entry].(left := s.outboxes[entry].pending)]))
      else
        var counts := ProgressOf(spec.sequences, s.sequences, r.report.value.totals, r.report.value.truncated);
        var o := if entry < 0 then s.outboxes else Settled(s.outboxes, entry, r.report.value.left, r.pending);
        Some(WithProgress(s.(sequences := counts, outboxes := o)))
  }

  lemma ReportedOutboxes(spec: Spec, status: Status, r: Outcome, after: Status)
    requires AfterOutcome(spec, status, r) == Some(after) && r.report.Some?
    ensures var o, n := status.outboxes, OutboxIndex(status.outboxes, r.claim);
            after.outboxes == if n < 0 then o else Settled(o, n, r.report.value.left, r.pending)
  {
  }

  function AfterRetry(status: Status): Option<Status> {
    if AllLeft(status.outboxes) == 0 then None
    else Some(status.(outboxes := LeftCleared(status.outboxes)))
  }

  // A copy of the object that a writer holds, with the writes in place. Each
  // method answers whether the copy needs the write.
  class Target {
    var spec: Spec
    var status: Status

    constructor (spec: Spec, status: Status)
      ensures this.spec == spec && this.status == status
    {
      this.spec, this.status := spec, status;
    }

    // The status follows the spec, each sequence with the counts of the first
    // entry that had its settings.
    method AlignSequences()
      modifies `status
      ensures Follows(spec.sequences, status.sequences)
      ensures forall i, j :: 0 <= i < |spec.sequences| && FirstHeld(old(status.sequences), j, spec.sequences[i]) ==>
                SameCounts(status.sequences[i], old(status.sequences)[j])
      ensures status == old(status).(sequences := Aligned(spec.sequences, old(status.sequences)))
    {
      var aligned := SequenceProgress(spec.sequences, status.sequences, [], true);
      forall i, j | 0 <= i < |spec.sequences| && FirstHeld(status.sequences, j, spec.sequences[i])
        ensures SameCounts(aligned[i], status.sequences[j])
      {
        KeptIsTheFirst(status.sequences, j, spec.sequences[i]);
      }
      status := status.(sequences := aligned);
    }

    method AddPending(index: nat, claim: string)
      modifies `status
      ensures status == PendingAdded(spec, old(status), index, claim)
      ensures status == old(status).(sequences := OneMorePending(Aligned(spec.sequences, old(status.sequences)), index),
                                     outboxes := status.outboxes)
      ensures |status.outboxes|
           == |old(status.outboxes)| + if OutboxIndex(old(status.outboxes), claim) < 0 then 1 else 0
      ensures forall k :: 0 <= k < |status.outboxes| ==>
                status.outboxes[k] == if k == |old(status.outboxes)| then OutboxFrames(claim, 1, 0)
                                      else if k == OutboxIndex(old(status.outboxes), claim)
                                      then OutboxFrames(claim, old(status.outboxes)[k].pending + 1,
                                                        old(status.outboxes)[k].left)
                                      else old(status.outboxes)[k]
    {
      AlignSequences();
      if index < |status.sequences| {
        var p := status.sequences[index];
        status := status.(sequences := status.sequences[index := p.(pending := p.pending + 1)]);
      }
      var i := 0;
      while i < |status.outboxes|
        invariant 0 <= i <= |status.outboxes|
        invariant forall k :: 0 <= k < i ==> status.outboxes[k].claim != claim
      {
        var o := status.outboxes[i];
        if o.claim == claim {
          status := status.(outboxes := status.outboxes[i := o.(pending := o.pending + 1)]);
          return;
        }
        i := i + 1;
      }
      status := status.(outboxes := status.outboxes + [OutboxFrames(claim, 1, 0)]);
    }

    method Count(e: Exposure, counted: bool, claim: string, runner: string, exposing: bool) returns (needed: bool)
      modifies `status
      ensures var after := AfterCount(spec, old(status), e, counted, claim, runner, exposing);
              needed == after.Some? && status == if needed then after.value else old(status)
      ensures needed <==> old(status.exposure).Some? && old(status.exposure).value.frameID == e.frameID
      ensures needed ==>
                status == (if counted then PendingAdded(spec, old(status), e.sequence, claim) else old(status)).(
                            exposure := None,
                            imaging := if exposing && old(status.reservation) == runner then Exposing
                                       else old(status.imaging))
    {
      if status.exposure.None? || status.exposure.value.frameID != e.frameID {
        return false;
      }
      status := status.(exposure := None);
      if counted {
        AddPending(e.sequence, claim);
      }
      if exposing && status.reservation == runner {
        status := status.(imaging := Exposing);
      }
      return true;
    }

    method Record(e: Exposure, runner: string) returns (needed: bool)
      modifies `status
      ensures var after := AfterRecord(old(status), e, runner);
              needed == after.Some? && status == if needed then after.value else old(status)
      ensures needed <==> old(status.reservation) == runner
      ensures needed ==> status == old(status).(exposure := Some(e), imaging := status.imaging)
      ensures needed ==> status.imaging == if old(status.imaging) == ExposureFailed then ExposureFailed else Exposing
    {
      needed := status.reservation == runner;
      if needed {
        status := status.(exposure := Some(e));
        if !status.imaging.ExposureFailed? {
          status := status.(imaging := Exposing);
        }
      }
    }

    method ReleaseAs(runner: string, failed: Option<Failure>, reason: string) returns (needed: bool)
      modifies `status
      ensures var after := AfterRelease(old(status), runner, failed, reason);
              needed == after.Some? && status == if needed then after.value else old(status)
      ensures needed <==> old(status.reservation) == runner
      ensures needed ==> status == old(status).(reservation := "", exposure := None, imaging := Released(reason),
                                                failed := status.failed)
      ensures needed ==> status.failed == if failed == None then old(status.failed) else failed
    {
      needed := status.reservation == runner;
      if needed {
        status := status.(reservation := "", exposure := None);
        if failed.Some? {
          status := status.(failed := failed);
        }
        status := status.(imaging := Released(reason));
      }
    }

    method EndClaim(ended: Option<string>, failure: Option<Failure>)
      modifies `status
      ensures Some(status) == AfterEnded(old(status), ended, failure)
      ensures status.failed == if failure.Some? && old(status.failed) == failure then None else old(status.failed)
      ensures if ended == Some(old(status.reservation))
              then status == old(status).(reservation := "", exposure := None, imaging := Waiting,
                                          failed := status.failed)
              else status == old(status).(failed := status.failed)
    {
      if failure.Some? && status.failed == failure {
        status := status.(failed := None);
      }
      if ended.None? || status.reservation != ended.value {
        return;
      }
      status := status.(reservation := "", exposure := None);
      status := status.(imaging := Waiting);
    }

    method ClearLeft() returns (needed: bool)
      modifies `status
      ensures var after := AfterRetry(old(status));
              needed == after.Some? && status == if needed then after.value else old(status)
      ensures needed <==> exists i :: 0 <= i < |old(status.outboxes)| && old(status.outboxes)[i].left > 0
      ensures status == old(status).(outboxes := status.outboxes) && |status.outboxes| == |old(status.outboxes)|
      ensures forall i :: 0 <= i < |status.outboxes| ==>
                status.outboxes[i] == old(status.outboxes)[i].(left := 0)
    {
      var left := 0;
      ghost var was := status;
      for i := 0 to |status.outboxes|
        invariant status == was.(outboxes := status.outboxes) && |status.outboxes| == |was.outboxes|
        invariant left == AllLeft(was.outboxes[..i])
        invariant forall k :: 0 <= k < i ==> status.outboxes[k] == was.outboxes[k].(left := 0)
        invariant forall k :: i <= k < |was.outboxes| ==> status.outboxes[k] == was.outboxes[k]
      {
        assert was.outboxes[..i + 1][..i] == was.outboxes[..i];
        left := left + status.outboxes[i].left;
        status := status.(outboxes := status.outboxes[i := status.outboxes[i].(left := 0)]);
      }
      assert was.outboxes[..|was.outboxes|] == was.outboxes;
      NothingLeft(was.outboxes);
      if left == 0 {
        assert status.outboxes == was.outboxes;
      }
      needed := left > 0;
    }

    // The claim's entry after a report: the frames the Job left, and those
    // counted after its snapshot. An entry of none goes.
    method SettleEntry(entry: nat, left: nat, snapshot: nat)
      requires entry < |status.outboxes|
      modifies `status
      ensures status == old(status).(outboxes := Settled(old(status.outboxes), entry, left, snapshot))
      ensures var o := old(status.outboxes)[entry];
              var pending := if o.pending <= snapshot then left else left + (o.pending - snapshot);
              if pending == 0
              then status.outboxes == old(status.outboxes)[..entry] + old(status.outboxes)[entry + 1..]
              else status.outboxes == old(status.outboxes)[entry := OutboxFrames(o.claim, pending, left)]
    {
      var o := status.outboxes[entry];
      o := o.(pending := left + Max(0, o.pending - snapshot), left := left);
      if o.pending == 0 {
        status := status.(outboxes := status.outboxes[..entry] + status.outboxes[entry + 1..]);
      } else {
        status := status.(outboxes := status.outboxes[entry := o]);
      }
    }

    method SetCompleteness()
      modifies `status
      ensures status == WithProgress(old(status))
    {
      var archived, wanted, complete := Completeness(status.sequences);
      status := status.(progress := (archived, wanted), complete := complete);
    }

    method Apply(r: Outcome) returns (needed: bool)
      modifies `status
      ensures var after := AfterOutcome(spec, old(status), r);
              needed == after.Some? && status == if needed then after.value else old(status)
    {
      if status.applied >= r.number {
        return false;
      }
      status := status.(applied := r.number);
      var entry := OutboxIndex(status.outboxes, r.claim);
      if r.report.None? {
        if entry >= 0 {
          var o := status.outboxes[entry];
          status := status.(outboxes := status.outboxes[entry := o.(left := o.pending)]);
        }
        return true;
      }
      var report := r.report.value;
      var counts := SequenceProgress(spec.sequences, status.sequences, report.totals, report.truncated);
      status := status.(sequences := counts);
      if entry >= 0 {
        SettleEntry(entry, report.left, r.pending);
      }
      SetCompleteness();
      return true;
    }
  }

  lemma {:induction false} NothingLeft(outboxes: seq<OutboxFrames>)
    ensures AllLeft(outboxes) == 0 <==> forall i :: 0 <= i < |outboxes| ==> outboxes[i].left == 0
  {
    if outboxes != [] {
      NothingLeft(outboxes[..|outboxes| - 1]);
    }
  }

  // ---------------------------------------------------------------------------
  // What the writes mean

  // A reported entry beside the first held one with its settings.
  ghost predicate OneReported(held: seq<Progress>, e: Progress, s: Sequence) {
    forall j :: FirstHeld(held, j, s) && held[j].archived <= e.archived ==>
      e.archived + e.pending == Max(held[j].archived + held[j].pending, e.archived)
  }

  // A report sets every sequence of the spec to what the catalog holds of it. The
  // frames that a sequence needs no more are the larger of those it had and those
  // of the catalog, when the catalog holds no fewer than were archived; and
  // Complete is True when each sequence has its own, and some are wanted.
  lemma TheReportSetsTheCounts(spec: Spec, status: Status, r: Outcome)
    requires status.applied < r.number && r.report.Some? && !r.report.value.truncated
    ensures AfterOutcome(spec, status, r).Some?
    ensures var after, totals := AfterOutcome(spec, status, r).value, r.report.value.totals;
            && after.applied == r.number
            && |after.sequences| == |spec.sequences|
            && (forall i :: 0 <= i < |spec.sequences| ==>
                  && after.sequences[i].sequence == spec.sequences[i]
                  && after.sequences[i].archived == Counted(spec.sequences, totals, i))
            && (forall i :: 0 <= i < |spec.sequences| ==>
                  OneReported(status.sequences, after.sequences[i], spec.sequences[i]))
            && (after.complete <==>
                  && after.progress.1 != 0
                  && forall i :: 0 <= i < |spec.sequences| ==> after.sequences[i].archived >= spec.sequences[i].count)
  {
    var after, totals := AfterOutcome(spec, status, r).value, r.report.value.totals;
    CompleteMeansEverySequence(after.sequences);
    forall i | 0 <= i < |spec.sequences|
      ensures after.sequences[i] == EntryOf(spec.sequences, status.sequences, totals, false, i)
    {
    }
    forall i | 0 <= i < |spec.sequences| ensures OneReported(status.sequences, after.sequences[i], spec.sequences[i]) {
      ReportedEntry(spec.sequences, status.sequences, totals, i);
    }
  }

  // A truncated report leaves the counts of a sequence that none of its totals
  // counts toward.
  lemma ATruncatedReportLeavesTheRest(spec: Spec, status: Status, r: Outcome, i: nat, j: int)
    requires status.applied < r.number && r.report.Some? && r.report.value.truncated
    requires i < |spec.sequences| && FirstHeld(status.sequences, j, spec.sequences[i])
    requires forall k :: 0 <= k < |r.report.value.totals| ==>
               TowardIndex(spec.sequences, r.report.value.totals[k].settings) != i
    ensures AfterOutcome(spec, status, r).Some?
    ensures var after := AfterOutcome(spec, status, r).value;
            |after.sequences| == |spec.sequences| && SameCounts(after.sequences[i], status.sequences[j])
  {
    KeptIsTheFirst(status.sequences, j, spec.sequences[i]);
  }

  // And it gives a sequence that some total counts toward what the totals give it.
  lemma ATruncatedReportCountsTheFirst(spec: Spec, status: Status, r: Outcome, i: nat, k: nat)
    requires status.applied < r.number && r.report.Some? && r.report.value.truncated
    requires i < |spec.sequences| && k < |r.report.value.totals|
    requires TowardIndex(spec.sequences, r.report.value.totals[k].settings) == i
    ensures AfterOutcome(spec, status, r).Some?
    ensures var after := AfterOutcome(spec, status, r).value;
            |after.sequences| == |spec.sequences|
            && after.sequences[i].archived == Counted(spec.sequences, r.report.value.totals, i)
  {
    assert Matched(spec.sequences, r.report.value.totals, i);
  }

  // A Job without a report marks its claim's pending frames as left, and changes
  // nothing else but the applied number.
  lemma NoReportMarksWhatIsLeft(spec: Spec, status: Status, r: Outcome)
    requires status.applied < r.number && r.report.None?
    ensures AfterOutcome(spec, status, r).Some?
    ensures var after := AfterOutcome(spec, status, r).value;
            && after == status.(applied := r.number, outboxes := after.outboxes)
            && |after.outboxes| == |status.outboxes|
            && forall k :: 0 <= k < |after.outboxes| ==>
                 after.outboxes[k] == if k == OutboxIndex(status.outboxes, r.claim)
                                      then OutboxFrames(r.claim, status.outboxes[k].pending, status.outboxes[k].pending)
                                      else status.outboxes[k]
  {
  }

  // The counts of the status are the events that a run of counts is made of.
  lemma TheWritesAreTheEvents(spec: Spec, status: Status, e: Exposure, claim: string, runner: string, exposing: bool,
                              r: Outcome)
    requires status.exposure.Some? && status.exposure.value.frameID == e.frameID
    requires status.applied < r.number && r.report.Some? && !r.report.value.truncated
    ensures AfterCount(spec, status, e, true, claim, runner, exposing).Some? && AfterOutcome(spec, status, r).Some?
    ensures AfterCount(spec, status, e, true, claim, runner, exposing).value.sequences
         == AfterEvent(spec.sequences, status.sequences, FrameCounted(e.sequence))
    ensures AfterOutcome(spec, status, r).value.sequences
         == AfterEvent(spec.sequences, status.sequences, ReportApplied(r.report.value.totals))
  {
  }
}
