// What the operator promises about one target, over every run: no frame is
// counted too few or too many times, promotion ends, a claim is stable, and a
// deleted target leaves nothing behind.
module Promises {
  import opened Basics
  import opened Sequences
  import opened Targets
  import opened Accounts
  import opened Ledgers
  import opened LedgerInvariant
  import opened PromotionLoop

  lemma StepKeepsInv(l: Ledger, a: Action)
    requires Inv(l)
    ensures Inv(Step(l, a))
  {
    if a.Record? {
      RecordKeepsInv(l, a);
    } else if a.Count? && a.counted {
      CountKeepsInv(l, a);
    } else if ByRunner(a) {
      RunnerKeepsInv(l, a);
    } else if ByPerson(a) {
      PersonKeepsInv(l, a);
    } else if OfFrames(a) {
      FramesKeepInv(l, a);
    } else if OfJob(a) {
      JobsKeepInv(l, a);
    } else {
      LoopKeepsInv(l, a);
    }
  }

  lemma {:induction false} RunKeepsInv(l: Ledger, actions: seq<Action>)
    requires Inv(l)
    ensures Inv(Run(l, actions))
    decreases |actions|
  {
    if actions != [] {
      StepKeepsInv(l, actions[0]);
      RunKeepsInv(Step(l, actions[0]), actions[1..]);
    }
  }

  // ---------------------------------------------------------------------------
  // Never too few

  // In every reachable state, the counted frames of the target whose files are
  // still in a claim number at most the claim's pending count.
  lemma NeverCountedTooFew(start: Ledger, actions: seq<Action>, claim: string)
    requires Initial(start)
    ensures var l := Run(start, actions);
            |StillIn(l.log, l.frames, claim)| <= PendingOf(Entries(l), claim)
  {
    InitialInv(start);
    RunKeepsInv(start, actions);
  }

  // ---------------------------------------------------------------------------
  // Exactly once

  // No frame is counted twice.
  lemma CountedAtMostOnce(start: Ledger, actions: seq<Action>)
    requires Initial(start)
    ensures Distinct(Run(start, actions).log)
  {
    InitialInv(start);
    RunKeepsInv(start, actions);
  }

  // The parts of the ledger that only a runner, the supervisor, or the
  // environment of the frames changes.
  ghost predicate SameFrames(l: Ledger, m: Ledger) {
    && m.log == l.log && m.frames == l.frames
    && m.target.status.reservation == l.target.status.reservation
    && m.target.status.exposure == l.target.status.exposure
  }

  lemma ComposedKeepsClaim(w: LoopWrite, spec: Spec, status: Status)
    ensures var after := Composed(w, spec, status);
            after.Some? ==> after.value.reservation == status.reservation && after.value.exposure == status.exposure
  {
  }

  lemma SettledWrite(l: Ledger, w: LoopWrite, written: Ledger)
    requires l.held.Listed? && written == Write(l, Composed(w, l.target.spec, l.target.status))
    ensures || SettleHeld(l, w) == l
            || SettleHeld(l, w) == Refreshed(written)
            || SettleHeld(l, w) == Refreshed(written.(cleared := l.cleared + AllLeft(Entries(l))))
  {
  }

  lemma WrittenKeepsFrames(l: Ledger, status: Option<Status>)
    requires status.Some? ==>
               && status.value.reservation == l.target.status.reservation
               && status.value.exposure == l.target.status.exposure
    ensures SameFrames(l, Write(l, status))
    ensures var m := Write(l, status).target; m.deleting == l.target.deleting && m.finalizer == l.target.finalizer
  {
  }

  lemma SettleHeldKeepsFrames(l: Ledger, w: LoopWrite)
    requires l.held.Listed?
    ensures SameFrames(l, SettleHeld(l, w))
    ensures var m := SettleHeld(l, w).target; m.deleting == l.target.deleting && m.finalizer == l.target.finalizer
  {
    var after := Composed(w, l.target.spec, l.target.status);
    ComposedKeepsClaim(w, l.target.spec, l.target.status);
    WrittenKeepsFrames(l, after);
    SettledWrite(l, w, Write(l, after));
  }

  // The loop's steps that compose no status.
  predicate ComposesNothing(a: Action) {
    !a.KeepCounts? && !a.ServeRetry? && !a.ReportWait? && !a.SettleJob?
  }

  lemma OtherLoopSteps(l: Ledger, a: Action)
    requires CopyFits(l) && ComposesNothing(a)
    ensures LoopStep(l, a).target.status == l.target.status && SameFrames(l, LoopStep(l, a))
    ensures LoopStep(l, a).target.deleting == l.target.deleting
    ensures l.target.deleting && !l.target.finalizer ==> !LoopStep(l, a).target.finalizer
  {
  }

  // The promotion loop changes no claim, no exposure, and no count of frames,
  // and puts no finalizer on a target that is being deleted.
  lemma LoopKeepsFrames(l: Ledger, a: Action)
    requires CopyFits(l)
    ensures SameFrames(l, LoopStep(l, a))
    ensures LoopStep(l, a).target.deleting == l.target.deleting
    ensures l.target.deleting && !l.target.finalizer ==> !LoopStep(l, a).target.finalizer
  {
    if ComposesNothing(a) {
      OtherLoopSteps(l, a);
    } else if a.SettleJob? {
      JobSettledKeepsFrames(l);
    } else if l.held.Listed? {
      SettleHeldKeepsFrames(l, WriteOf(a));
    }
  }

  function WriteOf(a: Action): LoopWrite {
    if a.KeepCounts? then KeepProgress else if a.ServeRetry? then ClearLeft else NoteDeleting
  }

  lemma JobSettledKeepsFrames(l: Ledger)
    ensures SameFrames(l, JobSettled(l))
    ensures var m := JobSettled(l).target; m.deleting == l.target.deleting && m.finalizer == l.target.finalizer
  {
    if Serving(l) && NextNumber(l) in l.held.jobs.value {
      var outcome := OutcomeOf(l.held.jobs.value[NextNumber(l)], NextNumber(l));
      if outcome.Some? { SettleHeldKeepsFrames(l, ApplyOutcome(outcome.value)); }
    }
  }

  lemma ComposedKeepsPending(w: LoopWrite, spec: Spec, status: Status, claim: string)
    requires Sound(status.outboxes) && !w.ApplyOutcome?
    ensures Composed(w, spec, status).Some? ==>
              PendingOf(Composed(w, spec, status).value.outboxes, claim) == PendingOf(status.outboxes, claim)
  {
    if w.ClearLeft? { ClearedCounts(status.outboxes); }
  }

  lemma SettleHeldKeepsPending(l: Ledger, w: LoopWrite, claim: string)
    requires l.held.Listed? && Sound(Entries(l)) && !w.ApplyOutcome?
    ensures PendingOf(Entries(SettleHeld(l, w)), claim) == PendingOf(Entries(l), claim)
  {
    ComposedKeepsPending(w, l.target.spec, l.target.status, claim);
  }

  // Every loop step but a report leaves the pending counts alone.
  lemma LoopKeepsPending(l: Ledger, a: Action, claim: string)
    requires CopyFits(l) && Sound(Entries(l)) && !a.SettleJob?
    ensures PendingOf(Entries(LoopStep(l, a)), claim) == PendingOf(Entries(l), claim)
  {
    if ComposesNothing(a) {
      OtherLoopSteps(l, a);
    } else if l.held.Listed? {
      SettleHeldKeepsPending(l, WriteOf(a), claim);
    }
  }

  // Only a report and the write that clears the exposure naming a frame raise
  // a claim's pending count, and that write counts the frame, in its claim.
  lemma OnlyTheClearingWriteCounts(l: Ledger, a: Action, claim: string)
    requires Inv(l) && !a.SettleJob?
    ensures var m := Step(l, a);
            (PendingOf(Entries(m), claim) > PendingOf(Entries(l), claim) || m.log != l.log) ==>
              && l.target.status.exposure.Some?
              && m.target.status.exposure.None?
              && m.log == l.log + [l.target.status.exposure.value.frameID]
              && l.target.status.exposure.value.frameID !in l.log
              && PendingOf(Entries(m), claim) == PendingOf(Entries(l), claim)
                   + (if l.frames[l.target.status.exposure.value.frameID].claim == claim then 1 else 0)
  {
    if a.Count? && a.counted {
      if Step(l, a) != l { CountingWrite(l, a, claim); }
    } else if ByRunner(a) {
      OtherRunnerWrites(l, a);
    } else if ByPerson(a) || OfFrames(a) || OfJob(a) {
      OutsideSteps(l, a);
    } else {
      LoopKeepsFrames(l, a);
      LoopKeepsPending(l, a, claim);
    }
  }

  ghost predicate AddsNothing(l: Ledger, m: Ledger) {
    Entries(m) == Entries(l) && m.log == l.log && Applied(m) == Applied(l)
  }

  lemma QuietWriteAddsNothing(l: Ledger, status: Option<Status>)
    requires status.Some? ==> Quiet(l.target.status, status.value)
    ensures AddsNothing(l, Write(l, status))
  {
  }

  lemma RecordAddsNothing(l: Ledger, a: Action)
    requires a.Record?
    ensures AddsNothing(l, RunnerStep(l, a))
  {
  }

  lemma UncountedAddsNothing(l: Ledger, a: Action)
    requires a.Count? && !a.counted && (l.target.status.reservation == "" ==> l.target.status.exposure.None?)
    ensures AddsNothing(l, RunnerStep(l, a))
  {
    if a.e.frameID in l.frames {
      var claim := l.frames[a.e.frameID].claim;
      UncountedIsQuiet(l.target.spec, l.target.status, a.e, claim, a.runner, a.exposing);
      QuietWriteAddsNothing(l, AfterCount(l.target.spec, l.target.status, a.e, false, claim, a.runner, a.exposing));
    }
  }

  lemma OtherRunnerWrites(l: Ledger, a: Action)
    requires ByRunner(a) && !(a.Count? && a.counted)
    requires l.target.status.reservation == "" ==> l.target.status.exposure.None?
    ensures AddsNothing(l, RunnerStep(l, a))
  {
    if a.Count? {
      UncountedAddsNothing(l, a);
    } else if a.Record? {
      RecordAddsNothing(l, a);
    } else {
      RunnerStatusIsQuiet(l.target, a);
      QuietWriteAddsNothing(l, RunnerStatus(l.target, a));
    }
  }

  // What the steps of a person, of the frames, and of the Jobs leave alone.
  ghost predicate OutsideOnly(l: Ledger, m: Ledger) {
    && m.target.status == l.target.status && m.log == l.log && m.frames.Keys == l.frames.Keys
    && (l.target.deleting ==> m.target.deleting) && m.target.finalizer == l.target.finalizer
  }

  lemma PersonOutside(l: Ledger, a: Action)
    ensures OutsideOnly(l, PersonStep(l, a))
  {
  }

  lemma FramesOutside(l: Ledger, a: Action)
    ensures OutsideOnly(l, FramesStep(l, a))
  {
  }

  lemma JobsOutside(l: Ledger, a: Action)
    requires OfJob(a)
    ensures OutsideOnly(l, JobStep(l, a))
  {
  }

  lemma PersonsStep(l: Ledger, a: Action)
    requires ByPerson(a)
    ensures Step(l, a) == PersonStep(l, a)
  {
  }

  lemma StepOfFrames(l: Ledger, a: Action)
    requires OfFrames(a)
    ensures Step(l, a) == FramesStep(l, a)
  {
  }

  lemma StepOfJob(l: Ledger, a: Action)
    requires OfJob(a)
    ensures Step(l, a) == JobStep(l, a)
  {
  }

  lemma OutsideSteps(l: Ledger, a: Action)
    requires ByPerson(a) || OfFrames(a) || OfJob(a)
    ensures OutsideOnly(l, Step(l, a))
  {
    if ByPerson(a) {
      PersonsStep(l, a);
      PersonOutside(l, a);
    } else if OfFrames(a) {
      StepOfFrames(l, a);
      FramesOutside(l, a);
    } else {
      StepOfJob(l, a);
      JobsOutside(l, a);
    }
  }

  lemma CountingWrite(l: Ledger, a: Action, claim: string)
    requires Inv(l) && a.Count? && a.counted && RunnerStep(l, a) != l
    ensures var m := RunnerStep(l, a);
            && l.target.status.exposure.Some? && l.target.status.exposure.value.frameID == a.e.frameID
            && m.target.status.exposure.None?
            && m.log == l.log + [a.e.frameID] && a.e.frameID !in l.log && m.frames == l.frames
            && PendingOf(Entries(m), claim)
               == PendingOf(Entries(l), claim) + (if l.frames[a.e.frameID].claim == claim then 1 else 0)
  {
    OneMoreCounts(Entries(l), l.frames[a.e.frameID].claim, claim);
  }

  // Whether a frame can still be counted: it is not recorded yet, or the
  // exposure in flight names it.
  predicate MayCount(l: Ledger, f: FrameId) {
    f !in l.frames || (l.target.status.exposure.Some? && l.target.status.exposure.value.frameID == f)
  }

  // A frame that cannot be counted any more, and the log that says whether it was.
  ghost predicate Closed(l: Ledger, m: Ledger, f: FrameId) {
    !MayCount(m, f) && (f in m.log <==> f in l.log)
  }

  lemma RunnerStepKeepsClosed(l: Ledger, a: Action, f: FrameId)
    requires FramesFit(l) && !MayCount(l, f) && ByRunner(a) && !(a.Count? && a.counted)
    ensures Closed(l, RunnerStep(l, a), f)
  {
    OtherRunnerWrites(l, a);
  }

  lemma ClosedToCountingStep(l: Ledger, a: Action, f: FrameId)
    requires Inv(l) && !MayCount(l, f)
    ensures Closed(l, Step(l, a), f)
  {
    if a.Count? && a.counted {
      assert Step(l, a) == RunnerStep(l, a);
      if RunnerStep(l, a) != l { CountingWrite(l, a, ""); }
    } else if ByRunner(a) {
      assert Step(l, a) == RunnerStep(l, a);
      RunnerStepKeepsClosed(l, a, f);
    } else if ByPerson(a) || OfFrames(a) || OfJob(a) {
      OutsideSteps(l, a);
    } else {
      assert Step(l, a) == LoopStep(l, a);
      LoopKeepsFrames(l, a);
    }
  }

  // A frame that was counted, or whose exposure a release cleared, is never
  // counted later, whatever restarts and conflicting writers follow.
  lemma {:induction false} NeverCountedLater(l: Ledger, actions: seq<Action>, f: FrameId)
    requires Inv(l) && !MayCount(l, f)
    ensures f in Run(l, actions).log <==> f in l.log
    decreases |actions|
  {
    if actions != [] {
      StepKeepsInv(l, actions[0]);
      ClosedToCountingStep(l, actions[0], f);
      NeverCountedLater(Step(l, actions[0]), actions[1..], f);
    }
  }

  // A release, a failed exposure, and the horizon end the frame in flight: it is
  // never counted, whatever follows.
  lemma AnEndedFrameIsNeverCounted(l: Ledger, a: Action, actions: seq<Action>, f: FrameId)
    requires Inv(l) && !l.gone && l.target.status.exposure.Some? && l.target.status.exposure.value.frameID == f
    requires a.Release? || a.FailExposure? || (a.MarkBelow? && !l.target.status.imaging.BelowHorizon?)
    requires a.runner != "" && l.target.status.reservation == a.runner
    ensures f !in Run(Step(l, a), actions).log
  {
    assert f !in l.log && f in l.frames;
    assert Step(l, a) == RunnerStep(l, a);
    EndsTheFrame(l, a);
    StepKeepsInv(l, a);
    NeverCountedLater(Step(l, a), actions, f);
  }

  lemma EndsTheFrame(l: Ledger, a: Action)
    requires !l.gone && (a.Release? || a.FailExposure? || (a.MarkBelow? && !l.target.status.imaging.BelowHorizon?))
    requires a.runner != "" && l.target.status.reservation == a.runner
    ensures var m := RunnerStep(l, a); m.target.status.exposure.None? && m.log == l.log && m.frames == l.frames
  {
  }

  // The supervisor's step leaves no reservation and no failure that is not Ready.
  lemma EndClaimsLeavesReady(l: Ledger, ready: set<string>)
    requires !l.gone
    ensures var s := Step(l, EndClaims(ready)).target.status;
            && (s.reservation != "" ==> s.reservation in ready)
            && (s.failed.Some? ==> s.failed.value.reservation in ready)
            && (l.target.status.reservation in ready ==>
                  s.reservation == l.target.status.reservation && s.exposure == l.target.status.exposure)
  {
    assert Step(l, EndClaims(ready)) == RunnerStep(l, EndClaims(ready));
  }

  // ---------------------------------------------------------------------------
  // Job numbers

  // No Job is numbered above the next one, every Job at or below the applied
  // number has ended, and so at most one Job of a target runs.
  lemma JobNumbersBoundTheRuns(start: Ledger, actions: seq<Action>)
    requires Initial(start)
    ensures var l := Run(start, actions);
            && (forall n :: n in l.jobs ==> n <= Applied(l) + 1)
            && (forall n :: n in l.jobs && n <= Applied(l) ==> !l.jobs[n].state.Running?)
            && (forall m, n :: m in l.jobs && n in l.jobs && l.jobs[m].state.Running? && l.jobs[n].state.Running?
                  ==> m == n)
  {
    InitialInv(start);
    RunKeepsInv(start, actions);
  }

  // ---------------------------------------------------------------------------
  // Promotion ends

  // Every applied Job, with or without a report, lowers the excess of pending
  // over left by at least one, and it is applied once.
  lemma AppliedJobLowersExcess(l: Ledger)
    requires Inv(l) && Applied(JobSettled(l)) != Applied(l)
    ensures Applied(JobSettled(l)) == Applied(l) + 1
    ensures 0 <= Excess(Entries(JobSettled(l))) < Excess(Entries(l))
  {
    SettleJobKeepsInv(l);
    ExcessNeverNegative(Entries(JobSettled(l)));
    AppliedJobIsFinished(l);
    var j := l.held.jobs.value[Applied(l) + 1];
    OutcomeKeepsCounts(l, j);
    SettleJobIs(l, j);
  }

  lemma GoneAppliesNothing(l: Ledger)
    requires l.gone
    ensures Applied(JobSettled(l)) == Applied(l)
  {
  }

  lemma UnfinishedAppliesNothing(l: Ledger)
    requires Serving(l) && NextNumber(l) in l.held.jobs.value ==>
               OutcomeOf(l.held.jobs.value[NextNumber(l)], NextNumber(l)).None?
    ensures JobSettled(l) == l
  {
  }

  // Only a finished Job that the pass listed is applied.
  lemma AppliedJobIsFinished(l: Ledger)
    requires CopyFits(l)
    ensures Applied(JobSettled(l)) == Applied(l)
            || (!l.gone && Serving(l) && Applied(l) + 1 in l.held.jobs.value
                && Finished(l, l.held.jobs.value[Applied(l) + 1]))
  {
    if l.gone {
      GoneAppliesNothing(l);
    } else if Serving(l) && NextNumber(l) in l.held.jobs.value
              && OutcomeOf(l.held.jobs.value[NextNumber(l)], NextNumber(l)).Some? {
      assert Finished(l, l.held.jobs.value[Applied(l) + 1]);
    } else {
      UnfinishedAppliesNothing(l);
    }
  }

  // Over any run, the applied Jobs number at most the frames counted and the
  // frames that retries cleared.
  lemma PromotionTerminates(start: Ledger, actions: seq<Action>)
    requires Initial(start)
    ensures var l := Run(start, actions); Applied(l) <= |l.log| + l.cleared
  {
    InitialInv(start);
    RunKeepsInv(start, actions);
    ExcessNeverNegative(Entries(Run(start, actions)));
  }

  // ---------------------------------------------------------------------------
  // A stable claim

  // An action of another actor than the holder, with Ready sets that hold it.
  predicate Foreign(a: Action, holder: string) {
    match a
    case Claim(runner, _, ready) => runner != holder && holder in ready
    case Record(runner, _, _, _) => runner != holder
    case Count(runner, _, _, _) => runner != holder
    case FailExposure(runner) => runner != holder
    case Release(runner, _, _) => runner != holder
    case MarkBelow(runner) => runner != holder
    case EndClaims(ready) => holder in ready
    case _ => true
  }

  // What a status keeps that another actor than the holder composes.
  predicate KeepsTheClaim(status: Status, after: Status, holder: string) {
    && after.reservation == holder
    && (after.exposure == status.exposure
        || (after.exposure.None? && status.exposure.value.reservation != holder))
  }

  lemma ForeignStatus(t: Object, a: Action, holder: string)
    requires ByRunner(a) && holder != "" && t.status.reservation == holder && Foreign(a, holder)
    ensures RunnerStatus(t, a).Some? ==> KeepsTheClaim(t.status, RunnerStatus(t, a).value, holder)
  {
  }

  lemma ForeignCount(spec: Spec, status: Status, e: Exposure, counted: bool, claim: string, runner: string,
                     exposing: bool,
                     holder: string)
    requires status.reservation == holder && runner != holder
    requires status.exposure.Some? && status.exposure.value.frameID == e.frameID ==>
               status.exposure.value.reservation == runner
    ensures AfterCount(spec, status, e, counted, claim, runner, exposing).Some? ==>
              KeepsTheClaim(status, AfterCount(spec, status, e, counted, claim, runner, exposing).value, holder)
  {
  }

  lemma ForeignRunnerKeepsTheClaim(l: Ledger, a: Action, holder: string)
    requires FramesFit(l) && ByRunner(a)
    requires holder != "" && l.target.status.reservation == holder && Foreign(a, holder)
    ensures KeepsTheClaim(l.target.status, RunnerStep(l, a).target.status, holder)
  {
    if a.Count? {
      if a.e.frameID in l.frames && l.frames[a.e.frameID].runner == a.runner {
        var claim := l.frames[a.e.frameID].claim;
        ForeignCount(l.target.spec, l.target.status, a.e, a.counted, claim, a.runner, a.exposing, holder);
      }
    } else if !a.Record? {
      ForeignStatus(l.target, a, holder);
    }
  }

  // While a Ready reservation holds the target, no other runner, no
  // supervisor, and no promotion changes the claim, and an exposure that the
  // holder recorded stays. Another runner can only clear its own frame.
  lemma ClaimIsStable(l: Ledger, a: Action, holder: string)
    requires Inv(l) && holder != "" && l.target.status.reservation == holder && Foreign(a, holder)
    ensures KeepsTheClaim(l.target.status, Step(l, a).target.status, holder)
  {
    if ByRunner(a) {
      assert Step(l, a) == RunnerStep(l, a);
      ForeignRunnerKeepsTheClaim(l, a, holder);
    } else if ByPerson(a) || OfFrames(a) || OfJob(a) {
      OutsideSteps(l, a);
    } else {
      LoopKeepsFrames(l, a);
    }
  }

  predicate ForeignRun(actions: seq<Action>, holder: string) {
    forall i :: 0 <= i < |actions| ==> Foreign(actions[i], holder)
  }

  lemma {:induction false} ClaimOutlastsOthers(l: Ledger, actions: seq<Action>, holder: string)
    requires Inv(l) && holder != "" && l.target.status.reservation == holder && ForeignRun(actions, holder)
    ensures Run(l, actions).target.status.reservation == holder
    ensures l.target.status.exposure.Some? && l.target.status.exposure.value.reservation == holder ==>
              Run(l, actions).target.status.exposure == l.target.status.exposure
    decreases |actions|
  {
    if actions != [] {
      StepKeepsInv(l, actions[0]);
      ClaimIsStable(l, actions[0], holder);
      ClaimOutlastsOthers(Step(l, actions[0]), actions[1..], holder);
    }
  }

  lemma NoReservationNoExposure(start: Ledger, actions: seq<Action>)
    requires Initial(start)
    ensures var s := Run(start, actions).target.status; s.reservation == "" ==> s.exposure.None?
  {
    InitialInv(start);
    RunKeepsInv(start, actions);
  }

  // ---------------------------------------------------------------------------
  // A deleted target

  // The patch that takes the finalizer off lands only at a version with no
  // reservation, no exposure in flight, and no counted frame in any claim that
  // the pass listed, nor in one with no frame pending.
  lemma DropLeavesNothing(l: Ledger, seen: set<string>)
    requires Inv(l) && l.target.finalizer && !Step(l, DropFinalizer(seen)).target.finalizer
    ensures l.target.deleting && l.target.status.reservation == "" && l.target.status.exposure.None?
    ensures forall c :: c in seen || PendingOf(Entries(l), c) == 0 ==> StillIn(l.log, l.frames, c) == {}
  {
    forall c | c in seen || PendingOf(Entries(l), c) == 0 ensures StillIn(l.log, l.frames, c) == {} {
      var i := OutboxIndex(Entries(l), c);
      assert i >= 0 ==> Entries(l)[i].pending == 0;
      assert |StillIn(l.log, l.frames, c)| <= PendingOf(Entries(l), c);
    }
  }

  predicate LetGo(l: Ledger) {
    l.target.deleting && !l.target.finalizer && l.target.status.reservation == "" && l.target.status.exposure.None?
  }

  lemma LetGoStep(l: Ledger, a: Action)
    requires Inv(l) && LetGo(l)
    ensures LetGo(Step(l, a)) && Step(l, a).log == l.log && Step(l, a).frames.Keys == l.frames.Keys
  {
    if ByPerson(a) || OfFrames(a) || OfJob(a) {
      OutsideSteps(l, a);
    } else if !ByRunner(a) {
      LoopKeepsFrames(l, a);
    }
  }

  lemma RunnerMovesNothing(l: Ledger, a: Action)
    requires FramesFit(l) && ByRunner(a)
    ensures OnlyLeave(l.log, l.frames, RunnerStep(l, a).frames)
  {
  }

  lemma FramesStepOnlyRemoves(l: Ledger, a: Action)
    requires FramesFit(l)
    ensures OnlyLeave(l.log, l.frames, FramesStep(l, a).frames)
  {
  }

  lemma JobStepOnlyRemoves(l: Ledger, a: Action)
    requires FramesFit(l) && OfJob(a)
    ensures OnlyLeave(l.log, l.frames, JobStep(l, a).frames)
  {
  }

  lemma StepOnlyRemoves(l: Ledger, a: Action)
    requires Inv(l)
    ensures OnlyLeave(l.log, l.frames, Step(l, a).frames)
  {
    if ByRunner(a) {
      RunnerMovesNothing(l, a);
    } else if ByPerson(a) {
      assert OnlyLeave(l.log, l.frames, l.frames);
    } else if OfFrames(a) {
      FramesStepOnlyRemoves(l, a);
    } else if OfJob(a) {
      JobStepOnlyRemoves(l, a);
    } else {
      LoopKeepsFrames(l, a);
      assert OnlyLeave(l.log, l.frames, l.frames);
    }
  }

  // A counted frame is in its claim only if it was there before.
  lemma FramesOnlyLeave(l: Ledger, a: Action, c: string)
    requires Inv(l) && Step(l, a).log == l.log
    ensures StillIn(Step(l, a).log, Step(l, a).frames, c) <= StillIn(l.log, l.frames, c)
  {
    StepOnlyRemoves(l, a);
    LeavingKeepsCounts(Entries(l), l.log, l.frames, Step(l, a).frames);
  }

  // After that version, nothing of the target is recorded or counted again,
  // and a claim that held no counted frame of it never holds one.
  lemma {:induction false} NothingAfterTheDrop(l: Ledger, actions: seq<Action>, c: string)
    requires Inv(l) && LetGo(l)
    ensures LetGo(Run(l, actions)) && Run(l, actions).log == l.log && Run(l, actions).frames.Keys == l.frames.Keys
    ensures StillIn(Run(l, actions).log, Run(l, actions).frames, c) <= StillIn(l.log, l.frames, c)
    decreases |actions|
  {
    if actions != [] {
      StepKeepsInv(l, actions[0]);
      LetGoStep(l, actions[0]);
      FramesOnlyLeave(l, actions[0], c);
      NothingAfterTheDrop(Step(l, actions[0]), actions[1..], c);
    }
  }

  lemma TheDropLetsGo(l: Ledger, seen: set<string>)
    requires Inv(l) && l.target.finalizer && !Step(l, DropFinalizer(seen)).target.finalizer
    ensures var m := Step(l, DropFinalizer(seen)); LetGo(m) && m.log == l.log && m.frames == l.frames
  {
    DropLeavesNothing(l, seen);
    assert Step(l, DropFinalizer(seen)) == LoopStep(l, DropFinalizer(seen));
    LoopKeepsFrames(l, DropFinalizer(seen));
  }

  // A deleted target leaves nothing behind. Whatever ran before the patch that
  // takes its finalizer off, and whatever runs after it, no counted frame of the
  // target is in a claim that the pass listed or that had no frame pending, and
  // none is counted again.
  lemma ADeletedTargetLeavesNothing(start: Ledger, before: seq<Action>, seen: set<string>, after: seq<Action>,
                                    c: string)
    requires Initial(start) && (c in seen || PendingOf(Entries(Run(start, before)), c) == 0)
    requires var l := Run(start, before); l.target.finalizer && !Step(l, DropFinalizer(seen)).target.finalizer
    ensures var m := Run(Step(Run(start, before), DropFinalizer(seen)), after);
            && StillIn(m.log, m.frames, c) == {} && m.log == Run(start, before).log
            && m.target.status.reservation == "" && m.target.status.exposure.None?
  {
    InitialInv(start);
    RunKeepsInv(start, before);
    var l := Run(start, before);
    StepKeepsInv(l, DropFinalizer(seen));
    DropLeavesNothing(l, seen);
    TheDropLetsGo(l, seen);
    NothingAfterTheDrop(Step(l, DropFinalizer(seen)), after, c);
  }

  // ---------------------------------------------------------------------------
  // The finalizer holds the target

  // A target that is gone stays as it was, and one goes only without the finalizer.
  predicate GoesReleased(l: Ledger, m: Ledger) {
    && (l.gone ==> m.gone && m.target == l.target)
    && (m.gone && !l.gone ==> m.target.deleting && !m.target.finalizer)
  }

  lemma RunnerGoesReleased(l: Ledger, a: Action)
    ensures GoesReleased(l, RunnerStep(l, a))
  {
  }

  lemma OutsiderGoesReleased(l: Ledger, a: Action)
    requires ByPerson(a) || OfFrames(a) || OfJob(a)
    ensures GoesReleased(l, Step(l, a))
  {
    if ByPerson(a) {
      PersonsStep(l, a);
    } else if OfFrames(a) {
      StepOfFrames(l, a);
    } else {
      StepOfJob(l, a);
    }
  }

  lemma SettledGoesReleased(l: Ledger, w: LoopWrite)
    requires l.held.Listed?
    ensures GoesReleased(l, SettleHeld(l, w))
  {
  }

  lemma LoopGoesReleased(l: Ledger, a: Action)
    ensures GoesReleased(l, LoopStep(l, a))
  {
    if a.SettleJob? {
      if Serving(l) && NextNumber(l) in l.held.jobs.value {
        var outcome := OutcomeOf(l.held.jobs.value[NextNumber(l)], NextNumber(l));
        if outcome.Some? { SettledGoesReleased(l, ApplyOutcome(outcome.value)); }
      }
    } else if !ComposesNothing(a) && l.held.Listed? {
      SettledGoesReleased(l, WriteOf(a));
    }
  }

  lemma StepGoesReleased(l: Ledger, a: Action)
    ensures GoesReleased(l, Step(l, a))
  {
    if ByRunner(a) {
      RunnerGoesReleased(l, a);
    } else if ByPerson(a) || OfFrames(a) || OfJob(a) {
      OutsiderGoesReleased(l, a);
    } else {
      LoopGoesReleased(l, a);
    }
  }

  // A target that is there is gone after a run only when it was deleted and the
  // finalizer was off, and then nothing is written of it any more.
  lemma {:induction false} TheFinalizerHolds(l: Ledger, actions: seq<Action>)
    requires l.gone ==> l.target.deleting && !l.target.finalizer
    ensures var m := Run(l, actions);
            && (m.gone ==> m.target.deleting && !m.target.finalizer)
            && (l.gone ==> m.gone && m.target == l.target)
    decreases |actions|
  {
    if actions != [] {
      StepGoesReleased(l, actions[0]);
      TheFinalizerHolds(Step(l, actions[0]), actions[1..]);
    }
  }

  // ---------------------------------------------------------------------------
  // What the copy of a pass covers

  // The counted frames of a claim that the copy's version had counted.
  function CoveredIn(l: Ledger, c: string): set<FrameId>
    requires l.held.Listed?
  {
    StillIn(l.log, l.frames, c) * l.held.counted
  }

  // The counted frames of a claim that were counted since the copy was read.
  function CountedSince(l: Ledger, c: string): set<FrameId>
    requires l.held.Listed?
  {
    StillIn(l.log, l.frames, c) - l.held.counted
  }

  // However old the copy is, its pending counts cover the frames that it knew of.
  ghost predicate Covers(l: Ledger) {
    l.held.Listed? ==> forall c :: |CoveredIn(l, c)| <= PendingOf(l.held.copy.status.outboxes, c)
  }

  // A copy of the current version, or the copy as it was.
  ghost predicate CopyStaysOrIsRead(l: Ledger, m: Ledger) {
    m.held.Listed? ==>
      || (m.held.copy == m.target && m.held.counted == Logged(m.log))
      || (l.held.Listed? && m.held.copy == l.held.copy && m.held.counted == l.held.counted)
  }

  lemma SettledCopy(l: Ledger, w: LoopWrite)
    requires l.held.Listed?
    ensures CopyStaysOrIsRead(l, SettleHeld(l, w))
  {
  }

  lemma JobSettledCopy(l: Ledger)
    ensures CopyStaysOrIsRead(l, JobSettled(l))
  {
    if Serving(l) && NextNumber(l) in l.held.jobs.value {
      var outcome := OutcomeOf(l.held.jobs.value[NextNumber(l)], NextNumber(l));
      if outcome.Some? { SettledCopy(l, ApplyOutcome(outcome.value)); }
    }
  }

  lemma OtherStepsCopy(l: Ledger, a: Action)
    requires ComposesNothing(a)
    ensures CopyStaysOrIsRead(l, LoopStep(l, a))
  {
  }

  lemma StepCopy(l: Ledger, a: Action)
    requires CopyFits(l)
    ensures CopyStaysOrIsRead(l, Step(l, a))
  {
    if ByRunner(a) || ByPerson(a) || OfFrames(a) || OfJob(a) {
      OutsidersKeepTheCopy(l, a);
    } else if ComposesNothing(a) {
      OtherStepsCopy(l, a);
    } else if a.SettleJob? {
      JobSettledCopy(l);
    } else if l.held.Listed? {
      SettledCopy(l, WriteOf(a));
    }
  }

  lemma OutsidersKeepTheCopy(l: Ledger, a: Action)
    requires ByRunner(a) || ByPerson(a) || OfFrames(a) || OfJob(a)
    ensures Step(l, a).held == l.held
  {
  }

  lemma KeptCopyCovers(l: Ledger, m: Ledger)
    requires FramesFit(l) && CopyFits(l) && Covers(l) && OnlyLeave(l.log, l.frames, m.frames)
    requires l.held.Listed? && m.held.Listed? && m.held.copy == l.held.copy && m.held.counted == l.held.counted
    ensures Covers(m)
  {
    forall c ensures |CoveredIn(m, c)| <= PendingOf(m.held.copy.status.outboxes, c) {
      assert CoveredIn(m, c) <= CoveredIn(l, c);
      SubsetSize(CoveredIn(m, c), CoveredIn(l, c));
      assert |CoveredIn(l, c)| <= PendingOf(l.held.copy.status.outboxes, c);
    }
  }

  lemma ReadCopyCovers(m: Ledger)
    requires NeverTooFew(Entries(m), m.log, m.frames)
    requires m.held.Listed? && m.held.copy == m.target && m.held.counted == Logged(m.log)
    ensures Covers(m)
  {
    forall c ensures |CoveredIn(m, c)| <= PendingOf(m.held.copy.status.outboxes, c) {
      assert CoveredIn(m, c) == StillIn(m.log, m.frames, c);
    }
  }

  lemma StepKeepsCover(l: Ledger, a: Action)
    requires Inv(l) && Covers(l)
    ensures Covers(Step(l, a))
  {
    var m := Step(l, a);
    StepKeepsInv(l, a);
    StepOnlyRemoves(l, a);
    StepCopy(l, a);
    if m.held.Listed? {
      if m.held.copy == m.target && m.held.counted == Logged(m.log) {
        ReadCopyCovers(m);
      } else {
        KeptCopyCovers(l, m);
      }
    }
  }

  // A claim that the copy does not name holds only frames counted since the copy
  // was read.
  lemma UnnamedHoldsOnlyNewFrames(l: Ledger, c: string)
    requires l.held.Listed? && Covers(l) && OutboxIndex(l.held.copy.status.outboxes, c) < 0
    ensures StillIn(l.log, l.frames, c) == CountedSince(l, c)
  {
    assert |CoveredIn(l, c)| <= PendingOf(l.held.copy.status.outboxes, c);
    assert CoveredIn(l, c) == {};
    assert StillIn(l.log, l.frames, c) == CoveredIn(l, c) + CountedSince(l, c);
  }
}
