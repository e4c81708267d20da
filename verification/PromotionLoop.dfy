// The promotion loop keeps the ledger's invariant: its copies, its Jobs, and
// the report that sets the counts again.
module PromotionLoop {
  import opened Basics
  import opened Sequences
  import opened Targets
  import opened Accounts
  import opened Ledgers
  import opened LedgerInvariant

  lemma CountedAreLogged(l: Ledger, c: string)
    ensures CountedIn(l.log, l.frames, c) - Logged(l.log) == {}
    ensures StillIn(l.log, l.frames, c) <= CountedIn(l.log, l.frames, c)
  {
  }

  // A copy of the current version fits it.
  lemma FreshCopyFits(l: Ledger)
    requires Sound(Entries(l))
    requires l.held.Listed? && l.held.copy == l.target && l.held.counted == Logged(l.log)
    ensures CopyFits(l)
  {
    forall k | 0 <= k < |Entries(l)|
      ensures EntryFits(Entries(l), l.log, l.frames, Entries(l)[k], l.held.counted)
    {
      IndexOfEntry(Entries(l), k);
      CountedAreLogged(l, Entries(l)[k].claim);
    }
  }

  // What a refreshed copy leaves to prove: everything that is not the copy.
  ghost predicate InvButCopy(l: Ledger) {
    && FramesFit(l) && Sound(Entries(l)) && NeverTooFew(Entries(l), l.log, l.frames)
    && JobsFit(l) && ListedJobsFit(l) && JobsPaidFor(l)
  }

  lemma RefreshKeepsInv(l: Ledger)
    requires InvButCopy(l) && l.held.Listed?
    ensures Inv(Refreshed(l))
  {
    FreshCopyFits(Refreshed(l));
  }

  lemma ListKeepsInv(l: Ledger)
    requires Inv(l)
    ensures Inv(l.(held := Listed(l.target, Logged(l.log), None, false)))
  {
    FreshCopyFits(l.(held := Listed(l.target, Logged(l.log), None, false)));
  }

  lemma ReadKeepsInv(l: Ledger)
    requires Inv(l) && l.held.Listed? && l.held.jobs.None?
    ensures Inv(l.(held := l.held.(jobs := Some(l.jobs))))
  {
  }

  lemma PassSteps(l: Ledger)
    ensures LoopStep(l, List) == l.(held := Listed(l.target, Logged(l.log), None, false))
    ensures LoopStep(l, EndPass) == l.(held := Idle)
    ensures LoopStep(l, Read)
         == if l.held.Listed? && l.held.jobs.None? then l.(held := l.held.(jobs := Some(l.jobs))) else l
  {
  }

  lemma PassKeepsInv(l: Ledger, a: Action)
    requires Inv(l) && (a.List? || a.Read? || a.EndPass?)
    ensures Inv(LoopStep(l, a))
  {
    PassSteps(l);
    if a.List? {
      ListKeepsInv(l);
    } else if a.Read? && l.held.Listed? && l.held.jobs.None? {
      ReadKeepsInv(l);
    }
  }

  lemma QuietSettleIs(l: Ledger, w: LoopWrite)
    requires l.held.Listed? && !w.ClearLeft?
    ensures || SettleHeld(l, w) == l
            || SettleHeld(l, w) == Refreshed(Write(l, Composed(w, l.target.spec, l.target.status)))
  {
  }

  lemma QuietComposed(w: LoopWrite, spec: Spec, status: Status)
    requires (w.KeepProgress? || w.NoteDeleting?) && (status.reservation == "" ==> status.exposure.None?)
    ensures Composed(w, spec, status).Some? ==> Quiet(status, Composed(w, spec, status).value)
  {
  }

  lemma QuietSettleKeepsInv(l: Ledger, w: LoopWrite)
    requires Inv(l) && l.held.Listed? && (w.KeepProgress? || w.NoteDeleting?)
    ensures Inv(SettleHeld(l, w))
  {
    var after := Composed(w, l.target.spec, l.target.status);
    QuietSettleIs(l, w);
    QuietComposed(w, l.target.spec, l.target.status);
    QuietStatusKeepsInv(l, after);
    RefreshKeepsInv(Write(l, after));
  }

  function WithLeftCleared(l: Ledger): Ledger {
    Put(l, l.target.status.(outboxes := LeftCleared(Entries(l)))).(cleared := l.cleared + AllLeft(Entries(l)))
  }

  lemma ClearedInv(l: Ledger)
    requires Inv(l) && Serving(l) && Applied(l) + 1 !in l.held.jobs.value
    ensures InvButCopy(WithLeftCleared(l))
  {
    var m := WithLeftCleared(l);
    ClearedCounts(Entries(l));
    ExcessOfCleared(Entries(l));
    assert Applied(m) + 1 !in m.jobs;
    forall c ensures |StillIn(m.log, m.frames, c)| <= PendingOf(Entries(m), c) {
      assert |StillIn(l.log, l.frames, c)| <= PendingOf(Entries(l), c);
    }
  }

  lemma RetryIs(l: Ledger)
    ensures var m := LoopStep(l, ServeRetry);
            || m == l
            || (l.held.Listed? && m == Refreshed(l))
            || (Serving(l) && NextNumber(l) !in l.held.jobs.value && m == Refreshed(WithLeftCleared(l)))
  {
  }

  // The retry clears what the last Job left, and only while no Job of the
  // target is listed or exists under the next number.
  lemma RetryKeepsInv(l: Ledger)
    requires Inv(l)
    ensures var m := LoopStep(l, ServeRetry);
            && Inv(m)
            && (Entries(m) != Entries(l) ==>
                  && Serving(l) && Applied(l) + 1 !in l.held.jobs.value && Applied(l) + 1 !in l.jobs
                  && Entries(m) == LeftCleared(Entries(l)) && m.cleared == l.cleared + AllLeft(Entries(l)))
  {
    RetryIs(l);
    var m := LoopStep(l, ServeRetry);
    if m != l {
      if m == Refreshed(l) {
        RefreshKeepsInv(l);
      } else {
        ClearedInv(l);
        RefreshKeepsInv(WithLeftCleared(l));
      }
    }
  }

  lemma ClearRetryKeepsInv(l: Ledger)
    requires Inv(l)
    ensures Inv(LoopStep(l, ClearRetry))
  {
    if LoopStep(l, ClearRetry) != l {
      var written := l.(target := l.target.(version := l.target.version + 1, retryAsked := false));
      QuietWrite(l, written);
      RefreshKeepsInv(written);
    }
  }

  // A Job starts from the copy's count: what the claim's entry grew by since
  // then is the frames counted since.
  lemma StartedJobFits(l: Ledger, claim: string)
    requires CopyFits(l) && LoopStep(l, StartJob(claim)) != l
    ensures var m := LoopStep(l, StartJob(claim));
            && Serving(l) && NextNumber(l) == Applied(l) + 1 && NextNumber(l) !in l.jobs
            && m == l.(jobs := m.jobs, held := l.held.(served := true))
            && m.jobs == l.jobs[NextNumber(l) := m.jobs[NextNumber(l)]]
            && JobFits(Entries(l), l.log, l.frames, m.jobs[NextNumber(l)])
  {
    var entries := l.held.copy.status.outboxes;
    var e := entries[OutboxIndex(entries, claim)];
    assert EntryFits(Entries(l), l.log, l.frames, e, l.held.counted);
  }

  lemma StartKeepsInv(l: Ledger, claim: string)
    requires Inv(l)
    ensures Inv(LoopStep(l, StartJob(claim)))
  {
    if LoopStep(l, StartJob(claim)) != l {
      StartedJobFits(l, claim);
      OneJobMore(l, LoopStep(l, StartJob(claim)));
    }
  }

  lemma OneJobMore(l: Ledger, m: Ledger)
    requires Inv(l) && l.held.Listed? && Applied(l) + 1 in m.jobs
    requires m == l.(jobs := m.jobs, held := l.held.(served := true))
    requires m.jobs == l.jobs[Applied(l) + 1 := m.jobs[Applied(l) + 1]]
    requires JobFits(Entries(l), l.log, l.frames, m.jobs[Applied(l) + 1])
    ensures Inv(m)
  {
  }

  // ---------------------------------------------------------------------------
  // The report

  // The counted frames that a finished Job left in its claim: those its last
  // attempt saw and did not move, and those counted since its snapshot.
  lemma LeftCoversWhatIsThere(entries: seq<OutboxFrames>, log: seq<FrameId>, frames: map<FrameId, Frame>, j: Job)
    requires JobFits(entries, log, frames, j) && j.state.Succeeded? && j.state.pod.Reported?
    ensures |StillIn(log, frames, j.claim)|
         <= j.state.pod.report.left + (entries[OutboxIndex(entries, j.claim)].pending - j.pending)
  {
    var there := StillIn(log, frames, j.claim);
    var left := j.attempt.value.seen - j.attempt.value.moved;
    SubsetSize(there * j.before, left);
    SubsetSize(there - j.before, CountedIn(log, frames, j.claim) - j.before);
    CoverSize(there, there * j.before, there - j.before);
  }

  // The entries after a finished Job: still never too few, and the excess falls
  // by at least one.
  ghost predicate Falls(o: seq<OutboxFrames>, p: seq<OutboxFrames>, log: seq<FrameId>, frames: map<FrameId, Frame>) {
    Sound(p) && NeverTooFew(p, log, frames) && Excess(p) <= Excess(o) - 1
  }

  lemma ReportFalls(o: seq<OutboxFrames>, log: seq<FrameId>, frames: map<FrameId, Frame>, j: Job)
    requires Sound(o) && NeverTooFew(o, log, frames)
    requires JobFits(o, log, frames, j) && j.state.Succeeded? && j.state.pod.Reported?
    ensures Falls(o, Settled(o, OutboxIndex(o, j.claim), j.state.pod.report.left, j.pending), log, frames)
  {
    var i, left := OutboxIndex(o, j.claim), j.state.pod.report.left;
    LeftCoversWhatIsThere(o, log, frames, j);
    SettledCounts(o, i, left, j.pending);
    SettledExcess(o, i, left, j.pending);
    forall c ensures |StillIn(log, frames, c)| <= PendingOf(Settled(o, i, left, j.pending), c) {
      assert |StillIn(log, frames, c)| <= PendingOf(o, c);
    }
  }

  lemma NoReportFalls(o: seq<OutboxFrames>, log: seq<FrameId>, frames: map<FrameId, Frame>, i: nat)
    requires Sound(o) && NeverTooFew(o, log, frames) && i < |o| && o[i].left < o[i].pending
    ensures Falls(o, o[i := o[i].(left := o[i].pending)], log, frames)
  {
    var x := o[i].(left := o[i].pending);
    UpdateCounts(o, i, x);
    ExcessOfUpdate(o, i, x);
    IndexOfEntry(o, i);
    forall c ensures |StillIn(log, frames, c)| <= PendingOf(o[i := x], c) {
      assert |StillIn(log, frames, c)| <= PendingOf(o, c);
    }
  }

  lemma OutcomeKeepsCounts(l: Ledger, j: Job)
    requires Sound(Entries(l)) && NeverTooFew(Entries(l), l.log, l.frames)
    requires JobFits(Entries(l), l.log, l.frames, j) && OutcomeOf(j, Applied(l) + 1).Some?
    ensures var after := AfterOutcome(l.target.spec, l.target.status, OutcomeOf(j, Applied(l) + 1).value);
            && after.Some? && after.value.applied == Applied(l) + 1
            && Falls(Entries(l), after.value.outboxes, l.log, l.frames)
            && after.value.reservation == l.target.status.reservation
            && after.value.exposure == l.target.status.exposure
  {
    if j.state.Succeeded? && j.state.pod.Reported? {
      ReportFalls(Entries(l), l.log, l.frames, j);
    } else {
      NoReportFalls(Entries(l), l.log, l.frames, OutboxIndex(Entries(l), j.claim));
    }
  }

  // The claim's entry after a report is gone, or has the report's counts.
  lemma SettledIs(o: seq<OutboxFrames>, i: nat, left: nat, snapshot: nat)
    requires i < |o| && snapshot <= o[i].pending
    ensures var pending := left + o[i].pending - snapshot;
            Settled(o, i, left, snapshot)
            == if pending == 0 then Removed(o, i) else o[i := OutboxFrames(o[i].claim, pending, left)]
  {
  }

  lemma SettledExcess(o: seq<OutboxFrames>, i: nat, left: nat, snapshot: nat)
    requires Sound(o) && i < |o| && o[i].left < snapshot <= o[i].pending
    ensures Excess(Settled(o, i, left, snapshot)) <= Excess(o) - 1
  {
    SettledIs(o, i, left, snapshot);
    ExcessOfRemoved(o, i);
    ExcessOfUpdate(o, i, OutboxFrames(o[i].claim, left + o[i].pending - snapshot, left));
  }

  lemma SettledCounts(o: seq<OutboxFrames>, i: nat, left: nat, snapshot: nat)
    requires Sound(o) && i < |o| && o[i].left < snapshot <= o[i].pending
    ensures Sound(Settled(o, i, left, snapshot))
    ensures forall c :: PendingOf(Settled(o, i, left, snapshot), c)
                     == if c == o[i].claim then left + o[i].pending - snapshot else PendingOf(o, c)
  {
    SettledIs(o, i, left, snapshot);
    var pending := left + o[i].pending - snapshot;
    if pending == 0 {
      assert Settled(o, i, left, snapshot) == Removed(o, i);
      RemovedCounts(o, i);
    } else {
      assert Settled(o, i, left, snapshot) == o[i := OutboxFrames(o[i].claim, pending, left)];
      UpdateCounts(o, i, OutboxFrames(o[i].claim, pending, left));
    }
  }

  function WithOutcome(l: Ledger, status: Status): Ledger
    requires l.held.Listed?
  {
    Put(l, status).(held := l.held.(served := true))
  }

  // The target's finished Job, as the pass listed it.
  ghost predicate Finished(l: Ledger, j: Job) {
    && Serving(l) && Applied(l) + 1 in l.held.jobs.value && j == l.held.jobs.value[Applied(l) + 1]
    && OutcomeOf(j, Applied(l) + 1).Some?
  }

  lemma OutcomeInv(l: Ledger, j: Job)
    requires Inv(l) && Finished(l, j)
    ensures var after := AfterOutcome(l.target.spec, l.target.status, OutcomeOf(j, Applied(l) + 1).value);
            after.Some? && InvButCopy(WithOutcome(l, after.value))
  {
    OutcomeKeepsCounts(l, j);
  }

  lemma SettleJobKeepsInv(l: Ledger)
    requires Inv(l)
    ensures Inv(JobSettled(l))
  {
    if Serving(l) && Applied(l) + 1 in l.held.jobs.value {
      var j := l.held.jobs.value[Applied(l) + 1];
      if OutcomeOf(j, Applied(l) + 1).Some? {
        ServedKeepsInv(l);
        if !l.gone { ReportKeepsInv(l, j); }
      }
    }
  }

  lemma ServedKeepsInv(l: Ledger)
    requires Inv(l) && l.held.Listed?
    ensures Inv(l.(held := l.held.(served := true)))
  {
  }

  lemma ReportKeepsInv(l: Ledger, j: Job)
    requires Inv(l) && Finished(l, j) && !l.gone
    ensures Inv(JobSettled(l))
  {
    OutcomeInv(l, j);
    SettleJobIs(l, j);
    var after := AfterOutcome(l.target.spec, l.target.status, OutcomeOf(j, Applied(l) + 1).value);
    RefreshKeepsInv(WithOutcome(l, after.value));
  }

  lemma SettleJobIs(l: Ledger, j: Job)
    requires CopyFits(l) && Finished(l, j) && !l.gone
    ensures var after := AfterOutcome(l.target.spec, l.target.status, OutcomeOf(j, Applied(l) + 1).value);
            after.Some? && JobSettled(l) == Refreshed(WithOutcome(l, after.value))
  {
    var outcome := OutcomeOf(j, Applied(l) + 1).value;
    SettleJobServes(l, j);
    SettledMeansApplied(l, outcome);
    ServedAfterRefresh(l, AfterOutcome(l.target.spec, l.target.status, outcome).value);
  }

  lemma SettleHeldStaysListed(l: Ledger, w: LoopWrite)
    requires l.held.Listed?
    ensures SettleHeld(l, w).held.Listed?
  {
  }

  lemma JobSettledIs(l: Ledger, outcome: Outcome)
    requires Serving(l) && NextNumber(l) in l.held.jobs.value
    requires OutcomeOf(l.held.jobs.value[NextNumber(l)], NextNumber(l)) == Some(outcome)
    requires SettleHeld(l, ApplyOutcome(outcome)).held.Listed?
    ensures var settled := SettleHeld(l, ApplyOutcome(outcome));
            JobSettled(l) == settled.(held := settled.held.(served := true))
  {
  }

  lemma SettleJobServes(l: Ledger, j: Job)
    requires CopyFits(l) && Finished(l, j)
    ensures var settled := SettleHeld(l, ApplyOutcome(OutcomeOf(j, Applied(l) + 1).value));
            settled.held.Listed? && JobSettled(l) == settled.(held := settled.held.(served := true))
  {
    var outcome := OutcomeOf(j, Applied(l) + 1).value;
    SettleHeldStaysListed(l, ApplyOutcome(outcome));
    JobSettledIs(l, outcome);
  }

  lemma ServedAfterRefresh(l: Ledger, status: Status)
    requires l.held.Listed?
    ensures var settled := Refreshed(Put(l, status));
            settled.(held := settled.held.(served := true)) == Refreshed(WithOutcome(l, status))
  {
  }

  // The settled write of an outcome lands: the copy and the current version
  // are both one Job behind it.
  lemma SettledMeansApplied(l: Ledger, outcome: Outcome)
    requires l.held.Listed? && !l.gone
    requires l.held.copy.status.applied < outcome.number && Applied(l) < outcome.number
    ensures SettleHeld(l, ApplyOutcome(outcome))
         == Refreshed(Put(l, AfterOutcome(l.target.spec, l.target.status, outcome).value))
  {
    assert AfterOutcome(l.held.copy.spec, l.held.copy.status, outcome).value.applied == outcome.number;
    assert AfterOutcome(l.target.spec, l.target.status, outcome).value.applied == outcome.number;
  }

  lemma RerunKeepsInv(l: Ledger)
    requires Inv(l)
    ensures Inv(LoopStep(l, Rerun))
  {
  }

  lemma FinalizerKeepsInv(l: Ledger, a: Action)
    requires Inv(l) && (a.AddFinalizer? || a.DropFinalizer?)
    ensures Inv(LoopStep(l, a))
  {
    QuietWrite(l, LoopStep(l, a));
  }

  lemma LoopKeepsInv(l: Ledger, a: Action)
    requires Inv(l)
    ensures Inv(LoopStep(l, a))
  {
    match a
    case List => PassKeepsInv(l, a);
    case Read => PassKeepsInv(l, a);
    case EndPass => PassKeepsInv(l, a);
    case KeepCounts => if Serving(l) { QuietSettleKeepsInv(l, KeepProgress); }
    case ReportWait(_) => if l.held.Listed? { QuietSettleKeepsInv(l, NoteDeleting); }
    case ServeRetry => RetryKeepsInv(l);
    case ClearRetry => ClearRetryKeepsInv(l);
    case StartJob(claim) => StartKeepsInv(l, claim);
    case SettleJob => SettleJobKeepsInv(l);
    case Rerun => RerunKeepsInv(l);
    case AddFinalizer => FinalizerKeepsInv(l, a);
    case DropFinalizer(_) => FinalizerKeepsInv(l, a);
    case _ =>
  }
}
