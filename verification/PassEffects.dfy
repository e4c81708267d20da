// What the writes of a promotion pass leave of a target and its Jobs, whatever
// the other actors do between them.
module PassEffects {
  import opened Basics
  import opened Sequences
  import opened Targets
  import opened Accounts
  import opened Ledgers
  import opened LedgerInvariant
  import opened PromotionLoop
  import opened Promises

  // An action of any other actor than the promotion loop.
  predicate ByOthers(a: Action) {
    ByRunner(a) || ByPerson(a) || OfFrames(a) || OfJob(a)
  }

  predicate AllByOthers(actions: seq<Action>) {
    forall i :: 0 <= i < |actions| ==> ByOthers(actions[i])
  }

  // ---------------------------------------------------------------------------
  // The copy of a pass, beside the target

  function LeftOf(outboxes: seq<OutboxFrames>, claim: string): nat {
    var i := OutboxIndex(outboxes, claim);
    if i < 0 then 0 else outboxes[i].left
  }

  // The copy's entries are one for a claim, and what the last Job left in each
  // claim is what the target says by now.
  ghost predicate CopyKnows(l: Ledger) {
    l.held.Listed? ==>
      && Sound(l.held.copy.status.outboxes)
      && forall c :: LeftOf(l.held.copy.status.outboxes, c) == LeftOf(Entries(l), c)
  }

  // What every moment of a pass has.
  ghost predicate InPass(l: Ledger) {
    Inv(l) && CopyKnows(l)
  }

  // What another actor's step leaves as the pass has it.
  ghost predicate SameForThePass(l: Ledger, m: Ledger) {
    && Applied(m) == Applied(l) && m.held == l.held && (l.gone ==> m.gone)
    && (l.target.retryAsked ==> m.target.retryAsked)
    && forall c :: LeftOf(Entries(m), c) == LeftOf(Entries(l), c)
  }

  lemma CountingLeavesWhatIsLeft(l: Ledger, a: Action, c: string)
    requires Inv(l) && a.Count? && a.counted && RunnerStep(l, a) != l
    ensures LeftOf(Entries(RunnerStep(l, a)), c) == LeftOf(Entries(l), c)
    ensures Applied(RunnerStep(l, a)) == Applied(l)
  {
    var claim := l.frames[a.e.frameID].claim;
    OneMoreCounts(Entries(l), claim, c);
    if OutboxIndex(Entries(l), c) < 0 { NewEntryHasNothingLeft(Entries(l), claim, c); }
  }

  lemma NewEntryHasNothingLeft(o: seq<OutboxFrames>, claim: string, c: string)
    requires Sound(o) && OutboxIndex(o, c) < 0
    ensures LeftOf(OneMore(o, claim), c) == 0
  {
  }

  lemma RunnersRest(l: Ledger, a: Action)
    requires ByRunner(a)
    ensures RunnerStep(l, a).held == l.held && RunnerStep(l, a).gone == l.gone
    ensures RunnerStep(l, a).target.retryAsked == l.target.retryAsked
  {
  }

  lemma RunnerIsTheSameForThePass(l: Ledger, a: Action)
    requires Inv(l) && ByRunner(a)
    ensures SameForThePass(l, RunnerStep(l, a))
  {
    RunnersRest(l, a);
    if a.Count? && a.counted {
      if RunnerStep(l, a) != l {
        forall c ensures LeftOf(Entries(RunnerStep(l, a)), c) == LeftOf(Entries(l), c) {
          CountingLeavesWhatIsLeft(l, a, c);
        }
      }
    } else {
      OtherRunnerWrites(l, a);
    }
  }

  lemma PersonIsTheSameForThePass(l: Ledger, a: Action)
    requires ByPerson(a)
    ensures SameForThePass(l, PersonStep(l, a))
  {
  }

  lemma FramesAreTheSameForThePass(l: Ledger, a: Action)
    ensures SameForThePass(l, FramesStep(l, a))
  {
  }

  lemma JobsAreTheSameForThePass(l: Ledger, a: Action)
    requires OfJob(a)
    ensures SameForThePass(l, JobStep(l, a))
  {
  }

  lemma RunnersStep(l: Ledger, a: Action)
    requires ByRunner(a)
    ensures Step(l, a) == RunnerStep(l, a)
  {
  }

  lemma OtherIsTheSameForThePass(l: Ledger, a: Action)
    requires Inv(l) && ByOthers(a)
    ensures SameForThePass(l, Step(l, a))
  {
    if ByRunner(a) {
      RunnersStep(l, a);
      RunnerIsTheSameForThePass(l, a);
    } else if ByPerson(a) {
      PersonsStep(l, a);
      PersonIsTheSameForThePass(l, a);
    } else if OfFrames(a) {
      StepOfFrames(l, a);
      FramesAreTheSameForThePass(l, a);
    } else {
      StepOfJob(l, a);
      JobsAreTheSameForThePass(l, a);
    }
  }

  // Whatever the others do, the pass goes on from where it was.
  lemma {:induction false} OthersAreTheSameForThePass(l: Ledger, actions: seq<Action>)
    requires InPass(l) && AllByOthers(actions)
    ensures InPass(Run(l, actions)) && SameForThePass(l, Run(l, actions))
    decreases |actions|
  {
    if actions != [] {
      StepKeepsInv(l, actions[0]);
      OtherIsTheSameForThePass(l, actions[0]);
      OthersAreTheSameForThePass(Step(l, actions[0]), actions[1..]);
    }
  }

  // ---------------------------------------------------------------------------
  // The loop's own writes

  lemma RefreshedKnows(m: Ledger, written: Ledger)
    requires Sound(Entries(m)) && m == Refreshed(written)
    ensures CopyKnows(m)
  {
  }

  // A write of the loop refreshes its copy, or does nothing.
  lemma SettledKnows(l: Ledger, w: LoopWrite)
    requires InPass(l) && l.held.Listed? && Sound(Entries(SettleHeld(l, w)))
    ensures CopyKnows(SettleHeld(l, w))
  {
    var m, written := SettleHeld(l, w), Write(l, Composed(w, l.target.spec, l.target.status));
    SettledWrite(l, w, written);
    if m == Refreshed(written) {
      RefreshedKnows(m, written);
    } else if m != l {
      RefreshedKnows(m, written.(cleared := l.cleared + AllLeft(Entries(l))));
    }
  }

  // What a settled write leaves of the pass.
  ghost predicate SamePass(l: Ledger, m: Ledger) {
    && l.held.Listed? && m.held.Listed? && m.held.jobs == l.held.jobs && m.held.served == l.held.served
    && m.gone == l.gone && m.target.retryAsked == l.target.retryAsked
    && (m.held.copy == l.held.copy || m.held.copy == m.target)
  }

  lemma SettledIsTheSamePass(l: Ledger, w: LoopWrite)
    requires l.held.Listed?
    ensures SamePass(l, SettleHeld(l, w))
  {
  }

  lemma KeepCountsStays(l: Ledger)
    requires InPass(l) && l.held.Listed?
    ensures var m := SettleHeld(l, KeepProgress); InPass(m) && SamePass(l, m) && Applied(m) == Applied(l)
  {
    QuietSettleKeepsInv(l, KeepProgress);
    SettledKnows(l, KeepProgress);
    AppliedStays(l, KeepProgress);
    SettledIsTheSamePass(l, KeepProgress);
  }

  lemma AppliedStays(l: Ledger, w: LoopWrite)
    requires l.held.Listed? && !w.ApplyOutcome?
    ensures Applied(SettleHeld(l, w)) == Applied(l)
  {
  }

  lemma OtherStepsKnow(l: Ledger, a: Action)
    requires InPass(l) && ComposesNothing(a)
    ensures CopyKnows(LoopStep(l, a))
  {
  }

  lemma JobSettledKnows(l: Ledger)
    requires InPass(l)
    ensures CopyKnows(JobSettled(l))
  {
    SettleJobKeepsInv(l);
    if Serving(l) && NextNumber(l) in l.held.jobs.value {
      var outcome := OutcomeOf(l.held.jobs.value[NextNumber(l)], NextNumber(l));
      if outcome.Some? { SettledKnows(l, ApplyOutcome(outcome.value)); }
    }
  }

  lemma LoopKnows(l: Ledger, a: Action)
    requires InPass(l) && !ByOthers(a)
    ensures CopyKnows(LoopStep(l, a))
  {
    LoopKeepsInv(l, a);
    if ComposesNothing(a) {
      OtherStepsKnow(l, a);
    } else if a.SettleJob? {
      JobSettledKnows(l);
    } else if l.held.Listed? {
      LoopWrites(l, a);
      if LoopStep(l, a) != l { SettledKnows(l, WriteOf(a)); }
    }
  }

  lemma LoopWrites(l: Ledger, a: Action)
    requires l.held.Listed? && (a.KeepCounts? || a.ServeRetry? || a.ReportWait?)
    ensures LoopStep(l, a) == l || LoopStep(l, a) == SettleHeld(l, WriteOf(a))
  {
  }

  // Every moment of every run is one that a pass may serve a target at.
  lemma {:induction false} EveryRunIsInPass(l: Ledger, actions: seq<Action>)
    requires InPass(l)
    ensures InPass(Run(l, actions))
    decreases |actions|
  {
    if actions != [] {
      var a := actions[0];
      StepKeepsInv(l, a);
      if ByOthers(a) {
        OtherIsTheSameForThePass(l, a);
      } else {
        LoopKnows(l, a);
        assert Step(l, a) == LoopStep(l, a);
      }
      EveryRunIsInPass(Step(l, a), actions[1..]);
    }
  }

  // ---------------------------------------------------------------------------
  // The retry

  ghost predicate NothingIsLeft(outboxes: seq<OutboxFrames>) {
    forall c :: LeftOf(outboxes, c) == 0
  }

  lemma NoneLeftInEntries(outboxes: seq<OutboxFrames>)
    requires Sound(outboxes) && NothingIsLeft(outboxes)
    ensures forall i :: 0 <= i < |outboxes| ==> outboxes[i].left == 0
  {
    forall i | 0 <= i < |outboxes| ensures outboxes[i].left == 0 {
      IndexOfEntry(outboxes, i);
      assert LeftOf(outboxes, outboxes[i].claim) == 0;
    }
  }

  lemma ClearedHasNothingLeft(outboxes: seq<OutboxFrames>)
    ensures NothingIsLeft(LeftCleared(outboxes))
  {
  }

  lemma NoLeftMeansNone(outboxes: seq<OutboxFrames>)
    requires AllLeft(outboxes) == 0
    ensures NothingIsLeft(outboxes)
  {
    NothingLeft(outboxes);
  }

  // The retry that the annotation asks for leaves no frame marked as left, whether
  // it had something to clear or not.
  lemma RetryClears(l: Ledger)
    requires InPass(l) && Serving(l) && NextNumber(l) !in l.held.jobs.value && l.held.copy.retryAsked && !l.gone
    ensures var m := LoopStep(l, ServeRetry);
            InPass(m) && SamePass(l, m) && NothingIsLeft(Entries(m)) && Applied(m) == Applied(l)
  {
    RetryStep(l);
    RetryKeepsInv(l);
    SettledKnows(l, ClearLeft);
    AppliedStays(l, ClearLeft);
    SettledIsTheSamePass(l, ClearLeft);
    if AllLeft(l.held.copy.status.outboxes) == 0 {
      NoLeftMeansNone(l.held.copy.status.outboxes);
      NothingToClear(l);
    } else {
      RetryLeavesNone(l);
    }
  }

  lemma RetryStep(l: Ledger)
    requires Serving(l) && NextNumber(l) !in l.held.jobs.value && l.held.copy.retryAsked
    ensures LoopStep(l, ServeRetry) == SettleHeld(l, ClearLeft)
  {
  }

  lemma NothingToClear(l: Ledger)
    requires CopyKnows(l) && l.held.Listed? && AllLeft(l.held.copy.status.outboxes) == 0
    requires NothingIsLeft(l.held.copy.status.outboxes)
    ensures SettleHeld(l, ClearLeft) == l && NothingIsLeft(Entries(l))
  {
  }

  lemma RetryLeavesNone(l: Ledger)
    requires l.held.Listed? && !l.gone && AllLeft(l.held.copy.status.outboxes) > 0
    ensures NothingIsLeft(Entries(SettleHeld(l, ClearLeft)))
  {
    var copy := l.held.copy.status.outboxes;
    NothingLeft(copy);
    if AllLeft(Entries(l)) == 0 {
      NoLeftMeansNone(Entries(l));
      assert Entries(SettleHeld(l, ClearLeft)) == Entries(l);
    } else {
      NothingLeft(Entries(l));
      ClearedHasNothingLeft(Entries(l));
      assert Entries(SettleHeld(l, ClearLeft)) == LeftCleared(Entries(l));
    }
  }

  lemma AnnotationGoes(l: Ledger)
    requires InPass(l) && Serving(l) && NextNumber(l) !in l.held.jobs.value && l.held.copy.retryAsked && !l.gone
    ensures var m := LoopStep(l, ClearRetry);
            && InPass(m) && Entries(m) == Entries(l) && Applied(m) == Applied(l) && m.held.Listed? && !m.gone
            && m.held.jobs == l.held.jobs && m.held.served == l.held.served
            && m.held.copy == m.target && !m.held.copy.retryAsked
  {
    ClearRetryKeepsInv(l);
    RefreshedKnows(LoopStep(l, ClearRetry), LoopStep(l, ClearRetry));
  }

  // ---------------------------------------------------------------------------
  // A new Job

  // The Job that starts on an entry of the copy has that entry's claim and count.
  lemma StartsOn(l: Ledger, i: nat)
    requires InPass(l) && Serving(l) && NextNumber(l) !in l.held.jobs.value && i < |l.held.copy.status.outboxes|
    requires l.held.copy.status.outboxes[i].pending > l.held.copy.status.outboxes[i].left
    ensures var e := l.held.copy.status.outboxes[i]; var m := LoopStep(l, StartJob(e.claim));
            && m.held.Listed? && m.held.copy == l.held.copy && Applied(l) + 1 in m.jobs
            && m.jobs[Applied(l) + 1].claim == e.claim && m.jobs[Applied(l) + 1].pending == e.pending
            && m.jobs[Applied(l) + 1].state.Running? && m.target == l.target && m.gone == l.gone
  {
    IndexOfEntry(l.held.copy.status.outboxes, i);
    assert NextNumber(l) !in l.jobs;
  }

  // ---------------------------------------------------------------------------
  // A listed Job

  // The Job ended, and what its pod left says so.
  predicate HasResult(j: Job) {
    j.state.Failed? || (j.state.Succeeded? && (j.state.pod.Garbled? || j.state.pod.Reported?))
  }

  // What a Job with a result leaves of the target, as the spec is then: its number
  // is applied, its report is what the sequences and the claim's entry say, and a
  // Job with no report marks all that is pending in its claim as left.
  ghost predicate ResultLanded(m: Ledger, j: Job, number: nat) {
    var i := OutboxIndex(Entries(m), j.claim);
    && Applied(m) == number
    && (if j.state.Succeeded? && j.state.pod.Reported? then
          && (i >= 0 ==> Entries(m)[i].left == j.state.pod.report.left)
          && (!j.state.pod.report.truncated ==> CatalogCounts(m.target, j.state.pod.report.totals))
        else i >= 0 && Entries(m)[i].left == Entries(m)[i].pending)
  }

  // Every sequence of the spec has as many archived frames as the totals give it.
  predicate CatalogCounts(t: Object, totals: seq<Total>) {
    && |t.status.sequences| == |t.spec.sequences|
    && forall i :: 0 <= i < |t.spec.sequences| ==>
         && t.status.sequences[i].sequence == t.spec.sequences[i]
         && t.status.sequences[i].archived == Counted(t.spec.sequences, totals, i)
  }

  // The claim's entry after a report: gone, or with what the report left.
  lemma ReportedEntry(o: seq<OutboxFrames>, n: nat, left: nat, snapshot: nat)
    requires Sound(o) && n < |o| && snapshot <= o[n].pending
    ensures var p := Targets.Settled(o, n, left, snapshot); var i := OutboxIndex(p, o[n].claim);
            i >= 0 ==> p[i].left == left
  {
    var pending := left + o[n].pending - snapshot;
    SettledIs(o, n, left, snapshot);
    if pending == 0 {
      RemovedIsGone(o, n);
    } else {
      UpdateCountsHere(o, n, OutboxFrames(o[n].claim, pending, left));
    }
  }

  lemma ReportsStatus(l: Ledger, j: Job, status: Status)
    requires j.state.Succeeded? && j.state.pod.Reported?
    requires AfterOutcome(l.target.spec, l.target.status, OutcomeOf(j, Applied(l) + 1).value) == Some(status)
    ensures var o, n := Entries(l), OutboxIndex(Entries(l), j.claim);
            status.outboxes == if n < 0 then o else Targets.Settled(o, n, j.state.pod.report.left, j.pending)
  {
    var r := OutcomeOf(j, Applied(l) + 1).value;
    assert r == Outcome(Applied(l) + 1, j.claim, j.pending, Some(j.state.pod.report));
    ReportedOutboxes(l.target.spec, l.target.status, r, status);
  }

  lemma ReportLandsInTheEntry(l: Ledger, j: Job, status: Status)
    requires Sound(Entries(l)) && JobFits(Entries(l), l.log, l.frames, j) && j.state.Succeeded? && j.state.pod.Reported?
    requires AfterOutcome(l.target.spec, l.target.status, OutcomeOf(j, Applied(l) + 1).value) == Some(status)
    ensures var i := OutboxIndex(status.outboxes, j.claim);
            i >= 0 ==> status.outboxes[i].left == j.state.pod.report.left
  {
    ReportsStatus(l, j, status);
    ReportedEntry(Entries(l), OutboxIndex(Entries(l), j.claim), j.state.pod.report.left, j.pending);
  }

  lemma ReportLandsInTheSequences(l: Ledger, j: Job, status: Status)
    requires j.state.Succeeded? && j.state.pod.Reported? && !j.state.pod.report.truncated
    requires AfterOutcome(l.target.spec, l.target.status, OutcomeOf(j, Applied(l) + 1).value) == Some(status)
    ensures CatalogCounts(l.target.(status := status), j.state.pod.report.totals)
  {
    TheReportSetsTheCounts(l.target.spec, l.target.status, OutcomeOf(j, Applied(l) + 1).value);
  }

  lemma UpdateCountsHere(o: seq<OutboxFrames>, n: nat, x: OutboxFrames)
    requires Sound(o) && n < |o| && x.claim == o[n].claim
    ensures OutboxIndex(o[n := x], x.claim) == n
  {
    SameClaimsSameIndex(o, o[n := x], x.claim);
    IndexOfEntry(o, n);
  }

  lemma RemovedIsGone(o: seq<OutboxFrames>, n: nat)
    requires Sound(o) && n < |o|
    ensures OutboxIndex(Removed(o, n), o[n].claim) < 0
  {
    var r := Removed(o, n);
    forall k | 0 <= k < |r| ensures r[k].claim != o[n].claim {
      assert r[k] == o[if k < n then k else k + 1];
    }
  }

  lemma NoReportLands(l: Ledger, j: Job, status: Status)
    requires Sound(Entries(l)) && JobFits(Entries(l), l.log, l.frames, j) && HasResult(j)
    requires !(j.state.Succeeded? && j.state.pod.Reported?)
    requires AfterOutcome(l.target.spec, l.target.status, OutcomeOf(j, Applied(l) + 1).value) == Some(status)
    ensures var i := OutboxIndex(status.outboxes, j.claim);
            i >= 0 && status.outboxes[i].left == status.outboxes[i].pending
  {
    var o, n := Entries(l), OutboxIndex(Entries(l), j.claim);
    UpdateCountsHere(o, n, o[n].(left := o[n].pending));
  }

  // The write for a listed Job with a result lands it, whatever the others wrote
  // since the pass read its copy.
  lemma AResultLands(l: Ledger)
    requires InPass(l) && Serving(l) && !l.gone && Applied(l) + 1 in l.held.jobs.value
    requires HasResult(l.held.jobs.value[Applied(l) + 1])
    ensures ResultLanded(JobSettled(l), l.held.jobs.value[Applied(l) + 1], Applied(l) + 1)
  {
    var j := l.held.jobs.value[Applied(l) + 1];
    assert Finished(l, j);
    SettleJobIs(l, j);
    OutcomeKeepsCounts(l, j);
    var status := AfterOutcome(l.target.spec, l.target.status, OutcomeOf(j, Applied(l) + 1).value).value;
    if j.state.Succeeded? && j.state.pod.Reported? {
      ReportLandsInTheEntry(l, j, status);
      if !j.state.pod.report.truncated { ReportLandsInTheSequences(l, j, status); }
    } else {
      NoReportLands(l, j, status);
    }
    LandedIs(l, j, status, JobSettled(l));
  }

  lemma LandedIs(l: Ledger, j: Job, status: Status, m: Ledger)
    requires l.held.Listed? && m == Refreshed(WithOutcome(l, status)) && status.applied == Applied(l) + 1
    requires var i := OutboxIndex(status.outboxes, j.claim);
             if j.state.Succeeded? && j.state.pod.Reported? then
               && (i >= 0 ==> status.outboxes[i].left == j.state.pod.report.left)
               && (!j.state.pod.report.truncated ==>
                     CatalogCounts(l.target.(status := status), j.state.pod.report.totals))
             else i >= 0 && status.outboxes[i].left == status.outboxes[i].pending
    ensures ResultLanded(m, j, Applied(l) + 1)
  {
  }

  // ---------------------------------------------------------------------------
  // What serving one target comes to

  // The next Job, as the pass listed it, and what the pass leaves: a result is
  // applied, a Job whose pod is gone is deleted, and any other is left alone.
  ghost predicate JobServed(job: Job, number: nat, m: Ledger) {
    && (HasResult(job) && !m.gone ==> ResultLanded(m, job, number))
    && (job.state == Succeeded(PodGone) ==> number !in m.jobs)
    && (!HasResult(job) ==> Applied(m) + 1 == number)
  }

  // An entry that a new Job can promote.
  predicate Promotable(e: OutboxFrames, waits: set<string>, busy: set<string>) {
    e.pending > e.left && e.claim !in waits && e.claim !in busy
  }

  // The first entry that a new Job can promote.
  predicate FirstOf(entries: seq<OutboxFrames>, i: int, waits: set<string>, busy: set<string>) {
    && 0 <= i < |entries| && Promotable(entries[i], waits, busy)
    && forall k :: 0 <= k < i ==> !Promotable(entries[k], waits, busy)
  }

  // A Job runs for an entry as it was.
  predicate RunsFor(m: Ledger, number: nat, e: OutboxFrames) {
    number in m.jobs && m.jobs[number].state.Running? && m.jobs[number].claim == e.claim
    && m.jobs[number].pending == e.pending
  }

  // A new Job under a number that no Job had: it runs on the claim of the copy's
  // first promotable entry, with that entry's count, and there is none exactly
  // when no entry is promotable, or the archive claim is missing.
  ghost predicate NewJobServed(started: Option<string>, number: nat, waits: set<string>, busy: set<string>,
                               archive: bool, m: Ledger)
    requires m.held.Listed?
  {
    var entries := m.held.copy.status.outboxes;
    && (started.Some? <==> archive && exists i :: 0 <= i < |entries| && Promotable(entries[i], waits, busy))
    && (started.Some? ==> exists i :: FirstOf(entries, i, waits, busy) && started.value == entries[i].claim
                                      && RunsFor(m, number, entries[i]))
  }

  // The sequences follow the spec, and the progress and Complete are theirs.
  ghost predicate Tidy(t: Object) {
    && Follows(t.spec.sequences, t.status.sequences)
    && t.status.progress == (ArchivedOf(t.status.sequences), WantedOf(t.status.sequences))
    && (t.status.complete <==>
          && t.status.progress.1 != 0
          && forall i :: 0 <= i < |t.status.sequences| ==>
               t.status.sequences[i].archived >= t.status.sequences[i].sequence.count)
  }

  lemma WithProgressIsTidy(t: Object, status: Status)
    requires Follows(t.spec.sequences, status.sequences)
    ensures Tidy(t.(status := WithProgress(status)))
  {
    CompleteMeansEverySequence(status.sequences);
  }

  lemma SameCountsStayTidy(t: Object, status: Status)
    requires Tidy(t) && status.sequences == t.status.sequences && status.progress == t.status.progress
    requires status.complete == t.status.complete
    ensures Tidy(t.(status := status))
  {
  }

  lemma ProgressIsTidy(spec: Spec, status: Status, t: Object)
    requires AfterProgress(spec, status) == Some(t.status) && t.spec == spec
    ensures Tidy(t)
  {
    var counts := Aligned(spec.sequences, status.sequences);
    ProgressFollows(spec.sequences, status.sequences, [], true);
    WithProgressIsTidy(t, status.(sequences := counts));
  }

  // A pass over a current copy leaves the target tidy with its first write.
  lemma KeepCountsTidies(l: Ledger)
    requires l.held.Listed? && l.held.copy == l.target && !l.gone
    ensures Tidy(SettleHeld(l, KeepProgress).target)
  {
    ProgressIsTidy(l.target.spec, l.target.status, SettleHeld(l, KeepProgress).target);
  }

  lemma OutcomeStaysTidy(t: Object, outcome: Outcome)
    requires Tidy(t)
    ensures AfterOutcome(t.spec, t.status, outcome).Some? ==>
              Tidy(t.(status := AfterOutcome(t.spec, t.status, outcome).value))
  {
    var after := AfterOutcome(t.spec, t.status, outcome);
    if after.Some? && outcome.report.Some? {
      var totals, truncated := outcome.report.value.totals, outcome.report.value.truncated;
      var counts := ProgressOf(t.spec.sequences, t.status.sequences, totals, truncated);
      ProgressFollows(t.spec.sequences, t.status.sequences, totals, truncated);
      var reported := t.status.(applied := outcome.number, sequences := counts, outboxes := after.value.outboxes);
      WithProgressIsTidy(t, reported);
    } else if after.Some? {
      SameCountsStayTidy(t, after.value);
    }
  }

  lemma ComposedStaysTidy(w: LoopWrite, t: Object)
    requires Tidy(t)
    ensures Composed(w, t.spec, t.status).Some? ==> Tidy(t.(status := Composed(w, t.spec, t.status).value))
  {
    if w.ApplyOutcome? {
      OutcomeStaysTidy(t, w.outcome);
    } else if w.KeepProgress? {
      ProgressIsTidy(t.spec, t.status, t.(status := AfterProgress(t.spec, t.status).value));
    }
  }

  lemma WriteStaysTidy(l: Ledger, status: Option<Status>)
    requires Tidy(l.target) && (status.Some? ==> Tidy(l.target.(status := status.value)))
    ensures Tidy(Write(l, status).target)
  {
  }

  lemma SettledTarget(l: Ledger, w: LoopWrite)
    requires l.held.Listed?
    ensures var written := Write(l, Composed(w, l.target.spec, l.target.status));
            SettleHeld(l, w).target == l.target || SettleHeld(l, w).target == written.target
  {
    SettledWrite(l, w, Write(l, Composed(w, l.target.spec, l.target.status)));
  }

  lemma SettledStaysTidy(l: Ledger, w: LoopWrite)
    requires l.held.Listed? && Tidy(l.target)
    ensures Tidy(SettleHeld(l, w).target)
  {
    ComposedStaysTidy(w, l.target);
    WriteStaysTidy(l, Composed(w, l.target.spec, l.target.status));
    SettledTarget(l, w);
  }

  lemma JobSettledStaysTidy(l: Ledger)
    requires Tidy(l.target)
    ensures Tidy(JobSettled(l).target)
  {
    if Serving(l) && NextNumber(l) in l.held.jobs.value {
      var outcome := OutcomeOf(l.held.jobs.value[NextNumber(l)], NextNumber(l));
      if outcome.Some? { SettledStaysTidy(l, ApplyOutcome(outcome.value)); }
    }
  }

  lemma OtherStepsStayTidy(l: Ledger, a: Action)
    requires ComposesNothing(a) && Tidy(l.target)
    ensures Tidy(LoopStep(l, a).target)
  {
  }

  lemma LoopStaysTidy(l: Ledger, a: Action)
    requires Tidy(l.target)
    ensures Tidy(LoopStep(l, a).target)
  {
    if ComposesNothing(a) {
      OtherStepsStayTidy(l, a);
    } else if a.SettleJob? {
      JobSettledStaysTidy(l);
    } else if l.held.Listed? {
      LoopWrites(l, a);
      SettledStaysTidy(l, WriteOf(a));
    }
  }
}
