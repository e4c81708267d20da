// What every action keeps: the frames counted in a claim and still there never
// outnumber its pending count, through counts, Jobs, lost reports, retries,
// and the stale copies that a promotion pass holds.
module LedgerInvariant {
  import opened Basics
  import opened Sequences
  import opened Targets
  import opened Accounts
  import opened Ledgers

  // Each frame is counted at most once and only after its file was saved, the
  // frame in flight is not counted yet, and no frame is in flight on a target
  // that no reservation holds.
  ghost predicate FramesFit(l: Ledger) {
    && Distinct(l.log)
    && (forall f :: f in l.log ==> f in l.frames && !l.frames[f].place.Flying?)
    && (l.target.status.exposure.Some? ==>
          var e := l.target.status.exposure.value;
          e.frameID in l.frames && e.frameID !in l.log && l.frames[e.frameID].runner == e.reservation)
    && (l.target.status.reservation == "" ==> l.target.status.exposure.None?)
  }

  // No claim holds more counted frames than its entry says.
  ghost predicate NeverTooFew(entries: seq<OutboxFrames>, log: seq<FrameId>, frames: map<FrameId, Frame>) {
    forall c :: |StillIn(log, frames, c)| <= PendingOf(entries, c)
  }

  // A Job that is not applied yet: its claim has an entry, with a frame more
  // than the last Job left; the entry grew by the frames counted since the
  // snapshot; and a frame counted before it that is still in the claim was
  // seen by the attempt, and not moved.
  ghost predicate JobFits(entries: seq<OutboxFrames>, log: seq<FrameId>, frames: map<FrameId, Frame>, j: Job) {
    var i := OutboxIndex(entries, j.claim);
    && i >= 0
    && entries[i].left < j.pending <= entries[i].pending
    && |CountedIn(log, frames, j.claim) - j.before| <= entries[i].pending - j.pending
    && j.before <= Logged(log)
    && (j.attempt.Some? ==>
          StillIn(log, frames, j.claim) * j.before <= j.attempt.value.seen - j.attempt.value.moved)
    && (j.state.Succeeded? && j.state.pod.Reported? ==>
          j.attempt.Some? && j.state.pod.report.left == |j.attempt.value.seen - j.attempt.value.moved|)
  }

  ghost predicate JobsFit(l: Ledger) {
    && (forall n :: n in l.jobs ==> 1 <= n <= Applied(l) + 1 && (n <= Applied(l) ==> !l.jobs[n].state.Running?))
    && (Applied(l) + 1 in l.jobs ==> JobFits(Entries(l), l.log, l.frames, l.jobs[Applied(l) + 1]))
  }

  // A Job as the pass listed it, and as it is now.
  ghost predicate Later(listed: Job, now: Job) {
    && now.claim == listed.claim && now.pending == listed.pending && now.before == listed.before
    && (!listed.state.Running? ==> !now.state.Running?)
  }

  // An entry of the copy, and the entry that grew from it.
  ghost predicate EntryFits(entries: seq<OutboxFrames>, log: seq<FrameId>, frames: map<FrameId, Frame>,
                            e: OutboxFrames, counted: set<FrameId>) {
    var i := OutboxIndex(entries, e.claim);
    && i >= 0
    && entries[i].left == e.left && entries[i].pending >= e.pending
    && |CountedIn(log, frames, e.claim) - counted| <= entries[i].pending - e.pending
  }

  ghost predicate CopyFits(l: Ledger) {
    l.held.Listed? ==>
      && l.held.copy.version <= l.target.version
      && (l.held.copy.version == l.target.version ==> l.held.copy == l.target)
      && l.held.counted <= Logged(l.log)
      && l.held.copy.status.applied == Applied(l)
      && forall k :: 0 <= k < |l.held.copy.status.outboxes| ==>
           EntryFits(Entries(l), l.log, l.frames, l.held.copy.status.outboxes[k], l.held.counted)
  }

  ghost predicate ListedJobsFit(l: Ledger) {
    Serving(l) ==>
      var listed := l.held.jobs.value;
      && (forall n :: n in l.jobs ==> n in listed && Later(listed[n], l.jobs[n]))
      && (Applied(l) + 1 in listed && !listed[Applied(l) + 1].state.Running? ==>
            JobFits(Entries(l), l.log, l.frames, listed[Applied(l) + 1]))
  }

  // Applied Jobs are paid for by frames counted, and by frames that a retry
  // cleared.
  ghost predicate JobsPaidFor(l: Ledger) {
    Applied(l) + Excess(Entries(l)) <= |l.log| + l.cleared
  }

  ghost predicate Inv(l: Ledger) {
    && FramesFit(l)
    && Sound(Entries(l))
    && NeverTooFew(Entries(l), l.log, l.frames)
    && JobsFit(l)
    && CopyFits(l)
    && ListedJobsFit(l)
    && JobsPaidFor(l)
  }

  lemma InitialInv(l: Ledger)
    requires Initial(l)
    ensures Inv(l)
  {
  }

  // ---------------------------------------------------------------------------
  // Writes that leave the accounts alone

  ghost predicate SameAccounts(l: Ledger, m: Ledger) {
    && Entries(m) == Entries(l) && Applied(m) == Applied(l)
    && m.log == l.log && m.frames == l.frames && m.jobs == l.jobs && m.cleared == l.cleared
  }

  // A write of the target that changes neither its entries nor its applied
  // number.
  lemma WriteKeepsAccounts(l: Ledger, m: Ledger)
    requires Inv(l) && SameAccounts(l, m) && m.held == l.held
    requires m.target == l.target || m.target.version > l.target.version
    requires FramesFit(m)
    ensures Inv(m)
  {
  }

  // One that names no new frame in flight, either.
  lemma QuietWrite(l: Ledger, m: Ledger)
    requires Inv(l) && SameAccounts(l, m) && m.held == l.held
    requires m.target == l.target || m.target.version > l.target.version
    requires m.target.status.exposure == l.target.status.exposure || m.target.status.exposure.None?
    requires m.target.status.reservation == "" ==> m.target.status.exposure.None?
    ensures Inv(m)
  {
    WriteKeepsAccounts(l, m);
  }

  // What a status keeps that composes no count and no frame in flight.
  predicate Quiet(status: Status, after: Status) {
    && after.outboxes == status.outboxes && after.applied == status.applied
    && (after.exposure == status.exposure || after.exposure.None?)
    && (after.reservation == "" ==> after.exposure.None?)
  }

  lemma RunnerStatusIsQuiet(t: Object, a: Action)
    requires t.status.reservation == "" ==> t.status.exposure.None?
    ensures RunnerStatus(t, a).Some? ==> Quiet(t.status, RunnerStatus(t, a).value)
  {
  }

  lemma UncountedIsQuiet(spec: Spec, status: Status, e: Exposure, claim: string, runner: string, exposing: bool)
    requires status.reservation == "" ==> status.exposure.None?
    ensures AfterCount(spec, status, e, false, claim, runner, exposing).Some? ==>
              Quiet(status, AfterCount(spec, status, e, false, claim, runner, exposing).value)
  {
  }

  lemma QuietStatusKeepsInv(l: Ledger, status: Option<Status>)
    requires Inv(l) && (status.Some? ==> Quiet(l.target.status, status.value))
    ensures Inv(Write(l, status))
  {
    QuietWrite(l, Write(l, status));
  }

  lemma RunnerKeepsInv(l: Ledger, a: Action)
    requires Inv(l)
    requires !(a.Record? || (a.Count? && a.counted))
    ensures Inv(RunnerStep(l, a))
  {
    if a.Count? {
      if a.e.frameID in l.frames {
        var claim := l.frames[a.e.frameID].claim;
        UncountedIsQuiet(l.target.spec, l.target.status, a.e, claim, a.runner, a.exposing);
        QuietStatusKeepsInv(l, AfterCount(l.target.spec, l.target.status, a.e, false, claim, a.runner, a.exposing));
      }
    } else {
      RunnerStatusIsQuiet(l.target, a);
      QuietStatusKeepsInv(l, RunnerStatus(l.target, a));
    }
  }

  lemma PersonKeepsInv(l: Ledger, a: Action)
    requires Inv(l)
    ensures Inv(PersonStep(l, a))
  {
    QuietWrite(l, PersonStep(l, a));
  }

  // ---------------------------------------------------------------------------
  // Changes of the frames

  // Frames that only arrive, or only leave their claim: every count stays.
  ghost predicate OnlyLeave(log: seq<FrameId>, frames: map<FrameId, Frame>, after: map<FrameId, Frame>) {
    forall f :: f in log ==>
                  && f in frames && f in after
                  && after[f].claim == frames[f].claim
                  && (after[f].place.Saved? ==> frames[f].place.Saved?)
  }

  lemma LeavingKeepsCounts(entries: seq<OutboxFrames>, log: seq<FrameId>, frames: map<FrameId, Frame>,
                           after: map<FrameId, Frame>)
    requires OnlyLeave(log, frames, after) && NeverTooFew(entries, log, frames)
    ensures NeverTooFew(entries, log, after)
    ensures forall c :: CountedIn(log, after, c) == CountedIn(log, frames, c)
    ensures forall c :: StillIn(log, after, c) <= StillIn(log, frames, c)
  {
    forall c
      ensures CountedIn(log, after, c) == CountedIn(log, frames, c)
      ensures StillIn(log, after, c) <= StillIn(log, frames, c)
      ensures |StillIn(log, after, c)| <= PendingOf(entries, c)
    {
      assert StillIn(log, after, c) <= StillIn(log, frames, c);
      SubsetSize(StillIn(log, after, c), StillIn(log, frames, c));
    }
  }

  lemma LeavingKeepsJob(entries: seq<OutboxFrames>, log: seq<FrameId>, frames: map<FrameId, Frame>,
                        after: map<FrameId, Frame>, j: Job)
    requires OnlyLeave(log, frames, after) && NeverTooFew(entries, log, frames)
    requires JobFits(entries, log, frames, j)
    ensures JobFits(entries, log, after, j)
  {
    LeavingKeepsCounts(entries, log, frames, after);
    assert StillIn(log, after, j.claim) * j.before <= StillIn(log, frames, j.claim) * j.before;
  }

  lemma LeavingKeepsJobs(l: Ledger, after: map<FrameId, Frame>)
    requires Inv(l) && OnlyLeave(l.log, l.frames, after)
    ensures JobsFit(l.(frames := after)) && ListedJobsFit(l.(frames := after))
  {
    if Applied(l) + 1 in l.jobs {
      LeavingKeepsJob(Entries(l), l.log, l.frames, after, l.jobs[Applied(l) + 1]);
    }
    if Serving(l) && Applied(l) + 1 in l.held.jobs.value && !l.held.jobs.value[Applied(l) + 1].state.Running? {
      LeavingKeepsJob(Entries(l), l.log, l.frames, after, l.held.jobs.value[Applied(l) + 1]);
    }
  }

  lemma LeavingKeepsCopy(l: Ledger, after: map<FrameId, Frame>)
    requires CopyFits(l) && OnlyLeave(l.log, l.frames, after) && NeverTooFew(Entries(l), l.log, l.frames)
    ensures CopyFits(l.(frames := after))
  {
    LeavingKeepsCounts(Entries(l), l.log, l.frames, after);
    if l.held.Listed? {
      forall k | 0 <= k < |l.held.copy.status.outboxes|
        ensures EntryFits(Entries(l), l.log, after, l.held.copy.status.outboxes[k], l.held.counted) {
        assert EntryFits(Entries(l), l.log, l.frames, l.held.copy.status.outboxes[k], l.held.counted);
      }
    }
  }

  lemma LeavingKeepsInv(l: Ledger, after: map<FrameId, Frame>)
    requires Inv(l) && OnlyLeave(l.log, l.frames, after)
    requires FramesFit(l.(frames := after))
    ensures Inv(l.(frames := after))
  {
    LeavingKeepsCounts(Entries(l), l.log, l.frames, after);
    LeavingKeepsJobs(l, after);
    LeavingKeepsCopy(l, after);
  }

  lemma FramesKeepInv(l: Ledger, a: Action)
    requires Inv(l)
    ensures Inv(FramesStep(l, a))
  {
    var m := FramesStep(l, a);
    if a.Save? || a.LoseClaim? {
      LeavingKeepsInv(l, m.frames);
      assert m == l.(frames := m.frames);
    } else {
      QuietWrite(l, m);
    }
  }

  // A record: a new frame in flight, in the claim of the session's outbox.
  lemma RecordedFits(l: Ledger, a: Action)
    requires FramesFit(l) && a.Record?
    ensures var m := RunnerStep(l, a);
            && FramesFit(m) && FramesFit(l.(frames := m.frames)) && OnlyLeave(l.log, l.frames, m.frames)
            && SameAccounts(l.(frames := m.frames), m) && m.held == l.held
            && (m.target == l.target || m.target.version > l.target.version)
  {
  }

  lemma RecordKeepsInv(l: Ledger, a: Action)
    requires Inv(l) && a.Record?
    ensures Inv(RunnerStep(l, a))
  {
    var m := RunnerStep(l, a);
    RecordedFits(l, a);
    LeavingKeepsInv(l, m.frames);
    WriteKeepsAccounts(l.(frames := m.frames), m);
  }

  // The counting write: one frame more in the log, and one more pending.
  lemma CountKeepsInv(l: Ledger, a: Action)
    requires Inv(l) && a.Count? && a.counted
    ensures Inv(RunnerStep(l, a))
  {
    var m := RunnerStep(l, a);
    if m != l {
      var f := a.e.frameID;
      assert OneCounted(l, m, f);
      CountKeepsCounts(l, m, f);
      CountKeepsJobs(l, m, f);
      CountKeepsCopy(l, m, f);
      OneMoreSound(Entries(l), l.frames[f].claim);
    }
  }

  lemma CountKeepsCounts(l: Ledger, m: Ledger, f: FrameId)
    requires OneCounted(l, m, f) && NeverTooFew(Entries(l), l.log, l.frames)
    ensures NeverTooFew(Entries(m), m.log, m.frames)
  {
    var claim := l.frames[f].claim;
    forall c ensures |StillIn(m.log, m.frames, c)| <= PendingOf(Entries(m), c) {
      OneMoreCounts(Entries(l), claim, c);
      var more := if c == claim then {f} else {};
      assert StillIn(m.log, m.frames, c) <= StillIn(l.log, l.frames, c) + more;
      CoverSize(StillIn(m.log, m.frames, c), StillIn(l.log, l.frames, c), more);
    }
  }

  lemma CountKeepsJobs(l: Ledger, m: Ledger, f: FrameId)
    requires OneCounted(l, m, f) && Applied(m) == Applied(l) && m.jobs == l.jobs && m.held == l.held
    requires JobsFit(l) && ListedJobsFit(l)
    ensures JobsFit(m) && ListedJobsFit(m)
  {
    if Applied(l) + 1 in l.jobs { CountKeepsJob(l, m, f, l.jobs[Applied(l) + 1]); }
    if Serving(l) && Applied(l) + 1 in l.held.jobs.value && !l.held.jobs.value[Applied(l) + 1].state.Running? {
      CountKeepsJob(l, m, f, l.held.jobs.value[Applied(l) + 1]);
    }
  }

  lemma CountKeepsCopy(l: Ledger, m: Ledger, f: FrameId)
    requires OneCounted(l, m, f) && Applied(m) == Applied(l) && m.held == l.held
    requires m.target.version > l.target.version && CopyFits(l)
    ensures CopyFits(m)
  {
    if l.held.Listed? {
      forall k | 0 <= k < |l.held.copy.status.outboxes|
        ensures EntryFits(Entries(m), m.log, m.frames, l.held.copy.status.outboxes[k], l.held.counted)
      {
        CountKeepsEntry(l, m, f, l.held.copy.status.outboxes[k], l.held.counted);
      }
      assert Logged(l.log) <= Logged(m.log);
    }
  }

  ghost predicate OneCounted(l: Ledger, m: Ledger, f: FrameId) {
    && f in l.frames && f !in l.log && m.log == l.log + [f] && m.frames == l.frames
    && Sound(Entries(l)) && Entries(m) == OneMore(Entries(l), l.frames[f].claim)
  }

  lemma CountedGrowsByOne(l: Ledger, m: Ledger, f: FrameId, c: string, since: set<FrameId>)
    requires OneCounted(l, m, f)
    ensures |CountedIn(m.log, m.frames, c) - since|
         <= |CountedIn(l.log, l.frames, c) - since| + (if c == l.frames[f].claim then 1 else 0)
  {
    CoverSize(CountedIn(m.log, m.frames, c) - since, CountedIn(l.log, l.frames, c) - since,
              if c == l.frames[f].claim then {f} else {});
  }

  lemma CountKeepsJob(l: Ledger, m: Ledger, f: FrameId, j: Job)
    requires OneCounted(l, m, f) && JobFits(Entries(l), l.log, l.frames, j)
    ensures JobFits(Entries(m), m.log, m.frames, j)
  {
    OneMoreCounts(Entries(l), l.frames[f].claim, j.claim);
    CountedGrowsByOne(l, m, f, j.claim, j.before);
    assert f !in j.before;
    assert StillIn(m.log, m.frames, j.claim) * j.before <= StillIn(l.log, l.frames, j.claim) * j.before;
    assert Logged(l.log) <= Logged(m.log);
  }

  lemma CountKeepsEntry(l: Ledger, m: Ledger, f: FrameId, e: OutboxFrames, counted: set<FrameId>)
    requires OneCounted(l, m, f) && EntryFits(Entries(l), l.log, l.frames, e, counted)
    ensures EntryFits(Entries(m), m.log, m.frames, e, counted)
  {
    OneMoreCounts(Entries(l), l.frames[f].claim, e.claim);
    CountedGrowsByOne(l, m, f, e.claim, counted);
  }

  // ---------------------------------------------------------------------------
  // The Jobs

  // A Job that changes as the environment changes it.
  lemma JobChange(l: Ledger, n: nat, j: Job)
    requires Inv(l) && n in l.jobs && Later(l.jobs[n], j)
    requires n == Applied(l) + 1 ==> JobFits(Entries(l), l.log, l.frames, j)
    ensures Inv(l.(jobs := l.jobs[n := j]))
  {
  }

  lemma JobGone(l: Ledger, n: nat)
    requires Inv(l)
    ensures Inv(l.(jobs := l.jobs - {n}))
  {
  }

  // What the environment makes of a Job still fits the counts.
  lemma JobAfterFits(entries: seq<OutboxFrames>, log: seq<FrameId>, frames: map<FrameId, Frame>, j: Job, a: Action)
    ensures Later(j, JobAfter(j, a, frames))
    ensures JobFits(entries, log, frames, j) ==> JobFits(entries, log, frames, JobAfter(j, a, frames))
  {
    assert StillIn(log, frames, j.claim) <= FilesIn(frames, j.claim);
  }

  // A frame that moves is in no claim any more, and the attempt knows it.
  lemma MovedJobFits(entries: seq<OutboxFrames>, log: seq<FrameId>, frames: map<FrameId, Frame>,
                     after: map<FrameId, Frame>, j: Job, frame: FrameId)
    requires OnlyLeave(log, frames, after) && NeverTooFew(entries, log, frames)
    requires j.attempt.Some? && j.state.Running? && frame in after && !after[frame].place.Saved?
    requires JobFits(entries, log, frames, j)
    ensures JobFits(entries, log, after, WithMoved(j, frame))
  {
    LeavingKeepsJob(entries, log, frames, after, j);
    assert frame !in StillIn(log, after, j.claim);
  }

  lemma MoveOnlyLeaves(l: Ledger, n: nat, frame: FrameId)
    requires FramesFit(l) && CanMove(l, n, frame)
    ensures var after := Placed(l, frame, Moved).frames;
            OnlyLeave(l.log, l.frames, after) && FramesFit(l.(frames := after)) && !after[frame].place.Saved?
  {
  }

  lemma MoveKeepsInv(l: Ledger, n: nat, frame: FrameId)
    requires Inv(l) && CanMove(l, n, frame)
    ensures Inv(Placed(l, frame, Moved).(jobs := l.jobs[n := WithMoved(l.jobs[n], frame)]))
  {
    var moved := Placed(l, frame, Moved);
    MoveOnlyLeaves(l, n, frame);
    LeavingKeepsInv(l, moved.frames);
    if n == Applied(l) + 1 { MovedJobFits(Entries(l), l.log, l.frames, moved.frames, l.jobs[n], frame); }
    JobChange(moved, n, WithMoved(l.jobs[n], frame));
  }

  lemma JobsKeepInv(l: Ledger, a: Action)
    requires Inv(l) && OfJob(a)
    ensures Inv(JobStep(l, a))
  {
    if a.number in l.jobs {
      if a.ExpireJob? {
        JobGone(l, a.number);
      } else if a.Move? {
        if CanMove(l, a.number, a.frame) { MoveKeepsInv(l, a.number, a.frame); }
      } else {
        JobAfterFits(Entries(l), l.log, l.frames, l.jobs[a.number], a);
        JobChange(l, a.number, JobAfter(l.jobs[a.number], a, l.frames));
      }
    }
  }
}
