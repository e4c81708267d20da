// What one pass of the promotion loop does with one target: its code, as a run
// of the ledger's actions, with whatever the other actors do between its writes.
// astrophotography-operator/promotion.go and targetfinalizer.go.
module PromotionPasses {
  import opened Basics
  import opened Targets
  import opened Ledgers
  import opened LedgerInvariant
  import opened Promises
  import opened PassEffects
  import opened Clusters

  // An action that serves the target's Job: it starts one, applies one, or
  // deletes one so that it runs again.
  predicate ServesJob(a: Action) {
    a.StartJob? || a.SettleJob? || a.Rerun?
  }

  function Served(actions: seq<Action>): nat {
    if actions == [] then 0 else Served(actions[..|actions| - 1]) + if ServesJob(actions[|actions| - 1]) then 1 else 0
  }

  lemma {:induction false} ServedAddsUp(a: seq<Action>, b: seq<Action>)
    ensures Served(a + b) == Served(a) + Served(b)
  {
    if b == [] {
      assert a + b == a;
    } else {
      assert (a + b)[..|a + b| - 1] == a + b[..|b| - 1];
      ServedAddsUp(a, b[..|b| - 1]);
    }
  }

  lemma {:induction false} OthersServeNoJob(actions: seq<Action>)
    requires AllByOthers(actions)
    ensures Served(actions) == 0
  {
    if actions != [] { OthersServeNoJob(actions[..|actions| - 1]); }
  }

  lemma {:induction false} RunsCompose(l: Ledger, a: seq<Action>, b: seq<Action>)
    ensures Run(l, a + b) == Run(Run(l, a), b)
    decreases |a|
  {
    if a == [] {
      assert a + b == b;
    } else {
      assert (a + b)[0] == a[0] && (a + b)[1..] == a[1..] + b;
      RunsCompose(Step(l, a[0]), a[1..], b);
    }
  }

  // The only claim that a list of actions starts a Job on.
  predicate StartsOnly(actions: seq<Action>, claim: Option<string>) {
    forall i :: 0 <= i < |actions| && actions[i].StartJob? ==> claim == Some(actions[i].claim)
  }

  lemma {:induction false} OthersKeepTheCopy(l: Ledger, actions: seq<Action>)
    requires AllByOthers(actions)
    ensures Run(l, actions).held == l.held
    decreases |actions|
  {
    if actions != [] {
      OutsidersKeepTheCopy(l, actions[0]);
      OthersKeepTheCopy(Step(l, actions[0]), actions[1..]);
    }
  }

  class Promotions {
    var ledger: Ledger

    constructor (ledger: Ledger)
      ensures this.ledger == ledger
    {
      this.ledger := ledger;
    }

    // One write of the pass, after what the others did since the last one.
    method Write(a: Action, others: seq<Action>, ghost start: Ledger, ghost before: seq<Action>)
      returns (ghost done: seq<Action>)
      requires AllByOthers(others) && !ByOthers(a) && Wrote(start, before, None, 0, ledger)
      modifies this
      ensures ledger == Step(Run(old(ledger), others), a)
      ensures Wrote(start, done, if a.StartJob? then Some(a.claim) else None, if ServesJob(a) then 1 else 0, ledger)
    {
      ledger := Step(Run(ledger, others), a);
      done := before + others + [a];
      OneMoreWrite(start, before, others, a);
      OneMoreStart(before, others, a);
    }

    // The finalizer's one write, from the copy that the pass holds. A target that
    // is not being deleted gets the finalizer. One that is being deleted, with no
    // reservation, loses it, except that it waits while a listed claim holds
    // pending frames of it. A patch lands when the copy is the current version.
    method KeepTargetFinalizer(seen: set<string>, others: seq<Action>)
      requires ledger.held.Listed? && AllByOthers(others)
      modifies this
      ensures var t, l := old(ledger).held.copy, Run(old(ledger), others);
              var current := !l.gone && t.version == l.target.version;
              var waits := exists i :: 0 <= i < |t.status.outboxes| && t.status.outboxes[i].pending > 0
                                       && t.status.outboxes[i].claim in seen;
              && (!t.deleting && !t.finalizer && current ==> ledger.target.finalizer)
              && (t.deleting && t.finalizer && t.status.reservation == "" && !waits && current ==>
                    !ledger.target.finalizer && ledger.target.status == l.target.status)
              && (t.deleting && t.finalizer && t.status.reservation == "" && waits && !l.gone
                  && !t.status.imaging.Deleting? ==>
                    ledger.target.status == l.target.status.(imaging := Deleting)
                    && ledger.target.finalizer == l.target.finalizer)
              && ((if t.deleting then !t.finalizer || t.status.reservation != "" else t.finalizer) ==>
                    ledger == old(ledger))
    {
      var t := ledger.held.copy;
      OthersKeepTheCopy(ledger, others);
      if !t.deleting && !t.finalizer {
        ledger := Step(Run(ledger, others), AddFinalizer);
        return;
      }
      if !t.deleting || !t.finalizer {
        return;
      }
      if t.status.reservation != "" {
        return;
      }
      if FramesWait(t.status, seen) {
        ReportsTheWait(Run(ledger, others), seen);
        ledger := Step(Run(ledger, others), ReportWait(seen));
        return;
      }
      DropsTheFinalizer(Run(ledger, others), seen);
      ledger := Step(Run(ledger, others), DropFinalizer(seen));
    }

    // The pass's first write: the progress of the copy.
    method Progress(others: seq<Action>) returns (ghost done: seq<Action>)
      requires OpenPass(ledger) && InPass(ledger) && AllByOthers(others)
      modifies this
      ensures Wrote(old(ledger), done, None, 0, ledger)
      ensures InPass(ledger) && PassGoesOn(old(ledger), ledger)
      ensures old(ledger).held.copy.retryAsked && old(ledger).target.retryAsked ==> ledger.held.copy.retryAsked
      ensures others == [] && old(ledger).held.copy == old(ledger).target && !old(ledger).gone ==> Tidy(ledger.target)
    {
      OthersAreTheSameForThePass(ledger, others);
      CountsAreKept(ledger, Run(ledger, others));
      done := Write(KeepCounts, others, ledger, []);
    }

    method ClearCounts(others: seq<Action>, ghost start: Ledger, ghost before: seq<Action>)
      returns (ghost done: seq<Action>)
      requires OpenPass(ledger) && NextNumber(ledger) !in ledger.held.jobs.value && ledger.held.copy.retryAsked
      requires AllByOthers(others) && InPass(ledger) && Wrote(start, before, None, 0, ledger)
      modifies this
      ensures Wrote(start, done, None, 0, ledger)
      ensures InPass(ledger) && PassGoesOn(old(ledger), ledger)
      ensures !ledger.gone ==> NothingIsLeft(Entries(ledger))
      ensures others == [] && Tidy(old(ledger).target) ==> Tidy(ledger.target)
    {
      OthersAreTheSameForThePass(ledger, others);
      RetryGoesOn(ledger, Run(ledger, others));
      LoopStaysTidyIf(Run(ledger, others), ServeRetry);
      done := Write(ServeRetry, others, start, before);
    }

    method ClearAnnotation(others: seq<Action>, ghost asked: Ledger, ghost start: Ledger, ghost before: seq<Action>)
      returns (ghost done: seq<Action>)
      requires OpenPass(asked) && NextNumber(asked) !in asked.held.jobs.value && CopyFits(asked)
      requires PassGoesOn(asked, ledger) && (!ledger.gone ==> NothingIsLeft(Entries(ledger)))
      requires AllByOthers(others) && InPass(ledger) && Wrote(start, before, None, 0, ledger)
      modifies this
      ensures Wrote(start, done, None, 0, ledger)
      ensures InPass(ledger) && PassGoesOn(asked, ledger) && RetryServed(asked, ledger)
      ensures others == [] && Tidy(old(ledger).target) ==> Tidy(ledger.target)
    {
      OthersAreTheSameForThePass(ledger, others);
      AnnotationGoesOn(asked, ledger, Run(ledger, others));
      LoopStaysTidyIf(Run(ledger, others), ClearRetry);
      done := Write(ClearRetry, others, start, before);
    }

    // The retry annotation, for a target with no Job of the next number: after it
    // no frame is marked as left, and the annotation is gone.
    method Retry(first: seq<Action>, second: seq<Action>, ghost start: Ledger, ghost before: seq<Action>)
      returns (ghost done: seq<Action>)
      requires OpenPass(ledger) && NextNumber(ledger) !in ledger.held.jobs.value
      requires AllByOthers(first) && AllByOthers(second) && InPass(ledger) && Wrote(start, before, None, 0, ledger)
      modifies this
      ensures Wrote(start, done, None, 0, ledger)
      ensures InPass(ledger) && PassGoesOn(old(ledger), ledger) && RetryServed(old(ledger), ledger)
      ensures first == [] && second == [] && Tidy(old(ledger).target) ==> Tidy(ledger.target)
    {
      ghost var asked := ledger;
      done := before;
      if !ledger.held.copy.retryAsked {
        return;
      }
      done := ClearCounts(first, start, done);
      done := ClearAnnotation(second, asked, start, done);
    }

    method DeleteGone(others: seq<Action>, ghost start: Ledger, ghost before: seq<Action>)
      returns (ghost done: seq<Action>)
      requires OpenPass(ledger) && NextNumber(ledger) in ledger.held.jobs.value
      requires ledger.held.jobs.value[NextNumber(ledger)].state == Succeeded(PodGone)
      requires AllByOthers(others) && InPass(ledger) && Wrote(start, before, None, 0, ledger)
      modifies this
      ensures Wrote(start, done, None, 1, ledger)
      ensures JobServed(old(ledger).held.jobs.value[NextNumber(old(ledger))], NextNumber(old(ledger)), ledger)
      ensures others == [] && Tidy(old(ledger).target) ==> Tidy(ledger.target)
    {
      OthersAreTheSameForThePass(ledger, others);
      GoneJobIsDeleted(Run(ledger, others));
      LoopStaysTidyIf(Run(ledger, others), Rerun);
      done := Write(Rerun, others, start, before);
    }

    method SettleEnded(others: seq<Action>, ghost start: Ledger, ghost before: seq<Action>)
      returns (ghost done: seq<Action>)
      requires OpenPass(ledger) && NextNumber(ledger) in ledger.held.jobs.value
      requires HasResult(ledger.held.jobs.value[NextNumber(ledger)])
      requires AllByOthers(others) && InPass(ledger) && Wrote(start, before, None, 0, ledger)
      modifies this
      ensures Wrote(start, done, None, 1, ledger)
      ensures JobServed(old(ledger).held.jobs.value[NextNumber(old(ledger))], NextNumber(old(ledger)), ledger)
      ensures others == [] && Tidy(old(ledger).target) ==> Tidy(ledger.target)
    {
      OthersAreTheSameForThePass(ledger, others);
      SettledJobLands(Run(ledger, others));
      LoopStaysTidyIf(Run(ledger, others), SettleJob);
      done := Write(SettleJob, others, start, before);
    }

    // The next Job, as the pass listed it: a Job that runs, or whose pod's last
    // status is missing, gets no write.
    method ServeListed(job: Job, next: nat, others: seq<Action>, ghost start: Ledger, ghost before: seq<Action>)
      returns (ghost done: seq<Action>)
      requires OpenPass(ledger) && next == NextNumber(ledger) && next in ledger.held.jobs.value
      requires job == ledger.held.jobs.value[next]
      requires AllByOthers(others) && InPass(ledger) && Wrote(start, before, None, 0, ledger)
      modifies this
      ensures Wrote(start, done, None, if job.state.Running? || job.state == Succeeded(NoStatus) then 0 else 1, ledger)
      ensures JobServed(job, next, ledger)
      ensures others == [] && Tidy(old(ledger).target) ==> Tidy(ledger.target)
    {
      done := before;
      if job.state == Succeeded(PodGone) {
        done := DeleteGone(others, start, done);
        return;
      }
      var outcome := OutcomeOf(job, next);
      if outcome.Some? {
        done := SettleEnded(others, start, done);
      }
    }

    method StartFirst(i: nat, others: seq<Action>, ghost start: Ledger, ghost before: seq<Action>)
      returns (ghost done: seq<Action>)
      requires OpenPass(ledger) && NextNumber(ledger) !in ledger.held.jobs.value
      requires i < |ledger.held.copy.status.outboxes|
      requires ledger.held.copy.status.outboxes[i].pending > ledger.held.copy.status.outboxes[i].left
      requires AllByOthers(others) && InPass(ledger) && Wrote(start, before, None, 0, ledger)
      modifies this
      ensures Wrote(start, done, Some(old(ledger).held.copy.status.outboxes[i].claim), 1, ledger)
      ensures ledger.held.Listed? && ledger.held.copy == old(ledger).held.copy && (old(ledger).gone ==> ledger.gone)
      ensures RunsFor(ledger, Applied(old(ledger)) + 1, old(ledger).held.copy.status.outboxes[i])
      ensures others == [] && Tidy(old(ledger).target) ==> Tidy(ledger.target)
    {
      var claim := ledger.held.copy.status.outboxes[i].claim;
      EntryStartsAfterOthers(ledger, others, i, claim);
      LoopStaysTidyIf(Run(ledger, others), StartJob(claim));
      done := Write(StartJob(claim), others, start, before);
    }

    // A new Job for a target with no next one, after the retry it asked for.
    method ServeNew(waits: set<string>, busy: set<string>, archive: bool, others: seq<seq<Action>>,
                    ghost start: Ledger, ghost before: seq<Action>)
      returns (started: Option<string>, ghost done: seq<Action>)
      requires OpenPass(ledger) && NextNumber(ledger) !in ledger.held.jobs.value && InPass(ledger)
      requires |others| == 3 && forall i :: 0 <= i < 3 ==> AllByOthers(others[i])
      requires Wrote(start, before, None, 0, ledger)
      modifies this
      ensures Wrote(start, done, started, if started.Some? then 1 else 0, ledger)
      ensures ledger.held.Listed? && NewJobServed(started, Applied(old(ledger)) + 1, waits, busy, archive, ledger)
      ensures RetryServed(old(ledger), ledger)
      ensures others == [[], [], []] && Tidy(old(ledger).target) ==> Tidy(ledger.target)
    {
      ghost var asked := ledger;
      done := Retry(others[0], others[1], start, before);
      ghost var retried := ledger;
      started, done := StartWanting(waits, busy, archive, others[2], start, done);
      TheRetryStands(asked, retried, ledger);
    }

    method StartWanting(waits: set<string>, busy: set<string>, archive: bool, others: seq<Action>,
                        ghost start: Ledger, ghost before: seq<Action>)
      returns (started: Option<string>, ghost done: seq<Action>)
      requires OpenPass(ledger) && NextNumber(ledger) !in ledger.held.jobs.value
      requires AllByOthers(others) && InPass(ledger) && Wrote(start, before, None, 0, ledger)
      modifies this
      ensures Wrote(start, done, started, if started.Some? then 1 else 0, ledger)
      ensures ledger.held.Listed? && ledger.held.copy == old(ledger).held.copy && (old(ledger).gone ==> ledger.gone)
      ensures NewJobServed(started, Applied(old(ledger)) + 1, waits, busy, archive, ledger)
      ensures others == [] && Tidy(old(ledger).target) ==> Tidy(ledger.target)
    {
      done := before;
      var entries := ledger.held.copy.status.outboxes;
      started := ChooseClaim(entries, waits, busy, archive);
      if started.Some? {
        done := StartFirst(FirstWanting(entries, waits, busy), others, start, done);
      }
      TheFirstIsServed(started, Applied(old(ledger)) + 1, waits, busy, archive, ledger);
    }

    // Serves one target: the retry and a new Job when it has no next one, and
    // the next one's result or its re-run when it has ended. It is a run of the
    // ledger's actions, so everything promised of runs holds of it.
    //
    // A listed Job's result is applied, whatever the others write meanwhile, and
    // a Job whose pod is gone is deleted; with no listed Job one starts, on the
    // first entry that it can. A pass that nobody writes in leaves the progress
    // and Complete as the sequences have them.
    method ServeTarget(waits: set<string>, busy: set<string>, archive: bool, others: seq<seq<Action>>)
      returns (started: Option<string>, ghost done: seq<Action>)
      requires OpenPass(ledger) && InPass(ledger)
      requires |others| == 4 && forall i :: 0 <= i < 4 ==> AllByOthers(others[i])
      modifies this
      ensures ledger == Run(old(ledger), done) && Served(done) <= 1 && StartsOnly(done, started)
      ensures var listed, next := old(ledger).held.jobs.value, Applied(old(ledger)) + 1;
              && (next in listed ==> started == None && JobServed(listed[next], next, ledger))
              && (next !in listed ==>
                    && ledger.held.Listed? && NewJobServed(started, next, waits, busy, archive, ledger)
                    && (old(ledger).held.copy.retryAsked && old(ledger).target.retryAsked && !ledger.gone ==>
                          !ledger.held.copy.retryAsked && NoneLeft(ledger.held.copy.status.outboxes)))
      ensures others == [[], [], [], []] && old(ledger).held.copy == old(ledger).target && !old(ledger).gone ==>
                Tidy(ledger.target)
    {
      ghost var start := ledger;
      started := None;
      done := Progress(others[0]);
      var next := NextNumber(ledger);
      if next !in ledger.held.jobs.value {
        assert others == [[], [], [], []] ==> others[1..] == [[], [], []];
        started, done := ServeNew(waits, busy, archive, others[1..], start, done);
        return;
      }
      done := ServeListed(ledger.held.jobs.value[next], next, others[1], start, done);
    }
  }

  // A run of the pass's writes so far: the claim it started a Job on, and how many
  // of them served a Job.
  ghost predicate Wrote(start: Ledger, done: seq<Action>, started: Option<string>, served: nat, l: Ledger) {
    l == Run(start, done) && Served(done) == served && StartsOnly(done, started)
  }

  // A pass that goes on: the same list of Jobs, under the same next number.
  ghost predicate PassGoesOn(l: Ledger, m: Ledger)
    requires OpenPass(l)
  {
    OpenPass(m) && m.held.jobs == l.held.jobs && Applied(m) == Applied(l) && (l.gone ==> m.gone)
  }

  predicate NoneLeft(outboxes: seq<OutboxFrames>) {
    forall i :: 0 <= i < |outboxes| ==> outboxes[i].left == 0
  }

  // The retry that the copy asked for is done, on a target that still exists.
  predicate RetryServed(l: Ledger, m: Ledger)
    requires l.held.Listed?
  {
    l.held.copy.retryAsked && !m.gone ==>
      m.held.Listed? && !m.held.copy.retryAsked && NoneLeft(m.held.copy.status.outboxes)
  }

  lemma TheRetryStands(l: Ledger, retried: Ledger, m: Ledger)
    requires l.held.Listed? && retried.held.Listed? && m.held.Listed? && RetryServed(l, retried)
    requires m.held.copy == retried.held.copy && (retried.gone ==> m.gone)
    ensures RetryServed(l, m)
  {
  }

  lemma LoopStaysTidyIf(l: Ledger, a: Action)
    requires !ByOthers(a)
    ensures Tidy(l.target) ==> Tidy(Step(l, a).target)
  {
    LoopsStep(l, a);
    if Tidy(l.target) { LoopStaysTidy(l, a); }
  }

  lemma KeepCountsStep(l: Ledger)
    requires OpenPass(l)
    ensures Step(l, KeepCounts) == SettleHeld(l, KeepProgress)
  {
    LoopsStep(l, KeepCounts);
    ServingStep(l);
  }

  lemma LoopsStep(l: Ledger, a: Action)
    requires !ByOthers(a)
    ensures Step(l, a) == LoopStep(l, a)
  {
  }

  lemma ServingStep(l: Ledger)
    requires Serving(l)
    ensures LoopStep(l, KeepCounts) == SettleHeld(l, KeepProgress)
  {
  }

  // The first write of a pass, after what the others did before it.
  lemma CountsAreKept(l: Ledger, r: Ledger)
    requires OpenPass(l) && InPass(r) && SameForThePass(l, r)
    ensures var m := Step(r, KeepCounts);
            && InPass(m) && PassGoesOn(l, m)
            && (l.held.copy.retryAsked && l.target.retryAsked ==> m.held.copy.retryAsked)
            && (r == l && l.held.copy == l.target && !l.gone ==> Tidy(m.target))
  {
    KeepCountsStep(r);
    KeepCountsStays(r);
    if r == l && l.held.copy == l.target && !l.gone { KeepCountsTidies(l); }
  }

  lemma GoneIsLeftAlone(l: Ledger)
    requires l.gone
    ensures LoopStep(l, ServeRetry) == l && LoopStep(l, ClearRetry) == l
  {
  }

  lemma RetryGoesOn(l: Ledger, r: Ledger)
    requires OpenPass(l) && NextNumber(l) !in l.held.jobs.value && l.held.copy.retryAsked
    requires InPass(r) && SameForThePass(l, r)
    ensures var m := Step(r, ServeRetry); InPass(m) && PassGoesOn(l, m) && (!m.gone ==> NothingIsLeft(Entries(m)))
  {
    LoopsStep(r, ServeRetry);
    if r.gone { GoneIsLeftAlone(r); } else { RetryClears(r); }
  }

  // The annotation's write, after the entries were cleared.
  lemma AnnotationGoesOn(l: Ledger, cleared: Ledger, r: Ledger)
    requires OpenPass(l) && NextNumber(l) !in l.held.jobs.value && CopyFits(l)
    requires PassGoesOn(l, cleared) && (!cleared.gone ==> NothingIsLeft(Entries(cleared)))
    requires InPass(r) && SameForThePass(cleared, r)
    ensures var m := Step(r, ClearRetry); InPass(m) && PassGoesOn(l, m) && RetryServed(l, m)
  {
    LoopsStep(r, ClearRetry);
    if r.gone {
      GoneIsLeftAlone(r);
    } else {
      assert NothingIsLeft(Entries(r));
      if r.held.copy.retryAsked {
        AnnotationGoes(r);
      } else {
        NotAsked(r);
      }
      NoneLeftInEntries(LoopStep(r, ClearRetry).held.copy.status.outboxes);
    }
  }

  lemma NotAsked(l: Ledger)
    requires OpenPass(l) && !l.held.copy.retryAsked
    ensures LoopStep(l, ClearRetry) == l
  {
  }

  lemma GoneJobIsDeleted(l: Ledger)
    requires OpenPass(l) && NextNumber(l) in l.held.jobs.value && CopyFits(l)
    requires l.held.jobs.value[NextNumber(l)].state == Succeeded(PodGone)
    ensures JobServed(l.held.jobs.value[NextNumber(l)], NextNumber(l), Step(l, Rerun))
  {
  }

  lemma EntryStarts(l: Ledger, r: Ledger, i: nat, claim: string)
    requires OpenPass(l) && NextNumber(l) !in l.held.jobs.value && i < |l.held.copy.status.outboxes|
    requires claim == l.held.copy.status.outboxes[i].claim
    requires l.held.copy.status.outboxes[i].pending > l.held.copy.status.outboxes[i].left
    requires InPass(r) && SameForThePass(l, r)
    ensures var m := Step(r, StartJob(claim));
            && m.held.Listed? && m.held.copy == l.held.copy && m.gone == r.gone
            && RunsFor(m, Applied(l) + 1, l.held.copy.status.outboxes[i])
  {
    LoopsStep(r, StartJob(claim));
    StartsOn(r, i);
  }

  lemma EntryStartsAfterOthers(l: Ledger, others: seq<Action>, i: nat, claim: string)
    requires OpenPass(l) && NextNumber(l) !in l.held.jobs.value && i < |l.held.copy.status.outboxes|
    requires claim == l.held.copy.status.outboxes[i].claim
    requires l.held.copy.status.outboxes[i].pending > l.held.copy.status.outboxes[i].left
    requires InPass(l) && AllByOthers(others)
    ensures var m := Step(Run(l, others), StartJob(claim));
            && m.held.Listed? && m.held.copy == l.held.copy && (l.gone ==> m.gone)
            && RunsFor(m, Applied(l) + 1, l.held.copy.status.outboxes[i])
  {
    OthersAreTheSameForThePass(l, others);
    EntryStarts(l, Run(l, others), i, claim);
  }

  lemma SettleJobStep(l: Ledger)
    ensures Step(l, SettleJob) == JobSettled(l)
  {
  }

  lemma SettledJobLands(l: Ledger)
    requires OpenPass(l) && InPass(l) && NextNumber(l) in l.held.jobs.value
    requires HasResult(l.held.jobs.value[NextNumber(l)])
    ensures JobServed(l.held.jobs.value[NextNumber(l)], NextNumber(l), Step(l, SettleJob))
  {
    SettleJobStep(l);
    if l.gone { GoneStaysGone(l); } else { AResultLands(l); }
  }

  lemma GoneStaysGone(l: Ledger)
    requires l.gone
    ensures JobSettled(l).gone
  {
  }

  lemma FirstWantingIsPromotable(entries: seq<OutboxFrames>, waits: set<string>, busy: set<string>)
    ensures var i := FirstWanting(entries, waits, busy);
            && (i >= 0 <==> exists k :: 0 <= k < |entries| && Promotable(entries[k], waits, busy))
            && (i >= 0 ==> Promotable(entries[i], waits, busy))
            && forall k :: 0 <= k < i ==> !Promotable(entries[k], waits, busy)
  {
    var i := FirstWanting(entries, waits, busy);
    assert forall k :: 0 <= k < |entries| ==>
      (Promotable(entries[k], waits, busy) <==> Wanting(entries[k], waits, busy));
  }

  lemma TheFirstIsServed(started: Option<string>, number: nat, waits: set<string>, busy: set<string>, archive: bool,
                         m: Ledger)
    requires m.held.Listed?
    requires var o := m.held.copy.status.outboxes; var i := FirstWanting(o, waits, busy);
             && started == (if i < 0 || !archive then None else Some(o[i].claim))
             && (started.Some? ==> RunsFor(m, number, o[i]))
    ensures NewJobServed(started, number, waits, busy, archive, m)
  {
    FirstWantingIsPromotable(m.held.copy.status.outboxes, waits, busy);
  }

  lemma NotesTheWait(l: Ledger)
    requires l.held.Listed?
    ensures var m := SettleHeld(l, NoteDeleting).target;
            && m.finalizer == l.target.finalizer
            && (!l.gone && !l.held.copy.status.imaging.Deleting? ==> m.status == l.target.status.(imaging := Deleting))
  {
  }

  lemma ReportsTheWait(l: Ledger, seen: set<string>)
    requires l.held.Listed? && l.held.copy.deleting && l.held.copy.finalizer && l.held.copy.status.reservation == ""
    requires FramesWait(l.held.copy.status, seen)
    ensures var m := Step(l, ReportWait(seen)).target;
            && m.finalizer == l.target.finalizer
            && (!l.gone && !l.held.copy.status.imaging.Deleting? ==> m.status == l.target.status.(imaging := Deleting))
  {
    assert Step(l, ReportWait(seen)) == SettleHeld(l, NoteDeleting);
    NotesTheWait(l);
  }

  lemma DropsTheFinalizer(l: Ledger, seen: set<string>)
    requires l.held.Listed? && l.held.copy.deleting && l.held.copy.finalizer && l.held.copy.status.reservation == ""
    requires !FramesWait(l.held.copy.status, seen)
    ensures var m := Step(l, DropFinalizer(seen)).target;
            !l.gone && l.held.copy.version == l.target.version ==> !m.finalizer && m.status == l.target.status
  {
  }

  lemma OneMoreStart(before: seq<Action>, others: seq<Action>, a: Action)
    requires AllByOthers(others)
    ensures StartsOnly(before, None) ==>
              StartsOnly(before + others + [a], if a.StartJob? then Some(a.claim) else None)
  {
  }

  lemma OneMoreWrite(start: Ledger, before: seq<Action>, others: seq<Action>, a: Action)
    requires AllByOthers(others) && !ByOthers(a)
    ensures Run(start, before + others + [a]) == Step(Run(Run(start, before), others), a)
    ensures Served(before + others + [a]) == Served(before) + if ServesJob(a) then 1 else 0
  {
    RunsCompose(start, before, others);
    RunsCompose(start, before + others, [a]);
    OneAction(Run(start, before + others), a);
    ServedAddsUp(before, others);
    ServedAddsUp(before + others, [a]);
    OthersServeNoJob(others);
    assert Served([a]) == if ServesJob(a) then 1 else 0 by { assert [a][..0] == []; }
  }

  lemma OneAction(l: Ledger, a: Action)
    ensures Run(l, [a]) == Step(l, a)
  {
    assert [a][1..] == [];
  }

  // A pass that lists the target and its Jobs, and has served no Job of it yet.
  predicate OpenPass(l: Ledger) {
    l.held.Listed? && l.held.jobs.Some? && !l.held.served
  }
}
