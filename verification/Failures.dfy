// What keeps a runner off a target that failed on its reservation. The status
// holds one failure, so the next one that another reservation records takes its
// place.
module Failures {
  import opened Basics
  import opened Targets
  import opened Ledgers
  import opened Promises

  // A runner whose failure the target names at its current spec, and that does
  // not hold it.
  predicate KeptOff(l: Ledger, runner: string) {
    FailedOn(l.target, runner) && l.target.status.reservation != runner
  }

  // No edit of the spec, a reservation that stays Ready, and failures that their
  // own runner records.
  predicate WhileReady(a: Action, runner: string) {
    && !a.EditSpec? && (a.EndClaims? ==> runner in a.ready)
    && (a.Release? && a.failed.Some? ==> a.failed.value.reservation == a.runner)
  }

  predicate FailureLands(l: Ledger, a: Action) {
    a.Release? && a.failed.Some? && !l.gone && l.target.status.reservation == a.runner
  }

  // What a step keeps that neither claims, releases, nor edits.
  predicate SameHold(l: Ledger, m: Ledger) {
    && m.target.generation == l.target.generation && m.target.status.failed == l.target.status.failed
    && m.target.status.reservation == l.target.status.reservation
  }

  lemma ComposedKeepsFailure(w: LoopWrite, spec: Spec, status: Status)
    ensures Composed(w, spec, status).Some? ==> Composed(w, spec, status).value.failed == status.failed
  {
  }

  lemma SettledKeepsHold(l: Ledger, w: LoopWrite)
    requires l.held.Listed?
    ensures SameHold(l, SettleHeld(l, w))
  {
    ComposedKeepsFailure(w, l.target.spec, l.target.status);
    ComposedKeepsClaim(w, l.target.spec, l.target.status);
  }

  lemma JobSettledKeepsHold(l: Ledger)
    ensures SameHold(l, JobSettled(l))
  {
    if Serving(l) && NextNumber(l) in l.held.jobs.value {
      var outcome := OutcomeOf(l.held.jobs.value[NextNumber(l)], NextNumber(l));
      if outcome.Some? { SettledKeepsHold(l, ApplyOutcome(outcome.value)); }
    }
  }

  lemma OtherLoopStepsKeepHold(l: Ledger, a: Action)
    requires ComposesNothing(a)
    ensures SameHold(l, LoopStep(l, a))
  {
  }

  lemma LoopKeepsHold(l: Ledger, a: Action)
    ensures SameHold(l, LoopStep(l, a))
  {
    if ComposesNothing(a) {
      OtherLoopStepsKeepHold(l, a);
    } else if a.SettleJob? {
      JobSettledKeepsHold(l);
    } else if l.held.Listed? {
      SettledKeepsHold(l, WriteOf(a));
    }
  }

  lemma PersonKeepsHold(l: Ledger, a: Action)
    requires ByPerson(a) && !a.EditSpec?
    ensures SameHold(l, PersonStep(l, a))
  {
  }

  lemma FramesKeepHold(l: Ledger, a: Action)
    ensures SameHold(l, FramesStep(l, a))
  {
  }

  lemma JobsKeepHold(l: Ledger, a: Action)
    requires OfJob(a)
    ensures SameHold(l, JobStep(l, a))
  {
  }

  lemma OutsidersKeepHold(l: Ledger, a: Action)
    requires (ByPerson(a) && !a.EditSpec?) || OfFrames(a) || OfJob(a)
    ensures SameHold(l, Step(l, a))
  {
    if ByPerson(a) {
      PersonsStep(l, a);
      PersonKeepsHold(l, a);
    } else if OfFrames(a) {
      StepOfFrames(l, a);
      FramesKeepHold(l, a);
    } else {
      StepOfJob(l, a);
      JobsKeepHold(l, a);
    }
  }

  lemma FramesWritesKeepHold(l: Ledger, a: Action)
    requires a.Record? || a.Count? || a.FailExposure?
    ensures SameHold(l, RunnerStep(l, a))
  {
  }

  lemma RunnerKeepsOff(l: Ledger, a: Action, runner: string)
    requires ByRunner(a) && runner != "" && KeptOff(l, runner) && WhileReady(a, runner)
    requires !(a.Record? || a.Count? || a.FailExposure?)
    ensures KeptOff(RunnerStep(l, a), runner) <==> !FailureLands(l, a)
  {
  }

  // While its reservation stays Ready and nobody edits the spec, the runner is
  // kept off by every step but one: another reservation's failure that lands.
  lemma OnlyAnotherFailureLetsItBack(l: Ledger, a: Action, runner: string)
    requires runner != "" && KeptOff(l, runner) && WhileReady(a, runner)
    ensures KeptOff(Step(l, a), runner) <==> !FailureLands(l, a)
  {
    if a.Record? || a.Count? || a.FailExposure? {
      assert Step(l, a) == RunnerStep(l, a);
      FramesWritesKeepHold(l, a);
    } else if ByRunner(a) {
      assert Step(l, a) == RunnerStep(l, a);
      RunnerKeepsOff(l, a, runner);
    } else if ByPerson(a) || OfFrames(a) || OfJob(a) {
      OutsidersKeepHold(l, a);
    } else {
      assert Step(l, a) == LoopStep(l, a);
      LoopKeepsHold(l, a);
    }
  }

  // And an edit of the spec lets it back.
  lemma AnEditLetsItBack(l: Ledger, spec: Spec, runner: string)
    requires !l.gone && FailedOn(l.target, runner)
    ensures !FailedOn(Step(l, EditSpec(spec)).target, runner)
    ensures Step(l, EditSpec(spec)).target.spec == spec
  {
    PersonsStep(l, EditSpec(spec));
  }

  predicate NoFailureLands(l: Ledger, actions: seq<Action>)
    decreases |actions|
  {
    actions == [] || (!FailureLands(l, actions[0]) && NoFailureLands(Step(l, actions[0]), actions[1..]))
  }

  // A target that failed on a reservation is not taken by it again, over any run
  // of every actor, while the reservation stays Ready, nobody edits the spec, and
  // no failure of another reservation lands.
  lemma {:induction false} AFailureStands(l: Ledger, actions: seq<Action>, runner: string)
    requires runner != "" && KeptOff(l, runner) && NoFailureLands(l, actions)
    requires forall i :: 0 <= i < |actions| ==> WhileReady(actions[i], runner)
    ensures KeptOff(Run(l, actions), runner)
    decreases |actions|
  {
    if actions != [] {
      OnlyAnotherFailureLetsItBack(l, actions[0], runner);
      AFailureStands(Step(l, actions[0]), actions[1..], runner);
    }
  }

  lemma SecondFailure(l: Ledger, first: string, second: string)
    requires first != second && second != "" && KeptOff(l, first) && !l.gone
    requires Eligible(l.target, true, {first, second}, second)
    ensures var m := Step(Step(l, Claim(second, true, {first, second})),
                          Release(second, Some(Failure(second, l.target.generation)), "SlewFailed"));
            && m.target.spec == l.target.spec && m.target.generation == l.target.generation
            && m.target.deleting == l.target.deleting && !m.gone
            && m.target.status.complete == l.target.status.complete
            && m.target.status.sequences == l.target.status.sequences
            && m.target.status.reservation == "" && m.target.status.failed == Some(Failure(second, l.target.generation))
  {
    assert {first, second} + {second} == {first, second};
  }

  // Two reservations that fail in turn: the first takes the target again, with
  // no edit of its spec.
  lemma TwoFailuresLetItBack(l: Ledger, first: string, second: string)
    requires first != second && first != "" && second != "" && KeptOff(l, first) && !l.gone
    requires Eligible(l.target, true, {first, second}, second)
    ensures var failed := Step(Step(l, Claim(second, true, {first, second})),
                               Release(second, Some(Failure(second, l.target.generation)), "SlewFailed"));
            var m := Step(failed, Claim(first, true, {first, second}));
            m.target.status.reservation == first && m.target.generation == l.target.generation
  {
    SecondFailure(l, first, second);
    assert {first, second} + {first} == {first, second};
  }
}
