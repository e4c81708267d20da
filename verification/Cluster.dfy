// Every target of a namespace, and the promotion pass that serves them all:
// it lists the targets, then the Jobs, and starts at most one Job for each
// target. No two running Jobs share an outbox claim.
module Clusters {
  import opened Basics
  import opened Sequences
  import opened Targets
  import opened Accounts
  import opened Ledgers
  import opened LedgerInvariant
  import opened PromotionLoop
  import opened Promises

  // created holds the claims of the Jobs that this pass created, which the
  // pass's list of Jobs does not hold.
  datatype Cluster = Cluster(ledgers: map<string, Ledger>, reading: bool, created: set<string>)

  // waits are the claims that a reservation still runs on, for a target that
  // promotes after it, and archive says that the archive claim exists.
  datatype ClusterAction =
    | On(target: string, action: Action)
    | ListTargets
    | ReadWorld
    | StartFor(target: string, waits: set<string>, archive: bool)
    | StopPass

  // The claims that a running Job uses: one the pass listed, or one it created.
  function Busy(c: Cluster): set<string> {
    c.created
    + set t, n | t in c.ledgers && c.ledgers[t].held.Listed? && c.ledgers[t].held.jobs.Some?
                 && n in c.ledgers[t].held.jobs.value && c.ledgers[t].held.jobs.value[n].state.Running?
        :: c.ledgers[t].held.jobs.value[n].claim
  }

  predicate Wanting(e: OutboxFrames, waits: set<string>, busy: set<string>) {
    e.pending > e.left && e.claim !in waits && e.claim !in busy
  }

  // The first entry that a Job can start for, or -1.
  function FirstWanting(entries: seq<OutboxFrames>, waits: set<string>, busy: set<string>): (i: int)
    ensures -1 <= i < |entries|
    ensures i >= 0 ==> Wanting(entries[i], waits, busy)
    ensures forall k :: 0 <= k < (if i < 0 then |entries| else i) ==> !Wanting(entries[k], waits, busy)
  {
    if entries == [] then -1
    else if Wanting(entries[0], waits, busy) then 0
    else
      var rest := FirstWanting(entries[1..], waits, busy);
      assert forall k :: 0 < k < |entries| ==> entries[k] == entries[1..][k - 1];
      if rest < 0 then -1 else rest + 1
  }

  // The loop of startJob over a copy's entries.
  method ChooseClaim(entries: seq<OutboxFrames>, waits: set<string>, busy: set<string>, archive: bool)
    returns (claim: Option<string>)
    ensures var i := FirstWanting(entries, waits, busy);
            claim == if i < 0 || !archive then None else Some(entries[i].claim)
  {
    for i := 0 to |entries|
      invariant forall k :: 0 <= k < i ==> !Wanting(entries[k], waits, busy)
    {
      if entries[i].pending <= entries[i].left || entries[i].claim in waits || entries[i].claim in busy {
        continue;
      }
      if !archive {
        return None;
      }
      return Some(entries[i].claim);
    }
    return None;
  }

  // An action that one target takes by itself.
  predicate Alone(a: Action) {
    !a.List? && !a.Read? && !a.StartJob? && !a.EndPass?
  }

  // Every target takes one action of the pass.
  function AllTake(c: Cluster, a: Action, reading: bool): Cluster {
    Cluster(map t | t in c.ledgers :: Step(c.ledgers[t], a), reading, {})
  }

  function ClusterStep(c: Cluster, a: ClusterAction): Cluster {
    match a
    case On(t, action) =>
      if t in c.ledgers && Alone(action) then c.(ledgers := c.ledgers[t := Step(c.ledgers[t], action)]) else c
    case ListTargets =>
      AllTake(c, List, false)
    case ReadWorld =>
      if c.reading || exists t :: t in c.ledgers && (c.ledgers[t].held.Idle? || c.ledgers[t].held.jobs.Some?) then c
      else AllTake(c, Read, true)
    case StartFor(t, waits, archive) =>
      if !c.reading || t !in c.ledgers || c.ledgers[t].held.Idle? then c
      else
        var entries := c.ledgers[t].held.copy.status.outboxes;
        var i := FirstWanting(entries, waits, Busy(c));
        if i < 0 || !archive then c
        else
          var claim := entries[i].claim;
          var next := Step(c.ledgers[t], StartJob(claim));
          if next == c.ledgers[t] then c
          else c.(ledgers := c.ledgers[t := next], created := c.created + {claim})
    case StopPass =>
      AllTake(c, EndPass, false)
  }

  predicate InitialCluster(c: Cluster) {
    (forall t :: t in c.ledgers ==> Initial(c.ledgers[t])) && !c.reading && c.created == {}
  }

  function ClusterRun(c: Cluster, actions: seq<ClusterAction>): Cluster
    decreases |actions|
  {
    if actions == [] then c else ClusterRun(ClusterStep(c, actions[0]), actions[1..])
  }

  // ---------------------------------------------------------------------------
  // No shared claim

  predicate RunsOn(l: Ledger, n: nat, claim: string) {
    n in l.jobs && l.jobs[n].state.Running? && l.jobs[n].claim == claim
  }

  ghost predicate Exclusive(c: Cluster) {
    forall s, t, m, n, claim ::
      s in c.ledgers && t in c.ledgers && RunsOn(c.ledgers[s], m, claim) && RunsOn(c.ledgers[t], n, claim)
      ==> s == t && m == n
  }

  predicate ListsRunning(l: Ledger, n: nat, claim: string) {
    && l.held.Listed? && l.held.jobs.Some? && n in l.held.jobs.value
    && l.held.jobs.value[n].state.Running? && l.held.jobs.value[n].claim == claim
  }

  // A claim is busy when the pass listed a running Job on it, of any target, or
  // created one.
  lemma WhatIsBusy(c: Cluster, claim: string)
    ensures claim in Busy(c)
            <==> claim in c.created || exists t, n :: t in c.ledgers && ListsRunning(c.ledgers[t], n, claim)
  {
    if claim in Busy(c) && claim !in c.created {
      var t, n :| t in c.ledgers && c.ledgers[t].held.Listed? && c.ledgers[t].held.jobs.Some?
                  && n in c.ledgers[t].held.jobs.value && c.ledgers[t].held.jobs.value[n].state.Running?
                  && c.ledgers[t].held.jobs.value[n].claim == claim;
      assert ListsRunning(c.ledgers[t], n, claim);
    }
  }

  // While the pass reads, every Job that runs is one it listed as running, or
  // one it created.
  ghost predicate KnowsTheJobs(c: Cluster) {
    c.reading ==> forall t, n, claim ::
      t in c.ledgers && RunsOn(c.ledgers[t], n, claim) ==> ListsRunning(c.ledgers[t], n, claim) || claim in c.created
  }

  ghost predicate ClusterInv(c: Cluster) {
    && (forall t :: t in c.ledgers ==> Inv(c.ledgers[t]))
    && (c.reading ==> forall t :: t in c.ledgers ==> c.ledgers[t].held.Listed? && c.ledgers[t].held.jobs.Some?)
    && Exclusive(c) && KnowsTheJobs(c)
  }

  // What one target's own action leaves alone: it starts no Job, and the pass
  // keeps its list.
  ghost predicate StartsNoJob(l: Ledger, m: Ledger) {
    && (forall n, claim :: RunsOn(m, n, claim) ==> RunsOn(l, n, claim))
    && m.held.Listed? == l.held.Listed? && (l.held.Listed? ==> m.held.jobs == l.held.jobs)
  }

  lemma RunnerStartsNoJob(l: Ledger, a: Action)
    ensures StartsNoJob(l, RunnerStep(l, a))
  {
  }

  lemma JobStepStartsNoJob(l: Ledger, a: Action)
    requires OfJob(a)
    ensures StartsNoJob(l, JobStep(l, a))
  {
  }

  lemma SettleHeldStartsNoJob(l: Ledger, w: LoopWrite)
    requires l.held.Listed?
    ensures StartsNoJob(l, SettleHeld(l, w))
  {
  }

  lemma LoopStartsNoJob(l: Ledger, a: Action)
    requires Alone(a)
    ensures StartsNoJob(l, LoopStep(l, a))
  {
    if a.SettleJob? {
      if l.held.Listed? { JobSettledKeepsTheList(l); }
    } else if !ComposesNothing(a) && l.held.Listed? {
      SettleHeldStartsNoJob(l, WriteOf(a));
    }
  }

  lemma AloneStartsNoJob(l: Ledger, a: Action)
    requires Alone(a)
    ensures StartsNoJob(l, Step(l, a))
  {
    if ByRunner(a) {
      RunnerStartsNoJob(l, a);
    } else if OfJob(a) {
      JobStepStartsNoJob(l, a);
    } else if !ByPerson(a) && !OfFrames(a) {
      LoopStartsNoJob(l, a);
    }
  }

  lemma JobSettledKeepsTheList(l: Ledger)
    requires l.held.Listed?
    ensures JobSettled(l).held.Listed? && JobSettled(l).held.jobs == l.held.jobs && JobSettled(l).jobs == l.jobs
  {
  }

  // Ledgers that run fewer Jobs, under the same list of the pass.
  lemma FewerJobsFit(c: Cluster, d: Cluster)
    requires Exclusive(c) && KnowsTheJobs(c)
    requires d.ledgers.Keys == c.ledgers.Keys && d.reading == c.reading && d.created == c.created
    requires forall s, n, claim :: s in c.ledgers && RunsOn(d.ledgers[s], n, claim) ==> RunsOn(c.ledgers[s], n, claim)
    requires forall s, n, claim :: s in c.ledgers && ListsRunning(c.ledgers[s], n, claim) ==>
             ListsRunning(d.ledgers[s], n, claim)
    ensures Exclusive(d) && KnowsTheJobs(d)
  {
  }

  lemma OnKeepsInv(c: Cluster, t: string, a: Action)
    requires ClusterInv(c) && t in c.ledgers && Alone(a)
    ensures ClusterInv(c.(ledgers := c.ledgers[t := Step(c.ledgers[t], a)]))
  {
    StepKeepsInv(c.ledgers[t], a);
    AloneStartsNoJob(c.ledgers[t], a);
    OneLedgerFits(c, t, Step(c.ledgers[t], a));
  }

  lemma OneLedgerJobs(c: Cluster, t: string, m: Ledger)
    requires Exclusive(c) && KnowsTheJobs(c) && t in c.ledgers && StartsNoJob(c.ledgers[t], m)
    ensures Exclusive(c.(ledgers := c.ledgers[t := m])) && KnowsTheJobs(c.(ledgers := c.ledgers[t := m]))
  {
    FewerJobsFit(c, c.(ledgers := c.ledgers[t := m]));
  }

  lemma OneLedgerFits(c: Cluster, t: string, m: Ledger)
    requires ClusterInv(c) && t in c.ledgers && Inv(m) && StartsNoJob(c.ledgers[t], m)
    ensures ClusterInv(c.(ledgers := c.ledgers[t := m]))
  {
    OneLedgerJobs(c, t, m);
  }

  lemma WholeStep(l: Ledger, a: Action, reading: bool)
    requires Inv(l) && (a.List? || a.Read? || a.EndPass?)
    requires reading ==> a.Read? && l.held.Listed? && l.held.jobs.None?
    ensures StaysWhole(l, Step(l, a), reading)
  {
    PassSteps(l);
    StepKeepsInv(l, a);
    assert Step(l, a) == LoopStep(l, a);
  }

  lemma EachStaysWhole(c: Cluster, a: Action, d: Cluster)
    requires ClusterInv(c) && (a.List? || a.Read? || a.EndPass?) && d.ledgers.Keys == c.ledgers.Keys
    requires forall t :: t in c.ledgers ==> d.ledgers[t] == Step(c.ledgers[t], a)
    requires d.reading ==>
               a.Read? && forall t :: t in c.ledgers ==> c.ledgers[t].held.Listed? && c.ledgers[t].held.jobs.None?
    ensures forall t :: t in c.ledgers ==> StaysWhole(c.ledgers[t], d.ledgers[t], d.reading)
  {
    forall t | t in c.ledgers ensures StaysWhole(c.ledgers[t], d.ledgers[t], d.reading) {
      WholeStep(c.ledgers[t], a, d.reading);
    }
  }

  // A step that every target takes at once, and that touches no Job.
  lemma AllKeepInv(c: Cluster, a: Action, reading: bool)
    requires ClusterInv(c) && (a.List? || a.Read? || a.EndPass?)
    requires reading ==>
               a.Read? && forall t :: t in c.ledgers ==> c.ledgers[t].held.Listed? && c.ledgers[t].held.jobs.None?
    ensures ClusterInv(AllTake(c, a, reading))
  {
    EachStaysWhole(c, a, AllTake(c, a, reading));
    WholeClusterFits(c, AllTake(c, a, reading));
  }

  ghost predicate StaysWhole(l: Ledger, m: Ledger, reading: bool) {
    Inv(m) && m.jobs == l.jobs && (reading ==> m.held.Listed? && m.held.jobs == Some(l.jobs))
  }

  lemma WholeClusterFits(c: Cluster, d: Cluster)
    requires Exclusive(c) && d.ledgers.Keys == c.ledgers.Keys
    requires forall t :: t in c.ledgers ==> StaysWhole(c.ledgers[t], d.ledgers[t], d.reading)
    ensures ClusterInv(d)
  {
    SameJobsStayExclusive(c, d);
    forall t, n, claim | d.reading && t in d.ledgers && RunsOn(d.ledgers[t], n, claim)
      ensures ListsRunning(d.ledgers[t], n, claim)
    {
      assert StaysWhole(c.ledgers[t], d.ledgers[t], d.reading);
    }
  }

  lemma SameJobsStayExclusive(c: Cluster, d: Cluster)
    requires Exclusive(c) && d.ledgers.Keys == c.ledgers.Keys
    requires forall t :: t in c.ledgers ==> d.ledgers[t].jobs == c.ledgers[t].jobs
    ensures Exclusive(d)
  {
    forall t, n, claim | t in d.ledgers && RunsOn(d.ledgers[t], n, claim) ensures RunsOn(c.ledgers[t], n, claim) {}
  }

  lemma StartedJob(l: Ledger, claim: string)
    requires Step(l, StartJob(claim)) != l
    ensures var m := Step(l, StartJob(claim));
            && l.held.Listed? && m.held.Listed? && m.held.jobs == l.held.jobs
            && NextNumber(l) !in l.jobs && m.jobs.Keys == l.jobs.Keys + {NextNumber(l)}
            && (forall n :: n in l.jobs ==> m.jobs[n] == l.jobs[n])
            && m.jobs[NextNumber(l)].claim == claim
  {
  }

  // A Job that starts uses a claim that no listed Job and no created one uses.
  lemma StartKeepsClusterInv(c: Cluster, a: ClusterAction)
    requires ClusterInv(c) && a.StartFor?
    ensures ClusterInv(ClusterStep(c, a))
  {
    if ClusterStep(c, a) != c {
      var claim := StartUsesAFreeClaim(c, a);
      StartedKeepsClusterInv(c, a.target, Step(c.ledgers[a.target], StartJob(claim)), claim);
    }
  }

  lemma StartedKeepsClusterInv(c: Cluster, t: string, m: Ledger, claim: string)
    requires ClusterInv(c) && c.reading && t in c.ledgers && claim !in Busy(c)
    requires m == Step(c.ledgers[t], StartJob(claim)) && m != c.ledgers[t]
    ensures ClusterInv(Cluster(c.ledgers[t := m], true, c.created + {claim}))
  {
    StartedKeepsEach(c.ledgers[t], m, claim);
    FreeClaimsRunNothing(c, claim);
    StartedStaysExclusive(c, t, m, NextNumber(c.ledgers[t]), claim);
  }

  lemma StartedKeepsEach(l: Ledger, m: Ledger, claim: string)
    requires Inv(l) && m == Step(l, StartJob(claim)) && m != l
    ensures l.held.Listed? && m.held.Listed? && m.held.jobs == l.held.jobs && Inv(m)
    ensures StartsOne(l, m, NextNumber(l), claim)
  {
    StepKeepsInv(l, StartJob(claim));
    StartedJob(l, claim);
    StartedIsOne(l, claim);
  }

  lemma StartUsesAFreeClaim(c: Cluster, a: ClusterAction) returns (claim: string)
    requires a.StartFor? && ClusterStep(c, a) != c
    ensures a.target in c.ledgers && c.reading && claim !in Busy(c)
    ensures Step(c.ledgers[a.target], StartJob(claim)) != c.ledgers[a.target]
    ensures ClusterStep(c, a) == Cluster(c.ledgers[a.target := Step(c.ledgers[a.target], StartJob(claim))], true,
                                         c.created + {claim})
  {
    var entries := c.ledgers[a.target].held.copy.status.outboxes;
    claim := entries[FirstWanting(entries, a.waits, Busy(c))].claim;
  }

  lemma ListedIsBusy(c: Cluster, s: string, n: nat, claim: string)
    requires s in c.ledgers
    ensures ListsRunning(c.ledgers[s], n, claim) ==> claim in Busy(c)
  {
  }

  // A claim that is not busy has no Job that runs.
  lemma FreeClaimsRunNothing(c: Cluster, claim: string)
    requires KnowsTheJobs(c) && c.reading && claim !in Busy(c)
    ensures forall s, n :: s in c.ledgers ==> !RunsOn(c.ledgers[s], n, claim)
  {
    forall s, n | s in c.ledgers ensures !RunsOn(c.ledgers[s], n, claim) {
      ListedIsBusy(c, s, n, claim);
    }
  }

  // What one ledger's start of a Job changes.
  ghost predicate StartsOne(l: Ledger, m: Ledger, number: nat, claim: string) {
    && (forall n, other :: RunsOn(m, n, other) ==> RunsOn(l, n, other) || (n == number && other == claim))
    && (forall n, other :: ListsRunning(m, n, other) <==> ListsRunning(l, n, other))
  }

  lemma StartedStaysExclusive(c: Cluster, t: string, m: Ledger, number: nat, claim: string)
    requires Exclusive(c) && KnowsTheJobs(c) && t in c.ledgers && StartsOne(c.ledgers[t], m, number, claim)
    requires forall s, n :: s in c.ledgers ==> !RunsOn(c.ledgers[s], n, claim)
    ensures var d := Cluster(c.ledgers[t := m], c.reading, c.created + {claim}); Exclusive(d) && KnowsTheJobs(d)
  {
    var d := Cluster(c.ledgers[t := m], c.reading, c.created + {claim});
    forall s, n, other | s in d.ledgers && RunsOn(d.ledgers[s], n, other)
      ensures RunsOn(c.ledgers[s], n, other) || (s == t && n == number && other == claim)
    {
    }
  }

  lemma StartedIsOne(l: Ledger, claim: string)
    requires Step(l, StartJob(claim)) != l
    ensures l.held.Listed? && StartsOne(l, Step(l, StartJob(claim)), NextNumber(l), claim)
  {
    StartedJob(l, claim);
  }

  lemma OnStepKeepsInv(c: Cluster, a: ClusterAction)
    requires ClusterInv(c) && a.On?
    ensures ClusterInv(ClusterStep(c, a))
  {
    if a.target in c.ledgers && Alone(a.action) { OnKeepsInv(c, a.target, a.action); }
  }

  predicate Reads(c: Cluster) {
    !c.reading && forall t :: t in c.ledgers ==> c.ledgers[t].held.Listed? && c.ledgers[t].held.jobs.None?
  }

  lemma ReadWorldIs(c: Cluster)
    ensures ClusterStep(c, ReadWorld) == if Reads(c) then AllTake(c, Read, true) else c
  {
  }

  lemma ReadWorldKeepsInv(c: Cluster)
    requires ClusterInv(c)
    ensures ClusterInv(ClusterStep(c, ReadWorld))
  {
    ReadWorldIs(c);
    if Reads(c) { AllKeepInv(c, Read, true); }
  }

  lemma ListAndStopKeepInv(c: Cluster, a: ClusterAction)
    requires ClusterInv(c) && (a.ListTargets? || a.StopPass?)
    ensures ClusterInv(ClusterStep(c, a))
  {
    AllKeepInv(c, if a.ListTargets? then List else EndPass, false);
  }

  lemma ClusterStepKeepsInv(c: Cluster, a: ClusterAction)
    requires ClusterInv(c)
    ensures ClusterInv(ClusterStep(c, a))
  {
    match a
    case On(_, _) => OnStepKeepsInv(c, a);
    case ReadWorld => ReadWorldKeepsInv(c);
    case StartFor(_, _, _) => StartKeepsClusterInv(c, a);
    case _ => ListAndStopKeepInv(c, a);
  }

  // A claim that no reservation keeps, that no listed Job runs on and that this pass
  // created no Job for.
  ghost predicate FreeClaim(c: Cluster, waits: set<string>, claim: string) {
    && claim !in waits && claim !in c.created
    && forall t, n :: t in c.ledgers ==> !ListsRunning(c.ledgers[t], n, claim)
  }

  ghost predicate CanStart(c: Cluster, waits: set<string>, e: OutboxFrames) {
    e.pending > e.left && FreeClaim(c, waits, e.claim)
  }

  lemma CanStartIsWanting(c: Cluster, waits: set<string>, e: OutboxFrames)
    ensures CanStart(c, waits, e) <==> Wanting(e, waits, Busy(c))
  {
    WhatIsBusy(c, e.claim);
  }

  lemma FirstToStart(c: Cluster, waits: set<string>, entries: seq<OutboxFrames>, i: nat)
    requires i < |entries| && CanStart(c, waits, entries[i])
    requires forall k :: 0 <= k < i ==> !CanStart(c, waits, entries[k])
    ensures FirstWanting(entries, waits, Busy(c)) == i
  {
    forall k | 0 <= k <= i ensures CanStart(c, waits, entries[k]) <==> Wanting(entries[k], waits, Busy(c)) {
      CanStartIsWanting(c, waits, entries[k]);
    }
  }

  lemma StartOnEntry(l: Ledger, i: nat)
    requires Serving(l) && NextNumber(l) !in l.held.jobs.value && NextNumber(l) !in l.jobs
    requires Sound(l.held.copy.status.outboxes) && i < |l.held.copy.status.outboxes|
    requires l.held.copy.status.outboxes[i].pending > l.held.copy.status.outboxes[i].left
    ensures var e, m := l.held.copy.status.outboxes[i], Step(l, StartJob(l.held.copy.status.outboxes[i].claim));
            && NextNumber(l) in m.jobs && m.jobs[NextNumber(l)].state.Running?
            && m.jobs[NextNumber(l)].claim == e.claim && m.jobs[NextNumber(l)].pending == e.pending
  {
    IndexOfEntry(l.held.copy.status.outboxes, i);
  }

  // A target with no next Job gets one for the first entry of its copy that it can
  // promote, whatever the pass started for the other targets.
  lemma AFreeClaimStarts(c: Cluster, t: string, waits: set<string>, i: nat)
    requires c.reading && t in c.ledgers && Serving(c.ledgers[t])
    requires NextNumber(c.ledgers[t]) !in c.ledgers[t].held.jobs.value && NextNumber(c.ledgers[t]) !in c.ledgers[t].jobs
    requires var entries := c.ledgers[t].held.copy.status.outboxes;
             && Sound(entries) && i < |entries| && CanStart(c, waits, entries[i])
             && forall k :: 0 <= k < i ==> !CanStart(c, waits, entries[k])
    ensures var e, d := c.ledgers[t].held.copy.status.outboxes[i], ClusterStep(c, StartFor(t, waits, true));
            && d.ledgers.Keys == c.ledgers.Keys
            && (forall s :: s in c.ledgers && s != t ==> d.ledgers[s] == c.ledgers[s])
            && RunsOn(d.ledgers[t], NextNumber(c.ledgers[t]), e.claim)
            && d.ledgers[t].jobs[NextNumber(c.ledgers[t])].pending == e.pending && e.claim in d.created
            && ClusterStep(c, StartFor(t, waits, false)) == c
  {
    FirstToStart(c, waits, c.ledgers[t].held.copy.status.outboxes, i);
    StartOnEntry(c.ledgers[t], i);
  }

  lemma {:induction false} ClusterRunKeepsInv(c: Cluster, actions: seq<ClusterAction>)
    requires ClusterInv(c)
    ensures ClusterInv(ClusterRun(c, actions))
    decreases |actions|
  {
    if actions != [] {
      ClusterStepKeepsInv(c, actions[0]);
      ClusterRunKeepsInv(ClusterStep(c, actions[0]), actions[1..]);
    }
  }

  lemma InitialClusterInv(c: Cluster)
    requires InitialCluster(c)
    ensures ClusterInv(c)
  {
    forall t | t in c.ledgers ensures Inv(c.ledgers[t]) { InitialInv(c.ledgers[t]); }
  }

  // Over every run, with any number of targets in one pass, two running Jobs
  // never share an outbox claim.
  lemma ClaimsAreNeverShared(start: Cluster, actions: seq<ClusterAction>)
    requires InitialCluster(start)
    ensures Exclusive(ClusterRun(start, actions))
  {
    InitialClusterInv(start);
    ClusterRunKeepsInv(start, actions);
  }
}
