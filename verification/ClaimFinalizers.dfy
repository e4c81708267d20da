// The finalizers of the outbox claims: the claims at the API server, the list of
// them that a promotion pass works from, and the patches that the pass sends.
// astrophotography-operator/outboxfinalizer.go and targetfinalizer.go.
module ClaimFinalizers {
  import opened Basics
  import opened Targets
  import opened Ledgers
  import opened LedgerInvariant
  import opened Promises
  import opened Clusters

  datatype ClaimObject = ClaimObject(version: nat, holds: bool, deleting: bool)

  // The claims at the API server, and the version of the last write.
  datatype Server = Server(claims: map<string, ClaimObject>, clock: nat)

  function NamedBy(outboxes: seq<OutboxFrames>): set<string> {
    set i | 0 <= i < |outboxes| :: outboxes[i].claim
  }

  function AllNamed(targets: seq<seq<OutboxFrames>>): set<string> {
    if targets == [] then {} else AllNamed(targets[..|targets| - 1]) + NamedBy(targets[|targets| - 1])
  }

  // A target of the pass names the claim.
  ghost predicate Named(targets: seq<seq<OutboxFrames>>, claim: string) {
    exists i, k :: 0 <= i < |targets| && 0 <= k < |targets[i]| && targets[i][k].claim == claim
  }

  lemma {:induction false} AllNamedAre(targets: seq<seq<OutboxFrames>>)
    ensures forall c :: c in AllNamed(targets) <==> Named(targets, c)
  {
    if targets != [] {
      var n := |targets| - 1;
      AllNamedAre(targets[..n]);
      forall c ensures Named(targets, c) <==> Named(targets[..n], c) || c in NamedBy(targets[n]) {
        if i, k :| 0 <= i < n && 0 <= k < |targets[..n][i]| && targets[..n][i][k].claim == c {
          assert targets[i][k].claim == c;
        }
        if k :| 0 <= k < |targets[n]| && targets[n][k].claim == c {
          assert targets[n][k].claim == c;
        }
        if i, k :| 0 <= i < |targets| && 0 <= k < |targets[i]| && targets[i][k].claim == c && i < n {
          assert targets[..n][i][k].claim == c;
        }
      }
    }
  }

  // Whether the finalizer of a listed claim is to change: it stands on each claim
  // that a target names and on no other, except that a claim that is being
  // deleted takes no new one.
  predicate NeedsPatch(listed: map<string, ClaimObject>, named: set<string>, key: string) {
    key in listed && listed[key].holds != (key in named) && !(key in named && listed[key].deleting)
  }

  // A patch states the version of the listed copy, and lands only on it.
  predicate Lands(s: Server, listed: map<string, ClaimObject>, key: string) {
    key in listed && key in s.claims && s.claims[key].version == listed[key].version
  }

  function PatchOne(s: Server, listed: map<string, ClaimObject>, named: set<string>, key: string): Server {
    if NeedsPatch(listed, named, key) && Lands(s, listed, key)
    then Server(s.claims[key := s.claims[key].(version := s.clock + 1, holds := key in named)], s.clock + 1)
    else s
  }

  // A claim as the loop left it: patched, or as it was.
  predicate IsPatched(before: Server, after: Server, named: set<string>, key: string)
    requires key in before.claims && key in after.claims
  {
    && after.claims[key].version > before.clock
    && after.claims[key].holds == (key in named) && after.claims[key].deleting == before.claims[key].deleting
  }

  class OutboxClaims {
    var server: Server

    constructor (server: Server)
      ensures this.server == server
    {
      this.server := server;
    }

    method NamesOf(targets: seq<seq<OutboxFrames>>) returns (named: set<string>)
      ensures named == AllNamed(targets)
    {
      named := {};
      for i := 0 to |targets|
        invariant named == AllNamed(targets[..i])
      {
        assert targets[..i + 1][..i] == targets[..i];
        ghost var before := named;
        for j := 0 to |targets[i]|
          invariant named == before + NamedBy(targets[i][..j])
        {
          ExtendNamed(targets[i], j);
          named := named + {targets[i][j].claim};
        }
        assert targets[i][..|targets[i]|] == targets[i];
      }
      assert targets[..|targets|] == targets;
    }

    // One patch, which the server refuses when it states an older version, and
    // which fails for a reason of its own on the claims of refuses.
    method Patch(key: string, listed: map<string, ClaimObject>, want: bool, refuses: set<string>) returns (failed: bool)
      requires key in listed
      modifies this
      ensures failed <==> key in refuses || !Lands(old(server), listed, key)
      ensures server == if failed then old(server)
                        else Server(old(server).claims[key := old(server).claims[key].(version := old(server).clock + 1,
                                                                                       holds := want)],
                                    old(server).clock + 1)
    {
      if key in refuses || key !in server.claims || server.claims[key].version != listed[key].version {
        return true;
      }
      var claim := server.claims[key].(version := server.clock + 1, holds := want);
      server := Server(server.claims[key := claim], server.clock + 1);
      return false;
    }

    // The patches of one pass. The loop ends at the first one that is refused, so
    // then some are not sent.
    method KeepFinalizers(targets: seq<seq<OutboxFrames>>, listed: map<string, ClaimObject>, refuses: set<string>)
      returns (failed: bool)
      modifies this
      ensures server.claims.Keys == old(server).claims.Keys && server.clock >= old(server).clock
      ensures forall k :: k in server.claims && server.claims[k] != old(server).claims[k] ==>
                && k in listed && listed[k].holds != Named(targets, k) && !(Named(targets, k) && listed[k].deleting)
                && old(server).claims[k].version == listed[k].version && k !in refuses
                && server.claims[k].version > old(server).clock && server.claims[k].holds == Named(targets, k)
                && server.claims[k].deleting == old(server).claims[k].deleting
      ensures !failed ==> forall k :: k in listed && listed[k].holds != Named(targets, k)
                                      && !(Named(targets, k) && listed[k].deleting) ==>
                k in server.claims && k !in refuses && server.claims[k].version > old(server).clock
                && server.claims[k].holds == Named(targets, k)
      ensures failed ==> exists k :: k in listed && listed[k].holds != Named(targets, k)
                                     && (k in refuses || !Lands(old(server), listed, k))
    {
      var named := NamesOf(targets);
      AllNamedAre(targets);
      var left := listed.Keys;
      while left != {}
        invariant left <= listed.Keys
        invariant server.claims.Keys == old(server).claims.Keys && server.clock >= old(server).clock
        invariant forall k :: k in server.claims && (k in left || !NeedsPatch(listed, named, k)) ==>
                    server.claims[k] == old(server).claims[k]
        invariant forall k :: NeedsPatch(listed, named, k) && k !in left ==>
                    && k in server.claims && k !in refuses && Lands(old(server), listed, k)
                    && IsPatched(old(server), server, named, k)
      {
        var key :| key in left;
        var want := key in named;
        if listed[key].holds == want || (want && listed[key].deleting) {
          left := left - {key};
          continue;
        }
        var refused := Patch(key, listed, want, refuses);
        if refused {
          assert NeedsPatch(listed, named, key);
          return true;
        }
        left := left - {key};
      }
      return false;
    }
  }

  lemma ExtendNamed(o: seq<OutboxFrames>, j: nat)
    requires j < |o|
    ensures NamedBy(o[..j + 1]) == NamedBy(o[..j]) + {o[j].claim}
  {
    var longer := o[..j + 1];
    forall c | c in NamedBy(longer) ensures c in NamedBy(o[..j]) + {o[j].claim} {
      var i :| 0 <= i < |longer| && longer[i].claim == c;
      if i < j { assert o[..j][i] == longer[i]; }
    }
    forall c | c in NamedBy(o[..j]) ensures c in NamedBy(longer) {
      var i :| 0 <= i < j && o[..j][i].claim == c;
      assert longer[i].claim == c;
    }
    assert longer[j].claim == o[j].claim;
  }

  // ---------------------------------------------------------------------------
  // The claims beside the targets, over whole runs

  // store is the informer's copy of the claims, listed the one that the pass
  // took, and targets the ones that the pass listed.
  datatype World = World(cluster: Cluster, server: Server, store: map<string, ClaimObject>,
                         listed: map<string, ClaimObject>, targets: set<string>)

  datatype WorldAction =
    | Within(action: ClusterAction)
    | MakeClaim(key: string)
    | DeleteClaim(key: string)
    | EditClaim(key: string, keeps: bool)
    | ClaimGoes(key: string)
    | Deliver
    | PatchClaim(key: string)

  // What the claims and the pass's list ask of a step of the targets: a file is
  // saved in a claim that exists, and the pass knows the claims that it listed.
  predicate MayAct(w: World, t: string, a: Action) {
    && !a.LoseClaim?
    && (a.Save? ==> t in w.cluster.ledgers && a.frame in w.cluster.ledgers[t].frames ==>
          w.cluster.ledgers[t].frames[a.frame].claim in w.server.claims)
    && (a.DropFinalizer? || a.ReportWait? ==> w.cluster.reading && a.seen == w.listed.Keys)
  }

  function ClusterPart(w: World, a: ClusterAction): World {
    match a
    case On(t, action) => if MayAct(w, t, action) then w.(cluster := ClusterStep(w.cluster, a)) else w
    case ListTargets =>
      w.(cluster := ClusterStep(w.cluster, a), listed := map[],
         targets := set t | t in w.cluster.ledgers && !w.cluster.ledgers[t].gone)
    case ReadWorld =>
      var c := ClusterStep(w.cluster, a);
      if c.reading && !w.cluster.reading then w.(cluster := c, listed := w.store) else w
    case StartFor(_, _, _) => w.(cluster := ClusterStep(w.cluster, a))
    case StopPass => w.(cluster := ClusterStep(w.cluster, a), listed := map[], targets := {})
  }

  // A claim's write at the server.
  function Written(s: Server, key: string, claim: ClaimObject): Server {
    Server(s.claims[key := claim.(version := s.clock + 1)], s.clock + 1)
  }

  // The claims that the copies of the pass name.
  function NamedIn(w: World): set<string> {
    set t, i | t in w.targets && t in w.cluster.ledgers && w.cluster.ledgers[t].held.Listed?
               && 0 <= i < |w.cluster.ledgers[t].held.copy.status.outboxes|
      :: w.cluster.ledgers[t].held.copy.status.outboxes[i].claim
  }

  function WorldStep(w: World, a: WorldAction): World {
    match a
    case Within(action) => ClusterPart(w, action)
    case MakeClaim(key) =>
      if key in w.server.claims then w else w.(server := Written(w.server, key, ClaimObject(0, false, false)))
    case DeleteClaim(key) =>
      if key !in w.server.claims then w
      else w.(server := Written(w.server, key, w.server.claims[key].(deleting := true)))
    case EditClaim(key, keeps) =>
      if key !in w.server.claims then w
      else w.(server := Written(w.server, key, w.server.claims[key].(holds := w.server.claims[key].holds && keeps)))
    case ClaimGoes(key) =>
      if key !in w.server.claims || w.server.claims[key].holds || !w.server.claims[key].deleting then w
      else w.(server := w.server.(claims := w.server.claims - {key}), cluster := WithoutClaim(w.cluster, key))
    case Deliver => w.(store := w.server.claims)
    case PatchClaim(key) =>
      if w.cluster.reading then w.(server := PatchOne(w.server, w.listed, NamedIn(w), key)) else w
  }

  // A claim that goes takes its frames with it.
  function WithoutClaim(c: Cluster, key: string): Cluster {
    c.(ledgers := map t | t in c.ledgers :: Step(c.ledgers[t], LoseClaim(key)))
  }

  function WorldRun(w: World, actions: seq<WorldAction>): World
    decreases |actions|
  {
    if actions == [] then w else WorldRun(WorldStep(w, actions[0]), actions[1..])
  }

  // An operator that starts, over claims as they are.
  predicate InitialWorld(w: World) {
    InitialCluster(w.cluster) && w.listed == map[] && w.targets == {}
  }

  // ---------------------------------------------------------------------------
  // What every run keeps

  // Every file that is in a claim is in one that exists.
  predicate Housed(l: Ledger, claims: set<string>) {
    forall f :: f in l.frames && l.frames[f].place.Saved? ==> l.frames[f].claim in claims
  }

  ghost predicate WorldInv(w: World) {
    && ClusterInv(w.cluster) && w.targets <= w.cluster.ledgers.Keys
    && forall t :: t in w.cluster.ledgers ==>
         Covers(w.cluster.ledgers[t]) && Housed(w.cluster.ledgers[t], w.server.claims.Keys)
  }

  // One action that a ledger may take in a step of the cluster.
  predicate MayTake(a: ClusterAction, t: string, b: Action) {
    match a
    case On(s, action) => s == t && b == action
    case ListTargets => b.List?
    case ReadWorld => b.Read?
    case StartFor(_, _, _) => b.StartJob?
    case StopPass => b.EndPass?
  }

  lemma OneStepEach(c: Cluster, a: ClusterAction, t: string)
    requires t in c.ledgers
    ensures ClusterStep(c, a).ledgers.Keys == c.ledgers.Keys
    ensures || ClusterStep(c, a).ledgers[t] == c.ledgers[t]
            || exists b :: MayTake(a, t, b) && ClusterStep(c, a).ledgers[t] == Step(c.ledgers[t], b)
  {
    match a
    case On(s, action) => assert MayTake(a, s, action);
    case ListTargets => assert MayTake(a, t, List);
    case ReadWorld => assert MayTake(a, t, Read);
    case StartFor(s, waits, archive) =>
      if ClusterStep(c, a) != c {
        var claim := StartUsesAFreeClaim(c, a);
        assert MayTake(a, s, StartJob(claim));
      }
    case StopPass => assert MayTake(a, t, EndPass);
  }

  lemma RunnerHouses(l: Ledger, a: Action, claims: set<string>)
    requires ByRunner(a) && Housed(l, claims)
    ensures Housed(RunnerStep(l, a), claims)
  {
  }

  lemma JobHouses(l: Ledger, a: Action, claims: set<string>)
    requires OfJob(a) && Housed(l, claims)
    ensures Housed(JobStep(l, a), claims)
  {
  }

  lemma FramesHouse(l: Ledger, a: Action, claims: set<string>)
    requires Housed(l, claims) && (a.Save? && a.frame in l.frames ==> l.frames[a.frame].claim in claims)
    ensures Housed(FramesStep(l, a), claims)
  {
  }

  lemma StepHouses(l: Ledger, a: Action, claims: set<string>)
    requires CopyFits(l) && Housed(l, claims)
    requires a.Save? && a.frame in l.frames ==> l.frames[a.frame].claim in claims
    ensures Housed(Step(l, a), claims)
  {
    if ByRunner(a) {
      assert Step(l, a) == RunnerStep(l, a);
      RunnerHouses(l, a, claims);
    } else if ByPerson(a) {
      assert Step(l, a).frames == l.frames;
    } else if OfFrames(a) {
      assert Step(l, a) == FramesStep(l, a);
      FramesHouse(l, a, claims);
    } else if OfJob(a) {
      assert Step(l, a) == JobStep(l, a);
      JobHouses(l, a, claims);
    } else {
      assert Step(l, a) == LoopStep(l, a);
      LoopKeepsFrames(l, a);
    }
  }

  // What one step leaves of one target.
  ghost predicate Stands(l: Ledger, claims: set<string>) {
    Inv(l) && Covers(l) && Housed(l, claims)
  }

  lemma StepStands(l: Ledger, a: Action, claims: set<string>)
    requires Stands(l, claims)
    requires a.Save? && a.frame in l.frames ==> l.frames[a.frame].claim in claims
    ensures Stands(Step(l, a), claims)
  {
    StepKeepsInv(l, a);
    StepKeepsCover(l, a);
    StepHouses(l, a, claims);
  }

  lemma ClusterStepStands(c: Cluster, a: ClusterAction, t: string, claims: set<string>)
    requires t in c.ledgers && Stands(c.ledgers[t], claims)
    requires a.On? && a.action.Save? && a.action.frame in c.ledgers[t].frames && a.target == t ==>
               c.ledgers[t].frames[a.action.frame].claim in claims
    ensures t in ClusterStep(c, a).ledgers && Stands(ClusterStep(c, a).ledgers[t], claims)
  {
    OneStepEach(c, a, t);
    var m := ClusterStep(c, a).ledgers[t];
    if m != c.ledgers[t] {
      var b :| MayTake(a, t, b) && m == Step(c.ledgers[t], b);
      StepStands(c.ledgers[t], b, claims);
    }
  }

  lemma ClusterPartKeepsInv(w: World, a: ClusterAction)
    requires WorldInv(w)
    ensures WorldInv(ClusterPart(w, a))
  {
    if !a.On? || MayAct(w, a.target, a.action) {
      ClusterStepKeepsInv(w.cluster, a);
      forall t | t in w.cluster.ledgers
        ensures t in ClusterStep(w.cluster, a).ledgers
        ensures Stands(ClusterStep(w.cluster, a).ledgers[t], w.server.claims.Keys)
      {
        ClusterStepStands(w.cluster, a, t, w.server.claims.Keys);
      }
      SameTargets(w.cluster, a);
    }
  }

  lemma SameTargets(c: Cluster, a: ClusterAction)
    ensures ClusterStep(c, a).ledgers.Keys == c.ledgers.Keys
  {
  }

  lemma LostStands(l: Ledger, claims: set<string>, key: string)
    requires Stands(l, claims)
    ensures Stands(Step(l, LoseClaim(key)), claims - {key})
    ensures StartsNoJob(l, Step(l, LoseClaim(key)))
  {
    StepStands(l, LoseClaim(key), claims);
    AloneStartsNoJob(l, LoseClaim(key));
  }

  lemma LostEachStands(c: Cluster, claims: set<string>, key: string)
    requires forall t :: t in c.ledgers ==> Stands(c.ledgers[t], claims)
    ensures forall t :: t in c.ledgers ==>
              && Stands(WithoutClaim(c, key).ledgers[t], claims - {key})
              && StartsNoJob(c.ledgers[t], WithoutClaim(c, key).ledgers[t])
  {
    forall t | t in c.ledgers
      ensures Stands(WithoutClaim(c, key).ledgers[t], claims - {key})
      ensures StartsNoJob(c.ledgers[t], WithoutClaim(c, key).ledgers[t])
    {
      LostStands(c.ledgers[t], claims, key);
    }
  }

  // Ledgers that start no Job keep the cluster's invariant with their own.
  lemma EachStartsNoJob(c: Cluster, d: Cluster)
    requires ClusterInv(c) && d.ledgers.Keys == c.ledgers.Keys && d.reading == c.reading && d.created == c.created
    requires forall t :: t in c.ledgers ==> Inv(d.ledgers[t]) && StartsNoJob(c.ledgers[t], d.ledgers[t])
    ensures ClusterInv(d)
  {
    FewerJobsFit(c, d);
  }

  lemma ClaimGoesKeepsInv(w: World, key: string)
    requires WorldInv(w)
    ensures var server := w.server.(claims := w.server.claims - {key});
            WorldInv(w.(server := server, cluster := WithoutClaim(w.cluster, key)))
  {
    LostEachStands(w.cluster, w.server.claims.Keys, key);
    EachStartsNoJob(w.cluster, WithoutClaim(w.cluster, key));
    assert (w.server.claims - {key}).Keys == w.server.claims.Keys - {key};
  }

  lemma WorldStepKeepsInv(w: World, a: WorldAction)
    requires WorldInv(w)
    ensures WorldInv(WorldStep(w, a))
  {
    if a.Within? {
      ClusterPartKeepsInv(w, a.action);
    } else if a.ClaimGoes? {
      ClaimGoesKeepsInv(w, a.key);
    }
  }

  lemma {:induction false} WorldRunKeepsInv(w: World, actions: seq<WorldAction>)
    requires WorldInv(w)
    ensures WorldInv(WorldRun(w, actions))
    decreases |actions|
  {
    if actions != [] {
      WorldStepKeepsInv(w, actions[0]);
      WorldRunKeepsInv(WorldStep(w, actions[0]), actions[1..]);
    }
  }

  lemma InitialWorldInv(w: World)
    requires InitialWorld(w)
    ensures WorldInv(w)
  {
    InitialClusterInv(w.cluster);
  }

  // ---------------------------------------------------------------------------
  // What the finalizers leave behind

  ghost predicate HoldsFrames(l: Ledger, claim: string) {
    StillIn(l.log, l.frames, claim) != {}
  }

  // A counted frame that the copy of the pass did not know of.
  ghost predicate HoldsNewFrames(l: Ledger, claim: string) {
    l.held.Listed? && CountedSince(l, claim) != {}
  }

  lemma UnnamedInTheCopy(w: World, t: string, key: string)
    requires t in w.targets && t in w.cluster.ledgers && w.cluster.ledgers[t].held.Listed? && key !in NamedIn(w)
    ensures OutboxIndex(w.cluster.ledgers[t].held.copy.status.outboxes, key) < 0
  {
  }

  lemma PatchTakesItOff(w: World, key: string)
    requires key in w.server.claims && w.server.claims[key].holds
    requires var n := WorldStep(w, PatchClaim(key)); key in n.server.claims && !n.server.claims[key].holds
    ensures w.cluster.reading && key !in NamedIn(w)
  {
  }

  lemma UnnamedByThePass(w: World, t: string, key: string)
    requires WorldInv(w) && w.cluster.reading && key !in NamedIn(w) && t in w.targets
    ensures t in w.cluster.ledgers
    ensures HoldsFrames(w.cluster.ledgers[t], key) <==> HoldsNewFrames(w.cluster.ledgers[t], key)
  {
    var l := w.cluster.ledgers[t];
    assert l.held.Listed? && Covers(l);
    UnnamedInTheCopy(w, t, key);
    UnnamedHoldsOnlyNewFrames(l, key);
  }

  // Over every run, the patch that takes a claim's finalizer off leaves a counted
  // frame in the claim exactly when a target that the pass listed has one there
  // that was counted since its copy was read, or a target that was gone before
  // the list left one there.
  lemma TheClaimIsLetGo(start: World, actions: seq<WorldAction>, key: string)
    requires InitialWorld(start)
    requires var w := WorldRun(start, actions); var n := WorldStep(w, PatchClaim(key));
             key in w.server.claims && w.server.claims[key].holds
             && key in n.server.claims && !n.server.claims[key].holds
    ensures var w := WorldRun(start, actions); var ledgers := w.cluster.ledgers;
            (exists t :: t in ledgers && HoldsFrames(ledgers[t], key))
            <==> (exists t :: t in ledgers && if t in w.targets then HoldsNewFrames(ledgers[t], key)
                                              else HoldsFrames(ledgers[t], key))
  {
    InitialWorldInv(start);
    WorldRunKeepsInv(start, actions);
    var w := WorldRun(start, actions);
    PatchTakesItOff(w, key);
    forall t | t in w.targets
      ensures t in w.cluster.ledgers
      ensures HoldsFrames(w.cluster.ledgers[t], key) <==> HoldsNewFrames(w.cluster.ledgers[t], key)
    {
      UnnamedByThePass(w, t, key);
    }
  }

  // Over every run, the patch that takes a target's finalizer off leaves a
  // counted frame of it in a claim exactly when one is in a claim that exists
  // and that the pass did not list.
  lemma TheTargetIsLetGo(start: World, actions: seq<WorldAction>, t: string)
    requires InitialWorld(start)
    requires var w := WorldRun(start, actions); var n := WorldStep(w, Within(On(t, DropFinalizer(w.listed.Keys))));
             && t in w.cluster.ledgers && w.cluster.ledgers[t].target.finalizer
             && t in n.cluster.ledgers && !n.cluster.ledgers[t].target.finalizer
    ensures var w := WorldRun(start, actions); var l := w.cluster.ledgers[t];
            (exists c :: HoldsFrames(l, c))
            <==> (exists c :: c in w.server.claims && c !in w.listed && HoldsFrames(l, c))
  {
    InitialWorldInv(start);
    WorldRunKeepsInv(start, actions);
    var w := WorldRun(start, actions);
    var l := w.cluster.ledgers[t];
    DropLeavesNothing(l, w.listed.Keys);
    assert Housed(l, w.server.claims.Keys);
    forall c | HoldsFrames(l, c) ensures c in w.server.claims && c !in w.listed {
      var f :| f in StillIn(l.log, l.frames, c);
    }
  }
}
