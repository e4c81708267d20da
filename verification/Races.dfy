// Where the two frames finalizers fall short: what the pass read is older than
// what it takes off. A frame counted after the pass read its copy of the
// target can be in a claim that the copy does not name, and a claim made after
// the pass listed the claims can hold a frame of the target that goes.
module Races {
  import opened Basics
  import opened Sequences
  import opened Targets
  import opened Ledgers
  import opened Promises
  import opened Clusters
  import opened ClaimFinalizers

  function OneSequence(): Spec {
    Spec(false, 0, [Sequence("", Length("60s", Some(60.0)), 2, None, None, None)])
  }

  function Fresh(): Ledger {
    Ledger(Object(0, 0, false, true, false, OneSequence(), EmptyStatus), false, map[], [], map[], Idle, 0)
  }

  // The world of one target, in a pass that listed the claims as the store held
  // them.
  function OneTarget(l: Ledger, server: Server, listed: map<string, ClaimObject>): World {
    World(Cluster(map["t" := l], true, {}), server, listed, listed, {"t"})
  }

  function Start(server: Server): World {
    World(Cluster(map["t" := Fresh()], false, {}), server, server.claims, map[], {})
  }

  lemma {:induction false} RunsCompose(w: World, a: seq<WorldAction>, b: seq<WorldAction>)
    ensures WorldRun(w, a + b) == WorldRun(WorldRun(w, a), b)
    decreases |a|
  {
    if a == [] {
      assert a + b == b;
    } else {
      assert (a + b)[0] == a[0] && (a + b)[1..] == a[1..] + b;
      RunsCompose(WorldStep(w, a[0]), a[1..], b);
    }
  }

  // ---------------------------------------------------------------------------
  // The ledger's part

  // A target that a runner can claim, under a copy that names no claim.
  predicate Open(l: Ledger) {
    && l.target.spec == OneSequence() && !l.gone && !l.target.deleting && l.target.finalizer
    && l.target.status.outboxes == [] && l.target.status.reservation == "" && l.target.status.failed.None?
    && Eligible(l.target, true, {"r"}, "r")
    && l.log == [] && l.frames == map[]
    && l.held.Listed? && l.held.copy.status.outboxes == [] && l.held.counted == {}
  }

  const TheFrame := Exposure("f", 0, "r")
  const Counting := [Claim("r", true, {}), Record("r", "f", 0, "c"), Save("f"), Count("r", TheFrame, true, true)]

  // The target with the frame counted in its claim, under the same copy.
  predicate CountedUnder(l: Ledger, held: Held) {
    && l.held == held && !l.gone && !l.target.deleting && l.target.finalizer && l.target.spec == OneSequence()
    && l.target.status.outboxes == [OutboxFrames("c", 1, 0)] && l.target.status.reservation == "r"
    && l.target.status.exposure.None?
    && l.log == ["f"] && l.frames == map["f" := Frame("c", "r", Saved)]
  }

  lemma ListedFresh()
    ensures var l := Step(Step(Fresh(), List), Read);
            && l.held == Listed(Fresh().target, {}, Some(map[]), false) && l == Fresh().(held := l.held)
  {
    assert Logged([]) == {};
    assert Step(Fresh(), List) == Fresh().(held := Listed(Fresh().target, {}, None, false));
  }

  lemma FreshIsEligible()
    ensures Eligible(Fresh().target, true, {"r"}, "r")
  {
    var spec := OneSequence();
    assert HeldIndex([], spec.sequences[0]) == -1;
    assert WorkLeft(Aligned(spec.sequences, [])[0]) == 2;
  }

  lemma ListedAndRead()
    ensures var l := Step(Step(Fresh(), List), Read);
            && Open(l) && l.held.copy == l.target && l.held.copy.status == EmptyStatus
            && l.held.jobs == Some(map[]) && !l.held.served
  {
    ListedFresh();
    FreshIsEligible();
  }

  lemma AlignedTwice()
    ensures var s := OneSequence().sequences;
            |Aligned(s, [])| == 1 && WorkLeft(Aligned(s, Aligned(s, []))[0]) == 2 && !IsComplete(Aligned(s, []))
  {
    var s := OneSequence().sequences;
    assert HeldIndex([], s[0]) == -1;
    assert HeldIndex(Aligned(s, []), s[0]) == 0;
  }

  lemma ProgressKept(l: Ledger)
    requires Open(l) && l.held.copy == l.target && l.held.copy.status == EmptyStatus
    requires l.held.jobs == Some(map[]) && !l.held.served
    ensures Open(Step(l, KeepCounts))
  {
    AlignedTwice();
    assert Logged([]) == {};
    var after := AfterProgress(OneSequence(), EmptyStatus).value;
    assert |after.sequences| == 1 && EmptyStatus.sequences == [];
    var m := Step(l, KeepCounts);
    assert m.target.status == after;
    assert NextSequence(Aligned(m.target.spec.sequences, m.target.status.sequences)) >= 0;
  }

  lemma ClaimedAndRecorded(l: Ledger)
    requires Open(l)
    ensures var m := Step(Step(l, Counting[0]), Counting[1]);
            && m.held == l.held && !m.gone && !m.target.deleting && m.target.finalizer && m.target.spec == OneSequence()
            && m.target.status.outboxes == [] && m.target.status.reservation == "r"
            && m.target.status.exposure == Some(TheFrame) && m.log == []
            && m.frames == map["f" := Frame("c", "r", Flying)]
  {
    assert {} + {"r"} == {"r"};
    var m := Step(l, Counting[0]);
    assert m.target.status.reservation == "r" && m.target.status.outboxes == [] && m.frames == map[];
  }

  lemma SavedAndCounted(l: Ledger)
    requires !l.gone && !l.target.deleting && l.target.finalizer && l.target.spec == OneSequence()
    requires l.target.status.outboxes == [] && l.target.status.reservation == "r"
    requires l.target.status.exposure == Some(TheFrame)
    requires l.log == [] && l.frames == map["f" := Frame("c", "r", Flying)]
    ensures CountedUnder(Step(Step(l, Counting[2]), Counting[3]), l.held)
  {
    var m := Step(l, Counting[2]);
    assert m.frames == map["f" := Frame("c", "r", Saved)] && m.target == l.target;
    assert OutboxIndex([], "c") == -1;
    var after := AfterCount(m.target.spec, m.target.status, TheFrame, true, "c", "r", true).value;
    assert after.outboxes == [OutboxFrames("c", 1, 0)] && after.exposure.None?;
  }

  // ---------------------------------------------------------------------------
  // The world's part

  predicate ActsAlone(l: Ledger, server: Server, a: Action) {
    ByRunner(a) || a.KeepCounts? || a.Delete?
    || (a.Save? && a.frame in l.frames && l.frames[a.frame].claim in server.claims)
  }

  lemma OneTargetSteps(l: Ledger, server: Server, listed: map<string, ClaimObject>, a: Action)
    requires Alone(a) && MayAct(OneTarget(l, server, listed), "t", a)
    ensures WorldStep(OneTarget(l, server, listed), Within(On("t", a))) == OneTarget(Step(l, a), server, listed)
  {
    assert map["t" := l]["t" := Step(l, a)] == map["t" := Step(l, a)];
  }

  lemma TheTargetActs(l: Ledger, server: Server, listed: map<string, ClaimObject>, a: Action)
    requires ActsAlone(l, server, a)
    ensures WorldStep(OneTarget(l, server, listed), Within(On("t", a))) == OneTarget(Step(l, a), server, listed)
  {
    OneTargetSteps(l, server, listed, a);
  }

  const Opening := [Within(ListTargets), Within(ReadWorld)]
  const Acting := [Within(On("t", Counting[0])), Within(On("t", Counting[1])), Within(On("t", Counting[2])),
                   Within(On("t", Counting[3]))]

  lemma OneAction(w: World, a: WorldAction)
    ensures WorldRun(w, [a]) == WorldStep(w, a)
  {
    assert [a][1..] == [];
  }

  lemma TwoActions(w: World, a: WorldAction, b: WorldAction)
    ensures WorldRun(w, [a, b]) == WorldStep(WorldStep(w, a), b)
  {
    assert [a, b] == [a] + [b];
    RunsCompose(w, [a], [b]);
    OneAction(w, a);
    OneAction(WorldStep(w, a), b);
  }

  lemma FourActions(w: World, a: WorldAction, b: WorldAction, c: WorldAction, d: WorldAction)
    ensures WorldRun(w, [a, b, c, d]) == WorldStep(WorldStep(WorldStep(WorldStep(w, a), b), c), d)
  {
    assert [a, b, c, d] == [a, b] + [c, d];
    RunsCompose(w, [a, b], [c, d]);
    TwoActions(w, a, b);
    TwoActions(WorldStep(WorldStep(w, a), b), c, d);
  }

  lemma TargetsAreListed(server: Server)
    ensures WorldStep(Start(server), Within(ListTargets))
            == World(Cluster(map["t" := Step(Fresh(), List)], false, {}), server, server.claims, map[], {"t"})
  {
    var w := WorldStep(Start(server), Within(ListTargets));
    assert w.cluster.ledgers == map["t" := Step(Fresh(), List)] && w.targets == {"t"};
  }

  lemma ClaimsAreListed(l: Ledger, server: Server)
    requires l.held.Listed? && l.held.jobs.None?
    ensures WorldStep(World(Cluster(map["t" := l], false, {}), server, server.claims, map[], {"t"}), Within(ReadWorld))
            == OneTarget(Step(l, Read), server, server.claims)
  {
    var w := World(Cluster(map["t" := l], false, {}), server, server.claims, map[], {"t"});
    assert WorldStep(w, Within(ReadWorld)).cluster.ledgers == map["t" := Step(l, Read)];
  }

  lemma TheOpening(server: Server)
    ensures WorldRun(Start(server), Opening) == OneTarget(Step(Step(Fresh(), List), Read), server, server.claims)
  {
    TargetsAreListed(server);
    ClaimsAreListed(Step(Fresh(), List), server);
    TwoActions(Start(server), Within(ListTargets), Within(ReadWorld));
  }

  // The runner's part of both runs: one frame claimed for, recorded, saved and
  // counted, while the pass holds its copy.
  lemma TheFrameIsCounted(l: Ledger, server: Server, listed: map<string, ClaimObject>) returns (m: Ledger)
    requires Open(l) && "c" in server.claims
    ensures WorldRun(OneTarget(l, server, listed), Acting) == OneTarget(m, server, listed)
    ensures CountedUnder(m, l.held)
  {
    var l1, l2 := Step(l, Counting[0]), Step(Step(l, Counting[0]), Counting[1]);
    var l3 := Step(l2, Counting[2]);
    m := Step(l3, Counting[3]);
    ClaimedAndRecorded(l);
    SavedAndCounted(l2);
    TheTargetActs(l, server, listed, Counting[0]);
    TheTargetActs(l1, server, listed, Counting[1]);
    TheTargetActs(l2, server, listed, Counting[2]);
    TheTargetActs(l3, server, listed, Counting[3]);
    FourActions(OneTarget(l, server, listed), Acting[0], Acting[1], Acting[2], Acting[3]);
  }

  // ---------------------------------------------------------------------------
  // A copy that is older than the frame

  // The claim that is being deleted, with the finalizer that an earlier frame put
  // on it.
  const HeldClaim := map["c" := ClaimObject(1, true, true)]
  const StalePass := Opening + [Within(On("t", KeepCounts))] + Acting + [PatchClaim("c"), ClaimGoes("c")]

  lemma TheFinalizerComesOff(l: Ledger)
    requires l.held.Listed? && l.held.copy.status.outboxes == []
    ensures WorldStep(OneTarget(l, Server(HeldClaim, 1), HeldClaim), PatchClaim("c"))
            == OneTarget(l, Server(map["c" := ClaimObject(2, false, true)], 2), HeldClaim)
  {
    assert NamedIn(OneTarget(l, Server(HeldClaim, 1), HeldClaim)) == {};
    assert HeldClaim["c" := ClaimObject(2, false, true)] == map["c" := ClaimObject(2, false, true)];
  }

  lemma TheClaimGoes(l: Ledger)
    ensures var patched := Server(map["c" := ClaimObject(2, false, true)], 2);
            var w := WorldStep(OneTarget(l, patched, HeldClaim), ClaimGoes("c"));
            w.cluster.ledgers == map["t" := Step(l, LoseClaim("c"))] && w.server.claims == map[]
  {
  }

  lemma TheFrameIsLost(l: Ledger)
    requires CountedUnder(l, l.held)
    ensures var m := Step(l, LoseClaim("c"));
            m.log == ["f"] && m.frames == map["f" := Frame("c", "r", Lost)] && Entries(m) == [OutboxFrames("c", 1, 0)]
  {
  }

  lemma TheOpeningAndProgress(server: Server)
    ensures var l := Step(Step(Fresh(), List), Read);
            WorldRun(Start(server), Opening + [Within(On("t", KeepCounts))])
            == OneTarget(Step(l, KeepCounts), server, server.claims)
  {
    var l, keep := Step(Step(Fresh(), List), Read), Within(On("t", KeepCounts));
    TheOpening(server);
    RunsCompose(Start(server), Opening, [keep]);
    OneAction(OneTarget(l, server, server.claims), keep);
    TheTargetActs(l, server, server.claims, KeepCounts);
  }

  lemma TheFinalPatch(l: Ledger)
    requires CountedUnder(l, l.held) && l.held.Listed? && l.held.copy.status.outboxes == []
    ensures var w := WorldRun(OneTarget(l, Server(HeldClaim, 1), HeldClaim), [PatchClaim("c"), ClaimGoes("c")]);
            && w.cluster.ledgers == map["t" := Step(l, LoseClaim("c"))] && w.server.claims == map[]
  {
    TwoActions(OneTarget(l, Server(HeldClaim, 1), HeldClaim), PatchClaim("c"), ClaimGoes("c"));
    TheFinalizerComesOff(l);
    TheClaimGoes(l);
  }

  lemma TheFrameUnderTheStaleCopy() returns (m: Ledger)
    ensures WorldRun(Start(Server(HeldClaim, 1)), Opening + [Within(On("t", KeepCounts))] + Acting)
            == OneTarget(m, Server(HeldClaim, 1), HeldClaim)
    ensures CountedUnder(m, m.held) && m.held.Listed? && m.held.copy.status.outboxes == []
  {
    var server, l := Server(HeldClaim, 1), Step(Step(Fresh(), List), Read);
    RunsCompose(Start(server), Opening + [Within(On("t", KeepCounts))], Acting);
    TheOpeningAndProgress(server);
    ListedAndRead();
    ProgressKept(l);
    m := TheFrameIsCounted(Step(l, KeepCounts), server, HeldClaim);
  }

  // The frame is counted in a claim that the copy of the pass does not name, so
  // the pass takes the claim's finalizer off, and the claim goes with the frame.
  lemma StaleCopyMissesAFrame()
    ensures InitialWorld(Start(Server(HeldClaim, 1)))
    ensures var w := WorldRun(Start(Server(HeldClaim, 1)), StalePass);
            && w.cluster.ledgers.Keys == {"t"} && w.server.claims == map[]
            && var l := w.cluster.ledgers["t"];
            l.log == ["f"] && l.frames == map["f" := Frame("c", "r", Lost)] && Entries(l) == [OutboxFrames("c", 1, 0)]
  {
    RunsCompose(Start(Server(HeldClaim, 1)), Opening + [Within(On("t", KeepCounts))] + Acting,
                [PatchClaim("c"), ClaimGoes("c")]);
    var m := TheFrameUnderTheStaleCopy();
    TheFinalPatch(m);
    TheFrameIsLost(m);
  }

  // ---------------------------------------------------------------------------
  // A list that is older than the claim

  const NewClaimPass :=
    Opening + [MakeClaim("c")] + Acting
    + [Within(On("t", Release("r", None, "Deleting"))), Within(On("t", Delete)), Within(On("t", KeepCounts)),
       Within(On("t", DropFinalizer({})))]

  // A released and deleted target, under the pass's first copy.
  predicate Leaving(l: Ledger) {
    && l.target.status.outboxes == [OutboxFrames("c", 1, 0)] && l.target.status.exposure.None?
    && l.target.status.reservation == "" && l.target.deleting && l.target.finalizer && !l.gone
    && l.target.spec == OneSequence() && l.log == ["f"] && l.frames == map["f" := Frame("c", "r", Saved)]
    && Serving(l) && l.held.copy.spec == OneSequence() && l.held.copy.status == EmptyStatus
  }

  lemma ReleasedAndDeleted(l: Ledger, held: Held)
    requires CountedUnder(l, held) && held.Listed? && held.jobs == Some(map[]) && !held.served
    requires held.copy.spec == OneSequence() && held.copy.status == EmptyStatus
    ensures Leaving(Step(Step(l, Release("r", None, "Deleting")), Delete))
  {
  }

  lemma RefreshedOverTheFrame(l: Ledger)
    requires Leaving(l)
    ensures var m := Step(l, KeepCounts);
            && m.held.Listed? && m.held.copy == m.target && m.log == l.log && m.frames == l.frames && !m.gone
            && m.target.status.exposure.None? && m.target.status.reservation == ""
            && m.target.deleting && m.target.finalizer
  {
    var first := Composed(KeepProgress, l.held.copy.spec, l.held.copy.status);
    assert |first.value.sequences| == 1 && |l.held.copy.status.sequences| == 0;
  }

  lemma DropsWithNoClaimListed(l: Ledger)
    requires l.held.Listed? && l.held.copy == l.target && !l.gone
    requires l.target.deleting && l.target.finalizer
    requires l.target.status.reservation == "" && l.target.status.exposure.None?
    ensures var m := Step(l, DropFinalizer({})); LetGo(m) && m.log == l.log && m.frames == l.frames
  {
  }

  lemma TheTargetDrops(l: Ledger, server: Server)
    ensures WorldStep(OneTarget(l, server, map[]), Within(On("t", DropFinalizer({}))))
            == OneTarget(Step(l, DropFinalizer({})), server, map[])
  {
    OneTargetSteps(l, server, map[], DropFinalizer({}));
  }

  lemma TheTargetGoes(l: Ledger, server: Server)
    requires CountedUnder(l, l.held) && l.held.Listed? && l.held.jobs == Some(map[]) && !l.held.served
    requires l.held.copy.spec == OneSequence() && l.held.copy.status == EmptyStatus
    ensures var w := WorldRun(OneTarget(l, server, map[]), NewClaimPass[7..]);
            && w.server == server && w.cluster.ledgers.Keys == {"t"}
            && LetGo(w.cluster.ledgers["t"]) && w.cluster.ledgers["t"].frames == map["f" := Frame("c", "r", Saved)]
            && w.cluster.ledgers["t"].log == ["f"]
  {
    var l1 := Step(l, Release("r", None, "Deleting"));
    var l2 := Step(l1, Delete);
    var l3 := Step(l2, KeepCounts);
    ReleasedAndDeleted(l, l.held);
    RefreshedOverTheFrame(l2);
    DropsWithNoClaimListed(l3);
    TheTargetActs(l, server, map[], Release("r", None, "Deleting"));
    TheTargetActs(l1, server, map[], Delete);
    TheTargetActs(l2, server, map[], KeepCounts);
    TheTargetDrops(l3, server);
    var rest := NewClaimPass[7..];
    assert rest == [Within(On("t", Release("r", None, "Deleting"))), Within(On("t", Delete)),
                    Within(On("t", KeepCounts)), Within(On("t", DropFinalizer({})))];
    FourActions(OneTarget(l, server, map[]), rest[0], rest[1], rest[2], rest[3]);
  }

  // The target is claimed, counts a frame in a claim made after the list, and is
  // then released and deleted. The pass's own progress write refreshes its copy
  // of the target, and it takes the target's finalizer off over the frame.
  lemma NewClaimLetsATargetGo()
    ensures InitialWorld(Start(Server(map[], 0)))
    ensures var w := WorldRun(Start(Server(map[], 0)), NewClaimPass);
            && w.cluster.ledgers.Keys == {"t"} && "c" in w.server.claims
            && var l := w.cluster.ledgers["t"];
            LetGo(l) && "f" in StillIn(l.log, l.frames, "c")
  {
    var start, l := Start(Server(map[], 0)), Step(Step(Fresh(), List), Read);
    var server := Server(map["c" := ClaimObject(1, false, false)], 1);
    assert NewClaimPass == Opening + [MakeClaim("c")] + Acting + NewClaimPass[7..];
    RunsCompose(start, Opening + [MakeClaim("c")] + Acting, NewClaimPass[7..]);
    RunsCompose(start, Opening + [MakeClaim("c")], Acting);
    RunsCompose(start, Opening, [MakeClaim("c")]);
    TheOpening(Server(map[], 0));
    var read := OneTarget(l, Server(map[], 0), map[]);
    OneAction(read, MakeClaim("c"));
    assert WorldStep(read, MakeClaim("c")) == read.(server := server);
    ListedAndRead();
    var m := TheFrameIsCounted(l, server, map[]);
    TheTargetGoes(m, server);
  }
}
