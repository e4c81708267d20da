// One Target and everything that acts on it: the runners and the supervisor,
// the promotion loop with the copy it holds during a pass, the promotion Jobs,
// the outbox claims, and a person's edits. Each action is one atomic write or
// one step of the environment, and leaves the ledger alone where the code
// would. A run is any list of actions.
module Ledgers {
  import opened Basics
  import opened Sequences
  import opened Targets

  // Where a frame's file is: not yet saved, in its outbox claim, moved to the
  // archive by a Job, or gone with its claim.
  datatype Place = Flying | Saved | Moved | Lost

  // A recorded frame, with the claim that its session's outbox names and the
  // reservation that recorded it.
  datatype Frame = Frame(claim: string, runner: string, place: Place)

  // What one attempt of a Job found in the claim, and what it moved.
  datatype Attempt = Attempt(seen: set<FrameId>, moved: set<FrameId>)

  // What the store holds of a succeeded Job's pod.
  datatype Pod = NoStatus | Garbled | Reported(report: Report) | PodGone

  datatype JobState = Running | Failed | Succeeded(pod: Pod)

  // before is history: the frames counted when the loop read the copy that
  // the Job's snapshot comes from.
  datatype Job = Job(claim: string, pending: nat, before: set<FrameId>, attempt: Option<Attempt>, state: JobState)

  // The promotion loop's copy of the target during a pass, the frames counted
  // at that version, the Jobs that the pass listed, and whether the pass
  // served this target's Job.
  datatype Held = Idle | Listed(copy: Object, counted: set<FrameId>, jobs: Option<map<nat, Job>>, served: bool)

  // log lists the frame of each write that added to the pending counts, and
  // cleared counts the frames that the retry annotation cleared. Both are
  // history.
  datatype Ledger = Ledger(target: Object, gone: bool, frames: map<FrameId, Frame>, log: seq<FrameId>,
                           jobs: map<nat, Job>, held: Held, cleared: nat)

  datatype LoopWrite = KeepProgress | ClearLeft | ApplyOutcome(outcome: Outcome) | NoteDeleting

  datatype Action =
    // A runner, and the supervisor.
    | Claim(runner: string, camera: bool, ready: set<string>)
    | Record(runner: string, frame: FrameId, sequence: nat, claim: string)
    | Count(runner: string, e: Exposure, counted: bool, exposing: bool)
    | FailExposure(runner: string)
    | Release(runner: string, failed: Option<Failure>, reason: string)
    | MarkBelow(runner: string)
    | EndClaims(ready: set<string>)
    // A person.
    | EditSpec(spec: Spec)
    | Delete
    | AskRetry
    // The driver, the claims, and the Jobs.
    | Save(frame: FrameId)
    | LoseClaim(claim: string)
    | Scan(number: nat)
    | Move(number: nat, frame: FrameId)
    | Succeed(number: nat)
    | Fail(number: nat)
    | DeliverReport(number: nat, totals: seq<Total>, truncated: bool)
    | DeliverGarbled(number: nat)
    | LosePod(number: nat)
    | ExpireJob(number: nat)
    | Vanish
    // The promotion loop.
    | List
    | Read
    | KeepCounts
    | ServeRetry
    | ClearRetry
    | StartJob(claim: string)
    | SettleJob
    | Rerun
    | AddFinalizer
    | ReportWait(seen: set<string>)
    | DropFinalizer(seen: set<string>)
    | EndPass

  // ---------------------------------------------------------------------------
  // What the ledger holds

  function Entries(l: Ledger): seq<OutboxFrames> {
    l.target.status.outboxes
  }

  function Applied(l: Ledger): nat {
    l.target.status.applied
  }

  function Logged(log: seq<FrameId>): set<FrameId> {
    set f | f in log
  }

  // The frames counted in a claim, and those of them whose file is still in it.
  function CountedIn(log: seq<FrameId>, frames: map<FrameId, Frame>, claim: string): set<FrameId> {
    set f | f in log && f in frames && frames[f].claim == claim
  }

  function StillIn(log: seq<FrameId>, frames: map<FrameId, Frame>, claim: string): set<FrameId> {
    set f | f in log && f in frames && frames[f].claim == claim && frames[f].place.Saved?
  }

  function FilesIn(frames: map<FrameId, Frame>, claim: string): set<FrameId> {
    set f | f in frames && frames[f].claim == claim && frames[f].place.Saved?
  }

  // ---------------------------------------------------------------------------
  // The writes

  function Put(l: Ledger, status: Status): Ledger {
    l.(target := l.target.(version := l.target.version + 1, status := status))
  }

  // A write of a composed status. One that changes nothing is not sent.
  function Write(l: Ledger, status: Option<Status>): Ledger {
    if l.gone || status.None? || status.value == l.target.status then l else Put(l, status.value)
  }

  function Composed(w: LoopWrite, spec: Spec, status: Status): Option<Status> {
    match w
    case KeepProgress => AfterProgress(spec, status)
    case ClearLeft => AfterRetry(status)
    case ApplyOutcome(outcome) => AfterOutcome(spec, status, outcome)
    case NoteDeleting => Some(status.(imaging := Deleting))
  }

  function Refreshed(l: Ledger): Ledger {
    if l.held.Idle? then l else l.(held := l.held.(copy := l.target, counted := Logged(l.log)))
  }

  // The loop's settled write: nothing when the copy needs none, and otherwise
  // the write composed from the current version, which the copy then holds.
  function SettleHeld(l: Ledger, w: LoopWrite): Ledger
    requires l.held.Listed?
  {
    var first := Composed(w, l.held.copy.spec, l.held.copy.status);
    if l.gone || first.None? || first.value == l.held.copy.status then l
    else
      var written := Write(l, Composed(w, l.target.spec, l.target.status));
      if w.ClearLeft? && written != l
      then Refreshed(written.(cleared := l.cleared + AllLeft(Entries(l))))
      else Refreshed(written)
  }

  // A finished Job's result, or none while its pod's last status is missing.
  function OutcomeOf(j: Job, number: nat): Option<Outcome> {
    match j.state
    case Running => None
    case Failed => Some(Outcome(number, j.claim, j.pending, None))
    case Succeeded(Garbled) => Some(Outcome(number, j.claim, j.pending, None))
    case Succeeded(Reported(report)) => Some(Outcome(number, j.claim, j.pending, Some(report)))
    case Succeeded(_) => None
  }

  // The Jobs the pass listed, while this target's Job is still to be served.
  predicate Serving(l: Ledger) {
    l.held.Listed? && l.held.jobs.Some? && !l.held.served
  }

  function NextNumber(l: Ledger): nat
    requires l.held.Listed?
  {
    l.held.copy.status.applied + 1
  }

  predicate FramesWait(status: Status, seen: set<string>) {
    exists i :: 0 <= i < |status.outboxes| && status.outboxes[i].pending > 0 && status.outboxes[i].claim in seen
  }

  predicate EndedRead(status: Status, ready: set<string>) {
    || (status.reservation != "" && status.reservation !in ready)
    || (status.failed.Some? && status.failed.value.reservation !in ready)
  }

  // ---------------------------------------------------------------------------
  // The steps

  // The status that a runner or the supervisor composes, of the writes that add
  // no frame and count none.
  function RunnerStatus(t: Object, a: Action): Option<Status> {
    var status := t.status;
    match a
    case Claim(runner, camera, ready) => if runner == "" then None else AfterClaim(t, camera, ready + {runner}, runner)
    case FailExposure(runner) => if runner == "" then None else AfterExposureFailed(status, runner)
    case Release(runner, failed, reason) => AfterRelease(status, runner, failed, reason)
    case MarkBelow(runner) => AfterBelow(status, runner)
    case EndClaims(ready) =>
      if !EndedRead(status, ready) then None
      else
        AfterEnded(status,
                   if status.reservation != "" && status.reservation !in ready then Some(status.reservation) else None,
                   if status.failed.Some? && status.failed.value.reservation !in ready then status.failed else None)
    case _ => None
  }

  function RunnerStep(l: Ledger, a: Action): Ledger {
    match a
    case Record(runner, frame, sequence, claim) =>
      var recorded := AfterRecord(l.target.status, Exposure(frame, sequence, runner), runner);
      if l.gone || runner == "" || frame in l.frames || recorded.None? then l
      else Write(l, recorded).(frames := l.frames[frame := Frame(claim, runner, Flying)])
    case Count(runner, e, counted, exposing) =>
      if e.frameID !in l.frames || l.frames[e.frameID].runner != runner
         || (counted && l.frames[e.frameID].place.Flying?)
      then l
      else
        var claim := l.frames[e.frameID].claim;
        var written := Write(l, AfterCount(l.target.spec, l.target.status, e, counted, claim, runner, exposing));
        if counted && written != l then written.(log := l.log + [e.frameID]) else written
    case _ => Write(l, RunnerStatus(l.target, a))
  }

  function PersonStep(l: Ledger, a: Action): Ledger {
    if l.gone then l
    else
      var t := l.target;
      match a
      case EditSpec(spec) => l.(target := t.(version := t.version + 1, generation := t.generation + 1, spec := spec))
      case Delete => l.(target := t.(version := t.version + 1, deleting := true))
      case AskRetry => l.(target := t.(version := t.version + 1, retryAsked := true))
      case _ => l
  }

  function Placed(l: Ledger, frame: FrameId, place: Place): Ledger
    requires frame in l.frames
  {
    l.(frames := l.frames[frame := l.frames[frame].(place := place)])
  }

  function FramesStep(l: Ledger, a: Action): Ledger {
    match a
    case Save(frame) => if frame in l.frames && l.frames[frame].place.Flying? then Placed(l, frame, Saved) else l
    case LoseClaim(claim) =>
      l.(frames := map f | f in l.frames ::
                     if l.frames[f].claim == claim && l.frames[f].place.Saved? then l.frames[f].(place := Lost)
                     else l.frames[f])
    case Vanish => if l.target.deleting && !l.target.finalizer then l.(gone := true) else l
    case _ => l
  }

  // What the environment makes of a Job: its attempts, its end, and its pod's
  // last status.
  function JobAfter(j: Job, a: Action, frames: map<FrameId, Frame>): Job {
    match a
    case Scan(_) => if j.state.Running? then j.(attempt := Some(Attempt(FilesIn(frames, j.claim), {}))) else j
    case Succeed(_) => if j.state.Running? && j.attempt.Some? then j.(state := Succeeded(NoStatus)) else j
    case Fail(_) => if j.state.Running? then j.(state := Failed) else j
    case DeliverReport(_, totals, truncated) =>
      if j.state == Succeeded(NoStatus) && j.attempt.Some?
      then j.(state := Succeeded(Reported(Report(totals, truncated, |j.attempt.value.seen - j.attempt.value.moved|))))
      else j
    case DeliverGarbled(_) => if j.state == Succeeded(NoStatus) then j.(state := Succeeded(Garbled)) else j
    case LosePod(_) => if j.state.Succeeded? then j.(state := Succeeded(PodGone)) else j
    case _ => j
  }

  predicate CanMove(l: Ledger, n: nat, frame: FrameId) {
    && n in l.jobs && l.jobs[n].state.Running? && l.jobs[n].attempt.Some?
    && frame in l.jobs[n].attempt.value.seen && frame in l.frames && l.frames[frame].place.Saved?
  }

  function WithMoved(j: Job, frame: FrameId): Job
    requires j.attempt.Some?
  {
    j.(attempt := Some(Attempt(j.attempt.value.seen, j.attempt.value.moved + {frame})))
  }

  function JobStep(l: Ledger, a: Action): Ledger
    requires OfJob(a)
  {
    if a.number !in l.jobs then l
    else if a.ExpireJob? then (if l.jobs[a.number].state.Running? then l else l.(jobs := l.jobs - {a.number}))
    else if a.Move? then
      if CanMove(l, a.number, a.frame)
      then Placed(l, a.frame, Moved).(jobs := l.jobs[a.number := WithMoved(l.jobs[a.number], a.frame)])
      else l
    else l.(jobs := l.jobs[a.number := JobAfter(l.jobs[a.number], a, l.frames)])
  }

  // The write of a finished Job's result, once for the pass.
  function JobSettled(l: Ledger): Ledger {
    if !Serving(l) || NextNumber(l) !in l.held.jobs.value then l
    else
      var outcome := OutcomeOf(l.held.jobs.value[NextNumber(l)], NextNumber(l));
      if outcome.None? then l
      else
        var settled := SettleHeld(l, ApplyOutcome(outcome.value));
        settled.(held := settled.held.(served := true))
  }

  function LoopStep(l: Ledger, a: Action): Ledger {
    match a
    case List => l.(held := Listed(l.target, Logged(l.log), None, false))
    case Read =>
      if l.held.Listed? && l.held.jobs.None? then l.(held := l.held.(jobs := Some(l.jobs))) else l
    case KeepCounts => if Serving(l) then SettleHeld(l, KeepProgress) else l
    case ServeRetry =>
      if Serving(l) && NextNumber(l) !in l.held.jobs.value && l.held.copy.retryAsked
      then SettleHeld(l, ClearLeft)
      else l
    case ClearRetry =>
      if Serving(l) && NextNumber(l) !in l.held.jobs.value && l.held.copy.retryAsked && !l.gone
      then Refreshed(l.(target := l.target.(version := l.target.version + 1, retryAsked := false)))
      else l
    case StartJob(claim) =>
      if !Serving(l) || NextNumber(l) in l.held.jobs.value then l
      else
        var entries := l.held.copy.status.outboxes;
        var i := OutboxIndex(entries, claim);
        if i < 0 || entries[i].pending <= entries[i].left || NextNumber(l) in l.jobs then l
        else
          l.(jobs := l.jobs[NextNumber(l) := Job(claim, entries[i].pending, l.held.counted, None, Running)],
             held := l.held.(served := true))
    case SettleJob => JobSettled(l)
    case Rerun =>
      if Serving(l) && NextNumber(l) in l.held.jobs.value
         && l.held.jobs.value[NextNumber(l)].state == Succeeded(PodGone)
      then l.(jobs := l.jobs - {NextNumber(l)}, held := l.held.(served := true))
      else l
    case AddFinalizer =>
      if l.held.Listed? && !l.held.copy.deleting && !l.held.copy.finalizer
         && !l.gone && l.held.copy.version == l.target.version
      then l.(target := l.target.(version := l.target.version + 1, finalizer := true))
      else l
    case ReportWait(seen) =>
      if l.held.Listed? && l.held.copy.deleting && l.held.copy.finalizer && l.held.copy.status.reservation == ""
         && FramesWait(l.held.copy.status, seen)
      then SettleHeld(l, NoteDeleting)
      else l
    case DropFinalizer(seen) =>
      if l.held.Listed? && l.held.copy.deleting && l.held.copy.finalizer && l.held.copy.status.reservation == ""
         && !FramesWait(l.held.copy.status, seen)
         && !l.gone && l.held.copy.version == l.target.version
      then l.(target := l.target.(version := l.target.version + 1, finalizer := false))
      else l
    case EndPass => l.(held := Idle)
    case _ => l
  }

  predicate ByRunner(a: Action) {
    a.Claim? || a.Record? || a.Count? || a.FailExposure? || a.Release? || a.MarkBelow? || a.EndClaims?
  }

  predicate ByPerson(a: Action) {
    a.EditSpec? || a.Delete? || a.AskRetry?
  }

  predicate OfFrames(a: Action) {
    a.Save? || a.LoseClaim? || a.Vanish?
  }

  predicate OfJob(a: Action) {
    || a.Scan? || a.Move? || a.Succeed? || a.Fail?
    || a.DeliverReport? || a.DeliverGarbled? || a.LosePod? || a.ExpireJob?
  }

  function Step(l: Ledger, a: Action): Ledger {
    if ByRunner(a) then RunnerStep(l, a)
    else if ByPerson(a) then PersonStep(l, a)
    else if OfFrames(a) then FramesStep(l, a)
    else if OfJob(a) then JobStep(l, a)
    else LoopStep(l, a)
  }

  predicate Initial(l: Ledger) {
    && l.target.status == EmptyStatus && !l.gone && l.frames == map[] && l.log == [] && l.jobs == map[]
    && l.held.Idle? && l.cleared == 0
  }

  function Run(l: Ledger, actions: seq<Action>): Ledger
    decreases |actions|
  {
    if actions == [] then l else Run(Step(l, actions[0]), actions[1..])
  }
}
