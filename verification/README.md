# The liken operators, modelled and proved

The liken repository runs a home observatory and a home's audio with small
Kubernetes operators. This project models the parts of two of them in which an
error would cost something, and proves what they promise. It is Dafny 4.11;
`dafny verify dfyconfig.toml` checks all of it.

## The astrophotography operator

A Target is an object in the sky to image. Runners, one for each reservation of
a telescope, claim it, record the frame in flight, and count each saved frame as
pending in its sequence and in the outbox claim that holds the file. A promotion
loop starts numbered Jobs that move the frames to the archive, and applies each
Job's report once. All of them write one record, the Target's status, each write
composed over the current version.

- `Sequences` is the counting of a report, `Targets` every write of the status,
  as a function of the copy it writes over and as the method that does it in
  place, and `Settle` the versioned store.
- `Ledgers` is the state machine of one target: every action of every actor, with
  the copy that a promotion pass holds while others write. The frames of the
  outbox, those counted, and what each Job saw and moved are history beside it. A
  Job is an environment: it scans its claim some time after its creation, as often
  as its pod is retried, moves any of the frames it saw in any order, and reports
  in `left` those it saw and did not move.
- `Accounts`, `LedgerInvariant` and `PromotionLoop` build the invariant, and
  `Promises` states what it gives over whole runs. `PassEffects` is what the loop's
  writes come to from any moment of any run, `PromotionPasses` shows the code of a
  pass to be a run of those actions and what becomes of its Job, `Clusters` puts many targets
  into one pass, `ClaimFinalizers` puts the outbox claims and their finalizers
  beside them, and `Races` holds the two runs that bound what the finalizers
  promise. `Failures` is what keeps a runner off a target that failed on its
  reservation.
- `Selection` is a runner's choice of its next target, the frames that a restart
  finishes, and the supervisor's release of claims, each over a store that may have
  moved on from the list.

An action whose guard does not hold leaves the ledger alone, so a run is any list
of actions, and every statement over runs is over every interleaving.

## The audio operator

- `Elds` parses the block in which a monitor describes itself, and `Devices`
  publishes it and reads it back. `MonitorHolds` is the hold that hides a short
  drop of a monitor, and `MonitorHistory` what its answers mean over any history
  of reads. Times are whole seconds.
- `Layouts`, `Declarations` and `LayoutRuns` choose each sink's channel layout,
  write and read the declaration that PipeWire loads, and follow a run of
  reconcile passes, each of whose writes restarts PipeWire.
- `Decibels` walks the nested blocks in which a card states a control's levels.
- `Codecs`, `MediaTypes`, `Queries` and `Routes` are the precedence of codecs,
  the negotiation of a representation, and the URI template beside its router.

`Basics`, `Sorting` and `Text` hold what the modules share.

## Where the code falls short of its promise

- The two frames finalizers come off by what the pass read. A claim's comes off
  over a counted frame exactly when one was counted there since a copy was read,
  or left there by a target that was gone (`ClaimFinalizers.TheClaimIsLetGo`), and
  a target's exactly when one is in a claim made since the list
  (`ClaimFinalizers.TheTargetIsLetGo`). `Races` holds a run of each, from a fresh
  target to the frame that is left behind.
- The hold reports a monitor that left by the ceiling and the settle time after
  the first read that found the slot empty. Before that read nothing counts
  (`MonitorHistory.TheFirstEmptyReadIsHeld`).
- Two sequences with the same settings share one count. The work left can rise
  exactly when the later one wants frames
  (`Sequences.TheWorkLeftNeverRisesExactly`), and a lost report is made up in the
  whole list exactly when no frame counts toward such a pair
  (`Sequences.TheListIsMadeUp`).
- A target that failed on a reservation is not taken by it again until its spec is
  edited, except when another reservation fails on it in between, because the
  status holds one failure (`Failures.OnlyAnotherFailureLetsItBack`,
  `Failures.TwoFailuresLetItBack`).
- A runner takes a listed copy that shows its claim in place at its word, though
  the store may have moved on (`Selection.AClaimLands`).
- A knob's space becomes a plus sign that the parser keeps
  (`Routes.TheKnobsThatComeBack`).
- The template puts a name into the path as it is, and the server cuts the path at
  a question mark and decodes percent signs before the router sees it
  (audio-operator/apihandler.go:27), so only a name of plain bytes comes back
  (`Routes.TheNamesThatComeBack`).
- The least 32-bit level has no decimal string (`Decibels.TheStringIsExact`).

## Model

| member | source | states |
|---|---|---|
| Sequences.SequenceProgress | astrophotography-operator/promotionstatus.go:198-223 | Each sequence starts from the counts of the first held entry with its settings. A total counts toward the first sequence that takes its frames; archived becomes the catalog's count, and pending drops by as much as archived rises and never below 0. With a truncated report a sequence that no total matches keeps its counts. |
| Sequences.CountTotals | astrophotography-operator/promotionstatus.go:206-216 | The middle loop: how many frames of the totals each sequence gets, and which sequences any total matched. |
| Sequences.ItsOwnFramesCount | astrophotography-operator/promotionstatus.go:225-240 | A frame taken with a sequence's settings counts toward it, whatever the camera chose for the settings that the sequence leaves out. |
| Sequences.OtherFramesDoNotCount | astrophotography-operator/promotionstatus.go:225-240 | A frame with another value of any setting that the sequence states does not count toward it, nor one whose exposure is half a millisecond off or more. |
| Sequences.ASmallDifferenceCounts | astrophotography-operator/promotionstatus.go:225-240 | An exposure less than half a millisecond off makes no difference. |
| Sequences.StartFromHeld | astrophotography-operator/promotionstatus.go:198-205 | The first loop: each sequence of the spec takes the counts of the first held entry that has its settings, and none when no entry has them. |
| Sequences.AlignmentIsIdentity | astrophotography-operator/progress.go:48-58 | Aligning a status that follows its spec changes nothing if and only if sequences with the same settings hold the same counts. |
| Sequences.LostReportMadeUp | astrophotography-operator/promotionstatus.go:12-15 | For a catalog that only grows, applying an untruncated report and then the next gives each sequence whose settings no earlier one has the same counts as the next report alone. |
| Sequences.TheListIsMadeUp | astrophotography-operator/promotionstatus.go:12-15 | The whole list of sequences is made up, whatever was held and lost, if and only if no frame counts toward a sequence whose settings a later one repeats. |
| Sequences.CountedGrows | astrophotography-operator/promotionstatus.go:206-216 | A catalog in which no combination of settings loses a frame gives no sequence fewer frames, however its totals are ordered or split. |
| Sequences.DoneFallsOnlyWithTheCatalog | astrophotography-operator/promotionstatus.go:217-222 | Over one report, archived plus pending falls if and only if the catalog counts fewer frames than the status held as archived; otherwise the work left does not rise. |
| Sequences.EachTotalCountsOnce | astrophotography-operator/promotionstatus.go:206-216 | The frames given to the sequences and the frames given to none add up to all the frames of the report: each total counts toward exactly one sequence or none. |
| Sequences.WorkLeftNeverRises | astrophotography-operator/progress.go:63-77 | Over any run of counted frames and of reports, applied or lost, in any order, with a catalog that never loses a frame, the work left of no sequence rises, when no sequence that wants frames repeats the settings of an earlier one. |
| Sequences.TheWorkLeftNeverRisesExactly | astrophotography-operator/progress.go:48-77 | The work left never rises over every such run from every status if and only if no sequence with a positive count repeats the settings of an earlier one. |
| Sequences.TheRepeatLosesItsCount | astrophotography-operator/promotionstatus.go:198-205 | For every pair with the same settings of which the later one wants frames: a frame counted for the later one is gone at the next alignment, so its work left rises. |
| Sequences.Completeness | astrophotography-operator/promotionstatus.go:172-190 | The two numbers of the progress column, each sequence capped at its own count, and whether Complete is True. |
| Sequences.CompleteMeansEverySequence | astrophotography-operator/promotionstatus.go:172-190 | Complete is True if and only if some frame is wanted and every sequence has its own frames in the archive: extra frames of one sequence make up for no other. |
| Targets.Target.AlignSequences | astrophotography-operator/progress.go:48-58 | The status follows the spec's sequences, each with the counts it held, and nothing else of the status changes. |
| Targets.Target.AddPending | astrophotography-operator/counting.go:55-67 | One frame more in the sequence at the index, when it still exists, and one more in the claim's entry, which is made when it is missing. |
| Targets.Target.Count | astrophotography-operator/counting.go:31-49 | The write clears the exposure that names the frame and adds the frame, or is not needed and changes nothing when the exposure names another frame. |
| Targets.Target.Record | astrophotography-operator/exposure.go:140-158 | Only the reservation that holds the target writes the frame in flight, and a failed exposure's Imaging stays. |
| Targets.Target.ReleaseAs | astrophotography-operator/imaging.go:243-259 | Only the reservation that holds the target ends the claim, and the frame in flight goes with it. |
| Targets.Target.EndClaim | astrophotography-operator/runners.go:116-131 | The supervisor ends the claim and the failure that it read as ended, and leaves a claim that changed since. |
| Targets.Target.ClearLeft | astrophotography-operator/promotionretry.go:38-51 | Every entry's left becomes 0 with its pending kept, and the write is needed if and only if some entry had frames left. |
| Targets.Target.SettleEntry | astrophotography-operator/promotionstatus.go:120-129 | The claim's entry holds the frames that the Job left and those counted after its snapshot, and goes when that is none. |
| Targets.Target.Apply | astrophotography-operator/promotionstatus.go:109-133 | A result at or below the applied number changes nothing. One with no report marks all pending frames as left; one with a report sets the sequence counts, the claim's entry, the progress, and Complete, as the four lemmas below state of the status after it. |
| Targets.TheReportSetsTheCounts | astrophotography-operator/promotionstatus.go:116-133 | With an untruncated report every sequence of the spec has as many archived frames as the totals give it; where archived does not fall, archived plus pending is the larger of the old sum and the catalog's count; and Complete is True if and only if some frames are wanted and every sequence has its own. |
| Targets.ATruncatedReportLeavesTheRest | astrophotography-operator/promotionstatus.go:192-223 | With a truncated report a sequence that no total counts toward keeps the counts of the first held entry with its settings. |
| Targets.ATruncatedReportCountsTheFirst | astrophotography-operator/promotionstatus.go:206-222 | With a truncated report a sequence that some total counts toward has as many archived frames as the totals give it. |
| Targets.NoReportMarksWhatIsLeft | astrophotography-operator/promotionstatus.go:113-119 | With no report the claim's entry has all its pending frames left, and nothing else changes but the applied number. |
| Targets.TheWritesAreTheEvents | astrophotography-operator/counting.go:31-67 | The sequences after the counting write and after an untruncated report are those after the events over whose runs WorkLeftNeverRises is stated. |
| Targets.NothingLeft | astrophotography-operator/promotionretry.go:38-51 | The sum of the left frames is 0 exactly when each entry has none. |
| Settle.Store.SettleStatus | kubernetes/memo/requests.go:126-155 | The first try lands exactly over the last version; a refused one is composed again over the version read then, and lands exactly when nobody writes in between. A write that lands is the one that compose makes of the version just below it, and a call that does not land writes nothing. |
| Settle.Store.Replace | kubernetes/apiclient/client.go:68-73 | The API server's part: a write that states any version but the last is refused and changes nothing. |
| LedgerInvariant.CountKeepsInv | astrophotography-operator/counting.go:31-67 | The counting write keeps the invariant: the frame is logged once and raises exactly its claim's entry. |
| LedgerInvariant.RecordKeepsInv | astrophotography-operator/exposure.go:140-158 | Recording a frame keeps the invariant: the frame is new, and only the holder's write lands. |
| LedgerInvariant.RunnerKeepsInv | astrophotography-operator/selection.go:109-126 | Claims, releases, horizon marks, failed exposures and the supervisor's writes keep the invariant. |
| LedgerInvariant.JobsKeepInv | astrophotography-operator/promotionjob.go:66-102 | Whatever a Job does between its creation and its end keeps the invariant: scans, any order of moves, retries of its pod, its report, a lost pod, its expiry. |
| LedgerInvariant.MovedJobFits | astrophotography-operator/promotionstatus.go:16-21 | A frame that a Job moves leaves the claim and the attempt's list of frames left, so the report to come still covers what is there. |
| LedgerInvariant.LeavingKeepsInv | astrophotography-operator/promotionstatus.go:16-21 | Frames that leave a claim, moved or lost with it, keep every count at least as large as what is there. |
| PromotionLoop.LeftCoversWhatIsThere | astrophotography-operator/promotionstatus.go:120-129 | The counted frames still in a claim number at most the report's left plus what the entry's pending grew by since the Job's snapshot. |
| PromotionLoop.OutcomeKeepsCounts | astrophotography-operator/promotionstatus.go:109-133 | Applying a finished Job's result, with or without a report, leaves no claim with fewer pending than counted frames there, and lowers the sum of pending minus left by at least one. |
| PromotionLoop.StartedJobFits | astrophotography-operator/promotion.go:337-360 | A Job that starts has the next number, which no Job has, and its snapshot covers the frames counted up to the pass's copy, however many were counted since. |
| PromotionLoop.SettleJobIs | astrophotography-operator/promotion.go:225-236 | The settled write of a finished Job's result lands on the current version, not on the copy that the pass held. |
| PromotionLoop.RetryKeepsInv | astrophotography-operator/promotionretry.go:38-62 | The retry keeps the invariant, and it changes the entries only when no Job of the next number is listed or exists; then each entry's left becomes 0 and its pending stays. |
| PromotionLoop.RerunKeepsInv | astrophotography-operator/promotion.go:290-306 | Deleting a Job whose pod is gone with its report keeps the invariant, so the same number can start again. |
| Promises.StepKeepsInv | astrophotography-operator/promotion.go:187-243 | Every action of every actor keeps the invariant on frames, Jobs, copies and counts. |
| Promises.NeverCountedTooFew | astrophotography-operator/promotionstatus.go:8-21 | In every reachable state, under any interleaving of counts, Jobs, failures, re-runs, retries and reports, the counted frames of the target that are still in a claim number at most the claim's pending, 0 with no entry. |
| Promises.CountedAtMostOnce | astrophotography-operator/counting.go:24-31 | Over any run, with restarts, lost answers and conflicting writers, no frame is counted twice. |
| Promises.OnlyTheClearingWriteCounts | astrophotography-operator/counting.go:31-49 | Besides a report, only the write that clears the exposure naming a frame raises a pending count: by one, in the frame's own claim, for a frame not counted before. |
| Promises.NeverCountedLater | astrophotography-operator/resume.go:43-73 | A frame that was counted, or whose exposure was cleared without a count, is never counted by any later run. |
| Promises.AnEndedFrameIsNeverCounted | astrophotography-operator/imaging.go:243-259 | A frame in flight whose exposure fails, or whose claim is released or lowered, is never counted by any later run. |
| Promises.EndClaimsLeavesReady | astrophotography-operator/runners.go:100-131 | After the supervisor's write the reservation and the failure of the target are Ready ones, or none, and a Ready reservation keeps its claim and its frame in flight. |
| Promises.JobNumbersBoundTheRuns | astrophotography-operator/promotion.go:213-243 | In every reachable state no Job is numbered above the applied number plus one, every Job at or below the applied number has ended, and at most one Job of the target runs. |
| Promises.AppliedJobLowersExcess | astrophotography-operator/promotionstatus.go:113-129 | Each applied Job raises the applied number by exactly one and lowers the sum of pending minus left by at least one, to no less than 0. |
| Promises.AppliedJobIsFinished | astrophotography-operator/promotion.go:217-236 | A pass raises the applied number only with a Job that the pass listed as finished under the next number, on a target that still exists. |
| Promises.PromotionTerminates | astrophotography-operator/promotion.go:337-342 | Over any run from an empty status, the applied Jobs number at most the frames counted and the frames that the retry annotation cleared. |
| Promises.ClaimIsStable | astrophotography-operator/selection.go:31-46 | While a Ready reservation holds a target, one action of any other runner, the supervisor or the promotion loop keeps the reservation, and writes no exposure. |
| Promises.ClaimOutlastsOthers | astrophotography-operator/runners.go:100-135 | Over any run of the other actors with Ready sets that name the holder, the holder keeps the target and the exposure it recorded. |
| Promises.NoReservationNoExposure | astrophotography-operator/imaging.go:243-259 | In every reachable state a target with no reservation has no frame in flight. |
| Promises.LoopKeepsFrames | astrophotography-operator/promotion.go:213-258 | No step of the promotion loop changes a reservation, an exposure, or the frames counted, and none puts the finalizer on a target that is being deleted. |
| Promises.DropLeavesNothing | astrophotography-operator/targetfinalizer.go:39-93 | The versioned patch that takes a target's finalizer off lands only on a version with no reservation, no exposure in flight, and no counted frame in any claim that the pass listed or that has no frame pending. |
| Promises.NothingAfterTheDrop | astrophotography-operator/targetfinalizer.go:39-61 | After that version nothing of the target is recorded or counted by any later run, and a claim without a counted frame of it never holds one. |
| Promises.ADeletedTargetLeavesNothing | astrophotography-operator/targetfinalizer.go:3-23 | Whatever runs before and after that patch, no counted frame of the target is ever again in a claim that the pass listed or that had no frame pending, and none is counted again. |
| Promises.TheFinalizerHolds | astrophotography-operator/targetfinalizer.go:3-23 | Over any run a target is gone only when it was deleted and the finalizer was off, so only that patch lets it go, and nothing of it is written after. |
| Promises.StepKeepsCover | astrophotography-operator/outboxfinalizer.go:3-8 | Whatever any actor does while a pass holds its copy, the frames that the copy knew of and that are still in a claim number at most the copy's pending for it. |
| Promises.UnnamedHoldsOnlyNewFrames | astrophotography-operator/outboxfinalizer.go:27-34 | A claim that the held copy does not name, however old the copy is, holds exactly the frames counted there since the copy was read. |
| Failures.OnlyAnotherFailureLetsItBack | astrophotography-operator/selection.go:67-79 | While its reservation stays Ready and nobody edits the spec, one step of any actor ends what keeps a failed reservation off a target if and only if it is another reservation's failure that lands. |
| Failures.AnEditLetsItBack | astrophotography-operator/selection.go:67-79 | An edit of the spec ends what keeps every failed reservation off the target. |
| Failures.AFailureStands | astrophotography-operator/selection.go:74-79 | Over any run of all actors in which the reservation stays Ready, nobody edits the spec, and no other reservation's failure lands, a target that failed on the reservation is not taken by it again. |
| Failures.TwoFailuresLetItBack | astrophotography-operator/imaging.go:239-259 | For any target that a second reservation can claim: when it fails there too, the first takes the target again with no edit of the spec, because the status holds one failure. |
| PassEffects.EveryRunIsInPass | astrophotography-operator/promotion.go:187-209 | Over any run from a start with no pass open, at every moment what the pass's copy says is left in each claim is what the current version says is left there, so the next rows hold wherever a pass serves a target. |
| PassEffects.AResultLands | astrophotography-operator/promotionstatus.go:109-133 | Whatever others wrote since the pass read its copy, the write for a listed Job with a result on a target that exists applies its number: an untruncated report's totals are what every sequence has as archived, its left is what the claim's entry has, and without a report all that is pending is left. |
| PassEffects.RetryClears | astrophotography-operator/promotionretry.go:38-62 | A retry that the copy asks for leaves no entry with frames left, whether it had something to clear or not, and keeps the applied number. |
| PassEffects.StartsOn | astrophotography-operator/promotion.go:337-360 | A Job that starts for an entry of the copy runs under the next number with that entry's claim and its pending frames, and the target is as it was. |
| PromotionPasses.Promotions.ServeTarget | astrophotography-operator/promotion.go:213-243 | With any actions of others between its writes: a listed next Job with a result is applied, one whose pod is gone exists no more, and any other leaves the applied number; with no next Job listed, a Job runs under the next number for the first entry with more pending than left that is neither kept nor busy, with that entry's pending, if and only if there is one and the archive claim exists, after a retry that was asked for left nothing left. With nobody else writing, the sequences follow the spec and the progress and Complete are theirs. It is a run of the ledger's actions that serves at most one Job, so every promise about runs holds of it. |
| PromotionPasses.Promotions.ServeListed | astrophotography-operator/promotion.go:225-236 | After it, on a target that still exists, a listed Job with a result is applied, with its report in the sequences and in the claim's entry; one that succeeded and whose pod is gone is no longer among the Jobs; and any other leaves the applied number. |
| PromotionPasses.Promotions.KeepTargetFinalizer | astrophotography-operator/targetfinalizer.go:39-61 | From the copy held: a target that is not being deleted gets the finalizer; one being deleted with no reservation loses it, but while a listed claim has pending frames of it the wait is reported instead; and a patch lands exactly when the copy is the current version. |
| PromotionPasses.OthersKeepTheCopy | astrophotography-operator/promotion.go:187-209 | Whatever the other actors do, the pass's copy and its list of Jobs stay as they are. |
| Clusters.ChooseClaim | astrophotography-operator/promotion.go:337-360 | A new Job uses the first entry with more pending than left whose claim is not busy and no reservation keeps, and none starts without an archive claim. |
| Clusters.WhatIsBusy | astrophotography-operator/promotion.go:308-319 | A claim is busy if and only if the pass created a Job on it, or listed a running one, of any target. |
| Clusters.AFreeClaimStarts | astrophotography-operator/promotion.go:335-360 | A target with no next Job gets one, with the entry's claim and pending frames, for the first entry with more pending than left whose claim no reservation keeps, no listed Job runs on and the pass created none on, whatever the pass started before; without the archive claim nothing changes, and no other target changes in either case. |
| Clusters.StartedStaysExclusive | astrophotography-operator/promotion.go:310-319 | A Job that starts on a claim that no listed and no created Job uses keeps all running Jobs on different claims. |
| Clusters.ClaimsAreNeverShared | astrophotography-operator/promotion.go:310-319 | Over any run of passes over any number of targets, two Jobs that run never share an outbox claim, even when one pass starts both. |
| ClaimFinalizers.OutboxClaims.KeepFinalizers | astrophotography-operator/outboxfinalizer.go:27-60 | Every claim is as it was, or it needed a patch, its listed version was current, and it now has the finalizer exactly when a target names it. A pass that does not fail patched each claim that needed it; one that fails met a refusal. A claim being deleted takes no new finalizer. |
| ClaimFinalizers.WorldRunKeepsInv | astrophotography-operator/promotion.go:187-209 | Over any run of passes beside claims that are made, edited, deleted and go, every saved file of a target is in a claim that exists, every copy covers what it knew of, and no two running Jobs share a claim. |
| ClaimFinalizers.TheClaimIsLetGo | astrophotography-operator/outboxfinalizer.go:27-45 | Over any run, the patch that takes a claim's finalizer off leaves a counted frame in the claim if and only if a listed target has one there that was counted since its copy was read, or a target gone before the list left one there. |
| ClaimFinalizers.TheTargetIsLetGo | astrophotography-operator/targetfinalizer.go:39-70 | Over any run, the patch that takes a target's finalizer off leaves a counted frame of it behind if and only if one is in a claim that exists and that the pass did not list. |
| Races.StaleCopyMissesAFrame | astrophotography-operator/outboxfinalizer.go:27-45 | A run from a fresh target: a frame is counted after the pass wrote its progress and read its copy, the pass takes the finalizer off the claim that the copy does not name, and the claim goes with the frame, which stays pending. |
| Races.NewClaimLetsATargetGo | astrophotography-operator/targetfinalizer.go:39-70 | A run from a fresh target: a claim made after the pass listed the claims holds a counted frame, and the pass takes the finalizer off the released and deleted target over it. |
| Selection.OrderIsStrictAndTotal | astrophotography-operator/selection.go:50-58 | The order is strict and transitive and decides between any two targets with different names; a higher priority comes first, then an earlier creation, then an earlier name. |
| Text.NamesDifferFirstAt | astrophotography-operator/selection.go:57-58 | A name comes before another if and only if, at the first place where they differ, it has ended or has the smaller character. |
| Selection.WhatIsTaken | astrophotography-operator/selection.go:31-46 | A current target is claimed if and only if nobody suspended, deleted or finished it, no other Ready reservation holds it, the session has a camera for it, it is above the horizon, some sequence has work left, and the reservation did not fail on it at this spec. |
| Selection.WhatIsPassed | astrophotography-operator/selection.go:80-156 | A target passed over loses its reservation only when it is the runner's own; a deleted or suspended one is released for that reason, and one below the horizon that no other reservation holds is marked so. |
| Selection.AnExposedTargetIsReleased | astrophotography-operator/selection.go:142-156 | The runner's own target with no sequence that wants another frame is not claimed again, and is released as SequencesDone. |
| Selection.Runner.ClaimFirst | astrophotography-operator/selection.go:80-135 | Over a store that may have moved on from the list, the loop claims the first target that is claimable as listed and as it is now; a claim that the fresh copy refuses does not end it. It releases or marks each target before that one, and leaves each one after it untouched. |
| Selection.Runner.ClaimNext | astrophotography-operator/selection.go:80-135 | Over a store that may have moved on from the list, every other listed target that the runner would take has a lower priority than the one it claims, or the same and a later creation, or the same of both and a later name; it leaves every target behind it alone, and answers none exactly when it would take none. |
| Selection.FirstRiseIsLeast | astrophotography-operator/horizon.go:137-149 | The wait of an idle runner ends at the least rise time of a target it would take, and at none when no such target rises. |
| Selection.AClaimLands | astrophotography-operator/selection.go:105-121 | The target that the loop takes is then the runner's at the server, unless the listed copy showed the claim in place and the store had moved on from it; a claim that writes takes a target that no other Ready reservation holds, by the store's own copy. |
| Selection.Runner.Resume | astrophotography-operator/resume.go:25-73 | Over a store that may have moved on from the list, the loop finishes the frame in flight of each listed target and of no other reservation; ResumeCountsOnce states what that leaves. |
| Selection.ResumeCountsOnce | astrophotography-operator/resume.go:43-73 | The listed frame is in flight no more; it is counted if and only if the store's copy still had it in flight and its file is in the outbox; and a second finish of the same list changes nothing. |
| Selection.Runner.ReleaseEnded | astrophotography-operator/runners.go:100-135 | The loop releases each ended claim and each ended failure and leaves every other target untouched; ReleaseEndedLeavesReady states the outcome. |
| Selection.ReleaseEndedLeavesReady | astrophotography-operator/runners.go:100-135 | After the pass over a current list every reservation and every failure that a target names is Ready, and a Ready reservation keeps its claim and its frame in flight. |
| Selection.OnlyTheEndedClaimGoes | astrophotography-operator/runners.go:113-131 | Over a store that has moved on, the pass ends a claim if and only if it is still the one that the list showed as ended, and leaves every other claim and its frame in flight. |
| Elds.ParseELD | audio-operator/eld.go:121-181 | A block is accepted if and only if it is long enough, of version 2 or 31, with a name of at most 16 bytes, and no descriptor runs past the end; an accepted one states its bytes: connection, product, port, allocation, and the name up to its trailing spaces and zeros. |
| Elds.WhatIsAccepted | audio-operator/eld.go:121-162 | The same condition by the bytes' own numbers: the version is the first byte's upper five bits, the name's length the fifth's lower five, and the number of descriptors the sixth's upper four. |
| Elds.LettersComeBack | audio-operator/names.go:364-376 | A manufacturer's three letters, written as five bits each, come back. |
| Elds.TheSevenRates | audio-operator/eld.go:198-206 | The rate of a descriptor is that of its highest bit of the seven, from 32 to 192 kHz, and 0 with none. |
| Elds.BestIsBest | audio-operator/eld.go:155-175 | Over the descriptors, the channels, the rate and the depths are the most that any uncompressed one states, and some descriptor states the channels. |
| Elds.NamesOf | audio-operator/eld.go:186-194 | The loop writes the names of the mask's bits in bit order, which NamesReadBack reads back. |
| Elds.NamesReadBack | audio-operator/monitorhold.go:312-322 | A mask written as names and read back by name is the same mask, for any different words that cover its bits. |
| Devices.Device.AddMonitorAttributes | audio-operator/devices.go:214-249 | The attributes of a monitor: each fact under its key, left out when it is empty, and cut to the API's limit. |
| Devices.Publish | audio-operator/devices.go:80-124 | The device under construction ends as the one that PublishedReadsBack reads back, and of which the next three rows say what it states. |
| Devices.PublishedStatesTheEndpoint | audio-operator/devices.go:80-124 | A device has the sink attribute or the source attribute, as its direction is, with its own name; the no-sink taint if and only if there is no node, the no-monitor taint if and only if an HDMI slot has no monitor, and the disconnected taint if and only if it has one of those; and the node's name if and only if there is one that fits. |
| Devices.PublishedStatesTheConnection | audio-operator/devices.go:105-107 | USB and analog outputs say so, an HDMI output says what its monitor's block says, and one with no monitor says nothing. |
| Devices.PublishedStatesTheMonitor | audio-operator/devices.go:208-249 | A device with a monitor states each fact of the block that is not empty, under its own key, as itself or as its first 64 bytes, the port as the signed number with its bits; a device with no monitor states none. |
| Devices.PairingTellsMonitorsApart | audio-operator/names.go:309-353 | Two monitors have one pairing value if and only if they are one maker's one product under one name, whatever the case and the spaces of the name. |
| Devices.SliceDevices | audio-operator/devices.go:78-131 | The loop and the sort answer the slice, of which the next two rows say what it holds and SeedsAreTheLitSlots what the next operator reads back. |
| Devices.WhatTheSliceHolds | audio-operator/devices.go:78-126 | A device is in the slice if and only if it is the published device of some endpoint with that endpoint's own node, found by card, PCM device and direction. |
| Devices.TheSliceIsInOrder | audio-operator/devices.go:128-130 | There is one device for each endpoint, and they stand in the order of their names. |
| Devices.PublishedELD | audio-operator/monitorhold.go:280-324 | The block that a device's attributes state, or none with no version or no product code. |
| Devices.MonitorSeeds | audio-operator/monitorhold.go:261-275 | The blocks of the devices without the no-monitor taint, by name. |
| Devices.ParsedIsParsed | audio-operator/eld.go:121-181 | Every block that the parser accepts has what the read-back needs: a known version, a name that fits, names that are those of its bitmap, and no stray bit. |
| Devices.PublishedReadsBack | audio-operator/monitorhold.go:280-324 | For every accepted block of a lit slot, with any node, the block read back from the published device equals it: bitmap, depths, 64-bit port, and hexadecimal product. |
| Devices.SeedsAreTheLitSlots | audio-operator/monitorhold.go:257-275 | The seeds that the next operator takes from the slice are exactly the slots published with a monitor, each with its very block. |
| MonitorHolds.MonitorHold.Heard | audio-operator/monitorhold.go:119-126 | A change of a slot's ELD element counts for that slot, and every other event for nothing. |
| MonitorHolds.MonitorHold.Seed | audio-operator/monitorhold.go:102-114 | Each published block becomes a seed under its device's name, and every reading and hold stays. |
| MonitorHolds.WhatASeedServes | audio-operator/monitorhold.go:148-160 | A seed's block becomes the lit reading of the slot of its name exactly when the slot reads empty and was never read lit, and every seed is used once. |
| MonitorHolds.MonitorHold.Apply | audio-operator/monitorhold.go:133-190 | The answers and the maps after a pass are those of reading the endpoints one after another, and the seeds are gone. |
| MonitorHistory.OthersPassThrough | audio-operator/monitorhold.go:146-148 | An endpoint that is not an HDMI or DisplayPort playback slot is answered as it is. |
| MonitorHistory.RunReadsEachSlot | audio-operator/monitorhold.go:133-190 | Over any run of passes and control events, with or without seeds, what a slot is answered depends on that slot's own reads and ELD changes alone, from what the hold knew of it or from its seed. |
| MonitorHistory.AnswersSinceTheLitRead | audio-operator/monitorhold.go:128-190 | A lit read is answered as it is. Each later empty read of the outage is answered by exactly that reading until some read at least the settle time after an earlier one of the outage, with no ELD change between except past the ceiling, and as empty from then on. |
| MonitorHistory.AShortDropIsInvisible | audio-operator/monitorhold.go:19-31 | The same over any run of passes at times that do not fall, from any seeds, for every slot of the card. |
| MonitorHistory.ADropFromTheStart | audio-operator/monitorhold.go:33-37 | A drop that the run opens in is answered by the lit reading that the slot starts with, a seed's or the hold's own, until it has settled, and as it reads from then on; with no such reading it is answered as it reads. |
| MonitorHistory.AMonitorThatLeftShows | audio-operator/monitorhold.go:54-58 | Whatever the ELD changes are, and whether the run starts with seeds, with nothing, or with the slot already held, a slot read empty, and never lit, since a read one ceiling and one settle before is answered empty. |
| MonitorHistory.FiveSecondsNeverShow | audio-operator/monitorhold.go:19-31 | An empty read less than five seconds after the first one of its outage is answered by the lit reading before it, whatever ELD changes come between. |
| MonitorHistory.EveryRunLeavesItSane | audio-operator/monitorhold.go:163-177 | Every run of a process, whatever its seeds, leaves each slot as AMonitorThatLeftShows asks: an outage opened at a read, and a hold that never runs from a read past the ceiling. |
| MonitorHistory.SettledByTheCeiling | audio-operator/monitorhold.go:54-58 | Changes that keep coming put the end of a hold off by no more than the ceiling. |
| MonitorHistory.TheDeadlineReports | audio-operator/monitorhold.go:26-29 | A held slot has a timer at its deadline; with no ELD change since, a read reports the slot empty if and only if it is at or after that deadline. |
| MonitorHistory.TheFirstEmptyReadIsHeld | audio-operator/monitorhold.go:163-177 | The first empty read of a lit slot is held whenever it comes, so the bound counts from a read and not from the moment that the monitor left. |
| MonitorHistory.ARestartKeepsTheMonitor | audio-operator/monitorhold.go:33-37 | An operator that starts during a drop answers the block that the one before published, in each pass from its first read of the slot until the drop has settled, and as it reads from then on; a slot published with no monitor is answered as it reads. |
| Layouts.PositionsHaveSpeakers | audio-operator/layout.go:124-133 | Each position past the front pair is in the layout of an ELD if and only if the block names its group's speakers and takes the group's channels; beyond stereo the layout has no more channels than the monitor takes; and the positions stand in the order of the card's channels. |
| Layouts.WhereALayoutComesFrom | audio-operator/layout.go:155-169 | A person's layout comes first; an HDMI output takes its monitor's, or keeps the last one while no monitor answers; of the others only USB takes the device's channel map, and the rest have none. |
| Layouts.SelectLayouts | audio-operator/layout.go:175-186 | The loop answers the map that EachPlaybackIsSelected states of each endpoint. |
| Layouts.EachPlaybackIsSelected | audio-operator/layout.go:175-186 | With one endpoint for an address, each playback endpoint's entry is its own selection. |
| Layouts.PlanLayouts | audio-operator/layoutdrift.go:69-83 | The loop answers the plan, whose members ThePlanIsWhatDiffers states. |
| Layouts.ThePlanIsWhatDiffers | audio-operator/layoutdrift.go:69-83 | The plan holds a change if and only if it is of a declared playback endpoint, from what is declared to what is selected, and these differ in the positions or in the source. |
| Layouts.PlanSelects | audio-operator/layoutdrift.go:130-135 | After the plan each declared sink carries its selection, every other entry what it carried, and no entry appears or goes. |
| Declarations.NodeConfig | audio-operator/nodes.go:148-182 | The loop writes the document that DocumentReadsBack reads back, whatever the endpoints' order. |
| Declarations.EachNodeOpensItsDevice | audio-operator/nodes.go:148-250 | In a generated document every node opens the device of its own address, by the factory of its direction, no two have the same name, and they stand by card, by PCM device, and a sink in front of the source. |
| Declarations.NodeNamesDiffer | audio-operator/nodes.go:121-137 | The name of a node tells its card, its PCM device, and its direction. |
| Declarations.WhatASinkStates | audio-operator/nodes.go:274-289 | A sink asks for the device's own channel map if and only if its layout comes from there, and states the number of its channels if and only if a person or a monitor gave the layout. |
| Declarations.ObjectsAreDescribed | audio-operator/nodes.go:224-250 | A node's description names its direction, its card and its device. |
| Declarations.ParseDeclaration | audio-operator/declared.go:32-56 | The nodes of a document; an error if and only if some node has no card or PCM number that reads. |
| Declarations.DeclaredLayouts | audio-operator/declared.go:75-83 | The loop answers the layouts by address, and no source's. |
| Declarations.LayoutReadsBack | audio-operator/declared.go:61-71 | Any layout whose position names are words that do not start or end with a bracket reads back from its properties, as the document keeps it. |
| Declarations.DocumentReadsBack | audio-operator/declared.go:32-56 | Every generated document parses, and gives back every address in sorted order and every sink's layout. |
| Declarations.RegenerationIsIdentity | audio-operator/declared.go:85-100 | Generating again from the parsed nodes gives the same objects. |
| Declarations.RewriteKeepsThePcmDevices | audio-operator/declared.go:85-114 | A rewrite with any new layouts parses and holds exactly the PCM devices of the first document. |
| LayoutRuns.Reconciler.ReconcileLayouts | audio-operator/layoutdrift.go:90-125 | The document and the reported states after a pass: written only with a plan, specs that read, and no stream playing; a change that is not written waits, and an unreadable document reports nothing. |
| LayoutRuns.WhatIsReported | audio-operator/layoutdrift.go:155-176 | Each declared playback endpoint is reported with what is declared, waiting if and only if its change is not written, and restarting if and only if it does not wait and PipeWire still runs an older document. |
| LayoutRuns.Reconciler.ApplyLayouts | audio-operator/layoutdrift.go:130-149 | The layouts with every change in them and the document that states them, or nothing when the write fails. |
| LayoutRuns.AWriteSettlesThePlan | audio-operator/layoutdrift.go:130-149 | Right after a write, the same pass over the written document plans nothing. |
| LayoutRuns.ASinkChangesTwice | audio-operator/layout.go:155-169 | With specs, hardware and ELDs fixed, a sink's declared layout changes at most twice over any run, in whatever order monitors come and go, streams play, and writes fail. |
| LayoutRuns.RestartsAreFew | audio-operator/layoutdrift.go:90-149 | Over any such run, PipeWire restarts for a layout at most twice for each playback device. |
| Decibels.DecibelRangeFrom | audio-operator/decibels.go:89-118 | For any words it ends and reads in bounds. A linear or min-max block answers its first data word as low and its second as high; a scale answers its first as low, and as high the level that its masked step gives over the control's range, in 32-bit arithmetic; and a block with fewer than two data words, or of another type, answers none. |
| Decibels.StepsWrapOnce | audio-operator/decibels.go:104-106 | The scale's wrapped steps come to one reduction of the whole sum. |
| Decibels.OuterBounds | audio-operator/decibels.go:128-153 | The walk over a list of blocks answers the widest of their ranges, passing over silence on each side by itself. |
| Decibels.TreeReads | audio-operator/decibels.go:79-118 | For every well-formed tree of blocks, whatever follows its words in the buffer, the answer is the fold over the tree's leaves, a container's blocks getting the range 0 to 0. |
| Decibels.TheWalkFindsTheOuterBounds | audio-operator/decibels.go:120-153 | The ends of the answer are the least and the greatest level of the leaves that are not silent there, silent only when all are, and there is an answer if and only if some leaf states a range. |
| Decibels.TheStringIsExact | audio-operator/decibels.go:155-173 | The decimal string reads back as the level if and only if the level is not the least 32-bit number, whose opposite is itself. |
| Codecs.CodecSelection.State | audio-operator/codecs.go:311-327 | A class's statement never replaces a claim's, and otherwise the later one of the same request stands. |
| Codecs.CodecSelection.ClaimCodecs | audio-operator/codecs.go:354-377 | The claim fails if and only if some entry's block does not read; otherwise every request is answered by the precedence. |
| Codecs.WhatAnEntrySays | audio-operator/codecs.go:354-405 | A block fails if and only if it is this driver's own and is no object, or has another key, or a codec that is no text; one that reads states the text under codec, or nothing. |
| Codecs.CodecSelection.ForRequest | audio-operator/codecs.go:336-345 | Whatever entries the selection was stated from, the request plays the codec of their precedence. |
| Codecs.HeldIsTheLastWord | audio-operator/codecs.go:300-327 | After any list of entries, the choice held for a request is the claim's last word on it, else the class's. |
| Codecs.TheAnswerIsThePrecedence | audio-operator/codecs.go:329-345 | The answer is the last claim entry naming the request, else the last claim entry for every request, else the last class entry naming it, else the last class entry for every request. |
| MediaTypes.Quality | audio-operator/mediatypes.go:75-93 | A form's weight is the quality of its most specific matching range, the first of them among equals, and none when no range matches (section 12.5.1 of RFC 9110), which the next two rows state by the ranges themselves. |
| MediaTypes.TypesStandInFront | audio-operator/mediatypes.go:97-107 | A spelling is of a type if and only if the type stands in front of its first slash, or is all of it. |
| MediaTypes.TheMostSpecificRangeDecides | audio-operator/mediatypes.go:75-93 | The weight is the quality of the first range that names the form, else of the first that admits its type, else of the first that admits everything. |
| MediaTypes.UnadmittedFormsHaveNoWeight | audio-operator/mediatypes.go:75-93 | A form has no weight if and only if no range names it or admits its type or admits everything. |
| MediaTypes.SomeRangeDecides | audio-operator/mediatypes.go:70-93 | Some range decides whenever one matches. |
| MediaTypes.Negotiate | audio-operator/mediatypes.go:121-143 | The chosen form has a positive weight, none weighs more, and no earlier form weighs as much; none is chosen if and only if no form has a positive weight, and a blank header gets the first form. |
| MediaTypes.AnExclusionStands | audio-operator/mediatypes.go:70-75 | A form that some range names with quality 0, none before it naming the form, is not acceptable, whatever wildcards stand beside it. |
| Queries.EscapeReadsBack | audio-operator/fragments.go:145-151 | Any bytes, escaped and decoded, come back with a plus sign for each space. |
| Queries.WhatIsWrittenAsItIs | audio-operator/fragments.go:313-339 | A value is escaped to itself if and only if each of its bytes is a letter, a digit, or one of the four marks that section 2.3 of RFC 3986 leaves alone. |
| Queries.ValuesSurviveWithoutSpaces | audio-operator/fragments.go:313-339 | A value comes back if and only if it holds no space. |
| Queries.SplitQuery | audio-operator/fragments.go:133-143 | The loop answers the pairs of the non-empty parts, each cut at its first equals sign and then decoded, which TheQueryReadsBack states of an expansion. |
| Queries.TheQueryReadsBack | audio-operator/fragments.go:129-143 | The query that form-style expansion writes reads back pair for pair, whatever bytes the values hold (section 3.2.8 of RFC 6570). |
| Routes.BuildRoutes | audio-operator/apiroutes.go:202-267 | The loops build the table, whose tap rows RouterFindsTheTapRow tells apart. |
| Routes.MatchRoute | audio-operator/apiroutes.go:336-364 | The loops answer the match that FirstFitFits states, over the table that the loops of the build make. |
| Routes.FirstFitFits | audio-operator/apiroutes.go:336-364 | The router answers none if and only if no row fits the path, and otherwise a row that fits with none in front of it that does, and the name at the row's variable. |
| Routes.RouterFindsTheDocuments | audio-operator/apiroutes.go:202-267 | The service's two documents are served under their own paths. |
| Routes.RouterFindsTheInfoRow | audio-operator/apiroutes.go:336-364 | The path of a resource and a name that is one segment is answered by that resource's row, with that name. |
| Routes.WhatReads | audio-operator/fragments.go:99-118 | A bitrate reads if and only if it is a whole number from 6 to 256, and a span by its grammar. |
| Text.SignsRead | audio-operator/fragments.go:109-112 | A whole number reads behind one plus or minus sign too. |
| Routes.WhoTakesWhat | audio-operator/apiroutes.go:281-295 | Every tap row takes the span, only Opus and the negotiated row the bitrate, and none takes another name. |
| Routes.ParseKnobs | audio-operator/fragments.go:90-121 | The loop answers the function whose refusals WhatIsRefused and whose values WhatIsTaken state. |
| Routes.WhatIsRefused | audio-operator/fragments.go:90-121 | A query is refused if and only if it has a name that the route does not take, a name twice, or a value that does not read. |
| Routes.WhatIsTaken | audio-operator/fragments.go:90-121 | An accepted query's knobs are the given values, and absent ones stay empty. |
| Routes.ExpandAspectTemplate | audio-operator/fragments.go:320-339 | The loop answers the expansion that TheTemplateAgreesWithTheRouter reads back, for any template. |
| Routes.RouterFindsTheTapRow | audio-operator/apiroutes.go:336-364 | The path of a resource, a name that is one segment, and a served extension is answered by that one row and that name. |
| Routes.TheTemplateAgreesWithTheRouter | audio-operator/apiroutes.go:372-382 | For any name that is one path segment of plain visible bytes, any served extension or none, and any knobs, a request for the text that the published template expands to reaches the intended row with that name, after the server has decoded its path, and its query is the given knobs in the template's order, with a plus sign for each space (sections 3.2.2, 3.2.5 and 3.2.8 of RFC 6570). |
| Routes.TheNamesThatComeBack | audio-operator/apihandler.go:25-37 | A request for the expanded text gives the name back if and only if the name is not empty, holds no slash, no question mark and no percent sign, and no byte that a request line cannot hold; a client that keeps back what follows a number sign needs a name without one besides. |
| Routes.TheKnobsThatComeBack | audio-operator/fragments.go:129-151 | The query gives exactly the given knobs if and only if no value holds a space. |

## Left out

- INDI, PHD2, plate solving, slews, sky mathematics, ALSA and PipeWire calls: only the facts they report are inputs.
- Conditions' messages, ArchiveAvailable, Events, log lines, metrics and pod templates: text with no promise of its own. Imaging keeps the reasons that a write reads again.
- The watch and its memo: the copies that they serve are the copy a pass holds, of any age; a write over an old one is refused.
- The promotion Job's own program: it is the environment described above, and a report is taken to come from the Job it is applied for.
- A person or a garbage collector that deletes a Job before it ends, and a target's finalizer taken off by hand: both are outside what the operator promises.
- Targets are told apart by name in one namespace, and finalizers of other controllers are not part of this model.
- Which reservations still run on a claim is an input of the start of a Job, and so is whether the archive claim exists.
- 32-bit overflow of the counts and of Job numbers: the counts are natural numbers.
- The parse of a duration: a sequence holds the seconds that it reads as, or none.
- JSON and invalid UTF-8: documents and slices are taken as the values they encode, and the bytes of a monitor's name as characters.
- Bluetooth speakers: their devices carry no ELD, and their codec switch is foreign calls.
- The init container's wait for a monitor before PipeWire starts, and the reading of the Sinks: calls with timeouts.
- Targets.Target.Apply: leaves out ArchiveAvailable, a condition that no write reads again.
- Devices.SliceDevices: takes the sound card's endpoints alone, because a Bluetooth speaker's device carries no ELD to seed.
- Declarations.ParseDeclaration: takes a document as the nodes it encodes, because the prefix and the JSON around them are calls into a decoder.
- Sequences.WorkLeftNeverRises: takes reports that are not truncated, because a truncated one may leave out frames that the catalog has, and DoneFallsOnlyWithTheCatalog says what that does.
- Selection.Runner.ClaimNext: takes no other write between a refused write and the one after it, and no listed target that is gone, because each ends the pass with an error.
- Routes.PathIn: takes a request line's target in the form of a path; the absolute form and the header lines are the HTTP server's.
- MediaTypes.Negotiate: takes the ranges that the header's text reads as, with qualities that are numbers, because the text's numbers are floating point.
- Routes.ParseKnobs: takes the grammar of the temporal dimension as a parameter, because it reads floating point numbers.
- LayoutRuns.ASinkChangesTwice: starts from a document that the operator wrote, because a hand edit restarts PipeWire by itself.
- LayoutRuns.RestartsAreFew: starts from a document that the operator wrote, for the same reason.
- Sorts are stable here; the library's are not, which matters only between equal keys.
- Texts are compared by characters, where Go compares bytes.
