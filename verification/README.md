# Verified model of the Kubernetes storage service provider

The service provider stores volumes as PersistentVolumeClaims (PVCs) and reports what becomes
of them. This project models the parts of it where the behaviour is more than one function
deep, and proves what those parts promise.

**The status pipeline** (`internal/monitoring`). Informer callbacks report a PVC's status;
`submitIfChanged` filters the reports under the monitor's lock and hands what is left to the
debouncer, which has a lock of its own; timer callbacks claim events under that lock and
publish them outside it, with retries; a successful publication is recorded under the first
lock again; `Stop` races all of this. The model takes these sections as steps and lets them
interleave in every way.

- `Debounce` is the debouncer's state machine, `DebounceGuarantees` what it gives its users, and
  `CutWindow` says exactly when an entry's quiet window can be cut short.
- `MonitorCore` is the monitor's two maps together with the history of its locked sections.
- `Pipeline` puts both together: an event that was accepted carries a ticket, and tickets wait
  between the locks, in the map, in flight, or in the batch that `Stop` flushes.
  `PipelineInvariants` proves what each step keeps, `PipelineSafety` what holds over all runs,
  `QuietRuns` when the quiet window does, `Attempts` how often an event is tried by a callback
  or by the flush, and `PipelineProgress` that nothing gets stuck.
- `History` follows each ticket through the monitor's history until it is closed (recorded,
  superseded, dropped or given up); `Steering` drives chosen tickets through a running
  pipeline. On these rest `Duplicates`, which says exactly when a record can be repeated, and
  `Convergence` and `Resync`, which say exactly when a resync settles an instance in the maps.
- An event is on the wire before it is recorded, and the two orders may cross. `Wire` follows
  what the subscriber sees; `WireDuplicates` says exactly when it can be sent the same thing
  twice in a row, and `WireConvergence` exactly when a resync brings it the present status.
- `Coarse` is the pipeline of one instance if accepting and enqueueing were one step and
  claiming through recording another. Stronger guarantees hold there, down to the wire.
  `Turns` shows that the fine model gives them to every instance that takes turns with itself,
  however the other instances interleave; `Witnesses` holds runs of the fine model, for every
  debounce interval, in which the stronger guarantees fail.
- `Reports` is what callbacks make of the objects they are handed; `Statuses` says when each
  status is reported, in terms of those objects' own fields.
- `DebouncerObject` and `StatusMonitorObject` are the two objects as classes. Each method is
  proved to carry out the step of the state machine that models it.

**The volume store** (`internal/kubernetes`, `internal/handlers/volume`). `Volumes` holds the
conversions between specs, PVCs and volumes; `VolumeStore` the store's operations over a
namespace with arbitrary foreign PVCs; `Paging` and `StoreRefinement` prove that the pages
agree with `Get` and that the store behaves like a plain map; `Handler` follows the identity of
a volume from the request to the namespace; `StoreObject` is the store and its API server as
classes; `Patterns` compares the two identifier patterns as languages. `Visibility` says which
PVCs the operations see by their labels, and `Requests` what a request's own fields make of the
PVC, the volume shown and the answer.

**Two backoff loops.** `Backoff` has their arithmetic in 64-bit nanoseconds, `Registration` the
loop of the registrar; the publish loop is a method of `StatusMonitorObject`.

## What the proofs found

- The comment at `internal/monitoring/debouncer.go:52` says that a submission invalidates any
  flying callback. It does within one lifetime of a map entry. Versions restart at 1 when an
  entry is recreated, so a callback left over from an earlier lifetime can claim an event in
  the instant it is submitted (`StaleCallbackCutsWindow`). A claim respects the quiet window
  whenever the claiming callback was armed in the entry's present lifetime, which holds exactly
  when it is the newest submission's own, short of 2^64 submissions in between
  (`OwnCallbackIffSameLife`); over a run, it is enough that no entry is created while a callback
  of its instance has started and not run (`QuietWindowOverRuns`). From a given state the next
  claim of an entry can cut its window if and only if a timer left over from another lifetime
  is ahead of the entry's version, or equal to it and able to run before the entry's own
  timer is due (`CutIffThreatened`).
- The comment at `internal/monitoring/monitor.go:191-194` calls the filter resync-safe and the
  latch safe against concurrent callbacks. At the grain of the locks, the same event can be
  sent and recorded twice in a row (`SplitPublicationRepeats`, `SplitSubmissionRepeats`).
  In the order of the records, the second copy was then accepted before the first was recorded
  (`RepeatWasAcceptedBefore`), and a repeat can come about without a new report if and only if
  something under way for the instance equals what stands as published, or is under way
  twice (`RepeatsIffPrimed`).
- In the order of the wire the condition is another one, since publications are sent first and
  recorded later, and may be recorded in the other order. Without a new report, the subscriber
  can be sent the same thing twice in a row if and only if something that is under way and not
  yet on the wire equals what was sent last, or two such things are alike
  (`RepeatsOnWireIffPrimed`). `RepeatsOnWireOnly` reaches a state in which the wire can repeat
  and the records cannot. An instance that takes turns with itself never repeats anything but
  DELETED on the wire (`TurnsReachTheWire`).
- Recording a DELETED that was under way opens the latch (`LateDeletedOpensLatch`). Nothing else
  does, short of accepting another event: after an accepted FAILED, PROVISIONING is held back if
  and only if no DELETED has been recorded since (`LatchExactOverRuns`).
- A resync settles an instance in every interleaving if and only if, at its start, all that is
  under way for that instance is its present status, or the latch holds that status back and
  no DELETED of it is under way (`SettlesIffReady`, `ResyncConverges`). What the other instances
  do does not matter. `ResyncMissesPending` reaches a state outside this condition.
- That is about `lastPublished`. What the subscriber saw last is settled by a resync under a
  condition of its own (`SettlesOnWireIffReady`); from rest it is missed exactly where the
  status stands as published, is not latched out, and something else was sent after it
  (`RestIsWireReady`). `ResyncMissesWire` reaches such a state: until another status comes in,
  every report is suppressed, and the subscriber keeps the wrong one.
- Reading a volume back and rebuilding its PVC gives the same PVC for every accepted spec,
  except one whose storage class hint is explicitly empty while a default class is
  configured: it then gets the default class (`RoundTrip`, `OptOutIsLost`).
- No doubling of the publish backoff overflows if and only if at most 40 attempts are
  configured, and no wait that is slept deviates from 10ms times a power of two if and only if
  at most 41 are (`NoOverflowIff40`, `SleptExactIff41`); the registration waits have their closed
  form if and only if both settings are below 2^62 nanoseconds (`ClosedFormIff`), and never get
  shorter if and only if the cap is (`NonDecreasingIff`).
- `api/v1alpha1/openapi.yaml:80-84` says that the id parameter must match the name in the body.
  The handler (`internal/handlers/volume/handler.go:39-47`) overrides the name with it instead.
  The model follows the handler.

## Model

| member | source | states |
|---|---|---|
| Debounce.WordSteps | internal/monitoring/debouncer.go:54 | the counted version modulo 2^64 is the machine word after one more increment |
| Debounce.SubmitKeeps | internal/monitoring/debouncer.go:38-92 | a submission keeps the debouncer's invariant: each entry holds its instance's newest submission and that submission's own unrun timer; only that timer bears the entry's version within the entry's lifetime; claims are ordered |
| Debounce.FireKeeps | internal/monitoring/debouncer.go:65 | so does the runtime starting a callback that is due |
| Debounce.CallbackKeeps | internal/monitoring/debouncer.go:65-91 | so does the locked half of a callback, stale or not |
| Debounce.StopKeeps | internal/monitoring/debouncer.go:97-109 | so does the locked half of Stop, in whatever order the loop meets the map's keys |
| DebounceGuarantees.OwnCallbackIffSameLife | internal/monitoring/debouncer.go:46-79 | a claiming callback is the newest submission's own if and only if it was armed in the entry's present lifetime with the version counted now; of the same lifetime with another version, at least 2^64 submissions came in between; an own callback finds a whole interval elapsed |
| DebounceGuarantees.QuietWindow | internal/monitoring/debouncer.go:65-84 | a claim by a callback of the entry's present lifetime takes that timer's own submission, at least one interval old and with no later submission of the instance |
| QuietRuns.QuietWindowOverRuns | internal/monitoring/debouncer.go:46-84 | in a run that never creates an entry while a callback of its instance has started and not run, every claim is the newest submission's own and respects the quiet window |
| DebounceGuarantees.StaleCallbackCutsWindow | internal/monitoring/debouncer.go:46-84 | a run in which a callback from an earlier lifetime claims the third submission at the instant it is made and leaves that submission's timer behind |
| DebounceGuarantees.NoOrphan | internal/monitoring/debouncer.go:46-91 | every entry has a timer, armed or fired, whose callback will claim it |
| DebounceGuarantees.ClaimOrder | internal/monitoring/debouncer.go:76-84 | of two claims of an instance the later took a submission made after the earlier claim, and each took the newest submission of its moment |
| DebounceGuarantees.SubmitIsolation | internal/monitoring/debouncer.go:38-63 | a submission for one instance leaves every other instance's entry, if it has one, and its timer as they are |
| DebounceGuarantees.CallbackIsolation | internal/monitoring/debouncer.go:69-84 | so does a callback, claiming or stale |
| CutWindow.CutIffThreatened | internal/monitoring/debouncer.go:46-84 | the next claim of an entry can come less than an interval after its newest submission, within fewer than 2^64 submissions, if and only if an unrun timer of the instance is left over from another lifetime and is ahead of the entry's version, or equal to it and able to run before the entry's own timer is due |
| DebouncerObject.InstanceState.Replace | internal/monitoring/debouncer.go:53-54 | the event replaces the pending one and the version is incremented as a 64-bit word |
| DebouncerObject.Debouncer.constructor | internal/monitoring/debouncer.go:27-33 | a new object represents the initial state |
| DebouncerObject.Debouncer.Submit | internal/monitoring/debouncer.go:38-92 | the object after the call represents the state machine's Submit of the state it represented before |
| DebouncerObject.Debouncer.Callback | internal/monitoring/debouncer.go:69-84 | the object carries out the state machine's Callback, and hands out the pending event exactly when the callback claims |
| DebouncerObject.Debouncer.TakeAll | internal/monitoring/debouncer.go:100-107 | the loop empties the map, stops every entry's timer and collects each pending event once |
| DebouncerObject.Debouncer.StopLocked | internal/monitoring/debouncer.go:98-109 | the object carries out the state machine's Stop for the order in which the loop met the keys |
| DebouncerObject.Debouncer.Stop | internal/monitoring/debouncer.go:97-114 | up to its wait, Stop publishes each pending event exactly once, and leaves an empty map and the WaitGroup counting just the publications that were under way before |
| MonitorCore.AcceptKeeps | internal/monitoring/monitor.go:195-208 | the maps stay the replay of the history, in which every acceptance was admitted by the maps of its moment |
| MonitorCore.RecordKeeps | internal/monitoring/monitor.go:236-243 | so they do when a publication is recorded |
| MonitorCore.FailedLatch | internal/monitoring/monitor.go:202-206 | an accepted FAILED is not directly followed by an accepted PROVISIONING of the same instance unless a DELETED was recorded in between |
| MonitorCore.LatchHoldsUntilErased | internal/monitoring/monitor.go:202-208 | after an accepted FAILED, with nothing accepted for the instance since, the latch holds back PROVISIONING if and only if no DELETED has been recorded since |
| MonitorCore.PublishedIsNewestRecord | internal/monitoring/monitor.go:236-243 | what lastPublished holds for an instance is its newest recorded event, and never DELETED |
| MonitorCore.AcceptedDiffers | internal/monitoring/monitor.go:197-201 | an accepted event differs from the one that stands as published |
| PipelineInvariants.HandleKeeps | internal/monitoring/monitor.go:195-208 | accepting or suppressing a report keeps the pipeline's invariant: every ticket in exactly one place, acknowledgements matched by deliveries, the WaitGroup counting publications, records preceded by acknowledgements |
| PipelineInvariants.EnqueueKeeps | internal/monitoring/monitor.go:209 | so does handing the ticket to the debouncer, whether it is stored, supersedes another, or is dropped after Stop |
| PipelineInvariants.CallbackKeeps | internal/monitoring/debouncer.go:69-90 | so does a timer callback |
| PipelineInvariants.PublishKeeps | internal/monitoring/monitor.go:219-235 | so does one attempt to publish, successful or not |
| PipelineInvariants.NoteKeeps | internal/monitoring/monitor.go:236-243 | so does recording a success |
| PipelineInvariants.FinishKeeps | internal/monitoring/debouncer.go:89-90 | so does leaving publishFn and decrementing the WaitGroup |
| PipelineInvariants.StopKeeps | internal/monitoring/debouncer.go:97-109 | so does the locked half of Stop |
| PipelineInvariants.ReturnKeeps | internal/monitoring/debouncer.go:115-116 | so does Stop's return once the WaitGroup is at zero |
| PipelineInvariants.NextKeeps | internal/monitoring/monitor.go:195-246 | every step of every kind keeps the invariant |
| PipelineInvariants.RunKeeps | internal/monitoring/debouncer.go:38-116 | so does every run |
| PipelineSafety.Conservation | internal/monitoring/monitor.go:195-246 | in every reachable state each accepted event is in exactly one place (between the locks, pending, in flight, in the unflushed batch, dropped, superseded, delivered, given up), was acknowledged at most once, and was acknowledged if delivered and not if given up |
| PipelineSafety.LatchOverRuns | internal/monitoring/monitor.go:202-206 | over every run, an accepted FAILED is directly followed by an accepted PROVISIONING of the same instance only if a DELETED was recorded in between |
| PipelineSafety.LatchExactOverRuns | internal/monitoring/monitor.go:202-208 | over every run: after an accepted FAILED, with nothing accepted for the instance since, PROVISIONING is held back if and only if no DELETED has been recorded since |
| PipelineSafety.PublishedWasDelivered | internal/monitoring/monitor.go:236-243 | over every run, lastPublished holds only events that were acknowledged, and never DELETED |
| PipelineSafety.NoOrphanOverRuns | internal/monitoring/debouncer.go:46-91 | over every run, a pending event has an unrun timer of its own whose version matches, and the pipeline is not stopped |
| PipelineSafety.ClaimOrderOverRuns | internal/monitoring/debouncer.go:76-84 | over every run, an instance's claims are a strictly increasing subsequence of its submissions |
| PipelineSafety.WaitGroupCounts | internal/monitoring/debouncer.go:82-114 | over every run the WaitGroup equals the callbacks inside publishFn plus the unfinished flushes, and after the flag is set no callback can claim |
| PipelineSafety.TakenStaysOverRuns | internal/monitoring/debouncer.go:89-114 | an event taken for publishing stays taken or done, over every run |
| PipelineSafety.StopCompletes | internal/monitoring/debouncer.go:97-116 | when Stop has returned, every event that was pending or in flight when the flag was set has had publishFn run to completion exactly once |
| PipelineSafety.QuietAfterStop | internal/monitoring/debouncer.go:42-44 | after that, over every run, nothing is published and nothing more is recorded |
| PipelineSafety.LateIsDropped | internal/monitoring/debouncer.go:42-44 | once the flag is set a report can still be accepted, but then it is dropped: no timer, no publication, nothing on the wire |
| Attempts.AttemptsOverRuns | internal/monitoring/monitor.go:212-246 | counting the steps of any run ticket by ticket, by callback or flush: a publication is lost if and only if it was never acknowledged and was either given up in a wait once or failed as often as the effective maximum (5 if configured below 1); it is never tried more often, nor again once acknowledged or given up |
| Attempts.FailedGoesOn | internal/monitoring/monitor.go:219-235 | over every run, after a failed attempt the publication can be retried, or given up, if and only if fewer attempts for the ticket have failed than are allowed, and is over otherwise, for the flush as for a callback |
| PipelineProgress.InternalWorks | internal/monitoring/debouncer.go:38-116 | every step other than an informer callback or the clock lowers a natural measure of outstanding work |
| PipelineProgress.WorkBoundsRuns | internal/monitoring/debouncer.go:38-116 | between informer callbacks a run has no more such steps than work at its start |
| PipelineProgress.WaitShrinks | internal/monitoring/debouncer.go:115 | after the flag is set no step adds to what Stop waits for, the WaitGroup never grows, and every publishing step brings the wait closer to its end |
| PipelineProgress.WaitProgresses | internal/monitoring/debouncer.go:111-115 | until Stop has returned, it can return or a publication can go on |
| PipelineProgress.NothingStuck | internal/monitoring/debouncer.go:65-91 | while anything is between the locks, pending or in flight, some step other than Stop is possible now or once a timer has run out |
| PipelineProgress.Drains | internal/monitoring/monitor.go:195-246 | from every state the pipeline can come to rest without a further report and without Stop |
| History.StepCloses | internal/monitoring/monitor.go:195-246 | each step closes the one ticket it records, gives up, drops or supersedes, and reopens none |
| History.RunOwned | internal/monitoring/monitor.go:195-246 | over every run, each section of the history is about one ticket, which was accepted before it was recorded, is recorded at most once, and is closed from then on |
| History.RepeatWasAcceptedBefore | internal/monitoring/monitor.go:197-209 | over every run, of two successive records of an instance the second repeats the first, other than DELETED, only if it is another ticket's and that ticket was accepted before the first was recorded |
| Steering.DriveOne | internal/monitoring/debouncer.go:65-91 | every open ticket of a running pipeline can be brought to be recorded by steps that lose nothing and leave other publications as they are |
| Duplicates.RecordedWasOpen | internal/monitoring/monitor.go:236-243 | whatever a run without reports records was open at its start, Stop included |
| Duplicates.RepeatsIffPrimed | internal/monitoring/monitor.go:197-244 | from any reachable running state, a run without new reports can record the same event, other than DELETED, twice in a row for an instance if and only if something under way for it equals what stands as published, or is under way twice |
| Wire.StepFresh | internal/monitoring/monitor.go:219-243 | without a report a ticket stops being under way and off the wire exactly when it is sent or closed, and no other ticket becomes so |
| Wire.StepSent | internal/monitoring/monitor.go:219-235 | without a report the instance's events on the wire grow exactly by a ticket of it that was under way and not yet sent |
| WireDuplicates.RunUnprimed | internal/monitoring/monitor.go:219-243 | from a state where nothing unsent equals what was sent last and no two unsent things are alike, no run without reports, Stop included, sends the same thing twice in a row |
| WireDuplicates.RepeatsOnWireIffPrimed | internal/monitoring/monitor.go:197-243 | from any reachable running state, a run without new reports can send the same event, other than DELETED, twice in a row for an instance if and only if something under way and unsent equals what was sent last, or two such things are alike |
| Convergence.RunTracks | internal/monitoring/monitor.go:195-246 | along every run that reports only `w` for its instance and loses nothing of it, from a ready state, `w` is settled or under way once reported, or stays latched out; other instances are not restricted |
| Convergence.SettlesIffReady | internal/monitoring/monitor.go:195-246 | every such run that reports `w` and ends with nothing of its instance under way has settled `w`, if and only if at the start all that is under way for it is `w`, or the latch holds `w` back and no DELETED of it is under way |
| Convergence.ReportAndFinish | internal/monitoring/monitor.go:195-246 | such runs exist from every running state |
| WireConvergence.RunTracksWire | internal/monitoring/monitor.go:195-246 | along every lossless run that reports only `w` for its instance, from a ready state, `w` was sent last, or something is still to be sent and all of it is `w`, or a report of it will pass, or it stays latched out |
| WireConvergence.SettlesOnWireIffReady | internal/monitoring/monitor.go:195-246 | every such run that reports `w` and ends with nothing of its instance under way leaves `w` sent last or latched out, if and only if at the start the latch holds it and no DELETED is under way, or all that is unsent is `w` and: `w` was sent last, or something is unsent, or `w` passes the filter now and no `w` is under way |
| WireConvergence.RestIsWireReady | internal/monitoring/monitor.go:197-201 | from rest this fails exactly if `w` stands as published, is not latched out, and was not sent last |
| Resync.PVCReportsAgree | internal/monitoring/monitor.go:149-165 | with unique instance ids, callbacks over a set of PVCs report for an instance exactly the status its own PVC maps to |
| Statuses.StatusMeans | internal/kubernetes/convert.go:16-57 | a PVC is reported DELETING exactly if it is terminating; otherwise FAILED exactly if Lost, RUNNING exactly if Bound with no true resize condition anywhere among its conditions, and PROVISIONING in all other cases; never DELETED |
| Statuses.MessageMeans | internal/kubernetes/convert.go:16-57 | the message of each status; during a resize it belongs to the first condition that says so |
| Statuses.InstanceMeans | internal/monitoring/indexer.go:10-13 | a PVC is tracked exactly if its instance-id label is there and not empty, and reported under it |
| Statuses.DeletionMeans | internal/monitoring/monitor.go:167-189 | a deletion is reported under an id exactly if the labels of the object, or of the object inside one tombstone, carry it |
| Statuses.WarningMeans | internal/monitoring/k8s_events.go:14-74 | a Kubernetes event makes an instance FAILED exactly if it is a Warning about a PVC with one of the four reasons and that PVC, in the event's namespace or else the configured one, is in the cache with that instance id; the message is made of reason and message |
| Resync.ResyncConverges | internal/monitoring/monitor.go:149-165 | a tracked PVC is shown (its mapped status and message published, or FAILED latched over PROVISIONING) at the end of every run over a set of PVCs that reports it and gives up none of its publications, if and only if its instance was ready at the start |
| Resync.ResyncFromRest | internal/monitoring/monitor.go:149-165 | in particular a resync that starts at rest converges |
| WireConvergence.ResyncReachesWire | internal/monitoring/monitor.go:149-165 | a tracked PVC's status is sent last, or latched out, at the end of every run over a set of PVCs that reports it and gives up none of its publications, if and only if its instance was ready for that at the start |
| Coarse.CNextKeeps | internal/monitoring/monitor.go:195-246 | for one instance with the two atomic steps: what is pending equals lastSubmitted and differs from lastPublished, lastPublished is the last delivery unless that was DELETED, whatever is published has been submitted, and the history is sound |
| Coarse.DeletedForgets | internal/monitoring/monitor.go:237-239 | delivering DELETED returns all the instance's state to its initial value, and anything is admitted |
| Coarse.ThirdStatusBetween | internal/monitoring/monitor.go:202-206 | between a delivered FAILED and a later delivered PROVISIONING a third status was accepted |
| Coarse.SuccessiveDeliveriesDiffer | internal/monitoring/monitor.go:197-201 | in a sound history two successive deliveries are equal only if both are DELETED |
| Coarse.LatchWithoutException | internal/monitoring/monitor.go:202-206 | an accepted FAILED is never directly followed by an accepted PROVISIONING |
| Turns.IdleIsInTurn | internal/monitoring/monitor.go:195-246 | with nothing between the locks and nothing being published, every step is in turn for every instance |
| Turns.StepSimulates | internal/monitoring/monitor.go:195-246 | each step that is in turn for an instance does to the instance's own view what one coarse action does, or nothing, whatever the other instances do and Stop included |
| Turns.TurnsAreCoarse | internal/monitoring/debouncer.go:38-116 | every run in which an instance takes turns with itself is, for that instance, a run of the coarse model from its start, with the same reports in the same order, and so has the coarse invariant |
| Turns.TurnsReachTheWire | internal/monitoring/monitor.go:195-246 | in such a run the instance's history is sound, its events on the wire are its recorded ones in order and at most one more, no two successive ones are equal unless DELETED, and what pends was submitted last and differs from what is published |
| Witnesses.SplitPublicationRepeats | internal/monitoring/debouncer.go:76-90 | for every interval, a run with accepting and enqueueing in one step that sends and records the same event twice in a row |
| Witnesses.SplitSubmissionRepeats | internal/monitoring/monitor.go:207-209 | for every interval, a run with claiming through recording in one step and callbacks one after the other that sends and records the same event twice in a row |
| Witnesses.LateDeletedOpensLatch | internal/monitoring/monitor.go:237-239 | for every interval, a run that accepts FAILED and then PROVISIONING, because a DELETED under way is recorded in between |
| Witnesses.ResyncMissesPending | internal/monitoring/monitor.go:197-201 | for every interval, a run to a state where what is reported stands as published and another status is pending, and a lossless run from there that reports it and ends unsettled |
| Witnesses.ResyncMissesWire | internal/monitoring/monitor.go:219-243 | for every interval, a run in which two publications are sent in one order and recorded in the other; it ends at rest with the first one published and the second sent last, and a report of the first changes nothing |
| Witnesses.RepeatsOnWireOnly | internal/monitoring/monitor.go:219-243 | for every interval, a run to a state from which the wire can repeat an event and the records cannot |
| StatusMonitorObject.StatusMonitor.AcceptIfChanged | internal/monitoring/monitor.go:196-208 | the locked half accepts exactly the admitted reports and changes nothing otherwise |
| StatusMonitorObject.StatusMonitor.RecordPublished | internal/monitoring/monitor.go:236-243 | the locked section records the event: DELETED removes the instance from both maps, any other status becomes lastPublished |
| StatusMonitorObject.StatusMonitor.SubmitIfChanged | internal/monitoring/monitor.go:195-210 | an admitted report is accepted and submitted, any other leaves monitor and debouncer as they were |
| StatusMonitorObject.StatusMonitor.HandlePVCEvent | internal/monitoring/monitor.go:149-165 | a tracked PVC's mapped status is reported; anything else changes nothing |
| StatusMonitorObject.StatusMonitor.HandlePVCDelete | internal/monitoring/monitor.go:167-189 | the object, whatever its kind, or the object inside one tombstone, is reported DELETED if its labels carry an instance id |
| StatusMonitorObject.StatusMonitor.HandleWarningEvent | internal/monitoring/k8s_events.go:21-74 | a terminal warning about a tracked PVC in the cache is reported FAILED; any other event changes nothing |
| StatusMonitorObject.StatusMonitor.PublishWithRetry | internal/monitoring/monitor.go:212-246 | for every script of failures and cancellations: the loop stops at the first success, cancellation or last allowed attempt; the maps change only on success; waits are 10ms doubling, and together at most 10ms(2^n - 1) |
| Backoff.WrapDoubles | internal/monitoring/monitor.go:232 | doubling the wrapped 64-bit duration and wrapping again loses no more than wrapping once |
| Backoff.NoOverflowIff40 | internal/monitoring/monitor.go:217-233 | no doubling of the backoff overflows, the last one, which is never slept, included, if and only if at most 40 attempts are configured |
| Backoff.SleptExactIff41 | internal/monitoring/monitor.go:226-233 | every wait that is slept is exactly 10ms times a power of two if and only if at most 41 attempts are configured |
| Backoff.TotalBackoff | internal/monitoring/monitor.go:226-233 | n waits last at most 10ms(2^n - 1) together, overflow or not |
| Backoff.ClosedFormIff | internal/registration/registration.go:148-175 | the k-th wait is min(initial·2^(k-1), max), the first one uncapped, for all k if and only if both settings are below 2^62 nanoseconds |
| Backoff.NonDecreasingIff | internal/registration/registration.go:171-174 | with initial at most max, no wait is shorter than the one before if and only if max is below 2^62 nanoseconds |
| Registration.Run | internal/registration/registration.go:146-201 | the loop ends exactly at the first 200 or 201, 4xx, or cancelled wait; no attempt follows; the i-th wait is the recurrence's |
| Volumes.BuildPVC | internal/kubernetes/convert.go:106-149 | the field-by-field construction gives the PVC, or the first complaint, of the specification function |
| Volumes.UserLabelsFromPVC | internal/kubernetes/convert.go:223-231 | the loop copies exactly the labels that are not reserved |
| Volumes.LatestTransition | internal/kubernetes/convert.go:233-245 | the result is the maximum of the conditions' non-zero transition times, or nothing if there is none |
| Volumes.LatestPVCConditionTime | internal/kubernetes/convert.go:233-245 | the loop computes that maximum |
| Volumes.UserLabelsReturn | internal/kubernetes/labels.go:21-26 | merging adds and removes no label that is not reserved, and is the same for the user labels without the reserved ones |
| Volumes.RoundTrip | internal/kubernetes/convert.go:59-149 | rebuilding the PVC from the spec read back gives the same PVC, labels included, if and only if the spec does not opt out of a configured default class |
| Volumes.UserLabelsRoundTrip | internal/kubernetes/convert.go:223-231 | user labels are read back as exactly the non-reserved ones, values included |
| Volumes.OptOutIsLost | internal/kubernetes/convert.go:184-197 | the excepted spec rebuilds to the same PVC but for the default class |
| VolumeStore.SelectedMembers | internal/dcm/labels.go:40-46 | the selector lets through exactly the names whose PVCs carry the two fixed labels |
| Visibility.SelectorSeesLabels | internal/dcm/labels.go:40-46 | the selector lets a name through exactly if its PVC is labelled managed-by dcm and service-type storage |
| Visibility.GetSeesLabels | internal/kubernetes/store.go:44-56 | Get finds an id exactly if the PVC of that name exists and carries the two fixed labels and the id as instance id; otherwise it answers NotFound |
| Visibility.DeleteSeesLabels | internal/kubernetes/store_delete.go:11-21 | Delete removes that PVC and no other exactly in the same cases, and changes nothing otherwise |
| Visibility.PagesSeeLabels | internal/kubernetes/store_list.go:31-61 | the pages show the id exactly in the same cases |
| Visibility.StaysVisible | internal/kubernetes/labels.go:12-19 | no change of a PVC other than to its labels makes it visible or hides it |
| Visibility.ListAnswers | internal/kubernetes/store_list.go:19-79 | List fails exactly on a token the server does not recognise; a page has at most the requested size, 50 if none, never more than 1000, and shows only what Get returns |
| Visibility.FullPage | internal/kubernetes/store_list.go:19-61 | what fits on one page of the requested size is shown on one page, without a token |
| Requests.CreateDecides | internal/kubernetes/store_create.go:14-54 | on the spec's own fields: Create accepts exactly if the class is empty or exists, the capacity parses, both modes are supported and the name is free; the first of these that fails gives the error, and nothing changes then |
| Requests.CreatedPVC | internal/kubernetes/convert.go:106-149 | the PVC it adds requests the parsed capacity, has the hinted, else configured, else ReadWriteOnce access mode, the hinted, else configured class with the empty one meaning none, and the hinted volume mode |
| Requests.CreatedLabels | internal/kubernetes/labels.go:21-26 | its labels are the three of DCM with their values and the user's others with theirs |
| Requests.VolumeShows | internal/kubernetes/convert.go:59-104 | what a volume shows is its PVC's name, namespace, capacity, class, binding, user labels, creation time, and the newest condition time, else creation time, as time of change |
| Requests.HintsShow | internal/kubernetes/convert.go:199-221 | the hints shown are the PVC's class if not empty, its volume mode, and its first access mode |
| VolumeStore.RequestedName | internal/kubernetes/store_create.go:15-20 | an accepted spec's PVC is named by the id and is managed under it, whatever the user labels |
| VolumeStore.CreateWellFormed | internal/kubernetes/store_create.go:14-43 | Create keeps PVCs stored under their own names and listed once each |
| Paging.OnePage | internal/kubernetes/store_list.go:31-61 | one page holds the managed volumes among the next selected names, and a token if and only if something is left |
| Paging.SelectionKeepsVolumes | internal/kubernetes/store_list.go:34-50 | the label selector hides no volume that the later filter would show |
| Paging.FollowIsPaged | internal/kubernetes/store_crud_test.go:76-102 | following the tokens reads the selection in consecutive pieces, whatever page sizes are asked for |
| Paging.PagesAreListing | internal/kubernetes/store_list.go:31-61 | with any page size at each call, the pages from the empty token on are all the volumes in listing order, each once, even if the filter empties pages |
| Paging.PagesAgreeWithGet | internal/kubernetes/store.go:44-56 | the pages hold a volume if and only if Get returns that very volume, and no id twice |
| StoreRefinement.CreateRefines | internal/kubernetes/store_create.go:14-54 | Create answers and changes the namespace as the plain map does: conflict for any taken name, foreign ones included, and nothing changed when it fails |
| StoreRefinement.DeleteRefines | internal/kubernetes/store_delete.go:11-21 | Delete removes the managed volume, and answers NotFound for a foreign or missing one |
| StoreRefinement.ListRefines | internal/kubernetes/store_list.go:31-61 | the pages show the plain map's volumes |
| StoreRefinement.StepRefines | internal/kubernetes/store.go:44-61 | every operation gives the plain map's answer and leaves the plain map's state |
| StoreRefinement.ForeignStays | internal/kubernetes/labels.go:12-19 | no operation changes or removes a PVC that is not the store's own |
| StoreRefinement.RunRefines | internal/kubernetes/store_create.go:14-54 | over any sequence of operations the answers and final states are the plain map's, and every foreign PVC ends as it began |
| StoreObject.K8sVolumeStore.FindPVC | internal/kubernetes/store.go:44-56 | the PVC is found if and only if it exists and its labels name this id |
| StoreObject.K8sVolumeStore.Get | internal/kubernetes/store_get.go:10-16 | the object's Get is the modelled one |
| StoreObject.K8sVolumeStore.Create | internal/kubernetes/store_create.go:14-54 | the object's Create gives the modelled result and leaves the modelled namespace |
| StoreObject.K8sVolumeStore.Delete | internal/kubernetes/store_delete.go:11-21 | the object's Delete gives the modelled result and leaves the modelled namespace |
| StoreObject.K8sVolumeStore.List | internal/kubernetes/store_list.go:31-61 | the loop over the page's PVCs gives the modelled list |
| StoreObject.HandleCreate | internal/handlers/volume/handler.go:28-65 | the handler's checks and assignments give the modelled response and namespace |
| Handler.CreateIdentifies | internal/handlers/volume/handler.go:37-64 | an accepted request adds exactly one PVC, named by the id parameter or else by the body, managed under that id, never "health"; any other changes nothing |
| Requests.CreatedAs | internal/handlers/volume/handler.go:37-64 | a created volume bears the id parameter if there is one, else the body's name: in the answer, as the PVC's name and in its label |
| Requests.TurnedAway | internal/handlers/volume/validation.go:13-52 | on the request's own fields: the checks turn away exactly the requests for another service, without capacity, with an empty, reserved or malformed id, or with a label of DCM's |
| Requests.FirstComplaint | internal/handlers/volume/handler.go:49-58 | which complaint is answered, in the order of the checks |
| Requests.StoreAnswers | internal/handlers/volume/handler.go:31-64 | a request without a body is turned away; one that passes the checks is answered as the store's Create answers for that id |
| Handler.ServeAllKeeps | internal/handlers/volume/validation.go:13-52 | every run of the handler keeps its volumes well identified |
| Handler.IdentityOverRuns | internal/handlers/volume/handler.go:37-82 | in any run over any initial namespace, a volume created and not deleted has name and instance id equal, is managed, is found by Get and shown exactly once by the pages |
| Handler.AcceptedIDs | internal/handlers/volume/validation.go:17-27 | the id check accepts exactly the strings of the id pattern except "health", and each is a valid metadata.name |
| Patterns.ClassTimes | internal/handlers/volume/validation.go:17 | n repetitions of a character class match exactly the strings of n characters of that class |
| Patterns.FramedClause | api/v1alpha1/openapi.yaml:290 | a pattern with a fixed first and last class matches by its first character, its last and what is between |
| Patterns.PatternsAgree | api/v1alpha1/openapi.yaml:290-292 | the id pattern matches exactly the strings that the metadata.name pattern matches within lengths 1 to 63 |

## Left out

- DebounceGuarantees.QuietWindow: for fewer than 2^64 submissions of the instance since the callback was armed, past which a version word comes round again.
- QuietRuns.QuietWindowOverRuns: for runs of fewer than 2^64 submissions, for the same reason.
- CutWindow.CutIffThreatened: for states and continuations in which no version of the instance has reached 2^64, for the same reason.
- DebouncerObject.Debouncer.Stop: ends where the wait begins; the wait, and callbacks that run during the flush, are in the pipeline's steps.
- StatusMonitorObject.StatusMonitor.SubmitIfChanged: runs its two locked sections one after the other; what may come between them is in the pipeline's steps.
- StatusMonitorObject.StatusMonitor.PublishWithRetry: the choice between a ready context and a ready timer is a parameter of the call, as is the outcome of each attempt.
- Resync.ResyncConverges: a DELETED report or a warning of the same instance during the resync, which changes what its present status is, and a Stop during it.
- Volumes.RoundTrip: takes it that parsing a printed quantity gives the quantity back; the arithmetic of `resource.Quantity` is not part of this model.
- Paging.PagesAreListing: continue tokens are opaque, never empty and always understood by the server, and the namespace does not change between pages.
- StoreRefinement.RunRefines: no outside writer between the store's calls; Delete sends no precondition, so one between its lookup and its delete is outside the model.
- A second call of `Debouncer.Stop`, and the order in which the runtime runs callbacks that are due.
- API errors other than NotFound and AlreadyExists, and the wording of errors.
- Admission: the API server adds a creation time and a phase to what it is sent, and changes nothing else; expired continue tokens do not occur.
- `ProviderHints.AdditionalProperties`, and integer widths of page sizes and status codes.
- The informers and their caches: handlers are called in any order with any objects.
- NATS, CloudEvents encoding, logging, identifiers drawn at random and wall clocks; publishing succeeds or fails as the run says, and time is a counter.
- The HTTP server, OpenAPI request validation, error-to-HTTP mapping, health, configuration and the registration payload: each is settled by reading one branch or belongs to a library.
- Generated code: only field shapes and enumerations are taken from it.
