# Verified models of the Syndocal control layer

The TypeScript front end of this lighting and video desk keeps its promises in small stateful
controllers: fader lanes that must not let an old write overtake a new one, a navigation ledger that
must not restore a truncated branch, an apply that must never leave one cable serving two universes,
schedulers that must not fire twice or burst.  This project models those controllers in Dafny and
proves what holds of their promises over every interleaving, together with three algorithms (the custom profile text
form with its channel allocator, the chaser orders, the Bank integrity check).

## How the models are built

One module per source file; `Prelude` holds the shared vocabulary.  Beside some of them a second module says what
the first must do without using its segments' own definitions: from the history (`OutputDisplay`, `BeatHistory`,
`FaderCells`), from what a caller sees (`DmxDecision`, `AudioReading`, `ProfileReading`) or row by row (`BankFaults`).

A controller that awaits is cut at its awaits.  A `State` value is what holds between two awaits, an
`Event` is one synchronous segment (a public call, or the continuation of one settled await), `Step`
is what that segment does, and `Run` applies any sequence of events.  An event that does not fit the
state changes nothing, so every event sequence is a run and every theorem about `Run` is about every
interleaving.  Fields such as `log`, `sent`, `starts` or `moves` are observers: they record what
happened and never influence it.  Beside each specification stands a class with the mutable fields of
the source closure, whose methods are proved to do exactly the corresponding `Step`; loops of the
source are loops there.

Clock readings and the outcome of every request are inputs of the events.  Time, beat positions and
signal levels are reals.

Where a promise fails for the code as it stands, the code is modelled, a lemma gives a concrete run or text on
which it fails, and another says for all inputs exactly when it does:

- a cancel can leave promises of the continuous fader unsettled for ever
  (`FixtureFader.CancelDuringCommitStrands`; exactly when: `FixtureFader.IdleIsSettledIffNeverStranded`);
- a failed fader write drops a queued newer one and can leave its value pinned
  (`FaderValues.FailedBurstLeavesAPin`; exactly when: `FaderValues.DanglingIffDropped`);
- the navigation ledger leaves lockstep with the browser if a route change is recorded at an unreadable
  entry, which takes a popstate still waiting (`NavigationLedger.LockstepCanBreak`; exactly when:
  `NavigationLedger.LockstepIffIntact`);
- a traversal requested by `repair` can land late, on an entry that is not current, and undo a route change
  without the user having gone anywhere (`NavigationLedger.LateRepairUndoesARoute`; exactly when it misses:
  `NavigationLedger.RequestedRepairLands`, after one route change or one more traversal by the user
  `NavigationLedger.StaleRepairHarmlessIffForward` and `NavigationLedger.RepairMissesIfUserMoves`);
- an output removed and listed again may be read back in the very next slot
  (`OutputMonitor.DroppedOutputRestartsAtOnce`); two starts belong to one entry, and so are two slots apart,
  exactly when every reconciliation between them stayed in the project and listed the output
  (`OutputMonitor.StartsApartWhileListed`);
- a timer that fires early can spend an output's turn on nothing (`OutputMonitor.EarlyTimerLosesATurn`; exactly
  when: `OutputMonitor.SelectionStartsIffSlotUnused`);
- extrapolation can overshoot by a beat, restart the clock and fire a boundary again
  (`BeatScheduler.OvershootCanRefire`, `BeatScheduler.FallBackRefires`; exactly when:
  `BeatScheduler.RestartsIffPassedByABeat`, and by tempo `BeatScheduler.NoRestartIffSlow` and
  `BeatScheduler.NoRefireIffSlow`);
- reformatting a custom profile text can rename an attribute
  (`FixtureProfile.ReformatCanChangeTheName`; exactly when: `FixtureProfile.ReformatStableIff`);
- a draft with a comma in it is several pieces of the printed text, and its channel label is that of the last of
  them (`FixtureProfile.LabelIsTheAllocation`; exactly when a draft is one piece at its own position:
  `FixtureProfile.LastPieceIsOwnIff`).

The main results speak of whole runs or of all inputs.  A row that begins with "one segment" states what a single
segment does and only serves them.

## Model

| member | source | states |
|---|---|---|
| FixtureFader.WritesLeaveInSerialOrder | app/src/continuousFixtureFader.ts:22-44 | in every run writes are sent in strictly increasing serial order, everything still pending is newer than everything sent, and both carry what was enqueued under that serial |
| FixtureFader.SettledAtMostOnce | app/src/continuousFixtureFader.ts:46-60 | every accepted promise is waiting, resolved or rejected, and never two of these |
| FixtureFader.SettledForGood | app/src/continuousFixtureFader.ts:46-60 | no later segment takes a settlement back |
| FixtureFader.ResolvedIsFulfilled | app/src/continuousFixtureFader.ts:38-50 | a resolved promise means its write was acknowledged by the transport or replaced by a newer write to the same key |
| FixtureFader.StreamStaysInItsGeneration | app/src/continuousFixtureFader.ts:19-50 | a stream sends only writes of its own, current generation and settles only promises of that generation |
| FixtureFader.StrandsExactly | app/src/continuousFixtureFader.ts:45-64 | some promise is beyond any running or future stream after a segment if and only if one was before or the segment is one of the two that strand: a commit under an old generation with later promises, or a cancel while the generation's promises have no stream |
| FixtureFader.StrandedStays | app/src/continuousFixtureFader.ts:46-60 | a stranded promise is never settled by any later segment |
| FixtureFader.StrandedIffEverStrands | app/src/continuousFixtureFader.ts:45-64 | over whole runs, a promise is stranded if and only if some segment of the run stranded one |
| FixtureFader.IdleIsSettledIffNeverStranded | app/src/continuousFixtureFader.ts:53-79 | when idle nothing is pending, and all promises are settled if and only if no segment stranded one |
| FixtureFader.WithoutCancelIdleIsSettled | app/src/continuousFixtureFader.ts:53-78 | no lost wake-up: without cancel, idle means neither pending writes nor unsettled promises, across the restart in `finally` |
| FixtureFader.LastWriteArrives | app/src/continuousFixtureFader.ts:20-45 | without cancel or failure the newest write of every key has been acknowledged when idle |
| FixtureFader.PendingIsExactly | app/src/continuousFixtureFader.ts:20-79 | over every run the writes waiting to be sent are exactly those accepted for the present gesture that were neither sent, nor rejected, nor replaced by a newer write to their key |
| FixtureFader.RejectedIsNeverSent | app/src/continuousFixtureFader.ts:20-60 | a write rejected before it was sent is never sent by anything that follows |
| FixtureFader.AcceptedIsRecorded | app/src/continuousFixtureFader.ts:66-78 | one segment: an enqueue is recorded as given exactly below 1024 waiters and the last safe serial |
| FixtureFader.CommitResolvesExactly | app/src/continuousFixtureFader.ts:43-50 | over every run a commit resolves exactly the waiting promises of its gesture up to the last write sent, which was acknowledged |
| FixtureFader.FailureRejectsExactly | app/src/continuousFixtureFader.ts:56-60 | over every run a failure rejects exactly the waiting promises of its gesture |
| FixtureFader.OnlyTheseSettle | app/src/continuousFixtureFader.ts:41-60 | over every run only a commit resolves, only a failure rejects and only an acknowledgement delivers |
| FixtureFader.TransactionEndsExactly | app/src/continuousFixtureFader.ts:22-44 | over every run a transaction of the present gesture ends exactly when its time or its 512 writes are used up or nothing came while it waited, and otherwise sends whatever is pending |
| FixtureFader.FailsExactly | app/src/continuousFixtureFader.ts:18-60 | over every run a transaction starts to fail exactly on a failed send or transport, or when it notices a cancellation within its limits, and then ends only by rejecting |
| FixtureFader.ChainComesToRest | app/src/continuousFixtureFader.ts:18-64 | whatever the answers, without further calls the chain of any run takes a bounded number of them and is then idle |
| FixtureFader.CancelDuringCommitStrands | app/src/continuousFixtureFader.ts:45-50 | a concrete run that ends idle with a promise nobody will settle |
| FixtureFader.ContinuousFixtureFader.Enqueue | app/src/continuousFixtureFader.ts:66-78 | becomes the enqueue segment; refuses exactly at 1024 waiters or the last safe serial |
| FixtureFader.ContinuousFixtureFader.Cancel | app/src/continuousFixtureFader.ts:79 | becomes the cancel segment |
| FixtureFader.ContinuousFixtureFader.RunBegins | app/src/continuousFixtureFader.ts:18-20 | becomes the entry of `run`: fails under an old generation, else opens a stream or finishes |
| FixtureFader.ContinuousFixtureFader.StreamOpened | app/src/continuousFixtureFader.ts:22-39 | becomes the stream's first segment: sends the oldest pending write |
| FixtureFader.ContinuousFixtureFader.WaitEnded | app/src/continuousFixtureFader.ts:27-40 | becomes the end of the wait for input: throws under an old generation, returns when nothing came, else sends |
| FixtureFader.ContinuousFixtureFader.SendResolved | app/src/continuousFixtureFader.ts:40-43 | becomes the continuation of an acknowledged send, at most 512 of them in one stream |
| FixtureFader.ContinuousFixtureFader.SendRejected | app/src/continuousFixtureFader.ts:40-45 | becomes the failure of a send, which ends the stream |
| FixtureFader.ContinuousFixtureFader.TransportResolved | app/src/continuousFixtureFader.ts:45-51 | becomes the commit: resolves exactly the covered promises of the generation and goes on while anything is pending |
| FixtureFader.ContinuousFixtureFader.TransportRejected | app/src/continuousFixtureFader.ts:45-56 | becomes the rejection of `run` |
| FixtureFader.ContinuousFixtureFader.RunFailed | app/src/continuousFixtureFader.ts:56-60 | becomes the catch: clears pending only under the current generation, rejects exactly that generation's promises; what it may leave pending is `PendingIsExactly` |
| FixtureFader.ContinuousFixtureFader.RunEnded | app/src/continuousFixtureFader.ts:61-64 | becomes `finally`: restarts exactly when something is pending |
| EffectLane.ReportsIncrease | app/src/authoredEffectEnableController.ts:263-292 | the generations reported for one effect strictly increase over any run, so none is reported twice |
| EffectLane.ReportsAreTrue | app/src/authoredEffectEnableController.ts:259-291 | each report names the newest intent enqueued; applied only if the last server-accepted value is the desired one, A/B/A included; a failure carries the last accepted value |
| EffectLane.DispatchesAreNewestAndSerial | app/src/authoredEffectEnableController.ts:244-258 | only the newest intent is dispatched, and only while no other dispatch of the effect is out |
| EffectLane.AttemptsBounded | app/src/authoredEffectEnableController.ts:275-287 | no generation is dispatched more than `maxAttempts` times |
| EffectLane.LanesMatchHistory | app/src/authoredEffectEnableController.ts:243-250 | at most one dispatch in flight; `settledEnabled` is the last accepted value or the seed; a lane that is gone has its newest intent reported |
| EffectLane.AnswerMakesProgress | app/src/authoredEffectEnableController.ts:253-295 | each answer strictly lowers what the lane still needs, whatever the answer is |
| EffectLane.LaneDrains | app/src/authoredEffectEnableController.ts:243-297 | with nothing new enqueued for its effect, whatever happens to other effects, the lane ends after boundedly many of its own answers, removed from the map with its newest intent reported |
| EffectLane.NewestReportedExactlyOnce | app/src/authoredEffectEnableController.ts:263-292 | at rest the newest intent of an effect has exactly one report |
| EffectLane.EchoAfterClear | app/src/authoredEffectEnableController.ts:265-272 | clearing the reported intent before the observer's own enqueues equals the source's conditional clearing after them |
| EffectLane.RecordsFollowThePolicy | app/src/authoredEffectEnableController.ts:236-322 | over every run each segment records exactly what a policy that knows only the records so far demands: the lanes refine it |
| EffectLane.AcceptanceIsFollowedUp | app/src/authoredEffectEnableController.ts:255-273 | over every run an accepted value is followed at once by the applied report of the newest intent if that is what it desires, however often it changed in between, and else by its dispatch |
| EffectLane.RefusalIsFollowedUp | app/src/authoredEffectEnableController.ts:275-294 | over every run a refusal is followed at once by the dispatch of a newer intent, by a retry exactly on a stale fence with attempts left, and else by the report of the failure |
| EffectLane.NoDispatchAfterReport | app/src/authoredEffectEnableController.ts:263-294 | after a report nothing is sent for that effect until a new intent is queued |
| EffectLane.AuthoredEffectEnableController.Enqueue | app/src/authoredEffectEnableController.ts:300-323 | becomes the enqueue segment up to the first await, with its refusals |
| EffectLane.AuthoredEffectEnableController.DispatchSettled | app/src/authoredEffectEnableController.ts:253-295 | becomes the segment after a dispatch settles, up to the next await |
| EffectLane.AuthoredEffectEnableController.Fulfilled | app/src/authoredEffectEnableController.ts:259-274 | becomes the success branch: baseline, report, coalescing; what must follow is `AcceptanceIsFollowedUp` |
| EffectLane.AuthoredEffectEnableController.Rejected | app/src/authoredEffectEnableController.ts:275-294 | becomes the failure branch: superseded, retried, or reported |
| FaderValues.DisplayIsCoherent | app/src/createFaderValueController.ts:35-86 | over any interleaving no key is both optimistic and received, and each such key shows exactly that value |
| FaderValues.SnapshotNeverRepaints | app/src/createFaderValueController.ts:54-80 | one segment: a snapshot never changes what an optimistic key, or a received key before its deadline, shows |
| FaderValues.SnapshotCatchesUp | app/src/createFaderValueController.ts:57-78 | one segment: where nothing hides it a snapshot value is shown and the pins end |
| FaderValues.MidiYieldsToWrites | app/src/createFaderValueController.ts:35-46 | one segment: MIDI input changes nothing at all while a write slot exists, and otherwise shows every value it brings |
| FaderValues.WritesAreSerialPerKey | app/src/createFaderValueController.ts:88-121 | per key at most one write is unfinished, and writes start as an in-order subsequence of those enqueued, carrying their own values |
| FaderValues.PromisesSettleOnce | app/src/createFaderValueController.ts:97-104 | every promise is held by its key's slot, resolved or rejected, and exactly one of these |
| FaderValues.SettledForGood | app/src/createFaderValueController.ts:97-104 | one segment: settlements are never taken back |
| FaderValues.ResolvedIsServed | app/src/createFaderValueController.ts:102-105 | a resolved promise means a write to its key at least as new as its own completed |
| FaderValues.NewestWriteWins | app/src/createFaderValueController.ts:90-108 | when a key is quiet its newest write completed, unless its promise was rejected |
| FaderValues.WithoutFailureLastExecutedIsLastEnqueued | app/src/createFaderValueController.ts:90-108 | if no write fails, the last write executed for a quiet key is the last one enqueued |
| FaderValues.PinEndsExactlyWhenReleased | app/src/createFaderValueController.ts:35-126 | one segment: a pinned optimistic value ends in exactly the listed segments |
| FaderValues.PinHoldsTheDisplay | app/src/createFaderValueController.ts:62-73 | an unreleased pin holds the displayed value through any run |
| FaderValues.FailureDropsQueuedWrite | app/src/createFaderValueController.ts:95-100 | a failure rejects the queued newer write unexecuted and leaves its value pinned if and only if it differs from the failed one |
| FaderValues.FailedBurstLeavesAPin | app/src/createFaderValueController.ts:88-109 | a concrete run: two writes enqueued, the first fails, and the second is rejected unsent with its value pinned and no write left |
| FaderValues.DanglingIffDropped | app/src/createFaderValueController.ts:82-109 | in every run a value is pinned, not by the caller's own pin, with its write rejected and none live if and only if some failure of another value dropped it and nothing since released or replaced it |
| FaderValues.SnapshotMergesEveryCell | app/src/createFaderValueController.ts:56-78 | one segment: a merge acts on each key by itself, so the order of the snapshot's keys is irrelevant |
| FaderCells.ShowsItsCell | app/src/createFaderValueController.ts:35-126 | over every run each key shows, pins and projects exactly what a small automaton of that key alone says |
| FaderCells.WritesFollow | app/src/createFaderValueController.ts:88-121 | over every run an enqueue starts its write unless one of the key is live, a completed write is followed by the newest of its key or resolves all its promises, and a failed one rejects them all |
| FaderValues.FaderValueController.Enqueue | app/src/createFaderValueController.ts:111-121 | becomes the enqueue segment |
| FaderValues.FaderValueController.WriteSucceeded | app/src/createFaderValueController.ts:90-108 | becomes the drain loop's segment after a completed write |
| FaderValues.FaderValueController.WriteRejected | app/src/createFaderValueController.ts:95-108 | becomes the drain loop's segment after a failed write |
| FaderValues.FaderValueController.ApplyMidiInput | app/src/createFaderValueController.ts:35-46 | becomes the MIDI segment and reports whether it applied |
| FaderValues.FaderValueController.MergeSnapshotValues | app/src/createFaderValueController.ts:54-80 | the loop over the snapshot's keys becomes the snapshot segment |
| FaderValues.FaderValueController.ClearOptimistic | app/src/createFaderValueController.ts:82-86 | becomes the clear segment |
| NavigationLedger.RestoresOnlyLiveRoutes | app/src/createWorkspaceNavigationController.ts:84-101 | restore is called only with the route the shown history entry was created with, under its still current token and in the present project; a truncated branch whose index was reused is never restored |
| NavigationLedger.OnlyPopStateRestores | app/src/createWorkspaceNavigationController.ts:60-125 | no other segment calls restore |
| NavigationLedger.RouteIsRecorded | app/src/createWorkspaceNavigationController.ts:60-125 | over every run a route that is not the current one of its project becomes exactly that, under a fresh token, above the entry shown; entries below are kept save for the new project's boundary, those above dropped; repeating it, or any route after disposal, changes nothing |
| NavigationLedger.PopStateDecides | app/src/createWorkspaceNavigationController.ts:67-101 | over every run a popstate of another entry is ignored, one of the current entry ends a repair, another route of the project is offered and becomes current if accepted, and any other readable entry is left again by the way back |
| NavigationLedger.ReadsTheLatest | app/src/createWorkspaceNavigationController.ts:47-54 | one segment: a state is read exactly when it is the latest written for an index still in the ledger |
| NavigationLedger.DisposedIsInert | app/src/createWorkspaceNavigationController.ts:84-131 | one segment: after disposal nothing is restored, recorded or requested |
| NavigationLedger.RepairAimsAtCurrent | app/src/createWorkspaceNavigationController.ts:67-83 | every traversal requested leads from the present position to the entry considered current |
| NavigationLedger.RepairCompletes | app/src/createWorkspaceNavigationController.ts:81-90 | once that traversal has landed on the current entry, whatever came between, the popstates then waiting end the repair there with no restore and the current entry unchanged |
| NavigationLedger.RepairLandsIff | app/src/createWorkspaceNavigationController.ts:67-101 | whatever happens short of disposal between the request of a traversal and its landing, it ends at the current entry if and only if that entry was not recorded anew and the browser was moved by nothing on balance, or the two shifts cancel, or it leads nowhere while the current entry is shown |
| NavigationLedger.RequestedRepairLands | app/src/createWorkspaceNavigationController.ts:42-125 | the same for every traversal requested in any run from mounting |
| NavigationLedger.StaleRepairHarmlessIffForward | app/src/createWorkspaceNavigationController.ts:81-125 | a route change recorded while one repair is outstanding survives its landing if and only if the repair leads forward |
| NavigationLedger.RepairMissesIfUserMoves | app/src/createWorkspaceNavigationController.ts:81-101 | after a second traversal by the user the outstanding repair still ends at the current entry if and only if the user went to that entry and the repair now leads out of the history |
| NavigationLedger.LateRepairUndoesARoute | app/src/createWorkspaceNavigationController.ts:81-125 | a concrete run in which a late repair lands on another entry, restore is called for it and a recorded route change is undone |
| NavigationLedger.RestsAtCurrent | app/src/createWorkspaceNavigationController.ts:67-125 | over every run, whenever no requested traversal and no popstate is outstanding, the browser shows the current entry |
| NavigationLedger.UnknownEntryIsTakenOver | app/src/createWorkspaceNavigationController.ts:69-80 | an unknown entry is overwritten, the current route is pushed above it, and lockstep is re-established |
| NavigationLedger.LockstepUnlessPushedBlind | app/src/createWorkspaceNavigationController.ts:60-125 | from lockstep, a segment keeps every ledger entry at its browser position with its latest token if and only if it does not record a route change at an unreadable entry |
| NavigationLedger.LockstepRun | app/src/createWorkspaceNavigationController.ts:42-125 | lockstep over every run without such a route change |
| NavigationLedger.LockstepIffIntact | app/src/createWorkspaceNavigationController.ts:42-125 | over every run short of disposal, lockstep holds if and only if no route change was recorded at an unreadable entry since the last take-over of an unknown entry |
| NavigationLedger.UnreadableIsAnnounced | app/src/createWorkspaceNavigationController.ts:47-125 | over every run, an unreadable entry is shown only while its own popstate is the last one waiting |
| NavigationLedger.LockstepUnlessOvertaken | app/src/createWorkspaceNavigationController.ts:42-125 | lockstep over every run that records no route change while a popstate is waiting |
| NavigationLedger.LockstepCanBreak | app/src/createWorkspaceNavigationController.ts:103-125 | a concrete run that breaks it |
| NavigationLedger.WorkspaceNavigation.PushRoute | app/src/createWorkspaceNavigationController.ts:60-66 | truncates the ledger above the new index, enters the route and pushes its token |
| NavigationLedger.WorkspaceNavigation.Read | app/src/createWorkspaceNavigationController.ts:47-54 | recognizes exactly this session's states whose index is live under that token |
| NavigationLedger.WorkspaceNavigation.RepairTo | app/src/createWorkspaceNavigationController.ts:67-83 | becomes the repair of the specification |
| NavigationLedger.WorkspaceNavigation.HandlePopState | app/src/createWorkspaceNavigationController.ts:84-101 | becomes the popstate segment |
| NavigationLedger.WorkspaceNavigation.RouteChanged | app/src/createWorkspaceNavigationController.ts:103-125 | becomes the route and epoch effect; what it must record is `RouteIsRecorded` |
| NavigationLedger.WorkspaceNavigation.Cleanup | app/src/createWorkspaceNavigationController.ts:126-131 | becomes the disposal segment |
| DmxApply.HeadIsSafe | app/src/applyDmxUniverseTable.ts:90-97 | stops, releases and binds are safe at every point, stop exactly the universes to stop, and leave exactly the planned bindings, cable swaps included |
| DmxApply.PlanIsSafeAndMet | app/src/applyDmxUniverseTable.ts:62-104 | at every intermediate state no cable serves two universes, nothing active is released or rebound, only bound universes are started; after all stages the plan is met |
| DmxApply.SuccessMeetsPlan | app/src/applyDmxUniverseTable.ts:89-104 | if every stage succeeds exactly the listed universes are bound, each as its row asks, exactly the enabled ones run, and the routes are the planned ones |
| DmxApply.FailureLeavesAPrefix | app/src/applyDmxUniverseTable.ts:42-49 | on failure the completed stages are a prefix of the planned list and the device is where they lead, or one stage further |
| DmxApply.ExecuteStops | app/src/applyDmxUniverseTable.ts:42-49 | whatever the outcomes, the runner completes all stages or stops at the first that fails |
| DmxApply.NothingToDoIsMet | app/src/applyDmxUniverseTable.ts:85-88 | a plan with nothing to do is already met |
| DmxApply.ReapplyRunsNothing | app/src/applyDmxUniverseTable.ts:58-88 | applying the same plan to a device that meets it runs no stage: one direction of what `ReapplyDecides` decides |
| DmxApply.ReapplyDecides | app/src/applyDmxUniverseTable.ts:50-88 | re-applying an admitted plan to a device that meets it finds nothing to do if and only if the project is current, the reading fresh, no old route runs, and every cable of an unlisted universe has settled; otherwise it is rejected |
| DmxApply.StoppingNeedsBlackout | app/src/applyDmxUniverseTable.ts:65-68 | no stage of an accepted plan stops a universe unless the safety blackout is engaged |
| DmxApply.OnlySettledCablesChange | app/src/applyDmxUniverseTable.ts:70-84 | a universe about to change whose cable is not stopped has finished its shutdown, recovers a fault only under blackout, and restarts an old binding only if its device is present |
| DmxDecision.GoesAheadIff | app/src/applyDmxUniverseTable.ts:50-88 | an apply goes ahead if and only if the project is current, the reading fresh, no old route runs, the plan admissible, every universe it changes ready, and something differs; it finds nothing to do exactly when only the last fails |
| DmxDecision.ValidIffAdmissible | app/src/dmxUniverseTable.ts:26-62 | the validated plan is valid exactly if it has at most four distinct universes in range, each with a cable of its own, and every cable that leaves its universe is free to |
| DmxDecision.RefusedForItsReason | app/src/applyDmxUniverseTable.ts:50-84 | each refusal has the reason it names, the reasons naming no universe are given whenever they hold, and one naming a universe exactly when an accepted plan changes one that is not ready |
| DmxDecision.BlackoutCheckIsRedundant | app/src/applyDmxUniverseTable.ts:63-68 | the second blackout check never refuses: a valid plan stops a cable only under blackout |
| DmxDecision.StagesAreAsked | app/src/applyDmxUniverseTable.ts:62-104 | an accepted plan stops, releases, binds and starts exactly the universes the plan changes in that way, after the authority and before the refresh |
| DmxApply.TableApply.Run | app/src/applyDmxUniverseTable.ts:42-49 | one stage: project check, operation, record, project check |
| DmxApply.TableApply.Apply | app/src/applyDmxUniverseTable.ts:35-104 | a rejection or an empty plan runs nothing; otherwise the loops execute the planned list in order up to the first failure; which of these it is is `DmxDecision.GoesAheadIff` |
| AudioMapping.SmoothStaysBetween | app/src/audioControlMapping.ts:103-106 | a smoothed level lies between the previous level and the new signal |
| AudioMapping.MappingValueInRange | app/src/audioControlMapping.ts:107-109 | a mapped value lies between `low` and `high`, whichever is larger |
| AudioMapping.EveryRun | app/src/audioControlMapping.ts:129-180 | the invariant of source and evaluator together: the evaluator reads nothing newer than the source holds, and each memory is what the newest sample of that mapping left |
| AudioMapping.FiresOncePerPublication | app/src/audioControlMapping.ts:139-177 | two firings of one mapping anywhere in a run answer different publications, the later one newer in (generation, sequence) |
| AudioMapping.FiresOnlyAfterABaseline | app/src/audioControlMapping.ts:155-172 | a firing follows a sample of the same configuration and generation from an older publication, and is an onset or a rise over the threshold |
| AudioMapping.ThresholdRearms | app/src/audioControlMapping.ts:163-171 | between two threshold firings with no baseline of that mapping in between, some new publication had a level of at most max(0, threshold - 0.05) |
| AudioMapping.LevelsStayUnit | app/src/audioControlMapping.ts:96-106 | every smoothed level of a run lies in [0, 1] |
| AudioMapping.ContinuousValuesStayInRange | app/src/audioControlMapping.ts:152-169 | every value sent to the runtime lies in the authored range of its mapping |
| AudioMapping.TriggersAreTheFirings | app/src/audioControlMapping.ts:170-179 | the triggers of an evaluation are its firings, Takes after the others |
| AudioMapping.TakesLastSorts | app/src/audioControlMapping.ts:178 | the sort loses and invents no trigger and puts no Take before another trigger |
| AudioMapping.UnknownMappingsDoNotFire | app/src/audioControlMapping.ts:139-171 | no firing without a memory of exactly the present configuration and generation: first read, reset, restart, edit |
| AudioMapping.RefusedReadForgets | app/src/audioControlMapping.ts:132-138 | a suspended, missing, stopped, stale or expired read returns nothing and forgets everything |
| AudioMapping.LeaseRunsFromFirstPublication | app/src/audioControlRuntime.ts:19-29 | the observation held is timed by the first arrival of that publication; polling it again never renews it |
| AudioMapping.ClearedStaysCleared | app/src/audioControlRuntime.ts:16-29 | a source that was cleared or stopped holds nothing again until a publication newer than all before arrives, and is timed by that arrival |
| AudioMapping.HeldOrNewer | app/src/audioControlRuntime.ts:18-29 | an event changes what is held only by a newer usable publication or by clearing, and refills an empty source exactly then |
| AudioReading.EveryReadAnswers | app/src/audioControlMapping.ts:129-180 | over every run a read samples each heeded mapping once with its level, hysteresis and edge, fires exactly on a new publication's edge after a baseline, sends its continuous values and firings, and remembers exactly what it sampled; an unusable or older reading returns nothing |
| AudioReading.ChosenAreDistinct | app/src/audioControlMapping.ts:149-153 | the mappings heeded are well set, no identity twice, and none left out |
| AudioReading.ValueFollowsLevel | app/src/audioControlMapping.ts:107-109 | a value is `low` at level 0 and `high` at level 1, proportional and monotone in between |
| AudioReading.SmoothingTakesItsShare | app/src/audioControlMapping.ts:103-106 | a rise covers the share its attack gives and a fall the share its release gives, all of the way at once when that is zero |
| AudioMapping.AudioMappingSource.AcceptFrame | app/src/audioControlRuntime.ts:19-29 | becomes the accept of the specification |
| AudioMapping.AudioMappingEvaluator.Read | app/src/audioControlMapping.ts:129-180 | becomes one evaluation, with its batch and triggers |
| AudioMapping.AudioMappingEvaluator.VisitMappings | app/src/audioControlMapping.ts:149-176 | the loop over the mappings does what the specification's fold does |
| OutputMonitor.AtMostOneReadback | app/src/createTimelineOutputMonitorController.ts:126-192 | at most one readback is outstanding, and the flag says when |
| OutputMonitor.OneStartPerSlot | app/src/createTimelineOutputMonitorController.ts:141-149 | each start takes the slot of its time, and start slots strictly increase |
| OutputMonitor.StartsFitTheWindow | app/src/createTimelineOutputMonitorController.ts:75-149 | any window of time sees at most slotAt(t2) - slotAt(t1) + 1 starts, so missed slots are never made up for |
| OutputMonitor.StartsTwoSlotsApart | app/src/createTimelineOutputMonitorController.ts:135-150 | starts of one entry, through all its configurations, are at least two slots apart |
| OutputMonitor.LineageKeptIffListed | app/src/createTimelineOutputMonitorController.ts:195-236 | a reconciliation keeps the entry of an output, in any configuration, if and only if it stays in the project and lists the output |
| OutputMonitor.StartsApartWhileListed | app/src/createTimelineOutputMonitorController.ts:135-236 | two starts of one output are of one entry if and only if every reconciliation between them stayed in the project and listed it, and then they are at least two slots apart |
| OutputMonitor.CloseStartsNeedADrop | app/src/createTimelineOutputMonitorController.ts:135-236 | starts closer than two slots have a reconciliation between them that dropped the output or changed the project |
| OutputMonitor.LineageSurvivesReconfiguration | app/src/createTimelineOutputMonitorController.ts:195-236 | a reconciliation to the same project keeps lineage and due slot of every output it still lists, whatever its new configuration |
| OutputMonitor.DroppedOutputRestartsAtOnce | app/src/createTimelineOutputMonitorController.ts:215-235 | a concrete run in which an output removed and listed again starts in the next slot |
| OutputMonitor.NeverLeftWithoutATimer | app/src/createTimelineOutputMonitorController.ts:118-125 | while some output can become due, an active idle monitor has its timer armed no later than a millisecond after that output is ready |
| OutputMonitor.OnTimeTimerStarts | app/src/createTimelineOutputMonitorController.ts:118-150 | a timer that does not fire early starts exactly one request |
| OutputMonitor.SelectedWithinOneRound | app/src/createTimelineOutputMonitorController.ts:130-141 | whatever the timer does, with a fixed order an output eligible at every firing is selected within order.length selecting firings |
| OutputMonitor.SelectionStartsIffSlotUnused | app/src/createTimelineOutputMonitorController.ts:130-150 | in any run a selection starts its output if and only if no request was started in the slot of that firing, and otherwise nothing starts |
| OutputMonitor.OnTimeFindsSlotUnused | app/src/createTimelineOutputMonitorController.ts:118-149 | a firing that is not early finds its slot unused |
| OutputMonitor.ServedWithinOneRound | app/src/createTimelineOutputMonitorController.ts:130-150 | the two together: within order.length selecting firings such an output is selected, and that firing starts it if and only if its slot is unused, in particular if it is not early |
| OutputMonitor.EarlyTimerLosesATurn | app/src/createTimelineOutputMonitorController.ts:130-149 | a concrete run of three outputs in which a firing a third of a millisecond early spends the turn of the second and the next firing, on time, starts the third in its place |
| OutputMonitor.ShownPictureIsCurrent | app/src/createTimelineOutputMonitorController.ts:144-250 | every picture shown answers a request of the present entry, size, activation and project, and a monitor in error shows none |
| OutputMonitor.RetiredReplyChangesNothing | app/src/createTimelineOutputMonitorController.ts:145-192 | the reply to a retired request changes no entry and no monitor, and frees the readback |
| OutputMonitor.FailureWaits | app/src/createTimelineOutputMonitorController.ts:181-188 | a failure clears the picture and leaves the output ineligible for 250 ms and eligible again within 4000 ms |
| OutputMonitor.FailureWaitsUnlessHastened | app/src/createTimelineOutputMonitorController.ts:181-258 | over any run, an output that failed is not started before its back-off has passed unless an event in between hastened it: a retry, or a reconciliation that drops, reconfigures, activates or deactivates it |
| OutputMonitor.HastenedIsReleased | app/src/createTimelineOutputMonitorController.ts:195-258 | each of those events does end the wait: afterwards the output is due at once, has no usable size, or is gone |
| OutputMonitor.BackoffBounds | app/src/createTimelineOutputMonitorController.ts:184 | the back-off starts at 250 ms and doubles up to 4000 ms |
| OutputMonitor.MonitorSizeFits | app/src/createTimelineOutputMonitorController.ts:49-53 | a size exists exactly for positive safe dimensions, fits 320 by 180, and never exceeds the authored size |
| OutputDisplay.ReplyDecides | app/src/createTimelineOutputMonitorController.ts:145-192 | over every run a reply still awaited shows its picture, holds the one shown, or fails the output, exactly by what the packet is; one no longer awaited changes nothing; no other output changes |
| OutputDisplay.ShowsTheLatest | app/src/createTimelineOutputMonitorController.ts:105-250 | over every run entry and monitor of each output show exactly the latest usable picture of its present entry and activation, unless it failed, expired or was retired since |
| OutputDisplay.ReconciledAsListed | app/src/createTimelineOutputMonitorController.ts:195-250 | over every run a reconciliation leaves exactly the listed outputs, unchanged ones with their entry, others configured anew, each labelled by size, activation and picture |
| OutputDisplay.RequestsItsEntry | app/src/createTimelineOutputMonitorController.ts:142-156 | over every run a request is for the output started, in the size and for the entry and generation it has then |
| OutputDisplay.ExpiryDropsTheOld | app/src/createTimelineOutputMonitorController.ts:105-115 | one segment: an expiry drops exactly the pictures a second old or more |
| OutputDisplay.RetryForgetsFailures | app/src/createTimelineOutputMonitorController.ts:252-258 | one segment: a retry clears the errors and makes every output of a size due |
| OutputDisplay.DisposedShowsNothing | app/src/createTimelineOutputMonitorController.ts:261-269 | after disposal nothing is shown, armed or started, whatever still arrives |
| OutputDisplay.SizeKeepsAspect | app/src/createTimelineOutputMonitorController.ts:49-53 | a size within 320 by 180 is kept; of any other the side longer for its bound is brought to the bound and the other scaled with it to the nearest pixel |
| OutputMonitor.TimelineOutputMonitorController.Arm | app/src/createTimelineOutputMonitorController.ts:118-125 | the loop over the entries arms the timer the specification says |
| OutputMonitor.TimelineOutputMonitorController.TimerFired | app/src/createTimelineOutputMonitorController.ts:126-150 | becomes the timer segment up to the request |
| OutputMonitor.TimelineOutputMonitorController.Choose | app/src/createTimelineOutputMonitorController.ts:131-140 | the search loop finds the first eligible position from the cursor |
| OutputMonitor.TimelineOutputMonitorController.ReplyArrived | app/src/createTimelineOutputMonitorController.ts:151-192 | becomes the continuation of a request, success, busy or failure; which of these, and what is shown, is `OutputDisplay.ReplyDecides` |
| OutputMonitor.TimelineOutputMonitorController.OutputsChanged | app/src/createTimelineOutputMonitorController.ts:195-250 | becomes the reconciliation with the authored outputs |
| OutputMonitor.TimelineOutputMonitorController.ExpireFrames | app/src/createTimelineOutputMonitorController.ts:105-115 | becomes the expiry of pictures past their deadline |
| OutputMonitor.TimelineOutputMonitorController.RetryNow | app/src/createTimelineOutputMonitorController.ts:252-258 | becomes the retry segment |
| OutputMonitor.TimelineOutputMonitorController.CleanUp | app/src/createTimelineOutputMonitorController.ts:261-269 | becomes the disposal segment |
| BeatScheduler.EachBoundaryFiresOnce | app/src/controlMappingPerform.ts:90-94 | between restarts two firings of a division answer different boundaries, the later one further on, whatever jitter and overshoot |
| BeatScheduler.FiresAreBoundaries | app/src/controlMappingPerform.ts:232-255 | between restarts a division fires at most floor(last/d) - floor(first/d) times, with equality if and only if no move was suspended, over four beats or over two boundaries |
| BeatScheduler.SmallStepsFireEveryBoundary | app/src/controlMappingPerform.ts:90-94 | equality when every step is unsuspended and at most min(d, 4) |
| BeatScheduler.DispatchesEachFiring | app/src/controlMappingPerform.ts:243-254 | a suspended move dispatches nothing, any other each input once per mapping that fires it |
| BeatScheduler.DispatchedIsAskedFor | app/src/controlMappingPerform.ts:127-180 | whatever is dispatched is a usable trigger target that some beat mapping of an offered division asked for |
| BeatScheduler.MappingFollowsItsDivision | app/src/controlMappingPerform.ts:243-249 | a beat mapping with a usable target is dispatched in every move that offers its division |
| BeatScheduler.TakesComeLast | app/src/controlMappingPerform.ts:250-253 | within one tick every Take is dispatched after everything else |
| BeatScheduler.JitterIsIgnored | app/src/controlMappingPerform.ts:237-240 | a step back of less than a beat fires nothing, restarts nothing and keeps the latest position |
| BeatScheduler.RestartsIffPassedByABeat | app/src/controlMappingPerform.ts:211-240 | in any run, a position restarts the clock if and only if some position fed earlier in the segment, observed, extrapolated or ticked, lies at least a beat past it |
| BeatScheduler.ForwardObservationRestartsIffOvershot | app/src/controlMappingPerform.ts:211-240 | where observations only move forward, a new one restarts the clock if and only if an extrapolation or outside tick of the segment ran at least a beat past it |
| BeatScheduler.NoRestartIffSlow | app/src/controlMappingPerform.ts:226-240 | no forward run at tempos up to b restarts the clock if and only if b is at most 80 BPM (below 80 when a new reading may repeat the position) |
| BeatScheduler.NoRefireIffSlow | app/src/controlMappingPerform.ts:226-249 | no boundary fires twice in any uninterrupted forward run at tempos up to b if and only if the same bound holds |
| BeatScheduler.SlowRunsNeverRestart | app/src/controlMappingPerform.ts:226-240 | within that bound no move of a forward run, ticks and resets included, is a restart |
| BeatScheduler.FallBackRefires | app/src/controlMappingPerform.ts:226-240 | from 80 BPM up, a run given for every tempo restarts and fires one boundary twice |
| BeatScheduler.OvershootCanRefire | app/src/controlMappingPerform.ts:226-240 | a concrete run at 120 BPM in which one boundary fires again after a restart caused by overshoot |
| BeatScheduler.RepeatedClockHoldsTheAnchor | app/src/controlMappingPerform.ts:219-230 | a repeated snapshot changes nothing, and extrapolation stops after 750 ms |
| BeatHistory.MovesFollow | app/src/controlMappingPerform.ts:211-256 | over every run each event that feeds a position makes one move to it from the position before and sends exactly what the mappings ask of that move, in their order, Takes last |
| BeatHistory.AnchorIsTheNews | app/src/controlMappingPerform.ts:211-224 | over every run the clock extrapolated is the latest one heard, timed by its first hearing, at its tempo if that makes sense |
| BeatHistory.HighestSoFar | app/src/controlMappingPerform.ts:232-240 | the position before a move is the highest fed since the clock was last lost or restarted |
| BeatHistory.CrossedIffBetween | app/src/controlMappingPerform.ts:90-94 | a division is crossed exactly if the position moved on by at most four beats and passed a multiple of it |
| BeatHistory.DivisionsDouble | app/src/controlMappingPerform.ts:68-77 | division n lasts 2 to the n quarter beats, for n from 0 to 7 |
| BeatHistory.InputIsAsked | app/src/controlMappingPerform.ts:127-180 | a mapping asks for its own target exactly if it is a beat mapping of an action that fires once, with valid identities and a group exactly for group actions |
| Prelude.MoveToEndIsStable | app/src/controlMappingPerform.ts:250-253 | moving the Takes to the end keeps the order of the Takes and of everything else |
| BeatScheduler.BeatTriggerScheduler.Recall | app/src/controlMappingPerform.ts:211-224 | becomes the observation of a snapshot's clock |
| BeatScheduler.BeatTriggerScheduler.AdvanceTo | app/src/controlMappingPerform.ts:226-230 | becomes the extrapolation to now |
| BeatScheduler.BeatTriggerScheduler.TickTo | app/src/controlMappingPerform.ts:232-255 | becomes one tick, returning what it dispatches |
| BeatScheduler.BeatTriggerScheduler.Collect | app/src/controlMappingPerform.ts:244-249 | the loop over the mappings collects what is due, in order |
| FixtureProfile.RoundTripIffWellFormed | app/src/customFixtureProfile.ts:124-259 | drafts survive printing and parsing if and only if each name is trimmed and comma-free, has no `@` when its start is empty, and each start is empty or a canonical 1..512 |
| FixtureProfile.ParseOfPrint | app/src/customFixtureProfile.ts:237-259 | parsing the printed text of well-formed drafts gives exactly those drafts |
| FixtureProfile.PrintedDraftIsAccepted | app/src/customFixtureProfile.ts:156-177 | a printed well-formed draft is read without error unless it has no name |
| FixtureProfile.AtWithoutStartIsLost | app/src/customFixtureProfile.ts:131-148 | a name with an `@` and no start is read back as what precedes its last `@` |
| FixtureProfile.ReformatStableIff | app/src/customFixtureProfile.ts:237-259 | reading, printing and reading a text again is stable if and only if no attribute read has an `@` in its name and no start |
| FixtureProfile.ReformatCanChangeTheName | app/src/customFixtureProfile.ts:131-148 | a concrete text whose attribute name changes |
| FixtureProfile.PlacementIsSound | app/src/customFixtureProfile.ts:181-228 | for any text the channels given are pairwise disjoint and in 1..512, the footprint is their maximum, the next implicit channel follows it, and every nonempty piece yields exactly one control or one error |
| FixtureProfile.FootprintErrorUnreachable | app/src/customFixtureProfile.ts:230-234 | the final check of the footprint against 512 never fires |
| FixtureProfile.ImplicitPlacementOnlyExhausts | app/src/customFixtureProfile.ts:205-227 | an attribute without a start gets the channels after the footprint exactly when they exist, and never overlaps |
| FixtureProfile.AllocateDecides | app/src/customFixtureProfile.ts:205-217 | an attribute is placed exactly when all its channels are in range and free |
| FixtureProfile.NamesAreDistinct | app/src/customFixtureProfile.ts:199-204 | accepted names differ under case folding |
| FixtureProfile.PrefixesStand | app/src/customFixtureProfile.ts:189-228 | the controls and errors of the first pieces are a prefix of those of the whole text |
| FixtureProfile.LabelIsTheAllocation | app/src/customFixtureProfile.ts:261-268 | a channel label names the channels the whole list gives the last piece of that draft, and is pending exactly when a piece up to it is in error, for any drafts |
| FixtureProfile.LastPieceIsOwnIff | app/src/customFixtureProfile.ts:251-268 | that piece has the draft's own position if and only if each draft up to it is printed as one piece, as drafts without commas are |
| ProfileReading.PieceMeansItsShape | app/src/customFixtureProfile.ts:114-178 | every piece is read as its shape says: the name before the last `@`, else before the last `:`, a start as a channel of 1..512, a resolution whatever its case and hyphens, and the first of its faults |
| ProfileReading.EveryPieceHasAShape | app/src/customFixtureProfile.ts:124-155 | every text has one of these shapes |
| ProfileReading.PieceFate | app/src/customFixtureProfile.ts:189-228 | every piece of every text is refused for the first reason that holds, its own fault, a name used before, the universe's end, the lowest channel taken, or else placed where it says or after the highest channel given so far |
| FixtureProfile.PreviewText | app/src/customFixtureProfile.ts:181-235 | the loop over the pieces computes the specified preview |
| ChaserOrder.NextStateIsLinearCongruential | app/src/chaserDraft.ts:157 | the 32-bit multiply, add and shift together are the generator modulo 2^32 |
| ChaserOrder.EveryCycleIsAPermutation | app/src/chaserDraft.ts:151-164 | every cycle of a Random order plays every step exactly once |
| ChaserOrder.ShuffleDraws | app/src/chaserDraft.ts:156-160 | the in-place shuffle equals drawing without replacement from the end |
| ChaserOrder.ShuffleInPlace | app/src/chaserDraft.ts:156-160 | the swapping loop leaves the specified order in the array and returns the generator state |
| ChaserOrder.SeededStepOrder | app/src/chaserDraft.ts:151-164 | the cycles carry the generator state on and concatenate to the specified order |
| ChaserOrder.BounceMovesByOne | app/src/chaserDraft.ts:174-176 | played in a circle a Bounce order moves to a neighbouring step every time |
| ChaserOrder.BounceShape | app/src/chaserDraft.ts:174-176 | it climbs to the last step and comes back without repeating either end |
| ChaserOrder.EveryOrderCoversTheSteps | app/src/chaserDraft.ts:166-180 | every order plays every step and nothing else |
| ChaserOrder.OrderOfEachDirection | app/src/chaserDraft.ts:151-180 | the order of each direction, position by position; a Random order is made of cycles, each drawn where the cycles before left the generator |
| ChaserOrder.PreviewIndexIsAStep | app/src/chaserDraft.ts:182-192 | a preview names an existing step exactly when there is one |
| ChaserOrder.PhasePicksItsShare | app/src/chaserDraft.ts:190 | a phase picks the position whose share of the order it falls into |
| ChaserOrder.FullPhaseWraps | app/src/chaserDraft.ts:190 | a full phase wraps to the first position |
| ChaserOrder.ActiveWindow | app/src/chaserDraft.ts:208-216 | the walk back returns exactly min(requested, distinct) different steps, and they are exactly those of the last so many positions, newest first |
| ChaserOrder.WindowIsUnique | app/src/chaserDraft.ts:208-216 | the windows of one position are nested, so their size determines them |
| ChaserOrder.BuildUpIs | app/src/chaserDraft.ts:200-207 | at every position exactly the steps up to it are on while they build up, and those after it while they clear |
| ChaserOrder.BuildUpChangesOneStep | app/src/chaserDraft.ts:200-207 | at every position, negative and around the end included, moving on turns exactly one step on or off |
| ChaserOrder.RemainderWraps | app/src/chaserDraft.ts:203 | the double truncated remainder is the position modulo the order's length |
| BankAuthority.NoIssueIffIntact | app/src/bankAuthority.ts:53-185 | no issue is reported if and only if all identities are valid and unique and every Cue, active Cue and executor reference resolves to its own Bank |
| BankFaults.IssueIsTheFirstFlaw | app/src/bankAuthority.ts:53-185 | whatever issue is reported says exactly what is wrong with the first row, in the order of the passes, that has anything wrong |
| BankFaults.FaultIs | app/src/bankAuthority.ts:65-174 | a row is at fault with an issue exactly if what the issue says of it is true |
| BankAuthority.TableIsTheRows | app/src/bankAuthority.ts:61-145 | with unique valid identities a lookup table is exactly the rows |
| BankAuthority.FirstIndexIsFirst | app/src/bankAuthority.ts:71-77 | the first index reported with a duplicate is that of the first such row |
| BankAuthority.Inspect | app/src/bankAuthority.ts:53-185 | the four passes report the first fault of all, the tables keep the first row of each valid identity, and no issue means an intact authority |
| BankAuthority.InspectBanks | app/src/bankAuthority.ts:65-79 | the loop over Banks reports the first fault and fills the table |
| BankAuthority.InspectCues | app/src/bankAuthority.ts:82-110 | the loop over Cues goes on from the Banks' verdict and fills the table |
| BankAuthority.InspectActiveCues | app/src/bankAuthority.ts:112-142 | the loop over active Cues goes on from that |
| BankAuthority.InspectExecutors | app/src/bankAuthority.ts:146-174 | the loop over executors goes on from that and fills the table |
| BankAuthority.SelectionIsExact | app/src/bankAuthority.ts:218-228 | a Bank is selected only from an intact authority: the one row with the asked identity, or the first row when none is asked |
| BankAuthority.GenerationCountsChanges | app/src/bankAuthority.ts:272-281 | the fence's generation counts the token changes observed, and one more than the largest safe integer exhausts it for good |
| BankAuthority.CurrentIffNothingChanged | app/src/bankAuthority.ts:282-297 | a capture is current if and only if the fence is not exhausted, project and token agree, and no change at all was observed since |
| BankAuthority.ReturningTokenDoesNotRevive | app/src/bankAuthority.ts:263-297 | a token that leaves and comes back does not revive a capture |
| BankAuthority.DelayFence.Note | app/src/bankAuthority.ts:272-281 | becomes one observation and reports whether it was a change |
| BankAuthority.DelayFence.StillCurrent | app/src/bankAuthority.ts:287-296 | decides the specified currency |
| BankAuthority.NextBankAuthorityId | app/src/bankAuthority.ts:299-309 | the next identity is valid, unused and one more than the largest; there is none exactly when some identity is invalid or the largest is the last |

## Left out

- Continuous fader: the 120 ms wait and the two-second budget are free choices of the environment; the transport is taken to call the stream once and to answer after the stream has ended, as app/src/projectTransactionMutationController.ts does.
- Effect lanes: an `onQueued` observer that itself enqueues, observers that throw, and the fence, receipt and validation code of the first 227 lines.
- Fader values: values that are not numbers, and writes to the displayed values by code outside the controller.
- Navigation: writers of same-document history other than this controller, traversals that leave the document, and the difference between an absent and an undefined route property.
- DMX apply: network payloads beyond equality, serial-identity completeness, persistence errors and draft freshness (together one refusal bit); case folding of port names outside ASCII; the read-only refresh after a failed apply.
- DMX apply: the device is taken to be as the status reports it when the apply starts, and to change only through the stages.
- Audio mappings: the dispatch of batches and triggers with their leases, the 50 ms pacing and the project-epoch reset of app/src/audioControlRuntime.ts, which act on the evaluator only through `reset`; exp is an arbitrary factor in [0, 1).
- Output monitor: frames per second, packet decoding, sequence and timing fields, message texts, and the arming of the expiry timer (expiry may happen at any moment).
- Beat triggers: inputs that arrive from the native worker, the label helpers and the selector index.
- FixtureProfile.RoundTripIffWellFormed: Number() on texts that are not all digits is a parameter; lower case matters to resolutions only in ASCII.
- Custom profiles: the geometry name of an attribute, templates, and the number formatting and geometry rows of the same file.
- ChaserOrder.ActiveWindow: positions are those of the order or later; callers pass a position of the order. Requested counts are integers.
- Chaser drafts: validation messages, targets, wings and levels.
- BankAuthority.NoIssueIffIntact: identities are integers, so an identity with a fraction is not represented.
- Bank authority: message texts; the semantic token is any value compared for equality.
- Floating-point rounding everywhere.
