# Video server lifecycles: a verified model

A Dafny model of the parts of the video server that keep several indexes, counters and records in
agreement while commands, start threads, a maintenance thread and callbacks interleave: the analysis
lifecycle with its write-ahead log, the videocard balancer, the shared video sources with their
receivers and retranslators, the archive recorder, the video assembler, and the HLS playlist text that
archives are repaired from.

Each component comes in up to four layers:

- a model (`...Model.dfy`): the state as a datatype, one function for each critical section, events,
  runs as sequences of events, and what a legal caller does;
- proofs (`...Runs.dfy` and the files beside it): what every run keeps, and for each property that the
  code does not always keep, exactly which steps break it. Such results have the form "the property
  holds after every step if and only if every step met this condition";
- runs that reach the exceptions (`...Counterexamples.dfy`), so that the failing side of those results is
  not empty;
- classes (`Balancer.dfy`, `AnalyticManager.dfy`, `VideoSource.dfy`, `SourceManager.dfy`,
  `VideoRecorder.dfy`, `VideoAssembler.dfy`, `ArchivePlaylists.dfy`): the source's methods, with its
  fields, loops and erase-while-iterating, each proved to do to the fields what the model's function
  does to the state.

One event of a run is one critical section, so interleavings between critical sections are covered.
Where objects are shared through pointers (cards, analyzers, assembled videos) the model is generic in
the type of a reference, and the classes instantiate it with heap objects.

`dafny verify dfyconfig.toml` checks everything.

## What the code does not keep

These are stated as theorems; the code is modelled as it is, except where "Left out" says otherwise.

- Balancer: the traversal has no `break`, so a grant joins every card with room
  (`BalancerRuns.ExactAllocation`, `BalancerCounterexamples.GrantJoinsTwoCards`); releasing one card erases
  all cards of its profile from the index (`BalancerRuns.CardsStayIndexed`,
  `BalancerCounterexamples.SiblingBecomesUnfindable`); a second return of an id can touch a deleted card
  (`BalancerRuns.SecondReturnUnsafe`).
- Analysis: an entry can stay in the log for ever if a start fails before its command opens the entry, or if a
  stop finds an empty source address (`AnalysisRuns.LogExactThroughout`, `AnalysisRuns.FailureBeforeEntry`,
  `AnalysisCounterexamples.EmptyAddressLeavesEntry`); a resume collected before its start, or a stop before it
  registers, takes the start's record, and the stopped start registers all the same
  (`AnalysisRuns.RecordsExact`, `AnalysisCounterexamples.ResumeTakesRecord`,
  `AnalysisCounterexamples.StopTakesRecord`); a stop of an id whose future is uncollected leaves the collector
  nothing to find (`AnalysisCollector.CollectorFinds`, `AnalysisCounterexamples.StopAfterResume`); session
  numbers stay consecutive only while every resumed analyzer holds its sensor's latest number
  (`AnalysisRuns.SessionsConsecutive`, `AnalysisCounterexamples.SessionRepeats`).
- Sources: a source connected through retries has no reference (`SourcesRuns.ReferenceCounts`,
  `SourcesRuns.RetriedSourceLeaks`, `SourcesCounterexamples.RetriedSource`); `connect` can wait for ever
  (`VideoSourceRuns.ConnectHangs`, `SourcesCounterexamples.SilentReceiverHangs`); an observer registered twice
  hears every value twice (`VideoSourceRuns.NotificationsAlternate`,
  `SourcesCounterexamples.TwiceRegistered`).
- Retranslation: observers are never removed, so a connection told for a stopped address makes its group
  again, or one for the empty address (`RetranslationRuns.LossAndRestoreCompose`,
  `RetranslationCounterexamples.StoppedComesBack`, `RetranslationCounterexamples.StoppedWhileLostComesBack`,
  `RetranslationCounterexamples.EmptyAddressAppears`); what is kept for an address is never replaced, so a
  restore can bring back old parameters (`RetranslationRuns.LossKeepsParameters`,
  `RetranslationCounterexamples.FirstParametersReturn`); with every slot in use the port search leaves its
  range (`RetranslationRuns.SearchLeavesRange`), two addresses can get one pair there
  (`RetranslationRuns.PortsThroughout`, `RetranslationCounterexamples.PairShared`), and the pair on the last
  port of an even range ends beyond it (`RetranslationCounterexamples.PairBeyondRange`).
- Recorder: a stop, a source loss or a failed relaunch between launch and collection leaves the collector
  without an archiver (`RecorderRuns.CollectorFinds`, `RecorderCounterexamples.StopBeforeCollection`); a start
  collected between its two locks has no record to look up, or leaves one that is no start's
  (`RecorderRuns.StartRecords`, `RecorderCounterexamples.FailureBeforeRecord`,
  `RecorderCounterexamples.SuccessBeforeRecord`); a connect whose archiver does not start, a source loss, or a
  stop that finds only the start record leaves the references of an address wrong
  (`RecorderReferences.ReferencesExact`, `RecorderCounterexamples.FailureKeepsReference`); a failed relaunch
  loses an archiving (`RecorderRotation.RotationConserves`); an archiving stopped between the two phases of a
  rotation comes back (`RecorderPasses.StopInGap`, `RecorderCounterexamples.StoppedComesBack`); a sensor
  started again while its first start is running, or between those phases, is recorded twice
  (`RecorderSensors.OneArchiverPerSensor`, `RecorderSensors.OneClaimPerSensor`,
  `RecorderCounterexamples.SensorRecordedTwice`, `RecorderCounterexamples.SensorRestartedInGap`); the
  source-loss loop as written never does what it should when something is lost
  (`RecorderIndexes.LossAsWritten`).
- Assembler: a video for an object that has one outstanding is never handed out and stays in the task index
  for ever (`AssemblerRuns.HandOut`, `AssemblerRuns.TaskIndexTracks`).
- Playlist: without a comma the parser loses the last digit (`PlaylistRoundTrip.MissingComma`), a sum of minus
  one is taken for an unreadable file (`PlaylistRoundTrip.RepairGoesBack`), and a playlist that does not end
  its last line gets the closing tag on that line (`PlaylistClosing.LiveCopyClosed`), which can give the digit
  back and so change its duration (`PlaylistClosing.TagRestoresDigit`).

## Model

| member | source | states |
|---|---|---|
| BalancerRuns.HeapSafety | analyze/videocard_balancer.cpp:24-106 | over every run with fresh ids and each id returned at most once: no step touches a deleted card, each live id is indexed to an undeleted card of its profile that holds it, the profile index holds no deleted card, and the indexes held from the monitor are those of the undeleted cards, counted |
| BalancerRuns.SecondReturnUnsafe | analyze/videocard_balancer.cpp:89-106 | of two ids on one card, both returned, the first returned again would touch the deleted card |
| BalancerRuns.ReturnTwiceAtOnce | analyze/videocard_balancer.cpp:89-106 | right after its return an id can be returned again: its entry is gone exactly if its card was deleted, and leads else to the card it has left |
| BalancerRuns.CapacityBound | analyze/videocard_balancer.cpp:44-54 | after every step of every run each card holds between one and max(1, configured limit) processings |
| BalancerRuns.ExactAllocation | analyze/videocard_balancer.cpp:34-86 | each live id is on exactly one card, a card of its profile under which it is indexed, and cards serve live ids only, after every step, if and only if no grant saw two cards with room |
| BalancerCounterexamples.GrantJoinsTwoCards | analyze/videocard_balancer.cpp:40-66 | with limit two, granting a, b and c and returning a is a legal run after which the next grant joins two cards |
| BalancerRuns.CardsStayIndexed | analyze/videocard_balancer.cpp:97-104 | every undeleted card stays in the profile index throughout, if and only if no return deletes a card that has a sibling of its profile |
| BalancerCounterexamples.SiblingBecomesUnfindable | analyze/videocard_balancer.cpp:97-104 | with limit one, granting a and b and returning a is a legal run that leaves b's card out of the profile index |
| BalancerRuns.NewCardOnlyWhenFull | analyze/videocard_balancer.cpp:69-86 | while cards are findable, a grant takes a new card only when all cards of the profile are full |
| BalancerRuns.SharedAnswer | analyze/videocard_balancer.cpp:40-66 | the index a grant answers for shared cards is that of the last of them, an undeleted card of the profile that now holds the id with its resolution |
| BalancerRuns.ResolutionsKept | analyze/videocard_balancer.cpp:24-86 | over every run each card holds its processings with the resolutions they were granted with |
| BalancerModel.StepInv | analyze/videocard_balancer.cpp:24-106 | every legal step keeps the index, liveness, capacity and held-index invariants, and dereferences no deleted card |
| BalancerModel.VisitCard | analyze/videocard_balancer.cpp:40-66 | one turn of the traversal extends the set of cards that took the processing by exactly the visited card, if it has room |
| Balancer.VideocardBalancer.GetVideocard | analyze/videocard_balancer.cpp:24-87 | over heap cards: all cards with room take the processing and the last one's index is returned, else a fresh card is indexed, else nothing changes; an index that is returned is that of an undeleted card of the profile that holds the processing |
| Balancer.VideocardBalancer.ShareRange | analyze/videocard_balancer.cpp:38-66 | the loop serves exactly the cards with room, in order |
| Balancer.VideocardBalancer.ReturnVideocard | analyze/videocard_balancer.cpp:89-106 | given an undeleted card under the id, the card loses the processing and, emptied, leaves all indexes and the heap |
| AnalysisRuns.CrashRecovery | communication/commands/analyze/cmd_analyze_start.cpp:104-131 | with whole commands and non-empty source addresses, between commands the open log entries are exactly the accepted starts neither failed nor destroyed: the registered analyses and the uncollected starts not destroyed, which are all uncollected starts if none was stopped after it registered |
| AnalysisRuns.LogExactThroughout | communication/commands/analyze/cmd_analyze_start.cpp:104-131 | with commands split into their critical sections, over every run, the log is right after every step if and only if no step left an entry behind |
| AnalysisRuns.FailureBeforeEntry | communication/commands/analyze/cmd_analyze_start.cpp:104-131 | from every state of the invariants with an exact log, a start that fails and is collected before its entry is opened is a legal run that leaves an entry behind |
| AnalysisCounterexamples.EmptyAddressLeavesEntry | analyze/analytic_manager_facade.cpp:317-323 | a legal run whose stop finds the source address empty: the analysis is destroyed and its entry stays open |
| AnalysisRuns.WholeCommandsLeaveNoStray | communication/commands/analyze/cmd_analyze_stop.cpp:45-64 | whole commands with non-empty addresses never leave an entry behind |
| AnalysisRecovery.LogStep | analyze/analytic_manager_facade.cpp:605-650 | every step keeps the log equal to what the fates of the starts and the command in progress call for, plus the stray entries |
| AnalysisCollector.StartProtocol | analyze/analytic_manager_facade.cpp:589-659 | over every run: at most one start uncollected, failed starts are in no index, the records are the uncollected and the failed starts less those that lost their record to a stop or an early resume, and each accepted start has exactly one result event once collected and none before; without a stop of an uncollected id every collector lookup succeeds |
| AnalysisRuns.RecordsExact | analyze/analytic_manager_facade.cpp:589-659 | the records are exactly the uncollected starts and the failed starts not yet stopped, after every step, if and only if no successful resume is collected while its start is uncollected and no stop meets a start that is uncollected and not registered |
| AnalysisRuns.LateResumesExact | analyze/analytic_manager_facade.cpp:255-287 | they are if no uncollected start is resumed, or stopped before it registers |
| AnalysisCounterexamples.ResumeTakesRecord | analyze/analytic_manager_facade.cpp:255-287 | a legal run in which a resume takes the record of an uncollected start |
| AnalysisCounterexamples.StopTakesRecord | analyze/analytic_manager_facade.cpp:334-344 | a legal run in which a stop takes the record of a start that has not registered, and the analyzer registers all the same |
| AnalysisCollector.CollectorFinds | analyze/analytic_manager_facade.cpp:605-650 | over every run, every future stays collectable, whatever its thread returns, if and only if nobody stops an id whose future is uncollected |
| AnalysisCollector.CollectDefinedIff | analyze/analytic_manager_facade.cpp:605-650 | for a finished future collectable means that its collection dereferences nothing missing |
| AnalysisCounterexamples.StopAfterResume | analyze/analytic_manager_facade.cpp:307-352 | a run that resumes and stops an analysis, after which the collector dereferences a missing analyzer |
| AnalysisCollector.CollectionsDefined | analyze/analytic_manager_facade.cpp:589-659 | then a whole collecting pass dereferences nothing missing |
| AnalysisCollector.PassIsRun | analyze/analytic_manager_facade.cpp:593-656 | the erase-while-iterating pass continues any legal run by single collections to a legal run |
| AnalysisCollector.PassCollectsReady | analyze/analytic_manager_facade.cpp:593-656 | after a pass exactly the unfinished futures are left, in order |
| AnalysisCollector.PassReports | analyze/analytic_manager_facade.cpp:605-640 | a pass sends one event for each finished future, in order |
| AnalysisReports.CollectSends | analyze/analytic_manager_facade.cpp:605-640 | a collection that finds what it looks up sends one event with the sensor of the accepted request: "crushed" for a failed start, active otherwise, a start and a resume told apart |
| AnalysisReports.ReportsTrue | analyze/analytic_manager_facade.cpp:605-640 | over every run without a stop of an uncollected id, every event names the sensor of its request and says "crushed" exactly if its source was lost or its start failed |
| AnalysisReports.RequestsHold | analyze/analytic_manager_facade.cpp:141-253 | over every run analyzers, start records and start threads hold what was requested, with the address at that time |
| AnalysisProtocol.ProtocolStep | analyze/analytic_manager_facade.cpp:141-180 | every legal step, a stop of an uncollected id included, keeps futures, records, map and fates of starts in agreement |
| AnalysisRuns.IndexesAgree | analyze/analytic_manager_facade.cpp:432-485 | after every run vector ids are distinct, each is the map's object of its own id, and the map's extra keys are exactly those dropped by source loss and not yet stopped |
| AnalysisIndexes.LoseFromIsLose | analyze/analytic_manager_facade.cpp:95-124 | the erasing loop drops exactly the analyzers of the lost source, in order, with one event each |
| AnalysisReports.LossTakes | analyze/analytic_manager_facade.cpp:95-124 | a loss takes exactly the analyzers whose address it is out of the vector, reports their ids and sensors as crushed, in order, and changes nothing else |
| AnalysisReports.InVectorUnlessLost | analyze/analytic_manager_facade.cpp:95-124 | over every run a registered analysis is in the vector if and only if the address it was requested with has not been lost since it registered |
| AnalysisIndexes.IndexesRemove | analyze/analytic_manager_facade.cpp:463-485 | removing an id from the map and its first match from the vector keeps the two in agreement |
| AnalysisRuns.SessionsConsecutive | analyze/analytic_manager_facade.cpp:255-267 | the numbers issued for every sensor count up by one throughout if and only if every resumed analyzer held its sensor's latest number |
| AnalysisCounterexamples.SessionRepeats | analyze/analytic_manager_facade.cpp:255-267 | two analyses of one sensor: a legal run that issues a number twice |
| AnalysisRuns.SessionNumbers | storage/database_manager.cpp:638-708 | with one registered or starting analysis per sensor they do, and the stored number is the latest issued |
| AnalyticManager.AnalyticManagerFacade.StartAnalyze | analyze/analytic_manager_facade.cpp:141-180 | accepts exactly when no analyzer of the vector has these settings and no future is uncollected; then issues the session, publishes future and record |
| AnalyticManager.AnalyticManagerFacade.AsyncAnalyzeStart | analyze/analytic_manager_facade.cpp:182-253 | a started analyzer is a new object under its id in both indexes; any failure changes neither |
| AnalyticManager.AnalyticManagerFacade.ResumeAnalyze | analyze/analytic_manager_facade.cpp:255-287 | the shared analyzer and the database get the next session and a future is published |
| AnalyticManager.AnalyticManagerFacade.StopAnalyze | analyze/analytic_manager_facade.cpp:307-352 | a known analyzer leaves both indexes, an unknown id loses its start record; success needs a source address |
| AnalyticManager.AnalyticManagerFacade.RemoveAnalyzer | analyze/analytic_manager_facade.cpp:463-485 | the map entry and the first vector entry of the id go |
| AnalyticManager.AnalyticManagerFacade.CallbackVideoSourceConnection | analyze/analytic_manager_facade.cpp:95-124 | a lost source drops its analyzers from the vector only, with an event each; a connection changes nothing |
| AnalyticManager.AnalyticManagerFacade.CheckStartResults | analyze/analytic_manager_facade.cpp:589-659 | the loop is the collecting pass |
| AnalyticManager.AnalyticManagerFacade.GetAnalyzersStatuses | analyze/analytic_manager_facade.cpp:401-430 | active analyzers in vector order, then every start record once, as being prepared, with sensor, name and profile |
| AnalyticManager.ExecAnalyzeStart | communication/commands/analyze/cmd_analyze_start.cpp:104-131 | the command is the start followed by the opening of its log entry, for accepted starts only |
| AnalyticManager.ExecAnalyzeStop | communication/commands/analyze/cmd_analyze_stop.cpp:45-64 | the command is the stop followed, if it succeeded, by the closing of the log entry |
| VideoSourceRuns.BoundedRetries | datasource/video_source_remote2.cpp:165-212 | with a monotone clock and sleeps of a second at least, the cycle makes at most timeout + 1 attempts |
| VideoSourceRuns.WaitReleased | datasource/video_source_remote2.cpp:171-211 | the end of the cycle leaves signal, shutdown, interrupt or exhausted set, except exactly when the last attempt succeeded through the stream capabilities only, in time and undisturbed, and no earlier cycle left the exhausted flag |
| VideoSourceRuns.ConnectHangs | datasource/video_source_remote2.cpp:279-286 | `connect` never leaves its wait loop in exactly that case |
| ConnectAnswers.ConnectAnswer | datasource/video_source_remote2.cpp:245-289 | `connect` answers success exactly for an accepted address with a running receiver, a synchronous success, or a signal after its retries; it counts a reference in the first two cases only, and refuses any other address without a change |
| ConnectAnswers.RetriesAnswer | datasource/video_source_remote2.cpp:279-286 | retries answer success if and only if the signal is there afterwards; without it no receiver is left, and the refusal comes with a flag raised |
| ConnectAnswers.RetriesExhausted | datasource/video_source_remote2.cpp:182-184 | the cycle is marked exhausted exactly if its time was over when the loop had ended, or it was before |
| ConnectAnswers.FailedRetriesRefused | datasource/video_source_remote2.cpp:165-212 | attempts that all fail end in a refusal and leave no receiver |
| ConnectAnswers.NeverLaunchedRefused | datasource/video_source_remote2.cpp:245-289 | a source whose receiver never launches is refused |
| ConnectAnswers.TryMeans | datasource/video_source_remote2.cpp:214-243 | an attempt succeeds exactly if it reaches the receiver and has a signal, hears the stream start in time, or reads the capabilities; and what it leaves |
| ConnectAnswers.LoopMeans | datasource/video_source_remote2.cpp:171-180 | the loop starts no attempt after its time, with a signal or after a disturbance, and ends without success only for one of these reasons |
| ConnectAnswers.LoopFlags | datasource/video_source_remote2.cpp:171-180 | after the loop shutdown and interrupt are raised exactly if they were before or an attempt of it met them |
| ConnectAnswers.DisconnectLeaves | datasource/video_source_remote2.cpp:291-336 | a disconnect ends a cycle in progress, takes a reference off a running receiver, and takes the receiver with the last one or in a shutdown |
| ConnectAnswers.CrashedLaunchesAgain | datasource/video_source_remote2.cpp:128-163 | a crashed receiver is not running and has no signal, and the next synchronous success has launched a new one |
| ConnectAnswers.ReceiverHistory | datasource/video_source_remote2.cpp:128-336 | over every run the receiver runs exactly if it was launched last, every launch finds it not running, and only a running one has a connection |
| SourcesCounterexamples.SilentReceiverHangs | datasource/video_source_remote2.cpp:279-286 | a receiver that starts and never reports its stream makes it so |
| VideoSourceRuns.NotificationsAlternate | datasource/video_source_remote2.cpp:76-106 | over every run what an observer hears alternates strictly if and only if no change of the signal finds it registered twice |
| SourcesCounterexamples.TwiceRegistered | datasource/video_source_remote2.cpp:338-340 | an observer registered twice hears the first signal twice |
| VideoSourceRuns.LastHeardIsSignal | datasource/video_source_remote2.cpp:128-150 | the last value an observer heard is the signal |
| VideoSourceRuns.FirstHeardIsNegation | datasource/video_source_remote2.cpp:338-340 | an observer first hears the negation of the signal at its registration |
| VideoSourceRuns.TellsStep | datasource/video_source_remote2.cpp:76-150 | every step tells all registered observers of a change of the signal and tells nobody anything else |
| VideoSource.VideoSourceRemote2.Connect | datasource/video_source_remote2.cpp:245-289 | refuses bad addresses, counts a reference for a running receiver or a direct success, else retries |
| VideoSource.VideoSourceRemote2.RepeatAttempts | datasource/video_source_remote2.cpp:171-180 | the timed loop against its recursive specification |
| VideoSource.VideoSourceRemote2.AttemptsCycle | datasource/video_source_remote2.cpp:165-212 | the loop, the exhausted flag, and the teardown when no signal came |
| VideoSource.VideoSourceRemote2.MakeConnectAttempt | datasource/video_source_remote2.cpp:214-243 | launch, communication and wait, stopping at the first that fails |
| VideoSource.VideoSourceRemote2.WaitForStreamStartEvent | datasource/video_source_remote2.cpp:567-603 | signal, event, or capabilities as the fallback |
| VideoSource.VideoSourceRemote2.SetSignal | datasource/video_source_remote2.cpp:85-105 | a change of the signal tells every observer once a registration, in order; no change tells no one |
| VideoSource.VideoSourceRemote2.CallbackProcessCrashed | datasource/video_source_remote2.cpp:128-163 | a crash of the own receiver drops it and the signal, and says whether retries begin |
| VideoSource.VideoSourceRemote2.Disconnect | datasource/video_source_remote2.cpp:291-336 | interrupts retries, drops a reference, and tears the receiver down with the last one |
| SourcesRuns.ReferenceCounts | datasource/source_manager_facade.cpp:311-372 | for every sequence of connects and disconnects: one entry an address exactly while its balance is positive, counting it, with one launch and one teardown an episode, if and only if every entry was connected synchronously |
| SourcesCounterexamples.RetriedSource | datasource/video_source_remote2.cpp:279-286 | a connect whose synchronous attempt fails and whose first retry succeeds leaves the balance |
| SourcesRuns.EntryIffPositive | datasource/source_manager_facade.cpp:452-495 | what that means for one address |
| SourcesRuns.RetriedSourceLeaks | datasource/video_source_remote2.cpp:279-286 | a source connected through retries is dropped by its consumer's disconnect with its receiver as it was |
| SourcesRuns.KeptAt | datasource/source_manager_facade.cpp:462-481 | the disconnecting loop touches the address's entry alone, and drops it with the last reference |
| SourcesRuns.TransitionTracks | datasource/source_manager_facade.cpp:311-372 | over every run exactly the addresses whose last connect failed are in transition, until a connect or a disconnect, and none of them has an entry |
| SourcesRuns.WatchesEntries | datasource/source_manager_facade.cpp:273-283 | a source connected to be watched has an entry whose last registration is the observer's; entries of other addresses keep their observers |
| SourceManager.SourceManagerFacade.ConnectSource | datasource/source_manager_facade.cpp:311-372 | an existing source is asked again and its answer ignored, a new one joins the list or stays in transition |
| SourceManager.SourceManagerFacade.DisconnectSource | datasource/source_manager_facade.cpp:452-495 | the erase-while-iterating loop over shared objects and the abort of a source in transition |
| SourceManager.SourceManagerFacade.VisitSources | datasource/source_manager_facade.cpp:464-480 | the loop leaves the list that the recursive specification keeps |
| RetranslationRuns.PortsThroughout | datasource/source_manager_facade.cpp:142-237 | throughout a run the pairs begin in the range and two retranslators have the same pair exactly when they have the same address, if and only if every new group with a server found a slot left |
| RetranslationRuns.PortAllocation | datasource/source_manager_facade.cpp:142-237 | then, after any run of launches, stops, losses and restores: pairs begin in the range, all end in it if and only if its last port begins no pair, which takes an even range to fail; two retranslators share a pair exactly when they share an address, distinct pairs never overlap, server ports are distinct |
| RetranslationCounterexamples.PairBeyondRange | datasource/source_manager_facade.cpp:164-165 | in a range of one port the first launch takes a pair that ends beyond it |
| RetranslationCounterexamples.PairShared | datasource/source_manager_facade.cpp:144-165 | in a range of one port the third address launched gets the pair of the second |
| RetranslationRuns.SearchInRange | datasource/source_manager_facade.cpp:144-165 | the search ends inside the range if and only if fewer addresses than slots are retranslated (pigeonhole), at the least free port of the form begin + 2k |
| RetranslationRuns.SearchLeavesRange | datasource/source_manager_facade.cpp:144-165 | the search leaves the range exactly when every such port is in use |
| RetranslationRuns.NoDuplicateGroup | datasource/source_manager_facade.cpp:167-176 | no address ever has more servers than there are interfaces |
| RetranslationRuns.GroupListens | datasource/source_manager_facade.cpp:206-234 | the servers of a group are on the interfaces whose servers started, one each and in order, and the server of interface i has the i-th port from the counter on |
| RetranslationRuns.LossThenRestore | datasource/source_manager_facade.cpp:74-114 | a loss and the next connection give back the same addresses exactly when the kept parameters are the address's own, or nothing was lost and nothing new results |
| RetranslationRuns.LossAndRestoreCompose | datasource/source_manager_facade.cpp:74-140 | over every run of launches and stops at any time and notifications for any address, the retranslated addresses are after every step the launched ones not lost since, if and only if no connection is told for an address that is not launched |
| RetranslationCounterexamples.StoppedComesBack | datasource/source_manager_facade.cpp:239-272 | launch, loss, connection and stop, then a loss and a connection: the stopped group is made again |
| RetranslationCounterexamples.StoppedWhileLostComesBack | datasource/source_manager_facade.cpp:74-114 | launch, loss, stop and connection: the stopped group is made again |
| RetranslationCounterexamples.EmptyAddressAppears | datasource/source_manager_facade.cpp:109-112 | stopped before anything was kept, the address brings up a group for the empty one, with default parameters |
| RetranslationRuns.LossKeepsParameters | datasource/source_manager_facade.cpp:85-110 | a loss and the next connection bring back the group with its parameters if and only if nothing, or the same, was kept for its address before |
| RetranslationCounterexamples.FirstParametersReturn | datasource/source_manager_facade.cpp:85-110 | a legal run in which a group launched with new parameters is restored with its first ones |
| SourceManager.SourceManagerFacade.FindFreeUdpPort | datasource/source_manager_facade.cpp:144-165 | the nested loops compute the search |
| SourceManager.SourceManagerFacade.CreateRetranslator | datasource/source_manager_facade.cpp:142-237 | refused for a known address; else a server port for each interface, and a list entry for each server that starts |
| SourceManager.SourceManagerFacade.LaunchRetranslation | datasource/source_manager_facade.cpp:123-140 | connects and watches the source, then makes its group; a refused group leaves the source connected |
| SourceManager.SourceManagerFacade.StopRetranslation | datasource/source_manager_facade.cpp:239-272 | disconnects the source and removes its whole group |
| SourceManager.SourceManagerFacade.CallbackVideoSourceConnection | datasource/source_manager_facade.cpp:74-114 | loss keeps the first member's parameters and removes the group; a connection restores from what was kept |
| SourceManager.SourceManagerFacade.GetRTSPSourcePort | datasource/source_manager_facade.cpp:29-34 | hands out consecutive numbers |
| RecorderRuns.StartRecords | storage/video_recorder.cpp:145-223 | throughout a run the records, with the one about to be published, are the uncollected and the failed starts, and every collected failure finds its own, if and only if no start is collected between its two locks |
| RecorderRuns.RecordsOfStarts | storage/video_recorder.cpp:101-123 | then every uncollected future has a record or is about to get it |
| RecorderRuns.StartReports | storage/video_recorder.cpp:145-223 | over every run failed starts have no archiver and each accepted start has exactly one result event once collected and none before |
| RecorderCounterexamples.FailureBeforeRecord | storage/video_recorder.cpp:113-120 | a run to a start that failed between its two locks, whose collection there has no record to look up |
| RecorderCounterexamples.SuccessBeforeRecord | storage/video_recorder.cpp:113-120 | a legal run after which a start collected there has left a record that belongs to no start |
| RecorderRuns.IndexesAgree | storage/video_recorder.cpp:626-641 | at every point of a run, between the phases of a rotation too, the map's keys are the vector's ids and those pruned and not yet stopped, disjointly; vector ids are distinct and found under themselves |
| RecorderRuns.CollectorFinds | storage/video_recorder.cpp:157-208 | over every run, with the rotation as one retirement and one relaunch for each archiver: the archiver of every successful uncollected start is in the map or about to be relaunched, throughout, if and only if no stop, source loss or failed relaunch takes one away |
| RecorderRuns.CollectDefinedIff | storage/video_recorder.cpp:157-208 | outside a rotation a collection is defined exactly if a success has its archiver and a failure its record, which while the records are exact is missing only between the two locks |
| RecorderCounterexamples.StopBeforeCollection | storage/video_recorder.cpp:254-300 | a legal run that stops a successful start before its collection, which then dereferences a missing archiver |
| RecorderRuns.CollectionsDefined | storage/video_recorder.cpp:145-223 | under both conditions whole collecting passes outside commands and rotations dereference nothing missing |
| RecorderPasses.PassIsRun | storage/video_recorder.cpp:148-221 | the pass, during a command too, is a legal run of single collections |
| RecorderPasses.PassCollectsReady | storage/video_recorder.cpp:148-221 | after a pass exactly the unfinished futures are left, in order |
| RecorderPasses.PassReports | storage/video_recorder.cpp:155-199 | a pass sends one event for each finished future, in order |
| RecorderReports.CollectSends | storage/video_recorder.cpp:157-199 | a collection that finds what it looks up sends one event with the sensor of the accepted request: "crushed" for a failure, the registered archiver's state for a success |
| RecorderReports.ReportsTrue | storage/video_recorder.cpp:157-199 | over every run that keeps uncollected archivers and collects no start between its two locks, every event names the sensor of its request and says "crushed" exactly if its source was lost or its start failed |
| RecorderReports.RequestsHold | storage/video_recorder.cpp:101-143 | over every run archivers, start records, start threads and retired archivers hold the source that was requested for their id |
| RecorderReports.LossTakes | storage/video_recorder.cpp:370-391 | the evident effect of a loss: exactly the archivers of the address leave both indexes, their settings are kept and they are reported as crushed, in order; references and records stay |
| RecorderReports.PruneTakes | storage/video_recorder.cpp:626-641 | exactly the archivers whose connection is lost leave the vector; the map keeps them |
| RecorderReferences.ReferencesExact | storage/video_recorder.cpp:254-300 | throughout a run every address is referenced once for each archiving registered with it, if and only if no source connects without its archiver starting, no loss takes an archiver, and no stop finds a start record with an address in place of an archiver |
| RecorderReferences.NoEmptyAddress | storage/video_recorder.cpp:125-143 | over every run nothing is recorded from an empty address and none is referenced |
| RecorderCounterexamples.FailureKeepsReference | storage/video_recorder.cpp:125-143 | a legal run in which a start whose source connects and whose archiver fails keeps its reference |
| RecorderRuns.InvStep | storage/video_recorder.cpp:101-123 | every legal step, the relaunches of a rotation one by one, keeps futures, both indexes, the retired archivers and the pruned set in agreement |
| RecorderRotation.DueExactly | storage/video_recorder.cpp:541-554 | with the truncating divisions: due exactly with a non-zero start and an age of (interval in seconds + 5) * 1000 ms at least; the bound for a negative interval, too |
| RecorderBlocks.KeepsYoung | storage/video_recorder.cpp:541-579 | in every reachable state a rotation leaves an archiver's object in the vector if and only if the archiver has no reading, no start, or a block younger than the interval and five seconds (with the bound for a negative interval) |
| RecorderBlocks.ReplacesOld | storage/video_recorder.cpp:541-596 | the other archivings are recorded on by new objects if and only if their address is not empty, the source connects and the archiver starts |
| RecorderBlocks.NumberedHolds | storage/video_recorder.cpp:538-596 | over every run the archivers of the vector are different objects, made before any to come |
| RecorderRotation.RotationConserves | storage/video_recorder.cpp:531-597 | the multiset of (id, source), the map's keys and every source's reference balance are unchanged if and only if every due archiver reconnects and starts again |
| RecorderRotation.RotationReplacesDue | storage/video_recorder.cpp:531-597 | untouched archivers keep object and order; the due ones that come back follow, in order, on new objects |
| RecorderRotation.RotationArchivings | storage/video_recorder.cpp:582-596 | in general the recording set loses exactly the due archivings that fail to come back |
| RecorderRotation.RotationKeys | storage/video_recorder.cpp:566-568 | so does the key set of the map |
| RecorderRotation.RotationRefs | storage/video_recorder.cpp:570-593 | a source's balance drops by one for each due archiver whose reconnect failed |
| RecorderPasses.RotationsConserve | storage/video_recorder.cpp:531-597 | the conservation theorem holds in every reachable state |
| RecorderPasses.RotationIsRun | storage/video_recorder.cpp:531-597 | an undisturbed rotation is a legal run of a retirement and single relaunches |
| RecorderPasses.StopInGap | storage/video_recorder.cpp:580-596 | a stop of a retired archiving removes nothing and is refused unless its start record is there; the archiving is back afterwards if and only if the relaunch succeeds |
| RecorderCounterexamples.StoppedComesBack | storage/video_recorder.cpp:580-596 | a legal run in which an archiving stopped between the phases comes back |
| RecorderSensors.OneArchiverPerSensor | storage/video_recorder.cpp:101-143 | no two archivers of the vector record one sensor, throughout any run, if and only if every start and every relaunch that registers an archiver finds its sensor free |
| RecorderSensors.OneClaimPerSensor | storage/video_recorder.cpp:101-111 | over every run each sensor has at most one archiver, running start or retired archiver, throughout, if and only if no start is accepted while another start of its sensor is running or an archiver of it is retired |
| RecorderSensors.LoneStartsSuffice | storage/video_recorder.cpp:101-111 | commands that keep to that never record a sensor twice |
| RecorderCounterexamples.SensorRecordedTwice | storage/video_recorder.cpp:101-143 | a legal run of two starts of one sensor, the second accepted before the first registers, that records it twice |
| RecorderCounterexamples.SensorRestartedInGap | storage/video_recorder.cpp:580-596 | a legal run in which a sensor is started between the phases of a rotation and recorded twice |
| RecorderIndexes.DropFromIsDrop | storage/video_recorder.cpp:547-579 | the erasing loop drops exactly the archivers of its condition, in order, from both indexes |
| RecorderIndexes.LossLoopAsWritten | storage/video_recorder.cpp:370-391 | the whole source-loss loop as written: undefined exactly if the last archiver is lost, else the map loses the ids that follow a lost archiver |
| RecorderIndexes.LossAsWritten | storage/video_recorder.cpp:370-391 | it does what it should exactly when nothing is lost; else it is undefined or leaves a lost archiver in the map and a kept one out of it |
| VideoRecorder.VideoRecorder.StartRecording | storage/video_recorder.cpp:101-123 | refused exactly when the vector has the sensor; else future and record, with objrepr's address for an empty one |
| VideoRecorder.VideoRecorder.AsyncRecordingStart | storage/video_recorder.cpp:125-143 | connect, then launch, registering in both indexes; a failed launch keeps the reference |
| VideoRecorder.VideoRecorder.RecordingStartFuturesMaintenance | storage/video_recorder.cpp:145-223 | the loop is the collecting pass |
| VideoRecorder.VideoRecorder.StopRecording | storage/video_recorder.cpp:254-300 | an archiver leaves both indexes and its source, a start without one only takes a reference off its source |
| VideoRecorder.VideoRecorder.CallbackVideoSourceConnection | storage/video_recorder.cpp:355-395 | a lost source's archivers leave both indexes, their settings are kept, an event is sent for each; ignored during a rotation |
| VideoRecorder.VideoRecorder.CheckForArchiveNewBlock | storage/video_recorder.cpp:531-597 | the two loops perform the rotation |
| VideoRecorder.VideoRecorder.CheckForDiedArchiveCreators | storage/video_recorder.cpp:626-641 | archivers with a lost connection leave the vector only |
| AssemblerRuns.IndexesTrack | storage/video_assembler.cpp:139-146 | over every legal run the object index holds exactly the outstanding task of each object, under its own object and its own task in the task index; a video there is for the object of its task, ready exactly when there is a message for the task, with the latest path, and without a path until then |
| AssemblerRuns.TaskIndexTracks | storage/video_assembler.cpp:159-180 | over every legal run the task index holds exactly the started tasks that have not been handed out |
| AssemblerRuns.HandOut | storage/video_assembler.cpp:159-180 | a request hands a task out if and only if its object had no video outstanding at its start, there has been a message for it, and no earlier request came after such a message |
| AssemblerRuns.HandedOnce | storage/video_assembler.cpp:166-171 | no task is handed out twice, and none before its start |
| AssemblerRuns.HandedExactly | storage/video_assembler.cpp:56-73 | what is handed out are exactly the outstanding tasks with a message, each for its own object and with the latest path |
| VideoAssembler.VideoAssembler.Run | storage/video_assembler.cpp:103-157 | refused for an empty lifetime; else a new video in both indexes, an outstanding one of the object keeping its place |
| VideoAssembler.VideoAssembler.CallbackNetworkRequest | storage/video_assembler.cpp:56-73 | the message's video gets the path and becomes ready; an unknown tag changes nothing |
| VideoAssembler.VideoAssembler.GetReadyVideos | storage/video_assembler.cpp:159-180 | the ready videos of the object index, each once, leave both indexes; the others stay |
| PlaylistRoundTrip.DurationRoundTrip | storage/objrepr_repository.cpp:187-210 | for every list of segments and other lines, the parser's result on the rendered text is the floor of the exact sum |
| PlaylistRoundTrip.TotalAdditive | storage/objrepr_repository.cpp:199-206 | the untruncated sum is additive over concatenation at a line boundary, errors included |
| PlaylistRoundTrip.SegmentDuration | storage/objrepr_repository.cpp:201-204 | the number of a segment line with or without a title survives the cut of the line's last character |
| PlaylistRoundTrip.MissingComma | storage/objrepr_repository.cpp:202-204 | without a comma the cut takes the last digit, or the conversion raises |
| PlaylistRoundTrip.RepairOfRendered | storage/objrepr_repository.cpp:153-176 | the repaired end of an archive with a well-formed playlist is its begin plus the whole seconds of its segments, and so never before its begin, exactly unless the sum leaves the signed range |
| PlaylistRoundTrip.RepairGoesBack | storage/objrepr_repository.cpp:164-176 | for any readable playlist the end goes before the begin exactly when the durations sum to minus two or less, and stays exactly between minus two and minus one |
| PlaylistRoundTrip.RepairedNotBefore | storage/objrepr_repository.cpp:173-174 | with 64-bit widths the repaired end is not before the begin exactly when the total is not negative and the sum does not overflow |
| PlaylistRoundTrip.RepairDecides | storage/objrepr_repository.cpp:148-184 | the end is kept exactly for a non-zero second, a missing or unopenable playlist, or a sum between minus two and minus one; an invalid duration alone raises; a path error gives the begin |
| PlaylistRoundTrip.StodSigned | storage/objrepr_repository.cpp:204 | the conversion reads a decimal number after any white space and at most one sign |
| PlaylistRoundTrip.StodRaises | storage/objrepr_repository.cpp:204 | it raises for a text that begins with anything else, after white space |
| PlaylistRoundTrip.TaggedDuration | storage/objrepr_repository.cpp:201-204 | the number of a tagged line is read after its first colon, less the last character |
| PlaylistRoundTrip.TaggedWithoutColon | storage/objrepr_repository.cpp:201-204 | without a colon, from the beginning of the line |
| PlaylistRoundTrip.WholeOfNumeral | storage/objrepr_repository.cpp:204 | the digits of a number's decimal numeral are read as the number |
| PlaylistRoundTrip.FractionOfDigits | storage/objrepr_repository.cpp:204 | a fraction is its digits, read as a number, over the power of ten |
| PlaylistRoundTrip.SignedRange | storage/objrepr_repository.cpp:173-174 | a sum becomes the congruent number of the signed 64-bit range |
| ArchivePlaylists.GetTotalTsDurationSecFromPlaylist | storage/objrepr_repository.cpp:187-210 | the line-reading loop returns the truncated sum, or raises |
| ArchivePlaylists.CheckForInconsistency | storage/objrepr_repository.cpp:148-184 | the archive keeps its end, or gets the new one and is committed once; a non-zero second, a missing or an unopenable playlist leave it untouched, and a path error sets it to the begin |
| PlaylistClosing.CheckIdempotent | storage/archive_creator_proxy.cpp:14-38 | the check appends the tag unless the last line contains it; afterwards it contains the tag, and checking again changes nothing |
| PlaylistClosing.LiveCopyClosed | storage/archive_creator_proxy.cpp:105-138 | the live copy appends the tag unless the last line is the tag; its last line is the tag exactly when the original ended a line or was closed already |
| PlaylistClosing.CheckedCopy | storage/archive_creator_proxy.cpp:14-38 | for a line-terminated original, checking and copying add the tag once |
| PlaylistClosing.ClosingKeepsDuration | storage/archive_creator_proxy.cpp:133-137 | each step keeps the parsed duration, or the error, if and only if it appends nothing, or the lines before the last are invalid, or the last holds no duration, or one that reads the same without its last character |
| PlaylistClosing.StodStops | storage/objrepr_repository.cpp:203-204 | the conversion reads any text the same with the tag after it |
| PlaylistClosing.ClosedRoundTrip | storage/objrepr_repository.cpp:187-210 | a well-formed playlist keeps its round trip through the check and the copy |
| PlaylistClosing.TagRestoresDigit | storage/archive_creator_proxy.cpp:133-137 | where the last line is a duration without its comma, after valid lines, the tag keeps the duration exactly if the lost character is a final zero of the fraction or of a whole number of zeros; else it gives the digit back |
| ArchivePlaylists.ArchiveCreator.CheckOriginalPlaylistConsistent | storage/archive_creator_proxy.cpp:14-38 | the file becomes its checked text, if it opens |
| ArchivePlaylists.ArchiveCreator.TransferOriginalPlaylistToLiveStream | storage/archive_creator_proxy.cpp:105-138 | the live file becomes a function of the original alone, whatever it held, if both open |

## Left out

Environment, represented by parameters or fields:

- GStreamer pipelines, the RTSP server, pad probes and plugins: a start is a nondeterministic outcome.
- MongoDB and objrepr objects are maps and parameters; the write-ahead log is a set of ids. The log's process events and the recorder's own log entries are not modelled.
- `ProcessLauncher`, `SystemMonitor` and `NetworkSplitter` are assumed: the source is not part of this model. Closing a receiver process is taken to clear its handle.
- Busy waits: `connect` in its wait loop is the answer `Hangs`; blocking calls are taken to return.
- The order of equal keys in the multimap and of keys in the unordered map is a parameter or an out-parameter.
- Threads: one event is one critical section, or one attempt of the retry loop. A connect and the launch after it are one step in the recorder; `connectSource`, `disconnectSource` and a retranslator's creation are whole steps. Other threads act between steps, and during an attempt through `Attempt`.

Evident effect instead of the letter:

- analyze/analytic_manager_facade.cpp:100-106 locks a mutex it already holds, and lines 340 and 344 unlock twice: the critical sections are modelled as if they were entered and left once.
- storage/video_recorder.cpp:371-386 reads through a reference after the erase: `Lose` erases the lost archiver's own entry; `RecorderIndexes.LossLoopAsWritten` and `RecorderIndexes.LossAsWritten` say what the text does instead.
- storage/video_assembler.cpp:109 reads the object before line 120 checks it: `Run` takes a known object.
- `getLastLine` is not part of this model: the last line is taken to be the text after the final newline.

Not modelled:

- Analysis: players, `pauseAnalyze`, processing flags, event pulling, statuses of single analyzers; conservation of source references and cards through failed starts, which lines 207-210, 239-242 and 342 do not keep; a sensor's address does not change while its start runs.
- Balancer: the dpf processor pointer, and the assertion at analyze/videocard_balancer.cpp:48.
- Sources: the consumer queue, whose body line 384 makes unreachable; user names, latencies and stream parameters; retries started by a crash run as steps of their own; the widths of the port and session counters.
- Recorder: restoring after a connection (lines 396-427, with an empty source), `collectGarbage`, `reconnectLostedSources`, `checkForOutdatedArchives`, metadata and ticks; the playlist directory of a relaunched archive; an archiver is a value with an object number, its settings do not change and its start time is read from the environment.
- Assembler: the splitting pipeline and the other network messages; videos handed out are not destroyed by the assembler, nor here.
- Playlist: binary doubles are exact reals; exponents, hexadecimal numbers, infinities and out-of-range conversions in `stod` read as text after the number; the master playlist.
- JSON commands, argument parsing, configuration, logging, proxies, visitors, name and bandwidth tables, generated code, the superseded remote classes: simple or finite.

Stated weaker than the source, or for a part of the inputs:

- AnalyticManager.AnalyticManagerFacade.AsyncAnalyzeStart: the source reference and the card that a failed start leaves behind are not in the contract.
- AnalyticManager.AnalyticManagerFacade.StopAnalyze: the return of the card and the disconnects of the source are not in the contract, nor is the double unlock.
- AnalyticManager.AnalyticManagerFacade.CallbackVideoSourceConnection: the second locking of the held mutex is left out.
- VideoSourceRuns.WaitReleased: a stream stop or a crash inside the cycle is not modelled; an attempt can only bring the signal up.
- VideoSourceRuns.ConnectHangs: the same.
- RecorderRuns.IndexesAgree: source loss has its evident effect.
- VideoRecorder.VideoRecorder.CallbackVideoSourceConnection: source loss has its evident effect, and a connection restores nothing.
- ArchivePlaylists.GetTotalTsDurationSecFromPlaylist: exact reals and decimal forms only, as said above.
- PlaylistRoundTrip.RepairOfRendered: for begins and durations within the signed 64-bit range; converting a larger double is undefined in the source language.
- PlaylistRoundTrip.RepairGoesBack: for totals whose sum with the begin stays within that range; `RepairedNotBefore` says what happens beyond it.
