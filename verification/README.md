# Forum agent: verified models

Dafny models of the parts of the forum agent where a mistake would be hard to see: the stop, disconnect and seal
protocols of the desktop host, the job queue behind it, the parsers and stream cutters at its edges, and the rules of
the live insight panel. Everything here is proved by the Dafny verifier; nothing was executed.

`dafny verify dfyconfig.toml` checks the whole project.

## How the models are built

- **Concurrent protocols** (`speaker_fence`, `runtime_stop`, `lan_fence`, `analysis_loop`, `meeting_seal`,
  `pipeline`) are state machines. One step is one lock region, one atomic access, one store closure or one thing a
  child process does (in `speaker_fence` taking a lock, each access under it and letting go are steps of their own), so
  every interleaving of the real threads is a schedule of steps. The theorems are about every
  reachable state or every run. Beside each machine stands a small class with the fields the source keeps under its
  lock; its methods update them in place and are proved to do exactly what the machine's steps do. What must never happen
  is proved of all interleavings; what a call comes to, with the answers it gets and nobody in its way, is proved as the
  exact state its schedule leads to, so that a machine that does too little fails as surely as one that does too much.
- **The store** behind the host is a first-in-first-out actor. A call to it can be refused at once, can be answered,
  or can be given up by its caller and still take effect later.
- **The status mailbox** (`event_mailbox`) is imperative, with a method that stands for whatever the other thread
  does between two channel operations.
- **Loops, parsers and streams** (`edit_distance`, `segmenter`, `replay`, `frame_reader`, `json_repair`, `macho`,
  `so_far`, `insights`) are methods with loops, proved against a specification that says what the result means: the
  cheapest edit script, the greedy segmentation of the whole recording, the newline split of the byte stream, the
  printed form of a syntax tree. What the source promises is then proved about the specification.
- **UTF-16 and UTF-8 spans** (`utf8_spans`) are pure, after RFC 3629 sections 3 and 4 and RFC 2781 section 2.

Time is counted in samples or milliseconds, and counters are unbounded.

## What was found

These are properties one might expect of the code that do not hold of it. Each has a lemma that exhibits the run, and
where it could be had the exact condition under which the property does hold.

- **A late cancel stops the analysis queue.** A cancel request that is recorded after the loop last looked at the job,
  while the worker's result is already in hand, is refused an answer: the result is turned down because the job is no
  longer running, and so is the failure that is reported next. The job stays active, and from then on no job of the
  table is ever claimed until the application restarts. `AnalysisLoop.LateCancelStopsAnalysis`,
  `AnalysisJobs.ClosingFreesIff`, `AnalysisJobs.LateCancelBlocksTheQueue`.
- **A late claim stops it as well.** A claim that the loop gives up and the store grants later leaves the job running
  with nobody to run it. Whatever else is queued, the job is claimed and stuck exactly when the store would have granted
  the claim to the waiting loop, and then nothing beyond what is queued is claimed before a restart.
  `AnalysisLoop.LateClaimStopsAnalysis`, `AnalysisLoop.GivenUpClaimIff`.
- **However it comes about, the queue stands still** exactly when some job is active once the store has run what is
  queued and it is not the one the loop is about to get: after a late cancel, after a late claim, and also when a full
  store queue refuses the call that closes an attempt. `AnalysisLoop.BlockedIff`, `AnalysisLoop.RefusedCloseSticksIff`,
  `AnalysisLoop.StuckStopsAllClaims`.
- **A failed pairing can leave a peer online.** If a pair call times out after its import is queued and the full queue
  refuses its own mark, the peer shows as online with no client behind it. "Offline until a later pair succeeds" is
  false; "offline until a later pair's import reaches the store" is true. While no later pair has succeeded, the peer
  shows as online exactly when a failed pair's import was carried out and every mark behind it was refused or failed.
  `LanFence.FailedPairCanLeavePeerOnline`, `LanFence.OfflineUntilPairedAgain`, `LanFence.OnlineAfterCloseIff`.
- **A true `shutdown_complete` does not prove containment** in the speaker manager and in the analysis manager, because
  containment is read before the thread's end. The exact condition is proved for both, in every state in which polling
  can begin: `SpeakerFence.TrueAnswerProvesContainmentIff`, `AnalysisLoop.TrueAnswerProvesContainmentIff`.
- **Reconciliation evidence may mix two reports.** `try_seal` reads the reported runs and the replay flag under two
  locks, so a run can be reconciled that only a report without a replayed outbox ever named. Runs and flag are of one
  report exactly when no report comes in between the two reads, and where none does, every reconciled run was named by a
  report of a replayed outbox. Where one does, a run is vouched for exactly when it was at the first read or a report of a
  replayed outbox that names it has come in since. `MeetingSeal.EvidenceMayMixReports`, `MeetingSeal.OneReportIff`,
  `MeetingSeal.UndividedReadsVouch`, `MeetingSeal.VouchedIff`.
- **A stale insight answer can reach a new meeting.** The generation check and the update it guards are two lock
  regions. `Insights.StaleAnswerReachesNewMeeting`, `Insights.AnswerMeetsItsMeetingIff`.
- **Automatic approval logs drafts for the minutes**: the log the minutes are written from then holds points that stand
  as drafts and that nobody approved. Told by the old section, the answer and the transcript, it happens exactly when
  automatic approval is on, the text was not logged, a suggestion of it is shown, and it was on the panel unapproved or is
  new and nowhere shown with a quote from the transcript. Without automatic approval every logged text was approved or written by the
  operator. `Insights.UngroundedDraftIsLogged`, `Insights.DraftIsLoggedIff`, `Insights.LoggedTextsAreSigned`.
- **The pipeline's idle flag can be set with a final in the queue.** Over a run it tells the truth all along exactly when
  it is never set while a final is being put or is queued. `PipelineModel.IdleWithFinalQueued`,
  `PipelineModel.IdleIsRightIff`.

## Model

| member | source | states |
|---|---|---|
| Utf8Spans.DecodeIsInverse | packages/contracts/utf8.ts:9-10 | a fatal decode succeeds on exactly the encodings of scalar sequences and inverts them: no overlong form, no surrogate, no out-of-range value passes |
| Utf8Spans.SelectionsAreDecodableRanges | packages/contracts/utf8.ts:4-28 | accepted selections map onto exactly the byte ranges that pass the range check and the fatal decode, for any text, with or without lone surrogates |
| Utf8Spans.ConversionPreservesOrder | packages/contracts/utf8.ts:16-28 | the mapping keeps the order of both ends and is one-to-one |
| Utf8Spans.OffsetsAreOrdered | packages/contracts/utf8.ts:25-27 | boundaries that split no pair are ordered exactly as their byte offsets are |
| Utf8Spans.SelectionRoundTrip | packages/contracts/utf8.ts:4-28 | selecting, converting and resolving returns the slice if and only if the slice is well-formed and does not begin with a byte order mark |
| Utf8Spans.QuoteIsCompared | packages/contracts/utf8.ts:4-13 | the span of an accepted selection whose text is well-formed and does not begin with a byte order mark resolves to the selected text when exactly that is quoted, and whatever else is quoted differs |
| Utf8Spans.ResolutionOutcome | packages/contracts/utf8.ts:4-13 | what is resolved is what was quoted; the range error is for ends that are no safe integers, an empty range or one beyond the bytes, and the decoding error for a range whose bytes encode no sequence of scalars |
| Utf8Spans.SelectionOutcome | packages/contracts/utf8.ts:16-28 | a selection is refused exactly when it is no range of the text or cuts a surrogate pair, and otherwise its bytes are those of the selected text |
| Utf8Spans.SelectionsStayWellFormed | packages/contracts/utf8.ts:20-24 | in well-formed text every accepted selection is well-formed |
| Utf8Spans.Utf16OfScalars | packages/contracts/utf8.ts:25-27 | turning scalars back into units keeps the length and is exact just on well-formed text |
| Utf8Spans.RangeIsCharacters | packages/contracts/utf8.ts:8-10 | a decodable byte range begins and ends at character boundaries of the whole text |
| EditDistance.Lev | stress/metrics.py:38-49 | the rolling-row loop returns the minimum cost over all insert, delete and substitute scripts that turn one sequence into the other |
| EditDistance.DistanceIsMinimum | stress/metrics.py:38-49 | the recurrence is the cost of some script and no script is cheaper |
| EditDistance.TableIsDistance | stress/metrics.py:42-48 | every entry of the table is the distance of two prefixes |
| EditDistance.Compose | stress/metrics.py:38-49 | two scripts that meet in the middle become one that costs no more |
| EditDistance.DistanceIsAMetric | stress/metrics.py:38-49 | zero exactly on equal sequences, symmetric, triangular, between the length difference and the larger length |
| SpeakerFence.WritesAreFenced | desktop/forum-shell/src/speaker_manager.rs:756-807 | in every interleaving a label is written only while its own session is enabled, in the generation of the enable that precedes it |
| SpeakerFence.NothingAfterDisable | desktop/forum-shell/src/speaker_manager.rs:155-168 | nothing is written between a disable and the next enable, whatever was queued or had timed out |
| SpeakerFence.CommitWritesIff | desktop/forum-shell/src/speaker_manager.rs:764-799 | whatever the others do meanwhile, a closure that has the lock adds exactly one entry for its session and generation to the log if its three reads find not stopped, its own generation and enabled, and none otherwise |
| SpeakerFence.ComputedLabelIsWritten | desktop/forum-shell/src/speaker_manager.rs:682-807 | what the scan thread computes for an enabled session that nobody touches is written once, and nothing stays counted, queued or locked behind it |
| SpeakerFence.EnableTakesEffect | desktop/forum-shell/src/speaker_manager.rs:124-154 | an enable that nobody disturbs leaves its session enabled in a generation of its own, with both locks free |
| SpeakerFence.DisableTakesEffect | desktop/forum-shell/src/speaker_manager.rs:155-168 | a disable that nobody disturbs switches analysis off and makes every label on its way one of an earlier generation |
| SpeakerFence.ScanBeginsIff | desktop/forum-shell/src/speaker_manager.rs:285-303 | a pass begins work exactly for a session that is enabled, and for the generation read before it |
| SpeakerFence.GiveUpTakesEffectIff | desktop/forum-shell/src/speaker_manager.rs:269-274 | giving up switches analysis off unless it belongs to a later generation by then |
| SpeakerFence.PendingCountsCommits | desktop/forum-shell/src/speaker_manager.rs:743-807 | the pending count is the number of commit closures counted, queued or running; a thread past its interrupt check has not raised it yet |
| SpeakerFence.LockHolderNeverWaits | desktop/forum-shell/src/speaker_manager.rs:124-170 | the fence cannot deadlock: whoever waits for the state lock, at most five steps of those who hold the state lock or the model lock free it, none of them waiting for the store, and then the one that waits can take it |
| SpeakerFence.ModelLockComesFree | desktop/forum-shell/src/speaker_manager.rs:142-143 | whoever holds the lock of the model path, inside the state lock or outside it, lets go by its own next step |
| SpeakerFence.StoreWaitersAreAnswered | desktop/forum-shell/src/speaker_manager.rs:138-142 | the store actor and whoever holds the lock it waits for can always answer an enable or a scan that waits for the store |
| SpeakerFence.NoWritesAfterShutdownComplete | desktop/forum-shell/src/speaker_manager.rs:104-113 | once shutdown_complete has answered true no label is ever written, although its three reads are not one and the count may rise behind them |
| SpeakerFence.ContainmentLostDuringPoll | desktop/forum-shell/src/speaker_manager.rs:109-113 | from every state with a running child, or with nothing left between the thread and starting one, a poll can answer true with containment lost |
| SpeakerFence.TrueAnswerProvesContainmentIff | desktop/forum-shell/src/speaker_manager.rs:104-113 | a true answer proves containment in every continuation if and only if, as polling begins, no child runs and the thread is not about to start one |
| SpeakerFence.ReachableKeepsInv | desktop/forum-shell/src/speaker_manager.rs:279-461 | the invariant of the scan loop, the store actor, the users and the poll holds in every reachable state |
| SpeakerFence.Host.Enable | desktop/forum-shell/src/speaker_manager.rs:124-154 | refused after a stop or a lost child, otherwise a new generation with this session enabled |
| SpeakerFence.Host.RunBoundCommit | desktop/forum-shell/src/speaker_manager.rs:756-799 | the commit closure writes if and only if nothing is stopped, its generation is current and analysis is enabled, then for the session that is enabled now, and is uncounted either way |
| RuntimeStop.StopIsNeverLost | desktop/forum-shell/src/runtime.rs:649-661 | a stop whose lock region follows a start's generation read halts that start from the next flag check on, even when its message is dropped |
| RuntimeStop.OvertakenStartIsRefused | desktop/forum-shell/src/runtime.rs:182-223 | a start overtaken before it is admitted is never brought up |
| RuntimeStop.StartIsAdmittedIff | desktop/forum-shell/src/runtime.rs:188-201 | whatever users do before the worker compares generations, a start taken off the queue is admitted if and only if no stop has come since it read its own, and then the flag is down |
| RuntimeStop.StartIsBroughtUpIff | desktop/forum-shell/src/runtime.rs:202-223 | an admitted start with its permit is brought up if and only if no stop and no shutdown has raised the flag by the time the worker looks at it again |
| RuntimeStop.CreatedIsOwned | desktop/forum-shell/src/runtime.rs:286-321 | a dispatcher that runs is the meeting at hand; one that failed to start is cleaned up at once or kept as the meeting at hand |
| RuntimeStop.PassOutcome | desktop/forum-shell/src/runtime.rs:377-600 | over a whole pass a raised flag and a failure stop the meeting at hand, it is let go when it is stopping and its cleanup is due and succeeds, and the worker ends when it is leaving and has none |
| RuntimeStop.FirstStartComesUp | desktop/forum-shell/src/runtime.rs:138-321 | from a new host on, an undisturbed start call ends with its meeting at hand |
| RuntimeStop.EarlierStopNeverHits | desktop/forum-shell/src/runtime.rs:379-387 | a stop that had returned before a start was called is never why that start's meeting stops |
| RuntimeStop.EarlierStopNeverRefuses | desktop/forum-shell/src/runtime.rs:182-223 | nor is it why the start is refused by either check |
| RuntimeStop.DispatchersAreOwned | desktop/forum-shell/src/runtime.rs:301-321 | every dispatcher ever started is cleaned up or belongs to the one meeting at hand; reported containment means none is left |
| RuntimeStop.DroppedOnlyAfterCleanup | desktop/forum-shell/src/runtime.rs:523-586 | a started meeting is let go only by a successful cleanup |
| RuntimeStop.ShutdownCompleteIsFinal | desktop/forum-shell/src/runtime.rs:621-627 | once shutdown is reported complete nothing starts and every dispatcher ever started is cleaned up |
| RuntimeStop.ShutdownComes | desktop/forum-shell/src/runtime.rs:138-600 | once the shutdown message is in its channel the worker, left to itself and with its cleanups succeeding, has finished after at most 245 of its own steps, whatever its other calls return, and everything it started is cleaned up |
| RuntimeStop.ReachableKeepsInv | desktop/forum-shell/src/runtime.rs:138-661 | the invariant of starts, stops, shutdown and the worker holds in every reachable state |
| RuntimeStop.Control.Start | desktop/forum-shell/src/runtime.rs:631-648 | reads the generation and offers the start to the bounded queue |
| RuntimeStop.Control.Stop | desktop/forum-shell/src/runtime.rs:649-661 | raises generation and flag in one region; the message may be dropped |
| RuntimeStop.Control.Admit | desktop/forum-shell/src/runtime.rs:188-201 | the worker's check against the generation, with the flag lowered only for a start it admits |
| EventMailbox.Bus.PublishEvent | desktop/forum-shell/src/runtime.rs:45-59 | terminates whatever the reader does; consumed events followed by the slot stay a subsequence of the published ones that ends in the newest, and at most the event in the slot is lost by it |
| EventMailbox.Bus.Emit | desktop/forum-shell/src/runtime.rs:65-81 | an installed callback sees exactly the started and stopped events, in order, whatever the mailbox drops |
| EventMailbox.Bus.PollEvents | desktop/forum-shell/src/runtime.rs:670-672 | draining takes what is visible and nothing else |
| EventMailbox.SubsequenceIff | desktop/forum-shell/src/runtime.rs:45-59 | what the slot leaves out: the remaining events stand in the published ones in the same order |
| EventMailbox.SubsequenceDropLast | desktop/forum-shell/src/runtime.rs:45-59 | dropping the slot's event leaves a subsequence |
| EventMailbox.LifecycleAppend | desktop/forum-shell/src/runtime.rs:65-81 | the lifecycle events of a longer history |
| LanFence.AtMostEightPeers | desktop/forum-shell/src/lan_manager.rs:361-392 | at most eight peers are ever held |
| LanFence.PairSucceeds | desktop/forum-shell/src/lan_manager.rs:352-392 | a pair call is carried through when at its second lock region nothing was stopped or disconnected since its first, fewer than eight peers are held and the store answers; then the peer is held and its import is in the store |
| LanFence.PairIsRefused | desktop/forum-shell/src/lan_manager.rs:352-366 | otherwise it leaves no trace |
| LanFence.PairFails | desktop/forum-shell/src/lan_manager.rs:367-389 | if the store fails it or is late, nothing is held and the offline mark goes behind the import |
| LanFence.DisconnectSucceeds | desktop/forum-shell/src/lan_manager.rs:394-403 | a disconnect forgets the client, ends the generation and has its mark carried out |
| LanFence.StopFinishes | desktop/forum-shell/src/lan_manager.rs:265-282 | a stop that nothing fails gets one mark for each peer it found through, in whatever order, and lets go of the lock |
| LanFence.ChangesAreApplied | desktop/forum-shell/src/lan_manager.rs:471-498 | fetched changes are applied when the client they came through is still the one held and the host is not shutting down |
| LanFence.ChangesGiveWayToSnapshot | desktop/forum-shell/src/lan_manager.rs:484-512 | if they cannot be fetched or applied a snapshot is fetched in their place, again only through a client that is still held |
| LanFence.SnapshotIsApplied | desktop/forum-shell/src/lan_manager.rs:507-527 | a fetched snapshot is applied under the same condition, and everything else stays |
| LanFence.SnapshotFails | desktop/forum-shell/src/lan_manager.rs:515-524 | if it cannot be fetched or applied the peer is marked offline behind whatever was tried |
| LanFence.SyncStopsWithoutClient | desktop/forum-shell/src/lan_manager.rs:482-513 | in none of its three lock regions does a sync whose client is gone, or that meets a shutdown, change anything |
| LanFence.SupersededDataIsNeverApplied | desktop/forum-shell/src/lan_manager.rs:462-527 | data fetched through a lease that was closed or replaced is never applied, even when the key is paired again |
| LanFence.OfflineUntilPairedAgain | desktop/forum-shell/src/lan_manager.rs:394-403 | once a disconnect or stop saw its mark succeed the peer stays offline until a new pairing's import reaches the store |
| LanFence.DisconnectOkClosed | desktop/forum-shell/src/lan_manager.rs:394-403 | a disconnect that returns Ok has its mark in the store |
| LanFence.StopOkClosedAll | desktop/forum-shell/src/lan_manager.rs:265-282 | a stop that returns Ok has marked every peer it found |
| LanFence.UnheldPeersSettleOffline | desktop/forum-shell/src/lan_manager.rs:471-527 | with the lock free, a key without a client whose marks got through is offline |
| LanFence.FailedPairCanLeavePeerOnline | desktop/forum-shell/src/lan_manager.rs:361-392 | a run in which a pair call fails and the peer is left online |
| LanFence.OnlineAfterCloseIff | desktop/forum-shell/src/lan_manager.rs:361-403 | after a mark seen to succeed and while no later pair has succeeded, the peer is online if and only if a failed pair's import was carried out and no mark behind it |
| LanFence.ReachableKeepsInv | desktop/forum-shell/src/lan_manager.rs:265-527 | the invariant of pair, disconnect, stop, sync and the store holds in every reachable state |
| LanFence.Peers.Pair | desktop/forum-shell/src/lan_manager.rs:361-392 | holds the peer if and only if the host is not shutting down, the generation is the one read at the beginning and fewer than eight peers are held |
| Segmentation.Segmenter.Feed | forum_agent/segmenter.py:33-62 | frame by frame, the object's state and its closed segments are the greedy segmentation of everything it was fed |
| Segmentation.GreedyIsUnique | forum_agent/segmenter.py:33-62 | a recording has one greedy segmentation |
| Segmentation.GreedyGrows | forum_agent/segmenter.py:33-62 | how one more frame extends the greedy segmentation |
| Segmentation.SegmentsAreDisjoint | forum_agent/segmenter.py:33-62 | no frame is in two segments |
| Segmentation.SpeechIsCovered | forum_agent/segmenter.py:33-62 | every speech frame is in a segment |
| Segmentation.SegmentLengthBound | forum_agent/segmenter.py:56-60 | a closed segment is shorter than the maximum plus one frame |
| Segmentation.PreRollIs | forum_agent/segmenter.py:42-52 | a segment takes in as much silence from before its first speech as fits into half a second of whole frames, at least one frame, unless that reaches back to where it may begin |
| Segmentation.SegmentEnd | forum_agent/segmenter.py:55-60 | a segment ends at the maximum, or where its silence first reaches the gap |
| Segmentation.QuietIsASilentRun | forum_agent/segmenter.py:55 | the silence counter is the length of the unbroken silence since the last speech frame |
| Replay.FeedFrame | forum_agent/replay.py:30-41 | a segment the frame ends is submitted; a segment that is open behind it is submitted as it stands if and only if the clock has reached the deadline, and either puts the deadline two seconds behind the clock |
| Replay.RunReplay | forum_agent/replay.py:180-191 | a whole replay submits one final for each greedy segment of what was fed, the last one as it stands; partials keep their distance, and while a segment is open the last submission is never two seconds old |
| Replay.SpeechIsInOneFinal | forum_agent/replay.py:180-191 | every speech frame that was fed is in exactly one final |
| Replay.MatchesAfterFeed | forum_agent/replay.py:30-41 | a partial stays the beginning of a final or of the open segment |
| Replay.SpacedAfterPartial | forum_agent/replay.py:37-40 | partials stay an interval apart and an interval behind every earlier final |
| FrameReading.FrameReader.Read | services/asr-worker/asr_worker.py:35-60 | what a read delivers depends on the remaining bytes alone, not on how they arrive; every request is for at least one byte and at most 64 KiB; it gives up exactly when a wait is found late with part of a frame at hand, and then keeps everything |
| FrameReading.FrameReader.Serve | services/asr-worker/asr_worker.py:182-189 | the frames before the first outcome that is none are delivered; frames, newlines and pending bytes together are the bytes consumed; only a late wait ends it early |
| FrameReading.NothingIsLost | services/asr-worker/asr_worker.py:30-67 | the delivered lines with their newlines and the undelivered rest are the stream |
| FrameReading.LinesRoundTrip | services/asr-worker/asr_worker.py:30-67 | lines written one after another are delivered as they were |
| FrameReading.OversizedIsRefused | services/asr-worker/asr_worker.py:46-47 | a line over the bound is refused |
| FrameReading.OutcomeIff | services/asr-worker/asr_worker.py:38-59 | a frame is delivered exactly for a line of at most 16 MiB with its newline; of the rest, nothing left is the end of input, at most 16 MiB without a newline is truncated, and more is too large |
| FrameReading.PrefixDecides | services/asr-worker/asr_worker.py:38-47 | a newline among the first bytes, or too many without one, decides the outcome |
| JsonRepair.RepairJson | forum_agent/insights.py:98-122 | the loop computes the scan |
| JsonRepair.ScanIsWellClosed | forum_agent/insights.py:98-122 | in the output every quote that ends a string is followed by blanks and then a structural character, a line end or nothing |
| JsonRepair.CanCloseIff | forum_agent/insights.py:111-117 | what may follow a closing quote: spaces and tabs, and then nothing, a comma, a closing brace or bracket, a colon or a line end |
| JsonRepair.RawQuotesAreRepaired | forum_agent/insights.py:92-122 | a text that is JSON but for raw quotes inside its strings, none of which could be taken for the end of its string, comes out as the same JSON with those quotes escaped |
| JsonRepair.ScanIsIdentityIff | forum_agent/insights.py:98-122 | the scan leaves a text alone exactly when all its strings end properly already |
| JsonRepair.ScanIsIdempotent | forum_agent/insights.py:98-122 | repairing twice is repairing once, for every text |
| JsonRepair.RemovingAddedRestores | forum_agent/insights.py:98-122 | only backslashes in front of quotes are added, and taking exactly those out restores the text |
| JsonRepair.JsonIsLeftAlone | forum_agent/insights.py:82-122 | every text of the JSON grammar (RFC 8259 sections 2 to 7) passes unchanged |
| MachO.MachoArm64 | desktop/scripts/check_meeting_worker_bundle.py:179-257 | terminates on every byte string without reading out of bounds, with the report or the first fault of the specification |
| MachO.AcceptedIff | desktop/scripts/check_meeting_worker_bundle.py:179-257 | a file passes with a report if and only if it is a thin or FAT form of an image whose commands of kind 0x8000001C have exactly the reported search paths as names, those of the five other naming kinds the reported libraries, each once and in order, and whose last version command has the reported version |
| MachO.SearchPathIsReported | desktop/scripts/check_meeting_worker_bundle.py:233-240 | in the report of an accepted file the name of a command is a search path exactly when its kind is 0x8000001C, between those of the commands before it and those of the commands behind it |
| MachO.LibraryIsReported | desktop/scripts/check_meeting_worker_bundle.py:233-240 | and a library exactly when its kind is 0xC, 0x80000018, 0x8000001F, 0x80000023 or 0x20 |
| MachO.ReadIffHasImage | desktop/scripts/check_meeting_worker_bundle.py:183-226 | the image found is the one at the head of the only arm64 slice, or of the thin file, and nothing else is accepted |
| MachO.CommandsIff | desktop/scripts/check_meeting_worker_bundle.py:226-255 | an area is accepted exactly when that many legal commands tile it |
| MachO.BodyIff | desktop/scripts/check_meeting_worker_bundle.py:233-252 | a command is read exactly from its written form; a name ends with a zero byte inside its own command |
| MachO.NamingForm | desktop/scripts/check_meeting_worker_bundle.py:229-240 | the written form of a naming command in bytes: kind, length, the offset of the name, and the name with its zero byte at that offset |
| MachO.BuildVersionForm | desktop/scripts/check_meeting_worker_bundle.py:243-249 | that of a build version command: kind 0x32, length, platform 1 and the packed version |
| MachO.VersionMinForm | desktop/scripts/check_meeting_worker_bundle.py:250-252 | and that of a minimum version command: kind 0x24, length and the packed version |
| MachO.NamingIsLegalIff | desktop/scripts/check_meeting_worker_bundle.py:230-239 | which naming commands there are: one of six kinds, no zero byte in the name, a length that is a multiple of four and fits 32 bits |
| MachO.TableIff | desktop/scripts/check_meeting_worker_bundle.py:188-207 | a FAT table is accepted exactly when it has 1 to 64 entries whose slices lie behind it and inside the file |
| MachO.NarrowEntryForm | desktop/scripts/check_meeting_worker_bundle.py:197-205 | an entry of the narrow table is five words, its slice behind 8 + 20 n bytes of table and inside the file |
| MachO.WideEntryForm | desktop/scripts/check_meeting_worker_bundle.py:197-205 | an entry of the wide table has 64-bit offset and size, its slice behind 8 + 32 n bytes of table |
| MachO.ImageIff | desktop/scripts/check_meeting_worker_bundle.py:213-224 | an image is read exactly when its printed form stands at the head of its slice and fits |
| MachO.ImageForm | desktop/scripts/check_meeting_worker_bundle.py:213-224 | the written form of an image in bytes: one of two magic numbers, the arm64 processor number, the count and the length of the commands among seven words, and at most 16 MiB of commands |
| MachO.ImageFaults | desktop/scripts/check_meeting_worker_bundle.py:212-221 | the faults of the image head: no known magic number, fewer than 32 bytes, and another processor or commands that are too long or outside the slice |
| MachO.ThinRoundTrip | desktop/scripts/check_meeting_worker_bundle.py:179-257 | any legal commands with a version, printed as a thin file, are reported back |
| MachO.FatRoundTrip | desktop/scripts/check_meeting_worker_bundle.py:185-211 | and so they are from behind a FAT table with one arm64 entry |
| MachO.UnpackIffPack | desktop/scripts/check_meeting_worker_bundle.py:202 | unpacking and packing fixed-width fields are inverse, in both byte orders |
| MachO.VersionIsLast | desktop/scripts/check_meeting_worker_bundle.py:243-255 | the minimum version is that of the last version command, and there is one exactly when some command has one |
| MachO.NewerIffPackedLarger | desktop/scripts/check_meeting_worker_bundle.py:252-266 | comparing version tuples is comparing packed integers |
| MachO.LoadCommands | desktop/scripts/check_meeting_worker_bundle.py:225-255 | the cursor loop comes to the outcome of reading the whole area |
| AnalysisJobs.ClaimsAreBounded | desktop/crates/forum-core/src/analysis.rs:648-776 | in every run of requests a job is set running at most as often as its limit allows |
| AnalysisJobs.ClaimsUseUpAttempts | desktop/crates/forum-core/src/analysis.rs:664-776 | every claim uses up an attempt, whatever users retry, cancel and create in between |
| AnalysisJobs.LimitComesFromCreation | desktop/crates/forum-core/src/analysis.rs:520-528 | a created job's limit is at most three |
| AnalysisJobs.LaterClaimsAreOfLaterAttempts | desktop/crates/forum-core/src/analysis.rs:664-666 | no attempt is claimed twice |
| AnalysisJobs.RunKeepsValid | desktop/crates/forum-core/src/analysis.rs:648-666 | attempts stay within the limit and at most one job is active |
| AnalysisJobs.ClaimOutcome | desktop/crates/forum-core/src/analysis.rs:664-666 | running exactly when queued in this attempt, in time, current and alone; failed exactly when queued in this attempt and late, or stale and alone; otherwise refused, with the table as it was; and no other job changes |
| AnalysisJobs.FinishOutcome | desktop/crates/forum-core/src/analysis.rs:1193-1262 | a result counts exactly for a running job in this attempt with an acceptable result, and whether it is complete decides between the two successes |
| AnalysisJobs.CancelOutcome | desktop/crates/forum-core/src/analysis.rs:704-717 | a queued or waiting job is cancelled, a running one is asked to, and a finished one refuses |
| AnalysisJobs.FailOutcome | desktop/crates/forum-core/src/analysis.rs:730-747 | queued, waiting and running jobs fail; a job whose cancel was asked for does not |
| AnalysisJobs.RetryOutcome | desktop/crates/forum-core/src/analysis.rs:748-776 | a failed, interrupted, partly finished or cancelled job with an attempt left and a current snapshot is queued in its next attempt |
| AnalysisJobs.WaitOutcome | desktop/crates/forum-core/src/analysis.rs:667-685 | only a queued or waiting job is made to wait |
| AnalysisJobs.ClosedAs | desktop/forum-shell/src/analysis.rs:497-548 | what each outcome of an attempt makes of a running job and of one whose cancel was asked for, phase and attempt; no other job is touched |
| AnalysisJobs.ClaimsAreCounted | desktop/crates/forum-core/src/analysis.rs:664-666 | the number of claims bounded here is the number of requests in the run that set the job running |
| AnalysisJobs.RequeueIff | desktop/forum-shell/src/analysis.rs:566-591 | a preempted job goes on by itself exactly when resuming is wanted, it was still running, its snapshot is current and an attempt is left, and then one attempt fewer is left |
| AnalysisJobs.ClosingFreesIff | desktop/forum-shell/src/analysis.rs:497-548 | the closing calls free the job except when a cancel request came in that the outcome does not answer |
| AnalysisJobs.CancelRequestLeavesIff | desktop/crates/forum-core/src/analysis.rs:704-747 | which requests end a cancel request |
| AnalysisJobs.CancelRequestBlocksClaims | desktop/crates/forum-core/src/analysis.rs:664-666 | while it stays nothing at all is claimed |
| AnalysisJobs.LateCancelBlocksTheQueue | desktop/forum-shell/src/analysis.rs:497-548 | after a late cancel no run of requests that does not answer it claims anything |
| AnalysisJobs.Store.RequeueAfterPreemption | desktop/forum-shell/src/analysis.rs:566-591 | three store calls in one closure do what the one request does; an interrupt stands even when the retry is refused |
| AnalysisJobs.Store.Claim | desktop/crates/forum-core/src/analysis.rs:664-666 | a claim of a queued job in its current attempt sets it running when it is in time, its snapshot is current and no job is running or being cancelled; a late one fails it in any case and a stale one when none is; otherwise nothing changes |
| AnalysisLoop.AtMostOneChild | desktop/forum-shell/src/analysis.rs:452-556 | at most one worker process is unconfirmed, and while there is one the loop holds the permit and the speaker manager does not |
| AnalysisLoop.CaptureStartsAlone | desktop/crates/forum-runtime/src/resource_budget.rs:38-60 | live capture is granted only while no process of either owner of background permits, the analysis loop and the speaker manager, is left, and none starts before it is ready |
| AnalysisLoop.NothingAfterUncontained | desktop/forum-shell/src/analysis.rs:528-543 | once a worker's exit could not be confirmed nothing is claimed or started in any continuation, not even by a claim answered late, and the permit stays taken |
| AnalysisLoop.SpawnsAreBounded | desktop/forum-shell/src/analysis.rs:452-556 | a job gets no more workers than attempts |
| AnalysisLoop.AcksAreConfirmed | desktop/forum-shell/src/analysis.rs:754-768 | a checkpoint is acknowledged only after the store confirmed it |
| AnalysisLoop.JobIsRun | desktop/forum-shell/src/analysis.rs:452-556 | a whole pass that nothing disturbs: a job that can be claimed is claimed, its worker runs and is stopped, and the job ends as its result or its preemption says, with the permit free again |
| AnalysisLoop.AttemptIsClosed | desktop/forum-shell/src/analysis.rs:497-556 | with the store answering, a closed attempt leaves the job as its outcome says, also when the result is refused and the failure is reported in its place |
| AnalysisLoop.ClaimIsAnswered | desktop/forum-shell/src/analysis.rs:490-496 | the loop goes on to run the job exactly when the store answers its claim with a running job |
| AnalysisLoop.LookEndsIff | desktop/forum-shell/src/analysis.rs:685-695 | a look at the job ends the attempt exactly when its cancel was asked for, another attempt is current, or it is gone |
| AnalysisLoop.CheckpointOutcome | desktop/forum-shell/src/analysis.rs:754-768 | a checkpoint is confirmed exactly when it is acceptable and its attempt is running, and then acknowledged |
| AnalysisLoop.WorkerIsStopped | desktop/forum-shell/src/analysis.rs:802-808 | an exit that is confirmed leads to the closing call; one that is not ends the loop and containment, with an interrupt left to the store |
| AnalysisLoop.NothingStartsAfterShutdownComplete | desktop/forum-shell/src/analysis.rs:243-254 | after shutdown_complete answered true no worker is ever started |
| AnalysisLoop.TrueAnswerProvesContainmentIff | desktop/forum-shell/src/analysis.rs:243-254 | a true answer proves that no worker is left in every continuation if and only if, as polling begins, there is none to lose, none is about to start, the claim the loop waits for will be refused on the table the store will have by then, and the claim it holds a permit for cannot be granted |
| AnalysisLoop.ContainmentLostDuringPoll | desktop/forum-shell/src/analysis.rs:247-254 | from every state with a worker a poll can answer true with the worker lost |
| AnalysisLoop.LateCancelStopsAnalysis | desktop/forum-shell/src/analysis.rs:452-556 | a run, with no call lost, after which no job is ever claimed again |
| AnalysisLoop.LateClaimStopsAnalysis | desktop/forum-shell/src/analysis.rs:490-496 | a run in which a claim answered late leaves a running job without an owner, after which no job is claimed again unless that attempt is failed in passing |
| AnalysisLoop.GivenUpClaimIff | desktop/forum-shell/src/analysis.rs:490-496 | for every reachable state with a claim under way, wherever it stands in the queue: once the loop has given it up and the store has come to it, its job is newly claimed and stuck if and only if the store would have granted it to the waiting loop; and then nothing beyond what is queued is claimed in any continuation |
| AnalysisLoop.BlockedIff | desktop/forum-shell/src/analysis.rs:452-556 | while the loop has no job and nothing is being stopped, some job keeps all others from being claimed if and only if a job is active once the queue has run that the loop is not about to get; otherwise a run claims a new job |
| AnalysisLoop.RefusedCloseSticksIff | desktop/forum-shell/src/analysis.rs:510-548 | a refused closing call leaves the job stuck exactly when nothing that is queued ends its attempt |
| AnalysisLoop.StuckStopsAllClaims | desktop/forum-shell/src/analysis.rs:452-556 | while a job will be active once the queue has run and the loop does not have it, no schedule claims anything beyond what is queued |
| AnalysisLoop.UnendedIsStuck | desktop/forum-shell/src/analysis.rs:452-556 | a job that is active now, that the loop does not have and that no queued call ends, is stuck so, and no claim at all is on its way |
| AnalysisLoop.ReachableKeepsInv | desktop/forum-shell/src/analysis.rs:360-809 | the invariant of the loop, the store, the gate and the poll holds in every reachable state |
| AnalysisLoop.ResourceBudget.Admit | desktop/crates/forum-runtime/src/resource_budget.rs:98-118 | when background work is admitted, and what that changes |
| AnalysisLoop.ResourceBudget.PrepareLive | desktop/crates/forum-runtime/src/resource_budget.rs:38-55 | from its first region on all background work is refused |
| AnalysisLoop.InsightsAreSpaced | desktop/forum-shell/src/analysis.rs:195-206 | automatic insights are at least an interval apart |
| AnalysisLoop.NoInsightIsSkipped | desktop/forum-shell/src/analysis.rs:195-206 | no spaced choice among the polls has more insights |
| AnalysisLoop.Automatic.NextJob | desktop/forum-shell/src/analysis.rs:195-206 | one poll, with the time of the last insight kept |
| MeetingSeal.AtMostOneSealEvent | desktop/forum-shell/src/meeting.rs:577-609 | however calls fail, acknowledgements are lost and the host restarts, one seal event is ever written, sent or taken in |
| MeetingSeal.SealEventIsNeverReplaced | desktop/forum-shell/src/meeting.rs:583-604 | once written the event keeps its identity, so every retry is of the same one |
| MeetingSeal.YesMeansSealed | desktop/forum-shell/src/meeting.rs:492-610 | try_seal answers yes only when capture is stopped and sealed, the transcript is sealed, and a replay's whole receipt is committed |
| MeetingSeal.CallSeals | desktop/forum-shell/src/meeting.rs:492-610 | a whole call with nothing in its way settles the abandoned runs the replayed report names, writes and sends one event, and says yes with the transcript sealed |
| MeetingSeal.CallSendsIff | desktop/forum-shell/src/meeting.rs:573-582 | a call goes on to send if and only if no run that delivered text is unsettled at its second look and the transcript was not sealed at its first; it says yes if it was, and not yet with a run unsettled |
| MeetingSeal.CallWaits | desktop/forum-shell/src/meeting.rs:492-532 | a call says not yet while capture is not stopped, a replay has no receipt or not all of it is in, or nothing is sealed |
| MeetingSeal.CallReads | desktop/forum-shell/src/meeting.rs:492-535 | and otherwise comes to the runs that the report of a replayed outbox names |
| MeetingSeal.RunIsReconciledIff | desktop/forum-shell/src/meeting.rs:536-571 | a named run is passed over unless it was unsettled, has a process number and its process is gone; then it is settled if and only if its journal agrees and the store takes it, and the call fails otherwise |
| MeetingSeal.CallReconciles | desktop/forum-shell/src/meeting.rs:533-571 | whatever processes are still there, all abandoned runs that were named are settled and no others |
| MeetingSeal.NewEventIsSent | desktop/forum-shell/src/meeting.rs:583-609 | with nothing pending one event with the manifest that was read is written, and the answer of the store is that of the call |
| MeetingSeal.PendingEventIsSentAgain | desktop/forum-shell/src/meeting.rs:583-609 | an event that is still pending is sent as it is |
| MeetingSeal.IngestIff | desktop/crates/forum-core/src/reliable.rs:538-585 | the store takes a new seal exactly when the session permits it, capture is stopped, nothing is sealed, the manifest is its own and every run that delivered text is settled |
| MeetingSeal.SealedRunsAreSettled | desktop/crates/forum-core/src/reliable.rs:538-585 | every run that had delivered text when the transcript was sealed is sealed or reconciled |
| MeetingSeal.ReconciledOnEvidence | desktop/forum-shell/src/meeting.rs:533-571 | a run is reconciled only when its process is gone, its own journal agrees with a report that named it, and that report or a later one was of a replayed outbox |
| MeetingSeal.ReceiptIsWriteOnce | desktop/forum-shell/src/meeting.rs:799-813 | an accepted replay receipt cannot change while the host lives |
| MeetingSeal.ReceiptAcceptedIff | desktop/forum-shell/src/meeting.rs:771-813 | when a receipt is accepted |
| MeetingSeal.LostAnswerIsRepaired | desktop/forum-shell/src/meeting.rs:492-610 | if only the answer was lost, the next call that no failing call or restart interrupts says yes, whatever the other threads do short of delivering text of a run that is not settled; it ends after at most 1008 steps of its own and writes nothing |
| MeetingSeal.EvidenceMayMixReports | desktop/forum-shell/src/meeting.rs:533-535 | a run in which the reported runs and the replay flag come from different reports |
| MeetingSeal.OneReportIff | desktop/forum-shell/src/meeting.rs:533-535 | the runs are those of the report shown at the first read and the flag is that of the report shown at the second; they are one report if and only if none arrives between the reads, and then what goes on to be reconciled is what that replayed report names |
| MeetingSeal.UndividedReadsVouch | desktop/forum-shell/src/meeting.rs:533-571 | in a run where no report arrives between the two reads every reconciled run was named by a report of a replayed outbox |
| MeetingSeal.VouchedIff | desktop/forum-shell/src/meeting.rs:533-571 | over every run, a run is named by a report of a replayed outbox exactly when it was before or when such a report has come in since |
| MeetingSeal.ReachableKeepsInv | desktop/forum-shell/src/meeting.rs:492-813 | the invariant of the host, the outbox, the store and the RPC handler holds in every reachable state |
| MeetingSeal.ModelReadiness.Ready | desktop/forum-shell/src/meeting.rs:685-720 | a report is published whole or not at all |
| MeetingSeal.ModelReadiness.CaptureDispatchComplete | desktop/forum-shell/src/meeting.rs:771-813 | a receipt is taken exactly when it is valid and repeats an earlier one |
| MeetingSeal.UniqueIff | desktop/forum-shell/src/meeting.rs:782-787 | comparing set size with length tells whether a segment stands twice |
| MeetingSeal.Outbox.SealEvent | desktop/forum-shell/src/meeting.rs:583-604 | a pending event is found again; a new one is written only when there is none |
| Insights.VerbatimQuoteIsGrounded | forum_agent/insights.py:58-67 | a long enough verbatim quote is grounded wherever it stands, also when it differs in characters that do not count |
| Insights.RefreshIsClean | forum_agent/insights.py:250-293 | after a live refresh every section keeps its size, shows nothing hidden, and approves nothing whose quote is not in the transcript |
| Insights.RefreshedItem | forum_agent/insights.py:254-292 | each item a refresh shows is the last that had its text, unchanged but for a quote that has left the transcript and gives way to the first suggested one that is in it, or, when none had, a new one made of a suggestion field by field |
| Insights.GroundedIff | forum_agent/insights.py:58-67 | a quote is grounded when at least four of its folded characters count and they stand in the folded transcript as one piece |
| Insights.SnapshotComesFrom | forum_agent/insights.py:254-292 | a carried item has a current quote and is otherwise unchanged; every other item comes from the answer |
| Insights.CopiesAgree | forum_agent/insights.py:264-280 | two copies of a carried item are equal |
| Insights.ApprovedUngroundedIsVouched | forum_agent/insights.py:396-424 | over every run of refresh, operator actions and reset an item made ungrounded is approved only after an operator approve or edit |
| Insights.SetItemHides | forum_agent/insights.py:411-422 | exactly which texts are hidden after an operator action |
| Insights.SetItemActs | forum_agent/insights.py:396-422 | after an operator action every section has the items it had, in order; those with this id are approved after approve and edit, hidden after hide, draft after demote, and only an edit changes their texts; no other item changes |
| Insights.SetItemEntries | forum_agent/insights.py:182-188 | what the action adds to a log has both texts of an item with this id that stands approved |
| Insights.SuppressedUntilLifted | forum_agent/insights.py:250-424 | a hidden text stays suppressed, and no refresh shows it, until it is lifted |
| Insights.HiddenLeavesTheLog | forum_agent/insights.py:415-417 | after an item is hidden or demoted its text is out of its section's log, and no other text is affected |
| Insights.LogsHaveNoTwins | forum_agent/insights.py:182-188 | in every run each section's log has one entry for each text |
| Insights.LogKeepsItsOrder | forum_agent/insights.py:182-424 | behind a text that no operator action touches everything that is logged later is put, and stays |
| Insights.LoggedIff | forum_agent/insights.py:182-424 | over every run from an empty panel a text is in a section's log exactly when some step brought it in and none has taken it out since |
| Insights.LoggedTextsAreSigned | forum_agent/insights.py:396-424 | without automatic approval every logged text was approved or written by the operator and not taken out since |
| Insights.DraftIsLoggedIff | forum_agent/insights.py:250-295 | from the old section, the answer and the transcript: a refresh logs a text that its section does not show as approved if and only if automatic approval is on, the text was not logged, a suggestion of it is shown, and it was there unapproved or is new and nowhere shown with a current quote |
| Insights.ShownIff | forum_agent/insights.py:254-293 | which texts a refreshed section shows: those of a suggestion that is usable, whose item has a current quote by then, and that is among the first of its kind |
| Insights.RefreshShowsIff | forum_agent/insights.py:254-293 | and on the whole panel: the summary shows the first six and every other section the first four of the suggestions that stay |
| Insights.DraftIff | forum_agent/insights.py:254-292 | under automatic approval the unapproved items are those carried as such and the new ones without a quote in the transcript |
| Insights.UngroundedDraftIsLogged | forum_agent/insights.py:282-295 | for every transcript, a point suggested without a quote stands as a draft and in the log at once, and nobody approved it |
| Insights.AnswerMeetsItsMeetingIff | forum_agent/insights.py:229-250 | whatever others do while an answer is awaited and after its check: the check passes exactly when no reset and no stop came before it, a passed answer is always put, and on the panel of its own meeting exactly when no reset came between check and put |
| Insights.StaleAnswerReachesNewMeeting | forum_agent/insights.py:229-250 | a run in which an old answer stands on a new meeting's panel |
| Insights.InsightEngine.PutAnswer | forum_agent/insights.py:250-295 | the loops over kinds, suggestions and log entries compute the refreshed panel |
| Insights.InsightEngine.Set | forum_agent/insights.py:396-424 | the loops over kinds and items carry out an operator action |
| Insights.InsightEngine.ResetPanel | forum_agent/insights.py:165-173 | an empty panel in a new generation |
| SoFar.EveryPointOnce | forum_agent/sofar.py:28-51 | every approved text of the session is in exactly one place and nothing else is anywhere |
| SoFar.PointIsInItsFirstPhase | forum_agent/sofar.py:36-49 | that place is in the phase that was current when the text was first approved |
| SoFar.LineOutcome | forum_agent/sofar.py:31-51 | a line begins a phase exactly when there is none or its title is a new one, and puts the first approved items of its kinds whose texts were not seen, with both texts, in front of the row of their own kind, the last one first; earlier phases stay |
| SoFar.ShownIsPage | forum_agent/sofar.py:52-60 | the page has the phases with points and no others, the latest first |
| SoFar.TitledIs | forum_agent/sofar.py:54-59 | a phase without a title goes by the first 24 characters of its first point |
| SoFar.EveryPointIsShownOnce | forum_agent/sofar.py:28-60 | leaving out empty phases, titling and reversing lose and add nothing, and torn lines do not matter |
| SoFar.TornLinesDoNotMatter | forum_agent/sofar.py:31-34 | undecodable lines change nothing |
| SoFar.Build | forum_agent/sofar.py:28-60 | the loops build that page |
| PipelineModel.NumbersAreLines | forum_agent/pipeline.py:108-123 | segment number k is line k of the transcript and carries its text |
| PipelineModel.AtMostOneTranslation | forum_agent/pipeline.py:84-97 | a line is translated at most once, and translations come in the order of their lines |
| PipelineModel.FinalBecomesLine | forum_agent/pipeline.py:108-123 | the oldest final with speech in it becomes the next line, and its translation job carries the line and its number |
| PipelineModel.JobIsTranslated | forum_agent/pipeline.py:84-97 | the oldest job has its translation written under the number of its line, unless it is empty or the pipeline is closed by then |
| PipelineModel.DoneSetsIdleIff | forum_agent/pipeline.py:64-72 | after a final, the idle flag is set exactly when no other is queued at the test |
| PipelineModel.FirstFinalIsTranslated | forum_agent/pipeline.py:53-123 | from the start on a final with speech in it is a line, and its translation is written |
| PipelineModel.FinalsAreTakenInOrder | forum_agent/pipeline.py:53-75 | no final is lost, doubled or overtaken before it is taken, and none gives more than one line |
| PipelineModel.IdleWithFinalQueued | forum_agent/pipeline.py:53-72 | a run in which idle is set with a final in the queue |
| PipelineModel.IdleIsRightIff | forum_agent/pipeline.py:53-72 | over every run the idle flag tells the truth all along if and only if it is never set while a final is being put or is queued |
| PipelineModel.Pipeline.OnFinal | forum_agent/pipeline.py:108-123 | one more line, with its own number in the queue for translation |

## Left out

- Counters are mathematical integers: the wrap-around of 32- and 64-bit counters is not modelled.
- Status labels, notices, log lines and error texts of the host, and the display of them.
- Time limits: waits that end by themselves are steps that may happen at any moment.
- Audio time is counted in samples. Floating-point rounding in `forum_agent/segmenter.py` and `forum_agent/replay.py`
  is not modelled, nor are automatic gain and speaker similarity.
- Panics of the worker threads and of store closures.
- `desktop/forum-shell/src/runtime.rs`: the change of translation direction while a meeting runs.
- `desktop/forum-shell/src/meeting.rs`: `project_transcript`, a filter and a sort over one store snapshot; the session
  state changes of `activate_if_ready`, `mark_stopping` and `interrupt`; the roles a ready message announces.
- `desktop/forum-shell/src/analysis.rs`: progress counters, the pause messages to the worker, the stop intents and the
  choice among listed jobs; any job may be tried next.
- `desktop/forum-shell/src/analysis.rs`: `lifecycle_persisted` as a part of `shutdown_complete`.
- `desktop/crates/forum-core/src/analysis.rs`: a repeated delivery of a result that was already accepted, artifacts and
  publication.
- AnalysisLoop.LateClaimStopsAnalysis: the listing of queued jobs is not a step. The loop may pass over any job here,
  also over one it has lost sight of, which the listing would not show; the runs in which it fails that attempt are
  excepted. The same holds for `AnalysisLoop.GivenUpClaimIff` and `AnalysisLoop.BlockedIff`.
- AnalysisLoop.BlockedIff: is about a loop that has no job in hand. What becomes of a job in hand is told by
  `AnalysisJobs.ClosingFreesIff` and `AnalysisLoop.RefusedCloseSticksIff`. Once something is being stopped the loop claims
  nothing by intention.
- `desktop/forum-shell/src/speaker_manager.rs`: `pause`, which waits with the state lock released, the value of the
  model path, and the calls of `update` that only change what is displayed, but for the lock they take.
- `desktop/crates/forum-runtime/src/resource_budget.rs`: the catch-up slices under pressure. Pressure only refuses more.
- `forum_agent/insights.py`: the archived refresh, minutes, convergence line and topic; Unicode tables are a parameter
  of the normalisation; the file written after each change.
- `forum_agent/insights.py` keeps one object for two copies of an item. Items are values here: the copies are proved
  equal after a refresh, but when the operator edits an item that stands twice in a section, the order of its log
  entry may differ from the source.
- `forum_agent/insights.py:123`: the substitution of trailing commas, which also edits inside strings.
- `forum_agent/pipeline.py`: failed file appends, lag figures and partials.
- `forum_agent/sofar.py`: items that are not well-formed, and `last_updated`.
- `services/asr-worker/asr_worker.py`: the content of requests and responses. Which waits are late is an input.
- `desktop/scripts/check_meeting_worker_bundle.py`: the loader path rules and everything around the parser. The file is
  assumed not to change while it is read.
- Process spawning, sockets, file permissions, model inference, web pages and packaging.
