# A model of the voice agent's interruption core

The repository is a voice booking agent: a user talks over it, a turn version moves, and results of
tool calls made for an earlier turn must neither change the bookings nor be spoken. This project
models that core and proves what it keeps over whole runs. There are three machines and one
composition:

* **Turns**: the turn manager with the session store, the tool client and the validate / commit
  split of the booking tools. One event is one uninterrupted segment of the asyncio loop: user
  speech, an interrupt, a dispatch, the arrival of a call whose delay is over, and the return of the
  reply hook. In the in-process client everything from the end of the delay to the log entry of the
  result runs without suspension, so it is one step.
* **Rime**: the utterance machine of the speech streamer: tokens, the FIFO lock, scheduled one-shot
  tasks, the watchdog, the reader loop, the drop latch and the one-byte PCM carry. Connects, sends,
  the server, the socket and the clock are the environment and do anything.
* **The audio path**: the one-byte re-chunker, the Catmull-Rom resampler, the player queue with its
  fades and start cushion, the microphone batcher, and the outbound queue to the browser.
* **VoiceCall**: one live call, in which the busy flag joins the first two machines and their callbacks
  feed the outbound queue.

Each machine is a state datatype and a total step function `Next`; an event that cannot happen in a
state leaves it alone, so every sequence of events is a run, and the laws below quantify over all of
them. Beside each machine stands the object itself, a class whose fields are those of the source and
whose methods are its uninterrupted segments. Each such method is proved to take its object's view
from `s` to `Next(s, event)`, so the laws of the machine are laws of the object.

## Files

| file | content |
|---|---|
| `Common.dfy` | `Option`, concatenation |
| `Bookings.dfy`, `ToolClient.dfy` | rows, proposals, commit; the in-process tool client; what a request means on its own |
| `SessionStore.dfy` | the flat key space, sessions as private cells, the client object |
| `Turns.dfy`, `TurnLaws.dfy`, `TurnAnswers.dfy`, `Serializability.dfy`, `TurnManager.dfy` | the turn protocol, its laws, the manager object |
| `Carry.dfy` | PCM16 decoding and the carry re-chunker |
| `Rime.dfy`, `RimeLaws.dfy`, `RimeAttribution.dfy`, `RimeProgress.dfy`, `RimeState.dfy`, `RimeAudio.dfy`, `RimeStreamer.dfy` | the utterance machine, its laws, the streamer object |
| `Resampler.dfy`, `Player.dfy`, `PlayerLaws.dfy`, `PlayerStart.dfy`, `PlayerProcessor.dfy`, `Capture.dfy`, `SpeechPath.dfy` | the worklet, and speech from the server's bytes to the played samples |
| `Outbound.dfy` | the outbound queue |
| `VoiceCall.dfy`, `VoiceLaws.dfy`, `VoiceTurns.dfy`, `VoiceSession.dfy` | the composed call, its laws, the detector and session objects |

The step functions and their sources: `Turns.Next` is `agent/turn_manager.py:38-97`, `Rime.Next` is
`agent/tts_rime.py:75-108` and `agent/tts_rime.py:111-270`, `Player.Next` is
`web/audio-worklet.js:86-154`, `Outbound.Next` is `backend/voice.py:72-89`, and `VoiceCall.Next` is
`backend/voice.py:92-163` with `agent/stt_pipeline.py:116-130`.

## Model

| member | source | states |
|---|---|---|
| TurnLaws.StaleErasure | agent/turn_manager.py:67-81 | for every interleaving, deleting every call logged `discarded_stale` (dispatch and arrival) leaves the same bookings, confirmed state, spoken list, version and remaining log |
| Turns.EraseUnapplied | agent/turn_manager.py:53-97 | the same for any set of calls none of which is applied (raised, failed, stale or still running): the run without them ends in the state without them |
| TurnLaws.LatestRequestOnly | agent/turn_manager.py:43-85 | if nothing was applied before an interrupt, the bookings, confirmed state and speech of every continuation are those of a session born at that interrupt which never hears of the earlier calls |
| TurnLaws.LogLaw | agent/turn_manager.py:38-88 | version fields never decrease along the log; a result is applied iff its tag equals the version at arrival; that version is one more than the interrupts logged before it; the tag is the one logged at dispatch; no call gets a second result |
| TurnLaws.VersionCountsInterrupts | redis_state/session_store.py:40-49 | the version of any run is the initial one plus the number of interrupts, and so many times speech was cancelled |
| TurnLaws.AppliedTagsNeverDecrease | agent/turn_manager.py:68-88 | the tags of applied results never decrease along the log |
| TurnLaws.PendingIsOutstanding | agent/turn_manager.py:53-76 | in every run `pending_tools` is exactly the map of calls still running or whose tool raised to their dispatch versions |
| TurnLaws.OutdatedForever | agent/turn_manager.py:73-78 | a call from an earlier turn that is not applied yet never is, whatever follows |
| TurnLaws.ArrivalAppliesIffCurrent | agent/turn_manager.py:67-88 | a running call whose tool and commit succeed is applied iff its tag is current, and then changes the bookings by its own effect |
| TurnLaws.FailedCommitIsUnlogged | agent/turn_manager.py:67-88 | a fresh call whose commit raises is popped from the pending table, and nothing is logged, confirmed, spoken or written for it |
| TurnLaws.EntriesLogged | agent/turn_manager.py:38-88 | what each event logs: a speech start its version and transcript, an interrupt its two entries, a fresh dispatch one, an arrival at most one, with the tool, tag and version of the call it is about |
| TurnLaws.SpeechFollowsAppliedResults | agent/turn_manager.py:84-97 | without a reply hook the agent speaks exactly once per applied result, in log order, under the version current at that moment |
| TurnLaws.HookedSpeechIsCurrentIff | agent/turn_manager.py:90-97 | with a hook a confirmation is spoken once, in the words of the hook or, if it raised, by the template, under its arrival version, which is current iff no interrupt came while the hook was composing |
| TurnLaws.HookedSpeechCanBeStale | agent/turn_manager.py:90-97 | a concrete run in which the spoken version is no longer current |
| TurnAnswers.ConfirmedIsLastAnswer | agent/turn_manager.py:67-88 | in every run there is a confirmed state iff a result was logged `applied_fresh`; it answers the last call applied: the row read or the bookings found for a read, the row the table holds under that id right after the arrival for an update or cancel, the row under the previous next id for a create |
| TurnAnswers.SpokenIsAllSaid | agent/turn_manager.py:84-97 | in every run the spoken list is exactly what the events ask for: without a hook the template over what the call had confirmed, with one its words when it answers, each under the version the call was applied under |
| TurnAnswers.HookIsHeardOnce | agent/turn_manager.py:90-97 | once a hook has answered for a call, whatever follows, nothing more is said for it |
| TurnAnswers.ReadsAnswer | agent/tool_client.py:33-39 | a lookup returns the stored row under the asked id or raises, a search is asked for name and then phone |
| Serializability.RunIsSerial | backend/tools.py:59-109 | although every commit rewrites a whole row from a snapshot, the final bookings of any run are the applied calls' own effects replayed over the initial bookings in arrival order |
| Serializability.NoLostUpdates | backend/tools.py:89-109 | column by column: every original booking holds the last non-null value an applied call asked for, else its initial value; the row count is the initial one plus the applied creates |
| Serializability.NoLostUpdatesOfCreated | backend/tools.py:59-109 | and every booking an applied create made holds the last non-null value an applied call asked for since, else the created value |
| Serializability.RowsHaveOrigins | backend/tools.py:89-101 | there are no other rows |
| Serializability.ReplayKeepsLastWrites | backend/tools.py:73-109 | the same of the serial execution, for any list of calls |
| ToolClient.SettledIsOwnEffect | agent/tool_client.py:29-58 | reading, proposing and committing in one segment amounts to the request's own effect: a column overlay, a status write or an insert |
| ToolClient.OnlyNullInsertsFailToCommit | backend/models.py:9-18 | a fresh result can fail to commit iff it is a create whose name, date, time or service type was passed as null |
| ToolClient.LocalToolClient.RunTool | agent/tool_client.py:29-54 | the client's `run` after its delay computes the specified result of the call on the current table and changes nothing |
| ToolClient.LocalToolClient.CommitProposal | agent/tool_client.py:56-58 | commits the proposal, or raises and leaves the table alone |
| Bookings.UpdateIsOverlay | backend/tools.py:73-79 | validating and committing an update on one table changes exactly the columns with a non-null requested value |
| Bookings.CancelIsStatusWrite | backend/tools.py:82-85 | validating and committing a cancel writes the status and nothing else |
| Bookings.SnapshotCommitKeepsConcurrentWrites | backend/tools.py:89-109 | if the row moved between validate and commit, the rewrite keeps the other writer's work iff the columns this caller left alone did not move |
| Bookings.CommitKeepsTableValid | backend/tools.py:89-109 | a commit keeps ids below the next id and the required columns filled |
| Bookings.InsertStoresProposed | backend/tools.py:89-101 | an insert raises iff its name, date, time or service type is null; else it adds one row under the next id, as proposed but for a null status, which becomes confirmed, and answers with that row |
| Bookings.EditProposal | backend/tools.py:73-79 | the loop over `changes` replaces exactly the editable columns it names, in whatever order the keys come |
| Bookings.Database.CommitBooking | backend/tools.py:89-109 | the insert, or the column loop over the stored row, equals the specified commit; a raise changes nothing |
| SessionStore.KeyInjective | redis_state/session_store.py:37-38 | no two pairs of session id and suffix share a key, whatever colons the ids contain |
| SessionStore.KeyTexts | redis_state/session_store.py:37-38 | the three keys of a session, literally |
| SessionStore.SessionsAreIsolated | redis_state/session_store.py:37-73 | in every interleaving over the flat key space, what a session sees is its own operations run alone on a private record |
| SessionStore.ElsewhereUnchanged | redis_state/session_store.py:37-73 | an operation touches no key outside its session's three |
| SessionStore.ReadsAfter | redis_state/session_store.py:40-73 | the effect of each operation on the version, the pending table and the confirmed state of a session, created or not |
| SessionStore.NoEmptyHash | redis_state/session_store.py:51-60 | every operation keeps that a pending table, where there is one, is not empty |
| SessionStore.FreshSession | redis_state/session_store.py:40-73 | after reset and create the version is 1 and nothing is pending or confirmed |
| SessionStore.SessionStore.CreateSession | redis_state/session_store.py:40-42 | sets the version to 1 only if it is absent |
| SessionStore.SessionStore.IncrementTurnVersion | redis_state/session_store.py:48-49 | increments, from 0 if the session was never created, and returns the new version |
| SessionStore.SessionStore.RegisterPendingTool | redis_state/session_store.py:51-52 | adds the call with its tag to the pending hash |
| SessionStore.SessionStore.PopPendingTool | redis_state/session_store.py:54-60 | removes the call and returns its tag, or None and no change; an emptied hash disappears |
| TurnManagers.TurnManager.OnInterrupt | agent/turn_manager.py:43-50 | the interrupt step: version, two log entries, speech cancelled; no other session's data changes |
| TurnManagers.TurnManager.DispatchTool | agent/turn_manager.py:53-61 | the dispatch step of a call with a fresh id |
| TurnManagers.TurnManager.Execute | agent/turn_manager.py:63-88 | the arrival step: run, pop the tag, compare, then discard, or commit, confirm, log and speak or wait for the hook; the streamer is asked to speak iff a confirmation was added |
| TurnManagers.TurnManager.OnToolResult | agent/turn_manager.py:67-88 | the same from the moment the tool returned |
| TurnManagers.TurnManager.ReplyReady | agent/turn_manager.py:90-97 | the rest of a fresh result once the hook returned or raised: one utterance under the version checked on arrival |
| TurnManagers.EventLogger.Log | agent/event_log.py:27-31 | entries are only appended |
| Carry.RechunkRefinesStream | agent/tts_rime.py:208-220 | for every cutting of a byte stream into frames: forwarded frames hold whole samples, forwarded bytes and carry are the received bytes, and decoding frame by frame is decoding the stream |
| Carry.FrameIsEmptyIff | agent/tts_rime.py:215-220 | a forwarded frame is empty iff carry and received bytes together are less than one sample |
| Carry.ContinuousDecode | evidence/probe_straddle.py:79-86 | decoding B: the whole stream decoded once, with the seam positions |
| Carry.CarryDecode | evidence/probe_straddle.py:89-102 | decoding C: the loop with the carry yields the samples and the seams of decoding B for every list of frames |
| Pcm.DecodeAppend | evidence/probe_straddle.py:80-81 | decoding splits at any even offset |
| Pcm.DecodeEncode | evidence/probe_straddle.py:80-81 | decoding the low-byte-first two's complement encoding of any 16-bit samples gives them back |
| Pcm.EncodeDecode | evidence/probe_straddle.py:80-81 | and encoding the decoding of any whole samples gives their bytes back |
| RimeLaws.CompletionFiresOnce | agent/tts_rime.py:97-108 | in every run completions come at most once per utterance and in speak order, and the event that fires one finds that utterance current |
| RimeLaws.CompletionOf | agent/tts_rime.py:75-108 | every step does at most one `_fire_done`; a server message can only name the last sent token |
| RimeLaws.NothingHangs | agent/tts_rime.py:144-192 | once no task waits for or holds the lock, the latest utterance has completed and the agent is idle |
| RimeLaws.TextsAreSentInOrder | agent/tts_rime.py:144-169 | texts reach the socket at most once each, in speak order |
| RimeLaws.CancelSilences | agent/tts_rime.py:83-94 | from a cancel to the next speak, under every schedule, no frame is forwarded and no text is sent |
| RimeLaws.ActiveMeansOpen | agent/tts_rime.py:75-94 | in every reachable state an active agent does not drop frames |
| RimeProgress.WatchdogLetsGo | agent/tts_rime.py:173-192 | the watchdog sleeps again only within 60 s of the send and gives the lock back at the first look past that |
| RimeProgress.FrameTimeIsLastFrame | agent/tts_rime.py:203-207 | in every run the recorded frame time is that of the last frame a reader took with the latch open since the last speak and the last text handed to the socket, and none if there was none |
| RimeProgress.SleepIsMeasured | agent/tts_rime.py:169-191 | in every run a sleeping watchdog measures from the moment its text was sent and its last look |
| RimeProgress.WatchdogEndsIff | agent/tts_rime.py:174-192 | over the events of the run: a look at the clock ends the utterance being spoken iff no frame came for 8 s after the send, or the last frame is over 15 s old, or the text over 60 s, and then it completes once |
| RimeProgress.LockWorkIsBounded | agent/tts_rime.py:145-192 | in every run the steps taken by lock-holding tasks plus the work left are at most 1204 per speak or warm-up |
| RimeProgress.SomethingCanMove | agent/tts_rime.py:145-192 | while anything waits for or holds the lock some task can move |
| RimeProgress.QueueDrains | agent/tts_rime.py:145-192 | on every schedule in which the lock, unless idle, moves on at least once a round, and without new arrivals, the lock is idle after as many rounds as there is work, whatever else happens |
| RimeProgress.EveryWaiterGetsTheLock | agent/tts_rime.py:145-192 | first come, first served: on every such schedule, however many utterances keep arriving, the k-th waiter has the lock within 1204 (k + 1) rounds |
| RimeProgress.FairSchedulesExist | agent/tts_rime.py:145-192 | every state has such schedules, of every length |
| RimeProgress.LatestUtteranceCompletes | agent/tts_rime.py:144-192 | after any history such a continuation without a new speak ends with an idle lock, the latest utterance completed and the agent idle |
| RimeAttribution.DoneBeforeTextCompletesNothing | agent/tts_rime.py:228-241 | a done, or the reader's death, before the current text was handed to the socket never completes the current utterance |
| RimeAttribution.StrayDoneEndsCurrentIff | agent/tts_rime.py:228-235 | a done meant for an earlier utterance ends the current one iff the current text is sent and not completed |
| RimeAttribution.StrayDoneHappens | agent/tts_rime.py:231-235 | a concrete run in which it does |
| RimeAttribution.TextIsSentIff | agent/tts_rime.py:145-163 | in every step a text goes out iff its task has the lock and an open socket, newly connected or not, and some utterance is active; its own token is not compared with the current one |
| RimeAttribution.SupersededTextIsSent | agent/tts_rime.py:156-163 | a concrete run in which a superseded utterance's text is sent |
| RimeAttribution.LatchIsLastCommand | agent/tts_rime.py:75-94 | under every schedule the drop latch is what the last cancel or speak left, although sending a text writes it too |
| RimeAttribution.FrameIsForwardedIff | agent/tts_rime.py:203-227 | in every run a decodable frame is dropped iff the last of all cancels and speaks was a cancel, whichever utterance the frame belongs to |
| RimeAttribution.FrameAfterCancelIsForwardedIff | agent/tts_rime.py:75-90 | after a cancel a frame is forwarded iff a new speak was made, sent or not |
| RimeAttribution.OldFrameAfterSpeakIsForwarded | agent/tts_rime.py:75-81 | a concrete run in which a frame is forwarded after the next speak and before its text was sent |
| RimeAttribution.WarmUpPays | agent/tts_rime.py:111-142 | a successful warm-up leaves an open socket and one more reader, and the next text goes out without a handshake; a failed one only gives the lock back |
| RimeAttribution.DeadSocketStaysDead | agent/tts_rime.py:148-159 | a closed socket is never replaced by speaking: until a warm-up or a close no later text is sent |
| RimeAttribution.SocketCanDie | agent/tts_rime.py:148-159 | a concrete run that reaches such a state in the middle of an utterance |
| RimeState.ConnectionFromEvents | agent/tts_rime.py:126-142 | in every run the socket is what the last handshake, end or close made it, and the live readers are the successful handshakes less the readers that died: no cancel, close or new handshake ends one |
| RimeState.ActiveFromEvents | agent/tts_rime.py:75-108 | in every run the agent is active iff there was a speak and since then no cancel, no end of a close, no reader's death and no completion |
| RimeState.ScheduledByCancels | agent/tts_rime.py:83-90 | in every run each cancel schedules one completion of the utterance then current and one clear, which run in the order of the cancels and never twice |
| RimeState.SentIsLastSent | agent/tts_rime.py:162-169 | in every run the token a done is charged to is that of the last text whose send returned |
| RimeState.CompletedBy | agent/tts_rime.py:97-241 | in every run a cancel's task completes the cancelled utterance, a done or a dying reader the one sent last, a failed handshake or send its own; each iff no newer utterance has begun and it has not been completed |
| RimeState.SentTextIsWatchedIff | agent/tts_rime.py:169-192 | once its text is sent an utterance is watched iff it is still the current one, the agent active and no frame since the hand-over more than 15 s old; else it completes and the lock is free |
| RimeState.WatchdogYields | agent/tts_rime.py:174-192 | a later look lets go at once when a newer utterance has begun or the agent is no longer active |
| RimeState.WarmUpConnectsIff | agent/tts_rime.py:111-124 | a warm-up waits for the lock unless the socket is open, and makes a handshake unless it is open by then; a closed socket is replaced |
| RimeAudio.NoByteLost | agent/tts_rime.py:203-220 | in every run, between two resets of the carry, forwarded bytes and carry are the received bytes |
| RimeAudio.CarryIsOddByte | agent/tts_rime.py:203-220 | in every run the carry is the odd byte of what was accepted since the last clear, close, handshake or dropped chunk |
| RimeAudio.ForwardedDecodesLikeStream | agent/tts_rime.py:208-226 | in every run, the frames forwarded since a reset, decoded one by one, are the decoding of the bytes received since |
| RimeStreamers.RimeStreamer.HandleAll | agent/tts_rime.py:75-270 | each segment method takes its machine step, and working through any list of segments is the machine's run of that list |
| RimeStreamers.RimeStreamer.Watchdog | agent/tts_rime.py:169-192 | the real loop, for any events between its polls and any clock that advances 50 ms per poll: it ends within 1201 polls with its utterance fired and the lock free, and is the machine's run of that schedule |
| Resampler.PositionInside | web/audio-worklet.js:28-36 | every output position lies in the source, the clamp of i1 is never needed and t is in [0, 1) |
| Resampler.WholePositionsAreExact | web/audio-worklet.js:31-42 | at an integer position the output is the source sample |
| Resampler.QuadraticsAreExact | web/audio-worklet.js:32-42 | any quadratic signal is reproduced exactly away from the clamped edges |
| Resampler.PiecesJoinSmoothly | web/audio-worklet.js:37-42 | inside a chunk neighbouring pieces meet with equal value and slope |
| Resampler.ChunkAgreesIff | web/audio-worklet.js:31-42 | wherever a chunk lies in a stream, its output at a position is the stream's iff the neighbours cut off cancel out in the curve |
| Resampler.ChunkInteriorAgrees | web/audio-worklet.js:33-42 | so everywhere but in the first piece and the last two of a chunk, and there too at the ends of the stream |
| Resampler.FirstPieceAgreesIff | web/audio-worklet.js:33-42 | in the first piece iff the sample before the cut equals the one after it |
| Resampler.LastButOnePieceAgreesIff | web/audio-worklet.js:35-42 | in the last piece but one iff the sample after the cut equals the one before it |
| Resampler.LastPieceAgreesIff | web/audio-worklet.js:34-42 | in the last piece iff the next two samples, the last one repeated at the stream's end, stand in one ratio fixed by the position |
| Resampler.GridAlignsIff | web/audio-worklet.js:28-31 | after n source samples that gave k outputs the next chunk's positions are those of the stream iff k samples of output span n of source |
| Resampler.LengthRoundsUp | web/audio-worklet.js:29-29 | the output of a chunk is as long as it should be, or longer by less than a sample |
| Resampler.Drift | web/audio-worklet.js:26-45 | over any list of chunks the outputs run ahead of the source by less than one sample a chunk, and not at all iff no chunk was rounded up |
| Resampler.DoubleRateNeverRounds | web/audio-worklet.js:29-29 | in a 48 kHz context speech never drifts |
| Resampler.EachLengths | web/audio-worklet.js:29-29 | the chunks resampled one by one give the sum of their own output counts |
| Resampler.ChunkOutputAgreesIff | web/audio-worklet.js:26-45 | as lists: if no earlier chunk was rounded up, an output of a chunk is the stream's output of the same number iff the neighbours cut off cancel out |
| Resampler.ChunkEdgesShow | web/audio-worklet.js:37-38 | a ramp cut in two bends at the cut |
| Resampler.CubicBound | web/audio-worklet.js:39-42 | the interpolant overshoots its four neighbours by at most a quarter |
| Resampler.OutputBound | web/audio-worklet.js:26-45 | every output of a non-empty source is a number of magnitude at most 5/4 of the source's |
| Resampler.NaNIff | web/audio-worklet.js:29-42 | an output is not a number iff the source is empty and the rates differ |
| Resampler.ResampleCubic | web/audio-worklet.js:26-45 | the loop fills an array with the specified outputs |
| PlayerLaws.NothingLostNothingRepeated | web/audio-worklet.js:86-154 | over any interleaving of chunks, flushes and quanta, samples taken then samples queued are all samples pushed since the flush, in order; nothing is taken before the start latch |
| PlayerLaws.PlaysThroughHiccups | web/audio-worklet.js:117-144 | once started a quantum takes as many samples as it needs or as there are; there is no re-buffering |
| PlayerLaws.QueuedSpeechIsPlayed | web/audio-worklet.js:117-144 | a started player without a flush or a chunk takes, over any quanta, as many queued samples in order as they ask for, so all of them once they ask for that many |
| PlayerLaws.FlushSilences | web/audio-worklet.js:87-116 | a flush ends playback at once: every quantum after it is silent until the next chunk |
| PlayerLaws.NeverLouderThanInput | web/audio-worklet.js:121-144 | in every run no number put out is louder than the loudest pushed, fades and starvation included, and only numbers are put out if only numbers are pushed |
| PlayerLaws.OutputStaysInRange | web/audio-worklet.js:95-144 | for any PCM16 messages and any context rate every number put out is in [-5/4, 5/4], and only numbers are if every message holds a whole sample or the rate is 24 kHz |
| PlayerLaws.OutputHasNaNIff | web/audio-worklet.js:121-144 | in every run an output sample is not a number iff one was taken from the queue |
| PlayerLaws.MessageQueuesNaNIff | web/audio-worklet.js:96-101 | a message queues a sample that is not a number iff it holds no whole sample and the context rate is not 24 kHz |
| PlayerLaws.CushionOnlyGrows | web/audio-worklet.js:145-147 | the cushion never shrinks and stays in [0.5, 0.8] s, across flushes too |
| PlayerLaws.OneReportPerUtterance | web/audio-worklet.js:145-152 | in every run an utterance posts one underrun report if any sample of it starved, resumed since or not, and none otherwise; the report names the grown cushion, between 625 and 800 ms |
| PlayerStart.StateFromEvents | web/audio-worklet.js:86-147 | in every run: the samples pushed since the flush, the time of the first chunk since it, and a cushion of 0.5, 0.625, 0.78125 and then 0.8 s after no, one, two and more starved quanta |
| PlayerStart.PlaybackStartsIff | web/audio-worklet.js:104-120 | in every run the next quantum of a player that is not playing takes samples iff those pushed since the flush fill the cushion, or are more than a tenth of a second and the first chunk came more than 1.2 s ago; otherwise it is silent and changes nothing |
| PlayerStart.ShortWordIsHeard | web/audio-worklet.js:111-113 | a word of 0.4 s is held back for 1.2 s and then played |
| PlayerStart.ReportsFromEvents | web/audio-worklet.js:145-151 | in every run an utterance that starved has reported 625, 781 or 800 ms, once, by how often the player had starved before |
| PlayerLaws.FadeOutSpansQuanta | web/audio-worklet.js:126-133 | over any split into quanta the k-th starved sample is the last sample times 1 - k/48, then silence |
| PlayerLaws.StartFadesIn | web/audio-worklet.js:106-143 | in every run the starting quantum plays the samples pushed since the flush from the first one, the k-th of the first 96 at k/96 of its size, every later one untouched |
| PlayerLaws.ResumeFadesIn | web/audio-worklet.js:134-143 | after any starvation the queued samples come back, none skipped, the k-th of the first 48 at k/48 of its size, every later one untouched |
| PlayerLaws.FadeInRamp | web/audio-worklet.js:140-143 | while samples are queued the output is the queued samples under the running fade-in |
| PlayerLaws.ResumeIsClickFreeIff | web/audio-worklet.js:129-143 | the step from starvation to the resumed sample is within one ramp step iff the starvation lasted the whole ramp |
| PlayerLaws.DryAfterSpeech | web/audio-worklet.js:104-144 | at every context rate a run leaves the player dry after an audible sample and not yet starved |
| PlayerLaws.ClickHappens | web/audio-worklet.js:126-143 | at every context rate a run in which one starved sample and then speech is a jump of more than a ramp step |
| PlayerProcessors.PCMPlayerProcessor.OnChunk | web/audio-worklet.js:93-102 | a PCM message queues its resampled samples |
| PlayerProcessors.PCMPlayerProcessor.NextSample | web/audio-worklet.js:123-143 | one round of the render loop is one specified output sample |
| PlayerProcessors.PCMPlayerProcessor.HoldBack | web/audio-worklet.js:106-120 | holds back iff neither the cushion is full nor the escape hatch is open; otherwise latches the start |
| PlayerProcessors.PCMPlayerProcessor.Process | web/audio-worklet.js:104-154 | a render quantum fills the output array and moves the state as specified |
| Capture.QuantizeLaw | web/audio-worklet.js:62-62 | a quantised sample is in 16-bit range, odd in its input, within one step of the clamped input and never beyond it |
| Capture.QuantizeMonotone | web/audio-worklet.js:62-62 | louder in, no quieter out |
| Capture.QuantizeEnds | web/audio-worklet.js:62-62 | full scale and beyond is 32767 or -32767, and what is not a number is 0 |
| Capture.BatchLength | web/audio-worklet.js:50-62 | at 48 kHz a batch of 1024 samples is posted as 342 |
| Capture.FeedAllIsBlocks | web/audio-worklet.js:56-67 | sample by sample batching posts exactly the 1024-sample blocks of the signal and keeps the incomplete rest |
| Capture.QuantaDoNotMatter | web/audio-worklet.js:53-69 | the posted messages do not depend on how the signal is cut into render quanta |
| Capture.PostsEvery1024 | web/audio-worklet.js:50-67 | one message for every 1024 samples, however they arrive |
| Capture.PCMCaptureProcessor.Process | web/audio-worklet.js:53-69 | the in-place batch loop of one quantum is the specified feed; a missing channel changes nothing |
| SpeechPath.StreamIsPlayedInOrder | agent/tts_rime.py:208-226 | end to end at every context rate: a byte stream cut anyhow and re-chunked decodes whole, and under any interleaving the samples played then queued are the frames' resampled samples in order |
| SpeechPath.StreamIsPlayedWhole | web/audio-worklet.js:93-102 | in a 24 kHz context they are the decoding of the whole stream |
| SpeechPath.SpokenSamplesArePlayed | web/audio-worklet.js:93-102 | so of 16-bit samples sent low byte first, cut anyhow, the player takes and queues exactly those samples over 32768, in order |
| SpeechPath.LoneByteSpoilsOutput | web/audio-worklet.js:96-101 | a stream whose first frame is one byte makes the output not a number at every other rate |
| Outbound.AudioIsShedControlIsNot | backend/voice.py:70-89 | over any interleaving: JSON messages are all taken or queued, in order; audio taken and queued is in order a part of the audio produced; produced = taken + queued + dropped; at most 240 frames wait |
| Outbound.ShedKeepsJson | backend/voice.py:83-89 | leaving out audio messages keeps every JSON message and the order of the audio kept |
| Outbound.FrameIsShedIff | backend/voice.py:83-86 | a frame is shed iff the whole backlog, JSON included, is at the cap |
| Outbound.ControlAloneSilencesIff | backend/voice.py:83-89 | while the writer is stuck, control messages alone shed the next frame iff there are at least 240 |
| Outbound.BacklogIsTaken | backend/voice.py:72-89 | when no more audio is produced, n writer rounds take exactly the audio among the first n waiting messages |
| Outbound.AcceptedIsDelivered | backend/voice.py:72-81 | while the socket accepts every item, what is taken is delivered, in order |
| Outbound.DeliveredIsSentOff | backend/voice.py:72-81 | in every run exactly the messages taken in rounds whose send succeeded are delivered, in order; a failed send loses its own message only |
| Outbound.OutboundQueue.SendAudioFrame | backend/voice.py:83-86 | the enqueue-or-drop step |
| Outbound.OutboundQueue.WriterRound | backend/voice.py:72-81 | one round of the writer; a failed send loses the item and keeps draining |
| VoiceLaws.ComponentsAreRuns | backend/voice.py:45-59 | in every call the turn state is a run of Turns and the streamer a run of Rime, so every law of either holds of every call |
| VoiceLaws.VersionMovesIffBargeIn | agent/stt_pipeline.py:120-130 | the version moves iff non-blank speech meets a set busy flag |
| VoiceLaws.OneBargeInPerSetting | agent/stt_pipeline.py:116-130 | at most one barge-in per setting of the flag, and the version counts the barge-ins |
| VoiceLaws.BusyStep | agent/stt_pipeline.py:116-130 | the flag after any event, by what sets it, a barge-in and a completion |
| VoiceLaws.BusyUntilCleared | backend/voice.py:159-163 | over any continuation that does not set the flag, speech interrupts iff the flag was set before and neither a barge-in nor a completion came in between |
| VoiceLaws.UtteranceIsGuardedIff | backend/voice.py:92-102 | the greeting and a tool's confirmation do not set the flag: such an utterance can be interrupted iff the flag was set before it and nothing cleared it since |
| VoiceLaws.OnlyTheCurrentUtteranceClears | agent/tts_rime.py:97-108 | a completion that clears the flag is that of the current utterance |
| VoiceCall.StripCuts | agent/stt_pipeline.py:122-122 | stripping takes the ASCII white space off both ends and nothing else |
| VoiceCall.BlankIff | agent/stt_pipeline.py:122-124 | a transcript is silence iff it is all white space |
| VoiceTurns.TurnsAreFinals | backend/voice.py:117-157 | in every call there is one turn for each final transcript and none for any other, and each is where the events about it brought it: waiting for the model under the version of its own beginning, or over |
| VoiceTurns.TurnHasItsTranscript | backend/voice.py:123-138 | the k-th turn works on the k-th final transcript |
| VoiceTurns.MemoryIsConversation | backend/voice.py:144-157 | in every call the history kept for the model is, but for the notes on confirmed tools, the transcripts it answered and the texts it said, spoken or dropped, in order, and the replies spoken are the texts of turns still current |
| VoiceLaws.ReplyIsSpokenIff | backend/voice.py:135-157 | a direct reply is spoken iff no barge-in came since its own turn began, and then under the current version |
| VoiceLaws.ToolIsAppliedIff | backend/voice.py:135-147 | a tool decision has no such gate: whatever barge-ins came while the model was thinking, the call, if its tool and commit succeed, is applied iff no barge-in came since its dispatch |
| VoiceLaws.InterruptedTurnCanStillWrite | backend/voice.py:135-147 | a concrete run in which the tool call of an interrupted turn is applied as fresh |
| VoiceLaws.PendingToolCanBeUnguarded | backend/voice.py:144-163 | a concrete run in which a tool call is pending while the busy flag is clear |
| VoiceLaws.GreetingCanBeUnguarded | backend/voice.py:92-102 | a concrete run in which the greeting is spoken while the flag is clear |
| VoiceLaws.ConfirmationCanBeUnguarded | backend/voice.py:144-176 | a concrete run in which a booking's confirmation is spoken while the flag is clear |
| VoiceLaws.BargeInSilences | backend/voice.py:117-129 | from a barge-in to the next utterance the streamer forwards no frame and sends no text |
| VoiceLaws.OutIsRun | backend/voice.py:41-49 | in every call the outbound queue is a run of Outbound |
| VoiceLaws.AlwaysHandedOver | backend/voice.py:45-49 | in every call each frame forwarded and each completion reached the outbound queue, once and in order |
| VoiceLaws.EveryCompletionIsTakenOrWaits | backend/voice.py:72-163 | in every call, whatever the browser's pace, each completed utterance has exactly one speech_end taken by the writer or waiting, and the audio taken or waiting is in order a part of the frames forwarded; while the socket accepts every item, taken is delivered |
| VoiceLaws.BargeInStopsAudio | backend/voice.py:117-129 | from a barge-in to the next utterance no audio is handed to the outbound queue |
| VoiceLaws.BacklogOutlivesBargeIn | backend/voice.py:72-129 | yet after n writer rounds exactly the audio among the first n messages that waited at the barge-in has been taken, and delivered if the socket accepts it: the browser still gets a frame iff one of them is one |
| VoiceLaws.FrameAfterBargeIn | backend/voice.py:72-129 | a concrete run in which the browser gets its first frame of an utterance after the barge-in that ended it |
| VoiceSessions.InterruptionDetector.OnUserSpeech | agent/stt_pipeline.py:120-130 | fires iff the speech is not blank and the agent is busy, spends the flag, and makes the interrupt or speech step |
| VoiceSessions.VoiceCallSession.OnStt | backend/voice.py:117-129 | the transcript step: echo, barge-in or speech; a final transcript starts a turn even when it just interrupted |
| VoiceSessions.VoiceCallSession.TurnBegins | backend/voice.py:131-138 | the turn reads the gate's version before the model is asked |
| VoiceSessions.VoiceCallSession.TurnDecides | backend/voice.py:139-157 | the decision step: dispatch, gated reply, or nothing |
| VoiceSessions.VoiceCallSession.StreamerRuns | backend/voice.py:159-163 | a streamer segment with the callbacks inside it: a frame to the outbound queue, or the flag cleared and speech_end sent |
| VoiceSessions.VoiceCallSession.WriterRound | backend/voice.py:72-81 | a round of the writer inside a call |

## Where the code and its comments disagree

The model follows the code; each point is a lemma above.

* "Never spoken" (`agent/turn_manager.py:7`) is about the version at arrival. With a reply hook the
  version is not looked at again after the hook (`agent/turn_manager.py:90-97`), so a confirmation
  may be spoken after an interrupt: `HookedSpeechIsCurrentIff`.
* A tool that raises never reaches `pop_pending_tool`, so its entry stays
  (`agent/turn_manager.py:63-68`): `PendingIsOutstanding` counts it. A commit that raises pops the
  entry but logs no result: `FailedCommitIsUnlogged`.
* A stray done "must not end the next one early" (`agent/tts_rime.py:231-233`): it does once the next
  text is sent, since the code charges it to the last sent token: `StrayDoneEndsCurrentIff`.
* `_synthesize` checks `active`, not its token (`agent/tts_rime.py:156`), so a superseded text may be
  sent: `TextIsSentIff`. `speak` reopens the drop latch at once (`agent/tts_rime.py:78`), so frames of
  the cancelled utterance that arrive later are played: `FrameIsForwardedIff`.
* A socket that closed is not None, so speaking never reconnects (`agent/tts_rime.py:148-159`):
  `DeadSocketStaysDead`, `SocketCanDie`.
* The busy flag is described as true while the agent speaks or a tool call is pending
  (`agent/stt_pipeline.py:116-118`). Any completed utterance clears it, and neither the greeting nor a
  confirmation sets it, so either can go unguarded: `BusyUntilCleared`, `UtteranceIsGuardedIff`,
  `PendingToolCanBeUnguarded`, `GreetingCanBeUnguarded`, `ConfirmationCanBeUnguarded`.
* "No kinks at chunk edges" (`web/audio-worklet.js:37`): the neighbours are clamped at the edges of
  each chunk: `ChunkAgreesIff`, and each chunk's output count is rounded up: `Drift`.
* "An underrun sounds like a breath, not a click" (`web/audio-worklet.js:17`) holds from 48 starved
  samples on: `ResumeIsClickFreeIff`, `ClickHappens`.
* The cap named for audio (`backend/voice.py:70`) counts control messages too: `FrameIsShedIff`,
  `ControlAloneSilencesIff`.
* The turn gate of a text reply (`backend/voice.py:135-157`) does not hold for a tool decision, so the
  call of an interrupted turn may write: `ToolIsAppliedIff`.
* A frame of less than one sample is forwarded empty, and the player makes a sample of it that is not
  a number unless the rates are equal: `FrameIsEmptyIff`, `OutputHasNaNIff`, `LoneByteSpoilsOutput`.
* The comment at `agent/tts_rime.py:85-86` has the browser flush playback as soon as an utterance is
  cancelled. The session only sends `speech_end` (`backend/voice.py:159-163`), so what already waits for
  the browser still goes out, `BacklogOutlivesBargeIn`, `FrameAfterBargeIn`, and what the player has
  queued is played: `QueuedSpeechIsPlayed`. Only a flush would stop it: `FlushSilences`.

## Left out

- `HttpToolClient`: it suspends between check and commit, so the one-step theorems do not cover it.
  `Bookings.SnapshotCommitKeepsConcurrentWrites` says what a commit on a moved row does.
- The text search of `find_bookings` is a parameter: any deterministic search of the table, which may
  raise. Seeding, schema migration, routes, the page and the language model prompts are not modelled.
- Decisions of the language model, texts of the reply hook, outcomes of connects and sends, server
  messages, delays and the clock are arbitrary inputs. Wall-clock cancel latency is not modelled.
- Timestamps and `latency_ms` of log entries, and the entries the streamer and the session add
  themselves (speech start and end, stalls, errors), are not part of the log.
- The confirmed state is stored as a value; its JSON text, and a write the encoder would refuse, are
  not modelled.
- The two read-only queries `get_pending_tools` and `get_confirmed_state` are the functions `PendingIn` and
  `StateIn` of the store, without methods of their own.
- Call ids are random; a dispatch under an id already used is no step of `Turns.Next`.
- Arguments: a missing or unusable booking id is one case that raises, and `changes` is a dict or
  empty. A `changes` of another type, and type errors of column values, are not modelled.
- `join` and cancelled tasks; a crash of the process; hang-up, except for `close` as two steps.
- The streamer's callbacks do not suspend, as in the session (`backend/voice.py:83-89`), so
  completion is one segment. `warm_up` and `clear` messages on the wire are not recorded.
- RimeStreamers.RimeStreamer.Watchdog: takes the other tasks' events between two polls as a given
  sequence, because a method cannot itself be suspended; the machine `Rime` has the free interleaving.
- `TurnManagers.Speaker` records what the manager asked of the streamer it wraps; the text spoken is
  not looked into by the streamer model.
- Float rounding: samples are exact reals, or one value that stands for any NaN; the rounding of
  arithmetic and of stores to 32 bits is not modelled.
- Resampler.ResampleCubic: at equal rates the source returns its argument itself; the method returns
  an equal copy, so the aliasing is not captured.
- VoiceCall.Strip: white space is the ASCII white space of `str.strip`; other Unicode spaces are not
  modelled.
- VoiceSessions.VoiceCallSession.HookAnswers: does not append the note on a confirmed tool to `history`
  (`backend/voice.py:175`), which only the language model reads.
- TurnManagers.TurnManager.OnInterrupt: does not write `latency_ms` into the cancel entry, a clock reading.
- TurnManagers.EventLogger.Log: does not stamp the entry with `t_ms`, a clock reading.
- TurnManagers.TurnManager.ReplyReady: does not cover a fallback render that raises, after which nothing is
  spoken. The session's template would raise on a list of bookings (`backend/voice.py:56`), but its hook
  answers every exception of the model itself (`backend/voice.py:165-176`).
- Bookings.Database.CommitBooking: a failed insert leaves the next id alone; on Postgres it uses one up.
- Resampler.FirstPieceAgreesIff: leaves chunks of one or two samples before a cut to `ChunkAgreesIff`, where
  several neighbours matter at once; so do `LastButOnePieceAgreesIff` and `LastPieceAgreesIff` for the
  shortest chunks after a cut.
