# SayAll, modelled and proved in Dafny

SayAll is a dictation host: a Linux session controller with a worker process, a
macOS coordinator with an audio ring, a local speech helper, and the files and
sockets between them. This project models the protocols in it that are hard to
get right and proves what they keep.

Check everything with `dafny verify dfyconfig.toml`.

## How the models are built

Concurrent code is a state machine over its atomic steps. One step is one atomic
load, store or compare-exchange, one lock section, one send or receive, one
system call, or, on an actor, what runs between two suspensions. A run is any
sequence of enabled steps, with any number of clients, writers, callers or
events; the theorems hold for every run. Sequential code that works in place is a
class or a method with loops over arrays, proved against a specification.

Where threads share an object, their code stands beside the machine as the
sequential methods it is: `toggle` and the run loop, `finish` and the reader thread,
`mutate_config_at`, the drain and `stop` of the capture ring. Between any two atomic
operations of such a method the other threads make any steps the machine allows.
Each operation is proved to be a step of the machine, so what holds in every run
holds when the method returns. `budget` bounds how many steps the others make, not
what they do; a method that still waits when they have stopped returns without a
result.

| files | component |
|---|---|
| `Session*.dfy` | the Linux session controller: admission word, restart word, startup cancel, and what the answers of recorder, worker and output come to; `SessionHost` is the clients' code, `SessionRunLoop` the run loop's |
| `Worker*.dfy` | the worker exchange: reader thread, bounded channel, single fallback, and the causes of an error; `WorkerExchange` is the code of both threads |
| `AudioRing*.dfy`, `AUHALInput.dfy` | the macOS capture ring: steps, runs, and the in-place code |
| `EditScripts.dfy`, `Scoring.dfy` | edit distance and the aggregated error rates |
| `Pcm.dfy`, `Capture.dfy`, `LocalHelper.dfy`, `Quote.dfy` | the PCM file, its host, the streaming helper and its result |
| `Config*.dfy` | edits of the configuration file by any number of writers; `ConfigDirectory` is the code of one writer among them |
| `Framing.dfy`, `Subscription.dfy` | newline framing in both implementations, and the event decoder |
| `Dictation.dfy`, `Coordinator*.dfy` | the macOS coordinator on its actor |
| `Chord*.dfy`, `GlobalShortcut.dfy` | shortcut chords and the one hotkey held |
| `Registry.dfy` | single-flight compatibility probes |

## Where the code falls short of its intent

Five intended properties do not hold as one would state them. Each is kept as the
code has it, with a run or an input that shows the failure and the condition
under which the property holds.

- A startup cancel that was accepted for a generation is meant to stop its
  recording. A stop request of an earlier generation can still be queued when a
  restart takes over its finish token (`SessionOvertaken.QueuedStopIsDisplaced`); it
  then stops, and delivers, the later generation
  (`SessionOrphanRun.CancelCanBeOvertaken`). The moment the cancel is accepted
  decides: the recording is stopped for processing if and only if the loop was then
  already past its look at the cancel word, and of the commands queued then the first
  that ends a recording was a stop request (`SessionOvertaken.CancelIsOvertakenIff`).
- Worker output before the finish line is meant to be refused. What counts is the
  moment the reader loads the flag, not the moment it reads the byte: a byte read
  before the flag is stored and looked at afterwards can become the answer
  (`WorkerLateLoad.ReadEarlyCanBeAnswered`). An early byte escapes if and only if the
  store falls between the reader's read of it and its load of the flag
  (`WorkerEarly.EscapesIffStoreRaces`); otherwise the session is refused
  (`WorkerEarly.EarlyOutputIsRefused`).
- The batch worker is meant not to be launched after the deadline. The deadline is
  looked at before the request is encoded again, so a launch can be late
  (`WorkerLateLaunch.LaunchCanBeLate`), if and only if the deadline passes between
  the two (`WorkerLateLaunch.LaunchIsLateIff`).
- The aggregate word error rate is meant to lie between the least and the greatest
  clip's. A clip may join any corpus of sound clips without breaking that if and
  only if it has no edits or has reference words (`Scoring.AggregateIsBetweenIff`).
- A task that resumes for an old operation is meant not to touch a newer
  operation's capture. Stop tasks keep to it
  (`CoordinatorRuns.StaleStopSparesCapture`). A begin task takes the newer capture
  away if and only if a capture failure left it running and it comes back from its
  preflight or its cleanup, or its launch fails (`CoordinatorRuns.BeginIntrudesIff`).
  The run that shows it (`CoordinatorRuns.AbandonedBeginIntrudes`) needs the
  preflight to outlast the reset that follows a capture failure by five seconds
  (Coordinator.swift:234). The probe itself has a deadline of two seconds
  (HelperRunner.swift:164-166) and a killed helper gets one more
  (HelperRunner.swift:269-271), so it takes a stall in something without a deadline,
  such as the signature check of `validateExecutable` (HelperRunner.swift:285-300)
  or a killed process that does not end.

The two implementations of newline framing share one limit and accept the same
streams (`Framing.SameFrames`), but report an overlong line differently
(`Framing.ErrorsDiffer`).

## Model

| member | source | states |
|---|---|---|
| `SessionTheorems.AcceptedRestartIsServed` | ui/linux/src/session.rs:237-300 | a READY restart request stays in the word until the run generation has reached its tag or the loop has exited, in every run |
| `SessionTheorems.ReadyOncePerGeneration` | ui/linux/src/session.rs:269-291 | a call about to mark its request READY still finds its reservation, and no request of that generation was READY before |
| `SessionTheorems.OneStartPerRequest` | ui/linux/src/session.rs:626-668 | two takeovers never act on requests of the same generation, and each acts on a request that was accepted |
| `SessionTheorems.ReservationHasOneOwner` | ui/linux/src/session.rs:237-300 | a reservation that is not READY belongs to exactly one call, so that call's later compare-exchanges find their value |
| `SessionTheorems.RetryIsLater` | ui/linux/src/session.rs:176-201 | the mutual recursion of `toggle` and `queue_restart` has a measure: each nested request is for a strictly later generation |
| `SessionTheorems.TokensAreDistinct` | ui/linux/src/session.rs:233-236 | the next token is non-zero, never issued before, and carries the finish bit exactly when asked |
| `SessionTheorems.AdmissionHandover` | ui/linux/src/session.rs:643-681 | the admission word changes only by its owner's release, by a fresh token taking a free word, or by the restart takeover of a finish token |
| `SessionTheorems.TokenNeverReturns` | ui/linux/src/session.rs:204-232 | a token that has left the word never owns it again, so a late release clears no other owner |
| `SessionTheorems.AdmissionNeverLeaks` | ui/linux/src/session.rs:157-232 | whoever drew the token that owns the admission word is still on its way to give it back, so the word is free once all calls have returned |
| `SessionTheorems.LoopHeadIsSettled` | ui/linux/src/session.rs:444-476 | at every loop head the recorder runs iff the state is Recording and the terminal deadline is set iff the state is terminal |
| `SessionTheorems.PublishedIsPath` | ui/linux/src/session.rs:455-467 | everything published is a path of the lifecycle graph that ends in the snapshot |
| `SessionTheorems.PathIsMonotone` | ui/linux/src/session.rs:455-467 | published generations never decrease |
| `SessionTheorems.OneDeliveryPerGeneration` | ui/linux/src/session.rs:977-996 | deliveries have strictly increasing generations, each after Stopping and Delivering were published for it |
| `SessionOutcomes.DeliveredIsTranscript` | ui/linux/src/session.rs:830-880 | in every run a generation is delivered only if its recorder was stopped well and the worker then answered with a transcript for it; and every such transcript has been delivered once the loop has left the generation |
| `SessionOutcomes.SuccessIsEarned` | ui/linux/src/session.rs:881-946 | Success is published for a generation only if the worker answered for it that there was no speech, or the output took its transcript |
| `SessionOutcomes.OutcomeFollowsAnswers` | ui/linux/src/session.rs:875-946 | a generation whose recorder was asked to stop has exactly one outcome, and the answers decide it: Cancelled if shutdown was seen at the end, else Success if there was no speech or the output took the transcript, else Error |
| `SessionOutcomes.HeardIsAnswered` | ui/linux/src/session.rs:843-874 | recorder, worker and output are each asked at most once for a generation |
| `SessionStarts.StartFollowsAnswers` | ui/linux/src/session.rs:685-785 | once a start is over, Recording has been published for its generation iff configuration, recorder and worker were there and neither shutdown nor a startup cancel was found; any other start ends in Cancelled if somebody had asked for that, else in Error |
| `SessionTheorems.CancelBeatsReadiness` | ui/linux/src/session.rs:159-175 | an accepted startup cancel is queued ahead of every stop request of its generation and of the duration limit; only an older, displaced stop request can finish that generation |
| `SessionOvertaken.CancelIsOvertakenIff` | ui/linux/src/session.rs:159-175 | once the recording of a generation whose startup cancel was accepted has ended, it was stopped for processing iff, when the cancel was accepted, the loop was past its look at the cancel word and the first queued command that ends a recording was a stop request |
| `SessionOvertaken.RecordingIsOvertakenIff` | ui/linux/src/session.rs:468-551 | at any loop head that finds such a generation recording the queue alone decides |
| `SessionOvertaken.CancelIsFinal` | ui/linux/src/session.rs:477-488 | otherwise the generation is at no later time stopped for processing or delivered |
| `SessionOvertaken.QueuedStopIsDisplaced` | ui/linux/src/session.rs:643-661 | a stop request queued while Starting is published belongs to a waiting call of an earlier generation whose finish token a restart took over |
| `SessionOrphanRun.CancelCanBeOvertaken` | ui/linux/src/session.rs:643-661 | a run in which generation 2 is delivered after its startup cancel was accepted |
| `SessionTheorems.AnsweredOnce` | ui/linux/src/session.rs:519-551 | every reply goes to a call that waits for it and has none yet |
| `SessionTheorems.LoopCanMove` | ui/linux/src/session.rs:468-476 | the loop is never blocked for good: it can move, or the call that holds the snapshot lock can |
| `SessionHost.Host.CallToggle` | ui/linux/src/session.rs:157-232 | `toggle` as sequential code, with the other threads moving between its atomic operations: it takes only model steps, holds neither the admission word nor a reservation when back, and accepted means that it made a request READY which was not before, or sent the cancel of a generation that was not over when it began; undisturbed, the state it finds decides whether it cancels the start, requests a restart, or sends a command under an admission of its own, and what it answers |
| `SessionHost.Host.QueueRestart` | ui/linux/src/session.rs:237-300 | `queue_restart` likewise; its recursion with `toggle` ends, since every retry is for a later generation; undisturbed, it makes a request READY and wakes the loop, unless there is a request already or no loop |
| `SessionHost.Host.CallConfigure` | ui/linux/src/session.rs:301-338 | `reload` and its like: answered only if the loop replied, and nothing is held on return; undisturbed, it is refused unless the state is Idle and the admission free, and otherwise sends its command |
| `SessionHost.Host.CallShutDown` | ui/linux/src/session.rs:425-431 | `shutdown_and_join` up to the join: only model steps, the flag is set, and it says whether there was a loop to tell |
| `SessionRunLoop.StartActive` | ui/linux/src/session.rs:685-785 | begins the next generation and ends in Recording with the recorder running, only if all was there and shutdown was not asked for before, or in Error or Cancelled without; undisturbed, exactly which |
| `SessionRunLoop.FinishActive` | ui/linux/src/session.rs:819-946 | for any answers of recorder, worker and output: delivers the worker's transcript, if the recorder stopped well and there is one, and nothing else, and ends in the state that tells what came of it, or in Cancelled if shutdown was seen, which it is if it was set before |
| `SessionRunLoop.Serve` | ui/linux/src/session.rs:469-552 | what each command comes to: a toggle that expects what it finds starts the next generation or finishes the current one and is answered, any other is only answered; a cancel ends the recording it was meant for and no other |
| `SessionRunLoop.Tick` | ui/linux/src/session.rs:554-623 | a terminal state whose time is up becomes Idle unless a restart waits for it, a recorder that has exited is an error, and at the duration limit the generation is finished if the admission is free |
| `SessionRunLoop.Tail` | ui/linux/src/session.rs:625-681 | begins the next generation or leaves the session as it is; undisturbed, it begins one iff a READY request for it is there, nothing records, shutdown is not set, and the admission is free or held by a finish, and then the request is served and the admission given back; a misplaced request is dropped |
| `SessionRunLoop.Round` | ui/linux/src/session.rs:468-681 | one round of `run`, with calls moving between its operations: only model steps, at most one delivery, of the current generation and only of a transcript, and the state settled again; the loop ends iff it was told to, or nobody is left to tell it anything |
| `SessionRunLoop.Restart` | ui/linux/src/session.rs:650-681 | a takeover ends at the loop head with exactly one more generation and no delivery |
| `WorkerTheorems.AnsweredOnce` | ui/linux/src/worker.rs:508-577 | at most one batch worker, only if the reader read no byte, never for a local stream, never beside an answer from the stream |
| `WorkerTheorems.LaunchIsGated` | ui/linux/src/worker.rs:925-945 | the batch worker is launched only after the gate found neither shutdown nor a passed deadline |
| `WorkerLateLaunch.LaunchIsLateIff` | ui/linux/src/worker.rs:931-945 | every launch follows a look that found time left, and comes after the deadline iff the deadline passed between that look and the launch |
| `WorkerLateLaunch.LaunchCanBeLate` | ui/linux/src/worker.rs:935-945 | a run in which it does |
| `WorkerTheorems.StreamedIsFirstLine` | ui/linux/src/worker.rs:695-749 | an answer from the stream is its first line, non-empty, within the limit and not early |
| `WorkerTheorems.FlaggedIsRefused` | ui/linux/src/worker.rs:808-869 | output whose flag the reader found not yet set yields neither an answer nor a fallback |
| `WorkerRefusals.FallbackIsTried` | ui/linux/src/worker.rs:510-577 | in every run, an error without a batch launch comes only from a local stream, after shutdown or the deadline, once the worker has written something, or because the launch itself failed |
| `WorkerRefusals.ErrorHasCause` | ui/linux/src/worker.rs:508-577 | in every run, an error comes only from a silent local stream, after shutdown or the deadline, from output that was early or whose first line is empty or too long, from a read that failed, or because something `finish` asked for did |
| `WorkerAnswers.AnswersAreGood` | ui/linux/src/worker.rs:548-577 | in every run, an answer of the stream was decoded and its worker reaped cleanly, and an answer of a batch worker came from one that was launched and answered |
| `WorkerAnswers.LaunchesPassGate` | ui/linux/src/worker.rs:925-945 | a batch worker was launched only after a look that found the shutdown flag clear and one that found time left |
| `WorkerAnswers.DeadlineEnds` | ui/linux/src/worker.rs:808-884 | after the deadline every step brings `finish` nearer to its result, whatever the worker does |
| `WorkerAnswers.ShutdownEndsWaiting` | ui/linux/src/worker.rs:808-869 | after shutdown `finish` no longer waits for a result |
| `WorkerTheorems.AllowedAfterWriting` | ui/linux/src/worker.rs:757-806 | output is allowed only once the body of the finish request was written, and the result awaited only once its newline was |
| `WorkerTheorems.AskedOfOpenStream` | ui/linux/src/worker.rs:511-533 | the finish request is written only if the stream was going on and had sent nothing when `finish` began |
| `WorkerTheorems.FrameIsBounded` | ui/linux/src/worker.rs:695-749 | the reader never holds more of a frame than the limit and one byte |
| `WorkerTheorems.ReaderMovesOn` | ui/linux/src/worker.rs:695-749 | no step of the reader is in vain: it ends once the output has, and at a failed read at once |
| `WorkerTheorems.FinishMovesOn` | ui/linux/src/worker.rs:508-577 | once the reader has ended every step brings `finish` nearer to its result, also long before the deadline |
| `WorkerEarly.EscapesIffStoreRaces` | ui/linux/src/worker.rs:702-721 | once output is allowed, a byte read too soon has escaped iff the flag was stored between the reader's read and its load |
| `WorkerEarly.EarlyOutputIsRefused` | ui/linux/src/worker.rs:808-869 | any byte read before output was allowed, without that race, yields neither an answer nor a fallback |
| `WorkerTheorems.PoliteIsNeverEarly` | ui/linux/src/worker.rs:757-778 | a worker that writes nothing before it has read the finish line is never classified as early |
| `WorkerLateLoad.ReadEarlyCanBeAnswered` | ui/linux/src/worker.rs:702-721 | a run in which a byte read before output was allowed becomes the answer |
| `WorkerExchange.Exchange.Finish` | ui/linux/src/worker.rs:508-577 | `finish` as sequential code beside the reader thread: only model steps, and its result is the unflagged first line, a batch answer after a silent stream, or an error with one of the causes of `WorkerRefusals`, where what failed is what the environment said would |
| `WorkerExchange.Exchange.ReceiveUntil` | ui/linux/src/worker.rs:808-869 | `recv_until`: a frame to decode, or an error that says whether output was seen |
| `WorkerExchange.Exchange.ReadFrames` | ui/linux/src/worker.rs:695-749 | the reader thread as sequential code beside `finish`: only model steps, and the first frame it sends is the first line |
| `AudioRingTheorems.SlotsApart` | ui/macos/Sources/SayAll/AUHALInput.swift:225-250 | at most 16 chunks are outstanding, a slot is never written and read at once, and neither side leaves its slot |
| `AudioRingTheorems.ReadIsStable` | ui/macos/Sources/SayAll/AUHALInput.swift:197-207 | no callback step changes the slot or length the handler holds |
| `AudioRingTheorems.DeliversPublished` | ui/macos/Sources/SayAll/AUHALInput.swift:197-207 | the handler has been given exactly the non-empty chunks among those published so far, in order |
| `AudioRingTheorems.HistoryIsKept` | ui/macos/Sources/SayAll/AUHALInput.swift:197-250 | what was published or handed over only grows at its end |
| `AudioRingTheorems.QuietUntilStart` | ui/macos/Sources/SayAll/AUHALInput.swift:162-178 | once `stop` cleared `running` and saw no callback in flight, no slot, length or `produced` changes until the next `start` |
| `AudioRingTheorems.QuiescedStopDrains` | ui/macos/Sources/SayAll/AUHALInput.swift:162-178 | such a `stop` leaves consumed = produced, every chunk handed over once |
| `AudioRingTheorems.CleanStopIsComplete` | ui/macos/Sources/SayAll/AUHALInput.swift:225-250 | if besides no failure was recorded since the last `start`, then behind what had been published before it exactly the inputs of the callbacks since were handed over |
| `AudioRingTheorems.StartMarks` | ui/macos/Sources/SayAll/AUHALInput.swift:138-146 | a `start` after a quiesced `stop` marks the end of all that came before, which has been handed over |
| `AudioRingTheorems.StopLooks` | ui/macos/Sources/SayAll/AUHALInput.swift:162-178 | `stop` waits while a callback is under way, for no more than its attempts, and its last look answers whether one is, by the callback's own place |
| `AudioRingTheorems.AnswerIsSeen` | ui/macos/Sources/SayAll/AUHALInput.swift:162-178 | in every run, a stop says it has quiesced only where such a look found no callback under way, and says it has not only where it found one |
| `AUHALInput.AUHALInput.Render` | ui/macos/Sources/SayAll/AUHALInput.swift:225-250 | the in-place callback takes exactly the steps of the ring model to its end |
| `AUHALInput.AUHALInput.Drain` | ui/macos/Sources/SayAll/AUHALInput.swift:197-207 | the in-place drain loop, with callback steps between its operations: only model steps, and all that was published when it began is handed over; undisturbed, exactly the model's drain to its end |
| `AUHALInput.AUHALInput.Tick` | ui/macos/Sources/SayAll/AUHALInput.swift:146-151 | the timer's handler wakes the drain and leaves it asleep with all published before handed over |
| `AUHALInput.AUHALInput.Start` | ui/macos/Sources/SayAll/AUHALInput.swift:138-146 | in place, the model's start: failure cleared, running set, the beginning marked |
| `AUHALInput.AUHALInput.Stop` | ui/macos/Sources/SayAll/AUHALInput.swift:162-178 | the waiting loop and the final drain in place, while the callback makes any steps and the timer fires: if the last look found no callback in flight, all that was published has been handed over; undisturbed, it answers whether a callback was in flight |
| `AUHALInput.RenderEnqueues` | ui/macos/Sources/SayAll/AUHALInput.swift:225-250 | undisturbed, a callback appends its whole chunk to a queue, or nothing and records the failure |
| `AUHALInput.DrainDequeues` | ui/macos/Sources/SayAll/AUHALInput.swift:197-207 | undisturbed, a drain empties that queue into the handler, skipping empty chunks |
| `Scoring.EditDistance` | tests/acoustic_e2e/scoring.py:17-30 | the two-row loop returns the least cost over all edit scripts |
| `Scoring.DistanceIsLeast` | tests/acoustic_e2e/scoring.py:22-28 | the recurrence is attained by a script and no script is cheaper |
| `Scoring.DistanceIsMetric` | tests/acoustic_e2e/scoring.py:17-30 | zero iff equal, symmetric, triangle inequality |
| `Scoring.DistanceBounds` | tests/acoustic_e2e/scoring.py:17-30 | at least the difference in length, at most the greater length |
| `Scoring.DistanceOfJoined` | tests/acoustic_e2e/scoring.py:17-30 | the distance of joined texts is at most the sum of the distances |
| `Scoring.FullAccuracy` | tests/acoustic_e2e/scoring.py:33-53 | accuracies are percentages, and word accuracy is full iff the words agree or there is no reference |
| `Scoring.ScoreMeans` | tests/acoustic_e2e/scoring.py:33-53 | with d and e the least costs over edit scripts of the words and of the letters, the report has exactly these counts; each rate times the reference length is the edits, and each accuracy times it is a hundred times what the edits leave of the reference, nothing if they exceed it |
| `Scoring.AggregateMeans` | tests/acoustic_e2e/scoring.py:56-72 | aggregation adds the counts of its reports, however they are grouped, and its figures stand to the sums as a report's do to its counts |
| `Scoring.LettersAreText` | tests/acoustic_e2e/scoring.py:36-39 | the letters scored are the normalised text with its blanks removed |
| `Scoring.AggregateBoundsCorpus` | tests/acoustic_e2e/scoring.py:56-72 | the summed edits bound the distance between the joined transcripts, over exactly their reference text |
| `Scoring.AggregateIsBetween` | tests/acoustic_e2e/scoring.py:61-62 | the aggregate error rate lies within any span of the clips' rates, if no clip without reference words has edits |
| `Scoring.AggregateIsBetweenIff` | tests/acoustic_e2e/scoring.py:42-62 | a clip keeps that true in every corpus of otherwise sound clips iff it has reference words or no edits |
| `Scoring.EmptyReferenceInflates` | tests/acoustic_e2e/scoring.py:42-43 | any clip with edits but no reference words lifts the aggregate of a faultless corpus |
| `Pcm.Convert` | daemon/stt/local_q8.cpp:46-52 | the loop fills the vector with the decoded samples, which `Pcm.DecodeInverts` and `Pcm.DecodeAppend` characterise |
| `Pcm.DecodeInverts` | daemon/stt/local_q8.cpp:46-52 | decoding the little-endian bytes of any list of signed 16-bit samples returns the samples over 32768 |
| `Pcm.HeaderDescribes` | ui/linux/src/capture.rs:411-421 | the header names 16000 Hz, one channel and 16 bits, with block size and byte rate to match |
| `Pcm.DecodeAppend` | daemon/stt/local_q8.cpp:46-52 | converting in even pieces and concatenating is converting the whole |
| `Pcm.DecodeIsExact` | daemon/stt/local_q8.cpp:46-52 | different even byte strings have different samples |
| `Pcm.FixtureRoundTrip` | ui/linux/src/capture.rs:384-431 | the reader accepts exactly the writer's files of even bounded length and returns what was written |
| `Capture.PerformAllContinues` | ui/linux/src/capture.rs:314-345 | the file is only appended to or cut to the limit, and once stored it stays and equals the WAV |
| `Capture.RecordingIsStored` | ui/linux/src/capture.rs:314-345 | a whole recording: the WAV file holds all chunks in order, cut to the limit, unless they end in half a sample |
| `Capture.Capture.FinishWav` | ui/linux/src/capture.rs:314-345 | trims in place, refuses an odd length, stores the rest |
| `LocalHelper.Batch` | daemon/stt/local_q8.cpp:149-161 | the batch reader accepts exactly even recordings of 9600 to 9600000 bytes and decodes them whole |
| `LocalHelper.FinalizedIsBatch` | daemon/stt/local_q8.cpp:118-148 | finalising feeds the file once and in order; the whole file iff it is within the limit; then batch would have heard the same and the WAV holds the same |
| `LocalHelper.Helper.Stream` | daemon/stt/local_q8.cpp:118-148 | for every interleaving with the host, the loop ends after the finish signal; it finalises exactly what batch would hear, and refuses only a recording batch refuses, a faulty read, or a host that trims below the helper's limit |
| `LocalHelper.RecordStreamed` | ui/linux/src/session.rs:704-706 | with the limit the session sets, a streamed recording ends as batch would on the stored file, unless a read was faulty |
| `LocalHelper.Helper.Round` | daemon/stt/local_q8.cpp:121-147 | a round that goes on without a signal has fed more of the file; after finish the file stays and the loop no longer waits |
| `Quote.Quote` | daemon/stt/local_q8.cpp:36-45 | the literal reads back as the text under section 7 of RFC 8259 and holds no control byte |
| `ConfigEncoding.EncodeSetsOneField` | ui/linux/src/config.rs:360-423 | a successful edit sets its field, leaves every other field and section, and fits the size limit |
| `ConfigEncoding.EditIsSpelled` | ui/linux/src/config.rs:388-415 | which text each mode and each method is written as |
| `ConfigEncoding.EncodeRefusesIff` | ui/linux/src/config.rs:360-423 | an edit fails iff the text is no object, its section is no object, a mode is set over ill-typed content or, for llm, without what it needs, or the result with its newline exceeds the limit |
| `ConfigEncoding.EncodeIsIdempotent` | ui/linux/src/config.rs:360-423 | repeating an edit yields the same text |
| `ConfigEncoding.LaterEditWins` | ui/linux/src/config.rs:360-423 | of two edits of the same field only the later one shows |
| `ConfigEncoding.EditsCommute` | ui/linux/src/config.rs:360-423 | edits of different sections that both succeed commute |
| `ConfigEncoding.OrderMatters` | ui/linux/src/config.rs:361-382 | an edit that fails alone can succeed after the other one |
| `ConfigTheorems.NoLostUpdate` | ui/linux/src/config.rs:319-357 | the file is always the first text with the committed edits applied in commit order, each to exactly the text it replaced |
| `ConfigTheorems.ResultTellsCommit` | ui/linux/src/config.rs:346-357 | Ok means committed once; an error means not committed, except a failed directory sync after the rename |
| `ConfigRefusals.RefusalHasCause` | ui/linux/src/config.rs:307-358 | in every run a change is refused only if one of the writer's own calls failed, or the file was too long, had been replaced since it was read, could not be edited so, or all hundred temporary names were taken |
| `ConfigRefusals.ResultTellsCalls` | ui/linux/src/config.rs:319-357 | Ok means that every call of the writer's that decides succeeded; an error after the commit means that the directory sync failed, and no other call |
| `ConfigRefusals.OnlyOwnTemporary` | ui/linux/src/config.rs:327-356 | a step creates a temporary file only under a free name, and fills, renames or removes only the writer's own |
| `ConfigRefusals.TemporaryGoes` | ui/linux/src/config.rs:346-356 | a rename or removal that succeeds leaves no temporary file |
| `ConfigTheorems.OnlyCommitsChange` | ui/linux/src/config.rs:350-352 | the file changes only by the lock holder's rename to its encoding of the text it found |
| `ConfigTheorems.LastEditsHold` | ui/linux/src/config.rs:319-423 | the file says what the last committed edit of each kind asked, and nothing else has changed |
| `ConfigTheorems.OneWriterInside` | ui/linux/src/config.rs:678-713 | one writer at a time is past the lock, with a current copy of the file until its rename |
| `ConfigDirectory.Directory.Mutate` | ui/linux/src/config.rs:307-358 | `mutate_config_at` as sequential code among other writers: only model steps; its result says whether it committed, and the file is the first text with all commits applied; undisturbed, with the file short enough and editable, the lock free and a name left, it succeeds iff its calls do |
| `ConfigDirectory.Directory.CreateTemporary` | ui/linux/src/config.rs:324-343 | the loop over a hundred names ends with a file of its own or gives up |
| `Framing.ReadFrame` | ui/linux/src/protocol.rs:450-486 | however the stream is cut, the result is the framing rule's and a frame is consumed through its newline |
| `Framing.ReadControlFrame` | ui/linux/src/control.rs:307-326 | however the stream is cut, the control server's result is its rule's |
| `Framing.SameFrames` | ui/linux/src/control.rs:307-326 | both accept exactly the streams with a newline among the first 65536 bytes, with the same frame |
| `Framing.ErrorsDiffer` | ui/linux/src/protocol.rs:450-486 | exactly when their errors differ |
| `Framing.ReadFrames` | ui/linux/src/protocol.rs:450-486 | reading frame after frame inverts newline-joining of valid payloads |
| `Framing.FrameIsJoined` | ui/linux/src/protocol.rs:466-474 | an accepted stream is its frame, a newline and the rest |
| `Subscription.SubscriptionDecoder.Decode` | ui/linux/src/protocol.rs:105-217 | accepts exactly the expected frame, a successful response to its own request or the next event, and advances; a refused frame changes nothing |
| `Subscription.SubscriptionDecoder.DecodeAll` | ui/linux/src/protocol.rs:129-217 | whatever arrives, what is accepted is one snapshot and then gapless events, and an orderly stream is accepted whole |
| `CoordinatorRuns.EverySetIsLegal` | ui/macos/Sources/SayAll/Coordinator.swift:197-236 | every state change ever asked for is an edge, and a task asks only while its operation is current, in every order of events |
| `CoordinatorStory.StateFollows` | ui/macos/Sources/SayAll/Coordinator.swift:89-469 | after any events, the state to which each next event leads, told from the state, whose turn it is and what happened; the tasks' cancellations and most of their places never matter |
| `CoordinatorStory.SuccessIsEarned` | ui/macos/Sources/SayAll/Coordinator.swift:237-426 | Success is asked for only on behalf of an operation for which, in this order, the capture was started, the helper was ready, a stop was asked for, the capture was stopped with a configuration, and the text was delivered and shown |
| `CoordinatorRuns.StaleTasksStay` | ui/macos/Sources/SayAll/Coordinator.swift:259-426 | a continuation of any other operation changes no state |
| `CoordinatorRuns.ResetsMatch` | ui/macos/Sources/SayAll/Coordinator.swift:203-216 | each terminal state has exactly one reset to come, and no reset outlives the state it was made for |
| `CoordinatorRuns.OperationSpansStates` | ui/macos/Sources/SayAll/Coordinator.swift:89-112 | without an operation the state rests; with one it is never terminal |
| `CoordinatorRuns.CaptureIsCurrent` | ui/macos/Sources/SayAll/Coordinator.swift:237-324 | a running capture is the current operation's |
| `CoordinatorRuns.CaptureIsKept` | ui/macos/Sources/SayAll/Coordinator.swift:237-348 | an operation keeps its capture from start to stop, if no begin task left by a capture failure is past its start while it asks for the microphone |
| `CoordinatorRuns.StaleStopSparesCapture` | ui/macos/Sources/SayAll/Coordinator.swift:334-348 | a stop task never touches another operation's capture |
| `CoordinatorRuns.BeginIntrudesIff` | ui/macos/Sources/SayAll/Coordinator.swift:286-324 | a begin task of another operation ends the running capture iff a capture failure left it running and it returns from preflight or cleanup, or its launch fails |
| `CoordinatorRuns.AbandonedBeginIntrudes` | ui/macos/Sources/SayAll/Coordinator.swift:224-236 | events, with a preflight that outlasts the five-second reset, after which such a task ends the capture of a newer operation |
| `CoordinatorActor.Actor.HandleAll` | ui/macos/Sources/SayAll/Coordinator.swift:89-469 | the object, changing its fields in place, follows the step model event by event |
| `Dictation.StateMachine.Transition` | ui/macos/Sources/SayAll/Models.swift:41-66 | takes an edge of the table or changes nothing |
| `Dictation.EdgesAre` | ui/macos/Sources/SayAll/Models.swift:41-66 | the edges: active states one by one, errors until it is over, cancellation while active, success or a quiet end from processing or delivering, and from what is over only to idle |
| `Chord.Parse` | ui/macos/Sources/SayAll/GlobalShortcut.swift:49-80 | the loop over the parts means what the grammar does, which `ChordMeaning.MeaningIff` spells out |
| `ChordMeaning.MeaningIff` | ui/macos/Sources/SayAll/GlobalShortcut.swift:49-80 | a text is a chord iff its words name distinct modifiers, by the table of names, and then a key of the table, and Command or Control is among them or there are none and the key is a function key; and it is the chord of just these |
| `ChordMeaning.CanonicalIs` | ui/macos/Sources/SayAll/GlobalShortcut.swift:83-90 | the canonical form has SUPER, CTRL, ALT and SHIFT in this order, as far as they are held, and then the key |
| `ChordTheorems.CanonicalRoundTrip` | ui/macos/Sources/SayAll/GlobalShortcut.swift:83-90 | the canonical form of a chord parses back to it |
| `ChordTheorems.CanonicalIsStable` | ui/macos/Sources/SayAll/GlobalShortcut.swift:83-90 | whatever text parses, the canonical form of its chord parses to the same chord |
| `ChordTheorems.CanonicalIsInjective` | ui/macos/Sources/SayAll/GlobalShortcut.swift:83-90 | no two chords share a canonical form |
| `ChordTheorems.CaseDoesNotMatter` | ui/macos/Sources/SayAll/GlobalShortcut.swift:55-58 | texts that differ only in ASCII letter case mean the same |
| `ChordTheorems.OuterBlanksDoNotMatter` | ui/macos/Sources/SayAll/GlobalShortcut.swift:50-51 | blanks around the text change nothing |
| `ChordTheorems.InnerBlanksDoNotMatter` | ui/macos/Sources/SayAll/GlobalShortcut.swift:54-55 | blanks around a plus sign change nothing |
| `ChordTheorems.OrderAndNamesDoNotMatter` | ui/macos/Sources/SayAll/GlobalShortcut.swift:58-71 | modifiers may come in any order and by any synonym |
| `ChordKeys.KeysArePlain` | ui/macos/Sources/SayAll/GlobalShortcut.swift:21-35 | no key of the table is a modifier name, holds a separator or a blank, or changes in upper case |
| `GlobalShortcut.GlobalShortcut.Apply` | ui/macos/Sources/SayAll/GlobalShortcut.swift:215-269 | a failed change leaves the registered hotkey, a successful one holds exactly the new one |
| `GlobalShortcut.GlobalShortcut.ApplyContents` | ui/macos/Sources/SayAll/GlobalShortcut.swift:202-213 | the same for a preference file; an unreadable one leaves the hotkey that is held |
| `Registry.SingleFlight` | ui/macos/Sources/SayAll/HelperRunner.swift:14-37 | per key at most one unsettled probe, none once the key is cached or a probe of it succeeded |
| `Registry.OutcomeReachesCaller` | ui/macos/Sources/SayAll/HelperRunner.swift:14-37 | a caller of a key that is not cached joins the probe in flight, or starts one if there is none, and is given its outcome; after a success the token is cached, after a failure nothing of the probe is left |
| `Registry.CachedAnswers` | ui/macos/Sources/SayAll/HelperRunner.swift:16-16 | a caller of a cached key is answered at once with its token and starts no probe |
| `Registry.ErrorsAreProbed` | ui/macos/Sources/SayAll/HelperRunner.swift:28-37 | nobody is given an error but that of a failed probe of the same key |
| `Registry.OneTokenPerKey` | ui/macos/Sources/SayAll/HelperRunner.swift:14-37 | all callers of a key that get a token get the same one, from a successful probe of that key |
| `Registry.StaleWaiterSpares` | ui/macos/Sources/SayAll/HelperRunner.swift:28-35 | a waiter from a failed or superseded probe neither clears nor overwrites a newer one |
| `Registry.NoProbeAfterSuccess` | ui/macos/Sources/SayAll/HelperRunner.swift:16-24 | once cached, a key keeps its token and no probe for it ever starts again |
| `Registry.CompatibilityRegistry.Run` | ui/macos/Sources/SayAll/HelperRunner.swift:5-37 | the actor's dictionaries, changed in place, follow the step model |

## Left out

- Weak memory ordering, wrap-around of 64-bit counters and generations, and wall-clock values: steps are sequentially consistent, counters are naturals, deadlines pass at any time but stay passed.
- In the code of the session, the worker and the configuration the shared words are the fields of one value that each operation replaces; the edits of a JSON document are functions on it.
- A stop request is not claimed to finish the generation its caller saw: the queued command carries only a state. Nor is Cancelled claimed to mean that nothing was delivered: shutdown can be noticed after delivery.
- Replies carry no snapshot or error text; levels, elapsed times, messages and the timer setting of a snapshot are not modelled.
- Process spawning, signals, killing and reaping a worker, and the contents of its frames (`decode_result`): the environment decides how they end.
- Channels of an audio frame are one sample sequence; one render thread runs at a time; `dispose`, quarantine and the health check of the ring are left out.
- Unicode normalisation and punctuation folding in `normalize`: scores start from normalised words. Rates are exact reals.
- Inference, model loading, the alarm budget and the parent watchdog of the local helper, and a feed that fails. When its schedule of host actions runs out while it waits, the modelled loop returns instead of sleeping on.
- The JSON library: parsing, printing and the typed decoding of sections are parameters, assumed to round-trip what an edit of a parsed document makes and to accept the names the edits write; a document with duplicate keys is not distinguished from its last value.
- Writers of the configuration that ignore the lock, and durability across power loss.
- I/O errors of a socket, and the search for duplicate keys in a control request.
- Text, names and data of subscription events: decoding them succeeds or fails.
- A queued firing of the maximum timer is an event that can come at any time; messages, metrics, levels and the HUD of the coordinator are left out.
- Chord.Parse: reads all parts before the loop that the source runs over them one by one; both refuse the same texts.
- The menu symbols and Carbon flags of a chord, its JSON preference file, and reservation by other applications.
- GTK and AppKit views, themes, settings, notifications, autostart, text delivery tools, audio conversion and mixing, the Zig daemon, licences, packaging and benchmarks.
