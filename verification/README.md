# Verification of the stdio_bus Python client engine

A Dafny model of what the asynchronous stdio_bus client does between awaits, with proofs
about every run of it: how responses, chunks, deadlines, crashes and shutdown race to end a
request, how notification subscriptions buffer and close, how the subprocess lifecycle and the
pending table fit together, how the Docker backend cuts a stream into messages, and how the
native backend is driven by the event loop. `dafny verify dfyconfig.toml` checks all of it.

## How it is built

Each component has two layers. A *value model* gives its state as a datatype and each atomic
region as a function; the theorems about whole runs are lemmas about these. A *class* has the
source's fields and methods, and each method's `ensures` says that its effect is the function's.

| file | contents |
|---|---|
| `Protocol`, `Table`, `Decoding` | messages and their JSON-RPC 2.0 classes; the pending table and its operations; what each message does to it |
| `TableInvariant`, `TraceRefinement`, `TraceTheorems` | the table invariant; what a run means for one request, for two modes, for everybody else |
| `Lifecycle`, `Session`, `SessionInvariant` | the subprocess lifecycle; client, backend, calls and clock as one state machine |
| `SessionTheorems`, `SessionParity` | outcomes, clean-up, deadlines; what a call returns in either mode |
| `Shutdown`, `Transitions`, `LostRequests`, `Witnesses` | stop, crash and destroy; what each event does to the backend; requests that nothing ends; concrete runs that break a promise |
| `Subscription`, `FanOut` | bounded subscriptions; delivery to many of them |
| `ClientBus` | the classes `PendingRequest`, `NotificationSubscription`, `AsyncStdioBus` |
| `Framing`, `Docker` | line splitting; the read loop and `send` of the Docker backend |
| `Subprocess` | the subprocess backend's methods, its read loop, its config write loop |
| `NativeDriver`, `Native` | the native driver as a value and as a class |
| `Marshalling` | the thread-marshalling shim |
| `Sequences` | facts about sequences |

Runs are arbitrary sequences of events; an event that the code refuses, or that cannot happen,
changes nothing. A region may be cut into more events than the code has (opening a stream and
the first turn of its loop, for one), which only adds runs; timers are not ordered among each
other. The tail of `stop()` awaits the read task that it has cancelled and then marks the backend
stopped: these are two regions, `CancelReader` and `EndStop`. Fields named `taken`, `since`, `log`,
`offered`, `yielded`, `crashes`, `driven` and the like are history that the code does not keep.

Inputs from outside are parameters or events: answers of the backend and of the C library, lines
and chunks that arrive, the clock. Message ids are fresh uuids: an id is used at most once.
An asyncio queue is a FIFO, a future a write-once cell that may be cancelled, and a wait ends
with an item if one is ready and otherwise, at its deadline, with a time-out. Each subscription
has one consumer. Handlers registered by the user do not touch the state of the bus.

## What the code does not promise after all

Each promise is followed by the run that breaks it and by the exact condition under which it holds.

* Pending requests only on a RUNNING backend: `destroy()` does not fail pending requests
  (`DestroyBreaksGate`), and `GateBrokenExactlyBy` shows that nothing else breaks this, however
  `start()` and `stop()` overlap. The reason is that `stop()` closes the standard input before
  its first await: a `start()` that it overlaps brings the backend to RUNNING, but a request
  raises there and leaves no entry (`OverlapRefusesRequests`).
* No close callback after a teardown: it can follow a `stop()` that was called before `start()` had
  ended, or before it was called (`OverlapFiresCallback`, `StopBeforeStartFiresCallback`), and it
  follows no other `stop()` and no `destroy()` (`CallbackFollowsExactlyEarlyStop`).
* Total clean-up of the table: a cancelled `request()` keeps its entry until a response, stop or
  crash, because cancellation is not an `Exception` (`CancelledKeepsEntry`). This is the only
  exception (`CleanupIsTotalButForCancel`, `LeavingCleansUp`).
* Every response ends its request: one whose `error` member is not an object takes its request out
  of the table and delivers nothing (`BrokenResponseLoses`); exactly these do
  (`BrokenResponseLosesRequest`).
* Messages in the order of their submission: one from a foreign thread is overtaken by one handled
  inline (`InlineOvertakes`); `OrderKeptExactlyWithoutOvertaking` is the condition.
* A destroyed native backend can be started again: not after a failed create
  (`FailedCreateBlocksRestart`), and exactly then not (`RestartAfterDestroy`).

## Model

| member | source | states |
|---|---|---|
| Decoding.ResponseDelivers | stdiobus/client.py:548-571 | a response brings its own result with the collected text, or its own error code, message and data, to the pending request that its id names, and changes nothing else |
| Decoding.ResponseEndsCall | stdiobus/client.py:548-571 | in a session the call then returns that result or raises that error, unless the caller leaves |
| Decoding.NotificationBroadcasts | stdiobus/client.py:573-591 | a notification brings a text to every pending request exactly if it is an agent_message_chunk with that text, else it leaves the table as it is |
| Decoding.OthersIgnored | stdiobus/client.py:535-553 | what is not JSON, has neither id nor method, or answers no pending request changes nothing |
| TableInvariant.RunKeeps | stdiobus/client.py:108-130 | every run of table operations keeps one delivery mode per entry, the history shape and agreement with the broadcast log |
| TableInvariant.BroadcastLogAgreement | stdiobus/client.py:573-591 | a pending request holds exactly what was broadcast since it was registered; of two, the later one's chunks are a suffix of the earlier one's |
| TableInvariant.ExactlyOneTerminal | stdiobus/client.py:108-130 | a stream history is chunks and then at most one final item, a final item means that the entry is out of the table, and read and queued chunks together are all chunks |
| TraceRefinement.FirstEnd | stdiobus/client.py:549-554 | the first operation of a trace that ends a request |
| TraceRefinement.OffTable | stdiobus/client.py:551-571 | off the table a request receives nothing through any run; a waiting future can only be cancelled |
| TraceRefinement.OutcomeIsFinal | stdiobus/client.py:119-130 | a delivered outcome survives every later response, failure or cancellation |
| TraceRefinement.Refines | stdiobus/client.py:518-571 | the incremental dispatcher brings a request to the state that the declarative reading of the trace gives, from any point of any run |
| TraceTheorems.RequestFate | stdiobus/client.py:548-591 | a request ends at the first operation that ends it, with the outcome the trace determines; text is attached exactly if there was a chunk and the result is an object |
| TraceTheorems.TextAttached | stdiobus/client.py:566-570 | a result gets the collected text exactly if there was a chunk and it is an object |
| TraceTheorems.JoinInOrder | stdiobus/client.py:567-570 | the aggregated text is the concatenation of the chunks in order |
| TraceTheorems.UnknownResponseIgnored | stdiobus/client.py:551-553 | a response to no pending request changes nothing |
| TraceTheorems.NonInterference | stdiobus/client.py:877-932 | all that is done to one request, in any run, leaves every other request as if it had not been done |
| TraceTheorems.ModeParity | stdiobus/client.py:892-926 | registered as a future or as a stream in one run of the table, a request that is not cancelled collects the same chunks and is given the same outcome, and both runs leave the same table and the same other requests |
| Session.RunIsTrace | stdiobus/client.py:800-826 | the table of a session is the table of its operations, so that the theorems about the table hold of sessions |
| SessionInvariant.SessionStep | stdiobus/client.py:779-932 | every event keeps the invariant that ties each call to what its entry received |
| SessionInvariant.BackendStep | stdiobus/backends/subprocess.py:115-146 | a backend that has left RUNNING is over for good, and the callback fires only from RUNNING |
| SessionInvariant.JoinedStep | stdiobus/backends/subprocess.py:318-336 | every event keeps: while the client has its backend, requests are pending only if it is RUNNING with its standard input open |
| SessionTheorems.OpenedExactlyIf | stdiobus/client.py:870-893 | a call is refused without effect exactly if the bus does not run or, for a stream, some stream is pending; else it starts with its total deadline and stays in the table exactly if it was sent |
| SessionTheorems.OutcomeStable | stdiobus/client.py:894-932 | a call ends at most once |
| SessionTheorems.OutcomeMeaning | stdiobus/client.py:816-826 | what each outcome says about what was delivered; a time-out means that nothing final was delivered, all chunks were read and the deadline had passed |
| SessionTheorems.OneActiveStream | stdiobus/client.py:873-880 | at most one stream is pending in any reachable state |
| SessionTheorems.CleanupIsTotalButForCancel | stdiobus/client.py:821-826 | an entry whose call has ended belongs to a cancelled request() |
| SessionTheorems.LeavingCleansUp | stdiobus/client.py:927-932 | leaving removes the entry exactly if the call is a stream |
| SessionTheorems.EndingCleansUp | stdiobus/client.py:821-826 | result, error, send failure and time-out leave no entry |
| SessionTheorems.TimeoutOnlyWhenEmpty | stdiobus/client.py:894-919 | a call times out only at a moment at which nothing is ready for it and its deadline has passed |
| SessionTheorems.ReadyBeatsDeadline | stdiobus/client.py:894-926 | a delivered result or error becomes the outcome however late the caller runs and whatever else happens, unless the caller leaves |
| SessionTheorems.LateCallsEnd | stdiobus/client.py:894-926 | with finitely many arrivals a call past its deadline ends after finitely many turns |
| SessionTheorems.DeadlineComes | stdiobus/client.py:894-926 | when time has passed up to its deadline, a call with finitely many arrivals ends after finitely many turns |
| SessionTheorems.SilenceTimesOut | stdiobus/client.py:816-823 | a call for which nothing is ready and nothing arrives times out then |
| SessionTheorems.SessionFate | stdiobus/client.py:813-820 | the fate of a request that was sent, in any session, is the declarative reading of its trace |
| SessionParity.AnswerOfArrivals | stdiobus/client.py:548-571 | in any session, what a call receives and how it ends, unless it times out or is left, is a function of the messages and failures that arrive after it was sent |
| SessionParity.AnswerHasText | stdiobus/client.py:566-571 | a stream that has ended has yielded exactly the collected chunks, and joined they are the text of its result |
| SessionParity.RequestAndStreamAgree | stdiobus/client.py:842-847 | one request() and one stream_request() for which the same arrives, in any two sessions, return the same result or raise the same exception unless one times out or is left, and the stream has yielded the chunks before it |
| Shutdown.GateBrokenExactlyBy | stdiobus/client.py:1073-1081 | destroy() with requests pending is the only event that breaks "pending implies RUNNING" |
| Shutdown.PendingImpliesRunning | stdiobus/client.py:659-684 | in every run, overlap of start() and stop() included, a client that has its backend, or was destroyed with nothing pending, has requests pending only while the backend is RUNNING |
| Shutdown.DoneForGood | stdiobus/backends/subprocess.py:310-378 | a backend that is over or dropped never runs or calls back again, and the table only shrinks |
| Shutdown.EveryRequestFailsOnce | stdiobus/client.py:640-674 | at every stop or crash, also a stop after a destroy, each pending request gets exactly one TransportError and nothing else ever; and from a running backend or with requests pending it is for good |
| Shutdown.EveryCallRaises | stdiobus/client.py:894-926 | every waiting call raises that error, a stream after all its chunks, once it has run often enough, unless it is left; no deadline comes before it |
| Shutdown.CrashDiscipline | stdiobus/backends/subprocess.py:284-288 | the close callback fires at most once in any run, only from RUNNING, and RUNNING is never re-entered |
| Shutdown.CallbackFollowsExactlyEarlyStop | stdiobus/backends/subprocess.py:318-378 | some run after a stop or destroy fires the callback if and only if it was a stop that came before start() had ended |
| LostRequests.NoRequestLost | stdiobus/client.py:549-571 | if all responses are well formed a waiting call is in the table or has its final item ready |
| LostRequests.BrokenResponseLosesRequest | stdiobus/client.py:554-564 | a response settles its request exactly if it is well formed; after a broken one the call can only time out or be left |
| Transitions.PhaseEntered | stdiobus/backends/subprocess.py:115-146 | in every reachable session, which events enter each phase, and exactly when; a process that exited during the start is never RUNNING |
| Transitions.ReaderChanges | stdiobus/backends/subprocess.py:248-288 | which events create, run and end the read task, and which of them report a crash |
| Transitions.ResourcesChange | stdiobus/backends/subprocess.py:310-336 | which events give and take the process, its standard input and the handlers |
| Transitions.FailedStartIsForGood | stdiobus/backends/subprocess.py:123-146 | a start that fails ends in STOPPED and no event brings the backend up afterwards |
| Transitions.StopStops | stdiobus/backends/subprocess.py:318-378 | a stop that runs to its end leaves a stopped backend, no read task, no pending request and no crash |
| Witnesses.DestroyBreaksGate | stdiobus/client.py:1073-1081 | a run in which destroy() leaves a request pending |
| Witnesses.OverlapRefusesRequests | stdiobus/backends/subprocess.py:331-336 | a run in which stop() overlaps start(), the backend comes up and a request raises and leaves no entry |
| Witnesses.CancelledKeepsEntry | stdiobus/client.py:821-826 | a run in which the entry of a cancelled request() stays |
| Witnesses.BrokenResponseLoses | stdiobus/client.py:556-564 | a run in which a response with a string as its error loses its request |
| Witnesses.OverlapFiresCallback | stdiobus/backends/subprocess.py:117-142 | a run in which stop() overlaps start() and the callback fires after it |
| Witnesses.StopBeforeStartFiresCallback | stdiobus/backends/subprocess.py:318-319 | a run in which stop() comes before start() and the callback fires after both |
| Subscription.StepKeeps | stdiobus/client.py:184-231 | every event keeps the subscription invariant |
| Subscription.Conservation | stdiobus/client.py:197-231 | yielded and buffered are the accepted notifications in order, offered is accepted plus rejected, the bound and the place of the sentinel hold, and under "close" a prefix is accepted |
| Subscription.NoLostWakeup | stdiobus/client.py:184-231 | a consumer parked at close finds an item, even if the sentinel did not fit |
| Subscription.RejectedExactlyWhenFull | stdiobus/client.py:206-213 | a notification is rejected exactly if the subscription is closed or full, and overflow closes exactly under "close" |
| Subscription.ClosedConserves | stdiobus/client.py:215-231 | after close nothing is lost or added in any run |
| Subscription.DrainThenStop | stdiobus/client.py:184-195 | after close the next calls yield exactly the buffer in order and then stop for ever |
| Subscription.AnswersExactly | stdiobus/client.py:184-195 | in every run, open or closed, the consumer is told the oldest buffered notification, is stopped only if there is none and the subscription is closed, and waits otherwise |
| Subscription.ToldInOrder | stdiobus/client.py:184-213 | in every run what the consumer was told and what is buffered are the accepted notifications in order |
| FanOut.ServeAllIsServedAlone | stdiobus/client.py:606-607 | the loop in any order does to each member what it does to it alone |
| FanOut.FanOutIsolation | stdiobus/client.py:606-607 | each subscriber ends as if served alone, and active means not closed |
| FanOut.FanOutOrderIndependent | stdiobus/client.py:599-607 | the order of the snapshot does not matter |
| FanOut.TeardownClosesAll | stdiobus/client.py:676-680 | teardown closes all and keeps what is buffered |
| ClientBus.PendingRequest.DeliverChunk | stdiobus/client.py:108-112 | the method has the effect of the value model |
| ClientBus.PendingRequest.DeliverResult | stdiobus/client.py:114-123 | the method has the effect of the value model; a done future is left alone |
| ClientBus.PendingRequest.DeliverError | stdiobus/client.py:125-130 | the method has the effect of the value model; a done future is left alone |
| ClientBus.NotificationSubscription.Deliver | stdiobus/client.py:197-213 | delivery with its overflow policy, and removal from the owner exactly on closing |
| ClientBus.NotificationSubscription.Close | stdiobus/client.py:215-231 | idempotent close, detached from the owner |
| ClientBus.NotificationSubscription.Next | stdiobus/client.py:184-195 | yields, stops or parks as the value model does |
| ClientBus.AsyncStdioBus.HandleMessageOnLoop | stdiobus/client.py:518-571 | the table changes as the classified message says, and notifications reach exactly the active subscriptions |
| ClientBus.AsyncStdioBus.ChunkToAll | stdiobus/client.py:590-591 | the loop gives the chunk to every pending request and to no other |
| ClientBus.AsyncStdioBus.FanOut | stdiobus/client.py:606-607 | the loop over the snapshot, in any order, serves each active subscription as if alone and keeps active equal to not closed |
| ClientBus.AsyncStdioBus.OnBackendClosed | stdiobus/client.py:627-644 | every pending request is failed and the table cleared |
| ClientBus.AsyncStdioBus.Stop | stdiobus/client.py:659-684 | every pending request is failed, the table cleared, every subscription closed |
| ClientBus.AsyncStdioBus.Destroy | stdiobus/client.py:1073-1081 | every subscription closed, the table untouched |
| ClientBus.AsyncStdioBus.BeginRequest | stdiobus/client.py:800-820 | refusal, registration, or a send that fails and leaves no entry |
| ClientBus.AsyncStdioBus.ResumeRequest | stdiobus/client.py:817-826 | the rest of the call for every way the wait can end |
| ClientBus.AsyncStdioBus.BeginStream | stdiobus/client.py:870-893 | refusal while another stream is pending, registration, or a send that fails |
| ClientBus.AsyncStdioBus.StreamTurn | stdiobus/client.py:894-932 | one turn of the loop: what is ready comes before the deadline, and an end cleans up |
| ClientBus.AsyncStdioBus.SubscribeNotifications | stdiobus/client.py:1003-1005 | a fresh, empty, active subscription |
| Framing.SplitUnique | stdiobus/backends/docker.py:192-193 | the split of a text into newline-free lines and rest is unique |
| Framing.SplitCovers | stdiobus/backends/docker.py:192-193 | lines and rest put together again are the text |
| Framing.MoreMessages | stdiobus/backends/docker.py:190-195 | messages do not depend on where the stream was cut |
| Framing.FramesRoundTrip | stdiobus/backends/docker.py:276-277 | framed messages come back as sent exactly if each is sendable |
| Docker.StreamIsData | stdiobus/backends/docker.py:176-191 | through data and time-outs the loop goes on and sees all data |
| Docker.IdleIsIgnored | stdiobus/backends/docker.py:183-184 | a time-out anywhere changes nothing |
| Docker.LoopEndsAt | stdiobus/backends/docker.py:176-203 | the loop ends at the first read in which the backend is stopped or destroyed, the stream ends or data does not decode, with what that read brings |
| Docker.DockerBackend.DispatchLines | stdiobus/backends/docker.py:192-200 | the inner loop dispatches the non-blank lines, counts them and keeps the rest |
| Docker.DockerBackend.ReadLoop | stdiobus/backends/docker.py:175-203 | however the stream is cut into reads, its messages are dispatched, counted and the incomplete line kept; after a destroy() at most the read that was waiting is served |
| Docker.DockerBackend.Send | stdiobus/backends/docker.py:270-282 | one frame is written and counted exactly if the backend is running and connected and the write does not raise |
| Subprocess.WriteConfig | stdiobus/backends/subprocess.py:228-236 | the loop ends; the pipe gets what the writes have room for, all of it exactly if none found the pipe broken |
| Subprocess.RStrip | stdiobus/backends/subprocess.py:262-262 | only newline characters at the end are removed, and all of them |
| Subprocess.JsonLineServed | stdiobus/backends/subprocess.py:262-280 | a JSON line is handed on without its newline characters and counted; after a destroy it is only counted |
| Subprocess.OtherLineSkipped | stdiobus/backends/subprocess.py:263-271 | a line that is not JSON or empty is neither handed on nor counted |
| Subprocess.ServedConcat | stdiobus/backends/subprocess.py:254-280 | after lines with no stop or destroy meanwhile the loop goes on |
| Subprocess.LoopEndsAt | stdiobus/backends/subprocess.py:254-288 | it ends at the first other read, with the line of that read, and reports a crash exactly if that is the end of the stream with no stop or destroy before |
| Subprocess.SubprocessBackend.BeginStart | stdiobus/backends/subprocess.py:117-124 | start up to its await is the lifecycle's, and the registry lists a spawned backend |
| Subprocess.SubprocessBackend.EndStart | stdiobus/backends/subprocess.py:125-146 | the rest of start is the lifecycle's |
| Subprocess.SubprocessBackend.CancelReader | stdiobus/backends/subprocess.py:368-375 | cancelling the read task is the lifecycle's: a task that has not run ends without its finally block |
| Subprocess.SubprocessBackend.EndStop | stdiobus/backends/subprocess.py:377-378 | the end of stop is the lifecycle's, and the registry forgets the backend |
| Subprocess.SubprocessBackend.Send | stdiobus/backends/subprocess.py:380-394 | one frame is written and counted exactly if the backend is RUNNING, its standard input open and the pipe whole; a closed input raises |
| Subprocess.AtMostOneAfterStop | stdiobus/backends/subprocess.py:254-265 | after a stop at most the one line being read is handed on, after a destroy none |
| Subprocess.SubprocessBackend.ReadLoop | stdiobus/backends/subprocess.py:254-288 | lines up to the end, and at most the one being read at a stop, are handed on, none at a destroy; a crash is reported exactly if the stream ended while RUNNING; the phase follows the lifecycle |
| NativeDriver.ExactlyOneDriver | stdiobus/backends/native.py:269-294 | between callbacks exactly one driver is live from start to stop or destroy, and none otherwise |
| NativeDriver.StartChoosesDriver | stdiobus/backends/native.py:256-279 | a start is driven by the poll descriptor if there is one and by a timer otherwise; one that the library refuses changes nothing |
| NativeDriver.StepsNeverNest | stdiobus/backends/native.py:307-322 | callback-driven steps never nest, whatever handlers do |
| NativeDriver.DriverMakesProgress | stdiobus/backends/native.py:288-305 | the live driver makes exactly one step when it fires and the backend is driven again afterwards |
| NativeDriver.SendMakesProgress | stdiobus/backends/native.py:377-384 | an accepted message defers exactly one step, which the loop then makes |
| NativeDriver.NoStepAfterStopOrDestroy | stdiobus/backends/native.py:333-342 | no callback steps after stop or destroy until the next start |
| NativeDriver.FailedCreateIsForGood | stdiobus/backends/native.py:251-254 | after a failed create the backend never runs again |
| NativeDriver.RestartAfterDestroy | stdiobus/backends/native.py:458-460 | a destroyed backend starts again exactly if no create had failed in the run before |
| NativeDriver.FailedCreateBlocksRestart | stdiobus/backends/native.py:251-254 | a run in which a create fails and the start after a destroy is refused |
| Native.TruncateMeaning | stdiobus/backends/native.py:351 | the number of drain steps is cut off towards zero |
| Native.NativeBackend.StepNonblocking | stdiobus/backends/native.py:307-322 | the guarded step has the effect of the value model |
| Native.NativeBackend.Start | stdiobus/backends/native.py:214-279 | a start is a turn of the driver and leaves the object at rest, with one live driver if it succeeds |
| Native.NativeBackend.FireTimer | stdiobus/backends/native.py:288-294 | the timer callback is a turn of the driver and leaves the object at rest |
| Native.NativeBackend.FireReader | stdiobus/backends/native.py:296-305 | so is the reader callback |
| Native.NativeBackend.RunDeferred | stdiobus/backends/native.py:381-382 | so is the deferred step of a send |
| Native.NativeBackend.Drain | stdiobus/backends/native.py:349-358 | never more steps than allowed and none after STOPPED is seen |
| Native.NativeBackend.Stop | stdiobus/backends/native.py:324-358 | a turn of the driver: drivers are removed first, and the drain goes on until STOPPED is seen or the truncated timeout is used up |
| Native.NativeBackend.Destroy | stdiobus/backends/native.py:444-472 | a turn of the driver: drivers and flags are released, a NULL pointer is kept |
| Marshalling.SubmissionHandledOrScheduled | stdiobus/client.py:504-516 | on the loop or before there is one a message is handled at once, from another thread it is scheduled |
| Marshalling.LoopHandlesScheduled | stdiobus/client.py:514-516 | turns of the loop handle the scheduled messages, the first ones first |
| Marshalling.EveryMessageIsHandled | stdiobus/client.py:504-516 | after any run, enough turns of the loop have handled every message exactly once |
| Marshalling.OrderKeptExactlyWithoutOvertaking | stdiobus/client.py:504-516 | handled messages are the first submitted, in order and once each, exactly if none was handled inline while others were scheduled |
| Marshalling.InlineOvertakes | stdiobus/client.py:504-516 | a run in which a message from the loop overtakes one from another thread |
| Marshalling.ForeignThreadKeepsOrder | stdiobus/client.py:504-516 | messages from one foreign thread are handled in the order of their submission |

## Left out

- Process spawning, pipes, signals, Docker commands, sockets, temporary files and binary lookup: input and output, present only as events and parameters.
- The C library behind the native backend, except that a step may run any handlers and a state query may say anything; `stop` or `destroy` called from inside a step.
- JSON text, UTF-8 decoding and top-level values that are not objects: messages are parsed, streams are characters.
- The Docker backend's `start` and `stop`, apart from the read that `stop` cancels, and the pending table of a client on the Docker or native backend: these have no close callback, so a crash there ends requests only by their deadlines.
- The raw and notification push handlers, and the shallow copy that each subscription gets: the model's notifications are values.
- The native backend's configuration errors and the check that `send` runs on the thread of the loop.
- The race inside `asyncio.wait_for` between a timer and a future that are both due.
- Ids that are arrays or objects: their text never equals the key of a request.
- The byte counters and the stderr loop of the subprocess backend, and restarts of worker processes.
- `StdioBus`, the builder, getters, option validation, request assembly, the error class table: delegation and finite tables.
- Uniqueness of uuids and of session ids: assumed.
