# Verification of the TCP-over-WebSocket tunnel

This project models the tunnel server, its agents and tunnel clients, and the two host
installers, and proves properties of them in Dafny. `dafny verify dfyconfig.toml` checks all of it.

## What is modelled

**The relay** (main part). Connections accepted by an agent, or directly by the server, travel
as frames over shared WebSockets to a tunnel client and its local service. The model follows
the code from the inside out:

- `Protocol`: frames, and the views of a frame history in which properties are stated: the
  payload it carries, the pause flag it leaves at its receiver, its goodbyes.
- `ServerStream`, `AgentStream`, `ClientStream`: in closed form, what each event handler of one
  stream does at each party. `TcpStream`, `AgentSocket`, `ClientSocket` are the code: objects
  updated in place, on the server with callbacks that re-enter the stream while it is being
  torn down or flushed. Each of their methods is proved equal to its closed form.
- `ServerStreamProof`: what holds of a server stream at every handler boundary.
- `Lane`: one stream over its three parties, joined by FIFO channels, with one inductive
  invariant for bytes, flags, goodbyes and acknowledgements. `LaneRun` has its runs.
- `ServerDuties`, `LaneDuties`, `Goodbyes`, `FlowLaws`, `EndLaws`: what must happen, not only what
  may. Exactly what ends a stream, that whoever has to hear of it does, what stops each party
  from reading, and that the drain it waits for sets it going again.
- `StreamIds`, `StreamTable`, `TunnelServer`: id allocation, the one stream table, the owners,
  the per-port counters and all limits; the last is the code over maps and sets.
- `Shortfalls`, `Connects`: guarantees the code does not give, each with the exact condition
  under which it does and a run in which it does not.
- `Mux`, `Relay`, `RelayProof`, `RelayTheorems`, `RelayBooks`, `Openings`, `RelayLanes`: the
  whole system. All streams of a WebSocket share its two channels, frames find their stream by
  table lookup, WebSockets and parties come and go. The theorems hold after any sequence of
  events; `Openings` says what opens, and `RelayLanes` shows that each stream goes through a run
  of its own and carries what holds of those to the shared channels.

**Around it.** `TcpAgent` (pairing of local sockets with streams, readiness), `FrameWriter` (the
pausable frame writer with its suspended drain wait), `HttpResponse` and `HttpStream` (the
response side of a proxied request), `FrameCodec`, `Cidr`, and of the installers `Installer`
(the transaction, command by command, with signals and process deaths anywhere),
`InstallerScript` (its shell functions), `RollbackConfig` and `Releases`.

Main results: `RelayTheorems` as a whole, `RelayBooks.BooksAlwaysHold`, `RelayLanes.NoClientWaits`
and `NoAgentWaits`, `StreamTable.AgentAdmission`, `FlowLaws.StepBackpressure` and `StepThrottles`,
`Connects.AnsweredIff`, `Installer.FourEndings`, `Installer.OneAtATime`, `Installer.EndsAsTold`,
`FrameWriter.EveryRun` and `NothingFails`, `HttpResponse.ResponseGrammar` and `WrittenAsTold`,
`RollbackConfig.Rollback`, `TcpAgent.EveryRun`, `Cidr.MatchIsDivision`.

## Assumptions about the outside

- Handlers run one at a time. Each WebSocket direction delivers frames in order; one that has
  left OPEN never reopens, and a send on an open one succeeds. How full an outbound buffer is
  may change arbitrarily from event to event.
- A WebSocket that connects is a new one. Connect requests come from registered agents. Fewer
  than 2^32 - 1 stream ids are allocated in a run of `Relay` (`StreamIds.FreshIds` shows what
  that gives).
- What a socket write, a response call, an admission check or the parsing of a payload yields
  is a parameter of the event that performs it.
- What a `net.Socket` has read is what it emitted in its data events.
- Node calls `_write` once at a time, not after a failed write, and `_destroy` once.
- The installer finds `current` pointing to an existing directory; its file operations succeed
  and SIGKILL kills. Signals inside the commit block, after a rollback has cleared its flag, or
  inside the EXIT trap are not modelled.

## Findings

- A RES_DATA, RES_END or RES_ABORT frame on a TCP stream runs the HTTP cleanup
  (src/server/StreamManager.js:46-76, 352-356, 392-396, 446): the stream leaves the table, its
  socket stays and its count is never given back. The tunnel client's shared idle timer sends
  such a frame (serve/client.js:163-171); `RelayBooks.IdleClientLeaks` is a run from the start.
  The stream properties hold regardless. The counters are right if and only if no such frame
  ever arrived for a TCP stream in the table (`RelayBooks.BooksAlwaysHold`), and otherwise too
  high by the streams it arrived for (`RelayBooks.BooksExceed`).
- `OLD_PID` is read from the standard output of `resolve_running_managed_pid`
  (scripts/setup-service-host.sh:441-461, 929), which also prints its message about a stale pid
  file there. With a stale pid file the captured text is no pid, the capture of the previous
  configuration fails, and the installer stops unless code-only rollback is allowed. In
  `Installer` this is the `luck` of the capture step. A live pid that fails verification ends
  the script with status 1 before anything is stopped: the `exit` of `die` leaves the command
  substitution before its `|| true`, and `set -e` takes the failed assignment (lines 2, 79, 458,
  929). That is the `luck` of the recording step.
- A TCP_CLOSE of the agent drops what the server still buffers (`Shortfalls.GoodbyeDelivers`,
  and a run that loses a chunk: `GoodbyeLoses`). A resume whose flush pauses the socket again
  still sends RESUME last, so that the agent sends while the server holds back
  (`Shortfalls.ResumeAgrees`, and a run: `ResumeDisagrees`).
- Rejects for ports and limits name no port (src/tcp/TcpAgentServer.js:116-141), and the agent
  matches a reject by its port (serve/tcp-agent.js:479), so those sockets wait on
  (`Connects.RefusedWaitsOn`). So does the socket of a stream that is torn down before its
  client confirms or aborts it (`Connects.AnsweredIff`, and a run: `TimedOutUnanswered`).
- The comment in src/tcp/TcpClientHandler.js:66-74 says that the client does not handle
  backpressure of its local socket; the code does (lines 149-155, 229-245), and the model
  follows the code.

## Model

| member | source | states |
|---|---|---|
| RelayTheorems.RunKeeps | src/server/StreamManager.js:305-534 | the invariant of the whole system holds after any sequence of events of any party |
| RelayTheorems.EveryStreamDelivers | src/tcp/TcpRouter.js:140-177 | in every reachable state and for every stream, the bytes given to one end are a prefix of the bytes read at the other end, both ways, with no byte of another stream |
| RelayTheorems.EveryStreamConserves | src/tcp/VirtualSocket.js:47-82 | while everybody who handles a stream is there, what was delivered, what is on its way and what is buffered add up, in order, to exactly what was read |
| RelayTheorems.NoStrayFrames | src/server/StreamManager.js:316-320 | a WebSocket carries exactly what its own streams sent over it: no frame of a stream appears on any other |
| RelayTheorems.QuietOnTheWire | src/tcp/TcpRouter.js:179-195 | on the shared channel each stream opens once, says goodbye at most once, and is never mentioned again; no goodbye if the client ended it |
| RelayTheorems.FlowAgreesOnTheWire | src/tcp/TcpFlowControl.js:3-21 | on the three hops the PAUSE/RESUME frames still on the shared channel, folded over the receiver's flag, give the sender's flag; PAUSE and RESUME strictly alternate on each channel; the client flag is the disjunction it stands for |
| RelayTheorems.AnsweredOnce | src/tcp/TcpAgentServer.js:138-151 | a connect gets at most one of TCP_CONNECT_ACK and a stream-0 reject, the former only after the client's TCP_OPEN_ACK arrived; until then the agent says nothing on the stream |
| RelayTheorems.QuietToAgentOnTheWire | src/tcp/VirtualSocket.js:84-124 | on the shared channel to an agent each stream says goodbye at most once, not at all if the agent ended it, and after that only the RESUME of a flush under way or a not-found reply: no TCP_DATA, no PAUSE, no acknowledgement |
| RelayBooks.BooksAlwaysHold | src/server/StreamManager.js:352-448 | after any run every counter is the number of streams booked under it and not given back, every limit holds, agents have streams on allowed ports only, every stream's client and agent are registered; and the counters equal the live streams if and only if no RES_DATA, RES_END or RES_ABORT ever arrived for a TCP stream of its sender while it was in the table |
| RelayBooks.BooksExceed | src/tcp/TcpAgentServer.js:153-160 | by how much: each counter exceeds its live streams by exactly the streams booked under it that such a frame arrived for |
| RelayBooks.ExactWithoutResFrames | src/server/StreamManager.js:352-448 | in every reachable state, if no stream's client has delivered such a frame for it, the counters equal the live streams |
| RelayBooks.NextTrips | src/server/StreamManager.js:352-448 | no other event takes a stream out of the table without giving its count back |
| RelayBooks.IdleClientLeaks | serve/client.js:163-171 | a run of six events from the start, ended by the client's idle timer, after which a port counts one stream, none is live, and the stream's socket was never destroyed |
| RelayTheorems.AgentGoneLeavesNothing | src/tcp/TcpAgentServer.js:35-46 | after cleanupAgent no stream of that agent is left uncleaned |
| RelayTheorems.ClientGoneLeavesNothing | src/server/ClientManager.js:74-89 | after cleanupClient no stream of that tunnel client is left uncleaned |
| RelayLanes.EveryLaneIsARun | src/server/StreamManager.js:305-534 | every stream of every reachable relay is a new stream moved on by its own events, whatever happens to the others |
| RelayLanes.NoClientWaits | src/server/StreamManager.js:204-224 | on the shared channel: a stream gone while its client's WebSocket is open, neither by its client nor quietly, has said goodbye to the client exactly once |
| RelayLanes.NoAgentWaits | src/tcp/VirtualSocket.js:105-124 | on the shared channel: a socket destroyed while its agent's WebSocket is open, not by its agent, has said goodbye to the agent exactly once |
| RelayLanes.EveryEndIsTold | src/tcp/TcpRouter.js:179-195 | on the shared channel to its client a stream says exactly as many goodbyes as its events make due |
| RelayLanes.EveryEndIsToldToAgent | src/tcp/VirtualSocket.js:84-124 | on the shared channel to its agent it says exactly the TCP_CLOSE, TCP_ABORT and "not found" its events make due |
| RelayLanes.EveryConnectAnswered | src/server/StreamManager.js:491-525 | on the shared channel to its agent the connect of a stream is answered exactly when the client's TCP_OPEN_ACK or TCP_ABORT finds it waiting |
| RelayLanes.EveryStreamDutiful | src/tcp/TcpFlowControl.js:3-21 | in every reachable relay a live stream's socket reads exactly when neither side holds it back, its open agent has been told so, and a pause for a full agent's WebSocket will be lifted by a drain still to come |
| Openings.ConnectOpens | src/tcp/TcpAgentServer.js:112-160 | in the relay a connect opens a stream exactly when port, both limits, a tunnel client and room allow it: the next id, one TCP_OPEN last on its client's channel, its entry in the table; else nothing at all happens |
| Openings.PortOpens | src/tcp/TcpRouter.js:67-111 | the same for a direct connection |
| Openings.RequestOpens | src/server/StreamManager.js:237-262 | a proxied request takes the next id and one entry exactly when there is a tunnel client and room |
| RelayProof.NextKeeps | src/server/StreamManager.js:305-534 | each event of the system, whichever stream or WebSocket it concerns, keeps the invariant |
| RelayProof.HeadIsOwn | src/server/StreamManager.js:305-320 | the next frame of a shared channel is the next frame of its own stream, and the stream belongs to that WebSocket |
| RelayProof.HearIsStep | src/tcp/TcpAgentServer.js:70-85 | finding the stream by id in the one table gives the frame to the handler of the stream that sent it |
| RelayProof.AdvanceKeeps | src/server/StreamManager.js:181-202 | a stream's step changes no other stream, no other channel and only its own entry in the books |
| RelayProof.NextIsFresh | src/server/StreamManager.js:21-33 | before the first wrap-around the id given out belongs to no stream, live or gone |
| RelayProof.AbortReleases | src/server/StreamManager.js:204-224 | an abort takes a stream out of the table exactly once and gives its count back |
| RelayProof.AbortAllKeeps | src/tcp/TcpAgentServer.js:39-44 | aborting the streams of a party one after the other releases exactly those streams |
| RelayProof.OpenKeeps | src/tcp/TcpRouter.js:198-237 | a new stream starts with its TCP_OPEN on its client's channel and nothing anywhere else |
| Lane.StepKeepsInv | src/server/StreamManager.js:470-525 | every step of agent, server or client keeps the invariant of a stream |
| Lane.PrefixDelivery | src/tcp/TcpRouter.js:140-177 | bytes delivered at one end of a stream are a prefix of bytes read at the other, across pauses, aborts and disconnects |
| Lane.NothingLost | src/tcp/VirtualSocket.js:47-82 | conservation of chunks in both directions while everybody is there |
| Lane.FlowAgreement | src/tcp/TcpFlowControl.js:11-21 | frames in flight folded over the receiver's flag give the sender's flag; PAUSE and RESUME alternate |
| Lane.QuietAfterClose | src/tcp/VirtualSocket.js:84-124 | at most one goodbye to the client and nothing after it, at most one of the socket to its agent and only afterwords after it, none to whoever spoke first |
| Lane.DeferredAck | src/server/StreamManager.js:491-525 | acknowledged or refused at most once, acknowledged only after the client's TCP_OPEN_ACK |
| Lane.InboundBuffer | src/tcp/VirtualSocket.js:56-82 | chunks passed on followed by chunks buffered are the chunks accepted, in order, and the buffer never exceeds its limit |
| Lane.StepGrows | src/server/StreamManager.js:181-202 | nothing sent is unsent, and a stream gone from the server stays gone and silent |
| Lane.StepLeaks | src/server/StreamManager.js:352-448 | a stream leaves the table without its onCleanup at exactly one kind of step: a RES_DATA, RES_END or RES_ABORT of its client finds it there |
| Lane.AgentSpeaksAcknowledged | src/tcp/TcpAgentServer.js:82-85 | an agent that has sent anything on a stream was acknowledged |
| LaneRun.RunKeeps | src/server/StreamManager.js:470-525 | any run of a stream, whatever the outbound buffers, keeps its invariant |
| LaneRun.Handshake | src/tcp/TcpAgentServer.js:138-151 | the run that opens, connects, confirms and acknowledges a stream |
| LaneRun.FirstBytesArrive | src/tcp/TcpRouter.js:140-177 | and the run in which the first chunk read by the agent is the first given to the service |
| LaneDuties.StepEnds | src/server/StreamManager.js:181-224 | exactly what ends a live stream: its client's TCP_CLOSE, TCP_ABORT or RES frame, its agent's TCP_CLOSE or TCP_ABORT, a chunk that does not fit or has nowhere to go, a failed write, a timeout, or the end of a direct socket |
| LaneDuties.StepBids | src/server/StreamManager.js:204-224 | each step says to the client exactly the goodbye due, neither one too many nor one too few |
| LaneDuties.RunBids | src/tcp/TcpRouter.js:179-195 | over any run the client hears exactly the goodbyes due, told from the events |
| LaneDuties.StepBidsAgent | src/tcp/VirtualSocket.js:84-124 | each step says to the agent exactly the goodbye due, TCP_CLOSE if the client closed and TCP_ABORT else |
| LaneDuties.RunBidsAgent | src/tcp/VirtualSocket.js:105-124 | over any run the agent hears exactly the goodbyes due, and one "not found" for each chunk or goodbye that comes too late |
| LaneDuties.RunKeepsDuty | src/tcp/TcpFlowControl.js:3-21 | over any run: a socket reads exactly when neither side holds it back, at all three parties; an open agent has one PAUSE more than RESUMEs exactly while the socket is paused; a client paused for a full agent is owed a drain |
| Goodbyes.LeavingIsTold | src/server/StreamManager.js:217-222 | the step at which a stream leaves the table while its client is open, neither its client's doing nor the quiet teardown, leaves the client told exactly once |
| Goodbyes.LeftIsTold | src/server/StreamManager.js:181-224 | and so over any run |
| Goodbyes.DestroyingIsTold | src/tcp/VirtualSocket.js:105-124 | the step at which a virtual socket is destroyed while its agent is open, not by its agent, leaves the agent told exactly once |
| Goodbyes.DestroyedIsTold | src/tcp/VirtualSocket.js:105-124 | and so over any run |
| FlowLaws.StepBackpressure | src/server/StreamManager.js:470-483 | wsBackpressured is set by exactly the chunks that fill the destination and cleared by exactly its drain |
| FlowLaws.DrainResumes | src/server/StreamManager.js:169-175 | the drain clears the flag, and the client is sent RESUME unless the agent is pausing or it was not paused |
| FlowLaws.FullPauses | src/server/StreamManager.js:470-483 | a chunk that fills the destination sends PAUSE unless one is in force |
| FlowLaws.DrainIsOwed | src/tcp/VirtualSocket.js:26-44 | a client is paused for a full agent's WebSocket exactly while a drain is still to come |
| FlowLaws.StepThrottles | src/tcp/TcpRouter.js:140-177 | a live socket is throttled by exactly the chunks after which the client's outbound buffer is high, freed by exactly the last send callback that finds it low, and reads exactly when neither that nor its client holds it back |
| EndLaws.AgentEventSays | serve/tcp-agent.js:257-354 | an agent passes on its local socket's data, drain, close and error, each as one frame while its WebSocket is open, and says nothing else of its own accord |
| EndLaws.AgentFrameSays | serve/tcp-agent.js:385-448 | it answers a chunk that fills its local socket with PAUSE and one that breaks it with TCP_ABORT, and nothing else; what the server ends is over |
| EndLaws.AgentThrottles | serve/tcp-agent.js:257-284 | it stops reading at exactly the chunks after which its outbound buffer is high and reads on at exactly the last send callback or drain that finds it low |
| EndLaws.ClientEventSays | src/tcp/TcpClientHandler.js:133-226 | the same at the tunnel client, with its connect, its connect timeout and its shared idle timer |
| EndLaws.ClientFrameSays | src/tcp/TcpClientHandler.js:278-312 | what the tunnel client answers to each frame |
| EndLaws.ClientThrottles | src/tcp/TcpClientHandler.js:158-195 | when the tunnel client stops reading its service and reads on |
| EndLaws.DrainedAgentReadsOn | src/server/StreamManager.js:169-175 | a run in which an agent's WebSocket fills, the service is not read, the WebSocket drains, and the service is read again |
| ServerStreamProof.OnClientFrameProof | src/server/StreamManager.js:470-525 | a client frame keeps the stream's invariant; only TCP_DATA hands bytes over, and exactly its payload |
| ServerStreamProof.OnAgentFrameProof | src/tcp/TcpAgentServer.js:87-105 | an agent frame keeps the invariant; only TCP_DATA offers bytes; the flags follow PAUSE and RESUME |
| ServerStreamProof.ServerStepProof | src/server/StreamManager.js:134-224 | timeouts, callbacks and teardowns keep the invariant and move no byte |
| ServerStreamProof.EndsProof | src/server/StreamManager.js:181-224 | every teardown path, however its callbacks nest, says at most one goodbye each way and leaves the stream cleaned |
| ServerStreamProof.AbortProof | src/server/StreamManager.js:204-224 | abortTcpStream keeps the invariant, leaves the stream cleaned, and sends the client exactly one TCP_ABORT if it is to be notified, can be, and was not before |
| ServerStreamProof.OnCloseProof | src/tcp/TcpRouter.js:179-186 | the 'close' listener keeps the invariant and leaves the stream cleaned |
| ServerStreamProof.OnErrorProof | src/tcp/TcpRouter.js:188-195 | the 'error' listener keeps the invariant and leaves the stream cleaned |
| ServerStreamProof.BackpressureProof | src/tcp/TcpFlowControl.js:11-21 | after a flag change the sync restores `clientPausedForAgent` as the disjunction and tells the client |
| ServerStreamProof.FlushProof | src/tcp/VirtualSocket.js:61 | flushing passes every chunk on, in order, even if the listener pauses the socket again or aborts the stream meanwhile |
| ServerStreamProof.ResumeProof | src/tcp/VirtualSocket.js:56-66 | resuming loses and doubles nothing |
| ServerStreamProof.PushInboundProof | src/tcp/VirtualSocket.js:69-82 | an inbound chunk is passed on, buffered within the limit, or the stream is aborted |
| ServerStreamProof.ThrottleProof | src/tcp/TcpRouter.js:173-176 | self-throttling disturbs no other flag and moves no byte |
| ServerStreamProof.WriteProof | src/tcp/VirtualSocket.js:26-44 | a write hands over exactly its chunk if the agent can be reached |
| ServerStreamProof.OnClientAbortProof | src/server/StreamManager.js:505-525 | an abort by the client refuses a waiting connect by port and ends the stream without a goodbye back |
| ServerStreamProof.OnAgentSentProof | src/tcp/VirtualSocket.js:30-35 | the drain callback may lift backpressure and nothing else |
| ServerStreamProof.OnClientSentProof | src/tcp/TcpRouter.js:153-164 | the send callback may resume reading and nothing else |
| TcpStream.TcpConnection.CleanupTcpStream | src/server/StreamManager.js:181-202 | cleanup with its re-entrant destroy and 'close' listener ends in the stream's closed form |
| TcpStream.TcpConnection.DestroySocket | src/tcp/VirtualSocket.js:105-113 | destroy notifies the agent once and runs the 'close' listener |
| TcpStream.TcpConnection.CloseListener | src/tcp/TcpRouter.js:179-186 | the 'close' listener tells the client once |
| TcpStream.TcpConnection.ErrorListener | src/tcp/TcpRouter.js:188-195 | the 'error' listener tells the client once |
| TcpStream.TcpConnection.AbortVirtualSocket | src/tcp/VirtualSocket.js:115-124 | abort tells the agent and queues the 'close' event |
| TcpStream.TcpConnection.AbortTcpStream | src/server/StreamManager.js:204-224 | abort, notification and cleanup in their order: the client is sent TCP_ABORT exactly when it is to be told, is open, and was not told before |
| TcpStream.TcpConnection.DataListener | src/tcp/TcpRouter.js:140-177 | forward, or abort when the client is unreachable, then throttle |
| TcpStream.TcpConnection.PauseReading | src/tcp/VirtualSocket.js:47-54 | PAUSE is sent once |
| TcpStream.TcpConnection.ResumeReading | src/tcp/VirtualSocket.js:56-66 | the flush loop, whose listener may pause or abort, then RESUME |
| TcpStream.TcpConnection.SyncTcpBackpressure | src/tcp/TcpFlowControl.js:11-21 | PAUSE or RESUME to the client exactly when the disjunction changed |
| TcpStream.TcpConnection.SyncSocketReadState | src/tcp/TcpFlowControl.js:3-9 | the socket reads exactly when neither side paused it |
| TcpStream.TcpConnection.PushFromAgent | src/tcp/VirtualSocket.js:69-82 | inbound chunk: emitted, buffered or too much |
| TcpStream.TcpConnection.WriteToSocket | src/tcp/VirtualSocket.js:26-44 | write and its backpressure result |
| TcpStream.TcpConnection.DrainListener | src/server/StreamManager.js:169-175 | a drained destination clears wsBackpressured, and RESUME goes out unless the agent is pausing |
| TcpStream.TcpConnection.ClientData | src/server/StreamManager.js:470-483 | TCP_DATA of the client |
| TcpStream.TcpConnection.ClientOpened | src/server/StreamManager.js:491-503 | the deferred acknowledgement |
| TcpStream.TcpConnection.ClientPauses | src/server/StreamManager.js:450-468 | PAUSE and RESUME of the client |
| TcpStream.TcpConnection.ClientAbort | src/server/StreamManager.js:505-525 | TCP_ABORT of the client, with the stream-0 reject |
| TcpStream.TcpConnection.HandleClientFrame | src/server/StreamManager.js:322-531 | the dispatcher for a TCP stream, HTTP cases included |
| TcpStream.TcpConnection.EndFromAgent | src/tcp/VirtualSocket.js:84-89 | the agent's TCP_CLOSE |
| TcpStream.TcpConnection.AbortFromAgent | src/tcp/VirtualSocket.js:91-103 | the agent's TCP_ABORT |
| TcpStream.TcpConnection.HandleAgentFrame | src/tcp/TcpAgentServer.js:82-105 | the dispatcher for agent frames, deaf until the client confirmed |
| TcpStream.TcpConnection.AgentSendCallback | src/tcp/VirtualSocket.js:30-35 | the send callback that may emit 'drain' |
| TcpStream.TcpConnection.ClientSendCallback | src/tcp/TcpRouter.js:153-164 | the send callback that may resume reading |
| TcpStream.TcpConnection.QueuedClose | src/tcp/VirtualSocket.js:122-123 | the queued 'close' event |
| TcpStream.TcpConnection.SocketData | src/tcp/TcpRouter.js:140-177 | 'data' of a direct socket |
| TcpStream.TcpConnection.SocketError | src/tcp/TcpRouter.js:188-195 | 'error' of a direct socket |
| TcpStream.TcpConnection.SocketDrain | src/server/StreamManager.js:169-175 | 'drain' of a direct socket |
| StreamTable.DecrementExact | src/tcp/TcpAgentServer.js:154-156 | a stream that is booked is counted: `|| 1` and `Math.max(0, ...)` never fire |
| StreamTable.CountsAddUp | src/tcp/TcpAgentServer.js:153-160 | a counter is the live streams booked under it plus those that left without an onCleanup |
| StreamTable.ForgetExactIff | src/server/StreamManager.js:46-54 | from exact counters, the HTTP cleanup leaves them exact if and only if its stream is no TCP stream in the table |
| StreamTable.ReleaseKeeps | src/server/StreamManager.js:181-202 | releasing a stream keeps all books and limits |
| StreamTable.ReleaseAllKeeps | src/tcp/TcpAgentServer.js:39-44 | so does releasing many |
| StreamTable.AgentLeavesKeeps | src/tcp/TcpAgentServer.js:35-46 | cleanupAgent removes exactly the agent's streams and keeps the books |
| StreamTable.ClientLeavesKeeps | src/server/ClientManager.js:74-89 | cleanupClient removes exactly the client's streams and keeps the books |
| StreamTable.AgentAdmission | src/tcp/TcpAgentServer.js:112-160 | a connect opens a stream if and only if its port is allowed, fewer streams than the limits are booked under port and agent, a tunnel client is there, and there is room and a free id; refused, it changes nothing; opened, it gets the next free id |
| StreamTable.DirectAdmission | src/tcp/TcpRouter.js:67-111 | the same for a direct connection, without a list of ports |
| StreamTable.HttpAdmission | src/server/StreamManager.js:237-262 | the same for a proxied request, without counters |
| StreamTable.ClientAdmission | src/server/ClientManager.js:26-39 | a tunnel client is registered unless there are maxClients already |
| StreamTable.IdFollows | src/server/StreamManager.js:21-33 | the id given out is the first free one from nextId on, and the search goes on behind it |
| StreamTable.ConnectAgentKeeps | src/tcp/TcpAgentServer.js:112-160 | an admitted connect keeps every count and limit, and that agents have streams on allowed ports only |
| StreamTable.ConnectAgentBooks | src/tcp/TcpAgentServer.js:153-160 | an admitted connect books exactly one more stream under its port and its agent |
| StreamTable.ConnectDirectKeeps | src/tcp/TcpRouter.js:67-111 | a direct connection keeps every count and limit, and is booked once if admitted |
| StreamTable.ConnectHttpKeeps | src/server/StreamManager.js:237-262 | a proxied request is booked without touching any TCP count |
| StreamTable.ForgetKeeps | src/server/StreamManager.js:46-54 | the HTTP cleanup of a TCP stream leaves its counts standing |
| StreamTable.AgentJoinsKeeps | src/tcp/TcpAgentServer.js:17-33 | a registering agent owns nothing |
| StreamTable.ClientJoinsKeeps | src/server/ClientManager.js:26-39 | the number of tunnel clients stays within its limit |
| TunnelServer.Server.AllocateStreamId | src/server/StreamManager.js:21-33 | the first free id in cyclic order, nothing exactly when every id is live |
| TunnelServer.Server.GetActiveClient | src/server/ClientManager.js:12-24 | an open client with the least buffered bytes; none exactly when no client is open |
| TunnelServer.Server.CleanupTcpStream | src/server/StreamManager.js:181-202 | the table and the counters after a cleanup with its onCleanup |
| TunnelServer.Server.CleanupStream | src/server/StreamManager.js:46-54 | the table after the HTTP cleanup; a TCP stream keeps its counts |
| TunnelServer.Server.CleanupAnyStream | src/server/StreamManager.js:126-132 | cleanup by mode |
| TunnelServer.Server.HandleTcpConnect | src/tcp/TcpAgentServer.js:112-160 | the checks in order, then id, table, counter and ownership |
| TunnelServer.Server.HandleConnection | src/tcp/TcpRouter.js:67-111 | the same for a direct connection |
| TunnelServer.Server.AddClient | src/server/ClientManager.js:26-39 | admitted below the limit only |
| TunnelServer.Server.CleanupAgent | src/tcp/TcpAgentServer.js:35-46 | the loop over the agent's own streams |
| TunnelServer.Server.CleanupClient | src/server/ClientManager.js:74-89 | the loop over all streams |
| StreamIds.ScanIsFirstFree | src/server/StreamManager.js:21-33 | the search finds the first free id in cyclic order, and fails exactly when every id is used |
| StreamIds.OnlyItsOwn | src/server/StreamManager.js:21-33 | an allocation takes a free id and fails only if there is none; a close frees its id; no other id changes |
| StreamIds.FreshIds | src/server/StreamManager.js:21-33 | before the wrap-around the k-th allocation gives the k-th id, whatever is closed in between |
| StreamIds.FromFreshManager | src/server/StreamManager.js:12-15 | from a fresh manager: 1, 2, 3, ... up to 2^32-1 |
| AgentStream.AgentStepProof | serve/tcp-agent.js:257-354 | events of the agent's local socket keep: TCP_DATA sent is what was read while the WebSocket is open, PAUSE and RESUME alternate |
| AgentStream.OnServerFrameProof | serve/tcp-agent.js:369-451 | a server frame gives the local socket exactly its payload |
| AgentSocket.LocalSocket.OnData | serve/tcp-agent.js:257-284 | the 'data' handler with its self-throttling does to the entry and the WebSocket exactly what the stream's specification says |
| AgentSocket.LocalSocket.HandleFrame | serve/tcp-agent.js:385-448 | the stream cases of handleServerFrame does to the entry and the WebSocket exactly what the stream's specification says |
| ClientStream.ClientStepProof | src/tcp/TcpClientHandler.js:133-226 | events of the client's local socket keep: TCP_DATA only after TCP_OPEN_ACK and exactly what was read while the WebSocket is open |
| ClientStream.OnFrameProof | src/tcp/TcpClientHandler.js:229-312 | a server frame gives the local socket exactly its payload |
| ClientStream.OnOpenProof | src/tcp/TcpClientHandler.js:80-118 | TCP_OPEN is answered by an attempt to connect or by one TCP_ABORT |
| ClientSocket.TunnelSocket.OnData | src/tcp/TcpClientHandler.js:158-195 | the 'data' handler does to the state and the WebSocket exactly what the stream's specification says |
| ClientSocket.TunnelSocket.HandleFrame | src/tcp/TcpClientHandler.js:278-312 | handleServerFrame does to the state and the WebSocket exactly what the stream's specification says |
| TcpAgent.AckTakesOldest | serve/tcp-agent.js:455-469 | an acknowledgement takes the oldest waiting socket of its port and binds it if it still lives; nothing else moves |
| TcpAgent.AckBindsOldest | serve/tcp-agent.js:455-469 | so does the agent's step, and the readiness gate does not move |
| TcpAgent.AnswerToNobody | serve/tcp-agent.js:463-479 | an acknowledgement or reject that names no port, or one that nobody waits on, does nothing |
| TcpAgent.RejectDropsOldest | serve/tcp-agent.js:471-489 | a reject that names a port drops the oldest socket waiting on it and nothing else |
| TcpAgent.ConnectQueues | serve/tcp-agent.js:164-204 | a connection is queued last if its TCP_CONNECT goes out, and else forgotten |
| TcpAgent.GoneIsForgotten | serve/tcp-agent.js:164-204 | a socket that goes is nowhere afterwards, and everything else stays in order |
| TcpAgent.OverIsDropped | serve/tcp-agent.js:322-348 | a stream that is over frees its id; the end of the session or of the agent drops everything |
| TcpAgent.ReadyWhen | serve/tcp-agent.js:112-158 | whether the agent is ready after each event, told from session, listeners and shutdown |
| TcpAgent.BecomesReady | serve/tcp-agent.js:112-231 | while nothing ends, it is ready exactly once the WebSocket has opened and every requested port listens, in whatever order |
| TcpAgent.PairingKeeps | serve/tcp-agent.js:164-204 | every event keeps: no socket waits twice, waits and is bound, or is bound twice |
| TcpAgent.OnePlaceEach | serve/tcp-agent.js:164-252 | no socket in both lists, none bound to two stream ids, ever |
| TcpAgent.GateKeeps | serve/tcp-agent.js:145-158 | every event keeps the readiness gate |
| TcpAgent.EveryRun | serve/tcp-agent.js:112-231 | after any run: pairing is unambiguous; the ready file exists exactly when ready; ready implies an open session, every port listening, no shutdown |
| TcpAgent.AgentProcess.FindPort | serve/tcp-agent.js:463 | findIndex by port: the first waiting socket of that port |
| TcpAgent.AgentProcess.RemovePendingSocket | serve/tcp-agent.js:170-173 | removePending takes out the first entry of that socket and nothing else |
| TcpAgent.AgentProcess.OnConnection | serve/tcp-agent.js:164-204 | the connection listener queues the socket and takes it back if the send fails |
| TcpAgent.AgentProcess.HandleConnectAck | serve/tcp-agent.js:455-469 | handleConnectAck with registerStream pairs the oldest waiting socket of the port, as specified |
| TcpAgent.AgentProcess.HandleConnectReject | serve/tcp-agent.js:471-489 | handleConnectReject drops the oldest waiting socket of the port, as specified |
| FrameWriter.EveryRun | src/server/WsFrameWriter.js:48-133 | under any interleaving: sent payloads followed by the remainder are the bytes written; each payload has 1 to MAX_FRAME_PAYLOAD bytes; one sender or pending chunk; each callback once, in order, and none outstanding after a destroy whose wait has ended |
| FrameWriter.NextKeeps | src/server/WsFrameWriter.js:48-133 | each turn keeps the invariant |
| FrameWriter.SendRestKeeps | src/server/WsFrameWriter.js:62-111 | the sending loop, entered at its head, keeps it |
| FrameWriter.SendOneKeeps | src/server/WsFrameWriter.js:83-104 | and entered after its wait |
| FrameWriter.QuietWhilePaused | src/server/WsFrameWriter.js:62-133 | a turn that leaves the peer paused, or the writer destroyed, sends nothing; what pauses and what closes it |
| FrameWriter.TurnCompletes | src/server/WsFrameWriter.js:48-121 | with the way free, a write, a resume or the end of a wait sends all there is to send, in as few frames as can be, and calls back with success |
| FrameWriter.TurnHolds | src/server/WsFrameWriter.js:62-121 | without trouble no call fails, nothing is lost, and what is not sent is held for a paused peer or a drain |
| FrameWriter.TurnFails | src/server/WsFrameWriter.js:48-133 | a write after the end, a chunk held back when the end comes, one whose wait ends without a drain and one for a WebSocket that is not open fail, and nothing is sent |
| FrameWriter.NothingFails | src/server/WsFrameWriter.js:48-133 | over any run without those no write ever fails, and once the peer is not paused and no drain is waited for everything written has been sent and called back |
| FrameWriter.PausedWriteGoesOut | src/server/WsFrameWriter.js:113-121 | a chunk written while the peer is paused goes out when it resumes, with one successful callback |
| FrameWriter.WsFrameWriter.SendChunk | src/server/WsFrameWriter.js:62-111 | _sendChunk, entered or resumed after its await as one turn of the state machine |
| FrameWriter.WsFrameWriter.AcceptChunk | src/server/WsFrameWriter.js:48-60 | _write as one turn of the state machine |
| FrameWriter.WsFrameWriter.DrainSettled | src/server/WsFrameWriter.js:83-85 | the end of a drain wait as one turn of the state machine |
| FrameWriter.WsFrameWriter.PeerPaused | src/server/WsFrameWriter.js:113-121 | setPeerPaused as one turn of the state machine |
| FrameWriter.WsFrameWriter.DestroyWriter | src/server/WsFrameWriter.js:123-133 | _destroy as one turn of the state machine |
| Installer.OneAtATime | scripts/setup-service-host.sh:926-1042 | wherever signals strike, two managed processes are never alive at once |
| Installer.FourEndings | scripts/setup-service-host.sh:908-1042 | every run ends in exactly one of: committed, with status 0; untouched; restored with one live process and the failed release gone; not recovered with none alive and the failed release kept; these three with status 1, or 128 and the number of a signal that came if any did; never committed once a signal came; unless committed, `current` is as found, and `previous` too if it named a release, else it names the old one |
| Installer.RunsEnd | scripts/setup-service-host.sh:908-1042 | every run ends, after a bounded number of commands |
| Installer.InstallEnds | scripts/setup-service-host.sh:908-1010 | an installation nobody disturbs: committed if everything succeeds; restored if the candidate does not become ready and the old release does; lost if neither does; untouched if it fails before the old process is stopped |
| Installer.EndsAsTold | scripts/setup-service-host.sh:248-1042 | wherever signals and deaths have brought it, an installation left alone from there on ends exactly as its place in the script tells |
| Installer.SignalEnds | scripts/setup-service-host.sh:330-351 | one signal, anywhere: untouched before the old process is to be stopped, after that restored or lost but never committed, an ended rollback as it ended; the exit status is that signal's, unless an earlier signal's rollback is under way |
| Installer.RunKeeps | scripts/setup-service-host.sh:908-1042 | the per-command invariant holds over every run |
| Installer.NextKeeps | scripts/setup-service-host.sh:248-351 | each command, signal or death keeps the per-command invariant |
| Installer.SignalKeeps | scripts/setup-service-host.sh:330-351 | the trap: deferred in the two critical phases and during a rollback, rolled back after the point of no return, a plain exit before |
| Installer.RollbackIsAtomic | scripts/setup-service-host.sh:340-344 | during a rollback a signal is only noted: it commutes with every command |
| Installer.LeftDecreases | scripts/setup-service-host.sh:248-351 | no signal puts the end off |
| InstallerScript.Script.StartProcess | scripts/setup-service-host.sh:690-702 | start_process leaves the process running, owned by ACTIVE_PID and recorded in the pid file, whichever process it is |
| InstallerScript.RolledBackIs | scripts/setup-service-host.sh:742-784 | rollback_to_previous is what its commands in the transaction add up to |
| InstallerScript.RolledBackByTrapIs | scripts/setup-service-host.sh:248-317 | rollback_after_interrupt likewise |
| InstallerScript.Script.StopOldProcess | scripts/setup-service-host.sh:463-476 | stop_old_process, uninterrupted, takes the transaction exactly as far as its commands do |
| InstallerScript.Script.StartCandidate | scripts/setup-service-host.sh:963-966 | the main script's start_process, uninterrupted, takes the transaction exactly as far as its commands do |
| InstallerScript.Script.StartOld | scripts/setup-service-host.sh:767-770 | a rollback's start_process, uninterrupted, takes the transaction exactly as far as its commands do |
| InstallerScript.Script.CleanupStaleMetadata | scripts/setup-service-host.sh:478-494 | cleanup_stale_metadata, uninterrupted, takes the transaction exactly as far as its commands do |
| InstallerScript.Script.CleanUp | scripts/setup-service-host.sh:225-246 | cleanup_on_exit, uninterrupted, takes the transaction exactly as far as its commands do |
| InstallerScript.Script.RestartOld | scripts/setup-service-host.sh:288-309 | the restart of a rollback, uninterrupted, takes the transaction exactly as far as its commands do |
| InstallerScript.Script.RollbackToPrevious | scripts/setup-service-host.sh:742-784 | rollback_to_previous, uninterrupted, takes the transaction exactly as far as its commands do |
| InstallerScript.Script.RollbackAfterInterrupt | scripts/setup-service-host.sh:248-317 | rollback_after_interrupt, uninterrupted, takes the transaction exactly as far as its commands do |
| InstallerScript.Script.HandleInterrupt | scripts/setup-service-host.sh:330-351 | handle_interrupt, uninterrupted, takes the transaction exactly as far as its commands do |
| RollbackConfig.RestartEqualsCaptured | scripts/setup-service-host.sh:520-588 | round trip: the environment of a restart in mode previous equals the captured one on the managed keys, absent optional keys included |
| RollbackConfig.Rollback | scripts/setup-service-host.sh:926-942 | all required keys captured: exactly the captured configuration; otherwise exactly the current one, or the installation stops; never a mixture |
| RollbackConfig.CollectIsLast | scripts/setup-service-host.sh:541-559 | a key's value is that of its last entry; without one it is absent |
| RollbackConfig.RenderCollects | scripts/setup-service-host.sh:634-671 | what is rendered is read back |
| RollbackConfig.RequiredKeys | scripts/setup-service-host.sh:560-568 | the keys without which there is no previous configuration, by name, for both installers |
| RollbackConfig.RolesOk | scripts/setup-application-host.sh:534-603 | the key lists of both installers qualify: distinct names without an equals sign |
| RollbackConfig.RollbackState.Parse | scripts/setup-service-host.sh:541-559 | the parsing loop |
| RollbackConfig.RollbackState.IsComplete | scripts/setup-service-host.sh:560-568 | the checks for missing keys |
| RollbackConfig.RollbackState.Capture | scripts/setup-service-host.sh:520-588 | capture_previous_config commits everything or changes nothing |
| RollbackConfig.RollbackState.Prepare | scripts/setup-service-host.sh:926-942 | the capture block of the main script |
| RollbackConfig.RollbackState.RestartEnvironment | scripts/setup-service-host.sh:625-688 | the arguments of a restart |
| Releases.Retention | scripts/setup-service-host.sh:871-885 | what pruning leaves: current, previous, and exactly the newest KEEP-2 of the others |
| Releases.KeptIff | scripts/setup-service-host.sh:871-885 | a release stays if and only if it is current or previous, or fewer than KEEP-2 others are newer |
| Releases.RetentionBounds | scripts/setup-service-host.sh:871-885 | current and previous always stay; at most KEEP releases do |
| Releases.ReleaseDirectory.PruneReleases | scripts/setup-service-host.sh:871-885 | the loop removes exactly the others beyond the newest KEEP-2 |
| Shortfalls.GoodbyeDelivers | src/tcp/VirtualSocket.js:84-89 | at the agent's TCP_CLOSE everything read has been forwarded if and only if nothing is buffered |
| Shortfalls.ResumeAgrees | src/tcp/VirtualSocket.js:56-66 | after a resume server and agent agree on the pause flag if and only if the flush did not congest the client's WebSocket |
| Shortfalls.GoodbyeLoses | src/tcp/VirtualSocket.js:84-89 | a run with every WebSocket open in which the agent reads two chunks and closes, and the service is given one and the end |
| Shortfalls.ResumeDisagrees | src/tcp/VirtualSocket.js:56-66 | a run with every WebSocket open after which, every frame received, the server holds the socket paused and the agent reads on |
| Connects.RefusedWaitsOn | src/tcp/TcpAgentServer.js:107-142 | a connect and its answer leave one more local socket waiting on its port if and only if the server's checks turn it down (port, a limit, no client, no id), since such a reject names no port; no other port is touched |
| Connects.AnsweredIff | src/server/StreamManager.js:491-525 | in any run the connect of an admitted stream is answered if and only if the client's TCP_OPEN_ACK or TCP_ABORT finds the stream waiting while the agent's WebSocket is open |
| Connects.StepAnswers | src/server/StreamManager.js:491-525 | and each step that answers is such a step |
| Connects.TimedOutUnanswered | src/server/StreamManager.js:204-224 | a run in which the idle timer comes first: the stream is gone, everything sent was received, and the agent was told nothing it can match |
| HttpResponse.ResponseGrammar | src/server/StreamManager.js:305-448 | whatever comes: successful calls form writeHead, writes, end; the body is the RES_DATA accepted between RES_META and the first end or abort; PAUSE and RESUME alternate; at most one REQ_END is sent, then at most one REQ_ABORT |
| HttpResponse.BodyIsReference | src/server/StreamManager.js:352-390 | the body written is the one told from the events alone |
| HttpResponse.WrittenAsTold | src/server/StreamManager.js:305-448 | the calls made on the response are exactly those the events, and which calls failed, make due |
| HttpResponse.EndedInFull | src/server/StreamManager.js:78-124 | if no call fails, a response is never left without its last call, whatever ends it |
| HttpResponse.StepCalls | src/server/StreamManager.js:305-448 | each event makes exactly the calls due |
| HttpResponse.StepRequests | src/server/StreamManager.js:290-303 | REQ_END and REQ_ABORT go out exactly when due |
| HttpResponse.StepFlows | src/server/StreamManager.js:374-387 | PAUSE goes out exactly when a write finds the response full, RESUME exactly when it has drained |
| HttpResponse.StepKeeps | src/server/StreamManager.js:78-124 | each event keeps the grammar |
| HttpResponse.StepKeepsFlow | src/server/StreamManager.js:374-387 | each event keeps the alternation |
| HttpStream.ProxiedStream.AbortStream | src/server/StreamManager.js:78-124 | abortStream does exactly the calls and frames the response's specification says |
| HttpStream.ProxiedStream.HandleData | src/server/StreamManager.js:352-390 | RES_DATA does exactly the calls and frames the response's specification says |
| HttpStream.ProxiedStream.HandleAbort | src/server/StreamManager.js:411-448 | RES_ABORT does exactly the calls and frames the response's specification says |
| Cidr.MatchIsDivision | src/shared/ipAllowlist.js:30-40 | a range matches exactly if both addresses are valid, the prefix length is 0 to 32, and the quotients by 2^(32-bits) are equal |
| Cidr.ShorterMatchesMore | src/shared/ipAllowlist.js:30-40 | a shorter prefix matches whatever a longer one does |
| Cidr.ExtremePrefixes | src/shared/ipAllowlist.js:38-39 | /0 matches everything, /32 only the address itself |
| Cidr.MaskIs | src/shared/ipAllowlist.js:38 | the mask is 2^32 - 2^(32-bits), special case included |
| Cidr.AndMask | src/shared/ipAllowlist.js:39 | masking clears the low bits and nothing else |
| Cidr.BitOf | src/shared/ipAllowlist.js:47 | each bit of an and, or an or, is the and, or the or, of the two bits there |
| Cidr.SignedIs | src/shared/ipAllowlist.js:38-39 | the signed 32-bit reading of any integer keeps its pattern |
| Cidr.IpToIntIs | src/shared/ipAllowlist.js:42-48 | the integer is the four octets in base 256; null exactly when a part is no octet |
| Cidr.AllowlistIsUnion | src/shared/ipAllowlist.js:9-13 | an allowlist admits what any of its parts admits, the empty one everything; IPv4-mapped addresses count as plain ones |
| Cidr.ValidIffMatchable | src/shared/ipAllowlist.js:15-22 | a range is valid exactly when it matches its own address; an invalid one matches nothing |
| FrameCodec.WireFormat | src/shared/protocol.js:34-47 | the bytes: 1, type, stream id from the most significant byte on, payload |
| FrameCodec.WhatParses | src/shared/protocol.js:48-65 | exactly the messages of six bytes or more that start with 1 are frames; each other names its fault |
| FrameCodec.ParseBuilt | src/shared/protocol.js:34-65 | parse(build(t, id, p)) is (t, id, p); numbers out of range wrap |
| FrameCodec.BuildParsed | src/shared/protocol.js:48-65 | build(parse(f)) is f, for exactly the messages of six bytes or more with version 1 |
| FrameCodec.FragmentsParseAlike | src/shared/protocol.js:79-96 | a fragmented message parses like a whole one |
| FrameCodec.BuildFrame | src/shared/protocol.js:34-47 | the buffer is filled with version, type, big-endian id and payload |

## Left out

- Complete delivery, an answer to every connect, and pause agreement from server to agent: the code does not give them; see `Shortfalls` and `Connects`.
- Rejects sent before a stream exists (port, limits, no client) are `Refused` outcomes of the table, not frames on a channel; `Connects` says what they do at the agent.
- Wake-up after a drain of a WebSocket that several streams share; each stream looks only in its own send callbacks.
- HTTP streams in `Relay` have an entry in the table and no frames on the channels; the request body is not modelled beyond `FrameWriter`.
- Branches taken when a send on an open WebSocket fails, the failed-send branch of createStream among them.
- RelayTheorems.NoStrayFrames: a frame is a stream id and a message here; its bytes are the subject of `FrameCodec`.
- Agent and client lookups by id: a frame for an id without an entry is a step of that stream's end that changes nothing.
- Lane.PrefixDelivery: chunks the agent reads from a local socket after its WebSocket left OPEN count as read; the code drops them.
- TcpStream.TcpConnection: an `EventEmitter` is a direct call of the one listener the code attaches; timers are events.
- TcpAgent.EveryRun: reconnecting is the next session on a new WebSocket; the back-off delays are not modelled.
- FrameWriter.EveryRun: that a drain wait ends is up to the WebSocket and the drain timer.
- AgentSocket, ClientSocket, HttpStream, TcpAgent.AgentProcess: of these objects the table above lists the methods that loop, dispatch or call others; each of the rest is proved equal to its closed form too.
- HttpResponse.ResponseGrammar: contents of headers and of error bodies.
- Installer.FourEndings: stale-lock recovery, legacy layout, downloads, npm and portable `mv` fallbacks; the install without a previous release; the ready file, which a successful wait stands for.
- InstallerScript.Script.StartProcess: the environment it passes is the subject of `RollbackConfig.RollbackState.RestartEnvironment`; log rotation and file modes.
- InstallerScript.Script: the straight-line part of the main script, whose every command is a step of `Installer`.
- RollbackConfig.RestartEqualsCaptured: an entry without its terminating NUL is not read by the script and is not an entry here.
- Cidr.MatchIsDivision: splitting the text of an address and Number() on its parts are done outside.
- Releases.Retention: the modification times behind the listing order.
- Heartbeats, logging, HTTP routing, static files, authentication, TLS policy, environment parsing, build and audit scripts.
