/**
 One TCP stream on the server: the state object of StreamManager.createTcpStream, the
 closure variables of its (virtual) socket, and the handlers TcpRouter and TcpAgentServer
 attach to it. This file says in closed form what each handler does to the stream and
 which frames it sends; TcpStream.dfy is the code, with its re-entrant callbacks.
 */
module ServerStream {
  import opened Protocol

  datatype EndedBy = NotEnded | ByClient | ByAgent

  // The table side of the state object. `leaked` marks a stream removed from the table by
  // the HTTP cleanup, which skips the TCP one; `refused`, that the connect was answered
  // with a stream-0 abort; `endedBy`, whose goodbye ended the stream.
  datatype Life = Life(cleaned: bool, leaked: bool, abortSent: bool, awaitingAck: bool,
                       refused: bool, endedBy: EndedBy)

  // The flow-control side. `clientPaused` is clientPausedForAgent.
  datatype Flow = Flow(agentPaused: bool, wsBackpressured: bool, clientPaused: bool,
                       peerPausedRead: bool, localPausedForWs: bool, pendingSends: int)

  // The socket: a VirtualSocket's closure variables, or a direct net.Socket.
  // `cap` is MAX_DEST_BUFFER_BYTES; `closeQueued`, that a 'close' event is on its way.
  datatype Sock = Sock(virtual: bool, cap: nat, destroyed: bool, paused: bool, buffered: seq<Bytes>,
                       bufferedBytes: nat, pendingDrain: bool, agentNotified: bool, closeQueued: bool)

  // Every frame sent for this stream so far, and what a direct socket read and was given.
  datatype Log = Log(toClient: seq<Msg>, toAgent: seq<Msg>, extIn: seq<Bytes>, extOut: seq<Bytes>)

  datatype Stream = Stream(life: Life, flow: Flow, sock: Sock, log: Log)

  // What a handler sees of the two WebSockets: readyState, and after which frame the
  // outbound buffer is above WS_HIGH_WATER (frames counted from the start of the stream).
  datatype Env = Env(clientOpen: bool, agentOpen: bool, clientHigh: set<nat>, agentHigh: set<nat>)

  datatype WriteOutcome = Accepted | BufferFull | Throws

  /** A stream just created, its TCP_OPEN sent. */
  function NewStream(virtual: bool, cap: nat): Stream {
    Stream(Life(false, false, false, virtual, false, NotEnded),
           Flow(false, false, false, false, false, 0),
           Sock(virtual, cap, false, false, [], 0, false, false, false),
           Log([Open], [], [], []))
  }

  // ---------------------------------------------------------------------------
  // Frames and flow control
  // ---------------------------------------------------------------------------

  function SendClient(s: Stream, e: Env, m: Msg): Stream {
    if e.clientOpen then s.(log := s.log.(toClient := s.log.toClient + [m])) else s
  }

  function SendAgent(s: Stream, e: Env, m: Msg): Stream {
    if s.sock.virtual && e.agentOpen then s.(log := s.log.(toAgent := s.log.toAgent + [m])) else s
  }

  function SyncBackpressure(s: Stream, e: Env): Stream {
    var shouldPause := s.flow.agentPaused || s.flow.wsBackpressured;
    if shouldPause && !s.flow.clientPaused then
      SendClient(s.(flow := s.flow.(clientPaused := true)), e, Pause)
    else if !shouldPause && s.flow.clientPaused then
      SendClient(s.(flow := s.flow.(clientPaused := false)), e, Resume)
    else s
  }

  function PauseSocket(s: Stream, e: Env): Stream {
    if s.sock.paused then s else SendAgent(s.(sock := s.sock.(paused := true)), e, Pause)
  }

  // ---------------------------------------------------------------------------
  // Teardown
  // ---------------------------------------------------------------------------

  /** The socket goes away and tells its agent once; nothing listens any more. */
  function DestroySilently(s: Stream, e: Env): Stream {
    if s.sock.destroyed then s
    else if s.sock.virtual && !s.sock.agentNotified && e.agentOpen then
      SendAgent(s.(sock := s.sock.(destroyed := true, agentNotified := true)), e, Close)
    else s.(sock := s.sock.(destroyed := true))
  }

  function Cleanup(s: Stream, e: Env): Stream {
    if s.life.cleaned then s else DestroySilently(s.(life := s.life.(cleaned := true)), e)
  }

  function AbortSocket(s: Stream, e: Env): Stream {
    if s.sock.destroyed || !s.sock.virtual then s
    else
      SendAgent(s.(sock := s.sock.(destroyed := true, agentNotified := true, closeQueued := true)), e, Abort(Teardown))
  }

  function NotifyClient(s: Stream, e: Env): Stream {
    if e.clientOpen && !s.life.abortSent then
      SendClient(s.(life := s.life.(abortSent := true)), e, Abort(Teardown))
    else s
  }

  function AbortStream(s: Stream, e: Env, notifyClient: bool): Stream {
    if s.life.cleaned then s
    else
      var s1 := AbortSocket(s, e);
      Cleanup(if notifyClient then NotifyClient(s1, e) else s1, e)
  }

  /** The router's 'close' listener. */
  function OnClose(s: Stream, e: Env): Stream {
    if s.life.cleaned then s else Cleanup(SendClient(s, e, Close), e)
  }

  /** The router's 'error' listener. */
  function OnError(s: Stream, e: Env): Stream {
    if s.life.cleaned then s else AbortStream(SendClient(s, e, Abort(Teardown)), e, false)
  }

  /** socket.destroy(), whoever calls it. */
  function Destroy(s: Stream, e: Env): Stream {
    if s.sock.destroyed then s else OnClose(DestroySilently(s, e), e)
  }

  /** The cleanup of an HTTP stream, which RES_* frames reach whatever the stream's mode. */
  function HttpCleanup(s: Stream): Stream {
    if s.life.cleaned then s else s.(life := s.life.(cleaned := true, leaked := true))
  }

  // ---------------------------------------------------------------------------
  // Socket -> tunnel client
  // ---------------------------------------------------------------------------

  function Forward(s: Stream, chunk: Bytes, e: Env): Stream {
    SendClient(s.(flow := s.flow.(pendingSends := s.flow.pendingSends + 1)), e, Data(chunk))
  }

  /** Stop reading the socket when the WebSocket's outbound buffer is above the high mark. */
  function Throttle(s: Stream, e: Env): Stream {
    if |s.log.toClient| in e.clientHigh && !s.flow.localPausedForWs then
      var s1 := s.(flow := s.flow.(localPausedForWs := true));
      if s1.sock.destroyed then s1 else PauseSocket(s1, e)
    else s
  }

  /** The router's 'data' listener. */
  function EmitData(s: Stream, chunk: Bytes, e: Env): Stream {
    if s.life.cleaned then s
    else if !e.clientOpen then AbortStream(s, e, true)
    else Throttle(Forward(s, chunk, e), e)
  }

  function Flush(s: Stream, chunks: seq<Bytes>, e: Env): Stream {
    if chunks == [] then s
    else EmitData(Flush(s, chunks[..|chunks| - 1], e), chunks[|chunks| - 1], e)
  }

  function ResumeSocket(s: Stream, e: Env): Stream {
    if !s.sock.paused then s
    else
      var s1 := s.(sock := s.sock.(paused := false, buffered := [], bufferedBytes := 0));
      SendAgent(Flush(s1, s.sock.buffered, e), e, Resume)
  }

  function SyncReadState(s: Stream, e: Env): Stream {
    if s.sock.destroyed then s
    else if s.flow.peerPausedRead || s.flow.localPausedForWs then PauseSocket(s, e)
    else ResumeSocket(s, e)
  }

  function PushInbound(s: Stream, chunk: Bytes, e: Env): Stream {
    if s.sock.destroyed then s
    else if s.sock.paused then
      if s.sock.bufferedBytes + |chunk| > s.sock.cap then AbortSocket(s, e)
      else s.(sock := s.sock.(buffered := s.sock.buffered + [chunk],
                              bufferedBytes := s.sock.bufferedBytes + |chunk|))
    else EmitData(s, chunk, e)
  }

  // ---------------------------------------------------------------------------
  // Tunnel client -> socket
  // ---------------------------------------------------------------------------

  /** socket.write(chunk): the new stream, and whether the socket wants more. */
  function WriteSocket(s: Stream, chunk: Bytes, e: Env, w: WriteOutcome): (Stream, bool) {
    if !s.sock.virtual then (s.(log := s.log.(extOut := s.log.extOut + [chunk])), w.Accepted?)
    else if s.sock.destroyed || !e.agentOpen then (s, false)
    else
      var s1 := SendAgent(s, e, Data(chunk));
      if |s1.log.toAgent| in e.agentHigh then (s1.(sock := s1.sock.(pendingDrain := true)), false)
      else (s1, true)
  }

  function OnDrain(s: Stream, e: Env): Stream {
    if s.life.cleaned || !s.flow.wsBackpressured then s
    else SyncBackpressure(s.(flow := s.flow.(wsBackpressured := false)), e)
  }

  // ---------------------------------------------------------------------------
  // Handlers, one per event
  // ---------------------------------------------------------------------------

  function OnClientData(s: Stream, chunk: Bytes, e: Env, w: WriteOutcome): Stream {
    if s.sock.destroyed then s
    else if !s.sock.virtual && w.Throws? then AbortStream(s, e, true)
    else
      var (s1, ok) := WriteSocket(s, chunk, e, w);
      if !ok && !s1.flow.wsBackpressured then
        SyncBackpressure(s1.(flow := s1.flow.(wsBackpressured := true)), e)
      else s1
  }

  /** The agent knows no id yet: its connect is refused by port. */
  function RefuseConnect(s: Stream, e: Env): Stream {
    if s.life.awaitingAck && e.agentOpen then
      SendAgent(s.(life := s.life.(refused := true, awaitingAck := false)), e, Reject)
    else s
  }

  function EndByClient(s: Stream): Stream {
    s.(life := s.life.(endedBy := ByClient))
  }

  function OnClientAbort(s: Stream, e: Env): Stream {
    AbortStream(EndByClient(RefuseConnect(s, e)), e, false)
  }

  /** A frame of the owning tunnel client. */
  function OnClientFrame(s: Stream, m: Msg, e: Env, w: WriteOutcome): Stream {
    if s.life.cleaned then s else
    match m
    case Data(chunk) => OnClientData(s, chunk, e, w)
    case Close => Cleanup(EndByClient(s), e)
    case OpenAck =>
      if !s.life.awaitingAck then s
      else SendAgent(s.(life := s.life.(awaitingAck := false)), e, ConnectAck)
    case Abort(_) => OnClientAbort(s, e)
    case Pause => SyncReadState(s.(flow := s.flow.(peerPausedRead := true)), e)
    case Resume => SyncReadState(s.(flow := s.flow.(peerPausedRead := false)), e)
    case ResMeta => AbortStream(s, e, false)
    case ResBody => HttpCleanup(s)
    case _ => s
  }

  /** The agent's goodbye: the socket is gone and owes the agent nothing. */
  function AgentLeft(s: Stream): Stream {
    s.(sock := s.sock.(destroyed := true, agentNotified := true), life := s.life.(endedBy := ByAgent))
  }

  /** A frame of the owning agent. */
  function OnAgentFrame(s: Stream, m: Msg, e: Env): Stream {
    if s.life.cleaned || !s.sock.virtual || s.life.awaitingAck then s else
    match m
    case Data(chunk) => PushInbound(s, chunk, e)
    case Close => if s.sock.destroyed then s else OnClose(AgentLeft(s), e)
    case Abort(_) => if s.sock.destroyed then s else OnError(AgentLeft(s), e)
    case Pause => SyncBackpressure(s.(flow := s.flow.(agentPaused := true)), e)
    case Resume => SyncBackpressure(s.(flow := s.flow.(agentPaused := false)), e)
    case _ => s
  }

  /** The reply to an agent frame whose stream is no longer in the table. */
  function ReplyNotFound(s: Stream, m: Msg, e: Env): Stream {
    if s.life.cleaned && (m.Data? || m.Close?) then SendAgent(s, e, Abort(StreamNotFound)) else s
  }

  /** The send callback of agentWs, which may find the outbound buffer drained. */
  function OnAgentSent(s: Stream, low: bool, e: Env): Stream {
    if !s.sock.destroyed && s.sock.pendingDrain && low then
      OnDrain(s.(sock := s.sock.(pendingDrain := false)), e)
    else s
  }

  /** The send callback of a TCP_DATA frame on the tunnel client's WebSocket. */
  function OnClientSent(s: Stream, low: bool, e: Env): Stream {
    var s1 := s.(flow := s.flow.(pendingSends := s.flow.pendingSends - 1));
    if !s1.life.cleaned && s1.flow.localPausedForWs && s1.flow.pendingSends == 0 && low then
      SyncReadState(s1.(flow := s1.flow.(localPausedForWs := false)), e)
    else s1
  }

  /** The queued 'close' event arrives. */
  function OnQueuedClose(s: Stream, e: Env): Stream {
    if s.sock.closeQueued then OnClose(s.(sock := s.sock.(closeQueued := false)), e) else s
  }

  /** A direct socket read a chunk. */
  function OnExternalData(s: Stream, chunk: Bytes, e: Env): Stream {
    if s.sock.virtual || s.sock.destroyed then s
    else EmitData(s.(log := s.log.(extIn := s.log.extIn + [chunk])), chunk, e)
  }

  /** A direct socket is destroyed; its 'close' or 'error' event is still to come. */
  function OnExternalGone(s: Stream): Stream {
    if s.sock.virtual || s.sock.destroyed then s
    else s.(sock := s.sock.(destroyed := true, closeQueued := true))
  }

  function OnExternalError(s: Stream, e: Env): Stream {
    if s.sock.virtual then s else OnError(s.(sock := s.sock.(destroyed := true)), e)
  }

  function OnExternalDrain(s: Stream, e: Env): Stream {
    if s.sock.virtual then s else OnDrain(s, e)
  }

  // What can happen at the server besides receiving a frame: the idle timeout, the agent's
  // WebSocket or the whole server going away (with notice to the client), the client's
  // WebSocket going away (without), callbacks, and the events of a direct socket.
  datatype ServerEvent =
    | AbortWithNotice
    | AbortQuietly
    | QueuedClose
    | AgentSent(low: bool)
    | ClientSent(low: bool)
    | ExternalData(chunk: Bytes)
    | ExternalGone
    | ExternalError
    | ExternalDrain

  function ServerEventStep(s: Stream, ev: ServerEvent, e: Env): Stream {
    match ev
    case AbortWithNotice => AbortStream(s, e, true)
    case AbortQuietly => AbortStream(s, e, false)
    case QueuedClose => OnQueuedClose(s, e)
    case AgentSent(low) => OnAgentSent(s, low, e)
    case ClientSent(low) => OnClientSent(s, low, e)
    case ExternalData(chunk) => OnExternalData(s, chunk, e)
    case ExternalGone => OnExternalGone(s)
    case ExternalError => OnExternalError(s, e)
    case ExternalDrain => OnExternalDrain(s, e)
  }
}
