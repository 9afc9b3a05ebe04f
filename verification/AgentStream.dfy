/**
 One stream on the agent (registerStream and the stream cases of handleServerFrame in
 serve/tcp-agent.js): what each handler does to the entry and which frames it sends.
 */
module AgentStream {
  import opened Protocol
  import opened ServerStream

  // Unbound: no TCP_CONNECT_ACK for this id yet. Done: the entry is `cleaned`.
  datatype Phase = Unbound | Bound | Done

  // localFull is localWriteBackpressured; reading tells whether the local socket flows.
  datatype AgentFlow = AgentFlow(peerPausedRead: bool, pausedForWs: bool, localFull: bool,
                                 reading: bool, pendingSends: int)

  // Frames sent for this stream, chunks read from the local socket, chunks written to it.
  datatype AgentLog = AgentLog(toServer: seq<Msg>, read: seq<Bytes>, written: seq<Bytes>)

  datatype AgentEnd = AgentEnd(phase: Phase, flow: AgentFlow, log: AgentLog)

  const NEW_AGENT_END := AgentEnd(Unbound, AgentFlow(false, false, false, false, 0), AgentLog([], [], []))

  function SendServer(a: AgentEnd, open: bool, m: Msg): AgentEnd {
    if open then a.(log := a.log.(toServer := a.log.toServer + [m])) else a
  }

  function SyncRead(a: AgentEnd, open: bool): AgentEnd {
    a.(flow := a.flow.(reading := !(a.flow.peerPausedRead || a.flow.pausedForWs || !open)))
  }

  /** The acknowledgement arrives; `paired` tells whether a pending, living socket took it. */
  function OnAck(a: AgentEnd, paired: bool): AgentEnd {
    if a.phase.Unbound? && paired then a.(phase := Bound, flow := a.flow.(reading := true)) else a
  }

  function OnLocalData(a: AgentEnd, chunk: Bytes, open: bool, high: set<nat>): AgentEnd {
    if !a.phase.Bound? then a else
    var a0 := a.(log := a.log.(read := a.log.read + [chunk]));
    if !open then a0 else
    var a1 := SendServer(a0.(flow := a0.flow.(pendingSends := a0.flow.pendingSends + 1)), open, Data(chunk));
    if |a1.log.toServer| in high && !a1.flow.pausedForWs then
      SyncRead(a1.(flow := a1.flow.(pausedForWs := true)), open)
    else a1
  }

  function OnSent(a: AgentEnd, low: bool, open: bool): AgentEnd {
    var a1 := a.(flow := a.flow.(pendingSends := a.flow.pendingSends - 1));
    OnWsDrain(a1, low, open)
  }

  function OnWsDrain(a: AgentEnd, low: bool, open: bool): AgentEnd {
    if a.phase.Bound? && a.flow.pausedForWs && a.flow.pendingSends == 0 && low then
      SyncRead(a.(flow := a.flow.(pausedForWs := false)), open)
    else a
  }

  function OnLocalDrain(a: AgentEnd, open: bool): AgentEnd {
    if a.phase.Bound? && a.flow.localFull && open then
      SendServer(a.(flow := a.flow.(localFull := false)), open, Resume)
    else a
  }

  /** Any end of the stream on the agent's side; `goodbye` is what the server is told. */
  function End(a: AgentEnd, open: bool, goodbye: Msg): AgentEnd {
    if a.phase.Bound? then SendServer(a.(phase := Done), open, goodbye) else a
  }

  function EndSilently(a: AgentEnd): AgentEnd {
    if a.phase.Bound? then a.(phase := Done) else a
  }

  function OnServerFrame(a: AgentEnd, m: Msg, open: bool, w: WriteOutcome): AgentEnd {
    if !a.phase.Bound? then a else
    match m
    case Data(chunk) =>
      if w.Throws? then End(a, open, Abort(Teardown))
      else
        var a1 := a.(log := a.log.(written := a.log.written + [chunk]));
        if w.BufferFull? && !a1.flow.localFull then
          SendServer(a1.(flow := a1.flow.(localFull := true)), open, Pause)
        else a1
    case Close => EndSilently(a)
    case Abort(_) => EndSilently(a)
    case Pause => SyncRead(a.(flow := a.flow.(peerPausedRead := true)), open)
    case Resume => SyncRead(a.(flow := a.flow.(peerPausedRead := false)), open)
    case _ => a
  }

  // What can happen at the agent besides receiving a frame.
  datatype AgentEvent =
    | LocalData(chunk: Bytes)
    | LocalSent(low: bool)
    | WsDrain(low: bool)
    | LocalDrain
    | LocalClose
    | LocalError
    | SessionOver              // cleanupAll

  function AgentEventStep(a: AgentEnd, ev: AgentEvent, open: bool, high: set<nat>): AgentEnd {
    match ev
    case LocalData(chunk) => OnLocalData(a, chunk, open, high)
    case LocalSent(low) => OnSent(a, low, open)
    case WsDrain(low) => OnWsDrain(a, low, open)
    case LocalDrain => OnLocalDrain(a, open)
    case LocalClose => End(a, open, Close)
    case LocalError => End(a, open, Abort(Teardown))
    case SessionOver => EndSilently(a)
  }

  // ---------------------------------------------------------------------------
  // One end at a handler boundary
  // ---------------------------------------------------------------------------

  predicate AgentInv(a: AgentEnd, open: bool) {
    && (a.phase.Unbound? ==> a.log == AgentLog([], [], []) && !a.flow.localFull)
    && Chunks(a.log.toServer) <= a.log.read
    && (open ==> Chunks(a.log.toServer) == a.log.read)
    && Alternates(a.log.toServer)
    && (open ==> Fold(false, a.log.toServer) == a.flow.localFull)
  }

  /** From a to b: nothing sent is unsent, `given` is what the local socket was given. */
  predicate AgentMoves(a: AgentEnd, b: AgentEnd, given: seq<Bytes>) {
    && a.log.toServer <= b.log.toServer && a.log.read <= b.log.read
    && b.log.written == a.log.written + given
    && (b.phase.Unbound? ==> a.phase.Unbound?)
    && (b.phase.Bound? && !a.phase.Bound? ==> a.phase.Unbound?)
    && (a.phase.Done? ==> b.phase.Done? && b.log == a.log)
  }

  lemma OnLocalDataProof(a: AgentEnd, chunk: Bytes, open: bool, high: set<nat>)
    requires AgentInv(a, open)
    ensures AgentInv(OnLocalData(a, chunk, open, high), open)
    ensures AgentMoves(a, OnLocalData(a, chunk, open, high), [])
  {
    Push(a.log.toServer, Data(chunk));
  }

  lemma AgentCallbackProof(a: AgentEnd, low: bool, open: bool)
    requires AgentInv(a, open)
    ensures AgentInv(OnSent(a, low, open), open) && AgentMoves(a, OnSent(a, low, open), [])
    ensures AgentInv(OnWsDrain(a, low, open), open) && AgentMoves(a, OnWsDrain(a, low, open), [])
    ensures AgentInv(OnLocalDrain(a, open), open) && AgentMoves(a, OnLocalDrain(a, open), [])
  {
    Push(a.log.toServer, Resume);
  }

  lemma AgentEndProof(a: AgentEnd, open: bool, goodbye: Msg)
    requires AgentInv(a, open) && Terminal(goodbye)
    ensures AgentInv(End(a, open, goodbye), open) && AgentMoves(a, End(a, open, goodbye), [])
    ensures AgentInv(EndSilently(a), open) && AgentMoves(a, EndSilently(a), [])
  {
    Push(a.log.toServer, goodbye);
  }

  /** What a frame gives to the local socket. */
  function Given(a: AgentEnd, m: Msg, w: WriteOutcome): seq<Bytes> {
    if a.phase.Bound? && m.Data? && !w.Throws? then [m.chunk] else []
  }

  lemma OnServerFrameProof(a: AgentEnd, m: Msg, open: bool, w: WriteOutcome)
    requires AgentInv(a, open)
    ensures AgentInv(OnServerFrame(a, m, open, w), open)
    ensures AgentMoves(a, OnServerFrame(a, m, open, w), Given(a, m, w))
    ensures m.Data? && w.Throws? ==> !OnServerFrame(a, m, open, w).phase.Bound?
  {
    Push(a.log.toServer, Pause);
    AgentEndProof(a, open, Abort(Teardown));
  }

  lemma AgentStepProof(a: AgentEnd, ev: AgentEvent, open: bool, high: set<nat>)
    requires AgentInv(a, open)
    ensures AgentInv(AgentEventStep(a, ev, open, high), open)
    ensures AgentMoves(a, AgentEventStep(a, ev, open, high), [])
    ensures AgentEventStep(a, ev, open, high).phase.Unbound? <==> a.phase.Unbound?
  {
    match ev
    case LocalData(chunk) => OnLocalDataProof(a, chunk, open, high);
    case LocalSent(low) => AgentCallbackProof(a, low, open);
    case WsDrain(low) => AgentCallbackProof(a, low, open);
    case LocalDrain => AgentCallbackProof(a, true, open);
    case LocalClose => AgentEndProof(a, open, Close);
    case LocalError => AgentEndProof(a, open, Abort(Teardown));
    case SessionOver => AgentEndProof(a, open, Close);
  }
}
