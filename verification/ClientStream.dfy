/**
 One stream on the tunnel client (src/tcp/TcpClientHandler.js): what each handler does to
 the state and which frames it sends.
 */
module ClientStream {
  import opened Protocol
  import opened ServerStream

  // Unopened: no TCP_OPEN for this id yet. Over: refused or `cleaned`.
  datatype ClientPhase = Unopened | Connecting | Connected | Over

  // localFull is localWriteBackpressured; reading tells whether the local socket flows;
  // socketGone, whether it is destroyed while its 'close' event is still to come.
  datatype ClientFlow = ClientFlow(peerPausedRead: bool, localPausedForWs: bool, localFull: bool,
                                   reading: bool, socketGone: bool, pendingSends: int)

  datatype ClientLog = ClientLog(toServer: seq<Msg>, read: seq<Bytes>, written: seq<Bytes>)

  datatype ClientEnd = ClientEnd(phase: ClientPhase, flow: ClientFlow, log: ClientLog)

  const NEW_CLIENT_END :=
    ClientEnd(Unopened, ClientFlow(false, false, false, true, false, 0), ClientLog([], [], []))

  predicate Live(c: ClientEnd) {
    c.phase.Connecting? || c.phase.Connected?
  }

  function SendUp(c: ClientEnd, open: bool, m: Msg): ClientEnd {
    if open then c.(log := c.log.(toServer := c.log.toServer + [m])) else c
  }

  function SyncLocal(c: ClientEnd): ClientEnd {
    if c.flow.socketGone then c
    else c.(flow := c.flow.(reading := !(c.flow.peerPausedRead || c.flow.localPausedForWs)))
  }

  /** handleTcpOpen; `admitted`: payload readable, host allowed, table not full. */
  function OnOpen(c: ClientEnd, admitted: bool, open: bool): ClientEnd {
    if !c.phase.Unopened? then c
    else if admitted then c.(phase := Connecting)
    else SendUp(c.(phase := Over), open, Abort(Teardown))
  }

  function OnLocalConnect(c: ClientEnd, open: bool): ClientEnd {
    if c.phase.Connecting? then SendUp(c.(phase := Connected), open, OpenAck) else c
  }

  /** Any end of the stream on the client's side; `goodbye` is what the server is told. */
  function EndClient(c: ClientEnd, open: bool, goodbye: Msg): ClientEnd {
    if Live(c) then SendUp(c.(phase := Over), open, goodbye) else c
  }

  function EndClientSilently(c: ClientEnd): ClientEnd {
    if Live(c) then c.(phase := Over) else c
  }

  function OnLocalTimeout(c: ClientEnd, open: bool): ClientEnd {
    if c.phase.Connecting? then EndClient(c, open, Abort(Teardown)) else c
  }

  function OnLocalChunk(c: ClientEnd, chunk: Bytes, open: bool, high: set<nat>): ClientEnd {
    if !c.phase.Connected? then c else
    var c0 := c.(log := c.log.(read := c.log.read + [chunk]));
    if !open then EndClientSilently(c0) else
    var c1 := SendUp(c0.(flow := c0.flow.(pendingSends := c0.flow.pendingSends + 1)), open, Data(chunk));
    if |c1.log.toServer| in high && !c1.flow.localPausedForWs then
      SyncLocal(c1.(flow := c1.flow.(localPausedForWs := true)))
    else c1
  }

  function OnChunkSent(c: ClientEnd, low: bool): ClientEnd {
    var c1 := c.(flow := c.flow.(pendingSends := c.flow.pendingSends - 1));
    if Live(c1) && c1.flow.localPausedForWs && c1.flow.pendingSends == 0 && low then
      SyncLocal(c1.(flow := c1.flow.(localPausedForWs := false)))
    else c1
  }

  function OnSocketDrain(c: ClientEnd, open: bool): ClientEnd {
    if c.phase.Connected? && c.flow.localFull && open then
      SendUp(c.(flow := c.flow.(localFull := false)), open, Resume)
    else c
  }

  function OnSocketGone(c: ClientEnd): ClientEnd {
    c.(flow := c.flow.(socketGone := true))
  }

  function OnFrame(c: ClientEnd, m: Msg, open: bool, w: WriteOutcome): ClientEnd {
    if !Live(c) then c else
    match m
    case Data(chunk) =>
      if c.flow.socketGone then c
      else if w.Throws? then EndClient(c, open, Abort(Teardown))
      else
        var c1 := c.(log := c.log.(written := c.log.written + [chunk]));
        if w.BufferFull? && !c1.flow.localFull then
          SendUp(c1.(flow := c1.flow.(localFull := true)), open, Pause)
        else c1
    case Close => EndClientSilently(c)
    case Abort(_) => EndClientSilently(c)
    case Pause => SyncLocal(c.(flow := c.flow.(peerPausedRead := true)))
    case Resume => SyncLocal(c.(flow := c.flow.(peerPausedRead := false)))
    case _ => c
  }

  // What can happen at the tunnel client besides receiving a frame.
  datatype ClientEvent =
    | ServiceConnect
    | ServiceTimeout
    | ServiceData(chunk: Bytes)
    | ServiceSent(low: bool)
    | ServiceDrain
    | ServiceGone
    | ServiceClose
    | ServiceError
    | IdleTimeout              // the shared HTTP idle timer: RES_ABORT
    | ClientOver               // cleanupTcpStreams

  function ClientEventStep(c: ClientEnd, ev: ClientEvent, open: bool, high: set<nat>): ClientEnd {
    match ev
    case ServiceConnect => OnLocalConnect(c, open)
    case ServiceTimeout => OnLocalTimeout(c, open)
    case ServiceData(chunk) => OnLocalChunk(c, chunk, open, high)
    case ServiceSent(low) => OnChunkSent(c, low)
    case ServiceDrain => OnSocketDrain(c, open)
    case ServiceGone => OnSocketGone(c)
    case ServiceClose => EndClient(c, open, Close)
    case ServiceError => EndClient(c, open, Abort(Teardown))
    case IdleTimeout => EndClient(c, open, ResBody)
    case ClientOver => EndClientSilently(c)
  }

  // ---------------------------------------------------------------------------
  // One end at a handler boundary
  // ---------------------------------------------------------------------------

  predicate ClientInv(c: ClientEnd, open: bool) {
    && (c.phase.Unopened? ==> c.log == ClientLog([], [], []) && !c.flow.localFull && !c.flow.peerPausedRead)
    && Chunks(c.log.toServer) <= c.log.read
    && (open ==> Chunks(c.log.toServer) == c.log.read)
    && Alternates(c.log.toServer)
    && (open ==> Fold(false, c.log.toServer) == c.flow.localFull)
    && DataAfter(OpenAck, c.log.toServer)
    && (open && c.phase.Connected? ==> OpenAck in c.log.toServer)
  }

  predicate ClientMoves(c: ClientEnd, d: ClientEnd, given: seq<Bytes>) {
    && c.log.toServer <= d.log.toServer && c.log.read <= d.log.read
    && d.log.written == c.log.written + given
    && (d.phase.Unopened? ==> c.phase.Unopened?)
    && (Live(d) && !Live(c) ==> c.phase.Unopened?)
    && (c.flow.socketGone ==> d.flow.socketGone)
    && (c.phase.Over? ==> d.phase.Over? && d.log == c.log)
  }

  lemma OnOpenProof(c: ClientEnd, admitted: bool, open: bool)
    requires ClientInv(c, open)
    ensures ClientInv(OnOpen(c, admitted, open), open) && ClientMoves(c, OnOpen(c, admitted, open), [])
  {
    Push(c.log.toServer, Abort(Teardown));
  }

  lemma OnLocalConnectProof(c: ClientEnd, open: bool)
    requires ClientInv(c, open)
    ensures ClientInv(OnLocalConnect(c, open), open) && ClientMoves(c, OnLocalConnect(c, open), [])
  {
    Push(c.log.toServer, OpenAck);
  }

  lemma EndClientProof(c: ClientEnd, open: bool, goodbye: Msg)
    requires ClientInv(c, open) && (Terminal(goodbye) || goodbye.ResBody?)
    ensures ClientInv(EndClient(c, open, goodbye), open) && ClientMoves(c, EndClient(c, open, goodbye), [])
    ensures ClientInv(EndClientSilently(c), open) && ClientMoves(c, EndClientSilently(c), [])
    ensures ClientInv(OnSocketGone(c), open) && ClientMoves(c, OnSocketGone(c), [])
  {
    Push(c.log.toServer, goodbye);
  }

  lemma OnLocalChunkProof(c: ClientEnd, chunk: Bytes, open: bool, high: set<nat>)
    requires ClientInv(c, open)
    ensures ClientInv(OnLocalChunk(c, chunk, open, high), open)
    ensures ClientMoves(c, OnLocalChunk(c, chunk, open, high), [])
  {
    Push(c.log.toServer, Data(chunk));
  }

  lemma ClientCallbackProof(c: ClientEnd, low: bool, open: bool)
    requires ClientInv(c, open)
    ensures ClientInv(OnChunkSent(c, low), open) && ClientMoves(c, OnChunkSent(c, low), [])
    ensures ClientInv(OnSocketDrain(c, open), open) && ClientMoves(c, OnSocketDrain(c, open), [])
  {
    Push(c.log.toServer, Resume);
  }

  function GivenLocally(c: ClientEnd, m: Msg, w: WriteOutcome): seq<Bytes> {
    if Live(c) && m.Data? && !c.flow.socketGone && !w.Throws? then [m.chunk] else []
  }

  lemma StillClient(c: ClientEnd)
    ensures ClientMoves(c, c, [])
  {
  }

  lemma OnDataFrameProof(c: ClientEnd, chunk: Bytes, open: bool, w: WriteOutcome)
    requires ClientInv(c, open)
    ensures var d := OnFrame(c, Data(chunk), open, w);
            && ClientInv(d, open) && ClientMoves(c, d, GivenLocally(c, Data(chunk), w))
            && (w.Throws? && !c.flow.socketGone ==> !Live(d))
  {
    hide SyncLocal, EndClientSilently;
    Push(c.log.toServer, Pause);
    EndClientProof(c, open, Abort(Teardown));
  }

  lemma OnFrameProof(c: ClientEnd, m: Msg, open: bool, w: WriteOutcome)
    requires ClientInv(c, open)
    ensures ClientInv(OnFrame(c, m, open, w), open)
    ensures ClientMoves(c, OnFrame(c, m, open, w), GivenLocally(c, m, w))
    ensures m.Data? && w.Throws? && !c.flow.socketGone ==> !Live(OnFrame(c, m, open, w))
  {
    if m.Data? {
      OnDataFrameProof(c, m.chunk, open, w);
    } else {
      hide EndClientSilently;
      EndClientProof(c, open, Close);
      StillClient(c);
    }
  }

  lemma ClientStepProof(c: ClientEnd, ev: ClientEvent, open: bool, high: set<nat>)
    requires ClientInv(c, open)
    ensures ClientInv(ClientEventStep(c, ev, open, high), open)
    ensures ClientMoves(c, ClientEventStep(c, ev, open, high), [])
    ensures ClientEventStep(c, ev, open, high).phase.Unopened? <==> c.phase.Unopened?
    ensures ClientEventStep(c, ev, open, high).flow.peerPausedRead == c.flow.peerPausedRead
  {
    hide ClientInv;
    match ev
    case ServiceConnect => OnLocalConnectProof(c, open);
    case ServiceTimeout => EndClientProof(c, open, Abort(Teardown));
    case ServiceData(chunk) => OnLocalChunkProof(c, chunk, open, high);
    case ServiceSent(low) => ClientCallbackProof(c, low, open);
    case ServiceDrain => ClientCallbackProof(c, true, open);
    case ServiceGone => EndClientProof(c, open, Close);
    case ServiceClose => EndClientProof(c, open, Close);
    case ServiceError => EndClientProof(c, open, Abort(Teardown));
    case IdleTimeout => EndClientProof(c, open, ResBody);
    case ClientOver => EndClientProof(c, open, Close);
  }
}
