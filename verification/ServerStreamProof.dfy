/**
 What holds of one server stream at every handler boundary, and how it moves from one
 boundary to the next.
 */
module ServerStreamProof {
  import opened Protocol
  import opened ServerStream

  /** The pause flag towards the client is the disjunction it stands for. */
  predicate FlowOk(f: Flow) {
    f.clientPaused == (f.agentPaused || f.wsBackpressured)
  }

  /** bufferedBytes counts what is buffered and never exceeds the limit. */
  predicate BufferOk(k: Sock) {
    && (!k.paused || !k.virtual ==> k.buffered == [])
    && k.bufferedBytes == TotalLength(k.buffered) <= k.cap
  }

  /** Who is still there, and who has been told. */
  predicate TeardownOk(l: Life, k: Sock) {
    && (l.leaked ==> l.cleaned)
    && (l.cleaned && !l.leaked ==> k.destroyed)
    && (l.endedBy.ByAgent? ==> k.destroyed)
    && (l.awaitingAck || l.refused ==> k.virtual)
    && (l.refused ==> !l.awaitingAck)
  }

  /** What a handler may break while it runs and has restored when it returns. */
  predicate Settled(l: Life, k: Sock) {
    && (k.destroyed && !l.cleaned ==> k.closeQueued && !l.awaitingAck)
    && (l.abortSent || l.refused || l.endedBy.ByClient? ==> l.cleaned)
  }

  /** One goodbye towards the client at most, then silence; none if the client spoke first. */
  predicate QuietToClient(l: Life, q: seq<Msg>) {
    && q != [] && q[0] == Open && Count(Open, q) == 1
    && TerminalLast(q)
    && Terminals(q) <= (if l.cleaned && !l.endedBy.ByClient? then 1 else 0)
  }

  /** One goodbye of the socket towards its agent at most, then afterwords; none if the agent spoke first. */
  predicate QuietToAgent(l: Life, k: Sock, q: seq<Msg>) {
    && Hushed(q)
    && Terminals(q) <= (if k.destroyed && !l.endedBy.ByAgent? then 1 else 0)
    && (!k.virtual ==> q == [])
  }

  /** TCP_CONNECT_ACK: once, before any data, never while waiting and never with a refusal. */
  predicate AckOk(l: Life, q: seq<Msg>) {
    && Count(ConnectAck, q) <= 1
    && Count(Reject, q) == (if l.refused then 1 else 0)
    && (ConnectAck in q ==> !l.awaitingAck && !l.refused)
    && DataAfter(ConnectAck, q)
  }

  /** While its WebSocket is open, the client has been told exactly the flag the server holds. */
  predicate FlagTold(f: Flow, q: seq<Msg>, clientOpen: bool) {
    Alternates(q) && (clientOpen ==> Fold(false, q) == f.clientPaused)
  }

  /** While the agent's WebSocket is open, a confirmed stream has been acknowledged. */
  predicate AckSent(l: Life, k: Sock, q: seq<Msg>, agentOpen: bool) {
    k.virtual && !l.awaitingAck && !l.refused && !l.cleaned && agentOpen ==> ConnectAck in q
  }

  predicate Unsettled(s: Stream, e: Env) {
    && FlowOk(s.flow) && BufferOk(s.sock) && TeardownOk(s.life, s.sock)
    && QuietToClient(s.life, s.log.toClient)
    && QuietToAgent(s.life, s.sock, s.log.toAgent)
    && AckOk(s.life, s.log.toAgent)
    && FlagTold(s.flow, s.log.toClient, e.clientOpen)
    && AckSent(s.life, s.sock, s.log.toAgent, e.agentOpen)
  }

  predicate Inv(s: Stream, e: Env) {
    Unsettled(s, e) && Settled(s.life, s.sock)
  }

  predicate Alive(s: Stream) {
    !s.life.cleaned && !s.sock.destroyed
  }

  /** Chunks taken from the socket's side: forwarded, or still buffered. */
  function Taken(s: Stream): seq<Bytes> {
    Chunks(s.log.toClient) + s.sock.buffered
  }

  /** Chunks handed to the socket's side. */
  function Delivered(s: Stream): seq<Bytes> {
    if s.sock.virtual then Chunks(s.log.toAgent) else s.log.extOut
  }

  /** From s to t, the socket's side having offered the chunks of `offered`. */
  predicate Moves(s: Stream, t: Stream, offered: seq<Bytes>) {
    && s.sock.virtual == t.sock.virtual
    && s.log.toClient <= t.log.toClient && s.log.toAgent <= t.log.toAgent
    && (s.life.cleaned ==> t.life.cleaned && t.log.toClient == s.log.toClient)
    && (s.sock.destroyed ==> t.sock.destroyed)
    && (!Alive(s) ==> Chunks(t.log.toClient) == Chunks(s.log.toClient))
    && Chunks(t.log.toClient) <= Taken(s) + offered
    && (Alive(t) ==> Taken(t) == Taken(s) + offered)
  }

  /** Nothing was handed to the socket's side, nor read by a direct socket. */
  predicate SameDelivery(s: Stream, t: Stream) {
    Chunks(t.log.toAgent) == Chunks(s.log.toAgent) && t.log.extIn == s.log.extIn && t.log.extOut == s.log.extOut
  }

  /** No flag a peer controls has changed, nothing leaked, and the connect was not answered. */
  predicate SameSettings(s: Stream, t: Stream) {
    && t.life.leaked == s.life.leaked && t.life.refused == s.life.refused
    && t.flow.peerPausedRead == s.flow.peerPausedRead
    && t.flow.agentPaused == s.flow.agentPaused
    && t.life.awaitingAck == s.life.awaitingAck
    && Count(ConnectAck, t.log.toAgent) == Count(ConnectAck, s.log.toAgent)
  }

  predicate Quietly(s: Stream, t: Stream, offered: seq<Bytes>) {
    Moves(s, t, offered) && SameDelivery(s, t) && SameSettings(s, t)
  }

  lemma MovesTransitive(s: Stream, t: Stream, u: Stream, offered: seq<Bytes>, more: seq<Bytes>)
    requires Quietly(s, t, offered) && Quietly(t, u, more)
    ensures Quietly(s, u, offered + more)
  {
    assert (Taken(s) + offered) + more == Taken(s) + (offered + more);
  }

  /** The invariant does not depend on the outbound buffers. */
  lemma InvAnyPressure(s: Stream, e: Env, e': Env)
    requires Inv(s, e) && e'.clientOpen == e.clientOpen && e'.agentOpen == e.agentOpen
    ensures Inv(s, e')
  {
  }

  lemma Still(s: Stream)
    ensures Quietly(s, s, [])
  {
  }

  lemma QuietAfter(s: Stream, t: Stream, u: Stream, offered: seq<Bytes>)
    requires Quietly(s, t, offered) && Quietly(t, u, [])
    ensures Quietly(s, u, offered)
  {
    MovesTransitive(s, t, u, offered, []);
    assert offered + [] == offered;
  }

  // ---------------------------------------------------------------------------
  // From the smallest handler up
  // ---------------------------------------------------------------------------

  /** A PAUSE or RESUME towards the client of a live stream carries nothing and ends nothing. */
  lemma FlowFramePushed(l: Life, q: seq<Msg>, m: Msg)
    requires QuietToClient(l, q) && !l.cleaned && (m.Pause? || m.Resume?)
    ensures QuietToClient(l, q + [m]) && Chunks(q + [m]) == Chunks(q)
    ensures Fold(false, q + [m]) == m.Pause?
    ensures Alternates(q + [m]) <==> Alternates(q) && Fold(false, q) != m.Pause?
  {
    Push(q, m);
  }

  /** The flags may have just changed; syncing tells the client and restores the flag. */
  lemma BackpressureProof(s: Stream, f: Flow, e: Env)
    requires Inv(s.(flow := f), e) && !s.life.cleaned
    requires s.flow == f.(agentPaused := s.flow.agentPaused, wsBackpressured := s.flow.wsBackpressured)
    ensures Inv(SyncBackpressure(s, e), e)
    ensures Quietly(s, SyncBackpressure(s, e), [])
  {
    hide QuietToClient, Chunks, Fold, Alternates;
    FlowFramePushed(s.life, s.log.toClient, Pause);
    FlowFramePushed(s.life, s.log.toClient, Resume);
  }

  /** A PAUSE, RESUME or "not found" towards the agent disturbs nothing. */
  lemma SendAgentProof(s: Stream, e: Env, m: Msg)
    requires Inv(s, e) && (Afterword(m) || (m.Pause? && !s.sock.destroyed))
    ensures Inv(SendAgent(s, e, m), e) && Quietly(s, SendAgent(s, e, m), [])
  {
    hide QuietToClient, FlagTold, FlowOk, BufferOk, TeardownOk, Settled;
    Push(s.log.toAgent, m);
  }

  lemma PauseProof(s: Stream, e: Env)
    requires Inv(s, e) && !s.sock.destroyed
    ensures Inv(PauseSocket(s, e), e) && Quietly(s, PauseSocket(s, e), [])
  {
    var s1 := s.(sock := s.sock.(paused := true));
    SendAgentProof(s1, e, Pause);
  }

  /** q followed by at most one goodbye, and by none unless `allowed`. */
  predicate SaysGoodbye(q: seq<Msg>, r: seq<Msg>, allowed: bool) {
    r == q || (allowed && (r == q + [Close] || r == q + [Abort(Teardown)]))
  }

  /** Every teardown, however it started, comes to this. */
  predicate Ends(s: Stream, t: Stream, e: Env) {
    && t.flow == s.flow
    && t.life == s.life.(cleaned := true, abortSent := t.life.abortSent)
    && t.sock == s.sock.(destroyed := true, agentNotified := t.sock.agentNotified, closeQueued := t.sock.closeQueued)
    && t.log == s.log.(toClient := t.log.toClient, toAgent := t.log.toAgent)
    && SaysGoodbye(s.log.toClient, t.log.toClient, e.clientOpen && !s.life.endedBy.ByClient?)
    && SaysGoodbye(s.log.toAgent, t.log.toAgent, s.sock.virtual && !s.sock.destroyed)
  }

  lemma EndsKeepsHistories(s: Stream, t: Stream, e: Env)
    requires Unsettled(s, e) && !s.life.cleaned && Ends(s, t, e)
    ensures QuietToClient(t.life, t.log.toClient) && FlagTold(t.flow, t.log.toClient, e.clientOpen)
    ensures Chunks(t.log.toClient) == Chunks(s.log.toClient)
  {
    Push(s.log.toClient, Close);
    Push(s.log.toClient, Abort(Teardown));
  }

  lemma EndsKeepsAgentHistory(s: Stream, t: Stream, e: Env)
    requires TeardownOk(s.life, s.sock) && QuietToAgent(s.life, s.sock, s.log.toAgent)
    requires AckOk(s.life, s.log.toAgent) && Ends(s, t, e)
    ensures QuietToAgent(t.life, t.sock, t.log.toAgent) && AckOk(t.life, t.log.toAgent)
    ensures Chunks(t.log.toAgent) == Chunks(s.log.toAgent)
    ensures Count(ConnectAck, t.log.toAgent) == Count(ConnectAck, s.log.toAgent)
  {
    Push(s.log.toAgent, Close);
    Push(s.log.toAgent, Abort(Teardown));
  }

  lemma EndsProof(s: Stream, t: Stream, e: Env)
    requires Unsettled(s, e) && !s.life.cleaned && Ends(s, t, e)
    ensures Inv(t, e) && Quietly(s, t, [])
  {
    hide FlagTold, QuietToClient, QuietToAgent, AckOk;
    EndsKeepsHistories(s, t, e);
    EndsKeepsAgentHistory(s, t, e);
  }

  lemma CleanupProof(s: Stream, e: Env)
    requires Unsettled(s, e) && !s.life.cleaned
    ensures Inv(Cleanup(s, e), e) && Quietly(s, Cleanup(s, e), []) && Cleanup(s, e).life.cleaned
  {
    EndsProof(s, Cleanup(s, e), e);
  }

  lemma OnCloseProof(s: Stream, e: Env)
    requires Unsettled(s, e) && !s.life.cleaned && !s.life.endedBy.ByClient?
    ensures Inv(OnClose(s, e), e) && Quietly(s, OnClose(s, e), []) && OnClose(s, e).life.cleaned
  {
    EndsProof(s, OnClose(s, e), e);
  }

  lemma OnErrorProof(s: Stream, e: Env)
    requires Unsettled(s, e) && !s.life.cleaned && !s.life.endedBy.ByClient?
    ensures Inv(OnError(s, e), e) && Quietly(s, OnError(s, e), []) && OnError(s, e).life.cleaned
  {
    EndsProof(s, OnError(s, e), e);
  }

  lemma AbortProof(s: Stream, e: Env, notifyClient: bool)
    requires Unsettled(s, e) && !s.life.cleaned && (notifyClient ==> !s.life.endedBy.ByClient?)
    ensures Inv(AbortStream(s, e, notifyClient), e) && AbortStream(s, e, notifyClient).life.cleaned
    ensures Quietly(s, AbortStream(s, e, notifyClient), [])
    ensures AbortStream(s, e, notifyClient).log.toClient ==
            s.log.toClient + (if notifyClient && e.clientOpen && !s.life.abortSent then [Abort(Teardown)] else [])
    ensures AbortStream(s, e, notifyClient).life.abortSent == (s.life.abortSent || (notifyClient && e.clientOpen))
  {
    AbortNotice(s, e, notifyClient);
    EndsProof(s, AbortStream(s, e, notifyClient), e);
  }

  /** The notice to the client, if it is to have one. */
  lemma AbortNotice(s: Stream, e: Env, notifyClient: bool)
    requires !s.life.cleaned
    ensures AbortStream(s, e, notifyClient).log.toClient ==
            s.log.toClient + (if notifyClient && e.clientOpen && !s.life.abortSent then [Abort(Teardown)] else [])
    ensures AbortStream(s, e, notifyClient).life.abortSent == (s.life.abortSent || (notifyClient && e.clientOpen))
  {
  }

  lemma AbortSocketProof(s: Stream, e: Env)
    requires Inv(s, e) && !s.life.cleaned && !s.life.awaitingAck
    ensures Inv(AbortSocket(s, e), e) && Quietly(s, AbortSocket(s, e), [])
  {
    Push(s.log.toAgent, Abort(Teardown));
  }

  // ---------------------------------------------------------------------------
  // Data from the socket's side
  // ---------------------------------------------------------------------------

  lemma ForwardProof(s: Stream, chunk: Bytes, e: Env)
    requires Inv(s, e) && Alive(s) && s.sock.buffered == [] && e.clientOpen
    ensures Inv(Forward(s, chunk, e), e) && Quietly(s, Forward(s, chunk, e), [chunk])
  {
    Push(s.log.toClient, Data(chunk));
  }

  lemma ThrottleProof(s: Stream, e: Env)
    requires Inv(s, e)
    ensures Inv(Throttle(s, e), e) && Quietly(s, Throttle(s, e), [])
  {
    hide Inv, Quietly, PauseSocket;
    Still(s);
    if |s.log.toClient| in e.clientHigh && !s.flow.localPausedForWs {
      var s1 := s.(flow := s.flow.(localPausedForWs := true));
      PausedForWsProof(s, e);
      if !s1.sock.destroyed {
        PauseProof(s1, e);
        QuietAfter(s, s1, PauseSocket(s1, e), []);
      }
    }
  }

  lemma PausedForWsProof(s: Stream, e: Env)
    requires Inv(s, e)
    ensures var s1 := s.(flow := s.flow.(localPausedForWs := true)); Inv(s1, e) && Quietly(s, s1, [])
  {
  }

  lemma EmitOpenProof(s: Stream, chunk: Bytes, e: Env)
    requires Inv(s, e) && Alive(s) && s.sock.buffered == [] && e.clientOpen
    ensures var t := Throttle(Forward(s, chunk, e), e);
            Inv(t, e) && Quietly(s, t, [chunk]) && t.sock.buffered == [] && Alive(t)
  {
    var s1 := Forward(s, chunk, e);
    ForwardProof(s, chunk, e);
    ThrottleProof(s1, e);
    QuietAfter(s, s1, Throttle(s1, e), [chunk]);
  }

  lemma DeadOffer(s: Stream, t: Stream, offered: seq<Bytes>)
    requires Quietly(s, t, []) && !Alive(t)
    ensures Quietly(s, t, offered)
  {
  }

  lemma EmitDataProof(s: Stream, chunk: Bytes, e: Env)
    requires Inv(s, e) && s.sock.buffered == [] && (s.sock.destroyed ==> s.life.cleaned)
    ensures Inv(EmitData(s, chunk, e), e)
    ensures Quietly(s, EmitData(s, chunk, e), [chunk])
    ensures EmitData(s, chunk, e).sock.buffered == []
    ensures EmitData(s, chunk, e).sock.destroyed ==> EmitData(s, chunk, e).life.cleaned
  {
    if s.life.cleaned {
      DeadOffer(s, s, [chunk]);
    } else if e.clientOpen {
      EmitOpenProof(s, chunk, e);
    } else {
      AbortProof(s, e, true);
      DeadOffer(s, AbortStream(s, e, true), [chunk]);
    }
  }

  lemma {:induction false} FlushProof(s: Stream, chunks: seq<Bytes>, e: Env)
    requires Inv(s, e) && s.sock.buffered == [] && (s.sock.destroyed ==> s.life.cleaned)
    ensures Inv(Flush(s, chunks, e), e)
    ensures Quietly(s, Flush(s, chunks, e), chunks)
    ensures Flush(s, chunks, e).sock.buffered == []
    ensures Flush(s, chunks, e).sock.destroyed ==> Flush(s, chunks, e).life.cleaned
  {
    if chunks != [] {
      var n := |chunks| - 1;
      FlushProof(s, chunks[..n], e);
      EmitDataProof(Flush(s, chunks[..n], e), chunks[n], e);
      MovesTransitive(s, Flush(s, chunks[..n], e), Flush(s, chunks, e), chunks[..n], [chunks[n]]);
      assert chunks[..n] + [chunks[n]] == chunks;
    }
  }

  lemma ResumeProof(s: Stream, e: Env)
    requires Inv(s, e) && Alive(s)
    ensures Inv(ResumeSocket(s, e), e) && Quietly(s, ResumeSocket(s, e), [])
  {
    hide Inv, Quietly, Flush, SendAgent;
    if s.sock.paused {
      var s1 := s.(sock := s.sock.(paused := false, buffered := [], bufferedBytes := 0));
      var s2 := Flush(s1, s.sock.buffered, e);
      UnpausedProof(s, e);
      FlushProof(s1, s.sock.buffered, e);
      SendAgentProof(s2, e, Resume);
      QuietAfter(s1, s2, SendAgent(s2, e, Resume), s.sock.buffered);
      FlushedProof(s, SendAgent(s2, e, Resume));
    } else {
      Still(s);
    }
  }

  lemma UnpausedProof(s: Stream, e: Env)
    requires Inv(s, e)
    ensures Inv(s.(sock := s.sock.(paused := false, buffered := [], bufferedBytes := 0)), e)
  {
  }

  /** What was buffered is offered again, by the socket itself. */
  lemma FlushedProof(s: Stream, t: Stream)
    requires Quietly(s.(sock := s.sock.(paused := false, buffered := [], bufferedBytes := 0)), t, s.sock.buffered)
    ensures Quietly(s, t, [])
  {
    assert Chunks(s.log.toClient) + [] == Chunks(s.log.toClient);
    assert Taken(s) + [] == Taken(s);
  }

  lemma SyncReadProof(s: Stream, e: Env)
    requires Inv(s, e) && !s.life.cleaned
    ensures Inv(SyncReadState(s, e), e) && Quietly(s, SyncReadState(s, e), [])
  {
    if s.sock.destroyed {
    } else if s.flow.peerPausedRead || s.flow.localPausedForWs {
      PauseProof(s, e);
    } else {
      ResumeProof(s, e);
    }
  }

  lemma BufferProof(s: Stream, chunk: Bytes, e: Env)
    requires Inv(s, e) && Alive(s) && s.sock.virtual && s.sock.paused && s.sock.bufferedBytes + |chunk| <= s.sock.cap
    ensures var t := s.(sock := s.sock.(buffered := s.sock.buffered + [chunk],
                                        bufferedBytes := s.sock.bufferedBytes + |chunk|));
            Inv(t, e) && Quietly(s, t, [chunk])
  {
    assert (s.sock.buffered + [chunk])[..|s.sock.buffered|] == s.sock.buffered;
    assert Taken(s) + [chunk] == Chunks(s.log.toClient) + (s.sock.buffered + [chunk]);
  }

  lemma OverflowProof(s: Stream, chunk: Bytes, e: Env)
    requires Inv(s, e) && Alive(s) && s.sock.virtual && !s.life.awaitingAck
    ensures Inv(AbortSocket(s, e), e) && Quietly(s, AbortSocket(s, e), [chunk])
  {
    hide Inv, Quietly;
    AbortSocketProof(s, e);
    DeadOffer(s, AbortSocket(s, e), [chunk]);
  }

  lemma NothingBuffered(s: Stream, e: Env)
    requires Inv(s, e) && !s.sock.paused
    ensures s.sock.buffered == []
  {
  }

  lemma PushInboundProof(s: Stream, chunk: Bytes, e: Env)
    requires Inv(s, e) && !s.life.cleaned && s.sock.virtual && !s.life.awaitingAck
    ensures Inv(PushInbound(s, chunk, e), e) && Quietly(s, PushInbound(s, chunk, e), [chunk])
  {
    hide Inv, Quietly, EmitData, AbortSocket;
    if s.sock.destroyed {
      Still(s);
      DeadOffer(s, s, [chunk]);
    } else if !s.sock.paused {
      NothingBuffered(s, e);
      EmitDataProof(s, chunk, e);
    } else if s.sock.bufferedBytes + |chunk| <= s.sock.cap {
      BufferProof(s, chunk, e);
    } else {
      OverflowProof(s, chunk, e);
    }
  }

  // ---------------------------------------------------------------------------
  // Frames of the tunnel client
  // ---------------------------------------------------------------------------

  /** The chunk was handed over whole, or (a dying stream only) not at all. */
  predicate Hands(s: Stream, t: Stream, chunk: Bytes, e: Env) {
    && t.log.extIn == s.log.extIn
    && (Delivered(t) == Delivered(s)
        || (Alive(s) && (s.sock.virtual ==> e.agentOpen) && Delivered(t) == Delivered(s) + [chunk]))
    && (Alive(t) && (s.sock.virtual ==> e.agentOpen) ==> Delivered(t) == Delivered(s) + [chunk])
    && (!s.sock.virtual ==> Chunks(t.log.toAgent) == Chunks(s.log.toAgent))
    && (s.sock.virtual ==> t.log.extOut == s.log.extOut)
  }

  lemma WriteOutsideProof(s: Stream, chunk: Bytes, e: Env)
    requires Inv(s, e) && Alive(s) && !s.sock.virtual
    ensures var t := s.(log := s.log.(extOut := s.log.extOut + [chunk])); Inv(t, e) && Writes(s, t, chunk, e)
  {
  }

  lemma SendDataProof(s: Stream, chunk: Bytes, e: Env)
    requires Inv(s, e) && Alive(s) && !s.life.awaitingAck && s.sock.virtual && e.agentOpen
    ensures Inv(SendAgent(s, e, Data(chunk)), e) && Writes(s, SendAgent(s, e, Data(chunk)), chunk, e)
  {
    Push(s.log.toAgent, Data(chunk));
  }

  lemma DrainOwedProof(s: Stream, e: Env)
    requires Inv(s, e)
    ensures var s1 := s.(sock := s.sock.(pendingDrain := true)); Inv(s1, e) && Quietly(s, s1, [])
  {
  }

  /** A dead agent is written nothing, and owes nothing. */
  lemma UnreachableProof(s: Stream, chunk: Bytes, e: Env)
    requires s.sock.virtual && !e.agentOpen
    ensures Writes(s, s, chunk, e)
  {
  }

  lemma WriteProof(s: Stream, chunk: Bytes, e: Env, w: WriteOutcome)
    requires Inv(s, e) && Alive(s) && !s.life.awaitingAck
    ensures var t := WriteSocket(s, chunk, e, w).0;
            Inv(t, e) && Writes(s, t, chunk, e) && Alive(t)
  {
    hide Inv, Writes, Quietly;
    if !s.sock.virtual {
      WriteOutsideProof(s, chunk, e);
    } else if !e.agentOpen {
      UnreachableProof(s, chunk, e);
    } else {
      var s1 := SendAgent(s, e, Data(chunk));
      SendDataProof(s, chunk, e);
      DrainOwedProof(s1, e);
      WritesThen(s, s1, s1.(sock := s1.sock.(pendingDrain := true)), chunk, e);
    }
  }

  /** From s to t by a TCP_DATA frame. */
  predicate Writes(s: Stream, t: Stream, chunk: Bytes, e: Env) {
    Moves(s, t, []) && Hands(s, t, chunk, e) && SameSettings(s, t)
  }

  lemma WritesThen(s: Stream, t: Stream, u: Stream, chunk: Bytes, e: Env)
    requires Writes(s, t, chunk, e) && Alive(t) && Quietly(t, u, [])
    ensures Writes(s, u, chunk, e)
  {
    assert Taken(s) + [] == Taken(s) && Taken(t) + [] == Taken(t);
  }

  /** A stream that is dying, or dies now, may drop the chunk. */
  lemma WritesNothing(s: Stream, t: Stream, chunk: Bytes, e: Env)
    requires Quietly(s, t, []) && !Alive(t)
    ensures Writes(s, t, chunk, e)
  {
  }

  lemma BackpressuredProof(s: Stream, e: Env)
    requires Inv(s, e) && !s.life.cleaned
    ensures var t := SyncBackpressure(s.(flow := s.flow.(wsBackpressured := true)), e); Inv(t, e) && Quietly(s, t, [])
  {
    hide SyncBackpressure;
    BackpressureProof(s.(flow := s.flow.(wsBackpressured := true)), s.flow, e);
  }

  lemma OnClientDataProof(s: Stream, chunk: Bytes, e: Env, w: WriteOutcome)
    requires Inv(s, e) && !s.life.cleaned && !s.life.awaitingAck
    ensures Inv(OnClientData(s, chunk, e, w), e) && Writes(s, OnClientData(s, chunk, e, w), chunk, e)
  {
    hide Inv, Writes, Quietly, AbortStream, WriteSocket, SyncBackpressure;
    if s.sock.destroyed {
      Still(s);
      WritesNothing(s, s, chunk, e);
    } else if !s.sock.virtual && w.Throws? {
      AbortAnyProof(s, e, true);
      WritesNothing(s, AbortStream(s, e, true), chunk, e);
    } else {
      WriteProof(s, chunk, e, w);
      var (s1, ok) := WriteSocket(s, chunk, e, w);
      if !ok && !s1.flow.wsBackpressured {
        BackpressuredProof(s1, e);
        WritesThen(s, s1, OnClientData(s, chunk, e, w), chunk, e);
      }
    }
  }

  lemma FoldOne(flag: bool, m: Msg)
    ensures Fold(flag, [m]) == if m.Pause? then true else if m.Resume? then false else flag
  {
    assert [m][..0] == [];
  }

  /** The first acknowledgement of a waiting connect. */
  lemma AckPushed(l: Life, k: Sock, q: seq<Msg>)
    requires QuietToAgent(l, k, q) && AckOk(l, q) && l.awaitingAck && k.virtual && !k.destroyed
    requires TeardownOk(l, k)
    ensures var (l', q') := (l.(awaitingAck := false), q + [ConnectAck]);
            && QuietToAgent(l', k, q') && AckOk(l', q') && Chunks(q') == Chunks(q) && ConnectAck in q'
  {
    Push(q, ConnectAck);
    CountIn(ConnectAck, q);
  }

  lemma OpenAckProof(s: Stream, m: Msg, e: Env, w: WriteOutcome)
    requires Inv(s, e) && !s.life.cleaned && m.OpenAck?
    ensures MovedByClient(s, OnClientFrame(s, m, e, w), m, e)
  {
    hide QuietToAgent, AckOk, Fold;
    FoldOne(s.flow.peerPausedRead, m);
    if s.life.awaitingAck {
      AckPushed(s.life, s.sock, s.log.toAgent);
      NotRefused(s.life, s.sock, s.log.toAgent);
    }
  }

  lemma NotRefused(l: Life, k: Sock, q: seq<Msg>)
    requires QuietToAgent(l, k, q) && AckOk(l, q) && l.awaitingAck
    ensures QuietToAgent(l.(awaitingAck := false), k, q) && AckOk(l.(awaitingAck := false), q)
  {
  }

  lemma RefusedProof(s: Stream, e: Env)
    requires Inv(s, e) && !s.life.cleaned
    ensures Unsettled(EndByClient(RefuseConnect(s, e)), e) && !RefuseConnect(s, e).life.cleaned
  {
    Push(s.log.toAgent, Reject);
  }

  lemma RefusedThen(s: Stream, t: Stream, m: Msg, e: Env)
    requires Quietly(EndByClient(RefuseConnect(s, e)), t, []) && Inv(t, e) && t.life.cleaned
    requires !s.life.cleaned && m.Abort?
    ensures MovedByClient(s, t, m, e)
  {
    hide Inv;
    Push(s.log.toAgent, Reject);
  }

  lemma OnClientAbortProof(s: Stream, m: Msg, e: Env, w: WriteOutcome)
    requires Inv(s, e) && !s.life.cleaned && m.Abort?
    ensures MovedByClient(s, OnClientFrame(s, m, e, w), m, e)
  {
    hide Inv, Unsettled, Quietly, MovedByClient, RefuseConnect, AbortStream;
    RefusedProof(s, e);
    AbortProof(EndByClient(RefuseConnect(s, e)), e, false);
    RefusedThen(s, OnClientAbort(s, e), m, e);
  }

  /** The settings after a frame of the tunnel client; only a RES_* frame makes the stream leak. */
  predicate ClientSettings(s: Stream, t: Stream, m: Msg) {
    && t.life.leaked == (s.life.leaked || (m.ResBody? && !s.life.cleaned))
    && (!m.Abort? ==> t.life.refused == s.life.refused)
    && (!t.life.cleaned ==> t.flow.peerPausedRead == Fold(s.flow.peerPausedRead, [m]))
    && (!t.life.cleaned ==> t.flow.agentPaused == s.flow.agentPaused)
    && (!t.life.cleaned ==> t.life.awaitingAck == (s.life.awaitingAck && !m.OpenAck?))
    && (!m.OpenAck? ==> Count(ConnectAck, t.log.toAgent) == Count(ConnectAck, s.log.toAgent))
  }

  /** From s to t by frame m of the tunnel client: only TCP_DATA hands bytes over. */
  predicate MovedByClient(s: Stream, t: Stream, m: Msg, e: Env) {
    && Inv(t, e) && Moves(s, t, []) && ClientSettings(s, t, m)
    && (if m.Data? then Hands(s, t, m.chunk, e) else SameDelivery(s, t))
  }

  lemma ClientFlowProof(s: Stream, m: Msg, e: Env, w: WriteOutcome)
    requires Inv(s, e) && !s.life.cleaned && (m.Pause? || m.Resume?)
    ensures MovedByClient(s, OnClientFrame(s, m, e, w), m, e)
  {
    hide SyncReadState, QuietToClient, QuietToAgent, AckOk, AckSent, BufferOk, Settled;
    SyncReadProof(s.(flow := s.flow.(peerPausedRead := m.Pause?)), e);
  }

  lemma HttpCleanupProof(s: Stream, e: Env)
    requires Inv(s, e) && !s.life.cleaned
    ensures MovedByClient(s, HttpCleanup(s), ResBody, e)
  {
  }

  lemma ClientEndsProof(s: Stream, m: Msg, e: Env, w: WriteOutcome)
    requires Inv(s, e) && !s.life.cleaned && (m.Close? || m.ResMeta? || m.ResBody?)
    ensures MovedByClient(s, OnClientFrame(s, m, e, w), m, e)
  {
    hide Cleanup, AbortStream;
    match m
    case Close => CleanupProof(EndByClient(s), e);
    case ResMeta => AbortProof(s, e, false);
    case ResBody => HttpCleanupProof(s, e);
  }

  lemma OnClientFrameProof(s: Stream, m: Msg, e: Env, w: WriteOutcome)
    requires Inv(s, e) && !s.life.cleaned && (m.Data? ==> !s.life.awaitingAck)
    ensures MovedByClient(s, OnClientFrame(s, m, e, w), m, e)
  {
    hide Inv, Moves, Hands, SameDelivery, ClientSettings, OnClientData, OnClientAbort;
    match m
    case Data(chunk) =>
      OnClientDataProof(s, chunk, e, w);
      DataSettings(s, OnClientData(s, chunk, e, w), m);
    case OpenAck => OpenAckProof(s, m, e, w);
    case Abort(_) => OnClientAbortProof(s, m, e, w);
    case Pause => ClientFlowProof(s, m, e, w);
    case Resume => ClientFlowProof(s, m, e, w);
    case Close => ClientEndsProof(s, m, e, w);
    case ResMeta => ClientEndsProof(s, m, e, w);
    case ResBody => ClientEndsProof(s, m, e, w);
    case _ => InertProof(s, m);
  }

  lemma DataSettings(s: Stream, t: Stream, m: Msg)
    requires SameSettings(s, t) && m.Data?
    ensures ClientSettings(s, t, m)
  {
  }

  lemma InertProof(s: Stream, m: Msg)
    requires m.Open? || m.ConnectAck? || m.Reject? || m.Other?
    ensures Moves(s, s, []) && SameDelivery(s, s) && ClientSettings(s, s, m)
  {
  }

  // ---------------------------------------------------------------------------
  // Frames of the agent
  // ---------------------------------------------------------------------------

  function Payload(m: Msg): seq<Bytes> {
    if m.Data? then [m.chunk] else []
  }

  /** The settings after a frame of the agent. */
  predicate AgentSettings(s: Stream, t: Stream, m: Msg) {
    && t.life.leaked == s.life.leaked && t.life.refused == s.life.refused
    && (!t.life.cleaned ==> t.flow.agentPaused == Fold(s.flow.agentPaused, [m]))
    && t.flow.peerPausedRead == s.flow.peerPausedRead
    && t.life.awaitingAck == s.life.awaitingAck
    && Count(ConnectAck, t.log.toAgent) == Count(ConnectAck, s.log.toAgent)
  }

  /** From s to t by frame m of the agent: only TCP_DATA offers bytes. */
  predicate MovedByAgent(s: Stream, t: Stream, m: Msg, e: Env) {
    Inv(t, e) && Moves(s, t, Payload(m)) && SameDelivery(s, t) && AgentSettings(s, t, m)
  }

  lemma AgentLeftProof(s: Stream, e: Env)
    requires Inv(s, e) && Alive(s)
    ensures Unsettled(AgentLeft(s), e) && !AgentLeft(s).life.endedBy.ByClient?
  {
  }

  lemma LeftThen(s: Stream, t: Stream, m: Msg, e: Env)
    requires Alive(s) && Quietly(AgentLeft(s), t, []) && Inv(t, e) && t.life.cleaned
    ensures MovedByAgent(s, t, m, e)
  {
  }

  lemma DeafProof(s: Stream, m: Msg, e: Env)
    requires Inv(s, e) && !Alive(s) && !m.Pause? && !m.Resume?
    ensures MovedByAgent(s, s, m, e)
  {
  }

  lemma AgentLeavesProof(s: Stream, m: Msg, e: Env)
    requires Inv(s, e) && !s.life.cleaned && !s.life.awaitingAck && s.sock.virtual && (m.Close? || m.Abort?)
    ensures MovedByAgent(s, OnAgentFrame(s, m, e), m, e)
  {
    hide Inv, Quietly, MovedByAgent, OnClose, OnError;
    if !Alive(s) {
      DeafProof(s, m, e);
    } else {
      AgentLeftProof(s, e);
      if m.Close? {
        OnCloseProof(AgentLeft(s), e);
      } else {
        OnErrorProof(AgentLeft(s), e);
      }
      LeftThen(s, OnAgentFrame(s, m, e), m, e);
    }
  }

  lemma AgentFlowProof(s: Stream, m: Msg, e: Env)
    requires Inv(s, e) && !s.life.cleaned && !s.life.awaitingAck && s.sock.virtual && (m.Pause? || m.Resume?)
    ensures MovedByAgent(s, OnAgentFrame(s, m, e), m, e)
  {
    hide SyncBackpressure, QuietToClient, QuietToAgent, AckOk, AckSent, BufferOk, TeardownOk, Settled, FlagTold, Fold;
    FoldOne(s.flow.agentPaused, m);
    BackpressureProof(s.(flow := s.flow.(agentPaused := m.Pause?)), s.flow, e);
  }

  lemma OnAgentFrameProof(s: Stream, m: Msg, e: Env)
    requires Inv(s, e) && !s.life.cleaned && !s.life.awaitingAck && s.sock.virtual
    ensures MovedByAgent(s, OnAgentFrame(s, m, e), m, e)
  {
    hide Inv, MovedByAgent, Quietly, PushInbound;
    match m
    case Data(chunk) =>
      PushInboundProof(s, chunk, e);
      QuietMoves(s, PushInbound(s, chunk, e), m, e);
    case Close => AgentLeavesProof(s, m, e);
    case Abort(_) => AgentLeavesProof(s, m, e);
    case Pause => AgentFlowProof(s, m, e);
    case Resume => AgentFlowProof(s, m, e);
    case _ =>
      Still(s);
      QuietMoves(s, s, m, e);
  }

  /** A frame that touches no setting. */
  lemma QuietMoves(s: Stream, t: Stream, m: Msg, e: Env)
    requires Inv(t, e) && Quietly(s, t, Payload(m)) && !m.Pause? && !m.Resume?
    ensures MovedByAgent(s, t, m, e)
  {
  }

  // ---------------------------------------------------------------------------
  // Timers, callbacks and direct sockets
  // ---------------------------------------------------------------------------

  lemma OnDrainProof(s: Stream, e: Env)
    requires Inv(s, e)
    ensures Inv(OnDrain(s, e), e) && Quietly(s, OnDrain(s, e), [])
  {
    if !s.life.cleaned && s.flow.wsBackpressured {
      BackpressureProof(s.(flow := s.flow.(wsBackpressured := false)), s.flow, e);
    }
  }

  lemma OnAgentSentProof(s: Stream, low: bool, e: Env)
    requires Inv(s, e)
    ensures Inv(OnAgentSent(s, low, e), e) && Quietly(s, OnAgentSent(s, low, e), [])
  {
    hide Inv, Quietly, OnDrain;
    Still(s);
    if !s.sock.destroyed && s.sock.pendingDrain && low {
      var s1 := s.(sock := s.sock.(pendingDrain := false));
      DrainNotedProof(s, e);
      OnDrainProof(s1, e);
      QuietAfter(s, s1, OnDrain(s1, e), []);
    }
  }

  lemma DrainNotedProof(s: Stream, e: Env)
    requires Inv(s, e)
    ensures var s1 := s.(sock := s.sock.(pendingDrain := false)); Inv(s1, e) && Quietly(s, s1, [])
  {
  }

  lemma OnClientSentProof(s: Stream, low: bool, e: Env)
    requires Inv(s, e)
    ensures Inv(OnClientSent(s, low, e), e) && Quietly(s, OnClientSent(s, low, e), [])
  {
    hide SyncReadState, QuietToClient, QuietToAgent, AckOk, AckSent, BufferOk, TeardownOk, Settled;
    var s1 := s.(flow := s.flow.(pendingSends := s.flow.pendingSends - 1));
    if !s1.life.cleaned {
      SyncReadProof(s1.(flow := s1.flow.(localPausedForWs := false)), e);
    }
  }

  lemma OnQueuedCloseProof(s: Stream, e: Env)
    requires Inv(s, e)
    ensures Inv(OnQueuedClose(s, e), e) && Quietly(s, OnQueuedClose(s, e), [])
  {
    hide Cleanup;
    if s.sock.closeQueued && !s.life.cleaned {
      OnCloseProof(s.(sock := s.sock.(closeQueued := false)), e);
    }
  }

  lemma ReplyNotFoundProof(s: Stream, m: Msg, e: Env)
    requires Inv(s, e)
    ensures Inv(ReplyNotFound(s, m, e), e) && Quietly(s, ReplyNotFound(s, m, e), [])
  {
    SendAgentProof(s, e, Abort(StreamNotFound));
  }

  lemma OnExternalDataProof(s: Stream, chunk: Bytes, e: Env)
    requires Inv(s, e) && !s.sock.virtual && !s.sock.destroyed
    ensures var t := OnExternalData(s, chunk, e);
            Inv(t, e) && Moves(s, t, [chunk]) && SameSettings(s, t)
            && t.log.extIn == s.log.extIn + [chunk] && t.log.extOut == s.log.extOut
  {
    EmitDataProof(s.(log := s.log.(extIn := s.log.extIn + [chunk])), chunk, e);
  }

  lemma OnExternalEndProof(s: Stream, e: Env)
    requires Inv(s, e) && !s.sock.virtual
    ensures Inv(OnExternalGone(s), e) && Quietly(s, OnExternalGone(s), [])
    ensures Inv(OnExternalError(s, e), e) && Quietly(s, OnExternalError(s, e), [])
  {
    if !s.life.cleaned {
      OnErrorProof(s.(sock := s.sock.(destroyed := true)), e);
    }
  }

  lemma AbortAnyProof(s: Stream, e: Env, notifyClient: bool)
    requires Inv(s, e)
    ensures Inv(AbortStream(s, e, notifyClient), e) && AbortStream(s, e, notifyClient).life.cleaned
    ensures Quietly(s, AbortStream(s, e, notifyClient), [])
  {
    if !s.life.cleaned {
      AbortProof(s, e, notifyClient);
    }
  }

  lemma OnExternalDrainProof(s: Stream, e: Env)
    requires Inv(s, e)
    ensures Inv(OnExternalDrain(s, e), e) && Quietly(s, OnExternalDrain(s, e), [])
  {
    OnDrainProof(s, e);
  }

  /** Every event but a direct socket's data moves no byte. */
  lemma ServerStepProof(s: Stream, ev: ServerEvent, e: Env)
    requires Inv(s, e) && !ev.ExternalData?
    ensures Inv(ServerEventStep(s, ev, e), e) && (Quietly(s, ServerEventStep(s, ev, e), []))
  {
    match ev
    case AbortWithNotice => AbortAnyProof(s, e, true);
    case AbortQuietly => AbortAnyProof(s, e, false);
    case QueuedClose => OnQueuedCloseProof(s, e);
    case AgentSent(low) => OnAgentSentProof(s, low, e);
    case ClientSent(low) => OnClientSentProof(s, low, e);
    case ExternalGone => if !s.sock.virtual { OnExternalEndProof(s, e); }
    case ExternalError => if !s.sock.virtual { OnExternalEndProof(s, e); }
    case ExternalDrain => OnExternalDrainProof(s, e);
  }
}
