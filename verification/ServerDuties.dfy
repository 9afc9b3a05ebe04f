/**
 What a server stream owes: its socket reads exactly when neither side paused it, the agent is
 told every pause and every resume, and a client that is paused because the agent's WebSocket
 is full will be resumed by a drain that is still to come.
 */
module ServerDuties {
  import opened Protocol
  import opened ServerStream
  import opened ServerStreamProof

  predicate ReadOk(f: Flow, k: Sock) {
    !k.destroyed ==> k.paused == (f.peerPausedRead || f.localPausedForWs)
  }

  /** As many PAUSE frames as RESUME frames, and one more while paused; `owed` more in a flush. */
  predicate Told(k: Sock, q: seq<Msg>, agentOpen: bool, owed: nat) {
    k.virtual && agentOpen ==> Count(Pause, q) == Count(Resume, q) + owed + if k.paused then 1 else 0
  }

  predicate DrainOwed(l: Life, f: Flow, k: Sock, agentOpen: bool) {
    k.virtual && agentOpen && !l.cleaned && !k.destroyed ==> f.wsBackpressured == k.pendingDrain
  }

  predicate Books(s: Stream, e: Env, owed: nat) {
    && Told(s.sock, s.log.toAgent, e.agentOpen, owed)
    && DrainOwed(s.life, s.flow, s.sock, e.agentOpen)
    && (s.sock.closeQueued || s.sock.agentNotified ==> s.sock.destroyed)
  }

  predicate Duty(s: Stream, e: Env) {
    Books(s, e, 0) && ReadOk(s.flow, s.sock)
  }

  // ---------------------------------------------------------------------------
  // Pausing, flushing, resuming
  // ---------------------------------------------------------------------------

  lemma PauseDuty(s: Stream, e: Env, owed: nat)
    requires Books(s, e, owed)
    ensures Books(PauseSocket(s, e), e, owed) && PauseSocket(s, e).sock.paused
    ensures PauseSocket(s, e).flow == s.flow && PauseSocket(s, e).sock.destroyed == s.sock.destroyed
  {
    Push(s.log.toAgent, Pause);
  }

  lemma AbortDuty(s: Stream, e: Env, owed: nat, notifyClient: bool)
    requires Books(s, e, owed) && !s.life.cleaned
    ensures Books(AbortStream(s, e, notifyClient), e, owed) && AbortStream(s, e, notifyClient).sock.destroyed
  {
    Push(s.log.toAgent, Close);
    Push(s.log.toAgent, Abort(Teardown));
  }

  lemma AbortSocketDuty(s: Stream, e: Env)
    requires Duty(s, e)
    ensures Duty(AbortSocket(s, e), e)
  {
    Push(s.log.toAgent, Abort(Teardown));
  }

  lemma EmitDuty(s: Stream, chunk: Bytes, e: Env, owed: nat)
    requires Books(s, e, owed) && ReadOk(s.flow, s.sock)
    ensures var t := EmitData(s, chunk, e); Books(t, e, owed) && ReadOk(t.flow, t.sock)
  {
    hide Books, AbortStream, PauseSocket;
    if s.life.cleaned {
    } else if !e.clientOpen {
      AbortDuty(s, e, owed, true);
    } else {
      var s1 := Forward(s, chunk, e);
      SentUp(s, chunk, e, owed);
      if |s1.log.toClient| in e.clientHigh && !s1.flow.localPausedForWs {
        var s2 := s1.(flow := s1.flow.(localPausedForWs := true));
        Throttled(s1, e, owed);
        PauseDuty(s2, e, owed);
      }
    }
  }

  lemma SentUp(s: Stream, chunk: Bytes, e: Env, owed: nat)
    requires Books(s, e, owed)
    ensures Books(Forward(s, chunk, e), e, owed)
  {
  }

  lemma Throttled(s: Stream, e: Env, owed: nat)
    requires Books(s, e, owed)
    ensures Books(s.(flow := s.flow.(localPausedForWs := true)), e, owed)
  {
  }

  lemma {:induction false} FlushDuty(s: Stream, chunks: seq<Bytes>, e: Env, owed: nat)
    requires Books(s, e, owed) && ReadOk(s.flow, s.sock)
    ensures var t := Flush(s, chunks, e); Books(t, e, owed) && ReadOk(t.flow, t.sock)
  {
    hide Books, ReadOk, EmitData;
    if chunks != [] {
      var n := |chunks| - 1;
      FlushDuty(s, chunks[..n], e, owed);
      EmitDuty(Flush(s, chunks[..n], e), chunks[n], e, owed);
    }
  }

  lemma ResumeSent(s: Stream, e: Env)
    requires Books(s, e, 1)
    ensures Books(SendAgent(s, e, Resume), e, 0)
  {
    Push(s.log.toAgent, Resume);
  }

  lemma Unpaused(s: Stream, e: Env)
    requires Books(s, e, 0) && s.sock.paused
    ensures Books(s.(sock := s.sock.(paused := false, buffered := [], bufferedBytes := 0)), e, 1)
  {
  }

  /** Whatever was paused or resumed a moment ago, the socket and the agent now know. */
  lemma SyncReadDuty(s: Stream, e: Env)
    requires Books(s, e, 0)
    ensures Duty(SyncReadState(s, e), e)
  {
    hide Books, Flush, PauseSocket;
    if s.sock.destroyed {
    } else if s.flow.peerPausedRead || s.flow.localPausedForWs {
      PauseDuty(s, e, 0);
    } else if s.sock.paused {
      var s1 := s.(sock := s.sock.(paused := false, buffered := [], bufferedBytes := 0));
      Unpaused(s, e);
      FlushDuty(s1, s.sock.buffered, e, 1);
      ResumeSent(Flush(s1, s.sock.buffered, e), e);
    }
  }

  // ---------------------------------------------------------------------------
  // Frames
  // ---------------------------------------------------------------------------

  /** Backpressure towards the client is nothing to the agent. */
  lemma BackpressureDuty(s: Stream, e: Env)
    requires Duty(s, e)
    ensures Duty(SyncBackpressure(s, e), e)
  {
  }

  lemma ClientDataDuty(s: Stream, chunk: Bytes, e: Env, w: WriteOutcome)
    requires Duty(s, e) && !s.life.cleaned
    ensures Duty(OnClientData(s, chunk, e, w), e)
  {
    hide AbortStream, SyncBackpressure;
    if s.sock.destroyed {
    } else if !s.sock.virtual && w.Throws? {
      AbortDuty(s, e, 0, true);
    } else {
      Push(s.log.toAgent, Data(chunk));
      var (s1, ok) := WriteSocket(s, chunk, e, w);
      if !ok && !s1.flow.wsBackpressured {
        BackpressureDuty(s1.(flow := s1.flow.(wsBackpressured := true)), e);
      }
    }
  }

  lemma CleanupDuty(s: Stream, e: Env)
    requires Duty(s, e)
    ensures Duty(Cleanup(s, e), e)
  {
    Push(s.log.toAgent, Close);
  }

  lemma ClientAbortDuty(s: Stream, e: Env)
    requires Duty(s, e) && !s.life.cleaned
    ensures Duty(OnClientAbort(s, e), e)
  {
    hide AbortStream;
    Push(s.log.toAgent, Reject);
    AbortDuty(EndByClient(RefuseConnect(s, e)), e, 0, false);
  }

  lemma OpenAckDuty(s: Stream, e: Env, w: WriteOutcome)
    requires Duty(s, e)
    ensures Duty(OnClientFrame(s, OpenAck, e, w), e)
  {
    Push(s.log.toAgent, ConnectAck);
  }

  lemma ClientFrameDuty(s: Stream, m: Msg, e: Env, w: WriteOutcome)
    requires Duty(s, e)
    ensures Duty(OnClientFrame(s, m, e, w), e)
  {
    hide AbortStream, Cleanup, OnClientData, OnClientAbort, SyncReadState;
    if !s.life.cleaned {
      match m
      case Data(chunk) => ClientDataDuty(s, chunk, e, w);
      case Close => CleanupDuty(EndByClient(s), e);
      case OpenAck => OpenAckDuty(s, e, w);
      case Abort(_) => ClientAbortDuty(s, e);
      case Pause => SyncReadDuty(s.(flow := s.flow.(peerPausedRead := true)), e);
      case Resume => SyncReadDuty(s.(flow := s.flow.(peerPausedRead := false)), e);
      case ResMeta => AbortDuty(s, e, 0, false);
      case _ =>
    }
  }

  lemma OnCloseDuty(s: Stream, e: Env)
    requires Duty(s, e)
    ensures Duty(OnClose(s, e), e)
  {
    hide Cleanup;
    CleanupDuty(SendClient(s, e, Close), e);
  }

  lemma OnErrorDuty(s: Stream, e: Env)
    requires Duty(s, e)
    ensures Duty(OnError(s, e), e)
  {
    hide AbortStream;
    if !s.life.cleaned {
      AbortDuty(SendClient(s, e, Abort(Teardown)), e, 0, false);
    }
  }

  lemma PushInboundDuty(s: Stream, chunk: Bytes, e: Env)
    requires Duty(s, e)
    ensures Duty(PushInbound(s, chunk, e), e)
  {
    hide EmitData, AbortSocket;
    EmitDuty(s, chunk, e, 0);
    AbortSocketDuty(s, e);
  }

  lemma AgentFrameDuty(s: Stream, m: Msg, e: Env)
    requires Duty(s, e)
    ensures Duty(OnAgentFrame(s, m, e), e)
  {
    hide PushInbound, OnClose, OnError, SyncBackpressure;
    match m
    case Data(chunk) => PushInboundDuty(s, chunk, e);
    case Close => OnCloseDuty(AgentLeft(s), e);
    case Abort(_) => OnErrorDuty(AgentLeft(s), e);
    case Pause => BackpressureDuty(s.(flow := s.flow.(agentPaused := true)), e);
    case Resume => BackpressureDuty(s.(flow := s.flow.(agentPaused := false)), e);
    case _ =>
  }

  lemma NotFoundDuty(s: Stream, m: Msg, e: Env)
    requires Duty(s, e)
    ensures Duty(ReplyNotFound(s, m, e), e)
  {
    Push(s.log.toAgent, Abort(StreamNotFound));
  }

  // ---------------------------------------------------------------------------
  // Callbacks and the rest
  // ---------------------------------------------------------------------------

  lemma AgentSentDuty(s: Stream, low: bool, e: Env)
    requires Duty(s, e)
    ensures Duty(OnAgentSent(s, low, e), e)
  {
  }

  lemma ClientSentDuty(s: Stream, low: bool, e: Env)
    requires Duty(s, e)
    ensures Duty(OnClientSent(s, low, e), e)
  {
    hide SyncReadState;
    var s1 := s.(flow := s.flow.(pendingSends := s.flow.pendingSends - 1));
    SyncReadDuty(s1.(flow := s1.flow.(localPausedForWs := false)), e);
  }

  lemma ExternalDuty(s: Stream, chunk: Bytes, e: Env)
    requires Duty(s, e) && !s.sock.virtual
    ensures Duty(OnExternalData(s, chunk, e), e) && Duty(OnExternalGone(s), e)
    ensures Duty(OnExternalError(s, e), e) && Duty(OnExternalDrain(s, e), e)
  {
    hide EmitData, OnError;
    EmitDuty(s.(log := s.log.(extIn := s.log.extIn + [chunk])), chunk, e, 0);
    OnErrorDuty(s.(sock := s.sock.(destroyed := true)), e);
  }

  lemma ServerEventDuty(s: Stream, ev: ServerEvent, e: Env)
    requires Duty(s, e)
    ensures Duty(ServerEventStep(s, ev, e), e)
  {
    hide AbortStream, OnClose, OnExternalData, OnExternalGone, OnExternalError, OnExternalDrain, OnAgentSent,
         OnClientSent;
    match ev
    case AbortWithNotice => if !s.life.cleaned { AbortDuty(s, e, 0, true); }
      else { GoneStays(s, e); }
    case AbortQuietly => if !s.life.cleaned { AbortDuty(s, e, 0, false); } else { GoneStays(s, e); }
    case QueuedClose => if s.sock.closeQueued { OnCloseDuty(s.(sock := s.sock.(closeQueued := false)), e); }
    case AgentSent(low) => AgentSentDuty(s, low, e);
    case ClientSent(low) => ClientSentDuty(s, low, e);
    case ExternalData(chunk) => OutsideDuty(s, ev, e);
    case ExternalGone => OutsideDuty(s, ev, e);
    case ExternalError => OutsideDuty(s, ev, e);
    case ExternalDrain => OutsideDuty(s, ev, e);
  }

  lemma OutsideDuty(s: Stream, ev: ServerEvent, e: Env)
    requires Duty(s, e) && (ev.ExternalData? || ev.ExternalGone? || ev.ExternalError? || ev.ExternalDrain?)
    ensures Duty(ServerEventStep(s, ev, e), e)
  {
    hide EmitData, OnError, OnDrain;
    if !s.sock.virtual {
      ExternalDuty(s, if ev.ExternalData? then ev.chunk else [], e);
    }
  }

  lemma GoneStays(s: Stream, e: Env)
    requires s.life.cleaned
    ensures AbortStream(s, e, true) == s && AbortStream(s, e, false) == s
  {
  }
}
