/**
 Flow control in both directions of cause and effect: what stops each party, and that the drain
 it waits for sets it going again.
 */
module FlowLaws {
  import opened Protocol
  import opened ServerStream
  import opened ServerStreamProof
  import opened ServerDuties
  import opened AgentStream
  import opened ClientStream
  import opened Lane
  import opened LaneRun
  import opened LaneDuties
  import opened Shortfalls

  // ---------------------------------------------------------------------------
  // Server: the destination fills up and drains
  // ---------------------------------------------------------------------------

  /** A chunk of the client that the destination takes with its buffer full, or cannot take. */
  predicate FillsUp(l: Lane, ev: Event, p: Pressure)
    requires Enabled(l, ev)
  {
    && FromItsClient(l, ev) && Heard(l, ev).Data? && !l.s.sock.destroyed
    && if l.s.sock.virtual then !l.up.agentS || |l.s.log.toAgent| + 1 in p.agent else !ev.w.Accepted?
  }

  /** The destination has drained. */
  predicate Drains(l: Lane, ev: Event) {
    && ev.AtServer? && !l.s.life.cleaned
    && ((ev.sev.AgentSent? && ev.sev.low && !l.s.sock.destroyed && l.s.sock.pendingDrain)
        || (ev.sev.ExternalDrain? && !l.s.sock.virtual))
  }

  /** Passing on chunks touches two fields of the flow state. */
  lemma EmitFlow(s: Stream, chunk: Bytes, e: Env)
    ensures var t := EmitData(s, chunk, e);
            t.flow == s.flow.(localPausedForWs := t.flow.localPausedForWs, pendingSends := t.flow.pendingSends)
  {
  }

  lemma {:induction false} FlushFlow(s: Stream, chunks: seq<Bytes>, e: Env)
    ensures var t := Flush(s, chunks, e);
            t.flow == s.flow.(localPausedForWs := t.flow.localPausedForWs, pendingSends := t.flow.pendingSends)
  {
    hide EmitData;
    if chunks != [] {
      var n := |chunks| - 1;
      FlushFlow(s, chunks[..n], e);
      EmitFlow(Flush(s, chunks[..n], e), chunks[n], e);
    }
  }

  lemma SyncReadFlow(s: Stream, e: Env)
    ensures var t := SyncReadState(s, e);
            t.flow == s.flow.(localPausedForWs := t.flow.localPausedForWs, pendingSends := t.flow.pendingSends)
  {
    hide Flush;
    FlushFlow(s.(sock := s.sock.(paused := false, buffered := [], bufferedBytes := 0)), s.sock.buffered, e);
  }

  lemma ClientFrameFills(s: Stream, m: Msg, e: Env, w: WriteOutcome)
    requires !s.life.cleaned
    ensures var t := OnClientFrame(s, m, e, w);
            t.life.cleaned || t.flow.wsBackpressured ==
              (s.flow.wsBackpressured
               || (m.Data? && !s.sock.destroyed
                   && if s.sock.virtual then !e.agentOpen || |s.log.toAgent| + 1 in e.agentHigh else !w.Accepted?))
  {
    hide SyncReadState;
    if m.Pause? || m.Resume? {
      SyncReadFlow(s.(flow := s.flow.(peerPausedRead := m.Pause?)), e);
    }
  }

  lemma AgentFrameFills(s: Stream, m: Msg, e: Env)
    requires !s.life.cleaned
    ensures var t := OnAgentFrame(s, m, e); !t.life.cleaned ==> t.flow.wsBackpressured == s.flow.wsBackpressured
  {
    hide EmitData;
    if m.Data? {
      EmitFlow(s, m.chunk, e);
    }
  }

  lemma ServerEventFills(s: Stream, sev: ServerEvent, e: Env)
    requires !s.life.cleaned
    ensures var t := ServerEventStep(s, sev, e);
            t.life.cleaned || t.flow.wsBackpressured ==
              (s.flow.wsBackpressured
               && !(sev.AgentSent? && sev.low && !s.sock.destroyed && s.sock.pendingDrain)
               && !(sev.ExternalDrain? && !s.sock.virtual))
  {
    hide EmitData, SyncReadState;
    if sev.ClientSent? {
      var s1 := s.(flow := s.flow.(pendingSends := s.flow.pendingSends - 1));
      SyncReadFlow(s1.(flow := s1.flow.(localPausedForWs := false)), e);
    } else if sev.ExternalData? {
      EmitFlow(s.(log := s.log.(extIn := s.log.extIn + [sev.chunk])), sev.chunk, e);
    }
  }

  /** The flag is set by exactly the chunks that fill the destination, and cleared by its drain. */
  lemma StepBackpressure(l: Lane, ev: Event, p: Pressure)
    requires LaneInv(l) && Enabled(l, ev)
    ensures var t := Step(l, ev, p).s;
            !t.life.cleaned ==>
              t.flow.wsBackpressured == ((l.s.flow.wsBackpressured || FillsUp(l, ev, p)) && !Drains(l, ev))
  {
    hide LaneInv, OnClientFrame, OnAgentFrame, ServerEventStep;
    var e := EnvOf(l.up, p);
    if l.s.life.cleaned {
      StepStays(l, ev, p);
    } else {
      match ev
      case ServerGetsFromClient(w) => ClientFrameFills(l.s, Heard(l, ev), e, w);
      case ServerGetsFromAgent => AgentFrameFills(l.s, Heard(l, ev), e);
      case AtServer(sev) => ServerEventFills(l.s, sev, e);
      case _ =>
    }
  }

  lemma StepStays(l: Lane, ev: Event, p: Pressure)
    requires LaneInv(l) && Enabled(l, ev) && l.s.life.cleaned
    ensures Step(l, ev, p).s.life.cleaned
  {
    hide LaneInv, Step;
    StepGrows(l, ev, p);
  }

  /** A drain of the destination sends the client its RESUME, unless the agent wants none. */
  lemma DrainResumes(l: Lane, ev: Event, p: Pressure)
    requires LaneInv(l) && Enabled(l, ev) && Drains(l, ev)
    ensures var t := Step(l, ev, p).s;
            && !t.flow.wsBackpressured && t.flow.clientPaused == l.s.flow.agentPaused
            && (l.s.flow.wsBackpressured && !l.s.flow.agentPaused && l.up.clientS ==>
                  t.log.toClient == l.s.log.toClient + [Resume])
  {
  }

  /** A chunk that fills the destination sends the client a PAUSE, unless it has been sent one. */
  lemma FullPauses(l: Lane, ev: Event, p: Pressure)
    requires LaneInv(l) && Enabled(l, ev) && FillsUp(l, ev, p) && (l.s.sock.virtual || !ev.w.Throws?)
    ensures var t := Step(l, ev, p).s;
            && t.flow.wsBackpressured && t.flow.clientPaused
            && (!l.s.flow.clientPaused && l.up.clientS ==> t.log.toClient == l.s.log.toClient + [Pause])
  {
  }

  /** A client paused for a full agent's WebSocket is owed a drain, and a drain is owed to no other. */
  lemma DrainIsOwed(l: Lane)
    requires Dutiful(l) && Alive(l.s) && l.s.sock.virtual && l.up.agentS
    ensures l.s.flow.wsBackpressured <==> l.s.sock.pendingDrain
    ensures l.s.flow.clientPaused <==> l.s.flow.agentPaused || l.s.sock.pendingDrain
  {
  }

  // ---------------------------------------------------------------------------
  // Server: the client's WebSocket fills up and drains
  // ---------------------------------------------------------------------------

  /** A chunk passed on now, after which the client's outbound buffer is high. */
  predicate Crowds(l: Lane, ev: Event, p: Pressure)
    requires Enabled(l, ev)
  {
    && Alive(l.s) && l.up.clientS && |l.s.log.toClient| + 1 in p.client
    && ((FromItsAgent(l, ev) && Heard(l, ev).Data? && !l.s.sock.paused)
        || (ev.AtServer? && ev.sev.ExternalData? && !l.s.sock.virtual))
  }

  /** Whether the socket is throttled after the step, from what was before it. */
  predicate ThrottledAfter(l: Lane, ev: Event, p: Pressure)
    requires Enabled(l, ev)
  {
    if Resumes(l, ev) then l.s.sock.paused && Congests(l.s, |l.s.sock.buffered|, EnvOf(l.up, p))
    else (l.s.flow.localPausedForWs && !Relieves(l, ev)) || Crowds(l, ev, p)
  }

  lemma SyncThrottles(s: Stream, e: Env)
    requires Alive(s) && BufferOk(s.sock) && Alive(SyncReadState(s, e))
    requires !s.flow.localPausedForWs
    ensures SyncReadState(s, e).flow.localPausedForWs <==>
            !s.flow.peerPausedRead && s.sock.paused && Congests(s, |s.sock.buffered|, e)
  {
    hide Flush;
    if s.sock.paused && !s.flow.peerPausedRead {
      var s1 := s.(sock := s.sock.(paused := false, buffered := [], bufferedBytes := 0));
      if s.sock.buffered == [] {
        NoFlush(s1, e);
      } else {
        SyncLives(s, e);
        FlushPauses(s1, s.sock.buffered, e);
      }
    }
  }

  lemma NoFlush(s: Stream, e: Env)
    ensures Flush(s, [], e) == s
  {
  }

  lemma ClientFrameThrottles(s: Stream, m: Msg, e: Env, w: WriteOutcome)
    requires Alive(s) && BufferOk(s.sock) && Alive(OnClientFrame(s, m, e, w))
    ensures OnClientFrame(s, m, e, w).flow.localPausedForWs <==>
            if m.Resume? && !s.flow.localPausedForWs
            then s.sock.paused && Congests(s, |s.sock.buffered|, e) else s.flow.localPausedForWs
  {
    hide SyncReadState, SyncBackpressure;
    if m.Pause? || m.Resume? {
      var s1 := s.(flow := s.flow.(peerPausedRead := m.Pause?));
      if s.flow.localPausedForWs {
        PauseFlow(s1, e);
      } else {
        SyncThrottles(s1, e);
      }
    } else if m.Data? {
      DataThrottles(s, m.chunk, e, w);
    }
  }

  lemma PauseFlow(s: Stream, e: Env)
    requires Alive(s) && s.flow.localPausedForWs
    ensures SyncReadState(s, e).flow == s.flow
  {
  }

  lemma DataThrottles(s: Stream, chunk: Bytes, e: Env, w: WriteOutcome)
    requires Alive(s) && Alive(OnClientData(s, chunk, e, w))
    ensures OnClientData(s, chunk, e, w).flow.localPausedForWs == s.flow.localPausedForWs
  {
  }

  lemma EmitThrottles(s: Stream, chunk: Bytes, e: Env)
    requires Alive(s) && e.clientOpen
    ensures EmitData(s, chunk, e).flow.localPausedForWs <==>
            s.flow.localPausedForWs || |s.log.toClient| + 1 in e.clientHigh
  {
  }

  lemma AgentFrameThrottles(s: Stream, m: Msg, e: Env)
    requires Alive(s) && s.sock.virtual && !s.life.awaitingAck && Alive(OnAgentFrame(s, m, e))
    ensures OnAgentFrame(s, m, e).flow.localPausedForWs <==>
            s.flow.localPausedForWs
            || (m.Data? && !s.sock.paused && e.clientOpen && |s.log.toClient| + 1 in e.clientHigh)
  {
    hide EmitData;
    if m.Data? && !s.sock.paused {
      EmitLives(s, m.chunk, e);
      if e.clientOpen {
        EmitThrottles(s, m.chunk, e);
      }
    }
  }

  lemma ServerEventThrottles(s: Stream, sev: ServerEvent, e: Env)
    requires Alive(s) && BufferOk(s.sock) && Alive(ServerEventStep(s, sev, e))
    ensures ServerEventStep(s, sev, e).flow.localPausedForWs <==>
            if sev.ClientSent? && sev.low && s.flow.localPausedForWs && s.flow.pendingSends == 1
            then !s.flow.peerPausedRead && s.sock.paused && Congests(s, |s.sock.buffered|, e)
            else s.flow.localPausedForWs
                 || (sev.ExternalData? && !s.sock.virtual && e.clientOpen && |s.log.toClient| + 1 in e.clientHigh)
  {
    hide EmitData, SyncReadState;
    if sev.ClientSent? {
      var s1 := s.(flow := s.flow.(pendingSends := s.flow.pendingSends - 1));
      var s2 := s1.(flow := s1.flow.(localPausedForWs := false));
      if sev.low && s.flow.localPausedForWs && s.flow.pendingSends == 1 {
        SyncThrottles(s2, e);
      }
    } else if sev.ExternalData? && !s.sock.virtual {
      var s1 := s.(log := s.log.(extIn := s.log.extIn + [sev.chunk]));
      EmitLives(s1, sev.chunk, e);
      if e.clientOpen {
        EmitThrottles(s1, sev.chunk, e);
      }
    }
  }

  /**
   While a stream lives, its socket is throttled by exactly the chunks after which the client's
   outbound buffer is high, and set going by exactly the last send callback that finds it low;
   and it reads exactly when neither that nor the client holds it back.
   */
  lemma StepThrottles(l: Lane, ev: Event, p: Pressure)
    requires Dutiful(l) && Enabled(l, ev) && Alive(l.s) && Alive(Step(l, ev, p).s)
    ensures var t := Step(l, ev, p).s;
            && t.flow.localPausedForWs == ThrottledAfter(l, ev, p)
            && t.sock.paused == (t.flow.peerPausedRead || t.flow.localPausedForWs)
  {
    hide LaneInv, Duty, OnClientFrame, OnAgentFrame, ServerEventStep, Congests;
    var e := EnvOf(l.up, p);
    StepKeepsDuty(l, ev, p);
    LiveReads(l);
    LiveReads(Step(l, ev, p));
    match ev
    case ServerGetsFromClient(w) => ClientFrameThrottles(l.s, Heard(l, ev), e, w);
    case ServerGetsFromAgent =>
      AgentSpeaksAcknowledged(l);
      AgentFrameThrottles(l.s, Heard(l, ev), e);
    case AtServer(sev) => ServerEventThrottles(l.s, sev, e);
    case _ =>
  }

  lemma LiveReads(l: Lane)
    requires Dutiful(l) && Alive(l.s)
    ensures l.s.sock.paused == (l.s.flow.peerPausedRead || l.s.flow.localPausedForWs) && BufferOk(l.s.sock)
  {
  }
}
