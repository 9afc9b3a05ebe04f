/**
 What each party of a stream owes the others, step by step and over runs: who is told of an
 end and how often, exactly what ends a stream, who is told to pause and to go on, and when a
 throttled socket reads again.
 */
module LaneDuties {
  import opened Protocol
  import opened ServerStream
  import opened ServerStreamProof
  import opened ServerDuties
  import opened AgentStream
  import opened ClientStream
  import opened Lane
  import opened LaneRun
  import opened Shortfalls

  /** The frame the server gets in this event, if it is one of the client's or the agent's. */
  function Heard(l: Lane, ev: Event): Msg
    requires Enabled(l, ev)
  {
    match ev
    case ServerGetsFromClient(_) => l.c.log.toServer[l.got.fromClient]
    case ServerGetsFromAgent => l.a.log.toServer[l.got.fromAgent]
    case _ => Other
  }

  /** A frame of the agent that its stream listens to. */
  predicate FromItsAgent(l: Lane, ev: Event) {
    ev.ServerGetsFromAgent? && !l.s.life.cleaned && l.s.sock.virtual && !l.s.life.awaitingAck
  }

  predicate FromItsClient(l: Lane, ev: Event) {
    ev.ServerGetsFromClient? && !l.s.life.cleaned
  }

  // ---------------------------------------------------------------------------
  // What ends a stream
  // ---------------------------------------------------------------------------

  /** Passing on what is buffered finds the client's WebSocket closed. */
  predicate FlushFails(l: Lane) {
    l.s.sock.paused && l.s.sock.buffered != [] && !l.up.clientS
  }

  /** The last send callback of a throttled stream, with the outbound buffer low. */
  predicate Relieves(l: Lane, ev: Event) {
    && ev.AtServer? && ev.sev.ClientSent? && ev.sev.low
    && !l.s.life.cleaned && l.s.flow.localPausedForWs && l.s.flow.pendingSends == 1
  }

  /** A resume of the socket: by its client, or by that callback. */
  predicate Resumes(l: Lane, ev: Event)
    requires Enabled(l, ev)
  {
    || (FromItsClient(l, ev) && Heard(l, ev).Resume? && !l.s.flow.localPausedForWs)
    || (Relieves(l, ev) && !l.s.flow.peerPausedRead)
  }

  /** A chunk that does not fit the buffer, or has nowhere to go. */
  predicate Undeliverable(l: Lane, ev: Event)
    requires Enabled(l, ev)
  {
    || (FromItsAgent(l, ev) && Heard(l, ev).Data?
        && if l.s.sock.paused then l.s.sock.bufferedBytes + |Heard(l, ev).chunk| > l.s.sock.cap else !l.up.clientS)
    || (ev.AtServer? && ev.sev.ExternalData? && !l.s.sock.virtual && !l.up.clientS)
  }

  /** What ends a live stream, and nothing else does. */
  predicate Fatal(l: Lane, ev: Event)
    requires Enabled(l, ev)
  {
    || (FromItsClient(l, ev) && var m := Heard(l, ev);
          m.Close? || m.Abort? || m.ResMeta? || m.ResBody? || (m.Data? && !l.s.sock.virtual && ev.w.Throws?))
    || (FromItsAgent(l, ev) && (Heard(l, ev).Close? || Heard(l, ev).Abort?))
    || Undeliverable(l, ev)
    || (Resumes(l, ev) && FlushFails(l))
    || (ev.AtServer? && (ev.sev.AbortWithNotice? || ev.sev.AbortQuietly?))
    || (ev.AtServer? && !l.s.sock.virtual && (ev.sev.ExternalGone? || ev.sev.ExternalError?))
  }

  /** A chunk goes out over an open WebSocket and ends nothing. */
  lemma EmitLives(s: Stream, chunk: Bytes, e: Env)
    requires Alive(s)
    ensures Alive(EmitData(s, chunk, e)) <==> e.clientOpen
  {
  }

  lemma DeadStays(s: Stream, chunks: seq<Bytes>, e: Env)
    requires s.life.cleaned
    ensures Flush(s, chunks, e) == s
  {
  }

  lemma {:induction false} FlushLives(s: Stream, chunks: seq<Bytes>, e: Env)
    requires Alive(s)
    ensures Alive(Flush(s, chunks, e)) <==> chunks == [] || e.clientOpen
    ensures Alive(Flush(s, chunks, e)) || Flush(s, chunks, e).life.cleaned
  {
    hide EmitData, Alive;
    if chunks != [] {
      var n := |chunks| - 1;
      var t := Flush(s, chunks[..n], e);
      FlushLives(s, chunks[..n], e);
      if Alive(t) {
        EmitLives(t, chunks[n], e);
        EmitEnds(t, chunks[n], e);
      } else {
        GoneIgnores(t, chunks[n], e);
      }
    }
  }

  lemma EmitEnds(s: Stream, chunk: Bytes, e: Env)
    requires Alive(s)
    ensures Alive(EmitData(s, chunk, e)) || EmitData(s, chunk, e).life.cleaned
  {
  }

  lemma GoneIgnores(s: Stream, chunk: Bytes, e: Env)
    requires s.life.cleaned
    ensures EmitData(s, chunk, e) == s && !Alive(s)
  {
  }

  lemma SyncLives(s: Stream, e: Env)
    requires Alive(s)
    ensures Alive(SyncReadState(s, e)) <==>
            !(!s.flow.peerPausedRead && !s.flow.localPausedForWs
              && s.sock.paused && s.sock.buffered != [] && !e.clientOpen)
  {
    hide Flush;
    FlushLives(s.(sock := s.sock.(paused := false, buffered := [], bufferedBytes := 0)), s.sock.buffered, e);
  }

  lemma ClientFrameLives(s: Stream, m: Msg, e: Env, w: WriteOutcome)
    requires Alive(s)
    ensures Alive(OnClientFrame(s, m, e, w)) <==>
            !(m.Close? || m.Abort? || m.ResMeta? || m.ResBody? || (m.Data? && !s.sock.virtual && w.Throws?)
              || (m.Resume? && !s.flow.localPausedForWs && s.sock.paused && s.sock.buffered != [] && !e.clientOpen))
  {
    hide SyncReadState, SyncBackpressure;
    if m.Pause? || m.Resume? {
      SyncLives(s.(flow := s.flow.(peerPausedRead := m.Pause?)), e);
    } else if m.Data? {
      ClientDataLives(s, m.chunk, e, w);
    }
  }

  lemma ClientDataLives(s: Stream, chunk: Bytes, e: Env, w: WriteOutcome)
    requires Alive(s)
    ensures Alive(OnClientData(s, chunk, e, w)) <==> s.sock.virtual || !w.Throws?
  {
  }

  lemma AgentFrameLives(s: Stream, m: Msg, e: Env)
    requires Alive(s) && s.sock.virtual && !s.life.awaitingAck
    ensures Alive(OnAgentFrame(s, m, e)) <==>
            !(m.Close? || m.Abort?
              || (m.Data? && if s.sock.paused then s.sock.bufferedBytes + |m.chunk| > s.sock.cap else !e.clientOpen))
  {
    if m.Data? {
      hide EmitData;
      EmitLives(s, m.chunk, e);
    }
  }

  lemma ServerEventLives(s: Stream, sev: ServerEvent, e: Env)
    requires Alive(s) && !s.sock.closeQueued
    ensures Alive(ServerEventStep(s, sev, e)) <==>
            !(sev.AbortWithNotice? || sev.AbortQuietly?
              || (!s.sock.virtual && (sev.ExternalGone? || sev.ExternalError? || (sev.ExternalData? && !e.clientOpen)))
              || (sev.ClientSent? && sev.low && s.flow.localPausedForWs && s.flow.pendingSends == 1
                  && !s.flow.peerPausedRead && s.sock.paused && s.sock.buffered != [] && !e.clientOpen))
  {
    hide SyncReadState, EmitData;
    if sev.ClientSent? {
      var s1 := s.(flow := s.flow.(pendingSends := s.flow.pendingSends - 1));
      SyncLives(s1.(flow := s1.flow.(localPausedForWs := false)), e);
    } else if sev.ExternalData? {
      EmitLives(s.(log := s.log.(extIn := s.log.extIn + [sev.chunk])), sev.chunk, e);
    }
  }

  /** A live stream dies at exactly these steps. */
  lemma StepEnds(l: Lane, ev: Event, p: Pressure)
    requires Dutiful(l) && Enabled(l, ev) && Alive(l.s)
    ensures Alive(Step(l, ev, p).s) <==> !Fatal(l, ev)
  {
    hide LaneInv, Duty, OnClientFrame, OnAgentFrame, ServerEventStep;
    var e := EnvOf(l.up, p);
    match ev
    case ServerGetsFromClient(w) => ClientFrameLives(l.s, Heard(l, ev), e, w);
    case ServerGetsFromAgent =>
      AgentSpeaksAcknowledged(l);
      AgentFrameLives(l.s, Heard(l, ev), e);
    case AtServer(sev) =>
      LiveIsQuiet(l);
      ServerEventLives(l.s, sev, e);
    case _ =>
  }

  lemma EmitEndedBy(s: Stream, chunk: Bytes, e: Env)
    ensures EmitData(s, chunk, e).life.endedBy == s.life.endedBy
  {
  }

  lemma {:induction false} FlushEndedBy(s: Stream, chunks: seq<Bytes>, e: Env)
    ensures Flush(s, chunks, e).life.endedBy == s.life.endedBy
  {
    hide EmitData;
    if chunks != [] {
      var n := |chunks| - 1;
      FlushEndedBy(s, chunks[..n], e);
      EmitEndedBy(Flush(s, chunks[..n], e), chunks[n], e);
    }
  }

  lemma SyncEndedBy(s: Stream, e: Env)
    ensures SyncReadState(s, e).life.endedBy == s.life.endedBy
    ensures SyncBackpressure(s, e).life.endedBy == s.life.endedBy
  {
    hide Flush;
    FlushEndedBy(s.(sock := s.sock.(paused := false, buffered := [], bufferedBytes := 0)), s.sock.buffered, e);
  }

  lemma ClientFrameEndedBy(s: Stream, m: Msg, e: Env, w: WriteOutcome)
    requires !s.life.cleaned
    ensures OnClientFrame(s, m, e, w).life.endedBy == if m.Close? || m.Abort? then ByClient else s.life.endedBy
  {
    hide SyncReadState, SyncBackpressure;
    if m.Data? {
      var s1 := WriteSocket(s, m.chunk, e, w).0;
      SyncEndedBy(s1.(flow := s1.flow.(wsBackpressured := true)), e);
    } else {
      SyncEndedBy(s.(flow := s.flow.(peerPausedRead := m.Pause?)), e);
    }
  }

  lemma AgentFrameEndedBy(s: Stream, m: Msg, e: Env)
    requires !s.life.cleaned && s.sock.virtual && !s.life.awaitingAck
    ensures OnAgentFrame(s, m, e).life.endedBy ==
            if (m.Close? || m.Abort?) && !s.sock.destroyed then ByAgent else s.life.endedBy
  {
    hide EmitData, SyncBackpressure;
    if m.Data? {
      EmitEndedBy(s, m.chunk, e);
    } else {
      SyncEndedBy(s.(flow := s.flow.(agentPaused := m.Pause?)), e);
    }
  }

  lemma ServerEventEndedBy(s: Stream, sev: ServerEvent, e: Env)
    ensures ServerEventStep(s, sev, e).life.endedBy == s.life.endedBy
  {
    hide EmitData, SyncReadState, SyncBackpressure;
    match sev
    case ClientSent(low) =>
      var s1 := s.(flow := s.flow.(pendingSends := s.flow.pendingSends - 1));
      SyncEndedBy(s1.(flow := s1.flow.(localPausedForWs := false)), e);
    case ExternalData(chunk) => EmitEndedBy(s.(log := s.log.(extIn := s.log.extIn + [chunk])), chunk, e);
    case AgentSent(_) =>
      var s1 := s.(sock := s.sock.(pendingDrain := false));
      SyncEndedBy(s1.(flow := s1.flow.(wsBackpressured := false)), e);
    case ExternalDrain => SyncEndedBy(s.(flow := s.flow.(wsBackpressured := false)), e);
    case _ =>
  }

  /** Whose goodbye ended a stream is recorded when it does. */
  lemma StepEndedBy(l: Lane, ev: Event, p: Pressure)
    requires LaneInv(l) && Enabled(l, ev)
    ensures Step(l, ev, p).s.life.endedBy ==
            if FromItsClient(l, ev) && (Heard(l, ev).Close? || Heard(l, ev).Abort?) then ByClient
            else if FromItsAgent(l, ev) && (Heard(l, ev).Close? || Heard(l, ev).Abort?) && !l.s.sock.destroyed
            then ByAgent
            else l.s.life.endedBy
  {
    hide LaneInv, OnClientFrame, OnAgentFrame, ServerEventStep;
    var e := EnvOf(l.up, p);
    match ev
    case ServerGetsFromClient(w) =>
      if !l.s.life.cleaned {
        ClientFrameEndedBy(l.s, Heard(l, ev), e, w);
      } else {
        GoneHears(l.s, Heard(l, ev), e, w);
      }
    case ServerGetsFromAgent =>
      AgentSpeaksAcknowledged(l);
      if !l.s.life.cleaned {
        AgentFrameEndedBy(l.s, Heard(l, ev), e);
      }
    case AtServer(sev) => ServerEventEndedBy(l.s, sev, e);
    case _ =>
  }

  lemma GoneHears(s: Stream, m: Msg, e: Env, w: WriteOutcome)
    requires s.life.cleaned
    ensures OnClientFrame(s, m, e, w) == s
  {
  }

  lemma LiveIsQuiet(l: Lane)
    requires Dutiful(l) && Alive(l.s)
    ensures !l.s.sock.closeQueued
  {
  }

  // ---------------------------------------------------------------------------
  // The duties of all three parties
  // ---------------------------------------------------------------------------

  predicate AgentDuty(a: AgentEnd, open: bool) {
    && (a.phase.Unbound? ==> !a.flow.peerPausedRead && !a.flow.pausedForWs)
    && (a.phase.Bound? && open ==> a.flow.reading == !(a.flow.peerPausedRead || a.flow.pausedForWs))
  }

  predicate ClientDuty(c: ClientEnd) {
    !c.flow.socketGone ==> c.flow.reading == !(c.flow.peerPausedRead || c.flow.localPausedForWs)
  }

  predicate Dutiful(l: Lane) {
    LaneInv(l) && Duty(l.s, EnvOf(l.up, CALM)) && AgentDuty(l.a, l.up.agentP) && ClientDuty(l.c)
  }

  lemma DutyAnyPressure(s: Stream, e: Env, e': Env)
    requires Duty(s, e) && e'.agentOpen == e.agentOpen
    ensures Duty(s, e')
  {
  }

  lemma AgentTakesDuty(a: AgentEnd, m: Msg, paired: bool, open: bool, w: WriteOutcome)
    requires AgentDuty(a, open)
    ensures AgentDuty(AgentTakes(a, m, paired, open, w), open)
  {
  }

  lemma AgentEventDuty(a: AgentEnd, aev: AgentEvent, open: bool, high: set<nat>)
    requires AgentDuty(a, open)
    ensures AgentDuty(AgentEventStep(a, aev, open, high), open)
  {
  }

  lemma ClientTakesDuty(c: ClientEnd, m: Msg, admitted: bool, open: bool, w: WriteOutcome)
    requires ClientDuty(c)
    ensures ClientDuty(ClientTakes(c, m, admitted, open, w))
  {
  }

  lemma ClientEventDuty(c: ClientEnd, cev: ClientEvent, open: bool, high: set<nat>)
    requires ClientDuty(c)
    ensures ClientDuty(ClientEventStep(c, cev, open, high))
  {
  }

  lemma ServerGetsDuty(s: Stream, m: Msg, e: Env)
    requires Duty(s, e)
    ensures Duty(ServerGets(s, m, e), e)
  {
    hide Duty;
    NotFoundDuty(s, m, e);
    AgentFrameDuty(s, m, e);
  }

  /** Every step keeps every party's duties. */
  lemma StepKeepsDuty(l: Lane, ev: Event, p: Pressure)
    requires Dutiful(l) && Enabled(l, ev)
    ensures Dutiful(Step(l, ev, p))
  {
    hide LaneInv, Duty, AgentDuty, ClientDuty, ServerGets, OnClientFrame, ServerEventStep, AgentTakes, ClientTakes,
         AgentEventStep, ClientEventStep;
    var e := EnvOf(l.up, p);
    StepKeepsInv(l, ev, p);
    DutyAnyPressure(l.s, EnvOf(l.up, CALM), e);
    match ev
    case ServerGetsFromClient(w) =>
      ClientFrameDuty(l.s, Heard(l, ev), e, w);
      DutyAnyPressure(OnClientFrame(l.s, Heard(l, ev), e, w), e, EnvOf(l.up, CALM));
    case ServerGetsFromAgent =>
      ServerGetsDuty(l.s, Heard(l, ev), e);
      DutyAnyPressure(ServerGets(l.s, Heard(l, ev), e), e, EnvOf(l.up, CALM));
    case AgentGets(paired, w) => AgentTakesDuty(l.a, l.s.log.toAgent[l.got.agent], paired, l.up.agentP, w);
    case ClientGets(admitted, w) => ClientTakesDuty(l.c, l.s.log.toClient[l.got.client], admitted, l.up.clientP, w);
    case AtServer(sev) =>
      ServerEventDuty(l.s, sev, e);
      DutyAnyPressure(ServerEventStep(l.s, sev, e), e, EnvOf(l.up, CALM));
    case AtAgent(aev) => AgentEventDuty(l.a, aev, l.up.agentP, p.local);
    case AtClient(cev) => ClientEventDuty(l.c, cev, l.up.clientP, p.service);
    case LeaveOpen(links) => LeaveDuty(l, links);
  }

  lemma LeaveDuty(l: Lane, links: Links)
    requires Leaves(l.up, links) && Duty(l.s, EnvOf(l.up, CALM)) && AgentDuty(l.a, l.up.agentP)
    ensures Duty(l.s, EnvOf(links, CALM)) && AgentDuty(l.a, links.agentP)
  {
  }

  lemma NewLaneDuty(virtual: bool, cap: nat, up: Links)
    ensures Dutiful(NewLane(virtual, cap, up))
  {
    hide LaneInv;
    NewLaneInv(virtual, cap, up);
  }

  lemma {:induction false} RunKeepsDuty(l: Lane, turns: seq<Turn>)
    requires Dutiful(l) && CanRun(l, turns)
    ensures Dutiful(Run(l, turns))
    decreases |turns|
  {
    hide Dutiful, Enabled, Step;
    if turns != [] {
      StepKeepsDuty(l, turns[0].ev, turns[0].p);
      RunKeepsDuty(Step(l, turns[0].ev, turns[0].p), turns[1..]);
    }
  }

  // ---------------------------------------------------------------------------
  // Who is told of an end
  // ---------------------------------------------------------------------------

  /** The goodbye the client is owed now: by the agent's end, a timeout, or the socket's own. */
  function Farewell(l: Lane, ev: Event): seq<Msg>
    requires Enabled(l, ev)
  {
    var m := Heard(l, ev);
    if l.s.life.cleaned || !l.up.clientS then []
    else if FromItsAgent(l, ev) && !l.s.sock.destroyed && m.Close? then [Close]
    else if FromItsAgent(l, ev) && !l.s.sock.destroyed && m.Abort? then [Abort(Teardown)]
    else if FromItsClient(l, ev) && m.Data? && !l.s.sock.virtual && !l.s.sock.destroyed && ev.w.Throws? then
      [Abort(Teardown)]
    else if ev.AtServer? && ev.sev.QueuedClose? && l.s.sock.closeQueued then [Close]
    else if ev.AtServer? && (ev.sev.AbortWithNotice? || (ev.sev.ExternalError? && !l.s.sock.virtual)) then
      [Abort(Teardown)]
    else []
  }

  /** From s to t the client is sent no goodbye: only data and flow control, in a flush. */
  predicate NoFarewell(s: Stream, t: Stream) {
    Terminals(t.log.toClient) == Terminals(s.log.toClient)
  }

  lemma ThrottleSilent(s: Stream, e: Env)
    ensures Throttle(s, e).log.toClient == s.log.toClient
  {
  }

  lemma EmitSilent(s: Stream, chunk: Bytes, e: Env)
    ensures NoFarewell(s, EmitData(s, chunk, e))
  {
    hide Throttle;
    if !s.life.cleaned && e.clientOpen {
      ThrottleSilent(Forward(s, chunk, e), e);
      Push(s.log.toClient, Data(chunk));
    }
  }

  lemma {:induction false} FlushSilent(s: Stream, chunks: seq<Bytes>, e: Env)
    ensures NoFarewell(s, Flush(s, chunks, e))
  {
    hide EmitData;
    if chunks != [] {
      var n := |chunks| - 1;
      FlushSilent(s, chunks[..n], e);
      EmitSilent(Flush(s, chunks[..n], e), chunks[n], e);
    }
  }

  lemma SyncSilent(s: Stream, e: Env)
    ensures NoFarewell(s, SyncReadState(s, e)) && NoFarewell(s, SyncBackpressure(s, e))
  {
    hide Flush;
    FlushSilent(s.(sock := s.sock.(paused := false, buffered := [], bufferedBytes := 0)), s.sock.buffered, e);
    Push(s.log.toClient, Pause);
    Push(s.log.toClient, Resume);
  }

  /** One goodbye more if m is one. */
  predicate Bids(s: Stream, t: Stream, said: seq<Msg>) {
    Terminals(t.log.toClient) == Terminals(s.log.toClient) + |said|
    && (said != [] ==> t.log.toClient == s.log.toClient + said)
  }

  lemma OnCloseBids(s: Stream, e: Env)
    requires !s.life.cleaned
    ensures Bids(s, OnClose(s, e), if e.clientOpen then [Close] else [])
  {
    Push(s.log.toClient, Close);
  }

  lemma OnErrorBids(s: Stream, e: Env)
    requires !s.life.cleaned
    ensures Bids(s, OnError(s, e), if e.clientOpen then [Abort(Teardown)] else [])
  {
    Push(s.log.toClient, Abort(Teardown));
  }

  lemma AbortBids(s: Stream, e: Env, notifyClient: bool)
    requires !s.life.cleaned && !s.life.abortSent
    ensures Bids(s, AbortStream(s, e, notifyClient), if notifyClient && e.clientOpen then [Abort(Teardown)] else [])
  {
    Push(s.log.toClient, Abort(Teardown));
  }

  lemma ClientDataBids(s: Stream, chunk: Bytes, e: Env, w: WriteOutcome)
    requires !s.life.cleaned && !s.life.abortSent
    ensures Bids(s, OnClientData(s, chunk, e, w),
                 if !s.sock.destroyed && !s.sock.virtual && w.Throws? && e.clientOpen then [Abort(Teardown)] else [])
  {
    hide AbortStream, SyncBackpressure;
    AbortBids(s, e, true);
    var s1 := WriteSocket(s, chunk, e, w).0;
    SyncSilent(s1.(flow := s1.flow.(wsBackpressured := true)), e);
  }

  lemma ClientFrameBids(s: Stream, m: Msg, e: Env, w: WriteOutcome)
    requires !s.life.cleaned && !s.life.abortSent
    ensures Bids(s, OnClientFrame(s, m, e, w),
                 if m.Data? && !s.sock.destroyed && !s.sock.virtual && w.Throws? && e.clientOpen
                 then [Abort(Teardown)] else [])
  {
    hide OnClientData, SyncReadState, AbortStream;
    match m
    case Data(chunk) => ClientDataBids(s, chunk, e, w);
    case Pause => SyncSilent(s.(flow := s.flow.(peerPausedRead := true)), e);
    case Resume => SyncSilent(s.(flow := s.flow.(peerPausedRead := false)), e);
    case Abort(_) => AbortBids(EndByClient(RefuseConnect(s, e)), e, false);
    case ResMeta => AbortBids(s, e, false);
    case _ =>
  }

  lemma AgentFrameBids(s: Stream, m: Msg, e: Env)
    requires !s.life.cleaned && !s.life.abortSent && s.sock.virtual && !s.life.awaitingAck
    ensures Bids(s, OnAgentFrame(s, m, e),
                 if !e.clientOpen || s.sock.destroyed then []
                 else if m.Close? then [Close] else if m.Abort? then [Abort(Teardown)] else [])
  {
    hide OnClose, OnError, EmitData, SyncBackpressure;
    match m
    case Data(chunk) => EmitSilent(s, chunk, e);
    case Close => OnCloseBids(AgentLeft(s), e);
    case Abort(_) => OnErrorBids(AgentLeft(s), e);
    case Pause => SyncSilent(s.(flow := s.flow.(agentPaused := true)), e);
    case Resume => SyncSilent(s.(flow := s.flow.(agentPaused := false)), e);
    case _ =>
  }

  lemma ServerEventBids(s: Stream, sev: ServerEvent, e: Env)
    requires !s.life.cleaned && !s.life.abortSent
    ensures Bids(s, ServerEventStep(s, sev, e),
                 if !e.clientOpen then []
                 else if sev.QueuedClose? && s.sock.closeQueued then [Close]
                 else if sev.AbortWithNotice? || (sev.ExternalError? && !s.sock.virtual) then [Abort(Teardown)]
                 else [])
  {
    hide OnClose, OnError, EmitData, SyncBackpressure, SyncReadState, AbortStream;
    match sev
    case AbortWithNotice => AbortBids(s, e, true);
    case AbortQuietly => AbortBids(s, e, false);
    case QueuedClose => OnCloseBids(s.(sock := s.sock.(closeQueued := false)), e);
    case AgentSent(low) => DrainBids(s.(sock := s.sock.(pendingDrain := false)), e);
    case ClientSent(low) =>
      var s1 := s.(flow := s.flow.(pendingSends := s.flow.pendingSends - 1));
      SyncSilent(s1.(flow := s1.flow.(localPausedForWs := false)), e);
    case ExternalData(chunk) => EmitSilent(s.(log := s.log.(extIn := s.log.extIn + [chunk])), chunk, e);
    case ExternalGone =>
    case ExternalError => OnErrorBids(s.(sock := s.sock.(destroyed := true)), e);
    case ExternalDrain => DrainBids(s, e);
  }

  lemma DrainBids(s: Stream, e: Env)
    ensures NoFarewell(s, OnDrain(s, e))
  {
    hide SyncBackpressure;
    SyncSilent(s.(flow := s.flow.(wsBackpressured := false)), e);
  }

  /** A stream that left the table is silent to its client. */
  lemma GoneIsSilent(l: Lane, ev: Event, p: Pressure)
    requires LaneInv(l) && Enabled(l, ev) && l.s.life.cleaned
    ensures Step(l, ev, p).s.log.toClient == l.s.log.toClient && Farewell(l, ev) == []
  {
    hide LaneInv, Step;
    StepGrows(l, ev, p);
  }

  lemma NothingSaidYet(l: Lane)
    requires LaneInv(l) && !l.s.life.cleaned
    ensures !l.s.life.abortSent && Terminals(l.s.log.toClient) == 0
  {
  }

  /** Each step says exactly the goodbye that is due: neither one too many nor one too few. */
  lemma StepBids(l: Lane, ev: Event, p: Pressure)
    requires LaneInv(l) && Enabled(l, ev)
    ensures Bids(l.s, Step(l, ev, p).s, Farewell(l, ev))
  {
    hide LaneInv, OnClientFrame, OnAgentFrame, ServerEventStep, Terminals;
    var e := EnvOf(l.up, p);
    if l.s.life.cleaned {
      GoneIsSilent(l, ev, p);
    } else {
      NothingSaidYet(l);
      match ev
      case ServerGetsFromClient(w) => ClientFrameBids(l.s, Heard(l, ev), e, w);
      case ServerGetsFromAgent =>
        AgentSpeaksAcknowledged(l);
        AgentFrameBids(l.s, Heard(l, ev), e);
      case AtServer(sev) => ServerEventBids(l.s, sev, e);
      case _ =>
    }
  }

  /** All goodbyes due to the client in a run. */
  function Farewells(l: Lane, turns: seq<Turn>): seq<Msg>
    requires CanRun(l, turns)
    decreases |turns|
  {
    if turns == [] then []
    else Farewell(l, turns[0].ev) + Farewells(Step(l, turns[0].ev, turns[0].p), turns[1..])
  }

  /**
   Over any run the client hears exactly the goodbyes due: one if the stream ends while its
   WebSocket is open by the agent's end, a timeout, a failed write or the socket's own close
   or error; none if the client ended it, or on a quiet teardown.
   */
  lemma {:induction false} RunBids(l: Lane, turns: seq<Turn>)
    requires LaneInv(l) && CanRun(l, turns)
    ensures Terminals(Run(l, turns).s.log.toClient) == Terminals(l.s.log.toClient) + |Farewells(l, turns)|
    decreases |turns|
  {
    hide LaneInv, Enabled, Step, Terminals, Farewell;
    if turns != [] {
      StepKeepsInv(l, turns[0].ev, turns[0].p);
      StepBids(l, turns[0].ev, turns[0].p);
      RunBids(Step(l, turns[0].ev, turns[0].p), turns[1..]);
    }
  }

  /** A frame of the agent for a stream that is gone, which the agent is to hear. */
  predicate Unknown(l: Lane, ev: Event)
    requires Enabled(l, ev)
  {
    && ev.ServerGetsFromAgent? && l.s.life.cleaned && l.s.sock.virtual && l.up.agentS
    && (Heard(l, ev).Data? || Heard(l, ev).Close?)
  }

  /**
   The goodbye the agent is owed now: by whatever destroys its socket without its doing; and the
   reply to data or a goodbye for a stream that is gone.
   */
  function FarewellToAgent(l: Lane, ev: Event): seq<Msg>
    requires Enabled(l, ev)
  {
    var m := Heard(l, ev);
    if Unknown(l, ev) then [Abort(StreamNotFound)]
    else if !Alive(l.s) || !l.s.sock.virtual || !l.up.agentS then []
    else if FromItsClient(l, ev) && m.Close? then [Close]
    else if FromItsClient(l, ev) && (m.Abort? || m.ResMeta?) then [Abort(Teardown)]
    else if Undeliverable(l, ev) || (Resumes(l, ev) && FlushFails(l)) then [Abort(Teardown)]
    else if ev.AtServer? && (ev.sev.AbortWithNotice? || ev.sev.AbortQuietly?) then [Abort(Teardown)]
    else []
  }

  /** From s to t the agent is sent the goodbye `said`, and no other. */
  predicate BidsAgent(s: Stream, t: Stream, said: seq<Msg>) {
    && Count(Close, t.log.toAgent) == Count(Close, s.log.toAgent) + Count(Close, said)
    && Count(Abort(Teardown), t.log.toAgent) == Count(Abort(Teardown), s.log.toAgent) + Count(Abort(Teardown), said)
    && Count(Abort(StreamNotFound), t.log.toAgent) ==
       Count(Abort(StreamNotFound), s.log.toAgent) + Count(Abort(StreamNotFound), said)
  }

  lemma BidsThen(s: Stream, t: Stream, u: Stream, said: seq<Msg>)
    requires BidsAgent(s, t, said) && BidsAgent(t, u, [])
    ensures BidsAgent(s, u, said)
  {
  }

  lemma CountNext(x: Msg, q: seq<Msg>, m: Msg)
    ensures Count(x, q + [m]) == Count(x, q) + Count(x, [m]) && Count(x, [m]) == (if x == m then 1 else 0)
    ensures Count(x, []) == 0
  {
    assert (q + [m])[..|q|] == q && [m][..0] == [];
  }

  lemma SendsAgent(s: Stream, e: Env, m: Msg)
    ensures BidsAgent(s, SendAgent(s, e, m),
                      if (Terminal(m) || m == Abort(StreamNotFound)) && s.sock.virtual && e.agentOpen
                      then [m] else [])
  {
    hide Count;
    CountNext(Close, s.log.toAgent, m);
    CountNext(Abort(Teardown), s.log.toAgent, m);
    CountNext(Abort(StreamNotFound), s.log.toAgent, m);
  }

  lemma AbortBidsAgent(s: Stream, e: Env, notifyClient: bool)
    requires !s.life.cleaned
    ensures BidsAgent(s, AbortStream(s, e, notifyClient),
                      if !s.sock.destroyed && s.sock.virtual && e.agentOpen then [Abort(Teardown)] else [])
  {
    SendsAgent(s, e, Abort(Teardown));
  }

  lemma CleanupBidsAgent(s: Stream, e: Env)
    requires !s.life.cleaned && (s.sock.agentNotified ==> s.sock.destroyed)
    ensures BidsAgent(s, Cleanup(s, e), if !s.sock.destroyed && s.sock.virtual && e.agentOpen then [Close] else [])
  {
    SendsAgent(s, e, Close);
  }

  lemma EmitBidsAgent(s: Stream, chunk: Bytes, e: Env)
    ensures BidsAgent(s, EmitData(s, chunk, e),
                      if Alive(s) && s.sock.virtual && e.agentOpen && !e.clientOpen then [Abort(Teardown)] else [])
  {
    hide AbortStream, PauseSocket;
    if !s.life.cleaned && !e.clientOpen {
      AbortBidsAgent(s, e, true);
    } else if !s.life.cleaned {
      var s1 := Forward(s, chunk, e);
      PauseBidsAgent(s1.(flow := s1.flow.(localPausedForWs := true)), e);
    }
  }

  lemma PauseBidsAgent(s: Stream, e: Env)
    ensures BidsAgent(s, PauseSocket(s, e), [])
  {
    SendsAgent(s, e, Pause);
  }

  lemma {:induction false} FlushBidsAgent(s: Stream, chunks: seq<Bytes>, e: Env)
    requires Alive(s)
    ensures BidsAgent(s, Flush(s, chunks, e),
                      if s.sock.virtual && e.agentOpen && !e.clientOpen && chunks != []
                      then [Abort(Teardown)] else [])
    ensures Flush(s, chunks, e).sock.virtual == s.sock.virtual
  {
    hide EmitData, Alive, BidsAgent;
    if chunks == [] {
      SameBids(s);
    } else {
      var n := |chunks| - 1;
      var t := Flush(s, chunks[..n], e);
      FlushBidsAgent(s, chunks[..n], e);
      FlushLives(s, chunks[..n], e);
      EmitBidsAgent(t, chunks[n], e);
      EmitVirtual(t, chunks[n], e);
      if n == 0 {
        assert t == s;
      } else {
        BidsThen(s, t, Flush(s, chunks, e),
                 if s.sock.virtual && e.agentOpen && !e.clientOpen then [Abort(Teardown)] else []);
      }
    }
  }

  lemma SameBids(s: Stream)
    ensures BidsAgent(s, s, [])
  {
  }

  lemma EmitVirtual(s: Stream, chunk: Bytes, e: Env)
    ensures EmitData(s, chunk, e).sock.virtual == s.sock.virtual
  {
  }

  lemma SyncBidsAgent(s: Stream, e: Env)
    requires Alive(s)
    ensures BidsAgent(s, SyncReadState(s, e),
                      if s.sock.virtual && e.agentOpen && !s.flow.peerPausedRead && !s.flow.localPausedForWs
                         && s.sock.paused && s.sock.buffered != [] && !e.clientOpen
                      then [Abort(Teardown)] else [])
  {
    hide Flush, PauseSocket;
    PauseBidsAgent(s, e);
    var s1 := s.(sock := s.sock.(paused := false, buffered := [], bufferedBytes := 0));
    FlushBidsAgent(s1, s.sock.buffered, e);
    SendsAgent(Flush(s1, s.sock.buffered, e), e, Resume);
  }

  /** A dead stream says no goodbye to the agent. */
  lemma DeadSync(s: Stream, e: Env)
    requires s.sock.destroyed
    ensures SyncReadState(s, e) == s && SyncBackpressure(s, e).log.toAgent == s.log.toAgent
  {
  }

  lemma BackpressureBidsAgent(s: Stream, e: Env)
    ensures SyncBackpressure(s, e).log.toAgent == s.log.toAgent
  {
  }

  lemma ClientDataBidsAgent(s: Stream, chunk: Bytes, e: Env, w: WriteOutcome)
    requires !s.life.cleaned
    ensures BidsAgent(s, OnClientData(s, chunk, e, w), [])
  {
    hide AbortStream, SyncBackpressure, BidsAgent;
    SameBids(s);
    if s.sock.destroyed {
    } else if !s.sock.virtual && w.Throws? {
      AbortBidsAgent(s, e, true);
    } else {
      WriteBidsAgent(s, chunk, e, w);
      var s1 := WriteSocket(s, chunk, e, w).0;
      var s2 := s1.(flow := s1.flow.(wsBackpressured := true));
      BackpressureBidsAgent(s2, e);
      SameLog(s, s1, SyncBackpressure(s2, e), []);
    }
  }

  lemma SameLog(s: Stream, t: Stream, u: Stream, said: seq<Msg>)
    requires BidsAgent(s, t, said) && u.log.toAgent == t.log.toAgent
    ensures BidsAgent(s, u, said)
  {
  }

  lemma WriteBidsAgent(s: Stream, chunk: Bytes, e: Env, w: WriteOutcome)
    ensures BidsAgent(s, WriteSocket(s, chunk, e, w).0, [])
  {
    hide SendAgent, BidsAgent;
    SameBids(s);
    SendsAgent(s, e, Data(chunk));
    var writes := s.sock.virtual && !s.sock.destroyed && e.agentOpen;
    SameLog(s, if writes then SendAgent(s, e, Data(chunk)) else s, WriteSocket(s, chunk, e, w).0, []);
  }

  lemma RefuseBidsAgent(s: Stream, e: Env)
    ensures var t := EndByClient(RefuseConnect(s, e));
            BidsAgent(s, t, []) && t.sock == s.sock && t.life.cleaned == s.life.cleaned
  {
    SendsAgent(s.(life := s.life.(refused := true, awaitingAck := false)), e, Reject);
  }

  lemma ClientAbortBidsAgent(s: Stream, e: Env)
    requires !s.life.cleaned
    ensures BidsAgent(s, OnClientAbort(s, e),
                      if !s.sock.destroyed && s.sock.virtual && e.agentOpen then [Abort(Teardown)] else [])
  {
    hide RefuseConnect, AbortStream, BidsAgent;
    var t := EndByClient(RefuseConnect(s, e));
    RefuseBidsAgent(s, e);
    AbortBidsAgent(t, e, false);
    ThenBids(s, t, OnClientAbort(s, e),
             if !s.sock.destroyed && s.sock.virtual && e.agentOpen then [Abort(Teardown)] else []);
  }

  lemma ThenBids(s: Stream, t: Stream, u: Stream, said: seq<Msg>)
    requires BidsAgent(s, t, []) && BidsAgent(t, u, said)
    ensures BidsAgent(s, u, said)
  {
  }

  /** The goodbye to the agent in a frame of the client. */
  lemma ClientFrameBidsAgent(s: Stream, m: Msg, e: Env, w: WriteOutcome)
    requires !s.life.cleaned && (s.sock.agentNotified ==> s.sock.destroyed)
    ensures BidsAgent(s, OnClientFrame(s, m, e, w),
                      if s.sock.destroyed || !s.sock.virtual || !e.agentOpen then []
                      else if m.Close? then [Close]
                      else if m.Abort? || m.ResMeta? then [Abort(Teardown)]
                      else if m.Resume? && !s.flow.localPausedForWs && s.sock.paused && s.sock.buffered != []
                              && !e.clientOpen then [Abort(Teardown)]
                      else [])
  {
    hide OnClientData, SyncReadState, AbortStream, Cleanup, OnClientAbort, BidsAgent;
    SameBids(s);
    match m
    case Data(chunk) => ClientDataBidsAgent(s, chunk, e, w);
    case Close => CloseBidsAgent(s, e);
    case OpenAck => OpenAckBidsAgent(s, e, w);
    case Abort(_) => ClientAbortBidsAgent(s, e);
    case Pause => FlowBidsAgent(s, m, e, w);
    case Resume => FlowBidsAgent(s, m, e, w);
    case ResMeta => AbortBidsAgent(s, e, false);
    case ResBody => SameLog(s, s, HttpCleanup(s), []);
    case _ =>
  }

  lemma CloseBidsAgent(s: Stream, e: Env)
    requires !s.life.cleaned && (s.sock.agentNotified ==> s.sock.destroyed)
    ensures BidsAgent(s, Cleanup(EndByClient(s), e),
                      if !s.sock.destroyed && s.sock.virtual && e.agentOpen then [Close] else [])
  {
    CleanupBidsAgent(EndByClient(s), e);
  }

  lemma OpenAckBidsAgent(s: Stream, e: Env, w: WriteOutcome)
    ensures BidsAgent(s, OnClientFrame(s, OpenAck, e, w), [])
  {
    SendsAgent(s.(life := s.life.(awaitingAck := false)), e, ConnectAck);
  }

  lemma FlowBidsAgent(s: Stream, m: Msg, e: Env, w: WriteOutcome)
    requires !s.life.cleaned && (m.Pause? || m.Resume?)
    ensures BidsAgent(s, OnClientFrame(s, m, e, w),
                      if !s.sock.destroyed && s.sock.virtual && e.agentOpen && m.Resume? && !s.flow.localPausedForWs
                         && s.sock.paused && s.sock.buffered != [] && !e.clientOpen then [Abort(Teardown)] else [])
  {
    hide SyncReadState;
    var s1 := s.(flow := s.flow.(peerPausedRead := m.Pause?));
    if s.sock.destroyed {
      DeadSync(s1, e);
    } else {
      SyncBidsAgent(s1, e);
    }
  }

  lemma OnEndBidsAgent(s: Stream, e: Env)
    requires s.sock.destroyed
    ensures OnClose(s, e).log.toAgent == s.log.toAgent && OnError(s, e).log.toAgent == s.log.toAgent
  {
  }

  lemma PushBidsAgent(s: Stream, chunk: Bytes, e: Env)
    requires s.sock.virtual && !s.life.cleaned
    ensures BidsAgent(s, PushInbound(s, chunk, e),
                      if !s.sock.destroyed && e.agentOpen
                         && (if s.sock.paused then s.sock.bufferedBytes + |chunk| > s.sock.cap else !e.clientOpen)
                      then [Abort(Teardown)] else [])
  {
    hide EmitData, SendAgent, BidsAgent;
    SameBids(s);
    if s.sock.destroyed {
    } else if !s.sock.paused {
      EmitBidsAgent(s, chunk, e);
    } else if s.sock.bufferedBytes + |chunk| > s.sock.cap {
      OverflowBidsAgent(s, e);
    } else {
      SameLog(s, s, PushInbound(s, chunk, e), []);
    }
  }

  lemma OverflowBidsAgent(s: Stream, e: Env)
    requires s.sock.virtual && !s.sock.destroyed
    ensures BidsAgent(s, AbortSocket(s, e), if e.agentOpen then [Abort(Teardown)] else [])
  {
    hide BidsAgent;
    SendsAgent(s, e, Abort(Teardown));
    SameLog(s, SendAgent(s, e, Abort(Teardown)), AbortSocket(s, e), if e.agentOpen then [Abort(Teardown)] else []);
  }

  lemma AgentFrameBidsAgent(s: Stream, m: Msg, e: Env)
    requires !s.life.cleaned && s.sock.virtual && !s.life.awaitingAck
    ensures BidsAgent(s, OnAgentFrame(s, m, e),
                      if !s.sock.destroyed && e.agentOpen && m.Data?
                         && (if s.sock.paused then s.sock.bufferedBytes + |m.chunk| > s.sock.cap else !e.clientOpen)
                      then [Abort(Teardown)] else [])
  {
    hide OnClose, OnError, PushInbound, SyncBackpressure, BidsAgent;
    SameBids(s);
    var t := OnAgentFrame(s, m, e);
    match m
    case Data(chunk) => PushBidsAgent(s, chunk, e);
    case Close => OnEndBidsAgent(AgentLeft(s), e); SameLog(s, s, t, []);
    case Abort(_) => OnEndBidsAgent(AgentLeft(s), e); SameLog(s, s, t, []);
    case Pause => BackpressureBidsAgent(s.(flow := s.flow.(agentPaused := true)), e); SameLog(s, s, t, []);
    case Resume => BackpressureBidsAgent(s.(flow := s.flow.(agentPaused := false)), e); SameLog(s, s, t, []);
    case _ =>
  }

  lemma ClientSentBidsAgent(s: Stream, low: bool, e: Env)
    requires !s.life.cleaned
    ensures BidsAgent(s, OnClientSent(s, low, e),
                      if !s.sock.destroyed && s.sock.virtual && e.agentOpen && low && s.flow.localPausedForWs
                         && s.flow.pendingSends == 1 && !s.flow.peerPausedRead
                         && s.sock.paused && s.sock.buffered != [] && !e.clientOpen then [Abort(Teardown)] else [])
  {
    hide SyncReadState;
    var s1 := s.(flow := s.flow.(pendingSends := s.flow.pendingSends - 1));
    var s2 := s1.(flow := s1.flow.(localPausedForWs := false));
    if s.sock.destroyed {
      DeadSync(s2, e);
    } else {
      SyncBidsAgent(s2, e);
    }
  }

  lemma ServerEventBidsAgent(s: Stream, sev: ServerEvent, e: Env)
    requires !s.life.cleaned && (s.sock.closeQueued ==> s.sock.destroyed)
    ensures BidsAgent(s, ServerEventStep(s, sev, e),
                      if s.sock.destroyed || !s.sock.virtual || !e.agentOpen then []
                      else if sev.AbortWithNotice? || sev.AbortQuietly? then [Abort(Teardown)]
                      else if sev.ClientSent? && sev.low && s.flow.localPausedForWs && s.flow.pendingSends == 1
                              && !s.flow.peerPausedRead && s.sock.paused && s.sock.buffered != [] && !e.clientOpen
                           then [Abort(Teardown)]
                      else [])
  {
    hide AbortStream, OnClose, OnError, OnClientSent, EmitData, SyncBackpressure, BidsAgent;
    SameBids(s);
    var t := ServerEventStep(s, sev, e);
    match sev
    case AbortWithNotice => AbortBidsAgent(s, e, true);
    case AbortQuietly => AbortBidsAgent(s, e, false);
    case QueuedClose =>
      if s.sock.closeQueued {
        OnEndBidsAgent(s.(sock := s.sock.(closeQueued := false)), e);
        SameLog(s, s, t, []);
      }
    case AgentSent(low) => DrainLog(s, e); SameLog(s, s, t, []);
    case ClientSent(low) => ClientSentBidsAgent(s, low, e);
    case ExternalData(chunk) =>
      EmitBidsAgent(s.(log := s.log.(extIn := s.log.extIn + [chunk])), chunk, e);
      FromNoted(s, chunk, t);
    case ExternalGone => SameLog(s, s, t, []);
    case ExternalError => OnEndBidsAgent(s.(sock := s.sock.(destroyed := true)), e); SameLog(s, s, t, []);
    case ExternalDrain => DrainLog(s, e); SameLog(s, s, t, []);
  }

  lemma DrainLog(s: Stream, e: Env)
    ensures OnDrain(s, e).log.toAgent == s.log.toAgent
    ensures OnDrain(s.(sock := s.sock.(pendingDrain := false)), e).log.toAgent == s.log.toAgent
  {
  }

  lemma FromNoted(s: Stream, chunk: Bytes, t: Stream)
    requires s.sock.virtual || s.sock.destroyed ==> t == s
    requires !s.sock.virtual && !s.sock.destroyed ==>
      BidsAgent(s.(log := s.log.(extIn := s.log.extIn + [chunk])), t, [])
    ensures BidsAgent(s, t, [])
  {
  }

  lemma GoneIsSilentToAgent(l: Lane, ev: Event, p: Pressure)
    requires Enabled(l, ev) && l.s.life.cleaned && Dutiful(l)
    ensures BidsAgent(l.s, Step(l, ev, p).s, if Unknown(l, ev) then [Abort(StreamNotFound)] else [])
  {
    hide LaneInv, SendAgent, OnClientFrame, ServerEventStep, BidsAgent;
    var e := EnvOf(l.up, p);
    SameBids(l.s);
    match ev
    case ServerGetsFromClient(w) => GoneHears(l.s, Heard(l, ev), e, w);
    case ServerGetsFromAgent => SendsAgent(l.s, e, Abort(StreamNotFound));
    case AtServer(sev) =>
      GoneMeets(l.s, sev, e);
      SameLog(l.s, l.s, ServerEventStep(l.s, sev, e), []);
    case _ =>
  }

  lemma GoneMeets(s: Stream, sev: ServerEvent, e: Env)
    requires s.life.cleaned
    ensures ServerEventStep(s, sev, e).log.toAgent == s.log.toAgent
  {
  }

  /** Towards the agent too each step says exactly the goodbye that is due. */
  lemma StepBidsAgent(l: Lane, ev: Event, p: Pressure)
    requires Dutiful(l) && Enabled(l, ev)
    ensures BidsAgent(l.s, Step(l, ev, p).s, FarewellToAgent(l, ev))
  {
    hide LaneInv, OnClientFrame, OnAgentFrame, ServerEventStep, BidsAgent;
    var e := EnvOf(l.up, p);
    if l.s.life.cleaned {
      GoneIsSilentToAgent(l, ev, p);
    } else {
      SameBids(l.s);
      match ev
      case ServerGetsFromClient(w) => ClientFrameBidsAgent(l.s, Heard(l, ev), e, w);
      case ServerGetsFromAgent =>
        AgentSpeaksAcknowledged(l);
        AgentFrameBidsAgent(l.s, Heard(l, ev), e);
      case AtServer(sev) => ServerEventBidsAgent(l.s, sev, e);
      case _ =>
    }
  }

  /** All goodbyes due to the agent in a run. */
  function FarewellsToAgent(l: Lane, turns: seq<Turn>): seq<Msg>
    requires CanRun(l, turns)
    decreases |turns|
  {
    if turns == [] then []
    else FarewellToAgent(l, turns[0].ev) + FarewellsToAgent(Step(l, turns[0].ev, turns[0].p), turns[1..])
  }

  /**
   Over any run the agent hears exactly the goodbyes due: one if its socket is destroyed while
   its WebSocket is open and it did not end the stream itself, TCP_CLOSE if the client closed
   and TCP_ABORT otherwise; and one "not found" for each chunk or goodbye that comes too late.
   */
  lemma {:induction false} RunBidsAgent(l: Lane, turns: seq<Turn>)
    requires Dutiful(l) && CanRun(l, turns)
    ensures BidsAgent(l.s, Run(l, turns).s, FarewellsToAgent(l, turns))
    decreases |turns|
  {
    hide Dutiful, Enabled, Step, FarewellToAgent, BidsAgent;
    if turns == [] {
      SameBids(l.s);
    } else {
      var l1 := Step(l, turns[0].ev, turns[0].p);
      StepKeepsDuty(l, turns[0].ev, turns[0].p);
      StepBidsAgent(l, turns[0].ev, turns[0].p);
      RunBidsAgent(l1, turns[1..]);
      AddBids(l.s, l1.s, Run(l, turns).s, FarewellToAgent(l, turns[0].ev), FarewellsToAgent(l1, turns[1..]));
    }
  }

  lemma AddBids(s: Stream, t: Stream, u: Stream, said: seq<Msg>, more: seq<Msg>)
    requires BidsAgent(s, t, said) && BidsAgent(t, u, more)
    ensures BidsAgent(s, u, said + more)
  {
    CountSplit(Close, said, more);
    CountSplit(Abort(Teardown), said, more);
    CountSplit(Abort(StreamNotFound), said, more);
  }
}
