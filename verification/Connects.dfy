/**
 Whether a connect is answered. The server's refusals name no port, so the agent leaves their
 sockets waiting; a stream torn down before the tunnel client has spoken says nothing the agent
 understands. Exactly the connects admitted and then confirmed or aborted by the client are
 answered.
 */
module Connects {
  import opened Options
  import opened Protocol
  import opened ServerStream
  import opened ServerStreamProof
  import opened AgentStream
  import opened ClientStream
  import opened Lane
  import opened LaneRun
  import opened StreamTable
  import StreamIds
  import TcpAgent

  // ---------------------------------------------------------------------------
  // At the agent
  // ---------------------------------------------------------------------------

  /** How many local sockets wait for an answer on `port`. */
  function Waiting(q: seq<TcpAgent.Pending>, port: int): nat {
    if q == [] then 0 else Waiting(q[..|q| - 1], port) + if q[|q| - 1].port == port then 1 else 0
  }

  lemma {:induction false} WaitingConcat(p: seq<TcpAgent.Pending>, q: seq<TcpAgent.Pending>, port: int)
    ensures Waiting(p + q, port) == Waiting(p, port) + Waiting(q, port)
  {
    if q == [] {
      assert p + q == p;
    } else {
      var n := |q| - 1;
      assert (p + q)[..|p + q| - 1] == p + q[..n];
      WaitingConcat(p, q[..n], port);
    }
  }

  lemma {:induction false} NoneWaiting(q: seq<TcpAgent.Pending>, port: int)
    requires forall i :: 0 <= i < |q| ==> q[i].port != port
    ensures Waiting(q, port) == 0
  {
    if q != [] {
      NoneWaiting(q[..|q| - 1], port);
    }
  }

  /** Taking out the first that waits on `port` leaves one less there, and the others. */
  lemma OneServed(q: seq<TcpAgent.Pending>, port: int, other: int)
    ensures Waiting(TcpAgent.Splice(q, TcpAgent.IndexOfPort(q, port)), other) ==
            Waiting(q, other) - if other == port && Waiting(q, port) > 0 then 1 else 0
  {
    var i := TcpAgent.IndexOfPort(q, port);
    if i < |q| {
      assert q == q[..i] + ([q[i]] + q[i + 1..]);
      assert Waiting([q[i]], other) == if other == port then 1 else 0;
      WaitingConcat(q[..i], [q[i]] + q[i + 1..], other);
      WaitingConcat([q[i]], q[i + 1..], other);
      WaitingConcat(q[..i], q[i + 1..], other);
    } else {
      NoneWaiting(q, port);
    }
  }

  /**
   What the agent hears of its TCP_CONNECT, if it hears of it. Every refusal of the server
   names no port; a stream is answered as the tunnel client confirms or aborts it.
   */
  function AnswerTo(o: Outcome, port: int, confirmed: bool, alive: bool): TcpAgent.Event {
    match o
    case Refused => TcpAgent.ConnectReject(None)
    case Opened(id) =>
      if confirmed then TcpAgent.ConnectAck(id, Some(port), alive) else TcpAgent.ConnectReject(Some(port))
  }

  /**
   A connect and its answer leave one more socket waiting if and only if the server's checks
   turn the connect down: the port, a limit, no tunnel client, no id.
   */
  lemma RefusedWaitsOn(a: TcpAgent.Agent, socket: TcpAgent.Socket, port: int, t: Table, lim: Limits, w: Ws,
                       active: Option<Ws>, confirmed: bool, alive: bool)
    requires a.g.open && StreamIds.IsId(t.nextId) && w in t.owned
    ensures var a1 := TcpAgent.Step(a, TcpAgent.LocalConnection(socket, port, true));
            var o := ConnectAgent(t, lim, w, Some(port), active).1;
            var a2 := TcpAgent.Step(a1, AnswerTo(o, port, confirmed, alive));
            && Waiting(a2.s.pending, port) == Waiting(a.s.pending, port) +
               (if AgentMayConnect(t, lim, w, Some(port), active) then 0 else 1)
            && forall p :: p != port ==> Waiting(a2.s.pending, p) == Waiting(a.s.pending, p)
  {
    hide AgentMayConnect;
    var a1 := TcpAgent.Step(a, TcpAgent.LocalConnection(socket, port, true));
    var o := ConnectAgent(t, lim, w, Some(port), active).1;
    var a2 := TcpAgent.Step(a1, AnswerTo(o, port, confirmed, alive));
    forall p
      ensures Waiting(a2.s.pending, p) == Waiting(a.s.pending, p) +
              (if p == port && !AgentMayConnect(t, lim, w, Some(port), active) then 1 else 0)
    {
      WaitsOrServed(a, socket, port, o, confirmed, alive, p);
    }
  }

  lemma WaitsOrServed(a: TcpAgent.Agent, socket: TcpAgent.Socket, port: int, o: Outcome, confirmed: bool,
                      alive: bool, p: int)
    requires a.g.open
    ensures var a1 := TcpAgent.Step(a, TcpAgent.LocalConnection(socket, port, true));
            var a2 := TcpAgent.Step(a1, AnswerTo(o, port, confirmed, alive));
            Waiting(a2.s.pending, p) == Waiting(a.s.pending, p) + if p == port && o.Refused? then 1 else 0
  {
    hide Waiting;
    var a1 := TcpAgent.Step(a, TcpAgent.LocalConnection(socket, port, true));
    OneMoreWaits(a.s.pending, TcpAgent.Pending(socket, port), p);
    OneMoreWaits(a.s.pending, TcpAgent.Pending(socket, port), port);
    OneServed(a1.s.pending, port, p);
  }

  lemma OneMoreWaits(q: seq<TcpAgent.Pending>, e: TcpAgent.Pending, port: int)
    ensures Waiting(q + [e], port) == Waiting(q, port) + if e.port == port then 1 else 0
  {
    assert (q + [e])[..|q|] == q;
  }

  // ---------------------------------------------------------------------------
  // At the server
  // ---------------------------------------------------------------------------

  /** The agent was sent an answer to the connect this stream was opened for. */
  predicate Answered(l: Lane) {
    ConnectAck in l.s.log.toAgent || Reject in l.s.log.toAgent
  }

  /** The tunnel client's TCP_OPEN_ACK or TCP_ABORT finds the stream waiting, and the agent reachable. */
  predicate Answers(l: Lane, ev: Event)
    requires Enabled(l, ev)
  {
    && ev.ServerGetsFromClient? && l.s.life.awaitingAck && !l.s.life.cleaned && l.up.agentS
    && var m := l.c.log.toServer[l.got.fromClient];
       m.OpenAck? || m.Abort?
  }

  lemma AnsweredIs(l: Lane)
    requires LaneInv(l)
    ensures Answered(l) <==> Count(ConnectAck, l.s.log.toAgent) > 0 || l.s.life.refused
  {
    CountIn(ConnectAck, l.s.log.toAgent);
    CountIn(Reject, l.s.log.toAgent);
  }

  /** What a client's frame does to the answer. */
  lemma ClientFrameAnswers(s: Stream, m: Msg, e: Env, w: WriteOutcome)
    requires Inv(s, e) && (m.Data? && !s.life.cleaned ==> !s.life.awaitingAck)
    ensures var t := OnClientFrame(s, m, e, w);
            (Count(ConnectAck, t.log.toAgent) > 0 || t.life.refused) <==>
            || Count(ConnectAck, s.log.toAgent) > 0 || s.life.refused
            || (s.life.awaitingAck && !s.life.cleaned && e.agentOpen && (m.OpenAck? || m.Abort?))
  {
    hide Inv, OnClientData, SyncReadState, Cleanup, HttpCleanup;
    if s.life.cleaned {
    } else if m.OpenAck? {
      Waits(s, e);
      Push(s.log.toAgent, ConnectAck);
    } else if m.Abort? {
      AbortAnswers(s, m, e, w);
    } else {
      hide OnClientFrame;
      OnClientFrameProof(s, m, e, w);
    }
  }

  lemma Waits(s: Stream, e: Env)
    requires Inv(s, e)
    ensures s.life.awaitingAck ==> s.sock.virtual
  {
  }

  lemma AbortAnswers(s: Stream, m: Msg, e: Env, w: WriteOutcome)
    requires Inv(s, e) && !s.life.cleaned && m.Abort?
    ensures var t := OnClientFrame(s, m, e, w);
            && Count(ConnectAck, t.log.toAgent) == Count(ConnectAck, s.log.toAgent)
            && t.life.refused == (s.life.refused || (s.life.awaitingAck && e.agentOpen))
  {
    hide Inv, Unsettled, AbortStream, RefuseConnect;
    OnClientFrameProof(s, m, e, w);
    RefusedProof(s, e);
    AbortProof(EndByClient(RefuseConnect(s, e)), e, false);
    RefusalNoted(s, e);
  }

  lemma RefusalNoted(s: Stream, e: Env)
    ensures RefuseConnect(s, e).life.refused == (s.life.refused || (s.life.awaitingAck && e.agentOpen))
  {
  }

  /** A step answers the connect if and only if it is the client's word on a waiting stream. */
  lemma StepAnswers(l: Lane, ev: Event, p: Pressure)
    requires LaneInv(l) && Enabled(l, ev)
    ensures Answered(Step(l, ev, p)) <==> Answered(l) || Answers(l, ev)
  {
    hide Inv, LaneInv, AgentInv, ClientInv, OnClientFrame, ServerGets, AgentTakes, ClientTakes, ServerEventStep,
         Answered;
    StepKeepsInv(l, ev, p);
    AnsweredIs(l);
    AnsweredIs(Step(l, ev, p));
    InvAtServer(l, p);
    var e := EnvOf(l.up, p);
    match ev
    case ServerGetsFromClient(w) =>
      NextFromClient(l);
      ClientFrameAnswers(l.s, l.c.log.toServer[l.got.fromClient], e, w);
    case ServerGetsFromAgent =>
      AgentSpeaksAcknowledged(l);
      ServerGetsMoves(l.s, l.a.log.toServer[l.got.fromAgent], e);
    case AtServer(sev) => ServerEventAnswers(l.s, sev, e);
    case _ =>
  }

  lemma InvAtServer(l: Lane, p: Pressure)
    requires LaneInv(l)
    ensures Inv(l.s, EnvOf(l.up, p))
  {
    InvAnyPressure(l.s, EnvOf(l.up, CALM), EnvOf(l.up, p));
  }

  lemma ServerEventAnswers(s: Stream, sev: ServerEvent, e: Env)
    requires Inv(s, e)
    ensures var t := ServerEventStep(s, sev, e);
            Count(ConnectAck, t.log.toAgent) == Count(ConnectAck, s.log.toAgent) && t.life.refused == s.life.refused
  {
    hide Inv, OnExternalData;
    if !sev.ExternalData? {
      ServerStepProof(s, sev, e);
    } else if !s.sock.virtual && !s.sock.destroyed {
      OnExternalDataProof(s, sev.chunk, e);
    } else {
      NoExternalData(s, sev.chunk, e);
    }
  }

  /** The client's word on the waiting stream, somewhere in the run. */
  predicate AnswersIn(l: Lane, turns: seq<Turn>)
    requires CanRun(l, turns)
    decreases |turns|
  {
    turns != [] &&
    (Answers(l, turns[0].ev) || AnswersIn(Step(l, turns[0].ev, turns[0].p), turns[1..]))
  }

  /**
   In any run, the connect a stream was opened for is answered if and only if the client's
   TCP_OPEN_ACK or TCP_ABORT finds the stream waiting while the agent's WebSocket is open. A
   TCP_CLOSE, a RES_* frame, the idle timer or the client's disconnect before that leave the
   agent's socket waiting.
   */
  lemma {:induction false} AnsweredIff(l: Lane, turns: seq<Turn>)
    requires LaneInv(l) && CanRun(l, turns)
    ensures Answered(Run(l, turns)) <==> Answered(l) || AnswersIn(l, turns)
    decreases |turns|
  {
    hide LaneInv, Enabled, Step, Answered, Answers;
    if turns != [] {
      StepKeepsInv(l, turns[0].ev, turns[0].p);
      StepAnswers(l, turns[0].ev, turns[0].p);
      AnsweredIff(Step(l, turns[0].ev, turns[0].p), turns[1..]);
    }
  }

  /** So a stream whose idle timer fires first is gone, and the agent was told nothing it can use. */
  lemma TimedOutUnanswered(cap: nat)
    ensures var l := NewLane(true, cap, ALL_OPEN);
            var turns := [Turn(AtServer(AbortWithNotice), CALM)] + ([AGENT_GETS] + []);
            && CanRun(l, turns)
            && var r := Run(l, turns);
               r.s.life.cleaned && r.got.agent == |r.s.log.toAgent| && r.a.phase.Unbound? && !Answered(r)
  {
    var l := NewLane(true, cap, ALL_OPEN);
    var l1 := l.(s := AbortStream(l.s, EnvOf(ALL_OPEN, CALM), true));
    assert l1.s.log.toAgent == [Abort(Teardown)];
    var l2 := l1.(got := l1.got.(agent := 1));
    Then(l1, AGENT_GETS, [], l2);
    Then(l, Turn(AtServer(AbortWithNotice), CALM), [AGENT_GETS] + [], l1);
  }
}
