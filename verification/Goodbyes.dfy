/**
 Nobody is left waiting: a stream that goes while its client can hear it has told the client,
 and a socket that is destroyed while its agent can hear it has told the agent, unless the one
 to be told had said goodbye first or the teardown is one of the quiet ones.
 */
module Goodbyes {
  import opened Protocol
  import opened ServerStream
  import opened ServerStreamProof
  import opened ServerDuties
  import opened Lane
  import opened LaneRun
  import opened LaneDuties

  // ---------------------------------------------------------------------------
  // The client
  // ---------------------------------------------------------------------------

  /** The steps that end a stream without a word to its client: its own, and the quiet teardown. */
  predicate Quiet(l: Lane, ev: Event)
    requires Enabled(l, ev)
  {
    || (FromItsClient(l, ev) && var m := Heard(l, ev); m.Close? || m.Abort? || m.ResMeta? || m.ResBody?)
    || (ev.AtServer? && ev.sev.AbortQuietly?)
  }

  lemma EmitStays(s: Stream, chunk: Bytes, e: Env)
    requires !s.life.cleaned && e.clientOpen
    ensures !EmitData(s, chunk, e).life.cleaned
  {
  }

  lemma {:induction false} FlushStays(s: Stream, chunks: seq<Bytes>, e: Env)
    requires !s.life.cleaned && e.clientOpen
    ensures !Flush(s, chunks, e).life.cleaned
  {
    hide EmitData;
    if chunks != [] {
      var n := |chunks| - 1;
      FlushStays(s, chunks[..n], e);
      EmitStays(Flush(s, chunks[..n], e), chunks[n], e);
    }
  }

  lemma SyncStays(s: Stream, e: Env)
    requires !s.life.cleaned && e.clientOpen
    ensures !SyncReadState(s, e).life.cleaned && !SyncBackpressure(s, e).life.cleaned
  {
    hide Flush;
    FlushStays(s.(sock := s.sock.(paused := false, buffered := [], bufferedBytes := 0)), s.sock.buffered, e);
  }

  lemma ClientFrameStays(s: Stream, m: Msg, e: Env, w: WriteOutcome)
    requires !s.life.cleaned && e.clientOpen
    requires !(m.Close? || m.Abort? || m.ResMeta? || m.ResBody?)
    requires !(m.Data? && !s.sock.destroyed && !s.sock.virtual && w.Throws?)
    ensures !OnClientFrame(s, m, e, w).life.cleaned
  {
    hide SyncReadState;
    if m.Pause? || m.Resume? {
      SyncStays(s.(flow := s.flow.(peerPausedRead := m.Pause?)), e);
    }
  }

  lemma AgentFrameStays(s: Stream, m: Msg, e: Env)
    requires !s.life.cleaned && e.clientOpen && (s.sock.destroyed || !(m.Close? || m.Abort?))
    ensures !OnAgentFrame(s, m, e).life.cleaned
  {
    hide EmitData;
    if m.Data? {
      EmitStays(s, m.chunk, e);
    }
  }

  lemma ServerEventStays(s: Stream, sev: ServerEvent, e: Env)
    requires !s.life.cleaned && e.clientOpen && !sev.AbortQuietly?
    requires !(sev.QueuedClose? && s.sock.closeQueued) && !sev.AbortWithNotice?
    requires !(sev.ExternalError? && !s.sock.virtual)
    ensures !ServerEventStep(s, sev, e).life.cleaned
  {
    hide EmitData, SyncReadState;
    if sev.ClientSent? {
      var s1 := s.(flow := s.flow.(pendingSends := s.flow.pendingSends - 1));
      SyncStays(s1.(flow := s1.flow.(localPausedForWs := false)), e);
    } else if sev.ExternalData? {
      EmitStays(s.(log := s.log.(extIn := s.log.extIn + [sev.chunk])), sev.chunk, e);
    }
  }

  lemma UnsaidStays(l: Lane, ev: Event, p: Pressure)
    requires LaneInv(l) && Enabled(l, ev) && !l.s.life.cleaned && l.up.clientS
    requires !Quiet(l, ev) && Farewell(l, ev) == []
    ensures !Step(l, ev, p).s.life.cleaned
  {
    hide LaneInv, OnClientFrame, OnAgentFrame, ServerEventStep;
    var e := EnvOf(l.up, p);
    match ev
    case ServerGetsFromClient(w) => ClientFrameStays(l.s, Heard(l, ev), e, w);
    case ServerGetsFromAgent =>
      AgentSpeaksAcknowledged(l);
      AgentFrameStays(l.s, Heard(l, ev), e);
    case AtServer(sev) => ServerEventStays(l.s, sev, e);
    case _ =>
  }

  /** The step at which a stream leaves the table, not quietly, tells its client, once. */
  lemma LeavingIsTold(l: Lane, ev: Event, p: Pressure)
    requires LaneInv(l) && Enabled(l, ev) && !l.s.life.cleaned && l.up.clientS && !Quiet(l, ev)
    ensures Step(l, ev, p).s.life.cleaned ==> Terminals(Step(l, ev, p).s.log.toClient) == 1
  {
    hide LaneInv, Step, Farewell, Quiet, Terminals;
    NothingSaidYet(l);
    StepBids(l, ev, p);
    OneFarewell(l, ev);
    if Farewell(l, ev) == [] {
      UnsaidStays(l, ev, p);
    }
  }

  lemma OneFarewell(l: Lane, ev: Event)
    requires Enabled(l, ev)
    ensures |Farewell(l, ev)| <= 1
  {
  }

  predicate QuietIn(l: Lane, turns: seq<Turn>)
    requires CanRun(l, turns)
    decreases |turns|
  {
    turns != [] && (Quiet(l, turns[0].ev) || QuietIn(Step(l, turns[0].ev, turns[0].p), turns[1..]))
  }

  lemma {:induction false} GoneStaysSilent(l: Lane, turns: seq<Turn>)
    requires LaneInv(l) && CanRun(l, turns) && l.s.life.cleaned
    ensures Run(l, turns).s.log.toClient == l.s.log.toClient
    decreases |turns|
  {
    hide LaneInv, Enabled, Step, Farewell;
    if turns != [] {
      StepKeepsInv(l, turns[0].ev, turns[0].p);
      StepGrows(l, turns[0].ev, turns[0].p);
      GoneStaysSilent(Step(l, turns[0].ev, turns[0].p), turns[1..]);
    }
  }

  lemma {:induction false} NeverReopens(l: Lane, turns: seq<Turn>)
    requires CanRun(l, turns)
    ensures Leaves(l.up, Run(l, turns).up)
    decreases |turns|
  {
    hide Step, Enabled;
    if turns != [] {
      StepLinks(l, turns[0].ev, turns[0].p);
      NeverReopens(Step(l, turns[0].ev, turns[0].p), turns[1..]);
    }
  }

  lemma StepLinks(l: Lane, ev: Event, p: Pressure)
    requires Enabled(l, ev)
    ensures Leaves(l.up, Step(l, ev, p).up)
  {
    hide OnClientFrame, ServerGets, ServerEventStep;
  }

  /**
   Over any run: a stream that has left the table while its client's WebSocket is still open,
   and that neither its client nor a quiet teardown ended, has said goodbye to the client
   exactly once.
   */
  lemma {:induction false} LeftIsTold(l: Lane, turns: seq<Turn>)
    requires LaneInv(l) && CanRun(l, turns) && !l.s.life.cleaned && !QuietIn(l, turns)
    ensures var t := Run(l, turns);
            t.s.life.cleaned && t.up.clientS ==> Terminals(t.s.log.toClient) == 1
    decreases |turns|
  {
    hide LaneInv, Enabled, Step, Quiet, Terminals;
    if turns != [] && Run(l, turns).up.clientS {
      var l1 := Step(l, turns[0].ev, turns[0].p);
      NeverReopens(l, turns);
      StepKeepsInv(l, turns[0].ev, turns[0].p);
      if l1.s.life.cleaned {
        LeavingIsTold(l, turns[0].ev, turns[0].p);
        GoneStaysSilent(l1, turns[1..]);
      } else {
        LeftIsTold(l1, turns[1..]);
      }
    }
  }

  // ---------------------------------------------------------------------------
  // The agent
  // ---------------------------------------------------------------------------

  predicate OfItsAgent(l: Lane, ev: Event)
    requires Enabled(l, ev)
  {
    FromItsAgent(l, ev) && (Heard(l, ev).Close? || Heard(l, ev).Abort?)
  }

  /** The goodbyes an agent has been sent. */
  function ToldAgent(s: Stream): nat {
    Count(Close, s.log.toAgent) + Count(Abort(Teardown), s.log.toAgent)
  }

  /** A leaked stream's socket is never destroyed. */
  lemma GoneKeepsSocket(l: Lane, ev: Event, p: Pressure)
    requires LaneInv(l) && Enabled(l, ev) && l.s.life.cleaned && l.s.sock.virtual && !l.s.sock.destroyed
    ensures !Step(l, ev, p).s.sock.destroyed
  {
    hide LaneInv;
  }

  lemma HttpEndKeepsSocket(l: Lane, ev: Event, p: Pressure)
    requires LaneInv(l) && FromItsClient(l, ev) && Enabled(l, ev) && Heard(l, ev).ResBody?
    ensures Step(l, ev, p).s.sock == l.s.sock
  {
    hide LaneInv;
  }

  /** The step at which a socket is destroyed, not by its agent, tells the agent, once. */
  lemma DestroyingIsTold(l: Lane, ev: Event, p: Pressure)
    requires Dutiful(l) && Enabled(l, ev) && l.s.sock.virtual && !l.s.sock.destroyed && l.up.agentS
    requires !OfItsAgent(l, ev)
    ensures Step(l, ev, p).s.sock.destroyed ==> ToldAgent(Step(l, ev, p).s) == 1
  {
    hide LaneInv, Duty, Step, Fatal, FarewellToAgent;
    UntoldYet(l);
    StepBidsAgent(l, ev, p);
    DueOrNot(l, ev);
    if l.s.life.cleaned {
      GoneKeepsSocket(l, ev, p);
    } else {
      StepEnds(l, ev, p);
      if FromItsClient(l, ev) && Heard(l, ev).ResBody? {
        HttpEndKeepsSocket(l, ev, p);
      }
    }
  }

  /** Whatever ends a live stream of an agent is due a goodbye, but for its own end and the HTTP cleanup. */
  lemma DueOrNot(l: Lane, ev: Event)
    requires Enabled(l, ev)
    ensures var due := FarewellToAgent(l, ev);
            && Count(Close, due) + Count(Abort(Teardown), due) <= 1
            && (Alive(l.s) && l.s.sock.virtual && l.up.agentS && Fatal(l, ev) && !OfItsAgent(l, ev)
                && !(FromItsClient(l, ev) && Heard(l, ev).ResBody?) ==>
                  Count(Close, due) + Count(Abort(Teardown), due) == 1)
  {
    hide Undeliverable, Resumes, FlushFails;
    Push([], Close);
    Push([], Abort(Teardown));
    Push([], Abort(StreamNotFound));
    assert [] + [Abort(StreamNotFound)] == [Abort(StreamNotFound)];
    assert [] + [Close] == [Close] && [] + [Abort(Teardown)] == [Abort(Teardown)];
  }

  lemma UntoldYet(l: Lane)
    requires LaneInv(l) && !l.s.sock.destroyed
    ensures ToldAgent(l.s) == 0
  {
    CountsTerminals(l.s.log.toAgent);
  }

  lemma {:induction false} CountsTerminals(q: seq<Msg>)
    ensures Count(Close, q) + Count(Abort(Teardown), q) <= Terminals(q)
  {
    if q != [] {
      CountsTerminals(q[..|q| - 1]);
    }
  }

  predicate AgentEndsIn(l: Lane, turns: seq<Turn>)
    requires CanRun(l, turns)
    decreases |turns|
  {
    turns != [] && (OfItsAgent(l, turns[0].ev) || AgentEndsIn(Step(l, turns[0].ev, turns[0].p), turns[1..]))
  }

  lemma DestroyedStays(l: Lane, ev: Event, p: Pressure)
    requires LaneInv(l) && Enabled(l, ev) && l.s.sock.destroyed
    ensures Step(l, ev, p).s.sock.destroyed
  {
    hide LaneInv, OnClientFrame, ServerGets, ServerEventStep;
    var e := EnvOf(l.up, p);
    match ev
    case ServerGetsFromClient(w) => DeadHearsClient(l.s, Heard(l, ev), e, w);
    case ServerGetsFromAgent => DeadHearsAgent(l.s, Heard(l, ev), e);
    case AtServer(sev) => DeadMeets(l.s, sev, e);
    case _ =>
  }

  lemma DeadHearsClient(s: Stream, m: Msg, e: Env, w: WriteOutcome)
    requires s.sock.destroyed
    ensures OnClientFrame(s, m, e, w).sock.destroyed
  {
  }

  lemma DeadHearsAgent(s: Stream, m: Msg, e: Env)
    requires s.sock.destroyed
    ensures ServerGets(s, m, e).sock.destroyed
  {
  }

  lemma DeadMeets(s: Stream, sev: ServerEvent, e: Env)
    requires s.sock.destroyed
    ensures ServerEventStep(s, sev, e).sock.destroyed
  {
  }

  lemma NothingMoreDue(l: Lane, ev: Event)
    requires Enabled(l, ev) && !Alive(l.s)
    ensures var due := FarewellToAgent(l, ev); Count(Close, due) == 0 && Count(Abort(Teardown), due) == 0
  {
    Push([], Abort(StreamNotFound));
    assert [] + [Abort(StreamNotFound)] == [Abort(StreamNotFound)];
  }

  lemma {:induction false} DestroyedStaysTold(l: Lane, turns: seq<Turn>)
    requires Dutiful(l) && CanRun(l, turns) && l.s.sock.destroyed
    ensures ToldAgent(Run(l, turns).s) == ToldAgent(l.s)
    decreases |turns|
  {
    hide LaneInv, Duty, AgentDuty, ClientDuty, Enabled, Step;
    if turns != [] {
      StepKeepsDuty(l, turns[0].ev, turns[0].p);
      StepBidsAgent(l, turns[0].ev, turns[0].p);
      NothingMoreDue(l, turns[0].ev);
      DestroyedStays(l, turns[0].ev, turns[0].p);
      DestroyedStaysTold(Step(l, turns[0].ev, turns[0].p), turns[1..]);
    }
  }

  /**
   Over any run: a virtual socket that is destroyed while its agent's WebSocket is still open, and
   that its agent did not end, has said goodbye to the agent exactly once.
   */
  lemma {:induction false} DestroyedIsTold(l: Lane, turns: seq<Turn>)
    requires Dutiful(l) && CanRun(l, turns) && l.s.sock.virtual && !l.s.sock.destroyed && !AgentEndsIn(l, turns)
    ensures var t := Run(l, turns);
            t.s.sock.destroyed && t.up.agentS ==> ToldAgent(t.s) == 1
    decreases |turns|
  {
    hide Dutiful, Enabled, Step, OfItsAgent;
    if turns != [] && Run(l, turns).up.agentS {
      var l1 := Step(l, turns[0].ev, turns[0].p);
      NeverReopens(l, turns);
      StepKeepsDuty(l, turns[0].ev, turns[0].p);
      StaysVirtual(l, turns[0].ev, turns[0].p);
      if l1.s.sock.destroyed {
        DestroyingIsTold(l, turns[0].ev, turns[0].p);
        DestroyedStaysTold(l1, turns[1..]);
      } else {
        DestroyedIsTold(l1, turns[1..]);
      }
    }
  }

  lemma StaysVirtual(l: Lane, ev: Event, p: Pressure)
    requires Dutiful(l) && Enabled(l, ev)
    ensures Step(l, ev, p).s.sock.virtual == l.s.sock.virtual
  {
    hide LaneInv, Duty, Step;
    StepGrows(l, ev, p);
  }
}
