/**
 Every stream of the relay is a lone stream's run: whatever the whole system does, what happens
 to one stream is what its own events do to it. So what holds over the runs of one stream holds
 of every stream of the relay, on the channels it shares.
 */
module RelayLanes {
  import opened Options
  import opened Protocol
  import opened Mux
  import opened ServerStream
  import opened ServerStreamProof
  import opened ServerDuties
  import opened Lane
  import opened LaneDuties
  import opened Goodbyes
  import opened StreamIds
  import opened StreamTable
  import opened Relay
  import opened RelayProof
  import opened RelayTheorems
  import LaneRun
  import Connects

  type Turns = seq<LaneRun.Turn>

  /** What aborting the streams of `order` is to stream id. */
  function Aborts(order: seq<int>, id: int, sev: ServerEvent, p: Pressure): Turns {
    if order == [] then []
    else
      var n := |order| - 1;
      Aborts(order[..n], id, sev, p) + if order[n] == id then [LaneRun.Turn(AtServer(sev), p)] else []
  }

  /** What an event of the relay is to stream id. */
  function TurnsOf(r: Relay, ev: RelayEvent, id: int): Turns
    requires Possible(r, ev) && id in r.conns
  {
    match ev
    case Local(i, lev, p) => if i == id then [LaneRun.Turn(lev, p)] else []
    case Arrives(wire, ok, o, p) =>
      if Head(r, wire).id == id then [LaneRun.Turn(ArrivalOf(wire.dir, ok, o), p)] else []
    case EndsLeaveOpen(openS, openP) =>
      [LaneRun.Turn(LeaveOpen(LinksOf(r.(openS := openS, openP := openP), r.conns[id].home)), CALM)]
    case AgentGone(_, order, p) => Aborts(order, id, AbortWithNotice, p)
    case ClientGone(_, order, p) => Aborts(order, id, AbortQuietly, p)
    case _ => []
  }

  /** Stream id of r1 is that of r, moved on by `turns`. */
  predicate MovesBy(r: Relay, r1: Relay, id: int, turns: Turns) {
    && id in r.conns && id in r1.conns && r1.conns[id].home == r.conns[id].home
    && LaneRun.CanRun(r.conns[id].lane, turns)
    && r1.conns[id].lane == LaneRun.Run(r.conns[id].lane, turns)
  }

  lemma OneTurn(l: Lane, t: LaneRun.Turn)
    requires Enabled(l, t.ev)
    ensures LaneRun.CanRun(l, [t]) && LaneRun.Run(l, [t]) == Step(l, t.ev, t.p)
  {
    hide Step, Enabled;
    assert [t][1..] == [];
  }

  lemma NoTurn(l: Lane)
    ensures LaneRun.CanRun(l, []) && LaneRun.Run(l, []) == l
  {
  }

  lemma LocalMoves(r: Relay, id: int, i: int, ev: Event, p: Pressure)
    requires id in r.conns && i in r.conns && Enabled(r.conns[i].lane, ev)
    ensures MovesBy(r, Advance(r, i, Step(r.conns[i].lane, ev, p)), id, if i == id then [LaneRun.Turn(ev, p)] else [])
  {
    hide Step, Enabled, SendAll, Book;
    NoTurn(r.conns[id].lane);
    OneTurn(r.conns[i].lane, LaneRun.Turn(ev, p));
  }

  lemma ArrivalMoves(r: Relay, id: int, wire: Wire, ok: bool, o: WriteOutcome, p: Pressure)
    requires Core(r) && id in r.conns && CanDeliver(r, wire)
    ensures MovesBy(r, Deliver(r, wire, ok, o, p), id, TurnsOf(r, Arrives(wire, ok, o, p), id))
  {
    hide LaneInv, Step, Booked, Hear, Enabled, SendAll, Book;
    var i := Head(r, wire).id;
    HeadIsOwn(r, wire);
    var l := r.conns[i].lane;
    assert LaneOk(r, i) && Booked(r.table, i, r.conns[i]);
    ArrivalEnabled(l, wire.dir, ok, o);
    HearIsStep(r, wire, i, ok, o, p);
    LocalMoves(Pop(r, wire), id, i, ArrivalOf(wire.dir, ok, o), p);
  }

  lemma LeaveMoves(r: Relay, id: int, openS: set<Ws>, openP: set<Ws>)
    requires id in r.conns && openS <= r.openS && openP <= r.openP
    requires r.conns[id].lane.up == LinksOf(r, r.conns[id].home)
    ensures MovesBy(r, LeaveOpenAll(r, openS, openP), id, TurnsOf(r, EndsLeaveOpen(openS, openP), id))
  {
    var links := LinksOf(r.(openS := openS, openP := openP), r.conns[id].home);
    OneTurn(r.conns[id].lane, LaneRun.Turn(LeaveOpen(links), CALM));
  }

  lemma {:induction false} AbortsMove(r: Relay, id: int, order: seq<int>, sev: ServerEvent, p: Pressure)
    requires id in r.conns
    ensures MovesBy(r, AbortAll(r, order, sev, p), id, Aborts(order, id, sev, p))
  {
    hide MovesBy, ServerDoes;
    if order == [] {
      SameMoves(r, id);
    } else {
      var n := |order| - 1;
      var r1 := AbortAll(r, order[..n], sev, p);
      AbortsMove(r, id, order[..n], sev, p);
      KeepsConn(r, r1, id, Aborts(order[..n], id, sev, p));
      AbortMoves(r1, id, order[n], sev, p);
      MovesOn(r, r1, AbortAll(r, order, sev, p), id, Aborts(order[..n], id, sev, p),
              if order[n] == id then [LaneRun.Turn(AtServer(sev), p)] else []);
    }
  }

  lemma SameMoves(r: Relay, id: int)
    requires id in r.conns
    ensures MovesBy(r, r, id, [])
  {
  }

  lemma KeepsConn(r: Relay, r1: Relay, id: int, turns: Turns)
    requires MovesBy(r, r1, id, turns)
    ensures id in r1.conns
  {
  }

  lemma AbortMoves(r: Relay, id: int, i: int, sev: ServerEvent, p: Pressure)
    requires id in r.conns
    ensures MovesBy(r, ServerDoes(r, i, sev, p), id, if i == id then [LaneRun.Turn(AtServer(sev), p)] else [])
  {
    hide Step, Release, Advance;
    if i in r.conns {
      LocalMoves(r, id, i, AtServer(sev), p);
    } else {
      NoTurn(r.conns[id].lane);
    }
  }

  lemma MovesOn(r: Relay, r1: Relay, r2: Relay, id: int, turns: Turns, more: Turns)
    requires MovesBy(r, r1, id, turns) && MovesBy(r1, r2, id, more)
    ensures MovesBy(r, r2, id, turns + more)
  {
    LaneRun.RunOn(r.conns[id].lane, turns, more);
  }

  lemma OthersStay(r: Relay, ev: RelayEvent, cfg: Config, id: int)
    requires RelayInv(r, cfg) && Possible(r, ev) && IsId(r.table.nextId) && id in r.conns
    requires !ev.Local? && !ev.Arrives? && !ev.EndsLeaveOpen? && !ev.AgentGone? && !ev.ClientGone?
    ensures id in Next(r, ev, cfg).conns && Next(r, ev, cfg).conns[id] == r.conns[id]
  {
    hide RelayInv, NewWs, LinksOf, AgentMayConnect, DirectMayConnect, SendOn;
    if ev.AgentConnects? || ev.PortAccepts? {
      FreshOf(r, cfg);
    }
  }

  lemma FreshOf(r: Relay, cfg: Config)
    requires RelayInv(r, cfg)
    ensures r.table.nextId < MAX_ID ==>
      IsId(r.table.nextId) && NextFree(r.table) == Some(0) && After(r.table.nextId, 0) !in r.conns
  {
    if r.table.nextId < MAX_ID {
      NextIsFresh(r);
    }
  }

  lemma CoreAt(r: Relay, cfg: Config, id: int)
    requires RelayInv(r, cfg) && id in r.conns
    ensures Core(r) && LaneInv(r.conns[id].lane) && r.conns[id].lane.up == LinksOf(r, r.conns[id].home)
  {
    assert LaneOk(r, id);
  }

  /** Each event of the relay moves each stream by the stream's own events. */
  lemma NextMoves(r: Relay, ev: RelayEvent, cfg: Config, id: int)
    requires RelayInv(r, cfg) && Possible(r, ev) && IsId(r.table.nextId) && id in r.conns
    ensures MovesBy(r, Next(r, ev, cfg), id, TurnsOf(r, ev, id))
  {
    hide RelayInv, Core, LaneInv, Deliver, Advance, AbortAll, LeaveOpenAll, OpenConn, MovesBy;
    CoreAt(r, cfg, id);
    match ev
    case Local(i, lev, p) => LocalMoves(r, id, i, lev, p);
    case Arrives(wire, ok, o, p) => ArrivalMoves(r, id, wire, ok, o, p);
    case EndsLeaveOpen(openS, openP) => LeaveMoves(r, id, openS, openP);
    case AgentGone(w, order, p) => GoneMoves(r, r.table.(owned := r.table.owned - {w}), id, order, AbortWithNotice, p);
    case ClientGone(w, order, p) =>
      GoneMoves(r, r.table.(clients := r.table.clients - {w}), id, order, AbortQuietly, p);
    case _ =>
      OthersStay(r, ev, cfg, id);
      StaysMoves(r, Next(r, ev, cfg), id);
  }

  lemma StaysMoves(r: Relay, r1: Relay, id: int)
    requires id in r.conns && id in r1.conns && r1.conns[id] == r.conns[id]
    ensures MovesBy(r, r1, id, [])
  {
  }

  lemma GoneMoves(r: Relay, t: Table, id: int, order: seq<int>, sev: ServerEvent, p: Pressure)
    requires id in r.conns
    ensures MovesBy(r, AbortAll(r.(table := t), order, sev, p), id, Aborts(order, id, sev, p))
  {
    AbortsMove(r.(table := t), id, order, sev, p);
  }

  // ---------------------------------------------------------------------------
  // Runs
  // ---------------------------------------------------------------------------

  /** What a run of the relay is to stream id. */
  ghost function TurnsIn(r: Relay, evs: seq<RelayEvent>, cfg: Config, id: int): Turns
    requires CanRun(r, evs, cfg)
    decreases |evs|
  {
    if evs == [] then []
    else
      (if id in r.conns then TurnsOf(r, evs[0], id) else []) + TurnsIn(Next(r, evs[0], cfg), evs[1..], cfg, id)
  }

  /** Stream id as it was first seen in the run. */
  ghost function Born(r: Relay, evs: seq<RelayEvent>, cfg: Config, id: int): Lane
    requires CanRun(r, evs, cfg)
    decreases |evs|
  {
    if id in r.conns then r.conns[id].lane
    else if evs == [] then NewLane(false, cfg.cap, LinksOf(r, Home(0, None, 0)))
    else Born(Next(r, evs[0], cfg), evs[1..], cfg, id)
  }

  lemma {:induction false} RunMoves(r: Relay, evs: seq<RelayEvent>, cfg: Config, id: int)
    requires RelayInv(r, cfg) && CanRun(r, evs, cfg) && id in r.conns
    ensures MovesBy(r, Run(r, evs, cfg), id, TurnsIn(r, evs, cfg, id))
    decreases |evs|
  {
    hide RelayInv, Next, Possible, MovesBy, TurnsOf;
    if evs == [] {
      SameMoves(r, id);
    } else {
      var r1 := Next(r, evs[0], cfg);
      NextKeeps(r, evs[0], cfg);
      NextMoves(r, evs[0], cfg, id);
      KeepsConn(r, r1, id, TurnsOf(r, evs[0], id));
      RunMoves(r1, evs[1..], cfg, id);
      MovesOn(r, r1, Run(r, evs, cfg), id, TurnsOf(r, evs[0], id), TurnsIn(r1, evs[1..], cfg, id));
    }
  }

  /** A stream starts as a new one. */
  lemma NextBears(r: Relay, ev: RelayEvent, cfg: Config, id: int)
    requires RelayInv(r, cfg) && Possible(r, ev) && IsId(r.table.nextId)
    requires id !in r.conns && id in Next(r, ev, cfg).conns
    ensures var c := Next(r, ev, cfg).conns[id]; c.lane == NewLane(c.home.agent.Some?, cfg.cap, c.lane.up)
  {
    hide RelayInv, NewWs, LinksOf, AgentMayConnect, DirectMayConnect, SendOn, AbortAll, Deliver, NewStream;
    match ev
    case Arrives(wire, ok, o, p) => DeliverBears(r, wire, ok, o, p);
    case AgentGone(w, order, p) =>
      AbortsBear(r.(table := r.table.(owned := r.table.owned - {w})), order, AbortWithNotice, p);
    case ClientGone(w, order, p) =>
      AbortsBear(r.(table := r.table.(clients := r.table.clients - {w})), order, AbortQuietly, p);
    case _ =>
  }

  lemma DeliverBears(r: Relay, wire: Wire, ok: bool, o: WriteOutcome, p: Pressure)
    requires CanDeliver(r, wire)
    ensures Deliver(r, wire, ok, o, p).conns.Keys == r.conns.Keys
  {
    hide Hear, SendAll, Book;
  }

  lemma {:induction false} AbortsBear(r: Relay, order: seq<int>, sev: ServerEvent, p: Pressure)
    ensures AbortAll(r, order, sev, p).conns.Keys == r.conns.Keys
  {
    hide Step, SendAll, Book;
    if order != [] {
      AbortsBear(r, order[..|order| - 1], sev, p);
    }
  }

  /** Every stream of every reachable relay is a new stream moved on by its own events. */
  lemma {:induction false} EveryLaneIsARun(r: Relay, evs: seq<RelayEvent>, cfg: Config, id: int)
    requires RelayInv(r, cfg) && CanRun(r, evs, cfg) && id !in r.conns && id in Run(r, evs, cfg).conns
    ensures var (b, c, turns) := (Born(r, evs, cfg, id), Run(r, evs, cfg).conns[id], TurnsIn(r, evs, cfg, id));
            && b == NewLane(c.home.agent.Some?, cfg.cap, b.up)
            && LaneRun.CanRun(b, turns) && c.lane == LaneRun.Run(b, turns)
    decreases |evs|
  {
    hide RelayInv, Next, Possible, TurnsOf;
    var r1 := Next(r, evs[0], cfg);
    NextKeeps(r, evs[0], cfg);
    assert TurnsIn(r, evs, cfg, id) == TurnsIn(r1, evs[1..], cfg, id);
    if id in r1.conns {
      NextBears(r, evs[0], cfg, id);
      RunMoves(r1, evs[1..], cfg, id);
    } else {
      EveryLaneIsARun(r1, evs[1..], cfg, id);
    }
  }

  // ---------------------------------------------------------------------------
  // What that gives on the shared channels
  // ---------------------------------------------------------------------------

  lemma FromStart(evs: seq<RelayEvent>, cfg: Config, id: int)
    requires CanRun(START, evs, cfg) && id in Run(START, evs, cfg).conns
    ensures var (b, turns) := (Born(START, evs, cfg, id), TurnsIn(START, evs, cfg, id));
            var c := Run(START, evs, cfg).conns[id];
            && b == NewLane(c.home.agent.Some?, cfg.cap, b.up) && Dutiful(b)
            && LaneRun.CanRun(b, turns) && c.lane == LaneRun.Run(b, turns) && Dutiful(c.lane)
            && Reachable(Run(START, evs, cfg), cfg)
  {
    hide RelayInv, Dutiful, NewLane;
    StartInv(cfg);
    EveryLaneIsARun(START, evs, cfg, id);
    var b := Born(START, evs, cfg, id);
    NewLaneDuty(Run(START, evs, cfg).conns[id].home.agent.Some?, cfg.cap, b.up);
    RunKeepsDuty(b, TurnsIn(START, evs, cfg, id));
  }

  /**
   On the shared channel to its client, a stream says exactly the goodbyes that are due: one if
   it ends while the client's WebSocket is open by its agent's end, a timeout, the agent's
   disconnect, a failed write or the socket's own close or error; none otherwise.
   */
  lemma EveryEndIsTold(evs: seq<RelayEvent>, cfg: Config, id: int)
    requires CanRun(START, evs, cfg) && id in Run(START, evs, cfg).conns
    ensures var r := Run(START, evs, cfg);
            && LaneRun.CanRun(Born(START, evs, cfg, id), TurnsIn(START, evs, cfg, id))
            && Terminals(Shown(r, id, ToClient, r.conns[id].home.client)) ==
               |Farewells(Born(START, evs, cfg, id), TurnsIn(START, evs, cfg, id))|
  {
    hide Reachable, Duty, LaneInv;
    FromStart(evs, cfg, id);
    var b := Born(START, evs, cfg, id);
    RunBids(b, TurnsIn(START, evs, cfg, id));
    Push([], Open);
    assert [] + [Open] == [Open];
    NoStrayFrames(Run(START, evs, cfg), cfg, id, ToClient, Run(START, evs, cfg).conns[id].home.client);
  }

  /** And so on the shared channel to its agent: TCP_CLOSE, TCP_ABORT and "not found", each when due. */
  lemma EveryEndIsToldToAgent(evs: seq<RelayEvent>, cfg: Config, id: int)
    requires CanRun(START, evs, cfg) && id in Run(START, evs, cfg).conns
    requires Run(START, evs, cfg).conns[id].home.agent.Some?
    ensures var r := Run(START, evs, cfg);
            && LaneRun.CanRun(Born(START, evs, cfg, id), TurnsIn(START, evs, cfg, id))
            && var due := FarewellsToAgent(Born(START, evs, cfg, id), TurnsIn(START, evs, cfg, id));
               var q := Shown(r, id, ToAgent, r.conns[id].home.agent.value);
               && Count(Msg.Close, q) == Count(Msg.Close, due)
               && Count(Abort(Teardown), q) == Count(Abort(Teardown), due)
               && Count(Abort(StreamNotFound), q) == Count(Abort(StreamNotFound), due)
  {
    hide Reachable, Duty, LaneInv;
    FromStart(evs, cfg, id);
    RunBidsAgent(Born(START, evs, cfg, id), TurnsIn(START, evs, cfg, id));
    NoStrayFrames(Run(START, evs, cfg), cfg, id, ToAgent, Run(START, evs, cfg).conns[id].home.agent.value);
  }

  lemma LinksNow(evs: seq<RelayEvent>, cfg: Config, id: int)
    requires CanRun(START, evs, cfg) && id in Run(START, evs, cfg).conns
    ensures var r := Run(START, evs, cfg); r.conns[id].lane.up == LinksOf(r, r.conns[id].home)
  {
    hide RelayInv;
    StartInv(cfg);
    RunKeeps(START, evs, cfg);
    CoreAt(Run(START, evs, cfg), cfg, id);
  }

  /**
   On the shared channel to its client: a stream gone from the table while the WebSocket is open,
   that neither its client nor a quiet teardown ended, has said goodbye exactly once.
   */
  lemma NoClientWaits(evs: seq<RelayEvent>, cfg: Config, id: int)
    requires CanRun(START, evs, cfg) && id in Run(START, evs, cfg).conns
    ensures var (r, b, turns) := (Run(START, evs, cfg), Born(START, evs, cfg, id), TurnsIn(START, evs, cfg, id));
            var (h, s) := (r.conns[id].home, r.conns[id].lane.s);
            && LaneRun.CanRun(b, turns)
            && (s.life.cleaned && h.client in r.openS && !QuietIn(b, turns) ==>
                  Terminals(Shown(r, id, ToClient, h.client)) == 1)
  {
    hide Reachable, Duty, LaneInv, QuietIn;
    FromStart(evs, cfg, id);
    LinksNow(evs, cfg, id);
    if !QuietIn(Born(START, evs, cfg, id), TurnsIn(START, evs, cfg, id)) {
      LeftIsTold(Born(START, evs, cfg, id), TurnsIn(START, evs, cfg, id));
    }
    NoStrayFrames(Run(START, evs, cfg), cfg, id, ToClient, Run(START, evs, cfg).conns[id].home.client);
  }

  /**
   And on the shared channel to its agent: a socket destroyed while the WebSocket is open, that
   its agent did not end, has said goodbye exactly once.
   */
  lemma NoAgentWaits(evs: seq<RelayEvent>, cfg: Config, id: int)
    requires CanRun(START, evs, cfg) && id in Run(START, evs, cfg).conns
    requires Run(START, evs, cfg).conns[id].home.agent.Some?
    ensures var (r, b, turns) := (Run(START, evs, cfg), Born(START, evs, cfg, id), TurnsIn(START, evs, cfg, id));
            var (w, s) := (r.conns[id].home.agent.value, r.conns[id].lane.s);
            && LaneRun.CanRun(b, turns)
            && (s.sock.destroyed && w in r.openS && !AgentEndsIn(b, turns) ==>
                  var q := Shown(r, id, ToAgent, w);
                  Count(Msg.Close, q) + Count(Abort(Teardown), q) == 1)
  {
    hide Reachable, Duty, LaneInv, AgentEndsIn;
    FromStart(evs, cfg, id);
    LinksNow(evs, cfg, id);
    if !AgentEndsIn(Born(START, evs, cfg, id), TurnsIn(START, evs, cfg, id)) {
      DestroyedIsTold(Born(START, evs, cfg, id), TurnsIn(START, evs, cfg, id));
    }
    NoStrayFrames(Run(START, evs, cfg), cfg, id, ToAgent, Run(START, evs, cfg).conns[id].home.agent.value);
  }

  /** Every connect that opened a stream is answered exactly when its client's word finds it waiting. */
  lemma EveryConnectAnswered(evs: seq<RelayEvent>, cfg: Config, id: int)
    requires CanRun(START, evs, cfg) && id in Run(START, evs, cfg).conns
    requires Run(START, evs, cfg).conns[id].home.agent.Some?
    ensures var r := Run(START, evs, cfg);
            && LaneRun.CanRun(Born(START, evs, cfg, id), TurnsIn(START, evs, cfg, id))
            && var q := Shown(r, id, ToAgent, r.conns[id].home.agent.value);
               (ConnectAck in q || Reject in q <==>
                Connects.AnswersIn(Born(START, evs, cfg, id), TurnsIn(START, evs, cfg, id)))
  {
    hide Reachable, Duty, LaneInv;
    FromStart(evs, cfg, id);
    Connects.AnsweredIff(Born(START, evs, cfg, id), TurnsIn(START, evs, cfg, id));
    NoStrayFrames(Run(START, evs, cfg), cfg, id, ToAgent, Run(START, evs, cfg).conns[id].home.agent.value);
  }

  /**
   In every reachable relay every live stream's socket reads exactly when neither its client nor
   its client's WebSocket holds it back, and a client held back for a full agent's WebSocket is
   owed a drain.
   */
  lemma EveryStreamDutiful(evs: seq<RelayEvent>, cfg: Config, id: int)
    requires CanRun(START, evs, cfg) && id in Run(START, evs, cfg).conns
    ensures var r := Run(START, evs, cfg);
            var (h, s) := (r.conns[id].home, r.conns[id].lane.s);
            Alive(s) ==>
              && s.sock.paused == (s.flow.peerPausedRead || s.flow.localPausedForWs)
              && (h.agent.Some? && h.agent.value in r.openS ==>
                    && s.flow.wsBackpressured == s.sock.pendingDrain
                    && var q := Shown(r, id, ToAgent, h.agent.value);
                       Count(Pause, q) == Count(Resume, q) + if s.sock.paused then 1 else 0)
  {
    hide Reachable, LaneInv;
    FromStart(evs, cfg, id);
    var r := Run(START, evs, cfg);
    ReachableLane(r, cfg, id);
    if r.conns[id].home.agent.Some? {
      VirtualOf(r, cfg, id);
      NoStrayFrames(r, cfg, id, ToAgent, r.conns[id].home.agent.value);
    }
  }

  lemma VirtualOf(r: Relay, cfg: Config, id: int)
    requires Reachable(r, cfg) && id in r.conns
    ensures r.conns[id].lane.s.sock.virtual == r.conns[id].home.agent.Some?
  {
    ReachableInv(r, cfg);
    assert LaneOk(r, id);
  }
}
