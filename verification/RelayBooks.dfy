/**
 The server's counters after any run of the relay: what they count, and exactly which frames
 make them wrong.
 */
module RelayBooks {
  import opened Options
  import opened Protocol
  import opened Mux
  import opened ServerStream
  import opened ServerStreamProof
  import opened ClientStream
  import opened Lane
  import opened StreamIds
  import opened StreamTable
  import opened Relay
  import opened RelayProof
  import opened RelayTheorems
  import LaneRun

  /** A RES_DATA, RES_END or RES_ABORT arrives for a TCP stream of its sender that is in the table. */
  predicate Trips(r: Relay, ev: RelayEvent) {
    && ev.Arrives? && ev.wire.dir.FromClient? && CanDeliver(r, ev.wire)
    && var f := Head(r, ev.wire);
       && f.msg.ResBody? && f.id in r.table.streams
       && r.table.streams[f.id].Tcp? && r.table.streams[f.id].ws == ev.wire.ws
  }

  /** The stream it arrives for. */
  function Tripped(r: Relay, ev: RelayEvent): set<int> {
    if Trips(r, ev) then {Head(r, ev.wire).id} else {}
  }

  /** The streams such frames arrived for, in the whole run. */
  ghost function TrippedIn(r: Relay, evs: seq<RelayEvent>, cfg: Config): set<int>
    requires CanRun(r, evs, cfg)
    decreases |evs|
  {
    if evs == [] then {} else Tripped(r, evs[0]) + TrippedIn(Next(r, evs[0], cfg), evs[1..], cfg)
  }

  // ---------------------------------------------------------------------------
  // One event
  // ---------------------------------------------------------------------------

  /** A stream's step books a leak exactly when the step leaks. */
  lemma StepBooks(t: Table, id: int, c: Conn, ev: Event, p: Pressure)
    requires Booked(t, id, c) && LaneInv(c.lane) && Enabled(c.lane, ev) && !ev.LeaveOpen?
    ensures Book(t, id, c.lane.s.life, Step(c.lane, ev, p).s.life).leaked.Keys ==
            t.leaked.Keys + if Leaks(c.lane, ev) then {id} else {}
  {
    hide LaneInv, Step;
    StepLeaks(c.lane, ev, p);
    StepStaysGone(c.lane, ev, p);
    ReleaseFrame(t, id);
  }

  lemma StepStaysGone(l: Lane, ev: Event, p: Pressure)
    requires LaneInv(l) && Enabled(l, ev)
    ensures l.s.life.cleaned ==> Step(l, ev, p).s.life.cleaned
    ensures (l.s.life.leaked ==> l.s.life.cleaned)
    ensures Step(l, ev, p).s.life.leaked ==> Step(l, ev, p).s.life.cleaned
  {
    hide Step;
    StepGrows(l, ev, p);
    StepKeepsInv(l, ev, p);
  }

  lemma LocalTrips(r: Relay, id: int, ev: Event, p: Pressure)
    requires Core(r) && id in r.conns && IsLocal(ev)
    ensures Advance(r, id, Step(r.conns[id].lane, ev, p)).table.leaked.Keys == r.table.leaked.Keys
  {
    hide LaneInv, Step, Booked;
    assert LaneOk(r, id) && Booked(r.table, id, r.conns[id]);
    StepBooks(r.table, id, r.conns[id], ev, p);
  }

  /** The guard of the HTTP cleanup, in terms of the table and in terms of the stream. */
  lemma TripsIsLeaks(r: Relay, wire: Wire, ok: bool, o: WriteOutcome, p: Pressure)
    requires Core(r) && CanDeliver(r, wire)
    requires var f := Head(r, wire);
             f.id in r.conns && Enabled(r.conns[f.id].lane, ArrivalOf(wire.dir, ok, o))
             && Via(r.conns[f.id].home, wire.dir) == Some(wire.ws)
             && LogOf(r.conns[f.id].lane, wire.dir)[GotOf(r.conns[f.id].lane, wire.dir)] == f.msg
    ensures Trips(r, Arrives(wire, ok, o, p)) <==>
            Leaks(r.conns[Head(r, wire).id].lane, ArrivalOf(wire.dir, ok, o))
  {
    var id := Head(r, wire).id;
    assert Booked(r.table, id, r.conns[id]);
  }

  lemma ArrivalTrips(r: Relay, wire: Wire, ok: bool, o: WriteOutcome, p: Pressure)
    requires Core(r) && CanDeliver(r, wire)
    ensures Deliver(r, wire, ok, o, p).table.leaked.Keys ==
            r.table.leaked.Keys + Tripped(r, Arrives(wire, ok, o, p))
  {
    hide LaneInv, Step, Booked, Trips, Hear;
    var id := Head(r, wire).id;
    HeadIsOwn(r, wire);
    var l := r.conns[id].lane;
    assert LaneOk(r, id) && Booked(r.table, id, r.conns[id]);
    ArrivalEnabled(l, wire.dir, ok, o);
    HearIsStep(r, wire, id, ok, o, p);
    StepBooks(r.table, id, r.conns[id], ArrivalOf(wire.dir, ok, o), p);
    TripsIsLeaks(r, wire, ok, o, p);
  }

  lemma GoneTrips(r: Relay, ev: RelayEvent, cfg: Config)
    requires RelayInv(r, cfg) && Possible(r, ev) && (ev.AgentGone? || ev.ClientGone?) && IsId(r.table.nextId)
    ensures Next(r, ev, cfg).table.leaked == r.table.leaked
  {
    hide RelayInv, AbortAll, ReleaseAll;
    match ev
    case AgentGone(w, order, p) =>
      AgentGoneKeeps(r, cfg, w, order, p);
      ReleaseAllFrame(r.table.(owned := r.table.owned - {w}), order);
    case ClientGone(w, order, p) =>
      ClientGoneKeeps(r, cfg, w, order, p);
      ReleaseAllFrame(r.table.(clients := r.table.clients - {w}), order);
  }

  /** Registrations, new streams and HTTP streams trip nothing. */
  lemma OthersTrip(r: Relay, ev: RelayEvent, cfg: Config)
    requires Possible(r, ev) && IsId(r.table.nextId)
    requires !ev.Local? && !ev.Arrives? && !ev.AgentGone? && !ev.ClientGone?
    ensures Next(r, ev, cfg).table.leaked == r.table.leaked
  {
    hide NewWs, CanOpen, LinksOf, AgentMayConnect, DirectMayConnect, Scan;
    if ev.HttpDone? {
      ReleaseFrame(r.table, ev.id);
    }
  }

  /** Exactly the tripped streams leave the table uncounted. */
  lemma NextTrips(r: Relay, ev: RelayEvent, cfg: Config)
    requires RelayInv(r, cfg) && Possible(r, ev) && IsId(r.table.nextId)
    ensures Next(r, ev, cfg).table.leaked.Keys == r.table.leaked.Keys + Tripped(r, ev)
  {
    hide RelayInv, Core;
    CoreOf(r, cfg);
    if ev.Arrives? {
      hide Deliver, Tripped;
      ArrivalTrips(r, ev.wire, ev.ok, ev.o, ev.p);
    } else if ev.Local? {
      hide Advance;
      LocalTrips(r, ev.id, ev.ev, ev.p);
    } else {
      hide Next;
      if ev.AgentGone? || ev.ClientGone? {
        GoneTrips(r, ev, cfg);
      } else {
        OthersTrip(r, ev, cfg);
      }
    }
  }

  lemma CoreOf(r: Relay, cfg: Config)
    requires RelayInv(r, cfg)
    ensures Core(r)
  {
  }

  // ---------------------------------------------------------------------------
  // Every run
  // ---------------------------------------------------------------------------

  lemma {:induction false} RunTrips(r: Relay, evs: seq<RelayEvent>, cfg: Config)
    requires RelayInv(r, cfg) && CanRun(r, evs, cfg)
    ensures Run(r, evs, cfg).table.leaked.Keys == r.table.leaked.Keys + TrippedIn(r, evs, cfg)
    decreases |evs|
  {
    hide RelayInv, Next, Possible, Tripped;
    if evs != [] {
      NextKeeps(r, evs[0], cfg);
      NextTrips(r, evs[0], cfg);
      RunTrips(Next(r, evs[0], cfg), evs[1..], cfg);
    }
  }

  /**
   The books after any run: no limit is exceeded, every stream's tunnel client and agent are
   registered, each counter is the number of streams counted under it and not given back; and
   the counters are the live streams if and only if no RES_DATA, RES_END or RES_ABORT ever
   arrived for a TCP stream while it was in the table.
   */
  lemma BooksAlwaysHold(evs: seq<RelayEvent>, cfg: Config)
    requires CanRun(START, evs, cfg)
    ensures var r := Run(START, evs, cfg);
            && TableInv(r.table, cfg.limits)
            && (Exact(r.table) <==> TrippedIn(START, evs, cfg) == {})
  {
    hide RelayInv, TableInv;
    StartInv(cfg);
    RunKeeps(START, evs, cfg);
    RunTrips(START, evs, cfg);
    BooksOf(Run(START, evs, cfg), cfg);
    CountsExactIff(Run(START, evs, cfg).table);
  }

  lemma BooksOf(r: Relay, cfg: Config)
    requires RelayInv(r, cfg)
    ensures TableInv(r.table, cfg.limits) && AllBooked(r) && CountsOk(r.table) && KeysOk(r.table)
  {
  }

  /** By how much: each counter exceeds its live streams by the tripped streams booked under it. */
  lemma BooksExceed(evs: seq<RelayEvent>, cfg: Config, direct: bool, port: int)
    requires CanRun(START, evs, cfg)
    ensures var r := Run(START, evs, cfg);
            && r.table.leaked.Keys == TrippedIn(START, evs, cfg)
            && CountOf(CountMap(r.table, direct), port) ==
               |OnPort(r.table.streams, direct, port)| + |OnPort(r.table.leaked, direct, port)|
  {
    hide RelayInv, TableInv;
    StartInv(cfg);
    RunKeeps(START, evs, cfg);
    RunTrips(START, evs, cfg);
    BooksOf(Run(START, evs, cfg), cfg);
    CountsAddUp(Run(START, evs, cfg).table, direct, port);
  }

  /** A client that never sends a RES_* frame on a TCP stream keeps the counters right. */
  lemma ExactWithoutResFrames(r: Relay, cfg: Config)
    requires Reachable(r, cfg)
    requires forall id :: id in r.conns ==> ResBody !in Arrived(r, id, Wire(FromClient, r.conns[id].home.client))
    ensures Exact(r.table)
  {
    hide Reachable, LaneInv, Arrived, RelayInv, Core, TableInv, CountsOk, KeysOk, AllWrote, AllRead;
    ReachableInv(r, cfg);
    ReachableChannels(r, cfg);
    BooksOf(r, cfg);
    CountsExactIff(r.table);
    if r.table.leaked != map[] {
      var id := AnyKey(r.table.leaked);
      assert Foreign(r, id);
      assert Booked(r.table, id, r.conns[id]);
      ReachableLane(r, cfg, id);
      ArrivedIsReceived(r, id, Wire(FromClient, r.conns[id].home.client));
      LeakedHeard(r.conns[id].lane);
    }
  }

  lemma LeakedHeard(l: Lane)
    requires LaneInv(l) && l.s.life.leaked
    ensures l.got.fromClient <= |l.c.log.toServer| && ResBody in l.c.log.toServer[..l.got.fromClient]
  {
  }

  // ---------------------------------------------------------------------------
  // It does happen
  // ---------------------------------------------------------------------------

  const DOWN := Wire(ToClient, 0)
  const UP := Wire(FromClient, 0)

  // An agent and a tunnel client register, the agent connects, the client opens the stream;
  // the client's idle timer fires before its service answers, and its RES_ABORT arrives.
  function IdleClient(port: int): seq<RelayEvent> {
    [AgentRegisters(1)] + ([ClientRegisters(0)] + ([AgentConnects(1, Some(port), Some(0))]
    + ([Arrives(DOWN, true, Accepted, CALM)] + ([Local(1, Event.AtClient(IdleTimeout), CALM)]
    + ([Arrives(UP, true, Accepted, CALM)] + [])))))
  }

  lemma Then(r: Relay, ev: RelayEvent, rest: seq<RelayEvent>, r1: Relay, cfg: Config)
    requires IsId(r.table.nextId) && Possible(r, ev) && r1 == Next(r, ev, cfg) && CanRun(r1, rest, cfg)
    ensures CanRun(r, [ev] + rest, cfg) && Run(r, [ev] + rest, cfg) == Run(r1, rest, cfg)
  {
    hide Next, Possible;
    assert ([ev] + rest)[1..] == rest;
  }

  function IdleHome(port: int): Home {
    Home(0, Some(1), port)
  }

  function IdleTable(port: int): Table {
    Table(map[1 := Tcp(0, port, Some(1))], 2, {0}, map[1 := {1}], map[port := 1], map[], map[])
  }

  /** One stream, which has come as far as `l`; what the client has sent for it is not yet received. */
  predicate IdleAt(r: Relay, port: int, l: Lane) {
    && r.conns == map[1 := Conn(IdleHome(port), l)] && r.table == IdleTable(port)
    && ChanOf(r.chans, UP) == Chan(Tag(1, l.c.log.toServer), 0)
  }

  function BothThere(): Relay {
    START.(table := EMPTY.(owned := map[1 := {}], clients := {0}), openS := {1} + {0}, openP := {1} + {0})
  }

  lemma BothRegister(cfg: Config)
    requires cfg.limits.maxClients > 0
    ensures var r1 := Next(START, AgentRegisters(1), cfg);
            Possible(START, AgentRegisters(1)) && IsId(r1.table.nextId) && Possible(r1, ClientRegisters(0))
            && Next(r1, ClientRegisters(0), cfg) == BothThere()
  {
  }

  lemma AgentIsBooked(port: int, cfg: Config)
    requires port in cfg.limits.allowedPorts && cfg.limits.maxStreams > 0
    ensures ConnectAgent(BothThere().table, cfg.limits, 1, Some(port), Some(0)) == (IdleTable(port), Opened(1))
  {
    var t := BothThere().table;
    var (t1, o) := ConnectAgent(t, cfg.limits, 1, Some(port), Some(0));
    assert NextFree(t) == Some(0);
    AfterStep(1, 0);
    assert t1.streams == IdleTable(port).streams && t1.owned == IdleTable(port).owned;
    assert t1.agentCount == IdleTable(port).agentCount;
  }

  lemma AgentIsAdmitted(port: int, cfg: Config)
    requires port in cfg.limits.allowedPorts && cfg.limits.maxStreams > 0
    ensures var ev := AgentConnects(1, Some(port), Some(0));
            Possible(BothThere(), ev)
            && IdleAt(Next(BothThere(), ev, cfg), port, NewLane(true, cfg.cap, LaneRun.ALL_OPEN))
            && ChanOf(Next(BothThere(), ev, cfg).chans, DOWN) == Chan(Tag(1, [Open]), 0)
  {
    hide ConnectAgent;
    AgentIsBooked(port, cfg);
    SendOnAt(map[], 1, IdleHome(port), ToClient, [Open], DOWN);
    SendOnAt(map[], 1, IdleHome(port), ToClient, [Open], UP);
  }

  /** A step that leaves the stream in the table; what it sends is on its way. */
  lemma IdlesOn(r: Relay, port: int, l: Lane, l': Lane)
    requires IdleAt(r, port, l) && l.c.log.toServer == [] && !l'.s.life.cleaned
    ensures IdleAt(Advance(r, 1, l'), port, l')
  {
    SendAllAt(r.chans, 1, IdleHome(port), l, l', UP);
  }

  lemma OpenIsHeard(r: Relay, port: int, l: Lane, cfg: Config)
    requires IdleAt(r, port, l) && l == NewLane(true, cfg.cap, LaneRun.ALL_OPEN)
    requires ChanOf(r.chans, DOWN) == Chan(Tag(1, [Open]), 0)
    ensures var ev := Arrives(DOWN, true, Accepted, CALM);
            Possible(r, ev)
            && IdleAt(Next(r, ev, cfg), port, l.(c := l.c.(phase := Connecting), got := l.got.(client := 1)))
  {
    hide Advance;
    assert Tag(1, [Open])[0] == Frame(1, Open);
    IdlesOn(Pop(r, DOWN), port, l, l.(c := l.c.(phase := Connecting), got := l.got.(client := 1)));
  }

  /** The stream whose idle timer has fired. */
  function TimedOut(cap: nat): Lane {
    var l := NewLane(true, cap, LaneRun.ALL_OPEN);
    l.(c := l.c.(phase := Over, log := l.c.log.(toServer := [ResBody])), got := l.got.(client := 1))
  }

  lemma TimerFires(r: Relay, port: int, cfg: Config)
    requires var l := NewLane(true, cfg.cap, LaneRun.ALL_OPEN);
             IdleAt(r, port, l.(c := l.c.(phase := Connecting), got := l.got.(client := 1)))
    ensures var ev := Local(1, Event.AtClient(IdleTimeout), CALM);
            Possible(r, ev) && IdleAt(Next(r, ev, cfg), port, TimedOut(cfg.cap))
  {
    hide Advance;
    var l := NewLane(true, cfg.cap, LaneRun.ALL_OPEN);
    assert [] + [ResBody] == [ResBody];
    IdlesOn(r, port, l.(c := l.c.(phase := Connecting), got := l.got.(client := 1)), TimedOut(cfg.cap));
  }

  /** The stream leaves the table; its socket stays, and its port's count and its owner's entry with it. */
  lemma AbortArrives(r: Relay, port: int, cfg: Config)
    requires IdleAt(r, port, TimedOut(cfg.cap))
    ensures var ev := Arrives(UP, true, Accepted, CALM);
            && Possible(r, ev)
            && var r1 := Next(r, ev, cfg);
               && r1.table.streams == map[] && r1.table.agentCount == map[port := 1] && r1.table.owned[1] == {1}
               && 1 in r1.conns && !r1.conns[1].lane.s.sock.destroyed && Trips(r, ev)
  {
    assert Tag(1, [ResBody])[0] == Frame(1, ResBody);
  }

  /** So a run of six events ends with a count of one and no stream. */
  lemma IdleClientLeaks(port: int, cfg: Config)
    requires port in cfg.limits.allowedPorts && cfg.limits.maxStreams > 0 && cfg.limits.maxClients > 0
    ensures CanRun(START, IdleClient(port), cfg)
    ensures var r := Run(START, IdleClient(port), cfg);
            && r.table.streams == map[] && CountOf(r.table.agentCount, port) == 1 && !Exact(r.table)
            && 1 in r.conns && !r.conns[1].lane.s.sock.destroyed
  {
    hide Next, Possible, Exact;
    BothRegister(cfg);
    AgentIsAdmitted(port, cfg);
    var r1 := Next(START, AgentRegisters(1), cfg);
    var r2 := BothThere();
    var r3 := Next(r2, AgentConnects(1, Some(port), Some(0)), cfg);
    OpenIsHeard(r3, port, NewLane(true, cfg.cap, LaneRun.ALL_OPEN), cfg);
    var e4 := Arrives(DOWN, true, Accepted, CALM);
    var r4 := Next(r3, e4, cfg);
    TimerFires(r4, port, cfg);
    var e5 := Local(1, Event.AtClient(IdleTimeout), CALM);
    var r5 := Next(r4, e5, cfg);
    AbortArrives(r5, port, cfg);
    var e6 := Arrives(UP, true, Accepted, CALM);
    Then(r5, e6, [], Next(r5, e6, cfg), cfg);
    Then(r4, e5, [e6] + [], r5, cfg);
    Then(r3, e4, [e5] + ([e6] + []), r4, cfg);
    Then(r2, AgentConnects(1, Some(port), Some(0)), [e4] + ([e5] + ([e6] + [])), r3, cfg);
    Then(r1, ClientRegisters(0), [AgentConnects(1, Some(port), Some(0))] + ([e4] + ([e5] + ([e6] + []))), r2, cfg);
    Then(START, AgentRegisters(1),
         [ClientRegisters(0)] + ([AgentConnects(1, Some(port), Some(0))] + ([e4] + ([e5] + ([e6] + [])))), r1, cfg);
    NoneLive(Next(r5, e6, cfg).table, port);
  }

  lemma NoneLive(t: Table, port: int)
    requires t.streams == map[] && t.agentCount == map[port := 1]
    ensures CountOf(t.agentCount, port) == 1 && !Exact(t)
  {
    assert OnPort(t.streams, false, port) == {};
    assert CountOf(CountMap(t, false), port) == 1;
  }
}
