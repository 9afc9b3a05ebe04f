/**
 What holds of the relay after any run, whatever the interleaving of streams, parties and
 failures.
 */
module RelayTheorems {
  import opened Options
  import opened Protocol
  import opened Mux
  import opened ServerStream
  import opened ServerStreamProof
  import opened AgentStream
  import opened ClientStream
  import opened Lane
  import opened StreamIds
  import opened StreamTable
  import opened Relay
  import opened RelayProof

  /** The events of `evs` can happen one after the other, from r on. */
  ghost predicate CanRun(r: Relay, evs: seq<RelayEvent>, cfg: Config)
    decreases |evs|
  {
    evs == [] || (IsId(r.table.nextId) && Possible(r, evs[0]) && CanRun(Next(r, evs[0], cfg), evs[1..], cfg))
  }

  ghost function Run(r: Relay, evs: seq<RelayEvent>, cfg: Config): Relay
    requires CanRun(r, evs, cfg)
    decreases |evs|
  {
    if evs == [] then r else Run(Next(r, evs[0], cfg), evs[1..], cfg)
  }

  lemma {:induction false} RunKeeps(r: Relay, evs: seq<RelayEvent>, cfg: Config)
    requires RelayInv(r, cfg) && CanRun(r, evs, cfg)
    ensures RelayInv(Run(r, evs, cfg), cfg)
    decreases |evs|
  {
    hide RelayInv, Next, Possible;
    if evs != [] {
      NextKeeps(r, evs[0], cfg);
      RunKeeps(Next(r, evs[0], cfg), evs[1..], cfg);
    }
  }

  lemma StartInv(cfg: Config)
    ensures RelayInv(START, cfg)
  {
    EmptyBooks(cfg.limits);
    assert forall wire :: ChanOf(START.chans, wire) == Chan([], 0);
    assert forall wire :: Known(START, wire);
    assert forall id :: Foreign(START, id);
  }

  lemma EmptyBooks(lim: Limits)
    ensures TableInv(EMPTY, lim)
  {
    assert Counted(EMPTY) == map[];
    forall direct, p
      ensures CountOf(CountMap(EMPTY, direct), p) == |OnPort(Counted(EMPTY), direct, p)|
      ensures Within(PortLimit(lim, direct), CountOf(CountMap(EMPTY, direct), p))
    {
      assert OnPort(Counted(EMPTY), direct, p) == {};
      assert CountMap(EMPTY, direct) == map[];
    }
  }

  /** r is the relay after some run from the start. */
  ghost predicate Reachable(r: Relay, cfg: Config) {
    exists evs :: CanRun(START, evs, cfg) && Run(START, evs, cfg) == r
  }

  lemma ReachableInv(r: Relay, cfg: Config)
    requires Reachable(r, cfg)
    ensures RelayInv(r, cfg)
  {
    var evs :| CanRun(START, evs, cfg) && Run(START, evs, cfg) == r;
    StartInv(cfg);
    RunKeeps(START, evs, cfg);
  }

  lemma ReachableLane(r: Relay, cfg: Config, id: int)
    requires Reachable(r, cfg) && id in r.conns
    ensures LaneInv(r.conns[id].lane) && r.conns[id].lane.up == LinksOf(r, r.conns[id].home)
  {
    ReachableInv(r, cfg);
    assert LaneOk(r, id);
  }

  lemma ReachableChannels(r: Relay, cfg: Config)
    requires Reachable(r, cfg)
    ensures AllWrote(r) && AllRead(r)
  {
    ReachableInv(r, cfg);
  }

  /**
   In every reachable state, for every stream: the bytes delivered at one end are a prefix
   of the bytes read at its other end, in both directions. No byte comes from another
   stream, none is skipped.
   */
  lemma EveryStreamDelivers(r: Relay, cfg: Config, id: int)
    requires Reachable(r, cfg) && id in r.conns
    ensures var l := r.conns[id].lane;
            Flatten(l.c.log.written) <= BytesRead(l) && BytesReturned(l) <= Flatten(l.c.log.read)
  {
    hide Reachable, LaneInv;
    ReachableLane(r, cfg, id);
    PrefixDelivery(r.conns[id].lane);
  }

  /** While everybody who handles a stream is there, every chunk read is at exactly one place. */
  lemma EveryStreamConserves(r: Relay, cfg: Config, id: int)
    requires Reachable(r, cfg) && id in r.conns && Whole(r.conns[id].lane)
    ensures var l := r.conns[id].lane;
            && InRange(l)
            && l.c.log.written + Chunks(InFlight(l.s.log.toClient, l.got.client)) + l.s.sock.buffered + Inbound(l)
               == ReadOutside(l)
            && GivenOutside(l) + Outbound(l) + Chunks(InFlight(l.c.log.toServer, l.got.fromClient)) == l.c.log.read
  {
    hide Reachable, Whole;
    ReachableLane(r, cfg, id);
    NothingLost(r.conns[id].lane);
  }

  /** What a channel has shown of stream id, all in all and up to what was received. */
  function Shown(r: Relay, id: int, dir: Dir, ws: Ws): seq<Msg> {
    Filter(id, ChanOf(r.chans, Wire(dir, ws)).sent)
  }

  /** No frame of a stream ever travels on a WebSocket that is not the stream's own. */
  lemma NoStrayFrames(r: Relay, cfg: Config, id: int, dir: Dir, ws: Ws)
    requires Reachable(r, cfg) && id in r.conns
    ensures Via(r.conns[id].home, dir) != Some(ws) ==> Shown(r, id, dir, ws) == []
    ensures Via(r.conns[id].home, dir) == Some(ws) ==> Shown(r, id, dir, ws) == LogOf(r.conns[id].lane, dir)
  {
    ReachableInv(r, cfg);
    assert Wrote(ChanOf(r.chans, Wire(dir, ws)), id, SentOver(r.conns[id], Wire(dir, ws)));
  }

  /**
   On the shared channel to a tunnel client, each stream's frames start with its one
   TCP_OPEN and say goodbye at most once, after which the channel never carries the id
   again; none is said if the client ended the stream.
   */
  lemma QuietOnTheWire(r: Relay, cfg: Config, id: int)
    requires Reachable(r, cfg) && id in r.conns
    ensures var q := Shown(r, id, ToClient, r.conns[id].home.client);
            && q != [] && q[0] == Open && Count(Open, q) == 1
            && Terminals(q) <= 1 && TerminalLast(q)
            && (r.conns[id].lane.s.life.endedBy.ByClient? ==> Terminals(q) == 0)
  {
    hide Reachable, LaneInv;
    ReachableLane(r, cfg, id);
    NoStrayFrames(r, cfg, id, ToClient, r.conns[id].home.client);
    QuietAfterClose(r.conns[id].lane);
    OpensOnce(r.conns[id].lane);
  }

  /**
   On the shared channel to an agent, each stream says goodbye at most once, and not at all if
   the agent ended it; after it come the RESUME of a flush under way and "not found" replies,
   but no TCP_DATA, no PAUSE and no acknowledgement.
   */
  lemma QuietToAgentOnTheWire(r: Relay, cfg: Config, id: int)
    requires Reachable(r, cfg) && id in r.conns && r.conns[id].home.agent.Some?
    ensures var q := Shown(r, id, ToAgent, r.conns[id].home.agent.value);
            && Terminals(q) <= 1 && Hushed(q)
            && (r.conns[id].lane.s.life.endedBy.ByAgent? ==> Terminals(q) == 0)
            && forall i, j :: 0 <= i < j < |q| && Terminal(q[i]) ==> Afterword(q[j])
  {
    hide Reachable, LaneInv;
    ReachableLane(r, cfg, id);
    NoStrayFrames(r, cfg, id, ToAgent, r.conns[id].home.agent.value);
    QuietAfterClose(r.conns[id].lane);
    HushedMeans(Shown(r, id, ToAgent, r.conns[id].home.agent.value));
  }

  lemma OpensOnce(l: Lane)
    requires LaneInv(l)
    ensures l.s.log.toClient != [] && l.s.log.toClient[0] == Open && Count(Open, l.s.log.toClient) == 1
  {
  }

  /** The frames of stream id on their way over `wire`. */
  function OnTheWay(r: Relay, id: int, wire: Wire): seq<Msg> {
    var ch := ChanOf(r.chans, wire);
    if ch.got <= |ch.sent| then Filter(id, ch.sent[ch.got..]) else []
  }

  /** On the shared channel as on a private one: what was sent and not received. */
  lemma OnTheWayIsInFlight(r: Relay, id: int, wire: Wire)
    requires AllWrote(r) && AllRead(r) && id in r.conns && Via(r.conns[id].home, wire.dir) == Some(wire.ws)
    ensures var l := r.conns[id].lane;
            && GotOf(l, wire.dir) <= |LogOf(l, wire.dir)|
            && OnTheWay(r, id, wire) == InFlight(LogOf(l, wire.dir), GotOf(l, wire.dir))
  {
    var ch := ChanOf(r.chans, wire);
    assert Wrote(ch, id, SentOver(r.conns[id], wire)) && Read(ch, id, GotOver(r.conns[id], wire));
    FilterRest(id, ch.sent, ch.got);
  }

  /** What the flag agreement of one hop means on the shared channel. */
  predicate HopAgrees(r: Relay, id: int, wire: Wire, receiver: bool, sender: bool) {
    Fold(receiver, OnTheWay(r, id, wire)) == sender
  }

  lemma HopOnTheWire(r: Relay, id: int, wire: Wire, receiver: bool, sender: bool)
    requires AllWrote(r) && AllRead(r) && id in r.conns && Via(r.conns[id].home, wire.dir) == Some(wire.ws)
    requires var l := r.conns[id].lane;
             GotOf(l, wire.dir) <= |LogOf(l, wire.dir)| ==>
               Fold(receiver, InFlight(LogOf(l, wire.dir), GotOf(l, wire.dir))) == sender
    ensures HopAgrees(r, id, wire, receiver, sender)
  {
    hide AllWrote, AllRead, Fold, OnTheWay, InFlight;
    OnTheWayIsInFlight(r, id, wire);
  }

  lemma FlowAtEnds(r: Relay, cfg: Config, id: int)
    requires Reachable(r, cfg) && id in r.conns
    ensures var (h, l) := (r.conns[id].home, r.conns[id].lane);
            && InRange(l)
            && l.s.flow.clientPaused == (l.s.flow.agentPaused || l.s.flow.wsBackpressured)
            && (h.client in r.openS && !l.c.phase.Over? ==>
                  Fold(l.c.flow.peerPausedRead, InFlight(l.s.log.toClient, l.got.client)) == l.s.flow.clientPaused)
            && (h.client in r.openP && !l.s.life.cleaned ==>
                  Fold(l.s.flow.peerPausedRead, InFlight(l.c.log.toServer, l.got.fromClient)) == l.c.flow.localFull)
            && (h.agent.Some? && h.agent.value in r.openP && !l.s.life.cleaned ==>
                  Fold(l.s.flow.agentPaused, InFlight(l.a.log.toServer, l.got.fromAgent)) == l.a.flow.localFull)
            && Alternates(l.s.log.toClient) && Alternates(l.c.log.toServer) && Alternates(l.a.log.toServer)
  {
    hide Reachable, LaneInv, Fold, InFlight, Alternates;
    ReachableLane(r, cfg, id);
    FlowAgreement(r.conns[id].lane);
    LaneInRange(r.conns[id].lane);
  }

  lemma LaneInRange(l: Lane)
    requires LaneInv(l)
    ensures InRange(l)
  {
  }

  /**
   Flow control over the shared channels: the PAUSE and RESUME frames of a stream still on
   their way, folded over the receiver's flag, give the sender's flag; and on each channel they
   strictly alternate.
   */
  lemma FlowAgreesOnTheWire(r: Relay, cfg: Config, id: int)
    requires Reachable(r, cfg) && id in r.conns
    ensures var (h, l) := (r.conns[id].home, r.conns[id].lane);
            && l.s.flow.clientPaused == (l.s.flow.agentPaused || l.s.flow.wsBackpressured)
            && (h.client in r.openS && !l.c.phase.Over? ==>
                  HopAgrees(r, id, Wire(ToClient, h.client), l.c.flow.peerPausedRead, l.s.flow.clientPaused))
            && (h.client in r.openP && !l.s.life.cleaned ==>
                  HopAgrees(r, id, Wire(FromClient, h.client), l.s.flow.peerPausedRead, l.c.flow.localFull))
            && (h.agent.Some? && h.agent.value in r.openP && !l.s.life.cleaned ==>
                  HopAgrees(r, id, Wire(FromAgent, h.agent.value), l.s.flow.agentPaused, l.a.flow.localFull))
            && Alternates(Shown(r, id, ToClient, h.client)) && Alternates(Shown(r, id, FromClient, h.client))
            && (h.agent.Some? ==> Alternates(Shown(r, id, FromAgent, h.agent.value)))
  {
    hide Reachable, AllWrote, AllRead, Fold, InFlight, HopAgrees, Alternates;
    var (h, l) := (r.conns[id].home, r.conns[id].lane);
    ReachableChannels(r, cfg);
    FlowAtEnds(r, cfg, id);
    NoStrayFrames(r, cfg, id, ToClient, h.client);
    NoStrayFrames(r, cfg, id, FromClient, h.client);
    if h.agent.Some? {
      NoStrayFrames(r, cfg, id, FromAgent, h.agent.value);
    }
    if h.client in r.openS && !l.c.phase.Over? {
      HopOnTheWire(r, id, Wire(ToClient, h.client), l.c.flow.peerPausedRead, l.s.flow.clientPaused);
    }
    if h.client in r.openP && !l.s.life.cleaned {
      HopOnTheWire(r, id, Wire(FromClient, h.client), l.s.flow.peerPausedRead, l.c.flow.localFull);
    }
    if h.agent.Some? && h.agent.value in r.openP && !l.s.life.cleaned {
      HopOnTheWire(r, id, Wire(FromAgent, h.agent.value), l.s.flow.agentPaused, l.a.flow.localFull);
    }
  }

  /** The frames of stream id that have arrived over `wire`. */
  function Arrived(r: Relay, id: int, wire: Wire): seq<Msg> {
    var ch := ChanOf(r.chans, wire);
    if ch.got <= |ch.sent| then Filter(id, ch.sent[..ch.got]) else []
  }

  lemma ArrivedIsReceived(r: Relay, id: int, wire: Wire)
    requires AllWrote(r) && AllRead(r) && id in r.conns && Via(r.conns[id].home, wire.dir) == Some(wire.ws)
    ensures var l := r.conns[id].lane;
            && GotOf(l, wire.dir) <= |LogOf(l, wire.dir)|
            && Arrived(r, id, wire) == LogOf(l, wire.dir)[..GotOf(l, wire.dir)]
  {
    var ch := ChanOf(r.chans, wire);
    assert Wrote(ch, id, SentOver(r.conns[id], wire)) && Read(ch, id, GotOver(r.conns[id], wire));
    FilterPrefix(id, ch.sent, ch.got);
  }

  /** Every connect is answered at most once, and acknowledged only once the client confirmed. */
  lemma AnsweredOnce(r: Relay, cfg: Config, id: int)
    requires Reachable(r, cfg) && id in r.conns && r.conns[id].home.agent.Some?
    ensures var (h, l) := (r.conns[id].home, r.conns[id].lane);
            var q := Shown(r, id, ToAgent, h.agent.value);
            && Count(ConnectAck, q) + Count(Reject, q) <= 1
            && (ConnectAck in q ==> OpenAck in Arrived(r, id, Wire(FromClient, h.client)))
            && (l.s.life.awaitingAck ==> Shown(r, id, FromAgent, h.agent.value) == [])
  {
    hide Reachable, LaneInv, AllWrote, AllRead;
    var (h, l) := (r.conns[id].home, r.conns[id].lane);
    ReachableChannels(r, cfg);
    ReachableLane(r, cfg, id);
    DeferredAck(l);
    ArrivedIsReceived(r, id, Wire(FromClient, h.client));
    NoStrayFrames(r, cfg, id, ToAgent, h.agent.value);
    NoStrayFrames(r, cfg, id, FromAgent, h.agent.value);
  }

  /** An agent that is gone leaves no stream behind: all of its streams are cleaned up. */
  lemma AgentGoneLeavesNothing(r: Relay, cfg: Config, w: Ws, order: seq<int>, p: Pressure)
    requires Reachable(r, cfg) && IsId(r.table.nextId) && Possible(r, AgentGone(w, order, p))
    ensures var r1 := Next(r, AgentGone(w, order, p), cfg);
            && w !in r1.table.owned
            && forall id :: id in r1.conns && r1.conns[id].home.agent == Some(w) ==> r1.conns[id].lane.s.life.cleaned
  {
    hide Reachable, RelayInv;
    ReachableInv(r, cfg);
    AgentGoneKeeps(r, cfg, w, order, p);
    ReleaseAllFrame(r.table.(owned := r.table.owned - {w}), order);
    NoneOfAgent(Next(r, AgentGone(w, order, p), cfg), cfg, w);
  }

  lemma NoneOfAgent(r: Relay, cfg: Config, w: Ws)
    requires RelayInv(r, cfg) && w !in r.table.owned
    ensures forall id :: id in r.conns && r.conns[id].home.agent == Some(w) ==> r.conns[id].lane.s.life.cleaned
  {
    forall id | id in r.conns && r.conns[id].home.agent == Some(w)
      ensures r.conns[id].lane.s.life.cleaned
    {
      assert Booked(r.table, id, r.conns[id]);
    }
  }

  /** Nor does a tunnel client. */
  lemma ClientGoneLeavesNothing(r: Relay, cfg: Config, w: Ws, order: seq<int>, p: Pressure)
    requires Reachable(r, cfg) && IsId(r.table.nextId) && Possible(r, ClientGone(w, order, p))
    ensures var r1 := Next(r, ClientGone(w, order, p), cfg);
            && w !in r1.table.clients
            && forall id :: id in r1.conns && r1.conns[id].home.client == w ==> r1.conns[id].lane.s.life.cleaned
  {
    hide Reachable, RelayInv;
    ReachableInv(r, cfg);
    ClientGoneKeeps(r, cfg, w, order, p);
    ReleaseAllFrame(r.table.(clients := r.table.clients - {w}), order);
    NoneOfClient(Next(r, ClientGone(w, order, p), cfg), cfg, w);
  }

  lemma NoneOfClient(r: Relay, cfg: Config, w: Ws)
    requires RelayInv(r, cfg) && w !in r.table.clients
    ensures forall id :: id in r.conns && r.conns[id].home.client == w ==> r.conns[id].lane.s.life.cleaned
  {
    forall id | id in r.conns && r.conns[id].home.client == w
      ensures r.conns[id].lane.s.life.cleaned
    {
      assert Booked(r.table, id, r.conns[id]);
    }
  }
}
