/**
 What opens in the relay: exactly when a connect, a direct connection or a proxied request gets
 a stream, and what is there once it has one.
 */
module Openings {
  import opened Options
  import opened Protocol
  import opened Mux
  import opened ServerStream
  import opened Lane
  import opened StreamIds
  import opened StreamTable
  import opened Relay
  import opened RelayProof

  /** From r to r1: one new stream under the next id, its TCP_OPEN last on its client's channel. */
  ghost predicate Opened(r: Relay, r1: Relay, h: Home, cap: nat) {
    var (id, down) := (r.table.nextId, Wire(ToClient, h.client));
    && id !in r.conns && id !in r.table.streams
    && r1.conns == r.conns[id := Conn(h, NewLane(h.agent.Some?, cap, LinksOf(r, h)))]
    && r1.table.streams == r.table.streams[id := Tcp(h.client, h.port, h.agent)] && r1.table.nextId == id + 1
    && ChanOf(r1.chans, down) == ChanOf(r.chans, down).(sent := ChanOf(r.chans, down).sent + [Frame(id, Open)])
    && (forall wire :: wire != down ==> ChanOf(r1.chans, wire) == ChanOf(r.chans, wire))
    && r1.openS == r.openS && r1.openP == r.openP
  }

  lemma AddOpens(r: Relay, t1: Table, h: Home, cap: nat)
    requires r.table.nextId !in r.conns && r.table.nextId !in r.table.streams
    requires t1.streams == r.table.streams[r.table.nextId := Tcp(h.client, h.port, h.agent)]
    requires t1.nextId == r.table.nextId + 1
    ensures Opened(r, AddConn(r, r.table.nextId, h, cap).(table := t1), h, cap)
  {
    hide NewLane, LinksOf;
    assert [Open][..0] == [];
    assert Tag(r.table.nextId, [Open]) == [Frame(r.table.nextId, Open)];
  }

  lemma Fresh(r: Relay, cfg: Config)
    requires RelayInv(r, cfg) && r.table.nextId < MAX_ID
    ensures TableInv(r.table, cfg.limits) && IsId(r.table.nextId)
    ensures NextFree(r.table) == Some(0) && After(r.table.nextId, 0) == r.table.nextId
    ensures After(r.table.nextId, 1) == r.table.nextId + 1
    ensures r.table.nextId !in r.conns && r.table.nextId !in r.table.streams
  {
    NextIsFresh(r);
  }

  /** A connect opens its stream if port, limits, a tunnel client and room allow it; else nothing happens. */
  lemma ConnectOpens(r: Relay, cfg: Config, w: Ws, asked: Option<int>, active: Option<Ws>)
    requires RelayInv(r, cfg) && Possible(r, AgentConnects(w, asked, active)) && IsId(r.table.nextId)
    ensures var (r1, lim) := (Next(r, AgentConnects(w, asked, active), cfg), cfg.limits);
            if && asked.Some? && asked.value in lim.allowedPorts
               && (lim.perAgentPort == 0 || |OnPort(Counted(r.table), false, asked.value)| < lim.perAgentPort)
               && (lim.perAgent == 0 || |OfAgent(Counted(r.table), w)| < lim.perAgent)
               && active.Some? && |r.table.streams| < lim.maxStreams
            then Opened(r, r1, Home(active.value, Some(w), asked.value), cfg.cap)
            else r1 == r
  {
    hide RelayInv, TableInv, OnPort, OfAgent, Counted, NextFree, AddConn, AgentMayConnect, Opened;
    Fresh(r, cfg);
    AgentAdmission(r.table, cfg.limits, w, asked, active);
    if AgentMayConnect(r.table, cfg.limits, w, asked, active) {
      AddOpens(r, ConnectAgent(r.table, cfg.limits, w, asked, active).0,
               Home(Or(active, 0), Some(w), Or(asked, 0)), cfg.cap);
    }
  }

  lemma PortOpens(r: Relay, cfg: Config, port: int, active: Option<Ws>)
    requires RelayInv(r, cfg) && Possible(r, PortAccepts(port, active)) && IsId(r.table.nextId)
    ensures var (r1, lim) := (Next(r, PortAccepts(port, active), cfg), cfg.limits);
            if && (lim.perDirectPort == 0 || |OnPort(Counted(r.table), true, port)| < lim.perDirectPort)
               && active.Some? && |r.table.streams| < lim.maxStreams
            then Opened(r, r1, Home(active.value, None, port), cfg.cap)
            else r1 == r
  {
    hide RelayInv, TableInv, OnPort, Counted, NextFree, AddConn, DirectMayConnect, Opened;
    Fresh(r, cfg);
    DirectAdmission(r.table, cfg.limits, port, active);
    if DirectMayConnect(r.table, cfg.limits, port, active) {
      AddOpens(r, ConnectDirect(r.table, cfg.limits, port, active).0, Home(Or(active, 0), None, port), cfg.cap);
    }
  }

  /** A proxied request takes an entry if there is a tunnel client and room; its end gives it back. */
  lemma RequestOpens(r: Relay, cfg: Config, active: Option<Ws>)
    requires RelayInv(r, cfg) && Possible(r, Requested(active)) && IsId(r.table.nextId)
    ensures var r1 := Next(r, Requested(active), cfg);
            && r1 == r.(table := r1.table)
            && (active.Some? && |r.table.streams| < cfg.limits.maxStreams ==>
                  r1.table == r.table.(streams := r.table.streams[r.table.nextId := Http(active.value)],
                                       nextId := r.table.nextId + 1))
            && (active.None? || |r.table.streams| >= cfg.limits.maxStreams ==> r1.table == r.table)
  {
    hide RelayInv, TableInv, NextFree;
    Fresh(r, cfg);
  }

  lemma RequestEnds(r: Relay, cfg: Config, id: int)
    requires Possible(r, HttpDone(id)) && IsId(r.table.nextId)
    ensures Next(r, HttpDone(id), cfg) == r.(table := r.table.(streams := r.table.streams - {id}))
  {
  }
}
