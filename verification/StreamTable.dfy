/**
 The server's books: which streams are in the table, which agent owns which, how many
 connections each port has, and every limit checked against them. StreamManager,
 ClientManager, TcpAgentServer and TcpRouter each keep a part.
 */
module StreamTable {
  import opened Options
  import opened StreamIds

  type Ws = nat          // identity of a WebSocket

  // A stream in the table: its tunnel client, its port, and its agent (none: direct socket).
  datatype Entry =
    | Tcp(ws: Ws, port: int, agent: Option<Ws>)
    | Http(ws: Ws)

  // MAX_CONCURRENT_STREAMS, MAX_TUNNEL_CLIENTS, and three limits that 0 switches off.
  datatype Limits = Limits(maxStreams: nat, maxClients: nat, perAgentPort: nat, perAgent: nat,
                           perDirectPort: nat, allowedPorts: set<int>)

  // `owned` is _agentStreams, the two counts are the two _connCountByPort maps. `leaked`
  // remembers the streams the HTTP cleanup took out of the table without an onCleanup.
  datatype Table = Table(streams: map<int, Entry>, nextId: int, clients: set<Ws>,
                         owned: map<Ws, set<int>>, agentCount: map<int, nat>,
                         directCount: map<int, nat>, leaked: map<int, Entry>)

  const EMPTY := Table(map[], 1, {}, map[], map[], map[], map[])

  datatype Outcome = Refused | Opened(id: int)

  /** `get(port) || 0` */
  function CountOf(m: map<int, nat>, port: int): nat {
    if port in m then m[port] else 0
  }

  /** The decrement of onCleanup: `get(port) || 1`, then at least 0. */
  function Decrement(m: map<int, nat>, port: int): map<int, nat> {
    var c := if CountOf(m, port) != 0 then CountOf(m, port) else 1;
    m[port := if c - 1 > 0 then c - 1 else 0]
  }

  // ---------------------------------------------------------------------------
  // Operations
  // ---------------------------------------------------------------------------

  function AddStream(t: Table, id: int, entry: Entry): Table {
    t.(streams := t.streams[id := entry])
  }

  /** cleanupTcpStream with its onCleanup; cleanupStream for an HTTP stream. */
  function Release(t: Table, id: int): Table {
    if id !in t.streams then t else
    var entry := t.streams[id];
    var t1 := t.(streams := t.streams - {id});
    match entry
    case Http(_) => t1
    case Tcp(_, port, None) => t1.(directCount := Decrement(t.directCount, port))
    case Tcp(_, port, Some(w)) =>
      t1.(agentCount := Decrement(t.agentCount, port),
          owned := if w in t.owned then t.owned[w := t.owned[w] - {id}] else t.owned)
  }

  /** cleanupStream reached by a RES_* frame on a TCP stream: no onCleanup. */
  function Forget(t: Table, id: int): Table {
    if id !in t.streams || t.streams[id].Http? then t
    else t.(streams := t.streams - {id}, leaked := t.leaked[id := t.streams[id]])
  }

  predicate Admits(limit: nat, current: nat) {
    limit > 0 ==> current < limit
  }

  /** allocateStreamId on the table. */
  function NextFree(t: Table): Option<nat>
    requires IsId(t.nextId)
  {
    Scan(t.streams.Keys, t.nextId, 0)
  }

  /** The checks of _handleTcpConnect and createAgentStream, in order. */
  predicate AgentMayConnect(t: Table, lim: Limits, w: Ws, port: Option<int>, active: Option<Ws>)
    requires IsId(t.nextId) && w in t.owned
  {
    && port.Some? && port.value in lim.allowedPorts
    && Admits(lim.perAgentPort, CountOf(t.agentCount, port.value))
    && Admits(lim.perAgent, |t.owned[w]|)
    && active.Some?
    && |t.streams| < lim.maxStreams
    && NextFree(t).Some?
  }

  /** TCP_CONNECT from agent w, with the tunnel client getActiveClient picked. */
  function ConnectAgent(t: Table, lim: Limits, w: Ws, port: Option<int>, active: Option<Ws>): (Table, Outcome)
    requires IsId(t.nextId) && w in t.owned
  {
    if !AgentMayConnect(t, lim, w, port, active) then (t, Refused)
    else
      var k := NextFree(t).value;
      var id := After(t.nextId, k);
      var t1 := AddStream(t, id, Tcp(active.value, port.value, Some(w)));
      (t1.(nextId := After(t.nextId, k + 1),
           agentCount := t.agentCount[port.value := CountOf(t.agentCount, port.value) + 1],
           owned := t.owned[w := t.owned[w] + {id}]), Opened(id))
  }

  predicate DirectMayConnect(t: Table, lim: Limits, port: int, active: Option<Ws>)
    requires IsId(t.nextId)
  {
    && Admits(lim.perDirectPort, CountOf(t.directCount, port))
    && |t.streams| < lim.maxStreams
    && active.Some?
    && NextFree(t).Some?
  }

  /** A connection accepted on a tunneled port, its address already allowed. */
  function ConnectDirect(t: Table, lim: Limits, port: int, active: Option<Ws>): (Table, Outcome)
    requires IsId(t.nextId)
  {
    if !DirectMayConnect(t, lim, port, active) then (t, Refused)
    else
      var k := NextFree(t).value;
      var id := After(t.nextId, k);
      var t1 := AddStream(t, id, Tcp(active.value, port, None));
      (t1.(nextId := After(t.nextId, k + 1),
           directCount := t.directCount[port := CountOf(t.directCount, port) + 1]), Opened(id))
  }

  /** A proxied HTTP request. */
  function ConnectHttp(t: Table, lim: Limits, active: Option<Ws>): (Table, Outcome)
    requires IsId(t.nextId)
  {
    if |t.streams| >= lim.maxStreams || active.None? || NextFree(t).None? then (t, Refused)
    else
      var k := NextFree(t).value;
      var id := After(t.nextId, k);
      (AddStream(t, id, Http(active.value)).(nextId := After(t.nextId, k + 1)), Opened(id))
  }

  function AgentJoins(t: Table, w: Ws): Table {
    t.(owned := t.owned[w := {}])
  }

  function ClientJoins(t: Table, lim: Limits, w: Ws): Table {
    if |t.clients| >= lim.maxClients then t else t.(clients := t.clients + {w})
  }

  /** Release the streams of `ids` one after the other. */
  function ReleaseAll(t: Table, ids: seq<int>): Table {
    if ids == [] then t else Release(ReleaseAll(t, ids[..|ids| - 1]), ids[|ids| - 1])
  }

  /** cleanupAgent: the registration goes first, then the agent's streams, in some order. */
  function AgentLeaves(t: Table, w: Ws, order: seq<int>): Table {
    ReleaseAll(t.(owned := t.owned - {w}), order)
  }

  /** cleanupClient: the client goes first, then every stream it carried. */
  function ClientLeaves(t: Table, w: Ws, order: seq<int>): Table {
    ReleaseAll(t.(clients := t.clients - {w}), order)
  }

  // ---------------------------------------------------------------------------
  // The invariant
  // ---------------------------------------------------------------------------

  /** Which count a stream is booked under. */
  predicate BookedUnder(e: Entry, direct: bool, port: int) {
    e.Tcp? && e.agent.None? == direct && e.port == port
  }

  function OnPort(m: map<int, Entry>, direct: bool, port: int): set<int> {
    set id | id in m && BookedUnder(m[id], direct, port)
  }

  function CountMap(t: Table, direct: bool): map<int, nat> {
    if direct then t.directCount else t.agentCount
  }

  function OfAgent(m: map<int, Entry>, w: Ws): set<int> {
    set id | id in m && m[id].Tcp? && m[id].agent == Some(w)
  }

  /** Everything the counters have counted and not given back. */
  function Counted(t: Table): map<int, Entry> {
    t.streams + t.leaked
  }

  ghost predicate CountsOk(t: Table) {
    && (forall direct, p :: CountOf(CountMap(t, direct), p) == |OnPort(Counted(t), direct, p)|)
    && (forall w :: w in t.owned ==> t.owned[w] == OfAgent(Counted(t), w))
  }

  predicate KeysOk(t: Table) {
    && (forall id :: id in t.streams ==> IsId(id))
    && t.streams.Keys !! t.leaked.Keys
    && (forall id :: id in t.leaked ==> t.leaked[id].Tcp?)
  }

  /** Every stream's tunnel client and agent are registered, the excused streams aside. */
  predicate Registered(t: Table, excused: set<int>) {
    forall id :: id in t.streams && id !in excused ==>
      && t.streams[id].ws in t.clients
      && (t.streams[id].Tcp? && t.streams[id].agent.Some? ==> t.streams[id].agent.value in t.owned)
  }

  function PortLimit(lim: Limits, direct: bool): nat {
    if direct then lim.perDirectPort else lim.perAgentPort
  }

  predicate Within(limit: nat, current: nat) {
    limit > 0 ==> current <= limit
  }

  /** Agents have streams on allowed ports only. */
  predicate PortsOk(m: map<int, Entry>, allowed: set<int>) {
    forall id :: id in m && m[id].Tcp? && m[id].agent.Some? ==> m[id].port in allowed
  }

  ghost predicate LimitsOk(t: Table, lim: Limits) {
    && IsId(t.nextId) && |t.streams| <= lim.maxStreams && |t.clients| <= lim.maxClients
    && (forall direct, p :: Within(PortLimit(lim, direct), CountOf(CountMap(t, direct), p)))
    && (forall w :: w in t.owned ==> Within(lim.perAgent, |t.owned[w]|))
  }

  ghost predicate BooksOk(t: Table, lim: Limits) {
    CountsOk(t) && KeysOk(t) && LimitsOk(t, lim) && PortsOk(Counted(t), lim.allowedPorts)
  }

  ghost predicate TableInv(t: Table, lim: Limits) {
    BooksOk(t, lim) && Registered(t, {})
  }

  // ---------------------------------------------------------------------------
  // Counting
  // ---------------------------------------------------------------------------

  /** Taking a stream out lowers exactly its own port's count. */
  lemma OnPortRemove(m: map<int, Entry>, id: int, direct: bool, port: int)
    requires id in m
    ensures OnPort(m - {id}, direct, port) == OnPort(m, direct, port) - {id}
    ensures |OnPort(m - {id}, direct, port)| ==
            |OnPort(m, direct, port)| - if id in OnPort(m, direct, port) then 1 else 0
  {
    assert OnPort(m - {id}, direct, port) == OnPort(m, direct, port) - {id};
  }

  lemma OnPortSplit(m: map<int, Entry>, id: int, entry: Entry, direct: bool, port: int)
    requires id !in m
    ensures id !in OnPort(m, direct, port)
    ensures BookedUnder(entry, direct, port) ==> OnPort(m[id := entry], direct, port) == OnPort(m, direct, port) + {id}
    ensures !BookedUnder(entry, direct, port) ==> OnPort(m[id := entry], direct, port) == OnPort(m, direct, port)
  {
  }

  lemma OnPortAdd(m: map<int, Entry>, id: int, entry: Entry, direct: bool, port: int)
    requires id !in m
    ensures |OnPort(m[id := entry], direct, port)| ==
            |OnPort(m, direct, port)| + if BookedUnder(entry, direct, port) then 1 else 0
  {
    hide OnPort;
    OnPortSplit(m, id, entry, direct, port);
  }

  /** The saturation of the decrement never fires: a counted stream counts. */
  lemma DecrementExact(t: Table, id: int)
    requires CountsOk(t) && KeysOk(t) && id in t.streams && t.streams[id].Tcp?
    ensures var e := t.streams[id];
            var m := CountMap(t, e.agent.None?);
            CountOf(m, e.port) > 0 && Decrement(m, e.port) == m[e.port := CountOf(m, e.port) - 1]
  {
    var e := t.streams[id];
    assert id in OnPort(Counted(t), e.agent.None?, e.port);
  }

  lemma ReleaseCount(t: Table, id: int, direct: bool, p: int)
    requires CountsOk(t) && KeysOk(t) && id in t.streams
    ensures CountOf(CountMap(Release(t, id), direct), p) ==
            |OnPort(Counted(t), direct, p)| - if BookedUnder(t.streams[id], direct, p) then 1 else 0
  {
    if t.streams[id].Tcp? {
      DecrementExact(t, id);
    }
  }

  lemma ReleaseCounted(t: Table, id: int)
    requires KeysOk(t) && id in t.streams
    ensures Counted(Release(t, id)) == Counted(t) - {id}
  {
  }

  lemma ReleaseOwned(t: Table, id: int, w: Ws)
    requires CountsOk(t) && KeysOk(t) && id in t.streams && w in Release(t, id).owned
    ensures w in t.owned && Release(t, id).owned[w] == OfAgent(Counted(t) - {id}, w)
  {
    assert OfAgent(Counted(t) - {id}, w) == OfAgent(Counted(t), w) - {id};
  }

  lemma ReleaseCounts(t: Table, id: int)
    requires CountsOk(t) && KeysOk(t) && id in t.streams
    ensures CountsOk(Release(t, id))
  {
    var t1 := Release(t, id);
    ReleaseCounted(t, id);
    forall direct, p
      ensures CountOf(CountMap(t1, direct), p) == |OnPort(Counted(t1), direct, p)|
    {
      ReleaseCount(t, id, direct, p);
      OnPortRemove(Counted(t), id, direct, p);
    }
    forall w | w in t1.owned
      ensures t1.owned[w] == OfAgent(Counted(t1), w)
    {
      ReleaseOwned(t, id, w);
    }
  }

  lemma ReleaseOwnedSize(t: Table, id: int, w: Ws)
    requires w in Release(t, id).owned
    ensures w in t.owned && |Release(t, id).owned[w]| <= |t.owned[w]|
  {
    var less := t.owned[w] - {id};
    assert less <= t.owned[w];
    SubsetSize(less, t.owned[w]);
  }

  lemma ReleaseLimits(t: Table, lim: Limits, id: int)
    requires BooksOk(t, lim)
    ensures id in t.streams ==> LimitsOk(Release(t, id), lim)
  {
    if id !in t.streams {
      return;
    }
    var t1 := Release(t, id);
    ReleaseFrame(t, id);
    assert t1.streams.Keys == t.streams.Keys - {id};
    forall direct, p
      ensures Within(PortLimit(lim, direct), CountOf(CountMap(t1, direct), p))
    {
      assert Within(PortLimit(lim, direct), CountOf(CountMap(t, direct), p));
      ReleaseCount(t, id, direct, p);
    }
    forall w | w in t1.owned
      ensures Within(lim.perAgent, |t1.owned[w]|)
    {
      ReleaseOwnedSize(t, id, w);
    }
  }

  /** What releasing a stream leaves alone. */
  lemma ReleaseFrame(t: Table, id: int)
    ensures var t1 := Release(t, id);
            && t1.streams == t.streams - {id} && t1.owned.Keys == t.owned.Keys
            && t1.nextId == t.nextId && t1.clients == t.clients && t1.leaked == t.leaked
  {
  }

  /** Releasing one stream keeps the books. */
  lemma ReleaseKeeps(t: Table, lim: Limits, id: int, excused: set<int>)
    requires BooksOk(t, lim) && Registered(t, excused)
    ensures BooksOk(Release(t, id), lim) && Registered(Release(t, id), excused)
  {
    ReleaseFrame(t, id);
    if id in t.streams {
      ReleaseCounts(t, id);
      ReleaseLimits(t, lim, id);
      ReleaseCounted(t, id);
    }
  }

  /** What releasing many leaves alone. */
  lemma {:induction false} ReleaseAllFrame(t: Table, ids: seq<int>)
    ensures var t1 := ReleaseAll(t, ids);
            && t1.streams == t.streams - (set id | id in ids) && t1.owned.Keys == t.owned.Keys
            && t1.nextId == t.nextId && t1.clients == t.clients && t1.leaked == t.leaked
  {
    if ids != [] {
      var n := |ids| - 1;
      ReleaseAllFrame(t, ids[..n]);
      ReleaseFrame(ReleaseAll(t, ids[..n]), ids[n]);
      assert (set id | id in ids) == (set id | id in ids[..n]) + {ids[n]};
    }
  }

  lemma {:induction false} ReleaseAllKeeps(t: Table, lim: Limits, ids: seq<int>, excused: set<int>)
    requires BooksOk(t, lim) && Registered(t, excused)
    ensures BooksOk(ReleaseAll(t, ids), lim) && Registered(ReleaseAll(t, ids), excused)
  {
    if ids != [] {
      var n := |ids| - 1;
      ReleaseAllKeeps(t, lim, ids[..n], excused);
      ReleaseKeeps(ReleaseAll(t, ids[..n]), lim, ids[n], excused);
    }
  }

  lemma AgentUnregistered(t: Table, lim: Limits, w: Ws)
    requires TableInv(t, lim) && w in t.owned
    ensures var t1 := t.(owned := t.owned - {w}); BooksOk(t1, lim) && Registered(t1, t.owned[w])
  {
    var t1 := t.(owned := t.owned - {w});
    assert t.owned[w] == OfAgent(Counted(t), w);
    assert forall direct :: CountMap(t1, direct) == CountMap(t, direct);
    assert Counted(t1) == Counted(t);
  }

  /** An agent owns what is in the table under its name (and what leaked). */
  lemma OwnedInTable(t: Table, w: Ws)
    requires CountsOk(t) && KeysOk(t) && w in t.owned
    ensures t.streams - t.owned[w] == t.streams - OfAgent(t.streams, w)
  {
    assert t.owned[w] == OfAgent(Counted(t), w);
  }

  lemma NobodyExcused(t: Table, excused: set<int>)
    requires Registered(t, excused) && t.streams.Keys !! excused
    ensures Registered(t, {})
  {
  }

  /** cleanupAgent leaves no stream of that agent behind, and no other stream touched. */
  lemma AgentLeavesKeeps(t: Table, lim: Limits, w: Ws, order: seq<int>)
    requires TableInv(t, lim) && w in t.owned && (set id | id in order) == t.owned[w]
    ensures TableInv(AgentLeaves(t, w, order), lim)
    ensures AgentLeaves(t, w, order).streams == t.streams - OfAgent(t.streams, w)
    ensures AgentLeaves(t, w, order).owned.Keys == t.owned.Keys - {w}
  {
    var t1 := t.(owned := t.owned - {w});
    AgentUnregistered(t, lim, w);
    ReleaseAllKeeps(t1, lim, order, t.owned[w]);
    ReleaseAllFrame(t1, order);
    OwnedInTable(t, w);
    NobodyExcused(ReleaseAll(t1, order), t.owned[w]);
  }

  function OfClient(m: map<int, Entry>, w: Ws): set<int> {
    set id | id in m && m[id].ws == w
  }

  lemma ClientUnregistered(t: Table, lim: Limits, w: Ws)
    requires TableInv(t, lim)
    ensures var t1 := t.(clients := t.clients - {w}); BooksOk(t1, lim) && Registered(t1, OfClient(t.streams, w))
  {
    var t1 := t.(clients := t.clients - {w});
    assert forall direct :: CountMap(t1, direct) == CountMap(t, direct);
    assert Counted(t1) == Counted(t);
    SubsetSize(t1.clients, t.clients);
  }

  /** cleanupClient leaves no stream of that client behind, and no other stream touched. */
  lemma ClientLeavesKeeps(t: Table, lim: Limits, w: Ws, order: seq<int>)
    requires TableInv(t, lim) && (set id | id in order) == OfClient(t.streams, w)
    ensures TableInv(ClientLeaves(t, w, order), lim)
    ensures ClientLeaves(t, w, order).streams == t.streams - OfClient(t.streams, w)
    ensures ClientLeaves(t, w, order).clients == t.clients - {w}
  {
    var t1 := t.(clients := t.clients - {w});
    ClientUnregistered(t, lim, w);
    ReleaseAllKeeps(t1, lim, order, OfClient(t.streams, w));
    ReleaseAllFrame(t1, order);
    NobodyExcused(ReleaseAll(t1, order), OfClient(t.streams, w));
  }

  // ---------------------------------------------------------------------------
  // Opening, joining, forgetting
  // ---------------------------------------------------------------------------

  /** The next id is not one a leaked stream still holds in the books. */
  predicate IdFresh(t: Table)
    requires IsId(t.nextId)
  {
    NextFree(t).Some? ==> After(t.nextId, NextFree(t).value) !in t.leaked
  }

  /** From t to t1: one more stream in the table, booked under its port and its agent. */
  predicate BooksOneMore(t: Table, t1: Table, id: int, entry: Entry) {
    && t1.streams == t.streams[id := entry] && t1.leaked == t.leaked && t1.clients == t.clients
    && t1.owned == (if entry.Tcp? && entry.agent.Some? && entry.agent.value in t.owned
                    then t.owned[entry.agent.value := t.owned[entry.agent.value] + {id}] else t.owned)
    && t1.agentCount == (if entry.Tcp? && entry.agent.Some?
                         then t.agentCount[entry.port := CountOf(t.agentCount, entry.port) + 1] else t.agentCount)
    && t1.directCount == (if entry.Tcp? && entry.agent.None?
                          then t.directCount[entry.port := CountOf(t.directCount, entry.port) + 1] else t.directCount)
  }

  lemma OneMoreCount(t: Table, t1: Table, id: int, entry: Entry, direct: bool, p: int)
    requires BooksOneMore(t, t1, id, entry)
    ensures CountOf(CountMap(t1, direct), p) ==
            CountOf(CountMap(t, direct), p) + if BookedUnder(entry, direct, p) then 1 else 0
  {
  }

  lemma OneMoreOwned(t: Table, t1: Table, id: int, entry: Entry, w: Ws)
    requires CountsOk(t) && BooksOneMore(t, t1, id, entry) && w in t1.owned
    requires id !in t.streams && id !in t.leaked
    ensures t1.owned[w] == OfAgent(Counted(t)[id := entry], w)
  {
    var before, after := OfAgent(Counted(t), w), OfAgent(Counted(t)[id := entry], w);
    assert t.owned[w] == before;
    if entry.Tcp? && entry.agent == Some(w) {
      assert after == before + {id};
    } else {
      assert after == before;
    }
  }

  lemma OneMoreOnPort(t: Table, t1: Table, id: int, entry: Entry, direct: bool, p: int)
    requires BooksOneMore(t, t1, id, entry) && id !in t.streams && id !in t.leaked
    requires CountOf(CountMap(t, direct), p) == |OnPort(Counted(t), direct, p)|
    ensures CountOf(CountMap(t1, direct), p) == |OnPort(Counted(t)[id := entry], direct, p)|
  {
    OneMoreCount(t, t1, id, entry, direct, p);
    OnPortAdd(Counted(t), id, entry, direct, p);
  }

  lemma OneMoreCounts(t: Table, t1: Table, id: int, entry: Entry)
    requires CountsOk(t) && BooksOneMore(t, t1, id, entry) && id !in t.streams && id !in t.leaked
    ensures CountsOk(t1)
  {
    assert Counted(t1) == Counted(t)[id := entry];
    hide CountMap, CountOf, OnPort, OfAgent, Counted;
    forall direct, p
      ensures CountOf(CountMap(t1, direct), p) == |OnPort(Counted(t1), direct, p)|
    {
      OneMoreOnPort(t, t1, id, entry, direct, p);
    }
    forall w | w in t1.owned
      ensures t1.owned[w] == OfAgent(Counted(t1), w)
    {
      OneMoreOwned(t, t1, id, entry, w);
    }
  }

  lemma OneMoreKeys(t: Table, t1: Table, id: int, entry: Entry)
    requires KeysOk(t) && Registered(t, {}) && BooksOneMore(t, t1, id, entry)
    requires IsId(id) && id !in t.leaked && entry.ws in t.clients
    requires entry.Tcp? && entry.agent.Some? ==> entry.agent.value in t.owned
    ensures KeysOk(t1) && Registered(t1, {})
  {
  }

  /** The limit checks, as they were when the stream was admitted. */
  predicate AdmittedBy(t: Table, lim: Limits, entry: Entry) {
    && |t.streams| < lim.maxStreams
    && (entry.Tcp? && entry.agent.Some? ==> entry.port in lim.allowedPorts)
    && (entry.Tcp? ==> Admits(PortLimit(lim, entry.agent.None?), CountOf(CountMap(t, entry.agent.None?), entry.port)))
    && (entry.Tcp? && entry.agent.Some? && entry.agent.value in t.owned ==>
          Admits(lim.perAgent, |t.owned[entry.agent.value]|))
  }

  lemma OneMoreLimits(t: Table, t1: Table, lim: Limits, id: int, entry: Entry)
    requires LimitsOk(t, lim) && BooksOneMore(t, t1, id, entry) && AdmittedBy(t, lim, entry)
    requires id !in t.streams && IsId(t1.nextId)
    ensures LimitsOk(t1, lim)
  {
    assert t1.streams.Keys == t.streams.Keys + {id};
    forall direct, p
      ensures Within(PortLimit(lim, direct), CountOf(CountMap(t1, direct), p))
    {
      assert Within(PortLimit(lim, direct), CountOf(CountMap(t, direct), p));
      OneMoreCount(t, t1, id, entry, direct, p);
    }
    forall w | w in t1.owned
      ensures Within(lim.perAgent, |t1.owned[w]|)
    {
      OneMoreOwnedLimit(t, t1, lim, id, entry, w);
    }
  }

  lemma OneMoreOwnedLimit(t: Table, t1: Table, lim: Limits, id: int, entry: Entry, w: Ws)
    requires w in t1.owned && BooksOneMore(t, t1, id, entry) && AdmittedBy(t, lim, entry)
    requires w in t.owned ==> Within(lim.perAgent, |t.owned[w]|)
    ensures Within(lim.perAgent, |t1.owned[w]|)
  {
  }

  lemma OneMorePorts(t: Table, t1: Table, lim: Limits, id: int, entry: Entry)
    requires PortsOk(Counted(t), lim.allowedPorts) && BooksOneMore(t, t1, id, entry) && AdmittedBy(t, lim, entry)
    ensures PortsOk(Counted(t1), lim.allowedPorts)
  {
    hide AdmittedBy;
    EntryAllowed(t, lim, entry);
    forall i | i in Counted(t1) && Counted(t1)[i].Tcp? && Counted(t1)[i].agent.Some?
      ensures Counted(t1)[i].port in lim.allowedPorts
    {
      assert Counted(t1)[i] == entry || (i in Counted(t) && Counted(t1)[i] == Counted(t)[i]);
    }
  }

  lemma EntryAllowed(t: Table, lim: Limits, entry: Entry)
    requires AdmittedBy(t, lim, entry)
    ensures entry.Tcp? && entry.agent.Some? ==> entry.port in lim.allowedPorts
  {
  }

  lemma OneMoreKeeps(t: Table, t1: Table, lim: Limits, id: int, entry: Entry)
    requires TableInv(t, lim) && BooksOneMore(t, t1, id, entry) && AdmittedBy(t, lim, entry)
    requires IsId(id) && id !in t.streams && id !in t.leaked && entry.ws in t.clients && IsId(t1.nextId)
    requires entry.Tcp? && entry.agent.Some? ==> entry.agent.value in t.owned
    ensures TableInv(t1, lim)
  {
    hide CountsOk, Counted, OnPort, OfAgent, CountOf, CountMap;
    OneMoreCounts(t, t1, id, entry);
    OneMorePorts(t, t1, lim, id, entry);
    OneMoreKeys(t, t1, id, entry);
    OneMoreLimits(t, t1, lim, id, entry);
  }

  lemma ConnectAgentBooks(t: Table, lim: Limits, w: Ws, port: Option<int>, active: Option<Ws>)
    requires IsId(t.nextId) && w in t.owned && AgentMayConnect(t, lim, w, port, active)
    ensures var (t1, o) := ConnectAgent(t, lim, w, port, active);
            var entry := Tcp(active.value, port.value, Some(w));
            && o.Opened? && IsId(o.id) && o.id !in t.streams && IsId(t1.nextId)
            && o.id == After(t.nextId, NextFree(t).value)
            && BooksOneMore(t, t1, o.id, entry) && AdmittedBy(t, lim, entry)
  {
  }

  /** A connect that succeeds books exactly one more stream, within every limit. */
  lemma ConnectAgentKeeps(t: Table, lim: Limits, w: Ws, port: Option<int>, active: Option<Ws>)
    requires TableInv(t, lim) && w in t.owned && IdFresh(t) && (active.Some? ==> active.value in t.clients)
    ensures TableInv(ConnectAgent(t, lim, w, port, active).0, lim)
  {
    if AgentMayConnect(t, lim, w, port, active) {
      var (t1, o) := ConnectAgent(t, lim, w, port, active);
      ConnectAgentBooks(t, lim, w, port, active);
      OneMoreKeeps(t, t1, lim, o.id, Tcp(active.value, port.value, Some(w)));
    }
  }

  lemma ConnectDirectKeeps(t: Table, lim: Limits, port: int, active: Option<Ws>)
    requires TableInv(t, lim) && IdFresh(t) && (active.Some? ==> active.value in t.clients)
    ensures TableInv(ConnectDirect(t, lim, port, active).0, lim)
    ensures var (t1, o) := ConnectDirect(t, lim, port, active);
            && (o.Opened? <==> DirectMayConnect(t, lim, port, active))
            && (o.Opened? ==> o.id !in t.streams && BooksOneMore(t, t1, o.id, Tcp(active.value, port, None)))
  {
    hide TableInv, BooksOneMore, NextFree;
    InvIds(t, lim);
    if DirectMayConnect(t, lim, port, active) {
      var (t1, o) := ConnectDirect(t, lim, port, active);
      ConnectDirectBooks(t, lim, port, active);
      OneMoreKeeps(t, t1, lim, o.id, Tcp(active.value, port, None));
    }
  }

  lemma InvIds(t: Table, lim: Limits)
    requires TableInv(t, lim)
    ensures IsId(t.nextId)
  {
  }

  lemma ConnectDirectBooks(t: Table, lim: Limits, port: int, active: Option<Ws>)
    requires IsId(t.nextId) && IdFresh(t) && DirectMayConnect(t, lim, port, active)
    ensures var (t1, o) := ConnectDirect(t, lim, port, active);
            && o.Opened? && IsId(o.id) && o.id !in t.streams && o.id == After(t.nextId, NextFree(t).value)
            && BooksOneMore(t, t1, o.id, Tcp(active.value, port, None)) && IsId(t1.nextId)
  {
  }

  lemma ConnectHttpKeeps(t: Table, lim: Limits, active: Option<Ws>)
    requires TableInv(t, lim) && IdFresh(t) && (active.Some? ==> active.value in t.clients)
    ensures TableInv(ConnectHttp(t, lim, active).0, lim)
    ensures var (t1, o) := ConnectHttp(t, lim, active);
            o.Opened? ==> o.id !in t.streams && BooksOneMore(t, t1, o.id, Http(active.value))
  {
    var (t1, o) := ConnectHttp(t, lim, active);
    if o.Opened? {
      OneMoreKeeps(t, t1, lim, o.id, Http(active.value));
    }
  }

  lemma ForgetCounts(t: Table, id: int)
    requires CountsOk(t) && KeysOk(t) && id in t.streams && t.streams[id].Tcp?
    ensures CountsOk(Forget(t, id))
  {
    var t1 := Forget(t, id);
    assert Counted(t1) == Counted(t);
    forall direct, p
      ensures CountOf(CountMap(t1, direct), p) == |OnPort(Counted(t1), direct, p)|
    {
      assert CountMap(t1, direct) == CountMap(t, direct);
    }
  }

  lemma ForgetLimits(t: Table, lim: Limits, id: int)
    requires LimitsOk(t, lim) && id in t.streams
    ensures LimitsOk(Forget(t, id), lim)
  {
    var t1 := Forget(t, id);
    assert t.streams[id].Tcp? ==> t1.streams.Keys == t.streams.Keys - {id};
    forall direct, p
      ensures Within(PortLimit(lim, direct), CountOf(CountMap(t1, direct), p))
    {
      assert CountMap(t1, direct) == CountMap(t, direct);
    }
  }

  lemma ForgetKeys(t: Table, id: int)
    requires KeysOk(t) && Registered(t, {})
    ensures KeysOk(Forget(t, id)) && Registered(Forget(t, id), {})
  {
  }

  /** The HTTP cleanup of a TCP stream leaves its counts standing. */
  lemma ForgetKeeps(t: Table, lim: Limits, id: int)
    requires TableInv(t, lim)
    ensures TableInv(Forget(t, id), lim)
  {
    if id in t.streams && t.streams[id].Tcp? {
      hide Forget, CountsOk, LimitsOk, Counted;
      ForgetCounts(t, id);
      ForgetKeys(t, id);
      ForgetLimits(t, lim, id);
      ForgetCounted(t, id);
    }
  }

  lemma ForgetCounted(t: Table, id: int)
    requires KeysOk(t)
    ensures Counted(Forget(t, id)) == Counted(t)
  {
  }

  /** Two tables that differ in the registered parties only. */
  lemma SameBooks(t: Table, t1: Table, lim: Limits)
    requires TableInv(t, lim)
    requires t1 == t.(clients := t1.clients, owned := t1.owned)
    requires t.clients <= t1.clients && |t1.clients| <= lim.maxClients
    requires t.owned.Keys <= t1.owned.Keys
    requires forall w :: w in t1.owned ==> t1.owned[w] == OfAgent(Counted(t), w) && Within(lim.perAgent, |t1.owned[w]|)
    ensures TableInv(t1, lim)
  {
    assert Counted(t1) == Counted(t);
    forall direct, p
      ensures CountOf(CountMap(t1, direct), p) == |OnPort(Counted(t1), direct, p)|
      ensures Within(PortLimit(lim, direct), CountOf(CountMap(t1, direct), p))
    {
      assert CountMap(t1, direct) == CountMap(t, direct);
    }
  }

  lemma AgentJoinsKeeps(t: Table, lim: Limits, w: Ws)
    requires TableInv(t, lim) && OfAgent(Counted(t), w) == {}
    ensures TableInv(AgentJoins(t, w), lim)
  {
    forall v | v in AgentJoins(t, w).owned
      ensures AgentJoins(t, w).owned[v] == OfAgent(Counted(t), v)
    {
      assert v in t.owned ==> t.owned[v] == OfAgent(Counted(t), v);
    }
    SameBooks(t, AgentJoins(t, w), lim);
  }

  lemma ClientJoinsKeeps(t: Table, lim: Limits, w: Ws)
    requires TableInv(t, lim)
    ensures TableInv(ClientJoins(t, lim, w), lim)
  {
    SameBooks(t, ClientJoins(t, lim, w), lim);
  }

  /** The counters tell the truth about the live streams. */
  ghost predicate Exact(t: Table) {
    forall direct, p :: CountOf(CountMap(t, direct), p) == |OnPort(t.streams, direct, p)|
  }

  /** What a counter counts: the live streams, and those that left without an onCleanup. */
  lemma CountsAddUp(t: Table, direct: bool, p: int)
    requires CountsOk(t) && KeysOk(t)
    ensures CountOf(CountMap(t, direct), p) == |OnPort(t.streams, direct, p)| + |OnPort(t.leaked, direct, p)|
  {
    var live, gone := OnPort(t.streams, direct, p), OnPort(t.leaked, direct, p);
    assert OnPort(Counted(t), direct, p) == live + gone;
    assert live !! gone;
  }

  /** They do if and only if no stream has left that way. */
  lemma CountsExactIff(t: Table)
    requires CountsOk(t) && KeysOk(t)
    ensures Exact(t) <==> t.leaked == map[]
  {
    if t.leaked == map[] {
      forall direct, p
        ensures CountOf(CountMap(t, direct), p) == |OnPort(t.streams, direct, p)|
      {
        CountsAddUp(t, direct, p);
      }
    } else {
      var id := AnyKey(t.leaked);
      var direct, p := t.leaked[id].agent.None?, t.leaked[id].port;
      CountsAddUp(t, direct, p);
      assert id in OnPort(t.leaked, direct, p);
      assert CountOf(CountMap(t, direct), p) != |OnPort(t.streams, direct, p)|;
    }
  }

  /**
   The HTTP cleanup leaves right counters right if and only if its stream is no TCP stream in
   the table: the guard that cleanupStream does not have.
   */
  lemma ForgetExactIff(t: Table, id: int)
    requires CountsOk(t) && KeysOk(t) && Exact(t)
    ensures Exact(Forget(t, id)) <==> !(id in t.streams && t.streams[id].Tcp?)
  {
    if id in t.streams && t.streams[id].Tcp? {
      ForgetCounts(t, id);
      CountsExactIff(Forget(t, id));
      assert id in Forget(t, id).leaked;
    }
  }

  // ---------------------------------------------------------------------------
  // Who is admitted
  // ---------------------------------------------------------------------------

  /** A free id is found exactly when there is one. */
  lemma FreeIdFound(t: Table)
    requires IsId(t.nextId)
    ensures NextFree(t).Some? <==> exists id :: IsId(id) && id !in t.streams
  {
    ScanIsFirstFree(t.streams.Keys, t.nextId, t.nextId, 0);
  }

  /** The id given is the first free one from nextId on, and the search goes on after it. */
  ghost predicate GivesNextId(t: Table, booked: (Table, Outcome))
    requires IsId(t.nextId)
  {
    booked.1.Opened? ==>
      && (exists k :: FirstFree(t.streams.Keys, t.nextId, booked.1.id, k))
      && booked.0.nextId == if booked.1.id == MAX_ID then 1 else booked.1.id + 1
  }

  lemma IdFollows(t: Table)
    requires IsId(t.nextId)
    ensures NextFree(t).Some? ==>
      var k := NextFree(t).value;
      && FirstFree(t.streams.Keys, t.nextId, After(t.nextId, k), k)
      && After(t.nextId, k + 1) == if After(t.nextId, k) == MAX_ID then 1 else After(t.nextId, k) + 1
  {
    if NextFree(t).Some? {
      AfterStep(t.nextId, NextFree(t).value);
    }
  }

  /**
   An agent's connect opens a stream if and only if its port is allowed, fewer streams than the
   limit are booked under the port and under the agent, a tunnel client is there, and there is
   room and a free id. Refused, it changes nothing.
   */
  lemma AgentAdmission(t: Table, lim: Limits, w: Ws, port: Option<int>, active: Option<Ws>)
    requires TableInv(t, lim) && w in t.owned
    ensures ConnectAgent(t, lim, w, port, active).1.Opened? <==>
            && port.Some? && port.value in lim.allowedPorts
            && (lim.perAgentPort == 0 || |OnPort(Counted(t), false, port.value)| < lim.perAgentPort)
            && (lim.perAgent == 0 || |OfAgent(Counted(t), w)| < lim.perAgent)
            && active.Some? && |t.streams| < lim.maxStreams && exists id :: IsId(id) && id !in t.streams
    ensures ConnectAgent(t, lim, w, port, active).1.Refused? ==> ConnectAgent(t, lim, w, port, active).0 == t
    ensures GivesNextId(t, ConnectAgent(t, lim, w, port, active))
  {
    hide TableInv, NextFree, AgentMayConnect, OnPort, OfAgent, Counted, GivesNextId;
    WhatIsBooked(t, lim, w);
    FreeIdFound(t);
    AgentMay(t, lim, w, port, active);
    if port.Some? {
      PortBooked(t, lim, port.value);
    }
    AgentGets(t, lim, w, port, active);
  }

  lemma AgentGets(t: Table, lim: Limits, w: Ws, port: Option<int>, active: Option<Ws>)
    requires IsId(t.nextId) && w in t.owned
    ensures GivesNextId(t, ConnectAgent(t, lim, w, port, active))
  {
    hide NextFree;
    IdFollows(t);
  }

  lemma WhatIsBooked(t: Table, lim: Limits, w: Ws)
    requires TableInv(t, lim) && w in t.owned
    ensures IsId(t.nextId) && t.owned[w] == OfAgent(Counted(t), w)
  {
    hide OfAgent, Counted;
  }

  lemma PortBooked(t: Table, lim: Limits, p: int)
    requires TableInv(t, lim)
    ensures CountOf(t.agentCount, p) == |OnPort(Counted(t), false, p)|
  {
    hide OnPort, Counted;
    assert CountOf(CountMap(t, false), p) == |OnPort(Counted(t), false, p)|;
  }

  lemma AgentMay(t: Table, lim: Limits, w: Ws, port: Option<int>, active: Option<Ws>)
    requires IsId(t.nextId) && w in t.owned
    ensures AgentMayConnect(t, lim, w, port, active) <==>
            && port.Some? && port.value in lim.allowedPorts
            && (lim.perAgentPort == 0 || CountOf(t.agentCount, port.value) < lim.perAgentPort)
            && (lim.perAgent == 0 || |t.owned[w]| < lim.perAgent)
            && active.Some? && |t.streams| < lim.maxStreams && NextFree(t).Some?
  {
    hide NextFree;
  }

  /** A direct connection likewise; any tunneled port will do. */
  lemma DirectAdmission(t: Table, lim: Limits, port: int, active: Option<Ws>)
    requires TableInv(t, lim)
    ensures ConnectDirect(t, lim, port, active).1.Opened? <==>
            && (lim.perDirectPort == 0 || |OnPort(Counted(t), true, port)| < lim.perDirectPort)
            && active.Some? && |t.streams| < lim.maxStreams && exists id :: IsId(id) && id !in t.streams
    ensures ConnectDirect(t, lim, port, active).1.Refused? ==> ConnectDirect(t, lim, port, active).0 == t
    ensures GivesNextId(t, ConnectDirect(t, lim, port, active))
  {
    hide OnPort, NextFree;
    FreeIdFound(t);
    IdFollows(t);
    assert CountOf(CountMap(t, true), port) == |OnPort(Counted(t), true, port)|;
  }

  lemma HttpAdmission(t: Table, lim: Limits, active: Option<Ws>)
    requires IsId(t.nextId)
    ensures ConnectHttp(t, lim, active).1.Opened? <==>
            active.Some? && |t.streams| < lim.maxStreams && exists id :: IsId(id) && id !in t.streams
    ensures ConnectHttp(t, lim, active).1.Refused? ==> ConnectHttp(t, lim, active).0 == t
    ensures GivesNextId(t, ConnectHttp(t, lim, active))
  {
    FreeIdFound(t);
    IdFollows(t);
  }

  /** An agent that registers owns nothing yet, and no other agent notices. */
  lemma AgentRegisters(t: Table, w: Ws)
    ensures var t1 := AgentJoins(t, w);
            && w in t1.owned && t1.owned[w] == {}
            && forall v :: v != w ==> (v in t1.owned <==> v in t.owned) && (v in t.owned ==> t1.owned[v] == t.owned[v])
  {
  }

  /** A tunnel client is registered unless there are maxClients already. */
  lemma ClientAdmission(t: Table, lim: Limits, w: Ws)
    ensures w in ClientJoins(t, lim, w).clients <==> w in t.clients || |t.clients| < lim.maxClients
    ensures forall v :: v != w ==> (v in ClientJoins(t, lim, w).clients <==> v in t.clients)
  {
  }
}
