/**
 The whole relay: any number of agents, tunnel clients and streams. All streams of a
 WebSocket share its two channels; the server finds a frame's stream by looking its id up
 in the one stream table; a WebSocket that goes away takes its streams with it.
 */
module Relay {
  import opened Options
  import opened Protocol
  import opened Mux
  import opened ServerStream
  import opened ServerStreamProof
  import opened AgentStream
  import opened ClientStream
  import opened Lane
  import opened StreamIds
  import opened StreamTable

  datatype Dir = ToAgent | FromAgent | ToClient | FromClient

  // One direction of one WebSocket.
  datatype Wire = Wire(dir: Dir, ws: Ws)

  // Who a stream belongs to (agent None: a direct socket of the server).
  datatype Home = Home(client: Ws, agent: Option<Ws>, port: int)

  datatype Conn = Conn(home: Home, lane: Lane)

  // openS and openP: the WebSockets open at the server's end and at the peer's end.
  datatype Relay = Relay(conns: map<int, Conn>, chans: map<Wire, Chan>, openS: set<Ws>, openP: set<Ws>, table: Table)

  // The limits, and MAX_DEST_BUFFER_BYTES.
  datatype Config = Config(limits: Limits, cap: nat)

  const START := Relay(map[], map[], {}, {}, EMPTY)

  function LinksOf(r: Relay, h: Home): Links {
    Links(h.client in r.openS, h.client in r.openP,
          h.agent.Some? && h.agent.value in r.openS, h.agent.Some? && h.agent.value in r.openP)
  }

  /** The WebSocket that carries a stream's frames in one direction. */
  function Via(h: Home, dir: Dir): Option<Ws> {
    if dir.ToAgent? || dir.FromAgent? then h.agent else Some(h.client)
  }

  function LogOf(l: Lane, dir: Dir): seq<Msg> {
    match dir
    case ToAgent => l.s.log.toAgent
    case FromAgent => l.a.log.toServer
    case ToClient => l.s.log.toClient
    case FromClient => l.c.log.toServer
  }

  function GotOf(l: Lane, dir: Dir): nat {
    match dir
    case ToAgent => l.got.agent
    case FromAgent => l.got.fromAgent
    case ToClient => l.got.client
    case FromClient => l.got.fromClient
  }

  function ChanOf(chans: map<Wire, Chan>, wire: Wire): Chan {
    if wire in chans then chans[wire] else Chan([], 0)
  }

  // ---------------------------------------------------------------------------
  // One stream moves
  // ---------------------------------------------------------------------------

  /** What l' has sent beyond l. */
  function News(l: Lane, l': Lane, dir: Dir): seq<Msg> {
    if |LogOf(l, dir)| <= |LogOf(l', dir)| then LogOf(l', dir)[|LogOf(l, dir)|..] else []
  }

  function SendOn(chans: map<Wire, Chan>, id: int, h: Home, dir: Dir, ms: seq<Msg>): map<Wire, Chan> {
    if Via(h, dir).None? then chans
    else
      var wire := Wire(dir, Via(h, dir).value);
      var ch := ChanOf(chans, wire);
      chans[wire := ch.(sent := ch.sent + Tag(id, ms))]
  }

  function SendAll(chans: map<Wire, Chan>, id: int, h: Home, l: Lane, l': Lane): map<Wire, Chan> {
    var c1 := SendOn(chans, id, h, ToAgent, News(l, l', ToAgent));
    var c2 := SendOn(c1, id, h, FromAgent, News(l, l', FromAgent));
    var c3 := SendOn(c2, id, h, ToClient, News(l, l', ToClient));
    SendOn(c3, id, h, FromClient, News(l, l', FromClient))
  }

  /** A stream that has just been cleaned leaves the table: with its onCleanup, or without. */
  function Book(t: Table, id: int, before: Life, after: Life): Table {
    if before.cleaned || !after.cleaned then t
    else if after.leaked then Forget(t, id)
    else Release(t, id)
  }

  /** Stream id goes from its lane to l'; its new frames go out, and the books follow. */
  function Advance(r: Relay, id: int, l': Lane): Relay
    requires id in r.conns
  {
    var c := r.conns[id];
    r.(conns := r.conns[id := c.(lane := l')],
       chans := SendAll(r.chans, id, c.home, c.lane, l'),
       table := Book(r.table, id, c.lane.s.life, l'.s.life))
  }

  // ---------------------------------------------------------------------------
  // Receiving a frame
  // ---------------------------------------------------------------------------

  /** TcpAgentServer._handleFrame: a frame of agent w, its stream looked up in the table. */
  function HearAgent(t: Table, w: Ws, id: int, s: Stream, m: Msg, e: Env): Stream {
    if id !in t.streams || t.streams[id].Http? || t.streams[id].agent.None? then ReplyNotFound(s, m, e)
    else if t.streams[id].agent != Some(w) then s
    else OnAgentFrame(s, m, e)
  }

  /** StreamManager.handleClientFrame: a frame of tunnel client w. */
  function HearClient(t: Table, w: Ws, id: int, s: Stream, m: Msg, e: Env, o: WriteOutcome): Stream {
    if id !in t.streams || t.streams[id].ws != w then s else OnClientFrame(s, m, e, o)
  }

  /** The lane of stream id after message m arrives for it over `wire`. */
  function Hear(r: Relay, wire: Wire, id: int, m: Msg, ok: bool, o: WriteOutcome, p: Pressure): Lane
    requires id in r.conns
  {
    var l := r.conns[id].lane;
    var e := EnvOf(l.up, p);
    match wire.dir
    case ToAgent =>
      l.(a := AgentTakes(l.a, m, ok, l.up.agentP, o), got := l.got.(agent := l.got.agent + 1))
    case FromAgent =>
      l.(s := HearAgent(r.table, wire.ws, id, l.s, m, e), got := l.got.(fromAgent := l.got.fromAgent + 1))
    case ToClient =>
      l.(c := ClientTakes(l.c, m, ok, l.up.clientP, o), got := l.got.(client := l.got.client + 1))
    case FromClient =>
      l.(s := HearClient(r.table, wire.ws, id, l.s, m, e, o), got := l.got.(fromClient := l.got.fromClient + 1))
  }

  predicate CanDeliver(r: Relay, wire: Wire) {
    var ch := ChanOf(r.chans, wire);
    ch.got < |ch.sent|
  }

  /** The frame a channel delivers next. */
  function Head(r: Relay, wire: Wire): Frame
    requires CanDeliver(r, wire)
  {
    ChanOf(r.chans, wire).sent[ChanOf(r.chans, wire).got]
  }

  function Pop(r: Relay, wire: Wire): Relay {
    var ch := ChanOf(r.chans, wire);
    r.(chans := r.chans[wire := ch.(got := ch.got + 1)])
  }

  function Deliver(r: Relay, wire: Wire, ok: bool, o: WriteOutcome, p: Pressure): Relay
    requires CanDeliver(r, wire)
  {
    var ch := ChanOf(r.chans, wire);
    var f := ch.sent[ch.got];
    if f.id !in r.conns then Pop(r, wire)
    else Advance(Pop(r, wire), f.id, Hear(r, wire, f.id, f.msg, ok, o, p))
  }

  // ---------------------------------------------------------------------------
  // Streams come, WebSockets come and go
  // ---------------------------------------------------------------------------

  /** A stream just created: its TCP_OPEN goes to the client. */
  function AddConn(r: Relay, id: int, h: Home, cap: nat): Relay {
    var l := NewLane(h.agent.Some?, cap, LinksOf(r, h));
    r.(conns := r.conns[id := Conn(h, l)], chans := SendOn(r.chans, id, h, ToClient, [Open]))
  }

  function OpenConn(r: Relay, booked: (Table, Outcome), h: Home, cap: nat): Relay {
    match booked.1
    case Refused => r
    case Opened(id) => AddConn(r, id, h, cap).(table := booked.0)
  }

  function LeaveLane(r: Relay, c: Conn): Conn {
    c.(lane := c.lane.(up := LinksOf(r, c.home)))
  }

  /** Some WebSocket ends leave OPEN. */
  function LeaveOpenAll(r: Relay, openS: set<Ws>, openP: set<Ws>): Relay {
    var r1 := r.(openS := openS, openP := openP);
    r1.(conns := map id | id in r.conns :: LeaveLane(r1, r.conns[id]))
  }

  function ServerDoes(r: Relay, id: int, sev: ServerEvent, p: Pressure): Relay {
    if id !in r.conns then r.(table := Release(r.table, id))
    else Advance(r, id, Step(r.conns[id].lane, AtServer(sev), p))
  }

  /** The loop of cleanupAgent or cleanupClient. */
  function AbortAll(r: Relay, order: seq<int>, sev: ServerEvent, p: Pressure): Relay {
    if order == [] then r
    else ServerDoes(AbortAll(r, order[..|order| - 1], sev, p), order[|order| - 1], sev, p)
  }

  /** A new WebSocket, open at both ends. */
  function Joins(r: Relay, w: Ws, t1: Table): Relay {
    r.(table := t1, openS := r.openS + {w}, openP := r.openP + {w})
  }

  datatype RelayEvent =
    | Local(id: int, ev: Event, p: Pressure)                         // at one party, for one stream
    | Arrives(wire: Wire, ok: bool, o: WriteOutcome, p: Pressure)    // the next frame of a channel
    | AgentConnects(w: Ws, asked: Option<int>, active: Option<Ws>)   // TCP_CONNECT
    | PortAccepts(port: int, active: Option<Ws>)                        // a connection on a tunneled port
    | Requested(active: Option<Ws>)                                  // a proxied HTTP request
    | HttpDone(id: int)
    | AgentRegisters(w: Ws)
    | ClientRegisters(w: Ws)
    | EndsLeaveOpen(openS: set<Ws>, openP: set<Ws>)
    | AgentGone(w: Ws, order: seq<int>, p: Pressure)                 // 'close' of an agent's WebSocket
    | ClientGone(w: Ws, order: seq<int>, p: Pressure)                // 'close' of a client's WebSocket

  predicate IsLocal(ev: Event) {
    ev.AtServer? || ev.AtAgent? || ev.AtClient?
  }

  /** A WebSocket no stream has used: a new connection is a new WebSocket. */
  predicate NewWs(r: Relay, w: Ws) {
    forall id :: id in r.conns ==> r.conns[id].home.client != w && r.conns[id].home.agent != Some(w)
  }

  /** The tunnel client picked is registered; the id counter has not wrapped. */
  predicate CanOpen(r: Relay, active: Option<Ws>) {
    r.table.nextId < MAX_ID && (active.Some? ==> active.value in r.table.clients)
  }

  predicate Possible(r: Relay, ev: RelayEvent) {
    match ev
    case Local(id, lev, _) => id in r.conns && IsLocal(lev)
    case Arrives(wire, _, _, _) => CanDeliver(r, wire)
    case AgentConnects(w, _, active) => CanOpen(r, active) && w in r.table.owned
    case PortAccepts(_, active) => CanOpen(r, active)
    case Requested(active) => CanOpen(r, active)
    case HttpDone(id) => id in r.table.streams && r.table.streams[id].Http?
    case AgentRegisters(w) => NewWs(r, w)
    case ClientRegisters(w) => NewWs(r, w)
    case EndsLeaveOpen(openS, openP) => openS <= r.openS && openP <= r.openP
    case AgentGone(w, order, _) => w in r.table.owned && (set id | id in order) == r.table.owned[w]
    case ClientGone(w, order, _) => (set id | id in order) == OfClient(r.table.streams, w)
  }

  function Next(r: Relay, ev: RelayEvent, cfg: Config): Relay
    requires Possible(r, ev) && IsId(r.table.nextId)
  {
    match ev
    case Local(id, lev, p) => Advance(r, id, Step(r.conns[id].lane, lev, p))
    case Arrives(wire, ok, o, p) => Deliver(r, wire, ok, o, p)
    case AgentConnects(w, asked, active) =>
      var booked := ConnectAgent(r.table, cfg.limits, w, asked, active);
      OpenConn(r, booked, Home(Or(active, 0), Some(w), Or(asked, 0)), cfg.cap)
    case PortAccepts(port, active) =>
      var booked := ConnectDirect(r.table, cfg.limits, port, active);
      OpenConn(r, booked, Home(Or(active, 0), None, port), cfg.cap)
    case Requested(active) => r.(table := ConnectHttp(r.table, cfg.limits, active).0)
    case HttpDone(id) => r.(table := Release(r.table, id))
    case AgentRegisters(w) => Joins(r, w, AgentJoins(r.table, w))
    case ClientRegisters(w) => Joins(r, w, ClientJoins(r.table, cfg.limits, w))
    case EndsLeaveOpen(openS, openP) => LeaveOpenAll(r, openS, openP)
    case AgentGone(w, order, p) =>
      AbortAll(r.(table := r.table.(owned := r.table.owned - {w})), order, AbortWithNotice, p)
    case ClientGone(w, order, p) =>
      AbortAll(r.(table := r.table.(clients := r.table.clients - {w})), order, AbortQuietly, p)
  }

  function Or<T>(o: Option<T>, default: T): T {
    if o.Some? then o.value else default
  }

  // ---------------------------------------------------------------------------
  // The invariant
  // ---------------------------------------------------------------------------

  /** What stream id has sent over `wire`. */
  function SentOver(c: Conn, wire: Wire): seq<Msg> {
    if Via(c.home, wire.dir) == Some(wire.ws) then LogOf(c.lane, wire.dir) else []
  }

  function GotOver(c: Conn, wire: Wire): nat {
    if Via(c.home, wire.dir) == Some(wire.ws) then GotOf(c.lane, wire.dir) else 0
  }

  /** A channel shows of a stream exactly what the stream sent over it. */
  predicate Wrote(ch: Chan, id: int, log: seq<Msg>) {
    Filter(id, ch.sent) == log
  }

  /** And has delivered of it exactly what the stream has received. */
  predicate Read(ch: Chan, id: int, got: nat) {
    ch.got <= |ch.sent| && |Filter(id, ch.sent[..ch.got])| == got
  }

  /** Only streams that exist are on the wires. */
  predicate Known(r: Relay, wire: Wire) {
    var ch := ChanOf(r.chans, wire);
    ch.got <= |ch.sent| && forall i :: 0 <= i < |ch.sent| ==> ch.sent[i].id in r.conns
  }

  predicate LaneOk(r: Relay, id: int)
    requires id in r.conns
  {
    var c := r.conns[id];
    LaneInv(c.lane) && c.lane.up == LinksOf(r, c.home) && c.lane.s.sock.virtual == c.home.agent.Some?
  }

  function EntryOf(h: Home): Entry {
    Tcp(h.client, h.port, h.agent)
  }

  /** In the table while not cleaned; in the leaked books if the HTTP cleanup took it. */
  predicate Booked(t: Table, id: int, c: Conn) {
    && id < t.nextId
    && (id in t.streams <==> !c.lane.s.life.cleaned)
    && (id in t.streams ==> t.streams[id] == EntryOf(c.home))
    && (id in t.leaked <==> c.lane.s.life.leaked)
    && (id in t.leaked ==> t.leaked[id] == EntryOf(c.home))
  }

  /** What is in the books and is no TCP stream of ours is an HTTP stream. */
  predicate Foreign(r: Relay, id: int) {
    && (id in r.table.streams && id !in r.conns ==> r.table.streams[id].Http? && id < r.table.nextId)
    && (id in r.table.leaked ==> id in r.conns)
  }

  ghost predicate AllWrote(r: Relay) {
    forall id, wire :: id in r.conns ==> Wrote(ChanOf(r.chans, wire), id, SentOver(r.conns[id], wire))
  }

  ghost predicate AllRead(r: Relay) {
    forall id, wire :: id in r.conns ==> Read(ChanOf(r.chans, wire), id, GotOver(r.conns[id], wire))
  }

  ghost predicate AllKnown(r: Relay) {
    forall wire :: Known(r, wire)
  }

  ghost predicate AllLanes(r: Relay) {
    forall id :: id in r.conns ==> LaneOk(r, id)
  }

  ghost predicate AllBooked(r: Relay) {
    (forall id :: id in r.conns ==> Booked(r.table, id, r.conns[id])) && (forall id :: Foreign(r, id))
  }

  ghost predicate Core(r: Relay) {
    AllWrote(r) && AllRead(r) && AllKnown(r) && AllLanes(r) && AllBooked(r)
  }

  ghost predicate RelayInv(r: Relay, cfg: Config) {
    Core(r) && TableInv(r.table, cfg.limits)
  }
}
