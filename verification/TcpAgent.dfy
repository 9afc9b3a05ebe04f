/**
 The agent as a whole (serve/tcp-agent.js): which local socket waits for which connect, which
 is bound to which stream, and when the agent reports itself ready. What one bound stream
 then does is AgentStream.
 */
module TcpAgent {
  import opened Options

  type Socket = nat      // identity of a local socket
  type Port = int

  datatype Pending = Pending(socket: Socket, port: Port)

  // pendingConnects and streamedSockets; `bound`, every (stream id, socket) ever paired;
  // `seen`, every local socket ever accepted.
  datatype Sockets = Sockets(pending: seq<Pending>, streamed: map<int, Socket>, bound: seq<(int, Socket)>,
                             seen: set<Socket>)

  // `session`: between the WebSocket's 'open' and 'close' events; `open`: readyState is OPEN.
  datatype Gate = Gate(ready: bool, readyFile: bool, listening: set<Port>, open: bool, session: bool,
                       shuttingDown: bool)

  datatype Agent = Agent(requested: set<Port>, s: Sockets, g: Gate)

  function NewAgent(requested: set<Port>): Agent {
    Agent(requested, Sockets([], map[], [], {}), Gate(false, false, {}, false, false, false))
  }

  datatype Event =
    | LocalConnection(socket: Socket, port: Port, sent: bool)
    | SocketGone(socket: Socket)                     // 'error' or 'close' of a local socket
    | ConnectAck(id: int, named: Option<Port>, alive: bool)
    | ConnectReject(named: Option<Port>)
    | StreamOver(id: int)                            // by a frame of the server or a failed write
    | Opened                                         // 'open' of the WebSocket
    | Closing                                        // it leaves readyState OPEN
    | Closed                                         // 'close'
    | Listening(port: Port)
    | ListenerError(port: Port)
    | ListenerClosed(port: Port)
    | Shutdown

  // ---------------------------------------------------------------------------
  // Handlers
  // ---------------------------------------------------------------------------

  /** findIndex by port: how many entries stand before the first of that port. */
  function IndexOfPort(q: seq<Pending>, port: Port): (i: nat)
    ensures i <= |q| && (forall j :: 0 <= j < i ==> q[j].port != port) && (i < |q| ==> q[i].port == port)
  {
    if q == [] then 0 else if q[0].port == port then 0 else 1 + IndexOfPort(q[1..], port)
  }

  function IndexOfSocket(q: seq<Pending>, socket: Socket): (i: nat)
    ensures i <= |q| && (forall j :: 0 <= j < i ==> q[j].socket != socket) && (i < |q| ==> q[i].socket == socket)
  {
    if q == [] then 0 else if q[0].socket == socket then 0 else 1 + IndexOfSocket(q[1..], socket)
  }

  /** splice(i, 1) */
  function Splice(q: seq<Pending>, i: nat): seq<Pending> {
    if i < |q| then q[..i] + q[i + 1..] else q
  }

  function RemovePending(s: Sockets, socket: Socket): Sockets {
    s.(pending := Splice(s.pending, IndexOfSocket(s.pending, socket)))
  }

  function Unbind(m: map<int, Socket>, socket: Socket): map<int, Socket> {
    map id | id in m && m[id] != socket :: m[id]
  }

  function CleanupAll(s: Sockets): Sockets {
    s.(pending := [], streamed := map[])
  }

  function Connect(s: Sockets, open: bool, socket: Socket, port: Port, sent: bool): Sockets {
    var s0 := s.(seen := s.seen + {socket});
    if !open then s0
    else
      var s1 := s0.(pending := s.pending + [Pending(socket, port)]);
      if sent then s1 else RemovePending(s1, socket)
  }

  /** handleConnectAck and registerStream. */
  function Ack(s: Sockets, id: int, port: Port, alive: bool): Sockets {
    var i := IndexOfPort(s.pending, port);
    if i == |s.pending| then s
    else
      var socket := s.pending[i].socket;
      var s1 := s.(pending := Splice(s.pending, i));
      if alive then s1.(streamed := s.streamed[id := socket], bound := s.bound + [(id, socket)]) else s1
  }

  function Reject(s: Sockets, port: Port): Sockets {
    s.(pending := Splice(s.pending, IndexOfPort(s.pending, port)))
  }

  function MarkReady(a: Agent): Gate {
    if a.g.ready || a.g.shuttingDown then a.g
    else if !a.g.open || !(a.requested <= a.g.listening) then a.g
    else a.g.(ready := true, readyFile := true)
  }

  function ClearReady(g: Gate): Gate {
    g.(ready := false, readyFile := false)
  }

  function ShutDown(a: Agent): Agent {
    if a.g.shuttingDown then a
    else a.(s := CleanupAll(a.s), g := ClearReady(a.g).(shuttingDown := true))
  }

  function Step(a: Agent, ev: Event): Agent {
    match ev
    case LocalConnection(socket, port, sent) => a.(s := Connect(a.s, a.g.open, socket, port, sent))
    case SocketGone(socket) =>
      a.(s := RemovePending(a.s, socket).(streamed := Unbind(a.s.streamed, socket)))
    case ConnectAck(id, port, alive) => if port.None? then a else a.(s := Ack(a.s, id, port.value, alive))
    case ConnectReject(port) => if port.None? then a else a.(s := Reject(a.s, port.value))
    case StreamOver(id) => a.(s := a.s.(streamed := a.s.streamed - {id}))
    case Opened => var a1 := a.(g := a.g.(open := true, session := true)); a1.(g := MarkReady(a1))
    case Closing => a.(g := a.g.(open := false))
    case Closed => a.(s := CleanupAll(a.s), g := ClearReady(a.g).(open := false, session := false))
    case Listening(port) => var a1 := a.(g := a.g.(listening := a.g.listening + {port})); a1.(g := MarkReady(a1))
    case ListenerError(_) => if a.g.ready then a.(g := ClearReady(a.g)) else ShutDown(a.(g := ClearReady(a.g)))
    case ListenerClosed(port) => a.(g := ClearReady(a.g.(listening := a.g.listening - {port})))
    case Shutdown => ShutDown(a)
  }

  /** A new connection is a new socket. */
  predicate Possible(a: Agent, ev: Event) {
    ev.LocalConnection? ==> ev.socket !in a.s.seen
  }

  // ---------------------------------------------------------------------------
  // Pairing
  // ---------------------------------------------------------------------------

  predicate PendingOk(s: Sockets) {
    && (forall i, j :: 0 <= i < j < |s.pending| ==> s.pending[i].socket != s.pending[j].socket)
    && (forall i :: 0 <= i < |s.pending| ==> s.pending[i].socket in s.seen)
  }

  /** No socket was ever bound twice, and none that waits was ever bound. */
  predicate BoundOk(s: Sockets) {
    && (forall i, j :: 0 <= i < j < |s.bound| ==> s.bound[i].1 != s.bound[j].1)
    && (forall i :: 0 <= i < |s.bound| ==> s.bound[i].1 in s.seen)
    && (forall i, j :: 0 <= i < |s.bound| && 0 <= j < |s.pending| ==> s.bound[i].1 != s.pending[j].socket)
  }

  predicate StreamedOk(s: Sockets) {
    forall id :: id in s.streamed ==> (id, s.streamed[id]) in s.bound
  }

  predicate PairingInv(s: Sockets) {
    PendingOk(s) && BoundOk(s) && StreamedOk(s)
  }

  /** Taking one entry out of the queue. */
  lemma SpliceKeeps(s: Sockets, i: nat)
    requires PairingInv(s)
    ensures PairingInv(s.(pending := Splice(s.pending, i)))
  {
  }

  lemma ConnectKeeps(s: Sockets, open: bool, socket: Socket, port: Port, sent: bool)
    requires PairingInv(s) && socket !in s.seen
    ensures PairingInv(Connect(s, open, socket, port, sent))
  {
    if open {
      var s1 := s.(seen := s.seen + {socket}, pending := s.pending + [Pending(socket, port)]);
      assert PairingInv(s1);
      SpliceKeeps(s1, IndexOfSocket(s1.pending, socket));
    }
  }

  /** The acknowledgement takes the oldest waiting socket of its port, and only that. */
  lemma AckTakesOldest(s: Sockets, id: int, port: Port, alive: bool)
    requires PairingInv(s)
    ensures var t := Ack(s, id, port, alive);
            && PairingInv(t)
            && ((forall i :: 0 <= i < |s.pending| ==> s.pending[i].port != port) ==> t == s)
            && (forall i :: 0 <= i < |s.pending| && s.pending[i].port == port
                            && (forall j :: 0 <= j < i ==> s.pending[j].port != port) ==>
                  && t.pending == s.pending[..i] + s.pending[i + 1..]
                  && t.streamed == if alive then s.streamed[id := s.pending[i].socket] else s.streamed)
  {
    var i := IndexOfPort(s.pending, port);
    if i < |s.pending| {
      SpliceKeeps(s, i);
    }
  }

  lemma UnbindKeeps(s: Sockets, socket: Socket)
    requires PairingInv(s)
    ensures PairingInv(s.(streamed := Unbind(s.streamed, socket)))
  {
  }

  lemma PairingKeeps(a: Agent, ev: Event)
    requires PairingInv(a.s) && Possible(a, ev)
    ensures PairingInv(Step(a, ev).s)
  {
    match ev
    case LocalConnection(socket, port, sent) => ConnectKeeps(a.s, a.g.open, socket, port, sent);
    case SocketGone(socket) =>
      SpliceKeeps(a.s, IndexOfSocket(a.s.pending, socket));
      UnbindKeeps(RemovePending(a.s, socket), socket);
    case ConnectAck(id, port, alive) => if port.Some? { AckTakesOldest(a.s, id, port.value, alive); }
    case ConnectReject(port) => if port.Some? { SpliceKeeps(a.s, IndexOfPort(a.s.pending, port.value)); }
    case _ =>
  }

  /** Each local socket waits, or is bound, or neither; and is bound to one stream only. */
  lemma OnePlaceEach(s: Sockets, socket: Socket)
    requires PairingInv(s)
    ensures !((exists i :: 0 <= i < |s.pending| && s.pending[i].socket == socket)
              && (exists id :: id in s.streamed && s.streamed[id] == socket))
    ensures forall id, id' :: (id, socket) in s.bound && (id', socket) in s.bound ==> id == id'
    ensures forall id, id' :: id in s.streamed && id' in s.streamed && s.streamed[id] == s.streamed[id'] ==> id == id'
  {
    forall id | id in s.streamed
      ensures (id, s.streamed[id]) in s.bound
    {
    }
  }

  /** A connection is queued if its TCP_CONNECT goes out, and else forgotten. */
  lemma ConnectQueues(a: Agent, socket: Socket, port: Port, sent: bool)
    requires PairingInv(a.s) && socket !in a.s.seen
    ensures var t := Step(a, LocalConnection(socket, port, sent)).s;
            && t.pending == (if a.g.open && sent then a.s.pending + [Pending(socket, port)] else a.s.pending)
            && t.streamed == a.s.streamed
  {
    if a.g.open && !sent {
      var q := a.s.pending + [Pending(socket, port)];
      assert q[|a.s.pending|].socket == socket;
      assert forall j :: 0 <= j < |a.s.pending| ==> q[j] == a.s.pending[j] && q[j].socket in a.s.seen;
      assert IndexOfSocket(q, socket) == |a.s.pending|;
      assert q[..|a.s.pending|] == a.s.pending;
    }
  }

  /** A reject that names a port drops the oldest socket waiting on it, and only that. */
  lemma RejectDropsOldest(a: Agent, port: Port, i: nat)
    requires i < |a.s.pending| && a.s.pending[i].port == port
    requires forall j :: 0 <= j < i ==> a.s.pending[j].port != port
    ensures Step(a, ConnectReject(Some(port))).s == a.s.(pending := a.s.pending[..i] + a.s.pending[i + 1..])
  {
  }

  /** A socket that goes is nowhere afterwards; everything else stays as it was, in order. */
  lemma GoneIsForgotten(a: Agent, socket: Socket)
    requires PairingInv(a.s)
    ensures var t := Step(a, SocketGone(socket)).s;
            && (forall i :: 0 <= i < |t.pending| ==> t.pending[i].socket != socket)
            && (forall id :: id in t.streamed <==> id in a.s.streamed && a.s.streamed[id] != socket)
            && (forall id :: id in t.streamed ==> t.streamed[id] == a.s.streamed[id])
            && (forall i :: 0 <= i < |a.s.pending| && a.s.pending[i].socket == socket ==>
                  t.pending == a.s.pending[..i] + a.s.pending[i + 1..])
            && ((forall i :: 0 <= i < |a.s.pending| ==> a.s.pending[i].socket != socket) ==> t.pending == a.s.pending)
  {
    hide PairingInv, Splice, IndexOfSocket, Unbind;
    OneEach(a.s);
    GoneFromQueue(a.s.pending, socket);
    UnbindIs(a.s.streamed, socket);
  }

  lemma OneEach(s: Sockets)
    requires PairingInv(s)
    ensures forall i, j :: 0 <= i < j < |s.pending| ==> s.pending[i].socket != s.pending[j].socket
  {
  }

  lemma UnbindIs(m: map<int, Socket>, socket: Socket)
    ensures forall id :: id in Unbind(m, socket) <==> id in m && m[id] != socket
    ensures forall id :: id in Unbind(m, socket) ==> Unbind(m, socket)[id] == m[id]
  {
  }

  lemma GoneFromQueue(q: seq<Pending>, socket: Socket)
    requires forall i, j :: 0 <= i < j < |q| ==> q[i].socket != q[j].socket
    ensures var r := Splice(q, IndexOfSocket(q, socket));
            && (forall i :: 0 <= i < |r| ==> r[i].socket != socket)
            && (forall i :: 0 <= i < |q| && q[i].socket == socket ==> r == q[..i] + q[i + 1..])
            && ((forall i :: 0 <= i < |q| ==> q[i].socket != socket) ==> r == q)
  {
    var k := IndexOfSocket(q, socket);
    var r := Splice(q, k);
    forall i | 0 <= i < |r|
      ensures r[i].socket != socket
    {
      assert r[i] == q[if i < k then i else i + 1];
    }
  }

  /** A stream that is over frees its id; the end of the session, or of the agent, drops everything. */
  lemma OverIsDropped(a: Agent, ev: Event)
    ensures ev.StreamOver? ==> Step(a, ev).s == a.s.(streamed := a.s.streamed - {ev.id})
    ensures ev.Closed? || (!a.g.shuttingDown && (ev.Shutdown? || (ev.ListenerError? && !a.g.ready))) ==>
              Step(a, ev).s.pending == [] && Step(a, ev).s.streamed == map[]
    ensures ev.Opened? || ev.Closing? || ev.Listening? || ev.ListenerClosed? || (ev.ListenerError? && a.g.ready) ==>
              Step(a, ev).s == a.s
    ensures ev.Shutdown? && a.g.shuttingDown ==> Step(a, ev) == a
  {
  }

  /** An acknowledgement binds the oldest socket that waits on its port to the stream, if it still lives. */
  lemma AckBindsOldest(a: Agent, id: int, port: Port, alive: bool, i: nat)
    requires PairingInv(a.s) && i < |a.s.pending| && a.s.pending[i].port == port
    requires forall j :: 0 <= j < i ==> a.s.pending[j].port != port
    ensures var t := Step(a, ConnectAck(id, Some(port), alive));
            && t.g == a.g
            && t.s.pending == a.s.pending[..i] + a.s.pending[i + 1..]
            && t.s.streamed == if alive then a.s.streamed[id := a.s.pending[i].socket] else a.s.streamed
  {
    hide Ack, PairingInv;
    AckTakesOldest(a.s, id, port, alive);
  }

  /** An answer that names no port, or a port nobody waits on, does nothing. */
  lemma AnswerToNobody(a: Agent, id: int, port: Option<Port>, alive: bool)
    requires port.None? || forall i :: 0 <= i < |a.s.pending| ==> a.s.pending[i].port != port.value
    ensures Step(a, ConnectAck(id, port, alive)) == a && Step(a, ConnectReject(port)) == a
  {
  }

  // ---------------------------------------------------------------------------
  // Readiness
  // ---------------------------------------------------------------------------

  predicate GateInv(a: Agent) {
    && (a.g.open ==> a.g.session)
    && (a.g.ready ==> a.g.session && a.requested <= a.g.listening && !a.g.shuttingDown)
    && a.g.readyFile == a.g.ready
  }

  lemma GateKeeps(a: Agent, ev: Event)
    requires GateInv(a)
    ensures GateInv(Step(a, ev)) && Step(a, ev).requested == a.requested
  {
  }

  /** Whether the agent is ready after an event, told from the session, the listeners and the shutdown. */
  lemma ReadyWhen(a: Agent, ev: Event)
    requires GateInv(a)
    ensures var (g, t) := (a.g, Step(a, ev).g);
            && (t.ready <==> match ev
                case Opened => g.ready || (!g.shuttingDown && a.requested <= g.listening)
                case Listening(p) => g.ready || (!g.shuttingDown && g.open && a.requested <= g.listening + {p})
                case Closed => false
                case ListenerError(_) => false
                case ListenerClosed(_) => false
                case Shutdown => false
                case _ => g.ready)
            && t.open == (if ev.Opened? then true else if ev.Closing? || ev.Closed? then false else g.open)
            && t.listening == (if ev.Listening? then g.listening + {ev.port}
                               else if ev.ListenerClosed? then g.listening - {ev.port} else g.listening)
            && t.session == (if ev.Opened? then true else if ev.Closed? then false else g.session)
            && t.shuttingDown == (g.shuttingDown || ev.Shutdown? || (ev.ListenerError? && !g.ready))
  {
  }

  // ---------------------------------------------------------------------------
  // Every run
  // ---------------------------------------------------------------------------

  predicate CanRun(a: Agent, evs: seq<Event>)
    decreases |evs|
  {
    evs == [] || (Possible(a, evs[0]) && CanRun(Step(a, evs[0]), evs[1..]))
  }

  function Run(a: Agent, evs: seq<Event>): Agent
    requires CanRun(a, evs)
    decreases |evs|
  {
    if evs == [] then a else Run(Step(a, evs[0]), evs[1..])
  }

  lemma {:induction false} RunKeeps(a: Agent, evs: seq<Event>)
    requires PairingInv(a.s) && GateInv(a) && CanRun(a, evs)
    ensures PairingInv(Run(a, evs).s) && GateInv(Run(a, evs)) && Run(a, evs).requested == a.requested
    decreases |evs|
  {
    hide PairingInv, GateInv, Step, Possible;
    if evs != [] {
      PairingKeeps(a, evs[0]);
      GateKeeps(a, evs[0]);
      RunKeeps(Step(a, evs[0]), evs[1..]);
    }
  }

  /**
   After any run: no socket is in two places or bound to two streams; the ready file exists
   exactly when the agent is ready; and ready means that the WebSocket is between its 'open'
   and 'close' events, every requested port is listening and no shutdown has begun.
   */
  lemma EveryRun(requested: set<Port>, evs: seq<Event>, socket: Socket)
    requires CanRun(NewAgent(requested), evs)
    ensures var a := Run(NewAgent(requested), evs);
            && !((exists i :: 0 <= i < |a.s.pending| && a.s.pending[i].socket == socket)
                 && (exists id :: id in a.s.streamed && a.s.streamed[id] == socket))
            && (forall id, id' :: (id, socket) in a.s.bound && (id', socket) in a.s.bound ==> id == id')
            && a.g.readyFile == a.g.ready
            && (a.g.ready ==> a.g.session && requested <= a.g.listening && !a.g.shuttingDown)
  {
    RunKeeps(NewAgent(requested), evs);
    OnePlaceEach(Run(NewAgent(requested), evs).s, socket);
  }

  /** Nothing of the agent ends: no listener fails, no session closes, no shutdown. */
  predicate Upward(evs: seq<Event>) {
    forall i :: 0 <= i < |evs| ==>
      !evs[i].Closing? && !evs[i].Closed? && !evs[i].ListenerError? && !evs[i].ListenerClosed? && !evs[i].Shutdown?
  }

  function Listened(evs: seq<Event>): set<Port> {
    set i | 0 <= i < |evs| && evs[i].Listening? :: evs[i].port
  }

  lemma {:induction false} UpwardRun(a: Agent, evs: seq<Event>)
    requires GateInv(a) && CanRun(a, evs) && Upward(evs) && !a.g.shuttingDown
    requires a.g.ready <==> a.g.open && a.requested <= a.g.listening
    ensures var t := Run(a, evs);
            && (t.g.ready <==> (a.g.open || Opened in evs) && a.requested <= a.g.listening + Listened(evs))
    decreases |evs|
  {
    hide Step, GateInv, Possible;
    if evs == [] {
      assert a.g.listening + Listened(evs) == a.g.listening;
    } else {
      var a1 := Step(a, evs[0]);
      GateKeeps(a, evs[0]);
      ReadyWhen(a, evs[0]);
      ReadyOpen(a, evs[0]);
      assert Upward(evs[1..]);
      UpwardRun(a1, evs[1..]);
      assert evs == [evs[0]] + evs[1..];
      ListenedFirst(evs);
    }
  }

  lemma ListenedFirst(evs: seq<Event>)
    requires evs != []
    ensures Listened(evs) == (if evs[0].Listening? then {evs[0].port} else {}) + Listened(evs[1..])
  {
    forall p
      ensures p in Listened(evs) <==> p in (if evs[0].Listening? then {evs[0].port} else {}) + Listened(evs[1..])
    {
      if p in Listened(evs) {
        var i :| 0 <= i < |evs| && evs[i].Listening? && evs[i].port == p;
        assert i > 0 ==> evs[1..][i - 1] == evs[i];
      }
      if p in Listened(evs[1..]) {
        var i :| 0 <= i < |evs[1..]| && evs[1..][i].Listening? && evs[1..][i].port == p;
        assert evs[i + 1] == evs[1..][i];
      }
    }
  }

  lemma ReadyOpen(a: Agent, ev: Event)
    ensures Step(a, ev).requested == a.requested
  {
  }

  /**
   While nothing ends, the agent is ready, and its ready file there, exactly once the WebSocket
   has opened and every requested port has begun to listen, in whatever order.
   */
  lemma BecomesReady(requested: set<Port>, evs: seq<Event>)
    requires CanRun(NewAgent(requested), evs) && Upward(evs)
    ensures var a := Run(NewAgent(requested), evs);
            && (a.g.ready <==> Opened in evs && requested <= Listened(evs)) && a.g.readyFile == a.g.ready
  {
    RunKeeps(NewAgent(requested), evs);
    UpwardRun(NewAgent(requested), evs);
    assert {} + Listened(evs) == Listened(evs);
  }

  // ---------------------------------------------------------------------------
  // The code
  // ---------------------------------------------------------------------------

  class AgentProcess {
    const requestedPorts: set<Port>
    var pendingConnects: seq<Pending>
    var streamedSockets: map<int, Socket>
    var listeningPorts: set<Port>
    var ready: bool
    var readyFile: bool
    var wsOpen: bool
    var shuttingDown: bool
    ghost var session: bool
    ghost var bound: seq<(int, Socket)>
    ghost var seen: set<Socket>

    ghost function State(): Agent
      reads this
    {
      Agent(requestedPorts, Sockets(pendingConnects, streamedSockets, bound, seen),
            Gate(ready, readyFile, listeningPorts, wsOpen, session, shuttingDown))
    }

    constructor (ports: set<Port>)
      ensures State() == NewAgent(ports)
    {
      requestedPorts := ports;
      pendingConnects, streamedSockets, listeningPorts := [], map[], {};
      ready, readyFile, wsOpen, shuttingDown, session := false, false, false, false, false;
      bound, seen := [], {};
    }

    // pendingConnects.findIndex by port
    method FindPort(port: Port) returns (idx: nat)
      ensures idx == IndexOfPort(pendingConnects, port)
    {
      idx := 0;
      while idx < |pendingConnects| && pendingConnects[idx].port != port
        invariant idx <= |pendingConnects| && forall j :: 0 <= j < idx ==> pendingConnects[j].port != port
      {
        idx := idx + 1;
      }
    }

    // removePending
    method RemovePendingSocket(socket: Socket)
      modifies this`pendingConnects
      ensures State() == old(State()).(s := RemovePending(old(State()).s, socket))
    {
      var idx := 0;
      while idx < |pendingConnects| && pendingConnects[idx].socket != socket
        invariant idx <= |pendingConnects| && forall j :: 0 <= j < idx ==> pendingConnects[j].socket != socket
      {
        idx := idx + 1;
      }
      if idx < |pendingConnects| {
        pendingConnects := pendingConnects[..idx] + pendingConnects[idx + 1..];
      }
    }

    // The connection listener of createLocalListener
    method OnConnection(socket: Socket, port: Port, sent: bool)
      modifies this`pendingConnects, this`seen
      ensures State() == Step(old(State()), LocalConnection(socket, port, sent))
    {
      seen := seen + {socket};
      if !wsOpen {
        return;
      }
      pendingConnects := pendingConnects + [Pending(socket, port)];
      if !sent {
        RemovePendingSocket(socket);
      }
    }

    // handleConnectAck, with registerStream
    method HandleConnectAck(id: int, port: Option<Port>, alive: bool)
      modifies this`pendingConnects, this`streamedSockets, this`bound
      ensures State() == Step(old(State()), ConnectAck(id, port, alive))
    {
      if port.None? {
        return;
      }
      var idx := FindPort(port.value);
      if idx == |pendingConnects| {
        return;
      }
      var entry := pendingConnects[idx];
      pendingConnects := pendingConnects[..idx] + pendingConnects[idx + 1..];
      if alive {
        streamedSockets := streamedSockets[id := entry.socket];
        bound := bound + [(id, entry.socket)];
      }
    }

    // handleConnectReject
    method HandleConnectReject(port: Option<Port>)
      modifies this`pendingConnects
      ensures State() == Step(old(State()), ConnectReject(port))
    {
      if port.None? {
        return;
      }
      var idx := FindPort(port.value);
      if idx < |pendingConnects| {
        pendingConnects := pendingConnects[..idx] + pendingConnects[idx + 1..];
      }
    }

    // markReadyIfEligible
    method MarkReadyIfEligible()
      modifies this`ready, this`readyFile
      ensures State() == old(State()).(g := MarkReady(old(State())))
    {
      if ready || shuttingDown {
        return;
      }
      if !wsOpen || !(requestedPorts <= listeningPorts) {
        return;
      }
      ready := true;
      readyFile := true;
    }

    // clearReady
    method Unready()
      modifies this`ready, this`readyFile
      ensures State() == old(State()).(g := ClearReady(old(State()).g))
    {
      ready := false;
      readyFile := false;
    }

    // cleanupAll
    method DropAll()
      modifies this`pendingConnects, this`streamedSockets
      ensures State() == old(State()).(s := CleanupAll(old(State()).s))
    {
      pendingConnects := [];
      streamedSockets := map[];
    }

    // shutdown
    method BeginShutdown()
      modifies this
      ensures State() == ShutDown(old(State()))
    {
      if shuttingDown {
        return;
      }
      shuttingDown := true;
      Unready();
      DropAll();
    }

    // 'open' and 'close' of the WebSocket
    method OnOpen()
      modifies this
      ensures State() == Step(old(State()), Opened)
    {
      wsOpen, session := true, true;
      MarkReadyIfEligible();
    }

    method OnClose()
      modifies this
      ensures State() == Step(old(State()), Closed)
    {
      wsOpen, session := false, false;
      Unready();
      DropAll();
    }

    // 'listening', 'error' and 'close' of a listener
    method OnListening(port: Port)
      modifies this
      ensures State() == Step(old(State()), Listening(port))
    {
      listeningPorts := listeningPorts + {port};
      MarkReadyIfEligible();
    }

    method OnListenerError(port: Port)
      modifies this
      ensures State() == Step(old(State()), ListenerError(port))
    {
      if !ready {
        Unready();
        BeginShutdown();
      } else {
        Unready();
      }
    }

    method OnListenerClosed(port: Port)
      modifies this
      ensures State() == Step(old(State()), ListenerClosed(port))
    {
      listeningPorts := listeningPorts - {port};
      Unready();
    }
  }
}
