/**
 One stream across the three parties. A lane has the stream's state at the agent, the
 server and the tunnel client; each party's log of sent frames doubles as the FIFO channel
 to its peer, with a count of the frames the peer has received. Every event of every party
 is one atomic step, and all bytes, flags, goodbyes and acknowledgements of the stream are
 accounted for in one inductive invariant.
 */
module Lane {
  import opened Protocol
  import opened ServerStream
  import opened ServerStreamProof
  import opened AgentStream
  import opened ClientStream

  // readyState == OPEN of the two WebSockets, at the server (S) and at the peer (P).
  datatype Links = Links(clientS: bool, clientP: bool, agentS: bool, agentP: bool)

  // Frames received so far: by the agent, by the server from the agent, by the client, by
  // the server from the client.
  datatype Got = Got(agent: nat, fromAgent: nat, client: nat, fromClient: nat)

  datatype Lane = Lane(s: Stream, a: AgentEnd, c: ClientEnd, up: Links, got: Got)

  datatype Event =
    // A party receives the next frame of its channel.
    | ServerGetsFromClient(w: WriteOutcome)
    | ServerGetsFromAgent
    | AgentGets(paired: bool, w: WriteOutcome)
    | ClientGets(admitted: bool, w: WriteOutcome)
    // Anything else that happens at a party.
    | AtServer(sev: ServerEvent)
    | AtAgent(aev: AgentEvent)
    | AtClient(cev: ClientEvent)
    // A WebSocket end leaves OPEN, for good.
    | LeaveOpen(links: Links)

  // After which frame each outbound buffer is above the high-water mark.
  datatype Pressure = Pressure(client: set<nat>, agent: set<nat>, local: set<nat>, service: set<nat>)

  function EnvOf(up: Links, p: Pressure): Env {
    Env(up.clientS, up.agentS, p.client, p.agent)
  }

  function NewLane(virtual: bool, cap: nat, up: Links): Lane {
    Lane(NewStream(virtual, cap), NEW_AGENT_END, NEW_CLIENT_END, up, Got(0, 0, 0, 0))
  }

  /** Fewer ends are open than before. */
  predicate Leaves(before: Links, after: Links) {
    && (after.clientS ==> before.clientS) && (after.clientP ==> before.clientP)
    && (after.agentS ==> before.agentS) && (after.agentP ==> before.agentP)
  }

  predicate Enabled(l: Lane, ev: Event) {
    match ev
    case ServerGetsFromClient(_) => l.got.fromClient < |l.c.log.toServer|
    case ServerGetsFromAgent => l.got.fromAgent < |l.a.log.toServer|
    case AgentGets(_, _) => l.got.agent < |l.s.log.toAgent|
    case ClientGets(_, _) => l.got.client < |l.s.log.toClient|
    case LeaveOpen(links) => Leaves(l.up, links)
    case _ => true
  }

  function ServerGets(s: Stream, m: Msg, e: Env): Stream {
    if s.life.cleaned then ReplyNotFound(s, m, e) else OnAgentFrame(s, m, e)
  }

  function AgentTakes(a: AgentEnd, m: Msg, paired: bool, open: bool, w: WriteOutcome): AgentEnd {
    if m.ConnectAck? then OnAck(a, paired) else OnServerFrame(a, m, open, w)
  }

  function ClientTakes(c: ClientEnd, m: Msg, admitted: bool, open: bool, w: WriteOutcome): ClientEnd {
    if m.Open? then OnOpen(c, admitted, open) else OnFrame(c, m, open, w)
  }

  function Step(l: Lane, ev: Event, p: Pressure): Lane
    requires Enabled(l, ev)
  {
    var e := EnvOf(l.up, p);
    match ev
    case ServerGetsFromClient(w) =>
      l.(s := OnClientFrame(l.s, l.c.log.toServer[l.got.fromClient], e, w),
         got := l.got.(fromClient := l.got.fromClient + 1))
    case ServerGetsFromAgent =>
      l.(s := ServerGets(l.s, l.a.log.toServer[l.got.fromAgent], e),
         got := l.got.(fromAgent := l.got.fromAgent + 1))
    case AgentGets(paired, w) =>
      l.(a := AgentTakes(l.a, l.s.log.toAgent[l.got.agent], paired, l.up.agentP, w),
         got := l.got.(agent := l.got.agent + 1))
    case ClientGets(admitted, w) =>
      l.(c := ClientTakes(l.c, l.s.log.toClient[l.got.client], admitted, l.up.clientP, w),
         got := l.got.(client := l.got.client + 1))
    case AtServer(sev) => l.(s := ServerEventStep(l.s, sev, e))
    case AtAgent(aev) => l.(a := AgentEventStep(l.a, aev, l.up.agentP, p.local))
    case AtClient(cev) => l.(c := ClientEventStep(l.c, cev, l.up.clientP, p.service))
    case LeaveOpen(links) => l.(up := links)
  }

  // ---------------------------------------------------------------------------
  // The invariant
  // ---------------------------------------------------------------------------

  predicate InRange(l: Lane) {
    && l.got.agent <= |l.s.log.toAgent| && l.got.fromAgent <= |l.a.log.toServer|
    && l.got.client <= |l.s.log.toClient| && l.got.fromClient <= |l.c.log.toServer|
  }

  // What each party has received so far.
  function AtAgent(l: Lane): seq<Msg> requires InRange(l) { l.s.log.toAgent[..l.got.agent] }
  function FromAgent(l: Lane): seq<Msg> requires InRange(l) { l.a.log.toServer[..l.got.fromAgent] }
  function AtClient(l: Lane): seq<Msg> requires InRange(l) { l.s.log.toClient[..l.got.client] }
  function FromClient(l: Lane): seq<Msg> requires InRange(l) { l.c.log.toServer[..l.got.fromClient] }

  /** The chunks the socket's side of the server has been offered. */
  function Offered(l: Lane): seq<Bytes>
    requires InRange(l)
  {
    if l.s.sock.virtual then Chunks(FromAgent(l)) else l.s.log.extIn
  }

  const CALM := Pressure({}, {}, {}, {})

  predicate EndsInv(l: Lane) {
    Inv(l.s, EnvOf(l.up, CALM)) && AgentInv(l.a, l.up.agentP) && ClientInv(l.c, l.up.clientP)
  }

  /** What a tunnel client's end has become, having received q. */
  predicate ClientTook(c: ClientEnd, q: seq<Msg>) {
    && c.log.written <= Chunks(q)
    && (Live(c) && !c.flow.socketGone ==> c.log.written == Chunks(q))
    && (c.phase.Unopened? ==> q == [])
    && (Live(c) ==> c.flow.peerPausedRead == Fold(false, q))
  }

  /** What an agent's end has become, having received q. */
  predicate AgentTook(a: AgentEnd, q: seq<Msg>) {
    && a.log.written <= Chunks(q)
    && (a.phase.Bound? ==> a.log.written == Chunks(q))
    && (!a.phase.Unbound? ==> ConnectAck in q)
  }

  /** Agent (or direct socket) to service: nothing lost, doubled, reordered or foreign. */
  predicate UpInv(l: Lane)
    requires InRange(l)
  {
    && Chunks(l.s.log.toClient) <= Offered(l)
    && (Alive(l.s) ==> Taken(l.s) == Offered(l))
    && ClientTook(l.c, AtClient(l))
  }

  /** Service to agent (or direct socket). */
  predicate DownInv(l: Lane)
    requires InRange(l)
  {
    && Delivered(l.s) <= Chunks(FromClient(l))
    && (Alive(l.s) && (l.s.sock.virtual ==> l.up.agentS) ==> Delivered(l.s) == Chunks(FromClient(l)))
    && AgentTook(l.a, AtAgent(l))
  }

  /** Each receiver's pause flag is the fold of the frames it has received. */
  predicate FlagInv(l: Lane)
    requires InRange(l)
  {
    && (!l.s.life.cleaned ==> l.s.flow.peerPausedRead == Fold(false, FromClient(l)))
    && (!l.s.life.cleaned ==> l.s.flow.agentPaused == Fold(false, FromAgent(l)))
  }

  /** The deferred acknowledgement. */
  predicate AckInv(l: Lane)
    requires InRange(l)
  {
    && (Count(ConnectAck, l.s.log.toAgent) > 0 ==> OpenAck in FromClient(l))
    && (l.s.life.awaitingAck && !l.s.life.cleaned ==> OpenAck !in FromClient(l))
  }

  /** Only a RES_DATA, RES_END or RES_ABORT takes a stream from the table without its onCleanup. */
  predicate LeakInv(l: Lane)
    requires InRange(l)
  {
    l.s.life.leaked ==> ResBody in FromClient(l)
  }

  predicate LaneInv(l: Lane) {
    InRange(l) && EndsInv(l) && UpInv(l) && DownInv(l) && FlagInv(l) && AckInv(l) && LeakInv(l)
  }

  // ---------------------------------------------------------------------------
  // Receiving one frame, sending some
  // ---------------------------------------------------------------------------

  /** What one more received frame changes in the received prefix. */
  lemma TakeOne(q: seq<Msg>, n: nat)
    requires n < |q|
    ensures q[..n + 1] == q[..n] + [q[n]]
    ensures Chunks(q[..n + 1]) == Chunks(q[..n]) + Payload(q[n])
    ensures Fold(false, q[..n + 1]) == Fold(Fold(false, q[..n]), [q[n]])
  {
    assert q[..n + 1] == q[..n] + [q[n]];
    Push(q[..n], q[n]);
    FoldConcat(false, q[..n], [q[n]]);
  }

  /** A history that grows keeps its received prefix. */
  lemma PrefixKept(p: seq<Msg>, q: seq<Msg>, n: nat)
    requires p <= q && n <= |p|
    ensures q[..n] == p[..n]
  {
  }

  /** The server may say whatever it likes to a lane, as long as nothing moved. */
  lemma ServerQuiet(l: Lane, t: Stream)
    requires LaneInv(l) && Quietly(l.s, t, []) && Inv(t, EnvOf(l.up, CALM))
    ensures LaneInv(l.(s := t))
  {
    PrefixKept(l.s.log.toClient, t.log.toClient, l.got.client);
    PrefixKept(l.s.log.toAgent, t.log.toAgent, l.got.agent);
    assert Taken(l.s) + [] == Taken(l.s);
  }

  /** What the tunnel client's next frame can be, given the acknowledgement discipline. */
  lemma NextFromClient(l: Lane)
    requires LaneInv(l) && l.got.fromClient < |l.c.log.toServer|
    ensures var m := l.c.log.toServer[l.got.fromClient];
            m.Data? && !l.s.life.cleaned ==> !l.s.life.awaitingAck
  {
    DataAfterPrefix(OpenAck, l.c.log.toServer, l.got.fromClient);
  }

  lemma ServerGetsFromClientProof(l: Lane, w: WriteOutcome, p: Pressure)
    requires LaneInv(l) && Enabled(l, ServerGetsFromClient(w))
    ensures LaneInv(Step(l, ServerGetsFromClient(w), p))
  {
    hide Inv, AgentInv, ClientInv, Moves, Hands, SameDelivery, ClientSettings, OnClientFrame;
    var m := l.c.log.toServer[l.got.fromClient];
    var e := EnvOf(l.up, p);
    if l.s.life.cleaned {
      GoneFromTable(l, e, w);
    } else {
      NextFromClient(l);
      InvAnyPressure(l.s, EnvOf(l.up, CALM), e);
      OnClientFrameProof(l.s, m, e, w);
      var t := OnClientFrame(l.s, m, e, w);
      InvAnyPressure(t, e, EnvOf(l.up, CALM));
      HandsAnyPressure(l.s, t, m, e, EnvOf(l.up, CALM));
      FromClientUp(l, t);
      FromClientDown(l, t, m);
      FromClientSettings(l, t, m);
    }
  }

  /** A frame for a stream that left the table is dropped. */
  lemma GoneFromTable(l: Lane, e: Env, w: WriteOutcome)
    requires LaneInv(l) && l.got.fromClient < |l.c.log.toServer| && l.s.life.cleaned
    ensures var m := l.c.log.toServer[l.got.fromClient];
            LaneInv(l.(s := OnClientFrame(l.s, m, e, w), got := l.got.(fromClient := l.got.fromClient + 1)))
  {
    TakeOne(l.c.log.toServer, l.got.fromClient);
  }

  lemma HandsAnyPressure(s: Stream, t: Stream, m: Msg, e: Env, e': Env)
    requires if m.Data? then Hands(s, t, m.chunk, e) else SameDelivery(s, t)
    requires e'.agentOpen == e.agentOpen
    ensures if m.Data? then Hands(s, t, m.chunk, e') else SameDelivery(s, t)
    ensures t.log.extIn == s.log.extIn
  {
  }

  /** A frame of the client moves no byte of the upward direction. */
  lemma FromClientUp(l: Lane, t: Stream)
    requires InRange(l) && UpInv(l) && l.got.fromClient < |l.c.log.toServer|
    requires Moves(l.s, t, []) && t.log.extIn == l.s.log.extIn
    ensures var l' := l.(s := t, got := l.got.(fromClient := l.got.fromClient + 1));
            InRange(l') && UpInv(l')
  {
    PrefixKept(l.s.log.toClient, t.log.toClient, l.got.client);
    assert Taken(l.s) + [] == Taken(l.s);
  }

  /** It hands over exactly its payload. */
  lemma FromClientDown(l: Lane, t: Stream, m: Msg)
    requires InRange(l) && DownInv(l) && l.got.fromClient < |l.c.log.toServer|
    requires m == l.c.log.toServer[l.got.fromClient] && Moves(l.s, t, []) && !l.s.life.cleaned
    requires if m.Data? then Hands(l.s, t, m.chunk, EnvOf(l.up, CALM)) else SameDelivery(l.s, t)
    ensures var l' := l.(s := t, got := l.got.(fromClient := l.got.fromClient + 1));
            InRange(l') && DownInv(l')
  {
    TakeOne(l.c.log.toServer, l.got.fromClient);
    PrefixKept(l.s.log.toAgent, t.log.toAgent, l.got.agent);
  }

  /** The flags and the acknowledgement. */
  lemma FromClientSettings(l: Lane, t: Stream, m: Msg)
    requires LaneInv(l) && !l.s.life.cleaned && l.got.fromClient < |l.c.log.toServer|
    requires m == l.c.log.toServer[l.got.fromClient]
    requires Moves(l.s, t, []) && ClientSettings(l.s, t, m)
    ensures var l' := l.(s := t, got := l.got.(fromClient := l.got.fromClient + 1));
            InRange(l') && FlagInv(l') && AckInv(l') && LeakInv(l')
  {
    TakeOne(l.c.log.toServer, l.got.fromClient);
    PrefixKept(l.s.log.toClient, t.log.toClient, l.got.client);
    PrefixKept(l.s.log.toAgent, t.log.toAgent, l.got.agent);
  }

  /** An agent that speaks has been acknowledged. */
  lemma AgentSpeaksAcknowledged(l: Lane)
    requires LaneInv(l) && l.a.log.toServer != []
    ensures l.s.sock.virtual && !l.s.life.awaitingAck
  {
    assert !l.a.phase.Unbound?;
    assert ConnectAck in l.s.log.toAgent;
  }

  /** The server's stream after a frame of the agent, still in the table or not. */
  lemma ServerGetsMoves(s: Stream, m: Msg, e: Env)
    requires Inv(s, e) && s.sock.virtual && !s.life.awaitingAck
    ensures var t := ServerGets(s, m, e); Inv(t, e) && MovesByAgent(s, t, m)
  {
    hide Inv, OnAgentFrame, ReplyNotFound;
    if s.life.cleaned {
      ReplyNotFoundProof(s, m, e);
      DeadOffer(s, ReplyNotFound(s, m, e), Payload(m));
    } else {
      OnAgentFrameProof(s, m, e);
    }
  }

  predicate MovesByAgent(s: Stream, t: Stream, m: Msg) {
    && Moves(s, t, Payload(m)) && SameDelivery(s, t) && (s.life.cleaned || AgentSettings(s, t, m))
    && Count(ConnectAck, t.log.toAgent) == Count(ConnectAck, s.log.toAgent)
    && t.life.leaked == s.life.leaked && t.life.refused == s.life.refused
  }

  lemma ServerGetsFromAgentProof(l: Lane, p: Pressure)
    requires LaneInv(l) && Enabled(l, ServerGetsFromAgent)
    ensures LaneInv(Step(l, ServerGetsFromAgent, p))
  {
    hide Inv, UpInv, DownInv, FlagInv, AckInv, LeakInv, MovesByAgent, ServerGets;
    var m := l.a.log.toServer[l.got.fromAgent];
    var e := EnvOf(l.up, p);
    AgentSpeaksAcknowledged(l);
    InvAnyPressure(l.s, EnvOf(l.up, CALM), e);
    ServerGetsMoves(l.s, m, e);
    InvAnyPressure(ServerGets(l.s, m, e), e, EnvOf(l.up, CALM));
    FromAgentStep(l, ServerGets(l.s, m, e), m);
  }

  lemma FromAgentStep(l: Lane, t: Stream, m: Msg)
    requires LaneInv(l) && l.got.fromAgent < |l.a.log.toServer| && l.s.sock.virtual
    requires m == l.a.log.toServer[l.got.fromAgent] && MovesByAgent(l.s, t, m) && Inv(t, EnvOf(l.up, CALM))
    ensures LaneInv(l.(s := t, got := l.got.(fromAgent := l.got.fromAgent + 1)))
  {
    TakeOne(l.a.log.toServer, l.got.fromAgent);
    PrefixKept(l.s.log.toClient, t.log.toClient, l.got.client);
    PrefixKept(l.s.log.toAgent, t.log.toAgent, l.got.agent);
  }

  /** The agent's end moves on, having received n frames and written what they carry. */
  lemma AgentMoved(l: Lane, b: AgentEnd, n: nat, given: seq<Bytes>)
    requires LaneInv(l) && l.got.agent <= n <= |l.s.log.toAgent|
    requires AgentInv(b, l.up.agentP) && AgentMoves(l.a, b, given) && AgentTook(b, l.s.log.toAgent[..n])
    ensures LaneInv(l.(a := b, got := l.got.(agent := n)))
  {
    hide Inv, AgentInv, ClientInv, AgentTook, ClientTook;
    PrefixKept(l.a.log.toServer, b.log.toServer, l.got.fromAgent);
  }

  lemma FrameTaken(a: AgentEnd, b: AgentEnd, q: seq<Msg>, n: nat, given: seq<Bytes>)
    requires n < |q| && AgentTook(a, q[..n]) && AgentMoves(a, b, given)
    requires given == Payload(q[n]) || (given == [] && !b.phase.Bound?) || (given == [] && !q[n].Data?)
    requires a.phase.Bound? || given == []
    requires b.phase.Unbound? == a.phase.Unbound?
    ensures AgentTook(b, q[..n + 1])
  {
    TakeOne(q, n);
  }

  lemma ServerFrameTaken(a: AgentEnd, q: seq<Msg>, n: nat, open: bool, w: WriteOutcome)
    requires n < |q| && AgentTook(a, q[..n]) && AgentInv(a, open) && !q[n].ConnectAck?
    ensures AgentTook(OnServerFrame(a, q[n], open, w), q[..n + 1])
  {
    hide AgentInv, AgentTook;
    OnServerFrameProof(a, q[n], open, w);
    FrameTaken(a, OnServerFrame(a, q[n], open, w), q, n, Given(a, q[n], w));
  }

  lemma AgentFramed(l: Lane, m: Msg, w: WriteOutcome)
    requires LaneInv(l) && l.got.agent < |l.s.log.toAgent| && l.s.log.toAgent[l.got.agent] == m && !m.ConnectAck?
    ensures LaneInv(l.(a := OnServerFrame(l.a, m, l.up.agentP, w), got := l.got.(agent := l.got.agent + 1)))
  {
    hide Inv, AgentInv, ClientInv, AgentMoves, AgentTook, ClientTook, OnServerFrame;
    OnServerFrameProof(l.a, m, l.up.agentP, w);
    ServerFrameTaken(l.a, l.s.log.toAgent, l.got.agent, l.up.agentP, w);
    AgentMoved(l, OnServerFrame(l.a, m, l.up.agentP, w), l.got.agent + 1, Given(l.a, m, w));
  }

  /** The acknowledgement is the first thing the agent hears of a stream that carries data. */
  lemma AckTaken(a: AgentEnd, q: seq<Msg>, n: nat, paired: bool)
    requires n < |q| && q[n].ConnectAck? && Count(ConnectAck, q) <= 1 && DataAfter(ConnectAck, q)
    requires AgentTook(a, q[..n]) && (a.phase.Unbound? ==> a.log.written == [])
    ensures a.phase.Unbound? && Chunks(q[..n]) == []
    ensures AgentTook(OnAck(a, paired), q[..n + 1])
  {
    TakeOne(q, n);
    OnlyOnce(ConnectAck, q, n);
    DataAfterPrefix(ConnectAck, q, n);
    NoAckNoData(ConnectAck, q[..n]);
  }

  lemma OnAckProof(a: AgentEnd, paired: bool, open: bool)
    requires AgentInv(a, open)
    ensures AgentInv(OnAck(a, paired), open) && AgentMoves(a, OnAck(a, paired), [])
  {
  }

  lemma AgentAcked(l: Lane, paired: bool)
    requires LaneInv(l) && l.got.agent < |l.s.log.toAgent| && l.s.log.toAgent[l.got.agent].ConnectAck?
    ensures LaneInv(l.(a := OnAck(l.a, paired), got := l.got.(agent := l.got.agent + 1)))
  {
    AckTaken(l.a, l.s.log.toAgent, l.got.agent, paired);
    OnAckProof(l.a, paired, l.up.agentP);
    AgentMoved(l, OnAck(l.a, paired), l.got.agent + 1, []);
  }

  lemma OnlyOnce(m: Msg, q: seq<Msg>, n: nat)
    requires Count(m, q) <= 1 && n < |q| && q[n] == m
    ensures m !in q[..n]
  {
    CountSplit(m, q[..n], q[n..]);
    assert q == q[..n] + q[n..];
    CountIn(m, q[..n]);
    CountIn(m, q[n..]);
    assert q[n..][0] == m;
  }

  /** The client's end moves on, having received n frames and written what they carry. */
  lemma ClientMoved(l: Lane, d: ClientEnd, n: nat, given: seq<Bytes>)
    requires LaneInv(l) && l.got.client <= n <= |l.s.log.toClient|
    requires ClientInv(d, l.up.clientP) && ClientMoves(l.c, d, given) && ClientTook(d, l.s.log.toClient[..n])
    ensures LaneInv(l.(c := d, got := l.got.(client := n)))
  {
    hide Inv, AgentInv, ClientInv, AgentTook, ClientTook;
    PrefixKept(l.c.log.toServer, d.log.toServer, l.got.fromClient);
  }

  lemma OpenTaken(c: ClientEnd, q: seq<Msg>, n: nat, admitted: bool, open: bool)
    requires n < |q| && q[n].Open? && n == 0 && ClientTook(c, q[..n]) && ClientInv(c, open)
    ensures ClientTook(OnOpen(c, admitted, open), q[..n + 1])
  {
    TakeOne(q, n);
    assert q[..0] == [];
  }

  lemma ClientOpened(l: Lane, admitted: bool)
    requires LaneInv(l) && l.got.client < |l.s.log.toClient| && l.s.log.toClient[l.got.client].Open?
    ensures LaneInv(l.(c := OnOpen(l.c, admitted, l.up.clientP), got := l.got.(client := l.got.client + 1)))
  {
    hide Inv, AgentInv, ClientInv, ClientMoves, AgentTook, ClientTook, OnOpen;
    OpenFirst(l, Open);
    OnOpenProof(l.c, admitted, l.up.clientP);
    OpenTaken(l.c, l.s.log.toClient, l.got.client, admitted, l.up.clientP);
    ClientMoved(l, OnOpen(l.c, admitted, l.up.clientP), l.got.client + 1, []);
  }

  lemma ClientFrameTaken(c: ClientEnd, q: seq<Msg>, n: nat, open: bool, w: WriteOutcome)
    requires n < |q| && !q[n].Open? && n > 0 && ClientTook(c, q[..n])
    ensures ClientTook(OnFrame(c, q[n], open, w), q[..n + 1])
  {
    TakeOne(q, n);
  }

  lemma ClientFramed(l: Lane, m: Msg, w: WriteOutcome)
    requires LaneInv(l) && l.got.client < |l.s.log.toClient| && l.s.log.toClient[l.got.client] == m && !m.Open?
    ensures LaneInv(l.(c := OnFrame(l.c, m, l.up.clientP, w), got := l.got.(client := l.got.client + 1)))
  {
    hide Inv, AgentInv, ClientInv, ClientMoves, AgentTook, ClientTook, OnFrame;
    OpenFirst(l, m);
    OnFrameProof(l.c, m, l.up.clientP, w);
    ClientFrameTaken(l.c, l.s.log.toClient, l.got.client, l.up.clientP, w);
    ClientMoved(l, OnFrame(l.c, m, l.up.clientP, w), l.got.client + 1, GivenLocally(l.c, m, w));
  }

  /** TCP_OPEN is the first frame a client receives for a stream, and comes only once. */
  lemma OpenFirst(l: Lane, m: Msg)
    requires LaneInv(l) && l.got.client < |l.s.log.toClient| && m == l.s.log.toClient[l.got.client]
    ensures m.Open? <==> l.got.client == 0
  {
    if m.Open? {
      OnlyOnce(Open, l.s.log.toClient, l.got.client);
    }
  }

  // ---------------------------------------------------------------------------
  // Everything else
  // ---------------------------------------------------------------------------

  lemma ExternalDataProof(l: Lane, chunk: Bytes, e: Env)
    requires LaneInv(l) && e.clientOpen == l.up.clientS && e.agentOpen == l.up.agentS
    ensures LaneInv(l.(s := OnExternalData(l.s, chunk, e)))
  {
    if !l.s.sock.virtual && !l.s.sock.destroyed {
      var t := OnExternalData(l.s, chunk, e);
      OnExternalDataProof(l.s, chunk, e);
      PrefixKept(l.s.log.toClient, t.log.toClient, l.got.client);
      PrefixKept(l.s.log.toAgent, t.log.toAgent, l.got.agent);
    }
  }

  lemma LeaveOpenProof(l: Lane, links: Links)
    requires LaneInv(l) && Leaves(l.up, links)
    ensures LaneInv(l.(up := links))
  {
  }

  lemma ServerEventProof(l: Lane, sev: ServerEvent, e: Env)
    requires LaneInv(l) && e.clientOpen == l.up.clientS && e.agentOpen == l.up.agentS
    ensures LaneInv(l.(s := ServerEventStep(l.s, sev, e)))
  {
    if sev.ExternalData? {
      ExternalDataProof(l, sev.chunk, e);
    } else {
      ServerStepProof(l.s, sev, e);
      ServerQuiet(l, ServerEventStep(l.s, sev, e));
    }
  }

  lemma AgentEventProof(l: Lane, aev: AgentEvent, high: set<nat>)
    requires LaneInv(l)
    ensures LaneInv(l.(a := AgentEventStep(l.a, aev, l.up.agentP, high)))
  {
    AgentStepProof(l.a, aev, l.up.agentP, high);
    AgentMoved(l, AgentEventStep(l.a, aev, l.up.agentP, high), l.got.agent, []);
  }

  lemma ClientEventProof(l: Lane, cev: ClientEvent, high: set<nat>)
    requires LaneInv(l)
    ensures LaneInv(l.(c := ClientEventStep(l.c, cev, l.up.clientP, high)))
  {
    ClientStepProof(l.c, cev, l.up.clientP, high);
    ClientMoved(l, ClientEventStep(l.c, cev, l.up.clientP, high), l.got.client, []);
  }

  /** Every step of every party keeps the invariant. */
  lemma StepKeepsInv(l: Lane, ev: Event, p: Pressure)
    requires LaneInv(l) && Enabled(l, ev)
    ensures LaneInv(Step(l, ev, p))
  {
    match ev
    case ServerGetsFromClient(w) => ServerGetsFromClientProof(l, w, p);
    case ServerGetsFromAgent => ServerGetsFromAgentProof(l, p);
    case AgentGets(paired, w) =>
      var m := l.s.log.toAgent[l.got.agent];
      if m.ConnectAck? {
        AgentAcked(l, paired);
      } else {
        AgentFramed(l, m, w);
      }
    case ClientGets(admitted, w) =>
      var m := l.s.log.toClient[l.got.client];
      if m.Open? {
        ClientOpened(l, admitted);
      } else {
        ClientFramed(l, m, w);
      }
    case AtServer(sev) => ServerEventProof(l, sev, EnvOf(l.up, p));
    case AtAgent(aev) => AgentEventProof(l, aev, p.local);
    case AtClient(cev) => ClientEventProof(l, cev, p.service);
    case LeaveOpen(links) => LeaveOpenProof(l, links);
  }

  lemma NewLaneInv(virtual: bool, cap: nat, up: Links)
    ensures LaneInv(NewLane(virtual, cap, up))
  {
    assert [Open][..0] == [];
  }

  // ---------------------------------------------------------------------------
  // How a lane moves
  // ---------------------------------------------------------------------------

  /** Nothing sent is unsent; a stream gone from the server stays gone, and silent. */
  predicate ServerGrows(s: Stream, t: Stream) {
    && s.log.toClient <= t.log.toClient && s.log.toAgent <= t.log.toAgent
    && t.sock.virtual == s.sock.virtual
    && (s.life.cleaned ==> t.life.cleaned && t.life.leaked == s.life.leaked && t.log.toClient == s.log.toClient)
  }

  predicate Grows(l: Lane, t: Lane) {
    ServerGrows(l.s, t.s) && l.a.log.toServer <= t.a.log.toServer && l.c.log.toServer <= t.c.log.toServer
  }

  lemma ServerEventGrows(s: Stream, sev: ServerEvent, e: Env)
    requires Inv(s, e)
    ensures ServerGrows(s, ServerEventStep(s, sev, e))
  {
    if !sev.ExternalData? {
      ServerStepProof(s, sev, e);
    } else if !s.sock.virtual && !s.sock.destroyed {
      OnExternalDataProof(s, sev.chunk, e);
    }
  }

  lemma ServerGetsGrows(l: Lane, e: Env)
    requires LaneInv(l) && l.got.fromAgent < |l.a.log.toServer|
    requires e.clientOpen == l.up.clientS && e.agentOpen == l.up.agentS
    ensures ServerGrows(l.s, ServerGets(l.s, l.a.log.toServer[l.got.fromAgent], e))
  {
    AgentSpeaksAcknowledged(l);
    ServerGetsMoves(l.s, l.a.log.toServer[l.got.fromAgent], e);
  }

  lemma ClientFrameGrows(s: Stream, m: Msg, e: Env, w: WriteOutcome)
    requires Inv(s, e) && (m.Data? && !s.life.cleaned ==> !s.life.awaitingAck)
    ensures ServerGrows(s, OnClientFrame(s, m, e, w))
  {
    hide Inv;
    if !s.life.cleaned {
      OnClientFrameProof(s, m, e, w);
    }
  }

  lemma AgentTakesGrows(a: AgentEnd, m: Msg, paired: bool, open: bool, w: WriteOutcome)
    requires AgentInv(a, open)
    ensures a.log.toServer <= AgentTakes(a, m, paired, open, w).log.toServer
  {
    OnServerFrameProof(a, m, open, w);
  }

  lemma ClientTakesGrows(c: ClientEnd, m: Msg, admitted: bool, open: bool, w: WriteOutcome)
    requires ClientInv(c, open)
    ensures c.log.toServer <= ClientTakes(c, m, admitted, open, w).log.toServer
  {
    OnOpenProof(c, admitted, open);
    OnFrameProof(c, m, open, w);
  }

  lemma StepGrows(l: Lane, ev: Event, p: Pressure)
    requires LaneInv(l) && Enabled(l, ev)
    ensures Grows(l, Step(l, ev, p))
  {
    hide Inv, AgentInv, ClientInv, OnClientFrame, ServerGets, AgentTakes, ClientTakes, ServerEventStep,
         AgentEventStep, ClientEventStep;
    var e := EnvOf(l.up, p);
    InvAnyPressure(l.s, EnvOf(l.up, CALM), e);
    match ev
    case ServerGetsFromClient(w) =>
      NextFromClient(l);
      ClientFrameGrows(l.s, l.c.log.toServer[l.got.fromClient], e, w);
    case ServerGetsFromAgent => ServerGetsGrows(l, e);
    case AgentGets(paired, w) => AgentTakesGrows(l.a, l.s.log.toAgent[l.got.agent], paired, l.up.agentP, w);
    case ClientGets(admitted, w) => ClientTakesGrows(l.c, l.s.log.toClient[l.got.client], admitted, l.up.clientP, w);
    case AtServer(sev) => ServerEventGrows(l.s, sev, e);
    case AtAgent(aev) => AgentStepProof(l.a, aev, l.up.agentP, p.local);
    case AtClient(cev) => ClientStepProof(l.c, cev, l.up.clientP, p.service);
    case LeaveOpen(_) =>
  }

  /** The next step leaves the stream without its onCleanup: a RES_* frame finds it in the table. */
  predicate Leaks(l: Lane, ev: Event)
    requires Enabled(l, ev)
  {
    ev.ServerGetsFromClient? && l.c.log.toServer[l.got.fromClient].ResBody? && !l.s.life.cleaned
  }

  /** No other step does. */
  lemma StepLeaks(l: Lane, ev: Event, p: Pressure)
    requires LaneInv(l) && Enabled(l, ev)
    ensures Step(l, ev, p).s.life.leaked == (l.s.life.leaked || Leaks(l, ev))
  {
    hide Inv, AgentInv, ClientInv, OnClientFrame, ServerGets, AgentTakes, ClientTakes, ServerEventStep;
    var e := EnvOf(l.up, p);
    InvAnyPressure(l.s, EnvOf(l.up, CALM), e);
    match ev
    case ServerGetsFromClient(w) =>
      NextFromClient(l);
      ClientFrameLeaks(l.s, l.c.log.toServer[l.got.fromClient], e, w);
    case ServerGetsFromAgent =>
      AgentSpeaksAcknowledged(l);
      ServerGetsMoves(l.s, l.a.log.toServer[l.got.fromAgent], e);
    case AtServer(sev) => ServerEventLeaks(l.s, sev, e);
    case _ =>
  }

  lemma ClientFrameLeaks(s: Stream, m: Msg, e: Env, w: WriteOutcome)
    requires Inv(s, e) && (m.Data? && !s.life.cleaned ==> !s.life.awaitingAck)
    ensures OnClientFrame(s, m, e, w).life.leaked == (s.life.leaked || (m.ResBody? && !s.life.cleaned))
  {
    hide Inv;
    if !s.life.cleaned {
      OnClientFrameProof(s, m, e, w);
    }
  }

  lemma ServerEventLeaks(s: Stream, sev: ServerEvent, e: Env)
    requires Inv(s, e)
    ensures ServerEventStep(s, sev, e).life.leaked == s.life.leaked
  {
    hide Inv, OnExternalData;
    if !sev.ExternalData? {
      ServerStepProof(s, sev, e);
    } else if !s.sock.virtual && !s.sock.destroyed {
      OnExternalDataProof(s, sev.chunk, e);
    } else {
      NoExternalData(s, sev.chunk, e);
    }
  }

  lemma NoExternalData(s: Stream, chunk: Bytes, e: Env)
    requires s.sock.virtual || s.sock.destroyed
    ensures OnExternalData(s, chunk, e) == s
  {
  }

  // ---------------------------------------------------------------------------
  // What the invariant says of a lane
  // ---------------------------------------------------------------------------

  /** Bytes read from the stream's outer end: the agent's socket, or the direct socket. */
  function BytesRead(l: Lane): Bytes {
    Flatten(if l.s.sock.virtual then l.a.log.read else l.s.log.extIn)
  }

  /** Bytes given to the stream's outer end. */
  function BytesReturned(l: Lane): Bytes {
    Flatten(if l.s.sock.virtual then l.a.log.written else l.s.log.extOut)
  }

  /**
   Prefix delivery, both ways, across pauses, aborts and disconnects: what the service was
   given is a prefix of what the outer end read, and what the outer end was given is a
   prefix of what the service sent.
   */
  lemma PrefixDelivery(l: Lane)
    requires LaneInv(l)
    ensures Flatten(l.c.log.written) <= BytesRead(l)
    ensures BytesReturned(l) <= Flatten(l.c.log.read)
  {
    ChunksPrefix(l.s.log.toClient, l.got.client);
    ChunksPrefix(l.s.log.toAgent, l.got.agent);
    ChunksPrefix(l.a.log.toServer, l.got.fromAgent);
    ChunksPrefix(l.c.log.toServer, l.got.fromClient);
    FlattenPrefix(l.c.log.written, if l.s.sock.virtual then l.a.log.read else l.s.log.extIn);
    FlattenPrefix(if l.s.sock.virtual then l.a.log.written else l.s.log.extOut, l.c.log.read);
  }

  /** The frames sent but not yet received. */
  function InFlight(q: seq<Msg>, got: nat): seq<Msg>
    requires got <= |q|
  {
    q[got..]
  }

  lemma ChunksSplit(q: seq<Msg>, n: nat)
    requires n <= |q|
    ensures Chunks(q) == Chunks(q[..n]) + Chunks(q[n..])
  {
    assert q == q[..n] + q[n..];
    ChunksConcat(q[..n], q[n..]);
  }

  /** Everybody who handles the stream's bytes is still there. */
  predicate Whole(l: Lane) {
    && Alive(l.s) && Live(l.c) && !l.c.flow.socketGone && l.up.clientP
    && (l.s.sock.virtual ==> l.a.phase.Bound? && l.up.agentP && l.up.agentS)
  }

  /** The chunks read at the outer end. */
  function ReadOutside(l: Lane): seq<Bytes> {
    if l.s.sock.virtual then l.a.log.read else l.s.log.extIn
  }

  /** The chunks on their way from the outer end to the server. */
  function Inbound(l: Lane): seq<Bytes>
    requires InRange(l)
  {
    if l.s.sock.virtual then Chunks(InFlight(l.a.log.toServer, l.got.fromAgent)) else []
  }

  /** The chunks given to the outer end, and those on their way there. */
  function GivenOutside(l: Lane): seq<Bytes> {
    if l.s.sock.virtual then l.a.log.written else l.s.log.extOut
  }

  function Outbound(l: Lane): seq<Bytes>
    requires InRange(l)
  {
    if l.s.sock.virtual then Chunks(InFlight(l.s.log.toAgent, l.got.agent)) else []
  }

  /**
   Conservation while everybody is there: what the service was given, then what is on its way
   to the client, buffered at the server, and on its way from the agent, is exactly what the
   outer end read; and the same in the other direction.
   */
  lemma NothingLost(l: Lane)
    requires LaneInv(l) && Whole(l)
    ensures l.c.log.written + Chunks(InFlight(l.s.log.toClient, l.got.client)) + l.s.sock.buffered + Inbound(l)
            == ReadOutside(l)
    ensures GivenOutside(l) + Outbound(l) + Chunks(InFlight(l.c.log.toServer, l.got.fromClient)) == l.c.log.read
  {
    ChunksSplit(l.s.log.toClient, l.got.client);
    ChunksSplit(l.a.log.toServer, l.got.fromAgent);
    ChunksSplit(l.s.log.toAgent, l.got.agent);
    ChunksSplit(l.c.log.toServer, l.got.fromClient);
  }

  /**
   Flow-control agreement on the three hops: the frames in flight, folded over the
   receiver's flag, give the sender's flag; and PAUSE and RESUME alternate.
   */
  lemma FlowAgreement(l: Lane)
    requires LaneInv(l)
    ensures l.s.flow.clientPaused == (l.s.flow.agentPaused || l.s.flow.wsBackpressured)
    ensures l.up.clientS && !l.c.phase.Over? ==>
      Fold(l.c.flow.peerPausedRead, InFlight(l.s.log.toClient, l.got.client)) == l.s.flow.clientPaused
    ensures l.up.clientP && !l.s.life.cleaned ==>
      Fold(l.s.flow.peerPausedRead, InFlight(l.c.log.toServer, l.got.fromClient)) == l.c.flow.localFull
    ensures l.up.agentP && !l.s.life.cleaned ==>
      Fold(l.s.flow.agentPaused, InFlight(l.a.log.toServer, l.got.fromAgent)) == l.a.flow.localFull
    ensures Alternates(l.s.log.toClient) && Alternates(l.c.log.toServer) && Alternates(l.a.log.toServer)
  {
    FoldSplit(l.s.log.toClient, l.got.client);
    FoldSplit(l.c.log.toServer, l.got.fromClient);
    FoldSplit(l.a.log.toServer, l.got.fromAgent);
  }

  lemma FoldSplit(q: seq<Msg>, n: nat)
    requires n <= |q|
    ensures Fold(false, q) == Fold(Fold(false, q[..n]), q[n..])
  {
    assert q == q[..n] + q[n..];
    FoldConcat(false, q[..n], q[n..]);
  }

  /**
   Quiet after close: at most one goodbye to the client and nothing after it, none if the
   client spoke first; at most one goodbye of the socket to its agent, none if the agent
   spoke first, and after it the RESUME of a flush that was under way or "not found" replies.
   */
  lemma QuietAfterClose(l: Lane)
    requires LaneInv(l)
    ensures Terminals(l.s.log.toClient) <= 1 && TerminalLast(l.s.log.toClient)
    ensures Terminals(l.s.log.toClient) > 0 ==> l.s.life.cleaned
    ensures l.s.life.endedBy.ByClient? ==> Terminals(l.s.log.toClient) == 0
    ensures Terminals(l.s.log.toAgent) <= 1
    ensures l.s.life.endedBy.ByAgent? ==> Terminals(l.s.log.toAgent) == 0
    ensures Hushed(l.s.log.toAgent)
  {
  }

  /**
   Deferred acknowledgement: a connect is answered at most once, by TCP_CONNECT_ACK or by a
   stream-0 reject; the acknowledgement goes out only after the client's TCP_OPEN_ACK came
   in; until then the agent has sent nothing on the stream.
   */
  lemma DeferredAck(l: Lane)
    requires LaneInv(l)
    ensures Count(ConnectAck, l.s.log.toAgent) + Count(Reject, l.s.log.toAgent) <= 1
    ensures ConnectAck in l.s.log.toAgent ==> OpenAck in FromClient(l)
    ensures l.s.life.awaitingAck ==> l.a.log.toServer == [] && ConnectAck !in l.s.log.toAgent
  {
    CountIn(ConnectAck, l.s.log.toAgent);
    if l.a.log.toServer != [] {
      AgentSpeaksAcknowledged(l);
    }
  }

  /**
   The inbound buffer: what the socket passed on, followed by what it still holds, is what
   it accepted, in order; and it never holds more than the limit.
   */
  lemma InboundBuffer(l: Lane)
    requires LaneInv(l)
    ensures Alive(l.s) ==> Chunks(l.s.log.toClient) + l.s.sock.buffered == Offered(l)
    ensures l.s.sock.bufferedBytes == |Flatten(l.s.sock.buffered)| <= l.s.sock.cap
  {
    TotalLengthIsByteCount(l.s.sock.buffered);
  }
}
