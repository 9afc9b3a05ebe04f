/**
 The two outer ends of a stream, the agent's and the tunnel client's, each told from its events:
 exactly what it says to the server, when it ends, and what its local socket and its WebSocket
 make it hold back.
 */
module EndLaws {
  import opened Protocol
  import opened ServerStream
  import opened AgentStream
  import opened ClientStream
  import opened Lane
  import opened LaneRun
  import opened LaneDuties

  // ---------------------------------------------------------------------------
  // The agent
  // ---------------------------------------------------------------------------

  /** What the agent says of its own accord. */
  function AgentSays(a: AgentEnd, aev: AgentEvent): seq<Msg> {
    if !a.phase.Bound? then [] else
    match aev
    case LocalData(chunk) => [Data(chunk)]
    case LocalDrain => if a.flow.localFull then [Resume] else []
    case LocalClose => [Close]
    case LocalError => [Abort(Teardown)]
    case _ => []
  }

  /** What it answers to a frame. */
  function AgentAnswers(a: AgentEnd, m: Msg, w: WriteOutcome): seq<Msg> {
    if !a.phase.Bound? || !m.Data? then []
    else if w.Throws? then [Abort(Teardown)]
    else if w.BufferFull? && !a.flow.localFull then [Pause]
    else []
  }

  predicate Said(before: seq<Msg>, after: seq<Msg>, open: bool, said: seq<Msg>) {
    after == before + if open then said else []
  }

  /** A local socket's data, drain, close and error are each passed on; nothing else is said. */
  lemma AgentEventSays(a: AgentEnd, aev: AgentEvent, open: bool, high: set<nat>)
    ensures var b := AgentEventStep(a, aev, open, high);
            && Said(a.log.toServer, b.log.toServer, open, AgentSays(a, aev))
            && (b.phase == if a.phase.Bound? && (aev.LocalClose? || aev.LocalError? || aev.SessionOver?)
                           then Done else a.phase)
            && b.flow.localFull == (a.flow.localFull && !(a.phase.Bound? && aev.LocalDrain? && open))
            && b.log.read == a.log.read + (if a.phase.Bound? && aev.LocalData? then [aev.chunk] else [])
            && (!open && aev.LocalData? ==> b.flow == a.flow)
  {
  }

  /** A full local socket is reported, a broken one ends the stream; so does the server's word. */
  lemma AgentFrameSays(a: AgentEnd, m: Msg, open: bool, w: WriteOutcome)
    requires !m.ConnectAck?
    ensures var b := AgentTakes(a, m, true, open, w);
            && Said(a.log.toServer, b.log.toServer, open, AgentAnswers(a, m, w))
            && (b.phase == if a.phase.Bound? && (m.Close? || m.Abort? || (m.Data? && w.Throws?)) then Done else a.phase)
            && b.flow.localFull == (a.flow.localFull || (a.phase.Bound? && m.Data? && w.BufferFull?))
            && b.flow.peerPausedRead ==
               (if a.phase.Bound? then Fold(a.flow.peerPausedRead, [m]) else a.flow.peerPausedRead)
            && b.flow.pausedForWs == a.flow.pausedForWs
  {
    assert [m][..0] == [];
  }

  /** The acknowledgement binds a waiting socket, once. */
  lemma AgentBinds(a: AgentEnd, paired: bool, open: bool, w: WriteOutcome)
    ensures var b := AgentTakes(a, ConnectAck, paired, open, w);
            && b.log == a.log && (b.phase == if a.phase.Unbound? && paired then Bound else a.phase)
            && (a.phase.Unbound? && paired ==> b.flow.reading)
  {
  }

  /**
   A bound socket is throttled by exactly the chunks after which the outbound buffer is high, and
   set going by exactly the last send callback, or the drain after it, that finds it low.
   */
  lemma AgentThrottles(a: AgentEnd, aev: AgentEvent, open: bool, high: set<nat>)
    requires AgentDuty(a, open) && a.phase.Bound? && open
    ensures var b := AgentEventStep(a, aev, open, high);
            && (b.flow.pausedForWs == match aev
                case LocalData(_) => a.flow.pausedForWs || |a.log.toServer| + 1 in high
                case LocalSent(low) => a.flow.pausedForWs && !(low && a.flow.pendingSends == 1)
                case WsDrain(low) => a.flow.pausedForWs && !(low && a.flow.pendingSends == 0)
                case _ => a.flow.pausedForWs)
            && b.flow.pendingSends ==
               a.flow.pendingSends + (if aev.LocalData? then 1 else if aev.LocalSent? then -1 else 0)
            && (b.phase.Bound? ==> b.flow.reading == !(b.flow.peerPausedRead || b.flow.pausedForWs))
  {
  }

  // ---------------------------------------------------------------------------
  // The tunnel client
  // ---------------------------------------------------------------------------

  function ClientSays(c: ClientEnd, cev: ClientEvent): seq<Msg> {
    match cev
    case ServiceConnect => if c.phase.Connecting? then [OpenAck] else []
    case ServiceTimeout => if c.phase.Connecting? then [Abort(Teardown)] else []
    case ServiceData(chunk) => if c.phase.Connected? then [Data(chunk)] else []
    case ServiceDrain => if c.phase.Connected? && c.flow.localFull then [Resume] else []
    case ServiceClose => if Live(c) then [Close] else []
    case ServiceError => if Live(c) then [Abort(Teardown)] else []
    case IdleTimeout => if Live(c) then [ResBody] else []
    case _ => []
  }

  function ClientAnswers(c: ClientEnd, m: Msg, admitted: bool, w: WriteOutcome): seq<Msg> {
    if m.Open? then (if c.phase.Unopened? && !admitted then [Abort(Teardown)] else [])
    else if !Live(c) || !m.Data? || c.flow.socketGone then []
    else if w.Throws? then [Abort(Teardown)]
    else if w.BufferFull? && !c.flow.localFull then [Pause]
    else []
  }

  /** What ends a client's side of itself. */
  predicate ClientEnds(c: ClientEnd, cev: ClientEvent, open: bool) {
    && Live(c)
    && (cev.ServiceClose? || cev.ServiceError? || cev.IdleTimeout? || cev.ClientOver?
        || (cev.ServiceTimeout? && c.phase.Connecting?) || (cev.ServiceData? && c.phase.Connected? && !open))
  }

  lemma ClientEventSays(c: ClientEnd, cev: ClientEvent, open: bool, high: set<nat>)
    ensures var d := ClientEventStep(c, cev, open, high);
            && Said(c.log.toServer, d.log.toServer, open, ClientSays(c, cev))
            && (d.phase == if ClientEnds(c, cev, open) then Over
                           else if cev.ServiceConnect? && c.phase.Connecting? then Connected else c.phase)
            && d.flow.localFull == (c.flow.localFull && !(c.phase.Connected? && cev.ServiceDrain? && open))
            && d.log.read == c.log.read + (if c.phase.Connected? && cev.ServiceData? then [cev.chunk] else [])
            && d.flow.socketGone == (c.flow.socketGone || cev.ServiceGone?)
  {
  }

  lemma ClientFrameSays(c: ClientEnd, m: Msg, admitted: bool, open: bool, w: WriteOutcome)
    ensures var d := ClientTakes(c, m, admitted, open, w);
            && Said(c.log.toServer, d.log.toServer, open, ClientAnswers(c, m, admitted, w))
            && (d.phase == if m.Open? && c.phase.Unopened? then (if admitted then Connecting else Over)
                           else if Live(c) && (m.Close? || m.Abort? || (m.Data? && w.Throws? && !c.flow.socketGone))
                           then Over else c.phase)
            && d.flow.localFull ==
               (c.flow.localFull || (Live(c) && m.Data? && w.BufferFull? && !c.flow.socketGone))
            && d.flow.peerPausedRead == (if Live(c) then Fold(c.flow.peerPausedRead, [m]) else c.flow.peerPausedRead)
            && d.flow.localPausedForWs == c.flow.localPausedForWs
  {
    assert [m][..0] == [];
  }

  lemma ClientThrottles(c: ClientEnd, cev: ClientEvent, open: bool, high: set<nat>)
    requires ClientDuty(c) && c.phase.Connected? && open
    ensures var d := ClientEventStep(c, cev, open, high);
            && (d.flow.localPausedForWs == match cev
                case ServiceData(_) => c.flow.localPausedForWs || |c.log.toServer| + 1 in high
                case ServiceSent(low) => c.flow.localPausedForWs && !(low && c.flow.pendingSends == 1)
                case _ => c.flow.localPausedForWs)
            && d.flow.pendingSends ==
               c.flow.pendingSends + (if cev.ServiceData? then 1 else if cev.ServiceSent? then -1 else 0)
            && (!d.flow.socketGone ==> d.flow.reading == !(d.flow.peerPausedRead || d.flow.localPausedForWs))
  {
  }

  // ---------------------------------------------------------------------------
  // A congested agent drains
  // ---------------------------------------------------------------------------

  const AGENT_FULL := Pressure({}, {2}, {}, {})

  // The service sends a chunk that fills the agent's WebSocket; the client hears the PAUSE.
  function Congestion(chunk: Bytes): seq<Turn> {
    [ClientDoes(ServiceData(chunk))] + ([Turn(ServerGetsFromClient(Accepted), AGENT_FULL)] + ([CLIENT_GETS] + []))
  }

  function Congested(chunk: Bytes, cap: nat): Lane {
    var l := Acknowledged(cap);
    Lane(l.s.(flow := l.s.flow.(wsBackpressured := true, clientPaused := true),
              sock := l.s.sock.(pendingDrain := true),
              log := Log([Open, Pause], [ConnectAck, Data(chunk)], [], [])),
         l.a,
         l.c.(flow := l.c.flow.(pendingSends := 1, peerPausedRead := true, reading := false),
              log := ClientLog([OpenAck, Data(chunk)], [chunk], [])),
         ALL_OPEN, Got(1, 0, 2, 2))
  }

  lemma AgentFillsUp(chunk: Bytes, cap: nat)
    ensures CanRun(Acknowledged(cap), Congestion(chunk))
    ensures Run(Acknowledged(cap), Congestion(chunk)) == Congested(chunk, cap)
  {
    var l0 := Acknowledged(cap);
    var l3 := Congested(chunk, cap);
    var l1 := l0.(c := l0.c.(flow := l0.c.flow.(pendingSends := 1), log := l3.c.log));
    var l2 := l1.(s := l3.s, got := l1.got.(fromClient := 2));
    assert [OpenAck] + [Data(chunk)] == [OpenAck, Data(chunk)];
    assert [ConnectAck] + [Data(chunk)] == [ConnectAck, Data(chunk)] && [Open] + [Pause] == [Open, Pause];
    Then(l2, CLIENT_GETS, [], l3);
    Then(l1, Turn(ServerGetsFromClient(Accepted), AGENT_FULL), [CLIENT_GETS] + [], l2);
    Then(l0, ClientDoes(ServiceData(chunk)),
         [Turn(ServerGetsFromClient(Accepted), AGENT_FULL)] + ([CLIENT_GETS] + []), l1);
  }

  // The send callback finds the agent's WebSocket drained; the client hears the RESUME.
  const AGENT_DRAINS: seq<Turn> := [Turn(AtServer(AgentSent(true)), CALM)] + ([CLIENT_GETS] + [])

  /** The service is not read while the agent's WebSocket is full, and is read again when it has drained. */
  lemma DrainedAgentReadsOn(chunk: Bytes, cap: nat)
    ensures CanRun(Acknowledged(cap), Congestion(chunk)) && CanRun(Acknowledged(cap), Congestion(chunk) + AGENT_DRAINS)
    ensures !Run(Acknowledged(cap), Congestion(chunk)).c.flow.reading
    ensures var l := Run(Acknowledged(cap), Congestion(chunk) + AGENT_DRAINS);
            l.c.flow.reading && !l.s.flow.clientPaused && !l.s.flow.wsBackpressured && !l.s.sock.pendingDrain
  {
    AgentFillsUp(chunk, cap);
    var l0 := Congested(chunk, cap);
    var l1 := l0.(s := l0.s.(flow := l0.s.flow.(wsBackpressured := false, clientPaused := false),
                             sock := l0.s.sock.(pendingDrain := false),
                             log := l0.s.log.(toClient := [Open, Pause, Resume])));
    var l2 := l1.(c := l1.c.(flow := l1.c.flow.(peerPausedRead := false, reading := true)),
                  got := l1.got.(client := 3));
    assert [Open, Pause] + [Resume] == [Open, Pause, Resume];
    Then(l1, CLIENT_GETS, [], l2);
    Then(l0, Turn(AtServer(AgentSent(true)), CALM), [CLIENT_GETS] + [], l1);
    RunOn(Acknowledged(cap), Congestion(chunk), AGENT_DRAINS);
  }
}
