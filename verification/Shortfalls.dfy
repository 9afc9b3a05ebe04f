/**
 What the relay does not guarantee for the bytes of a stream, with the exact condition under
 which it does and a run in which it does not: complete delivery at the agent's goodbye, and
 agreement on the pause flag from server to agent.
 */
module Shortfalls {
  import opened Protocol
  import opened ServerStream
  import opened ServerStreamProof
  import opened AgentStream
  import opened ClientStream
  import opened Lane
  import opened LaneRun

  // ---------------------------------------------------------------------------
  // Complete delivery
  // ---------------------------------------------------------------------------

  /** The agent's TCP_CLOSE loses what is still buffered: everything arrives iff nothing is. */
  lemma GoodbyeDelivers(s: Stream, e: Env)
    requires Inv(s, e) && Alive(s) && s.sock.virtual && !s.life.awaitingAck
    ensures Chunks(OnAgentFrame(s, Close, e).log.toClient) == Taken(s) <==> s.sock.buffered == []
  {
    var t := OnAgentFrame(s, Close, e);
    OnAgentFrameProof(s, Close, e);
    CloseForwardsNothing(s, e);
    if s.sock.buffered != [] {
      assert |Taken(s)| > |Chunks(s.log.toClient)|;
    } else {
      assert Taken(s) == Chunks(s.log.toClient);
    }
  }

  lemma CloseForwardsNothing(s: Stream, e: Env)
    requires Alive(s) && s.sock.virtual && !s.life.awaitingAck
    ensures Chunks(OnAgentFrame(s, Close, e).log.toClient) == Chunks(s.log.toClient)
  {
    Push(s.log.toClient, Close);
  }

  // The agent's local socket closes; its TCP_CLOSE, and the server's, are received.
  const GOODBYE: seq<Turn> :=
    [AgentDoes(LocalClose)] + ([SERVER_GETS_AGENTS] + ([CLIENT_GETS] + []))

  /**
   It does lose: with every WebSocket open, the agent reads two chunks and closes, and the
   service is given the first one and the end of the stream.
   */
  lemma GoodbyeLoses(first: Bytes, second: Bytes, cap: nat)
    requires |second| <= cap
    ensures CanRun(Acknowledged(cap), Backlog(first, second) + GOODBYE)
    ensures var l := Run(Acknowledged(cap), Backlog(first, second) + GOODBYE);
            && l.a.log.read == [first, second] && l.c.log.written == [first]
            && l.c.phase.Over? && l.s.life.cleaned && l.up == ALL_OPEN
            && l.got == Got(1, 3, 3, 2) && |l.s.log.toClient| == 3 && |l.a.log.toServer| == 3
  {
    BacklogBuilds(first, second, cap);
    var l0 := Backlogged(first, second, cap);
    var l1 := l0.(a := l0.a.(phase := Done, log := l0.a.log.(toServer := [Data(first), Data(second), Close])));
    var l2 := l1.(s := OnClose(AgentLeft(l1.s), EnvOf(ALL_OPEN, CALM)), got := l1.got.(fromAgent := 3));
    var l3 := l2.(c := l2.c.(phase := Over), got := l2.got.(client := 3));
    assert l2.s.log.toClient == [Open, Data(first), Close];
    Then(l2, CLIENT_GETS, [], l3);
    Then(l1, SERVER_GETS_AGENTS, [CLIENT_GETS] + [], l2);
    Then(l0, AgentDoes(LocalClose), [SERVER_GETS_AGENTS] + ([CLIENT_GETS] + []), l1);
    RunOn(Acknowledged(cap), Backlog(first, second), GOODBYE);
  }

  // ---------------------------------------------------------------------------
  // The pause flag from server to agent
  // ---------------------------------------------------------------------------

  /** The outbound buffer goes above its high mark while k chunks are forwarded. */
  predicate Congests(s: Stream, k: nat, e: Env) {
    exists n :: n in e.clientHigh && |s.log.toClient| < n <= |s.log.toClient| + k
  }

  predicate Flowing(s: Stream) {
    Alive(s) && s.sock.virtual && s.flow.localPausedForWs == s.sock.paused
  }

  /** One chunk passed on by a socket that reads, or was paused by an earlier one. */
  lemma EmitPauses(s: Stream, chunk: Bytes, e: Env)
    requires Flowing(s) && e.clientOpen
    ensures var t := EmitData(s, chunk, e);
            && Flowing(t) && |t.log.toClient| == |s.log.toClient| + 1
            && t.sock.paused == (s.sock.paused || |s.log.toClient| + 1 in e.clientHigh)
  {
  }

  lemma {:induction false} FlushPauses(s: Stream, chunks: seq<Bytes>, e: Env)
    requires Flowing(s) && !s.sock.paused && e.clientOpen
    ensures var u := Flush(s, chunks, e);
            && Flowing(u) && |u.log.toClient| == |s.log.toClient| + |chunks|
            && (u.sock.paused <==> Congests(s, |chunks|, e))
  {
    if chunks != [] {
      var k := |chunks| - 1;
      FlushPauses(s, chunks[..k], e);
      EmitPauses(Flush(s, chunks[..k], e), chunks[k], e);
    }
  }

  /**
   After a resume the agent has been told to send. The server's socket agrees, that is, it
   reads, if and only if the flush did not congest the tunnel client's WebSocket.
   */
  lemma ResumeAgrees(s: Stream, e: Env)
    requires Alive(s) && s.sock.virtual && s.sock.paused && !s.flow.localPausedForWs && e.clientOpen && e.agentOpen
    ensures var t := ResumeSocket(s, e);
            && !Fold(false, t.log.toAgent)
            && (t.sock.paused == Fold(false, t.log.toAgent) <==> !Congests(s, |s.sock.buffered|, e))
  {
    var s1 := s.(sock := s.sock.(paused := false, buffered := [], bufferedBytes := 0));
    var u := Flush(s1, s.sock.buffered, e);
    FlushPauses(s1, s.sock.buffered, e);
    Push(u.log.toAgent, Resume);
  }

  // The service wants more; its RESUME finds the client's WebSocket full after one more frame.
  // The agent then receives everything it was sent.
  const HEARING: seq<Turn> := [AGENT_GETS] + ([AGENT_GETS] + ([AGENT_GETS] + []))
  const CONGESTED := Pressure({3}, {}, {}, {})
  const RELIEF: seq<Turn> :=
    [ClientDoes(ServiceDrain)] + ([Turn(ServerGetsFromClient(Accepted), CONGESTED)] + HEARING)

  /** The server's stream after that RESUME: the flush paused the socket again, then sent RESUME. */
  function Relieved(first: Bytes, second: Bytes, cap: nat): Stream {
    var s := Backlogged(first, second, cap).s;
    s.(flow := s.flow.(peerPausedRead := false, localPausedForWs := true, pendingSends := 2),
       sock := s.sock.(buffered := [], bufferedBytes := 0),
       log := Log([Open, Data(first), Data(second)], [ConnectAck, Pause, Pause, Resume], [], []))
  }

  lemma RelievedIs(first: Bytes, second: Bytes, cap: nat)
    ensures OnClientFrame(Backlogged(first, second, cap).s, Resume, EnvOf(ALL_OPEN, CONGESTED), Accepted)
            == Relieved(first, second, cap)
  {
    var e := EnvOf(ALL_OPEN, CONGESTED);
    var s := Backlogged(first, second, cap).s;
    var s1 := s.(flow := s.flow.(peerPausedRead := false),
                 sock := s.sock.(paused := false, buffered := [], bufferedBytes := 0));
    var q: seq<Bytes> := [second];
    assert q[..0] == [] && Flush(s1, q, e) == EmitData(s1, second, e);
    assert s1.log.toClient + [Data(second)] == [Open, Data(first), Data(second)];
    assert [ConnectAck, Pause] + [Pause] == [ConnectAck, Pause, Pause];
    assert [ConnectAck, Pause, Pause] + [Resume] == [ConnectAck, Pause, Pause, Resume];
  }

  /** The whole stream then. */
  function RelievedLane(first: Bytes, second: Bytes, cap: nat): Lane {
    var l := Backlogged(first, second, cap);
    l.(s := Relieved(first, second, cap), got := l.got.(fromClient := 3),
       c := l.c.(flow := l.c.flow.(localFull := false), log := l.c.log.(toServer := [OpenAck, Pause, Resume])))
  }

  lemma AgentHears(first: Bytes, second: Bytes, cap: nat)
    ensures var l := RelievedLane(first, second, cap);
            CanRun(l, HEARING) && Run(l, HEARING) == l.(got := l.got.(agent := 4))
  {
    var l := RelievedLane(first, second, cap);
    var l1 := l.(a := l.a.(flow := l.a.flow.(peerPausedRead := true, reading := false)),
                 got := l.got.(agent := 2));
    var l2 := l1.(got := l.got.(agent := 3));
    Then(l2, AGENT_GETS, [], l.(got := l.got.(agent := 4)));
    Then(l1, AGENT_GETS, [AGENT_GETS] + [], l2);
    Then(l, AGENT_GETS, [AGENT_GETS] + ([AGENT_GETS] + []), l1);
  }

  /**
   They do disagree: with every WebSocket open and every frame received, the server holds the
   socket paused and the agent reads on.
   */
  lemma ResumeDisagrees(first: Bytes, second: Bytes, cap: nat)
    requires |second| <= cap
    ensures CanRun(Acknowledged(cap), Backlog(first, second) + RELIEF)
    ensures var l := Run(Acknowledged(cap), Backlog(first, second) + RELIEF);
            && l.s.sock.paused && Alive(l.s) && l.a.phase.Bound? && l.a.flow.reading && l.up == ALL_OPEN
            && l.got.agent == |l.s.log.toAgent| && l.got.fromClient == |l.c.log.toServer|
  {
    BacklogBuilds(first, second, cap);
    RelievedIs(first, second, cap);
    AgentHears(first, second, cap);
    var l0 := Backlogged(first, second, cap);
    var l1 := l0.(c := RelievedLane(first, second, cap).c);
    Then(l1, Turn(ServerGetsFromClient(Accepted), CONGESTED), HEARING, RelievedLane(first, second, cap));
    Then(l0, ClientDoes(ServiceDrain), [Turn(ServerGetsFromClient(Accepted), CONGESTED)] + HEARING, l1);
    RunOn(Acknowledged(cap), Backlog(first, second), RELIEF);
  }
}
