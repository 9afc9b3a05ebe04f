/** Runs of one stream: any sequence of steps keeps its invariant; and how the first bytes arrive. */
module LaneRun {
  import opened Protocol
  import opened ServerStream
  import opened AgentStream
  import opened ClientStream
  import opened Lane

  // An event, and how full the outbound buffers are when it happens.
  datatype Turn = Turn(ev: Event, p: Pressure)

  predicate CanRun(l: Lane, turns: seq<Turn>)
    decreases |turns|
  {
    turns == [] || (Enabled(l, turns[0].ev) && CanRun(Step(l, turns[0].ev, turns[0].p), turns[1..]))
  }

  function Run(l: Lane, turns: seq<Turn>): Lane
    requires CanRun(l, turns)
    decreases |turns|
  {
    if turns == [] then l else Run(Step(l, turns[0].ev, turns[0].p), turns[1..])
  }

  /** Any run keeps the invariant of the stream. */
  lemma {:induction false} RunKeeps(l: Lane, turns: seq<Turn>)
    requires LaneInv(l) && CanRun(l, turns)
    ensures LaneInv(Run(l, turns))
    decreases |turns|
  {
    hide LaneInv, Enabled, Step;
    if turns != [] {
      StepKeepsInv(l, turns[0].ev, turns[0].p);
      RunKeeps(Step(l, turns[0].ev, turns[0].p), turns[1..]);
    }
  }

  lemma Then(l: Lane, t: Turn, rest: seq<Turn>, l': Lane)
    requires Enabled(l, t.ev) && l' == Step(l, t.ev, t.p) && CanRun(l', rest)
    ensures CanRun(l, [t] + rest) && Run(l, [t] + rest) == Run(l', rest)
  {
    hide Enabled, Step;
    assert ([t] + rest)[1..] == rest;
  }

  lemma {:induction false} RunOn(l: Lane, turns: seq<Turn>, more: seq<Turn>)
    requires CanRun(l, turns) && CanRun(Run(l, turns), more)
    ensures CanRun(l, turns + more) && Run(l, turns + more) == Run(Run(l, turns), more)
    decreases |turns|
  {
    hide Enabled, Step;
    if turns == [] {
      assert turns + more == more;
    } else {
      RunOn(Step(l, turns[0].ev, turns[0].p), turns[1..], more);
      assert (turns + more)[1..] == turns[1..] + more;
    }
  }

  const ALL_OPEN := Links(true, true, true, true)

  // Turns with empty outbound buffers.
  const CLIENT_GETS := Turn(ClientGets(true, Accepted), CALM)
  const AGENT_GETS := Turn(AgentGets(true, Accepted), CALM)
  const SERVER_GETS_CLIENTS := Turn(ServerGetsFromClient(Accepted), CALM)
  const SERVER_GETS_AGENTS := Turn(ServerGetsFromAgent, CALM)

  function AgentDoes(aev: AgentEvent): Turn {
    Turn(Event.AtAgent(aev), CALM)
  }

  function ClientDoes(cev: ClientEvent): Turn {
    Turn(Event.AtClient(cev), CALM)
  }

  /** Open, connect, confirm, acknowledge. */
  function Acknowledged(cap: nat): Lane {
    var l := NewLane(true, cap, ALL_OPEN);
    l.(s := l.s.(life := l.s.life.(awaitingAck := false), log := l.s.log.(toAgent := [ConnectAck])),
       a := OnAck(l.a, true),
       c := l.c.(phase := Connected, log := l.c.log.(toServer := [OpenAck])),
       got := Got(1, 0, 1, 1))
  }

  const HANDSHAKE: seq<Turn> :=
    [CLIENT_GETS] + ([ClientDoes(ServiceConnect)] + ([SERVER_GETS_CLIENTS] + ([AGENT_GETS] + [])))

  lemma Handshake(cap: nat)
    ensures CanRun(NewLane(true, cap, ALL_OPEN), HANDSHAKE)
    ensures Run(NewLane(true, cap, ALL_OPEN), HANDSHAKE) == Acknowledged(cap)
  {
    var l0 := NewLane(true, cap, ALL_OPEN);
    var l1 := l0.(c := l0.c.(phase := Connecting), got := l0.got.(client := 1));
    var l2 := l1.(c := l1.c.(phase := Connected, log := l1.c.log.(toServer := [OpenAck])));
    var s3 := l2.s.(life := l2.s.life.(awaitingAck := false), log := l2.s.log.(toAgent := [ConnectAck]));
    var l3 := l2.(s := s3, got := l2.got.(fromClient := 1));
    assert [] + [OpenAck] == [OpenAck] && [] + [ConnectAck] == [ConnectAck];
    Then(l3, AGENT_GETS, [], Acknowledged(cap));
    Then(l2, SERVER_GETS_CLIENTS, [AGENT_GETS] + [], l3);
    Then(l1, ClientDoes(ServiceConnect), [SERVER_GETS_CLIENTS] + ([AGENT_GETS] + []), l2);
    Then(l0, CLIENT_GETS, [ClientDoes(ServiceConnect)] + ([SERVER_GETS_CLIENTS] + ([AGENT_GETS] + [])), l1);
  }

  /** Send, forward, write: the service is given exactly the chunk. */
  lemma FirstBytesArrive(chunk: Bytes, cap: nat)
    ensures var turns := [AgentDoes(LocalData(chunk))] + ([SERVER_GETS_AGENTS] + ([CLIENT_GETS] + []));
            CanRun(Acknowledged(cap), turns) && Run(Acknowledged(cap), turns).c.log.written == [chunk]
  {
    var l4 := Acknowledged(cap);
    var l5 := l4.(a := OnLocalData(l4.a, chunk, true, {}));
    var l6 := l5.(s := EmitData(l5.s, chunk, EnvOf(ALL_OPEN, CALM)), got := l5.got.(fromAgent := 1));
    var l7 := l6.(c := OnFrame(l6.c, Data(chunk), true, Accepted), got := l6.got.(client := 2));
    assert l6.s.log.toClient == [Open, Data(chunk)];
    Then(l6, CLIENT_GETS, [], l7);
    Then(l5, SERVER_GETS_AGENTS, [CLIENT_GETS] + [], l6);
    Then(l4, AgentDoes(LocalData(chunk)), [SERVER_GETS_AGENTS] + ([CLIENT_GETS] + []), l5);
  }

  // ---------------------------------------------------------------------------
  // A service that reads slowly
  // ---------------------------------------------------------------------------

  // The service takes the first chunk and wants no more; its PAUSE reaches the server, which
  // buffers what the agent had sent meanwhile.
  function Backlog(first: Bytes, second: Bytes): seq<Turn> {
    [AgentDoes(LocalData(first))] + ([SERVER_GETS_AGENTS] + ([Turn(ClientGets(true, BufferFull), CALM)]
    + ([SERVER_GETS_CLIENTS] + ([AgentDoes(LocalData(second))] + ([SERVER_GETS_AGENTS] + [])))))
  }

  function Backlogged(first: Bytes, second: Bytes, cap: nat): Lane {
    var l := Acknowledged(cap);
    Lane(l.s.(flow := l.s.flow.(peerPausedRead := true, pendingSends := 1),
              sock := l.s.sock.(paused := true, buffered := [second], bufferedBytes := |second|),
              log := Log([Open, Data(first)], [ConnectAck, Pause], [], [])),
         l.a.(flow := l.a.flow.(pendingSends := 2), log := AgentLog([Data(first), Data(second)], [first, second], [])),
         l.c.(flow := l.c.flow.(localFull := true), log := ClientLog([OpenAck, Pause], [], [first])),
         ALL_OPEN, Got(1, 2, 2, 2))
  }

  lemma BacklogBuilds(first: Bytes, second: Bytes, cap: nat)
    requires |second| <= cap
    ensures CanRun(Acknowledged(cap), Backlog(first, second))
    ensures Run(Acknowledged(cap), Backlog(first, second)) == Backlogged(first, second, cap)
  {
    var l0 := Acknowledged(cap);
    var l1 := l0.(a := l0.a.(flow := l0.a.flow.(pendingSends := 1), log := AgentLog([Data(first)], [first], [])));
    var l2 := l1.(s := l1.s.(flow := l1.s.flow.(pendingSends := 1), log := l1.s.log.(toClient := [Open, Data(first)])),
                  got := l1.got.(fromAgent := 1));
    var l3 := l2.(c := l2.c.(flow := l2.c.flow.(localFull := true), log := ClientLog([OpenAck, Pause], [], [first])),
                  got := l2.got.(client := 2));
    var l4 := l3.(s := l3.s.(flow := l3.s.flow.(peerPausedRead := true), sock := l3.s.sock.(paused := true),
                             log := l3.s.log.(toAgent := [ConnectAck, Pause])),
                  got := l3.got.(fromClient := 2));
    var l5 := l4.(a := Backlogged(first, second, cap).a);
    var t6 := [SERVER_GETS_AGENTS] + [];
    var t5 := [AgentDoes(LocalData(second))] + t6;
    var t4 := [SERVER_GETS_CLIENTS] + t5;
    var t3 := [Turn(ClientGets(true, BufferFull), CALM)] + t4;
    Then(l5, SERVER_GETS_AGENTS, [], Backlogged(first, second, cap));
    Then(l4, AgentDoes(LocalData(second)), t6, l5);
    Then(l3, SERVER_GETS_CLIENTS, t5, l4);
    Then(l2, Turn(ClientGets(true, BufferFull), CALM), t4, l3);
    Then(l1, SERVER_GETS_AGENTS, t3, l2);
    Then(l0, AgentDoes(LocalData(first)), [SERVER_GETS_AGENTS] + t3, l1);
  }
}
