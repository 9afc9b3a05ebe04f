/**
 Every event of the relay keeps its invariant: routing by table lookup is each stream's own
 step, a shared channel is every stream's own FIFO, and the books follow.
 */
module RelayProof {
  import opened Options
  import opened Protocol
  import opened Mux
  import opened ServerStream
  import opened ServerStreamProof
  import opened AgentStream
  import opened ClientStream
  import opened Lane
  import opened StreamIds
  import opened StreamTable
  import opened Relay

  // ---------------------------------------------------------------------------
  // Channels
  // ---------------------------------------------------------------------------

  lemma SendOnAt(chans: map<Wire, Chan>, id: int, h: Home, dir: Dir, ms: seq<Msg>, wire: Wire)
    ensures ChanOf(SendOn(chans, id, h, dir, ms), wire) ==
            if wire.dir == dir && Via(h, dir) == Some(wire.ws)
            then Chan(ChanOf(chans, wire).sent + Tag(id, ms), ChanOf(chans, wire).got)
            else ChanOf(chans, wire)
  {
  }

  /** What sending a stream's news does to one channel. */
  lemma SendAllAt(chans: map<Wire, Chan>, id: int, h: Home, l: Lane, l': Lane, wire: Wire)
    ensures ChanOf(SendAll(chans, id, h, l, l'), wire) ==
            if Via(h, wire.dir) == Some(wire.ws)
            then Chan(ChanOf(chans, wire).sent + Tag(id, News(l, l', wire.dir)), ChanOf(chans, wire).got)
            else ChanOf(chans, wire)
  {
    var c1 := SendOn(chans, id, h, ToAgent, News(l, l', ToAgent));
    var c2 := SendOn(c1, id, h, FromAgent, News(l, l', FromAgent));
    var c3 := SendOn(c2, id, h, ToClient, News(l, l', ToClient));
    SendOnAt(chans, id, h, ToAgent, News(l, l', ToAgent), wire);
    SendOnAt(c1, id, h, FromAgent, News(l, l', FromAgent), wire);
    SendOnAt(c2, id, h, ToClient, News(l, l', ToClient), wire);
    SendOnAt(c3, id, h, FromClient, News(l, l', FromClient), wire);
  }

  /** Sending for `owner` shows in its own view only, and moves nobody's received count. */
  lemma WroteMore(ch: Chan, owner: int, ms: seq<Msg>, id: int, log: seq<Msg>, got: nat)
    requires Wrote(ch, id, log) && Read(ch, id, got)
    ensures var ch' := Chan(ch.sent + Tag(owner, ms), ch.got);
            Wrote(ch', id, if id == owner then log + ms else log) && Read(ch', id, got)
  {
    FilterTagged(id, ch.sent, owner, ms);
    assert (ch.sent + Tag(owner, ms))[..ch.got] == ch.sent[..ch.got];
  }

  // ---------------------------------------------------------------------------
  // One stream moves: everything else stays
  // ---------------------------------------------------------------------------

  predicate LogsGrow(l: Lane, l': Lane) {
    forall dir :: LogOf(l, dir) <= LogOf(l', dir)
  }

  /** How a lane's step may change what the table sees of it. */
  predicate LifeSteps(before: Life, after: Life) {
    && (before.cleaned ==> after.cleaned && after.leaked == before.leaked)
    && (before.leaked ==> before.cleaned) && (after.leaked ==> after.cleaned)
  }

  lemma NewsOf(l: Lane, l': Lane, dir: Dir)
    requires LogsGrow(l, l')
    ensures LogOf(l', dir) == LogOf(l, dir) + News(l, l', dir)
  {
    assert LogOf(l, dir) <= LogOf(l', dir);
  }

  /** Stream i, on one channel: its own news if it is the one that moves, nothing else. */
  lemma AdvanceWrote(r: Relay, id: int, l': Lane, i: int, wire: Wire)
    requires id in r.conns && i in r.conns && LogsGrow(r.conns[id].lane, l')
    requires Wrote(ChanOf(r.chans, wire), i, SentOver(r.conns[i], wire))
    ensures Wrote(ChanOf(Advance(r, id, l').chans, wire), i, SentOver(Advance(r, id, l').conns[i], wire))
  {
    var c := r.conns[id];
    SendAllAt(r.chans, id, c.home, c.lane, l', wire);
    NewsOf(c.lane, l', wire.dir);
    FilterTagged(i, ChanOf(r.chans, wire).sent, id, News(c.lane, l', wire.dir));
  }

  lemma AdvanceRead(r: Relay, id: int, l': Lane, i: int, wire: Wire)
    requires id in r.conns && i in r.conns
    requires Read(ChanOf(r.chans, wire), i, GotOver(Advance(r, id, l').conns[i], wire))
    ensures Read(ChanOf(Advance(r, id, l').chans, wire), i, GotOver(Advance(r, id, l').conns[i], wire))
  {
    var c := r.conns[id];
    SendAllAt(r.chans, id, c.home, c.lane, l', wire);
    var ch, ms := ChanOf(r.chans, wire), Tag(id, News(c.lane, l', wire.dir));
    assert (ch.sent + ms)[..ch.got] == ch.sent[..ch.got];
  }

  lemma AdvanceKnown(r: Relay, id: int, l': Lane, wire: Wire)
    requires id in r.conns && Known(r, wire)
    ensures Known(Advance(r, id, l'), wire)
  {
    var c := r.conns[id];
    SendAllAt(r.chans, id, c.home, c.lane, l', wire);
  }

  lemma BookFrame(t: Table, id: int, before: Life, after: Life)
    ensures var t1 := Book(t, id, before, after);
            && t1.nextId == t.nextId && t1.clients == t.clients && t1.owned.Keys == t.owned.Keys
            && t1.streams == (if before.cleaned || !after.cleaned
                                 || (after.leaked && id in t.streams && t.streams[id].Http?)
                              then t.streams else t.streams - {id})
            && (forall i :: i != id ==>
                  (i in t1.leaked <==> i in t.leaked) && (i in t1.leaked ==> t1.leaked[i] == t.leaked[i]))
  {
    ReleaseFrame(t, id);
  }

  lemma AdvanceBooked(r: Relay, id: int, l': Lane, i: int)
    requires id in r.conns && i in r.conns && LifeSteps(r.conns[id].lane.s.life, l'.s.life)
    requires Booked(r.table, i, r.conns[i]) && Booked(r.table, id, r.conns[id])
    ensures Booked(Advance(r, id, l').table, i, Advance(r, id, l').conns[i])
  {
    BookFrame(r.table, id, r.conns[id].lane.s.life, l'.s.life);
    if i == id {
      BookSelf(r.table, id, r.conns[id], l');
    }
  }

  lemma BookSelf(t: Table, id: int, c: Conn, l': Lane)
    requires Booked(t, id, c) && LifeSteps(c.lane.s.life, l'.s.life)
    ensures Booked(Book(t, id, c.lane.s.life, l'.s.life), id, c.(lane := l'))
  {
    ReleaseFrame(t, id);
  }

  lemma AdvanceForeign(r: Relay, id: int, l': Lane, i: int)
    requires id in r.conns && Foreign(r, i)
    ensures Foreign(Advance(r, id, l'), i)
  {
    BookFrame(r.table, id, r.conns[id].lane.s.life, l'.s.life);
  }

  /** What a stream's step must do for the rest of the relay not to notice. */
  predicate Advances(r: Relay, id: int, l': Lane)
    requires id in r.conns
  {
    var l := r.conns[id].lane;
    LaneInv(l') && LogsGrow(l, l') && LifeSteps(l.s.life, l'.s.life)
    && l'.up == l.up && l'.s.sock.virtual == l.s.sock.virtual
  }

  lemma AdvanceAllWrote(r: Relay, id: int, l': Lane)
    requires id in r.conns && LogsGrow(r.conns[id].lane, l') && AllWrote(r)
    ensures AllWrote(Advance(r, id, l'))
  {
    forall i, wire | i in r.conns
      ensures Wrote(ChanOf(Advance(r, id, l').chans, wire), i, SentOver(Advance(r, id, l').conns[i], wire))
    {
      AdvanceWrote(r, id, l', i, wire);
    }
  }

  /** Once stream id has moved to l', the received counts agree (a frame may be on its way). */
  ghost predicate ReadAfter(r: Relay, id: int, l': Lane)
    requires id in r.conns
  {
    forall i, wire :: i in r.conns ==>
      Read(ChanOf(r.chans, wire), i, GotOver(if i == id then r.conns[id].(lane := l') else r.conns[i], wire))
  }

  lemma AdvanceAllRead(r: Relay, id: int, l': Lane)
    requires id in r.conns && ReadAfter(r, id, l')
    ensures AllRead(Advance(r, id, l'))
  {
    forall i, wire | i in r.conns
      ensures Read(ChanOf(Advance(r, id, l').chans, wire), i, GotOver(Advance(r, id, l').conns[i], wire))
    {
      AdvanceRead(r, id, l', i, wire);
    }
  }

  lemma AdvanceAllKnown(r: Relay, id: int, l': Lane)
    requires id in r.conns && AllKnown(r)
    ensures AllKnown(Advance(r, id, l'))
  {
    forall wire
      ensures Known(Advance(r, id, l'), wire)
    {
      AdvanceKnown(r, id, l', wire);
    }
  }

  lemma AdvanceLane(r: Relay, id: int, l': Lane, i: int)
    requires id in r.conns && i in r.conns && LaneOk(r, i) && LaneOk(r, id) && Advances(r, id, l')
    ensures LaneOk(Advance(r, id, l'), i)
  {
    if i == id {
      assert Advance(r, id, l').conns[i] == r.conns[id].(lane := l');
    } else {
      assert Advance(r, id, l').conns[i] == r.conns[i];
    }
  }

  lemma AdvanceAllLanes(r: Relay, id: int, l': Lane)
    requires id in r.conns && AllLanes(r) && Advances(r, id, l')
    ensures AllLanes(Advance(r, id, l'))
  {
    forall i | i in r.conns
      ensures LaneOk(Advance(r, id, l'), i)
    {
      assert LaneOk(r, i) && LaneOk(r, id);
      AdvanceLane(r, id, l', i);
    }
  }

  lemma AdvanceAllBooked(r: Relay, id: int, l': Lane)
    requires id in r.conns && AllBooked(r) && LifeSteps(r.conns[id].lane.s.life, l'.s.life)
    ensures AllBooked(Advance(r, id, l'))
  {
    var r1 := Advance(r, id, l');
    forall i | i in r1.conns
      ensures Booked(r1.table, i, r1.conns[i])
    {
      AdvanceBooked(r, id, l', i);
    }
    forall i
      ensures Foreign(r1, i)
    {
      AdvanceForeign(r, id, l', i);
    }
  }

  lemma AdvanceKeeps(r: Relay, id: int, l': Lane)
    requires id in r.conns && Advances(r, id, l') && ReadAfter(r, id, l')
    requires AllWrote(r) && AllKnown(r) && AllLanes(r) && AllBooked(r)
    ensures Core(Advance(r, id, l'))
  {
    AdvanceAllWrote(r, id, l');
    AdvanceAllRead(r, id, l');
    AdvanceAllKnown(r, id, l');
    AdvanceAllLanes(r, id, l');
    AdvanceAllBooked(r, id, l');
  }

  // ---------------------------------------------------------------------------
  // Every step of a stream is such a move
  // ---------------------------------------------------------------------------

  lemma StepAdvances(r: Relay, id: int, ev: Event, p: Pressure)
    requires id in r.conns && LaneInv(r.conns[id].lane) && Enabled(r.conns[id].lane, ev) && !ev.LeaveOpen?
    ensures Advances(r, id, Step(r.conns[id].lane, ev, p))
  {
    var l := r.conns[id].lane;
    StepKeepsInv(l, ev, p);
    StepGrows(l, ev, p);
    GrowsAdvances(l, Step(l, ev, p));
  }

  lemma GrowsAdvances(l: Lane, l': Lane)
    requires LaneInv(l) && LaneInv(l') && Grows(l, l')
    ensures LogsGrow(l, l') && LifeSteps(l.s.life, l'.s.life)
  {
    forall dir
      ensures LogOf(l, dir) <= LogOf(l', dir)
    {
      match dir
      case ToAgent =>
      case FromAgent =>
      case ToClient =>
      case FromClient =>
    }
  }

  /** What happens at a party by itself receives nothing. */
  lemma LocalReads(r: Relay, id: int, ev: Event, p: Pressure)
    requires AllRead(r) && id in r.conns && Enabled(r.conns[id].lane, ev) && IsLocal(ev)
    ensures ReadAfter(r, id, Step(r.conns[id].lane, ev, p))
  {
    var l' := Step(r.conns[id].lane, ev, p);
    forall i, wire | i in r.conns
      ensures Read(ChanOf(r.chans, wire), i, GotOver(if i == id then r.conns[id].(lane := l') else r.conns[i], wire))
    {
      assert Read(ChanOf(r.chans, wire), i, GotOver(r.conns[i], wire));
    }
  }

  lemma LocalKeeps(r: Relay, id: int, ev: Event, p: Pressure)
    requires Core(r) && id in r.conns && IsLocal(ev)
    ensures Core(Advance(r, id, Step(r.conns[id].lane, ev, p)))
  {
    assert LaneOk(r, id);
    StepAdvances(r, id, ev, p);
    LocalReads(r, id, ev, p);
    AdvanceKeeps(r, id, Step(r.conns[id].lane, ev, p));
  }

  // ---------------------------------------------------------------------------
  // A frame arrives
  // ---------------------------------------------------------------------------

  /** The event of the stream's own lane that an arriving frame is. */
  function ArrivalOf(dir: Dir, ok: bool, o: WriteOutcome): Event {
    match dir
    case ToAgent => AgentGets(ok, o)
    case FromAgent => ServerGetsFromAgent
    case ToClient => ClientGets(ok, o)
    case FromClient => ServerGetsFromClient(o)
  }

  /**
   The head of a shared channel is its stream's own next message, and the stream's home is
   where the channel leads.
   */
  lemma HeadIsOwn(r: Relay, wire: Wire)
    requires AllWrote(r) && AllRead(r) && AllKnown(r) && CanDeliver(r, wire)
    ensures var ch := ChanOf(r.chans, wire);
            var f := ch.sent[ch.got];
            && f.id in r.conns
            && var c := r.conns[f.id];
            && Via(c.home, wire.dir) == Some(wire.ws)
            && GotOf(c.lane, wire.dir) < |LogOf(c.lane, wire.dir)|
            && LogOf(c.lane, wire.dir)[GotOf(c.lane, wire.dir)] == f.msg
  {
    var ch := ChanOf(r.chans, wire);
    assert Known(r, wire);
    var f := ch.sent[ch.got];
    assert Wrote(ch, f.id, SentOver(r.conns[f.id], wire));
    assert Read(ch, f.id, GotOver(r.conns[f.id], wire));
    NextIsOwn(f.id, ch.sent, ch.got);
  }

  /** Looking the id up in the shared table routes the frame to the stream's own handler. */
  lemma HearIsStep(r: Relay, wire: Wire, id: int, ok: bool, o: WriteOutcome, p: Pressure)
    requires id in r.conns && Booked(r.table, id, r.conns[id]) && Via(r.conns[id].home, wire.dir) == Some(wire.ws)
    requires r.conns[id].lane.s.sock.virtual == r.conns[id].home.agent.Some?
    requires Enabled(r.conns[id].lane, ArrivalOf(wire.dir, ok, o))
    requires GotOf(r.conns[id].lane, wire.dir) < |LogOf(r.conns[id].lane, wire.dir)|
    ensures var l := r.conns[id].lane;
            Hear(r, wire, id, LogOf(l, wire.dir)[GotOf(l, wire.dir)], ok, o, p)
            == Step(l, ArrivalOf(wire.dir, ok, o), p)
  {
    match wire.dir
    case ToAgent =>
    case FromAgent =>
    case ToClient =>
    case FromClient =>
  }

  /** Taking the head off one channel sends nothing and moves no stream. */
  lemma PopKeeps(r: Relay, wire: Wire)
    requires AllWrote(r) && AllKnown(r) && AllLanes(r) && AllBooked(r) && CanDeliver(r, wire)
    ensures var r1 := Pop(r, wire); AllWrote(r1) && AllKnown(r1) && AllLanes(r1) && AllBooked(r1)
  {
    var r1 := Pop(r, wire);
    forall id, v | id in r.conns
      ensures Wrote(ChanOf(r1.chans, v), id, SentOver(r1.conns[id], v))
    {
      assert Wrote(ChanOf(r.chans, v), id, SentOver(r.conns[id], v));
    }
    forall v
      ensures Known(r1, v)
    {
      assert Known(r, v);
    }
    PopLanes(r, wire);
    assert AllBooked(r1) by {
      forall id
        ensures Foreign(r1, id)
      {
        assert Foreign(r, id);
      }
    }
  }

  lemma PopLanes(r: Relay, wire: Wire)
    requires AllLanes(r)
    ensures AllLanes(Pop(r, wire))
  {
    forall id | id in r.conns
      ensures LaneOk(Pop(r, wire), id)
    {
      assert LaneOk(r, id);
      SameLane(r, Pop(r, wire), id);
    }
  }

  lemma SameLane(r: Relay, r1: Relay, id: int)
    requires id in r.conns && id in r1.conns && r1.conns[id] == r.conns[id] && LaneOk(r, id)
    requires LinksOf(r1, r.conns[id].home) == LinksOf(r, r.conns[id].home)
    ensures LaneOk(r1, id)
  {
  }

  /** One stream's received count on one channel, after the head went to stream id. */
  lemma PopReads(ch: Chan, i: int, got: nat)
    requires Read(ch, i, got) && ch.got < |ch.sent|
    ensures Read(ch.(got := ch.got + 1), i, got + if ch.sent[ch.got].id == i then 1 else 0)
  {
    NextIsOwn(i, ch.sent, ch.got);
  }

  /** Receiving in one direction moves that direction's count by one, and no other count. */
  predicate Received(l: Lane, l': Lane, dir: Dir) {
    forall d :: GotOf(l', d) == GotOf(l, d) + if d == dir then 1 else 0
  }

  lemma DeliverReads(r: Relay, wire: Wire, id: int, l': Lane)
    requires AllRead(r) && CanDeliver(r, wire) && id in r.conns
    requires ChanOf(r.chans, wire).sent[ChanOf(r.chans, wire).got].id == id
    requires Via(r.conns[id].home, wire.dir) == Some(wire.ws) && Received(r.conns[id].lane, l', wire.dir)
    ensures ReadAfter(Pop(r, wire), id, l')
  {
    var r1 := Pop(r, wire);
    forall i, v | i in r1.conns
      ensures Read(ChanOf(r1.chans, v), i, GotOver(if i == id then r1.conns[id].(lane := l') else r1.conns[i], v))
    {
      assert Read(ChanOf(r.chans, v), i, GotOver(r.conns[i], v));
      if v == wire {
        PopReads(ChanOf(r.chans, wire), i, GotOver(r.conns[i], v));
      }
    }
  }

  lemma ArrivalReceives(l: Lane, dir: Dir, ok: bool, o: WriteOutcome, p: Pressure)
    requires Enabled(l, ArrivalOf(dir, ok, o))
    ensures Received(l, Step(l, ArrivalOf(dir, ok, o), p), dir)
  {
    forall d
      ensures GotOf(Step(l, ArrivalOf(dir, ok, o), p), d) == GotOf(l, d) + if d == dir then 1 else 0
    {
      match dir
      case ToAgent =>
      case FromAgent =>
      case ToClient =>
      case FromClient =>
    }
  }

  lemma ArrivalEnabled(l: Lane, dir: Dir, ok: bool, o: WriteOutcome)
    requires GotOf(l, dir) < |LogOf(l, dir)|
    ensures Enabled(l, ArrivalOf(dir, ok, o))
  {
  }

  lemma DeliverKeeps(r: Relay, wire: Wire, ok: bool, o: WriteOutcome, p: Pressure)
    requires Core(r) && CanDeliver(r, wire)
    ensures Core(Deliver(r, wire, ok, o, p))
  {
    var ch := ChanOf(r.chans, wire);
    var f := ch.sent[ch.got];
    HeadIsOwn(r, wire);
    var l := r.conns[f.id].lane;
    assert LaneOk(r, f.id) && Booked(r.table, f.id, r.conns[f.id]);
    ArrivalEnabled(l, wire.dir, ok, o);
    HearIsStep(r, wire, f.id, ok, o, p);
    ArrivalAdvances(r, wire, f.id, ok, o, p);
    DeliverReads(r, wire, f.id, Step(l, ArrivalOf(wire.dir, ok, o), p));
    PopKeeps(r, wire);
    AdvanceKeeps(Pop(r, wire), f.id, Step(l, ArrivalOf(wire.dir, ok, o), p));
  }

  lemma ArrivalAdvances(r: Relay, wire: Wire, id: int, ok: bool, o: WriteOutcome, p: Pressure)
    requires id in r.conns && LaneInv(r.conns[id].lane) && Enabled(r.conns[id].lane, ArrivalOf(wire.dir, ok, o))
    ensures var l' := Step(r.conns[id].lane, ArrivalOf(wire.dir, ok, o), p);
            Advances(Pop(r, wire), id, l') && Received(r.conns[id].lane, l', wire.dir)
  {
    StepAdvances(Pop(r, wire), id, ArrivalOf(wire.dir, ok, o), p);
    ArrivalReceives(r.conns[id].lane, wire.dir, ok, o, p);
  }

  // ---------------------------------------------------------------------------
  // Streams come
  // ---------------------------------------------------------------------------

  /** Every id in use, or once in use, is below the next. */
  lemma GivenOutBelow(r: Relay)
    requires AllBooked(r) && KeysOk(r.table)
    ensures forall id :: id in r.table.streams ==> 1 <= id < r.table.nextId
    ensures forall id :: id in r.conns || id in r.table.leaked ==> id < r.table.nextId
  {
    forall id | id in r.table.streams
      ensures 1 <= id < r.table.nextId
    {
      assert Foreign(r, id);
      assert id in r.conns ==> Booked(r.table, id, r.conns[id]);
    }
    forall id | id in r.conns || id in r.table.leaked
      ensures id < r.table.nextId
    {
      assert Foreign(r, id);
      assert id in r.conns ==> Booked(r.table, id, r.conns[id]);
    }
  }

  /** The next id was never given out: no stream, live or gone, has it. */
  lemma NextIsFresh(r: Relay)
    requires AllBooked(r) && KeysOk(r.table) && IsId(r.table.nextId) && r.table.nextId < MAX_ID
    ensures var id := r.table.nextId;
            && NextFree(r.table) == Some(0) && After(id, 0) == id && After(id, 1) == id + 1
            && id !in r.conns && id !in r.table.streams && id !in r.table.leaked
    ensures IdFresh(r.table)
  {
    GivenOutBelow(r);
    FreshNext(Ids(r.table.streams.Keys, r.table.nextId));
    AfterStep(r.table.nextId, 0);
  }

  /** A stream nobody has heard of is on no channel. */
  lemma StrangerUnseen(r: Relay, id: int, wire: Wire)
    requires AllKnown(r) && id !in r.conns
    ensures Wrote(ChanOf(r.chans, wire), id, []) && Read(ChanOf(r.chans, wire), id, 0)
  {
    var ch := ChanOf(r.chans, wire);
    assert Known(r, wire);
    FilterNone(id, ch.sent);
    FilterNone(id, ch.sent[..ch.got]);
  }

  lemma AddOnChannel(r: Relay, id: int, h: Home, cap: nat, i: int, wire: Wire)
    requires AllKnown(r) && AllWrote(r) && AllRead(r) && id !in r.conns && (i == id || i in r.conns)
    ensures var r1 := AddConn(r, id, h, cap);
            && Wrote(ChanOf(r1.chans, wire), i, SentOver(r1.conns[i], wire))
            && Read(ChanOf(r1.chans, wire), i, GotOver(r1.conns[i], wire))
  {
    var ch := ChanOf(r.chans, wire);
    SendOnAt(r.chans, id, h, ToClient, [Open], wire);
    if i == id {
      StrangerUnseen(r, id, wire);
      WroteMore(ch, id, [Open], id, [], 0);
    } else {
      assert Wrote(ch, i, SentOver(r.conns[i], wire)) && Read(ch, i, GotOver(r.conns[i], wire));
      WroteMore(ch, id, [Open], i, SentOver(r.conns[i], wire), GotOver(r.conns[i], wire));
    }
  }

  lemma AddKnown(r: Relay, id: int, h: Home, cap: nat)
    requires AllKnown(r)
    ensures AllKnown(AddConn(r, id, h, cap))
  {
    forall wire
      ensures Known(AddConn(r, id, h, cap), wire)
    {
      assert Known(r, wire);
      SendOnAt(r.chans, id, h, ToClient, [Open], wire);
    }
  }

  lemma AddLanes(r: Relay, id: int, h: Home, cap: nat)
    requires AllLanes(r) && id !in r.conns
    ensures AllLanes(AddConn(r, id, h, cap))
  {
    var r1 := AddConn(r, id, h, cap);
    forall i | i in r1.conns
      ensures LaneOk(r1, i)
    {
      if i == id {
        NewLaneInv(h.agent.Some?, cap, LinksOf(r, h));
        assert r1.conns[i] == Conn(h, NewLane(h.agent.Some?, cap, LinksOf(r, h)));
      } else {
        assert LaneOk(r, i);
        SameLane(r, r1, i);
      }
    }
  }

  lemma AddBooked(r: Relay, t1: Table, id: int, h: Home, cap: nat)
    requires AllBooked(r) && id == r.table.nextId && t1.nextId == id + 1
    requires id !in r.conns && id !in r.table.leaked && BooksOneMore(r.table, t1, id, EntryOf(h))
    ensures AllBooked(AddConn(r, id, h, cap).(table := t1))
  {
    var r1 := AddConn(r, id, h, cap).(table := t1);
    forall i | i in r1.conns
      ensures Booked(t1, i, r1.conns[i])
    {
      assert i != id ==> Booked(r.table, i, r.conns[i]);
    }
    forall i
      ensures Foreign(r1, i)
    {
      assert Foreign(r, i);
    }
  }

  lemma OpenKeeps(r: Relay, cfg: Config, t1: Table, h: Home)
    requires RelayInv(r, cfg) && r.table.nextId < MAX_ID && t1.nextId == r.table.nextId + 1
    requires BooksOneMore(r.table, t1, r.table.nextId, EntryOf(h))
    ensures Core(AddConn(r, r.table.nextId, h, cfg.cap).(table := t1))
  {
    var id := r.table.nextId;
    var r1 := AddConn(r, id, h, cfg.cap);
    NextIsFresh(r);
    forall i, wire | i in r1.conns
      ensures Wrote(ChanOf(r1.chans, wire), i, SentOver(r1.conns[i], wire))
      ensures Read(ChanOf(r1.chans, wire), i, GotOver(r1.conns[i], wire))
    {
      AddOnChannel(r, id, h, cfg.cap, i, wire);
    }
    AddKnown(r, id, h, cfg.cap);
    AddLanes(r, id, h, cfg.cap);
    AddBooked(r, t1, id, h, cfg.cap);
    OtherTable(r1, t1);
  }

  /** The channels and the lanes do not depend on the table. */
  lemma OtherTable(r: Relay, t1: Table)
    requires AllWrote(r) && AllRead(r) && AllKnown(r) && AllLanes(r)
    ensures var r1 := r.(table := t1); AllWrote(r1) && AllRead(r1) && AllKnown(r1) && AllLanes(r1)
  {
    var r1 := r.(table := t1);
    forall wire
      ensures Known(r1, wire)
    {
      assert Known(r, wire);
    }
    forall id | id in r.conns
      ensures LaneOk(r1, id)
    {
      assert LaneOk(r, id);
      SameLane(r, r1, id);
    }
  }

  lemma OpenConnKeeps(r: Relay, cfg: Config, booked: (Table, Outcome), h: Home)
    requires RelayInv(r, cfg) && r.table.nextId < MAX_ID && TableInv(booked.0, cfg.limits)
    requires booked.1.Opened? ==>
      && booked.1.id == r.table.nextId && booked.0.nextId == r.table.nextId + 1
      && BooksOneMore(r.table, booked.0, r.table.nextId, EntryOf(h))
    ensures RelayInv(OpenConn(r, booked, h, cfg.cap), cfg)
  {
    if booked.1.Opened? {
      OpenKeeps(r, cfg, booked.0, h);
    }
  }

  lemma AgentConnectKeeps(r: Relay, cfg: Config, w: Ws, asked: Option<int>, active: Option<Ws>)
    requires RelayInv(r, cfg) && CanOpen(r, active) && w in r.table.owned
    ensures RelayInv(OpenConn(r, ConnectAgent(r.table, cfg.limits, w, asked, active),
                              Home(Or(active, 0), Some(w), Or(asked, 0)), cfg.cap), cfg)
  {
    var booked := ConnectAgent(r.table, cfg.limits, w, asked, active);
    NextIsFresh(r);
    ConnectAgentKeeps(r.table, cfg.limits, w, asked, active);
    if AgentMayConnect(r.table, cfg.limits, w, asked, active) {
      ConnectAgentBooks(r.table, cfg.limits, w, asked, active);
    }
    OpenConnKeeps(r, cfg, booked, Home(Or(active, 0), Some(w), Or(asked, 0)));
  }

  lemma PortAcceptsKeeps(r: Relay, cfg: Config, port: int, active: Option<Ws>)
    requires RelayInv(r, cfg) && CanOpen(r, active)
    ensures RelayInv(OpenConn(r, ConnectDirect(r.table, cfg.limits, port, active),
                              Home(Or(active, 0), None, port), cfg.cap), cfg)
  {
    var booked := ConnectDirect(r.table, cfg.limits, port, active);
    NextIsFresh(r);
    ConnectDirectKeeps(r.table, cfg.limits, port, active);
    OpenConnKeeps(r, cfg, booked, Home(Or(active, 0), None, port));
  }

  lemma RequestKeeps(r: Relay, cfg: Config, active: Option<Ws>)
    requires RelayInv(r, cfg) && CanOpen(r, active)
    ensures RelayInv(r.(table := ConnectHttp(r.table, cfg.limits, active).0), cfg)
  {
    var t1 := ConnectHttp(r.table, cfg.limits, active).0;
    NextIsFresh(r);
    ConnectHttpKeeps(r.table, cfg.limits, active);
    OtherTable(r, t1);
    if t1 != r.table {
      RequestBooked(r, t1, active.value);
    }
  }

  lemma RequestBooked(r: Relay, t1: Table, w: Ws)
    requires AllBooked(r) && t1.leaked == r.table.leaked && r.table.nextId < t1.nextId
    requires t1.streams == r.table.streams[r.table.nextId := Http(w)] && r.table.nextId !in r.conns
    ensures AllBooked(r.(table := t1))
  {
    forall id | id in r.conns
      ensures Booked(t1, id, r.conns[id])
    {
      assert Booked(r.table, id, r.conns[id]);
    }
    forall id
      ensures Foreign(r.(table := t1), id)
    {
      assert Foreign(r, id);
    }
  }

  // ---------------------------------------------------------------------------
  // WebSockets come and go
  // ---------------------------------------------------------------------------

  lemma HttpDoneKeeps(r: Relay, cfg: Config, id: int)
    requires RelayInv(r, cfg)
    ensures id in r.table.streams && r.table.streams[id].Http? ==> RelayInv(r.(table := Release(r.table, id)), cfg)
  {
    if id in r.table.streams && r.table.streams[id].Http? {
      ReleaseKeeps(r.table, cfg.limits, id, {});
      assert id in r.conns ==> Booked(r.table, id, r.conns[id]);
      ReleaseOther(r, id);
    }
  }

  /** Releasing an id that is no stream of the relay's. */
  lemma ReleaseOther(r: Relay, id: int)
    requires Core(r) && id !in r.conns
    ensures Core(r.(table := Release(r.table, id)))
  {
    var t1 := Release(r.table, id);
    ReleaseFrame(r.table, id);
    OtherTable(r, t1);
    forall i | i in r.conns
      ensures Booked(t1, i, r.conns[i])
    {
      assert Booked(r.table, i, r.conns[i]);
    }
    forall i
      ensures Foreign(r.(table := t1), i)
    {
      assert Foreign(r, i);
    }
  }

  /** More WebSockets open, or other parties registered: no stream notices. */
  lemma Joined(r: Relay, w: Ws, t1: Table)
    requires Core(r) && NewWs(r, w) && t1 == r.table.(owned := t1.owned, clients := t1.clients)
    ensures Core(Joins(r, w, t1))
  {
    var r1 := Joins(r, w, t1);
    forall wire
      ensures Known(r1, wire)
    {
      assert Known(r, wire);
    }
    forall id | id in r.conns
      ensures LaneOk(r1, id) && Booked(t1, id, r1.conns[id])
    {
      assert LaneOk(r, id) && Booked(r.table, id, r.conns[id]);
      SameLane(r, r1, id);
    }
    forall id
      ensures Foreign(r1, id)
    {
      assert Foreign(r, id);
    }
  }

  lemma NoStreamOf(r: Relay, w: Ws)
    requires AllBooked(r) && NewWs(r, w)
    ensures OfAgent(Counted(r.table), w) == {}
  {
    forall id | id in Counted(r.table)
      ensures id !in OfAgent(Counted(r.table), w)
    {
      assert Foreign(r, id);
      assert id in r.conns ==> Booked(r.table, id, r.conns[id]);
    }
  }

  lemma AgentRegistersKeeps(r: Relay, cfg: Config, w: Ws)
    requires RelayInv(r, cfg) && NewWs(r, w)
    ensures RelayInv(Joins(r, w, AgentJoins(r.table, w)), cfg)
  {
    NoStreamOf(r, w);
    AgentJoinsKeeps(r.table, cfg.limits, w);
    Joined(r, w, AgentJoins(r.table, w));
  }

  lemma ClientRegistersKeeps(r: Relay, cfg: Config, w: Ws)
    requires RelayInv(r, cfg) && NewWs(r, w)
    ensures RelayInv(Joins(r, w, ClientJoins(r.table, cfg.limits, w)), cfg)
  {
    ClientJoinsKeeps(r.table, cfg.limits, w);
    Joined(r, w, ClientJoins(r.table, cfg.limits, w));
  }

  lemma LeaveLanes(r: Relay, openS: set<Ws>, openP: set<Ws>)
    requires AllLanes(r) && openS <= r.openS && openP <= r.openP
    ensures AllLanes(LeaveOpenAll(r, openS, openP))
  {
    var r1 := LeaveOpenAll(r, openS, openP);
    forall id | id in r1.conns
      ensures LaneOk(r1, id)
    {
      assert LaneOk(r, id);
      LeaveOpenProof(r.conns[id].lane, LinksOf(r1, r.conns[id].home));
    }
  }

  lemma LeaveOpenKeeps(r: Relay, openS: set<Ws>, openP: set<Ws>)
    requires Core(r) && openS <= r.openS && openP <= r.openP
    ensures Core(LeaveOpenAll(r, openS, openP))
  {
    var r1 := LeaveOpenAll(r, openS, openP);
    LeaveLanes(r, openS, openP);
    forall id, wire | id in r1.conns
      ensures Wrote(ChanOf(r1.chans, wire), id, SentOver(r1.conns[id], wire))
      ensures Read(ChanOf(r1.chans, wire), id, GotOver(r1.conns[id], wire))
    {
      assert Wrote(ChanOf(r.chans, wire), id, SentOver(r.conns[id], wire));
      assert Read(ChanOf(r.chans, wire), id, GotOver(r.conns[id], wire));
    }
    forall wire
      ensures Known(r1, wire)
    {
      assert Known(r, wire);
    }
    forall id
      ensures Foreign(r1, id) && (id in r1.conns ==> Booked(r1.table, id, r1.conns[id]))
    {
      assert Foreign(r, id);
      assert id in r.conns ==> Booked(r.table, id, r.conns[id]);
    }
  }

  lemma ServerDoesKeeps(r: Relay, id: int, sev: ServerEvent, p: Pressure)
    requires Core(r) && (sev.AbortWithNotice? || sev.AbortQuietly?)
    ensures Core(ServerDoes(r, id, sev, p))
    ensures ServerDoes(r, id, sev, p).table == Release(r.table, id)
  {
    if id !in r.conns {
      ReleaseOther(r, id);
    } else {
      assert LaneOk(r, id) && Booked(r.table, id, r.conns[id]);
      LocalKeeps(r, id, AtServer(sev), p);
      AbortReleases(r.table, id, r.conns[id], sev, p);
    }
  }

  /** An abort takes a stream out of the table with its onCleanup, if it still was there. */
  lemma AbortReleases(t: Table, id: int, c: Conn, sev: ServerEvent, p: Pressure)
    requires Booked(t, id, c) && (c.lane.s.life.leaked ==> c.lane.s.life.cleaned)
    requires sev.AbortWithNotice? || sev.AbortQuietly?
    ensures Book(t, id, c.lane.s.life, Step(c.lane, AtServer(sev), p).s.life) == Release(t, id)
  {
  }

  lemma {:induction false} AbortAllKeeps(r: Relay, order: seq<int>, sev: ServerEvent, p: Pressure)
    requires Core(r) && (sev.AbortWithNotice? || sev.AbortQuietly?)
    ensures Core(AbortAll(r, order, sev, p))
    ensures AbortAll(r, order, sev, p).table == ReleaseAll(r.table, order)
  {
    if order != [] {
      var n := |order| - 1;
      AbortAllKeeps(r, order[..n], sev, p);
      ServerDoesKeeps(AbortAll(r, order[..n], sev, p), order[n], sev, p);
    }
  }

  /** Registrations are nothing to the streams. */
  lemma Unregistered(r: Relay, t1: Table)
    requires Core(r) && t1 == r.table.(owned := t1.owned, clients := t1.clients)
    ensures Core(r.(table := t1))
  {
    OtherTable(r, t1);
    forall id
      ensures Foreign(r.(table := t1), id) && (id in r.conns ==> Booked(t1, id, r.conns[id]))
    {
      assert Foreign(r, id);
      assert id in r.conns ==> Booked(r.table, id, r.conns[id]);
    }
  }

  lemma AgentGoneKeeps(r: Relay, cfg: Config, w: Ws, order: seq<int>, p: Pressure)
    requires RelayInv(r, cfg) && w in r.table.owned && (set id | id in order) == r.table.owned[w]
    ensures var r0 := r.(table := r.table.(owned := r.table.owned - {w}));
            RelayInv(AbortAll(r0, order, AbortWithNotice, p), cfg)
            && AbortAll(r0, order, AbortWithNotice, p).table == AgentLeaves(r.table, w, order)
  {
    var t0 := r.table.(owned := r.table.owned - {w});
    Unregistered(r, t0);
    AbortAllKeeps(r.(table := t0), order, AbortWithNotice, p);
    AgentLeavesKeeps(r.table, cfg.limits, w, order);
  }

  lemma ClientGoneKeeps(r: Relay, cfg: Config, w: Ws, order: seq<int>, p: Pressure)
    requires RelayInv(r, cfg) && (set id | id in order) == OfClient(r.table.streams, w)
    ensures var r0 := r.(table := r.table.(clients := r.table.clients - {w}));
            RelayInv(AbortAll(r0, order, AbortQuietly, p), cfg)
            && AbortAll(r0, order, AbortQuietly, p).table == ClientLeaves(r.table, w, order)
  {
    var t0 := r.table.(clients := r.table.clients - {w});
    Unregistered(r, t0);
    AbortAllKeeps(r.(table := t0), order, AbortQuietly, p);
    ClientLeavesKeeps(r.table, cfg.limits, w, order);
  }

  // ---------------------------------------------------------------------------
  // Every step, every run
  // ---------------------------------------------------------------------------

  lemma BookKeeps(t: Table, lim: Limits, id: int, before: Life, after: Life)
    requires TableInv(t, lim)
    ensures TableInv(Book(t, id, before, after), lim)
  {
    ForgetKeeps(t, lim, id);
    ReleaseKeeps(t, lim, id, {});
  }

  lemma LocalStepKeeps(r: Relay, cfg: Config, id: int, ev: Event, p: Pressure)
    requires RelayInv(r, cfg) && id in r.conns && IsLocal(ev)
    ensures RelayInv(Advance(r, id, Step(r.conns[id].lane, ev, p)), cfg)
  {
    LocalKeeps(r, id, ev, p);
    BookKeeps(r.table, cfg.limits, id, r.conns[id].lane.s.life, Step(r.conns[id].lane, ev, p).s.life);
  }

  lemma ArrivesKeeps(r: Relay, cfg: Config, wire: Wire, ok: bool, o: WriteOutcome, p: Pressure)
    requires RelayInv(r, cfg) && CanDeliver(r, wire)
    ensures RelayInv(Deliver(r, wire, ok, o, p), cfg)
  {
    var ch := ChanOf(r.chans, wire);
    var f := ch.sent[ch.got];
    DeliverKeeps(r, wire, ok, o, p);
    if f.id in r.conns {
      BookKeeps(r.table, cfg.limits, f.id, r.conns[f.id].lane.s.life, Hear(r, wire, f.id, f.msg, ok, o, p).s.life);
    }
  }

  /** Every event of the relay keeps its invariant. */
  lemma NextKeeps(r: Relay, ev: RelayEvent, cfg: Config)
    requires RelayInv(r, cfg) && Possible(r, ev)
    ensures RelayInv(Next(r, ev, cfg), cfg)
  {
    match ev
    case Local(id, lev, p) => LocalStepKeeps(r, cfg, id, lev, p);
    case Arrives(wire, ok, o, p) => ArrivesKeeps(r, cfg, wire, ok, o, p);
    case AgentConnects(w, asked, active) => AgentConnectKeeps(r, cfg, w, asked, active);
    case PortAccepts(port, active) => PortAcceptsKeeps(r, cfg, port, active);
    case Requested(active) => RequestKeeps(r, cfg, active);
    case HttpDone(id) => HttpDoneKeeps(r, cfg, id);
    case AgentRegisters(w) => AgentRegistersKeeps(r, cfg, w);
    case ClientRegisters(w) => ClientRegistersKeeps(r, cfg, w);
    case EndsLeaveOpen(openS, openP) => LeaveOpenKeeps(r, openS, openP);
    case AgentGone(w, order, p) => AgentGoneKeeps(r, cfg, w, order, p);
    case ClientGone(w, order, p) => ClientGoneKeeps(r, cfg, w, order, p);
  }
}
