/**
 WsFrameWriter (src/server/WsFrameWriter.js): a Writable that cuts chunks into frames, waits
 for the WebSocket to drain, and can be paused, resumed and destroyed at any moment,
 including while it waits. The specification below is a state machine with one step per
 event-loop turn; the class is the code, whose suspended `await` is an explicit field.
 */
module FrameWriter {
  import opened Options
  import opened Protocol

  // MAX_FRAME_PAYLOAD is configurable, and at least 1.
  type Positive = x: int | x >= 1 witness 1

  // What a turn sees of the WebSocket: readyState, and after which frame the buffered amount
  // is above the high-water mark or ws.send throws (frames counted from the first).
  datatype Net = Net(open: bool, high: set<nat>, fails: set<nat>)

  // The unsent part of the chunk of write number `id`, whose callback is still to be called.
  datatype Job = Job(id: nat, rest: Bytes)

  // One call of a write's callback.
  datatype Call = Call(id: nat, ok: bool)

  // `waiting` is the activation suspended in waitDrain; `written` is every byte handed to
  // _write, `lost` what a failed write left unsent.
  datatype Writer = Writer(max: Positive, peerPaused: bool, closed: bool, pending: Option<Job>, waiting: Option<Job>,
                           sent: seq<Bytes>, writes: nat, calls: seq<Call>, written: Bytes, lost: Option<Bytes>)

  function NewWriter(max: Positive): Writer {
    Writer(max, false, false, None, None, [], 0, [], [], None)
  }

  // ---------------------------------------------------------------------------
  // Turns
  // ---------------------------------------------------------------------------

  function Finish(w: Writer, j: Job): Writer {
    w.(calls := w.calls + [Call(j.id, true)])
  }

  function Fail(w: Writer, j: Job): Writer {
    w.(calls := w.calls + [Call(j.id, false)], lost := Some(j.rest))
  }

  function Cut(max: Positive, rest: Bytes): nat {
    if max < |rest| then max else |rest|
  }

  /** The loop of _sendChunk, from its head. */
  function SendRest(w: Writer, j: Job, n: Net): Writer
    decreases |j.rest|, 1
  {
    if j.rest == [] then Finish(w, j)
    else if w.closed || !n.open then Fail(w, j)
    else if |w.sent| in n.high then w.(waiting := Some(j))
    else SendOne(w, j, n)
  }

  /** The rest of an iteration, after the wait if there was one. */
  function SendOne(w: Writer, j: Job, n: Net): Writer
    requires j.rest != []
    decreases |j.rest|, 0
  {
    if w.closed then Fail(w, j)
    else if w.peerPaused then w.(pending := Some(j))
    else if !n.open || |w.sent| in n.fails then Fail(w, j)
    else SendRest(w.(sent := w.sent + [j.rest[..Cut(w.max, j.rest)]]), Job(j.id, j.rest[Cut(w.max, j.rest)..]), n)
  }

  predicate Busy(w: Writer) {
    w.pending.Some? || w.waiting.Some?
  }

  function Write(w: Writer, chunk: Bytes, n: Net): Writer {
    var j := Job(w.writes, chunk);
    var w1 := w.(writes := w.writes + 1, written := w.written + chunk);
    if w.closed then Fail(w1, j)
    else if w.peerPaused then w1.(pending := Some(j))
    else SendRest(w1, j, n)
  }

  function DrainEnds(w: Writer, drained: bool, n: Net): Writer
    requires w.waiting.Some? && w.waiting.value.rest != []
  {
    var w1 := w.(waiting := None);
    if drained then SendOne(w1, w.waiting.value, n) else Fail(w1, w.waiting.value)
  }

  function SetPeerPaused(w: Writer, paused: bool, n: Net): Writer {
    var w1 := w.(peerPaused := paused);
    if !paused && w.pending.Some? && !w.closed then SendRest(w1.(pending := None), w.pending.value, n) else w1
  }

  function Destroy(w: Writer): Writer {
    var w1 := w.(closed := true);
    if w.pending.Some? then Fail(w1.(pending := None), w.pending.value) else w1
  }

  datatype Event =
    | Writes(chunk: Bytes)
    | Drain(drained: bool)      // 'drain', or 'close' or the timeout
    | Peer(paused: bool)
    | Destroyed

  /**
   What Node guarantees: one _write at a time, none after a failed one, one _destroy; and
   only a suspended activation resumes.
   */
  predicate Possible(w: Writer, ev: Event) {
    match ev
    case Writes(_) => !Busy(w) && w.lost.None?
    case Drain(_) => w.waiting.Some? && w.waiting.value.rest != []
    case Peer(_) => true
    case Destroyed => !w.closed
  }

  function Next(w: Writer, ev: Event, n: Net): Writer
    requires Possible(w, ev)
  {
    match ev
    case Writes(chunk) => Write(w, chunk, n)
    case Drain(drained) => DrainEnds(w, drained, n)
    case Peer(paused) => SetPeerPaused(w, paused, n)
    case Destroyed => Destroy(w)
  }

  // ---------------------------------------------------------------------------
  // What every turn keeps
  // ---------------------------------------------------------------------------

  /** What was written and not sent. */
  function Rest(w: Writer): Bytes {
    if w.pending.Some? then w.pending.value.rest
    else if w.waiting.Some? then w.waiting.value.rest
    else if w.lost.Some? then w.lost.value
    else []
  }

  predicate SentOk(w: Writer) {
    forall i :: 0 <= i < |w.sent| ==> 1 <= |w.sent[i]| <= w.max
  }

  /** The callbacks were called once each, in order; only the last may have failed. */
  predicate CallsOk(w: Writer) {
    && |w.calls| + (if Busy(w) then 1 else 0) == w.writes
    && (forall i :: 0 <= i < |w.calls| ==> w.calls[i].id == i)
    && (forall i :: 0 <= i < |w.calls| ==> (w.calls[i].ok <==> !(w.lost.Some? && i == |w.calls| - 1)))
    && (w.lost.Some? ==> w.calls != [] && !Busy(w))
  }

  predicate JobsOk(w: Writer) {
    && !(w.pending.Some? && w.waiting.Some?)
    && (w.pending.Some? ==> w.peerPaused && !w.closed && w.pending.value.id == |w.calls|)
    && (w.waiting.Some? ==> w.waiting.value.rest != [] && w.waiting.value.id == |w.calls|)
  }

  predicate WriterInv(w: Writer) {
    SentOk(w) && CallsOk(w) && JobsOk(w) && Flatten(w.sent) + Rest(w) == w.written
  }

  /** In the middle of a turn: the chunk of job j is being sent. */
  predicate Sending(w: Writer, j: Job) {
    && SentOk(w) && !Busy(w) && w.lost.None?
    && |w.calls| + 1 == w.writes && j.id == |w.calls|
    && (forall i :: 0 <= i < |w.calls| ==> w.calls[i] == Call(i, true))
    && Flatten(w.sent) + j.rest == w.written
  }

  lemma {:induction false} SendRestKeeps(w: Writer, j: Job, n: Net)
    requires Sending(w, j)
    ensures WriterInv(SendRest(w, j, n))
    decreases |j.rest|, 1
  {
    if j.rest != [] && !w.closed && n.open && |w.sent| !in n.high {
      SendOneKeeps(w, j, n);
    }
  }

  lemma {:induction false} SendOneKeeps(w: Writer, j: Job, n: Net)
    requires Sending(w, j) && j.rest != []
    ensures WriterInv(SendOne(w, j, n))
    decreases |j.rest|, 0
  {
    if !w.closed && !w.peerPaused && n.open && |w.sent| !in n.fails {
      var k := Cut(w.max, j.rest);
      var w1, j1 := w.(sent := w.sent + [j.rest[..k]]), Job(j.id, j.rest[k..]);
      FlattenConcat(w.sent, [j.rest[..k]]);
      assert Flatten([j.rest[..k]]) == j.rest[..k];
      assert Flatten(w1.sent) + j1.rest == Flatten(w.sent) + (j.rest[..k] + j.rest[k..]);
      assert j.rest[..k] + j.rest[k..] == j.rest;
      SendRestKeeps(w1, j1, n);
    }
  }

  lemma WriteKeeps(w: Writer, chunk: Bytes, n: Net)
    requires WriterInv(w) && Possible(w, Writes(chunk))
    ensures WriterInv(Write(w, chunk, n))
  {
    hide SendRest, WriterInv, Sending;
    var w1, j := w.(writes := w.writes + 1, written := w.written + chunk), Job(w.writes, chunk);
    WriteStarts(w, chunk);
    if w.closed {
      FailKeeps(w1, j);
    } else if w.peerPaused {
      HoldKeeps(w1, j);
    } else {
      SendRestKeeps(w1, j, n);
    }
  }

  /** A chunk accepted. */
  lemma WriteStarts(w: Writer, chunk: Bytes)
    requires WriterInv(w) && Possible(w, Writes(chunk))
    ensures Sending(w.(writes := w.writes + 1, written := w.written + chunk), Job(w.writes, chunk))
  {
    hide Flatten;
    assert Flatten(w.sent) + [] == Flatten(w.sent);
  }

  /** It may be refused, or held back. */
  lemma FailKeeps(w: Writer, j: Job)
    requires Sending(w, j)
    ensures WriterInv(Fail(w, j))
  {
    hide Flatten;
  }

  lemma HoldKeeps(w: Writer, j: Job)
    requires Sending(w, j) && w.peerPaused && !w.closed
    ensures WriterInv(w.(pending := Some(j)))
  {
    hide Flatten;
  }

  lemma DrainKeeps(w: Writer, drained: bool, n: Net)
    requires WriterInv(w) && Possible(w, Drain(drained))
    ensures WriterInv(DrainEnds(w, drained, n))
  {
    hide SendOne;
    if drained {
      SendOneKeeps(w.(waiting := None), w.waiting.value, n);
    }
  }

  lemma PeerKeeps(w: Writer, paused: bool, n: Net)
    requires WriterInv(w)
    ensures WriterInv(SetPeerPaused(w, paused, n))
  {
    hide SendRest;
    if !paused && w.pending.Some? && !w.closed {
      SendRestKeeps(w.(peerPaused := paused, pending := None), w.pending.value, n);
    }
  }

  lemma DestroyKeeps(w: Writer)
    requires WriterInv(w) && !w.closed
    ensures WriterInv(Destroy(w))
  {
  }

  /** Every turn keeps the invariant. */
  lemma NextKeeps(w: Writer, ev: Event, n: Net)
    requires WriterInv(w) && Possible(w, ev)
    ensures WriterInv(Next(w, ev, n))
  {
    hide WriterInv, Write, DrainEnds, SetPeerPaused, Destroy;
    match ev
    case Writes(chunk) => WriteKeeps(w, chunk, n);
    case Drain(drained) => DrainKeeps(w, drained, n);
    case Peer(paused) => PeerKeeps(w, paused, n);
    case Destroyed => DestroyKeeps(w);
  }

  /** What a turn leaves of the flags, and that nothing sent is unsent. */
  lemma {:induction false} SendRestFrame(w: Writer, j: Job, n: Net)
    ensures var t := SendRest(w, j, n);
            && t.max == w.max && t.peerPaused == w.peerPaused && t.closed == w.closed
            && t.writes == w.writes && t.written == w.written
            && w.sent <= t.sent && w.calls <= t.calls && ((w.peerPaused || w.closed) ==> t.sent == w.sent)
    decreases |j.rest|, 1
  {
    if j.rest != [] && !w.closed && n.open && |w.sent| !in n.high {
      SendOneFrame(w, j, n);
    }
  }

  lemma {:induction false} SendOneFrame(w: Writer, j: Job, n: Net)
    requires j.rest != []
    ensures var t := SendOne(w, j, n);
            && t.max == w.max && t.peerPaused == w.peerPaused && t.closed == w.closed
            && t.writes == w.writes && t.written == w.written
            && w.sent <= t.sent && w.calls <= t.calls && ((w.peerPaused || w.closed) ==> t.sent == w.sent)
    decreases |j.rest|, 0
  {
    if !w.closed && !w.peerPaused && n.open && |w.sent| !in n.fails {
      SendRestFrame(w.(sent := w.sent + [j.rest[..Cut(w.max, j.rest)]]), Job(j.id, j.rest[Cut(w.max, j.rest)..]), n);
    }
  }

  /** No frame goes out in a turn that leaves the peer paused, nor once destroyed. */
  lemma QuietWhilePaused(w: Writer, ev: Event, n: Net)
    requires Possible(w, ev)
    ensures var t := Next(w, ev, n);
            && w.sent <= t.sent && w.calls <= t.calls && w.written <= t.written
            && t.max == w.max && (t.peerPaused || t.closed ==> t.sent == w.sent)
            && t.peerPaused == (if ev.Peer? then ev.paused else w.peerPaused)
            && t.closed == (w.closed || ev.Destroyed?)
  {
    match ev
    case Writes(chunk) =>
      SendRestFrame(w.(writes := w.writes + 1, written := w.written + chunk), Job(w.writes, chunk), n);
    case Drain(drained) => SendOneFrame(w.(waiting := None), w.waiting.value, n);
    case Peer(paused) =>
      if w.pending.Some? {
        SendRestFrame(w.(peerPaused := paused, pending := None), w.pending.value, n);
      }
    case Destroyed =>
  }

  // ---------------------------------------------------------------------------
  // Nothing fails, waits or stays behind without a cause
  // ---------------------------------------------------------------------------

  /** The WebSocket is open, and no frame still to come meets a full buffer or a failing send. */
  predicate Calm(w: Writer, n: Net) {
    n.open && (forall k :: k in n.high ==> k < |w.sent|) && Unfailing(w, n)
  }

  predicate Unfailing(w: Writer, n: Net) {
    forall k :: k in n.fails ==> k < |w.sent|
  }

  /** How many frames a chunk takes: as few as can be. */
  function Frames(max: Positive, bytes: nat): nat {
    if bytes == 0 then 0 else if bytes <= max then 1 else 1 + Frames(max, bytes - max)
  }

  lemma {:induction false} FramesFit(max: Positive, bytes: nat)
    ensures bytes <= Frames(max, bytes) * max < bytes + max
  {
    if bytes > max {
      FramesFit(max, bytes - max);
      var n := Frames(max, bytes - max);
      assert (1 + n) * max == max + n * max;
    }
  }

  /** With the way free, the whole chunk goes out, in as few frames as can be, and is called back. */
  lemma {:induction false} SendRestCompletes(w: Writer, j: Job, n: Net)
    requires !w.closed && !w.peerPaused && Calm(w, n)
    ensures var t := SendRest(w, j, n);
            && t.calls == w.calls + [Call(j.id, true)] && Flatten(t.sent) == Flatten(w.sent) + j.rest
            && |t.sent| == |w.sent| + Frames(w.max, |j.rest|)
            && t.pending == w.pending && t.waiting == w.waiting && t.lost == w.lost
    decreases |j.rest|, 1
  {
    if j.rest != [] {
      SendOneCompletes(w, j, n);
    } else {
      assert Flatten(w.sent) + [] == Flatten(w.sent);
    }
  }

  lemma {:induction false} SendOneCompletes(w: Writer, j: Job, n: Net)
    requires !w.closed && !w.peerPaused && Calm(w, n) && j.rest != []
    ensures var t := SendOne(w, j, n);
            && t.calls == w.calls + [Call(j.id, true)] && Flatten(t.sent) == Flatten(w.sent) + j.rest
            && |t.sent| == |w.sent| + Frames(w.max, |j.rest|)
            && t.pending == w.pending && t.waiting == w.waiting && t.lost == w.lost
    decreases |j.rest|, 0
  {
    var k := Cut(w.max, j.rest);
    var w1, j1 := w.(sent := w.sent + [j.rest[..k]]), Job(j.id, j.rest[k..]);
    FlattenConcat(w.sent, [j.rest[..k]]);
    assert Flatten([j.rest[..k]]) == j.rest[..k];
    assert Flatten(w.sent) + j.rest[..k] + j1.rest == Flatten(w.sent) + j.rest by {
      assert j.rest[..k] + j.rest[k..] == j.rest;
    }
    SendRestCompletes(w1, j1, n);
  }

  /**
   A turn with the way free completes what there is to send: a write, the chunk held back for a
   peer that resumes, or the one that waited for the drain.
   */
  lemma TurnCompletes(w: Writer, ev: Event, n: Net)
    requires WriterInv(w) && Possible(w, ev) && !w.closed && Calm(w, n)
    requires || (ev.Writes? && !w.peerPaused) || (ev == Peer(false) && w.waiting.None?)
             || (ev == Drain(true) && !w.peerPaused)
    ensures var t := Next(w, ev, n);
            && !Busy(t) && t.lost == w.lost
            && (w.lost.None? ==> Flatten(t.sent) == t.written)
            && t.calls == w.calls + (if ev.Writes? then [Call(w.writes, true)]
                                     else if Busy(w) then [Call(|w.calls|, true)] else [])
            && |t.sent| == |w.sent| + Frames(w.max, |if ev.Writes? then ev.chunk else if Busy(w) then Rest(w) else []|)
  {
    hide SendRest, SendOne;
    NextKeeps(w, ev, n);
    match ev
    case Writes(chunk) =>
      SendRestCompletes(w.(writes := w.writes + 1, written := w.written + chunk), Job(w.writes, chunk), n);
    case Peer(paused) =>
      if w.pending.Some? {
        SendRestCompletes(w.(peerPaused := paused, pending := None), w.pending.value, n);
      }
    case Drain(drained) => SendOneCompletes(w.(waiting := None), w.waiting.value, n);
  }

  /** What can make a write fail in a turn. */
  predicate Trouble(w: Writer, ev: Event, n: Net) {
    w.closed || ev.Destroyed? || ev == Drain(false) || !n.open || !Unfailing(w, n)
  }

  lemma {:induction false} SendRestHolds(w: Writer, j: Job, n: Net)
    requires !w.closed && n.open && Unfailing(w, n)
    ensures var t := SendRest(w, j, n);
            && t.lost == w.lost && (t.waiting != w.waiting ==> |t.sent| in n.high)
            && (t.pending != w.pending ==> w.peerPaused)
            && (t.calls == w.calls || t.calls == w.calls + [Call(j.id, true)])
    decreases |j.rest|, 1
  {
    if j.rest != [] && |w.sent| !in n.high {
      SendOneHolds(w, j, n);
    }
  }

  lemma {:induction false} SendOneHolds(w: Writer, j: Job, n: Net)
    requires !w.closed && n.open && Unfailing(w, n) && j.rest != []
    ensures var t := SendOne(w, j, n);
            && t.lost == w.lost && (t.waiting != w.waiting ==> |t.sent| in n.high)
            && (t.pending != w.pending ==> w.peerPaused)
            && (t.calls == w.calls || t.calls == w.calls + [Call(j.id, true)])
    decreases |j.rest|, 0
  {
    if !w.peerPaused {
      SendRestHolds(w.(sent := w.sent + [j.rest[..Cut(w.max, j.rest)]]), Job(j.id, j.rest[Cut(w.max, j.rest)..]), n);
    }
  }

  /** A chunk is held back only for a paused peer, and waits only at a full buffer. */
  predicate HeldFor(w: Writer, t: Writer, n: Net) {
    && (t.pending.Some? && t.pending != w.pending ==> t.peerPaused)
    && (t.waiting.Some? && t.waiting != w.waiting ==> |t.sent| in n.high)
  }

  /** Without trouble no write fails, and what is not sent has a cause. */
  lemma TurnHolds(w: Writer, ev: Event, n: Net)
    requires WriterInv(w) && Possible(w, ev) && !Trouble(w, ev, n)
    ensures var t := Next(w, ev, n);
            && t.lost == w.lost && HeldFor(w, t, n)
            && (forall i :: |w.calls| <= i < |t.calls| ==> t.calls[i].ok)
  {
    hide SendRest, SendOne, WriterInv;
    match ev
    case Writes(chunk) =>
      SendRestHolds(w.(writes := w.writes + 1, written := w.written + chunk), Job(w.writes, chunk), n);
    case Peer(paused) =>
      if w.pending.Some? {
        SendRestHolds(w.(peerPaused := paused, pending := None), w.pending.value, n);
      }
    case Drain(drained) =>
      SendOneHolds(w.(waiting := None), w.waiting.value, n);
      SendOneFrame(w.(waiting := None), w.waiting.value, n);
  }

  /** No frame goes into a full buffer, a closed WebSocket or a failing send (after a drain, the first may). */
  predicate Fitting(w: Writer, t: Writer, n: Net, drained: bool) {
    && (|t.sent| > |w.sent| ==> n.open)
    && forall k :: |w.sent| <= k < |t.sent| ==> k !in n.fails && (k in n.high ==> drained && k == |w.sent|)
  }

  lemma {:induction false} SendRestFits(w: Writer, j: Job, n: Net)
    ensures Fitting(w, SendRest(w, j, n), n, false)
    decreases |j.rest|, 1
  {
    if j.rest != [] && !w.closed && n.open && |w.sent| !in n.high {
      SendOneFits(w, j, n);
    }
  }

  lemma {:induction false} SendOneFits(w: Writer, j: Job, n: Net)
    requires j.rest != []
    ensures Fitting(w, SendOne(w, j, n), n, true)
    decreases |j.rest|, 0
  {
    if !w.closed && !w.peerPaused && n.open && |w.sent| !in n.fails {
      SendRestFits(w.(sent := w.sent + [j.rest[..Cut(w.max, j.rest)]]), Job(j.id, j.rest[Cut(w.max, j.rest)..]), n);
    }
  }

  lemma TurnFits(w: Writer, ev: Event, n: Net)
    requires Possible(w, ev)
    ensures Fitting(w, Next(w, ev, n), n, ev.Drain?)
  {
    hide SendRest, SendOne;
    match ev
    case Writes(chunk) =>
      SendRestFits(w.(writes := w.writes + 1, written := w.written + chunk), Job(w.writes, chunk), n);
    case Peer(paused) =>
      if w.pending.Some? {
        SendRestFits(w.(peerPaused := paused, pending := None), w.pending.value, n);
      }
    case Drain(drained) => SendOneFits(w.(waiting := None), w.waiting.value, n);
    case Destroyed =>
  }

  /**
   What does fail: a write after the end, the chunk held back when the end comes, the chunk whose
   wait ends without a drain, and a chunk for a WebSocket that is not open. Nothing is sent then.
   */
  lemma TurnFails(w: Writer, ev: Event, n: Net)
    requires WriterInv(w) && Possible(w, ev)
    requires || (ev.Writes? && (w.closed || (!w.peerPaused && !n.open && ev.chunk != []))) || ev == Drain(false)
             || (ev.Destroyed? && w.pending.Some?) || (ev == Drain(true) && w.closed)
    ensures var t := Next(w, ev, n);
            && t.calls == w.calls + [Call(|w.calls|, false)] && t.lost.Some? && t.sent == w.sent && !Busy(t)
  {
  }

  // ---------------------------------------------------------------------------
  // Runs
  // ---------------------------------------------------------------------------

  datatype Turn = Turn(ev: Event, net: Net)

  predicate CanRun(w: Writer, turns: seq<Turn>)
    decreases |turns|
  {
    turns == [] || (Possible(w, turns[0].ev) && CanRun(Next(w, turns[0].ev, turns[0].net), turns[1..]))
  }

  function Run(w: Writer, turns: seq<Turn>): Writer
    requires CanRun(w, turns)
    decreases |turns|
  {
    if turns == [] then w else Run(Next(w, turns[0].ev, turns[0].net), turns[1..])
  }

  lemma {:induction false} RunKeeps(w: Writer, turns: seq<Turn>)
    requires WriterInv(w) && CanRun(w, turns)
    ensures WriterInv(Run(w, turns))
    decreases |turns|
  {
    if turns != [] {
      NextKeeps(w, turns[0].ev, turns[0].net);
      RunKeeps(Next(w, turns[0].ev, turns[0].net), turns[1..]);
    }
  }

  /**
   After any interleaving of writes, pauses, resumes, drains and a destroy: the payloads sent
   followed by the unsent remainder are the bytes written, in order; every payload fits a
   frame; at most one activation or pending chunk exists; every callback but that one's has
   been called exactly once, in order; and none is outstanding once the writer is destroyed
   and any drain wait has ended.
   */
  lemma EveryRun(max: Positive, turns: seq<Turn>)
    requires CanRun(NewWriter(max), turns)
    ensures var w := Run(NewWriter(max), turns);
            && Flatten(w.sent) + Rest(w) == w.written
            && SentOk(w)
            && !(w.pending.Some? && w.waiting.Some?)
            && (forall i :: 0 <= i < |w.calls| ==> w.calls[i].id == i)
            && |w.calls| == (if Busy(w) then w.writes - 1 else w.writes)
            && (w.closed && w.waiting.None? ==> |w.calls| == w.writes)
            && ((forall i :: 0 <= i < |w.calls| ==> w.calls[i].ok) && !Busy(w) ==> Flatten(w.sent) == w.written)
  {
    RunKeeps(NewWriter(max), turns);
    var w := Run(NewWriter(max), turns);
    assert w.lost.Some? ==> !w.calls[|w.calls| - 1].ok;
    assert Flatten(w.sent) + [] == Flatten(w.sent);
  }

  /** No turn of the run has trouble. */
  predicate Untroubled(w: Writer, turns: seq<Turn>)
    requires CanRun(w, turns)
    decreases |turns|
  {
    turns == [] ||
    (!Trouble(w, turns[0].ev, turns[0].net) && Untroubled(Next(w, turns[0].ev, turns[0].net), turns[1..]))
  }

  lemma {:induction false} RunHolds(w: Writer, turns: seq<Turn>)
    requires WriterInv(w) && CanRun(w, turns) && Untroubled(w, turns) && w.lost.None?
    ensures Run(w, turns).lost.None?
    decreases |turns|
  {
    hide WriterInv, Next, Possible, Trouble;
    if turns != [] {
      NextKeeps(w, turns[0].ev, turns[0].net);
      TurnHolds(w, turns[0].ev, turns[0].net);
      RunHolds(Next(w, turns[0].ev, turns[0].net), turns[1..]);
    }
  }

  /**
   As long as the writer is not destroyed, the WebSocket stays open, no send fails and no wait
   ends without a drain, no write ever fails; and once the peer is not paused and no drain is
   waited for, every byte written has been sent and every callback called with success.
   */
  lemma NothingFails(max: Positive, turns: seq<Turn>)
    requires CanRun(NewWriter(max), turns) && Untroubled(NewWriter(max), turns)
    ensures var w := Run(NewWriter(max), turns);
            && (forall i :: 0 <= i < |w.calls| ==> w.calls[i] == Call(i, true))
            && (w.pending.Some? ==> w.peerPaused)
            && (!w.peerPaused && w.waiting.None? ==> Flatten(w.sent) == w.written && |w.calls| == w.writes)
  {
    RunKeeps(NewWriter(max), turns);
    RunHolds(NewWriter(max), turns);
    var w := Run(NewWriter(max), turns);
    assert Flatten(w.sent) + [] == Flatten(w.sent);
  }

  /** A chunk written while the peer is paused goes out as soon as it resumes, and succeeds. */
  lemma PausedWriteGoesOut(max: Positive, chunk: Bytes, n: Net)
    requires Calm(NewWriter(max), n)
    ensures var turns := [Turn(Peer(true), n), Turn(Writes(chunk), n), Turn(Peer(false), n)];
            && CanRun(NewWriter(max), turns)
            && var w := Run(NewWriter(max), turns);
               && Flatten(w.sent) == chunk && w.calls == [Call(0, true)] && !Busy(w)
               && |w.sent| == Frames(max, |chunk|)
  {
    hide SendRest, Frames;
    var w0 := NewWriter(max);
    var w1 := Next(w0, Peer(true), n);
    var w2 := Next(w1, Writes(chunk), n);
    var w3 := Next(w2, Peer(false), n);
    SendRestCompletes(w2.(peerPaused := false, pending := None), Job(0, chunk), n);
    var t1, t2, t3 := Turn(Peer(true), n), Turn(Writes(chunk), n), Turn(Peer(false), n);
    assert [t3][1..] == [] && [t2, t3][1..] == [t3] && [t1, t2, t3][1..] == [t2, t3];
    assert CanRun(w3, []) && CanRun(w2, [t3]) && CanRun(w1, [t2, t3]) && CanRun(w0, [t1, t2, t3]);
    assert Run(w2, [t3]) == Run(w3, []) && Run(w1, [t2, t3]) == Run(w2, [t3]);
  }

  // ---------------------------------------------------------------------------
  // The code
  // ---------------------------------------------------------------------------

  lemma SliceAt(buf: Bytes, offset: nat, end: nat)
    requires offset <= end <= |buf|
    ensures buf[offset..][..end - offset] == buf[offset..end] && buf[offset..][end - offset..] == buf[end..]
  {
  }

  class WsFrameWriter {
    const maxFramePayload: Positive
    var peerPaused: bool
    var pending: Option<Job>
    var writerClosed: bool
    var destroyed: bool                  // set by Node before it calls _destroy
    // The activation of _sendChunk suspended in waitDrain: its buffer, offset and callback.
    var suspended: bool
    var suspendedBuf: Bytes
    var suspendedOffset: nat
    var suspendedId: nat
    // Frames sent and callbacks called.
    var sent: seq<Bytes>
    var calls: seq<Call>
    var writes: nat                      // calls of _write: they name the callbacks
    ghost var written: Bytes
    ghost var lost: Option<Bytes>

    ghost predicate Valid()
      reads this
    {
      destroyed == writerClosed && (suspended ==> suspendedOffset < |suspendedBuf|)
    }

    ghost function State(): Writer
      requires Valid()
      reads this
    {
      Writer(maxFramePayload, peerPaused, writerClosed, pending,
             if suspended then Some(Job(suspendedId, suspendedBuf[suspendedOffset..])) else None,
             sent, writes, calls, written, lost)
    }

    constructor (max: Positive)
      ensures Valid() && State() == NewWriter(max)
    {
      maxFramePayload := max;
      peerPaused, pending, writerClosed, destroyed := false, None, false, false;
      suspended, suspendedBuf, suspendedOffset, suspendedId := false, [], 0, 0;
      sent, calls, writes, written, lost := [], [], 0, [], None;
    }

    method Callback(id: nat, ok: bool, ghost rest: Bytes)
      requires Valid()
      modifies this`calls, this`lost
      ensures Valid()
      ensures State() == if ok then Finish(old(State()), Job(id, rest)) else Fail(old(State()), Job(id, rest))
    {
      calls := calls + [Call(id, ok)];
      if !ok {
        lost := Some(rest);
      }
    }

    // _sendChunk, entered at its head or resumed after its await
    method SendChunk(buf: Bytes, start: nat, id: nat, resumed: bool, n: Net)
      requires Valid() && !suspended && start <= |buf| && (resumed ==> start < |buf|)
      modifies this
      ensures Valid()
      ensures State() == if resumed then SendOne(old(State()), Job(id, buf[start..]), n)
                         else SendRest(old(State()), Job(id, buf[start..]), n)
    {
      hide Finish, Fail;
      var offset := start;
      var afterWait := resumed;
      ghost var goal := if resumed then SendOne(State(), Job(id, buf[start..]), n)
                        else SendRest(State(), Job(id, buf[start..]), n);
      while offset < |buf|
        invariant Valid() && !suspended && start <= offset <= |buf| && (afterWait ==> offset < |buf|)
        invariant goal == if afterWait then SendOne(State(), Job(id, buf[offset..]), n)
                          else SendRest(State(), Job(id, buf[offset..]), n)
        decreases |buf| - offset
      {
        if !afterWait {
          if writerClosed || destroyed || !n.open {
            Callback(id, false, buf[offset..]);
            return;
          }
          if |sent| in n.high {
            suspended, suspendedBuf, suspendedOffset, suspendedId := true, buf, offset, id;
            return;
          }
        }
        afterWait := false;
        if writerClosed || destroyed {
          Callback(id, false, buf[offset..]);
          return;
        }
        if peerPaused {
          pending := Some(Job(id, buf[offset..]));
          return;
        }
        var end := if offset + maxFramePayload < |buf| then offset + maxFramePayload else |buf|;
        if !n.open || |sent| in n.fails {
          Callback(id, false, buf[offset..]);
          return;
        }
        SliceAt(buf, offset, end);
        sent := sent + [buf[offset..end]];
        offset := end;
      }
      Callback(id, true, []);
    }

    // _write
    method AcceptChunk(chunk: Bytes, n: Net)
      requires Valid() && !suspended && pending.None?
      modifies this
      ensures Valid() && State() == Write(old(State()), chunk, n)
    {
      var id := writes;
      writes, written := writes + 1, written + chunk;
      if writerClosed || destroyed {
        Callback(id, false, chunk);
        return;
      }
      if peerPaused {
        pending := Some(Job(id, chunk));
        return;
      }
      assert chunk[0..] == chunk;
      SendChunk(chunk, 0, id, false, n);
    }

    // The wait in waitDrain settles
    method DrainSettled(drained: bool, n: Net)
      requires Valid() && suspended
      modifies this
      ensures Valid() && State() == DrainEnds(old(State()), drained, n)
    {
      suspended := false;
      if drained {
        SendChunk(suspendedBuf, suspendedOffset, suspendedId, true, n);
      } else {
        Callback(suspendedId, false, suspendedBuf[suspendedOffset..]);
      }
    }

    // setPeerPaused
    method PeerPaused(paused: bool, n: Net)
      requires Valid() && !(suspended && pending.Some?)
      modifies this
      ensures Valid() && State() == SetPeerPaused(old(State()), paused, n)
      ensures !paused && old(pending).Some? && !old(writerClosed) && Calm(old(State()), n) ==>
        calls == old(calls) + [Call(old(pending).value.id, true)] && pending.None? && !suspended
        && Flatten(sent) == Flatten(old(sent)) + old(pending).value.rest
    {
      peerPaused := paused;
      if !paused && pending.Some? && !writerClosed && !destroyed {
        var job := pending.value;
        pending := None;
        assert job.rest[0..] == job.rest;
        if Calm(State(), n) {
          SendRestCompletes(State(), job, n);
        }
        SendChunk(job.rest, 0, job.id, false, n);
      }
    }

    // destroy() up to the end of _destroy
    method DestroyWriter()
      requires Valid()
      modifies this
      ensures Valid() && State() == Destroy(old(State()))
    {
      destroyed := true;
      writerClosed := true;
      if pending.Some? {
        var job := pending.value;
        pending := None;
        Callback(job.id, false, job.rest);
      }
    }
  }
}
