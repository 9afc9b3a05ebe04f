/**
 Frames of the tunnel protocol as the relay sees them, and the three views of a frame
 history that the relay's properties are stated in: the payload chunks it carries, the
 pause flag it leaves at its receiver, and whether it has said goodbye.
 */
module Protocol {

  newtype byte = x: int | 0 <= x < 256

  type Bytes = seq<byte>

  // Which code path produced a TCP_ABORT: the relay's own teardown, or the reply to a
  // frame whose stream is unknown.
  datatype AbortKind = Teardown | StreamNotFound

  // A frame without its stream id.
  datatype Msg =
    | Open                      // TCP_OPEN
    | OpenAck                   // TCP_OPEN_ACK
    | Data(chunk: Bytes)        // TCP_DATA
    | Close                     // TCP_CLOSE
    | Abort(kind: AbortKind)    // TCP_ABORT
    | Pause                     // PAUSE
    | Resume                    // RESUME
    | ConnectAck                // TCP_CONNECT_ACK
    | Reject                    // TCP_ABORT on stream 0 with the port: the connect is refused
    | ResMeta                   // RES_META
    | ResBody                   // RES_DATA, RES_END, RES_ABORT
    | Other                     // any other type byte

  /** The payload chunks of the TCP_DATA frames in q, in order. */
  function Chunks(q: seq<Msg>): seq<Bytes> {
    if q == [] then []
    else if q[|q| - 1].Data? then Chunks(q[..|q| - 1]) + [q[|q| - 1].chunk]
    else Chunks(q[..|q| - 1])
  }

  /** The pause flag of a receiver that starts at `flag` and handles the frames of q. */
  function Fold(flag: bool, q: seq<Msg>): bool {
    if q == [] then flag
    else if q[|q| - 1].Pause? then true
    else if q[|q| - 1].Resume? then false
    else Fold(flag, q[..|q| - 1])
  }

  /** PAUSE and RESUME strictly alternate in q, starting with PAUSE. */
  predicate Alternates(q: seq<Msg>) {
    q == [] ||
    var front, last := q[..|q| - 1], q[|q| - 1];
    && Alternates(front)
    && (last.Pause? ==> !Fold(false, front))
    && (last.Resume? ==> Fold(false, front))
  }

  /** A frame that ends a stream (the "stream not found" reply does not: there is none). */
  predicate Terminal(m: Msg) {
    m.Close? || m == Abort(Teardown)
  }

  /** Number of terminal frames in q. */
  function Terminals(q: seq<Msg>): nat {
    if q == [] then 0 else Terminals(q[..|q| - 1]) + if Terminal(q[|q| - 1]) then 1 else 0
  }

  /** Nothing follows a terminal frame in q. */
  predicate TerminalLast(q: seq<Msg>) {
    q == [] || (TerminalLast(q[..|q| - 1]) && Terminals(q[..|q| - 1]) == 0)
  }

  /** What may follow a goodbye: the RESUME of a flush that ended the stream, a "not found" reply. */
  predicate Afterword(m: Msg) {
    m.Resume? || m == Abort(StreamNotFound)
  }

  /** After a terminal frame of q come afterwords only. */
  predicate Hushed(q: seq<Msg>) {
    q == [] || (Hushed(q[..|q| - 1]) && (Terminals(q[..|q| - 1]) > 0 ==> Afterword(q[|q| - 1])))
  }

  /** No TCP_DATA occurs in q before the first `ack`. */
  predicate DataAfter(ack: Msg, q: seq<Msg>) {
    q == [] ||
    (DataAfter(ack, q[..|q| - 1]) && (q[|q| - 1].Data? ==> ack in q[..|q| - 1]))
  }

  /** How often m occurs in q. */
  function Count(m: Msg, q: seq<Msg>): nat {
    if q == [] then 0 else Count(m, q[..|q| - 1]) + if q[|q| - 1] == m then 1 else 0
  }

  function Flatten(cs: seq<Bytes>): Bytes {
    if cs == [] then [] else cs[0] + Flatten(cs[1..])
  }

  function TotalLength(cs: seq<Bytes>): nat {
    if cs == [] then 0 else TotalLength(cs[..|cs| - 1]) + |cs[|cs| - 1]|
  }

  // ---------------------------------------------------------------------------
  // One frame at a time
  // ---------------------------------------------------------------------------

  /** What one more frame changes. */
  lemma Push(q: seq<Msg>, m: Msg)
    ensures Chunks(q + [m]) == if m.Data? then Chunks(q) + [m.chunk] else Chunks(q)
    ensures forall flag :: Fold(flag, q + [m]) == if m.Pause? then true else if m.Resume? then false else Fold(flag, q)
    ensures Alternates(q + [m]) <==>
      Alternates(q) && (m.Pause? ==> !Fold(false, q)) && (m.Resume? ==> Fold(false, q))
    ensures Terminals(q + [m]) == Terminals(q) + if Terminal(m) then 1 else 0
    ensures TerminalLast(q + [m]) <==> TerminalLast(q) && Terminals(q) == 0
    ensures Hushed(q + [m]) <==> Hushed(q) && (Terminals(q) > 0 ==> Afterword(m))
    ensures forall ack :: DataAfter(ack, q + [m]) <==> DataAfter(ack, q) && (m.Data? ==> ack in q)
    ensures forall x :: Count(x, q + [m]) == Count(x, q) + if x == m then 1 else 0
  {
    assert (q + [m])[..|q|] == q;
  }

  lemma {:induction false} ChunksConcat(p: seq<Msg>, q: seq<Msg>)
    ensures Chunks(p + q) == Chunks(p) + Chunks(q)
  {
    if q == [] {
      assert p + q == p;
    } else {
      var n := |q| - 1;
      assert p + q == (p + q[..n]) + [q[n]];
      Push(p + q[..n], q[n]);
      ChunksConcat(p, q[..n]);
    }
  }

  /** What a prefix of a history carried is a prefix of what the history carried. */
  lemma ChunksPrefix(q: seq<Msg>, n: nat)
    requires n <= |q|
    ensures Chunks(q[..n]) <= Chunks(q)
  {
    assert q == q[..n] + q[n..];
    ChunksConcat(q[..n], q[n..]);
  }

  lemma {:induction false} FoldConcat(flag: bool, p: seq<Msg>, q: seq<Msg>)
    ensures Fold(flag, p + q) == Fold(Fold(flag, p), q)
  {
    if q == [] {
      assert p + q == p;
    } else {
      var n := |q| - 1;
      assert p + q == (p + q[..n]) + [q[n]];
      Push(p + q[..n], q[n]);
      FoldConcat(flag, p, q[..n]);
    }
  }

  lemma {:induction false} FlattenConcat(a: seq<Bytes>, b: seq<Bytes>)
    ensures Flatten(a + b) == Flatten(a) + Flatten(b)
  {
    if a == [] {
      assert a + b == b;
    } else {
      assert (a + b)[1..] == a[1..] + b;
      FlattenConcat(a[1..], b);
    }
  }

  /** A prefix of the chunks is a prefix of the bytes. */
  lemma FlattenPrefix(a: seq<Bytes>, b: seq<Bytes>)
    requires a <= b
    ensures Flatten(a) <= Flatten(b)
  {
    assert b == a + b[|a|..];
    FlattenConcat(a, b[|a|..]);
  }

  lemma {:induction false} TotalLengthIsByteCount(cs: seq<Bytes>)
    ensures TotalLength(cs) == |Flatten(cs)|
  {
    if cs != [] {
      var n := |cs| - 1;
      TotalLengthIsByteCount(cs[..n]);
      assert cs == cs[..n] + [cs[n]];
      FlattenConcat(cs[..n], [cs[n]]);
      assert [cs[n]][1..] == [];
    }
  }

  lemma {:induction false} CountIn(m: Msg, q: seq<Msg>)
    ensures m in q <==> Count(m, q) > 0
  {
    if q != [] {
      CountIn(m, q[..|q| - 1]);
      assert q == q[..|q| - 1] + [q[|q| - 1]];
    }
  }

  lemma {:induction false} CountSplit(m: Msg, p: seq<Msg>, q: seq<Msg>)
    ensures Count(m, p + q) == Count(m, p) + Count(m, q)
  {
    if q == [] {
      assert p + q == p;
    } else {
      var n := |q| - 1;
      assert p + q == (p + q[..n]) + [q[n]];
      Push(p + q[..n], q[n]);
      CountSplit(m, p, q[..n]);
    }
  }

  lemma {:induction false} TerminalCounts(q: seq<Msg>, i: nat)
    requires i < |q| && Terminal(q[i])
    ensures Terminals(q) > 0
  {
    if i < |q| - 1 {
      TerminalCounts(q[..|q| - 1], i);
    }
  }

  /** Frame by frame: whatever follows a terminal frame is an afterword. */
  lemma {:induction false} HushedMeans(q: seq<Msg>)
    requires Hushed(q)
    ensures forall i, j :: 0 <= i < j < |q| && Terminal(q[i]) ==> Afterword(q[j])
  {
    if q != [] {
      var n := |q| - 1;
      HushedMeans(q[..n]);
      forall i | 0 <= i < n && Terminal(q[i])
        ensures Afterword(q[n])
      {
        TerminalCounts(q[..n], i);
      }
      forall i, j | 0 <= i < j < |q| && Terminal(q[i])
        ensures Afterword(q[j])
      {
        assert j < n ==> q[..n][i] == q[i] && q[..n][j] == q[j];
      }
    }
  }

  /** Without an acknowledgement there is no data. */
  lemma {:induction false} NoAckNoData(ack: Msg, q: seq<Msg>)
    requires DataAfter(ack, q) && ack !in q
    ensures Chunks(q) == []
  {
    if q != [] {
      NoAckNoData(ack, q[..|q| - 1]);
    }
  }

  lemma {:induction false} DataAfterPrefix(ack: Msg, q: seq<Msg>, n: nat)
    requires n <= |q| && DataAfter(ack, q)
    ensures DataAfter(ack, q[..n])
    ensures n < |q| && q[n].Data? ==> ack in q[..n]
  {
    if n == |q| {
      assert q[..n] == q;
    } else {
      assert q[..|q| - 1][..n] == q[..n];
      DataAfterPrefix(ack, q[..|q| - 1], n);
    }
  }
}
