/**
 Shared channels. One WebSocket direction carries the frames of many streams, tagged with
 their ids; what one stream sees of it is the subsequence with its own tag.
 */
module Mux {
  import opened Protocol

  datatype Frame = Frame(id: int, msg: Msg)

  // Every frame sent on a WebSocket direction so far, and how many were received.
  datatype Chan = Chan(sent: seq<Frame>, got: nat)

  /** The frames of stream id, in order. */
  function Filter(id: int, q: seq<Frame>): seq<Msg> {
    if q == [] then []
    else Filter(id, q[..|q| - 1]) + if q[|q| - 1].id == id then [q[|q| - 1].msg] else []
  }

  function Tag(id: int, ms: seq<Msg>): (r: seq<Frame>)
    ensures |r| == |ms| && forall i :: 0 <= i < |r| ==> r[i].id == id
  {
    if ms == [] then [] else Tag(id, ms[..|ms| - 1]) + [Frame(id, ms[|ms| - 1])]
  }

  lemma FilterPush(id: int, q: seq<Frame>, f: Frame)
    ensures Filter(id, q + [f]) == Filter(id, q) + if f.id == id then [f.msg] else []
  {
    assert (q + [f])[..|q|] == q;
  }

  /** Sending for one stream adds exactly that to its view, and nothing to any other. */
  lemma {:induction false} FilterTagged(id: int, q: seq<Frame>, owner: int, ms: seq<Msg>)
    ensures Filter(id, q + Tag(owner, ms)) == Filter(id, q) + if id == owner then ms else []
  {
    if ms == [] {
      assert q + Tag(owner, ms) == q;
    } else {
      var n := |ms| - 1;
      FilterTagged(id, q, owner, ms[..n]);
      assert q + Tag(owner, ms) == (q + Tag(owner, ms[..n])) + [Frame(owner, ms[n])];
      FilterPush(id, q + Tag(owner, ms[..n]), Frame(owner, ms[n]));
      assert ms == ms[..n] + [ms[n]];
    }
  }

  lemma {:induction false} FilterPrefix(id: int, q: seq<Frame>, n: nat)
    requires n <= |q|
    ensures Filter(id, q[..n]) <= Filter(id, q)
  {
    if n == |q| {
      assert q[..n] == q;
    } else {
      assert q[..|q| - 1][..n] == q[..n];
      FilterPrefix(id, q[..|q| - 1], n);
    }
  }

  /** The next frame of the channel is the next frame of its own stream, and of no other. */
  lemma NextIsOwn(id: int, q: seq<Frame>, n: nat)
    requires n < |q|
    ensures var k := |Filter(id, q[..n])|;
            && (q[n].id == id ==> k < |Filter(id, q)| && Filter(id, q)[k] == q[n].msg)
            && |Filter(id, q[..n + 1])| == k + if q[n].id == id then 1 else 0
  {
    assert q[..n + 1] == q[..n] + [q[n]];
    FilterPush(id, q[..n], q[n]);
    FilterPrefix(id, q, n + 1);
  }

  /** A stream that never sent is not in the channel. */
  lemma {:induction false} FilterNone(id: int, q: seq<Frame>)
    requires forall i :: 0 <= i < |q| ==> q[i].id != id
    ensures Filter(id, q) == []
  {
    if q != [] {
      FilterNone(id, q[..|q| - 1]);
    }
  }

  lemma {:induction false} FilterConcat(id: int, p: seq<Frame>, q: seq<Frame>)
    ensures Filter(id, p + q) == Filter(id, p) + Filter(id, q)
  {
    if q == [] {
      assert p + q == p;
    } else {
      var n := |q| - 1;
      assert p + q == (p + q[..n]) + [q[n]];
      FilterPush(id, p + q[..n], q[n]);
      FilterConcat(id, p, q[..n]);
    }
  }

  /** What is left of a stream's frames once some of the channel has been received. */
  lemma FilterRest(id: int, q: seq<Frame>, n: nat)
    requires n <= |q|
    ensures |Filter(id, q[..n])| <= |Filter(id, q)|
    ensures Filter(id, q[n..]) == Filter(id, q)[|Filter(id, q[..n])|..]
  {
    assert q == q[..n] + q[n..];
    FilterConcat(id, q[..n], q[n..]);
  }
}
