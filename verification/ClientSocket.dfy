/**
 One TCP stream on the tunnel client as the code runs it: the state object of handleTcpOpen
 and the handlers of its local socket. Each method does what ClientStream says.
 */
module ClientSocket {
  import opened Protocol
  import opened ServerStream
  import opened ClientStream

  class TunnelSocket {
    var hasState: bool                       // a TCP_OPEN was handled
    var cleaned: bool                      // or the TCP_OPEN was refused
    var localConnected: bool
    var peerPausedRead: bool
    var localPausedForWs: bool
    var localWriteBackpressured: bool
    var reading: bool
    var socketDestroyed: bool
    var pendingSends: int
    var toServer: seq<Msg>
    ghost var read: seq<Bytes>
    ghost var written: seq<Bytes>

    ghost function State(): ClientEnd
      reads this
    {
      ClientEnd(if !hasState then Unopened else if cleaned then Over
                else if localConnected then Connected else Connecting,
                ClientFlow(peerPausedRead, localPausedForWs, localWriteBackpressured, reading,
                           socketDestroyed, pendingSends),
                ClientLog(toServer, read, written))
    }

    constructor ()
      ensures State() == NEW_CLIENT_END
    {
      hasState, cleaned, localConnected := false, false, false;
      peerPausedRead, localPausedForWs, localWriteBackpressured := false, false, false;
      reading, socketDestroyed, pendingSends := true, false, 0;
      toServer, read, written := [], [], [];
    }

    method Send(open: bool, m: Msg)
      modifies this`toServer
      ensures State() == SendUp(old(State()), open, m)
    {
      if open {
        toServer := toServer + [m];
      }
    }

    // syncSocketReadState
    method SyncSocketReadState()
      modifies this`reading
      ensures State() == SyncLocal(old(State()))
    {
      if socketDestroyed {
        return;
      }
      reading := !(peerPausedRead || localPausedForWs);
    }

    // handleTcpOpen
    method HandleOpen(admitted: bool, open: bool)
      requires !hasState
      modifies this
      ensures State() == OnOpen(old(State()), admitted, open)
    {
      hasState := true;
      localConnected := false;
      cleaned := !admitted;
      if !admitted {
        Send(open, Abort(Teardown));
      }
    }

    // 'connect'
    method OnConnect(open: bool)
      requires hasState
      modifies this
      ensures State() == OnLocalConnect(old(State()), open)
    {
      if cleaned || localConnected {
        return;
      }
      localConnected := true;
      Send(open, OpenAck);
    }

    // A goodbye, then cleanupTcpState: 'close', 'error', a failed write, a connect timeout
    method EndWith(open: bool, goodbye: Msg)
      modifies this
      ensures State() == EndClient(old(State()), open, goodbye)
    {
      if !hasState || cleaned {
        return;
      }
      cleaned := true;
      Send(open, goodbye);
    }

    // cleanupTcpState alone
    method CleanupTcpState()
      modifies this`cleaned
      ensures State() == EndClientSilently(old(State()))
    {
      if hasState && !cleaned {
        cleaned := true;
      }
    }

    // 'timeout'
    method OnTimeout(open: bool)
      modifies this
      ensures State() == OnLocalTimeout(old(State()), open)
    {
      if hasState && !cleaned && !localConnected {
        EndWith(open, Abort(Teardown));
      }
    }

    // 'data'
    method OnData(chunk: Bytes, open: bool, high: set<nat>)
      modifies this
      ensures State() == OnLocalChunk(old(State()), chunk, open, high)
    {
      if !hasState || cleaned || !localConnected {
        return;
      }
      read := read + [chunk];
      if !open {
        CleanupTcpState();
        return;
      }
      pendingSends := pendingSends + 1;
      Send(open, Data(chunk));
      if |toServer| in high && !localPausedForWs {
        localPausedForWs := true;
        SyncSocketReadState();
      }
    }

    // The callback of ws.send
    method OnSent(bufferLow: bool)
      modifies this
      ensures State() == OnChunkSent(old(State()), bufferLow)
    {
      pendingSends := pendingSends - 1;
      if hasState && !cleaned && localPausedForWs && pendingSends == 0 && bufferLow {
        localPausedForWs := false;
        SyncSocketReadState();
      }
    }

    // 'drain'
    method OnDrained(open: bool)
      modifies this
      ensures State() == OnSocketDrain(old(State()), open)
    {
      if !hasState || cleaned || !localConnected {
        return;
      }
      if localWriteBackpressured && open {
        localWriteBackpressured := false;
        Send(open, Resume);
      }
    }

    // handleTcpData
    method HandleData(chunk: Bytes, open: bool, w: WriteOutcome)
      requires hasState && !cleaned
      modifies this
      ensures State() == OnFrame(old(State()), Data(chunk), open, w)
    {
      if socketDestroyed {
        return;
      }
      if w.Throws? {
        EndWith(open, Abort(Teardown));
        return;
      }
      written := written + [chunk];
      if w.BufferFull? && !localWriteBackpressured {
        localWriteBackpressured := true;
        Send(open, Pause);
      }
    }

    // handleServerFrame, for a stream in the table
    method HandleFrame(m: Msg, open: bool, w: WriteOutcome)
      requires hasState && !cleaned
      modifies this
      ensures State() == OnFrame(old(State()), m, open, w)
    {
      match m
      case Data(chunk) =>
        HandleData(chunk, open, w);
      case Close =>
        CleanupTcpState();
      case Abort(_) =>
        CleanupTcpState();
      case Pause =>
        peerPausedRead := true;
        SyncSocketReadState();
      case Resume =>
        peerPausedRead := false;
        SyncSocketReadState();
      case _ =>
    }
  }
}
