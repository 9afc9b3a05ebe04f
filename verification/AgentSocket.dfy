/**
 One bound stream on the agent as the code runs it: the entry of registerStream and the
 handlers of its local socket. Each method does what AgentStream says.
 */
module AgentSocket {
  import opened Protocol
  import opened ServerStream
  import opened AgentStream

  class LocalSocket {
    var registered: bool                   // a TCP_CONNECT_ACK paired it
    var cleaned: bool
    var peerPausedRead: bool
    var pausedForWs: bool
    var localWriteBackpressured: bool
    var reading: bool
    var pendingSends: int
    var toServer: seq<Msg>
    ghost var read: seq<Bytes>
    ghost var written: seq<Bytes>

    ghost function State(): AgentEnd
      reads this
    {
      AgentEnd(if !registered then Unbound else if cleaned then Done else Bound,
               AgentFlow(peerPausedRead, pausedForWs, localWriteBackpressured, reading, pendingSends),
               AgentLog(toServer, read, written))
    }

    constructor ()
      ensures State() == NEW_AGENT_END
    {
      registered, cleaned, peerPausedRead, pausedForWs := false, false, false, false;
      localWriteBackpressured, reading, pendingSends := false, false, 0;
      toServer, read, written := [], [], [];
    }

    method Send(open: bool, m: Msg)
      modifies this`toServer
      ensures State() == SendServer(old(State()), open, m)
    {
      if open {
        toServer := toServer + [m];
      }
    }

    // syncReadState
    method SyncReadState(open: bool)
      modifies this`reading
      ensures State() == SyncRead(old(State()), open)
    {
      reading := !(peerPausedRead || pausedForWs || !open);
    }

    // registerStream
    method Register(paired: bool)
      modifies this
      ensures State() == OnAck(old(State()), paired)
    {
      if registered || !paired {
        return;
      }
      registered := true;
      cleaned := false;
      reading := true;
    }

    // 'data'
    method OnData(chunk: Bytes, open: bool, high: set<nat>)
      modifies this
      ensures State() == OnLocalData(old(State()), chunk, open, high)
    {
      if !registered || cleaned {
        return;
      }
      read := read + [chunk];
      if !open {
        return;
      }
      pendingSends := pendingSends + 1;
      Send(open, Data(chunk));
      if |toServer| in high && !pausedForWs {
        pausedForWs := true;
        SyncReadState(open);
      }
    }

    // 'drain' of the WebSocket, for this entry
    method OnWsDrained(bufferLow: bool, open: bool)
      modifies this
      ensures State() == OnWsDrain(old(State()), bufferLow, open)
    {
      if registered && !cleaned && pausedForWs && pendingSends == 0 && bufferLow {
        pausedForWs := false;
        SyncReadState(open);
      }
    }

    // The callback of ws.send
    method OnSendCallback(bufferLow: bool, open: bool)
      modifies this
      ensures State() == OnSent(old(State()), bufferLow, open)
    {
      pendingSends := pendingSends - 1;
      OnWsDrained(bufferLow, open);
    }

    // 'drain' of the local socket
    method OnDrained(open: bool)
      modifies this
      ensures State() == OnLocalDrain(old(State()), open)
    {
      if !registered || cleaned {
        return;
      }
      if localWriteBackpressured && open {
        localWriteBackpressured := false;
        Send(open, Resume);
      }
    }

    // 'close', 'error' and abortStream
    method EndWith(open: bool, goodbye: Msg)
      modifies this
      ensures State() == End(old(State()), open, goodbye)
    {
      if !registered || cleaned {
        return;
      }
      cleaned := true;
      Send(open, goodbye);
    }

    // The end by a frame of the server, or cleanupAll
    method EndQuietly()
      modifies this`cleaned
      ensures State() == EndSilently(old(State()))
    {
      if registered && !cleaned {
        cleaned := true;
      }
    }

    // handleServerFrame, for a stream in streamedSockets
    method HandleFrame(m: Msg, open: bool, w: WriteOutcome)
      requires registered && !cleaned
      modifies this
      ensures State() == OnServerFrame(old(State()), m, open, w)
    {
      match m
      case Data(chunk) =>
        if w.Throws? {
          EndWith(open, Abort(Teardown));
        } else {
          written := written + [chunk];
          if w.BufferFull? && !localWriteBackpressured {
            localWriteBackpressured := true;
            Send(open, Pause);
          }
        }
      case Close =>
        EndQuietly();
      case Abort(_) =>
        EndQuietly();
      case Pause =>
        peerPausedRead := true;
        SyncReadState(open);
      case Resume =>
        peerPausedRead := false;
        SyncReadState(open);
      case _ =>
    }
  }
}
