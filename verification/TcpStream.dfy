/**
 One TCP stream on the server as the code runs it: fields updated in place by handlers
 that call back into each other while they run (a cleanup destroys the socket, whose
 'close' listener cleans up; a resume flushes into the 'data' listener, which may pause
 again or abort). Each method is proved to do what its closed form in ServerStream says.
 */
module TcpStream {
  import opened Protocol
  import opened ServerStream

  class TcpConnection {
    // StreamManager's state object.
    var cleaned: bool
    var abortSent: bool
    var awaitingClientAck: bool
    var agentPaused: bool
    var wsBackpressured: bool
    var clientPausedForAgent: bool
    var peerPausedRead: bool
    var localPausedForWs: bool
    var pendingSends: int
    // The socket. A direct socket keeps nothing in `buffered`.
    const isVirtual: bool
    const maxDestBufferBytes: nat
    var destroyed: bool
    var paused: bool
    var buffered: seq<Bytes>
    var bufferedBytes: nat
    var pendingDrain: bool
    var agentNotified: bool
    var closeQueued: bool
    // Frames sent, and what a direct socket read and was given.
    var toClient: seq<Msg>
    var toAgent: seq<Msg>
    ghost var extIn: seq<Bytes>
    ghost var extOut: seq<Bytes>
    ghost var leaked: bool
    ghost var refused: bool
    ghost var endedBy: EndedBy

    ghost function State(): Stream
      reads this
    {
      Stream(Life(cleaned, leaked, abortSent, awaitingClientAck, refused, endedBy),
             Flow(agentPaused, wsBackpressured, clientPausedForAgent, peerPausedRead, localPausedForWs, pendingSends),
             Sock(isVirtual, maxDestBufferBytes, destroyed, paused, buffered, bufferedBytes, pendingDrain,
                  agentNotified, closeQueued),
             Log(toClient, toAgent, extIn, extOut))
    }

    /** What is still up: the measure of the teardown callbacks. */
    ghost function Standing(): nat
      reads this
    {
      (if cleaned then 0 else 1) + (if destroyed then 0 else 1)
    }

    constructor (virtual: bool, cap: nat)
      ensures State() == NewStream(virtual, cap)
    {
      isVirtual, maxDestBufferBytes := virtual, cap;
      cleaned, abortSent, awaitingClientAck := false, false, virtual;
      agentPaused, wsBackpressured, clientPausedForAgent := false, false, false;
      peerPausedRead, localPausedForWs, pendingSends := false, false, 0;
      destroyed, paused, buffered, bufferedBytes := false, false, [], 0;
      pendingDrain, agentNotified, closeQueued := false, false, false;
      toClient, toAgent, extIn, extOut := [Open], [], [], [];
      leaked, refused, endedBy := false, false, NotEnded;
    }

    method SendToClient(m: Msg, e: Env)
      modifies this`toClient
      ensures State() == SendClient(old(State()), e, m)
    {
      if e.clientOpen {
        toClient := toClient + [m];
      }
    }

    method SendToAgent(m: Msg, e: Env)
      modifies this`toAgent
      ensures State() == SendAgent(old(State()), e, m)
    {
      if isVirtual && e.agentOpen {
        toAgent := toAgent + [m];
      }
    }

    // TcpFlowControl.syncTcpBackpressure
    method SyncTcpBackpressure(e: Env)
      modifies this`clientPausedForAgent, this`toClient
      ensures State() == SyncBackpressure(old(State()), e)
    {
      var shouldPause := agentPaused || wsBackpressured;
      if shouldPause && !clientPausedForAgent {
        clientPausedForAgent := true;
        SendToClient(Pause, e);
      } else if !shouldPause && clientPausedForAgent {
        clientPausedForAgent := false;
        SendToClient(Resume, e);
      }
    }

    // StreamManager.cleanupTcpStream
    method CleanupTcpStream(e: Env)
      modifies this
      ensures State() == Cleanup(old(State()), e)
      decreases 0, Standing(), 1
    {
      if cleaned {
        return;
      }
      cleaned := true;
      DestroySocket(e);
    }

    // VirtualSocket.destroy
    method DestroySocket(e: Env)
      modifies this
      ensures State() == Destroy(old(State()), e)
      ensures destroyed && (old(destroyed) ==> State() == old(State()))
      ensures !old(destroyed) ==>
                && cleaned
                && toAgent == old(toAgent)
                              + (if isVirtual && !old(agentNotified) && e.agentOpen then [Close] else [])
                && toClient == old(toClient) + (if !old(cleaned) && e.clientOpen then [Close] else [])
      decreases 0, Standing(), 2
    {
      if destroyed {
        return;
      }
      destroyed := true;
      if isVirtual && !agentNotified && e.agentOpen {
        agentNotified := true;
        SendToAgent(Close, e);
      }
      assert State() == DestroySilently(old(State()), e);
      CloseListener(e);
    }

    // TcpRouter's 'close' listener
    method CloseListener(e: Env)
      modifies this
      ensures State() == OnClose(old(State()), e)
      decreases 0, Standing(), 3
    {
      if cleaned {
        return;
      }
      SendToClient(Close, e);
      CleanupTcpStream(e);
    }

    // VirtualSocket.abort; a direct socket has no such method
    method AbortVirtualSocket(e: Env)
      modifies this`destroyed, this`agentNotified, this`closeQueued, this`toAgent
      ensures State() == AbortSocket(old(State()), e)
      ensures old(destroyed) ==> destroyed
      ensures !old(destroyed) && isVirtual ==> destroyed && agentNotified && closeQueued
    {
      if destroyed || !isVirtual {
        return;
      }
      destroyed := true;
      agentNotified := true;
      SendToAgent(Abort(Teardown), e);
      closeQueued := true;
    }

    // The notification inside StreamManager.abortTcpStream
    method NotifyTunnelClient(e: Env)
      modifies this`abortSent, this`toClient
      ensures State() == NotifyClient(old(State()), e)
      ensures e.clientOpen && !old(abortSent) ==> toClient == old(toClient) + [Abort(Teardown)]
    {
      if e.clientOpen && !abortSent {
        abortSent := true;
        SendToClient(Abort(Teardown), e);
      }
    }

    // StreamManager.abortTcpStream
    method AbortTcpStream(e: Env, notifyClient: bool)
      modifies this
      ensures State() == AbortStream(old(State()), e, notifyClient)
      ensures cleaned && (!old(cleaned) && notifyClient && e.clientOpen && !old(abortSent) ==>
        toClient == old(toClient) + [Abort(Teardown)])
      decreases 0, Standing(), 4
    {
      if cleaned {
        return;
      }
      AbortVirtualSocket(e);
      if notifyClient {
        NotifyTunnelClient(e);
      }
      CleanupTcpStream(e);
    }

    // TcpRouter's 'error' listener
    method ErrorListener(e: Env)
      modifies this
      ensures State() == OnError(old(State()), e)
      decreases 0, Standing(), 5
    {
      if cleaned {
        return;
      }
      SendToClient(Abort(Teardown), e);
      AbortTcpStream(e, false);
    }

    // TcpRouter's 'data' listener
    method DataListener(chunk: Bytes, e: Env)
      modifies this
      ensures State() == EmitData(old(State()), chunk, e)
      decreases 2, 0, 0
    {
      hide AbortStream, PauseSocket, ResumeSocket;
      if cleaned {
        return;
      }
      if !e.clientOpen {
        AbortTcpStream(e, true);
        return;
      }
      pendingSends := pendingSends + 1;
      SendToClient(Data(chunk), e);
      assert State() == Forward(old(State()), chunk, e);
      if |toClient| in e.clientHigh && !localPausedForWs {
        localPausedForWs := true;
        SyncSocketReadState(e);
      }
    }

    // VirtualSocket.pause, or net.Socket.pause
    method PauseReading(e: Env)
      modifies this
      ensures State() == PauseSocket(old(State()), e)
    {
      if paused {
        return;
      }
      paused := true;
      SendToAgent(Pause, e);
    }

    // VirtualSocket.resume, or net.Socket.resume
    method ResumeReading(e: Env)
      modifies this
      ensures State() == ResumeSocket(old(State()), e)
      decreases 3, 0, 0
    {
      hide EmitData;
      if !paused {
        return;
      }
      paused := false;
      var chunks := buffered;
      buffered, bufferedBytes := [], 0;
      ghost var start := State();
      for i := 0 to |chunks|
        invariant State() == Flush(start, chunks[..i], e)
      {
        assert chunks[..i + 1][..i] == chunks[..i];
        DataListener(chunks[i], e);
      }
      assert chunks[..|chunks|] == chunks;
      SendToAgent(Resume, e);
    }

    // TcpFlowControl.syncSocketReadState
    method SyncSocketReadState(e: Env)
      modifies this
      ensures State() == SyncReadState(old(State()), e)
      decreases if peerPausedRead || localPausedForWs then 1 else 4, 0, 0
    {
      if destroyed {
        return;
      }
      if peerPausedRead || localPausedForWs {
        PauseReading(e);
      } else {
        ResumeReading(e);
      }
    }

    // VirtualSocket.pushInbound
    method PushFromAgent(chunk: Bytes, e: Env) returns (more: bool)
      modifies this
      ensures State() == PushInbound(old(State()), chunk, e)
      ensures more == (!old(destroyed) && !old(paused))
    {
      if destroyed {
        return false;
      }
      if paused {
        if bufferedBytes + |chunk| > maxDestBufferBytes {
          AbortVirtualSocket(e);
          return false;
        }
        buffered := buffered + [chunk];
        bufferedBytes := bufferedBytes + |chunk|;
        return false;
      }
      DataListener(chunk, e);
      return true;
    }

    // VirtualSocket.write, or net.Socket.write with outcome w
    method WriteToSocket(chunk: Bytes, e: Env, w: WriteOutcome) returns (ok: bool)
      modifies this
      ensures (State(), ok) == WriteSocket(old(State()), chunk, e, w)
    {
      if !isVirtual {
        extOut := extOut + [chunk];
        return w.Accepted?;
      }
      if destroyed || !e.agentOpen {
        return false;
      }
      SendToAgent(Data(chunk), e);
      if |toAgent| in e.agentHigh {
        pendingDrain := true;
        return false;
      }
      return true;
    }

    // The 'drain' listener of createTcpStream
    method DrainListener(e: Env)
      modifies this
      ensures State() == OnDrain(old(State()), e)
      ensures !cleaned ==> !wsBackpressured
      ensures !cleaned && old(wsBackpressured) && old(clientPausedForAgent) && !agentPaused && e.clientOpen ==>
        toClient == old(toClient) + [Resume] && !clientPausedForAgent
    {
      if cleaned {
        return;
      }
      if wsBackpressured {
        wsBackpressured := false;
        SyncTcpBackpressure(e);
      }
    }

    // case TCP_DATA of StreamManager.handleClientFrame
    method ClientData(chunk: Bytes, e: Env, w: WriteOutcome)
      modifies this
      ensures State() == OnClientData(old(State()), chunk, e, w)
    {
      hide AbortStream, SyncBackpressure, WriteSocket;
      if destroyed {
        return;
      }
      if !isVirtual && w.Throws? {
        AbortTcpStream(e, true);
        return;
      }
      var ok := WriteToSocket(chunk, e, w);
      if !ok && !wsBackpressured {
        wsBackpressured := true;
        SyncTcpBackpressure(e);
      }
    }

    // case TCP_CLOSE of StreamManager.handleClientFrame
    method ClientClose(e: Env)
      requires !cleaned
      modifies this
      ensures State() == OnClientFrame(old(State()), Close, e, Accepted)
    {
      hide Cleanup;
      endedBy := ByClient;
      assert State() == EndByClient(old(State()));
      CleanupTcpStream(e);
    }

    // case TCP_OPEN_ACK of StreamManager.handleClientFrame, and the deferred acknowledgement
    method ClientOpened(e: Env)
      requires !cleaned
      modifies this
      ensures State() == OnClientFrame(old(State()), OpenAck, e, Accepted)
    {
      if !awaitingClientAck {
        return;
      }
      awaitingClientAck := false;
      SendToAgent(ConnectAck, e);
    }

    // cases PAUSE and RESUME of StreamManager.handleClientFrame
    method ClientPauses(pause: bool, e: Env)
      requires !cleaned
      modifies this
      ensures State() == OnClientFrame(old(State()), if pause then Pause else Resume, e, Accepted)
    {
      peerPausedRead := pause;
      SyncSocketReadState(e);
    }

    // The stream-0 reject of case TCP_ABORT
    method RefuseConnectByPort(e: Env)
      modifies this
      ensures State() == RefuseConnect(old(State()), e)
    {
      if awaitingClientAck && e.agentOpen {
        refused := true;
        awaitingClientAck := false;
        SendToAgent(Reject, e);
      }
    }

    // case TCP_ABORT of StreamManager.handleClientFrame
    method ClientAbort(e: Env)
      modifies this
      ensures State() == OnClientAbort(old(State()), e)
    {
      hide RefuseConnect, AbortStream;
      RefuseConnectByPort(e);
      label refusedState:
      endedBy := ByClient;
      assert State() == EndByClient(old@refusedState(State()));
      AbortTcpStream(e, false);
    }

    // StreamManager.handleClientFrame, for a stream found in the table
    method HandleClientFrame(m: Msg, e: Env, w: WriteOutcome)
      requires !cleaned
      modifies this
      ensures State() == OnClientFrame(old(State()), m, e, w)
    {
      hide OnClientData, OnClientAbort, AbortStream;
      match m
      case Data(chunk) =>
        ClientData(chunk, e, w);
      case Close =>
        ClientClose(e);
      case OpenAck =>
        ClientOpened(e);
      case Abort(_) =>
        ClientAbort(e);
      case Pause =>
        ClientPauses(true, e);
      case Resume =>
        ClientPauses(false, e);
      case ResMeta =>
        // state.req does not exist: the exception ends in abortAnyStream
        AbortTcpStream(e, false);
      case ResBody =>
        // cleanupStream: no socket, no onCleanup
        cleaned := true;
        leaked := true;
      case _ =>
    }

    // VirtualSocket.endFromAgent
    method EndFromAgent(e: Env)
      modifies this
      ensures old(destroyed) ==> State() == old(State())
      ensures !old(destroyed) ==> State() == OnClose(AgentLeft(old(State())), e)
      ensures !old(destroyed) ==>
                && destroyed && agentNotified && cleaned && toAgent == old(toAgent)
                && toClient == old(toClient) + (if !old(cleaned) && e.clientOpen then [Close] else [])
    {
      if destroyed {
        return;
      }
      destroyed := true;
      agentNotified := true;
      endedBy := ByAgent;
      assert State() == AgentLeft(old(State()));
      CloseListener(e);
    }

    // VirtualSocket.abortFromAgent
    method AbortFromAgent(e: Env)
      modifies this
      ensures old(destroyed) ==> State() == old(State())
      ensures !old(destroyed) ==> State() == OnError(AgentLeft(old(State())), e)
      ensures !old(destroyed) ==>
                && destroyed && agentNotified && cleaned && toAgent == old(toAgent)
                && toClient == old(toClient) + (if !old(cleaned) && e.clientOpen then [Abort(Teardown)] else [])
    {
      if destroyed {
        return;
      }
      destroyed := true;
      agentNotified := true;
      endedBy := ByAgent;
      assert State() == AgentLeft(old(State()));
      ErrorListener(e);
    }

    // TcpAgentServer._handleAgentPause and _handleAgentResume
    method AgentPauses(pause: bool, e: Env)
      modifies this
      ensures State() == SyncBackpressure(old(State()).(flow := old(State()).flow.(agentPaused := pause)), e)
    {
      hide SyncBackpressure;
      agentPaused := pause;
      SyncTcpBackpressure(e);
    }

    // TcpAgentServer._handleFrame, for a stream of this agent found in the table
    method HandleAgentFrame(m: Msg, e: Env)
      requires !cleaned && isVirtual
      modifies this
      ensures State() == OnAgentFrame(old(State()), m, e)
      ensures old(awaitingClientAck) ==> State() == old(State())
    {
      hide PushInbound, OnClose, OnError, SyncBackpressure;
      if awaitingClientAck {
        return;
      }
      match m
      case Data(chunk) =>
        var _ := PushFromAgent(chunk, e);
      case Close =>
        EndFromAgent(e);
      case Abort(_) =>
        AbortFromAgent(e);
      case Pause =>
        AgentPauses(true, e);
      case Resume =>
        AgentPauses(false, e);
      case _ =>
    }

    // The callback of agentWs.send in VirtualSocket.write
    method AgentSendCallback(bufferLow: bool, e: Env)
      modifies this
      ensures State() == OnAgentSent(old(State()), bufferLow, e)
    {
      if !destroyed && pendingDrain && bufferLow {
        pendingDrain := false;
        DrainListener(e);
      }
    }

    // The callback of ws.send in the 'data' listener
    method ClientSendCallback(bufferLow: bool, e: Env)
      modifies this
      ensures State() == OnClientSent(old(State()), bufferLow, e)
    {
      pendingSends := pendingSends - 1;
      if !cleaned && localPausedForWs && pendingSends == 0 && bufferLow {
        localPausedForWs := false;
        SyncSocketReadState(e);
      }
    }

    // The 'close' event queued by VirtualSocket.abort, or by a direct socket
    method QueuedClose(e: Env)
      modifies this
      ensures State() == OnQueuedClose(old(State()), e)
    {
      if closeQueued {
        closeQueued := false;
        CloseListener(e);
      }
    }

    // 'data' of a direct socket
    method SocketData(chunk: Bytes, e: Env)
      modifies this
      ensures State() == OnExternalData(old(State()), chunk, e)
    {
      hide EmitData;
      if isVirtual || destroyed {
        return;
      }
      extIn := extIn + [chunk];
      DataListener(chunk, e);
    }

    // A direct socket is destroyed; its 'close' is to come
    method SocketGone()
      modifies this`destroyed, this`closeQueued
      ensures State() == OnExternalGone(old(State()))
    {
      if isVirtual || destroyed {
        return;
      }
      destroyed := true;
      closeQueued := true;
    }

    // 'error' of a direct socket
    method SocketError(e: Env)
      modifies this
      ensures State() == OnExternalError(old(State()), e)
    {
      hide OnError;
      if isVirtual {
        return;
      }
      destroyed := true;
      ErrorListener(e);
    }

    // 'drain' of a direct socket
    method SocketDrain(e: Env)
      modifies this
      ensures State() == OnExternalDrain(old(State()), e)
    {
      if !isVirtual {
        DrainListener(e);
      }
    }
  }
}
