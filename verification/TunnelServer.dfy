/**
 The server's books as the code keeps them: maps and sets updated in place, loops over
 agents, clients and streams. Each method is proved to do what StreamTable says.
 */
module TunnelServer {
  import opened Options
  import opened StreamIds
  import opened StreamTable

  class Server {
    const limits: Limits
    var streams: map<int, Entry>             // StreamManager.streams
    var nextStreamId: int
    var clients: set<Ws>                     // ClientManager.clients
    var agentStreams: map<Ws, set<int>>      // TcpAgentServer._agentStreams
    var agentConnCount: map<int, nat>        // TcpAgentServer._connCountByPort
    var directConnCount: map<int, nat>       // TcpRouter._connCountByPort
    ghost var leaked: map<int, Entry>

    ghost function Books(): Table
      reads this
    {
      Table(streams, nextStreamId, clients, agentStreams, agentConnCount, directConnCount, leaked)
    }

    constructor (limits: Limits)
      ensures Books() == EMPTY && this.limits == limits
    {
      this.limits := limits;
      streams, nextStreamId, clients := map[], 1, {};
      agentStreams, agentConnCount, directConnCount, leaked := map[], map[], map[], map[];
    }

    // StreamManager.allocateStreamId
    method AllocateStreamId() returns (r: Option<int>)
      requires IsId(nextStreamId)
      modifies this`nextStreamId
      ensures IsId(nextStreamId)
      ensures match NextFree(old(Books()))
              case None => r.None? && nextStreamId == old(nextStreamId)
              case Some(k) => r == Some(After(old(nextStreamId), k)) && nextStreamId == After(old(nextStreamId), k + 1)
      ensures r.None? <==> forall id :: IsId(id) ==> id in streams
    {
      ghost var start := nextStreamId;
      ghost var k := Scan(streams.Keys, start, 0);
      ScanIsFirstFree(streams.Keys, start, start, 0);
      AfterStep(start, 0);
      for i := 0 to MAX_ID
        invariant nextStreamId == After(start, i)
        invariant AllUsed(streams.Keys, start, i)
        invariant k.Some? ==> i <= k.value
      {
        var id := nextStreamId;
        AfterStep(start, i);
        nextStreamId := if nextStreamId >= MAX_ID then 1 else nextStreamId + 1;
        if id !in streams {
          assert FirstFree(streams.Keys, start, id, i);
          assert k.Some? by {
            assert After(start, i) !in streams.Keys;
          }
          FirstFreeUnique(streams.Keys, start, id, i, After(start, k.value), k.value);
          return Some(id);
        }
      }
      AfterStep(start, 0);
      return None;
    }

    // ClientManager.getActiveClient: `readyState` and `bufferedAmount` as seen now
    method GetActiveClient(order: seq<Ws>, open: set<Ws>, bufferedAmount: map<Ws, nat>) returns (best: Option<Ws>)
      requires forall w :: w in order <==> w in clients
      requires forall w :: w in clients ==> w in bufferedAmount
      ensures best.None? <==> forall w :: w in clients ==> w !in open
      ensures best.Some? ==>
        best.value in clients && best.value in open
        && forall w :: w in clients && w in open ==> bufferedAmount[best.value] <= bufferedAmount[w]
    {
      best := None;
      for i := 0 to |order|
        invariant best.None? <==> forall j :: 0 <= j < i ==> order[j] !in open
        invariant best.Some? ==>
          best.value in clients && best.value in open
          && forall j :: 0 <= j < i && order[j] in open ==> bufferedAmount[best.value] <= bufferedAmount[order[j]]
      {
        var ws := order[i];
        if ws in open {
          if best.None? || bufferedAmount[ws] < bufferedAmount[best.value] {
            best := Some(ws);
          }
        }
      }
    }

    // StreamManager.cleanupTcpStream on the table, and the stream's onCleanup
    method CleanupTcpStream(id: int)
      requires id in streams ==> streams[id].Tcp?
      modifies this`streams, this`agentStreams, this`agentConnCount, this`directConnCount
      ensures Books() == Release(old(Books()), id)
    {
      if id !in streams {
        return;
      }
      var entry := streams[id];
      streams := streams - {id};
      match entry.agent
      case None =>
        var c := if CountOf(directConnCount, entry.port) != 0 then CountOf(directConnCount, entry.port) else 1;
        directConnCount := directConnCount[entry.port := if c - 1 > 0 then c - 1 else 0];
      case Some(w) =>
        var c := if CountOf(agentConnCount, entry.port) != 0 then CountOf(agentConnCount, entry.port) else 1;
        agentConnCount := agentConnCount[entry.port := if c - 1 > 0 then c - 1 else 0];
        if w in agentStreams {
          agentStreams := agentStreams[w := agentStreams[w] - {id}];
        }
    }

    // StreamManager.cleanupStream on the table; on a TCP stream nothing else happens
    method CleanupStream(id: int)
      modifies this`streams, this`leaked
      ensures Books() == if id in old(streams) && old(streams)[id].Tcp? then Forget(old(Books()), id)
                         else Release(old(Books()), id)
    {
      if id !in streams {
        return;
      }
      if streams[id].Tcp? {
        leaked := leaked[id := streams[id]];
      }
      streams := streams - {id};
    }

    // StreamManager.abortAnyStream on the table
    method CleanupAnyStream(id: int)
      modifies this`streams, this`agentStreams, this`agentConnCount, this`directConnCount, this`leaked
      ensures Books() == Release(old(Books()), id)
    {
      if id in streams && streams[id].Http? {
        CleanupStream(id);
      } else {
        CleanupTcpStream(id);
      }
    }

    // TcpAgentServer._handleTcpConnect and TcpRouter.createAgentStream
    method HandleTcpConnect(w: Ws, port: Option<int>, active: Option<Ws>) returns (o: Outcome)
      requires IsId(nextStreamId) && w in agentStreams
      modifies this`streams, this`nextStreamId, this`agentStreams, this`agentConnCount
      ensures (Books(), o) == ConnectAgent(old(Books()), limits, w, port, active)
      ensures o.Opened? ==>
        && port.Some? && port.value in limits.allowedPorts && active.Some?
        && (limits.perAgentPort > 0 ==> CountOf(old(agentConnCount), port.value) < limits.perAgentPort)
        && (limits.perAgent > 0 ==> |old(agentStreams)[w]| < limits.perAgent)
        && |old(streams)| < limits.maxStreams
        && streams == old(streams)[o.id := Tcp(active.value, port.value, Some(w))]
    {
      if port.None? || port.value !in limits.allowedPorts {
        return Refused;
      }
      var currentCount := CountOf(agentConnCount, port.value);
      if limits.perAgentPort > 0 && currentCount >= limits.perAgentPort {
        return Refused;
      }
      if limits.perAgent > 0 && |agentStreams[w]| >= limits.perAgent {
        return Refused;
      }
      if active.None? {
        return Refused;
      }
      if |streams| >= limits.maxStreams {
        return Refused;
      }
      var id := AllocateStreamId();
      if id.None? {
        return Refused;
      }
      streams := streams[id.value := Tcp(active.value, port.value, Some(w))];
      agentConnCount := agentConnCount[port.value := currentCount + 1];
      agentStreams := agentStreams[w := agentStreams[w] + {id.value}];
      return Opened(id.value);
    }

    // TcpRouter._handleConnection, for an address that is allowed
    method HandleConnection(port: int, active: Option<Ws>) returns (o: Outcome)
      requires IsId(nextStreamId)
      modifies this`streams, this`nextStreamId, this`directConnCount
      ensures (Books(), o) == ConnectDirect(old(Books()), limits, port, active)
      ensures o.Opened? ==>
        && active.Some? && |old(streams)| < limits.maxStreams
        && (limits.perDirectPort > 0 ==> CountOf(old(directConnCount), port) < limits.perDirectPort)
        && streams == old(streams)[o.id := Tcp(active.value, port, None)]
    {
      var currentCount := CountOf(directConnCount, port);
      if limits.perDirectPort > 0 && currentCount >= limits.perDirectPort {
        return Refused;
      }
      if |streams| >= limits.maxStreams {
        return Refused;
      }
      if active.None? {
        return Refused;
      }
      var id := AllocateStreamId();
      if id.None? {
        return Refused;
      }
      directConnCount := directConnCount[port := currentCount + 1];
      streams := streams[id.value := Tcp(active.value, port, None)];
      return Opened(id.value);
    }

    // ClientManager.addClient
    method AddClient(w: Ws) returns (added: bool)
      modifies this`clients
      ensures Books() == ClientJoins(old(Books()), limits, w)
      ensures added == (|old(clients)| < limits.maxClients)
    {
      if |clients| >= limits.maxClients {
        return false;
      }
      clients := clients + {w};
      return true;
    }

    // The loop of TcpAgentServer.cleanupAgent
    method AbortOwned(owned: set<int>) returns (ghost order: seq<int>)
      requires forall id :: id in owned && id in streams ==> streams[id].Tcp?
      modifies this`streams, this`agentStreams, this`agentConnCount, this`directConnCount
      ensures (set id | id in order) == owned && Books() == ReleaseAll(old(Books()), order)
    {
      var todo := owned;
      order := [];
      while todo != {}
        invariant todo <= owned && (set id | id in order) == owned - todo
        invariant Books() == ReleaseAll(old(Books()), order)
        decreases todo
      {
        ghost var _ := AnyOf(todo);
        var id :| id in todo;
        todo := todo - {id};
        ReleaseAllFrame(old(Books()), order);
        CleanupTcpStream(id);
        order := Extend(order, id);
      }
    }

    // TcpAgentServer.cleanupAgent
    method CleanupAgent(w: Ws) returns (ghost order: seq<int>)
      requires TableInv(Books(), limits)
      modifies this`streams, this`agentStreams, this`agentConnCount, this`directConnCount
      ensures w !in old(agentStreams) ==> Books() == old(Books())
      ensures w in old(agentStreams) ==>
        (set id | id in order) == old(agentStreams[w]) && Books() == AgentLeaves(old(Books()), w, order)
    {
      order := [];
      if w !in agentStreams {
        return;
      }
      var owned := agentStreams[w];
      OwnedAreTcp(Books(), w);
      agentStreams := agentStreams - {w};
      order := AbortOwned(owned);
    }

    // The loop of ClientManager.cleanupClient
    method AbortCarried(w: Ws) returns (ghost order: seq<int>)
      modifies this`streams, this`agentStreams, this`agentConnCount, this`directConnCount, this`leaked
      ensures (set id | id in order) == OfClient(old(streams), w) && Books() == ReleaseAll(old(Books()), order)
    {
      var all := streams;
      var todo := all.Keys;
      order := [];
      while todo != {}
        invariant todo <= all.Keys && (set id | id in order) == OfClient(all, w) - todo
        invariant Books() == ReleaseAll(old(Books()), order)
        decreases todo
      {
        ghost var _ := AnyOf(todo);
        var id :| id in todo;
        todo := todo - {id};
        if all[id].ws == w {
          CleanupAnyStream(id);
          order := Extend(order, id);
        }
      }
    }

    // ClientManager.cleanupClient
    method CleanupClient(w: Ws) returns (ghost order: seq<int>)
      modifies this`streams, this`clients, this`agentStreams, this`agentConnCount, this`directConnCount, this`leaked
      ensures (set id | id in order) == OfClient(old(streams), w) && Books() == ClientLeaves(old(Books()), w, order)
    {
      clients := clients - {w};
      order := AbortCarried(w);
    }
  }

  ghost function Extend(order: seq<int>, id: int): (r: seq<int>)
    ensures r == order + [id] && r[..|r| - 1] == order && r[|r| - 1] == id
    ensures (set x | x in r) == (set x | x in order) + {id}
  {
    order + [id]
  }

  /** What an agent owns is, where still in the table, a TCP stream. */
  lemma OwnedAreTcp(t: Table, w: Ws)
    requires CountsOk(t) && KeysOk(t) && w in t.owned
    ensures forall id :: id in t.owned[w] && id in t.streams ==> t.streams[id].Tcp?
  {
    assert t.owned[w] == OfAgent(Counted(t), w);
  }
}
