/**
 The response side of an HTTP stream as StreamManager runs it: flags and logs updated in
 place. Each method does what HttpResponse says.
 */
module HttpStream {
  import opened Protocol
  import opened ServerStream
  import opened HttpResponse

  class ProxiedStream {
    var cleaned: bool
    var abortSent: bool
    var responseStarted: bool
    var responseEnded: bool
    var requestEnded: bool
    var responsePaused: bool
    var drainListener: bool
    var calls: seq<Call>
    var flow: seq<Msg>
    var requests: seq<Request>

    ghost function State(): Http
      reads this
    {
      Http(cleaned, abortSent, responseStarted, responseEnded, requestEnded, responsePaused, drainListener,
           calls, flow, requests)
    }

    constructor ()
      ensures State() == NEW_HTTP
    {
      cleaned, abortSent, responseStarted, responseEnded := false, false, false, false;
      requestEnded, responsePaused, drainListener := false, false, false;
      calls, flow, requests := [], [], [];
    }

    // writeHead(502) and end(message), inside one try
    method SendError(l: Luck) returns (sent: bool)
      modifies this`calls
      ensures State() == FailHead(old(State()), l) && sent == (l.head && l.end)
    {
      if !l.head {
        return false;
      }
      calls := calls + [WriteHead(502)];
      if !l.end {
        return false;
      }
      calls := calls + [End];
      return true;
    }

    // res.end()
    method EndResponse(l: Luck)
      modifies this`calls
      ensures State() == EndCall(old(State()), l)
    {
      if l.end {
        calls := calls + [End];
      }
    }

    // The notification inside abortStream
    method NotifyAbort(notifyClient: bool, l: Luck)
      modifies this`abortSent, this`requests
      ensures State() == if notifyClient && l.open && !old(abortSent)
                         then old(State()).(abortSent := true, requests := old(requests) + [ReqAbort]) else old(State())
    {
      if notifyClient && l.open && !abortSent {
        abortSent := true;
        requests := requests + [ReqAbort];
      }
    }

    // abortStream
    method AbortStream(notifyClient: bool, l: Luck)
      modifies this
      ensures State() == AbortResponse(old(State()), notifyClient, l)
    {
      if cleaned {
        return;
      }
      NotifyAbort(notifyClient, l);
      if !responseStarted {
        var _ := SendError(l);
      } else if !responseEnded {
        EndResponse(l);
      }
      cleaned := true;
    }

    // case RES_META
    method HandleMeta(parses: bool, accepted: bool, l: Luck)
      requires !cleaned
      modifies this
      ensures State() == Step(old(State()), Event.ResMeta(parses, accepted), l)
    {
      hide AbortResponse;
      if responseStarted || !parses {
        AbortStream(false, l);
        return;
      }
      if accepted {
        calls := calls + [WriteHead(-1)];
        responseStarted := true;
      } else {
        AbortStream(false, l);
      }
    }

    // case RES_DATA
    method HandleData(chunk: Bytes, overflow: bool, w: WriteOutcome, l: Luck)
      requires !cleaned
      modifies this
      ensures State() == Step(old(State()), ResData(chunk, overflow, w), l)
    {
      hide AbortResponse;
      if !responseStarted {
        AbortStream(false, l);
        return;
      }
      if responseEnded {
        return;
      }
      if overflow {
        AbortStream(true, l);
        return;
      }
      if w.Throws? {
        AbortStream(false, l);
        return;
      }
      calls := calls + [Write(chunk)];
      if w.BufferFull? && !responsePaused {
        responsePaused := true;
        drainListener := true;
        if l.open {
          flow := flow + [Pause];
        }
      }
    }

    // case RES_END
    method HandleEnd(l: Luck)
      requires !cleaned
      modifies this
      ensures State() == Step(old(State()), ResEnd, l)
    {
      hide AbortResponse;
      if !responseStarted {
        AbortStream(false, l);
        return;
      }
      if responseEnded {
        return;
      }
      responseEnded := true;
      EndResponse(l);
    }

    // case RES_ABORT
    method HandleAbort(l: Luck)
      requires !cleaned
      modifies this
      ensures State() == Step(old(State()), ResAbort, l)
    {
      if !responseStarted {
        var sent := SendError(l);
        if sent {
          responseEnded := true;
        }
      } else if !responseEnded {
        EndResponse(l);
      }
      cleaned := true;
    }

    // The 'drain' listener of the response
    method OnDrain(l: Luck)
      modifies this
      ensures State() == Step(old(State()), Drained, l)
    {
      if !drainListener {
        return;
      }
      drainListener := false;
      if cleaned {
        return;
      }
      responsePaused := false;
      if l.open {
        flow := flow + [Resume];
      }
    }

    // 'finish' and 'close' of the response
    method OnFinish(l: Luck)
      modifies this
      ensures State() == Step(old(State()), Finished, l)
    {
      responseEnded := true;
      cleaned := true;
    }

    method OnClose(l: Luck)
      modifies this
      ensures State() == Step(old(State()), Closed, l)
    {
      if !cleaned && !responseEnded {
        AbortStream(true, l);
      }
    }

    // 'finish' of the request writer
    method OnRequestSent(l: Luck)
      modifies this
      ensures State() == Step(old(State()), RequestSent, l)
    {
      if cleaned || requestEnded {
        return;
      }
      requestEnded := true;
      if l.open {
        requests := requests + [ReqEnd];
      }
    }
  }
}
