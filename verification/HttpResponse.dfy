/**
 The response side of one proxied HTTP request (the HTTP cases of
 StreamManager.handleClientFrame, abortStream, cleanupStream, and the listeners of
 HttpRouter), for a stream whose REQ_META was sent. What the calls on the Node response
 object do is left open: any of them may fail at any time, so the grammar of the successful
 ones is the stream's own doing.
 */
module HttpResponse {
  import opened Protocol
  import opened ServerStream

  // A successful call on the response object (`status` -1: as the tunnel client said).
  datatype Call = WriteHead(status: int) | Write(chunk: Bytes) | End

  datatype Request = ReqEnd | ReqAbort

  // responseStarted, responseEnded, requestEnded, responsePaused; `awaitsDrain`: a 'drain'
  // listener is registered. The logs: calls, PAUSE/RESUME frames, REQ_END/REQ_ABORT frames.
  datatype Http = Http(cleaned: bool, abortSent: bool, started: bool, ended: bool, requestEnded: bool,
                       paused: bool, awaitsDrain: bool, calls: seq<Call>, flow: seq<Msg>, requests: seq<Request>)

  const NEW_HTTP := Http(false, false, false, false, false, false, false, [], [], [])

  // What the outside decides in one event: readyState of the tunnel client's WebSocket, and
  // whether writeHead and end succeed.
  datatype Luck = Luck(open: bool, head: bool, end: bool)

  datatype Event =
    | ResMeta(parses: bool, accepted: bool)   // `accepted`: writeHead takes its status and headers
    | ResData(chunk: Bytes, overflow: bool, w: WriteOutcome)
    | ResEnd
    | ResAbort
    | OtherFrame                 // PAUSE and RESUME go to the request writer, TCP frames are ignored
    | Drained
    | Finished                   // 'finish' of the response
    | Closed                     // 'close' of the response
    | Broken(notify: bool)       // idle timeout, request error, or the client's WebSocket is gone
    | RequestSent                // 'finish' of the request writer

  function Did(s: Http, c: Call): Http {
    s.(calls := s.calls + [c])
  }

  function SendFlow(s: Http, l: Luck, m: Msg): Http {
    if l.open then s.(flow := s.flow + [m]) else s
  }

  /** cleanupStream, as far as it concerns the response. */
  function Cleanup(s: Http): Http {
    s.(cleaned := true)
  }

  function FailHead(s: Http, l: Luck): Http {
    if !l.head then s
    else if l.end then Did(Did(s, WriteHead(502)), End)
    else Did(s, WriteHead(502))
  }

  function EndCall(s: Http, l: Luck): Http {
    if l.end then Did(s, End) else s
  }

  /** abortStream. */
  function AbortResponse(s: Http, notify: bool, l: Luck): Http {
    if s.cleaned then s
    else
      var s1 := if notify && l.open && !s.abortSent
                then s.(abortSent := true, requests := s.requests + [ReqAbort]) else s;
      Cleanup(if !s1.started then FailHead(s1, l) else if !s1.ended then EndCall(s1, l) else s1)
  }

  function OnMeta(s: Http, parses: bool, accepted: bool, l: Luck): Http {
    if s.started then AbortResponse(s, false, l)
    else if !parses then AbortResponse(s, false, l)
    else if accepted then Did(s, WriteHead(-1)).(started := true)
    else AbortResponse(s, false, l)
  }

  function OnData(s: Http, chunk: Bytes, overflow: bool, w: WriteOutcome, l: Luck): Http {
    if !s.started then AbortResponse(s, false, l)
    else if s.ended then s
    else if overflow then AbortResponse(s, true, l)
    else if w.Throws? then AbortResponse(s, false, l)
    else
      var s1 := Did(s, Write(chunk));
      if w.BufferFull? && !s1.paused then SendFlow(s1.(paused := true, awaitsDrain := true), l, Pause) else s1
  }

  function OnEnd(s: Http, l: Luck): Http {
    if !s.started then AbortResponse(s, false, l)
    else if s.ended then s
    else EndCall(s.(ended := true), l)
  }

  function OnAbort(s: Http, l: Luck): Http {
    Cleanup(if !s.started then FailHead(s, l).(ended := s.ended || (l.head && l.end))
            else if !s.ended then EndCall(s, l) else s)
  }

  function OnDrained(s: Http, l: Luck): Http {
    if !s.awaitsDrain then s
    else
      var s1 := s.(awaitsDrain := false);
      if s1.cleaned then s1 else SendFlow(s1.(paused := false), l, Resume)
  }

  /** One event. A frame reaches only a stream that is still in the table. */
  function Step(s: Http, ev: Event, l: Luck): Http {
    match ev
    case ResMeta(parses, accepted) => if s.cleaned then s else OnMeta(s, parses, accepted, l)
    case ResData(chunk, overflow, w) => if s.cleaned then s else OnData(s, chunk, overflow, w, l)
    case ResEnd => if s.cleaned then s else OnEnd(s, l)
    case ResAbort => if s.cleaned then s else OnAbort(s, l)
    case OtherFrame => s
    case Drained => OnDrained(s, l)
    case Finished => Cleanup(s.(ended := true))
    case Closed => if !s.cleaned && !s.ended then AbortResponse(s, true, l) else s
    case Broken(notify) => AbortResponse(s, notify, l)
    case RequestSent =>
      if s.cleaned || s.requestEnded then s
      else if l.open then s.(requestEnded := true, requests := s.requests + [ReqEnd])
      else s.(requestEnded := true)
  }

  // ---------------------------------------------------------------------------
  // The grammar
  // ---------------------------------------------------------------------------

  /** writeHead, then writes, then end: each of the outer ones at most once. */
  predicate Grammatical(calls: seq<Call>) {
    && (calls != [] ==> calls[0].WriteHead?)
    && (forall i :: 0 < i < |calls| ==> !calls[i].WriteHead?)
    && (forall i :: 0 <= i < |calls| - 1 ==> !calls[i].End?)
  }

  function BodyOf(calls: seq<Call>): Bytes {
    if calls == [] then []
    else if calls[|calls| - 1].Write? then BodyOf(calls[..|calls| - 1]) + calls[|calls| - 1].chunk
    else BodyOf(calls[..|calls| - 1])
  }

  /** At most one REQ_END, then at most one REQ_ABORT. */
  predicate Asked(q: seq<Request>) {
    q == [] || q == [ReqEnd] || q == [ReqAbort] || q == [ReqEnd, ReqAbort]
  }

  predicate HttpInv(s: Http) {
    && Grammatical(s.calls)
    && (!s.cleaned ==> (s.started <==> s.calls != []) && (s.ended ==> s.started))
    && (s.calls != [] && s.calls[|s.calls| - 1].End? ==> s.ended || s.cleaned)
    && (!s.cleaned ==> (s.paused <==> s.awaitsDrain))
    && Asked(s.requests)
    && (!s.cleaned ==> !s.abortSent && s.requests == (if ReqEnd in s.requests then [ReqEnd] else []))
    && (ReqEnd in s.requests ==> s.requestEnded)
  }

  /** The client was told the flag the stream holds, as long as its WebSocket is open. */
  predicate FlowInv(s: Http, open: bool) {
    Alternates(s.flow) && (open && !s.cleaned ==> Fold(false, s.flow) == s.paused)
  }

  lemma CallsPush(calls: seq<Call>, c: Call)
    requires Grammatical(calls) && (c.WriteHead? <==> calls == [])
    requires calls != [] ==> !calls[|calls| - 1].End?
    ensures Grammatical(calls + [c])
  {
  }

  lemma AbortKeeps(s: Http, notify: bool, l: Luck)
    requires HttpInv(s)
    ensures HttpInv(AbortResponse(s, notify, l))
  {
    if !s.cleaned && !s.started && l.head {
      CallsPush(s.calls, WriteHead(502));
      CallsPush(s.calls + [WriteHead(502)], End);
    }
  }

  lemma MetaKeeps(s: Http, parses: bool, accepted: bool, l: Luck)
    requires HttpInv(s) && !s.cleaned
    ensures HttpInv(OnMeta(s, parses, accepted, l))
  {
    hide AbortResponse;
    AbortKeeps(s, false, l);
  }

  lemma DataKeeps(s: Http, chunk: Bytes, overflow: bool, w: WriteOutcome, l: Luck)
    requires HttpInv(s) && !s.cleaned
    ensures HttpInv(OnData(s, chunk, overflow, w, l))
  {
    hide AbortResponse;
    AbortKeeps(s, false, l);
    AbortKeeps(s, true, l);
  }

  lemma EndKeeps(s: Http, l: Luck)
    requires HttpInv(s) && !s.cleaned
    ensures HttpInv(OnEnd(s, l)) && HttpInv(OnAbort(s, l))
  {
    AbortKeeps(s, false, l);
  }

  lemma StepKeeps(s: Http, ev: Event, l: Luck)
    requires HttpInv(s)
    ensures HttpInv(Step(s, ev, l))
  {
    hide AbortResponse, OnMeta, OnData, OnEnd, OnAbort;
    if !s.cleaned {
      match ev
      case ResMeta(parses, accepted) => MetaKeeps(s, parses, accepted, l);
      case ResData(chunk, overflow, w) => DataKeeps(s, chunk, overflow, w, l);
      case ResEnd => EndKeeps(s, l);
      case ResAbort => EndKeeps(s, l);
      case Closed => AbortKeeps(s, true, l);
      case Broken(notify) => AbortKeeps(s, notify, l);
      case _ =>
    } else if ev.Broken? {
      AbortKeeps(s, ev.notify, l);
    }
  }

  /** Aborts and ends send no flow frame. */
  predicate SameFlow(s: Http, t: Http) {
    t.flow == s.flow && (!t.cleaned ==> !s.cleaned && t.paused == s.paused)
  }

  lemma AbortFlow(s: Http, notify: bool, l: Luck)
    ensures SameFlow(s, AbortResponse(s, notify, l))
  {
  }

  lemma EndFlow(s: Http, l: Luck)
    ensures SameFlow(s, OnEnd(s, l)) && SameFlow(s, OnAbort(s, l))
  {
  }

  lemma QuietFlow(s: Http, ev: Event, l: Luck)
    requires !ev.ResData? && !ev.Drained?
    ensures SameFlow(s, Step(s, ev, l))
  {
    hide AbortResponse, OnEnd, OnAbort;
    AbortFlow(s, false, l);
    AbortFlow(s, true, l);
    EndFlow(s, l);
  }

  lemma DataFlow(s: Http, chunk: Bytes, overflow: bool, w: WriteOutcome, l: Luck)
    requires FlowInv(s, l.open) && !s.cleaned
    ensures FlowInv(OnData(s, chunk, overflow, w, l), l.open)
  {
    hide AbortResponse;
    AbortFlow(s, false, l);
    AbortFlow(s, true, l);
    Push(s.flow, Pause);
  }

  lemma StepKeepsFlow(s: Http, ev: Event, l: Luck)
    requires FlowInv(s, l.open) && HttpInv(s)
    ensures FlowInv(Step(s, ev, l), l.open)
  {
    hide OnData;
    match ev
    case ResData(chunk, overflow, w) => if !s.cleaned { DataFlow(s, chunk, overflow, w, l); }
    case Drained => Push(s.flow, Resume);
    case _ => QuietFlow(s, ev, l);
  }

  // ---------------------------------------------------------------------------
  // The body, told from the events alone
  // ---------------------------------------------------------------------------

  datatype Stage = Before | During | After

  /** Where the response stands after an event: its start, and what ends it. */
  function Advance(at: Stage, ev: Event, l: Luck): Stage {
    match ev
    case ResMeta(parses, accepted) => if at.Before? && parses && accepted then During else After
    case ResData(_, overflow, w) => if at.During? && !overflow && !w.Throws? then During else After
    case ResEnd => After
    case ResAbort => After
    case Finished => After
    case Closed => After
    case Broken(_) => After
    case _ => at
  }

  datatype Turn = Turn(ev: Event, luck: Luck)

  /** Where the response stands after the events, and the bytes a reader of them would expect. */
  function Reference(turns: seq<Turn>): (Stage, Bytes) {
    if turns == [] then (Before, [])
    else
      var (at, body) := Reference(turns[..|turns| - 1]);
      var t := turns[|turns| - 1];
      (Advance(at, t.ev, t.luck),
       if at.During? && t.ev.ResData? && !t.ev.overflow && !t.ev.w.Throws? then body + t.ev.chunk else body)
  }

  function Run(turns: seq<Turn>): Http {
    if turns == [] then NEW_HTTP
    else Step(Run(turns[..|turns| - 1]), turns[|turns| - 1].ev, turns[|turns| - 1].luck)
  }

  function StageOf(s: Http): Stage {
    if s.cleaned || s.ended then After else if s.started then During else Before
  }

  lemma BodyPush(calls: seq<Call>, c: Call)
    ensures BodyOf(calls + [c]) == if c.Write? then BodyOf(calls) + c.chunk else BodyOf(calls)
  {
    assert (calls + [c])[..|calls|] == calls;
  }

  /** Ends and heads add no byte to the body. */
  lemma AbortBody(s: Http, notify: bool, l: Luck)
    ensures BodyOf(AbortResponse(s, notify, l).calls) == BodyOf(s.calls) && AbortResponse(s, notify, l).cleaned
  {
    BodyPush(s.calls, WriteHead(502));
    BodyPush(s.calls + [WriteHead(502)], End);
    BodyPush(s.calls, End);
  }

  /** From s to t by event ev, as the events alone tell it. */
  predicate Tells(s: Http, t: Http, ev: Event, l: Luck) {
    && StageOf(t) == Advance(StageOf(s), ev, l)
    && BodyOf(t.calls) ==
       if StageOf(s).During? && ev.ResData? && !ev.overflow && !ev.w.Throws? then BodyOf(s.calls) + ev.chunk
       else BodyOf(s.calls)
  }

  lemma EndBody(s: Http, l: Luck)
    ensures BodyOf(OnEnd(s, l).calls) == BodyOf(s.calls) && StageOf(OnEnd(s, l)).After?
    ensures BodyOf(OnAbort(s, l).calls) == BodyOf(s.calls) && OnAbort(s, l).cleaned
  {
    hide AbortResponse;
    AbortBody(s, false, l);
    BodyPush(s.calls, WriteHead(502));
    BodyPush(s.calls + [WriteHead(502)], End);
    BodyPush(s.calls, End);
  }

  lemma MetaBody(s: Http, ev: Event, l: Luck)
    requires ev.ResMeta? && !s.cleaned
    ensures Tells(s, OnMeta(s, ev.parses, ev.accepted, l), ev, l)
  {
    hide AbortResponse;
    AbortBody(s, false, l);
    BodyPush(s.calls, WriteHead(-1));
  }

  lemma DataBody(s: Http, ev: Event, l: Luck)
    requires ev.ResData? && !s.cleaned
    ensures Tells(s, OnData(s, ev.chunk, ev.overflow, ev.w, l), ev, l)
  {
    hide AbortResponse, BodyOf;
    AbortBody(s, false, l);
    AbortBody(s, true, l);
    BodyPush(s.calls, Write(ev.chunk));
  }

  lemma StepBody(s: Http, ev: Event, l: Luck)
    ensures Tells(s, Step(s, ev, l), ev, l)
  {
    hide AbortResponse, OnMeta, OnData, OnEnd, OnAbort;
    if !s.cleaned {
      match ev
      case ResMeta(_, _) => MetaBody(s, ev, l);
      case ResData(_, _, _) => DataBody(s, ev, l);
      case ResEnd => EndBody(s, l);
      case ResAbort => EndBody(s, l);
      case Closed => AbortBody(s, true, l);
      case Broken(notify) => AbortBody(s, notify, l);
      case _ =>
    } else if ev.Broken? {
      AbortBody(s, ev.notify, l);
    }
  }

  lemma {:induction false} BodyIsReference(turns: seq<Turn>)
    ensures Reference(turns) == (StageOf(Run(turns)), BodyOf(Run(turns).calls))
  {
    if turns != [] {
      var n := |turns| - 1;
      BodyIsReference(turns[..n]);
      StepBody(Run(turns[..n]), turns[n].ev, turns[n].luck);
    }
  }

  // ---------------------------------------------------------------------------
  // What is due
  // ---------------------------------------------------------------------------

  /** The calls of an error response, and of an end, as far as they succeed. */
  function ErrorCalls(l: Luck): seq<Call> {
    if !l.head then [] else [WriteHead(502)] + EndCalls(l)
  }

  function EndCalls(l: Luck): seq<Call> {
    if l.end then [End] else []
  }

  /** The calls an event is due to make, from the stage alone: a whole response, an error, or its end. */
  function Due(at: Stage, ev: Event, l: Luck): seq<Call> {
    var ends := ev.ResEnd? || ev.ResAbort? || ev.Closed? || ev.Broken?;
    match at
    case Before =>
      if ev.ResMeta? && ev.parses && ev.accepted then [WriteHead(-1)]
      else if ev.ResMeta? || ev.ResData? || ends then ErrorCalls(l)
      else []
    case During =>
      if ev.ResData? && !ev.overflow && !ev.w.Throws? then [Write(ev.chunk)]
      else if ev.ResMeta? || ev.ResData? || ends then EndCalls(l)
      else []
    case After => []
  }

  lemma AbortCalls(s: Http, notify: bool, l: Luck)
    ensures AbortResponse(s, notify, l).calls == s.calls +
            (if s.cleaned then [] else if !s.started then ErrorCalls(l) else if !s.ended then EndCalls(l) else [])
  {
    FailCalls(s, l);
  }

  lemma FailCalls(s: Http, l: Luck)
    ensures FailHead(s, l) == s.(calls := s.calls + ErrorCalls(l))
    ensures EndCall(s, l) == s.(calls := s.calls + EndCalls(l))
  {
    if l.head && l.end {
      assert (s.calls + [WriteHead(502)]) + [End] == s.calls + ([WriteHead(502)] + [End]);
    }
    assert s.calls + [] == s.calls && [WriteHead(502)] + [] == [WriteHead(502)];
  }

  /** Each event makes exactly the calls that are due. */
  lemma StepCalls(s: Http, ev: Event, l: Luck)
    requires HttpInv(s)
    ensures Step(s, ev, l).calls == s.calls + Due(StageOf(s), ev, l)
  {
    hide AbortResponse, FailHead, EndCall, ErrorCalls, EndCalls, Grammatical, OnData;
    AbortCalls(s, false, l);
    AbortCalls(s, true, l);
    FailCalls(s, l);
    FailCalls(s.(ended := true), l);
    if ev.ResData? && !s.cleaned {
      DataCalls(s, ev, l);
    }
  }

  lemma DataCalls(s: Http, ev: Event, l: Luck)
    requires HttpInv(s) && ev.ResData? && !s.cleaned
    ensures OnData(s, ev.chunk, ev.overflow, ev.w, l).calls == s.calls + Due(StageOf(s), ev, l)
  {
    hide AbortResponse, ErrorCalls, EndCalls, Grammatical;
    AbortCalls(s, false, l);
    AbortCalls(s, true, l);
  }

  /** The frames an event is due to send to the tunnel client. */
  function Requested(s: Http, ev: Event): seq<Request> {
    if s.cleaned then []
    else if ev.RequestSent? && !s.requestEnded then [ReqEnd]
    else if (ev.Closed? && !s.ended) || ev == Broken(true) || (StageOf(s).During? && ev.ResData? && ev.overflow) then
      [ReqAbort]
    else []
  }

  function Flowing(s: Http, ev: Event): seq<Msg> {
    if s.cleaned then []
    else if StageOf(s).During? && ev.ResData? && !ev.overflow && ev.w.BufferFull? && !s.paused then [Pause]
    else if ev.Drained? && s.awaitsDrain then [Resume]
    else []
  }

  lemma AbortSays(s: Http, notify: bool, l: Luck)
    ensures var t := AbortResponse(s, notify, l);
            && t.requests == s.requests +
               (if !s.cleaned && notify && l.open && !s.abortSent then [ReqAbort] else [])
            && t.flow == s.flow && t.paused == s.paused && t.cleaned
  {
  }

  lemma DataSays(s: Http, ev: Event, l: Luck)
    requires HttpInv(s)
    ensures ev.ResData? && !s.cleaned ==>
      var t := OnData(s, ev.chunk, ev.overflow, ev.w, l);
      && t.requests == s.requests + (if l.open && StageOf(s).During? && ev.overflow then [ReqAbort] else [])
      && t.flow == s.flow + (if l.open then Flowing(s, ev) else [])
      && (t.cleaned <==> StageOf(s).Before? || (StageOf(s).During? && (ev.overflow || ev.w.Throws?)))
      && (!t.cleaned && StageOf(s).During? ==> t.paused == (s.paused || ev.w.BufferFull?))
  {
    hide AbortResponse;
    AbortSays(s, false, l);
    AbortSays(s, true, l);
  }

  /** REQ_END and REQ_ABORT go out exactly when due. */
  lemma StepRequests(s: Http, ev: Event, l: Luck)
    requires HttpInv(s)
    ensures Step(s, ev, l).requests == s.requests + (if l.open then Requested(s, ev) else [])
  {
    hide AbortResponse, OnData, Grammatical;
    AbortSays(s, false, l);
    AbortSays(s, true, l);
    DataSays(s, ev, l);
  }

  /** PAUSE goes out exactly when a write finds the response full, RESUME exactly when it has drained. */
  lemma StepFlows(s: Http, ev: Event, l: Luck)
    requires HttpInv(s)
    ensures var t := Step(s, ev, l);
            && t.flow == s.flow + (if l.open then Flowing(s, ev) else [])
            && (!t.cleaned && ev.ResData? && StageOf(s).During? ==> t.paused == (s.paused || ev.w.BufferFull?))
            && (!t.cleaned && !ev.ResData? ==> t.paused == (s.paused && !ev.Drained?))
  {
    hide AbortResponse, OnData, Grammatical;
    AbortSays(s, false, l);
    AbortSays(s, true, l);
    DataSays(s, ev, l);
  }

  /** What takes the stream out of the table. */
  predicate Finishes(s: Http, ev: Event) {
    || ev.Finished? || ev.ResAbort? || ev.Broken?
    || (ev.ResMeta? && !(StageOf(s).Before? && ev.parses && ev.accepted))
    || (ev.Closed? && !s.ended)
    || (StageOf(s).Before? && (ev.ResData? || ev.ResEnd?))
    || (StageOf(s).During? && ev.ResData? && (ev.overflow || ev.w.Throws?))
  }

  lemma StepFinishes(s: Http, ev: Event, l: Luck)
    requires HttpInv(s)
    ensures Step(s, ev, l).cleaned <==> s.cleaned || Finishes(s, ev)
  {
    hide AbortResponse, OnData, Grammatical;
    AbortSays(s, false, l);
    AbortSays(s, true, l);
    DataSays(s, ev, l);
  }

  /** All calls due in a run, told from the events alone. */
  function Script(turns: seq<Turn>): seq<Call> {
    if turns == [] then []
    else
      Script(turns[..|turns| - 1])
      + Due(Reference(turns[..|turns| - 1]).0, turns[|turns| - 1].ev, turns[|turns| - 1].luck)
  }

  predicate AllSucceed(turns: seq<Turn>) {
    forall i :: 0 <= i < |turns| ==> turns[i].luck.head && turns[i].luck.end
  }

  /** The response is written exactly as the events tell it. */
  lemma {:induction false} WrittenAsTold(turns: seq<Turn>)
    ensures Run(turns).calls == Script(turns)
  {
    if turns != [] {
      var n := |turns| - 1;
      WrittenAsTold(turns[..n]);
      RunKeeps(turns[..n]);
      BodyIsReference(turns[..n]);
      StepCalls(Run(turns[..n]), turns[n].ev, turns[n].luck);
    }
  }

  /** If no call fails it is complete: whatever ends it, its last call is `end`. */
  lemma {:induction false} EndedInFull(turns: seq<Turn>)
    requires AllSucceed(turns) && forall i :: 0 <= i < |turns| ==> !turns[i].ev.Finished?
    ensures Full(Run(turns))
  {
    if turns != [] {
      var n := |turns| - 1;
      EndedInFull(turns[..n]);
      RunKeeps(turns[..n]);
      EndsInFull(Run(turns[..n]), turns[n].ev, turns[n].luck);
    }
  }

  /** Where the response stands, and what was called last. */
  predicate Full(s: Http) {
    && (StageOf(s).After? <==> s.calls != [] && s.calls[|s.calls| - 1].End?)
    && (StageOf(s).Before? <==> s.calls == [])
  }

  lemma EndsInFull(s: Http, ev: Event, l: Luck)
    requires HttpInv(s) && Full(s) && !ev.Finished? && l.head && l.end
    ensures Full(Step(s, ev, l))
  {
    hide Step, HttpInv;
    StepCalls(s, ev, l);
    StepBody(s, ev, l);
  }

  lemma {:induction false} RunKeeps(turns: seq<Turn>)
    ensures HttpInv(Run(turns))
  {
    if turns != [] {
      var n := |turns| - 1;
      RunKeeps(turns[..n]);
      StepKeeps(Run(turns[..n]), turns[n].ev, turns[n].luck);
    }
  }

  /** The WebSocket never reopens. */
  predicate OpenOnce(turns: seq<Turn>) {
    forall i, j :: 0 <= i < j < |turns| && turns[j].luck.open ==> turns[i].luck.open
  }

  lemma {:induction false} RunKeepsFlow(turns: seq<Turn>)
    requires OpenOnce(turns)
    ensures turns != [] ==> FlowInv(Run(turns), turns[|turns| - 1].luck.open)
    ensures Alternates(Run(turns).flow)
  {
    if turns != [] {
      var n := |turns| - 1;
      RunKeepsFlow(turns[..n]);
      RunKeeps(turns[..n]);
      StepKeepsFlow(Run(turns[..n]), turns[n].ev, turns[n].luck);
    }
  }

  /**
   Whatever frames, failures and events come in whatever order: the successful calls on the
   response form writeHead, writes, end; the body written is exactly the RES_DATA payloads
   accepted between RES_META and the first end or abort; PAUSE and RESUME alternate; and
   after at most one REQ_END at most one REQ_ABORT is sent.
   */
  lemma ResponseGrammar(turns: seq<Turn>)
    requires OpenOnce(turns)
    ensures var s := Run(turns);
            && Grammatical(s.calls)
            && BodyOf(s.calls) == Reference(turns).1
            && Alternates(s.flow)
            && Asked(s.requests)
  {
    RunKeeps(turns);
    BodyIsReference(turns);
    RunKeepsFlow(turns);
  }
}
