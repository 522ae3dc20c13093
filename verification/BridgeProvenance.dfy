/**
  Nothing passes the bridge that the other side did not say.

  The function call a client sees is a server request: its registered name, its arguments, under the call id
  that the client then answers. The result the app-server gets for a call is the output a client gave for
  that very call, the texts that start turns are texts of accepted requests of the same session, and a
  session's configuration is that of the request that opened it.
 */
module BridgeProvenance {
  import opened Wrappers
  import opened ResponseSegments
  import opened EventGrammar
  import opened SegmentStream
  import opened Transcripts
  import opened BridgeState
  import opened BridgeOperations
  import opened BridgeStreams
  import opened BridgeCalls
  import opened BridgeFilters

  // ---------------------------------------------------------------------------
  // What was said
  // ---------------------------------------------------------------------------

  /**
    The request that opened the latest session; the configurations that sessions were opened with; the texts
    accepted, by session; the tool outputs accepted, by call id; and the calls that server requests asked for.
   */
  datatype Source = Source(
    opening: Option<Request>,
    configs: set<(nat, Config)>,
    texts: set<(nat, string)>,
    outputs: set<(nat, string)>,
    calls: set<Call>)

  /** The configuration a request asks for. */
  function Wanted(req: Request): Config {
    Config(if req.model.Some? then req.model.value else "", if req.instructions.Some? then req.instructions.value else "",
           req.effort, if req.tools.Some? then req.tools.value else NoTools)
  }

  /** One more step: an accepted client request, or a good call of the live session. */
  function Heard(src: Source, b: Bridge, step: Step): Source {
    match step
    case RequestStep(req, _, aborted) =>
      if Refusal(b, req, aborted).Some? then src
      else if req.previous.None? then
        src.(opening := Some(req), configs := src.configs + {(b.nextSession, Wanted(req))},
             texts := if req.input.UserText? then src.texts + {(b.nextSession, req.input.text)} else src.texts)
      else if b.session.None? then src
      else
        match req.input {
          case UserText(text) => src.(texts := src.texts + {(b.session.value.sid, text)})
          case ToolOutput(callId, output) => src.(outputs := src.outputs + {(callId, output)})
        }
    case ServerStep(r) =>
      if Reaches(b, r.thread) && r.toolCall && GoodCall(b.session.value, r) then
        src.(calls := src.calls +
          {Call(r.rpcId, |b.ledger.received|, b.session.value.config.tools.names[r.toolIndex.value], r.args.value)})
      else src
    case _ => src
  }

  function Said(steps: seq<Step>): Source {
    if steps == [] then Source(None, {}, {}, {}, {})
    else Heard(Said(steps[..|steps| - 1]), Reach(steps[..|steps| - 1]), steps[|steps| - 1])
  }

  // ---------------------------------------------------------------------------
  // What passed
  // ---------------------------------------------------------------------------

  ghost predicate Asked(calls: set<Call>, item: Item) {
    exists c :: c in calls && item == FunctionCall(c.arrival, c.name, c.args, true)
  }

  /** At most one function call, at the end, and one that was asked for. */
  ghost predicate CallsAtEnd(output: seq<Item>, calls: set<Call>) {
    forall j :: 0 <= j < |output| && output[j].FunctionCall? ==> j == |output| - 1 && Asked(calls, output[j])
  }

  predicate NoCalls(output: seq<Item>) { forall j :: 0 <= j < |output| ==> output[j].Message? }

  ghost predicate Surfaces(offers: seq<Offer>, calls: set<Call>) {
    offers != [] && offers[|offers| - 1].event.ResponseCompleted? ==> CallsAtEnd(offers[|offers| - 1].event.output, calls)
  }

  /** The stream of operation id, finished or still held by the running operation. */
  function StreamOf(b: Bridge, id: nat): seq<Offer> {
    if id < |b.history.streams| then b.history.streams[id]
    else if b.operation.Some? && b.operation.value.oid == id then b.operation.value.seg.offered
    else []
  }

  predicate EndsInCall(offers: seq<Offer>, c: Call) {
    && offers != [] && offers[|offers| - 1].event.ResponseCompleted?
    && var output := offers[|offers| - 1].event.output;
       output != [] && output[|output| - 1] == FunctionCall(c.arrival, c.name, c.args, true)
  }

  predicate EndsWithoutCall(offers: seq<Offer>) {
    offers != [] && offers[|offers| - 1].event.ResponseCompleted? && NoCalls(offers[|offers| - 1].event.output)
  }

  /** The waiting call is the one the latest response ended in; with none, an idle session's response asked for none. */
  ghost predicate WaitTold(b: Bridge) {
    b.session.Some? ==>
      && (b.session.value.waiting.Some? ==>
            && b.session.value.lastResponse.Some?
            && EndsInCall(StreamOf(b, b.session.value.lastResponse.value), b.session.value.waiting.value))
      && (b.session.value.waiting.None? && b.session.value.lastResponse.Some? && !Unsettled(b) ==>
            EndsWithoutCall(StreamOf(b, b.session.value.lastResponse.value)))
  }

  ghost predicate OpTold(b: Bridge, src: Source) {
    b.operation.Some? ==>
      && (b.operation.value.settled.None? ==> NoCalls(b.operation.value.seg.output))
      && (b.operation.value.settled == Some(Resolved) ==> Surfaces(b.operation.value.seg.offered, src.calls))
  }

  ghost predicate StreamsTold(b: Bridge, src: Source) {
    && |b.history.streams| <= |b.history.settled|
    && forall i :: 0 <= i < |b.history.streams| && b.history.settled[i].1 == Resolved ==> Surfaces(b.history.streams[i], src.calls)
  }

  predicate ConfigOf(c: Config, req: Request) {
    && req.model == Some(c.model) && c.effort == req.effort
    && c.instructions == (if req.instructions.Some? then req.instructions.value else "")
    && c.tools == (if req.tools.Some? then req.tools.value else NoTools)
  }

  ghost predicate Opens(b: Bridge, src: Source) {
    && (b.session.Some? ==>
          && src.opening.Some? && ConfigOf(b.session.value.config, src.opening.value)
          && (b.session.value.sid, b.session.value.config) in src.configs)
    && (b.starting.Some? ==>
          && src.opening == Some(b.starting.value.req)
          && (b.nextSession, Wanted(b.starting.value.req)) in src.configs
          && (b.starting.value.req.input.UserText? ==> (b.nextSession, b.starting.value.req.input.text) in src.texts))
  }

  /** A suspended request carries what its client said; a tool output is for the call that waits. */
  ghost predicate TaskTold(b: Bridge, src: Source, t: Task) {
    Starts(t) ==>
      match t.req.input
      case UserText(text) => (t.sid, text) in src.texts
      case ToolOutput(callId, output) =>
        && (callId, output) in src.outputs
        && (Live(b, t.sid) && b.session.value.waiting.Some? ==> b.session.value.waiting.value.arrival == callId)
  }

  ghost predicate TasksTold(b: Bridge, src: Source) { forall k :: k in b.tasks ==> TaskTold(b, src, b.tasks[k]) }

  /** What a message starts, a thread or a turn, is what was asked for. */
  ghost predicate MessageTold(m: Sent, src: Source) {
    && (m.StartThread? ==> (m.sid, m.config) in src.configs)
    && (m.StartTurn? ==> (m.sid, m.text) in src.texts && exists c :: (m.sid, c) in src.configs && c.effort == m.effort)
  }

  ghost predicate SentTold(b: Bridge, src: Source) {
    && (forall m :: m in b.wire.sent ==> MessageTold(m, src))
    && (forall a :: a in b.ledger.answers && a.body.ToolResult? ==> (a.arrival, a.body.output) in src.outputs)
  }

  ghost predicate OutTold(b: Bridge, src: Source) { forall c :: c in OutCalls(b) ==> c in src.calls }

  ghost predicate Base(b: Bridge, src: Source) {
    OutTold(b, src) && StreamsTold(b, src) && Opens(b, src) && TasksTold(b, src) && SentTold(b, src)
  }

  ghost predicate Sourced(b: Bridge, src: Source) { Base(b, src) && OpTold(b, src) && WaitTold(b) }

  // ---------------------------------------------------------------------------
  // Frames
  // ---------------------------------------------------------------------------

  /** The session is gone, or is the same session with the same calls in hand and the same latest response. */
  ghost predicate SameSession(b: Bridge, c: Bridge) {
    c.session.None? ||
    (b.session.Some? && c.session.value.sid == b.session.value.sid && c.session.value.config == b.session.value.config
     && c.session.value.waiting == b.session.value.waiting && c.session.value.pending == b.session.value.pending
     && c.session.value.lastResponse == b.session.value.lastResponse)
  }

  /** Nothing that was said passed. */
  ghost predicate SameTalk(b: Bridge, c: Bridge) {
    && c.starting == b.starting && c.nextSession == b.nextSession
    && (forall m :: m in c.wire.sent && (m.StartTurn? || m.StartThread?) ==> m in b.wire.sent)
    && (forall a :: a in c.ledger.answers && a.body.ToolResult? ==> a in b.ledger.answers)
    && (forall k :: k in c.tasks && Starts(c.tasks[k]) ==> k in b.tasks && b.tasks[k] == c.tasks[k])
  }

  ghost predicate Keeps(b: Bridge, c: Bridge) {
    && SameSession(b, c) && SameTalk(b, c)
    && c.operation == b.operation && c.history.streams == b.history.streams && c.history.settled == b.history.settled
  }

  lemma TalkBase(b: Bridge, c: Bridge, src: Source)
    requires Base(b, src) && SameSession(b, c) && SameTalk(b, c) && StreamsTold(c, src)
    ensures Base(c, src)
  {
    hide StreamsTold;
    forall k | k in c.tasks ensures TaskTold(c, src, c.tasks[k]) {
      if Starts(c.tasks[k]) {
        assert TaskTold(b, src, b.tasks[k]);
      }
    }
  }

  lemma KeepsSourced(b: Bridge, c: Bridge, src: Source)
    requires Sourced(b, src) && Keeps(b, c)
    ensures Sourced(c, src)
  {
    hide OutTold, Opens, TasksTold, SentTold;
    TalkBase(b, c, src);
  }

  lemma ReleasedTalk(b: Bridge)
    ensures SameSession(b, Release(b)) && SameTalk(b, Release(b))
  {
    if b.session.Some? {
      CancelledTalk(b.ledger, b.rpc, Outstanding(b.session.value));
      hide CancelAll, Outstanding;
    }
  }

  lemma CancelledTalk(l: Ledger, rpc: Rpc, calls: seq<Call>)
    ensures forall a :: a in CancelAll(l, rpc, calls).answers && a.body.ToolResult? ==> a in l.answers
  {
    var cs := Cancellations(calls);
    forall a | a in cs ensures !a.body.ToolResult? {
      var i :| 0 <= i < |cs| && cs[i] == a;
    }
  }

  lemma ReleaseSourced(b: Bridge, src: Source)
    requires Sourced(b, src)
    ensures Sourced(Release(b), src)
  {
    hide Release, Sourced, SameSession, SameTalk;
    ReleasedTalk(b);
    KeepsSourced(b, Release(b), src);
  }

  /** Whatever a failing segment holds, its operation is rejected and its session gone. */
  lemma FailSourced(b: Bridge, error: Fault, src: Source)
    requires Sane(b) && Base(b, src) && |b.history.streams| <= |b.history.settled| && (Unsettled(b) || OpTold(b, src))
    ensures Sourced(Fail(b, error), src)
  {
    var c := if Unsettled(b) then Reject(b, error) else b;
    RejectTalk(b, c, error, src);
    ReleasedTalk(c);
    assert Fail(b, error) == Release(c);
    hide Fail, Release, Reject, OutTold, Opens, TasksTold, SentTold, SameSession, SameTalk;
    TalkBase(c, Release(c), src);
    assert OpTold(Release(c), src);
  }

  lemma RejectTalk(b: Bridge, c: Bridge, error: Fault, src: Source)
    requires Sane(b) && Base(b, src) && c == (if Unsettled(b) then Reject(b, error) else b) && (Unsettled(b) || OpTold(b, src))
    ensures Base(c, src) && OpTold(c, src) && StreamsTold(c, src)
  {
    hide Reject, OutTold, Opens, SentTold;
    if Unsettled(b) {
      assert c.(operation := b.operation, history := b.history) == b;
      assert SameSession(b, c) && SameTalk(b, c);
      forall i | 0 <= i < |c.history.streams| && c.history.settled[i].1 == Resolved ensures Surfaces(c.history.streams[i], src.calls) {
        assert b.history.settled[i] == c.history.settled[i];
      }
      TalkBase(b, c, src);
    }
  }

  // ---------------------------------------------------------------------------
  // Segments
  // ---------------------------------------------------------------------------

  /** Closing messages leaves function calls as they are. */
  lemma {:induction false} FinishKeepsCalls(s: Segment, k: nat, sink: Sink)
    requires Indexed(s) && k <= |s.messages|
    ensures var output := FinishFrom(s, k, sink).seg.output;
      |output| == |s.output| && forall i :: 0 <= i < |output| ==>
        output[i].Message? == s.output[i].Message? && (s.output[i].FunctionCall? ==> output[i] == s.output[i])
    decreases |s.messages| - k
  {
    if k == |s.messages| {
      assert FinishFrom(s, k, sink).seg == s;
    } else {
      var r := FinishMessage(s, s.messages[k].1, sink);
      if r.fault.None? {
        FinishKeepsCalls(r.seg, k + 1, sink);
      }
    }
  }

  lemma FinishShown(s: Segment, sink: Sink)
    requires Indexed(s) && !s.finished && Finish(s, sink).fault.None?
    ensures var offers := Finish(s, sink).seg.offered;
      offers != [] && offers[|offers| - 1].event == ResponseCompleted(FinishFrom(s, 0, sink).seg.output)
  {
    hide FinishFrom;
  }

  lemma FinishSurfaces(s: Segment, sink: Sink, calls: set<Call>)
    requires Indexed(s) && !s.finished && Finish(s, sink).fault.None? && CallsAtEnd(s.output, calls)
    ensures Surfaces(Finish(s, sink).seg.offered, calls)
    ensures forall c: Call :: s.output != [] && s.output[|s.output| - 1] == FunctionCall(c.arrival, c.name, c.args, true) ==>
      EndsInCall(Finish(s, sink).seg.offered, c)
    ensures NoCalls(s.output) ==> EndsWithoutCall(Finish(s, sink).seg.offered)
  {
    FinishShown(s, sink);
    FinishKeepsCalls(s, 0, sink);
    hide FinishFrom, Finish, Asked;
  }

  lemma ToolCallOutput(s: Segment, c: Call, sink: Sink)
    requires Indexed(s) && ToolCall(s, c.arrival, c.name, c.args, sink).fault.None?
    ensures ToolCall(s, c.arrival, c.name, c.args, sink).seg.output == s.output + [FunctionCall(c.arrival, c.name, c.args, true)]
  {
  }

  lemma OneCallAtEnd(output: seq<Item>, c: Call, calls: set<Call>)
    requires NoCalls(output) && c in calls
    ensures CallsAtEnd(output + [FunctionCall(c.arrival, c.name, c.args, true)], calls)
  {
    assert Asked(calls, FunctionCall(c.arrival, c.name, c.args, true));
  }

  lemma DeltaNoCalls(s: Segment, id: string, delta: string, sink: Sink)
    requires Indexed(s) && NoCalls(s.output)
    ensures NoCalls(TextDeltaStep(s, id, delta, sink).seg.output)
  {
  }

  lemma ItemNoCalls(s: Segment, raw: RawMessage, sink: Sink)
    requires Indexed(s) && NoCalls(s.output)
    ensures NoCalls(CompleteMessage(s, raw, sink).seg.output)
  {
    OpenNoCalls(s, raw.id, raw.phase, sink);
    OpenMessageIndexed(s, raw.id, raw.phase, sink);
    CompleteWays(s, raw, sink);
    hide CompleteMessage, OpenMessage, TextDeltaStep, FinishMessage, WithPhase, NoCalls, Find;
    var entry := OpenMessage(s, raw.id, raw.phase, sink);
    var index := IndexOf(s, raw.id);
    if !s.finished && entry.fault.None? && raw.text.Some? && entry.seg.output[index].text <= raw.text.value {
      var delta := raw.text.value[|entry.seg.output[index].text|..];
      var sent := TextDeltaStep(entry.seg, raw.id, delta, sink);
      DeltaNoCalls(entry.seg, raw.id, delta, sink);
      CloseNoCalls(sent.seg, index, raw.phase, sink);
    }
  }

  lemma OpenNoCalls(s: Segment, id: string, phase: Option<string>, sink: Sink)
    requires NoCalls(s.output)
    ensures NoCalls(OpenMessage(s, id, phase, sink).seg.output)
  {
    hide Find;
  }

  lemma CloseNoCalls(s: Segment, index: nat, phase: Option<string>, sink: Sink)
    requires Indexed(s) && index < |s.output| && s.output[index].Message? && NoCalls(s.output)
    ensures NoCalls(FinishMessage(WithPhase(s, index, phase), index, sink).seg.output)
  {
  }

  /** How far a completed message gets. */
  lemma CompleteWays(s: Segment, raw: RawMessage, sink: Sink)
    requires Indexed(s)
    ensures var r := CompleteMessage(s, raw, sink).seg;
      var index := IndexOf(s, raw.id);
      var entry := OpenMessage(s, raw.id, raw.phase, sink);
      || r == s || r == entry.seg
      || (!s.finished && entry.fault.None? && Indexed(entry.seg) && index < |entry.seg.output| && entry.seg.output[index].Message?
          && raw.text.Some? && entry.seg.output[index].text <= raw.text.value
          && var sent := TextDeltaStep(entry.seg, raw.id, raw.text.value[|entry.seg.output[index].text|..], sink);
             r == sent.seg || r == FinishMessage(WithPhase(sent.seg, index, raw.phase), index, sink).seg)
  {
    OpenMessageIndexed(s, raw.id, raw.phase, sink);
    hide OpenMessage, TextDeltaStep, FinishMessage, WithPhase, Find;
  }

  // ---------------------------------------------------------------------------
  // Completing, surfacing, consuming
  // ---------------------------------------------------------------------------

  /** What else these need of the state: the running operation is the next stream. */
  ghost predicate Next1(b: Bridge) { b.operation.Some? ==> b.operation.value.oid == |b.history.streams| }

  lemma ToldNext(b: Bridge)
    requires Good(b) && PastWhole(b)
    ensures Next1(b)
  {
  }

  /** An effect whose exception, if any, `fail` can still turn into a rejection. */
  ghost predicate Passing(e: Effect, src: Source) {
    && Base(e.bridge, src)
    && (if e.fault.None? then OpTold(e.bridge, src) && WaitTold(e.bridge) else Unsettled(e.bridge))
  }

  lemma CompleteShape(b: Bridge)
    requires Sane(b) && b.session.Some? && Unsettled(b)
    ensures var f := Finish(b.operation.value.seg, b.sink);
      var c := Complete(b);
      && c.fault == f.fault
      && (f.fault.Some? ==> c.bridge == WithSegment(b, f.seg))
      && (f.fault.None? ==>
            c.bridge == Settle(WithSegment(b, f.seg).(session := Some(b.session.value.(lastResponse := Some(b.operation.value.oid)))), Resolved))
  {
    hide Finish;
  }

  lemma CompletePasses(b: Bridge, src: Source)
    requires Sane(b) && b.session.Some? && Unsettled(b) && Generating(b) && Next1(b)
    requires Base(b, src) && CallsAtEnd(b.operation.value.seg.output, src.calls)
    requires var output := b.operation.value.seg.output;
      if b.session.value.waiting.None? then NoCalls(output)
      else
        var w := b.session.value.waiting.value;
        output != [] && output[|output| - 1] == FunctionCall(w.arrival, w.name, w.args, true)
    ensures Passing(Complete(b), src)
  {
    CompleteShape(b);
    var f := Finish(b.operation.value.seg, b.sink);
    var c := Complete(b).bridge;
    if f.fault.None? {
      FinishSurfaces(b.operation.value.seg, b.sink, src.calls);
    }
    hide Complete, Finish, CallsAtEnd, Surfaces, EndsInCall, EndsWithoutCall, NoCalls, Asked;
    CompletedBase(b, c, src);
  }

  /** The operation was settled, and perhaps remembered as the latest response. */
  lemma CompletedBase(b: Bridge, c: Bridge, src: Source)
    requires Base(b, src) && b.session.Some? && c.session.Some?
    requires c.session.value.(lastResponse := b.session.value.lastResponse) == b.session.value
    requires c.(session := b.session, operation := b.operation, history := b.history) == b
    requires c.history.streams == b.history.streams && b.history.settled <= c.history.settled
    ensures Base(c, src)
  {
    hide Surfaces;
    forall i | 0 <= i < |c.history.streams| && c.history.settled[i].1 == Resolved ensures Surfaces(c.history.streams[i], src.calls) {
      assert b.history.settled[i] == c.history.settled[i];
    }
    forall k | k in c.tasks ensures TaskTold(c, src, c.tasks[k]) {
      assert TaskTold(b, src, b.tasks[k]);
    }
  }

  lemma FlushPasses(b: Bridge, src: Source)
    requires Sane(b) && Good(b) && Next1(b) && Sourced(b, src)
    requires forall k :: k in b.tasks && Brings(b, b.tasks[k]) ==> b.session.Some? && b.session.value.waiting.Some?
    ensures Passing(FlushTool(b), src)
  {
    if b.session.Some? && Generating(b) && b.session.value.waiting.None? && b.session.value.pending != [] {
      var s := b.session.value;
      var call := s.pending[0];
      var r := ToolCall(b.operation.value.seg, call.arrival, call.name, call.args, b.sink);
      var c := WithSegment(b.(session := Some(s.(waiting := Some(call), pending := s.pending[1..]))), r.seg);
      FlushShape(b);
      SurfacedBase(b, c, src);
      if r.fault.None? {
        ToolCallOutput(b.operation.value.seg, call, b.sink);
        OneCallAtEnd(b.operation.value.seg.output, call, src.calls);
        hide ToolCall, FlushTool, Base, CallsAtEnd, NoCalls;
        CompletePasses(c, src);
      } else {
        hide ToolCall, FlushTool, Base;
      }
    } else {
      hide Complete, ToolCall;
      assert FlushTool(b) == Effect(b, None);
    }
  }

  lemma FlushShape(b: Bridge)
    requires Sane(b) && b.session.Some? && Generating(b) && b.session.value.waiting.None? && b.session.value.pending != []
    ensures var s := b.session.value;
      var call := s.pending[0];
      var r := ToolCall(b.operation.value.seg, call.arrival, call.name, call.args, b.sink);
      var c := WithSegment(b.(session := Some(s.(waiting := Some(call), pending := s.pending[1..]))), r.seg);
      Sane(c) && FlushTool(b) == (if r.fault.Some? then Effect(c, r.fault) else Complete(c))
  {
    hide ToolCall, Complete;
  }

  /** A call taken off the queue waits; no tool output is on its way. */
  lemma SurfacedBase(b: Bridge, c: Bridge, src: Source)
    requires Base(b, src) && b.session.Some? && b.session.value.waiting.None? && b.session.value.pending != []
    requires forall k :: k in b.tasks ==> !Brings(b, b.tasks[k])
    requires b.operation.Some?
    requires c == b.(session := Some(b.session.value.(waiting := Some(b.session.value.pending[0]), pending := b.session.value.pending[1..])),
                     operation := c.operation)
    ensures Base(c, src) && b.session.value.pending[0] in src.calls
  {
    var s := b.session.value;
    assert OutCalls(c) == OutCalls(b);
    assert b.session.value.pending[0] in OutCalls(b);
    forall k | k in c.tasks ensures TaskTold(c, src, c.tasks[k]) {
      assert TaskTold(b, src, b.tasks[k]) && !Brings(b, b.tasks[k]);
    }
  }

  /** While an operation runs, the latest response is a finished stream. */
  lemma LatestFinished(b: Bridge)
    requires Good(b) && Next1(b) && b.session.Some? && b.session.value.lastResponse.Some? && Unsettled(b)
    ensures b.session.value.lastResponse.value < |b.history.streams|
  {
  }

  /** The segment moved on, without a call. */
  lemma SegmentSourced(b: Bridge, seg: Segment, src: Source)
    requires Good(b) && Next1(b) && Sourced(b, src) && Unsettled(b) && NoCalls(seg.output)
    ensures Base(WithSegment(b, seg), src) && OpTold(WithSegment(b, seg), src) && WaitTold(WithSegment(b, seg))
  {
    var c := WithSegment(b, seg);
    if b.session.Some? && b.session.value.lastResponse.Some? {
      LatestFinished(b);
    }
    hide Good, OutTold, Opens, TasksTold, SentTold, StreamsTold;
    SegmentBase(b, seg, src);
  }

  lemma SegmentBase(b: Bridge, seg: Segment, src: Source)
    requires Base(b, src) && b.operation.Some?
    ensures Base(WithSegment(b, seg), src)
  {
    var c := WithSegment(b, seg);
    assert SameSession(b, c) && SameTalk(b, c);
    assert StreamsTold(c, src);
    hide OutTold, Opens, TasksTold, SentTold, StreamsTold;
    TalkBase(b, c, src);
  }

  lemma ConsumePasses(b: Bridge, n: Note, src: Source)
    requires Sane(b) && Good(b) && Next1(b) && Sourced(b, src) && b.session.Some? && Generating(b)
    ensures Passing(ConsumeNote(b, n), src)
  {
    GoodUnsettled(b);
    match n.body
    case MessageDelta(itemId, delta) =>
      if itemId.Some? && delta.Some? {
        DeltaNoCalls(b.operation.value.seg, itemId.value, delta.value, b.sink);
        hide TextDeltaStep, Good, Base, NoCalls;
        SegmentSourced(b, TextDeltaStep(b.operation.value.seg, itemId.value, delta.value, b.sink).seg, src);
      }
    case ItemCompleted(message) =>
      if message.Some? {
        ItemNoCalls(b.operation.value.seg, message.value, b.sink);
        hide CompleteMessage, Good, Base, NoCalls;
        SegmentSourced(b, CompleteMessage(b.operation.value.seg, message.value, b.sink).seg, src);
      }
    case TurnCompleted(turn) => TurnCompletedPasses(b, n, src);
    case _ =>
  }

  lemma TurnCompletedPasses(b: Bridge, n: Note, src: Source)
    requires Sane(b) && Good(b) && Next1(b) && Sourced(b, src) && b.session.Some? && Generating(b) && n.body.TurnCompleted?
    ensures Passing(ConsumeNote(b, n), src)
  {
    GoodUnsettled(b);
    var c := b.(session := Some(b.session.value.(turnId := None)));
    if Outstanding(b.session.value) == [] {
      assert b.session.value.waiting.None?;
      assert Keeps(b, c);
      hide Complete, Keeps, Base, OpTold, WaitTold;
      KeepsSourced(b, c, src);
      RunningCalls(c, src);
      CompletePasses(c, src);
    } else {
      hide Complete;
    }
  }

  lemma RunningCalls(b: Bridge, src: Source)
    requires Sourced(b, src) && Unsettled(b)
    ensures Base(b, src) && CallsAtEnd(b.operation.value.seg.output, src.calls) && NoCalls(b.operation.value.seg.output)
  {
    hide Base;
  }

  lemma HandOverPasses(b: Bridge, n: Note, src: Source)
    requires Sane(b) && Good(b) && Next1(b) && Sourced(b, src)
    ensures Passing(HandOver(b, n), src)
  {
    var d := Noted(b, n);
    assert Keeps(b, d) && Next1(d) by { hide Ends; }
    NotedGood(b, n);
    hide Noted, Good, Keeps, Base, OpTold, WaitTold, ConsumeNote;
    KeepsSourced(b, d, src);
    if d.session.Some? && Generating(d) {
      ConsumePasses(d, n, src);
    } else {
      IdleConsumes(d, n);
    }
  }

  lemma HandOverNext(b: Bridge, n: Note)
    requires Sane(b) && Next1(b)
    ensures Next1(HandOver(b, n).bridge)
  {
    hide HandOver;
  }

  lemma {:induction false} ConsumeAllPasses(b: Bridge, notes: seq<Note>, src: Source)
    requires Sane(b) && Good(b) && Next1(b) && Sourced(b, src)
    ensures Passing(ConsumeAll(b, notes), src) && Next1(ConsumeAll(b, notes).bridge)
    decreases |notes|
  {
    hide HandOver, Good, Base, OpTold, WaitTold, Next1;
    if notes == [] {
      assert ConsumeAll(b, notes) == Effect(b, None);
    } else {
      var r := HandOver(b, notes[0]);
      HandOverPasses(b, notes[0], src);
      HandOverHalfway(b, notes[0]);
      HandOverNext(b, notes[0]);
      if r.fault.None? {
        ConsumeAllPasses(r.bridge, notes[1..], src);
      }
    }
  }

  lemma AnsweredSourced(b: Bridge, callId: nat, output: string, src: Source)
    requires Sourced(b, src) && b.session.Some? && b.session.value.waiting.Some? && Unsettled(b) && NoneBrings(b)
    requires b.session.value.waiting.value.arrival == callId && (callId, output) in src.outputs
    ensures Sourced(AnswerWaiting(b, output), src) && NoneBrings(AnswerWaiting(b, output))
    ensures Sourced(LoseWaiting(b), src)
  {
    var c := AnswerWaiting(b, output);
    var d := LoseWaiting(b);
    assert OutCalls(c) == b.session.value.pending && OutCalls(d) == b.session.value.pending;
    assert OutCalls(b) == [b.session.value.waiting.value] + b.session.value.pending;
    assert forall x :: x in b.session.value.pending ==> x in OutCalls(b);
    forall k | k in c.tasks ensures TaskTold(c, src, c.tasks[k]) && TaskTold(d, src, d.tasks[k]) && !Brings(c, c.tasks[k]) {
      assert TaskTold(b, src, b.tasks[k]) && !Brings(b, b.tasks[k]);
    }
    hide Surfaces, EndsInCall;
  }

  lemma ResumePasses(b: Bridge, callId: nat, output: string, src: Source)
    requires Sane(b) && Good(b) && Next1(b) && Sourced(b, src) && b.session.Some? && Unsettled(b) && NoneBrings(b)
    requires b.session.value.waiting.Some? ==> b.session.value.waiting.value.arrival == callId
    requires (callId, output) in src.outputs
    ensures Passing(Resume(b, output), src)
  {
    var s := b.session.value;
    if s.waiting.Some? {
      AnsweredSourced(b, callId, output, src);
      if b.rpc == Open {
        var answered := AnswerWaiting(b, output);
        AnswerGood(b, output);
        var r := ConsumeAll(answered, s.buffered);
        NoneBringsAfter(answered, s.buffered);
        hide ConsumeAll, FlushTool, Base, OpTold, WaitTold, Good, NoneBrings, Through, Within;
        ConsumeAllPasses(answered, s.buffered, src);
        ConsumeAllHalfway(answered, s.buffered);
        if r.fault.None? {
          NoneBringing(r.bridge);
          FlushPasses(r.bridge, src);
        }
      }
    }
  }

  lemma AnswerGood(b: Bridge, output: string)
    requires Good(b) && b.session.Some? && b.session.value.waiting.Some?
    ensures Good(AnswerWaiting(b, output)) && Sane(AnswerWaiting(b, output))
  {
    SameOrderGood(b, AnswerWaiting(b, output));
  }

  lemma NoneBringing(b: Bridge)
    requires NoneBrings(b)
    ensures forall k :: k in b.tasks && Brings(b, b.tasks[k]) ==> b.session.Some? && b.session.value.waiting.Some?
  {
  }

  lemma NoneBringsAfter(b: Bridge, notes: seq<Note>)
    requires Sane(b) && b.session.Some? && NoneBrings(b)
    ensures NoneBrings(ConsumeAll(b, notes).bridge)
  {
    hide ConsumeAll;
    var c := ConsumeAll(b, notes).bridge;
    ThroughSession(b, c);
    forall k | k in c.tasks ensures !Brings(c, c.tasks[k]) {
      assert !Brings(b, b.tasks[k]);
    }
  }

  lemma DriveFaultSourced(b: Bridge, oid: nat, error: Fault, src: Source)
    requires Sane(b) && Sourced(b, src)
    ensures Sourced(DriveFault(b, oid, Some(error)), src)
  {
    assert |b.history.streams| <= |b.history.settled|;
    hide Fail, Base, OpTold, WaitTold;
    FailSourced(b, error, src);
  }

  lemma PassingSourced(e: Effect, oid: nat, src: Source)
    requires Sane(e.bridge) && Passing(e, src) && (e.fault.Some? ==> e.bridge.operation.value.oid == oid)
    ensures Sourced(DriveFault(e.bridge, oid, e.fault), src) && Sourced(Handle(e), src)
  {
    assert |e.bridge.history.streams| <= |e.bridge.history.settled|;
    hide Fail, Base, OpTold, WaitTold;
    if e.fault.Some? {
      FailSourced(e.bridge, e.fault.value, src);
    }
  }

  // ---------------------------------------------------------------------------
  // Driving a request
  // ---------------------------------------------------------------------------

  /** What a request that is driven carries. */
  ghost predicate Carries(b: Bridge, oid: nat, req: Request, src: Source) {
    match req.input
    case UserText(text) => b.session.Some? ==> (b.session.value.sid, text) in src.texts
    case ToolOutput(callId, output) =>
      && (callId, output) in src.outputs && Delivers(b, oid)
      && b.session.value.waiting.value.arrival == callId
  }

  /** A continuation is added, after a message that tells only what was said. */
  lemma AddSourced(b: Bridge, m: Sent, t: Task, src: Source)
    requires Sourced(b, src) && MessageTold(m, src) && TaskTold(b, src, t)
    ensures Sourced(AddTask(Send(b, m), t), src) && Sourced(AddTask(b, t), src)
  {
    var c := AddTask(Send(b, m), t);
    var d := AddTask(b, t);
    forall k | k in c.tasks ensures TaskTold(c, src, c.tasks[k]) && TaskTold(d, src, d.tasks[k]) {
      if k != b.nextTask {
        assert TaskTold(b, src, b.tasks[k]);
      }
    }
    hide Surfaces, EndsInCall;
  }

  lemma ThreadTold(b: Bridge, src: Source)
    requires Sourced(b, src) && b.session.Some?
    ensures MessageTold(StartThread(b.session.value.sid, b.session.value.config), src)
  {
    hide OutTold, StreamsTold, TasksTold, SentTold, OpTold, WaitTold;
  }

  lemma TurnTold(b: Bridge, text: string, src: Source)
    requires Sourced(b, src) && b.session.Some? && b.session.value.threadId.Some? && (b.session.value.sid, text) in src.texts
    ensures var s := b.session.value; MessageTold(StartTurn(s.sid, s.threadId.value, text, s.config.effort), src)
  {
    hide OutTold, StreamsTold, TasksTold, SentTold, OpTold, WaitTold;
    assert (b.session.value.sid, b.session.value.config) in src.configs;
  }

  lemma WithThreadSourced(b: Bridge, oid: nat, req: Request, src: Source)
    requires Sane(b) && Steady(b) && Next1(b) && Sourced(b, src) && b.session.Some? && b.session.value.threadId.Some?
    requires Carries(b, oid, req, src)
    ensures Sourced(WithThread(b, oid, req), src)
  {
    if req.input.ToolOutput? {
      DeliversAlone(b, oid);
      ResumeSession(b, req.input.output);
      hide Resume, DriveFault, Sourced, Good, Fits, NoneBrings, Passing;
      ResumePasses(b, req.input.callId, req.input.output, src);
      PassingSourced(Resume(b, req.input.output), oid, src);
    } else {
      var s := b.session.value;
      TurnTold(b, req.input.text, src);
      hide Sourced, Steady, MessageTold;
      AddSourced(b, StartTurn(s.sid, s.threadId.value, req.input.text, s.config.effort), AwaitTurn(s.sid, oid), src);
    }
  }

  lemma StartTaskTold(b: Bridge, sid: nat, oid: nat, req: Request, src: Source)
    requires Live(b, sid) && Carries(b, oid, req, src)
    ensures TaskTold(b, src, AwaitThread(sid, oid, req)) && TaskTold(b, src, AwaitStart(sid, oid, req))
  {
  }

  lemma AfterStartSourced(b: Bridge, sid: nat, oid: nat, req: Request, src: Source)
    requires Sane(b) && Steady(b) && Next1(b) && Sourced(b, src) && (Live(b, sid) ==> Carries(b, oid, req, src))
    ensures Sourced(AfterStart(b, sid, oid, req), src)
  {
    hide WithThread, Steady, Sourced, Next1, Carries, TaskTold;
    if Live(b, sid) {
      if b.session.value.threadId.Some? {
        WithThreadSourced(b, oid, req, src);
      } else {
        StartTaskTold(b, sid, oid, req, src);
        ThreadTold(b, src);
        AddSourced(b, StartThread(sid, b.session.value.config), AwaitThread(sid, oid, req), src);
      }
    }
  }

  lemma LaunchSourced(b: Bridge, oid: nat, req: Request, src: Source)
    requires Sane(b) && Steady(b) && Next1(b) && Sourced(b, src) && b.session.Some? && Carries(b, oid, req, src)
    ensures Sourced(Launch(b, oid, req), src)
  {
    hide AfterStart, DriveFault, Steady, Sourced, Next1, Carries, TaskTold;
    var sid := b.session.value.sid;
    if b.session.value.threadId.None? {
      StartTaskTold(b, sid, oid, req, src);
      ThreadTold(b, src);
      AddSourced(b, StartThread(sid, b.session.value.config), AwaitStart(sid, oid, req), src);
    } else if b.rpc != Open {
      DriveFaultSourced(b, oid, RpcError, src);
    } else {
      AfterStartSourced(b, sid, oid, req, src);
    }
  }

  lemma EnterSourced(b: Bridge, sink: Sink, src: Source)
    requires Poised(b) && PastWhole(b) && Sourced(b, src)
    ensures Sourced(Enter(b, sink), src) && Next1(Enter(b, sink))
  {
    var entered := Entering(b, sink, Start(Fresh, sink).seg);
    assert SameSession(b, entered) && SameTalk(b, entered);
    assert StreamsTold(entered, src) && OpTold(entered, src) && Next1(entered) && Sane(entered);
    assert WaitTold(entered);
    hide Start, Fail, OutTold, Opens, TasksTold, SentTold, StreamsTold, SameSession, SameTalk, Poised;
    TalkBase(b, entered, src);
    if Start(Fresh, sink).fault.Some? {
      FailSourced(entered, Start(Fresh, sink).fault.value, src);
    }
  }

  // ---------------------------------------------------------------------------
  // The steps
  // ---------------------------------------------------------------------------

  ghost predicate Known(b: Bridge, src: Source) { Told(b) && Sourced(b, src) }

  lemma KnownNext(b: Bridge, src: Source)
    requires Known(b, src)
    ensures Steady(b) && Good(b) && Fits(b) && PastWhole(b) && Next1(b) && Sourced(b, src) && Sane(b)
    ensures |b.history.streams| <= |b.history.settled|
    ensures OpTold(b, src) && Base(b, src) && WaitTold(b)
  {
    ToldNext(b);
  }

  lemma KnownFail(b: Bridge, error: Fault, src: Source)
    requires Sane(b) && Known(b, src)
    ensures Sourced(Fail(b, error), src)
  {
    KnownNext(b, src);
    hide *;
    FailSourced(b, error, src);
  }

  lemma KnownKeeps(b: Bridge, c: Bridge, src: Source)
    requires Known(b, src) && Keeps(b, c)
    ensures Sourced(c, src) && (Steady(c) ==> Next1(c))
  {
    KnownNext(b, src);
    KeepsSourced(b, c, src);
  }

  /** More was said, which does not unsay anything. */
  lemma MoreSourced(b: Bridge, src: Source, more: Source)
    requires Sourced(b, src) && src.texts <= more.texts && src.outputs <= more.outputs && src.calls <= more.calls && src.configs <= more.configs
    requires more.opening == src.opening || (b.session.None? && b.starting.None?)
    ensures Sourced(b, more)
  {
    forall k | k in b.tasks ensures TaskTold(b, more, b.tasks[k]) {
      assert TaskTold(b, src, b.tasks[k]);
    }
    forall offers: seq<Offer> | Surfaces(offers, src.calls) ensures Surfaces(offers, more.calls) {
    }
    forall m | m in b.wire.sent ensures MessageTold(m, more) {
      assert MessageTold(m, src);
    }
    hide Surfaces, EndsInCall, TaskTold;
  }

  lemma OpeningSourced(b: Bridge, req: Request, sink: Sink, src: Source)
    requires Steady(b) && Sourced(b, src) && !b.busy && req.previous.None? && Refusal(b, req, false).None?
    ensures Sourced(Release(b.(busy := true, timer := false, starting := Some(Starting(req, sink)))),
                    Heard(src, b, RequestStep(req, sink, false)))
  {
    var more := Heard(src, b, RequestStep(req, sink, false));
    var d := Release(b);
    var c := d.(busy := true, timer := false, starting := Some(Starting(req, sink)));
    ReleaseSourced(b, src);
    assert b.starting.None?;
    assert Release(b.(busy := true, timer := false, starting := Some(Starting(req, sink)))) == c by { hide CancelAll, Outstanding; }
    assert d.session.None? && d.starting.None? && d.nextSession == b.nextSession;
    hide Release, Sourced, Steady;
    MoreSourced(d, src, more);
    StartingSourced(d, c, more);
  }

  lemma StartingSourced(b: Bridge, c: Bridge, src: Source)
    requires Sourced(b, src) && b.session.None? && c.starting.Some? && src.opening == Some(c.starting.value.req)
    requires c.(busy := b.busy, timer := b.timer, starting := b.starting) == b
    requires (b.nextSession, Wanted(c.starting.value.req)) in src.configs
    requires c.starting.value.req.input.UserText? ==> (b.nextSession, c.starting.value.req.input.text) in src.texts
    ensures Sourced(c, src)
  {
    forall k | k in c.tasks ensures TaskTold(c, src, c.tasks[k]) {
      assert TaskTold(b, src, b.tasks[k]);
    }
    hide Surfaces, EndsInCall;
  }

  lemma BeginSourced(b: Bridge, req: Request, sink: Sink, aborted: bool, src: Source)
    requires Poised(b) && Ready(b) && PastWhole(b) && Sourced(b, src)
    requires match req.input
      case UserText(text) => (b.session.value.sid, text) in src.texts
      case ToolOutput(callId, output) =>
        (callId, output) in src.outputs && b.session.value.waiting.Some? && b.session.value.waiting.value.arrival == callId
    ensures Sourced(Begin(b, req, sink, aborted), src)
  {
    var entered := Enter(b, sink);
    EnterGood(b, sink);
    EnterFits(b, sink);
    EnterSourced(b, sink, src);
    EnterTold(b, sink);
    if !aborted && Unsettled(entered) && entered.session.Some? {
      assert Carries(entered, b.nextOperation, req, src) by { hide Enter, Good, PastWhole, StreamKept, Sourced; }
    }
    assert |entered.history.streams| <= |entered.history.settled|;
    hide Enter, Launch, Fail, Good, Fits, PastWhole, StreamKept, Base, OpTold, WaitTold, Carries, Poised, Ready;
    if aborted {
      FailSourced(entered, ClientDisconnected, src);
    } else if Unsettled(entered) && entered.session.Some? {
      LaunchSourced(entered, b.nextOperation, req, src);
    }
  }

  lemma RespondSourced(b: Bridge, req: Request, sink: Sink, aborted: bool, src: Source)
    requires Known(b, src)
    ensures Sourced(Respond(b, req, sink, aborted).0, Heard(src, b, RequestStep(req, sink, aborted)))
  {
    KnownNext(b, src);
    AcceptedExactly(b, req, aborted);
    hide Begin, Release, Refusal, Sourced, PastWhole, Good;
    if Refusal(b, req, aborted).None? {
      if req.previous.None? {
        OpeningSourced(b, req, sink, src);
      } else {
        ContinueSourced(b, req, sink, src);
      }
    }
  }

  lemma ContinueSourced(b: Bridge, req: Request, sink: Sink, src: Source)
    requires Known(b, src) && req.previous.Some? && Refusal(b, req, false).None?
    ensures Sourced(Begin(Continue(b, req.previous.value), req, sink, false), Heard(src, b, RequestStep(req, sink, false)))
  {
    var c := Continue(b, req.previous.value);
    var more := Heard(src, b, RequestStep(req, sink, false));
    KnownNext(b, src);
    ContinueReady(b, req, false);
    AcceptedExactly(b, req, false);
    ContinueKeeps(b, req.previous.value);
    hide Fits, Steady, Begin, Refusal, Sourced, PastWhole, Good, Known, Keeps, Poised, Ready;
    KeepsSourced(b, c, src);
    MoreSourced(c, src, more);
    BeginSourced(c, req, sink, false, more);
  }

  lemma ContinueKeeps(b: Bridge, id: nat)
    ensures Keeps(b, Continue(b, id)) && (PastWhole(b) ==> PastWhole(Continue(b, id)))
  {
  }

  lemma ProceedSourced(b: Bridge, aborted: bool, src: Source)
    requires Known(b, src)
    ensures Sourced(Proceed(b, aborted), src)
  {
    KnownNext(b, src);
    if b.starting.Some? {
      var req := b.starting.value.req;
      var c := Create(b, req);
      CreateReady(b);
      CreateSourced(b, src);
      assert PastWhole(c);
      assert (c.session.value.sid, req.input.text) in src.texts;
      hide Begin, Create, PastWhole, Good, Sourced, Poised, Ready;
      BeginSourced(c, req, b.starting.value.sink, aborted, src);
    } else {
      hide Begin, Create;
    }
  }

  lemma CreateSourced(b: Bridge, src: Source)
    requires Steady(b) && Sourced(b, src) && b.starting.Some? && b.starting.value.req.model.Some?
    ensures Sourced(Create(b, b.starting.value.req), src)
  {
    var c := Create(b, b.starting.value.req);
    assert b.operation.None?;
    forall k | k in c.tasks ensures TaskTold(c, src, c.tasks[k]) {
      assert TaskTold(b, src, b.tasks[k]) && b.tasks[k].sid < b.nextSession;
    }
    hide Surfaces, EndsInCall;
  }

  lemma RemovedKnown(b: Bridge, k: nat, src: Source)
    requires Known(b, src)
    ensures Sourced(RemoveTask(b, k), src) && Sourced(RemoveTask(b, k).(rpc := Open), src)
  {
    assert Keeps(b, RemoveTask(b, k)) && Keeps(b, RemoveTask(b, k).(rpc := Open));
    hide Keeps, Told, Sourced;
    KnownNext(b, src);
    KeepsSourced(b, RemoveTask(b, k), src);
    KeepsSourced(b, RemoveTask(b, k).(rpc := Open), src);
  }

  /** A continuation that goes on carries what its task was told. */
  lemma TakenCarries(b: Bridge, k: nat, c: Bridge, src: Source)
    requires Steady(b) && TasksTold(b, src) && k in b.tasks && Starts(b.tasks[k]) && Live(b, b.tasks[k].sid)
    requires c.tasks == RemoveTask(b, k).tasks && c.operation == b.operation && c.session.Some?
    requires c.session.value.sid == b.session.value.sid && c.session.value.waiting == b.session.value.waiting
    ensures Carries(c, b.tasks[k].oid, b.tasks[k].req, src)
  {
    TakeStart(b, k);
    assert TaskTold(b, src, b.tasks[k]);
    hide Steady;
  }

  lemma OnStartedSourced(b: Bridge, k: nat, ok: bool, src: Source)
    requires Known(b, src) && k in b.tasks && b.tasks[k].AwaitStart?
    ensures Sourced(OnStarted(b, k, ok), src)
  {
    KnownNext(b, src);
    var t := b.tasks[k];
    var c := RemoveTask(b, k);
    TakeStart(b, k);
    RemovedKnown(b, k, src);
    if ok && b.rpc != Closed {
      var d := c.(rpc := Open);
      OpenSteady(c);
      if Live(b, t.sid) {
        TakenCarries(b, k, d, src);
      }
      hide AfterStart, DriveFault, Steady, Base, OpTold, WaitTold, Carries, Told, PastWhole;
      AfterStartSourced(d, t.sid, t.oid, t.req, src);
    } else {
      hide AfterStart, DriveFault, Steady, Base, OpTold, WaitTold, Told, PastWhole;
      DriveFaultSourced(c, t.oid, RpcError, src);
    }
  }

  lemma OnThreadSourced(b: Bridge, k: nat, ok: bool, id: Option<ThreadId>, model: Option<string>, src: Source)
    requires Sane(b) && Known(b, src) && k in b.tasks && b.tasks[k].AwaitThread?
    ensures Sourced(OnThread(b, k, ok, id, model), src)
  {
    hide *;
    ThreadCases(b, k, ok, id, model);
    var t := b.tasks[k];
    var c := RemoveTask(b, k);
    RemovedKnown(b, k, src);
    DriveFaultSourced(c, t.oid, RpcError, src);
    DriveFaultSourced(c, t.oid, InvalidUpstreamEvent, src);
    if id.Some? {
      if Live(b, t.sid) {
        AttachedSourced(b, k, id.value, src);
      } else {
        GivenBackSourced(c, t.sid, id.value, src);
      }
    }
  }

  lemma GivenBackSourced(b: Bridge, sid: nat, id: ThreadId, src: Source)
    requires Sourced(b, src)
    ensures Sourced(Send(Return(b, sid, id), Unsubscribe(sid, id)), src)
  {
    var c := Send(Return(b, sid, id), Unsubscribe(sid, id));
    assert Keeps(b, c);
    hide Keeps, Sourced;
    KeepsSourced(b, c, src);
  }

  lemma AttachedSourced(b: Bridge, k: nat, id: ThreadId, src: Source)
    requires Known(b, src) && k in b.tasks && b.tasks[k].AwaitThread? && Live(b, b.tasks[k].sid)
    ensures var t := b.tasks[k];
      var attached := Attach(Return(RemoveTask(b, k), t.sid, id), id);
      && Sane(attached) && attached.session.value.threadId.Some?
      && Sourced(DriveFault(attached, t.oid, Some(ModelMismatch)), src) && Sourced(WithThread(attached, t.oid, t.req), src)
  {
    KnownNext(b, src);
    var t := b.tasks[k];
    var attached := Attach(Return(RemoveTask(b, k), t.sid, id), id);
    AttachKeeps(b, k, id);
    AttachSteady(b, k, id);
    hide Keeps, DriveFault, WithThread, Steady, Good, Fits, OutTold, StreamsTold, SentTold, OpTold, WaitTold, Carries, Told, PastWhole, TasksTold;
    TakenCarries(b, k, attached, src);
    KeepsSourced(b, attached, src);
    DriveFaultSourced(attached, t.oid, ModelMismatch, src);
    WithThreadSourced(attached, t.oid, t.req, src);
  }

  lemma AttachKeeps(b: Bridge, k: nat, id: ThreadId)
    requires k in b.tasks && Live(b, b.tasks[k].sid)
    ensures Keeps(b, Attach(Return(RemoveTask(b, k), b.tasks[k].sid, id), id))
  {
  }

  lemma OnTurnSourced(b: Bridge, k: nat, ok: bool, id: Option<TurnId>, src: Source)
    requires Sane(b) && Known(b, src) && k in b.tasks && b.tasks[k].AwaitTurn?
    ensures Sourced(OnTurn(b, k, ok, id), src)
  {
    var t := b.tasks[k];
    var c := RemoveTask(b, k);
    assert Live(b, t.sid) ==> c.session.Some?;
    hide *;
    TurnCases(b, k, ok, id);
    RemovedKnown(b, k, src);
    DriveFaultSourced(c, t.oid, RpcError, src);
    DriveFaultSourced(c, t.oid, InvalidUpstreamEvent, src);
    if id.Some? {
      TurnKeeps(c, t.sid, id.value);
      KeepsSourced(c, Hear(c, t.sid, id.value), src);
      if t.sid in b.wire.threadOf {
        KeepsSourced(c, RetireLate(c, t.sid, b.wire.threadOf[t.sid], id.value), src);
      }
      if Live(b, t.sid) {
        LearnKeeps(c, id.value);
        KeepsSourced(c, LearnTurn(c, id.value), src);
      }
    }
  }

  lemma TurnKeeps(b: Bridge, sid: nat, turn: TurnId)
    ensures Keeps(b, Hear(b, sid, turn)) && forall thread: ThreadId :: Keeps(b, RetireLate(b, sid, thread, turn))
  {
  }

  lemma LearnKeeps(b: Bridge, turn: TurnId)
    requires b.session.Some?
    ensures Keeps(b, LearnTurn(b, turn))
  {
  }

  lemma ReplySourced(b: Bridge, step: Step, src: Source)
    requires Sane(b) && Known(b, src) && (step.StartedStep? || step.ThreadStep? || step.TurnStep? || step.InterruptedStep?)
    ensures Sourced(Next(b, step), src)
  {
    hide AfterStart, WithThread, DriveFault, Known, Sourced, Keeps;
    assert Sourced(b, src) by { KnownNext(b, src); }
    if step.StartedStep? && step.task in b.tasks && b.tasks[step.task].AwaitStart? {
      OnStartedSourced(b, step.task, step.ok, src);
    }
    if step.ThreadStep? && step.task in b.tasks && b.tasks[step.task].AwaitThread? {
      OnThreadSourced(b, step.task, step.ok, step.id, step.model, src);
    }
    if step.TurnStep? && step.task in b.tasks && b.tasks[step.task].AwaitTurn? {
      OnTurnSourced(b, step.task, step.ok, step.turn, src);
    }
    if step.InterruptedStep? {
      assert Keeps(b, Next(b, step)) by { InterruptedKeeps(b, step.task); }
      KeepsSourced(b, Next(b, step), src);
    }
  }

  lemma InterruptedKeeps(b: Bridge, k: nat)
    ensures Keeps(b, OnInterrupted(b, k))
  {
  }

  lemma QueueSourced(b: Bridge, r: ServerRequest, src: Source)
    requires Known(b, src) && b.session.Some? && Acceptable(b.session.value, r)
    ensures var call := Call(r.rpcId, |b.ledger.received|, b.session.value.config.tools.names[r.toolIndex.value], r.args.value);
      Sourced(Handle(FlushTool(Queue(b, r))), src.(calls := src.calls + {call}))
  {
    var call := Call(r.rpcId, |b.ledger.received|, b.session.value.config.tools.names[r.toolIndex.value], r.args.value);
    var more := src.(calls := src.calls + {call});
    var q := Queue(b, r);
    KnownNext(b, src);
    QueueSteady(b, r);
    assert Next1(q);
    MoreSourced(b, src, more);
    QueuedSourced(b, r, call, more);
    var oid := if q.operation.Some? then q.operation.value.oid else 0;
    var e := FlushTool(q);
    hide Queue, FlushTool, Handle, Sourced, Told, PastWhole, Next1, Passing, Good;
    FlushPasses(q, more);
    assert e.fault.Some? ==> e.bridge.operation.value.oid == oid by { FlushFaults(q, more); }
    PassingSourced(e, oid, more);
  }

  lemma FlushFaults(b: Bridge, src: Source)
    requires Sane(b) && Passing(FlushTool(b), src)
    ensures FlushTool(b).fault.Some? ==> b.operation.Some? && FlushTool(b).bridge.operation.value.oid == b.operation.value.oid
  {
    hide FlushTool;
  }

  lemma QueuedSourced(b: Bridge, r: ServerRequest, call: Call, src: Source)
    requires Sourced(b, src) && b.session.Some? && Acceptable(b.session.value, r) && call in src.calls
    requires call == Call(r.rpcId, |b.ledger.received|, b.session.value.config.tools.names[r.toolIndex.value], r.args.value)
    ensures Sourced(Queue(b, r), src)
  {
    var q := Queue(b, r);
    assert OutCalls(q) == OutCalls(b) + [call];
    forall k | k in q.tasks ensures TaskTold(q, src, q.tasks[k]) {
      assert TaskTold(b, src, b.tasks[k]);
    }
    hide Surfaces, EndsInCall;
  }

  lemma RefusedKeeps(b: Bridge, rpcId: nat)
    ensures Keeps(b, Refuse(Count(b, rpcId), |b.ledger.received|, rpcId))
  {
  }

  lemma OnServerRequestSourced(b: Bridge, r: ServerRequest, src: Source)
    requires Sane(b) && Known(b, src)
    ensures Sourced(OnServerRequest(b, r), Heard(src, b, ServerStep(r)))
  {
    hide FlushTool, Handle, Fail, Known, Sourced, Queue, Refuse, Count, GoodCall, Acceptable;
    if Reaches(b, r.thread) && r.toolCall && GoodCall(b.session.value, r) {
      GoodCallAccepted(b.session.value, r);
      ReachesAddressed(b, r.thread);
      QueueSourced(b, r, src);
    } else {
      if b.session.Some? {
        GoodCallAccepted(b.session.value, r);
      }
      RefusedSourced(b, r, src);
    }
  }

  lemma ReachesAddressed(b: Bridge, ref: ThreadRef)
    requires b.session.Some?
    ensures Reaches(b, ref) <==> Addressed(ref, b.session.value)
  {
  }

  lemma RefusedSourced(b: Bridge, r: ServerRequest, src: Source)
    requires Sane(b) && Known(b, src)
    requires !(r.toolCall && b.session.Some? && Addressed(r.thread, b.session.value) && Acceptable(b.session.value, r))
    ensures Sourced(OnServerRequest(b, r), src)
  {
    var refused := Refuse(Count(b, r.rpcId), |b.ledger.received|, r.rpcId);
    KnownNext(b, src);
    RefusedKeeps(b, r.rpcId);
    RefuseTold(b, r.rpcId);
    hide FlushTool, Handle, Fail, Keeps, Sourced, Told, Refuse, Acceptable, PastWhole, Good;
    KeepsSourced(b, refused, src);
    KnownFail(refused, InvalidUpstreamEvent, src);
    KnownFail(refused, UnsupportedServerAction, src);
    KnownFail(refused, InvalidToolCall, src);
  }

  lemma DispatchSourced(b: Bridge, n: Note, src: Source)
    requires Known(b, src) && b.session.Some?
    ensures Sourced(Dispatch(b, n), src)
  {
    KnownNext(b, src);
    if Generating(b) {
      ArrivedSourced(b, n, src);
      var d := Arrive(b, n);
      var e := HandOver(d, n);
      hide Arrive, HandOver, Handle, Base, OpTold, WaitTold, Told, PastWhole, Good, Next1;
      HandOverPasses(d, n, src);
      assert Through(d, e.bridge);
      PassingSourced(e, d.operation.value.oid, src);
    } else {
      BufferedSourced(b, n, src);
    }
  }

  lemma ArrivedSourced(b: Bridge, n: Note, src: Source)
    requires Known(b, src) && b.session.Some? && Generating(b)
    ensures var d := Arrive(b, n); Sane(d) && Good(d) && Next1(d) && Sourced(d, src) && d.operation.Some?
  {
    var d := Arrive(b, n);
    KnownNext(b, src);
    assert Keeps(b, d);
    SameOrderGood(b, d);
    hide Keeps, Sourced, Good;
    KeepsSourced(b, d, src);
  }

  lemma BufferedSourced(b: Bridge, n: Note, src: Source)
    requires Known(b, src) && b.session.Some? && !Generating(b)
    ensures Sourced(Dispatch(b, n), src)
  {
    var d := Buffer(b, n);
    KnownNext(b, src);
    BufferKeeps(b, n);
    hide Keeps, Base, OpTold, WaitTold, Good, Fits, Fail, Told, PastWhole;
    KeepsSourced(b, d, src);
    FailSourced(d, UpstreamBufferLimit, src);
  }

  lemma BufferKeeps(b: Bridge, n: Note)
    requires b.session.Some?
    ensures Keeps(b, Buffer(b, n))
  {
  }

  lemma StartTurnKeeps(b: Bridge, turn: Option<TurnId>)
    requires b.session.Some?
    ensures Keeps(b, StartTurnNote(b, turn))
  {
  }

  lemma OnNoteSourced(b: Bridge, ref: ThreadRef, n: Note, src: Source)
    requires Sane(b) && Known(b, src)
    ensures Sourced(OnNote(b, ref, n), src)
  {
    KnownNext(b, src);
    hide *;
    NoteCases(b, ref, n);
    KnownFail(b, InvalidUpstreamEvent, src);
    KnownFail(b, UpstreamTurnFailed, src);
    KnownFail(b, UnsupportedServerAction, src);
    if b.session.Some? {
      DispatchSourced(b, n, src);
      if n.body.TurnStarted? && n.body.turn.Some? {
        StartTurnKeeps(b, n.body.turn.value.id);
        KeepsSourced(b, StartTurnNote(b, n.body.turn.value.id), src);
      }
    }
  }

  lemma FinalizeSourced(b: Bridge, src: Source)
    requires Known(b, src)
    ensures Sourced(Finalize(b), src)
  {
    KnownNext(b, src);
    var c := Finalize(b);
    if b.operation.Some? && !Unsettled(b) {
      assert SameSession(b, c) && SameTalk(b, c);
      assert b.history.settled[|b.history.streams|].1 == b.operation.value.settled.value;
      assert StreamsTold(c, src) by { hide Surfaces, Handed, Told, Steady, PastWhole, Good; }
      assert OpTold(c, src);
      assert WaitTold(c) by { hide Told, Steady, PastWhole, Good, EndsInCall, Handed; }
      hide Known, StreamsTold, SameSession, SameTalk, Finalize;
      TalkBase(b, c, src);
    }
  }

  lemma StopSourced(b: Bridge, step: Step, src: Source)
    requires Sane(b) && Known(b, src)
    requires step.AbortStep? || step.TimeoutStep? || step.ExpireStep? || step.FinalizeStep? || step.ExitStep? || step.CloseStep?
    ensures Sourced(Next(b, step), src)
  {
    assert Sourced(b, src) by { KnownNext(b, src); }
    hide Fail, Release, Finalize, Known, Sourced;
    match step
    case AbortStep => KnownFail(b, ClientDisconnected, src);
    case TimeoutStep => KnownFail(b, GenerationTimeout, src);
    case ExpireStep => ReleaseSourced(b, src);
    case FinalizeStep => FinalizeSourced(b, src);
    case ExitStep => ExitSourced(b, src);
    case CloseStep => CloseSourced(b, src);
  }

  lemma ExitSourced(b: Bridge, src: Source)
    requires Sane(b) && Known(b, src)
    ensures Sourced(Next(b, ExitStep), src)
  {
    var c := b.(closed := true, rpc := Closed);
    assert Told(b) && Sourced(b, src);
    hide Fail, Keeps, Sourced, Known, Told;
    ShutKeeps(b);
    KeepsSourced(b, c, src);
    ShutKnown(b, c, src);
    KnownFail(c, CodexUnavailable, src);
  }

  lemma ShutKnown(b: Bridge, c: Bridge, src: Source)
    requires Told(b) && Sourced(c, src) && c == b.(closed := true, rpc := Closed)
    ensures Known(c, src)
  {
    ShutDownSteady(b);
    SameStreamsTold(b, c);
    hide Steady, Sourced;
  }

  lemma ShutKeeps(b: Bridge)
    ensures Keeps(b, b.(closed := true)) && Keeps(b, b.(closed := true, rpc := Closed))
  {
  }

  lemma CloseSourced(b: Bridge, src: Source)
    requires Sane(b) && Known(b, src)
    ensures Sourced(Next(b, CloseStep), src)
  {
    hide Fail, Release, Keeps, Sourced, Known;
    KnownFail(b, BridgeShutdown, src);
    assert Sourced(b, src) by { KnownNext(b, src); }
    var c := if Unsettled(b) then Fail(b, BridgeShutdown) else b;
    ShutKeeps(c);
    KeepsSourced(c, c.(closed := true), src);
    ReleaseSourced(c.(closed := true), src);
  }

  lemma NextSourced(b: Bridge, step: Step, src: Source)
    requires Sane(b) && Known(b, src)
    ensures Sourced(Next(b, step), Heard(src, b, step))
  {
    hide Respond, Proceed, OnStarted, OnThread, OnTurn, OnInterrupted, OnNote, OnServerRequest, Fail, Release, Finalize, Known, Sourced;
    match step
    case RequestStep(req, sink, aborted) => RespondSourced(b, req, sink, aborted, src);
    case ProceedStep(aborted) => ProceedSourced(b, aborted, src);
    case StartedStep(_, _) => ReplySourced(b, step, src);
    case ThreadStep(_, _, _, _) => ReplySourced(b, step, src);
    case TurnStep(_, _, _) => ReplySourced(b, step, src);
    case InterruptedStep(_) => ReplySourced(b, step, src);
    case NoteStep(ref, n) => OnNoteSourced(b, ref, n, src);
    case ServerStep(r) => OnServerRequestSourced(b, r, src);
    case _ => StopSourced(b, step, src);
  }

  lemma {:induction false} RunSourced(steps: seq<Step>)
    ensures Sourced(Reach(steps), Said(steps))
  {
    if steps == [] {
      assert Sourced(Initial, Source(None, {}, {}, {}, {}));
    } else {
      RunSourced(steps[..|steps| - 1]);
      RunTold(steps[..|steps| - 1]);
      hide Told, Sourced, Next, Heard;
      NextSourced(Reach(steps[..|steps| - 1]), steps[|steps| - 1], Said(steps[..|steps| - 1]));
    }
  }
}
