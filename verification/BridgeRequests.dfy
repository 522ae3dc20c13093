/**
  What accepted requests do, and when a tool call reaches its client.

  The cases are told by the fields of the request and of the session, in every state: what is sent, what is
  answered, which operation and which session there are afterwards. Over whole runs, no call is held back
  while an operation runs that could surface it.
 */
module BridgeRequests {
  import opened Wrappers
  import opened ResponseSegments
  import opened BridgeState
  import opened BridgeOperations
  import opened BridgeFilters
  import opened BridgeProvenance

  // ---------------------------------------------------------------------------
  // Opening a conversation
  // ---------------------------------------------------------------------------

  /** A session that owes nothing is dropped: it is dead, and its thread, if it has one, is given back. */
  function Dropped(w: Wire, s: Session): Wire {
    w.(dead := w.dead + [s], sent := if s.threadId.None? then w.sent else w.sent + [Unsubscribe(s.sid, s.threadId.value)])
  }

  /** A request that opens a conversation drops the session there is, and waits for that; nothing else changes. */
  lemma OpeningDrops(b: Bridge, req: Request, sink: Sink, aborted: bool)
    requires Sane(b) && Refusal(b, req, aborted).None? && req.previous.None?
    ensures Next(b, RequestStep(req, sink, aborted)) ==
      b.(session := None, busy := true, timer := false, starting := Some(Starting(req, sink)),
         wire := if b.session.None? then b.wire else Dropped(b.wire, b.session.value))
  {
    AcceptedExactly(b, req, aborted);
    hide Refusal;
    if b.session.Some? {
      AtRestReleases(b, b.session.value);
    }
  }

  lemma AtRestReleases(b: Bridge, s: Session)
    requires AtRest(s)
    ensures forall l: Ledger, rpc: Rpc :: CancelAll(l, rpc, Outstanding(s)) == l
  {
    assert Outstanding(s) == [];
    forall l: Ledger, rpc: Rpc ensures CancelAll(l, rpc, []) == l {
      assert l.answers + Cancellations([]) == l.answers && l.lost + Arrivals([]) == l.lost;
    }
  }

  /** The client takes the two events that open a stream. */
  predicate Listens(sink: Sink) { sink(0) && sink(1) }

  const OPENED: seq<Offer> := [Offer(0, Created([])), Offer(1, InProgress([]))]

  /** Operation oid runs on session sid, and its client has seen the stream open. */
  predicate Running(b: Bridge, oid: nat, sid: nat) {
    b.operation.Some? && b.operation.value.oid == oid && b.operation.value.sid == sid
    && b.operation.value.settled.None? && !b.operation.value.seg.finished && b.operation.value.seg.offered == OPENED
  }

  /** Operation oid was rejected with the fault, as the next in the log, and there is no session. */
  predicate RejectedNow(b: Bridge, c: Bridge, oid: nat, fault: Fault) {
    && c.session.None? && c.operation.Some? && c.operation.value.oid == oid && c.operation.value.settled == Some(Rejected(fault))
    && c.history.settled == b.history.settled + [(oid, Rejected(fault))]
  }

  /** What creating an operation leaves: it runs, or its client did not take the opening of the stream. */
  lemma EnterCases(b: Bridge, sink: Sink)
    requires b.session.Some?
    ensures var c := Enter(b, sink);
      if Listens(sink) then
        && Running(c, b.nextOperation, b.session.value.sid) && c.session == b.session
        && c.(operation := b.operation, sink := b.sink, nextOperation := b.nextOperation, delivery := b.delivery) == b
      else RejectedNow(b, c, b.nextOperation, SinkRefused)
  {
    var entered := Entering(b, sink, Start(Fresh, sink).seg);
    assert Start(Fresh, sink).fault.None? <==> Listens(sink);
    assert Listens(sink) ==> Start(Fresh, sink).seg.offered == OPENED;
    FailEnds(entered, SinkRefused);
    hide Fail, Start;
  }

  /**
    Once the old session is gone, the request gets the next session and the next operation, with its own
    model, instructions, effort and tools, and waits for the transport; nothing is sent yet. A client that
    has gone, or does not take the opening events, has its operation rejected instead.
   */
  lemma ProceedOpens(b: Bridge, aborted: bool)
    requires Sane(b) && b.starting.Some? && b.starting.value.req.model.Some?
    ensures var req, sink := b.starting.value.req, b.starting.value.sink;
      var c := Next(b, ProceedStep(aborted));
      if !Listens(sink) then RejectedNow(b, c, b.nextOperation, SinkRefused)
      else if aborted then RejectedNow(b, c, b.nextOperation, ClientDisconnected)
      else
        && Running(c, b.nextOperation, b.nextSession)
        && c.session.Some? && c.session.value.sid == b.nextSession && ConfigOf(c.session.value.config, req)
        && c.session.value.threadId.None? && c.session.value.turnId.None? && c.session.value.lastResponse.None?
        && c.session.value.waiting.None? && c.session.value.pending == [] && c.session.value.buffered == []
        && c.tasks == b.tasks[b.nextTask := AwaitStart(b.nextSession, b.nextOperation, req)]
        && c.wire == b.wire && c.ledger == b.ledger && c.history == b.history && c.starting.None?
  {
    var req, sink := b.starting.value.req, b.starting.value.sink;
    var created := Create(b, req);
    EnterCases(created, sink);
    FailEnds(Enter(created, sink), ClientDisconnected);
    if !Listens(sink) {
      EndedOnce(Enter(created, sink), SinkRefused, ClientDisconnected);
    }
    assert Next(b, ProceedStep(aborted)) == Begin(created, req, sink, aborted);
    hide Enter, Fail;
  }

  /** What was rejected once stays so. */
  lemma EndedOnce(b: Bridge, first: Fault, later: Fault)
    requires Sane(b) && b.operation.Some? && b.operation.value.settled == Some(Rejected(first))
    ensures var c := Fail(b, later); c.session.None? && c.operation == b.operation && c.history == b.history
  {
    hide Release;
  }

  // ---------------------------------------------------------------------------
  // Continuing one
  // ---------------------------------------------------------------------------

  /** A request that continues becomes the next operation of the live session. */
  function Continued(b: Bridge, id: nat): Bridge { b.(busy := true, timer := false, history := b.history.(continued := b.history.continued + [id])) }

  /**
    A continuation runs as the next operation of the live session. Without a thread it waits for the
    transport; with one, a text goes out as a turn on it. It is rejected if its client does not take the
    opening events, or if there is a thread but no transport.
   */
  lemma TextContinues(b: Bridge, req: Request, sink: Sink, aborted: bool)
    requires Sane(b) && Refusal(b, req, aborted).None? && req.previous.Some?
    ensures var s := b.session.value;
      var c := Next(b, RequestStep(req, sink, aborted));
      var from := Continued(b, req.previous.value);
      var n := b.nextOperation;
      if !Listens(sink) then RejectedNow(from, c, n, SinkRefused)
      else if s.threadId.None? then
        Running(c, n, s.sid) && c.session == b.session && c.wire == b.wire && c.ledger == b.ledger && c.history == from.history
        && c.tasks == b.tasks[b.nextTask := AwaitStart(s.sid, n, req)]
      else if b.rpc != Open then RejectedNow(from, c, n, RpcError)
      else req.input.UserText? ==>
        && Running(c, n, s.sid) && c.session == b.session && c.ledger == b.ledger && c.history == from.history
        && c.wire == b.wire.(sent := b.wire.sent + [StartTurn(s.sid, s.threadId.value, req.input.text, s.config.effort)])
        && c.tasks == b.tasks[b.nextTask := AwaitTurn(s.sid, n)]
  {
    AcceptedExactly(b, req, aborted);
    hide Refusal;
    var from := Continued(b, req.previous.value);
    EnterCases(from, sink);
    var entered := Enter(from, sink);
    FailEnds(entered, RpcError);
    assert Next(b, RequestStep(req, sink, aborted)) == Begin(from, req, sink, false);
    hide Enter, Fail, Resume;
  }

  /**
    The output of the call that waits reaches the app-server at once, under the call's rpc id, as the next
    answer, if the session has a thread and the transport is open.
   */
  lemma OutputAnswers(b: Bridge, req: Request, sink: Sink, aborted: bool)
    requires Sane(b) && Refusal(b, req, aborted).None? && req.input.ToolOutput?
    requires Listens(sink) && b.session.value.threadId.Some? && b.rpc == Open
    ensures b.session.value.waiting.Some? && b.session.value.waiting.value.arrival == req.input.callId
    ensures var answer := Answer(req.input.callId, b.session.value.waiting.value.rpcId, ToolResult(req.input.output));
      b.ledger.answers + [answer] <= Next(b, RequestStep(req, sink, aborted)).ledger.answers
  {
    AcceptedExactly(b, req, aborted);
    hide Refusal;
    var from := Continued(b, req.previous.value);
    EnterCases(from, sink);
    var entered := Enter(from, sink);
    assert Next(b, RequestStep(req, sink, aborted)) == WithThread(entered, b.nextOperation, req) by { hide Enter, Fail, WithThread; }
    hide Enter, WithThread;
    WithThreadAnswers(entered, b.nextOperation, req);
  }

  lemma WithThreadAnswers(b: Bridge, oid: nat, req: Request)
    requires Sane(b) && b.session.Some? && b.session.value.threadId.Some? && b.session.value.waiting.Some? && b.rpc == Open
    requires req.input.ToolOutput?
    ensures var w := b.session.value.waiting.value;
      b.ledger.answers + [Answer(w.arrival, w.rpcId, ToolResult(req.input.output))] <= WithThread(b, oid, req).ledger.answers
  {
    var answered := AnswerWaiting(b, req.input.output);
    var r := ConsumeAll(answered, b.session.value.buffered);
    hide ConsumeAll, FlushTool, Fail, Outstanding;
    var last := Resume(b, req.input.output);
    assert last.bridge.ledger == answered.ledger && last.bridge.rpc == b.rpc;
    if last.fault.Some? {
      FailAnswers(last.bridge, last.fault.value);
    }
  }

  lemma FailAnswers(b: Bridge, fault: Fault)
    requires Sane(b)
    ensures b.ledger.answers <= Fail(b, fault).ledger.answers
  {
    hide Fail;
  }

  /** A tool output that had to wait for a thread is answered when the thread is there. */
  lemma LateOutputAnswers(b: Bridge, k: nat, id: ThreadId, model: Option<string>)
    requires Sane(b) && k in b.tasks && b.tasks[k].AwaitThread? && Live(b, b.tasks[k].sid) && b.tasks[k].req.input.ToolOutput?
    requires b.session.value.waiting.Some? && b.rpc == Open && (model.None? || model.value == b.session.value.config.model)
    ensures var w := b.session.value.waiting.value;
      b.ledger.answers + [Answer(w.arrival, w.rpcId, ToolResult(b.tasks[k].req.input.output))]
        <= Next(b, ThreadStep(k, true, Some(id), model)).ledger.answers
  {
    var t := b.tasks[k];
    var attached := Attach(Return(RemoveTask(b, k), t.sid, id), id);
    WithThreadAnswers(attached, t.oid, t.req);
    hide WithThread, DriveFault;
  }

  // ---------------------------------------------------------------------------
  // Surfacing a call
  // ---------------------------------------------------------------------------

  /** The call a request asks for. */
  function CallOf(b: Bridge, r: ServerRequest): Call
    requires b.session.Some? && r.toolCall && GoodCall(b.session.value, r)
  {
    Call(r.rpcId, |b.ledger.received|, b.session.value.config.tools.names[r.toolIndex.value], r.args.value)
  }

  /**
    A good call that meets a running operation, and no other call, is shown at once: it becomes the waiting
    call, and its operation is resolved with a response that ends in it, the session's latest; or the client
    does not take that, and the operation is rejected and the session gone.
   */
  lemma CallSurfaces(b: Bridge, r: ServerRequest)
    requires Good(b) && Reaches(b, r.thread) && r.toolCall && GoodCall(b.session.value, r)
    requires Generating(b) && b.session.value.waiting.None? && b.session.value.pending == []
    ensures var c := Next(b, ServerStep(r));
      var call := CallOf(b, r);
      var oid := b.operation.value.oid;
      if c.session.None? then c.operation.Some? && c.operation.value.settled.Some? && c.operation.value.settled.value.Rejected?
      else
        && c.session.value.waiting == Some(call) && c.session.value.pending == [] && c.session.value.lastResponse == Some(oid)
        && c.operation.Some? && c.operation.value.oid == oid && c.operation.value.settled == Some(Resolved)
        && EndsInCall(c.operation.value.seg.offered, call)
        && c.history.settled == b.history.settled + [(oid, Resolved)]
  {
    var q := Queue(b, r);
    QueuedCall(b, r);
    assert Sane(q) && Generating(q) && Unsettled(q) && q.operation == b.operation && q.history == b.history;
    hide *;
    FlushSurfaces(q);
    if FlushTool(q).fault.Some? {
      FailRejects(FlushTool(q).bridge, FlushTool(q).fault.value);
    }
    HandleIs(FlushTool(q));
  }

  lemma HandleIs(e: Effect)
    requires Sane(e.bridge)
    ensures Handle(e) == if e.fault.Some? then Fail(e.bridge, e.fault.value) else e.bridge
  {
  }

  lemma FailRejects(b: Bridge, fault: Fault)
    requires Sane(b) && Unsettled(b)
    ensures var c := Fail(b, fault);
      c.session.None? && c.operation.Some? && c.operation.value.settled.Some? && c.operation.value.settled.value.Rejected?
  {
    FailEnds(b, fault);
    hide Fail;
  }

  lemma QueuedCall(b: Bridge, r: ServerRequest)
    requires Sane(b) && Reaches(b, r.thread) && r.toolCall && GoodCall(b.session.value, r)
    ensures Acceptable(b.session.value, r)
    ensures var q := Queue(b, r);
      var s := b.session.value;
      && Sane(q) && Next(b, ServerStep(r)) == Handle(FlushTool(q))
      && q.session == Some(s.(turnId := r.turnId, seen := s.seen + {r.callId.value}, pending := s.pending + [CallOf(b, r)]))
  {
    GoodCallAccepted(b.session.value, r);
    hide FlushTool, Handle, Fail;
  }

  lemma FlushSurfaces(b: Bridge)
    requires Sane(b) && b.session.Some? && Generating(b) && Unsettled(b) && b.session.value.waiting.None? && b.session.value.pending != []
    ensures var e := FlushTool(b);
      var call := b.session.value.pending[0];
      && (e.fault.Some? ==> Unsettled(e.bridge))
      && (e.fault.None? ==>
            var c := e.bridge;
            && c.session == Some(b.session.value.(waiting := Some(call), pending := b.session.value.pending[1..], lastResponse := Some(b.operation.value.oid)))
            && c.operation.Some? && c.operation.value.oid == b.operation.value.oid && c.operation.value.settled == Some(Resolved)
            && EndsInCall(c.operation.value.seg.offered, call)
            && c.history.settled == b.history.settled + [(b.operation.value.oid, Resolved)])
  {
    var s := b.session.value;
    var call := s.pending[0];
    var r := ToolCall(b.operation.value.seg, call.arrival, call.name, call.args, b.sink);
    var c := WithSegment(b.(session := Some(s.(waiting := Some(call), pending := s.pending[1..]))), r.seg);
    FlushShape(b);
    hide FlushTool, ToolCall;
    if r.fault.None? {
      ToolCallOutput(b.operation.value.seg, call, b.sink);
      CompleteShape(c);
      hide Complete, Finish;
      if Finish(r.seg, b.sink).fault.None? {
        FinishShows(r.seg, b.sink, call);
      }
    }
  }

  lemma FinishShows(s: Segment, sink: Sink, c: Call)
    requires Indexed(s) && !s.finished && Finish(s, sink).fault.None?
    requires s.output != [] && s.output[|s.output| - 1] == FunctionCall(c.arrival, c.name, c.args, true)
    ensures EndsInCall(Finish(s, sink).seg.offered, c)
  {
    FinishShown(s, sink);
    FinishKeepsCalls(s, 0, sink);
    hide FinishFrom, Finish;
  }

  /**
    A good call that meets no running operation, or a call that waits already, joins the queue, and that is
    all: nothing is sent, answered or settled.
   */
  lemma CallQueues(b: Bridge, r: ServerRequest)
    requires Sane(b) && Reaches(b, r.thread) && r.toolCall && GoodCall(b.session.value, r)
    requires !Generating(b) || b.session.value.waiting.Some?
    ensures var s := b.session.value;
      Next(b, ServerStep(r)) ==
      b.(session := Some(s.(turnId := r.turnId, seen := s.seen + {r.callId.value}, pending := s.pending + [CallOf(b, r)])),
         ledger := b.ledger.(received := b.ledger.received + [r.rpcId]),
         wire := b.wire.(turns := b.wire.turns + {(s.sid, r.turnId.value)}))
  {
    QueuedCall(b, r);
    hide Next, Fail, ToolCall, Complete, Acceptable, GoodCall;
    assert FlushTool(Queue(b, r)) == Effect(Queue(b, r), None);
  }

  // ---------------------------------------------------------------------------
  // No call is held back
  // ---------------------------------------------------------------------------

  /** While an operation runs and no call waits, none is queued either. */
  ghost predicate Prompt(b: Bridge) {
    b.session.Some? && Generating(b) && b.session.value.waiting.None? ==> b.session.value.pending == []
  }

  /** The calls are as they were, and no operation began to run; or the session is gone. */
  ghost predicate SameQueue(b: Bridge, c: Bridge) {
    c.session.None? ||
    (b.session.Some? && c.session.value.waiting == b.session.value.waiting && c.session.value.pending == b.session.value.pending
     && (Generating(c) ==> Generating(b)))
  }

  lemma SamePrompt(b: Bridge, c: Bridge)
    requires Prompt(b) && SameQueue(b, c)
    ensures Prompt(c)
  {
  }

  lemma FlushPrompt(b: Bridge)
    requires Sane(b)
    ensures Prompt(FlushTool(b).bridge)
  {
    if b.session.Some? && Generating(b) && b.session.value.waiting.None? && b.session.value.pending != [] {
      FlushTakes(b);
    } else {
      hide ToolCall, Complete;
      assert FlushTool(b) == Effect(b, None);
    }
  }

  lemma FlushTakes(b: Bridge)
    requires Sane(b) && b.session.Some? && Generating(b) && b.session.value.waiting.None? && b.session.value.pending != []
    ensures FlushTool(b).bridge.session.Some? && FlushTool(b).bridge.session.value.waiting.Some?
  {
    hide ToolCall, Finish;
  }

  lemma CompleteQueue(b: Bridge)
    requires Sane(b) && b.session.Some? && Generating(b)
    ensures SameQueue(b, Complete(b).bridge)
  {
    hide Finish;
  }

  lemma ConsumeQueue(b: Bridge, n: Note)
    requires Sane(b)
    ensures SameQueue(b, ConsumeNote(b, n).bridge)
  {
    hide TextDeltaStep, CompleteMessage, Complete;
    if b.session.Some? && Generating(b) && n.body.TurnCompleted? {
      CompleteQueue(b.(session := Some(b.session.value.(turnId := None))));
    }
  }

  lemma HandOverQueue(b: Bridge, n: Note)
    requires Sane(b)
    ensures SameQueue(b, HandOver(b, n).bridge)
  {
    hide ConsumeNote, Ends;
    ConsumeQueue(Noted(b, n), n);
  }

  lemma DriveFaultPrompt(b: Bridge, oid: nat, fault: Option<Fault>)
    requires Sane(b) && Prompt(b)
    ensures Prompt(DriveFault(b, oid, fault))
  {
    hide Fail;
  }

  lemma WithThreadPrompt(b: Bridge, oid: nat, req: Request)
    requires Sane(b) && Steady(b) && Prompt(b) && b.session.Some? && b.session.value.threadId.Some?
    requires req.input.ToolOutput? ==> Delivers(b, oid)
    ensures Prompt(WithThread(b, oid, req))
  {
    if req.input.ToolOutput? {
      DeliversAlone(b, oid);
      ResumeGood(b, req.input.output);
      ResumeSession(b, req.input.output);
      ResumePrompt(b, req.input.output);
      hide Resume, Fail, Good, Fits;
    } else {
      hide Steady, Good;
    }
  }

  lemma ResumePrompt(b: Bridge, output: string)
    requires Sane(b) && b.session.Some?
    ensures Resume(b, output).fault.None? ==> Prompt(Resume(b, output).bridge)
  {
    hide ConsumeAll, FlushTool, Prompt;
    if b.session.value.waiting.Some? && b.rpc == Open {
      var r := ConsumeAll(AnswerWaiting(b, output), b.session.value.buffered);
      FlushPrompt(r.bridge);
    }
  }

  lemma AfterStartPrompt(b: Bridge, sid: nat, oid: nat, req: Request)
    requires Sane(b) && Steady(b) && Prompt(b) && (Live(b, sid) && req.input.ToolOutput? ==> Delivers(b, oid))
    ensures Prompt(AfterStart(b, sid, oid, req))
  {
    hide WithThread, Steady;
    if Live(b, sid) && b.session.value.threadId.Some? {
      WithThreadPrompt(b, oid, req);
    }
  }

  lemma BeginPrompt(b: Bridge, req: Request, sink: Sink, aborted: bool)
    requires Poised(b) && Ready(b) && (b.session.value.waiting.None? ==> b.session.value.pending == [])
    requires req.input.ToolOutput? ==> b.session.value.waiting.Some?
    ensures Prompt(Begin(b, req, sink, aborted))
  {
    EnterGood(b, sink);
    EnterFits(b, sink);
    EnterCases(b, sink);
    var entered := Enter(b, sink);
    assert Prompt(entered);
    hide Enter, Launch, Fail, Poised, Prompt;
    if aborted {
      FailPrompt(entered, ClientDisconnected);
    } else if Unsettled(entered) && entered.session.Some? {
      assert req.input.ToolOutput? ==> Delivers(entered, b.nextOperation) by { hide Good; }
      LaunchPrompt(entered, b.nextOperation, req);
    }
  }

  lemma FailPrompt(b: Bridge, error: Fault)
    requires Sane(b)
    ensures Prompt(Fail(b, error))
  {
    hide Fail;
  }

  lemma LaunchPrompt(b: Bridge, oid: nat, req: Request)
    requires Sane(b) && Steady(b) && Prompt(b) && b.session.Some? && (req.input.ToolOutput? ==> Delivers(b, oid))
    ensures Prompt(Launch(b, oid, req))
  {
    hide AfterStart, DriveFault, Steady;
    DriveFaultPrompt(b, oid, Some(RpcError));
    AfterStartPrompt(b, b.session.value.sid, oid, req);
  }

  lemma RequestPrompt(b: Bridge, req: Request, sink: Sink, aborted: bool)
    requires Sane(b) && Steady(b) && Prompt(b)
    ensures Prompt(Next(b, RequestStep(req, sink, aborted)))
  {
    AcceptedExactly(b, req, aborted);
    hide Begin, Release, Refusal;
    if Refusal(b, req, aborted).None? && req.previous.Some? {
      ContinueReady(b, req, aborted);
      hide Steady, Poised, Ready, Prompt;
      BeginPrompt(Continue(b, req.previous.value), req, sink, false);
    }
  }

  lemma ProceedPrompt(b: Bridge, aborted: bool)
    requires Sane(b) && Steady(b) && Prompt(b)
    ensures Prompt(Proceed(b, aborted))
  {
    hide Begin;
    if b.starting.Some? {
      CreateReady(b);
      hide Steady, Poised, Ready, Prompt;
      BeginPrompt(Create(b, b.starting.value.req), b.starting.value.req, b.starting.value.sink, aborted);
    }
  }

  lemma StartedPrompt(b: Bridge, k: nat, ok: bool)
    requires Sane(b) && Steady(b) && Prompt(b) && k in b.tasks && b.tasks[k].AwaitStart?
    ensures Prompt(OnStarted(b, k, ok))
  {
    var t := b.tasks[k];
    var c := RemoveTask(b, k);
    TakeStart(b, k);
    OpenSteady(c);
    assert Prompt(c) && Prompt(c.(rpc := Open));
    hide AfterStart, DriveFault, Steady, Prompt;
    if ok && b.rpc != Closed {
      AfterStartPrompt(c.(rpc := Open), t.sid, t.oid, t.req);
    } else {
      DriveFaultPrompt(c, t.oid, Some(RpcError));
    }
  }

  lemma ThreadPrompt(b: Bridge, k: nat, ok: bool, id: Option<ThreadId>, model: Option<string>)
    requires Sane(b) && Steady(b) && Prompt(b) && k in b.tasks && b.tasks[k].AwaitThread?
    ensures Prompt(OnThread(b, k, ok, id, model))
  {
    var t := b.tasks[k];
    var c := RemoveTask(b, k);
    assert Prompt(c);
    if id.Some? {
      if Live(b, t.sid) {
        AttachedPrompt(b, k, id.value);
      } else {
        assert Prompt(Send(Return(c, t.sid, id.value), Unsubscribe(t.sid, id.value)));
      }
    }
    hide *;
    ThreadCases(b, k, ok, id, model);
    DriveFaultPrompt(c, t.oid, Some(RpcError));
    DriveFaultPrompt(c, t.oid, Some(InvalidUpstreamEvent));
  }

  lemma AttachedPrompt(b: Bridge, k: nat, id: ThreadId)
    requires Sane(b) && Steady(b) && Prompt(b) && k in b.tasks && b.tasks[k].AwaitThread? && Live(b, b.tasks[k].sid)
    ensures var t := b.tasks[k];
      var attached := Attach(Return(RemoveTask(b, k), t.sid, id), id);
      && Sane(attached) && attached.session.value.threadId.Some?
      && Prompt(DriveFault(attached, t.oid, Some(ModelMismatch))) && Prompt(WithThread(attached, t.oid, t.req))
  {
    var t := b.tasks[k];
    var attached := Attach(Return(RemoveTask(b, k), t.sid, id), id);
    TakeStart(b, k);
    AttachSteady(b, k, id);
    assert Prompt(attached);
    assert t.req.input.ToolOutput? ==> Delivers(attached, t.oid) by { hide Steady; }
    hide DriveFault, WithThread, Steady, Prompt, Delivers;
    DriveFaultPrompt(attached, t.oid, Some(ModelMismatch));
    WithThreadPrompt(attached, t.oid, t.req);
  }

  lemma TurnPrompt(b: Bridge, k: nat, ok: bool, id: Option<TurnId>)
    requires Sane(b) && Prompt(b) && k in b.tasks && b.tasks[k].AwaitTurn?
    ensures Prompt(OnTurn(b, k, ok, id))
  {
    var t := b.tasks[k];
    var c := RemoveTask(b, k);
    assert Prompt(c) && (Live(b, t.sid) ==> c.session.Some?);
    hide *;
    TurnCases(b, k, ok, id);
    DriveFaultPrompt(c, t.oid, Some(RpcError));
    DriveFaultPrompt(c, t.oid, Some(InvalidUpstreamEvent));
    if id.Some? {
      HeardPrompt(c, t.sid, id.value);
    }
  }

  lemma HeardPrompt(b: Bridge, sid: nat, turn: TurnId)
    requires Prompt(b)
    ensures Prompt(Hear(b, sid, turn)) && (b.session.Some? ==> Prompt(LearnTurn(b, turn)))
    ensures forall thread: ThreadId :: Prompt(RetireLate(b, sid, thread, turn))
  {
  }

  lemma HandlePrompt(e: Effect)
    requires Sane(e.bridge) && (e.fault.None? ==> Prompt(e.bridge))
    ensures Prompt(Handle(e))
  {
    hide Fail;
  }

  lemma ServerPrompt(b: Bridge, r: ServerRequest)
    requires Sane(b) && Prompt(b)
    ensures Prompt(OnServerRequest(b, r))
  {
    var refused := Refuse(Count(b, r.rpcId), |b.ledger.received|, r.rpcId);
    assert Prompt(refused);
    hide *;
    ServerRequestCases(b, r);
    FailPrompt(refused, InvalidUpstreamEvent);
    FailPrompt(refused, UnsupportedServerAction);
    FailPrompt(refused, InvalidToolCall);
    if b.session.Some? && Acceptable(b.session.value, r) {
      FlushPrompt(Queue(b, r));
      HandlePrompt(FlushTool(Queue(b, r)));
    }
  }

  lemma DispatchPrompt(b: Bridge, n: Note)
    requires Sane(b) && Prompt(b) && b.session.Some?
    ensures Prompt(Dispatch(b, n))
  {
    if Generating(b) {
      HandOverQueue(Arrive(b, n), n);
      hide HandOver, Handle;
      HandlePrompt(HandOver(Arrive(b, n), n));
    } else {
      hide Fail;
    }
  }

  lemma NotePrompt(b: Bridge, ref: ThreadRef, n: Note)
    requires Sane(b) && Prompt(b)
    ensures Prompt(OnNote(b, ref, n))
  {
    if b.session.Some? && n.body.TurnStarted? && n.body.turn.Some? {
      assert Prompt(StartTurnNote(b, n.body.turn.value.id));
    }
    hide *;
    NoteCases(b, ref, n);
    FailPrompt(b, InvalidUpstreamEvent);
    FailPrompt(b, UpstreamTurnFailed);
    FailPrompt(b, UnsupportedServerAction);
    if b.session.Some? {
      DispatchPrompt(b, n);
    }
  }

  lemma NextPrompt(b: Bridge, step: Step)
    requires Sane(b) && Steady(b) && Prompt(b)
    ensures Prompt(Next(b, step))
  {
    hide Respond, Proceed, OnStarted, OnThread, OnTurn, OnNote, OnServerRequest, Fail, Release, Steady, Prompt;
    match step
    case RequestStep(req, sink, aborted) => RequestPrompt(b, req, sink, aborted);
    case ProceedStep(aborted) => ProceedPrompt(b, aborted);
    case NoteStep(ref, n) => NotePrompt(b, ref, n);
    case ServerStep(r) => ServerPrompt(b, r);
    case _ => OtherPrompt(b, step);
  }

  lemma OtherPrompt(b: Bridge, step: Step)
    requires Sane(b) && Steady(b) && Prompt(b)
    requires !step.RequestStep? && !step.ProceedStep? && !step.NoteStep? && !step.ServerStep?
    ensures Prompt(Next(b, step))
  {
    hide Fail, Release, AfterStart, WithThread, DriveFault, Steady;
    if step.StartedStep? && step.task in b.tasks && b.tasks[step.task].AwaitStart? {
      StartedPrompt(b, step.task, step.ok);
    } else if step.ThreadStep? && step.task in b.tasks && b.tasks[step.task].AwaitThread? {
      ThreadPrompt(b, step.task, step.ok, step.id, step.model);
    } else if step.TurnStep? && step.task in b.tasks && b.tasks[step.task].AwaitTurn? {
      TurnPrompt(b, step.task, step.ok, step.turn);
    }
  }

  lemma {:induction false} RunPrompt(steps: seq<Step>)
    ensures Prompt(Reach(steps))
  {
    if steps != [] {
      RunPrompt(steps[..|steps| - 1]);
      RunSteady(steps[..|steps| - 1]);
      hide Next, Steady, Prompt;
      NextPrompt(Reach(steps[..|steps| - 1]), steps[|steps| - 1]);
    }
  }

  /**
    Whenever an operation runs without a waiting call, no call is outstanding: each was shown as soon as an
    operation could show it. So a good call of the session is shown at once, or waits behind one that is.
   */
  lemma NothingHeldBack(steps: seq<Step>, r: ServerRequest)
    requires var b := Reach(steps); b.session.Some? && Generating(b) && b.session.value.waiting.None?
    ensures Outstanding(Reach(steps).session.value) == []
    ensures var b := Reach(steps);
      Reaches(b, r.thread) && r.toolCall && GoodCall(b.session.value, r) ==>
        var c := Next(b, ServerStep(r));
        c.session.None? || (c.session.value.waiting == Some(CallOf(b, r)) && c.operation.Some? && c.operation.value.settled == Some(Resolved))
  {
    RunPrompt(steps);
    RunSteady(steps);
    var b := Reach(steps);
    hide Reach, Next, Good, Fits, GoodCall, Reaches;
    if Reaches(b, r.thread) && r.toolCall && GoodCall(b.session.value, r) {
      CallSurfaces(b, r);
    }
  }
}
