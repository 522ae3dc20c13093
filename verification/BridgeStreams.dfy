/**
  Every client of the bridge reads a well-formed event stream, ended by one terminal event; and a
  completed response carries exactly the text of the upstream notes its segment was handed.

  An unsettled operation has a segment no call has failed on, which follows its notes; an exception on its
  way to `fail` leaves a sound one, and `fail` ends it.
 */
module BridgeStreams {
  import opened Wrappers
  import opened ResponseSegments
  import opened EventGrammar
  import opened SegmentStream
  import opened Transcripts
  import opened BridgeState
  import opened BridgeOperations

  /** The last event tells the error, unless it is a completion that the client would not take. */
  predicate TellsError(offers: seq<Offer>, error: Fault) {
    && offers != []
    && var e := offers[|offers| - 1].event;
       if e.ResponseFailed? then e.error == error else e.ResponseCompleted? && error == SinkRefused
  }

  /**
    A whole stream: well formed, ended, completed with what its notes say if its operation was resolved, and
    telling the error if that was rejected.
   */
  ghost predicate Whole(offers: seq<Offer>, notes: seq<Note>, outcome: Settlement) {
    && WellFormed(offers) && Read(offers).value.phase == Ended
    && (outcome == Resolved ==> CompletedTells(offers, notes))
    && (outcome.Rejected? ==> TellsError(offers, outcome.error))
  }

  /** The streams of past operations, and what their segments were handed. */
  ghost predicate PastWhole(b: Bridge) {
    && |b.history.streams| + (if b.operation.Some? then 1 else 0) == b.nextOperation
    && |b.history.streams| <= |b.history.settled| && |b.history.notes| == |b.history.streams|
    && b.delivery.mark <= |b.delivery.handed|
    && forall i :: 0 <= i < |b.history.streams| ==>
         Whole(b.history.streams[i], b.history.notes[i], b.history.settled[i].1)
  }

  ghost predicate SegmentSound(b: Bridge) {
    b.operation.Some? ==> Sound(b.operation.value.seg) && b.operation.value.seg.offered != []
  }

  ghost predicate StreamKept(b: Bridge) {
    && SegmentSound(b)
    && (Unsettled(b) ==> Clean(b.operation.value.seg) && Follows(b.operation.value.seg, Handed(b)))
    && (b.operation.Some? && b.operation.value.settled == Some(Resolved) ==>
          CompletedTells(b.operation.value.seg.offered, Handed(b)))
    && (b.operation.Some? && b.operation.value.settled.Some? && b.operation.value.settled.value.Rejected? ==>
          TellsError(b.operation.value.seg.offered, b.operation.value.settled.value.error))
  }

  /** An exception leaves a running segment behind, or one whose completion the client would not take. */
  predicate Failing(b: Bridge, error: Fault) {
    && Unsettled(b)
    && var seg := b.operation.value.seg;
       seg.finished ==> error == SinkRefused && seg.offered != [] && seg.offered[|seg.offered| - 1].event.ResponseCompleted?
  }

  ghost predicate Told(b: Bridge) { Steady(b) && PastWhole(b) && StreamKept(b) }

  /** An effect whose exception, if any, `fail` can still turn into a whole stream. */
  ghost predicate Tellable(e: Effect) {
    PastWhole(e.bridge) && (if e.fault.None? then StreamKept(e.bridge) else SegmentSound(e.bridge) && Failing(e.bridge, e.fault.value))
  }

  ghost predicate SameStreams(b: Bridge, c: Bridge) {
    && c.operation == b.operation && c.history.(continued := b.history.continued) == b.history
    && c.nextOperation == b.nextOperation && c.delivery.handed == b.delivery.handed && c.delivery.mark == b.delivery.mark
  }

  lemma SameStreamsTold(b: Bridge, c: Bridge)
    requires PastWhole(b) && StreamKept(b) && SameStreams(b, c)
    ensures PastWhole(c) && StreamKept(c)
  {
  }

  /** Whatever the error, the stream of a failed operation is ended. */
  lemma FailTold(b: Bridge, error: Fault)
    requires Sane(b) && Core(b) && PastWhole(b) && SegmentSound(b) && (StreamKept(b) || Failing(b, error))
    ensures PastWhole(Fail(b, error)) && StreamKept(Fail(b, error))
  {
    if Unsettled(b) {
      var op := b.operation.value;
      var ended := Settle(WithSegment(b, Abandon(op.seg, error, b.sink).seg), Rejected(error));
      hide Release, Abandon;
      AbandonEnds(op.seg, error, b.sink);
      assert ended.history.settled[..|b.history.settled|] == b.history.settled;
      SameStreamsTold(ended, Release(ended));
    } else {
      hide Fail;
      SameStreamsTold(b, Fail(b, error));
    }
  }

  lemma CompleteTold(b: Bridge)
    requires Sane(b) && Core(b) && PastWhole(b) && StreamKept(b) && b.session.Some?
    ensures Tellable(Complete(b))
  {
    hide Finish, CompletedTells, Follows;
    if Unsettled(b) {
      FinishEnds(b.operation.value.seg, b.sink);
      var r := Complete(b);
      if r.fault.None? {
        FinishTells(b.operation.value.seg, b.sink, Handed(b));
        assert r.bridge.history.settled[..|b.history.settled|] == b.history.settled;
      }
    }
  }

  lemma FlushTold(b: Bridge)
    requires Good(b) && PastWhole(b) && StreamKept(b)
    ensures Tellable(FlushTool(b))
  {
    hide ToolCall, Complete, CompletedTells, Follows;
    if b.session.Some? && Generating(b) && b.session.value.waiting.None? && b.session.value.pending != [] {
      var s := b.session.value;
      var call := s.pending[0];
      ToolCallClean(b.operation.value.seg, call.arrival, call.name, call.args, b.sink);
      ToolCallFollows(b.operation.value.seg, call.arrival, call.name, call.args, b.sink, Handed(b));
      var r := ToolCall(b.operation.value.seg, call.arrival, call.name, call.args, b.sink);
      var c := WithSegment(b.(session := Some(s.(waiting := Some(call), pending := s.pending[1..]))), r.seg);
      if r.fault.None? {
        assert Core(c);
        CompleteTold(c);
      }
    }
  }

  /** The running segment follows all notes but the last, which is about to be applied. */
  ghost predicate Behind(b: Bridge, before: seq<Note>, n: Note) {
    && Good(b) && PastWhole(b) && SegmentSound(b) && b.session.Some? && Generating(b) && Clean(b.operation.value.seg)
    && Follows(b.operation.value.seg, before) && Handed(b) == before + [n]
  }

  lemma ConsumeDeltaTold(b: Bridge, before: seq<Note>, n: Note)
    requires Behind(b, before, n) && n.body.MessageDelta?
    ensures Tellable(ConsumeNote(b, n))
  {
    hide TextDeltaStep, Follows, CompletedTells;
    if n.body.itemId.Some? && n.body.delta.Some? {
      var s, id, delta := b.operation.value.seg, n.body.itemId.value, n.body.delta.value;
      TextDeltaClean(s, id, delta, b.sink);
      if TextDeltaStep(s, id, delta, b.sink).fault.None? {
        DeltaFollows(s, before, n, id, delta, b.sink);
      }
    }
  }

  lemma ConsumeItemTold(b: Bridge, before: seq<Note>, n: Note)
    requires Behind(b, before, n) && n.body.ItemCompleted?
    ensures Tellable(ConsumeNote(b, n))
  {
    hide CompleteMessage, Follows, CompletedTells;
    if n.body.message.Some? {
      var s, raw := b.operation.value.seg, n.body.message.value;
      CompleteMessageClean(s, raw, b.sink);
      if CompleteMessage(s, raw, b.sink).fault.None? {
        ItemFollows(s, before, n, raw, b.sink);
      }
    } else {
      OtherFollows(b.operation.value.seg, before, n);
    }
  }

  lemma ConsumeOtherTold(b: Bridge, before: seq<Note>, n: Note)
    requires Behind(b, before, n) && !n.body.MessageDelta? && !n.body.ItemCompleted?
    ensures Tellable(ConsumeNote(b, n))
  {
    hide Complete, Follows, CompletedTells;
    OtherFollows(b.operation.value.seg, before, n);
    if n.body.TurnCompleted? {
      var c := b.(session := Some(b.session.value.(turnId := None)));
      assert Core(c);
      CompleteTold(c);
    }
  }

  lemma HandOverTold(b: Bridge, n: Note)
    requires Good(b) && PastWhole(b) && StreamKept(b)
    ensures Tellable(HandOver(b, n))
  {
    hide ConsumeNote, Ends, Good, Follows, CompletedTells;
    NotedGood(b, n);
    if b.session.Some? && Generating(b) {
      GoodUnsettled(b);
      assert Behind(Noted(b, n), Handed(b), n);
      hide Behind, PastWhole, StreamKept;
      if n.body.MessageDelta? {
        ConsumeDeltaTold(Noted(b, n), Handed(b), n);
      } else if n.body.ItemCompleted? {
        ConsumeItemTold(Noted(b, n), Handed(b), n);
      } else {
        ConsumeOtherTold(Noted(b, n), Handed(b), n);
      }
    } else {
      SameStreamsTold(b, Noted(b, n));
      IdleConsumes(Noted(b, n), n);
    }
  }

  lemma GoodUnsettled(b: Bridge)
    requires Good(b) && Generating(b)
    ensures Unsettled(b)
  {
  }

  /** Without a running segment a note does nothing. */
  lemma IdleConsumes(b: Bridge, n: Note)
    requires Sane(b) && (b.session.None? || !Generating(b))
    ensures ConsumeNote(b, n) == Effect(b, None)
  {
  }

  lemma {:induction false} ConsumeAllTold(b: Bridge, notes: seq<Note>)
    requires Good(b) && PastWhole(b) && StreamKept(b)
    ensures Tellable(ConsumeAll(b, notes))
    decreases |notes|
  {
    hide HandOver;
    if notes == [] {
      assert ConsumeAll(b, notes) == Effect(b, None);
    } else {
      HandOverTold(b, notes[0]);
      HandOverHalfway(b, notes[0]);
      var r := HandOver(b, notes[0]);
      if r.fault.None? {
        ConsumeAllTold(r.bridge, notes[1..]);
      }
    }
  }

  lemma ResumeTold(b: Bridge, output: string)
    requires Good(b) && PastWhole(b) && StreamKept(b) && b.session.Some?
    ensures PastWhole(Resume(b, output).bridge) && SegmentSound(Resume(b, output).bridge)
    ensures Resume(b, output).fault.Some? ==>
      StreamKept(Resume(b, output).bridge) || Failing(Resume(b, output).bridge, Resume(b, output).fault.value)
    ensures Resume(b, output).fault.None? ==> StreamKept(Resume(b, output).bridge)
  {
    hide ConsumeAll, FlushTool;
    var s := b.session.value;
    if s.waiting.Some? {
      if b.rpc != Open {
        SameStreamsTold(b, LoseWaiting(b));
      } else {
        var answered := AnswerWaiting(b, output);
        SameOrderGood(b, answered);
        SameStreamsTold(b, answered);
        ConsumeAllHalfway(answered, s.buffered);
        ConsumeAllTold(answered, s.buffered);
        var r := ConsumeAll(answered, s.buffered);
        if r.fault.None? {
          FlushTold(r.bridge);
        }
      }
    }
  }

  /** Once the transport failed, there is nothing left to tell. */
  lemma DriveFaultTold(b: Bridge, oid: nat, fault: Fault)
    requires Good(b) && PastWhole(b) && StreamKept(b)
    ensures PastWhole(DriveFault(b, oid, Some(fault))) && StreamKept(DriveFault(b, oid, Some(fault)))
  {
    hide Fail;
    FailTold(b, fault);
  }

  lemma WithThreadTold(b: Bridge, oid: nat, req: Request)
    requires Good(b) && PastWhole(b) && StreamKept(b) && b.session.Some? && b.session.value.threadId.Some?
    requires req.input.ToolOutput? ==> b.operation.Some? && b.operation.value.oid == oid
    ensures PastWhole(WithThread(b, oid, req)) && StreamKept(WithThread(b, oid, req))
  {
    hide Resume, Fail, PastWhole, StreamKept, SegmentSound;
    if req.input.ToolOutput? {
      ResumeTold(b, req.input.output);
      ResumeGood(b, req.input.output);
      ResumeSession(b, req.input.output);
      var r := Resume(b, req.input.output);
      if r.fault.Some? {
        FailTold(r.bridge, r.fault.value);
      }
    } else {
      SameStreamsTold(b, WithThread(b, oid, req));
    }
  }

  lemma AfterStartTold(b: Bridge, sid: nat, oid: nat, req: Request)
    requires Good(b) && PastWhole(b) && StreamKept(b)
    requires Live(b, sid) && req.input.ToolOutput? ==> b.operation.Some? && b.operation.value.oid == oid
    ensures PastWhole(AfterStart(b, sid, oid, req)) && StreamKept(AfterStart(b, sid, oid, req))
  {
    hide WithThread;
    if Live(b, sid) {
      if b.session.value.threadId.Some? {
        WithThreadTold(b, oid, req);
      } else {
        SameStreamsTold(b, AfterStart(b, sid, oid, req));
      }
    }
  }

  lemma StartFollows(sink: Sink)
    ensures Follows(Start(Fresh, sink).seg, [])
  {
    assert Transcribe([]) == map[];
  }

  lemma EnterTold(b: Bridge, sink: Sink)
    requires Poised(b) && PastWhole(b)
    ensures PastWhole(Enter(b, sink)) && StreamKept(Enter(b, sink))
  {
    hide Start, Fail, Follows;
    StartClean(sink);
    StartFollows(sink);
    var start := Start(Fresh, sink);
    var entered := Entering(b, sink, start.seg);
    assert Handed(entered) == [];
    assert PastWhole(entered) && SegmentSound(entered);
    if start.fault.Some? {
      assert Core(entered);
      FailTold(entered, start.fault.value);
    } else {
      assert StreamKept(entered);
    }
  }

  lemma BeginTold(b: Bridge, req: Request, sink: Sink, aborted: bool)
    requires Poised(b) && PastWhole(b)
    ensures PastWhole(Begin(b, req, sink, aborted)) && StreamKept(Begin(b, req, sink, aborted))
  {
    hide Enter, Launch, Fail;
    var entered := Enter(b, sink);
    EnterTold(b, sink);
    EnterGood(b, sink);
    FailTold(entered, ClientDisconnected);
    if !aborted && Unsettled(entered) && entered.session.Some? {
      LaunchTold(entered, b.nextOperation, req);
    }
  }

  lemma LaunchTold(b: Bridge, oid: nat, req: Request)
    requires Good(b) && PastWhole(b) && StreamKept(b) && b.session.Some? && b.operation.Some? && b.operation.value.oid == oid
    ensures PastWhole(Launch(b, oid, req)) && StreamKept(Launch(b, oid, req))
  {
    hide AfterStart, DriveFault;
    if b.session.value.threadId.None? {
      SameStreamsTold(b, Launch(b, oid, req));
    } else {
      DriveFaultTold(b, oid, RpcError);
      AfterStartTold(b, b.session.value.sid, oid, req);
    }
  }

  lemma RespondTold(b: Bridge, req: Request, sink: Sink, aborted: bool)
    requires Told(b)
    ensures PastWhole(Respond(b, req, sink, aborted).0) && StreamKept(Respond(b, req, sink, aborted).0)
  {
    hide Begin, Release;
    if Refusal(b, req, aborted).None? {
      if req.previous.None? {
          SameStreamsTold(b, Respond(b, req, sink, aborted).0);
      } else {
        ContinueReady(b, req, aborted);
        BeginTold(Continue(b, req.previous.value), req, sink, false);
      }
    }
  }

  lemma ProceedTold(b: Bridge, aborted: bool)
    requires Told(b)
    ensures PastWhole(Proceed(b, aborted)) && StreamKept(Proceed(b, aborted))
  {
    hide Begin;
    if b.starting.Some? {
      CreateReady(b);
      BeginTold(Create(b, b.starting.value.req), b.starting.value.req, b.starting.value.sink, aborted);
    }
  }

  lemma OnStartedTold(b: Bridge, k: nat, ok: bool)
    requires Told(b) && k in b.tasks && b.tasks[k].AwaitStart?
    ensures PastWhole(OnStarted(b, k, ok)) && StreamKept(OnStarted(b, k, ok))
  {
    hide AfterStart, DriveFault;
    var t := b.tasks[k];
    var c := RemoveTask(b, k);
    TakeStart(b, k);
    SameStreamsTold(b, c);
    DriveFaultTold(c, t.oid, RpcError);
    if ok && b.rpc != Closed {
      OpenSteady(c);
      SameStreamsTold(b, c.(rpc := Open));
      AfterStartTold(c.(rpc := Open), t.sid, t.oid, t.req);
    }
  }

  lemma OnThreadTold(b: Bridge, k: nat, ok: bool, id: Option<ThreadId>, model: Option<string>)
    requires Told(b) && k in b.tasks && b.tasks[k].AwaitThread?
    ensures PastWhole(OnThread(b, k, ok, id, model)) && StreamKept(OnThread(b, k, ok, id, model))
  {
    hide DriveFault, WithThread, PastWhole, StreamKept;
    ThreadCases(b, k, ok, id, model);
    var t := b.tasks[k];
    var c := RemoveTask(b, k);
    TakeStart(b, k);
    SameStreamsTold(b, c);
    DriveFaultTold(c, t.oid, RpcError);
    DriveFaultTold(c, t.oid, InvalidUpstreamEvent);
    if ok && id.Some? && Live(b, t.sid) {
      AttachSteady(b, k, id.value);
      var attached := Attach(Return(c, t.sid, id.value), id.value);
      SameStreamsTold(b, attached);
      DriveFaultTold(attached, t.oid, ModelMismatch);
      WithThreadTold(attached, t.oid, t.req);
    } else if ok && id.Some? {
      SameStreamsTold(b, Send(Return(c, t.sid, id.value), Unsubscribe(t.sid, id.value)));
    }
  }

  lemma OnTurnTold(b: Bridge, k: nat, ok: bool, id: Option<TurnId>)
    requires Told(b) && k in b.tasks && b.tasks[k].AwaitTurn?
    ensures PastWhole(OnTurn(b, k, ok, id)) && StreamKept(OnTurn(b, k, ok, id))
  {
    hide DriveFault, PastWhole, StreamKept;
    TurnCases(b, k, ok, id);
    var t := b.tasks[k];
    var c := RemoveTask(b, k);
    RemoveSteady(b, k);
    SameStreamsTold(b, c);
    DriveFaultTold(c, t.oid, RpcError);
    DriveFaultTold(c, t.oid, InvalidUpstreamEvent);
    if id.Some? && t.sid in b.wire.threadOf {
      SameStreamsTold(b, RetireLate(c, t.sid, b.wire.threadOf[t.sid], id.value));
    }
    if id.Some? && Live(b, t.sid) {
      SameStreamsTold(b, LearnTurn(c, id.value));
      SameStreamsTold(b, Hear(c, t.sid, id.value));
    }
  }

  lemma HandleTold(e: Effect)
    requires Halfway(e) && Tellable(e)
    ensures PastWhole(Handle(e)) && StreamKept(Handle(e))
  {
    hide Fail;
    if e.fault.Some? {
      FailTold(e.bridge, e.fault.value);
    }
  }

  lemma ToldFail(b: Bridge, error: Fault)
    requires Told(b)
    ensures PastWhole(Fail(b, error)) && StreamKept(Fail(b, error))
  {
    hide Fail;
    FailTold(b, error);
  }

  lemma ToldSame(b: Bridge, c: Bridge)
    requires Told(b) && Steady(c) && SameStreams(b, c)
    ensures Told(c)
  {
  }

  lemma QueueTold(b: Bridge, r: ServerRequest)
    requires Told(b) && b.session.Some? && Acceptable(b.session.value, r)
    ensures PastWhole(Handle(FlushTool(Queue(b, r)))) && StreamKept(Handle(FlushTool(Queue(b, r))))
  {
    hide FlushTool, Handle;
    QueueSteady(b, r);
    SameStreamsTold(b, Queue(b, r));
    FlushHalfway(Queue(b, r));
    FlushTold(Queue(b, r));
    HandleTold(FlushTool(Queue(b, r)));
  }

  lemma RefuseTold(b: Bridge, rpcId: nat)
    requires Told(b)
    ensures Told(Refuse(Count(b, rpcId), |b.ledger.received|, rpcId))
  {
    RefuseSteady(b, rpcId);
    hide Steady;
    ToldSame(b, Refuse(Count(b, rpcId), |b.ledger.received|, rpcId));
  }

  lemma OnServerRequestTold(b: Bridge, r: ServerRequest)
    requires Sane(b) && Told(b)
    ensures PastWhole(OnServerRequest(b, r)) && StreamKept(OnServerRequest(b, r))
  {
    var refused := Refuse(Count(b, r.rpcId), |b.ledger.received|, r.rpcId);
    RefuseTold(b, r.rpcId);
    ToldNow(refused);
    hide *;
    ServerRequestCases(b, r);
    ToldFail(refused, InvalidUpstreamEvent);
    ToldFail(refused, UnsupportedServerAction);
    ToldFail(refused, InvalidToolCall);
    if b.session.Some? && Addressed(r.thread, b.session.value) && Acceptable(b.session.value, r) {
      QueueTold(b, r);
    }
  }

  lemma DispatchTold(b: Bridge, n: Note)
    requires Told(b) && b.session.Some?
    ensures PastWhole(Dispatch(b, n)) && StreamKept(Dispatch(b, n))
  {
    hide HandOver, Fail, Handle;
    if Generating(b) {
      var d := Arrive(b, n);
      SameOrderGood(b, d);
      SameStreamsTold(b, d);
      HandOverHalfway(d, n);
      HandOverTold(d, n);
      HandleTold(HandOver(d, n));
    } else {
      var d := Buffer(b, n);
      SameOrderGood(b, d);
      SameStreamsTold(b, d);
      FailTold(d, UpstreamBufferLimit);
    }
  }

  lemma StartTurnTold(b: Bridge, turn: Option<TurnId>)
    requires Told(b) && b.session.Some?
    ensures PastWhole(StartTurnNote(b, turn)) && StreamKept(StartTurnNote(b, turn))
  {
    SameStreamsTold(b, StartTurnNote(b, turn));
  }

  lemma OnNoteTold(b: Bridge, ref: ThreadRef, n: Note)
    requires Sane(b) && Told(b)
    ensures Told(b) && PastWhole(OnNote(b, ref, n)) && StreamKept(OnNote(b, ref, n))
  {
    ToldNow(b);
    hide *;
    NoteCases(b, ref, n);
    ToldFail(b, InvalidUpstreamEvent);
    ToldFail(b, UpstreamTurnFailed);
    ToldFail(b, UnsupportedServerAction);
    if b.session.Some? {
      DispatchTold(b, n);
      if n.body.TurnStarted? && n.body.turn.Some? {
        StartTurnTold(b, n.body.turn.value.id);
      }
    }
  }

  lemma ToldNow(b: Bridge)
    requires Told(b)
    ensures PastWhole(b) && StreamKept(b)
  {
  }

  lemma FinalizeTold(b: Bridge)
    requires Told(b)
    ensures PastWhole(Finalize(b)) && StreamKept(Finalize(b))
  {
    if b.operation.Some? && !Unsettled(b) {
      hide CompletedTells, Follows;
      var op := b.operation.value;
      StreamShape(op.seg.offered);
      assert Whole(op.seg.offered, Handed(b), op.settled.value);
      var r := Finalize(b);
      assert b.history.settled[|b.history.streams|] == (op.oid, op.settled.value);
    }
  }

  lemma StopTold(b: Bridge, step: Step)
    requires Told(b)
    requires step.AbortStep? || step.TimeoutStep? || step.ExpireStep? || step.FinalizeStep? || step.ExitStep?
      || step.CloseStep? || step.InterruptedStep?
    ensures PastWhole(Next(b, step)) && StreamKept(Next(b, step))
  {
    hide Fail, Release, Finalize, PastWhole, StreamKept;
    match step
    case InterruptedStep(k) => SameStreamsTold(b, Next(b, step));
    case AbortStep => ToldFail(b, ClientDisconnected);
    case TimeoutStep => ToldFail(b, GenerationTimeout);
    case ExpireStep => SameStreamsTold(b, Release(b));
    case FinalizeStep => FinalizeTold(b);
    case ExitStep => ExitTold(b);
    case CloseStep => CloseTold(b);
  }

  lemma ExitTold(b: Bridge)
    requires Told(b)
    ensures PastWhole(Next(b, ExitStep)) && StreamKept(Next(b, ExitStep))
  {
    hide Fail, Steady;
    ShutDownSteady(b);
    SameStreamsTold(b, b.(closed := true, rpc := Closed));
    ToldFail(b.(closed := true, rpc := Closed), CodexUnavailable);
  }

  lemma CloseTold(b: Bridge)
    requires Told(b)
    ensures PastWhole(Next(b, CloseStep)) && StreamKept(Next(b, CloseStep))
  {
    hide Fail, Release, Steady;
    ToldFail(b, BridgeShutdown);
    var c := if Unsettled(b) then Fail(b, BridgeShutdown) else b;
    SameStreamsTold(c, Release(c.(closed := true)));
  }

  lemma ReplyTold(b: Bridge, step: Step)
    requires Told(b) && (step.StartedStep? || step.ThreadStep? || step.TurnStep?)
    ensures PastWhole(Next(b, step)) && StreamKept(Next(b, step))
  {
    hide AfterStart, WithThread, DriveFault, Steady;
    if step.StartedStep? && step.task in b.tasks && b.tasks[step.task].AwaitStart? {
      OnStartedTold(b, step.task, step.ok);
    }
    if step.ThreadStep? && step.task in b.tasks && b.tasks[step.task].AwaitThread? {
      OnThreadTold(b, step.task, step.ok, step.id, step.model);
    }
    if step.TurnStep? && step.task in b.tasks && b.tasks[step.task].AwaitTurn? {
      OnTurnTold(b, step.task, step.ok, step.turn);
    }
  }

  lemma NextTold(b: Bridge, step: Step)
    requires Told(b)
    ensures Told(Next(b, step))
  {
    hide Respond, Proceed, OnStarted, OnThread, OnTurn, OnNote, OnServerRequest, Fail, Release;
    NextSteady(b, step);
    match step
    case RequestStep(req, sink, aborted) => RespondTold(b, req, sink, aborted);
    case ProceedStep(aborted) => ProceedTold(b, aborted);
    case StartedStep(_, _) => ReplyTold(b, step);
    case ThreadStep(_, _, _, _) => ReplyTold(b, step);
    case TurnStep(_, _, _) => ReplyTold(b, step);
    case NoteStep(ref, n) => OnNoteTold(b, ref, n);
    case ServerStep(r) => OnServerRequestTold(b, r);
    case _ => StopTold(b, step);
  }

  lemma {:induction false} RunTold(steps: seq<Step>)
    ensures Told(Reach(steps))
  {
    if steps == [] {
      InitialGood();
    } else {
      RunTold(steps[..|steps| - 1]);
      NextTold(Reach(steps[..|steps| - 1]), steps[|steps| - 1]);
    }
  }

  /**
    What a client saw of a finished request: events numbered from 0, created and in_progress first, one
    terminal event, at the end; a rejected request's tells its error, unless the client refused the completion
    itself; and response.completed exactly tells the output that was streamed.
   */
  lemma EveryStream(steps: seq<Step>, i: nat)
    requires i < |Reach(steps).history.streams|
    ensures var offers := Reach(steps).history.streams[i];
      && offers != []
      && (forall n :: 0 <= n < |offers| ==> offers[n].number == n)
      && offers[0].event == Created([])
      && (forall n :: 0 <= n < |offers| ==> (Terminal(offers[n].event) <==> n == |offers| - 1))
      && i < |Reach(steps).history.settled|
      && (Reach(steps).history.settled[i].1 == Resolved ==> offers[|offers| - 1].event.ResponseCompleted?)
      && (Reach(steps).history.settled[i].1.Rejected? ==> TellsError(offers, Reach(steps).history.settled[i].1.error))
      && (offers[|offers| - 1].event.ResponseCompleted? ==>
            var output := offers[|offers| - 1].event.output;
            forall n :: 0 <= n < |output| ==>
              && CountAdded(offers, n) == 1 && CountDone(offers, n) == 1
              && Deltas(offers, n) == output[n].Content()
              && exists k :: 0 <= k < |offers| && offers[k].event == ItemDone(n, output[n]))
  {
    RunTold(steps);
    hide Reach, Follows, Tells, Steady;
    var offers := Reach(steps).history.streams[i];
    StreamShape(offers);
    if offers[|offers| - 1].event.ResponseCompleted? {
      CompletedStream(offers, offers[|offers| - 1].event.output);
    }
  }

  /**
    The response of every operation that was resolved carries exactly the text of the notes its segment was
    handed: its message items are, in order, the messages those notes tell of, each with the text that
    joining the deltas, or the completed message, gives.
   */
  lemma CompletedIsTranscribed(steps: seq<Step>, i: nat)
    requires i < |Reach(steps).history.streams|
    requires i < |Reach(steps).history.settled| && Reach(steps).history.settled[i].1 == Resolved
    ensures i < |Reach(steps).history.notes|
    ensures var offers := Reach(steps).history.streams[i];
      var notes := Reach(steps).history.notes[i];
      && offers != [] && offers[|offers| - 1].event.ResponseCompleted?
      && Tells(offers[|offers| - 1].event.output, notes)
  {
    RunTold(steps);
    hide Reach, Follows, Steady, Tells;
  }

  /** What a running segment has streamed for a message is that message's text in the notes it was handed. */
  lemma StreamedIsTranscribed(steps: seq<Step>, k: nat)
    requires Generating(Reach(steps)) && k < |Reach(steps).operation.value.seg.messages|
    ensures var seg := Reach(steps).operation.value.seg;
      var t := Transcribe(Handed(Reach(steps)));
      && seg.messages[k].0 in t
      && Deltas(seg.offered, seg.messages[k].1) == t[seg.messages[k].0].text
  {
    RunTold(steps);
    var b := Reach(steps);
    GoodUnsettled(b);
    hide Reach, CompletedTells, Steady;
    StreamedText(b.operation.value.seg, Transcribe(Handed(b)), k);
  }
}
