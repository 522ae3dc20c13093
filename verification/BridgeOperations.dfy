/**
  At most one operation is unsettled, each is settled exactly once and in order, and each response is
  continued at most once.
 */
module BridgeOperations {
  import opened Wrappers
  import opened ResponseSegments
  import opened BridgeState

  /** Operations settle one after the other: the log holds operation i at position i. */
  ghost predicate SettledInOrder(b: Bridge) {
    && |b.history.settled| + (if Unsettled(b) then 1 else 0) == b.nextOperation
    && (forall i :: 0 <= i < |b.history.settled| ==> b.history.settled[i].0 == i)
    && (b.operation.Some? && b.operation.value.settled.Some? ==>
          && b.operation.value.oid < |b.history.settled|
          && b.history.settled[b.operation.value.oid].1 == b.operation.value.settled.value)
  }

  /** Responses are continued in the order in which they completed, none twice. */
  ghost predicate ContinuedOnce(b: Bridge) {
    && (forall i, j :: 0 <= i < j < |b.history.continued| ==> b.history.continued[i] < b.history.continued[j])
    && (forall i :: 0 <= i < |b.history.continued| ==> b.history.continued[i] < |b.history.settled|)
    && (b.session.Some? && b.session.value.lastResponse.Some? ==>
          var last := b.session.value.lastResponse.value;
          && last < |b.history.settled| && b.history.settled[last].1 == Resolved
          && forall i :: 0 <= i < |b.history.continued| ==>
               b.history.continued[i] <= last && (!Unsettled(b) ==> b.history.continued[i] < last))
  }

  ghost predicate Ordered(b: Bridge) {
    && (b.starting.Some? ==>
          b.session.None? && b.operation.None? && b.busy
          && b.starting.value.req.model.Some? && b.starting.value.req.input.UserText?)
    && (b.operation.Some? ==> b.busy && b.operation.value.oid + 1 == b.nextOperation)
    && (b.busy ==> b.operation.Some? || b.starting.Some?)
    && (b.timer <==> !b.busy && b.session.Some?)
    && (b.session.Some? ==> b.session.value.sid < b.nextSession)
    && (Unsettled(b) ==> Live(b, b.operation.value.sid))
    && (b.operation.Some? && b.operation.value.settled.Some? && b.operation.value.settled.value.Rejected? ==> b.session.None?)
    && (b.rpc == Closed ==> b.closed)
  }

  /** What holds at every point of a step. */
  ghost predicate Core(b: Bridge) { SettledInOrder(b) && ContinuedOnce(b) && Ordered(b) }

  /** Between steps, moreover, a segment is finished exactly when its operation is settled. */
  ghost predicate Good(b: Bridge) {
    Sane(b) && Core(b) && (b.operation.Some? ==> (Unsettled(b) <==> Generating(b)))
  }

  /** An exception leaves the operation unsettled, for `fail` to settle. */
  ghost predicate Halfway(e: Effect) {
    Sane(e.bridge) && Core(e.bridge) && (if e.fault.None? then Good(e.bridge) else Unsettled(e.bridge))
  }

  lemma InitialGood()
    ensures Good(Initial)
  {
  }

  lemma ReleaseGood(b: Bridge)
    requires Sane(b) && Core(b) && !Unsettled(b)
    ensures Core(Release(b)) && Release(b).session.None? && Release(b).operation == b.operation
    ensures Release(b).busy == b.busy && Release(b).closed == b.closed
  {
    hide Release;
  }

  lemma FailGood(b: Bridge, error: Fault)
    requires Sane(b) && Core(b) && (Good(b) || Unsettled(b))
    ensures Good(Fail(b, error)) && Fail(b, error).session.None?
    ensures Unsettled(b) ==> Fail(b, error).operation.value.settled == Some(Rejected(error))
    ensures Fail(b, error).busy == b.busy && Fail(b, error).closed == b.closed
  {
    hide Fail;
  }

  lemma HandleGood(e: Effect)
    requires Halfway(e)
    ensures Good(Handle(e))
  {
    hide Fail;
    if e.fault.Some? {
      FailGood(e.bridge, e.fault.value);
    }
  }

  lemma CompleteHalfway(b: Bridge)
    requires Sane(b) && Core(b) && b.session.Some? && Unsettled(b) && Generating(b)
    ensures Halfway(Complete(b))
    ensures Complete(b).fault.None? ==> Complete(b).bridge.operation.value.settled == Some(Resolved)
  {
    hide Finish;
    var r := Complete(b);
    if r.fault.None? {
      assert r.bridge.history.settled == b.history.settled + [(b.operation.value.oid, Resolved)];
    }
  }

  /** Only the segment, and the session apart from its last response, changed. */
  ghost predicate SameOrder(b: Bridge, c: Bridge) {
    && c.starting == b.starting && c.busy == b.busy && c.timer == b.timer && c.closed == b.closed && c.rpc == b.rpc
    && c.history == b.history && c.nextOperation == b.nextOperation && c.nextSession == b.nextSession
    && (b.operation.None? <==> c.operation.None?)
    && (b.operation.Some? ==>
          c.operation.value.oid == b.operation.value.oid && c.operation.value.sid == b.operation.value.sid
          && c.operation.value.settled == b.operation.value.settled
          && c.operation.value.seg.finished == b.operation.value.seg.finished)
    && (b.session.None? <==> c.session.None?)
    && (b.session.Some? ==>
          c.session.value.sid == b.session.value.sid && c.session.value.lastResponse == b.session.value.lastResponse)
  }

  lemma SameOrderGood(b: Bridge, c: Bridge)
    requires Good(b) && SameOrder(b, c) && Sane(c)
    ensures Good(c)
  {
  }

  lemma FlushHalfway(b: Bridge)
    requires Good(b)
    ensures Halfway(FlushTool(b))
  {
    hide ToolCall, Complete;
    if b.session.Some? && Generating(b) && b.session.value.waiting.None? && b.session.value.pending != [] {
      var s := b.session.value;
      var call := s.pending[0];
      var r := ToolCall(b.operation.value.seg, call.arrival, call.name, call.args, b.sink);
      var c := WithSegment(b.(session := Some(s.(waiting := Some(call), pending := s.pending[1..]))), r.seg);
      assert SameOrder(b, c);
      SameOrderGood(b, c);
      if r.fault.None? {
        CompleteHalfway(c);
      }
    }
  }

  lemma ConsumeHalfway(b: Bridge, n: Note)
    requires Good(b)
    ensures Halfway(ConsumeNote(b, n))
  {
    hide TextDeltaStep, CompleteMessage, Complete;
    if b.session.Some? && Generating(b) {
      var s := b.session.value;
      if n.body.TurnCompleted? {
        var c := b.(session := Some(s.(turnId := None)));
        SameOrderGood(b, c);
        CompleteHalfway(c);
      } else {
        assert SameOrder(b, ConsumeNote(b, n).bridge);
        SameOrderGood(b, ConsumeNote(b, n).bridge);
      }
    }
  }

  lemma HandOverHalfway(b: Bridge, n: Note)
    requires Good(b)
    ensures Halfway(HandOver(b, n))
  {
    hide ConsumeNote, Good;
    NotedGood(b, n);
    ConsumeHalfway(Noted(b, n), n);
  }

  lemma NotedGood(b: Bridge, n: Note)
    requires Good(b)
    ensures Good(Noted(b, n))
  {
    hide Ends;
    SameOrderGood(b, Noted(b, n));
  }

  lemma {:induction false} ConsumeAllHalfway(b: Bridge, notes: seq<Note>)
    requires Good(b)
    ensures Halfway(ConsumeAll(b, notes))
    decreases |notes|
  {
    hide HandOver;
    if notes == [] {
      assert ConsumeAll(b, notes) == Effect(b, None);
    } else {
      HandOverHalfway(b, notes[0]);
      var r := HandOver(b, notes[0]);
      if r.fault.None? {
        ConsumeAllHalfway(r.bridge, notes[1..]);
      }
    }
  }

  /** A resumed tool call: an exception before the segment is touched leaves a good state as well. */
  lemma ResumeGood(b: Bridge, output: string)
    requires Good(b) && b.session.Some?
    ensures var r := Resume(b, output); Sane(r.bridge) && Core(r.bridge) && (Good(r.bridge) || (r.fault.Some? && Unsettled(r.bridge)))
  {
    hide ConsumeAll, FlushTool;
    var s := b.session.value;
    if s.waiting.Some? {
      if b.rpc != Open {
        SameOrderGood(b, LoseWaiting(b));
      } else {
        var answered := AnswerWaiting(b, output);
        SameOrderGood(b, answered);
        ConsumeAllHalfway(answered, s.buffered);
        var r := ConsumeAll(answered, s.buffered);
        if r.fault.None? {
          FlushHalfway(r.bridge);
        }
      }
    }
  }

  // ---------------------------------------------------------------------------
  // Suspended continuations
  // ---------------------------------------------------------------------------

  /** A continuation on its way to a thread for its session. */
  predicate Starts(t: Task) { t.AwaitStart? || t.AwaitThread? }

  /** A tool output that waits for the live session to have a thread. */
  predicate Brings(b: Bridge, t: Task) { Starts(t) && Live(b, t.sid) && t.req.input.ToolOutput? }

  ghost predicate TasksBounded(b: Bridge) {
    forall k :: k in b.tasks ==>
      k < b.nextTask && b.tasks[k].sid < b.nextSession && (Starts(b.tasks[k]) ==> b.tasks[k].oid < b.nextOperation)
  }

  /** Every operation has at most one continuation that waits for a thread. */
  ghost predicate StartsUnique(b: Bridge) {
    forall k, j :: k in b.tasks && j in b.tasks && Starts(b.tasks[k]) && Starts(b.tasks[j]) && b.tasks[k].oid == b.tasks[j].oid
      ==> k == j
  }

  /** A tool output that is still to be delivered belongs to the operation in progress, and its call waits. */
  ghost predicate Fits(b: Bridge) {
    && TasksBounded(b) && StartsUnique(b)
    && (forall k :: k in b.tasks && Brings(b, b.tasks[k]) ==>
          Unsettled(b) && b.operation.value.oid == b.tasks[k].oid && b.session.value.waiting.Some?)
  }

  ghost predicate Steady(b: Bridge) { Good(b) && Fits(b) }

  /** The step leaves the continuations alone; a call that waits goes on waiting, or the session goes. */
  ghost predicate SameTasks(b: Bridge, c: Bridge) {
    && c.tasks == b.tasks && c.nextTask == b.nextTask && c.nextSession == b.nextSession && c.nextOperation == b.nextOperation
    && (c.session.None? ||
        (b.session.Some? && c.session.value.sid == b.session.value.sid
         && (Unsettled(b) && b.session.value.waiting.Some? ==>
               Unsettled(c) && c.operation.value.oid == b.operation.value.oid && c.session.value.waiting.Some?)))
  }

  lemma SameTasksFits(b: Bridge, c: Bridge)
    requires Fits(b) && SameTasks(b, c)
    ensures Fits(c)
  {
    forall k | k in c.tasks && Brings(c, c.tasks[k])
      ensures Unsettled(c) && c.operation.value.oid == c.tasks[k].oid && c.session.value.waiting.Some?
    {
      assert Brings(b, b.tasks[k]);
    }
  }

  /** No tool output waits for a thread. */
  ghost predicate NoneBrings(b: Bridge) {
    forall k :: k in b.tasks ==> !Brings(b, b.tasks[k])
  }

  lemma NoneBringsFits(b: Bridge, c: Bridge)
    requires Fits(b) && NoneBrings(b)
    requires c.tasks == b.tasks && c.nextTask == b.nextTask && c.nextSession == b.nextSession && c.nextOperation == b.nextOperation
    requires c.session.None? || (b.session.Some? && c.session.value.sid == b.session.value.sid)
    ensures Fits(c) && NoneBrings(c)
  {
    forall k | k in c.tasks ensures !Brings(c, c.tasks[k]) {
      assert !Brings(b, b.tasks[k]);
    }
  }

  lemma ReleaseFits(b: Bridge)
    requires Fits(b) && (b.session.Some? ==> b.session.value.sid < b.nextSession)
    ensures Fits(Release(b))
  {
    hide Release;
  }

  /** Whatever settles an operation, its session is released. */
  lemma FailFits(b: Bridge, error: Fault)
    requires Sane(b) && Fits(b) && (b.session.Some? ==> b.session.value.sid < b.nextSession)
    ensures Fits(Fail(b, error))
  {
    hide Fail;
  }

  lemma FailSteady(b: Bridge, error: Fault)
    requires Sane(b) && Core(b) && (Good(b) || Unsettled(b)) && Fits(b)
    ensures Steady(Fail(b, error))
  {
    hide Fail, Fits;
    FailGood(b, error);
    FailFits(b, error);
  }

  lemma FlushFits(b: Bridge)
    requires Good(b) && Fits(b)
    ensures Fits(FlushTool(b).bridge)
  {
    hide Fits;
    FlushWaits(b);
    SameTasksFits(b, FlushTool(b).bridge);
  }

  lemma FlushWaits(b: Bridge)
    requires Sane(b)
    ensures SameTasks(b, FlushTool(b).bridge)
  {
    if b.session.Some? && b.session.value.waiting.Some? {
      hide ToolCall, Complete;
      assert FlushTool(b) == Effect(b, None);
    } else {
      hide FlushTool;
    }
  }

  lemma HandOverFits(b: Bridge, n: Note)
    requires Good(b) && Fits(b)
    ensures Fits(HandOver(b, n).bridge)
  {
    hide Fits;
    HandOverWaits(b, n);
    SameTasksFits(b, HandOver(b, n).bridge);
  }

  lemma HandOverWaits(b: Bridge, n: Note)
    requires Sane(b)
    ensures SameTasks(b, HandOver(b, n).bridge)
  {
    if b.session.Some? && b.session.value.waiting.Some? {
      hide TextDeltaStep, CompleteMessage, Complete, Ends;
      assert Outstanding(b.session.value) != [];
    } else {
      hide HandOver;
    }
  }

  lemma ResumeFits(b: Bridge, output: string)
    requires Fits(b) && NoneBrings(b) && Sane(b) && b.session.Some?
    ensures Fits(Resume(b, output).bridge)
  {
    hide Fits, NoneBrings;
    ResumeSession(b, output);
    NoneBringsFits(b, Resume(b, output).bridge);
  }

  /** A resumed call leaves the session where it is, and the continuations alone. */
  lemma ResumeSession(b: Bridge, output: string)
    requires Sane(b) && b.session.Some?
    ensures var c := Resume(b, output).bridge;
      && c.tasks == b.tasks && c.nextTask == b.nextTask && c.nextSession == b.nextSession && c.nextOperation == b.nextOperation
      && c.session.Some? && c.session.value.sid == b.session.value.sid
      && (b.operation.None? <==> c.operation.None?)
      && (b.operation.Some? ==> c.operation.value.oid == b.operation.value.oid)
  {
    hide ConsumeAll, FlushTool, Outstanding, Within, Through;
    if b.session.value.waiting.Some? && b.rpc == Open {
      var answered := AnswerWaiting(b, output);
      var r := ConsumeAll(answered, b.session.value.buffered);
      ThroughSession(answered, r.bridge);
      if r.fault.None? {
        WithinThrough(r.bridge, FlushTool(r.bridge).bridge);
        ThroughSession(r.bridge, FlushTool(r.bridge).bridge);
      }
    }
  }

  lemma ThroughSession(b: Bridge, c: Bridge)
    requires b.session.Some? && Through(b, c)
    ensures c.tasks == b.tasks && c.nextTask == b.nextTask && c.nextSession == b.nextSession && c.nextOperation == b.nextOperation
    ensures c.session.Some? && c.session.value.sid == b.session.value.sid
    ensures b.operation.None? <==> c.operation.None?
    ensures b.operation.Some? ==> c.operation.value.oid == b.operation.value.oid
  {
  }

  lemma WithinThrough(b: Bridge, c: Bridge)
    requires Within(b, c)
    ensures Through(b, c)
  {
  }

  lemma DriveFaultSteady(b: Bridge, oid: nat, fault: Option<Fault>)
    requires Sane(b) && Core(b) && Fits(b)
    requires Good(b) || (fault.Some? && Unsettled(b) && b.operation.value.oid == oid)
    ensures Steady(DriveFault(b, oid, fault))
  {
    hide Fail;
    if fault.Some? {
      FailSteady(b, fault.value);
    }
  }

  lemma WithThreadSteady(b: Bridge, oid: nat, req: Request)
    requires Sane(b) && Steady(b) && b.session.Some? && b.session.value.threadId.Some?
    requires req.input.ToolOutput? ==> Delivers(b, oid)
    ensures Steady(WithThread(b, oid, req))
  {
    hide Resume, DriveFault, Good, Fits;
    if req.input.ToolOutput? {
      ResumeGood(b, req.input.output);
      DeliversAlone(b, oid);
      ResumeFits(b, req.input.output);
      ResumeSession(b, req.input.output);
      var r := Resume(b, req.input.output);
      DriveFaultSteady(r.bridge, oid, r.fault);
    } else {
      var t := AwaitTurn(b.session.value.sid, oid);
      var sent := Send(b, StartTurn(b.session.value.sid, b.session.value.threadId.value, req.input.text, b.session.value.config.effort));
      SteadySid(b);
      LogsSteady(b, sent);
      AddTaskSteady(sent, t);
    }
  }

  /** Operation `oid` is the one in progress, its call waits, and its tool output has no other continuation. */
  ghost predicate Delivers(b: Bridge, oid: nat) {
    && Unsettled(b) && b.operation.value.oid == oid && b.session.Some? && b.session.value.waiting.Some?
    && (forall k :: k in b.tasks && Starts(b.tasks[k]) ==> b.tasks[k].oid != oid)
  }

  lemma DeliversAlone(b: Bridge, oid: nat)
    requires Fits(b) && Delivers(b, oid)
    ensures NoneBrings(b)
  {
  }

  /** A continuation is added; one that waits for a thread is the only one of its operation. */
  lemma AddTaskSteady(b: Bridge, t: Task)
    requires Steady(b) && t.sid < b.nextSession
    requires Starts(t) ==> t.oid < b.nextOperation && forall k :: k in b.tasks && Starts(b.tasks[k]) ==> b.tasks[k].oid != t.oid
    requires Brings(b, t) ==> Unsettled(b) && b.operation.value.oid == t.oid && b.session.value.waiting.Some?
    ensures Steady(AddTask(b, t))
  {
    SameOrderGood(b, AddTask(b, t));
    hide Good;
    var c := AddTask(b, t);
    forall k | k in c.tasks && Brings(c, c.tasks[k])
      ensures Unsettled(c) && c.operation.value.oid == c.tasks[k].oid && c.session.value.waiting.Some?
    {
      assert Brings(b, c.tasks[k]);
    }
  }

  // ---------------------------------------------------------------------------
  // The steps
  // ---------------------------------------------------------------------------

  lemma AfterStartSteady(b: Bridge, sid: nat, oid: nat, req: Request)
    requires Sane(b) && Steady(b) && oid < b.nextOperation
    requires forall k :: k in b.tasks && Starts(b.tasks[k]) ==> b.tasks[k].oid != oid
    requires Live(b, sid) && req.input.ToolOutput? ==> Delivers(b, oid)
    ensures Steady(AfterStart(b, sid, oid, req))
  {
    hide WithThread, Good, Fits;
    if Live(b, sid) {
      if b.session.value.threadId.Some? {
        WithThreadSteady(b, oid, req);
      } else {
        SteadySid(b);
        LogsSteady(b, Send(b, StartThread(sid, b.session.value.config)));
        AddTaskSteady(Send(b, StartThread(sid, b.session.value.config)), AwaitThread(sid, oid, req));
      }
    }
  }

  lemma SteadySid(b: Bridge)
    requires Steady(b) && b.session.Some?
    ensures b.session.value.sid < b.nextSession
  {
  }

  /** A request was accepted and its session stands; its operation is about to be created. */
  ghost predicate Poised(b: Bridge) {
    && b.session.Some? && b.session.value.sid < b.nextSession
    && b.operation.None? && b.starting.None? && b.busy && !b.timer
    && (b.rpc == Closed ==> b.closed)
    && SettledInOrder(b)
    && (forall i, j :: 0 <= i < j < |b.history.continued| ==> b.history.continued[i] < b.history.continued[j])
    && (forall i :: 0 <= i < |b.history.continued| ==> b.history.continued[i] < |b.history.settled|)
    && (b.session.value.lastResponse.Some? ==>
          var last := b.session.value.lastResponse.value;
          && last < |b.history.settled| && b.history.settled[last].1 == Resolved
          && forall i :: 0 <= i < |b.history.continued| ==> b.history.continued[i] <= last)
  }

  /** The continuations of a session that is about to begin an operation. */
  ghost predicate Ready(b: Bridge) { TasksBounded(b) && StartsUnique(b) && NoneBrings(b) }

  lemma EnterGood(b: Bridge, sink: Sink)
    requires Poised(b)
    ensures Good(Enter(b, sink))
    ensures Enter(b, sink).operation.Some? && Enter(b, sink).operation.value.oid == b.nextOperation
    ensures Enter(b, sink).session.None? || (Enter(b, sink).session == b.session && Unsettled(Enter(b, sink)))
  {
    hide Start, Fail;
    var start := Start(Fresh, sink);
    var entered := b.(operation := Some(Operation(b.nextOperation, b.session.value.sid, start.seg, None)),
                      sink := sink, nextOperation := b.nextOperation + 1,
                      delivery := b.delivery.(mark := |b.delivery.handed|));
    assert entered.history == b.history;
    if start.fault.Some? {
      FailGood(entered, start.fault.value);
    }
  }

  lemma EnterFits(b: Bridge, sink: Sink)
    requires Poised(b) && Ready(b)
    ensures Fits(Enter(b, sink)) && Enter(b, sink).nextOperation == b.nextOperation + 1
    ensures Unsettled(Enter(b, sink)) ==> Enter(b, sink).tasks == b.tasks
  {
    hide Start, Fail;
    var start := Start(Fresh, sink);
    var entered := Entering(b, sink, start.seg);
    forall k | k in entered.tasks ensures !Brings(entered, entered.tasks[k]) {
      assert !Brings(b, b.tasks[k]);
    }
    if start.fault.Some? {
      FailFits(entered, start.fault.value);
    }
  }

  lemma LaunchSteady(b: Bridge, oid: nat, req: Request)
    requires Sane(b) && Steady(b) && Unsettled(b) && b.session.Some? && b.operation.value.oid == oid && oid < b.nextOperation
    requires req.input.ToolOutput? ==> b.session.value.waiting.Some?
    requires forall k :: k in b.tasks && Starts(b.tasks[k]) ==> b.tasks[k].oid != oid
    ensures Steady(Launch(b, oid, req))
  {
    hide DriveFault, AfterStart, Good, Fits;
    if b.session.value.threadId.Some? {
      SteadyDriveFault(b, oid, RpcError);
      AfterStartSteady(b, b.session.value.sid, oid, req);
    } else {
      SteadySid(b);
      AddTaskSteady(b, AwaitStart(b.session.value.sid, oid, req));
    }
  }

  lemma BeginSteady(b: Bridge, req: Request, sink: Sink, aborted: bool)
    requires Poised(b) && Ready(b) && (req.input.ToolOutput? ==> b.session.value.waiting.Some?)
    ensures Steady(Begin(b, req, sink, aborted))
  {
    hide Enter, Launch, Fail, Good, Core;
    var entered := Enter(b, sink);
    EnterGood(b, sink);
    EnterFits(b, sink);
    SteadyFail(entered, ClientDisconnected);
    if !aborted && Unsettled(entered) && entered.session.Some? {
      LaunchSteady(entered, b.nextOperation, req);
    }
  }

  lemma RespondSteady(b: Bridge, req: Request, sink: Sink, aborted: bool)
    requires Steady(b)
    ensures Steady(Respond(b, req, sink, aborted).0)
  {
    hide Begin, Release;
    if Refusal(b, req, aborted).None? {
      if req.previous.None? {
        var taken := b.(busy := true, timer := false, starting := Some(Starting(req, sink)));
        SameTasksFits(b, taken);
        ReleaseFits(taken);
      } else {
        ContinueReady(b, req, aborted);
        BeginSteady(Continue(b, req.previous.value), req, sink, false);
      }
    }
  }

  /** Without an operation, no tool output waits for a thread. */
  lemma ContinueReady(b: Bridge, req: Request, aborted: bool)
    requires Steady(b) && Refusal(b, req, aborted).None? && req.previous.Some?
    ensures Poised(Continue(b, req.previous.value)) && Ready(Continue(b, req.previous.value))
    ensures req.input.ToolOutput? ==> b.session.value.waiting.Some?
  {
    NoOperationReady(b);
    NoneBringsFits(b, Continue(b, req.previous.value));
  }

  lemma NoOperationReady(b: Bridge)
    requires Fits(b) && b.operation.None?
    ensures NoneBrings(b)
  {
  }

  lemma ProceedSteady(b: Bridge, aborted: bool)
    requires Steady(b)
    ensures Steady(Proceed(b, aborted))
  {
    hide Begin;
    if b.starting.Some? {
      CreateReady(b);
      BeginSteady(Create(b, b.starting.value.req), b.starting.value.req, b.starting.value.sink, aborted);
    }
  }

  lemma CreateReady(b: Bridge)
    requires Steady(b) && b.starting.Some?
    ensures b.starting.value.req.model.Some? && b.starting.value.req.input.UserText?
    ensures Poised(Create(b, b.starting.value.req)) && Ready(Create(b, b.starting.value.req))
  {
    var created := Create(b, b.starting.value.req);
    forall k | k in created.tasks ensures !Brings(created, created.tasks[k]) {
      assert b.tasks[k].sid < b.nextSession;
    }
  }

  /** A continuation that waited for a thread goes on; its operation has no other. */
  lemma TakeStart(b: Bridge, k: nat)
    requires Steady(b) && k in b.tasks && Starts(b.tasks[k])
    ensures var c := RemoveTask(b, k);
      var t := b.tasks[k];
      && Steady(c) && t.oid < c.nextOperation
      && (forall j :: j in c.tasks && Starts(c.tasks[j]) ==> c.tasks[j].oid != t.oid)
      && (Live(c, t.sid) && t.req.input.ToolOutput? ==> Delivers(c, t.oid))
  {
    RemoveSteady(b, k);
    hide Good;
    assert Brings(b, b.tasks[k]) || !(Live(b, b.tasks[k].sid) && b.tasks[k].req.input.ToolOutput?);
  }

  lemma OnStartedSteady(b: Bridge, k: nat, ok: bool)
    requires Sane(b) && Steady(b)
    ensures Steady(OnStarted(b, k, ok))
  {
    hide AfterStart, DriveFault, Steady;
    if k in b.tasks && b.tasks[k].AwaitStart? {
      var t := b.tasks[k];
      var c := RemoveTask(b, k);
      TakeStart(b, k);
      SteadyDriveFault(c, t.oid, RpcError);
      if ok && b.rpc != Closed {
        OpenSteady(c);
        AfterStartSteady(c.(rpc := Open), t.sid, t.oid, t.req);
      }
    }
  }

  lemma OpenSteady(b: Bridge)
    requires Steady(b)
    ensures Steady(b.(rpc := Open))
  {
    SameTasksFits(b, b.(rpc := Open));
    hide Fits;
  }

  lemma AttachSteady(b: Bridge, k: nat, id: ThreadId)
    requires Steady(b) && k in b.tasks && b.tasks[k].AwaitThread? && Live(b, b.tasks[k].sid)
    ensures Steady(Attach(Return(RemoveTask(b, k), b.tasks[k].sid, id), id))
  {
    RemoveSteady(b, k);
    hide Steady;
    SteadyEdit(RemoveTask(b, k), Attach(Return(RemoveTask(b, k), b.tasks[k].sid, id), id));
  }

  lemma RemoveSteady(b: Bridge, k: nat)
    requires Steady(b)
    ensures Steady(RemoveTask(b, k))
  {
    var c := RemoveTask(b, k);
    SameOrderGood(b, c);
    hide Good;
    forall j | j in c.tasks && Brings(c, c.tasks[j])
      ensures Unsettled(c) && c.operation.value.oid == c.tasks[j].oid && c.session.value.waiting.Some?
    {
      assert Brings(b, b.tasks[j]);
    }
  }

  lemma SteadyDriveFault(b: Bridge, oid: nat, fault: Fault)
    requires Steady(b)
    ensures Steady(DriveFault(b, oid, Some(fault)))
  {
    hide DriveFault, Fail;
    DriveFaultSteady(b, oid, Some(fault));
  }

  lemma OnThreadSteady(b: Bridge, k: nat, ok: bool, id: Option<ThreadId>, model: Option<string>)
    requires Sane(b) && Steady(b) && k in b.tasks && b.tasks[k].AwaitThread?
    ensures Steady(OnThread(b, k, ok, id, model))
  {
    hide *;
    ThreadCases(b, k, ok, id, model);
    var t := b.tasks[k];
    var c := RemoveTask(b, k);
    RemoveSteady(b, k);
    SteadyDriveFault(c, t.oid, RpcError);
    SteadyDriveFault(c, t.oid, InvalidUpstreamEvent);
    if id.Some? {
      if Live(b, t.sid) {
        AttachedSteady(b, k, id.value);
      } else {
        GivenBackSteady(c, t.sid, id.value);
      }
    }
  }

  lemma GivenBackSteady(b: Bridge, sid: nat, id: ThreadId)
    requires Steady(b)
    ensures Steady(Send(Return(b, sid, id), Unsubscribe(sid, id)))
  {
    hide Steady;
    LogsSteady(b, Send(Return(b, sid, id), Unsubscribe(sid, id)));
  }

  lemma AttachedSteady(b: Bridge, k: nat, id: ThreadId)
    requires Sane(b) && Steady(b) && k in b.tasks && b.tasks[k].AwaitThread? && Live(b, b.tasks[k].sid)
    ensures var t := b.tasks[k];
      var attached := Attach(Return(RemoveTask(b, k), t.sid, id), id);
      && Sane(attached) && attached.session.Some? && attached.session.value.threadId.Some?
      && Steady(DriveFault(attached, t.oid, Some(ModelMismatch))) && Steady(WithThread(attached, t.oid, t.req))
  {
    hide Steady, Fits, DriveFault, WithThread;
    var t := b.tasks[k];
    var attached := Attach(Return(RemoveTask(b, k), t.sid, id), id);
    TakeStart(b, k);
    AttachSteady(b, k, id);
    SteadyDriveFault(attached, t.oid, ModelMismatch);
    WithThreadSteady(attached, t.oid, t.req);
  }

  /** Logs do not matter here. */
  lemma LogsSteady(b: Bridge, c: Bridge)
    requires Steady(b) && c.(wire := b.wire, ledger := b.ledger, delivery := b.delivery) == b
    ensures Steady(c)
  {
  }

  lemma OnTurnSteady(b: Bridge, k: nat, ok: bool, id: Option<TurnId>)
    requires Steady(b) && k in b.tasks && b.tasks[k].AwaitTurn?
    ensures Steady(OnTurn(b, k, ok, id))
  {
    hide DriveFault;
    TurnCases(b, k, ok, id);
    var t := b.tasks[k];
    var c := RemoveTask(b, k);
    RemoveSteady(b, k);
    SteadyDriveFault(c, t.oid, RpcError);
    SteadyDriveFault(c, t.oid, InvalidUpstreamEvent);
    if id.Some? && t.sid in b.wire.threadOf {
      LogsSteady(c, RetireLate(c, t.sid, b.wire.threadOf[t.sid], id.value));
    }
    if id.Some? && Live(b, t.sid) {
      LearnSteady(c, id.value);
      LogsSteady(c, Hear(c, t.sid, id.value));
    }
  }

  lemma LearnSteady(b: Bridge, turn: TurnId)
    requires Steady(b) && b.session.Some?
    ensures Steady(LearnTurn(b, turn))
  {
    SteadyEdit(b, LearnTurn(b, turn));
  }

  lemma HandleSteady(e: Effect)
    requires Halfway(e) && Fits(e.bridge)
    ensures Steady(Handle(e))
  {
    hide Fail;
    HandleGood(e);
    if e.fault.Some? {
      FailFits(e.bridge, e.fault.value);
    }
  }

  lemma QueueSteady(b: Bridge, r: ServerRequest)
    requires Steady(b) && b.session.Some? && Acceptable(b.session.value, r)
    ensures Steady(Queue(b, r))
  {
    SteadyEdit(b, Queue(b, r));
  }

  lemma RefuseSteady(b: Bridge, rpcId: nat)
    requires Steady(b)
    ensures Steady(Refuse(Count(b, rpcId), |b.ledger.received|, rpcId))
  {
    hide Steady;
    LogsSteady(b, Refuse(Count(b, rpcId), |b.ledger.received|, rpcId));
  }

  lemma OnServerRequestSteady(b: Bridge, r: ServerRequest)
    requires Steady(b)
    ensures Steady(OnServerRequest(b, r))
  {
    hide Handle, Fail, FlushTool;
    ServerRequestCases(b, r);
    if b.session.Some? && Addressed(r.thread, b.session.value) && Acceptable(b.session.value, r) {
      QueueSteady(b, r);
      FlushHalfway(Queue(b, r));
      FlushFits(Queue(b, r));
      HandleSteady(FlushTool(Queue(b, r)));
    }
    RefusedSteady(b, r);
  }

  lemma RefusedSteady(b: Bridge, r: ServerRequest)
    requires Steady(b)
    ensures var refused := Refuse(Count(b, r.rpcId), |b.ledger.received|, r.rpcId);
      Steady(refused) && forall error: Fault :: Steady(Fail(refused, error))
  {
    hide *;
    RefuseSteady(b, r.rpcId);
    var refused := Refuse(Count(b, r.rpcId), |b.ledger.received|, r.rpcId);
    forall error: Fault ensures Steady(Fail(refused, error)) {
      SteadyFail(refused, error);
    }
  }

  lemma SteadyFail(b: Bridge, error: Fault)
    requires Steady(b)
    ensures Steady(Fail(b, error))
  {
    hide Fail;
    FailSteady(b, error);
  }

  lemma DispatchSteady(b: Bridge, n: Note)
    requires Steady(b) && b.session.Some?
    ensures Steady(Dispatch(b, n))
  {
    hide Steady, HandOver, Handle, Fail;
    if Generating(b) {
      DeliverSteady(b, n);
    } else {
      BufferSteady(b, n);
      SteadyFail(Buffer(b, n), UpstreamBufferLimit);
    }
  }

  lemma DeliverSteady(b: Bridge, n: Note)
    requires Steady(b)
    ensures Steady(Handle(HandOver(Arrive(b, n), n)))
  {
    hide HandOver, Handle;
    var d := Arrive(b, n);
    LogsSteady(b, d);
    HandOverHalfway(d, n);
    HandOverFits(d, n);
    HandleSteady(HandOver(d, n));
  }

  lemma BufferSteady(b: Bridge, n: Note)
    requires Steady(b) && b.session.Some?
    ensures Steady(Buffer(b, n))
  {
    SteadyEdit(b, Buffer(b, n));
  }

  lemma StartTurnSteady(b: Bridge, turn: Option<TurnId>)
    requires Steady(b) && b.session.Some?
    ensures Steady(StartTurnNote(b, turn))
  {
    SteadyEdit(b, StartTurnNote(b, turn));
  }

  /** Nor do the session's thread, turn, queue and buffer. */
  lemma SteadyEdit(b: Bridge, c: Bridge)
    requires Steady(b) && SameOrder(b, c) && SameTasks(b, c) && Sane(c)
    ensures Steady(c)
  {
    hide Steady, Good, Fits;
    SteadyParts(b);
    SameOrderGood(b, c);
    SameTasksFits(b, c);
    SteadyWhole(c);
  }

  lemma SteadyParts(b: Bridge)
    requires Steady(b)
    ensures Good(b) && Fits(b)
  {
  }

  lemma SteadyWhole(b: Bridge)
    requires Good(b) && Fits(b)
    ensures Steady(b)
  {
  }

  lemma OnNoteSteady(b: Bridge, ref: ThreadRef, n: Note)
    requires Steady(b)
    ensures Steady(OnNote(b, ref, n))
  {
    hide Dispatch, Fail;
    NoteCases(b, ref, n);
    if b.session.Some? && Addressed(ref, b.session.value) {
      NoteSteady(b, ref, n);
    }
  }

  lemma NoteSteady(b: Bridge, ref: ThreadRef, n: Note)
    requires Sane(b) && Steady(b) && b.session.Some?
    ensures Steady(OnNote(b, ref, n))
  {
    hide *;
    NoteCases(b, ref, n);
    SteadyFail(b, InvalidUpstreamEvent);
    SteadyFail(b, UpstreamTurnFailed);
    SteadyFail(b, UnsupportedServerAction);
    DispatchSteady(b, n);
    if n.body.TurnStarted? && n.body.turn.Some? {
      StartTurnSteady(b, n.body.turn.value.id);
    }
  }

  lemma ExitSteady(b: Bridge)
    requires Steady(b)
    ensures Steady(Next(b, ExitStep))
  {
    hide Fail, Steady;
    ShutDownSteady(b);
    SteadyFail(b.(closed := true, rpc := Closed), CodexUnavailable);
  }

  lemma ShutDownSteady(b: Bridge)
    requires Steady(b)
    ensures Steady(b.(closed := true, rpc := Closed))
  {
    SameTasksFits(b, b.(closed := true, rpc := Closed));
    hide Fits;
  }

  lemma CloseSteady(b: Bridge)
    requires Steady(b)
    ensures Steady(Next(b, CloseStep))
  {
    hide Fail, Release, Core, Fits;
    FailSteady(b, BridgeShutdown);
    var c := if Unsettled(b) then Fail(b, BridgeShutdown) else b;
    ShutSteady(c);
  }

  lemma ShutSteady(b: Bridge)
    requires Steady(b) && !Unsettled(b)
    ensures Steady(Release(b.(closed := true)))
  {
    hide Release;
    ReleaseGood(b.(closed := true));
    ReleaseFits(b.(closed := true));
  }

  lemma ExpireSteady(b: Bridge)
    requires Steady(b)
    ensures Steady(Next(b, ExpireStep))
  {
    hide Release;
    if b.timer {
      ReleaseGood(b);
      ReleaseFits(b);
    }
  }

  lemma NextSteady(b: Bridge, step: Step)
    requires Sane(b) && Steady(b)
    ensures Steady(Next(b, step))
  {
    hide Respond, Proceed, OnStarted, OnThread, OnTurn, OnInterrupted, OnNote, OnServerRequest, Fail, Release, Finalize, Steady;
    match step
    case RequestStep(req, sink, aborted) => RespondSteady(b, req, sink, aborted);
    case ProceedStep(aborted) => ProceedSteady(b, aborted);
    case StartedStep(k, ok) => OnStartedSteady(b, k, ok);
    case ThreadStep(k, ok, id, model) => ReplySteady(b, step);
    case TurnStep(k, ok, turn) => ReplySteady(b, step);
    case InterruptedStep(k) => OnInterruptedSteady(b, k);
    case NoteStep(ref, n) => OnNoteSteady(b, ref, n);
    case ServerStep(r) => OnServerRequestSteady(b, r);
    case AbortStep => SteadyFail(b, ClientDisconnected);
    case TimeoutStep => SteadyFail(b, GenerationTimeout);
    case ExpireStep => ExpireSteady(b);
    case FinalizeStep => FinalizeSteady(b);
    case ExitStep => ExitSteady(b);
    case CloseStep => CloseSteady(b);
  }

  lemma OnInterruptedSteady(b: Bridge, k: nat)
    requires Steady(b)
    ensures Steady(OnInterrupted(b, k))
  {
    hide Steady;
    if k in b.tasks && b.tasks[k].AwaitInterrupt? {
      RemoveSteady(b, k);
      LogsSteady(RemoveTask(b, k), OnInterrupted(b, k));
    }
  }

  lemma FinalizeSteady(b: Bridge)
    requires Steady(b)
    ensures Steady(Finalize(b))
  {
  }

  lemma ReplySteady(b: Bridge, step: Step)
    requires Sane(b) && Steady(b) && (step.ThreadStep? || step.TurnStep?)
    ensures Steady(Next(b, step))
  {
    hide WithThread, DriveFault, Steady;
    if step.ThreadStep? && step.task in b.tasks && b.tasks[step.task].AwaitThread? {
      OnThreadSteady(b, step.task, step.ok, step.id, step.model);
    }
    if step.TurnStep? && step.task in b.tasks && b.tasks[step.task].AwaitTurn? {
      OnTurnSteady(b, step.task, step.ok, step.turn);
    }
  }

  /** Every reachable state is steady. */
  lemma {:induction false} RunSteady(steps: seq<Step>)
    ensures Steady(Reach(steps))
  {
    if steps == [] {
      InitialGood();
    } else {
      RunSteady(steps[..|steps| - 1]);
      hide Steady;
      NextSteady(Reach(steps[..|steps| - 1]), steps[|steps| - 1]);
    }
  }

  // ---------------------------------------------------------------------------
  // What this means for clients
  // ---------------------------------------------------------------------------

  /**
    Every operation is settled exactly once and in its order; the only one not settled is the running one,
    and a request that arrives meanwhile is refused.
   */
  lemma OneOperationAtATime(steps: seq<Step>, req: Request, aborted: bool)
    ensures var b := Reach(steps);
      && (forall i :: 0 <= i < |b.history.settled| ==> b.history.settled[i].0 == i)
      && b.nextOperation == |b.history.settled| + (if Unsettled(b) then 1 else 0)
      && (Unsettled(b) ==> b.operation.value.oid == |b.history.settled| && Live(b, b.operation.value.sid))
      && (b.operation.Some? && !Unsettled(b) ==>
            b.operation.value.oid < |b.history.settled| && b.history.settled[b.operation.value.oid] == (b.operation.value.oid, b.operation.value.settled.value))
      && (b.operation.Some? ==> Refusal(b, req, aborted).Some?)
  {
    hide Reach;
    RunSteady(steps);
  }

  /** A refused request leaves the waiting call, and everything else, as it was. */
  lemma RefusalChangesNothing(b: Bridge, req: Request, sink: Sink, aborted: bool)
    requires Sane(b)
    ensures Refusal(b, req, aborted).Some? ==> Respond(b, req, sink, aborted) == (b, Refusal(b, req, aborted))
    ensures Refusal(b, req, aborted).None? && req.input.ToolOutput? ==>
      b.session.Some? && b.session.value.waiting.Some? && b.session.value.waiting.value.arrival == req.input.callId
  {
    hide Begin, Release;
  }

  /** A response that was continued once is refused ever after, so no tool is answered twice by it. */
  lemma RepeatRefused(steps: seq<Step>, req: Request, aborted: bool)
    requires req.previous.Some? && req.previous.value in Reach(steps).history.continued
    ensures Refusal(Reach(steps), req, aborted).Some?
    ensures forall sink :: Respond(Reach(steps), req, sink, aborted).0 == Reach(steps)
  {
    RunSteady(steps);
  }

  /** A response that was not the latest of the live session, or that failed, cannot be continued. */
  lemma OnlyLatestContinues(steps: seq<Step>, req: Request, aborted: bool)
    requires req.previous.Some? && Refusal(Reach(steps), req, aborted).None?
    ensures var b := Reach(steps);
      var id := req.previous.value;
      && b.session.Some? && b.session.value.lastResponse == Some(id)
      && id < |b.history.settled| && b.history.settled[id] == (id, Resolved)
      && id !in b.history.continued && !b.busy
  {
    RunSteady(steps);
  }

  /** An idle session always has its timer armed, and expires by it; a busy bridge has none to expire. */
  lemma IdleSessionExpires(steps: seq<Step>)
    ensures var b := Reach(steps);
      && (b.session.Some? && !b.busy ==> b.timer && Next(b, ExpireStep).session.None?)
      && (b.busy ==> Next(b, ExpireStep) == b)
  {
    RunSteady(steps);
    hide Reach, Release, SettledInOrder, ContinuedOnce;
  }

  /**
    A timeout or a disconnect in any reachable state rejects the running operation and ends its session;
    whatever was settled before stays, so that every operation begun so far is settled, once and in its
    order. Once the request has returned, a new conversation is accepted exactly when the bridge is not
    closed, and nothing of the old session can be continued.
   */
  lemma StopThenFresh(steps: seq<Step>, step: Step, req: Request)
    requires Unsettled(Reach(steps)) && (step.AbortStep? || step.TimeoutStep?)
    ensures var b := Reach(steps);
      var stopped := Next(b, step);
      var after := Next(stopped, FinalizeStep);
      && stopped.session.None? && after.session.None? && !after.busy && after.operation.None?
      && after.history.settled == b.history.settled +
           [(b.operation.value.oid, Rejected(if step.AbortStep? then ClientDisconnected else GenerationTimeout))]
      && |after.history.settled| == after.nextOperation
      && (forall i :: 0 <= i < |after.history.settled| ==> after.history.settled[i].0 == i)
      && (ValidRequest(req) ==> (Refusal(after, req, false).None? <==> req.previous.None? && !b.closed))
  {
    RunSteady(steps);
    var b := Reach(steps);
    hide Fail, Reach, ContinuedOnce;
    FailGood(b, if step.AbortStep? then ClientDisconnected else GenerationTimeout);
  }
}
