/**
  Every server request is answered exactly once or still outstanding in the live session.

  The statement is about the ledger of requests and answers and the list of outstanding calls, so each
  step is described by what it does to those two, and the bookkeeping is proved on them alone.
 */
module BridgeCalls {
  import opened Wrappers
  import opened ResponseSegments
  import opened BridgeState
  import opened BridgeOperations

  function OutCalls(b: Bridge): seq<Call> {
    if b.session.None? then [] else Outstanding(b.session.value)
  }

  ghost predicate Answered(answers: seq<Answer>, n: nat) {
    exists i :: 0 <= i < |answers| && answers[i].arrival == n
  }

  ghost predicate Holds(out: seq<Call>, n: nat) {
    exists i :: 0 <= i < |out| && out[i].arrival == n
  }

  /** Answers belong to requests, no request has two, and tool results are in arrival order. */
  ghost predicate AnswersSound(l: Ledger) {
    && (forall i :: 0 <= i < |l.answers| ==>
          l.answers[i].arrival < |l.received| && l.answers[i].rpcId == l.received[l.answers[i].arrival]
          && l.answers[i].arrival !in l.lost)
    && (forall n :: n in l.lost ==> n < |l.received|)
    && (forall i, j :: 0 <= i < j < |l.answers| ==> l.answers[i].arrival != l.answers[j].arrival)
    && (forall i, j :: 0 <= i < j < |l.answers| && l.answers[i].body.ToolResult? && l.answers[j].body.ToolResult?
          ==> l.answers[i].arrival < l.answers[j].arrival)
  }

  /** Outstanding calls are unanswered requests in arrival order, later than every tool result sent. */
  ghost predicate OutSound(l: Ledger, out: seq<Call>) {
    && (forall i :: 0 <= i < |out| ==>
          out[i].arrival < |l.received| && out[i].rpcId == l.received[out[i].arrival] && out[i].arrival !in l.lost)
    && (forall i, j :: 0 <= i < j < |out| ==> out[i].arrival < out[j].arrival)
    && (forall i, j :: 0 <= i < |out| && 0 <= j < |l.answers| ==> out[i].arrival != l.answers[j].arrival)
    && (forall i, j :: 0 <= i < |out| && 0 <= j < |l.answers| && l.answers[j].body.ToolResult?
          ==> l.answers[j].arrival < out[i].arrival)
  }

  ghost predicate AllAccounted(l: Ledger, out: seq<Call>) {
    forall n: nat :: n < |l.received| ==> n in l.lost || Answered(l.answers, n) || Holds(out, n)
  }

  ghost predicate Balanced(l: Ledger, out: seq<Call>) {
    AnswersSound(l) && OutSound(l, out) && AllAccounted(l, out)
  }

  // ---------------------------------------------------------------------------
  // The ledger
  // ---------------------------------------------------------------------------

  lemma AnsweredSnoc(answers: seq<Answer>, a: Answer, n: nat)
    ensures Answered(answers + [a], n) <==> Answered(answers, n) || a.arrival == n
  {
    if Answered(answers, n) {
      var i :| 0 <= i < |answers| && answers[i].arrival == n;
      assert (answers + [a])[i].arrival == n;
    }
    if a.arrival == n {
      assert (answers + [a])[|answers|].arrival == n;
    }
  }

  /** The first outstanding call leaves, answered. */
  lemma AnswerFirst(l: Ledger, out: seq<Call>, body: AnswerBody)
    requires Balanced(l, out) && out != []
    ensures Balanced(l.(answers := l.answers + [Answer(out[0].arrival, out[0].rpcId, body)]), out[1..])
  {
    AnswerFirstAccounted(l, out, Answer(out[0].arrival, out[0].rpcId, body));
    hide AllAccounted;
  }

  lemma AnswerFirstAccounted(l: Ledger, out: seq<Call>, a: Answer)
    requires AllAccounted(l, out) && out != [] && a.arrival == out[0].arrival
    ensures AllAccounted(l.(answers := l.answers + [a]), out[1..])
  {
    forall n: nat | n < |l.received| ensures n in l.lost || Answered(l.answers + [a], n) || Holds(out[1..], n) {
      AnsweredSnoc(l.answers, a, n);
      HoldsRest(out, n);
    }
  }

  lemma HoldsRest(out: seq<Call>, n: nat)
    requires out != []
    ensures Holds(out, n) <==> out[0].arrival == n || Holds(out[1..], n)
  {
    if Holds(out[1..], n) {
      var i :| 0 <= i < |out| - 1 && out[1..][i].arrival == n;
      assert out[i + 1].arrival == n;
    }
    if Holds(out, n) && out[0].arrival != n {
      var i :| 0 <= i < |out| && out[i].arrival == n;
      assert out[1..][i - 1].arrival == n;
    }
  }

  /** The first outstanding call leaves, and the transport could not take its answer. */
  lemma LoseFirst(l: Ledger, out: seq<Call>)
    requires Balanced(l, out) && out != []
    ensures Balanced(l.(lost := l.lost + {out[0].arrival}), out[1..])
  {
    forall n: nat | n < |l.received| && !Answered(l.answers, n) && n !in l.lost + {out[0].arrival} ensures Holds(out[1..], n) {
      HoldsRest(out, n);
    }
  }

  /** Releasing a session leaves nothing outstanding and answers each of its calls once. */
  lemma {:induction false} CancelAllBalances(l: Ledger, rpc: Rpc, out: seq<Call>)
    requires Balanced(l, out)
    ensures Balanced(CancelAll(l, rpc, out), [])
    decreases |out|
  {
    if out == [] {
      assert l.answers + Cancellations([]) == l.answers;
      assert l.lost + Arrivals([]) == l.lost;
    } else {
      CancelFirst(l, rpc, out);
      if rpc == Open {
        AnswerFirst(l, out, Cancelled);
        CancelAllBalances(l.(answers := l.answers + [Answer(out[0].arrival, out[0].rpcId, Cancelled)]), rpc, out[1..]);
      } else {
        LoseFirst(l, out);
        CancelAllBalances(l.(lost := l.lost + {out[0].arrival}), rpc, out[1..]);
      }
    }
  }

  /** A new request is queued last. */
  lemma QueueLast(l: Ledger, out: seq<Call>, call: Call)
    requires Balanced(l, out) && call.arrival == |l.received|
    ensures Balanced(l.(received := l.received + [call.rpcId]), out + [call])
  {
    hide Answered;
    var q := l.(received := l.received + [call.rpcId]);
    forall n: nat | n < |q.received| && n !in q.lost && !Answered(q.answers, n) ensures Holds(out + [call], n) {
      if n == |l.received| {
        assert (out + [call])[|out|].arrival == n;
      } else {
        var i :| 0 <= i < |out| && out[i].arrival == n;
        assert (out + [call])[i].arrival == n;
      }
    }
  }

  /** A new request is refused. */
  lemma RefuseNew(l: Ledger, out: seq<Call>, rpcId: nat)
    requires Balanced(l, out)
    ensures Balanced(l.(received := l.received + [rpcId],
                        answers := l.answers + [Answer(|l.received|, rpcId, Refused)]), out)
  {
    RefuseNewAccounted(l, out, rpcId);
    hide AllAccounted;
  }

  /** A new request meets a transport that is not open. */
  lemma LoseNew(l: Ledger, out: seq<Call>, rpcId: nat)
    requires Balanced(l, out)
    ensures Balanced(l.(received := l.received + [rpcId], lost := l.lost + {|l.received|}), out)
  {
    RefuseNewAccounted(l, out, rpcId);
    hide AllAccounted;
  }

  lemma RefuseNewAccounted(l: Ledger, out: seq<Call>, rpcId: nat)
    requires AllAccounted(l, out)
    ensures var q := l.(received := l.received + [rpcId]);
      && AllAccounted(q.(answers := q.answers + [Answer(|l.received|, rpcId, Refused)]), out)
      && AllAccounted(q.(lost := q.lost + {|l.received|}), out)
  {
    var a := Answer(|l.received|, rpcId, Refused);
    forall n: nat ensures Answered(l.answers + [a], n) <==> Answered(l.answers, n) || n == |l.received| {
      AnsweredSnoc(l.answers, a, n);
    }
  }

  // ---------------------------------------------------------------------------
  // The steps
  // ---------------------------------------------------------------------------

  ghost predicate Kept(b: Bridge) { Balanced(b.ledger, OutCalls(b)) }

  lemma WithinKept(b: Bridge, c: Bridge)
    requires Kept(b) && Within(b, c)
    ensures Kept(c)
  {
    assert c.ledger == b.ledger && OutCalls(c) == OutCalls(b);
  }

  lemma ThroughKept(b: Bridge, c: Bridge)
    requires Kept(b) && Through(b, c)
    ensures Kept(c)
  {
    hide Balanced;
    WithinKept(b, c.(wire := b.wire, delivery := b.delivery));
  }

  lemma ReleasedKept(b: Bridge, c: Bridge)
    requires Kept(b) && Released(b, c)
    ensures Kept(c) && OutCalls(c) == []
  {
    CancelAllBalances(b.ledger, b.rpc, OutCalls(b));
  }

  /** The step has no business with server requests. */
  ghost predicate SameCalls(b: Bridge, c: Bridge) {
    c.ledger == b.ledger && OutCalls(c) == OutCalls(b)
  }

  lemma SameKept(b: Bridge, c: Bridge)
    requires Kept(b) && SameCalls(b, c)
    ensures Kept(c)
  {
  }

  lemma FailKept(b: Bridge, error: Fault)
    requires Sane(b) && Kept(b)
    ensures Kept(Fail(b, error))
  {
    hide *;
    ReleasedKept(b, Fail(b, error));
  }

  lemma DriveFaultKept(b: Bridge, oid: nat, fault: Option<Fault>)
    requires Sane(b) && Kept(b)
    ensures Kept(DriveFault(b, oid, fault))
  {
    hide Fail, Kept;
    if fault.Some? {
      FailKept(b, fault.value);
    }
  }

  lemma HandleKept(e: Effect)
    requires Sane(e.bridge) && Kept(e.bridge)
    ensures Kept(Handle(e))
  {
    hide Fail, Kept;
    if e.fault.Some? {
      FailKept(e.bridge, e.fault.value);
    }
  }

  lemma AnswerWaitingKept(b: Bridge, output: string)
    requires Kept(b) && b.session.Some? && b.session.value.waiting.Some?
    ensures Kept(AnswerWaiting(b, output)) && Kept(LoseWaiting(b))
  {
    var s := b.session.value;
    assert Outstanding(s) == [s.waiting.value] + s.pending;
    assert Outstanding(s.(waiting := None)) == s.pending;
    LoseFirst(b.ledger, OutCalls(b));
    AnswerFirst(b.ledger, OutCalls(b), ToolResult(output));
    assert OutCalls(AnswerWaiting(b, output)) == OutCalls(b)[1..];
    assert OutCalls(LoseWaiting(b)) == OutCalls(b)[1..];
    hide Balanced;
  }

  lemma ResumeKept(b: Bridge, output: string)
    requires Sane(b) && Kept(b) && b.session.Some?
    ensures Kept(Resume(b, output).bridge)
  {
    hide Kept, ConsumeAll, FlushTool;
    if b.session.value.waiting.Some? {
      AnswerWaitingKept(b, output);
      var r := ConsumeAll(AnswerWaiting(b, output), b.session.value.buffered);
      ThroughKept(AnswerWaiting(b, output), r.bridge);
      if r.fault.None? {
        WithinKept(r.bridge, FlushTool(r.bridge).bridge);
      }
    }
  }

  lemma WithThreadKept(b: Bridge, oid: nat, req: Request)
    requires Sane(b) && Kept(b) && b.session.Some? && b.session.value.threadId.Some?
    ensures Kept(WithThread(b, oid, req))
  {
    hide Resume, DriveFault, Balanced;
    if req.input.ToolOutput? {
      ResumeKept(b, req.input.output);
      var r := Resume(b, req.input.output);
      DriveFaultKept(r.bridge, oid, r.fault);
    }
  }

  lemma AfterStartKept(b: Bridge, sid: nat, oid: nat, req: Request)
    requires Sane(b) && Kept(b)
    ensures Kept(AfterStart(b, sid, oid, req))
  {
    hide WithThread, Balanced;
    if Live(b, sid) && b.session.value.threadId.Some? {
      WithThreadKept(b, oid, req);
    }
  }

  lemma EnterKept(b: Bridge, sink: Sink)
    requires Kept(b) && b.session.Some?
    ensures Kept(Enter(b, sink))
  {
    hide Start, Fail, Balanced;
    var start := Start(Fresh, sink);
    var entered := Entering(b, sink, start.seg);
    SameKept(b, entered);
    if start.fault.Some? {
      FailKept(entered, start.fault.value);
    }
  }

  lemma LaunchKept(b: Bridge, oid: nat, req: Request)
    requires Sane(b) && Kept(b) && b.session.Some?
    ensures Kept(Launch(b, oid, req))
  {
    hide DriveFault, AfterStart, Balanced;
    DriveFaultKept(b, oid, Some(RpcError));
    AfterStartKept(b, b.session.value.sid, oid, req);
  }

  lemma BeginKept(b: Bridge, req: Request, sink: Sink, aborted: bool)
    requires Kept(b) && b.session.Some?
    ensures Kept(Begin(b, req, sink, aborted))
  {
    hide Enter, Launch, Fail, Balanced;
    var entered := Enter(b, sink);
    EnterKept(b, sink);
    FailKept(entered, ClientDisconnected);
    if Unsettled(entered) && entered.session.Some? {
      LaunchKept(entered, b.nextOperation, req);
    }
  }

  lemma RespondKept(b: Bridge, req: Request, sink: Sink, aborted: bool)
    requires Sane(b) && Kept(b)
    ensures Kept(Respond(b, req, sink, aborted).0)
  {
    hide Release, Begin, Balanced;
    if Refusal(b, req, aborted).None? {
      if req.previous.None? {
        var taken := b.(busy := true, timer := false, starting := Some(Starting(req, sink)));
        SameKept(b, taken);
        ReleasedKept(taken, Release(taken));
      } else {
        SameKept(b, Continue(b, req.previous.value));
        BeginKept(Continue(b, req.previous.value), req, sink, false);
      }
    }
  }

  lemma ProceedKept(b: Bridge, aborted: bool)
    requires Sane(b) && Kept(b) && (b.starting.Some? ==> b.session.None?)
    ensures Kept(Proceed(b, aborted))
  {
    hide Begin, Balanced;
    if b.starting.Some? && b.starting.value.req.model.Some? {
      var req := b.starting.value.req;
      SameKept(b, Create(b, req));
      BeginKept(Create(b, req), req, b.starting.value.sink, aborted);
    }
  }

  lemma OnStartedKept(b: Bridge, k: nat, ok: bool)
    requires Sane(b) && Kept(b) && k in b.tasks && b.tasks[k].AwaitStart?
    ensures Kept(OnStarted(b, k, ok))
  {
    hide DriveFault, AfterStart, Balanced;
    var t := b.tasks[k];
    var c := RemoveTask(b, k);
    SameKept(b, c);
    SameKept(b, c.(rpc := Open));
    DriveFaultKept(c, t.oid, Some(RpcError));
    AfterStartKept(c.(rpc := Open), t.sid, t.oid, t.req);
  }

  lemma OnThreadKept(b: Bridge, k: nat, ok: bool, id: Option<ThreadId>, model: Option<string>)
    requires Sane(b) && Kept(b) && k in b.tasks && b.tasks[k].AwaitThread?
    ensures Kept(OnThread(b, k, ok, id, model))
  {
    hide DriveFault, WithThread, Balanced;
    var t := b.tasks[k];
    var c := RemoveTask(b, k);
    SameKept(b, c);
    DriveFaultKept(c, t.oid, Some(RpcError));
    DriveFaultKept(c, t.oid, Some(InvalidUpstreamEvent));
    if ok && id.Some? && Live(b, t.sid) {
      var attached := Attach(Return(c, t.sid, id.value), id.value);
      SameKept(b, attached);
      DriveFaultKept(attached, t.oid, Some(ModelMismatch));
      WithThreadKept(attached, t.oid, t.req);
    }
  }

  lemma OnTurnKept(b: Bridge, k: nat, ok: bool, id: Option<TurnId>)
    requires Sane(b) && Kept(b) && k in b.tasks && b.tasks[k].AwaitTurn?
    ensures Kept(OnTurn(b, k, ok, id))
  {
    hide DriveFault, Balanced;
    var c := RemoveTask(b, k);
    SameKept(b, c);
    DriveFaultKept(c, b.tasks[k].oid, Some(RpcError));
    DriveFaultKept(c, b.tasks[k].oid, Some(InvalidUpstreamEvent));
  }

  lemma QueueKept(b: Bridge, r: ServerRequest)
    requires Sane(b) && Kept(b) && b.session.Some? && Acceptable(b.session.value, r)
    ensures Kept(Queue(b, r))
  {
    hide Balanced;
    var s := b.session.value;
    var call := Call(r.rpcId, |b.ledger.received|, s.config.tools.names[r.toolIndex.value], r.args.value);
    QueueLast(b.ledger, OutCalls(b), call);
    QueueOut(b, r, call);
  }

  lemma QueueOut(b: Bridge, r: ServerRequest, call: Call)
    requires b.session.Some? && Acceptable(b.session.value, r)
    requires call == Call(r.rpcId, |b.ledger.received|, b.session.value.config.tools.names[r.toolIndex.value], r.args.value)
    ensures OutCalls(Queue(b, r)) == OutCalls(b) + [call]
    ensures Queue(b, r).ledger == b.ledger.(received := b.ledger.received + [r.rpcId])
  {
    hide Acceptable, Sane;
  }

  lemma RefuseKept(b: Bridge, rpcId: nat)
    requires Sane(b) && Kept(b)
    ensures Sane(Refuse(Count(b, rpcId), |b.ledger.received|, rpcId))
    ensures Kept(Refuse(Count(b, rpcId), |b.ledger.received|, rpcId))
  {
    RefuseNew(b.ledger, OutCalls(b), rpcId);
    LoseNew(b.ledger, OutCalls(b), rpcId);
    hide Balanced;
  }

  lemma OnServerRequestKept(b: Bridge, r: ServerRequest)
    requires Sane(b) && Kept(b)
    ensures Kept(OnServerRequest(b, r))
  {
    hide *;
    ServerRequestCases(b, r);
    if b.session.Some? && Acceptable(b.session.value, r) {
      QueueKept(b, r);
      WithinKept(Queue(b, r), FlushTool(Queue(b, r)).bridge);
      HandleKept(FlushTool(Queue(b, r)));
    }
    RefuseKept(b, r.rpcId);
    var refused := Refuse(Count(b, r.rpcId), |b.ledger.received|, r.rpcId);
    FailKept(refused, InvalidUpstreamEvent);
    FailKept(refused, UnsupportedServerAction);
    FailKept(refused, InvalidToolCall);
  }

  lemma DispatchKept(b: Bridge, n: Note)
    requires Sane(b) && Kept(b) && b.session.Some?
    ensures Kept(Dispatch(b, n))
  {
    hide HandOver, Handle, Fail, Balanced, Through;
    SameKept(b, Arrive(b, n));
    ThroughKept(Arrive(b, n), HandOver(Arrive(b, n), n).bridge);
    HandleKept(HandOver(Arrive(b, n), n));
    SameKept(b, Buffer(b, n));
    FailKept(Buffer(b, n), UpstreamBufferLimit);
  }

  lemma StartTurnKept(b: Bridge, turn: Option<TurnId>)
    requires Kept(b) && b.session.Some?
    ensures Kept(StartTurnNote(b, turn))
  {
    hide Balanced;
    SameKept(b, StartTurnNote(b, turn));
  }

  lemma OnNoteKept(b: Bridge, ref: ThreadRef, n: Note)
    requires Sane(b) && Kept(b)
    ensures Kept(OnNote(b, ref, n))
  {
    hide *;
    NoteCases(b, ref, n);
    FailKept(b, InvalidUpstreamEvent);
    FailKept(b, UpstreamTurnFailed);
    FailKept(b, UnsupportedServerAction);
    if b.session.Some? {
      DispatchKept(b, n);
      if n.body.TurnStarted? && n.body.turn.Some? {
        StartTurnKept(b, n.body.turn.value.id);
      }
    }
  }

  lemma StopKept(b: Bridge, step: Step)
    requires Sane(b) && Kept(b)
    requires step.AbortStep? || step.TimeoutStep? || step.ExpireStep? || step.FinalizeStep? || step.ExitStep?
      || step.CloseStep? || step.InterruptedStep?
    ensures Kept(Next(b, step))
  {
    hide Fail, Release, Balanced;
    match step
    case AbortStep => FailKept(b, ClientDisconnected);
    case TimeoutStep => FailKept(b, GenerationTimeout);
    case ExpireStep => ReleasedKept(b, Release(b));
    case InterruptedStep(k) => SameKept(b, Next(b, step));
    case FinalizeStep => SameKept(b, Next(b, step));
    case ExitStep => ExitKept(b);
    case CloseStep => CloseKept(b);
  }

  lemma ExitKept(b: Bridge)
    requires Sane(b) && Kept(b)
    ensures Kept(Next(b, ExitStep))
  {
    hide Fail, Balanced;
    SameKept(b, b.(closed := true, rpc := Closed));
    FailKept(b.(closed := true, rpc := Closed), CodexUnavailable);
  }

  lemma CloseKept(b: Bridge)
    requires Sane(b) && Kept(b)
    ensures Kept(Next(b, CloseStep))
  {
    hide Fail, Release, Balanced;
    FailKept(b, BridgeShutdown);
    var c := (if Unsettled(b) then Fail(b, BridgeShutdown) else b).(closed := true);
    ReleasedKept(c, Release(c));
  }

  lemma NextKept(b: Bridge, step: Step)
    requires Steady(b) && Kept(b)
    ensures Kept(Next(b, step))
  {
    hide Kept, Respond, Proceed, OnStarted, OnThread, OnTurn, OnNote, OnServerRequest, Fail, Release;
    match step
    case RequestStep(req, sink, aborted) => RespondKept(b, req, sink, aborted);
    case ProceedStep(aborted) => ProceedKept(b, aborted);
    case StartedStep(k, ok) => TaskKept(b, step);
    case ThreadStep(k, ok, id, model) => TaskKept(b, step);
    case TurnStep(k, ok, turn) => TaskKept(b, step);
    case NoteStep(ref, n) => OnNoteKept(b, ref, n);
    case ServerStep(r) => OnServerRequestKept(b, r);
    case _ => StopKept(b, step);
  }

  lemma TaskKept(b: Bridge, step: Step)
    requires Sane(b) && Kept(b) && (step.StartedStep? || step.ThreadStep? || step.TurnStep?)
    ensures Kept(Next(b, step))
  {
    hide AfterStart, WithThread, DriveFault, Balanced;
    match step
    case StartedStep(k, ok) =>
      if k in b.tasks && b.tasks[k].AwaitStart? {
        OnStartedKept(b, k, ok);
      }
    case ThreadStep(k, ok, id, model) =>
      if k in b.tasks && b.tasks[k].AwaitThread? {
        OnThreadKept(b, k, ok, id, model);
      }
    case TurnStep(k, ok, turn) =>
      if k in b.tasks && b.tasks[k].AwaitTurn? {
        OnTurnKept(b, k, ok, turn);
      }
  }

  // ---------------------------------------------------------------------------
  // Every run
  // ---------------------------------------------------------------------------

  lemma {:induction false} RunKept(steps: seq<Step>)
    ensures Kept(Reach(steps))
  {
    if steps == [] {
      assert Kept(Initial);
    } else {
      var before := steps[..|steps| - 1];
      RunKept(before);
      RunSteady(before);
      NextKept(Reach(before), steps[|steps| - 1]);
    }
  }

  /**
    In every reachable state each server request is in exactly one place: outstanding in the live
    session, answered once with its own rpc id, or lost to a transport that was not open. Tool results
    were sent in arrival order.
   */
  lemma EveryRequestAccounted(steps: seq<Step>, n: nat)
    requires n < |Reach(steps).ledger.received|
    ensures var l := Reach(steps).ledger;
      var out := OutCalls(Reach(steps));
      && (n in l.lost || Answered(l.answers, n) || Holds(out, n))
      && !(n in l.lost && Answered(l.answers, n)) && !(n in l.lost && Holds(out, n))
      && !(Answered(l.answers, n) && Holds(out, n))
      && (forall i, j :: 0 <= i < |l.answers| && 0 <= j < |l.answers| && l.answers[i].arrival == n && l.answers[j].arrival == n
            ==> i == j && l.answers[i].rpcId == l.received[n])
      && (forall i, j :: 0 <= i < j < |l.answers| && l.answers[i].body.ToolResult? && l.answers[j].body.ToolResult?
            ==> l.answers[i].arrival < l.answers[j].arrival)
  {
    RunKept(steps);
  }

  /** The ledger only grew; and nothing was lost, and the transport stayed open, if it was open. */
  ghost predicate Tight(b: Bridge, c: Bridge) {
    && b.ledger.received <= c.ledger.received && b.ledger.answers <= c.ledger.answers
    && (b.rpc == Open ==> c.rpc == Open && c.ledger.lost == b.ledger.lost)
  }

  lemma EffectTight(b: Bridge, e: Effect, oid: nat)
    requires Sane(e.bridge) && Tight(b, e.bridge)
    ensures Tight(b, Handle(e)) && Tight(b, DriveFault(e.bridge, oid, e.fault))
  {
    hide Fail;
  }

  lemma ResumeTight(b: Bridge, output: string)
    requires Sane(b) && b.session.Some?
    ensures Tight(b, Resume(b, output).bridge)
  {
    hide ConsumeAll, FlushTool;
    assert b.session.value.waiting.Some? && b.rpc == Open ==>
      Tight(b, ConsumeAll(AnswerWaiting(b, output), b.session.value.buffered).bridge);
  }

  lemma AfterStartTight(b: Bridge, sid: nat, oid: nat, req: Request)
    requires Sane(b)
    ensures Tight(b, AfterStart(b, sid, oid, req))
    ensures b.session.Some? && b.session.value.threadId.Some? ==> Tight(b, WithThread(b, oid, req))
  {
    hide Resume, DriveFault;
    if b.session.Some? && req.input.ToolOutput? {
      ResumeTight(b, req.input.output);
      EffectTight(b, Resume(b, req.input.output), oid);
    }
  }

  lemma EnterTight(b: Bridge, sink: Sink)
    requires b.session.Some?
    ensures Tight(b, Enter(b, sink))
  {
    hide Start, Fail;
    var entered := Entering(b, sink, Start(Fresh, sink).seg);
    assert Sane(entered);
    FailTight(entered, SinkRefused);
  }

  lemma LaunchTight(b: Bridge, oid: nat, req: Request)
    requires Sane(b) && b.session.Some?
    ensures Tight(b, Launch(b, oid, req))
  {
    hide AfterStart, DriveFault;
    EffectTight(b, Effect(b, Some(RpcError)), oid);
    AfterStartTight(b, b.session.value.sid, oid, req);
  }

  lemma BeginTight(b: Bridge, req: Request, sink: Sink, aborted: bool)
    requires b.session.Some?
    ensures Tight(b, Begin(b, req, sink, aborted))
  {
    hide Enter, Fail, Launch;
    var entered := Enter(b, sink);
    EnterTight(b, sink);
    FailTight(entered, ClientDisconnected);
    if entered.session.Some? {
      LaunchTight(entered, b.nextOperation, req);
    }
  }

  lemma OnThreadTight(b: Bridge, k: nat, ok: bool, id: Option<ThreadId>, model: Option<string>)
    requires Sane(b) && k in b.tasks && b.tasks[k].AwaitThread?
    ensures Tight(b, OnThread(b, k, ok, id, model))
  {
    hide *;
    var t := b.tasks[k];
    var c := RemoveTask(b, k);
    ThreadCases(b, k, ok, id, model);
    SameTight(b, k, t.sid, id);
    EffectTight(b, Effect(c, Some(RpcError)), t.oid);
    EffectTight(b, Effect(c, Some(InvalidUpstreamEvent)), t.oid);
    if id.Some? && Live(b, t.sid) {
      AttachTight(b, k, t, id.value);
    }
  }

  lemma SameTight(b: Bridge, k: nat, sid: nat, id: Option<ThreadId>)
    requires Sane(b)
    ensures Sane(RemoveTask(b, k)) && Tight(b, RemoveTask(b, k))
    ensures id.Some? ==> Tight(b, Send(Return(RemoveTask(b, k), sid, id.value), Unsubscribe(sid, id.value)))
  {
  }

  lemma AttachTight(b: Bridge, k: nat, t: Task, id: ThreadId)
    requires Sane(b) && t.AwaitThread? && Live(b, t.sid)
    ensures var attached := Attach(Return(RemoveTask(b, k), t.sid, id), id);
            && Tight(b, DriveFault(attached, t.oid, Some(ModelMismatch)))
            && Tight(b, WithThread(attached, t.oid, t.req))
  {
    hide DriveFault, WithThread;
    var attached := Attach(Return(RemoveTask(b, k), t.sid, id), id);
    EffectTight(b, Effect(attached, Some(ModelMismatch)), t.oid);
    AfterStartTight(attached, t.sid, t.oid, t.req);
  }

  lemma DispatchTight(b: Bridge, n: Note)
    requires Sane(b) && b.session.Some?
    ensures Tight(b, Dispatch(b, n))
  {
    hide HandOver, Fail;
  }

  lemma FailTight(b: Bridge, error: Fault)
    requires Sane(b)
    ensures Tight(b, Fail(b, error))
  {
    hide Fail;
  }

  lemma StartTurnTight(b: Bridge, turn: Option<TurnId>)
    requires b.session.Some?
    ensures Tight(b, StartTurnNote(b, turn))
  {
  }

  lemma SelfTight(b: Bridge)
    ensures Tight(b, b)
  {
  }

  lemma RefuseTight(b: Bridge, rpcId: nat)
    requires Sane(b)
    ensures var refused := Refuse(Count(b, rpcId), |b.ledger.received|, rpcId);
      Sane(refused) && Tight(b, refused) && forall error: Fault :: Tight(b, Fail(refused, error))
  {
    hide Fail;
  }

  lemma QueueTight(b: Bridge, r: ServerRequest)
    requires Sane(b) && b.session.Some? && Acceptable(b.session.value, r)
    ensures Tight(b, Handle(FlushTool(Queue(b, r))))
  {
    hide FlushTool, Fail;
  }

  lemma ServerRequestTight(b: Bridge, r: ServerRequest)
    requires Sane(b)
    ensures Tight(b, OnServerRequest(b, r))
  {
    hide *;
    ServerRequestCases(b, r);
    RefuseTight(b, r.rpcId);
    if b.session.Some? && Acceptable(b.session.value, r) {
      QueueTight(b, r);
    }
  }

  lemma RequestTight(b: Bridge, step: Step)
    requires Sane(b) && b.rpc == Open && (step.RequestStep? || step.ProceedStep?)
    ensures Tight(b, Next(b, step))
  {
    hide Begin, Release, Refusal;
    match step
    case RequestStep(req, sink, aborted) => RespondTight(b, req, sink, aborted);
    case ProceedStep(aborted) =>
      if b.starting.Some? && b.starting.value.req.model.Some? {
        BeginTight(Create(b, b.starting.value.req), b.starting.value.req, b.starting.value.sink, aborted);
      }
  }

  lemma RespondTight(b: Bridge, req: Request, sink: Sink, aborted: bool)
    requires Sane(b)
    ensures Tight(b, Respond(b, req, sink, aborted).0)
  {
    hide Begin, Release;
    if Refusal(b, req, aborted).None? && req.previous.Some? {
      BeginTight(Continue(b, req.previous.value), req, sink, false);
    }
  }

  lemma TaskTight(b: Bridge, step: Step)
    requires Sane(b) && b.rpc == Open && (step.StartedStep? || step.TurnStep?)
    ensures Tight(b, Next(b, step))
  {
    hide OnStarted, OnTurn;
    if step.StartedStep? {
      StartedTight(b, step.task, step.ok);
    } else {
      TurnTight(b, step.task, step.ok, step.turn);
    }
  }

  lemma StartedTight(b: Bridge, k: nat, ok: bool)
    requires Sane(b) && b.rpc == Open
    ensures Tight(b, OnStarted(b, k, ok))
  {
    hide DriveFault, AfterStart;
    if k in b.tasks && b.tasks[k].AwaitStart? {
      var t := b.tasks[k];
      EffectTight(b, Effect(RemoveTask(b, k), Some(RpcError)), t.oid);
      AfterStartTight(RemoveTask(b, k).(rpc := Open), t.sid, t.oid, t.req);
    }
  }

  lemma TurnTight(b: Bridge, k: nat, ok: bool, id: Option<TurnId>)
    requires Sane(b)
    ensures Tight(b, OnTurn(b, k, ok, id))
  {
    if k in b.tasks && b.tasks[k].AwaitTurn? {
      hide *;
      var c := RemoveTask(b, k);
      TurnCases(b, k, ok, id);
      TurnLogsTight(b, k, b.tasks[k].sid, id);
      EffectTight(b, Effect(c, Some(RpcError)), b.tasks[k].oid);
      EffectTight(b, Effect(c, Some(InvalidUpstreamEvent)), b.tasks[k].oid);
    } else {
      hide DriveFault;
    }
  }

  lemma TurnLogsTight(b: Bridge, k: nat, sid: nat, id: Option<TurnId>)
    requires Sane(b)
    ensures var c := RemoveTask(b, k);
      && Sane(c) && Tight(b, c)
      && (id.Some? ==> Tight(b, Hear(c, sid, id.value)))
      && (id.Some? && b.session.Some? ==> Tight(b, LearnTurn(c, id.value)))
      && (id.Some? && sid in b.wire.threadOf ==> Tight(b, RetireLate(c, sid, b.wire.threadOf[sid], id.value)))
  {
  }

  lemma StopTight(b: Bridge, step: Step)
    requires Sane(b) && !step.ExitStep?
    requires step.AbortStep? || step.TimeoutStep? || step.ExpireStep? || step.FinalizeStep? || step.CloseStep? || step.InterruptedStep?
    ensures Tight(b, Next(b, step))
  {
    hide Fail, Release;
  }

  /** While the transport is open nothing is lost: a step that releases the session answers all its calls. */
  lemma NothingLostWhileOpen(b: Bridge, step: Step)
    requires Sane(b) && b.rpc == Open && !step.ExitStep?
    ensures Next(b, step).rpc == Open && Next(b, step).ledger.lost == b.ledger.lost
    ensures b.ledger.received <= Next(b, step).ledger.received && b.ledger.answers <= Next(b, step).ledger.answers
  {
    hide Respond, Proceed, OnStarted, OnThread, OnTurn, OnNote, OnServerRequest, Fail, Release;
    match step
    case RequestStep(_, _, _) => RequestTight(b, step);
    case ProceedStep(_) => RequestTight(b, step);
    case StartedStep(_, _) => TaskTight(b, step);
    case TurnStep(_, _, _) => TaskTight(b, step);
    case ThreadStep(k, ok, id, model) => ThreadTight(b, k, ok, id, model);
    case NoteStep(ref, n) => NoteTight(b, ref, n);
    case ServerStep(r) => ServerRequestTight(b, r);
    case _ => StopTight(b, step);
  }

  lemma ThreadTight(b: Bridge, k: nat, ok: bool, id: Option<ThreadId>, model: Option<string>)
    requires Sane(b)
    ensures Tight(b, OnThread(b, k, ok, id, model))
  {
    hide WithThread, DriveFault;
    if k in b.tasks && b.tasks[k].AwaitThread? {
      OnThreadTight(b, k, ok, id, model);
    }
  }

  lemma NoteTight(b: Bridge, ref: ThreadRef, n: Note)
    requires Sane(b)
    ensures Tight(b, OnNote(b, ref, n))
  {
    hide *;
    NoteCases(b, ref, n);
    SelfTight(b);
    FailTight(b, InvalidUpstreamEvent);
    FailTight(b, UpstreamTurnFailed);
    FailTight(b, UnsupportedServerAction);
    if b.session.Some? {
      DispatchTight(b, n);
      if n.body.TurnStarted? && n.body.turn.Some? {
        StartTurnTight(b, n.body.turn.value.id);
      }
    }
  }

  /**
    However a session ends while the transport is open, by a failure, a timeout, a disconnect, a new
    conversation, its expiry or the shutdown, each of its outstanding calls has exactly one answer after
    that very step, under its own rpc id, and the answers given before stay.
   */
  lemma SessionEndAnswersAll(steps: seq<Step>, step: Step, i: nat)
    requires Reach(steps).rpc == Open && !step.ExitStep? && i < |OutCalls(Reach(steps))|
    requires Next(Reach(steps), step).session.None?
    ensures var call := OutCalls(Reach(steps))[i];
      var l := Next(Reach(steps), step).ledger;
      && !Answered(Reach(steps).ledger.answers, call.arrival)
      && (exists k :: 0 <= k < |l.answers| && l.answers[k].arrival == call.arrival && l.answers[k].rpcId == call.rpcId
            && forall j :: 0 <= j < |l.answers| && l.answers[j].arrival == call.arrival ==> j == k)
  {
    var b := Reach(steps);
    var c := Next(b, step);
    var call := OutCalls(b)[i];
    RunSteady(steps);
    RunKept(steps);
    NextKept(b, step);
    NothingLostWhileOpen(b, step);
    assert AllAccounted(c.ledger, OutCalls(c));
    var k :| 0 <= k < |c.ledger.answers| && c.ledger.answers[k].arrival == call.arrival;
  }
}
