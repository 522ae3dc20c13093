/**
  What each upstream event and each client request does to the session, case by case, in every state.

  The cases are told by the fields of the event and of the session, without reference to how the program
  decides between them, and they leave no event out.
 */
module BridgeFilters {
  import opened Wrappers
  import opened ResponseSegments
  import opened BridgeState
  import opened BridgeDelivery

  /** The event names the live session's thread; an explicit null names a session that has none. */
  predicate Reaches(b: Bridge, ref: ThreadRef) {
    && b.session.Some?
    && ((ref.Thread? && b.session.value.threadId == Some(ref.id)) || (ref.Null? && b.session.value.threadId.None?))
  }

  /** The session is gone; the operation that was running, if any, is rejected with the fault, and only that. */
  ghost predicate EndedBy(b: Bridge, c: Bridge, fault: Fault) {
    && c.session.None?
    && (if b.operation.Some? && b.operation.value.settled.None? then
          && c.operation.Some? && c.operation.value.oid == b.operation.value.oid
          && c.operation.value.settled == Some(Rejected(fault)) && c.operation.value.seg.finished
          && c.history == b.history.(settled := b.history.settled + [(b.operation.value.oid, Rejected(fault))])
        else c.operation == b.operation && c.history == b.history)
  }

  lemma FailEnds(b: Bridge, fault: Fault)
    requires Sane(b)
    ensures EndedBy(b, Fail(b, fault), fault)
  {
    hide Release, CancelAll, Outstanding, Abandon;
  }

  // ---------------------------------------------------------------------------
  // Notifications
  // ---------------------------------------------------------------------------

  /** A note of another turn than the session's. */
  predicate OtherTurn(b: Bridge, n: Note)
    requires b.session.Some?
  {
    n.turnId.Some? && b.session.value.turnId.Some? && n.turnId.value != b.session.value.turnId.value
  }

  /** Text, a completed item, or the end of a turn. */
  predicate Substance(n: Note) { n.body.MessageDelta? || n.body.ItemCompleted? || n.body.TurnCompleted? }

  /** A kind that is looked at for its turn and for a blocked item: substance, and all kinds not named. */
  predicate Examined(n: Note) { Substance(n) || n.body.OtherNote? }

  /**
    Notes that change nothing at all: those for no session or another thread, token usage, errors that will
    be retried, examined notes of another turn, and kinds that are not consumed, unless their item is blocked.
   */
  lemma NotesIgnored(b: Bridge, ref: ThreadRef, n: Note)
    requires Sane(b)
    requires
      || !Reaches(b, ref)
      || n.body.TokenUsage?
      || (n.body.UpstreamError? && n.body.willRetry)
      || (Examined(n) && OtherTurn(b, n))
      || (n.body.OtherNote? && !n.blocked)
    ensures Next(b, NoteStep(ref, n)) == b
  {
  }

  /**
    Notes that end the session, and reject a running operation with the fault named here: a started turn that
    is malformed, an error that will not be retried, and a blocked item of the session's turn.
   */
  lemma NotesFatal(b: Bridge, ref: ThreadRef, n: Note)
    requires Sane(b) && Reaches(b, ref)
    ensures n.body.TurnStarted? && n.body.turn.None? ==>
      EndedBy(b, Next(b, NoteStep(ref, n)), InvalidUpstreamEvent)
    ensures n.body.UpstreamError? && !n.body.willRetry ==>
      EndedBy(b, Next(b, NoteStep(ref, n)), UpstreamTurnFailed)
    ensures Examined(n) && !OtherTurn(b, n) && n.blocked ==>
      EndedBy(b, Next(b, NoteStep(ref, n)), UnsupportedServerAction)
  {
    FatalNote(b, ref, n);
    FailEnds(b, InvalidUpstreamEvent);
    FailEnds(b, UpstreamTurnFailed);
    FailEnds(b, UnsupportedServerAction);
    hide Fail, EndedBy, Next;
  }

  lemma FatalNote(b: Bridge, ref: ThreadRef, n: Note)
    requires Sane(b) && Reaches(b, ref)
    ensures n.body.TurnStarted? && n.body.turn.None? ==> Next(b, NoteStep(ref, n)) == Fail(b, InvalidUpstreamEvent)
    ensures n.body.UpstreamError? && !n.body.willRetry ==> Next(b, NoteStep(ref, n)) == Fail(b, UpstreamTurnFailed)
    ensures Examined(n) && !OtherTurn(b, n) && n.blocked ==> Next(b, NoteStep(ref, n)) == Fail(b, UnsupportedServerAction)
  {
    hide Fail, Dispatch, StartTurnNote;
  }

  /** A started turn becomes the session's turn, and nothing else of the session or the operation changes. */
  lemma NotesStartTurn(b: Bridge, ref: ThreadRef, n: Note)
    requires Sane(b) && Reaches(b, ref) && n.body.TurnStarted? && n.body.turn.Some?
    ensures var c := Next(b, NoteStep(ref, n));
      && c.session == Some(b.session.value.(turnId := n.body.turn.value.id))
      && c.(session := b.session, wire := b.wire) == b && c.wire.sent == b.wire.sent
  {
    StartedNote(b, ref, n);
    hide Next;
  }

  lemma StartedNote(b: Bridge, ref: ThreadRef, n: Note)
    requires Sane(b) && Reaches(b, ref) && n.body.TurnStarted? && n.body.turn.Some?
    ensures Next(b, NoteStep(ref, n)) == StartTurnNote(b, n.body.turn.value.id)
  {
    hide StartTurnNote, Fail, Dispatch;
  }

  /** The note is substance of the session's turn, not blocked. */
  predicate Counts(b: Bridge, ref: ThreadRef, n: Note) {
    Reaches(b, ref) && Substance(n) && !OtherTurn(b, n) && !n.blocked
  }

  /**
    Exactly the substance of the session's turn arrives: each such note is handed to the running segment, or
    joins the buffer if none runs, where one too many ends the session; no other note is handed out or kept.
   */
  lemma NotesArrive(b: Bridge, ref: ThreadRef, n: Note)
    requires Sane(b)
    ensures var d, e := b.delivery, Next(b, NoteStep(ref, n)).delivery;
      && e.arrived == (if Counts(b, ref, n) then d.arrived + [n] else d.arrived)
      && e.handed == (if Counts(b, ref, n) && Generating(b) then d.handed + [n] else d.handed)
      && e.dropped == d.dropped && e.mark == d.mark
    ensures Counts(b, ref, n) && !Generating(b) ==>
      var c := Next(b, NoteStep(ref, n));
      if |b.session.value.buffered| < 4096 then c.session == Some(b.session.value.(buffered := b.session.value.buffered + [n]))
      else EndedBy(b, c, UpstreamBufferLimit)
  {
    if Counts(b, ref, n) {
      CountedDispatched(b, ref, n);
      DispatchArrives(b, n);
    } else if !Reaches(b, ref) || n.body.TokenUsage? || (n.body.UpstreamError? && n.body.willRetry)
      || (Examined(n) && OtherTurn(b, n)) || (n.body.OtherNote? && !n.blocked) {
      NotesIgnored(b, ref, n);
    } else if n.body.TurnStarted? && n.body.turn.Some? {
      NotesStartTurn(b, ref, n);
    } else {
      UncountedFails(b, ref, n);
    }
  }

  lemma CountedDispatched(b: Bridge, ref: ThreadRef, n: Note)
    requires Sane(b) && Counts(b, ref, n)
    ensures Next(b, NoteStep(ref, n)) == Dispatch(b, n)
  {
    hide Dispatch;
  }

  lemma UncountedFails(b: Bridge, ref: ThreadRef, n: Note)
    requires Sane(b) && Reaches(b, ref) && !Counts(b, ref, n)
    requires !n.body.TokenUsage? && !(n.body.UpstreamError? && n.body.willRetry)
    requires !(Examined(n) && OtherTurn(b, n)) && !(n.body.OtherNote? && !n.blocked) && !(n.body.TurnStarted? && n.body.turn.Some?)
    ensures Next(b, NoteStep(ref, n)).delivery == b.delivery
  {
    hide Fail, Dispatch;
  }

  lemma DispatchArrives(b: Bridge, n: Note)
    requires Sane(b) && b.session.Some?
    ensures var d, e := b.delivery, Dispatch(b, n).delivery;
      && e.arrived == d.arrived + [n] && e.handed == (if Generating(b) then d.handed + [n] else d.handed)
      && e.dropped == d.dropped && e.mark == d.mark
    ensures !Generating(b) ==>
      var c := Dispatch(b, n);
      if |b.session.value.buffered| < 4096 then c.session == Some(b.session.value.(buffered := b.session.value.buffered + [n]))
      else EndedBy(b, c, UpstreamBufferLimit)
  {
    if Generating(b) {
      NotedLog(Arrive(b, n), n);
      hide HandOver, Fail;
    } else {
      FailEnds(Buffer(b, n), UpstreamBufferLimit);
      BufferFails(b, n);
      hide Fail, EndedBy;
    }
  }

  lemma BufferFails(b: Bridge, n: Note)
    requires Sane(b) && b.session.Some? && EndedBy(Buffer(b, n), Fail(Buffer(b, n), UpstreamBufferLimit), UpstreamBufferLimit)
    ensures EndedBy(b, Fail(Buffer(b, n), UpstreamBufferLimit), UpstreamBufferLimit)
  {
    hide Fail;
  }

  /** A note for the running segment that it cannot take at all. */
  ghost predicate FaultOf(b: Bridge, n: Note, fault: Fault)
    requires b.session.Some?
  {
    match n.body
    case MessageDelta(itemId, delta) => (itemId.None? || delta.None?) && fault == InvalidUpstreamEvent
    case TurnCompleted(turn) =>
      if turn.None? then fault == InvalidUpstreamEvent
      else if b.session.value.turnId.Some? && turn.value.id != b.session.value.turnId then false
      else if !turn.value.completed then fault == UpstreamTurnFailed
      else (b.session.value.waiting.Some? || b.session.value.pending != []) && fault == InvalidUpstreamEvent
    case _ => false
  }

  /**
    While a segment runs, a text delta without item or text, and an end of the session's turn that is
    malformed, not a success, or comes before every call is answered, fail the operation with this fault; the
    end of another turn leaves session and operation alone.
   */
  lemma NotesFail(b: Bridge, ref: ThreadRef, n: Note, fault: Fault)
    requires Sane(b) && Counts(b, ref, n) && Generating(b)
    ensures FaultOf(b, n, fault) ==> EndedBy(b, Next(b, NoteStep(ref, n)), fault)
    ensures n.body.TurnCompleted? && n.body.turn.Some? && b.session.value.turnId.Some?
            && n.body.turn.value.id != b.session.value.turnId ==>
      Next(b, NoteStep(ref, n)).session == b.session && Next(b, NoteStep(ref, n)).operation == b.operation
  {
    CountedDispatched(b, ref, n);
    HandedFault(b, n, fault);
    var d := Noted(Arrive(b, n), n);
    FailEnds(d, fault);
    LogsOnly(b, n, fault);
    hide Fail, HandOver, EndedBy, FaultOf, Next, Noted, Arrive;
  }

  lemma HandedFault(b: Bridge, n: Note, fault: Fault)
    requires Sane(b) && b.session.Some? && Generating(b)
    ensures var d := Noted(Arrive(b, n), n);
      && Sane(d) && (FaultOf(b, n, fault) ==> HandOver(Arrive(b, n), n) == Effect(d, Some(fault)))
      && (n.body.TurnCompleted? && n.body.turn.Some? && b.session.value.turnId.Some?
          && n.body.turn.value.id != b.session.value.turnId ==>
            HandOver(Arrive(b, n), n) == Effect(d, None))
      && d.session == b.session && d.operation == b.operation
  {
    hide Complete, TextDeltaStep, CompleteMessage, Ends;
  }

  lemma LogsOnly(b: Bridge, n: Note, fault: Fault)
    requires Sane(b) && b.session.Some? && Generating(b) && Sane(Noted(Arrive(b, n), n))
    requires EndedBy(Noted(Arrive(b, n), n), Fail(Noted(Arrive(b, n), n), fault), fault)
    ensures EndedBy(b, Fail(Noted(Arrive(b, n), n), fault), fault)
  {
    hide Fail, Ends;
  }

  // ---------------------------------------------------------------------------
  // Server requests
  // ---------------------------------------------------------------------------

  /** A well-formed call of a registered tool, of the session's turn if it has one, that was not seen before. */
  predicate GoodCall(s: Session, r: ServerRequest) {
    && r.toolIndex.Some? && r.toolIndex.value < |s.config.tools.names| && r.turnId.Some? && r.callId.Some? && r.args.Some?
    && !r.namespaced && r.callId.value !in s.seen
    && (s.turnId.None? || s.turnId.value == r.turnId.value)
  }

  /** The request's answer: a refusal under its own id, or none, if the transport takes no answers. */
  function RefusalOf(l: Ledger, rpc: Rpc, rpcId: nat): Ledger {
    var n := |l.received|;
    if rpc == Open then l.(received := l.received + [rpcId], answers := l.answers + [Answer(n, rpcId, Refused)])
    else l.(received := l.received + [rpcId], lost := l.lost + {n})
  }

  /**
    A request that is no tool call of the session is refused. If it names the session's thread, the session
    ends too, with an unsupported action, or with an invalid tool call if it was meant as one.
   */
  lemma RequestsRefused(b: Bridge, r: ServerRequest)
    requires Sane(b) && b.rpc == Open
    ensures !Reaches(b, r.thread) ==>
      Next(b, ServerStep(r)) == b.(ledger := RefusalOf(b.ledger, b.rpc, r.rpcId))
    ensures Reaches(b, r.thread) && !(r.toolCall && GoodCall(b.session.value, r)) ==>
      var c := Next(b, ServerStep(r));
      && EndedBy(b, c, if r.toolCall then InvalidToolCall else UnsupportedServerAction)
      && RefusalOf(b.ledger, b.rpc, r.rpcId).answers <= c.ledger.answers
      && c.ledger.received == b.ledger.received + [r.rpcId]
  {
    var refused := Refuse(Count(b, r.rpcId), |b.ledger.received|, r.rpcId);
    RefusedRequest(b, r);
    if b.session.Some? {
      FailEnds(refused, InvalidToolCall);
      FailEnds(refused, UnsupportedServerAction);
      hide Fail, Next, GoodCall;
    }
  }

  lemma RefusedRequest(b: Bridge, r: ServerRequest)
    requires Sane(b) && b.rpc == Open
    ensures var refused := Refuse(Count(b, r.rpcId), |b.ledger.received|, r.rpcId);
      && refused == b.(ledger := RefusalOf(b.ledger, b.rpc, r.rpcId))
      && (!Reaches(b, r.thread) ==> Next(b, ServerStep(r)) == refused)
      && (Reaches(b, r.thread) && !(r.toolCall && GoodCall(b.session.value, r)) ==>
            Next(b, ServerStep(r)) == Fail(refused, if r.toolCall then InvalidToolCall else UnsupportedServerAction))
  {
    if b.session.Some? {
      GoodCallAccepted(b.session.value, r);
    }
    hide Fail, FlushTool, Handle, Acceptable, GoodCall;
  }

  lemma GoodCallAccepted(s: Session, r: ServerRequest)
    ensures GoodCall(s, r) <==> Acceptable(s, r)
  {
  }

  /**
    A good call of the session is counted and joins its outstanding calls, last, under its rpc id, with the
    name registered at its index and its own arguments; it is not answered, unless surfacing a call fails
    and ends the session.
   */
  lemma CallsQueued(b: Bridge, r: ServerRequest)
    requires Sane(b) && Reaches(b, r.thread) && r.toolCall && GoodCall(b.session.value, r)
    ensures var c := Next(b, ServerStep(r));
      var s := b.session.value;
      && c.ledger.received == b.ledger.received + [r.rpcId]
      && (c.session.Some? ==>
            && c.ledger.answers == b.ledger.answers
            && Outstanding(c.session.value) ==
                 Outstanding(s) + [Call(r.rpcId, |b.ledger.received|, s.config.tools.names[r.toolIndex.value], r.args.value)]
            && c.session.value.turnId == Some(r.turnId.value))
  {
    GoodCallAccepted(b.session.value, r);
    hide FlushTool, Fail;
    assert Next(b, ServerStep(r)) == Handle(FlushTool(Queue(b, r)));
    var s := b.session.value;
    var q := Queue(b, r);
    assert q.session.value.pending ==
           s.pending + [Call(r.rpcId, |b.ledger.received|, s.config.tools.names[r.toolIndex.value], r.args.value)];
  }

  // ---------------------------------------------------------------------------
  // Client requests
  // ---------------------------------------------------------------------------

  /** What is given equals what the session was opened with. */
  predicate SameConfig(req: Request, c: Config) {
    && (req.model == None || req.model == Some(c.model))
    && (req.instructions == None || req.instructions == Some(c.instructions))
    && (req.effort == None || req.effort == c.effort)
    && (req.tools.None? || req.tools.value.canonicalText == c.tools.canonicalText)
  }

  /** The session owes or expects nothing. */
  predicate AtRest(s: Session) { s.turnId.None? && s.waiting.None? && s.pending == [] }

  /**
    A request is accepted exactly if the bridge is open and idle, the client is there, and: it opens a
    conversation with a model and a text over no session or one at rest; or it continues the latest response
    of the live session without a change of model, instructions, effort or tools, with the output of the call
    that waits, or with a text if the session is at rest.
   */
  lemma AcceptedExactly(b: Bridge, req: Request, aborted: bool)
    ensures Refusal(b, req, aborted).None? <==>
      && !b.closed && !b.busy && !aborted
      && (if req.previous.None? then
            && req.model.Some? && req.input.UserText?
            && (b.session.Some? ==> AtRest(b.session.value))
          else
            && b.session.Some? && b.session.value.lastResponse.Some?
            && b.session.value.lastResponse.value == req.previous.value
            && SameConfig(req, b.session.value.config)
            && (if req.input.ToolOutput? then
                  b.session.value.waiting.Some? && b.session.value.waiting.value.arrival == req.input.callId
                else AtRest(b.session.value)))
  {
  }

  /** The request continues the latest response of the live session. */
  predicate ContinuesLatest(b: Bridge, req: Request) {
    req.previous.Some? && b.session.Some? && b.session.value.lastResponse == req.previous
  }

  /**
    Which reason a refusal names, the first that applies: a conversation that opens without a model or with a
    tool output, a bridge that is closed or busy, a client that has gone, a session that is not at rest, a
    response that is not the latest, another configuration, another call, or a text where a result is owed.
   */
  lemma RefusedBecause(b: Bridge, req: Request, aborted: bool)
    ensures var r := Refusal(b, req, aborted);
      var opens := req.previous.None?;
      var valid := opens ==> req.model.Some? && req.input.UserText?;
      var free := valid && !b.closed && !b.busy && !aborted;
      && (r == Some(InvalidRequest) <==> !valid)
      && (r == Some(Unavailable) <==> valid && b.closed)
      && (r == Some(BridgeBusy) <==> valid && !b.closed && b.busy)
      && (r == Some(Disconnected) <==> valid && !b.closed && !b.busy && aborted)
      && (r == Some(SessionBusy) <==> free && opens && b.session.Some? && !AtRest(b.session.value))
      && (r == Some(InvalidPreviousResponse) <==> free && !opens && !ContinuesLatest(b, req))
      && (r == Some(SessionConfigChanged) <==> free && ContinuesLatest(b, req) && !SameConfig(req, b.session.value.config))
      && (r == Some(InvalidCallId) <==>
            && free && ContinuesLatest(b, req) && SameConfig(req, b.session.value.config) && req.input.ToolOutput?
            && (b.session.value.waiting.None? || b.session.value.waiting.value.arrival != req.input.callId))
      && (r == Some(ToolResultRequired) <==>
            && free && ContinuesLatest(b, req) && SameConfig(req, b.session.value.config) && req.input.UserText?
            && !AtRest(b.session.value))
  {
  }

  // ---------------------------------------------------------------------------
  // Replies
  // ---------------------------------------------------------------------------

  /** A reply fails the request it belongs to, if that is still the running operation. */
  ghost predicate FailsOwn(b: Bridge, c: Bridge, oid: nat, fault: Fault) {
    if b.operation.Some? && b.operation.value.settled.None? && b.operation.value.oid == oid then EndedBy(b, c, fault) else c == b
  }

  lemma DriveFaultFails(b: Bridge, oid: nat, fault: Fault)
    requires Sane(b)
    ensures FailsOwn(b, DriveFault(b, oid, Some(fault)), oid, fault)
  {
    FailEnds(b, fault);
    hide Fail, EndedBy;
  }

  /**
    The reply to thread/start: an error, a missing id for a live session, or another model fails the request;
    for a live session its thread is taken up and a text goes out as a turn on it; for a dead one it is given
    back.
   */
  lemma ThreadReplies(b: Bridge, k: nat, ok: bool, id: Option<ThreadId>, model: Option<string>)
    requires Sane(b) && k in b.tasks && b.tasks[k].AwaitThread?
    ensures var t := b.tasks[k];
      var gone := b.(tasks := b.tasks - {k});
      var c := Next(b, ThreadStep(k, ok, id, model));
      var live := b.session.Some? && b.session.value.sid == t.sid;
      && (!ok ==> FailsOwn(gone, c, t.oid, RpcError))
      && (ok && id.None? ==> if live then FailsOwn(gone, c, t.oid, InvalidUpstreamEvent) else c == gone)
      && (ok && id.Some? && !live ==>
            c == gone.(wire := gone.wire.(threads := gone.wire.threads + {(t.sid, id.value)},
                                          sent := gone.wire.sent + [Unsubscribe(t.sid, id.value)])))
      && (ok && id.Some? && live ==>
            var attached := gone.(session := Some(b.session.value.(threadId := id)),
                                  wire := gone.wire.(threads := gone.wire.threads + {(t.sid, id.value)},
                                                     threadOf := gone.wire.threadOf[t.sid := id.value]));
            && (model.Some? && model.value != b.session.value.config.model ==> FailsOwn(attached, c, t.oid, ModelMismatch))
            && (model.None? || model.value == b.session.value.config.model ==>
                  t.req.input.UserText? ==>
                    c == attached.(tasks := attached.tasks[b.nextTask := AwaitTurn(t.sid, t.oid)], nextTask := b.nextTask + 1,
                                   wire := attached.wire.(sent := attached.wire.sent + [StartTurn(t.sid, id.value, t.req.input.text, b.session.value.config.effort)]))))
  {
    hide DriveFault, FailsOwn, Resume, Indexed;
    var t := b.tasks[k];
    var gone := RemoveTask(b, k);
    DriveFaultFails(gone, t.oid, RpcError);
    DriveFaultFails(gone, t.oid, InvalidUpstreamEvent);
    if ok && id.Some? && Live(b, t.sid) {
      DriveFaultFails(Attach(Return(gone, t.sid, id.value), id.value), t.oid, ModelMismatch);
    }
  }

  /** The reply to turn/start: an error, or a missing id while its request runs, fails the request. */
  lemma TurnReplies(b: Bridge, k: nat, ok: bool, id: Option<TurnId>)
    requires Sane(b) && k in b.tasks && b.tasks[k].AwaitTurn?
    ensures var t := b.tasks[k];
      var gone := b.(tasks := b.tasks - {k});
      var c := Next(b, TurnStep(k, ok, id));
      var live := b.session.Some? && b.session.value.sid == t.sid;
      var running := b.operation.Some? && !b.operation.value.seg.finished && b.operation.value.oid == t.oid;
      && (!ok ==> FailsOwn(gone, c, t.oid, RpcError))
      && (ok && id.None? ==> if live && running then FailsOwn(gone, c, t.oid, InvalidUpstreamEvent) else c == gone)
      && (ok && id.Some? && live ==>
            && c.session == Some(if running && b.session.value.turnId.None? then b.session.value.(turnId := id) else b.session.value)
            && c.wire.sent == b.wire.sent && c.operation == b.operation)
      && (ok && id.Some? && !live && t.sid in b.wire.threadOf ==>
            c.wire.sent == b.wire.sent + [Interrupt(t.sid, b.wire.threadOf[t.sid], id.value)] && c.session == b.session)
  {
    hide DriveFault, FailsOwn, Indexed;
    var gone := RemoveTask(b, k);
    DriveFaultFails(gone, b.tasks[k].oid, RpcError);
    DriveFaultFails(gone, b.tasks[k].oid, InvalidUpstreamEvent);
  }

  /** The transport came up, or did not: a live session without a thread asks for one. */
  lemma TransportReplies(b: Bridge, k: nat, ok: bool)
    requires Sane(b) && k in b.tasks && b.tasks[k].AwaitStart?
    ensures var t := b.tasks[k];
      var gone := b.(tasks := b.tasks - {k});
      var c := Next(b, StartedStep(k, ok));
      var up := gone.(rpc := Open);
      var live := b.session.Some? && b.session.value.sid == t.sid;
      && (!ok || b.rpc == Closed ==> FailsOwn(gone, c, t.oid, RpcError))
      && (ok && b.rpc != Closed && !live ==> c == up)
      && (ok && b.rpc != Closed && live && b.session.value.threadId.None? ==>
            c == up.(tasks := up.tasks[b.nextTask := AwaitThread(t.sid, t.oid, t.req)], nextTask := b.nextTask + 1,
                     wire := up.wire.(sent := up.wire.sent + [StartThread(t.sid, b.session.value.config)])))
  {
    DriveFaultFails(RemoveTask(b, k), b.tasks[k].oid, RpcError);
    hide DriveFault, FailsOwn, WithThread;
  }

  // ---------------------------------------------------------------------------
  // Ends
  // ---------------------------------------------------------------------------

  /** A disconnect, a timeout, the exit of the process and the shutdown each reject with their own fault. */
  lemma StopsReject(b: Bridge)
    requires Sane(b)
    ensures b.operation.Some? ==> EndedBy(b, Next(b, AbortStep), ClientDisconnected)
    ensures b.operation.Some? ==> EndedBy(b, Next(b, TimeoutStep), GenerationTimeout)
    ensures EndedBy(b, Next(b, ExitStep), CodexUnavailable) && Next(b, ExitStep).closed && Next(b, ExitStep).rpc == Closed
    ensures EndedBy(b, Next(b, CloseStep), BridgeShutdown) && Next(b, CloseStep).closed
  {
    FailEnds(b, ClientDisconnected);
    FailEnds(b, GenerationTimeout);
    ExitRejects(b);
    CloseRejects(b);
    hide Fail, Release, EndedBy;
  }

  lemma ExitRejects(b: Bridge)
    requires Sane(b)
    ensures EndedBy(b, Next(b, ExitStep), CodexUnavailable) && Next(b, ExitStep).closed && Next(b, ExitStep).rpc == Closed
  {
    FailEnds(b.(closed := true, rpc := Closed), CodexUnavailable);
    hide Fail;
  }

  lemma CloseRejects(b: Bridge)
    requires Sane(b)
    ensures EndedBy(b, Next(b, CloseStep), BridgeShutdown) && Next(b, CloseStep).closed
  {
    FailEnds(b, BridgeShutdown);
    hide Fail, Release;
  }
}
