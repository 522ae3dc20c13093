/**
  The bridge object: the fields and handlers of the program, each proved to do what BridgeState says.

  `State` collects the fields into the value the specification speaks about; the last four fields are logs. A method
  that meets an exception returns it in `fault` and leaves the state as it is at that moment.
 */
module CodexBridges {
  import opened Wrappers
  import opened ResponseSegments
  import opened BridgeState

  class CodexBridge {
    var session: Option<Session>
    var segment: ResponseSegment?
    var operationId: nat
    var operationSession: nat
    var settled: Option<Settlement>
    var sink: Sink
    var starting: Option<Starting>
    var busy: bool
    var closed: bool
    var timer: bool
    var rpc: Rpc
    var tasks: map<nat, Task>
    var nextTask: nat
    var nextSession: nat
    var nextOperation: nat
    var ledger: Ledger
    var wire: Wire
    var history: History
    var delivery: Delivery

    ghost function State(): Bridge
      reads this, segment
    {
      Bridge(session,
             if segment == null then None else Some(Operation(operationId, operationSession, segment.State(), settled)),
             sink, starting, busy, closed, timer, rpc, tasks, nextTask, nextSession, nextOperation,
             ledger, wire, history, delivery)
    }

    ghost predicate Valid()
      reads this, segment
    {
      Sane(State()) && (segment != null ==> segment.sink == sink)
    }

    constructor ()
      ensures Valid() && segment == null && State() == Initial.(sink := this.sink)
    {
      session, segment, operationId, operationSession, settled := None, null, 0, 0, None;
      sink, starting, busy, closed, timer, rpc := (n: nat) => true, None, false, false, false, NotStarted;
      tasks, nextTask, nextSession, nextOperation := map[], 0, 0, 0;
      ledger, wire := Ledger([], [], {}), Wire([], map[], {}, {}, {}, []);
      history, delivery := History([], [], [], []), Delivery([], [], [], 0);
    }

    method SendUpstream(m: Sent)
      modifies this`wire
      ensures wire == old(wire).(sent := old(wire).sent + [m])
    {
      wire := wire.(sent := wire.sent + [m]);
    }

    method Suspend(t: Task)
      modifies this`tasks, this`nextTask
      ensures tasks == old(tasks)[old(nextTask) := t] && nextTask == old(nextTask) + 1
    {
      tasks := tasks[nextTask := t];
      nextTask := nextTask + 1;
    }

    /** Answers a call with a cancellation; a transport that is not open throws, and that is ignored. */
    method CancelCalls(calls: seq<Call>)
      modifies this`ledger
      ensures ledger == CancelAll(old(ledger), rpc, calls)
    {
      var i := 0;
      while i < |calls|
        invariant i <= |calls|
        invariant CancelAll(ledger, rpc, calls[i..]) == CancelAll(old(ledger), rpc, calls)
      {
        var call := calls[i];
        CancelFirst(ledger, rpc, calls[i..]);
        assert calls[i..][1..] == calls[i + 1..];
        if rpc == Open {
          ledger := ledger.(answers := ledger.answers + [Answer(call.arrival, call.rpcId, Cancelled)]);
        } else {
          ledger := ledger.(lost := ledger.lost + {call.arrival});
        }
        i := i + 1;
      }
      assert calls[i..] == [];
      assert ledger.answers + [] == ledger.answers;
      assert ledger.lost + Arrivals([]) == ledger.lost;
    }

    /** Cancels the calls of a session that ended. */
    method Bury(s: Session)
      modifies this`ledger, this`wire
      ensures State() == Buried(old(State()), s)
    {
      hide CancelAll, Outstanding;
      CancelCalls(Outstanding(s));
      wire := wire.(dead := wire.dead + [s]);
    }

    /** What becomes of a session that ended: its turn is interrupted, or its thread given back. */
    method Retire(s: Session)
      modifies this`ledger, this`wire, this`tasks, this`nextTask
      ensures State() == Retirement(old(State()), s)
    {
      hide Buried;
      Bury(s);
      if s.threadId.Some? && s.turnId.Some? {
        SendUpstream(Interrupt(s.sid, s.threadId.value, s.turnId.value));
        Suspend(AwaitInterrupt(s.sid, s.threadId.value));
      } else if s.threadId.Some? {
        SendUpstream(Unsubscribe(s.sid, s.threadId.value));
      }
    }

    method Detach() returns (s: Session)
      requires session.Some?
      modifies this`session, this`timer
      ensures s == old(session).value && State() == old(State()).(session := None, timer := false)
    {
      timer := false;
      s := session.value;
      session := None;
    }

    method ReleaseSession()
      modifies this`session, this`timer, this`ledger, this`wire, this`tasks, this`nextTask
      ensures State() == Release(old(State()))
    {
      hide Retirement;
      if session.Some? {
        var s := Detach();
        Retire(s);
      } else {
        timer := false;
      }
    }

    method SettleWith(outcome: Settlement)
      requires segment != null
      modifies this`settled, this`history
      ensures State() == Settle(old(State()), outcome)
    {
      settled := Some(outcome);
      history := history.(settled := history.settled + [(operationId, outcome)]);
    }

    method FailWith(error: Fault)
      requires Valid()
      modifies this`session, this`timer, this`ledger, this`wire, this`tasks, this`nextTask, this`settled, this`history, segment
      ensures Valid() && segment == old(segment) && State() == Fail(old(State()), error)
    {
      hide Release, CancelAll, Abandon, Indexed;
      if segment != null && settled.None? {
        var ignored := segment.Fail(error);
        SettleWith(Rejected(error));
      }
      ReleaseSession();
    }

    method CompleteSegment() returns (fault: Option<Fault>)
      requires Valid() && session.Some?
      modifies this`session, this`settled, this`history, segment
      ensures Valid() && segment == old(segment) && Effect(State(), fault) == Complete(old(State()))
    {
      hide Finish, Indexed;
      fault := None;
      if segment == null || settled.Some? {
        return;
      }
      fault := segment.End();
      if fault.None? {
        session := Some(session.value.(lastResponse := Some(operationId)));
        SettleWith(Resolved);
      }
    }

    method Flush() returns (fault: Option<Fault>)
      requires Valid()
      modifies this`session, this`settled, this`history, segment
      ensures Valid() && segment == old(segment) && Effect(State(), fault) == FlushTool(old(State()))
    {
      hide ToolCall, Complete, Indexed;
      fault := None;
      if session.None? || segment == null || segment.finished || session.value.waiting.Some? || session.value.pending == [] {
        return;
      }
      var call := session.value.pending[0];
      session := Some(session.value.(waiting := Some(call), pending := session.value.pending[1..]));
      fault := segment.Call(call.arrival, call.name, call.args);
      if fault.None? {
        fault := CompleteSegment();
      }
    }

    method ConsumeNotification(n: Note) returns (fault: Option<Fault>)
      requires Valid()
      modifies this`session, this`settled, this`history, segment
      ensures Valid() && segment == old(segment) && Effect(State(), fault) == ConsumeNote(old(State()), n)
    {
      hide TextDeltaStep, CompleteMessage, Complete, Indexed;
      fault := None;
      if session.None? || segment == null || segment.finished {
        return;
      }
      match n.body
      case MessageDelta(itemId, delta) =>
        if itemId.None? || delta.None? {
          fault := Some(InvalidUpstreamEvent);
        } else {
          fault := segment.AppendText(itemId.value, delta.value);
        }
      case ItemCompleted(message) =>
        if message.Some? {
          fault := segment.Complete(message.value);
        }
      case TurnCompleted(turn) =>
        if turn.None? {
          fault := Some(InvalidUpstreamEvent);
        } else if session.value.turnId.Some? && turn.value.id != session.value.turnId {
          return;
        } else if !turn.value.completed {
          fault := Some(UpstreamTurnFailed);
        } else if Outstanding(session.value) != [] {
          fault := Some(InvalidUpstreamEvent);
        } else {
          session := Some(session.value.(turnId := None));
          fault := CompleteSegment();
        }
      case _ =>
    }

    /** The handler around a driven request. */
    method FailDriven(oid: nat, fault: Option<Fault>)
      requires Valid()
      modifies this, segment
      ensures Valid() && segment == old(segment) && State() == DriveFault(old(State()), oid, fault)
    {
      hide Fail, Indexed;
      if fault.Some? && segment != null && settled.None? && operationId == oid {
        FailWith(fault.value);
      }
    }

    method HandleFault(fault: Option<Fault>)
      requires Valid()
      modifies this, segment
      ensures Valid() && segment == old(segment) && State() == Handle(Effect(old(State()), fault))
    {
      hide Fail, Indexed;
      if fault.Some? {
        FailWith(fault.value);
      }
    }

    /** Hands a note over, and logs it: a note that meets no running segment is dropped. */
    method HandNote(n: Note) returns (fault: Option<Fault>)
      requires Valid()
      modifies this`session, this`settled, this`history, this`delivery, this`wire, segment
      ensures Valid() && segment == old(segment) && Effect(State(), fault) == HandOver(old(State()), n)
    {
      hide ConsumeNote, Indexed, Ends;
      if session.None? || segment == null || segment.finished {
        delivery := delivery.(dropped := delivery.dropped + [n]);
      } else {
        delivery := delivery.(handed := delivery.handed + [n]);
        wire := wire.(ended := wire.ended + Ends(session.value, n));
      }
      fault := ConsumeNotification(n);
    }

    method ConsumeBuffered(notes: seq<Note>) returns (fault: Option<Fault>)
      requires Valid()
      modifies this`session, this`settled, this`history, this`delivery, this`wire, segment
      ensures Valid() && segment == old(segment) && Effect(State(), fault) == ConsumeAll(old(State()), notes)
    {
      hide HandOver, Indexed, Through;
      fault := None;
      var i := 0;
      while i < |notes|
        invariant i <= |notes| && Valid() && segment == old(segment) && fault.None?
        invariant ConsumeAll(old(State()), notes) == ConsumeAll(State(), notes[i..])
      {
        assert notes[i..][1..] == notes[i + 1..];
        fault := HandNote(notes[i]);
        if fault.Some? {
          return;
        }
        i := i + 1;
      }
      assert notes[i..] == [];
    }

    method ResumeTool(output: string) returns (fault: Option<Fault>)
      requires Valid() && session.Some?
      modifies this, segment
      ensures Valid() && segment == old(segment) && Effect(State(), fault) == Resume(old(State()), output)
    {
      hide ConsumeAll, FlushTool, Within, Through, Indexed;
      if session.value.waiting.None? {
        return Some(RpcError);
      }
      var call := session.value.waiting.value;
      session := Some(session.value.(waiting := None));
      if rpc != Open {
        ledger := ledger.(lost := ledger.lost + {call.arrival});
        return Some(RpcError);
      }
      ledger := ledger.(answers := ledger.answers + [Answer(call.arrival, call.rpcId, ToolResult(output))]);
      var notes := session.value.buffered;
      session := Some(session.value.(buffered := []));
      fault := ConsumeBuffered(notes);
      if fault.None? {
        fault := Flush();
      }
    }

    method DriveWithThread(oid: nat, req: Request)
      requires Valid() && session.Some? && session.value.threadId.Some?
      modifies this, segment
      ensures Valid() && segment == old(segment) && State() == WithThread(old(State()), oid, req)
    {
      hide Resume, DriveFault, Indexed;
      match req.input
      case ToolOutput(_, output) =>
        var fault := ResumeTool(output);
        FailDriven(oid, fault);
      case UserText(text) =>
        SendUpstream(StartTurn(session.value.sid, session.value.threadId.value, text, session.value.config.effort));
        Suspend(AwaitTurn(session.value.sid, oid));
    }

    method DriveStarted(sid: nat, oid: nat, req: Request)
      requires Valid()
      modifies this, segment
      ensures Valid() && segment == old(segment) && State() == AfterStart(old(State()), sid, oid, req)
    {
      hide WithThread, Indexed;
      if session.None? || session.value.sid != sid {
        return;
      }
      if session.value.threadId.None? {
        SendUpstream(StartThread(sid, session.value.config));
        Suspend(AwaitThread(sid, oid, req));
      } else {
        DriveWithThread(oid, req);
      }
    }

    /** Installs a new operation with a segment of its own. */
    method Install(eventSink: Sink)
      requires session.Some?
      modifies this`segment, this`operationId, this`operationSession, this`settled, this`sink, this`nextOperation, this`delivery
      ensures segment != null && fresh(segment) && segment.State() == Fresh && segment.sink == sink == eventSink
      ensures operationId == old(nextOperation) && operationSession == session.value.sid && settled == None
      ensures nextOperation == old(nextOperation) + 1 && delivery == old(delivery).(mark := |old(delivery).handed|)
    {
      segment := new ResponseSegment(eventSink);
      operationId, operationSession, settled := nextOperation, session.value.sid, None;
      sink, nextOperation, delivery := eventSink, nextOperation + 1, delivery.(mark := |delivery.handed|);
    }

    method EnterOperation(eventSink: Sink)
      requires session.Some?
      modifies this
      ensures Valid() && segment != null && fresh(segment) && State() == Enter(old(State()), eventSink)
    {
      FreshIndexed(eventSink);
      hide Fail, Indexed, ResponseSegments.Start;
      Install(eventSink);
      var fault := segment.Begin();
      assert State() == Entering(old(State()), eventSink, segment.State());
      if fault.Some? {
        FailWith(fault.value);
      }
    }

    method BeginOperation(req: Request, eventSink: Sink, aborted: bool)
      requires session.Some?
      modifies this
      ensures Valid() && segment != null && fresh(segment) && State() == Begin(old(State()), req, eventSink, aborted)
    {
      hide Enter, Fail, DriveFault, AfterStart, Indexed;
      var oid := nextOperation;
      EnterOperation(eventSink);
      if aborted {
        FailWith(ClientDisconnected);
      } else if settled.None? && session.Some? {
        var s := session.value;
        if s.threadId.None? {
          Suspend(AwaitStart(s.sid, oid, req));
        } else if rpc != Open {
          FailDriven(oid, Some(RpcError));
        } else {
          DriveStarted(s.sid, oid, req);
        }
      }
    }

    method CheckRequest(req: Request, aborted: bool) returns (refusal: Option<Rejection>)
      ensures refusal == Refusal(State(), req, aborted)
    {
      if !ValidRequest(req) {
        return Some(InvalidRequest);
      }
      if closed {
        return Some(Unavailable);
      }
      if busy {
        return Some(BridgeBusy);
      }
      if aborted {
        return Some(Disconnected);
      }
      if req.previous.None? {
        return if session.Some? && Engaged(session.value) then Some(SessionBusy) else None;
      }
      if session.None? || session.value.lastResponse != req.previous {
        return Some(InvalidPreviousResponse);
      }
      var s := session.value;
      if ChangesConfig(req, s.config) {
        return Some(SessionConfigChanged);
      }
      match req.input
      case ToolOutput(callId, _) =>
        return if s.waiting.None? || s.waiting.value.arrival != callId then Some(InvalidCallId) else None;
      case UserText(_) =>
        return if Engaged(s) then Some(ToolResultRequired) else None;
    }

    /** A request for a new session waits for the release of the one before. */
    method AwaitRelease(req: Request, eventSink: Sink)
      requires Valid()
      modifies this`busy, this`timer, this`starting, this`session, this`ledger, this`wire, this`tasks, this`nextTask
      ensures Valid()
      ensures State() == Release(old(State()).(busy := true, timer := false, starting := Some(Starting(req, eventSink))))
    {
      hide Release, Released, Indexed;
      busy, timer := true, false;
      starting := Some(Starting(req, eventSink));
      ReleaseSession();
    }

    /** A continuation begins at once. */
    method ContinueSession(id: nat, req: Request, eventSink: Sink)
      requires Valid() && session.Some?
      modifies this
      ensures Valid() && segment != null && fresh(segment)
      ensures State() == Begin(Continue(old(State()), id), req, eventSink, false)
    {
      hide Begin, Indexed;
      busy, timer := true, false;
      history := history.(continued := history.continued + [id]);
      BeginOperation(req, eventSink, false);
    }

    /** The synchronous part of `respond`. */
    method Accept(req: Request, eventSink: Sink, aborted: bool) returns (refusal: Option<Rejection>)
      requires Valid()
      modifies this
      ensures Valid() && (State(), refusal) == Respond(old(State()), req, eventSink, aborted)
      ensures segment == old(segment) || fresh(segment)
    {
      hide Begin, Release, Continue, Refusal, Indexed;
      RefusalSome(State(), req, aborted);
      refusal := CheckRequest(req, aborted);
      if refusal.Some? {
        return;
      }
      if req.previous.None? {
        AwaitRelease(req, eventSink);
      } else {
        ContinueSession(req.previous.value, req, eventSink);
      }
    }

    /** The session of a new conversation. */
    method InstallSession(req: Request)
      requires Valid() && req.model.Some?
      modifies this`session, this`nextSession, this`starting, this`delivery
      ensures Valid() && session.Some? && State() == Create(old(State()), req)
    {
      hide Indexed;
      session := Some(Session(nextSession,
        Config(req.model.value, if req.instructions.Some? then req.instructions.value else "", req.effort,
               if req.tools.Some? then req.tools.value else NoTools),
        None, None, None, [], None, [], {}));
      nextSession, starting := nextSession + 1, None;
      delivery := Delivery([], [], [], 0);
    }

    /** `respond` once the release it waited for is over. */
    method CreateSession(aborted: bool)
      requires Valid()
      modifies this
      ensures Valid() && State() == Proceed(old(State()), aborted)
      ensures segment == old(segment) || fresh(segment)
    {
      hide Begin, Create, Indexed;
      if starting.None? || starting.value.req.model.None? {
        return;
      }
      var req, eventSink := starting.value.req, starting.value.sink;
      InstallSession(req);
      BeginOperation(req, eventSink, aborted);
    }

    /** The `finally` of `respond`. */
    method Conclude()
      requires Valid()
      modifies this
      ensures Valid() && State() == Finalize(old(State()))
    {
      if segment == null || settled.None? {
        return;
      }
      history := history.(streams := history.streams + [segment.offered],
                          notes := history.notes + [if delivery.mark <= |delivery.handed| then delivery.handed[delivery.mark..] else []]);
      busy, segment, timer := false, null, timer || session.Some?;
    }

    method OnTransportUp(k: nat, ok: bool)
      requires Valid()
      modifies this, segment
      ensures Valid() && segment == old(segment) && State() == OnStarted(old(State()), k, ok)
    {
      hide DriveFault, AfterStart, Indexed;
      if k !in tasks || !tasks[k].AwaitStart? {
        return;
      }
      var t := tasks[k];
      tasks := tasks - {k};
      if ok && rpc != Closed {
        rpc := Open;
        DriveStarted(t.sid, t.oid, t.req);
      } else {
        FailDriven(t.oid, Some(RpcError));
      }
    }

    /** A thread came for a session that is no longer live. */
    method GiveBack(sid: nat, id: ThreadId)
      modifies this`wire
      ensures State() == Send(Return(old(State()), sid, id), Unsubscribe(sid, id))
    {
      wire := wire.(threads := wire.threads + {(sid, id)});
      SendUpstream(Unsubscribe(sid, id));
    }

    /** A thread came for the live session. */
    method AttachThread(id: ThreadId)
      requires Valid() && session.Some?
      modifies this`wire, this`session
      ensures Valid() && State() == Attach(Return(old(State()), old(session).value.sid, id), id)
      ensures session == Some(old(session).value.(threadId := Some(id)))
    {
      wire := wire.(threads := wire.threads + {(session.value.sid, id)}, threadOf := wire.threadOf[session.value.sid := id]);
      session := Some(session.value.(threadId := Some(id)));
    }

    method OnThreadReply(k: nat, ok: bool, id: Option<ThreadId>, model: Option<string>)
      requires Valid()
      modifies this, segment
      ensures Valid() && segment == old(segment) && State() == OnThread(old(State()), k, ok, id, model)
    {
      hide DriveFault, WithThread, Attach, Return, Send, Indexed;
      if k !in tasks || !tasks[k].AwaitThread? {
        return;
      }
      var t := tasks[k];
      tasks := tasks - {k};
      if !ok {
        FailDriven(t.oid, Some(RpcError));
      } else if session.None? || session.value.sid != t.sid {
        if id.Some? {
          GiveBack(t.sid, id.value);
        }
      } else if id.None? {
        FailDriven(t.oid, Some(InvalidUpstreamEvent));
      } else {
        AttachThread(id.value);
        if model.Some? && model.value != session.value.config.model {
          FailDriven(t.oid, Some(ModelMismatch));
        } else {
          DriveWithThread(t.oid, t.req);
        }
      }
    }

    /** A turn came for a session that is no longer live. */
    method InterruptLate(sid: nat, thread: ThreadId, turn: TurnId)
      modifies this`wire
      ensures State() == RetireLate(old(State()), sid, thread, turn)
    {
      wire := wire.(turns := wire.turns + {(sid, turn)});
      SendUpstream(Interrupt(sid, thread, turn));
    }

    /** A turn came for the live session. */
    method Learn(turn: TurnId)
      requires session.Some?
      modifies this`wire, this`session
      ensures State() == LearnTurn(old(State()), turn)
    {
      if session.value.turnId.None? {
        session := Some(session.value.(turnId := Some(turn)));
      }
      wire := wire.(turns := wire.turns + {(session.value.sid, turn)});
    }

    method OnTurnReply(k: nat, ok: bool, id: Option<TurnId>)
      requires Valid()
      modifies this, segment
      ensures Valid() && segment == old(segment) && State() == OnTurn(old(State()), k, ok, id)
    {
      hide DriveFault, RetireLate, LearnTurn, Indexed;
      if k !in tasks || !tasks[k].AwaitTurn? {
        return;
      }
      var t := tasks[k];
      tasks := tasks - {k};
      if !ok {
        FailDriven(t.oid, Some(RpcError));
      } else if session.None? || session.value.sid != t.sid {
        if id.Some? && t.sid in wire.threadOf {
          InterruptLate(t.sid, wire.threadOf[t.sid], id.value);
        }
      } else if segment != null && !segment.finished && operationId == t.oid {
        if id.None? {
          FailDriven(t.oid, Some(InvalidUpstreamEvent));
        } else {
          Learn(id.value);
        }
      } else if id.Some? {
        wire := wire.(turns := wire.turns + {(t.sid, id.value)});
      }
    }

    method OnInterruptReply(k: nat)
      requires Valid()
      modifies this`tasks, this`wire
      ensures Valid() && State() == OnInterrupted(old(State()), k)
    {
      if k !in tasks || !tasks[k].AwaitInterrupt? {
        return;
      }
      var t := tasks[k];
      tasks := tasks - {k};
      SendUpstream(Unsubscribe(t.sid, t.thread));
    }

    /** Refuses the newest server request. */
    method RespondError(arrival: nat, rpcId: nat)
      modifies this`ledger
      ensures State() == Refuse(old(State()), arrival, rpcId)
    {
      if rpc == Open {
        ledger := ledger.(answers := ledger.answers + [Answer(arrival, rpcId, Refused)]);
      } else {
        ledger := ledger.(lost := ledger.lost + {arrival});
      }
    }

    /** A request that is not a call this session can take. */
    method RefuseRequest(r: ServerRequest)
      requires Valid()
      requires !r.toolCall || session.None? || !Addressed(r.thread, session.value) || !Acceptable(session.value, r)
      modifies this, segment
      ensures Valid() && segment == old(segment) && State() == OnServerRequest(old(State()), r)
    {
      hide Fail, FlushTool, Handle, Indexed;
      var arrival := |ledger.received|;
      ledger := ledger.(received := ledger.received + [r.rpcId]);
      RespondError(arrival, r.rpcId);
      if rpc != Open {
        FailWith(InvalidUpstreamEvent);
      } else if session.Some? && Addressed(r.thread, session.value) {
        FailWith(if r.toolCall then InvalidToolCall else UnsupportedServerAction);
      }
    }

    /** A call this session can take joins the queue. */
    method QueueCall(r: ServerRequest)
      requires session.Some? && Acceptable(session.value, r)
      modifies this`session, this`wire, this`ledger
      ensures State() == Queue(old(State()), r)
    {
      var s := session.value;
      var call := Call(r.rpcId, |ledger.received|, s.config.tools.names[r.toolIndex.value], r.args.value);
      ledger := ledger.(received := ledger.received + [r.rpcId]);
      session := Some(s.(turnId := r.turnId, seen := s.seen + {r.callId.value}, pending := s.pending + [call]));
      wire := wire.(turns := wire.turns + {(s.sid, r.turnId.value)});
    }

    method OnRequest(r: ServerRequest)
      requires Valid()
      modifies this, segment
      ensures Valid() && segment == old(segment) && State() == OnServerRequest(old(State()), r)
    {
      hide Fail, FlushTool, Handle, Indexed, Acceptable, Refuse, Queue;
      if !r.toolCall || session.None? || !Addressed(r.thread, session.value) || !Acceptable(session.value, r) {
        RefuseRequest(r);
      } else {
        QueueCall(r);
        var fault := Flush();
        HandleFault(fault);
      }
    }

    /** A notification that passed the filters. */
    method DispatchNotification(n: Note)
      requires Valid() && session.Some?
      modifies this, segment
      ensures Valid() && segment == old(segment) && State() == Dispatch(old(State()), n)
    {
      hide Fail, HandOver, Handle, Indexed, Through;
      delivery := delivery.(arrived := delivery.arrived + [n]);
      if segment == null || segment.finished {
        session := Some(session.value.(buffered := session.value.buffered + [n]));
        if |session.value.buffered| > BUFFER_LIMIT {
          FailWith(UpstreamBufferLimit);
        }
      } else {
        var fault := HandNote(n);
        HandleFault(fault);
      }
    }

    method OnNotification(ref: ThreadRef, n: Note)
      requires Valid()
      modifies this, segment
      ensures Valid() && segment == old(segment) && State() == OnNote(old(State()), ref, n)
    {
      hide Fail, Dispatch, Indexed;
      if session.None? || !Addressed(ref, session.value) {
        return;
      }
      var s := session.value;
      if n.body.TurnStarted? {
        if n.body.turn.None? {
          FailWith(InvalidUpstreamEvent);
          return;
        }
        session := Some(s.(turnId := n.body.turn.value.id));
        if n.body.turn.value.id.Some? {
          wire := wire.(turns := wire.turns + {(s.sid, n.body.turn.value.id.value)});
        }
        return;
      }
      if n.body.TokenUsage? || (n.body.UpstreamError? && n.body.willRetry) {
        return;
      }
      if n.body.UpstreamError? {
        FailWith(UpstreamTurnFailed);
        return;
      }
      if n.turnId.Some? && s.turnId.Some? && n.turnId != s.turnId {
        return;
      }
      if n.blocked {
        FailWith(UnsupportedServerAction);
      } else if !n.body.OtherNote? {
        DispatchNotification(n);
      }
    }

    /** The client's abort signal, or the generation timeout, while an operation exists. */
    method Stop(error: Fault)
      requires Valid()
      modifies this, segment
      ensures Valid() && State() == if old(segment) != null then Fail(old(State()), error) else old(State())
    {
      hide Fail, Indexed;
      if segment != null {
        FailWith(error);
      }
    }

    /** The idle timer of a session. */
    method Expire()
      requires Valid()
      modifies this, segment
      ensures Valid() && State() == if old(timer) then Release(old(State())) else old(State())
    {
      hide Release, Indexed;
      if timer {
        ReleaseSession();
      }
    }

    method OnExit()
      requires Valid()
      modifies this, segment
      ensures Valid() && State() == Fail(old(State()).(closed := true, rpc := Closed), CodexUnavailable)
    {
      hide Fail, Indexed;
      closed, rpc := true, Closed;
      FailWith(CodexUnavailable);
    }

    method Close()
      requires Valid()
      modifies this, segment
      ensures Valid()
      ensures var b := old(State()); State() == Release((if Unsettled(b) then Fail(b, BridgeShutdown) else b).(closed := true))
    {
      hide Fail, Release, Indexed;
      if segment != null && settled.None? {
        FailWith(BridgeShutdown);
      }
      closed := true;
      ReleaseSession();
    }

    /** Any event: the object makes the step of the machine. */
    method Take(step: Step)
      requires Valid()
      modifies this, segment
      ensures Valid() && State() == Next(old(State()), step)
    {
      hide Respond, Proceed, OnStarted, OnThread, OnTurn, OnInterrupted, OnNote, OnServerRequest, Fail, Release, Finalize, Indexed;
      match step
      case RequestStep(req, eventSink, aborted) => var _ := Accept(req, eventSink, aborted);
      case ProceedStep(aborted) => CreateSession(aborted);
      case StartedStep(k, ok) => OnTransportUp(k, ok);
      case ThreadStep(k, ok, id, model) => OnThreadReply(k, ok, id, model);
      case TurnStep(k, ok, id) => OnTurnReply(k, ok, id);
      case InterruptedStep(k) => OnInterruptReply(k);
      case NoteStep(ref, n) => OnNotification(ref, n);
      case ServerStep(r) => OnRequest(r);
      case AbortStep => Stop(ClientDisconnected);
      case TimeoutStep => Stop(GenerationTimeout);
      case ExpireStep => Expire();
      case FinalizeStep => Conclude();
      case ExitStep => OnExit();
      case CloseStep => Close();
    }
  }

  /** Only a session there is can be continued. */
  lemma RefusalSome(b: Bridge, req: Request, aborted: bool)
    ensures Refusal(b, req, aborted).None? && req.previous.Some? ==> b.session.Some?
  {
    hide ValidRequest, ChangesConfig, Engaged;
  }

  lemma FreshIndexed(sink: Sink)
    ensures Indexed(Start(Fresh, sink).seg)
  {
  }
}
