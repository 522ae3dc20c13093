/**
  No upstream work is leaked or cancelled for someone else, and exactly where the program lets some slip.

  A thread returned by thread/start belongs to the live session or is given back; a turn a session heard of
  is held by the live session, was reported as completed, or was interrupted. A thread slips away exactly
  when another one is attached over it, and a turn exactly when the session takes up another one in its
  place, passes an acknowledged one over, or hears of one before it has a thread. An interrupt names the
  thread and a turn of one and the same session, which is no longer live.
 */
module BridgeUpstream {
  import opened Wrappers
  import opened ResponseSegments
  import opened BridgeState
  import opened BridgeOperations

  /** The thread is in use, given back, or about to be once the interrupt before it has settled. */
  ghost predicate Owned(b: Bridge, sid: nat, thread: ThreadId) {
    || (Live(b, sid) && b.session.value.threadId == Some(thread))
    || Unsubscribe(sid, thread) in b.wire.sent
    || exists k :: k in b.tasks && b.tasks[k] == AwaitInterrupt(sid, thread)
  }

  ghost predicate Interrupted(sent: seq<Sent>, sid: nat, turn: TurnId) {
    exists m :: m in sent && m.Interrupt? && m.sid == sid && m.turn == turn
  }

  /** The live session, which could interrupt it, holds the turn; or it was completed; or interrupted. */
  ghost predicate InHand(b: Bridge, sid: nat, turn: TurnId) {
    || (Live(b, sid) && b.session.value.threadId.Some? && b.session.value.turnId == Some(turn))
    || (sid, turn) in b.wire.ended
    || Interrupted(b.wire.sent, sid, turn)
  }

  ghost predicate ThreadsOwned(b: Bridge) {
    forall sid: nat, thread: ThreadId :: (sid, thread) in b.wire.threads ==> Owned(b, sid, thread)
  }

  ghost predicate TurnsInHand(b: Bridge) {
    forall sid: nat, turn: TurnId :: (sid, turn) in b.wire.turns ==> InHand(b, sid, turn)
  }

  // ---------------------------------------------------------------------------
  // The logs
  // ---------------------------------------------------------------------------

  /** The session objects, live and dead, agree with the log of their threads and turns. */
  ghost predicate SessionsLogged(b: Bridge) {
    && (forall sid :: sid in b.wire.threadOf ==> sid < b.nextSession && (sid, b.wire.threadOf[sid]) in b.wire.threads)
    && (b.session.Some? ==>
          && b.session.value.sid < b.nextSession
          && (b.session.value.threadId.Some? ==>
                b.session.value.sid in b.wire.threadOf && b.wire.threadOf[b.session.value.sid] == b.session.value.threadId.value)
          && (b.session.value.threadId.None? ==> b.session.value.sid !in b.wire.threadOf)
          && (b.session.value.turnId.Some? ==> (b.session.value.sid, b.session.value.turnId.value) in b.wire.turns))
  }

  ghost predicate TasksLogged(b: Bridge) {
    forall k :: k in b.tasks ==>
      && k < b.nextTask && b.tasks[k].sid < b.nextSession
      && (b.tasks[k].AwaitTurn? ==> b.tasks[k].sid in b.wire.threadOf)
      && (b.tasks[k].AwaitInterrupt? ==> !Live(b, b.tasks[k].sid))
  }

  /** What was retired belongs to dead sessions; an interrupt names the session's thread and a turn it heard of. */
  ghost predicate SentLogged(b: Bridge) {
    forall m :: m in b.wire.sent && (m.Interrupt? || m.Unsubscribe?) ==>
      && m.sid < b.nextSession && !Live(b, m.sid)
      && (m.Interrupt? ==>
            m.sid in b.wire.threadOf && b.wire.threadOf[m.sid] == m.thread && (m.sid, m.turn) in b.wire.turns)
  }

  ghost predicate Logged(b: Bridge) { SessionsLogged(b) && TasksLogged(b) && SentLogged(b) }

  // ---------------------------------------------------------------------------
  // What a step may do
  // ---------------------------------------------------------------------------

  /** No thread and no turn came or went, and what is looked after stays so. */
  ghost predicate Hands(b: Bridge, c: Bridge) {
    && c.wire.threads == b.wire.threads && c.wire.turns == b.wire.turns
    && (forall sid: nat, thread: ThreadId :: Owned(c, sid, thread) <==> Owned(b, sid, thread))
    && (forall sid: nat, turn: TurnId :: InHand(b, sid, turn) ==> InHand(c, sid, turn))
  }

  ghost predicate GainsNothing(b: Bridge, c: Bridge) {
    forall sid: nat, turn: TurnId :: InHand(c, sid, turn) ==> InHand(b, sid, turn)
  }

  lemma HandsTwice(b: Bridge, c: Bridge, d: Bridge)
    requires Hands(b, c) && Hands(c, d)
    ensures Hands(b, d)
    ensures GainsNothing(b, c) && GainsNothing(c, d) ==> GainsNothing(b, d)
  {
    hide Owned, InHand;
  }

  /** Nothing upstream changed, except that the session may have let go of a turn that ended. */
  ghost predicate SameWork(b: Bridge, c: Bridge) {
    && c.wire.(ended := b.wire.ended) == b.wire && b.wire.ended <= c.wire.ended
    && c.tasks == b.tasks && c.nextTask == b.nextTask && c.nextSession == b.nextSession
    && (b.session.None? <==> c.session.None?)
    && (b.session.Some? ==>
          && c.session.value.sid == b.session.value.sid && c.session.value.threadId == b.session.value.threadId
          && (c.session.value.turnId == b.session.value.turnId
              || (c.session.value.turnId.None?
                  && (b.session.value.sid, b.session.value.turnId.value) in c.wire.ended)))
  }

  lemma SameWorkTwice(b: Bridge, c: Bridge, d: Bridge)
    requires SameWork(b, c) && SameWork(c, d)
    ensures SameWork(b, d)
  {
  }

  lemma SameWorkHands(b: Bridge, c: Bridge)
    requires Logged(b) && SameWork(b, c)
    ensures Logged(c) && Hands(b, c)
    ensures c.wire.ended == b.wire.ended ==> GainsNothing(b, c)
  {
    SameWorkLogged(b, c);
    hide Logged;
    forall sid, thread ensures Owned(c, sid, thread) <==> Owned(b, sid, thread) {
    }
    forall sid, turn | InHand(b, sid, turn) ensures InHand(c, sid, turn) {
    }
    if c.wire.ended == b.wire.ended {
      forall sid, turn | InHand(c, sid, turn) ensures InHand(b, sid, turn) {
      }
    }
  }

  lemma SameWorkLogged(b: Bridge, c: Bridge)
    requires Logged(b) && SameWork(b, c)
    ensures Logged(c)
  {
  }

  lemma WithinHands(b: Bridge, c: Bridge)
    requires Logged(b) && Within(b, c) && (b.session.Some? ==> c.session.value.turnId == b.session.value.turnId)
    ensures Logged(c) && Hands(b, c) && GainsNothing(b, c)
  {
    hide Logged, Hands, GainsNothing;
    SameWorkHands(b, c);
  }

  /** A continuation that owns no thread went. */
  lemma RemoveHands(b: Bridge, k: nat)
    requires Logged(b) && (k in b.tasks ==> !b.tasks[k].AwaitInterrupt?)
    ensures Logged(RemoveTask(b, k)) && Hands(b, RemoveTask(b, k)) && GainsNothing(b, RemoveTask(b, k))
  {
    var c := RemoveTask(b, k);
    hide Interrupted;
    forall sid, thread ensures Owned(c, sid, thread) <==> Owned(b, sid, thread) {
      if j :| j in b.tasks && b.tasks[j] == AwaitInterrupt(sid, thread) {
        assert j in c.tasks && c.tasks[j] == AwaitInterrupt(sid, thread);
      }
      if j :| j in c.tasks && c.tasks[j] == AwaitInterrupt(sid, thread) {
        assert j in b.tasks && b.tasks[j] == AwaitInterrupt(sid, thread);
      }
    }
  }

  /** A continuation that owns no thread came, after a message that retires nothing. */
  lemma AddTaskHands(b: Bridge, m: Sent, t: Task)
    requires Logged(b) && (m.StartThread? || m.StartTurn?)
    requires !t.AwaitInterrupt? && t.sid < b.nextSession && (t.AwaitTurn? ==> t.sid in b.wire.threadOf)
    ensures Logged(AddTask(Send(b, m), t)) && Hands(b, AddTask(Send(b, m), t))
    ensures Logged(AddTask(b, t)) && Hands(b, AddTask(b, t))
  {
    TaskHands(b, AddTask(b, t), t);
    SendHands(b, m);
    hide Logged, Hands;
    TaskHands(Send(b, m), AddTask(Send(b, m), t), t) by { SentTask(b, m); }
    HandsTwice(b, Send(b, m), AddTask(Send(b, m), t));
  }

  lemma SentTask(b: Bridge, m: Sent)
    ensures Send(b, m).nextSession == b.nextSession && Send(b, m).wire.threadOf == b.wire.threadOf
  {
  }

  lemma TaskHands(b: Bridge, c: Bridge, t: Task)
    requires Logged(b) && c == AddTask(b, t)
    requires !t.AwaitInterrupt? && t.sid < b.nextSession && (t.AwaitTurn? ==> t.sid in b.wire.threadOf)
    ensures Logged(c) && Hands(b, c)
  {
    hide Interrupted;
    assert b.nextTask !in b.tasks;
    forall sid, thread ensures Owned(c, sid, thread) <==> Owned(b, sid, thread) {
      if j :| j in b.tasks && b.tasks[j] == AwaitInterrupt(sid, thread) {
        assert j in c.tasks && c.tasks[j] == AwaitInterrupt(sid, thread);
      }
      if j :| j in c.tasks && c.tasks[j] == AwaitInterrupt(sid, thread) {
        assert j in b.tasks && b.tasks[j] == AwaitInterrupt(sid, thread);
      }
    }
  }

  lemma SendHands(b: Bridge, m: Sent)
    requires Logged(b) && (m.StartThread? || m.StartTurn?)
    ensures Logged(Send(b, m)) && Hands(b, Send(b, m))
  {
    var c := Send(b, m);
    assert forall x: Sent :: x != m ==> (x in c.wire.sent <==> x in b.wire.sent);
    forall sid, turn | InHand(b, sid, turn) ensures InHand(c, sid, turn) {
    }
  }

  // ---------------------------------------------------------------------------
  // The end of a session
  // ---------------------------------------------------------------------------

  /** What a session that ends sends. */
  function Farewell(s: Session): seq<Sent> {
    if s.threadId.None? then []
    else if s.turnId.Some? then [Interrupt(s.sid, s.threadId.value, s.turnId.value)]
    else [Unsubscribe(s.sid, s.threadId.value)]
  }

  /** The session is gone, has said its farewell, and waits for its interrupt to settle. */
  ghost predicate Left(b: Bridge, s: Session, c: Bridge) {
    && c.session.None? && c.nextSession == b.nextSession
    && c.wire.(dead := b.wire.dead) == b.wire.(sent := b.wire.sent + Farewell(s))
    && (if s.threadId.Some? && s.turnId.Some?
        then c.tasks == b.tasks[b.nextTask := AwaitInterrupt(s.sid, s.threadId.value)] && c.nextTask == b.nextTask + 1
        else c.tasks == b.tasks && c.nextTask == b.nextTask)
  }

  lemma ReleaseLeft(b: Bridge)
    requires b.session.Some?
    ensures Left(b, b.session.value, Release(b))
  {
    hide CancelAll, Outstanding;
    assert b.wire.sent + [] == b.wire.sent;
  }

  lemma LeftSent(b: Bridge, s: Session, c: Bridge, m: Sent)
    requires Left(b, s, c)
    ensures m in c.wire.sent <==> m in b.wire.sent || m in Farewell(s)
  {
  }

  lemma LeftLogged(b: Bridge, c: Bridge)
    requires Logged(b) && b.session.Some? && Left(b, b.session.value, c)
    ensures Logged(c)
  {
    forall m | m in c.wire.sent && (m.Interrupt? || m.Unsubscribe?)
      ensures m.sid < c.nextSession && !Live(c, m.sid)
      ensures m.Interrupt? ==>
        m.sid in c.wire.threadOf && c.wire.threadOf[m.sid] == m.thread && (m.sid, m.turn) in c.wire.turns
    {
      LeftSent(b, b.session.value, c, m);
    }
  }

  lemma LeftOwned(b: Bridge, c: Bridge, sid: nat, thread: ThreadId)
    requires Logged(b) && b.session.Some? && Left(b, b.session.value, c)
    ensures Owned(c, sid, thread) <==> Owned(b, sid, thread)
  {
    var s := b.session.value;
    LeftSent(b, s, c, Unsubscribe(sid, thread));
    hide SessionsLogged, SentLogged;
    assert b.nextTask !in b.tasks;
    if j :| j in b.tasks && b.tasks[j] == AwaitInterrupt(sid, thread) {
      assert j in c.tasks && c.tasks[j] == AwaitInterrupt(sid, thread);
    }
    if s.threadId.Some? && s.turnId.Some? {
      assert c.tasks[b.nextTask] == AwaitInterrupt(s.sid, s.threadId.value);
    }
    if j :| j in c.tasks && c.tasks[j] == AwaitInterrupt(sid, thread) {
      assert j == b.nextTask || (j in b.tasks && b.tasks[j] == AwaitInterrupt(sid, thread));
    }
  }

  lemma LeftInHand(b: Bridge, c: Bridge, sid: nat, turn: TurnId)
    requires b.session.Some? && Left(b, b.session.value, c)
    ensures InHand(c, sid, turn) <==> InHand(b, sid, turn)
  {
    var s := b.session.value;
    forall m: Sent ensures m in c.wire.sent <==> m in b.wire.sent || m in Farewell(s) {
      LeftSent(b, s, c, m);
    }
    if s.threadId.Some? && s.turnId.Some? {
      assert Interrupt(s.sid, s.threadId.value, s.turnId.value) in Farewell(s);
    }
  }

  /** The end of a session retires its turn and its thread, and nothing else. */
  lemma ReleaseHands(b: Bridge)
    requires Logged(b)
    ensures Logged(Release(b)) && Hands(b, Release(b)) && GainsNothing(b, Release(b))
  {
    var c := Release(b);
    if b.session.Some? {
      ReleaseLeft(b);
      LeftLogged(b, c);
      hide Logged, Release, Left, Owned, InHand;
      LeftLogs(b, b.session.value, c);
      forall sid, thread ensures Owned(c, sid, thread) <==> Owned(b, sid, thread) {
        LeftOwned(b, c, sid, thread);
      }
      forall sid, turn ensures InHand(c, sid, turn) <==> InHand(b, sid, turn) {
        LeftInHand(b, c, sid, turn);
      }
    } else {
      hide Logged, Hands, GainsNothing;
      SameWorkHands(b, c);
    }
  }

  lemma LeftLogs(b: Bridge, s: Session, c: Bridge)
    requires Left(b, s, c)
    ensures c.wire.threads == b.wire.threads && c.wire.turns == b.wire.turns
  {
  }

  lemma FailHands(b: Bridge, error: Fault)
    requires Logged(b)
    ensures Logged(Fail(b, error)) && Hands(b, Fail(b, error)) && GainsNothing(b, Fail(b, error))
  {
    hide Logged, Hands, GainsNothing, Release, Reject, CancelAll, Outstanding;
    var c := if Unsettled(b) then Reject(b, error) else b;
    SameWorkHands(b, c);
    ReleaseHands(c);
    HandsTwice(b, c, Release(c));
  }

  lemma DriveFaultHands(b: Bridge, oid: nat, fault: Option<Fault>)
    requires Sane(b) && Logged(b)
    ensures Logged(DriveFault(b, oid, fault)) && Hands(b, DriveFault(b, oid, fault))
  {
    hide Logged, Hands, Fail;
    SelfHands(b);
    if fault.Some? {
      FailHands(b, fault.value);
    }
  }

  lemma SelfHands(b: Bridge)
    ensures Hands(b, b) && GainsNothing(b, b)
  {
  }

  lemma HandleHands(e: Effect)
    requires Sane(e.bridge) && Logged(e.bridge)
    ensures Logged(Handle(e)) && Hands(e.bridge, Handle(e)) && GainsNothing(e.bridge, Handle(e))
  {
    hide Logged, Hands, GainsNothing, Fail;
    SelfHands(e.bridge);
    if e.fault.Some? {
      FailHands(e.bridge, e.fault.value);
    }
  }

  // ---------------------------------------------------------------------------
  // Driving a request
  // ---------------------------------------------------------------------------

  lemma HandOverWork(b: Bridge, n: Note)
    requires Sane(b)
    ensures SameWork(b, HandOver(b, n).bridge)
  {
    hide TextDeltaStep, CompleteMessage, Complete;
  }

  lemma {:induction false} ConsumeAllWork(b: Bridge, notes: seq<Note>)
    requires Sane(b)
    ensures SameWork(b, ConsumeAll(b, notes).bridge)
    decreases |notes|
  {
    hide HandOver;
    if notes == [] {
      assert ConsumeAll(b, notes) == Effect(b, None);
    } else {
      var r := HandOver(b, notes[0]);
      HandOverWork(b, notes[0]);
      if r.fault.None? {
        ConsumeAllWork(r.bridge, notes[1..]);
        SameWorkTwice(b, r.bridge, ConsumeAll(r.bridge, notes[1..]).bridge);
      }
    }
  }

  lemma ResumeWork(b: Bridge, output: string)
    requires Sane(b) && b.session.Some?
    ensures SameWork(b, Resume(b, output).bridge)
  {
    hide ConsumeAll, FlushTool, Outstanding;
    if b.session.value.waiting.Some? && b.rpc == Open {
      var answered := AnswerWaiting(b, output);
      var r := ConsumeAll(answered, b.session.value.buffered);
      ConsumeAllWork(answered, b.session.value.buffered);
      assert SameWork(b, r.bridge);
      if r.fault.None? {
        WithinWork(r.bridge, FlushTool(r.bridge).bridge);
        SameWorkTwice(b, r.bridge, FlushTool(r.bridge).bridge);
      }
    }
  }

  lemma WithinWork(b: Bridge, c: Bridge)
    requires Within(b, c) && (b.session.Some? ==> c.session.value.turnId == b.session.value.turnId)
    ensures SameWork(b, c)
  {
  }

  lemma WithThreadHands(b: Bridge, oid: nat, req: Request)
    requires Sane(b) && Logged(b) && b.session.Some? && b.session.value.threadId.Some?
    ensures Logged(WithThread(b, oid, req)) && Hands(b, WithThread(b, oid, req))
  {
    LiveLogged(b);
    hide Logged, Hands, SameWork, Resume, DriveFault;
    if req.input.ToolOutput? {
      var r := Resume(b, req.input.output);
      ResumeWork(b, req.input.output);
      SameWorkHands(b, r.bridge);
      DriveFaultHands(r.bridge, oid, r.fault);
      HandsTwice(b, r.bridge, DriveFault(r.bridge, oid, r.fault));
    } else {
      var s := b.session.value;
      AddTaskHands(b, StartTurn(s.sid, s.threadId.value, req.input.text, s.config.effort), AwaitTurn(s.sid, oid));
    }
  }

  lemma LiveLogged(b: Bridge)
    requires Logged(b) && b.session.Some?
    ensures b.session.value.sid < b.nextSession
    ensures b.session.value.threadId.Some? <==> b.session.value.sid in b.wire.threadOf
  {
  }

  lemma AfterStartHands(b: Bridge, sid: nat, oid: nat, req: Request)
    requires Sane(b) && Logged(b)
    ensures Logged(AfterStart(b, sid, oid, req)) && Hands(b, AfterStart(b, sid, oid, req))
  {
    hide Logged, Hands, WithThread;
    SelfHands(b);
    if Live(b, sid) {
      LiveLogged(b);
      if b.session.value.threadId.None? {
        AddTaskHands(b, StartThread(sid, b.session.value.config), AwaitThread(sid, oid, req));
      } else {
        WithThreadHands(b, oid, req);
      }
    }
  }

  lemma EnterHands(b: Bridge, sink: Sink)
    requires Logged(b) && b.session.Some?
    ensures Logged(Enter(b, sink)) && Hands(b, Enter(b, sink))
  {
    hide Logged, Hands, Start, Fail;
    var entered := Entering(b, sink, Start(Fresh, sink).seg);
    SameWorkHands(b, entered);
    if Start(Fresh, sink).fault.Some? {
      FailHands(entered, Start(Fresh, sink).fault.value);
      HandsTwice(b, entered, Enter(b, sink));
    }
  }

  lemma LaunchHands(b: Bridge, oid: nat, req: Request)
    requires Sane(b) && Logged(b) && b.session.Some?
    ensures Logged(Launch(b, oid, req)) && Hands(b, Launch(b, oid, req))
  {
    LiveLogged(b);
    hide Logged, Hands, DriveFault, AfterStart;
    if b.session.value.threadId.None? {
      AddTaskHands(b, StartThread(0, b.session.value.config), AwaitStart(b.session.value.sid, oid, req));
    } else {
      DriveFaultHands(b, oid, Some(RpcError));
      AfterStartHands(b, b.session.value.sid, oid, req);
    }
  }

  lemma BeginHands(b: Bridge, req: Request, sink: Sink, aborted: bool)
    requires Logged(b) && b.session.Some?
    ensures Logged(Begin(b, req, sink, aborted)) && Hands(b, Begin(b, req, sink, aborted))
  {
    hide Logged, Hands, Enter, Fail, Launch;
    var entered := Enter(b, sink);
    EnterHands(b, sink);
    FailHands(entered, ClientDisconnected);
    HandsTwice(b, entered, Fail(entered, ClientDisconnected));
    if entered.session.Some? {
      LaunchHands(entered, b.nextOperation, req);
      HandsTwice(b, entered, Launch(entered, b.nextOperation, req));
    }
  }

  lemma RespondHands(b: Bridge, req: Request, sink: Sink, aborted: bool)
    requires Sane(b) && Logged(b)
    ensures Logged(Respond(b, req, sink, aborted).0) && Hands(b, Respond(b, req, sink, aborted).0)
  {
    hide Logged, Hands, Release, Begin;
    SelfHands(b);
    if Refusal(b, req, aborted).None? {
      if req.previous.None? {
        var taken := b.(busy := true, timer := false, starting := Some(Starting(req, sink)));
        SameWorkHands(b, taken);
        ReleaseHands(taken);
        HandsTwice(b, taken, Release(taken));
      } else {
        var c := Continue(b, req.previous.value);
        SameWorkHands(b, c);
        BeginHands(c, req, sink, false);
        HandsTwice(b, c, Begin(c, req, sink, false));
      }
    }
  }

  lemma CreateHands(b: Bridge, req: Request)
    requires Logged(b) && b.session.None? && req.model.Some?
    ensures Logged(Create(b, req)) && Hands(b, Create(b, req))
  {
    hide Interrupted;
    assert b.nextSession !in b.wire.threadOf;
  }

  lemma ProceedHands(b: Bridge, aborted: bool)
    requires Sane(b) && Logged(b) && (b.starting.Some? ==> b.session.None?)
    ensures Logged(Proceed(b, aborted)) && Hands(b, Proceed(b, aborted))
  {
    hide Logged, Hands, Begin;
    SelfHands(b);
    if b.starting.Some? && b.starting.value.req.model.Some? {
      var c := Create(b, b.starting.value.req);
      CreateHands(b, b.starting.value.req);
      BeginHands(c, b.starting.value.req, b.starting.value.sink, aborted);
      HandsTwice(b, c, Proceed(b, aborted));
    }
  }

  lemma OnStartedHands(b: Bridge, k: nat, ok: bool)
    requires Sane(b) && Logged(b)
    ensures Logged(OnStarted(b, k, ok)) && Hands(b, OnStarted(b, k, ok))
  {
    hide Logged, Hands, DriveFault, AfterStart;
    SelfHands(b);
    if k in b.tasks && b.tasks[k].AwaitStart? {
      var t := b.tasks[k];
      var c := RemoveTask(b, k);
      var up := c.(rpc := Open);
      RemoveHands(b, k);
      DriveFaultHands(c, t.oid, Some(RpcError));
      HandsTwice(b, c, DriveFault(c, t.oid, Some(RpcError)));
      SameWorkHands(c, up);
      AfterStartHands(up, t.sid, t.oid, t.req);
      HandsTwice(c, up, AfterStart(up, t.sid, t.oid, t.req));
      HandsTwice(b, c, AfterStart(up, t.sid, t.oid, t.req));
    }
  }

  // ---------------------------------------------------------------------------
  // Threads
  // ---------------------------------------------------------------------------

  /** A reply attaches another thread to the live session, which has this one. */
  predicate DisplacesThread(b: Bridge, step: Step, sid: nat, thread: ThreadId) {
    && step.ThreadStep? && step.task in b.tasks && b.tasks[step.task].AwaitThread? && b.tasks[step.task].sid == sid
    && step.ok && step.id.Some? && Live(b, sid)
    && b.session.value.threadId == Some(thread) && step.id.value != thread
  }

  /** Threads only come, and a thread that was looked after still is, unless the step displaces it. */
  ghost predicate ThreadsMove(b: Bridge, c: Bridge, step: Step) {
    && b.wire.threads <= c.wire.threads
    && forall sid: nat, thread: ThreadId :: (sid, thread) in c.wire.threads && ((sid, thread) in b.wire.threads ==> Owned(b, sid, thread))
         ==> (Owned(c, sid, thread) <==> !DisplacesThread(b, step, sid, thread))
  }

  /** A turn of the live session slips away: the guards of the three branches in which it does. */
  predicate DisplacesTurn(b: Bridge, step: Step, sid: nat, turn: TurnId) {
    && Live(b, sid) && (sid, turn) !in b.wire.ended
    && var s := b.session.value;
      match step
      case NoteStep(ref, n) =>
        && Addressed(ref, s) && n.body.TurnStarted? && n.body.turn.Some?
        && ((s.turnId == Some(turn) && n.body.turn.value.id != Some(turn))
            || (s.threadId.None? && n.body.turn.value.id == Some(turn)))
      case ServerStep(r) =>
        r.toolCall && Addressed(r.thread, s) && Acceptable(s, r) && s.threadId.None? && r.turnId == Some(turn)
      case TurnStep(k, ok, id) =>
        && k in b.tasks && b.tasks[k].AwaitTurn? && b.tasks[k].sid == sid && ok && id == Some(turn)
        && s.turnId != Some(turn)
        && !(s.turnId.None? && Generating(b) && b.operation.value.oid == b.tasks[k].oid)
      case _ => false
  }

  /** Turns are only heard of, and a turn that was in hand still is, unless the step displaces it. */
  ghost predicate TurnsMove(b: Bridge, c: Bridge, step: Step) {
    && b.wire.turns <= c.wire.turns
    && (forall sid: nat, turn: TurnId :: DisplacesTurn(b, step, sid, turn) ==> (sid, turn) in c.wire.turns)
    && forall sid: nat, turn: TurnId :: (sid, turn) in c.wire.turns && ((sid, turn) in b.wire.turns ==> InHand(b, sid, turn))
         ==> (InHand(c, sid, turn) <==> !DisplacesTurn(b, step, sid, turn))
  }

  ghost predicate Moves(b: Bridge, c: Bridge, step: Step) { ThreadsMove(b, c, step) && TurnsMove(b, c, step) }

  /** A step with nothing that could be displaced. */
  predicate Quiet(step: Step) { !step.ThreadStep? && !step.NoteStep? && !step.ServerStep? && !step.TurnStep? }

  lemma QuietMoves(b: Bridge, c: Bridge, step: Step)
    requires Hands(b, c) && (forall sid: nat, thread: ThreadId :: !DisplacesThread(b, step, sid, thread))
    requires forall sid: nat, turn: TurnId :: !DisplacesTurn(b, step, sid, turn)
    ensures Moves(b, c, step)
  {
    hide Owned, InHand, DisplacesThread, DisplacesTurn;
  }

  lemma QuietSteps(b: Bridge, step: Step)
    ensures !step.ThreadStep? ==> forall sid: nat, thread: ThreadId :: !DisplacesThread(b, step, sid, thread)
    ensures Quiet(step) || step.ThreadStep? ==> forall sid: nat, turn: TurnId :: !DisplacesTurn(b, step, sid, turn)
  {
  }

  /** A thread that arrives for the live session, over the one it may have had. */
  lemma AttachLogged(b: Bridge, id: ThreadId)
    requires Logged(b) && b.session.Some?
    ensures Logged(Attach(Return(b, b.session.value.sid, id), id))
  {
  }

  lemma AttachOwned(b: Bridge, id: ThreadId, sid: nat, thread: ThreadId)
    requires Logged(b) && b.session.Some?
    ensures var c := Attach(Return(b, b.session.value.sid, id), id);
      var s := b.session.value;
      Owned(c, sid, thread) <==>
      (sid == s.sid && thread == id) || (Owned(b, sid, thread) && !(sid == s.sid && s.threadId == Some(thread)))
  {
  }

  lemma AttachInHand(b: Bridge, id: ThreadId, sid: nat, turn: TurnId)
    requires b.session.Some? && InHand(b, sid, turn)
    ensures InHand(Attach(Return(b, b.session.value.sid, id), id), sid, turn)
  {
    hide Interrupted;
  }

  lemma AttachMoves(b: Bridge, step: Step, d: Bridge)
    requires Logged(b) && step.ThreadStep? && step.task in b.tasks && b.tasks[step.task].AwaitThread? && step.ok && step.id.Some?
    requires Live(b, b.tasks[step.task].sid)
    requires Hands(Attach(Return(RemoveTask(b, step.task), b.tasks[step.task].sid, step.id.value), step.id.value), d)
    ensures Moves(b, d, step)
  {
    var c := RemoveTask(b, step.task);
    var sid := b.tasks[step.task].sid;
    var attached := Attach(Return(c, sid, step.id.value), step.id.value);
    RemoveHands(b, step.task);
    AttachLogs(c, step.id.value);
    LiveThread(b);
    QuietSteps(b, step);
    hide Logged, Owned, InHand, Attach, Return, DisplacesTurn;
    forall s, thread | (s, thread) in d.wire.threads && ((s, thread) in b.wire.threads ==> Owned(b, s, thread))
      ensures Owned(d, s, thread) <==> !DisplacesThread(b, step, s, thread)
    {
      AttachOwned(c, step.id.value, s, thread);
    }
    forall s, turn | InHand(b, s, turn) ensures InHand(d, s, turn) {
      AttachInHand(c, step.id.value, s, turn);
    }
  }

  lemma LiveThread(b: Bridge)
    requires Logged(b)
    ensures b.session.Some? && b.session.value.threadId.Some? ==>
      (b.session.value.sid, b.session.value.threadId.value) in b.wire.threads
  {
  }

  lemma AttachLogs(b: Bridge, id: ThreadId)
    requires b.session.Some?
    ensures var c := Attach(Return(b, b.session.value.sid, id), id);
      c.wire.threads == b.wire.threads + {(b.session.value.sid, id)} && c.wire.turns == b.wire.turns
  {
  }

  /** A thread that arrives for a session that is no longer live is given back. */
  lemma GiveBackLogged(b: Bridge, sid: nat, id: ThreadId)
    requires Logged(b) && sid < b.nextSession && !Live(b, sid)
    ensures Logged(Send(Return(b, sid, id), Unsubscribe(sid, id)))
  {
  }

  lemma GiveBackMoves(b: Bridge, step: Step)
    requires Logged(b) && step.ThreadStep? && step.task in b.tasks && b.tasks[step.task].AwaitThread? && step.id.Some?
    requires !Live(b, b.tasks[step.task].sid)
    ensures var t := b.tasks[step.task];
      var c := Send(Return(RemoveTask(b, step.task), t.sid, step.id.value), Unsubscribe(t.sid, step.id.value));
      Logged(c) && Moves(b, c, step)
  {
    var sid := b.tasks[step.task].sid;
    var id := step.id.value;
    var r := RemoveTask(b, step.task);
    var c := Send(Return(r, sid, id), Unsubscribe(sid, id));
    RemoveHands(b, step.task);
    GiveBackLogged(r, sid, id);
    QuietSteps(b, step);
    hide Logged, DisplacesTurn;
    assert Unsubscribe(sid, id) in c.wire.sent;
    forall m: Sent ensures m in c.wire.sent <==> m in r.wire.sent || m == Unsubscribe(sid, id) {
    }
    forall s, thread ensures Owned(c, s, thread) <==> Owned(r, s, thread) || (s == sid && thread == id) {
    }
    forall s, turn | InHand(r, s, turn) ensures InHand(c, s, turn) {
    }
    hide Owned, InHand;
  }

  lemma OnThreadMoves(b: Bridge, step: Step)
    requires Sane(b) && Logged(b) && step.ThreadStep?
    ensures Logged(Next(b, step)) && Moves(b, Next(b, step), step)
  {
    QuietSteps(b, step);
    var k := step.task;
    if k in b.tasks && b.tasks[k].AwaitThread? {
      if step.ok && step.id.Some? && Live(b, b.tasks[k].sid) {
        AttachedMoves(b, step);
      } else {
        UnattachedMoves(b, step);
      }
    } else {
      hide Moves, Logged, Hands, DisplacesTurn;
      SelfHands(b);
      QuietMoves(b, b, step);
    }
  }

  lemma AttachedMoves(b: Bridge, step: Step)
    requires Sane(b) && Logged(b) && step.ThreadStep? && step.task in b.tasks && b.tasks[step.task].AwaitThread?
    requires step.ok && step.id.Some? && Live(b, b.tasks[step.task].sid)
    ensures Logged(Next(b, step)) && Moves(b, Next(b, step), step)
  {
    hide Moves, Logged, Hands, DriveFault, WithThread, DisplacesTurn, DisplacesThread;
    var t := b.tasks[step.task];
    var c := RemoveTask(b, step.task);
    var attached := Attach(Return(c, t.sid, step.id.value), step.id.value);
    RemoveHands(b, step.task);
    AttachLogged(c, step.id.value);
    DriveFaultHands(attached, t.oid, Some(ModelMismatch));
    WithThreadHands(attached, t.oid, t.req);
    AttachMoves(b, step, Next(b, step));
  }

  lemma UnattachedMoves(b: Bridge, step: Step)
    requires Sane(b) && Logged(b) && step.ThreadStep? && step.task in b.tasks && b.tasks[step.task].AwaitThread?
    requires !(step.ok && step.id.Some? && Live(b, b.tasks[step.task].sid))
    ensures Logged(Next(b, step)) && Moves(b, Next(b, step), step)
  {
    QuietSteps(b, step);
    assert forall sid: nat, thread: ThreadId :: !DisplacesThread(b, step, sid, thread);
    hide Moves, Logged, Hands, DriveFault, WithThread, DisplacesTurn, DisplacesThread;
    var t := b.tasks[step.task];
    var c := RemoveTask(b, step.task);
    RemoveHands(b, step.task);
    DriveFaultHands(c, t.oid, Some(RpcError));
    HandsTwice(b, c, DriveFault(c, t.oid, Some(RpcError)));
    DriveFaultHands(c, t.oid, Some(InvalidUpstreamEvent));
    HandsTwice(b, c, DriveFault(c, t.oid, Some(InvalidUpstreamEvent)));
    if step.ok && step.id.Some? {
      GiveBackMoves(b, step);
    } else {
      QuietMoves(b, Next(b, step), step);
    }
  }

  // ---------------------------------------------------------------------------
  // Turns
  // ---------------------------------------------------------------------------

  /** A turn acknowledged after its session died is interrupted. */
  lemma RetireLateLogged(b: Bridge, sid: nat, turn: TurnId)
    requires Logged(b) && sid in b.wire.threadOf && !Live(b, sid)
    ensures Logged(RetireLate(b, sid, b.wire.threadOf[sid], turn))
  {
  }

  lemma RetireLateMoves(b: Bridge, step: Step)
    requires Logged(b) && step.TurnStep? && step.task in b.tasks && b.tasks[step.task].AwaitTurn? && step.turn.Some?
    requires !Live(b, b.tasks[step.task].sid) && b.tasks[step.task].sid in b.wire.threadOf
    ensures var sid := b.tasks[step.task].sid;
      var c := RetireLate(RemoveTask(b, step.task), sid, b.wire.threadOf[sid], step.turn.value);
      Logged(c) && Moves(b, c, step)
  {
    var sid := b.tasks[step.task].sid;
    var turn := step.turn.value;
    var r := RemoveTask(b, step.task);
    var late := Interrupt(sid, b.wire.threadOf[sid], turn);
    var c := RetireLate(r, sid, b.wire.threadOf[sid], turn);
    RemoveHands(b, step.task);
    RetireLateLogged(r, sid, turn);
    QuietSteps(b, step);
    hide Logged;
    assert late in c.wire.sent;
    forall m: Sent ensures m in c.wire.sent <==> m in r.wire.sent || m == late {
    }
    forall s, thread ensures Owned(c, s, thread) <==> Owned(r, s, thread) {
    }
    forall s, u ensures InHand(c, s, u) <==> InHand(r, s, u) || (s == sid && u == turn) {
    }
    hide Owned, InHand;
  }

  /** The live session's turns are never interrupted. */
  lemma LiveInHand(b: Bridge, sid: nat, turn: TurnId)
    requires Logged(b) && Live(b, sid)
    ensures InHand(b, sid, turn) <==>
      (b.session.value.threadId.Some? && b.session.value.turnId == Some(turn)) || (sid, turn) in b.wire.ended
  {
    hide SessionsLogged, TasksLogged;
  }

  /** The live session heard of a turn: its other turns stay in hand unless the step displaces them. */
  ghost predicate Heard(b: Bridge, c: Bridge, turn: TurnId) {
    && b.session.Some? && c.session.Some?
    && c.wire == b.wire.(turns := b.wire.turns + {(b.session.value.sid, turn)}) && c.tasks == b.tasks
    && c.nextTask == b.nextTask && c.nextSession == b.nextSession
    && c.session.value.sid == b.session.value.sid && c.session.value.threadId == b.session.value.threadId
    && (c.session.value.turnId == b.session.value.turnId || c.session.value.turnId == Some(turn))
  }

  lemma HeardLogged(b: Bridge, c: Bridge, turn: TurnId)
    requires Logged(b) && Heard(b, c, turn)
    ensures Logged(c)
  {
  }

  lemma HeardOwned(b: Bridge, c: Bridge, turn: TurnId)
    requires Heard(b, c, turn)
    ensures forall sid: nat, thread: ThreadId :: Owned(c, sid, thread) <==> Owned(b, sid, thread)
    ensures forall sid, t :: !Live(b, sid) ==> (InHand(c, sid, t) <==> InHand(b, sid, t))
  {
    hide Interrupted;
  }

  /** What a step in which the live session hears of a turn displaces, put in terms of what it then holds. */
  lemma HeardMoves(b: Bridge, r: Bridge, c: Bridge, turn: TurnId, step: Step)
    requires Logged(b) && Logged(r) && !step.ThreadStep?
    requires Hands(b, r) && GainsNothing(b, r) && Heard(r, c, turn) && b.session == r.session && r.wire.ended == b.wire.ended
    requires forall sid, t :: DisplacesTurn(b, step, sid, t) ==> Live(b, sid)
    requires forall t: TurnId :: (t == turn || b.session.value.turnId == Some(t)) && (b.session.value.sid, t) !in b.wire.ended ==>
      (DisplacesTurn(b, step, b.session.value.sid, t) <==>
       !(c.session.value.threadId.Some? && c.session.value.turnId == Some(t)))
    requires forall t: TurnId :: DisplacesTurn(b, step, b.session.value.sid, t) ==>
      (t == turn || b.session.value.turnId == Some(t)) && (b.session.value.sid, t) !in b.wire.ended
    ensures Logged(c) && Moves(b, c, step)
  {
    HeardLogged(r, c, turn);
    HeardOwned(r, c, turn);
    QuietSteps(b, step);
    LiveTurn(b);
    var live := b.session.value.sid;
    hide DisplacesTurn, DisplacesThread;
    forall t: TurnId ensures InHand(c, live, t) <==>
      (c.session.value.threadId.Some? && c.session.value.turnId == Some(t)) || (live, t) in b.wire.ended
    {
      LiveInHand(c, live, t);
    }
    forall t: TurnId ensures InHand(b, live, t) <==>
      (b.session.value.threadId.Some? && b.session.value.turnId == Some(t)) || (live, t) in b.wire.ended
    {
      LiveInHand(b, live, t);
    }
    hide Logged, Owned, InHand;
    HeardTurns(b, r, c, turn, step);
  }

  lemma HeardTurns(b: Bridge, r: Bridge, c: Bridge, turn: TurnId, step: Step)
    requires b.session.Some? && Hands(b, r) && GainsNothing(b, r) && Heard(r, c, turn) && b.session == r.session
    requires b.session.value.turnId.Some? ==> (b.session.value.sid, b.session.value.turnId.value) in b.wire.turns
    requires forall sid: nat, thread: ThreadId :: !DisplacesThread(b, step, sid, thread)
    requires forall sid: nat, thread: ThreadId :: Owned(c, sid, thread) <==> Owned(r, sid, thread)
    requires forall sid, t :: !Live(r, sid) ==> (InHand(c, sid, t) <==> InHand(r, sid, t))
    requires forall sid, t :: DisplacesTurn(b, step, sid, t) ==> Live(b, sid)
    requires var live := b.session.value.sid;
      && (forall t: TurnId :: InHand(c, live, t) <==>
            (c.session.value.threadId.Some? && c.session.value.turnId == Some(t)) || (live, t) in b.wire.ended)
      && (forall t: TurnId :: InHand(b, live, t) <==>
            (b.session.value.threadId.Some? && b.session.value.turnId == Some(t)) || (live, t) in b.wire.ended)
      && (forall t: TurnId :: (t == turn || b.session.value.turnId == Some(t)) && (live, t) !in b.wire.ended ==>
            (DisplacesTurn(b, step, live, t) <==> !(c.session.value.threadId.Some? && c.session.value.turnId == Some(t))))
      && (forall t: TurnId :: DisplacesTurn(b, step, live, t) ==>
            (t == turn || b.session.value.turnId == Some(t)) && (live, t) !in b.wire.ended)
    ensures Moves(b, c, step)
  {
    hide Owned, InHand, DisplacesTurn, DisplacesThread;
    var live := b.session.value.sid;
    forall sid, t | (sid, t) in c.wire.turns && ((sid, t) in b.wire.turns ==> InHand(b, sid, t))
      ensures InHand(c, sid, t) <==> !DisplacesTurn(b, step, sid, t)
    {
      if sid == live {
        assert t == turn || (sid, t) in b.wire.turns;
      } else {
        assert (sid, t) in b.wire.turns && InHand(r, sid, t);
      }
    }
  }

  lemma MovesThen(b: Bridge, c: Bridge, d: Bridge, step: Step)
    requires Moves(b, c, step) && Hands(c, d) && GainsNothing(c, d)
    ensures Moves(b, d, step)
  {
    hide Owned, InHand, DisplacesThread, DisplacesTurn;
  }

  /** The acknowledgement of a turn: the live session takes it up, or passes it over. */
  lemma AcknowledgedMoves(b: Bridge, step: Step)
    requires Sane(b) && Logged(b) && step.TurnStep? && step.task in b.tasks && b.tasks[step.task].AwaitTurn?
    requires step.ok && step.turn.Some? && Live(b, b.tasks[step.task].sid)
    ensures Logged(Next(b, step)) && Moves(b, Next(b, step), step)
  {
    var t := b.tasks[step.task];
    var r := RemoveTask(b, step.task);
    var c := Next(b, step);
    assert b.session.value.threadId.Some?;
    assert c == LearnTurn(r, step.turn.value) || c == Hear(r, t.sid, step.turn.value);
    assert Heard(r, c, step.turn.value);
    hide Logged, Hands, GainsNothing, Moves;
    RemoveHands(b, step.task);
    HeardMoves(b, r, c, step.turn.value, step);
  }

  lemma OnTurnMoves(b: Bridge, step: Step)
    requires Sane(b) && Logged(b) && step.TurnStep?
    ensures Logged(Next(b, step)) && Moves(b, Next(b, step), step)
  {
    var k := step.task;
    if k in b.tasks && b.tasks[k].AwaitTurn? && step.ok && step.turn.Some? {
      if Live(b, b.tasks[k].sid) {
        AcknowledgedMoves(b, step);
      } else {
        assert b.tasks[k].sid in b.wire.threadOf;
        hide Moves, Logged;
        RetireLateMoves(b, step);
      }
    } else {
      UnacknowledgedMoves(b, step);
    }
  }

  lemma UnacknowledgedMoves(b: Bridge, step: Step)
    requires Sane(b) && Logged(b) && step.TurnStep?
    requires !(step.task in b.tasks && b.tasks[step.task].AwaitTurn? && step.ok && step.turn.Some?)
    ensures Logged(Next(b, step)) && Moves(b, Next(b, step), step)
  {
    var k := step.task;
    QuietSteps(b, step);
    assert forall sid: nat, turn: TurnId :: !DisplacesTurn(b, step, sid, turn);
    hide Moves, Logged, Hands, DriveFault, DisplacesThread, DisplacesTurn;
    SelfHands(b);
    if k in b.tasks && b.tasks[k].AwaitTurn? {
      var c := RemoveTask(b, k);
      var oid := b.tasks[k].oid;
      RemoveHands(b, k);
      DriveFaultHands(c, oid, Some(RpcError));
      HandsTwice(b, c, DriveFault(c, oid, Some(RpcError)));
      DriveFaultHands(c, oid, Some(InvalidUpstreamEvent));
      HandsTwice(b, c, DriveFault(c, oid, Some(InvalidUpstreamEvent)));
    }
    QuietMoves(b, Next(b, step), step);
  }

  /** A started turn that carries no id: the session forgets the one it had. */
  lemma ForgottenMoves(b: Bridge, step: Step)
    requires Logged(b) && step.NoteStep? && b.session.Some? && Addressed(step.thread, b.session.value)
    requires step.note.body.TurnStarted? && step.note.body.turn.Some? && step.note.body.turn.value.id.None?
    ensures Logged(StartTurnNote(b, None)) && Moves(b, StartTurnNote(b, None), step)
  {
    var c := StartTurnNote(b, None);
    assert Logged(c);
    QuietSteps(b, step);
    hide SessionsLogged, TasksLogged, DisplacesThread;
    forall sid, turn | InHand(b, sid, turn) ensures InHand(c, sid, turn) <==> !DisplacesTurn(b, step, sid, turn) {
    }
    forall sid, thread ensures Owned(c, sid, thread) <==> Owned(b, sid, thread) {
    }
    hide Owned, InHand;
  }

  lemma StartTurnMoves(b: Bridge, step: Step)
    requires Logged(b) && step.NoteStep? && b.session.Some? && Addressed(step.thread, b.session.value)
    requires step.note.body.TurnStarted? && step.note.body.turn.Some?
    ensures var c := StartTurnNote(b, step.note.body.turn.value.id); Logged(c) && Moves(b, c, step)
  {
    var id := step.note.body.turn.value.id;
    var c := StartTurnNote(b, id);
    if id.Some? {
      assert Heard(b, c, id.value);
      hide Logged, Hands, GainsNothing, Moves;
      SelfHands(b);
      HeardMoves(b, b, c, id.value, step);
    } else {
      ForgottenMoves(b, step);
    }
  }

  lemma DispatchHands(b: Bridge, n: Note)
    requires Sane(b) && Logged(b) && b.session.Some?
    ensures Logged(Dispatch(b, n)) && Hands(b, Dispatch(b, n))
  {
    hide Logged, Hands, HandOver, Handle, Fail, Through;
    var a := Arrive(b, n);
    var e := HandOver(a, n);
    SameWorkHands(b, a);
    HandOverWork(a, n);
    SameWorkHands(a, e.bridge);
    HandleHands(e);
    HandsTwice(b, a, e.bridge);
    HandsTwice(b, e.bridge, Handle(e));
    SameWorkHands(b, Buffer(b, n));
    FailHands(Buffer(b, n), UpstreamBufferLimit);
    HandsTwice(b, Buffer(b, n), Fail(Buffer(b, n), UpstreamBufferLimit));
  }

  /** A note takes up a turn, or is filtered out, or fails, or is dispatched. */
  lemma NoteWays(b: Bridge, step: Step)
    requires Sane(b) && step.NoteStep?
    ensures var n := step.note;
      if b.session.Some? && Addressed(step.thread, b.session.value) && n.body.TurnStarted? && n.body.turn.Some?
      then Next(b, step) == StartTurnNote(b, n.body.turn.value.id)
      else
        && (forall sid: nat, turn: TurnId :: !DisplacesTurn(b, step, sid, turn))
        && (|| Next(b, step) == b || Next(b, step) == Fail(b, InvalidUpstreamEvent)
            || Next(b, step) == Fail(b, UpstreamTurnFailed) || Next(b, step) == Fail(b, UnsupportedServerAction)
            || (b.session.Some? && Next(b, step) == Dispatch(b, n)))
  {
    NoteCases(b, step.thread, step.note);
    hide OnNote, Dispatch, Fail;
  }

  lemma OnNoteMoves(b: Bridge, step: Step)
    requires Sane(b) && Logged(b) && step.NoteStep?
    ensures Logged(Next(b, step)) && Moves(b, Next(b, step), step)
  {
    var n := step.note;
    NoteWays(b, step);
    QuietSteps(b, step);
    hide *;
    if b.session.Some? && Addressed(step.thread, b.session.value) && n.body.TurnStarted? && n.body.turn.Some? {
      StartTurnMoves(b, step);
    } else {
      SelfHands(b);
      FailHands(b, InvalidUpstreamEvent);
      FailHands(b, UpstreamTurnFailed);
      FailHands(b, UnsupportedServerAction);
      if b.session.Some? {
        DispatchHands(b, n);
      }
      QuietMoves(b, Next(b, step), step);
    }
  }

  /** A tool call the session takes tells it the turn. */
  lemma QueueMoves(b: Bridge, step: Step)
    requires Sane(b) && Logged(b) && step.ServerStep? && step.request.toolCall && b.session.Some?
    requires Addressed(step.request.thread, b.session.value) && Acceptable(b.session.value, step.request)
    ensures var d := Handle(FlushTool(Queue(b, step.request))); Logged(d) && Moves(b, d, step)
  {
    var c := Queue(b, step.request);
    assert Heard(b, c, step.request.turnId.value);
    hide Logged, Hands, GainsNothing, Moves, FlushTool, Handle;
    SelfHands(b);
    HeardMoves(b, b, c, step.request.turnId.value, step);
    var e := FlushTool(c);
    WithinHands(c, e.bridge);
    HandleHands(e);
    HandsTwice(c, e.bridge, Handle(e));
    MovesThen(b, c, Handle(e), step);
  }

  lemma RefuseHands(b: Bridge, rpcId: nat)
    requires Sane(b) && Logged(b)
    ensures var refused := Refuse(Count(b, rpcId), |b.ledger.received|, rpcId);
      Sane(refused) && Logged(refused) && Hands(b, refused)
  {
    hide Logged, Hands;
    SameWorkHands(b, Refuse(Count(b, rpcId), |b.ledger.received|, rpcId));
  }

  lemma ServerRequestWays(b: Bridge, step: Step)
    requires Sane(b) && step.ServerStep?
    ensures var r := step.request;
      var refused := Refuse(Count(b, r.rpcId), |b.ledger.received|, r.rpcId);
      if r.toolCall && b.session.Some? && Addressed(r.thread, b.session.value) && Acceptable(b.session.value, r)
      then Next(b, step) == Handle(FlushTool(Queue(b, r)))
      else
        && (forall sid: nat, turn: TurnId :: !DisplacesTurn(b, step, sid, turn))
        && (|| Next(b, step) == refused || Next(b, step) == Fail(refused, InvalidUpstreamEvent)
            || Next(b, step) == Fail(refused, UnsupportedServerAction) || Next(b, step) == Fail(refused, InvalidToolCall))
  {
    hide FlushTool, Handle, Fail, Queue, Refuse, Acceptable;
  }

  lemma OnServerRequestMoves(b: Bridge, step: Step)
    requires Sane(b) && Logged(b) && step.ServerStep?
    ensures Logged(Next(b, step)) && Moves(b, Next(b, step), step)
  {
    var r := step.request;
    ServerRequestWays(b, step);
    QuietSteps(b, step);
    hide *;
    if r.toolCall && b.session.Some? && Addressed(r.thread, b.session.value) && Acceptable(b.session.value, r) {
      QueueMoves(b, step);
    } else {
      var refused := Refuse(Count(b, r.rpcId), |b.ledger.received|, r.rpcId);
      RefuseHands(b, r.rpcId);
      RefusedHands(b, refused, InvalidUpstreamEvent);
      RefusedHands(b, refused, UnsupportedServerAction);
      RefusedHands(b, refused, InvalidToolCall);
      QuietMoves(b, Next(b, step), step);
    }
  }

  lemma RefusedHands(b: Bridge, c: Bridge, error: Fault)
    requires Sane(c) && Logged(c) && Hands(b, c)
    ensures Logged(Fail(c, error)) && Hands(b, Fail(c, error))
  {
    hide *;
    FailHands(c, error);
    HandsTwice(b, c, Fail(c, error));
  }

  /** An interrupt that settled is followed by giving the thread back. */
  lemma InterruptedLogged(b: Bridge, k: nat)
    requires Logged(b)
    ensures Logged(OnInterrupted(b, k))
  {
  }

  lemma OnInterruptedHands(b: Bridge, k: nat)
    requires Logged(b)
    ensures Logged(OnInterrupted(b, k)) && Hands(b, OnInterrupted(b, k))
  {
    InterruptedLogged(b, k);
    hide Logged;
    if k in b.tasks && b.tasks[k].AwaitInterrupt? {
      var t := b.tasks[k];
      var c := OnInterrupted(b, k);
      assert Unsubscribe(t.sid, t.thread) in c.wire.sent;
      forall m: Sent ensures m in c.wire.sent <==> m in b.wire.sent || m == Unsubscribe(t.sid, t.thread) {
      }
      forall sid, thread ensures Owned(c, sid, thread) <==> Owned(b, sid, thread) {
        if j :| j in b.tasks && b.tasks[j] == AwaitInterrupt(sid, thread) && j != k {
          assert j in c.tasks && c.tasks[j] == AwaitInterrupt(sid, thread);
        }
        if j :| j in c.tasks && c.tasks[j] == AwaitInterrupt(sid, thread) {
          assert j in b.tasks && b.tasks[j] == AwaitInterrupt(sid, thread);
        }
        assert b.tasks[k] == AwaitInterrupt(t.sid, t.thread);
      }
      forall sid, turn | InHand(b, sid, turn) ensures InHand(c, sid, turn) {
      }
      hide Owned, InHand;
    }
  }

  // ---------------------------------------------------------------------------
  // Every step
  // ---------------------------------------------------------------------------

  lemma StopHands(b: Bridge, step: Step)
    requires Sane(b) && Logged(b)
    requires step.AbortStep? || step.TimeoutStep? || step.ExpireStep? || step.FinalizeStep? || step.ExitStep?
      || step.CloseStep? || step.InterruptedStep?
    ensures Logged(Next(b, step)) && Hands(b, Next(b, step))
  {
    hide Logged, Hands, Fail, Release, OnInterrupted;
    SelfHands(b);
    match step
    case AbortStep => FailHands(b, ClientDisconnected);
    case TimeoutStep => FailHands(b, GenerationTimeout);
    case ExpireStep => ReleaseHands(b);
    case FinalizeStep => SameWorkHands(b, Finalize(b));
    case InterruptedStep(k) => OnInterruptedHands(b, k);
    case ExitStep =>
      SameWorkHands(b, b.(closed := true, rpc := Closed));
      RefusedHands(b, b.(closed := true, rpc := Closed), CodexUnavailable);
    case CloseStep => CloseHands(b);
  }

  lemma CloseHands(b: Bridge)
    requires Sane(b) && Logged(b)
    ensures Logged(Next(b, CloseStep)) && Hands(b, Next(b, CloseStep))
  {
    hide Logged, Hands, Fail, Release;
    SelfHands(b);
    FailHands(b, BridgeShutdown);
    var c := if Unsettled(b) then Fail(b, BridgeShutdown) else b;
    var d := c.(closed := true);
    SameWorkHands(c, d);
    ReleaseHands(d);
    HandsTwice(b, c, d);
    HandsTwice(b, d, Release(d));
  }

  lemma QuietStepHands(b: Bridge, step: Step)
    requires Sane(b) && Logged(b) && (b.starting.Some? ==> b.session.None?) && Quiet(step)
    ensures Logged(Next(b, step)) && Hands(b, Next(b, step))
  {
    hide Logged, Hands, Respond, Proceed, OnStarted, Fail, Release, OnInterrupted, Finalize;
    match step
    case RequestStep(req, sink, aborted) => RespondHands(b, req, sink, aborted);
    case ProceedStep(aborted) => ProceedHands(b, aborted);
    case StartedStep(k, ok) => OnStartedHands(b, k, ok);
    case _ => StopHands(b, step);
  }

  lemma NextMoves(b: Bridge, step: Step)
    requires Sane(b) && Logged(b) && (b.starting.Some? ==> b.session.None?)
    ensures Logged(Next(b, step)) && Moves(b, Next(b, step), step)
  {
    hide *;
    if step.ThreadStep? {
      OnThreadMoves(b, step);
    } else if step.TurnStep? {
      OnTurnMoves(b, step);
    } else if step.NoteStep? {
      OnNoteMoves(b, step);
    } else if step.ServerStep? {
      OnServerRequestMoves(b, step);
    } else {
      OtherMoves(b, step);
    }
  }

  lemma OtherMoves(b: Bridge, step: Step)
    requires Sane(b) && Logged(b) && (b.starting.Some? ==> b.session.None?)
    requires !step.ThreadStep? && !step.TurnStep? && !step.NoteStep? && !step.ServerStep?
    ensures Logged(Next(b, step)) && Moves(b, Next(b, step), step)
  {
    QuietSteps(b, step);
    hide Logged, Hands, Moves, Next, DisplacesThread, DisplacesTurn;
    QuietStepHands(b, step);
    QuietMoves(b, Next(b, step), step);
  }

  // ---------------------------------------------------------------------------
  // Every run
  // ---------------------------------------------------------------------------

  lemma ReadyStart(b: Bridge)
    requires Steady(b)
    ensures Sane(b) && (b.starting.Some? ==> b.session.None?)
  {
  }

  lemma {:induction false} RunLogged(steps: seq<Step>)
    ensures Logged(Reach(steps))
  {
    if steps == [] {
      assert Reach(steps) == Initial;
    } else {
      var before := steps[..|steps| - 1];
      RunLogged(before);
      RunSteady(before);
      ReadyStart(Reach(before));
      hide Logged, Steady, Next, Moves;
      NextMoves(Reach(before), steps[|steps| - 1]);
    }
  }

  lemma StepMoves(steps: seq<Step>, step: Step)
    ensures Moves(Reach(steps), Reach(steps + [step]), step)
  {
    assert (steps + [step])[..|steps|] == steps;
    RunLogged(steps);
    RunSteady(steps);
    ReadyStart(Reach(steps));
    hide Logged, Steady, Next, Moves;
    NextMoves(Reach(steps), step);
  }

  ghost predicate ThreadDisplaced(steps: seq<Step>, i: nat, sid: nat, thread: ThreadId)
    requires i < |steps|
  {
    DisplacesThread(Reach(steps[..i]), steps[i], sid, thread)
  }

  ghost predicate TurnDisplaced(steps: seq<Step>, i: nat, sid: nat, turn: TurnId)
    requires i < |steps|
  {
    DisplacesTurn(Reach(steps[..i]), steps[i], sid, turn)
  }

  /**
    Every thread ever returned is in use by the live session, given back, or about to be; unless some step
    of the run attached another thread to its session while that was live and had this one.
   */
  lemma {:induction false} NoThreadLeaks(steps: seq<Step>, sid: nat, thread: ThreadId)
    requires (sid, thread) in Reach(steps).wire.threads
    ensures Owned(Reach(steps), sid, thread) || exists i :: 0 <= i < |steps| && ThreadDisplaced(steps, i, sid, thread)
  {
    hide Owned, Next, DisplacesThread, InHand, DisplacesTurn;
    if steps != [] {
      var last := |steps| - 1;
      var before := steps[..last];
      assert before + [steps[last]] == steps;
      StepMoves(before, steps[last]);
      if (sid, thread) in Reach(before).wire.threads {
        NoThreadLeaks(before, sid, thread);
        if i :| 0 <= i < last && ThreadDisplaced(before, i, sid, thread) {
          assert before[..i] == steps[..i];
          assert ThreadDisplaced(steps, i, sid, thread);
        }
      }
      if DisplacesThread(Reach(before), steps[last], sid, thread) {
        assert ThreadDisplaced(steps, last, sid, thread);
      }
    } else {
      StartsEmpty();
    }
  }

  lemma StartsEmpty()
    ensures Reach([]).wire.threads == {} && Reach([]).wire.turns == {}
  {
  }

  /**
    Every turn a session heard of, in an acknowledgement, a note or a tool call, was completed or interrupted
    once the session is gone; unless some step of the run displaced it.
   */
  lemma {:induction false} EveryTurnRetired(steps: seq<Step>, sid: nat, turn: TurnId)
    requires (sid, turn) in Reach(steps).wire.turns && !Live(Reach(steps), sid)
    ensures var w := Reach(steps).wire;
      || (sid, turn) in w.ended
      || (sid in w.threadOf && Interrupt(sid, w.threadOf[sid], turn) in w.sent)
      || exists i :: 0 <= i < |steps| && TurnDisplaced(steps, i, sid, turn)
  {
    RunLogged(steps);
    TurnKept(steps, sid, turn);
    hide Reach, TurnDisplaced;
    if InHand(Reach(steps), sid, turn) && (sid, turn) !in Reach(steps).wire.ended {
      var m :| m in Reach(steps).wire.sent && m.Interrupt? && m.sid == sid && m.turn == turn;
      assert m == Interrupt(sid, Reach(steps).wire.threadOf[sid], turn);
    }
  }

  lemma {:induction false} TurnKept(steps: seq<Step>, sid: nat, turn: TurnId)
    requires (sid, turn) in Reach(steps).wire.turns
    ensures InHand(Reach(steps), sid, turn) || exists i :: 0 <= i < |steps| && TurnDisplaced(steps, i, sid, turn)
  {
    hide Owned, Next, DisplacesThread, InHand, DisplacesTurn;
    if steps != [] {
      var last := |steps| - 1;
      var before := steps[..last];
      assert before + [steps[last]] == steps;
      StepMoves(before, steps[last]);
      if (sid, turn) in Reach(before).wire.turns {
        TurnKept(before, sid, turn);
        if i :| 0 <= i < last && TurnDisplaced(before, i, sid, turn) {
          assert before[..i] == steps[..i];
          assert TurnDisplaced(steps, i, sid, turn);
        }
      }
      if DisplacesTurn(Reach(before), steps[last], sid, turn) {
        assert TurnDisplaced(steps, last, sid, turn);
      }
    } else {
      StartsEmpty();
    }
  }

  /** At every point of the run all threads, or all turns, were looked after. */
  ghost predicate AlwaysOwned(steps: seq<Step>) { forall i :: 0 <= i <= |steps| ==> ThreadsOwned(Reach(steps[..i])) }

  ghost predicate AlwaysInHand(steps: seq<Step>) { forall i :: 0 <= i <= |steps| ==> TurnsInHand(Reach(steps[..i])) }

  ghost predicate NoThreadDisplaced(steps: seq<Step>) {
    forall i, sid: nat, thread: ThreadId :: 0 <= i < |steps| ==> !ThreadDisplaced(steps, i, sid, thread)
  }

  ghost predicate NoTurnDisplaced(steps: seq<Step>) {
    forall i, sid: nat, turn: TurnId :: 0 <= i < |steps| ==> !TurnDisplaced(steps, i, sid, turn)
  }

  /** What a step may displace is known: the live session's thread. */
  lemma DisplacedKnown(steps: seq<Step>, step: Step, sid: nat, thread: ThreadId)
    requires DisplacesThread(Reach(steps), step, sid, thread)
    ensures (sid, thread) in Reach(steps).wire.threads
  {
    RunLogged(steps);
    hide Reach;
    LiveThread(Reach(steps));
  }

  /** From a state in which every thread is looked after, a step keeps that exactly if it displaces none. */
  lemma ThreadsStep(steps: seq<Step>, step: Step)
    requires ThreadsOwned(Reach(steps))
    ensures ThreadsOwned(Reach(steps + [step])) <==>
            forall sid: nat, thread: ThreadId :: !DisplacesThread(Reach(steps), step, sid, thread)
  {
    StepMoves(steps, step);
    hide Reach, Owned, DisplacesThread, TurnsMove;
    if sid: nat, thread: ThreadId :| DisplacesThread(Reach(steps), step, sid, thread) {
      DisplacedKnown(steps, step, sid, thread);
      assert (sid, thread) in Reach(steps + [step]).wire.threads;
    }
  }

  /** From a state in which every turn is in hand, a step keeps that exactly if it displaces none. */
  lemma TurnsStep(steps: seq<Step>, step: Step)
    requires TurnsInHand(Reach(steps))
    ensures TurnsInHand(Reach(steps + [step])) <==>
            forall sid: nat, turn: TurnId :: !DisplacesTurn(Reach(steps), step, sid, turn)
  {
    StepMoves(steps, step);
    hide Reach, InHand, DisplacesTurn, ThreadsMove;
    if sid: nat, turn: TurnId :| DisplacesTurn(Reach(steps), step, sid, turn) {
      assert (sid, turn) in Reach(steps + [step]).wire.turns;
    }
  }

  /**
    At every point of a run each thread returned so far is in use, given back or about to be, if and only if
    no reply of the run attaches a different thread to a live session that has one.
   */
  lemma {:induction false} ThreadsExactly(steps: seq<Step>)
    ensures AlwaysOwned(steps) <==> NoThreadDisplaced(steps)
  {
    hide ThreadsOwned, Next, Reach, DisplacesThread;
    if steps == [] {
      assert steps[..0] == [];
      StartsLookedAfter();
    } else {
      var last := |steps| - 1;
      var before := steps[..last];
      assert steps[..|steps|] == steps && before + [steps[last]] == steps && before[..last] == before;
      forall i | 0 <= i <= last ensures before[..i] == steps[..i] {
      }
      ThreadsExactly(before);
      assert forall i, sid: nat, thread: ThreadId :: 0 <= i < last ==> ThreadDisplaced(before, i, sid, thread) == ThreadDisplaced(steps, i, sid, thread);
      if AlwaysOwned(before) {
        assert ThreadsOwned(Reach(before[..last]));
        ThreadsStep(before, steps[last]);
        assert forall sid: nat, thread: ThreadId :: ThreadDisplaced(steps, last, sid, thread) == DisplacesThread(Reach(before), steps[last], sid, thread);
      }
    }
  }

  /**
    At every point of a run each turn heard of is held by the live session, completed or interrupted, so that
    the end of the session would leave none running, if and only if no step of the run displaces a turn.
   */
  lemma {:induction false} TurnsExactly(steps: seq<Step>)
    ensures AlwaysInHand(steps) <==> NoTurnDisplaced(steps)
  {
    hide TurnsInHand, Next, Reach, DisplacesTurn;
    if steps == [] {
      assert steps[..0] == [];
      StartsLookedAfter();
    } else {
      var last := |steps| - 1;
      var before := steps[..last];
      assert steps[..|steps|] == steps && before + [steps[last]] == steps && before[..last] == before;
      forall i | 0 <= i <= last ensures before[..i] == steps[..i] {
      }
      TurnsExactly(before);
      assert forall i, sid: nat, turn: TurnId :: 0 <= i < last ==> TurnDisplaced(before, i, sid, turn) == TurnDisplaced(steps, i, sid, turn);
      if AlwaysInHand(before) {
        assert TurnsInHand(Reach(before[..last]));
        TurnsStep(before, steps[last]);
        assert forall sid: nat, turn: TurnId :: TurnDisplaced(steps, last, sid, turn) == DisplacesTurn(Reach(before), steps[last], sid, turn);
      }
    }
  }

  lemma StartsLookedAfter()
    ensures ThreadsOwned(Reach([])) && TurnsInHand(Reach([]))
  {
    StartsEmpty();
    hide Reach;
  }

  /** When thread ids are not reused, the session an interrupt hits is the one it was meant for, and it is over. */
  lemma NoCrossCancel(steps: seq<Step>, m: Sent, sid: nat)
    requires m in Reach(steps).wire.sent && m.Interrupt?
    requires forall s, t, thread :: (s, thread) in Reach(steps).wire.threads && (t, thread) in Reach(steps).wire.threads ==> s == t
    requires (sid, m.thread) in Reach(steps).wire.threads
    ensures sid == m.sid && (sid, m.turn) in Reach(steps).wire.turns && !Live(Reach(steps), sid)
  {
    RunLogged(steps);
    hide Reach;
  }

  lemma LiveTurn(b: Bridge)
    requires Logged(b)
    ensures b.session.Some? && b.session.value.turnId.Some? ==>
      (b.session.value.sid, b.session.value.turnId.value) in b.wire.turns
  {
  }
}
