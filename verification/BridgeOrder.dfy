/**
  Over every run, each note of a session is handed out, buffered or dropped; and the notes keep their order
  exactly as long as no step overtakes a buffered note and no drained buffer hides a note behind a
  completed turn.
 */
module BridgeOrder {
  import opened Wrappers
  import opened ResponseSegments
  import opened BridgeState
  import opened BridgeOperations
  import opened BridgeDelivery

  // ---------------------------------------------------------------------------
  // The steps that disturb the order
  // ---------------------------------------------------------------------------

  /** The note reaches the end of the filters. */
  predicate Passes(b: Bridge, ref: ThreadRef, n: Note) {
    && b.session.Some? && Addressed(ref, b.session.value)
    && (n.body.MessageDelta? || n.body.ItemCompleted? || n.body.TurnCompleted?)
    && !(n.turnId.Some? && b.session.value.turnId.Some? && n.turnId != b.session.value.turnId)
    && !n.blocked
  }

  /** A note goes straight to the running segment over a buffer that holds a different one. */
  predicate Overtakes(b: Bridge, step: Step) {
    && step.NoteStep? && Passes(b, step.thread, step.note) && Generating(b)
    && exists i :: 0 <= i < |b.session.value.buffered| && b.session.value.buffered[i] != step.note
  }

  /** The operation and the tool output that a step goes on with, and the state in which it does. */
  datatype Resumption = Resumption(bridge: Bridge, oid: nat, output: string)

  /** A continuation of the live session, which has a thread and an open transport, brings a tool output. */
  function Resumes(b: Bridge, step: Step): Option<Resumption> {
    match step
    case RequestStep(req, sink, aborted) =>
      if Refusal(b, req, aborted).Some? || req.previous.None? || b.session.None? || Start(Fresh, sink).fault.Some? then None
      else Going(Entering(Continue(b, req.previous.value), sink, Start(Fresh, sink).seg), b.nextOperation, req)
    case StartedStep(k, ok) =>
      if k !in b.tasks || !b.tasks[k].AwaitStart? || !ok || b.rpc == Closed || !Live(b, b.tasks[k].sid) then None
      else Going(RemoveTask(b, k).(rpc := Open), b.tasks[k].oid, b.tasks[k].req)
    case ThreadStep(k, ok, id, model) =>
      if k !in b.tasks || !b.tasks[k].AwaitThread? || !ok || !Live(b, b.tasks[k].sid) || id.None?
        || (model.Some? && model.value != b.session.value.config.model) then None
      else Going(Attach(Return(RemoveTask(b, k), b.tasks[k].sid, id.value), id.value), b.tasks[k].oid, b.tasks[k].req)
    case _ => None
  }

  function Going(b: Bridge, oid: nat, req: Request): (r: Option<Resumption>)
    requires b.session.Some?
    ensures r.Some? ==> r.value.bridge == b && r.value.oid == oid
  {
    if b.session.value.threadId.Some? && b.session.value.waiting.Some? && b.rpc == Open && req.input.ToolOutput?
    then Some(Resumption(b, oid, req.input.output)) else None
  }

  /** A buffer is drained in which a completed turn stands, in reach, before another note. */
  ghost predicate Drops(b: Bridge, step: Step) {
    match Resumes(b, step)
    case None => false
    case Some(r) => DropsFrom(r)
  }

  ghost predicate DropsFrom(r: Resumption) {
    && Sane(r.bridge) && r.bridge.session.Some? && r.bridge.session.value.waiting.Some?
    && DropsIn(AnswerWaiting(r.bridge, r.output), r.bridge.session.value.buffered)
  }

  ghost predicate Disturbs(b: Bridge, step: Step) { Overtakes(b, step) || Drops(b, step) }

  // ---------------------------------------------------------------------------
  // Each step
  // ---------------------------------------------------------------------------

  /** From a state in order the step reaches one in order, unless it disturbs the order. */
  ghost predicate Moves(b: Bridge, c: Bridge, disturbs: bool) {
    Accounted(c) && (InOrder(b) ==> (InOrder(c) <==> !disturbs))
  }

  lemma QuietMoves(b: Bridge, c: Bridge)
    requires Accounted(b) && SameNotes(b, c)
    ensures Moves(b, c, false)
  {
  }

  lemma MovesThen(b: Bridge, c: Bridge, d: Bridge, disturbs: bool)
    requires Moves(b, c, disturbs) && SameNotes(c, d)
    ensures Moves(b, d, disturbs)
  {
    hide SameNotes;
    SameNotesKept(c, d);
  }

  lemma MovesFrom(b: Bridge, c: Bridge, d: Bridge, disturbs: bool)
    requires SameNotes(b, c) && Moves(c, d, disturbs)
    ensures Moves(b, d, disturbs)
  {
    hide SameNotes;
    SameNotesKept(b, c);
  }

  /** In a live session the notes of an accounted state in order are exactly those handed out and buffered. */
  lemma AllInPlace(b: Bridge)
    requires Accounted(b) && InOrder(b) && b.session.Some?
    ensures b.delivery.arrived == b.delivery.handed + b.session.value.buffered
  {
    var d := b.delivery;
    assert |multiset(d.arrived)| == |d.arrived|;
    assert |multiset(d.handed)| == |d.handed| && |multiset(b.session.value.buffered)| == |b.session.value.buffered|;
  }

  lemma Pieces(notes: seq<Note>, m: nat)
    requires m <= |notes|
    ensures multiset(notes) == multiset(notes[..m]) + multiset(notes[m..])
  {
    assert notes == notes[..m] + notes[m..];
  }

  lemma PouredAccounted(b: Bridge, e: Effect)
    requires Accounted(b) && b.session.Some? && Poured(b.delivery, b.session.value.buffered, e) && e.fault.None?
    requires e.bridge.session.Some? && e.bridge.session.value.buffered == []
    ensures Accounted(e.bridge)
  {
    Pieces(b.session.value.buffered, |e.bridge.delivery.handed| - |b.delivery.handed|);
  }

  /** Draining: the buffer is empty afterwards, and nothing is out of order unless a note was dropped. */
  lemma PouredOrder(b: Bridge, e: Effect)
    requires Accounted(b) && InOrder(b) && b.session.Some? && Poured(b.delivery, b.session.value.buffered, e)
    requires e.bridge.session.Some? && e.bridge.session.value.buffered == []
    ensures InOrder(e.bridge) <==> e.bridge.delivery.dropped == b.delivery.dropped
  {
    AllInPlace(b);
    hide Accounted;
    var notes := b.session.value.buffered;
    var m := |e.bridge.delivery.handed| - |b.delivery.handed|;
    assert e.bridge.delivery.handed + [] == b.delivery.handed + notes[..m];
    assert b.delivery.arrived == b.delivery.handed + notes[..m] + notes[m..];
  }

  lemma AnsweredPours(b: Bridge, output: string)
    requires Good(b) && b.session.Some? && b.session.value.waiting.Some? && Generating(b)
    ensures var a := AnswerWaiting(b, output);
      var e := ConsumeAll(a, b.session.value.buffered);
      && Poured(b.delivery, b.session.value.buffered, e)
      && e.bridge.session.Some? && e.bridge.session.value.buffered == []
      && (e.bridge.delivery.dropped == b.delivery.dropped <==> !DropsIn(a, b.session.value.buffered))
      && Halfway(e)
  {
    hide ConsumeAll, DropsIn, Poured, Core, Outstanding;
    var a := AnswerWaiting(b, output);
    SameOrderGood(b, a);
    ConsumeAllPours(a, b.session.value.buffered);
    ConsumeAllHalfway(a, b.session.value.buffered);
    assert Poured(a.delivery, b.session.value.buffered, ConsumeAll(a, b.session.value.buffered));
    assert a.delivery == b.delivery;
  }

  /** A tool output resumes its operation: it succeeds, or the operation fails and the session goes. */
  lemma ResumeMoves(b: Bridge, oid: nat, output: string)
    requires Sane(b) && Good(b) && Accounted(b) && Delivers(b, oid) && b.rpc == Open
    ensures Moves(b, DriveFault(Resume(b, output).bridge, oid, Resume(b, output).fault),
                  DropsIn(AnswerWaiting(b, output), b.session.value.buffered))
  {
    var drops := DropsIn(AnswerWaiting(b, output), b.session.value.buffered);
    var e := ConsumeAll(AnswerWaiting(b, output), b.session.value.buffered);
    AnsweredPours(b, output);
    if e.fault.None? {
      PouredAccounted(b, e);
    }
    if InOrder(b) {
      PouredOrder(b, e);
    }
    var q := Resume(b, output);
    ResumeSession(b, output);
    ResumeAfter(b, output, e);
    hide Resume, ConsumeAll, DropsIn, Poured, Good, Accounted, InOrder, SameNotes, Fail;
    SameNotesKept(e.bridge, q.bridge);
    if q.fault.Some? {
      FailNotes(q.bridge, q.fault.value);
      SameNotesKept(q.bridge, Fail(q.bridge, q.fault.value));
      GoneAccounted(Fail(q.bridge, q.fault.value));
    }
  }

  lemma GoneAccounted(b: Bridge)
    requires b.session.None?
    ensures Accounted(b)
  {
  }

  lemma ResumeAfter(b: Bridge, output: string, e: Effect)
    requires Sane(b) && b.session.Some? && b.session.value.waiting.Some? && b.rpc == Open
    requires e == ConsumeAll(AnswerWaiting(b, output), b.session.value.buffered) && Halfway(e)
    ensures var q := Resume(b, output);
      && SameNotes(e.bridge, q.bridge) && (q.fault.None? ==> e.fault.None?) && (q.fault.Some? ==> Unsettled(q.bridge))
  {
    hide ConsumeAll, FlushTool, Core, Outstanding;
    if e.fault.None? {
      FlushHalfway(e.bridge);
    }
  }

  lemma WithThreadMoves(b: Bridge, oid: nat, req: Request)
    requires Sane(b) && Good(b) && Accounted(b) && b.session.Some? && b.session.value.threadId.Some?
    requires req.input.ToolOutput? ==> Delivers(b, oid)
    ensures Moves(b, WithThread(b, oid, req),
                  match Going(b, oid, req) { case None => false case Some(r) => DropsFrom(r) })
  {
    hide Resume, DriveFault, Good, Moves, DropsIn;
    if req.input.UserText? {
      Unmoved(b);
      QuietMoves(b, WithThread(b, oid, req)) by { TextNotes(b, oid, req); }
    } else if b.rpc == Open {
      ResumeMoves(b, oid, req.input.output);
    } else {
      LostNotes(b, oid, req.input.output);
      QuietMoves(b, WithThread(b, oid, req));
    }
  }

  lemma TextNotes(b: Bridge, oid: nat, req: Request)
    requires Sane(b) && b.session.Some? && b.session.value.threadId.Some? && req.input.UserText?
    ensures SameNotes(b, WithThread(b, oid, req))
  {
  }

  lemma LostNotes(b: Bridge, oid: nat, output: string)
    requires Sane(b) && b.session.Some? && b.session.value.waiting.Some? && b.rpc != Open
    ensures SameNotes(b, DriveFault(Resume(b, output).bridge, oid, Resume(b, output).fault))
  {
    hide DriveFault, ConsumeAll, FlushTool;
    var c := LoseWaiting(b);
    assert SameNotes(b, c);
    DriveFaultNotes(c, oid, Some(RpcError));
    hide SameNotes;
    SameNotesTwice(b, c, DriveFault(c, oid, Some(RpcError)));
  }

  lemma AfterStartMoves(b: Bridge, sid: nat, oid: nat, req: Request)
    requires Sane(b) && Good(b) && Accounted(b)
    requires Live(b, sid) && req.input.ToolOutput? ==> Delivers(b, oid)
    ensures Moves(b, AfterStart(b, sid, oid, req),
                  Live(b, sid) && match Going(b, oid, req) { case None => false case Some(r) => DropsFrom(r) })
  {
    hide WithThread, Good, Moves, DropsFrom, Accounted;
    if Live(b, sid) && b.session.value.threadId.Some? {
      WithThreadMoves(b, oid, req);
    } else {
      SentNotes(b, sid, oid, req);
      QuietMoves(b, AfterStart(b, sid, oid, req));
    }
  }

  lemma SentNotes(b: Bridge, sid: nat, oid: nat, req: Request)
    ensures SameNotes(b, b)
    ensures forall config: Config :: SameNotes(b, AddTask(Send(b, StartThread(sid, config)), AwaitThread(sid, oid, req)))
    ensures SameNotes(b, AddTask(b, AwaitStart(sid, oid, req)))
  {
  }

  lemma LaunchMoves(b: Bridge, oid: nat, req: Request)
    requires Sane(b) && Good(b) && Accounted(b) && b.session.Some?
    requires req.input.ToolOutput? ==> Delivers(b, oid)
    ensures Moves(b, Launch(b, oid, req),
                  match Going(b, oid, req) { case None => false case Some(r) => DropsFrom(r) })
  {
    hide AfterStart, DriveFault, Good, Moves, DropsFrom, Accounted;
    if b.session.value.threadId.None? {
      SentNotes(b, b.session.value.sid, oid, req);
      QuietMoves(b, Launch(b, oid, req));
    } else if b.rpc != Open {
      DriveFaultNotes(b, oid, Some(RpcError));
      QuietMoves(b, DriveFault(b, oid, Some(RpcError)));
    } else {
      AfterStartMoves(b, b.session.value.sid, oid, req);
    }
  }

  lemma ContinueMoves(b: Bridge, req: Request, sink: Sink, aborted: bool)
    requires Sane(b) && Steady(b) && Accounted(b) && Refusal(b, req, aborted).None? && req.previous.Some?
    ensures Moves(b, Begin(Continue(b, req.previous.value), req, sink, false), Drops(b, RequestStep(req, sink, aborted)))
  {
    ContinueReady(b, req, aborted);
    var c := Continue(b, req.previous.value);
    var entered := Entering(c, sink, Start(Fresh, sink).seg);
    EnteredNotes(b, c, sink);
    EnterGood(c, sink);
    EnterFits(c, sink);
    hide Start, Fail, Launch, Good, Moves, DropsFrom, SameNotes, Accounted, Refusal;
    SameNotesKept(b, entered);
    if Start(Fresh, sink).fault.Some? {
      FailNotes(entered, Start(Fresh, sink).fault.value);
      QuietMoves(entered, Fail(entered, Start(Fresh, sink).fault.value));
      MovesFrom(b, entered, Fail(entered, Start(Fresh, sink).fault.value), false);
    } else {
      LaunchMoves(entered, b.nextOperation, req);
      MovesFrom(b, entered, Launch(entered, b.nextOperation, req), Drops(b, RequestStep(req, sink, aborted)));
    }
  }

  lemma EnteredNotes(b: Bridge, c: Bridge, sink: Sink)
    requires b.session.Some? && c.session == b.session && c.delivery == b.delivery && c.wire == b.wire
    ensures SameNotes(b, Entering(c, sink, Start(Fresh, sink).seg))
  {
  }

  lemma RespondMoves(b: Bridge, req: Request, sink: Sink, aborted: bool)
    requires Sane(b) && Steady(b) && Accounted(b)
    ensures Moves(b, Respond(b, req, sink, aborted).0, Drops(b, RequestStep(req, sink, aborted)))
  {
    hide Begin, Release, Good, Fits, Moves, DropsFrom, Accounted, Refusal, SameNotes;
    if Refusal(b, req, aborted).Some? {
      Unmoved(b);
      QuietMoves(b, b);
    } else if req.previous.None? {
      var taken := b.(busy := true, timer := false, starting := Some(Starting(req, sink)));
      assert SameNotes(b, taken) by { TakenNotes(b, taken); }
      ReleaseNotes(taken);
      SameNotesTwice(b, taken, Release(taken));
      QuietMoves(b, Release(taken));
    } else {
      ContinueMoves(b, req, sink, aborted);
    }
  }

  lemma TakenNotes(b: Bridge, c: Bridge)
    requires c.session == b.session && c.delivery == b.delivery && c.wire.dead == b.wire.dead
    ensures SameNotes(b, c)
  {
  }

  /** A new session starts with nothing. */
  ghost predicate Blank(b: Bridge) { b.delivery == Delivery([], [], [], 0) && Rest(b) == [] }

  lemma BlankMoves(b: Bridge, c: Bridge)
    requires Blank(c)
    ensures Moves(b, c, false)
  {
  }

  lemma BlankStays(b: Bridge, c: Bridge)
    requires Blank(b) && SameNotes(b, c) && c.delivery.mark == b.delivery.mark
    ensures Blank(c)
  {
  }

  lemma ProceedMoves(b: Bridge, aborted: bool)
    requires Sane(b) && Steady(b) && Accounted(b)
    ensures Moves(b, Proceed(b, aborted), false)
  {
    if b.starting.Some? {
      CreateReady(b);
      hide Begin, Moves, Steady;
      BlankMoves(b, Proceed(b, aborted)) by {
        BeginBlank(Create(b, b.starting.value.req), b.starting.value.req, b.starting.value.sink, aborted);
      }
    } else {
      hide Moves;
      Unmoved(b);
      QuietMoves(b, b);
    }
  }

  lemma BeginBlank(b: Bridge, req: Request, sink: Sink, aborted: bool)
    requires Blank(b) && b.session.Some? && b.session.value.threadId.None?
    ensures Blank(Begin(b, req, sink, aborted))
  {
    hide Start, Fail;
    var entered := Entering(b, sink, Start(Fresh, sink).seg);
    assert Sane(entered) && Blank(entered);
    FailBlank(entered, SinkRefused);
    FailBlank(entered, ClientDisconnected);
    if Start(Fresh, sink).fault.Some? {
      FailBlank(entered, Start(Fresh, sink).fault.value);
      var failed := Enter(b, sink);
      FailBlank(failed, ClientDisconnected);
    }
  }

  lemma FailBlank(b: Bridge, error: Fault)
    requires Sane(b) && Blank(b)
    ensures Blank(Fail(b, error))
  {
    hide Fail, Blank, CancelAll;
    FailNotes(b, error);
    BlankStays(b, Fail(b, error));
  }

  lemma OnStartedMoves(b: Bridge, k: nat, ok: bool)
    requires Sane(b) && Steady(b) && Accounted(b) && k in b.tasks && b.tasks[k].AwaitStart?
    ensures Moves(b, OnStarted(b, k, ok), Drops(b, StartedStep(k, ok)))
  {
    StartedWays(b, k, ok);
    hide Steady, Moves, Accounted, DropsFrom, OnStarted, AfterStart, DriveFault, Resumes, Going, RemoveTask;
    if ok && b.rpc != Closed {
      StartedMoves(b, k);
    } else {
      FailedStartNotes(b, k);
      QuietMoves(b, OnStarted(b, k, ok));
    }
  }

  lemma StartedWays(b: Bridge, k: nat, ok: bool)
    requires Sane(b) && k in b.tasks && b.tasks[k].AwaitStart?
    ensures var t := b.tasks[k];
      var c := RemoveTask(b, k);
      && (ok && b.rpc != Closed ==>
            && OnStarted(b, k, ok) == AfterStart(c.(rpc := Open), t.sid, t.oid, t.req)
            && Resumes(b, StartedStep(k, ok)) == if Live(c.(rpc := Open), t.sid) then Going(c.(rpc := Open), t.oid, t.req) else None)
      && (!(ok && b.rpc != Closed) ==>
            OnStarted(b, k, ok) == DriveFault(c, t.oid, Some(RpcError)) && Resumes(b, StartedStep(k, ok)) == None)
  {
    hide AfterStart, DriveFault, Going;
  }

  lemma FailedStartNotes(b: Bridge, k: nat)
    requires Sane(b) && k in b.tasks && b.tasks[k].AwaitStart?
    ensures Sane(RemoveTask(b, k)) && SameNotes(b, DriveFault(RemoveTask(b, k), b.tasks[k].oid, Some(RpcError)))
  {
    var c := RemoveTask(b, k);
    TakenNotes(b, c);
    hide SameNotes, DriveFault;
    DriveFaultNotes(c, b.tasks[k].oid, Some(RpcError));
    SameNotesTwice(b, c, DriveFault(c, b.tasks[k].oid, Some(RpcError)));
  }

  lemma StartedMoves(b: Bridge, k: nat)
    requires Sane(b) && Steady(b) && Accounted(b) && k in b.tasks && b.tasks[k].AwaitStart?
    ensures var t := b.tasks[k];
      var up := RemoveTask(b, k).(rpc := Open);
      && Sane(up)
      && Moves(b, AfterStart(up, t.sid, t.oid, t.req),
               Live(up, t.sid) && match Going(up, t.oid, t.req) { case None => false case Some(r) => DropsFrom(r) })
  {
    var t := b.tasks[k];
    var c := RemoveTask(b, k);
    var up := c.(rpc := Open);
    TakeStart(b, k);
    OpenSteady(c);
    TakenNotes(b, up);
    hide AfterStart, Fits, Good, Moves, DropsFrom, SameNotes, Accounted, Going;
    SameNotesKept(b, up);
    AfterStartMoves(up, t.sid, t.oid, t.req);
    MovesFrom(b, up, AfterStart(up, t.sid, t.oid, t.req),
              Live(up, t.sid) && match Going(up, t.oid, t.req) { case None => false case Some(r) => DropsFrom(r) });
  }

  lemma OnThreadMoves(b: Bridge, k: nat, ok: bool, id: Option<ThreadId>, model: Option<string>)
    requires Sane(b) && Steady(b) && Accounted(b) && k in b.tasks && b.tasks[k].AwaitThread?
    ensures Moves(b, OnThread(b, k, ok, id, model), Drops(b, ThreadStep(k, ok, id, model)))
  {
    if ok && id.Some? && Live(b, b.tasks[k].sid) && (model.None? || model.value == b.session.value.config.model) {
      ResumedThread(b, k, id.value, model);
      hide Steady, Moves, DropsFrom, OnThread, WithThread, Resumes, Going, Attach, Return, RemoveTask;
      AttachedMoves(b, k, id.value);
    } else {
      UnresumedNotes(b, k, ok, id, model);
      hide OnThread, Moves, SameNotes;
      QuietMoves(b, OnThread(b, k, ok, id, model));
    }
  }

  lemma ResumedThread(b: Bridge, k: nat, id: ThreadId, model: Option<string>)
    requires Sane(b) && k in b.tasks && b.tasks[k].AwaitThread? && Live(b, b.tasks[k].sid)
    requires model.None? || model.value == b.session.value.config.model
    ensures var t := b.tasks[k];
      var attached := Attach(Return(RemoveTask(b, k), t.sid, id), id);
      && Sane(attached) && attached.session.Some? && attached.session.value.threadId.Some?
      && OnThread(b, k, true, Some(id), model) == WithThread(attached, t.oid, t.req)
      && Resumes(b, ThreadStep(k, true, Some(id), model)) == Going(attached, t.oid, t.req)
  {
    hide WithThread, Going;
  }

  lemma UnresumedNotes(b: Bridge, k: nat, ok: bool, id: Option<ThreadId>, model: Option<string>)
    requires Sane(b) && k in b.tasks && b.tasks[k].AwaitThread?
    requires !(ok && id.Some? && Live(b, b.tasks[k].sid) && (model.None? || model.value == b.session.value.config.model))
    ensures SameNotes(b, OnThread(b, k, ok, id, model))
  {
    hide DriveFault, SameNotes, WithThread;
    var t := b.tasks[k];
    var c := RemoveTask(b, k);
    UnattachedNotes(b, k, id);
    if ok && id.Some? && Live(b, t.sid) {
      var attached := Attach(Return(c, t.sid, id.value), id.value);
      AttachNotes(b, k, id.value);
      DriveFaultNotes(attached, t.oid, Some(ModelMismatch));
      SameNotesTwice(b, attached, DriveFault(attached, t.oid, Some(ModelMismatch)));
    } else {
      DriveFaultNotes(c, t.oid, Some(RpcError));
      DriveFaultNotes(c, t.oid, Some(InvalidUpstreamEvent));
      SameNotesTwice(b, c, DriveFault(c, t.oid, Some(RpcError)));
      SameNotesTwice(b, c, DriveFault(c, t.oid, Some(InvalidUpstreamEvent)));
    }
  }

  lemma AttachNotes(b: Bridge, k: nat, id: ThreadId)
    requires Sane(b) && k in b.tasks && Live(b, b.tasks[k].sid)
    ensures var attached := Attach(Return(RemoveTask(b, k), b.tasks[k].sid, id), id);
      Sane(attached) && SameNotes(b, attached)
  {
  }

  lemma UnattachedNotes(b: Bridge, k: nat, id: Option<ThreadId>)
    requires Sane(b) && k in b.tasks
    ensures Sane(RemoveTask(b, k)) && SameNotes(b, RemoveTask(b, k))
    ensures id.Some? ==> SameNotes(b, Send(Return(RemoveTask(b, k), b.tasks[k].sid, id.value), Unsubscribe(b.tasks[k].sid, id.value)))
  {
  }

  lemma AttachedMoves(b: Bridge, k: nat, id: ThreadId)
    requires Sane(b) && Steady(b) && Accounted(b) && k in b.tasks && b.tasks[k].AwaitThread? && Live(b, b.tasks[k].sid)
    ensures var t := b.tasks[k];
      var attached := Attach(Return(RemoveTask(b, k), t.sid, id), id);
      && Sane(attached)
      && Moves(b, WithThread(attached, t.oid, t.req),
               match Going(attached, t.oid, t.req) { case None => false case Some(r) => DropsFrom(r) })
  {
    var t := b.tasks[k];
    var attached := Attach(Return(RemoveTask(b, k), t.sid, id), id);
    AttachNotes(b, k, id);
    TakeStart(b, k);
    AttachSteady(b, k, id);
    hide WithThread, Fits, Good, Moves, DropsFrom, SameNotes, Accounted;
    SameNotesKept(b, attached);
    WithThreadMoves(attached, t.oid, t.req);
    MovesFrom(b, attached, WithThread(attached, t.oid, t.req),
              match Going(attached, t.oid, t.req) { case None => false case Some(r) => DropsFrom(r) });
  }

  lemma OnTurnMoves(b: Bridge, k: nat, ok: bool, id: Option<TurnId>)
    requires Sane(b) && Accounted(b) && k in b.tasks && b.tasks[k].AwaitTurn?
    ensures Moves(b, OnTurn(b, k, ok, id), false)
  {
    var t := b.tasks[k];
    var c := RemoveTask(b, k);
    TurnNotes(b, k, id);
    TurnCases(b, k, ok, id);
    hide *;
    DriveFaultNotes(c, t.oid, Some(RpcError));
    DriveFaultNotes(c, t.oid, Some(InvalidUpstreamEvent));
    SameNotesTwice(b, c, DriveFault(c, t.oid, Some(RpcError)));
    SameNotesTwice(b, c, DriveFault(c, t.oid, Some(InvalidUpstreamEvent)));
    QuietMoves(b, OnTurn(b, k, ok, id));
  }

  lemma TurnNotes(b: Bridge, k: nat, id: Option<TurnId>)
    requires Sane(b) && k in b.tasks
    ensures var c := RemoveTask(b, k);
      var sid := b.tasks[k].sid;
      && Sane(c) && SameNotes(b, c)
      && (id.Some? ==> SameNotes(b, Hear(c, sid, id.value)))
      && (id.Some? && b.session.Some? ==> SameNotes(b, LearnTurn(c, id.value)))
      && (id.Some? && sid in b.wire.threadOf ==> SameNotes(b, RetireLate(c, sid, b.wire.threadOf[sid], id.value)))
  {
  }

  // ---------------------------------------------------------------------------
  // Notes
  // ---------------------------------------------------------------------------

  /** A note handed to the running segment over a buffer keeps the order exactly when it commutes with it. */
  lemma HandedMoves(b: Bridge, n: Note, c: Bridge)
    requires Accounted(b) && b.session.Some? && Rest(c) == b.session.value.buffered
    requires c.delivery == b.delivery.(arrived := b.delivery.arrived + [n], handed := b.delivery.handed + [n])
    ensures Moves(b, c, exists i :: 0 <= i < |b.session.value.buffered| && b.session.value.buffered[i] != n)
  {
    var q := b.session.value.buffered;
    if InOrder(b) {
      AllInPlace(b);
      CommutesExactly(b.delivery.handed, q, n);
    }
  }

  lemma {:induction false} CommutesExactly(before: seq<Note>, q: seq<Note>, n: Note)
    ensures before + [n] + q <= before + q + [n] <==> forall i :: 0 <= i < |q| ==> q[i] == n
  {
    assert before + q + [n] == before + (q + [n]) && before + [n] + q == before + ([n] + q);
    assert (before + (q + [n]))[|before|..] == q + [n] && (before + ([n] + q))[|before|..] == [n] + q;
    if q + [n] == [n] + q {
      CommutesAll(q, n, |q|);
    }
    if forall i :: 0 <= i < |q| ==> q[i] == n {
      assert q + [n] == [n] + q;
    }
  }

  lemma {:induction false} CommutesAll(q: seq<Note>, n: Note, k: nat)
    requires q + [n] == [n] + q && k <= |q|
    ensures forall i :: 0 <= i < k ==> q[i] == n
  {
    if k > 0 {
      CommutesAll(q, n, k - 1);
      assert (q + [n])[k - 1] == ([n] + q)[k - 1];
    }
  }

  lemma DispatchMoves(b: Bridge, n: Note)
    requires Sane(b) && Accounted(b) && b.session.Some?
    ensures Moves(b, Dispatch(b, n),
                  Generating(b) && exists i :: 0 <= i < |b.session.value.buffered| && b.session.value.buffered[i] != n)
  {
    if Generating(b) {
      var e := HandOver(Arrive(b, n), n);
      NotedLog(Arrive(b, n), n);
      ThroughRest(Arrive(b, n), e.bridge);
      HandleNotes(e);
      hide HandOver, Handle, Moves, Accounted, SameNotes, Through;
      var over := exists i :: 0 <= i < |b.session.value.buffered| && b.session.value.buffered[i] != n;
      HandedMoves(b, n, e.bridge.(delivery := e.bridge.delivery.(mark := b.delivery.mark)));
      TakenLogs(e.bridge.(delivery := e.bridge.delivery.(mark := b.delivery.mark)), e.bridge);
      MovesThen(b, e.bridge.(delivery := e.bridge.delivery.(mark := b.delivery.mark)), e.bridge, over);
      MovesThen(b, e.bridge, Handle(e), over);
    } else {
      BufferMoves(b, n);
      hide Moves, Accounted, SameNotes;
      FailNotes(Buffer(b, n), UpstreamBufferLimit);
      MovesThen(b, Buffer(b, n), Fail(Buffer(b, n), UpstreamBufferLimit), false);
    }
  }

  lemma TakenLogs(b: Bridge, c: Bridge)
    requires c.(delivery := b.delivery) == b && c.delivery.(mark := b.delivery.mark) == b.delivery
    ensures SameNotes(b, c)
  {
  }

  lemma ThroughRest(b: Bridge, c: Bridge)
    requires b.session.Some? && Through(b, c)
    ensures c.session.Some? && Rest(c) == b.session.value.buffered
  {
  }

  lemma HandleNotes(e: Effect)
    requires Sane(e.bridge)
    ensures SameNotes(e.bridge, Handle(e))
  {
    hide Fail, SameNotes;
    Unmoved(e.bridge);
    if e.fault.Some? {
      FailNotes(e.bridge, e.fault.value);
    }
  }

  lemma BufferMoves(b: Bridge, n: Note)
    requires Accounted(b) && b.session.Some?
    ensures Moves(b, Buffer(b, n), false)
  {
    BufferAccounted(b, n);
    if InOrder(b) {
      AllInPlace(b);
      hide Accounted;
      assert b.delivery.handed + (b.session.value.buffered + [n]) == b.delivery.handed + b.session.value.buffered + [n];
    }
  }

  lemma BufferAccounted(b: Bridge, n: Note)
    requires Accounted(b) && b.session.Some?
    ensures Accounted(Buffer(b, n))
  {
  }

  lemma OnNoteMoves(b: Bridge, ref: ThreadRef, n: Note)
    requires Sane(b) && Accounted(b)
    ensures Moves(b, OnNote(b, ref, n), Overtakes(b, NoteStep(ref, n)))
  {
    if Passes(b, ref, n) {
      hide Dispatch, Moves, Accounted;
      DispatchMoves(b, n);
    } else {
      FilteredNotes(b, ref, n);
      hide Moves, Accounted, OnNote;
      QuietMoves(b, OnNote(b, ref, n));
    }
  }

  lemma FilteredNotes(b: Bridge, ref: ThreadRef, n: Note)
    requires Sane(b) && !Passes(b, ref, n)
    ensures SameNotes(b, OnNote(b, ref, n))
  {
    hide Dispatch, Fail, SameNotes;
    Unmoved(b);
    FailNotes(b, InvalidUpstreamEvent);
    FailNotes(b, UpstreamTurnFailed);
    FailNotes(b, UnsupportedServerAction);
    if b.session.Some? && n.body.TurnStarted? && n.body.turn.Some? {
      StartTurnNotes(b, n.body.turn.value.id);
    }
  }

  lemma StartTurnNotes(b: Bridge, turn: Option<TurnId>)
    requires b.session.Some?
    ensures SameNotes(b, StartTurnNote(b, turn))
  {
  }

  // ---------------------------------------------------------------------------
  // The other steps
  // ---------------------------------------------------------------------------

  lemma OnServerRequestNotes(b: Bridge, r: ServerRequest)
    requires Sane(b)
    ensures SameNotes(b, OnServerRequest(b, r))
  {
    var refused := Refuse(Count(b, r.rpcId), |b.ledger.received|, r.rpcId);
    assert Sane(refused) && SameNotes(b, refused);
    hide *;
    ServerRequestCases(b, r);
    FailNotes(refused, InvalidUpstreamEvent);
    FailNotes(refused, UnsupportedServerAction);
    FailNotes(refused, InvalidToolCall);
    SameNotesTwice(b, refused, Fail(refused, InvalidUpstreamEvent));
    SameNotesTwice(b, refused, Fail(refused, UnsupportedServerAction));
    SameNotesTwice(b, refused, Fail(refused, InvalidToolCall));
    if b.session.Some? && Acceptable(b.session.value, r) {
      QueueNotes(b, r);
    }
  }

  lemma QueueNotes(b: Bridge, r: ServerRequest)
    requires Sane(b) && b.session.Some? && Acceptable(b.session.value, r)
    ensures SameNotes(b, Handle(FlushTool(Queue(b, r))))
  {
    hide FlushTool, Handle, Outstanding;
    var e := FlushTool(Queue(b, r));
    assert SameNotes(b, e.bridge);
    HandleNotes(e);
    hide SameNotes;
    SameNotesTwice(b, e.bridge, Handle(e));
  }

  lemma StopNotes(b: Bridge, step: Step)
    requires Sane(b)
    requires step.AbortStep? || step.TimeoutStep? || step.ExpireStep? || step.FinalizeStep? || step.ExitStep?
      || step.CloseStep? || step.InterruptedStep?
    ensures SameNotes(b, Next(b, step))
  {
    hide Fail, Release, SameNotes, Finalize, OnInterrupted;
    Unmoved(b);
    match step
    case AbortStep => FailNotes(b, ClientDisconnected);
    case TimeoutStep => FailNotes(b, GenerationTimeout);
    case ExpireStep => ReleaseNotes(b);
    case FinalizeStep => LeftNotes(b, step);
    case InterruptedStep(k) => LeftNotes(b, step);
    case ExitStep =>
      var c := b.(closed := true, rpc := Closed);
      TakenNotes(b, c);
      FailNotes(c, CodexUnavailable);
      SameNotesTwice(b, c, Fail(c, CodexUnavailable));
    case CloseStep => CloseNotes(b);
  }

  lemma LeftNotes(b: Bridge, step: Step)
    requires Sane(b) && (step.FinalizeStep? || step.InterruptedStep?)
    ensures SameNotes(b, Next(b, step))
  {
  }

  lemma CloseNotes(b: Bridge)
    requires Sane(b)
    ensures SameNotes(b, Next(b, CloseStep))
  {
    hide Fail, Release, SameNotes;
    Unmoved(b);
    FailNotes(b, BridgeShutdown);
    var c := if Unsettled(b) then Fail(b, BridgeShutdown) else b;
    var d := c.(closed := true);
    TakenNotes(c, d);
    ReleaseNotes(d);
    SameNotesTwice(b, c, d);
    SameNotesTwice(b, d, Release(d));
  }

  lemma ReplyMoves(b: Bridge, step: Step)
    requires Sane(b) && Steady(b) && Accounted(b) && (step.StartedStep? || step.ThreadStep? || step.TurnStep?)
    ensures Moves(b, Next(b, step), Drops(b, step))
  {
    hide OnStarted, OnThread, OnTurn, Steady, Moves, DropsFrom;
    Unmoved(b);
    QuietMoves(b, b);
    if step.StartedStep? && step.task in b.tasks && b.tasks[step.task].AwaitStart? {
      OnStartedMoves(b, step.task, step.ok);
    } else if step.ThreadStep? && step.task in b.tasks && b.tasks[step.task].AwaitThread? {
      OnThreadMoves(b, step.task, step.ok, step.id, step.model);
    } else if step.TurnStep? && step.task in b.tasks && b.tasks[step.task].AwaitTurn? {
      OnTurnMoves(b, step.task, step.ok, step.turn);
    } else {
      IdleReply(b, step);
    }
  }

  lemma IdleReply(b: Bridge, step: Step)
    requires Sane(b)
    requires step.StartedStep? ==> step.task !in b.tasks || !b.tasks[step.task].AwaitStart?
    requires step.ThreadStep? ==> step.task !in b.tasks || !b.tasks[step.task].AwaitThread?
    requires step.TurnStep? ==> step.task !in b.tasks || !b.tasks[step.task].AwaitTurn?
    requires step.StartedStep? || step.ThreadStep? || step.TurnStep?
    ensures Next(b, step) == b && !Drops(b, step)
  {
  }

  /** Every step keeps account of the notes, and keeps their order exactly when it does not disturb it. */
  lemma NextMoves(b: Bridge, step: Step)
    requires Sane(b) && Steady(b) && Accounted(b)
    ensures Moves(b, Next(b, step), Disturbs(b, step))
  {
    hide Steady, Moves, Accounted, Respond, Proceed, OnStarted, OnThread, OnTurn, OnInterrupted, OnNote, OnServerRequest, Fail, Release, Finalize, Passes, DropsFrom, Refusal;
    match step
    case RequestStep(req, sink, aborted) => RespondMoves(b, req, sink, aborted);
    case ProceedStep(aborted) => ProceedMoves(b, aborted);
    case StartedStep(_, _) => ReplyMoves(b, step);
    case ThreadStep(_, _, _, _) => ReplyMoves(b, step);
    case TurnStep(_, _, _) => ReplyMoves(b, step);
    case NoteStep(ref, n) => OnNoteMoves(b, ref, n);
    case ServerStep(r) => OnServerRequestNotes(b, r); QuietMoves(b, Next(b, step));
    case _ => StopNotes(b, step); QuietMoves(b, Next(b, step));
  }

  // ---------------------------------------------------------------------------
  // Every run
  // ---------------------------------------------------------------------------

  lemma {:induction false} RunAccounted(steps: seq<Step>)
    ensures Accounted(Reach(steps))
  {
    if steps == [] {
      assert Accounted(Initial);
    } else {
      var before := steps[..|steps| - 1];
      RunAccounted(before);
      RunSteady(before);
      hide Accounted, Steady, Next, Disturbs, InOrder;
      NextMoves(Reach(before), steps[|steps| - 1]);
    }
  }

  /**
    Every note that passed the filters while a session lives is in exactly one place: handed to a segment
    that ran, dropped, or still buffered. None is lost in between, and none is handed out twice.
   */
  lemma NotesAccounted(steps: seq<Step>)
    requires Reach(steps).session.Some?
    ensures var b := Reach(steps);
      multiset(b.delivery.arrived) ==
      multiset(b.delivery.handed) + multiset(b.delivery.dropped) + multiset(b.session.value.buffered)
  {
    RunAccounted(steps);
    hide Reach;
  }

  /** At no point of the run was a note dropped or out of its place. */
  ghost predicate OrderKept(steps: seq<Step>) {
    forall i :: 0 <= i <= |steps| ==> InOrder(Reach(steps[..i]))
  }

  /** No step of the run disturbed the order. */
  ghost predicate Undisturbed(steps: seq<Step>) {
    forall i :: 0 <= i < |steps| ==> !Disturbs(Reach(steps[..i]), steps[i])
  }

  /**
    The notes of every session keep their order, at every point of a run, if and only if no step of the run
    overtakes a buffered note or drops one.
   */
  lemma {:induction false} OrderExactly(steps: seq<Step>)
    ensures OrderKept(steps) <==> Undisturbed(steps)
  {
    hide InOrder, Disturbs, Next, Reach;
    if steps == [] {
      assert steps[..0] == [];
      StartsInOrder();
    } else {
      var last := |steps| - 1;
      var before := steps[..last];
      assert steps[..|steps|] == steps;
      forall i | 0 <= i <= last ensures before[..i] == steps[..i] {
      }
      OrderExactly(before);
      assert before + [steps[last]] == steps;
      assert before[..last] == before;
      if OrderKept(before) {
        assert InOrder(Reach(before[..last]));
        StepExactly(before, steps[last]);
      }
    }
  }

  lemma StartsInOrder()
    ensures InOrder(Reach([]))
  {
  }

  lemma StepExactly(steps: seq<Step>, step: Step)
    requires InOrder(Reach(steps))
    ensures InOrder(Reach(steps + [step])) <==> !Disturbs(Reach(steps), step)
  {
    assert (steps + [step])[..|steps|] == steps;
    RunAccounted(steps);
    RunSteady(steps);
    hide Accounted, Steady, Next, Disturbs, InOrder;
    NextMoves(Reach(steps), step);
  }

  /** What order means to a live session: what arrived is what was handed out followed by what is buffered. */
  lemma NotesInOrder(steps: seq<Step>)
    requires Undisturbed(steps) && Reach(steps).session.Some?
    ensures var b := Reach(steps); b.delivery.arrived == b.delivery.handed + b.session.value.buffered
  {
    RunAccounted(steps);
    OrderExactly(steps);
    assert steps[..|steps|] == steps;
    hide Reach;
    AllInPlace(Reach(steps));
  }
}
