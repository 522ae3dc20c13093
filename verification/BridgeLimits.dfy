/**
  Runs in which the bridge's promises fail, each an instance of the condition proved for all runs.

  A notification whose thread id is an explicit null matches a session that has no thread yet. It can
  complete the first operation before thread/start has answered; a continuation then starts a second
  thread, and the first one is forgotten. A turn the session takes up in place of another is never
  interrupted. A user message does not drain the buffer, so a note that arrives during its turn overtakes
  the notes that were buffered before it. And a tool output drains the buffer into a segment that a
  completed turn in it ends, so the notes behind that one are dropped.
 */
module BridgeLimits {
  import opened Wrappers
  import opened ResponseSegments
  import opened BridgeState
  import opened BridgeOperations
  import opened BridgeDelivery
  import opened BridgeOrder
  import opened BridgeUpstream

  const AlwaysTakes: Sink := (n: nat) => true

  const OneTool := Tools(["tool"], "[tool]")
  const First := Request(None, Some("model"), None, None, Some(OneTool), UserText("hello"))
  const Second := Request(Some(0), None, None, None, None, UserText("more"))
  const TurnDone := Note(None, false, TurnCompleted(Some(TurnInfo(None, true))))

  lemma RunSnoc(steps: seq<Step>, step: Step)
    ensures Reach(steps + [step]) == Next(Reach(steps), step)
  {
    assert (steps + [step])[..|steps|] == steps;
  }

  /** The session of the first request, before it has a thread. */
  const Opened := Session(0, Config("model", "", None, OneTool), None, None, None, [], None, [], {})

  const Begun := Start(Fresh, AlwaysTakes).seg
  const Ended := Finish(Begun, AlwaysTakes).seg

  /** The state in which thread/start is awaited. */
  const Waiting := Bridge(
    Some(Opened), Some(Operation(0, 0, Begun, None)), AlwaysTakes, None, true, false, false, Open,
    map[1 := AwaitThread(0, 0, First)], 2, 1, 1,
    Ledger([], [], {}), Wire([StartThread(0, Opened.config)], map[], {}, {}, {}, []), History([], [], [], []), Delivery([], [], [], 0))

  lemma ReachWaiting()
    ensures Reach([RequestStep(First, AlwaysTakes, false), ProceedStep(false), StartedStep(0, true)]) == Waiting
  {
    var s0 := RequestStep(First, AlwaysTakes, false);
    RunSnoc([], s0);
    RunSnoc([s0], ProceedStep(false));
    RunSnoc([s0, ProceedStep(false)], StartedStep(0, true));
    assert [] + [s0] == [s0] && [s0] + [ProceedStep(false)] == [s0, ProceedStep(false)];
    assert [s0, ProceedStep(false)] + [StartedStep(0, true)] == [s0, ProceedStep(false), StartedStep(0, true)];
    var b1 := Next(Initial, s0);
    assert b1 == Initial.(busy := true, starting := Some(Starting(First, AlwaysTakes)));
    var b2 := Next(b1, ProceedStep(false));
    assert b2.tasks == map[0 := AwaitStart(0, 0, First)];
    assert b2.session == Some(Opened);
    var b3 := Next(b2, StartedStep(0, true));
    assert b3.tasks == map[1 := AwaitThread(0, 0, First)];
    assert b3.wire.sent == [StartThread(0, Opened.config)];
  }

  lemma BegunShape()
    ensures Begun.messages == [] && Begun.output == [] && !Begun.finished && Indexed(Begun)
    ensures Finish(Begun, AlwaysTakes) == Outcome(Ended, None) && Ended.finished
  {
  }

  /** The null note completes the operation although the session has no thread. */
  const Completed := Waiting.(
    session := Some(Opened.(lastResponse := Some(0))),
    operation := Some(Operation(0, 0, Ended, Some(Resolved))),
    history := History([(0, Resolved)], [], [], []),
    delivery := Delivery([TurnDone], [TurnDone], [], 0))

  const Idle := Completed.(busy := false, operation := None, timer := true, history := History([(0, Resolved)], [], [Ended.offered], [[TurnDone]]))

  /** A completed turn ends a segment that was just begun. */
  lemma TurnDoneEnds(b: Bridge)
    requires Sane(b) && b.session.Some? && b.session.value.turnId.None? && Outstanding(b.session.value) == []
    requires b.operation == Some(Operation(0, 0, Begun, None)) && b.sink == AlwaysTakes
    ensures var c := b.(
        session := Some(b.session.value.(lastResponse := Some(0))),
        operation := Some(Operation(0, 0, Ended, Some(Resolved))),
        history := b.history.(settled := b.history.settled + [(0, Resolved)]),
        delivery := b.delivery.(arrived := b.delivery.arrived + [TurnDone], handed := b.delivery.handed + [TurnDone]));
      Sane(c) && Dispatch(b, TurnDone) == c
  {
    BegunShape();
    hide Start, Finish;
    var a := Arrive(b, TurnDone);
    assert Ends(a.session.value, TurnDone) == {};
    assert a.wire.ended + {} == a.wire.ended;
    var d := Noted(a, TurnDone);
    assert d == a.(delivery := a.delivery.(handed := a.delivery.handed + [TurnDone]));
    hide Noted, Arrive;
    assert Complete(d).fault.None?;
  }

  lemma CompleteByNull()
    ensures Sane(Waiting) && Next(Waiting, NoteStep(Null, TurnDone)) == Completed
  {
    BegunShape();
    TurnDoneEnds(Waiting);
    hide Start, Finish, Dispatch;
    assert [] + [(0, Resolved)] == [(0, Resolved)] && [] + [TurnDone] == [TurnDone];
  }

  lemma FinalizeCompleted()
    ensures Sane(Completed) && Next(Completed, FinalizeStep) == Idle
  {
    BegunShape();
    hide Start, Finish;
    assert [] + [Ended.offered] == [Ended.offered] && [] + [[TurnDone]] == [[TurnDone]];
    assert Handed(Completed) == [TurnDone];
  }

  /** The continuation asks for a thread of its own. */
  const Doubled := Idle.(
    busy := true, timer := false, operation := Some(Operation(1, 0, Begun, None)),
    tasks := map[1 := AwaitThread(0, 0, First), 3 := AwaitThread(0, 1, Second)], nextTask := 4, nextOperation := 2,
    wire := Wire([StartThread(0, Opened.config), StartThread(0, Opened.config)], map[], {}, {}, {}, []),
    history := Idle.history.(continued := [0]), delivery := Delivery([TurnDone], [TurnDone], [], 1))

  lemma ContinueDoubles()
    ensures Next(Next(Idle, RequestStep(Second, AlwaysTakes, false)), StartedStep(2, true)) == Doubled
  {
    BegunShape();
    hide Indexed;
    var c := Next(Idle, RequestStep(Second, AlwaysTakes, false));
    assert c.operation == Some(Operation(1, 0, Begun, None));
    assert c.tasks == map[1 := AwaitThread(0, 0, First), 2 := AwaitStart(0, 1, Second)];
    assert c.history.continued == [0];
    var d := Next(c, StartedStep(2, true));
    assert d.tasks == map[1 := AwaitThread(0, 0, First), 3 := AwaitThread(0, 1, Second)];
    assert d.wire.sent == [StartThread(0, Opened.config), StartThread(0, Opened.config)];
  }

  const Attached := Doubled.(
    session := Some(Idle.session.value.(threadId := Some(100))),
    tasks := map[3 := AwaitThread(0, 1, Second), 4 := AwaitTurn(0, 0)], nextTask := 5,
    wire := Wire([StartThread(0, Opened.config), StartThread(0, Opened.config), StartTurn(0, 100, "hello", None)], map[0 := 100], {(0, 100)}, {}, {}, []))

  lemma FirstThreadStep()
    ensures Sane(Doubled)
    ensures var c := Attach(Return(RemoveTask(Doubled, 1), 0, 100), 100);
            Sane(c) && c.session.Some? && c.session.value.threadId.Some?
            && Next(Doubled, ThreadStep(1, true, Some(100), None)) == WithThread(c, 0, First)
  {
    BegunShape();
    hide Start, WithThread, DriveFault, Indexed, Finish;
  }

  lemma FirstThreadAttaches()
    ensures Sane(Doubled) && Next(Doubled, ThreadStep(1, true, Some(100), None)) == Attached
  {
    FirstThreadStep();
    hide Start, Resume, DriveFault, FlushTool, ConsumeAll, Finish, Next, Indexed;
    var c := Next(Doubled, ThreadStep(1, true, Some(100), None));
    assert c.tasks == Attached.tasks;
    assert c.wire == Attached.wire;
  }

  lemma SecondThreadStep()
    ensures Sane(Attached)
    ensures var c := Attach(Return(RemoveTask(Attached, 3), 0, 200), 200);
            Sane(c) && c.session.Some? && c.session.value.threadId.Some?
            && Next(Attached, ThreadStep(3, true, Some(200), None)) == WithThread(c, 1, Second)
  {
    BegunShape();
    hide Start, WithThread, DriveFault, Indexed, Finish;
  }

  lemma SecondThreadForgetsFirst()
    ensures Sane(Attached)
    ensures var b := Next(Attached, ThreadStep(3, true, Some(200), None)); (0, 100) in b.wire.threads && !Owned(b, 0, 100)
  {
    BegunShape();
    SecondThreadStep();
    hide Start, Resume, DriveFault, Indexed, Finish, FlushTool, ConsumeAll, Next;
    var d := Next(Attached, ThreadStep(3, true, Some(200), None));
    assert d.tasks == map[4 := AwaitTurn(0, 0), 5 := AwaitTurn(0, 1)];
    assert d.wire.sent == [StartThread(0, Opened.config), StartThread(0, Opened.config), StartTurn(0, 100, "hello", None), StartTurn(0, 200, "more", None)];
  }

  const NullRun := [
    RequestStep(First, AlwaysTakes, false), ProceedStep(false), StartedStep(0, true),
    NoteStep(Null, TurnDone), FinalizeStep,
    RequestStep(Second, AlwaysTakes, false), StartedStep(2, true),
    ThreadStep(1, true, Some(100), None), ThreadStep(3, true, Some(200), None)]

  /** With a null thread id in one notification, a thread is leaked. */
  lemma NullThreadLeaks()
    ensures (0, 100) in Reach(NullRun).wire.threads && !Owned(Reach(NullRun), 0, 100)
  {
    assert NullRun[..3] == [RequestStep(First, AlwaysTakes, false), ProceedStep(false), StartedStep(0, true)];
    assert NullRun[..9] == NullRun;
    forall i | 0 <= i < 9 ensures NullRun[..i + 1] == NullRun[..i] + [NullRun[i]] {
    }
    hide *;
    ReachWaiting();
    CompleteByNull();
    FinalizeCompleted();
    ContinueDoubles();
    FirstThreadAttaches();
    SecondThreadForgetsFirst();
    RunSnoc(NullRun[..3], NullRun[3]);
    RunSnoc(NullRun[..4], NullRun[4]);
    RunSnoc(NullRun[..5], NullRun[5]);
    RunSnoc(NullRun[..6], NullRun[6]);
    RunSnoc(NullRun[..7], NullRun[7]);
    RunSnoc(NullRun[..8], NullRun[8]);
  }

  // ---------------------------------------------------------------------------
  // Overtaking
  // ---------------------------------------------------------------------------

  const NoteA := Note(Some(1), false, ItemCompleted(None))
  const NoteB := Note(Some(2), false, ItemCompleted(None))

  const Threaded := Waiting.(
    session := Some(Opened.(threadId := Some(100))),
    tasks := map[2 := AwaitTurn(0, 0)], nextTask := 3,
    wire := Wire([StartThread(0, Opened.config), StartTurn(0, 100, "hello", None)], map[0 := 100], {(0, 100)}, {}, {}, []))

  const Finished := Threaded.(
    session := Some(Opened.(threadId := Some(100), lastResponse := Some(0))),
    operation := Some(Operation(0, 0, Ended, Some(Resolved))),
    history := History([(0, Resolved)], [], [], []), delivery := Delivery([TurnDone], [TurnDone], [], 0))

  const Done := Finished.(
    operation := None, busy := false, timer := true,
    history := History([(0, Resolved)], [], [Ended.offered], [[TurnDone]]))

  const Late := Done.(
    session := Some(Done.session.value.(buffered := [NoteA])),
    delivery := Delivery([TurnDone, NoteA], [TurnDone], [], 0))

  lemma ReachThreaded()
    ensures Sane(Waiting) && Next(Waiting, ThreadStep(1, true, Some(100), None)) == Threaded
  {
    BegunShape();
    hide Start, Resume;
    var c := Next(Waiting, ThreadStep(1, true, Some(100), None));
    assert c.tasks == Threaded.tasks;
    assert c.wire == Threaded.wire;
  }

  lemma FinishFirstTurn()
    ensures Sane(Threaded) && Next(Threaded, NoteStep(Thread(100), TurnDone)) == Finished
  {
    BegunShape();
    TurnDoneEnds(Threaded);
    hide Start, Finish, Dispatch;
    assert [] + [(0, Resolved)] == [(0, Resolved)] && [] + [TurnDone] == [TurnDone];
  }

  lemma ReachDone()
    ensures Sane(Finished) && Next(Finished, FinalizeStep) == Done
  {
    BegunShape();
    hide Start, Finish;
    assert [] + [Ended.offered] == [Ended.offered] && [] + [[TurnDone]] == [[TurnDone]];
    assert Handed(Finished) == [TurnDone];
  }

  lemma ReachLate()
    ensures Sane(Done) && Next(Done, NoteStep(Thread(100), NoteA)) == Late
  {
    hide Start, Finish;
    assert [TurnDone] + [NoteA] == [TurnDone, NoteA] && [] + [NoteA] == [NoteA];
  }

  /** The second message begins over the buffered note, and the next note overtakes it. */
  lemma SecondTurnOvertakes()
    ensures Sane(Late)
    ensures Next(Next(Late, RequestStep(Second, AlwaysTakes, false)), NoteStep(Thread(100), NoteB)).delivery ==
            Delivery([TurnDone, NoteA, NoteB], [TurnDone, NoteB], [], 1)
    ensures Next(Next(Late, RequestStep(Second, AlwaysTakes, false)), NoteStep(Thread(100), NoteB)).session ==
            Some(Late.session.value)
  {
    BegunShape();
    hide Resume, Indexed;
    var c := Next(Late, RequestStep(Second, AlwaysTakes, false));
    assert c.operation == Some(Operation(1, 0, Begun, None)) && c.session == Some(Late.session.value);
    assert c.delivery == Delivery([TurnDone, NoteA], [TurnDone], [], 1);
    assert [TurnDone, NoteA] + [NoteB] == [TurnDone, NoteA, NoteB] && [TurnDone] + [NoteB] == [TurnDone, NoteB];
  }

  const LateRun := [
    RequestStep(First, AlwaysTakes, false), ProceedStep(false), StartedStep(0, true),
    ThreadStep(1, true, Some(100), None), NoteStep(Thread(100), TurnDone), FinalizeStep,
    NoteStep(Thread(100), NoteA), RequestStep(Second, AlwaysTakes, false), NoteStep(Thread(100), NoteB)]

  /** A late note, kept while the session is idle, is overtaken by the notes of the next turn. */
  lemma LateNoteOvertaken()
    ensures Reach(LateRun).session.Some?
    ensures Reach(LateRun).delivery.arrived == [TurnDone, NoteA, NoteB]
    ensures Reach(LateRun).delivery.handed == [TurnDone, NoteB] && Reach(LateRun).session.value.buffered == [NoteA]
  {
    assert LateRun[..3] == [RequestStep(First, AlwaysTakes, false), ProceedStep(false), StartedStep(0, true)];
    assert LateRun[..9] == LateRun;
    forall i | 0 <= i < 9 ensures LateRun[..i + 1] == LateRun[..i] + [LateRun[i]] {
    }
    hide *;
    ReachWaiting();
    ReachThreaded();
    FinishFirstTurn();
    ReachDone();
    ReachLate();
    SecondTurnOvertakes();
    RunSnoc(LateRun[..3], LateRun[3]);
    RunSnoc(LateRun[..4], LateRun[4]);
    RunSnoc(LateRun[..5], LateRun[5]);
    RunSnoc(LateRun[..6], LateRun[6]);
    RunSnoc(LateRun[..7], LateRun[7]);
    RunSnoc(LateRun[..8], LateRun[8]);
  }


  // ---------------------------------------------------------------------------
  // Dropping
  // ---------------------------------------------------------------------------

  const ToolRequest := ServerRequest(7, true, Thread(100), Some(0), false, Some(1), Some(0), Some("{}"))
  const ToolOut := Request(Some(0), None, None, None, None, ToolOutput(0, "result"))
  const DoneOne := Note(None, false, TurnCompleted(Some(TurnInfo(Some(1), true))))
  const Tail := Note(None, false, MessageDelta(Some("message"), Some("text")))

  const Filled := ToolCall(Begun, 0, "tool", "{}", AlwaysTakes).seg
  const Surfaced := Finish(Filled, AlwaysTakes).seg

  lemma SurfacedShape()
    ensures ToolCall(Begun, 0, "tool", "{}", AlwaysTakes) == Outcome(Filled, None)
    ensures Indexed(Filled) && Finish(Filled, AlwaysTakes) == Outcome(Surfaced, None) && Surfaced.finished && Indexed(Surfaced)
  {
  }

  /** The tool call has ended the first response. */
  const Calling := Threaded.(
    session := Some(Opened.(threadId := Some(100), turnId := Some(1), lastResponse := Some(0),
                            waiting := Some(Call(7, 0, "tool", "{}")), seen := {0})),
    operation := Some(Operation(0, 0, Surfaced, Some(Resolved))),
    ledger := Ledger([7], [], {}), wire := Threaded.wire.(turns := {(0, 1)}),
    history := History([(0, Resolved)], [], [], []))

  const Suspended := Calling.(
    operation := None, busy := false, timer := true,
    history := History([(0, Resolved)], [], [Surfaced.offered], [[]]))

  const Buffered := Suspended.(
    session := Some(Suspended.session.value.(buffered := [DoneOne, Tail])),
    delivery := Delivery([DoneOne, Tail], [], [], 0))

  /** The tool call is queued. */
  const Asked := Threaded.(
    session := Some(Opened.(threadId := Some(100), turnId := Some(1), pending := [Call(7, 0, "tool", "{}")], seen := {0})),
    ledger := Ledger([7], [], {}), wire := Threaded.wire.(turns := {(0, 1)}))

  lemma ReachAsked()
    ensures Acceptable(Threaded.session.value, ToolRequest) && Queue(Threaded, ToolRequest) == Asked
  {
    hide Start;
    assert [] + [7] == [7] && {} + {0} == {0} && {} + {(0, 1)} == {(0, 1)};
    assert [] + [Call(7, 0, "tool", "{}")] == [Call(7, 0, "tool", "{}")];
  }

  lemma FlushAsked()
    ensures Sane(Asked) && FlushTool(Asked) == Effect(Calling, None)
  {
    BegunShape();
    SurfacedShape();
    hide Start, ToolCall, Finish, Indexed;
    assert Asked.session.value.pending[1..] == [];
    assert [] + [(0, Resolved)] == [(0, Resolved)];
  }

  lemma ReachCalling()
    ensures Sane(Threaded) && Next(Threaded, ServerStep(ToolRequest)) == Calling
  {
    BegunShape();
    ReachAsked();
    FlushAsked();
    hide Start, ToolCall, Finish, Indexed, FlushTool, Queue, Acceptable;
  }

  lemma ReachSuspended()
    ensures Sane(Calling) && Next(Calling, FinalizeStep) == Suspended
  {
    SurfacedShape();
    hide Start, ToolCall, Finish, Indexed;
    assert [] + [Surfaced.offered] == [Surfaced.offered];
    assert Handed(Calling) == [];
  }

  lemma ReachBuffered()
    ensures Sane(Suspended) && Next(Next(Suspended, NoteStep(Thread(100), DoneOne)), NoteStep(Thread(100), Tail)) == Buffered
  {
    hide Start, ToolCall, Finish, Indexed;
    assert [] + [DoneOne] == [DoneOne] && [DoneOne] + [Tail] == [DoneOne, Tail];
  }

  /** The continuation, about to drain the buffer. */
  const Continued := Buffered.(
    session := Some(Buffered.session.value.(waiting := None, buffered := [])),
    operation := Some(Operation(1, 0, Begun, None)), busy := true, timer := false, nextOperation := 2,
    ledger := Ledger([7], [Answer(0, 7, ToolResult("result"))], {}),
    history := Buffered.history.(continued := [0]))

  lemma ReachContinued()
    ensures Sane(Buffered) && Sane(Continued)
    ensures var r := ConsumeAll(Continued, [DoneOne, Tail]);
      Next(Buffered, RequestStep(ToolOut, AlwaysTakes, false)) ==
      DriveFault(if r.fault.Some? then r.bridge else FlushTool(r.bridge).bridge, 1,
                 if r.fault.Some? then r.fault else FlushTool(r.bridge).fault)
  {
    BegunShape();
    StartTakes();
    hide Start, ToolCall, Finish, Indexed, ConsumeAll, FlushTool, DriveFault;
    assert Refusal(Buffered, ToolOut, false).None?;
    assert [] + [0] == [0] && [] + [Answer(0, 7, ToolResult("result"))] == [Answer(0, 7, ToolResult("result"))];
    var entered := Enter(Continue(Buffered, 0), AlwaysTakes);
    assert AnswerWaiting(entered, "result") == Continued;
  }

  lemma StartTakes()
    ensures Start(Fresh, AlwaysTakes) == Outcome(Begun, None)
  {
  }

  /** The segment ends with the turn, and what stood behind it in the buffer is gone. */
  lemma DrainDropsTail()
    ensures Sane(Continued)
    ensures var r := ConsumeAll(Continued, [DoneOne, Tail]);
      && r.fault.None? && FlushTool(r.bridge) == Effect(r.bridge, None)
      && r.bridge.delivery == Delivery([DoneOne, Tail], [DoneOne], [Tail], 0)
      && r.bridge.session.Some? && r.bridge.session.value.buffered == []
      && r.bridge.operation == Some(Operation(1, 0, Ended, Some(Resolved)))
  {
    BegunShape();
    hide Start, ToolCall, Finish, Indexed, Ends;
    var d := HandOver(Continued, DoneOne);
    assert Noted(Continued, DoneOne).delivery == Delivery([DoneOne, Tail], [DoneOne], [], 0);
    assert d.fault.None? && d.bridge.delivery == Delivery([DoneOne, Tail], [DoneOne], [], 0);
    assert d.bridge.operation == Some(Operation(1, 0, Ended, Some(Resolved)));
    var notes := [DoneOne, Tail];
    assert notes[1..] == [Tail];
    ConsumeAllSteps(Continued, notes);
    FinishedDrops(d.bridge, notes[1..]);
  }

  const DropRun := [
    RequestStep(First, AlwaysTakes, false), ProceedStep(false), StartedStep(0, true),
    ThreadStep(1, true, Some(100), None), ServerStep(ToolRequest), FinalizeStep,
    NoteStep(Thread(100), DoneOne), NoteStep(Thread(100), Tail), RequestStep(ToolOut, AlwaysTakes, false)]

  lemma ReachBufferedRun()
    ensures Reach(DropRun[..8]) == Buffered
  {
    assert DropRun[..3] == [RequestStep(First, AlwaysTakes, false), ProceedStep(false), StartedStep(0, true)];
    forall i | 0 <= i < 8 ensures DropRun[..i + 1] == DropRun[..i] + [DropRun[i]] {
    }
    hide *;
    ReachWaiting();
    ReachThreaded();
    ReachCalling();
    ReachSuspended();
    ReachBuffered();
    RunSnoc(DropRun[..3], DropRun[3]);
    RunSnoc(DropRun[..4], DropRun[4]);
    RunSnoc(DropRun[..5], DropRun[5]);
    RunSnoc(DropRun[..6], DropRun[6]);
    RunSnoc(DropRun[..7], DropRun[7]);
  }

  /**
    A text delta that upstream sent behind a completed turn, while a tool was outstanding, reaches nobody;
    the operation succeeds and its session lives on.
   */
  lemma BufferedNoteDropped()
    ensures var b := Reach(DropRun);
      && b.delivery == Delivery([DoneOne, Tail], [DoneOne], [Tail], 0)
      && b.session.Some? && b.session.value.buffered == []
      && b.operation.Some? && b.operation.value.settled == Some(Resolved)
  {
    assert DropRun[..8] + [DropRun[8]] == DropRun;
    ReachBufferedRun();
    ReachContinued();
    DrainDropsTail();
    RunSnoc(DropRun[..8], DropRun[8]);
    hide Next, Reach, ConsumeAll, FlushTool;
  }

  // ---------------------------------------------------------------------------
  // Turns displaced
  // ---------------------------------------------------------------------------

  const SecondStarted := Note(None, false, TurnStarted(Some(TurnInfo(Some(2), false))))

  const Acknowledged := Threaded.(
    session := Some(Opened.(threadId := Some(100), turnId := Some(1))), tasks := map[],
    wire := Threaded.wire.(turns := {(0, 1)}))

  const Replaced := Acknowledged.(
    session := Some(Opened.(threadId := Some(100), turnId := Some(2))),
    wire := Threaded.wire.(turns := {(0, 1), (0, 2)}))

  lemma ReachReplaced()
    ensures Sane(Threaded) && Next(Threaded, TurnStep(2, true, Some(1))) == Acknowledged
    ensures Sane(Acknowledged) && Next(Acknowledged, NoteStep(Thread(100), SecondStarted)) == Replaced
  {
    BegunShape();
    hide Start, Indexed, Finish;
    assert Next(Threaded, TurnStep(2, true, Some(1))).tasks == map[];
    assert {} + {(0, 1)} == {(0, 1)};
    assert {(0, 1)} + {(0, 2)} == {(0, 1), (0, 2)};
  }

  lemma AbortReplaced()
    ensures Sane(Replaced)
    ensures var b := Next(Replaced, AbortStep);
      && b.session.None? && b.wire.turns == {(0, 1), (0, 2)} && b.wire.ended == {}
      && b.wire.sent == [StartThread(0, Opened.config), StartTurn(0, 100, "hello", None), Interrupt(0, 100, 2)]
  {
    BegunShape();
    hide Start, Indexed, Finish, Abandon;
    assert [StartThread(0, Opened.config), StartTurn(0, 100, "hello", None)] + [Interrupt(0, 100, 2)] ==
           [StartThread(0, Opened.config), StartTurn(0, 100, "hello", None), Interrupt(0, 100, 2)];
  }

  const TurnRun := [
    RequestStep(First, AlwaysTakes, false), ProceedStep(false), StartedStep(0, true),
    ThreadStep(1, true, Some(100), None), TurnStep(2, true, Some(1)),
    NoteStep(Thread(100), SecondStarted), AbortStep]

  /** A turn that another one replaced goes on when its session ends: nobody interrupts it. */
  lemma ReplacedTurnGoesOn()
    ensures var b := Reach(TurnRun);
      && (0, 1) in b.wire.turns && b.session.None? && !InHand(b, 0, 1)
      && b.wire.sent == [StartThread(0, Opened.config), StartTurn(0, 100, "hello", None), Interrupt(0, 100, 2)]
  {
    assert TurnRun[..3] == [RequestStep(First, AlwaysTakes, false), ProceedStep(false), StartedStep(0, true)];
    assert TurnRun[..7] == TurnRun;
    forall i | 0 <= i < 7 ensures TurnRun[..i + 1] == TurnRun[..i] + [TurnRun[i]] {
    }
    ReachWaiting();
    ReachThreaded();
    ReachReplaced();
    AbortReplaced();
    hide Next, Reach;
    RunSnoc(TurnRun[..3], TurnRun[3]);
    RunSnoc(TurnRun[..4], TurnRun[4]);
    RunSnoc(TurnRun[..5], TurnRun[5]);
    RunSnoc(TurnRun[..6], TurnRun[6]);
  }
}
