/**
  What the two sides of the bridge said to each other, over whole runs.

  Each statement traces something that one side received back to the step in which the other side said it:
  a function call to the server request that asked for it, a tool result to the client's output for that
  very call, a turn's text to an accepted request of the same session, and the session's configuration to
  the request that opened it.
 */
module BridgeDialogues {
  import opened Wrappers
  import opened ResponseSegments
  import opened EventGrammar
  import opened SegmentStream
  import opened Transcripts
  import opened BridgeState
  import opened BridgeOperations
  import opened BridgeStreams
  import opened BridgeCalls
  import opened BridgeFilters
  import opened BridgeProvenance

  // ---------------------------------------------------------------------------
  // Who said what
  // ---------------------------------------------------------------------------

  predicate Accepted(b: Bridge, step: Step) { step.RequestStep? && Refusal(b, step.req, step.aborted).None? }

  /**
    The step is a server request for a call of the live session: client call id `callId`, the name the session
    registered at the requested index, and the arguments of the request.
   */
  predicate Asks(b: Bridge, step: Step, callId: nat, name: string, args: string) {
    && step.ServerStep? && Reaches(b, step.request.thread) && step.request.toolCall && GoodCall(b.session.value, step.request)
    && callId == |b.ledger.received|
    && name == b.session.value.config.tools.names[step.request.toolIndex.value]
    && args == step.request.args.value
  }

  /** The step is an accepted request with the output of the call that waits. */
  predicate Gives(b: Bridge, step: Step, callId: nat, output: string) {
    && Accepted(b, step) && step.req.input == ToolOutput(callId, output)
    && b.session.Some? && b.session.value.waiting.Some? && b.session.value.waiting.value.arrival == callId
  }

  /** The step is an accepted request with a text for session sid, which it opens or continues. */
  predicate Says(b: Bridge, step: Step, sid: nat, text: string) {
    && Accepted(b, step) && step.req.input == UserText(text)
    && (if step.req.previous.None? then sid == b.nextSession else b.session.Some? && b.session.value.sid == sid)
  }

  /** The step is the accepted request that opens session sid, with this configuration. */
  predicate OpensWith(b: Bridge, step: Step, sid: nat, config: Config) {
    Accepted(b, step) && step.req.previous.None? && sid == b.nextSession && ConfigOf(config, step.req)
  }

  ghost predicate OpenedWith(steps: seq<Step>, sid: nat, config: Config) {
    exists k :: 0 <= k < |steps| && OpensWith(Reach(steps[..k]), steps[k], sid, config)
  }

  ghost predicate AskedIn(steps: seq<Step>, callId: nat, name: string, args: string) {
    exists k :: 0 <= k < |steps| && Asks(Reach(steps[..k]), steps[k], callId, name, args)
  }

  ghost predicate GivenIn(steps: seq<Step>, callId: nat, output: string) {
    exists k :: 0 <= k < |steps| && Gives(Reach(steps[..k]), steps[k], callId, output)
  }

  ghost predicate ToldIn(steps: seq<Step>, sid: nat, text: string) {
    exists k :: 0 <= k < |steps| && Says(Reach(steps[..k]), steps[k], sid, text)
  }

  /** The request is the last one accepted so far that opened a conversation. */
  ghost predicate OpenedIn(steps: seq<Step>, req: Request) {
    exists k :: 0 <= k < |steps| && Accepted(Reach(steps[..k]), steps[k]) && steps[k].req == req && req.previous.None?
      && NoneOpens(steps, k + 1)
  }

  ghost predicate NoneOpens(steps: seq<Step>, from: nat) {
    forall j :: from <= j < |steps| && Accepted(Reach(steps[..j]), steps[j]) ==> steps[j].req.previous.Some?
  }

  // ---------------------------------------------------------------------------
  // Tracing
  // ---------------------------------------------------------------------------

  lemma SaidBefore(steps: seq<Step>)
    requires steps != []
    ensures var before := steps[..|steps| - 1];
      && (forall n: nat, name, args :: AskedIn(before, n, name, args) ==> AskedIn(steps, n, name, args))
      && (forall n: nat, output :: GivenIn(before, n, output) ==> GivenIn(steps, n, output))
      && (forall sid: nat, text :: ToldIn(before, sid, text) ==> ToldIn(steps, sid, text))
      && (forall sid: nat, config :: OpenedWith(before, sid, config) ==> OpenedWith(steps, sid, config))
  {
    var before := steps[..|steps| - 1];
    assert forall k :: 0 <= k < |before| ==> before[..k] == steps[..k] && before[k] == steps[k];
    hide Reach, Asks, Gives, Says, OpensWith;
  }

  lemma SaidLast(steps: seq<Step>)
    requires steps != []
    ensures var b, step := Reach(steps[..|steps| - 1]), steps[|steps| - 1];
      && (forall n: nat, name, args :: Asks(b, step, n, name, args) ==> AskedIn(steps, n, name, args))
      && (forall n: nat, output :: Gives(b, step, n, output) ==> GivenIn(steps, n, output))
      && (forall sid: nat, text :: Says(b, step, sid, text) ==> ToldIn(steps, sid, text))
      && (forall sid: nat, config :: OpensWith(b, step, sid, config) ==> OpenedWith(steps, sid, config))
  {
    var last := |steps| - 1;
    assert steps[..last] == steps[..|steps| - 1];
    hide Reach, Asks, Gives, Says, OpensWith;
  }

  /** What is recorded as said, was said in some step. */
  ghost predicate Traced(steps: seq<Step>, src: Source) {
    && (forall c :: c in src.calls ==> AskedIn(steps, c.arrival, c.name, c.args))
    && (forall p :: p in src.outputs ==> GivenIn(steps, p.0, p.1))
    && (forall p :: p in src.texts ==> ToldIn(steps, p.0, p.1))
    && (forall p :: p in src.configs ==> OpenedWith(steps, p.0, p.1))
  }

  lemma HeardLast(b: Bridge, step: Step, src: Source)
    ensures var more := Heard(src, b, step);
      && (forall c :: c in more.calls ==> c in src.calls || Asks(b, step, c.arrival, c.name, c.args))
      && (forall p :: p in more.outputs ==> p in src.outputs || Gives(b, step, p.0, p.1))
      && (forall p :: p in more.texts ==> p in src.texts || Says(b, step, p.0, p.1))
      && (forall p :: p in more.configs ==> p in src.configs || OpensWith(b, step, p.0, p.1))
  {
    if step.RequestStep? {
      AcceptedExactly(b, step.req, step.aborted);
    }
    hide Refusal, GoodCall, Reaches;
  }

  lemma {:induction false} SaidTraced(steps: seq<Step>)
    ensures Traced(steps, Said(steps))
  {
    if steps != [] {
      SaidTraced(steps[..|steps| - 1]);
      SaidBefore(steps);
      SaidLast(steps);
      HeardLast(Reach(steps[..|steps| - 1]), steps[|steps| - 1], Said(steps[..|steps| - 1]));
      hide Reach, Heard, AskedIn, GivenIn, ToldIn, OpenedWith, Asks, Gives, Says, OpensWith;
    }
  }

  lemma {:induction false} OpeningTraced(steps: seq<Step>)
    ensures if Said(steps).opening.Some? then OpenedIn(steps, Said(steps).opening.value) else NoneOpens(steps, 0)
  {
    if steps != [] {
      var last := |steps| - 1;
      var before := steps[..last];
      OpeningTraced(before);
      assert Said(steps) == Heard(Said(before), Reach(before), steps[last]);
      OpeningHeard(Reach(before), steps[last], Said(before));
      hide Reach, Heard, Said, Refusal, OpenedIn, NoneOpens;
      if Accepted(Reach(before), steps[last]) && steps[last].req.previous.None? {
        OpensLast(steps);
      } else {
        OpenedBefore(steps);
      }
    }
  }

  lemma OpensLast(steps: seq<Step>)
    requires steps != [] && Accepted(Reach(steps[..|steps| - 1]), steps[|steps| - 1]) && steps[|steps| - 1].req.previous.None?
    ensures OpenedIn(steps, steps[|steps| - 1].req)
  {
    hide Reach, Refusal;
    assert NoneOpens(steps, |steps|);
  }

  lemma OpenedBefore(steps: seq<Step>)
    requires steps != []
    requires !(Accepted(Reach(steps[..|steps| - 1]), steps[|steps| - 1]) && steps[|steps| - 1].req.previous.None?)
    ensures var before := steps[..|steps| - 1];
      && (forall req :: OpenedIn(before, req) ==> OpenedIn(steps, req))
      && (NoneOpens(before, 0) ==> NoneOpens(steps, 0))
  {
    hide Reach, Refusal;
    var before := steps[..|steps| - 1];
    assert forall k :: 0 <= k < |before| ==> before[..k] == steps[..k] && before[k] == steps[k];
    forall req | OpenedIn(before, req) ensures OpenedIn(steps, req) {
      var k :| 0 <= k < |before| && Accepted(Reach(before[..k]), before[k]) && before[k].req == req
               && req.previous.None? && NoneOpens(before, k + 1);
      assert NoneOpens(steps, k + 1);
      assert Accepted(Reach(steps[..k]), steps[k]);
    }
  }

  lemma OpeningHeard(b: Bridge, step: Step, src: Source)
    ensures Heard(src, b, step).opening ==
      if Accepted(b, step) && step.req.previous.None? then Some(step.req) else src.opening
  {
    hide Refusal, GoodCall, Reaches;
  }

  // ---------------------------------------------------------------------------
  // The client's side
  // ---------------------------------------------------------------------------

  /** The stream of an operation that was resolved is well formed, and completed. */
  lemma ResolvedStream(b: Bridge, src: Source, i: nat)
    requires Told(b) && Sourced(b, src) && i < |b.history.settled| && b.history.settled[i].1 == Resolved
    ensures var offers := StreamOf(b, i);
      WellFormed(offers) && offers != [] && offers[|offers| - 1].event.ResponseCompleted? && Surfaces(offers, src.calls)
  {
    hide Follows, Tells, OutTold, BridgeProvenance.Opens, TasksTold, SentTold, WaitTold, Fits, Surfaces, ContinuedOnce;
    if i >= |b.history.streams| {
      assert b.operation.Some? && b.operation.value.oid == i && b.operation.value.settled == Some(Resolved);
    }
  }

  /**
    Every function call that a resolved operation shows its client is the last item of the output, was asked
    for by a server request of the session, and carries that request's client call id, the name registered
    at its index, and its arguments, in the added and the done event, in the deltas joined, and in the output.
   */
  lemma CallsAreAsked(steps: seq<Step>, i: nat, j: nat)
    requires i < |Reach(steps).history.settled| && Reach(steps).history.settled[i].1 == Resolved
    ensures var offers := StreamOf(Reach(steps), i);
      && offers != [] && offers[|offers| - 1].event.ResponseCompleted?
      && var output := offers[|offers| - 1].event.output;
         j < |output| && output[j].FunctionCall? ==>
           var call := output[j];
           && j == |output| - 1 && call.completed
           && CallShown(offers, j, call.callId, call.name, call.arguments)
           && AskedIn(steps, call.callId, call.name, call.arguments)
  {
    RunTold(steps);
    RunSourced(steps);
    SaidTraced(steps);
    ResolvedStream(Reach(steps), Said(steps), i);
    var offers := StreamOf(Reach(steps), i);
    hide Reach, Told, Sourced, Said, CallShown, StreamOf, AskedIn, Read;
    var output := offers[|offers| - 1].event.output;
    if j < |output| && output[j].FunctionCall? {
      CompletedCall(offers, output, j);
      assert Asked(Said(steps).calls, output[j]);
    }
  }

  /**
    An idle session waits for a tool result exactly if its latest response ended in a function call: that call
    then waits, is the oldest outstanding one, and every request before it was answered or lost.
   */
  lemma WaitsForItsCall(steps: seq<Step>)
    requires var b := Reach(steps); b.session.Some? && !Unsettled(b) && b.session.value.lastResponse.Some?
    ensures var b := Reach(steps);
      var s := b.session.value;
      var offers := StreamOf(b, s.lastResponse.value);
      if s.waiting.None? then EndsWithoutCall(offers)
      else
        && EndsInCall(offers, s.waiting.value)
        && (forall i :: 0 <= i < |s.pending| ==> s.waiting.value.arrival < s.pending[i].arrival)
        && (forall n: nat :: n < s.waiting.value.arrival ==> n in b.ledger.lost || Answered(b.ledger.answers, n))
        && !Answered(b.ledger.answers, s.waiting.value.arrival) && s.waiting.value.arrival !in b.ledger.lost
  {
    RunSourced(steps);
    RunKept(steps);
    var b := Reach(steps);
    hide Reach, Base, OpTold, Said, StreamOf, EndsInCall, EndsWithoutCall;
    if b.session.value.waiting.Some? {
      FirstIsOldest(b);
    }
  }

  lemma FirstIsOldest(b: Bridge)
    requires Kept(b) && b.session.Some? && b.session.value.waiting.Some?
    ensures var s := b.session.value;
      && (forall i :: 0 <= i < |s.pending| ==> s.waiting.value.arrival < s.pending[i].arrival)
      && (forall n: nat :: n < s.waiting.value.arrival ==> n in b.ledger.lost || Answered(b.ledger.answers, n))
      && !Answered(b.ledger.answers, s.waiting.value.arrival) && s.waiting.value.arrival !in b.ledger.lost
  {
    var s := b.session.value;
    var out := OutCalls(b);
    assert out == [s.waiting.value] + s.pending;
    assert out[0] == s.waiting.value;
    forall i | 0 <= i < |s.pending| ensures s.waiting.value.arrival < s.pending[i].arrival {
      assert out[i + 1] == s.pending[i];
    }
    forall n: nat | n < s.waiting.value.arrival ensures n in b.ledger.lost || Answered(b.ledger.answers, n) {
      assert n < |b.ledger.received|;
      assert !Holds(out, n);
    }
  }

  /** What a note tells that the operation's notes so far contradict. */
  predicate Contradicts(t: Transcript, n: Note) {
    match n.body
    case MessageDelta(itemId, delta) => itemId.Some? && delta.Some? && LateText(t, itemId.value, delta.value)
    case ItemCompleted(message) => message.Some? && BadItem(t, message.value)
    case _ => false
  }

  predicate Telling(n: Note) {
    (n.body.MessageDelta? && n.body.itemId.Some? && n.body.delta.Some?) || n.body.ItemCompleted?
  }

  /**
    A running operation whose client takes every event takes every text and every completed message of its
    turn, and goes on; unless that contradicts what its notes told so far, text behind a completed message or
    a completed message with another text, which ends it as an invalid upstream event.
   */
  lemma NotesTaken(steps: seq<Step>, ref: ThreadRef, n: Note)
    requires var b := Reach(steps); Counts(b, ref, n) && Generating(b) && Willing(b.sink) && Telling(n)
    ensures var b := Reach(steps);
      var c := Next(b, NoteStep(ref, n));
      if Contradicts(Transcribe(Handed(b)), n) then EndedBy(b, c, InvalidUpstreamEvent)
      else
        && c.session == b.session && c.history == b.history && c.ledger == b.ledger && c.wire == b.wire
        && c.operation.Some? && c.operation.value.oid == b.operation.value.oid && c.operation.value.settled.None?
  {
    RunTold(steps);
    var b := Reach(steps);
    GoodUnsettled(b);
    assert Clean(b.operation.value.seg) && Matches(b.operation.value.seg, Transcribe(Handed(b))) by {
      FollowsMatches(b.operation.value.seg, Handed(b));
    }
    hide Reach, Told, Clean, Matches, Transcribe, Next, Good, Willing, EndedBy;
    CountedDispatched(b, ref, n);
    TakenNote(b, n, Transcribe(Handed(b)));
  }

  lemma TakenNote(b: Bridge, n: Note, t: Transcript)
    requires Sane(b) && b.session.Some? && Generating(b) && Unsettled(b) && Willing(b.sink) && Telling(n)
    requires Clean(b.operation.value.seg) && Matches(b.operation.value.seg, t)
    ensures var c := Dispatch(b, n);
      if Contradicts(t, n) then EndedBy(b, c, InvalidUpstreamEvent)
      else
        && c.session == b.session && c.history == b.history && c.ledger == b.ledger && c.wire == b.wire
        && c.operation.Some? && c.operation.value.oid == b.operation.value.oid && c.operation.value.settled.None?
  {
    var d := Noted(Arrive(b, n), n);
    assert d == b.(delivery := d.delivery) && Dispatch(b, n) == Handle(ConsumeNote(d, n)) by { hide ConsumeNote, Fail, Ends; SubstanceEnds(b, n); }
    var q, fault := TakenEffect(d, n, t);
    hide *;
    TakenHandled(b, d, q, fault);
  }

  /** Only the end of a turn ends one. */
  lemma SubstanceEnds(b: Bridge, n: Note)
    requires b.session.Some? && !n.body.TurnCompleted?
    ensures Ends(b.session.value, n) == {} && forall w: Wire :: w.(ended := w.ended + {}) == w
  {
  }

  /** The note is applied to the segment alone. */
  lemma TakenEffect(b: Bridge, n: Note, t: Transcript) returns (q: Segment, fault: Option<Fault>)
    requires Sane(b) && b.session.Some? && Generating(b) && Willing(b.sink) && Telling(n)
    requires Clean(b.operation.value.seg) && Matches(b.operation.value.seg, t)
    ensures Indexed(q) && ConsumeNote(b, n) == Effect(WithSegment(b, q), fault)
    ensures fault == if Contradicts(t, n) then Some(InvalidUpstreamEvent) else None
  {
    var seg := b.operation.value.seg;
    hide TextDeltaStep, CompleteMessage, Complete, Clean, Matches, LateText, BadItem, Willing;
    if n.body.MessageDelta? {
      DeltaRefused(seg, t, n.body.itemId.value, n.body.delta.value, b.sink);
      q := TextDeltaStep(seg, n.body.itemId.value, n.body.delta.value, b.sink).seg;
    } else if n.body.message.Some? {
      ItemRefused(seg, t, n.body.message.value, b.sink);
      q := CompleteMessage(seg, n.body.message.value, b.sink).seg;
    } else {
      q := seg;
      assert WithSegment(b, q) == b;
    }
    fault := ConsumeNote(b, n).fault;
  }

  lemma TakenHandled(b: Bridge, d: Bridge, q: Segment, fault: Option<Fault>)
    requires Unsettled(b) && d == b.(delivery := d.delivery) && Indexed(q)
    ensures var c := Handle(Effect(WithSegment(d, q), fault));
      if fault.Some? then EndedBy(b, c, fault.value)
      else
        && c.session == b.session && c.history == b.history && c.ledger == b.ledger && c.wire == b.wire
        && c.operation.Some? && c.operation.value.oid == b.operation.value.oid && c.operation.value.settled.None?
  {
    if fault.Some? {
      FailEnds(WithSegment(d, q), fault.value);
    }
    hide Fail;
  }

  /**
    When the session's turn is reported as completed, and every call is answered, the operation of a client that
    takes everything is resolved, with a completed response that is the session's latest; the session then is at
    rest, and once the request has returned, a text that continues that response is accepted.
   */
  lemma TurnCompletes(steps: seq<Step>, ref: ThreadRef, n: Note, req: Request)
    requires var b := Reach(steps); Counts(b, ref, n) && Generating(b) && Willing(b.sink) && !b.closed
    requires n.body.TurnCompleted? && Closes(Reach(steps).session.value, n)
    ensures var b := Reach(steps);
      var oid := b.operation.value.oid;
      var c := Next(b, NoteStep(ref, n));
      && c.session == Some(b.session.value.(turnId := None, lastResponse := Some(oid))) && AtRest(c.session.value)
      && c.history.settled == b.history.settled + [(oid, Resolved)]
      && c.operation.Some? && c.operation.value.oid == oid && c.operation.value.settled == Some(Resolved)
      && EndsWithoutCall(c.operation.value.seg.offered)
      && (req.previous == Some(oid) && SameConfig(req, b.session.value.config) && req.input.UserText? ==>
            Refusal(Next(c, FinalizeStep), req, false).None?)
  {
    RunTold(steps);
    RunSourced(steps);
    var b := Reach(steps);
    GoodUnsettled(b);
    assert NoCalls(b.operation.value.seg.output);
    hide Reach, Told, Sourced, Said, Next, Good, Willing, EndsWithoutCall, NoCalls;
    CountedDispatched(b, ref, n);
    CompletedNote(b, n);
    AcceptedExactly(Next(Next(b, NoteStep(ref, n)), FinalizeStep), req, false);
    hide Refusal, Counts;
    FinalizedIdle(Next(b, NoteStep(ref, n)));
  }

  lemma FinalizedIdle(b: Bridge)
    requires Sane(b) && b.operation.Some? && b.operation.value.settled.Some?
    ensures var c := Next(b, FinalizeStep); c.session == b.session && !c.busy && c.closed == b.closed
  {
    hide Handed;
  }

  lemma CompletedNote(b: Bridge, n: Note)
    requires Sane(b) && b.session.Some? && Generating(b) && Unsettled(b) && Willing(b.sink) && NoCalls(b.operation.value.seg.output)
    requires n.body.TurnCompleted? && Closes(b.session.value, n)
    ensures var oid := b.operation.value.oid;
      var c := Dispatch(b, n);
      && c.session == Some(b.session.value.(turnId := None, lastResponse := Some(oid))) && c.closed == b.closed
      && c.history.settled == b.history.settled + [(oid, Resolved)]
      && c.operation.Some? && c.operation.value.oid == oid && c.operation.value.settled == Some(Resolved)
      && EndsWithoutCall(c.operation.value.seg.offered)
  {
    var e := CompletedAs(b, n);
    hide Complete, Dispatch, Closes, Willing, NoCalls, EndsWithoutCall, Handle;
    CompletesGladly(e);
    HandledQuietly(Complete(e));
  }

  lemma HandledQuietly(e: Effect)
    requires Sane(e.bridge) && e.fault.None?
    ensures Handle(e) == e.bridge
  {
  }

  /** The note is logged, and then the operation is completed over a session without a turn. */
  lemma CompletedAs(b: Bridge, n: Note) returns (e: Bridge)
    requires Sane(b) && b.session.Some? && Generating(b) && n.body.TurnCompleted? && Closes(b.session.value, n)
    ensures Sane(e) && e.session == Some(b.session.value.(turnId := None)) && Dispatch(b, n) == Handle(Complete(e))
    ensures e.operation == b.operation && e.history == b.history && e.sink == b.sink && e.closed == b.closed
  {
    hide Complete, ConsumeNote, Fail, Ends, Closes, Indexed;
    var d := Noted(Arrive(b, n), n);
    e := d.(session := Some(d.session.value.(turnId := None)));
    ClosingConsumes(d, n);
  }

  lemma ClosingConsumes(b: Bridge, n: Note)
    requires Sane(b) && b.session.Some? && Generating(b) && n.body.TurnCompleted? && Closes(b.session.value, n)
    ensures ConsumeNote(b, n) == Complete(b.(session := Some(b.session.value.(turnId := None))))
  {
    hide Complete, Indexed;
  }

  /** Nothing can go wrong when the client takes everything. */
  lemma CompletesGladly(b: Bridge)
    requires Sane(b) && b.session.Some? && Generating(b) && Unsettled(b) && Willing(b.sink) && NoCalls(b.operation.value.seg.output)
    ensures var oid := b.operation.value.oid;
      var c := Complete(b).bridge;
      && Complete(b).fault.None? && c.session == Some(b.session.value.(lastResponse := Some(oid))) && c.closed == b.closed
      && c.history.settled == b.history.settled + [(oid, Resolved)]
      && c.operation.Some? && c.operation.value.oid == oid && c.operation.value.settled == Some(Resolved)
      && EndsWithoutCall(c.operation.value.seg.offered)
  {
    hide Complete, Finish, ToolCall, Willing, NoCalls, EndsWithoutCall, CallsAtEnd, Surfaces, EndsInCall;
    CompleteShape(b);
    CallRefused(b.operation.value.seg, 0, "", "", b.sink);
    NoCallsAtEnd(b.operation.value.seg.output);
    if Finish(b.operation.value.seg, b.sink).fault.None? {
      FinishSurfaces(b.operation.value.seg, b.sink, {});
    }
  }

  lemma NoCallsAtEnd(output: seq<Item>)
    requires NoCalls(output)
    ensures CallsAtEnd(output, {})
  {
  }

  // ---------------------------------------------------------------------------
  // The app-server's side
  // ---------------------------------------------------------------------------

  /** A tool result that the app-server received is what a client gave for that call while it waited. */
  lemma ResultsAreGiven(steps: seq<Step>, i: nat)
    requires i < |Reach(steps).ledger.answers| && Reach(steps).ledger.answers[i].body.ToolResult?
    ensures var a := Reach(steps).ledger.answers[i]; GivenIn(steps, a.arrival, a.body.output)
  {
    RunSourced(steps);
    SaidTraced(steps);
    hide Reach, GivenIn, AskedIn, ToldIn, OpenedWith, Said;
    assert SentTold(Reach(steps), Said(steps));
    assert Reach(steps).ledger.answers[i] in Reach(steps).ledger.answers;
  }

  /**
    Every thread that was started was asked for with the model, instructions and tools of the request that
    opened its session.
   */
  lemma ThreadsAreOpened(steps: seq<Step>, i: nat)
    requires i < |Reach(steps).wire.sent| && Reach(steps).wire.sent[i].StartThread?
    ensures var m := Reach(steps).wire.sent[i]; OpenedWith(steps, m.sid, m.config)
  {
    RunSourced(steps);
    SaidTraced(steps);
    hide Reach, GivenIn, AskedIn, ToldIn, OpenedWith, Said;
    assert SentTold(Reach(steps), Said(steps));
    assert MessageTold(Reach(steps).wire.sent[i], Said(steps));
    assert (Reach(steps).wire.sent[i].sid, Reach(steps).wire.sent[i].config) in Said(steps).configs;
  }

  /**
    The text of every turn that was started is that of an accepted request of the same session, and its effort
    that of the request that opened the session.
   */
  lemma TurnsAreTold(steps: seq<Step>, i: nat) returns (config: Config)
    requires i < |Reach(steps).wire.sent| && Reach(steps).wire.sent[i].StartTurn?
    ensures var m := Reach(steps).wire.sent[i];
      ToldIn(steps, m.sid, m.text) && OpenedWith(steps, m.sid, config) && config.effort == m.effort
  {
    RunSourced(steps);
    SaidTraced(steps);
    hide Reach, GivenIn, AskedIn, ToldIn, OpenedWith, Said;
    assert SentTold(Reach(steps), Said(steps));
    var m := Reach(steps).wire.sent[i];
    assert MessageTold(m, Said(steps));
    assert (m.sid, m.text) in Said(steps).texts;
    config :| (m.sid, config) in Said(steps).configs && config.effort == m.effort;
    assert OpenedWith(steps, (m.sid, config).0, (m.sid, config).1);
  }

  // ---------------------------------------------------------------------------
  // Configuration
  // ---------------------------------------------------------------------------

  /** The live session has the configuration of the request that opened the latest conversation. */
  lemma ConfigIsOpening(steps: seq<Step>) returns (opening: Request)
    requires Reach(steps).session.Some?
    ensures OpenedIn(steps, opening) && ConfigOf(Reach(steps).session.value.config, opening)
  {
    RunSourced(steps);
    OpeningTraced(steps);
    hide Reach, Said, OpenedIn, NoneOpens, ConfigOf;
    opening := Said(steps).opening.value;
  }

  /**
    Whatever an accepted continuation gives for model, instructions, effort or tools is what the conversation
    was opened with.
   */
  lemma ContinuationKeepsConfig(steps: seq<Step>, req: Request, aborted: bool) returns (opening: Request)
    requires Refusal(Reach(steps), req, aborted).None? && req.previous.Some?
    ensures OpenedIn(steps, opening)
    ensures req.model.Some? ==> req.model == opening.model
    ensures req.instructions.Some? ==> req.instructions.value == (if opening.instructions.Some? then opening.instructions.value else "")
    ensures req.effort.Some? ==> req.effort == opening.effort
    ensures req.tools.Some? ==>
      req.tools.value.canonicalText == (if opening.tools.Some? then opening.tools.value.canonicalText else "[]")
  {
    AcceptedExactly(Reach(steps), req, aborted);
    hide Reach, OpenedIn, Refusal;
    opening := ConfigIsOpening(steps);
  }
}
