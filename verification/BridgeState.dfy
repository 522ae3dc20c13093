/**
  The session bridge as a state machine.

  One official turn is spread over several client requests: when the model calls a client tool, the
  response segment ends and the turn stays suspended until the client brings the result. The functions
  here say what each event does to the whole state; a `fault` in a result is an exception on its way to
  the nearest handler. Logs record what was received from and sent to the app-server.

  Random identifiers are fresh numbers: a response id is the number of its operation, a client call id
  the arrival number of its tool request. Upstream identifiers are opaque numbers, and an absent or
  falsy one is None.
 */
module BridgeState {
  import opened Wrappers
  import opened ResponseSegments

  type ThreadId = nat
  type TurnId = nat

  /** `params.threadId` of an upstream event: missing, an explicit null, or an identifier. */
  datatype ThreadRef = Absent | Null | Thread(id: ThreadId)

  // ---------------------------------------------------------------------------
  // Messages
  // ---------------------------------------------------------------------------

  /** Tool names by position, and the canonical text of the whole tool list. */
  datatype Tools = Tools(names: seq<string>, canonicalText: string)

  const NoTools := Tools([], "[]")

  datatype Input = UserText(text: string) | ToolOutput(callId: nat, output: string)

  /** A client request whose fields passed their own format checks. */
  datatype Request = Request(
    previous: Option<nat>,
    model: Option<string>,
    instructions: Option<string>,
    effort: Option<string>,
    tools: Option<Tools>,
    input: Input)

  datatype Rejection =
    | InvalidRequest
    | Unavailable
    | BridgeBusy
    | Disconnected
    | SessionBusy
    | InvalidPreviousResponse
    | SessionConfigChanged
    | InvalidCallId
    | ToolResultRequired

  datatype TurnInfo = TurnInfo(id: Option<TurnId>, completed: bool)

  datatype NoteBody =
    | TurnStarted(turn: Option<TurnInfo>)
    | TokenUsage
    | UpstreamError(willRetry: bool)
    | MessageDelta(itemId: Option<string>, delta: Option<string>)
    | ItemCompleted(message: Option<RawMessage>)
    | TurnCompleted(turn: Option<TurnInfo>)
    | OtherNote

  /** A notification: `turnId` when present, and whether its item is of a blocked type. */
  datatype Note = Note(turnId: Option<TurnId>, blocked: bool, body: NoteBody)

  /** A server request; `toolIndex` is the n of `bridge_fn_n`, None fields are missing or malformed. */
  datatype ServerRequest = ServerRequest(
    rpcId: nat,
    toolCall: bool,
    thread: ThreadRef,
    toolIndex: Option<nat>,
    namespaced: bool,
    turnId: Option<TurnId>,
    callId: Option<nat>,
    args: Option<string>)

  // ---------------------------------------------------------------------------
  // State
  // ---------------------------------------------------------------------------

  datatype Config = Config(model: string, instructions: string, effort: Option<string>, tools: Tools)

  /** A tool call on its way to the client; `arrival` numbers the server requests from zero. */
  datatype Call = Call(rpcId: nat, arrival: nat, name: string, args: string)

  datatype Session = Session(
    sid: nat,
    config: Config,
    threadId: Option<ThreadId>,
    turnId: Option<TurnId>,
    lastResponse: Option<nat>,
    pending: seq<Call>,
    waiting: Option<Call>,
    buffered: seq<Note>,
    seen: set<nat>)

  datatype Settlement = Resolved | Rejected(error: Fault)

  datatype Operation = Operation(oid: nat, sid: nat, seg: Segment, settled: Option<Settlement>)

  /** A suspended continuation of the bridge's own code, waiting for an RPC reply. */
  datatype Task =
    | AwaitStart(sid: nat, oid: nat, req: Request)
    | AwaitThread(sid: nat, oid: nat, req: Request)
    | AwaitTurn(sid: nat, oid: nat)
    | AwaitInterrupt(sid: nat, thread: ThreadId)

  /** An accepted request that waits for the release of the previous session. */
  datatype Starting = Starting(req: Request, sink: Sink)

  datatype Rpc = NotStarted | Open | Closed

  datatype AnswerBody = ToolResult(output: string) | Cancelled | Refused

  datatype Answer = Answer(arrival: nat, rpcId: nat, body: AnswerBody)

  /** Log of server requests: their rpc ids, what was answered, and what met a transport that was not open. */
  datatype Ledger = Ledger(received: seq<nat>, answers: seq<Answer>, lost: set<nat>)

  datatype Sent =
    | StartThread(sid: nat, config: Config)
    | StartTurn(sid: nat, thread: ThreadId, text: string, effort: Option<string>)
    | Interrupt(sid: nat, thread: ThreadId, turn: TurnId)
    | Unsubscribe(sid: nat, thread: ThreadId)

  /**
    Log of the work upstream. `threadOf` is the `threadId` field of every session object, dead ones
    included; `threads` are the ids returned by thread/start, `turns` the turn ids heard of in a reply, a
    note or a tool call, and `ended` the turns a completed turn was reported for, each by session; `dead`
    are released sessions.
   */
  datatype Wire = Wire(
    sent: seq<Sent>,
    threadOf: map<nat, ThreadId>,
    threads: set<(nat, ThreadId)>,
    turns: set<(nat, TurnId)>,
    ended: set<(nat, TurnId)>,
    dead: seq<Session>)

  /**
    Log of operations: how each was settled and which responses were continued; and of each finished
    request what was streamed and the notes its segment was handed.
   */
  datatype History = History(
    settled: seq<(nat, Settlement)>,
    continued: seq<nat>,
    streams: seq<seq<Offer>>,
    notes: seq<seq<Note>>)

  /**
    Log of the latest session's notes: those that passed the filters, those a running segment was handed,
    those taken from the buffer when no segment ran any more, and how many were handed out before the
    current segment began.
   */
  datatype Delivery = Delivery(arrived: seq<Note>, handed: seq<Note>, dropped: seq<Note>, mark: nat)

  datatype Bridge = Bridge(
    session: Option<Session>,
    operation: Option<Operation>,
    sink: Sink,
    starting: Option<Starting>,
    busy: bool,
    closed: bool,
    timer: bool,
    rpc: Rpc,
    tasks: map<nat, Task>,
    nextTask: nat,
    nextSession: nat,
    nextOperation: nat,
    ledger: Ledger,
    wire: Wire,
    history: History,
    delivery: Delivery)

  const Initial := Bridge(
    None, None, (n: nat) => true, None, false, false, false, NotStarted, map[], 0, 0, 0,
    Ledger([], [], {}), Wire([], map[], {}, {}, {}, []), History([], [], [], []), Delivery([], [], [], 0))

  /** The state after a step, and the exception the step ended with. */
  datatype Effect = Effect(bridge: Bridge, fault: Option<Fault>)

  // ---------------------------------------------------------------------------
  // Parts of a step
  // ---------------------------------------------------------------------------

  predicate Live(b: Bridge, sid: nat) { b.session.Some? && b.session.value.sid == sid }

  predicate Generating(b: Bridge) { b.operation.Some? && !b.operation.value.seg.finished }

  predicate Unsettled(b: Bridge) { b.operation.Some? && b.operation.value.settled.None? }

  /** Segments address their messages inside their output; see Indexed. */
  predicate Sane(b: Bridge) { b.operation.Some? ==> Indexed(b.operation.value.seg) }

  function Outstanding(s: Session): seq<Call> {
    (if s.waiting.Some? then [s.waiting.value] else []) + s.pending
  }

  function Cancellations(calls: seq<Call>): (r: seq<Answer>)
    ensures |r| == |calls|
    ensures forall i :: 0 <= i < |r| ==> r[i] == Answer(calls[i].arrival, calls[i].rpcId, Cancelled)
  {
    if calls == [] then [] else [Answer(calls[0].arrival, calls[0].rpcId, Cancelled)] + Cancellations(calls[1..])
  }

  function Arrivals(calls: seq<Call>): set<nat> { set c | c in calls :: c.arrival }

  function Send(b: Bridge, m: Sent): Bridge { b.(wire := b.wire.(sent := b.wire.sent + [m])) }

  function AddTask(b: Bridge, t: Task): Bridge {
    b.(tasks := b.tasks[b.nextTask := t], nextTask := b.nextTask + 1)
  }

  function WithSegment(b: Bridge, seg: Segment): Bridge
    requires b.operation.Some?
  {
    b.(operation := Some(b.operation.value.(seg := seg)))
  }

  /** Answers every outstanding call of a session that goes away; a closed transport takes no answers. */
  function CancelAll(l: Ledger, rpc: Rpc, calls: seq<Call>): Ledger {
    if rpc == Open then l.(answers := l.answers + Cancellations(calls)) else l.(lost := l.lost + Arrivals(calls))
  }

  /** Cancelling the first call, then the rest. */
  lemma CancelFirst(l: Ledger, rpc: Rpc, out: seq<Call>)
    requires out != []
    ensures CancelAll(l, rpc, out) ==
      if rpc == Open then CancelAll(l.(answers := l.answers + [Answer(out[0].arrival, out[0].rpcId, Cancelled)]), rpc, out[1..])
      else CancelAll(l.(lost := l.lost + {out[0].arrival}), rpc, out[1..])
  {
    if rpc == Open {
      assert l.answers + Cancellations(out) ==
             l.answers + [Answer(out[0].arrival, out[0].rpcId, Cancelled)] + Cancellations(out[1..]);
    } else {
      assert out == [out[0]] + out[1..];
      assert l.lost + Arrivals(out) == l.lost + {out[0].arrival} + Arrivals(out[1..]);
    }
  }

  /** The step only touched the running segment, its outcome, and the session's turn and calls in hand. */
  ghost predicate Within(b: Bridge, c: Bridge) {
    && c.(session := b.session, operation := b.operation, history := b.history) == b
    && c.history.(settled := b.history.settled) == b.history
    && (b.session.None? <==> c.session.None?)
    && (b.operation.None? <==> c.operation.None?)
    && (b.session.Some? ==>
          var s := b.session.value;
          var q := c.session.value;
          q.sid == s.sid && q.config == s.config && q.threadId == s.threadId && q.buffered == s.buffered
          && Outstanding(q) == Outstanding(s) && (q.turnId == s.turnId || q.turnId.None?))
    && (b.operation.Some? ==>
          c.operation.value.oid == b.operation.value.oid && c.operation.value.sid == b.operation.value.sid)
  }

  /** The same for steps that hand out notes, and log that. */
  ghost predicate Through(b: Bridge, c: Bridge) {
    && Within(b, c.(wire := b.wire, delivery := b.delivery))
    && c.wire.(ended := b.wire.ended) == b.wire && b.wire.ended <= c.wire.ended
    && c.delivery.(handed := b.delivery.handed, dropped := b.delivery.dropped) == b.delivery
    && |b.delivery.handed| <= |c.delivery.handed|
  }

  /** The session is gone and its calls are off the books. */
  ghost predicate Released(b: Bridge, c: Bridge) {
    && c.session.None? && !c.timer
    && c.ledger == (if b.session.None? then b.ledger else CancelAll(b.ledger, b.rpc, Outstanding(b.session.value)))
    && c.rpc == b.rpc && c.starting == b.starting && c.busy == b.busy && c.closed == b.closed && c.sink == b.sink
    && c.nextSession == b.nextSession && c.nextOperation == b.nextOperation && c.delivery == b.delivery
    && c.history.(settled := b.history.settled) == b.history
    && c.wire.dead == (if b.session.None? then b.wire.dead else b.wire.dead + [b.session.value])
    && b.nextTask <= c.nextTask
    && (forall k :: k in c.tasks ==>
          || (k in b.tasks && c.tasks[k] == b.tasks[k])
          || (k == b.nextTask < c.nextTask && b.session.Some? && c.tasks[k].AwaitInterrupt? && c.tasks[k].sid == b.session.value.sid))
  }

  /** A session that was taken off the bridge has its calls cancelled. */
  function Buried(b: Bridge, s: Session): Bridge {
    b.(ledger := CancelAll(b.ledger, b.rpc, Outstanding(s)), wire := b.wire.(dead := b.wire.dead + [s]))
  }

  /** What becomes of its thread and turn upstream. */
  function Retirement(b: Bridge, s: Session): Bridge {
    var gone := Buried(b, s);
    if s.threadId.None? then gone
    else if s.turnId.None? then Send(gone, Unsubscribe(s.sid, s.threadId.value))
    else AddTask(Send(gone, Interrupt(s.sid, s.threadId.value, s.turnId.value)), AwaitInterrupt(s.sid, s.threadId.value))
  }

  /** `releaseSession` up to its first await, and the continuation it leaves. */
  function Release(b: Bridge): (r: Bridge)
    ensures Released(b, r) && r.operation == b.operation && r.history == b.history
  {
    hide CancelAll, Outstanding;
    if b.session.None? then b.(timer := false)
    else Retirement(b.(session := None, timer := false), b.session.value)
  }

  /** Settles the operation, once. */
  function Settle(b: Bridge, outcome: Settlement): Bridge
    requires b.operation.Some?
  {
    b.(operation := Some(b.operation.value.(settled := Some(outcome))),
       history := b.history.(settled := b.history.settled + [(b.operation.value.oid, outcome)]))
  }

  /** Ends the stream of the unsettled operation and rejects it. */
  function Reject(b: Bridge, error: Fault): (r: Bridge)
    requires Unsettled(b)
    ensures Sane(b) ==> Sane(r)
    ensures r.(operation := b.operation, history := b.history) == b
    ensures r.operation.Some? && r.operation.value.oid == b.operation.value.oid && r.operation.value.sid == b.operation.value.sid
    ensures r.operation.value.settled == Some(Rejected(error)) && r.operation.value.seg.finished
    ensures r.history == b.history.(settled := b.history.settled + [(b.operation.value.oid, Rejected(error))])
  {
    hide Abandon;
    Settle(WithSegment(b, Abandon(b.operation.value.seg, error, b.sink).seg), Rejected(error))
  }

  /** `fail`: rejects an unsettled operation and releases the session in any case. */
  function Fail(b: Bridge, error: Fault): (r: Bridge)
    ensures Sane(b) ==> Sane(r)
    ensures Released(b, r)
    ensures Unsettled(b) ==> r.operation == Reject(b, error).operation && r.history == Reject(b, error).history
    ensures !Unsettled(b) ==> r.operation == b.operation && r.history == b.history
  {
    hide Release, Reject, CancelAll, Outstanding;
    Release(if Unsettled(b) then Reject(b, error) else b)
  }

  /** `complete`: ends the segment and resolves the operation. */
  function Complete(b: Bridge): (r: Effect)
    requires Sane(b) && b.session.Some?
    ensures Sane(r.bridge) && Within(b, r.bridge)
    ensures r.bridge.session.value.turnId == b.session.value.turnId
  {
    hide Finish;
    if !Unsettled(b) then Effect(b, None)
    else
      var r := Finish(b.operation.value.seg, b.sink);
      var c := WithSegment(b, r.seg);
      if r.fault.Some? then Effect(c, r.fault)
      else Effect(Settle(c.(session := Some(b.session.value.(lastResponse := Some(b.operation.value.oid)))), Resolved), None)
  }

  /** `flushTool`: surfaces the oldest queued call, if the segment can still take it. */
  function FlushTool(b: Bridge): (r: Effect)
    requires Sane(b)
    ensures Sane(r.bridge) && Within(b, r.bridge)
    ensures b.session.Some? ==> r.bridge.session.value.turnId == b.session.value.turnId
  {
    hide ToolCall, Complete;
    if b.session.None? || !Generating(b) || b.session.value.waiting.Some? || b.session.value.pending == [] then Effect(b, None)
    else
      var s := b.session.value;
      var call := s.pending[0];
      var r := ToolCall(b.operation.value.seg, call.arrival, call.name, call.args, b.sink);
      var c := WithSegment(b.(session := Some(s.(waiting := Some(call), pending := s.pending[1..]))), r.seg);
      if r.fault.Some? then Effect(c, r.fault) else Complete(c)
  }

  /** `consumeNotification`: applies one note to the running segment. */
  function ConsumeNote(b: Bridge, n: Note): (r: Effect)
    requires Sane(b)
    ensures Sane(r.bridge) && Within(b, r.bridge)
    ensures r.fault.Some? ==> b.session.Some? && Generating(b)
  {
    hide TextDeltaStep, CompleteMessage, Complete;
    if b.session.None? || !Generating(b) then Effect(b, None)
    else
      var s := b.session.value;
      match n.body
      case MessageDelta(itemId, delta) =>
        if itemId.None? || delta.None? then Effect(b, Some(InvalidUpstreamEvent))
        else
          var r := TextDeltaStep(b.operation.value.seg, itemId.value, delta.value, b.sink);
          Effect(WithSegment(b, r.seg), r.fault)
      case ItemCompleted(message) =>
        if message.None? then Effect(b, None)
        else
          var r := CompleteMessage(b.operation.value.seg, message.value, b.sink);
          Effect(WithSegment(b, r.seg), r.fault)
      case TurnCompleted(turn) =>
        if turn.None? then Effect(b, Some(InvalidUpstreamEvent))
        else if s.turnId.Some? && turn.value.id != s.turnId then Effect(b, None)
        else if !turn.value.completed then Effect(b, Some(UpstreamTurnFailed))
        else if Outstanding(s) != [] then Effect(b, Some(InvalidUpstreamEvent))
        else Complete(b.(session := Some(s.(turnId := None))))
      case _ => Effect(b, None)
  }

  /** The note reports the session's turn as completed, with no call left unanswered. */
  predicate Closes(s: Session, n: Note) {
    && n.body.TurnCompleted? && n.body.turn.Some? && n.body.turn.value.completed
    && (s.turnId.Some? ==> n.body.turn.value.id == s.turnId)
    && Outstanding(s) == []
  }

  /** What a completed turn ends. */
  function Ends(s: Session, n: Note): set<(nat, TurnId)> {
    if Closes(s, n) && n.body.turn.value.id.Some? then {(s.sid, n.body.turn.value.id.value)} else {}
  }

  /** Logs a note as handed to the running segment, or as dropped when there is none. */
  function Noted(b: Bridge, n: Note): Bridge {
    if b.session.None? || !Generating(b) then b.(delivery := b.delivery.(dropped := b.delivery.dropped + [n]))
    else b.(delivery := b.delivery.(handed := b.delivery.handed + [n]),
            wire := b.wire.(ended := b.wire.ended + Ends(b.session.value, n)))
  }

  /** Logs a note and applies it. */
  function HandOver(b: Bridge, n: Note): (r: Effect)
    requires Sane(b)
    ensures Sane(r.bridge) && Through(b, r.bridge)
    ensures r.fault.Some? ==> b.session.Some? && Generating(b)
  {
    hide ConsumeNote, Ends;
    ConsumeNote(Noted(b, n), n)
  }

  /** Applies notes in order, stopping at the first exception. */
  function ConsumeAll(b: Bridge, notes: seq<Note>): (r: Effect)
    requires Sane(b)
    ensures Sane(r.bridge) && Through(b, r.bridge)
    decreases |notes|
  {
    hide HandOver, Outstanding;
    if notes == [] then Effect(b, None)
    else
      var r := HandOver(b, notes[0]);
      if r.fault.Some? then r else ConsumeAll(r.bridge, notes[1..])
  }

  /** The handler around a driven request: only the operation it belongs to can fail by it. */
  function DriveFault(b: Bridge, oid: nat, fault: Option<Fault>): (r: Bridge)
    requires Sane(b)
    ensures Sane(r)
  {
    if fault.Some? && Unsettled(b) && b.operation.value.oid == oid then Fail(b, fault.value) else b
  }

  function LoseWaiting(b: Bridge): Bridge
    requires b.session.Some? && b.session.value.waiting.Some?
  {
    b.(session := Some(b.session.value.(waiting := None)),
       ledger := b.ledger.(lost := b.ledger.lost + {b.session.value.waiting.value.arrival}))
  }

  /** The waiting call is answered and the buffer is taken, to be applied to the new segment. */
  function AnswerWaiting(b: Bridge, output: string): Bridge
    requires b.session.Some? && b.session.value.waiting.Some?
  {
    var s := b.session.value;
    b.(ledger := b.ledger.(answers := b.ledger.answers +
                           [Answer(s.waiting.value.arrival, s.waiting.value.rpcId, ToolResult(output))]),
       session := Some(s.(waiting := None, buffered := [])))
  }

  /** A tool output: answers the waiting call, drains what was buffered, surfaces the next call. */
  function Resume(b: Bridge, output: string): (r: Effect)
    requires Sane(b) && b.session.Some?
    ensures Sane(r.bridge)
  {
    var s := b.session.value;
    if s.waiting.None? then Effect(b, Some(RpcError))
    else
      if b.rpc != Open then Effect(LoseWaiting(b), Some(RpcError))
      else
        var r := ConsumeAll(AnswerWaiting(b, output), s.buffered);
        if r.fault.Some? then r else FlushTool(r.bridge)
  }

  /** `drive` once the session has a thread. */
  function WithThread(b: Bridge, oid: nat, req: Request): (r: Bridge)
    requires Sane(b) && b.session.Some? && b.session.value.threadId.Some?
    ensures Sane(r)
  {
    var s := b.session.value;
    match req.input
    case ToolOutput(_, output) => var r := Resume(b, output); DriveFault(r.bridge, oid, r.fault)
    case UserText(text) =>
      AddTask(Send(b, StartTurn(s.sid, s.threadId.value, text, s.config.effort)), AwaitTurn(s.sid, oid))
  }

  /** `drive` once the RPC transport is up. */
  function AfterStart(b: Bridge, sid: nat, oid: nat, req: Request): (r: Bridge)
    requires Sane(b)
    ensures Sane(r)
  {
    if !Live(b, sid) then b
    else if b.session.value.threadId.None? then AddTask(Send(b, StartThread(sid, b.session.value.config)), AwaitThread(sid, oid, req))
    else WithThread(b, oid, req)
  }

  // ---------------------------------------------------------------------------
  // Client requests
  // ---------------------------------------------------------------------------

  predicate ValidRequest(req: Request) {
    req.previous.None? ==> req.model.Some? && req.input.UserText?
  }

  predicate ChangesConfig(req: Request, c: Config) {
    || (req.model.Some? && req.model.value != c.model)
    || (req.instructions.Some? && req.instructions.value != c.instructions)
    || (req.effort.Some? && req.effort != c.effort)
    || (req.tools.Some? && req.tools.value.canonicalText != c.tools.canonicalText)
  }

  predicate Engaged(s: Session) { s.turnId.Some? || Outstanding(s) != [] }

  /** `checkContinuation`; the session's `lastError` is never set, so its branch is not here. */
  function CheckContinuation(b: Bridge, req: Request): Option<Rejection> {
    match req.previous
    case None =>
      if b.session.Some? && Engaged(b.session.value) then Some(SessionBusy) else None
    case Some(id) =>
      if b.session.None? || b.session.value.lastResponse != Some(id) then Some(InvalidPreviousResponse)
      else
        var s := b.session.value;
        if ChangesConfig(req, s.config) then Some(SessionConfigChanged)
        else match req.input
          case ToolOutput(callId, _) =>
            if s.waiting.None? || s.waiting.value.arrival != callId then Some(InvalidCallId) else None
          case UserText(_) => if Engaged(s) then Some(ToolResultRequired) else None
  }

  function Refusal(b: Bridge, req: Request, aborted: bool): Option<Rejection> {
    if !ValidRequest(req) then Some(InvalidRequest)
    else if b.closed then Some(Unavailable)
    else if b.busy then Some(BridgeBusy)
    else if aborted then Some(Disconnected)
    else CheckContinuation(b, req)
  }

  function NewSession(b: Bridge, req: Request): Session
    requires req.model.Some?
  {
    Session(b.nextSession,
            Config(req.model.value, if req.instructions.Some? then req.instructions.value else "", req.effort,
                   if req.tools.Some? then req.tools.value else NoTools),
            None, None, None, [], None, [], {})
  }

  function Entering(b: Bridge, sink: Sink, seg: Segment): Bridge
    requires b.session.Some?
  {
    b.(operation := Some(Operation(b.nextOperation, b.session.value.sid, seg, None)), sink := sink,
       nextOperation := b.nextOperation + 1, delivery := b.delivery.(mark := |b.delivery.handed|))
  }

  /** Creates the operation and its segment, and opens the event stream. */
  function Enter(b: Bridge, sink: Sink): (r: Bridge)
    requires b.session.Some?
    ensures Sane(r)
  {
    var start := Start(Fresh, sink);
    var entered := Entering(b, sink, start.seg);
    if start.fault.Some? then Fail(entered, start.fault.value) else entered
  }

  /** `drive` up to its first await; the transport of a session with a thread is up already. */
  function Launch(b: Bridge, oid: nat, req: Request): (r: Bridge)
    requires Sane(b) && b.session.Some?
    ensures Sane(r)
  {
    var s := b.session.value;
    if s.threadId.None? then AddTask(b, AwaitStart(s.sid, oid, req))
    else if b.rpc != Open then DriveFault(b, oid, Some(RpcError))
    else AfterStart(b, s.sid, oid, req)
  }

  /** From the creation of the operation to the point where the request is driven. */
  function Begin(b: Bridge, req: Request, sink: Sink, aborted: bool): (r: Bridge)
    requires b.session.Some?
    ensures Sane(r)
  {
    var entered := Enter(b, sink);
    if aborted then Fail(entered, ClientDisconnected)
    else if Unsettled(entered) && entered.session.Some? then Launch(entered, b.nextOperation, req)
    else entered
  }

  function Continue(b: Bridge, id: nat): Bridge {
    b.(busy := true, timer := false, history := b.history.(continued := b.history.continued + [id]))
  }

  /** A request arrives: refused with no effect, queued behind a release, or begun at once. */
  function Respond(b: Bridge, req: Request, sink: Sink, aborted: bool): (r: (Bridge, Option<Rejection>))
    requires Sane(b)
    ensures Sane(r.0)
  {
    var refusal := Refusal(b, req, aborted);
    if refusal.Some? then (b, refusal)
    else if req.previous.None? then
      (Release(b.(busy := true, timer := false, starting := Some(Starting(req, sink)))), None)
    else (Begin(Continue(b, req.previous.value), req, sink, false), None)
  }

  function Create(b: Bridge, req: Request): Bridge
    requires req.model.Some?
  {
    b.(session := Some(NewSession(b, req)), nextSession := b.nextSession + 1, starting := None,
       delivery := Delivery([], [], [], 0))
  }

  /** The release is over: the queued request creates its session. */
  function Proceed(b: Bridge, aborted: bool): (r: Bridge)
    requires Sane(b)
    ensures Sane(r)
  {
    if b.starting.None? || b.starting.value.req.model.None? then b
    else
      var req := b.starting.value.req;
      Begin(Create(b, req), req, b.starting.value.sink, aborted)
  }

  /** The `finally` of a settled request. */
  function Finalize(b: Bridge): (r: Bridge)
    ensures Sane(b) ==> Sane(r)
  {
    if b.operation.None? || Unsettled(b) then b
    else b.(busy := false, operation := None, timer := b.timer || b.session.Some?,
            history := b.history.(streams := b.history.streams + [b.operation.value.seg.offered],
                                  notes := b.history.notes + [Handed(b)]))
  }

  /** The notes handed to the current segment. */
  function Handed(b: Bridge): seq<Note> {
    if b.delivery.mark <= |b.delivery.handed| then b.delivery.handed[b.delivery.mark..] else []
  }

  // ---------------------------------------------------------------------------
  // Upstream
  // ---------------------------------------------------------------------------

  predicate Addressed(ref: ThreadRef, s: Session) {
    match ref
    case Absent => false
    case Null => s.threadId.None?
    case Thread(id) => s.threadId == Some(id)
  }

  function RemoveTask(b: Bridge, k: nat): (r: Bridge)
    ensures Sane(b) ==> Sane(r)
  {
    b.(tasks := b.tasks - {k})
  }

  function OnStarted(b: Bridge, k: nat, ok: bool): (r: Bridge)
    requires Sane(b)
    ensures Sane(r)
  {
    if k !in b.tasks || !b.tasks[k].AwaitStart? then b
    else
      var t := b.tasks[k];
      var c := RemoveTask(b, k);
      if ok && b.rpc != Closed then AfterStart(c.(rpc := Open), t.sid, t.oid, t.req)
      else DriveFault(c, t.oid, Some(RpcError))
  }

  function Return(b: Bridge, sid: nat, id: ThreadId): Bridge {
    b.(wire := b.wire.(threads := b.wire.threads + {(sid, id)}))
  }

  function Attach(b: Bridge, id: ThreadId): Bridge
    requires b.session.Some?
  {
    b.(session := Some(b.session.value.(threadId := Some(id))),
       wire := b.wire.(threadOf := b.wire.threadOf[b.session.value.sid := id]))
  }

  /** The reply to thread/start: `id` is None when the reply carries none. */
  function OnThread(b: Bridge, k: nat, ok: bool, id: Option<ThreadId>, model: Option<string>): (r: Bridge)
    requires Sane(b)
    ensures Sane(r)
  {
    if k !in b.tasks || !b.tasks[k].AwaitThread? then b
    else
      var t := b.tasks[k];
      var c := RemoveTask(b, k);
      if !ok then DriveFault(c, t.oid, Some(RpcError))
      else if id.None? then (if Live(b, t.sid) then DriveFault(c, t.oid, Some(InvalidUpstreamEvent)) else c)
      else
        var known := Return(c, t.sid, id.value);
        if !Live(b, t.sid) then Send(known, Unsubscribe(t.sid, id.value))
        else
          var attached := Attach(known, id.value);
          if model.Some? && model.value != b.session.value.config.model then DriveFault(attached, t.oid, Some(ModelMismatch))
          else WithThread(attached, t.oid, t.req)
  }

  function Hear(b: Bridge, sid: nat, turn: TurnId): Bridge {
    b.(wire := b.wire.(turns := b.wire.turns + {(sid, turn)}))
  }

  /** A turn acknowledged after its session died is interrupted on the spot. */
  function RetireLate(b: Bridge, sid: nat, thread: ThreadId, turn: TurnId): Bridge {
    Send(Hear(b, sid, turn), Interrupt(sid, thread, turn))
  }

  function LearnTurn(b: Bridge, turn: TurnId): Bridge
    requires b.session.Some?
  {
    var s := b.session.value;
    Hear(b.(session := Some(s.(turnId := if s.turnId.Some? then s.turnId else Some(turn)))), s.sid, turn)
  }

  /** The reply to turn/start; one that comes after the session died retires the late turn. */
  function OnTurn(b: Bridge, k: nat, ok: bool, id: Option<TurnId>): (r: Bridge)
    requires Sane(b)
    ensures Sane(r)
  {
    if k !in b.tasks || !b.tasks[k].AwaitTurn? then b
    else
      var t := b.tasks[k];
      var c := RemoveTask(b, k);
      if !ok then DriveFault(c, t.oid, Some(RpcError))
      else if !Live(b, t.sid) then
        if id.None? || t.sid !in b.wire.threadOf then c
        else RetireLate(c, t.sid, b.wire.threadOf[t.sid], id.value)
      else if Generating(b) && b.operation.value.oid == t.oid then
        if id.None? then DriveFault(c, t.oid, Some(InvalidUpstreamEvent)) else LearnTurn(c, id.value)
      else if id.None? then c
      else Hear(c, t.sid, id.value)
  }

  /** The interrupt of a released session has settled, one way or the other. */
  function OnInterrupted(b: Bridge, k: nat): (r: Bridge)
    ensures Sane(b) ==> Sane(r)
  {
    if k !in b.tasks || !b.tasks[k].AwaitInterrupt? then b
    else Send(RemoveTask(b, k), Unsubscribe(b.tasks[k].sid, b.tasks[k].thread))
  }

  function Refuse(b: Bridge, arrival: nat, rpcId: nat): Bridge {
    if b.rpc == Open
    then b.(ledger := b.ledger.(answers := b.ledger.answers + [Answer(arrival, rpcId, Refused)]))
    else b.(ledger := b.ledger.(lost := b.ledger.lost + {arrival}))
  }

  predicate Acceptable(s: Session, r: ServerRequest) {
    && r.toolIndex.Some? && r.toolIndex.value < |s.config.tools.names|
    && !r.namespaced && r.turnId.Some? && r.callId.Some? && r.args.Some?
    && r.callId.value !in s.seen
    && (s.turnId.Some? ==> s.turnId == r.turnId)
  }

  function Count(b: Bridge, rpcId: nat): Bridge {
    b.(ledger := b.ledger.(received := b.ledger.received + [rpcId]))
  }

  function Queue(b: Bridge, r: ServerRequest): (q: Bridge)
    requires b.session.Some? && Acceptable(b.session.value, r)
    ensures Sane(b) ==> Sane(q)
  {
    var s := b.session.value;
    var call := Call(r.rpcId, |b.ledger.received|, s.config.tools.names[r.toolIndex.value], r.args.value);
    Hear(Count(b, r.rpcId).(session := Some(s.(turnId := r.turnId, seen := s.seen + {r.callId.value},
                                               pending := s.pending + [call]))), s.sid, r.turnId.value)
  }

  /** Ends a handler of upstream events: an exception fails the bridge's work. */
  function Handle(e: Effect): (r: Bridge)
    requires Sane(e.bridge)
    ensures Sane(r)
  {
    if e.fault.Some? then Fail(e.bridge, e.fault.value) else e.bridge
  }

  /** A server request: refused, or queued as a client tool call. */
  function OnServerRequest(b: Bridge, r: ServerRequest): (q: Bridge)
    requires Sane(b)
    ensures Sane(q)
  {
    var refused := Refuse(Count(b, r.rpcId), |b.ledger.received|, r.rpcId);
    if !r.toolCall || b.session.None? || !Addressed(r.thread, b.session.value) then
      if b.rpc != Open then Fail(refused, InvalidUpstreamEvent)
      else if b.session.Some? && Addressed(r.thread, b.session.value) then Fail(refused, UnsupportedServerAction)
      else refused
    else if !Acceptable(b.session.value, r) then
      Fail(refused, if b.rpc == Open then InvalidToolCall else InvalidUpstreamEvent)
    else Handle(FlushTool(Queue(b, r)))
  }

  const BUFFER_LIMIT := 4096

  function StartTurnNote(b: Bridge, turn: Option<TurnId>): Bridge
    requires b.session.Some?
  {
    var c := b.(session := Some(b.session.value.(turnId := turn)));
    if turn.Some? then Hear(c, b.session.value.sid, turn.value) else c
  }

  function Buffer(b: Bridge, n: Note): Bridge
    requires b.session.Some?
  {
    b.(session := Some(b.session.value.(buffered := b.session.value.buffered + [n])),
       delivery := b.delivery.(arrived := b.delivery.arrived + [n]))
  }

  function Arrive(b: Bridge, n: Note): Bridge {
    b.(delivery := b.delivery.(arrived := b.delivery.arrived + [n]))
  }

  /** A note that reached the filters' end: applied to the running segment or kept for the next. */
  function Dispatch(b: Bridge, n: Note): (r: Bridge)
    requires Sane(b) && b.session.Some?
    ensures Sane(r)
  {
    if Generating(b) then Handle(HandOver(Arrive(b, n), n))
    else if |b.session.value.buffered| + 1 > BUFFER_LIMIT then Fail(Buffer(b, n), UpstreamBufferLimit)
    else Buffer(b, n)
  }

  /** A notification, filtered by thread, kind and turn. */
  function OnNote(b: Bridge, ref: ThreadRef, n: Note): (r: Bridge)
    requires Sane(b)
    ensures Sane(r)
  {
    if b.session.None? || !Addressed(ref, b.session.value) then b
    else
      var s := b.session.value;
      match n.body
      case TurnStarted(turn) =>
        if turn.None? then Fail(b, InvalidUpstreamEvent) else StartTurnNote(b, turn.value.id)
      case TokenUsage => b
      case UpstreamError(willRetry) => if willRetry then b else Fail(b, UpstreamTurnFailed)
      case _ =>
        if n.turnId.Some? && s.turnId.Some? && n.turnId != s.turnId then b
        else if n.blocked then Fail(b, UnsupportedServerAction)
        else if n.body.OtherNote? then b
        else Dispatch(b, n)
  }

  /** The ways a thread/start reply can go. */
  lemma ThreadCases(b: Bridge, k: nat, ok: bool, id: Option<ThreadId>, model: Option<string>)
    requires Sane(b) && k in b.tasks && b.tasks[k].AwaitThread?
    ensures var r := OnThread(b, k, ok, id, model);
      var t := b.tasks[k];
      var c := RemoveTask(b, k);
      || r == c || r == DriveFault(c, t.oid, Some(RpcError)) || r == DriveFault(c, t.oid, Some(InvalidUpstreamEvent))
      || (id.Some? && !Live(b, t.sid) && r == Send(Return(c, t.sid, id.value), Unsubscribe(t.sid, id.value)))
      || (id.Some? && Live(b, t.sid) &&
          (r == DriveFault(Attach(Return(c, t.sid, id.value), id.value), t.oid, Some(ModelMismatch)) ||
           r == WithThread(Attach(Return(c, t.sid, id.value), id.value), t.oid, t.req)))
  {
  }

  /** The ways a turn/start reply can go. */
  lemma TurnCases(b: Bridge, k: nat, ok: bool, id: Option<TurnId>)
    requires Sane(b) && k in b.tasks && b.tasks[k].AwaitTurn?
    ensures var r := OnTurn(b, k, ok, id);
      var t := b.tasks[k];
      var c := RemoveTask(b, k);
      || r == c || r == DriveFault(c, t.oid, Some(RpcError)) || r == DriveFault(c, t.oid, Some(InvalidUpstreamEvent))
      || (id.Some? && !Live(b, t.sid) && t.sid in b.wire.threadOf &&
          r == RetireLate(c, t.sid, b.wire.threadOf[t.sid], id.value))
      || (id.Some? && Live(b, t.sid) && Generating(b) && b.operation.value.oid == t.oid && r == LearnTurn(c, id.value))
      || (id.Some? && Live(b, t.sid) && !(Generating(b) && b.operation.value.oid == t.oid) && r == Hear(c, t.sid, id.value))
  {
  }

  /** The ways a notification can go. */
  lemma NoteCases(b: Bridge, ref: ThreadRef, n: Note)
    requires Sane(b)
    ensures var r := OnNote(b, ref, n);
      || r == b
      || r == Fail(b, InvalidUpstreamEvent) || r == Fail(b, UpstreamTurnFailed) || r == Fail(b, UnsupportedServerAction)
      || (b.session.Some? && Addressed(ref, b.session.value) &&
          ((n.body.TurnStarted? && n.body.turn.Some? && r == StartTurnNote(b, n.body.turn.value.id)) ||
           (!n.body.TurnStarted? && r == Dispatch(b, n))))
  {
  }

  /** The ways a server request can go. */
  lemma ServerRequestCases(b: Bridge, r: ServerRequest)
    requires Sane(b)
    ensures var q := OnServerRequest(b, r);
      var refused := Refuse(Count(b, r.rpcId), |b.ledger.received|, r.rpcId);
      || q == refused
      || q == Fail(refused, InvalidUpstreamEvent) || q == Fail(refused, UnsupportedServerAction)
      || q == Fail(refused, InvalidToolCall)
      || (b.session.Some? && Addressed(r.thread, b.session.value) && Acceptable(b.session.value, r) &&
          q == Handle(FlushTool(Queue(b, r))))
  {
  }

  // ---------------------------------------------------------------------------
  // Runs
  // ---------------------------------------------------------------------------

  datatype Step =
    | RequestStep(req: Request, sink: Sink, aborted: bool)
    | ProceedStep(aborted: bool)
    | StartedStep(task: nat, ok: bool)
    | ThreadStep(task: nat, ok: bool, id: Option<ThreadId>, model: Option<string>)
    | TurnStep(task: nat, ok: bool, turn: Option<TurnId>)
    | InterruptedStep(task: nat)
    | NoteStep(thread: ThreadRef, note: Note)
    | ServerStep(request: ServerRequest)
    | AbortStep
    | TimeoutStep
    | ExpireStep
    | FinalizeStep
    | ExitStep
    | CloseStep

  /** One step of the program; a step that is not enabled changes nothing. */
  function Next(b: Bridge, step: Step): (r: Bridge)
    requires Sane(b)
    ensures Sane(r)
  {
    match step
    case RequestStep(req, sink, aborted) => Respond(b, req, sink, aborted).0
    case ProceedStep(aborted) => Proceed(b, aborted)
    case StartedStep(k, ok) => OnStarted(b, k, ok)
    case ThreadStep(k, ok, id, model) => OnThread(b, k, ok, id, model)
    case TurnStep(k, ok, turn) => OnTurn(b, k, ok, turn)
    case InterruptedStep(k) => OnInterrupted(b, k)
    case NoteStep(ref, n) => OnNote(b, ref, n)
    case ServerStep(r) => OnServerRequest(b, r)
    case AbortStep => if b.operation.Some? then Fail(b, ClientDisconnected) else b
    case TimeoutStep => if b.operation.Some? then Fail(b, GenerationTimeout) else b
    case ExpireStep => if b.timer then Release(b) else b
    case FinalizeStep => Finalize(b)
    case ExitStep => Fail(b.(closed := true, rpc := Closed), CodexUnavailable)
    case CloseStep => Release((if Unsettled(b) then Fail(b, BridgeShutdown) else b).(closed := true))
  }

  function Run(b: Bridge, steps: seq<Step>): (r: Bridge)
    requires Sane(b)
    ensures Sane(r)
  {
    if steps == [] then b else Next(Run(b, steps[..|steps| - 1]), steps[|steps| - 1])
  }

  function Reach(steps: seq<Step>): (r: Bridge)
    ensures Sane(r)
  {
    Run(Initial, steps)
  }
}
