/**
  The transport of the app-server: JSON lines cut out of a byte stream, and requests matched to responses.

  What a line means, and what the listeners of an inbound message do in response, are parameters. The whole
  state, not only the lines, is the same for every way the byte stream is cut into chunks, and every request
  is settled exactly once.
 */
module RpcTransports {
  import opened Wrappers
  import opened ByteStrings

  /** Response ids as JSON allows them. */
  datatype RpcId = Number(value: real) | Text(text: string)

  datatype Line = Blank | Invalid | Inbound | Reply(id: RpcId, ok: bool)

  datatype Cause = ProcessExit | ProcessError | IoError | ProtocolError | ClosedByHost | StartFailed

  datatype Outcome = Resolved | RejectedByPeer | TimedOut | NotSent | Failed(cause: Cause)

  datatype Settlement = Settlement(id: nat, outcome: Outcome)

  /** What a listener does while it handles an inbound message. */
  datatype Action = Ask(writable: bool) | Shut

  /** The line limit, the meaning of lines, and the listeners, which know every message emitted so far. */
  datatype World = World(maxLine: nat, decode: Bytes -> Line, host: seq<Bytes> -> seq<Action>)

  /** `pending` keeps the unsettled ids in the order they were issued; `log` records every settlement. */
  datatype Rpc = Rpc(
    buffer: Bytes,
    spawned: bool,
    resumed: bool,
    started: bool,
    closed: Option<Cause>,
    pending: seq<nat>,
    nextId: nat,
    log: seq<Settlement>,
    emitted: seq<Bytes>)

  const NEWLINE: Byte := 10
  const INITIALIZE: nat := 1

  function Fresh(): Rpc { Rpc([], false, false, false, None, [], INITIALIZE, [], []) }

  function RejectAll(log: seq<Settlement>, ids: seq<nat>, cause: Cause): seq<Settlement>
    decreases |ids|
  {
    if ids == [] then log else RejectAll(log + [Settlement(ids[0], Failed(cause))], ids[1..], cause)
  }

  /** `#fail`: once; every pending request is rejected, and the table is emptied. */
  function Fail(r: Rpc, cause: Cause): Rpc {
    if r.closed.Some? then r
    else r.(closed := Some(cause), started := false, buffer := [], log := RejectAll(r.log, r.pending, cause), pending := [])
  }

  function Without(ids: seq<nat>, id: nat): (out: seq<nat>)
    ensures forall x :: x in out ==> x in ids && x != id
  {
    if ids == [] then [] else (if ids[0] == id then [] else [ids[0]]) + Without(ids[1..], id)
  }

  /** Takes a request out of the table and settles it. */
  function Settle(r: Rpc, id: nat, o: Outcome): Rpc {
    r.(pending := Without(r.pending, id), log := r.log + [Settlement(id, o)])
  }

  /** `#request`: a new id, and a message that may fail to be sent. */
  function Issue(r: Rpc, writable: bool): Rpc {
    var s := r.(nextId := r.nextId + 1, pending := r.pending + [r.nextId]);
    if r.closed.Some? || !writable then Settle(s, r.nextId, NotSent) else s
  }

  /** `request`: refused without an id unless the transport is started. */
  function Request(r: Rpc, writable: bool): Rpc {
    if !r.started || r.closed.Some? then r else Issue(r, writable)
  }

  function Perform(r: Rpc, actions: seq<Action>): Rpc
    decreases |actions|
  {
    if actions == [] then r
    else
      var s := match actions[0] case Ask(writable) => Request(r, writable) case Shut => Fail(r, ClosedByHost);
      Perform(s, actions[1..])
  }

  function Named(pending: seq<nat>, id: RpcId): (n: Option<nat>)
    ensures n.Some? ==> id == Number(n.value as real) && n.value in pending
    ensures n.None? ==> forall p :: p in pending ==> id != Number(p as real)
  {
    if pending == [] then None
    else
      assert pending == [pending[0]] + pending[1..];
      if id == Number(pending[0] as real) then Some(pending[0])
    else Named(pending[1..], id)
  }

  /** `#onLine`. */
  function OnLine(w: World, r: Rpc, line: Bytes): Rpc {
    match w.decode(line)
    case Blank => r
    case Invalid => Fail(r, ProtocolError)
    case Inbound =>
      var heard := r.(emitted := r.emitted + [line]);
      Perform(heard, w.host(heard.emitted))
    case Reply(id, ok) =>
      var n := Named(r.pending, id);
      if n.None? then r else Settle(r, n.value, if ok then Resolved else RejectedByPeer)
  }

  /** The reference reader: one byte. */
  function OnByte(w: World, r: Rpc, b: Byte): Rpc {
    if r.closed.Some? then r
    else if b == NEWLINE then OnLine(w, r.(buffer := []), r.buffer)
    else if |r.buffer| + 1 > w.maxLine then Fail(r, ProtocolError)
    else r.(buffer := r.buffer + [b])
  }

  function OnBytes(w: World, r: Rpc, s: Bytes): Rpc
    decreases |s|
  {
    if s == [] then r else OnByte(w, OnBytes(w, r, s[..|s| - 1]), s[|s| - 1])
  }

  datatype Step =
    | Start(writable: bool)
    | Resume(writable: bool)
    | Call(writable: bool)
    | Data(chunk: Bytes)
    | Expire(id: nat)
    | Down(cause: Cause)

  predicate Unsettled(r: Rpc, id: nat) { id in r.pending }

  /** The continuation of `start` after the initialize request settled. */
  function Resumption(r: Rpc, writable: bool): Rpc {
    if !r.spawned || r.resumed || Unsettled(r, INITIALIZE) then r
    else
      var s := r.(resumed := true);
      if r.closed.None? && writable && Settlement(INITIALIZE, Resolved) in r.log then s.(started := true)
      else Fail(s, StartFailed)
  }

  function Next(w: World, r: Rpc, s: Step): Rpc {
    match s
    case Start(writable) => if r.closed.Some? || r.spawned then r else Issue(r.(spawned := true), writable)
    case Resume(writable) => Resumption(r, writable)
    case Call(writable) => Request(r, writable)
    case Data(chunk) => OnBytes(w, r, chunk)
    case Expire(id) => if id in r.pending then Settle(r, id, TimedOut) else r
    case Down(cause) => Fail(r, cause)
  }

  function Run(w: World, steps: seq<Step>): Rpc {
    if steps == [] then Fresh() else Next(w, Run(w, steps[..|steps| - 1]), steps[|steps| - 1])
  }

  // ---------------------------------------------------------------------------
  // However the bytes are cut
  // ---------------------------------------------------------------------------

  /** Two chunks are their concatenation: the same lines, leftover, requests and failure. */
  lemma {:induction false} ChunksJoin(w: World, r: Rpc, a: Bytes, b: Bytes)
    ensures OnBytes(w, OnBytes(w, r, a), b) == OnBytes(w, r, a + b)
    decreases |b|
  {
    hide OnByte;
    if b == [] {
      assert a + b == a;
    } else {
      ChunksJoin(w, r, a, b[..|b| - 1]);
      assert (a + b)[..|a + b| - 1] == a + b[..|b| - 1];
    }
  }

  lemma {:induction false} ClosedStays(w: World, r: Rpc, s: Bytes)
    requires r.closed.Some?
    ensures OnBytes(w, r, s) == r
  {
    if s != [] {
      ClosedStays(w, r, s[..|s| - 1]);
    }
  }

  /** `#append`: a stretch without a line end is taken whole, or fails the transport. */
  function Append(w: World, r: Rpc, s: Bytes): Rpc {
    if |r.buffer| + |s| > w.maxLine then Fail(r, ProtocolError) else r.(buffer := r.buffer + s)
  }

  lemma {:induction false} StretchRead(w: World, r: Rpc, s: Bytes)
    requires r.closed.None? && NEWLINE !in s && |r.buffer| <= w.maxLine
    ensures OnBytes(w, r, s) == Append(w, r, s)
  {
    if s == [] {
      assert r.buffer + [] == r.buffer;
    } else {
      var before, b := s[..|s| - 1], s[|s| - 1];
      StretchRead(w, r, before);
      assert r.buffer + s == r.buffer + before + [b];
      assert b in s;
    }
  }

  /** The complete lines of a byte string, and what follows the last line end. */
  function Lines(s: Bytes): seq<Bytes> {
    if s == [] then []
    else
      var before := s[..|s| - 1];
      if s[|s| - 1] == NEWLINE then Lines(before) + [Tail(before)] else Lines(before)
  }

  function Tail(s: Bytes): Bytes {
    if s == [] then [] else if s[|s| - 1] == NEWLINE then [] else Tail(s[..|s| - 1]) + [s[|s| - 1]]
  }

  function HandleLines(w: World, r: Rpc, lines: seq<Bytes>): Rpc {
    if lines == [] then r else OnLine(w, HandleLines(w, r, lines[..|lines| - 1]), lines[|lines| - 1])
  }

  /** Every line is within the limit, and handling it leaves the transport open. */
  predicate Undisturbed(w: World, r: Rpc, lines: seq<Bytes>) {
    lines == [] || (Undisturbed(w, r, lines[..|lines| - 1]) && |lines[|lines| - 1]| <= w.maxLine
                    && HandleLines(w, r, lines).closed.None?)
  }

  predicate Fine(w: World, r: Rpc, lines: seq<Bytes>, n: nat)
    requires n < |lines|
  {
    |lines[n]| <= w.maxLine && HandleLines(w, r, lines[..n + 1]).closed.None?
  }

  lemma {:induction false} EveryLineFine(w: World, r: Rpc, lines: seq<Bytes>)
    ensures Undisturbed(w, r, lines) <==> forall n: nat :: n < |lines| ==> Fine(w, r, lines, n)
  {
    hide HandleLines;
    if lines == [] {
      assert Undisturbed(w, r, []);
    } else {
      var last := |lines| - 1;
      var before := lines[..last];
      EveryLineFine(w, r, before);
      assert lines[..last + 1] == lines;
      assert Undisturbed(w, r, lines) <==> Undisturbed(w, r, before) && Fine(w, r, lines, last);
      forall n: nat | n < last ensures Fine(w, r, before, n) <==> Fine(w, r, lines, n) {
        assert before[..n + 1] == lines[..n + 1];
      }
    }
  }

  /** No line, and not what follows the last one, is over the limit, and no line closes the transport. */
  predicate Readable(w: World, r: Rpc, s: Bytes) { |Tail(s)| <= w.maxLine && Undisturbed(w, r, Lines(s)) }

  lemma {:induction false} LinesKeepBuffer(w: World, r: Rpc, lines: seq<Bytes>)
    requires r.buffer == []
    ensures HandleLines(w, r, lines).buffer == []
  {
    if lines != [] {
      LinesKeepBuffer(w, r, lines[..|lines| - 1]);
      LineKeepsBuffer(w, HandleLines(w, r, lines[..|lines| - 1]), lines[|lines| - 1]);
    }
  }

  lemma LineKeepsBuffer(w: World, r: Rpc, line: Bytes)
    requires r.buffer == []
    ensures OnLine(w, r, line).buffer == []
  {
    if w.decode(line).Inbound? {
      var heard := r.(emitted := r.emitted + [line]);
      PerformKeepsBuffer(heard, w.host(heard.emitted));
    }
  }

  lemma {:induction false} PerformKeepsBuffer(r: Rpc, actions: seq<Action>)
    requires r.buffer == []
    ensures Perform(r, actions).buffer == []
    decreases |actions|
  {
    if actions != [] {
      PerformKeepsBuffer(match actions[0] case Ask(writable) => Request(r, writable) case Shut => Fail(r, ClosedByHost), actions[1..]);
    }
  }

  /**
    The reader survives a byte string exactly when no line and no trailing part exceeds the limit and no line
    closes the transport; then it has handed on every line, in order, and keeps what follows the last.
   */
  lemma {:induction false} ReadsLines(w: World, r: Rpc, s: Bytes)
    requires r.closed.None? && r.buffer == []
    ensures OnBytes(w, r, s).closed.None? <==> Readable(w, r, s)
    ensures Readable(w, r, s) ==> OnBytes(w, r, s) == HandleLines(w, r, Lines(s)).(buffer := Tail(s))
  {
    hide OnLine, HandleLines, Undisturbed;
    NoLines(w, r);
    if s != [] {
      var before := s[..|s| - 1];
      ReadsLines(w, r, before);
      LinesKeepBuffer(w, r, Lines(before));
      if Undisturbed(w, r, Lines(before)) {
        LinesOpen(w, r, Lines(before));
      }
      if s[|s| - 1] == NEWLINE {
        LineEnd(w, r, Lines(before), Tail(before));
      }
    }
  }

  lemma NoLines(w: World, r: Rpc)
    ensures HandleLines(w, r, []) == r && Undisturbed(w, r, [])
  {
  }

  lemma LinesOpen(w: World, r: Rpc, lines: seq<Bytes>)
    requires r.closed.None? && Undisturbed(w, r, lines)
    ensures HandleLines(w, r, lines).closed.None?
  {
  }

  /** A line end hands on the line before it. */
  lemma LineEnd(w: World, r: Rpc, lines: seq<Bytes>, line: Bytes)
    ensures HandleLines(w, r, lines + [line]) == OnLine(w, HandleLines(w, r, lines), line)
    ensures Undisturbed(w, r, lines + [line]) <==>
            Undisturbed(w, r, lines) && |line| <= w.maxLine && HandleLines(w, r, lines + [line]).closed.None?
    ensures r.buffer == [] ==> HandleLines(w, r, lines + [line]).buffer == []
  {
    hide OnLine;
    assert (lines + [line])[..|lines|] == lines;
    if r.buffer == [] {
      LinesKeepBuffer(w, r, lines + [line]);
    }
  }
}
