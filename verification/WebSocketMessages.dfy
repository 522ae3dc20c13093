/**
  Reassembly of RFC 6455 messages (section 5.4): any fragmentation of a sequence of messages, with control
  frames in between, gives back those messages.
 */
module WebSocketMessages {
  import opened Wrappers
  import opened ByteStrings
  import opened WebSocketFrames

  datatype Kind = Text | Binary

  datatype Event = Message(kind: Kind, data: Bytes) | Closed(code: nat)

  datatype Failure = MaskedServerFrame | UnexpectedOpcode | UnexpectedContinuation | InterleavedFragments | MessageTooLarge

  /** A message under assembly, what was received and what was written back, and why the frame handler threw. */
  datatype Link = Link(
    opcode: Option<Byte>,
    fragments: seq<Bytes>,
    size: nat,
    sentClose: bool,
    events: seq<Event>,
    written: seq<Frame>,
    failure: Option<Failure>)

  const CONTINUATION: Byte := 0
  const TEXT: Byte := 1
  const BINARY: Byte := 2
  const CLOSE: Byte := 8
  const PING: Byte := 9
  const PONG: Byte := 10

  function Opened(): Link { Link(None, [], 0, false, [], [], None) }

  function Reply(opcode: Byte, payload: Bytes): Frame { Frame(opcode, true, true, payload) }

  /** The frame handler. */
  function Handle(c: Link, f: Frame, max: nat): Link {
    if f.masked then c.(failure := Some(MaskedServerFrame))
    else if f.opcode == PING then c.(written := c.written + [Reply(PONG, f.payload)])
    else if f.opcode == PONG then c
    else if f.opcode == CLOSE then
      var code := if |f.payload| >= 2 then FromBigEndian(f.payload[..2]) else 1005;
      var heard := c.(events := c.events + [Closed(code)]);
      if c.sentClose then heard else heard.(sentClose := true, written := c.written + [Reply(CLOSE, f.payload)])
    else if f.opcode > 2 then c.(failure := Some(UnexpectedOpcode))
    else if f.opcode == CONTINUATION && c.opcode.None? then c.(failure := Some(UnexpectedContinuation))
    else if f.opcode != CONTINUATION && c.opcode.Some? then c.(failure := Some(InterleavedFragments))
    else
      var opcode := if f.opcode != CONTINUATION then f.opcode else c.opcode.value;
      var grown := c.(opcode := Some(opcode), fragments := c.fragments + [f.payload], size := c.size + |f.payload|);
      if grown.size > max then grown.(failure := Some(MessageTooLarge))
      else if !f.fin then grown
      else
        c.(opcode := None, fragments := [], size := 0,
           events := c.events + [Message(if opcode == TEXT then Text else Binary, Concat(grown.fragments))])
  }

  /** The client closes: once, unless a Close was answered already. */
  function Hangup(c: Link, code: nat): Link {
    if c.sentClose then c else c.(sentClose := true, written := c.written + [Reply(CLOSE, BigEndian(code, 2))])
  }

  /** Frames in order; a throw ends the connection. */
  function HandleAll(c: Link, frames: seq<Frame>, max: nat): Link
    decreases |frames|
  {
    if frames == [] || c.failure.Some? then c
    else HandleAll(Handle(c, frames[0], max), frames[1..], max)
  }

  /** The connection object's reassembly state, changed frame by frame. */
  class Reassembler {
    const maxBytes: nat
    var fragmentOpcode: Option<Byte>
    var fragments: seq<Bytes>
    var fragmentBytes: nat
    var sentClose: bool
    var events: seq<Event>
    var written: seq<Frame>
    var failure: Option<Failure>

    ghost function State(): Link
      reads this
    {
      Link(fragmentOpcode, fragments, fragmentBytes, sentClose, events, written, failure)
    }

    constructor (maxBytes: nat)
      ensures this.maxBytes == maxBytes && State() == Opened()
    {
      this.maxBytes := maxBytes;
      fragmentOpcode, fragments, fragmentBytes, sentClose := None, [], 0, false;
      events, written, failure := [], [], None;
    }

    method Close(code: nat)
      modifies this
      ensures State() == Hangup(old(State()), code)
    {
      if !sentClose {
        sentClose := true;
        written := written + [Reply(CLOSE, BigEndian(code, 2))];
      }
    }

    method OnFrame(f: Frame)
      modifies this
      ensures State() == Handle(old(State()), f, maxBytes)
    {
      hide Concat, FromBigEndian;
      if f.masked {
        failure := Some(MaskedServerFrame);
        return;
      }
      if f.opcode == PING {
        written := written + [Reply(PONG, f.payload)];
        return;
      }
      if f.opcode == PONG {
        return;
      }
      if f.opcode == CLOSE {
        events := events + [Closed(if |f.payload| >= 2 then FromBigEndian(f.payload[..2]) else 1005)];
        if !sentClose {
          sentClose := true;
          written := written + [Reply(CLOSE, f.payload)];
        }
        return;
      }
      if f.opcode !in {CONTINUATION, TEXT, BINARY} {
        failure := Some(UnexpectedOpcode);
        return;
      }
      if f.opcode == CONTINUATION && fragmentOpcode.None? {
        failure := Some(UnexpectedContinuation);
        return;
      }
      if f.opcode != CONTINUATION && fragmentOpcode.Some? {
        failure := Some(InterleavedFragments);
        return;
      }
      if f.opcode != CONTINUATION {
        fragmentOpcode := Some(f.opcode);
      }
      fragments := fragments + [f.payload];
      fragmentBytes := fragmentBytes + |f.payload|;
      if fragmentBytes > maxBytes {
        failure := Some(MessageTooLarge);
        return;
      }
      if f.fin {
        events := events + [Message(if fragmentOpcode == Some(TEXT) then Text else Binary, Concat(fragments))];
        fragments, fragmentBytes, fragmentOpcode := [], 0, None;
      }
    }
  }

  // ---------------------------------------------------------------------------
  // Fragmentation
  // ---------------------------------------------------------------------------

  /** A ping or a pong between fragments. */
  datatype Control = Control(ping: bool, payload: Bytes)

  /** One fragment, after the control frames sent just before it. */
  datatype Part = Part(before: seq<Control>, payload: Bytes)

  /** A message cut into one or more fragments. */
  datatype Fragmented = Fragmented(kind: Kind, parts: seq<Part>)

  function ControlFrame(c: Control): Frame { Frame(if c.ping then PING else PONG, true, false, c.payload) }

  function ControlFrames(cs: seq<Control>): seq<Frame> {
    if cs == [] then [] else [ControlFrame(cs[0])] + ControlFrames(cs[1..])
  }

  /** A ping is answered with its payload, a pong is not answered. */
  function PongOf(c: Control): seq<Frame> { if c.ping then [Reply(PONG, c.payload)] else [] }

  function Pongs(cs: seq<Control>): seq<Frame> {
    if cs == [] then [] else PongOf(cs[0]) + Pongs(cs[1..])
  }

  /** The frames of fragments, of which the first carries `opcode` and the last is final. */
  function PartFrames(opcode: Byte, parts: seq<Part>): seq<Frame> {
    if parts == [] then []
    else
      ControlFrames(parts[0].before) + [Frame(opcode, |parts| == 1, false, parts[0].payload)]
      + PartFrames(CONTINUATION, parts[1..])
  }

  function PartPongs(parts: seq<Part>): seq<Frame> {
    if parts == [] then [] else Pongs(parts[0].before) + PartPongs(parts[1..])
  }

  function Payloads(parts: seq<Part>): seq<Bytes> {
    if parts == [] then [] else [parts[0].payload] + Payloads(parts[1..])
  }

  function Opcode(k: Kind): Byte { if k == Text then TEXT else BINARY }

  function MessageFrames(ms: seq<Fragmented>): seq<Frame> {
    if ms == [] then [] else PartFrames(Opcode(ms[0].kind), ms[0].parts) + MessageFrames(ms[1..])
  }

  function MessagePongs(ms: seq<Fragmented>): seq<Frame> {
    if ms == [] then [] else PartPongs(ms[0].parts) + MessagePongs(ms[1..])
  }

  function Whole(m: Fragmented): Event { Message(m.kind, Concat(Payloads(m.parts))) }

  function Wholes(ms: seq<Fragmented>): seq<Event> {
    if ms == [] then [] else [Whole(ms[0])] + Wholes(ms[1..])
  }

  predicate Fits(ms: seq<Fragmented>, max: nat) {
    forall i :: 0 <= i < |ms| ==> |ms[i].parts| > 0 && |Concat(Payloads(ms[i].parts))| <= max
  }

  lemma {:induction false} HandleSplit(c: Link, a: seq<Frame>, b: seq<Frame>, max: nat)
    ensures HandleAll(c, a + b, max) == HandleAll(HandleAll(c, a, max), b, max)
    decreases |a|
  {
    hide Handle;
    if a == [] {
      assert a + b == b;
    } else if c.failure.None? {
      assert (a + b)[1..] == a[1..] + b;
      HandleSplit(Handle(c, a[0], max), a[1..], b, max);
    }
  }

  lemma NothingHandled(c: Link, max: nat)
    ensures HandleAll(c, [], max) == c
  {
  }

  lemma OneHandled(c: Link, frames: seq<Frame>, max: nat)
    requires frames != [] && c.failure.None?
    ensures HandleAll(c, frames, max) == HandleAll(Handle(c, frames[0], max), frames[1..], max)
  {
  }

  lemma ControlHandled(c: Link, control: Control, max: nat)
    ensures Handle(c, ControlFrame(control), max) == c.(written := c.written + PongOf(control))
  {
    assert c.written + [] == c.written;
  }

  /** Control frames disturb nothing but the replies. */
  lemma {:induction false} ControlsHandled(c: Link, cs: seq<Control>, max: nat)
    requires c.failure.None?
    ensures HandleAll(c, ControlFrames(cs), max) == c.(written := c.written + Pongs(cs))
    decreases |cs|
  {
    hide HandleAll, Handle, PongOf, ControlFrame;
    if cs == [] {
      NothingHandled(c, max);
      assert c.written + [] == c.written;
    } else {
      var frames := ControlFrames(cs);
      assert frames[1..] == ControlFrames(cs[1..]);
      ControlHandled(c, cs[0], max);
      OneHandled(c, frames, max);
      var d := c.(written := c.written + PongOf(cs[0]));
      ControlsHandled(d, cs[1..], max);
      assert d.written + Pongs(cs[1..]) == c.written + Pongs(cs);
    }
  }

  lemma {:induction false} ConcatAppend(a: seq<Bytes>, p: Bytes)
    ensures Concat(a + [p]) == Concat(a) + p
  {
    if a == [] {
      assert [] + [p] == [p] && [p][1..] == [];
      assert Concat([p]) == p + Concat([]);
    } else {
      assert (a + [p])[1..] == a[1..] + [p];
      ConcatAppend(a[1..], p);
    }
  }

  /** A fragment, after control frames, is appended to the message under assembly. */
  lemma PartHandled(c: Link, opcode: Byte, part: Part, fin: bool, max: nat)
    requires c.failure.None? && opcode <= 2 && (opcode == CONTINUATION <==> c.opcode.Some?)
    ensures var c0 := c.(written := c.written + Pongs(part.before));
            HandleAll(c, ControlFrames(part.before) + [Frame(opcode, fin, false, part.payload)], max)
            == Handle(c0, Frame(opcode, fin, false, part.payload), max)
  {
    hide Handle;
    var f := Frame(opcode, fin, false, part.payload);
    ControlsHandled(c, part.before, max);
    HandleSplit(c, ControlFrames(part.before), [f], max);
    var c0 := c.(written := c.written + Pongs(part.before));
    assert [f][1..] == [];
    assert HandleAll(c0, [f], max) == HandleAll(Handle(c0, f, max), [], max);
  }

  /** The rest of a message's fragments complete it. */
  lemma {:induction false} PartsHandled(c: Link, k: Kind, opcode: Byte, parts: seq<Part>, max: nat)
    requires parts != [] && c.failure.None? && c.size == |Concat(c.fragments)|
    requires opcode == (if c.opcode.None? then Opcode(k) else CONTINUATION)
    requires if c.opcode.None? then c.fragments == [] else c.opcode == Some(Opcode(k))
    requires c.size + |Concat(Payloads(parts))| <= max
    ensures HandleAll(c, PartFrames(opcode, parts), max) ==
            c.(opcode := None, fragments := [], size := 0,
               events := c.events + [Message(k, Concat(c.fragments) + Concat(Payloads(parts)))],
               written := c.written + PartPongs(parts))
    decreases |parts|
  {
    hide HandleAll, Concat, Payloads, Pongs, ControlFrames;
    var f := Frame(opcode, |parts| == 1, false, parts[0].payload);
    var head := ControlFrames(parts[0].before) + [f];
    var rest := PartFrames(CONTINUATION, parts[1..]);
    PartHandled(c, opcode, parts[0], |parts| == 1, max);
    HandleSplit(c, head, rest, max);
    PayloadsSplit(parts);
    ConcatAppend(c.fragments, parts[0].payload);
    var d := HandleAll(c, head, max);
    if |parts| == 1 {
      NoParts(d, parts[1..], max);
      assert parts[0].payload + [] == parts[0].payload;
      assert c.written + (Pongs(parts[0].before) + []) == c.written + Pongs(parts[0].before);
    } else {
      PartsHandled(d, k, CONTINUATION, parts[1..], max);
      assert Concat(c.fragments) + parts[0].payload + Concat(Payloads(parts[1..]))
          == Concat(c.fragments) + Concat(Payloads(parts));
      assert c.written + Pongs(parts[0].before) + PartPongs(parts[1..]) == c.written + PartPongs(parts);
    }
  }

  lemma NoParts(c: Link, parts: seq<Part>, max: nat)
    requires parts == []
    ensures HandleAll(c, PartFrames(CONTINUATION, parts), max) == c
    ensures PartPongs(parts) == [] && Concat(Payloads(parts)) == []
  {
  }

  /** No message is under assembly, and nothing went wrong. */
  predicate Idle(c: Link) { c.failure.None? && c.opcode.None? && c.fragments == [] && c.size == 0 }

  function Gained(c: Link, events: seq<Event>, written: seq<Frame>): Link {
    c.(events := c.events + events, written := c.written + written)
  }

  lemma GainedTwice(c: Link, e1: seq<Event>, w1: seq<Frame>, e2: seq<Event>, w2: seq<Frame>)
    ensures Gained(Gained(c, e1, w1), e2, w2) == Gained(c, e1 + e2, w1 + w2)
    ensures Gained(c, [], []) == c && (Idle(c) ==> Idle(Gained(c, e1, w1)))
  {
    var g := Gained(Gained(c, e1, w1), e2, w2);
    assert g.events == c.events + (e1 + e2) && g.written == c.written + (w1 + w2);
    assert c.events + [] == c.events && c.written + [] == c.written;
  }

  /** One fragmented message, from one idle point to the next. */
  lemma MessageHandled(c: Link, m: Fragmented, max: nat)
    requires Idle(c) && m.parts != [] && |Concat(Payloads(m.parts))| <= max
    ensures HandleAll(c, PartFrames(Opcode(m.kind), m.parts), max) == Gained(c, [Whole(m)], PartPongs(m.parts))
  {
    hide HandleAll, PartFrames, PartPongs, Payloads;
    PartsHandled(c, m.kind, Opcode(m.kind), m.parts, max);
    assert Concat([]) + Concat(Payloads(m.parts)) == Concat(Payloads(m.parts));
  }

  /** A whole sequence of fragmented messages comes out as those messages, each ping answered in order. */
  lemma {:induction false} MessagesReassembled(c: Link, ms: seq<Fragmented>, max: nat)
    requires Idle(c) && Fits(ms, max)
    ensures HandleAll(c, MessageFrames(ms), max) == Gained(c, Wholes(ms), MessagePongs(ms))
    decreases |ms|
  {
    hide HandleAll, PartFrames, PartPongs, Whole, Gained, Idle, Payloads, Concat;
    if ms == [] {
      NothingHandled(c, max);
      GainedTwice(c, [], [], [], []);
    } else {
      var m := ms[0];
      MessageHandled(c, m, max);
      var d := HandleAll(c, PartFrames(Opcode(m.kind), m.parts), max);
      GainedTwice(c, [Whole(m)], PartPongs(m.parts), Wholes(ms[1..]), MessagePongs(ms[1..]));
      HandleSplit(c, PartFrames(Opcode(m.kind), m.parts), MessageFrames(ms[1..]), max);
      MessagesReassembled(d, ms[1..], max);
    }
  }

  /** A message past the limit is refused at the fragment that passes it, and yields nothing. */
  lemma {:induction false} OversizeRefused(c: Link, k: Kind, opcode: Byte, parts: seq<Part>, max: nat)
    requires parts != [] && c.failure.None? && c.size == |Concat(c.fragments)| <= max
    requires opcode == (if c.opcode.None? then Opcode(k) else CONTINUATION)
    requires c.size + |Concat(Payloads(parts))| > max
    ensures HandleAll(c, PartFrames(opcode, parts), max).failure == Some(MessageTooLarge)
    ensures HandleAll(c, PartFrames(opcode, parts), max).events == c.events
    decreases |parts|
  {
    hide HandleAll, Concat, Payloads, Pongs, ControlFrames;
    var f := Frame(opcode, |parts| == 1, false, parts[0].payload);
    var head := ControlFrames(parts[0].before) + [f];
    var rest := PartFrames(CONTINUATION, parts[1..]);
    PartHandled(c, opcode, parts[0], |parts| == 1, max);
    HandleSplit(c, head, rest, max);
    PayloadsSplit(parts);
    ConcatAppend(c.fragments, parts[0].payload);
    var d := HandleAll(c, head, max);
    if c.size + |parts[0].payload| > max {
      ThrownStays(d, rest, max);
    } else {
      assert |parts| > 1;
      OversizeRefused(d, k, CONTINUATION, parts[1..], max);
    }
  }

  lemma PayloadsSplit(parts: seq<Part>)
    requires parts != []
    ensures Concat(Payloads(parts)) == parts[0].payload + Concat(Payloads(parts[1..]))
    ensures |parts| == 1 ==> Concat(Payloads(parts)) == parts[0].payload
  {
    assert Payloads(parts)[1..] == Payloads(parts[1..]);
  }

  lemma ThrownStays(c: Link, frames: seq<Frame>, max: nat)
    requires c.failure.Some?
    ensures HandleAll(c, frames, max) == c
  {
  }

  // ---------------------------------------------------------------------------
  // One Close
  // ---------------------------------------------------------------------------

  datatype Action = Receive(frame: Frame) | HangUp(code: nat)

  function Act(c: Link, a: Action, max: nat): Link {
    match a
    case Receive(f) => if c.failure.Some? then c else Handle(c, f, max)
    case HangUp(code) => Hangup(c, code)
  }

  function ActAll(actions: seq<Action>, max: nat): Link {
    if actions == [] then Opened() else Act(ActAll(actions[..|actions| - 1], max), actions[|actions| - 1], max)
  }

  function Closes(frames: seq<Frame>): nat {
    if frames == [] then 0 else Closes(frames[..|frames| - 1]) + (if frames[|frames| - 1].opcode == CLOSE then 1 else 0)
  }

  lemma ClosesAppend(frames: seq<Frame>, f: Frame)
    ensures Closes(frames + [f]) == Closes(frames) + (if f.opcode == CLOSE then 1 else 0)
  {
    assert (frames + [f])[..|frames|] == frames;
  }

  lemma ClosesNone()
    ensures Closes([]) == 0
  {
  }

  /** Whatever is received and whenever the client hangs up, at most one Close is written. */
  lemma {:induction false} OneCloseWritten(actions: seq<Action>, max: nat)
    ensures var c := ActAll(actions, max);
            Closes(c.written) == if c.sentClose then 1 else 0
  {
    hide Concat, FromBigEndian, BigEndian, Closes;
    if actions == [] {
      ClosesNone();
    } else {
      var c := ActAll(actions[..|actions| - 1], max);
      OneCloseWritten(actions[..|actions| - 1], max);
      match actions[|actions| - 1] {
        case Receive(f) =>
          ClosesAppend(c.written, Reply(PONG, f.payload));
          ClosesAppend(c.written, Reply(CLOSE, f.payload));
        case HangUp(code) =>
          ClosesAppend(c.written, Reply(CLOSE, BigEndian(code, 2)));
      }
    }
  }

  // ---------------------------------------------------------------------------
  // What is answered, and what is refused
  // ---------------------------------------------------------------------------

  lemma OneMoreAction(actions: seq<Action>, a: Action, max: nat)
    ensures ActAll(actions + [a], max) == Act(ActAll(actions, max), a, max)
  {
    hide Act;
    assert (actions + [a])[..|actions|] == actions;
  }

  predicate WroteClose(frames: seq<Frame>) { exists i :: 0 <= i < |frames| && frames[i].opcode == 8 }

  lemma {:induction false} ClosesSeen(frames: seq<Frame>)
    ensures Closes(frames) > 0 <==> WroteClose(frames)
  {
    if frames == [] {
      ClosesNone();
    } else {
      var n := |frames| - 1;
      ClosesSeen(frames[..n]);
      assert WroteClose(frames[..n]) ==> WroteClose(frames) by {
        if WroteClose(frames[..n]) {
          var i :| 0 <= i < n && frames[..n][i].opcode == 8;
          assert frames[i].opcode == 8;
        }
      }
      if WroteClose(frames) && frames[n].opcode != 8 {
        var i :| 0 <= i < |frames| && frames[i].opcode == 8;
        assert frames[..n][i].opcode == 8;
      }
    }
  }

  /**
    What the client writes, over every run: a ping that is not masked is answered by a pong with its payload,
    the first Close received by a Close with its payload, and a hang-up before any Close by one with its code,
    each in one final masked frame; nothing else is ever written.
   */
  lemma WrittenExactly(actions: seq<Action>, a: Action, max: nat)
    requires a.HangUp? ==> a.code < 65536
    ensures var c, d := ActAll(actions, max), ActAll(actions + [a], max);
      d.written == c.written +
        match a {
          case HangUp(code) =>
            if WroteClose(c.written) then [] else [Frame(8, true, true, [(code / 256) as Byte, (code % 256) as Byte])]
          case Receive(f) =>
            if c.failure.Some? || f.masked then []
            else if f.opcode == 9 then [Frame(10, true, true, f.payload)]
            else if f.opcode == 8 && !WroteClose(c.written) then [Frame(8, true, true, f.payload)]
            else []
        }
  {
    var c := ActAll(actions, max);
    OneMoreAction(actions, a, max);
    OneCloseWritten(actions, max);
    ClosesSeen(c.written);
    if a.HangUp? {
      TwoBytes(a.code);
    }
    hide ActAll, Concat, FromBigEndian, BigEndian, Closes, WroteClose;
    assert c.written + [] == c.written;
  }

  lemma TwoBytes(n: nat)
    requires n < 65536
    ensures BigEndian(n, 2) == [(n / 256) as Byte, (n % 256) as Byte]
  {
    assert BigEndian(n / 256, 1) == [(n / 256) as Byte];
  }

  /**
    A frame is refused exactly when it is masked, has a reserved opcode, continues nothing, begins a message
    inside another, or makes the message larger than the limit; it then yields no event and no answer.
   */
  lemma RefusedExactly(actions: seq<Action>, f: Frame, max: nat)
    requires ActAll(actions, max).failure.None?
    ensures var c, d := ActAll(actions, max), ActAll(actions + [Receive(f)], max);
      && (d.failure.Some? <==>
            || f.masked || f.opcode !in {0, 1, 2, 8, 9, 10}
            || (f.opcode == 0 && c.opcode.None?)
            || (f.opcode in {1, 2} && c.opcode.Some?)
            || (f.opcode in {0, 1, 2} && c.size + |f.payload| > max))
      && (d.failure.Some? ==> d.events == c.events && d.written == c.written)
  {
    OneMoreAction(actions, Receive(f), max);
    hide ActAll, Concat, FromBigEndian;
  }

  /** Which reason a refusal names, the first that applies. */
  lemma RefusedBecause(actions: seq<Action>, f: Frame, max: nat)
    requires ActAll(actions, max).failure.None?
    ensures var c, d := ActAll(actions, max), ActAll(actions + [Receive(f)], max);
      var known := !f.masked && f.opcode in {0, 1, 2};
      && (d.failure == Some(MaskedServerFrame) <==> f.masked)
      && (d.failure == Some(UnexpectedOpcode) <==> !f.masked && f.opcode !in {0, 1, 2, 8, 9, 10})
      && (d.failure == Some(UnexpectedContinuation) <==> known && f.opcode == 0 && c.opcode.None?)
      && (d.failure == Some(InterleavedFragments) <==> known && f.opcode != 0 && c.opcode.Some?)
      && (d.failure == Some(MessageTooLarge) <==>
            known && (f.opcode == 0 <==> c.opcode.Some?) && c.size + |f.payload| > max)
  {
    OneMoreAction(actions, Receive(f), max);
    hide ActAll, Concat, FromBigEndian;
  }

  /**
    What the caller hears of a control frame that is not refused: of a Close its code, the first two bytes of
    the payload or 1005 without them, and nothing of pings and pongs.
   */
  lemma ControlHeard(actions: seq<Action>, f: Frame, max: nat)
    requires ActAll(actions, max).failure.None? && ActAll(actions + [Receive(f)], max).failure.None? && f.opcode in {8, 9, 10}
    ensures var c, d := ActAll(actions, max), ActAll(actions + [Receive(f)], max);
      d.events == c.events +
        if f.opcode != 8 then []
        else [Closed(if |f.payload| >= 2 then 256 * f.payload[0] as nat + f.payload[1] as nat else 1005)]
  {
    OneMoreAction(actions, Receive(f), max);
    if f.opcode == 8 && |f.payload| >= 2 {
      TwoBytesRead(f.payload[..2]);
    }
    hide ActAll, Concat, FromBigEndian;
  }

  /**
    And of one that carries content: nothing of a fragment that is not the last, and of the last one a message,
    of the kind that the first fragment gave.
   */
  lemma ContentHeard(actions: seq<Action>, f: Frame, max: nat)
    requires ActAll(actions, max).failure.None? && ActAll(actions + [Receive(f)], max).failure.None? && f.opcode in {0, 1, 2}
    ensures var c, d := ActAll(actions, max), ActAll(actions + [Receive(f)], max);
      if !f.fin then d.events == c.events
      else
        && |d.events| == |c.events| + 1 && c.events <= d.events && d.events[|c.events|].Message?
        && (d.events[|c.events|].kind == Text <==> if f.opcode == 0 then c.opcode == Some(1) else f.opcode == 1)
  {
    OneMoreAction(actions, Receive(f), max);
    hide ActAll, Concat, FromBigEndian;
  }

  lemma TwoBytesRead(b: Bytes)
    requires |b| == 2
    ensures FromBigEndian(b) == 256 * b[0] as nat + b[1] as nat
  {
    assert b[..1] == [b[0]] && b[..1][..0] == [];
  }

  // ---------------------------------------------------------------------------
  // From the wire to the messages
  // ---------------------------------------------------------------------------

  /** Control payloads are short, as RFC 6455 section 5.5 demands, and fragments within the frame limit. */
  predicate Sendable(frames: seq<Frame>, max: nat) {
    forall i :: 0 <= i < |frames| ==> Acceptable(frames[i], max) && |frames[i].payload| < TWO64
  }

  /** Bytes of fragmented messages, in any chunks, become exactly those messages. */
  lemma WireToMessages(ms: seq<Fragmented>, masks: seq<Bytes>, chunks: seq<Bytes>, max: nat)
    requires Fits(ms, max) && Sendable(MessageFrames(ms), max)
    requires |masks| == |MessageFrames(ms)| && forall i :: 0 <= i < |masks| ==> |masks[i]| == 4
    requires Concat(chunks) == EncodeAll(MessageFrames(ms), masks)
    ensures var d := FeedAll([], chunks, max);
            && d.rest == [] && d.fault.None?
            && HandleAll(Opened(), d.frames, max) == Opened().(events := Wholes(ms), written := MessagePongs(ms))
  {
    hide HandleAll, FeedAll, MessageFrames, Wholes, MessagePongs, Acceptable, Fits;
    FramesRoundTrip(MessageFrames(ms), masks, chunks, max);
    MessagesReassembled(Opened(), ms, max);
    assert [] + Wholes(ms) == Wholes(ms) && [] + MessagePongs(ms) == MessagePongs(ms);
  }
}
