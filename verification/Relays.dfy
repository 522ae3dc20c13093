/**
  The WebSocket relay: two pumps between a downstream and an upstream connection, and the bounded close phase
  after one of them has passed a Close on (section 5.5.1 of RFC 6455).

  Handing a message to a connection and flushing it are separate steps, between which the other pump may run.
  `strict` says whether a connection on which a Close has been read still takes messages; the library's
  connections do not, as they have queued their own acknowledgement.
 */
module Relays {
  import opened Wrappers

  datatype Message =
    | Text(data: seq<int>)
    | Binary(data: seq<int>)
    | Close(frame: Option<seq<int>>)
    | Ping(data: seq<int>)
    | Pong(data: seq<int>)

  datatype Pump = Reading | Handing(message: Message) | Flushing(message: Message)

  datatype Side = Downstream | Upstream

  datatype Phase = Relaying | FlushingBoth(closer: Side) | Draining(closer: Side) | LastFlush | Over

  /** What was read from and handed to each side, and where the two pumps stand. */
  datatype Relay = Relay(
    phase: Phase,
    outbound: Pump,
    inbound: Pump,
    readDown: seq<Message>,
    readUp: seq<Message>,
    sentUp: seq<Message>,
    sentDown: seq<Message>)

  /** `None` is the end of a stream, or an error. */
  datatype Event =
    | ReadDown(message: Option<Message>)
    | HandUp(ok: bool)
    | FlushUp(ok: bool)
    | ReadUp(message: Option<Message>)
    | HandDown(ok: bool)
    | FlushDown(ok: bool)
    | FlushedBoth
    | FlushedLast
    | Timeout

  function Fresh(): Relay { Relay(Relaying, Reading, Reading, [], [], [], []) }

  /** Pings and pongs are answered on their own leg. */
  predicate Passes(m: Message) { !m.Ping? && !m.Pong? }

  function Forward(read: seq<Message>): seq<Message> {
    if read == [] then []
    else Forward(read[..|read| - 1]) + (if Passes(read[|read| - 1]) then [read[|read| - 1]] else [])
  }

  predicate HasClose(ms: seq<Message>) { exists i :: 0 <= i < |ms| && ms[i].Close? }

  /** A message from the downstream, while relaying or while draining it. */
  function OnReadDown(r: Relay, m: Option<Message>): Relay {
    if r.phase == Relaying && r.outbound == Reading then
      if m.None? then r.(phase := Over)
      else
        var read := r.(readDown := r.readDown + [m.value]);
        if Passes(m.value) then read.(outbound := Handing(m.value)) else read
    else if r.phase == Draining(Upstream) then
      if m.None? then r.(phase := LastFlush)
      else
        var read := r.(readDown := r.readDown + [m.value]);
        if m.value.Close? then read.(phase := LastFlush) else read
    else r
  }

  function OnReadUp(r: Relay, m: Option<Message>): Relay {
    if r.phase == Relaying && r.inbound == Reading then
      if m.None? then r.(phase := Over)
      else
        var read := r.(readUp := r.readUp + [m.value]);
        if Passes(m.value) then read.(inbound := Handing(m.value)) else read
    else if r.phase == Draining(Downstream) then
      if m.None? then r.(phase := LastFlush)
      else
        var read := r.(readUp := r.readUp + [m.value]);
        if m.value.Close? then read.(phase := LastFlush) else read
    else r
  }

  /** The upstream takes the message, or the relay is disconnected. */
  function OnHandUp(r: Relay, strict: bool, ok: bool): Relay {
    if r.phase != Relaying || !r.outbound.Handing? then r
    else if !ok || (strict && HasClose(r.readUp)) then r.(phase := Over)
    else r.(outbound := Flushing(r.outbound.message), sentUp := r.sentUp + [r.outbound.message])
  }

  function OnHandDown(r: Relay, strict: bool, ok: bool): Relay {
    if r.phase != Relaying || !r.inbound.Handing? then r
    else if !ok || (strict && HasClose(r.readDown)) then r.(phase := Over)
    else r.(inbound := Flushing(r.inbound.message), sentDown := r.sentDown + [r.inbound.message])
  }

  /** The send completes: after a Close the pump ends, and with it the relaying. */
  function OnFlushUp(r: Relay, ok: bool): Relay {
    if r.phase != Relaying || !r.outbound.Flushing? then r
    else if !ok then r.(phase := Over)
    else if r.outbound.message.Close? then r.(phase := FlushingBoth(Downstream))
    else r.(outbound := Reading)
  }

  function OnFlushDown(r: Relay, ok: bool): Relay {
    if r.phase != Relaying || !r.inbound.Flushing? then r
    else if !ok then r.(phase := Over)
    else if r.inbound.message.Close? then r.(phase := FlushingBoth(Upstream))
    else r.(inbound := Reading)
  }

  function Next(r: Relay, strict: bool, e: Event): Relay {
    match e
    case ReadDown(m) => OnReadDown(r, m)
    case ReadUp(m) => OnReadUp(r, m)
    case HandUp(ok) => OnHandUp(r, strict, ok)
    case HandDown(ok) => OnHandDown(r, strict, ok)
    case FlushUp(ok) => OnFlushUp(r, ok)
    case FlushDown(ok) => OnFlushDown(r, ok)
    case FlushedBoth => if r.phase.FlushingBoth? then r.(phase := Draining(r.phase.closer)) else r
    case FlushedLast => if r.phase == LastFlush then r.(phase := Over) else r
    case Timeout => if r.phase == Relaying then r else r.(phase := Over)
  }

  function Run(strict: bool, events: seq<Event>): Relay {
    if events == [] then Fresh() else Next(Run(strict, events[..|events| - 1]), strict, events[|events| - 1])
  }

  // ---------------------------------------------------------------------------
  // The relay between two awaits
  // ---------------------------------------------------------------------------

  /** The relay's locals between two awaits. */
  class RelayTask {
    const strict: bool
    var phase: Phase
    var outbound: Pump
    var inbound: Pump
    var readDown: seq<Message>
    var readUp: seq<Message>
    var sentUp: seq<Message>
    var sentDown: seq<Message>

    ghost function State(): Relay
      reads this
    {
      Relay(phase, outbound, inbound, readDown, readUp, sentUp, sentDown)
    }

    constructor (strict: bool)
      ensures this.strict == strict && State() == Fresh()
    {
      this.strict := strict;
      phase, outbound, inbound := Relaying, Reading, Reading;
      readDown, readUp, sentUp, sentDown := [], [], [], [];
    }

    method FromDownstream(next: Option<Message>)
      modifies this
      ensures State() == OnReadDown(old(State()), next)
    {
      if phase == Relaying && outbound == Reading {
        if next.None? {
          phase := Over;
          return;
        }
        readDown := readDown + [next.value];
        if Passes(next.value) {
          outbound := Handing(next.value);
        }
      } else if phase == Draining(Upstream) {
        if next.Some? {
          readDown := readDown + [next.value];
        }
        if next.None? || next.value.Close? {
          phase := LastFlush;
        }
      }
    }

    method FromUpstream(next: Option<Message>)
      modifies this
      ensures State() == OnReadUp(old(State()), next)
    {
      if phase == Relaying && inbound == Reading {
        if next.None? {
          phase := Over;
          return;
        }
        readUp := readUp + [next.value];
        if Passes(next.value) {
          inbound := Handing(next.value);
        }
      } else if phase == Draining(Downstream) {
        if next.Some? {
          readUp := readUp + [next.value];
        }
        if next.None? || next.value.Close? {
          phase := LastFlush;
        }
      }
    }

    method ToUpstream(ok: bool)
      modifies this
      ensures State() == OnHandUp(old(State()), strict, ok)
    {
      if phase != Relaying || !outbound.Handing? {
        return;
      }
      if !ok || (strict && HasClose(readUp)) {
        phase := Over;
        return;
      }
      sentUp := sentUp + [outbound.message];
      outbound := Flushing(outbound.message);
    }

    method ToDownstream(ok: bool)
      modifies this
      ensures State() == OnHandDown(old(State()), strict, ok)
    {
      if phase != Relaying || !inbound.Handing? {
        return;
      }
      if !ok || (strict && HasClose(readDown)) {
        phase := Over;
        return;
      }
      sentDown := sentDown + [inbound.message];
      inbound := Flushing(inbound.message);
    }

    method Take(event: Event)
      modifies this
      ensures State() == Next(old(State()), strict, event)
    {
      match event {
        case ReadDown(m) => FromDownstream(m);
        case ReadUp(m) => FromUpstream(m);
        case HandUp(ok) => ToUpstream(ok);
        case HandDown(ok) => ToDownstream(ok);
        case FlushUp(ok) =>
          if phase == Relaying && outbound.Flushing? {
            if !ok {
              phase := Over;
            } else if outbound.message.Close? {
              phase := FlushingBoth(Downstream);
            } else {
              outbound := Reading;
            }
          }
        case FlushDown(ok) =>
          if phase == Relaying && inbound.Flushing? {
            if !ok {
              phase := Over;
            } else if inbound.message.Close? {
              phase := FlushingBoth(Upstream);
            } else {
              inbound := Reading;
            }
          }
        case FlushedBoth =>
          if phase.FlushingBoth? {
            phase := Draining(phase.closer);
          }
        case FlushedLast =>
          if phase == LastFlush {
            phase := Over;
          }
        case Timeout =>
          if phase != Relaying {
            phase := Over;
          }
      }
    }
  }

  // ---------------------------------------------------------------------------
  // What every run keeps
  // ---------------------------------------------------------------------------

  /** What was sent is what passes of a prefix of what was read, in order. */
  ghost predicate Relayed(sent: seq<Message>, read: seq<Message>) {
    exists k: nat :: k <= |read| && sent == Forward(read[..k])
  }

  /** One direction: its pump, what it read and what it sent. */
  ghost predicate PumpGood(relaying: bool, pump: Pump, read: seq<Message>, sent: seq<Message>) {
    && Relayed(sent, read)
    && (relaying ==>
          match pump
          case Reading => sent == Forward(read)
          case Handing(m) => Passes(m) && sent + [m] == Forward(read) && read != [] && read[|read| - 1] == m
          case Flushing(m) =>
            sent == Forward(read) && sent != [] && sent[|sent| - 1] == m && read != [] && read[|read| - 1] == m)
    && (forall i :: 0 <= i < |sent| && sent[i].Close? ==> i == |sent| - 1)
    && (relaying && HasClose(sent) ==> pump.Flushing? && pump.message.Close?)
    && (HasClose(sent) ==> HasClose(read))
  }

  ghost predicate Good(r: Relay, strict: bool) {
    && PumpGood(r.phase == Relaying, r.outbound, r.readDown, r.sentUp)
    && PumpGood(r.phase == Relaying, r.inbound, r.readUp, r.sentDown)
    && (strict ==> !(HasClose(r.sentUp) && HasClose(r.sentDown)))
  }

  lemma ForwardAppend(read: seq<Message>, m: Message)
    ensures Forward(read + [m]) == Forward(read) + (if Passes(m) then [m] else [])
  {
    assert (read + [m])[..|read|] == read;
  }

  lemma RelayedGrows(sent: seq<Message>, read: seq<Message>, m: Message)
    requires Relayed(sent, read)
    ensures Relayed(sent, read + [m])
  {
    var k: nat :| k <= |read| && sent == Forward(read[..k]);
    assert (read + [m])[..k] == read[..k];
  }

  lemma RelayedAll(sent: seq<Message>, read: seq<Message>)
    requires sent == Forward(read)
    ensures Relayed(sent, read)
  {
    assert read[..|read|] == read;
  }

  lemma HasCloseGrows(ms: seq<Message>, m: Message)
    ensures HasClose(ms + [m]) <==> HasClose(ms) || m.Close?
  {
    if HasClose(ms) {
      var i :| 0 <= i < |ms| && ms[i].Close?;
      assert (ms + [m])[i].Close?;
    }
    if m.Close? {
      assert (ms + [m])[|ms|].Close?;
    }
  }

  /** A pump reads a message. */
  lemma PumpReads(read: seq<Message>, sent: seq<Message>, m: Message)
    requires PumpGood(true, Reading, read, sent)
    ensures PumpGood(true, if Passes(m) then Handing(m) else Reading, read + [m], sent)
  {
    hide Forward, HasClose;
    ForwardAppend(read, m);
    RelayedGrows(sent, read, m);
    HasCloseGrows(read, m);
    assert sent + [] == sent;
  }

  /** A pump hands its message over. */
  lemma PumpHands(read: seq<Message>, sent: seq<Message>, m: Message)
    requires PumpGood(true, Handing(m), read, sent)
    ensures PumpGood(true, Flushing(m), read, sent + [m])
    ensures HasClose(sent + [m]) ==> m.Close? && HasClose(read)
  {
    hide Forward;
    RelayedAll(sent + [m], read);
    HasCloseGrows(sent, m);
    assert m.Close? ==> read[|read| - 1].Close?;
    assert !HasClose(sent);
  }

  /** A message is drained in the close phase. */
  lemma PumpDrains(pump: Pump, read: seq<Message>, sent: seq<Message>, m: Message)
    requires PumpGood(false, pump, read, sent)
    ensures PumpGood(false, pump, read + [m], sent)
  {
    hide Forward, HasClose;
    RelayedGrows(sent, read, m);
    HasCloseGrows(read, m);
  }

  lemma PumpStops(pump: Pump, read: seq<Message>, sent: seq<Message>)
    requires PumpGood(true, pump, read, sent)
    ensures PumpGood(false, pump, read, sent)
  {
  }

  lemma PumpFlushed(read: seq<Message>, sent: seq<Message>, m: Message)
    requires PumpGood(true, Flushing(m), read, sent) && !m.Close?
    ensures PumpGood(true, Reading, read, sent)
  {
  }

  lemma NextGood(r: Relay, strict: bool, e: Event)
    requires Good(r, strict)
    ensures Good(Next(r, strict, e), strict)
  {
    hide PumpGood, HasClose, Forward;
    if r.phase == Relaying {
      PumpStops(r.outbound, r.readDown, r.sentUp);
      PumpStops(r.inbound, r.readUp, r.sentDown);
      match e {
        case ReadDown(m) =>
          if r.outbound == Reading && m.Some? {
            PumpReads(r.readDown, r.sentUp, m.value);
          }
        case ReadUp(m) =>
          if r.inbound == Reading && m.Some? {
            PumpReads(r.readUp, r.sentDown, m.value);
          }
        case HandUp(ok) =>
          if r.outbound.Handing? {
            PumpHands(r.readDown, r.sentUp, r.outbound.message);
            CloseWasRead(r.inbound, r.readUp, r.sentDown);
          }
        case HandDown(ok) =>
          if r.inbound.Handing? {
            PumpHands(r.readUp, r.sentDown, r.inbound.message);
            CloseWasRead(r.outbound, r.readDown, r.sentUp);
          }
        case FlushUp(ok) =>
          if r.outbound.Flushing? && !r.outbound.message.Close? {
            PumpFlushed(r.readDown, r.sentUp, r.outbound.message);
          }
        case FlushDown(ok) =>
          if r.inbound.Flushing? && !r.inbound.message.Close? {
            PumpFlushed(r.readUp, r.sentDown, r.inbound.message);
          }
        case _ =>
      }
    } else {
      match e {
        case ReadDown(m) =>
          if m.Some? {
            PumpDrains(r.outbound, r.readDown, r.sentUp, m.value);
          }
        case ReadUp(m) =>
          if m.Some? {
            PumpDrains(r.inbound, r.readUp, r.sentDown, m.value);
          }
        case _ =>
      }
    }
  }

  lemma CloseWasRead(pump: Pump, read: seq<Message>, sent: seq<Message>)
    requires PumpGood(true, pump, read, sent)
    ensures HasClose(sent) ==> HasClose(read)
  {
  }

  lemma {:induction false} RunGood(strict: bool, events: seq<Event>)
    ensures Good(Run(strict, events), strict)
  {
    hide Good, Next;
    if events == [] {
      FreshGood(strict);
    } else {
      RunGood(strict, events[..|events| - 1]);
      NextGood(Run(strict, events[..|events| - 1]), strict, events[|events| - 1]);
    }
  }

  lemma FreshGood(strict: bool)
    ensures Good(Fresh(), strict)
  {
    RelayedAll([], []);
  }

  // ---------------------------------------------------------------------------
  // The results
  // ---------------------------------------------------------------------------

  /**
    In every run, what each side was handed is, in order, what passes of a prefix of what the other side sent,
    and holds a Close at most as its last message.
   */
  lemma RelayFaithful(strict: bool, events: seq<Event>)
    ensures var r := Run(strict, events);
            && Relayed(r.sentUp, r.readDown) && Relayed(r.sentDown, r.readUp)
            && (forall i :: 0 <= i < |r.sentUp| && r.sentUp[i].Close? ==> i == |r.sentUp| - 1)
            && (forall i :: 0 <= i < |r.sentDown| && r.sentDown[i].Close? ==> i == |r.sentDown| - 1)
  {
    hide Run, Relayed;
    RunGood(strict, events);
  }

  // ---------------------------------------------------------------------------
  // Message by message
  // ---------------------------------------------------------------------------

  /** What one side means for the other: text, data and the end of the conversation. */
  predicate Content(m: Message) {
    match m
    case Text(_) => true
    case Binary(_) => true
    case Close(_) => true
    case Ping(_) => false
    case Pong(_) => false
  }

  /** The message sent i-th was read at place at[i], one behind the other. */
  ghost predicate Picked(read: seq<Message>, k: nat, sent: seq<Message>, at: seq<nat>) {
    && k <= |read| && |at| == |sent|
    && (forall i, j :: 0 <= i < j < |at| ==> at[i] < at[j])
    && (forall i :: 0 <= i < |at| ==> at[i] < k && sent[i] == read[at[i]] && Content(sent[i]))
  }

  ghost predicate At(at: seq<nat>, n: nat) { exists i :: 0 <= i < |at| && at[i] == n }

  /** No content among the first k was left out. */
  ghost predicate Complete(read: seq<Message>, k: nat, at: seq<nat>) {
    forall n: nat :: n < k <= |read| && Content(read[n]) ==> At(at, n)
  }

  /** Sent were, unchanged and in order, exactly the text, binary and close messages among the first k read. */
  ghost predicate Carried(read: seq<Message>, k: nat, sent: seq<Message>) {
    exists at :: Picked(read, k, sent, at) && Complete(read, k, at)
  }

  lemma {:induction false} ForwardCarries(read: seq<Message>)
    ensures Carried(read, |read|, Forward(read))
  {
    hide *;
    if read == [] {
      NothingCarried();
    } else {
      ForwardCarries(read[..|read| - 1]);
      ForwardStep(read);
      CarriedStep(read, Forward(read[..|read| - 1]));
    }
  }

  lemma CarriedStep(read: seq<Message>, sent: seq<Message>)
    requires read != [] && Carried(read[..|read| - 1], |read| - 1, sent)
    ensures var m := read[|read| - 1]; Carried(read, |read|, if Content(m) then sent + [m] else sent)
  {
    hide Content, At, Picked, Complete;
    var n := |read| - 1;
    var at :| Picked(read[..n], n, sent, at) && Complete(read[..n], n, at);
    var more := if Content(read[n]) then at + [n] else at;
    ForwardComplete(read, at, more);
    ForwardPicked(read, sent, at);
    SomeCarried(read, |read|, if Content(read[n]) then sent + [read[n]] else sent, more);
  }

  lemma NothingCarried()
    ensures Carried([], 0, Forward([]))
  {
    assert Picked([], 0, Forward([]), []) && Complete([], 0, []);
  }

  lemma ForwardStep(read: seq<Message>)
    requires read != []
    ensures var n := |read| - 1;
      Forward(read) == if Content(read[n]) then Forward(read[..n]) + [read[n]] else Forward(read[..n])
  {
  }

  lemma ForwardPicked(read: seq<Message>, sent: seq<Message>, at: seq<nat>)
    requires read != [] && Picked(read[..|read| - 1], |read| - 1, sent, at)
    ensures var m := read[|read| - 1];
      Picked(read, |read|, if Content(m) then sent + [m] else sent, if Content(m) then at + [|read| - 1] else at)
  {
    hide Content;
  }

  lemma SomeCarried(read: seq<Message>, k: nat, sent: seq<Message>, at: seq<nat>)
    requires Picked(read, k, sent, at) && Complete(read, k, at)
    ensures Carried(read, k, sent)
  {
    hide Picked, Complete;
  }

  lemma ForwardComplete(read: seq<Message>, at: seq<nat>, more: seq<nat>)
    requires read != [] && Complete(read[..|read| - 1], |read| - 1, at)
    requires more == if Content(read[|read| - 1]) then at + [|read| - 1] else at
    ensures Complete(read, |read|, more)
  {
    var last := |read| - 1;
    forall n: nat | n < |read| && Content(read[n]) ensures At(more, n) {
      if n < last {
        assert read[..last][n] == read[n];
        assert At(at, n);
        var i :| 0 <= i < |at| && at[i] == n;
        assert more[i] == n;
      } else {
        assert more[|at|] == n;
      }
    }
  }

  lemma CarriedWithin(read: seq<Message>, k: nat, sent: seq<Message>)
    requires k <= |read| && Carried(read[..k], k, sent)
    ensures Carried(read, k, sent)
  {
    var at :| Picked(read[..k], k, sent, at) && Complete(read[..k], k, at);
    hide At, Carried, Content;
    forall n: nat | n < k && Content(read[n]) ensures At(at, n) {
      assert read[..k][n] == read[n];
    }
    assert Picked(read, k, sent, at);
    SomeCarried(read, k, sent, at);
  }

  /** How far a direction has got: while relaying, all that was read, but for the message in hand. */
  ghost predicate Reached(relaying: bool, pump: Pump, read: seq<Message>, k: nat) {
    && k <= |read|
    && (relaying ==>
          if pump.Handing? then k + 1 == |read| && read[k] == pump.message else k == |read|)
  }

  lemma PumpCarries(relaying: bool, pump: Pump, read: seq<Message>, sent: seq<Message>) returns (k: nat)
    requires PumpGood(relaying, pump, read, sent)
    ensures Reached(relaying, pump, read, k) && Carried(read, k, sent)
  {
    if relaying {
      k := if pump.Handing? then |read| - 1 else |read|;
      assert read[..|read|] == read;
      if pump.Handing? {
        HandingLast(pump, read, sent);
      }
    } else {
      k :| k <= |read| && sent == Forward(read[..k]);
    }
    ForwardCarries(read[..k]);
    CarriedWithin(read, k, sent);
  }

  /** The message in hand is the last one read, and all before it was sent. */
  lemma HandingLast(pump: Pump, read: seq<Message>, sent: seq<Message>)
    requires PumpGood(true, pump, read, sent) && pump.Handing?
    ensures sent == Forward(read[..|read| - 1])
  {
    var n := |read| - 1;
    assert sent + [pump.message] == Forward(read[..n]) + [read[n]];
    assert (sent + [pump.message])[..|sent|] == (Forward(read[..n]) + [read[n]])[..|sent|];
  }

  /**
    In every run each side was sent, unchanged and in order, exactly the text, binary and close messages among
    the first so many read from the other side; and while the relay runs that is all that was read, but for
    the message in hand, which is the last one read.
   */
  lemma EveryMessageCarried(strict: bool, events: seq<Event>)
    ensures var r := Run(strict, events);
      && (exists k :: Reached(r.phase == Relaying, r.outbound, r.readDown, k) && Carried(r.readDown, k, r.sentUp))
      && (exists k :: Reached(r.phase == Relaying, r.inbound, r.readUp, k) && Carried(r.readUp, k, r.sentDown))
  {
    RunGood(strict, events);
    hide Run, PumpGood;
    var r := Run(strict, events);
    var up := PumpCarries(r.phase == Relaying, r.outbound, r.readDown, r.sentUp);
    var down := PumpCarries(r.phase == Relaying, r.inbound, r.readUp, r.sentDown);
  }

  lemma OneMore(strict: bool, events: seq<Event>, e: Event)
    ensures Run(strict, events + [e]) == Next(Run(strict, events), strict, e)
  {
    hide Next;
    assert (events + [e])[..|events|] == events;
  }

  /**
    A message in hand goes out when its connection takes it, and once that is flushed the pump reads on; a
    connection that does not take it, or does not flush, ends the relay at once.
   */
  lemma HandsGoOut(strict: bool, events: seq<Event>)
    requires Run(strict, events).phase == Relaying
    ensures var r := Run(strict, events);
      var sent, lost := Run(strict, events + [HandUp(true)]), Run(strict, events + [HandUp(false)]);
      && (r.outbound.Handing? && !(strict && HasClose(r.readUp)) ==>
            sent == r.(sentUp := r.sentUp + [r.outbound.message], outbound := Flushing(r.outbound.message)))
      && (r.outbound.Handing? ==> lost == r.(phase := Over))
      && (r.outbound.Flushing? && !r.outbound.message.Close? ==> Run(strict, events + [FlushUp(true)]) == r.(outbound := Reading))
      && (r.outbound.Flushing? ==> Run(strict, events + [FlushUp(false)]) == r.(phase := Over))
      && (r.outbound == Reading ==> Run(strict, events + [ReadDown(None)]) == r.(phase := Over))
    ensures var r := Run(strict, events);
      var sent, lost := Run(strict, events + [HandDown(true)]), Run(strict, events + [HandDown(false)]);
      && (r.inbound.Handing? && !(strict && HasClose(r.readDown)) ==>
            sent == r.(sentDown := r.sentDown + [r.inbound.message], inbound := Flushing(r.inbound.message)))
      && (r.inbound.Handing? ==> lost == r.(phase := Over))
      && (r.inbound.Flushing? && !r.inbound.message.Close? ==> Run(strict, events + [FlushDown(true)]) == r.(inbound := Reading))
      && (r.inbound.Flushing? ==> Run(strict, events + [FlushDown(false)]) == r.(phase := Over))
      && (r.inbound == Reading ==> Run(strict, events + [ReadUp(None)]) == r.(phase := Over))
  {
    OneMore(strict, events, HandUp(true));
    OneMore(strict, events, HandUp(false));
    OneMore(strict, events, FlushUp(true));
    OneMore(strict, events, FlushUp(false));
    OneMore(strict, events, ReadDown(None));
    OneMore(strict, events, HandDown(true));
    OneMore(strict, events, HandDown(false));
    OneMore(strict, events, FlushDown(true));
    OneMore(strict, events, FlushDown(false));
    OneMore(strict, events, ReadUp(None));
    hide Run;
  }

  /** One message after another read from the side that has yet to close. */
  function Reads(closer: Side, ms: seq<Message>): seq<Event> {
    if ms == [] then []
    else Reads(closer, ms[..|ms| - 1]) + [if closer == Downstream then ReadUp(Some(ms[|ms| - 1])) else ReadDown(Some(ms[|ms| - 1]))]
  }

  function ReadMore(r: Relay, closer: Side, ms: seq<Message>): Relay {
    if closer == Downstream then r.(readUp := r.readUp + ms) else r.(readDown := r.readDown + ms)
  }

  lemma {:induction false} DrainsOn(strict: bool, events: seq<Event>, closer: Side, ms: seq<Message>)
    requires Run(strict, events).phase == Draining(closer) && !HasClose(ms)
    ensures Run(strict, events + Reads(closer, ms)) == ReadMore(Run(strict, events), closer, ms)
    decreases |ms|
  {
    if ms == [] {
      assert events + [] == events;
    } else {
      var n := |ms| - 1;
      assert !ms[n].Close?;
      assert !HasClose(ms[..n]) by {
        assert forall i :: 0 <= i < n ==> ms[..n][i] == ms[i];
      }
      DrainsOn(strict, events, closer, ms[..n]);
      var e := if closer == Downstream then ReadUp(Some(ms[n])) else ReadDown(Some(ms[n]));
      assert events + Reads(closer, ms) == events + Reads(closer, ms[..n]) + [e];
      hide Run, Next, HasClose, Reads, ReadMore;
      OneMore(strict, events + Reads(closer, ms[..n]), e);
      DrainsOne(ReadMore(Run(strict, events), closer, ms[..n]), strict, closer, ms[n]);
      ReadMoreSnoc(Run(strict, events), closer, ms);
    }
  }

  lemma DrainsOne(r: Relay, strict: bool, closer: Side, m: Message)
    requires r.phase == Draining(closer) && !m.Close?
    ensures Next(r, strict, if closer == Downstream then ReadUp(Some(m)) else ReadDown(Some(m))) == ReadMore(r, closer, [m])
  {
  }

  lemma ReadMoreSnoc(r: Relay, closer: Side, ms: seq<Message>)
    requires ms != []
    ensures var n := |ms| - 1;
      ReadMore(r, closer, ms[..n]).phase == r.phase && ReadMore(ReadMore(r, closer, ms[..n]), closer, [ms[n]]) == ReadMore(r, closer, ms)
  {
    var n := |ms| - 1;
    assert ms == ms[..n] + [ms[n]];
    assert r.readUp + ms[..n] + [ms[n]] == r.readUp + ms && r.readDown + ms[..n] + [ms[n]] == r.readDown + ms;
  }

  /** The other side's answer, or the end of its stream. */
  function Answer(closer: Side, m: Option<Message>): Event { if closer == Downstream then ReadUp(m) else ReadDown(m) }

  function PumpOf(r: Relay, closer: Side): Pump { if closer == Downstream then r.outbound else r.inbound }

  function FlushOf(closer: Side): Event { if closer == Downstream then FlushUp(true) else FlushDown(true) }

  /**
    A Close that was passed on is seen through: both sides are flushed, the other side is read until its own
    Close or its end, nothing more goes to either side, and after one more flush the relay is over.
   */
  lemma CloseSeenThrough(strict: bool, events: seq<Event>, closer: Side, ms: seq<Message>, answer: Option<Message>)
    requires var r := Run(strict, events);
      r.phase == Relaying && PumpOf(r, closer).Flushing? && PumpOf(r, closer).message.Close?
    requires !HasClose(ms) && (answer.Some? ==> answer.value.Close?)
    ensures var r := Run(strict, events);
      var flushed := events + [FlushOf(closer)] + [FlushedBoth];
      var drained := flushed + Reads(closer, ms);
      var answered := drained + [Answer(closer, answer)];
      && Run(strict, drained) == ReadMore(r, closer, ms).(phase := Draining(closer))
      && Run(strict, answered) == ReadMore(r, closer, ms + if answer.Some? then [answer.value] else []).(phase := LastFlush)
      && Run(strict, answered + [FlushedLast]) == Run(strict, answered).(phase := Over)
  {
    var r := Run(strict, events);
    var flushed := events + [FlushOf(closer)] + [FlushedBoth];
    var drained := flushed + Reads(closer, ms);
    var answered := drained + [Answer(closer, answer)];
    OneMore(strict, events, FlushOf(closer));
    OneMore(strict, events + [FlushOf(closer)], FlushedBoth);
    OneMore(strict, drained, Answer(closer, answer));
    OneMore(strict, answered, FlushedLast);
    hide Run;
    assert Run(strict, flushed) == r.(phase := Draining(closer));
    DrainsOn(strict, flushed, closer, ms);
    hide Reads;
    if answer.Some? {
      var up, down := r.readUp, r.readDown;
      assert up + ms + [answer.value] == up + (ms + [answer.value]);
      assert down + ms + [answer.value] == down + (ms + [answer.value]);
    } else {
      assert ms + [] == ms;
    }
  }

  /** What a pump that waits for a message does with the next one: content comes into its hand, pings and pongs do not. */
  lemma ContentComesToHand(strict: bool, events: seq<Event>, m: Message)
    requires Run(strict, events).phase == Relaying
    ensures var r := Run(strict, events);
      var d, u := Run(strict, events + [ReadDown(Some(m))]), Run(strict, events + [ReadUp(Some(m))]);
      && (r.outbound == Reading ==>
            && d.readDown == r.readDown + [m] && d.sentUp == r.sentUp && d.phase == Relaying
            && d.outbound == match m {
                 case Text(_) => Handing(m)
                 case Binary(_) => Handing(m)
                 case Close(_) => Handing(m)
                 case Ping(_) => Reading
                 case Pong(_) => Reading
               })
      && (r.inbound == Reading ==>
            && u.readUp == r.readUp + [m] && u.sentDown == r.sentDown && u.phase == Relaying
            && u.inbound == match m {
                 case Text(_) => Handing(m)
                 case Binary(_) => Handing(m)
                 case Close(_) => Handing(m)
                 case Ping(_) => Reading
                 case Pong(_) => Reading
               })
  {
    OneMore(strict, events, ReadDown(Some(m)));
    OneMore(strict, events, ReadUp(Some(m)));
    hide Run;
  }

  /** If a connection that has read a Close takes no more messages, a Close crosses in one direction at most. */
  lemma OneCloseCrosses(events: seq<Event>)
    ensures var r := Run(true, events); !(HasClose(r.sentUp) && HasClose(r.sentDown))
  {
    hide Run, PumpGood, HasClose;
    RunGood(true, events);
  }

  /** The relay has ended: a side has ended, a send has failed, or a Close has been passed on. */
  predicate Ended(r: Relay, strict: bool) {
    r.phase != Relaying || (strict && (HasClose(r.sentUp) || HasClose(r.sentDown)))
  }

  lemma EndedStays(r: Relay, strict: bool, e: Event)
    requires Good(r, strict) && Ended(r, strict)
    ensures var n := Next(r, strict, e);
            n.sentUp == r.sentUp && n.sentDown == r.sentDown && Ended(n, strict)
  {
    hide Forward, Relayed;
  }

  /** Once the relay has ended nothing is handed to either side, during the close phase included. */
  lemma {:induction false} NothingAfterEnd(strict: bool, events: seq<Event>, more: seq<Event>)
    requires Ended(Run(strict, events), strict)
    ensures var r, s := Run(strict, events), Run(strict, events + more);
            s.sentUp == r.sentUp && s.sentDown == r.sentDown && Ended(s, strict)
    decreases |more|
  {
    hide Good, Next, Ended;
    if more == [] {
      assert events + more == events;
    } else {
      var n := |more| - 1;
      assert (events + more)[..|events + more| - 1] == events + more[..n];
      NothingAfterEnd(strict, events, more[..n]);
      RunGood(strict, events + more[..n]);
      EndedStays(Run(strict, events + more[..n]), strict, more[n]);
    }
  }

  /** Everything read from the side was handed on, and the last of it was a Close. */
  ghost predicate ClosedInFull(read: seq<Message>, sent: seq<Message>) {
    sent == Forward(read) && read != [] && read[|read| - 1].Close?
  }

  ghost predicate InClosePhase(r: Relay, closer: Side) { r.phase == FlushingBoth(closer) || r.phase == Draining(closer) }

  ghost predicate ClosesInFull(r: Relay) {
    && (InClosePhase(r, Downstream) ==> ClosedInFull(r.readDown, r.sentUp))
    && (InClosePhase(r, Upstream) ==> ClosedInFull(r.readUp, r.sentDown))
  }

  lemma NextClosesInFull(r: Relay, strict: bool, e: Event)
    requires Good(r, strict) && ClosesInFull(r)
    ensures ClosesInFull(Next(r, strict, e))
  {
    hide Forward, Relayed;
  }

  lemma {:induction false} RunClosesInFull(strict: bool, events: seq<Event>)
    ensures ClosesInFull(Run(strict, events))
  {
    hide Good, Next, ClosesInFull;
    if events == [] {
      FreshClosesInFull();
    } else {
      RunGood(strict, events[..|events| - 1]);
      RunClosesInFull(strict, events[..|events| - 1]);
      NextClosesInFull(Run(strict, events[..|events| - 1]), strict, events[|events| - 1]);
    }
  }

  lemma FreshClosesInFull()
    ensures ClosesInFull(Fresh())
  {
  }

  /**
    A run enters the close phase, whatever the connections allow, only over a Close: while the relay flushes
    both sides and drains the other one, all that was read from the side that closed has been handed on, its
    Close last, and nothing has been read from it or handed to either side since.
   */
  lemma ClosePhaseInFull(strict: bool, events: seq<Event>, more: seq<Event>, closer: Side)
    requires InClosePhase(Run(strict, events), closer)
    ensures var r, s := Run(strict, events), Run(strict, events + more);
            && (if closer == Downstream then ClosedInFull(r.readDown, r.sentUp) else ClosedInFull(r.readUp, r.sentDown))
            && (if closer == Downstream then s.readDown == r.readDown else s.readUp == r.readUp)
            && s.sentUp == r.sentUp && s.sentDown == r.sentDown
  {
    RunClosesInFull(strict, events);
    NothingAfterEnd(strict, events, more);
    NothingReadAfterClose(strict, events, more, closer);
    hide Run, ClosedInFull;
  }

  ghost predicate Closing(r: Relay, closer: Side) { InClosePhase(r, closer) || r.phase == LastFlush || r.phase == Over }

  lemma {:induction false} NothingReadAfterClose(strict: bool, events: seq<Event>, more: seq<Event>, closer: Side)
    requires Closing(Run(strict, events), closer)
    ensures var r, s := Run(strict, events), Run(strict, events + more);
            && Closing(s, closer)
            && (if closer == Downstream then s.readDown == r.readDown else s.readUp == r.readUp)
    decreases |more|
  {
    hide Next, Closing;
    if more == [] {
      assert events + more == events;
    } else {
      var n := |more| - 1;
      assert (events + more)[..|events + more| - 1] == events + more[..n];
      NothingReadAfterClose(strict, events, more[..n], closer);
      ClosingReadsNothing(Run(strict, events + more[..n]), strict, more[n], closer);
    }
  }

  lemma ClosingReadsNothing(r: Relay, strict: bool, e: Event, closer: Side)
    requires Closing(r, closer)
    ensures var n := Next(r, strict, e);
            && Closing(n, closer) && (if closer == Downstream then n.readDown == r.readDown else n.readUp == r.readUp)
  {
  }

  /**
    Were a connection to take messages after a Close was read from it, two Closes could cross, each handed
    over while the other was still being flushed.
   */
  lemma ClosesCouldCross()
    ensures var r := Run(false, [ReadDown(Some(Close(None))), ReadUp(Some(Close(None))), HandUp(true), HandDown(true)]);
            HasClose(r.sentUp) && HasClose(r.sentDown)
  {
    var a, b, c, d := ReadDown(Some(Close(None))), ReadUp(Some(Close(None))), HandUp(true), HandDown(true);
    assert [a, b, c, d][..3] == [a, b, c] && [a, b, c][..2] == [a, b] && [a, b][..1] == [a] && [a][..0] == [];
    assert Run(false, []) == Fresh();
    var r1 := Run(false, [a]);
    assert r1.outbound == Handing(Close(None));
    var r2 := Run(false, [a, b]);
    assert r2.inbound == Handing(Close(None));
    var r3 := Run(false, [a, b, c]);
    assert r3.sentUp == [Close(None)];
    var r4 := Run(false, [a, b, c, d]);
    assert r4.sentUp[0].Close? && r4.sentDown[0].Close?;
  }
}
