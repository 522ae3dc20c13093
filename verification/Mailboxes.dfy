/**
  The mailbox of a WebSocket client: events that arrive wait for receive calls, and receive calls wait for
  events. Over every interleaving of arrivals, calls, timeouts and the end of the connection, each event
  goes to exactly one call, in order.
 */
module Mailboxes {
  import opened Wrappers
  import opened WebSocketMessages

  type CallId = nat

  datatype Ending = SocketError | SocketClosed | FrameFailure

  /** What a receive call's promise has come to. */
  datatype Status = Waiting | Got(event: Event) | TimedOut | Refused(ending: Ending)

  /** The queue and the waiters, with the outcome of every call ever made and the events that arrived. */
  datatype Mailbox = Mailbox(
    queue: seq<Event>,
    waiters: seq<CallId>,
    ended: Option<Ending>,
    status: seq<Status>,
    arrived: seq<Event>)

  datatype Step = Arrive(event: Event) | Receive | Expire(call: CallId) | Stop(ending: Ending)

  function Empty(): Mailbox { Mailbox([], [], None, [], []) }

  /** Settles a call; only a call that waits can be settled. */
  function Settle(status: seq<Status>, call: CallId, s: Status): (out: seq<Status>)
    ensures |out| == |status|
  {
    if call < |status| && status[call].Waiting? then status[call := s] else status
  }

  /** `push`: to the longest waiting call, or into the queue. */
  function Push(m: Mailbox, e: Event): Mailbox {
    var n := m.(arrived := m.arrived + [e]);
    if m.waiters != [] then n.(waiters := m.waiters[1..], status := Settle(m.status, m.waiters[0], Got(e)))
    else n.(queue := m.queue + [e])
  }

  /** `receive`: from the queue, or the ending, or wait. */
  function Take(m: Mailbox): Mailbox {
    if m.queue != [] then m.(queue := m.queue[1..], status := m.status + [Got(m.queue[0])])
    else if m.ended.Some? then m.(status := m.status + [Refused(m.ended.value)])
    else m.(waiters := m.waiters + [|m.status|], status := m.status + [Waiting])
  }

  function IndexOf(s: seq<CallId>, id: CallId): (i: Option<nat>)
    ensures i.Some? ==> i.value < |s| && s[i.value] == id
    ensures i.None? ==> id !in s
  {
    if s == [] then None
    else if s[0] == id then Some(0)
    else
      var i := IndexOf(s[1..], id);
      if i.None? then None else Some(i.value + 1)
  }

  /** A waiting call's timer; the timer of a call that no longer waits was cleared. */
  function Timeout(m: Mailbox, id: CallId): Mailbox {
    var i := IndexOf(m.waiters, id);
    if i.None? then m
    else m.(waiters := m.waiters[..i.value] + m.waiters[i.value + 1..], status := Settle(m.status, id, TimedOut))
  }

  function RefuseAll(status: seq<Status>, ids: seq<CallId>, e: Ending): (out: seq<Status>)
    ensures |out| == |status|
    decreases |ids|
  {
    if ids == [] then status else RefuseAll(Settle(status, ids[0], Refused(e)), ids[1..], e)
  }

  /** `stop`: only the first ending counts; every waiting call is refused with it. */
  function Finish(m: Mailbox, e: Ending): Mailbox {
    if m.ended.Some? then m
    else m.(ended := Some(e), waiters := [], status := RefuseAll(m.status, m.waiters, e))
  }

  function Next(m: Mailbox, s: Step): Mailbox {
    match s
    case Arrive(e) => Push(m, e)
    case Receive => Take(m)
    case Expire(id) => Timeout(m, id)
    case Stop(e) => Finish(m, e)
  }

  function Run(steps: seq<Step>): Mailbox {
    if steps == [] then Empty() else Next(Run(steps[..|steps| - 1]), steps[|steps| - 1])
  }

  // ---------------------------------------------------------------------------
  // What every interleaving keeps
  // ---------------------------------------------------------------------------

  /** The events received, in the order of the calls that received them. */
  function Received(status: seq<Status>): seq<Event> {
    if status == [] then []
    else Received(status[..|status| - 1]) + (match status[|status| - 1] case Got(e) => [e] case _ => [])
  }

  /** The waiters are the waiting calls, oldest first. */
  ghost predicate Listed(status: seq<Status>, waiters: seq<CallId>) {
    && (forall i :: 0 <= i < |waiters| ==> waiters[i] < |status| && status[waiters[i]].Waiting?)
    && (forall i, j :: 0 <= i < j < |waiters| ==> waiters[i] < waiters[j])
    && (forall c: CallId :: c < |status| && status[c].Waiting? ==> c in waiters)
  }

  /** No call receives while an earlier one waits. */
  ghost predicate Fair(status: seq<Status>) {
    forall c: CallId, d: CallId :: c < d < |status| && status[c].Waiting? ==> !status[d].Got?
  }

  /** Nothing lost, nothing twice, nothing out of order. */
  ghost predicate Orderly(m: Mailbox) {
    && (m.queue == [] || m.waiters == [])
    && (m.ended.Some? ==> m.waiters == [])
    && Listed(m.status, m.waiters) && Fair(m.status)
    && m.arrived == Received(m.status) + m.queue
  }

  lemma {:induction false} NoneReceived(status: seq<Status>, from: nat)
    requires from <= |status| && forall c :: from <= c < |status| ==> !status[c].Got?
    ensures Received(status) == Received(status[..from])
  {
    if from == |status| {
      assert status[..from] == status;
    } else {
      NoneReceived(status[..|status| - 1], from);
      assert status[..|status| - 1][..from] == status[..from];
    }
  }

  /** A call that waits behind every call that received, receives next. */
  lemma ReceivedNext(status: seq<Status>, c: CallId, e: Event)
    requires c < |status| && status[c].Waiting? && forall d :: c < d < |status| ==> !status[d].Got?
    ensures Received(status[c := Got(e)]) == Received(status) + [e]
  {
    var after := status[c := Got(e)];
    NoneReceived(status, c);
    NoneReceived(after, c + 1);
    assert after[..c + 1][..c] == status[..c];
  }

  lemma {:induction false} NotReceived(status: seq<Status>, c: CallId, s: Status)
    requires c < |status| && !status[c].Got? && !s.Got?
    ensures Received(status[c := s]) == Received(status)
  {
    var n := |status| - 1;
    if c == n {
      assert status[c := s][..n] == status[..n];
    } else {
      NotReceived(status[..n], c, s);
      assert status[c := s][..n] == status[..n][c := s];
    }
  }

  lemma ReceivedAppend(status: seq<Status>, s: Status)
    ensures Received(status + [s]) == Received(status) + (match s case Got(e) => [e] case _ => [])
  {
    assert (status + [s])[..|status|] == status;
  }

  /** Taking a call off the list, and settling it. */
  lemma Unlist(status: seq<Status>, waiters: seq<CallId>, i: nat, s: Status)
    requires Listed(status, waiters) && i < |waiters| && !s.Waiting?
    ensures Listed(status[waiters[i] := s], waiters[..i] + waiters[i + 1..])
  {
    var rest := waiters[..i] + waiters[i + 1..];
    forall k | 0 <= k < |rest| ensures rest[k] == waiters[if k < i then k else k + 1] && rest[k] != waiters[i] {
    }
    forall c: CallId | c < |status| && c != waiters[i] && status[c].Waiting? ensures c in rest {
      var k :| 0 <= k < |waiters| && waiters[k] == c;
      assert rest[if k < i then k else k - 1] == c;
    }
  }

  lemma PushOrderly(m: Mailbox, e: Event)
    requires Orderly(m)
    ensures Orderly(Push(m, e))
  {
    hide Received, Listed;
    if m.waiters != [] {
      var c := m.waiters[0];
      Unlist(m.status, m.waiters, 0, Got(e));
      assert m.waiters[..0] + m.waiters[1..] == m.waiters[1..];
      FirstWaits(m.status, m.waiters);
      ReceivedNext(m.status, c, e);
    }
  }

  lemma FirstWaits(status: seq<Status>, waiters: seq<CallId>)
    requires Listed(status, waiters) && waiters != []
    ensures waiters[0] < |status| && status[waiters[0]].Waiting?
    ensures forall c: CallId :: c < waiters[0] && c < |status| ==> !status[c].Waiting?
  {
    forall c: CallId | c < |status| && status[c].Waiting? ensures c >= waiters[0] {
      var k :| 0 <= k < |waiters| && waiters[k] == c;
    }
  }

  lemma TakeOrderly(m: Mailbox)
    requires Orderly(m)
    ensures Orderly(Take(m))
  {
    hide Received, Listed, Fair;
    var n := Take(m);
    var s := n.status[|m.status|];
    ReceivedAppend(m.status, n.status[|m.status|]);
    ListAppend(m.status, m.waiters, n.status[|m.status|]);
    if m.queue != [] {
      NobodyWaits(m.status, m.waiters);
      assert Received(m.status) + m.queue == Received(m.status) + [m.queue[0]] + m.queue[1..];
    }
    FairAppend(m.status, s);
  }

  lemma FairAppend(status: seq<Status>, s: Status)
    requires Fair(status) && (s.Got? ==> forall c: CallId :: c < |status| ==> !status[c].Waiting?)
    ensures Fair(status + [s])
  {
  }

  lemma NobodyWaits(status: seq<Status>, waiters: seq<CallId>)
    requires Listed(status, waiters) && waiters == []
    ensures forall c: CallId :: c < |status| ==> !status[c].Waiting?
  {
  }

  lemma ListAppend(status: seq<Status>, waiters: seq<CallId>, s: Status)
    requires Listed(status, waiters)
    ensures Listed(status + [s], if s.Waiting? then waiters + [|status|] else waiters)
  {
    var after := if s.Waiting? then waiters + [|status|] else waiters;
    forall c: CallId | c < |status| + 1 && (status + [s])[c].Waiting? ensures c in after {
      if c < |status| {
        var k :| 0 <= k < |waiters| && waiters[k] == c;
        assert after[k] == c;
      } else {
        assert after[|waiters|] == c;
      }
    }
  }

  lemma TimeoutOrderly(m: Mailbox, id: CallId)
    requires Orderly(m)
    ensures Orderly(Timeout(m, id))
  {
    var i := IndexOf(m.waiters, id);
    if i.Some? {
      Unlist(m.status, m.waiters, i.value, TimedOut);
      NotReceived(m.status, id, TimedOut);
    }
  }

  lemma {:induction false} RefuseAllOrderly(status: seq<Status>, ids: seq<CallId>, e: Ending)
    requires Listed(status, ids) && Fair(status)
    ensures Listed(RefuseAll(status, ids, e), []) && Fair(RefuseAll(status, ids, e))
    ensures Received(RefuseAll(status, ids, e)) == Received(status)
    decreases |ids|
  {
    hide Received;
    if ids != [] {
      Unlist(status, ids, 0, Refused(e));
      assert ids[..0] + ids[1..] == ids[1..];
      NotReceived(status, ids[0], Refused(e));
      RefuseAllOrderly(Settle(status, ids[0], Refused(e)), ids[1..], e);
    }
  }

  lemma FinishOrderly(m: Mailbox, e: Ending)
    requires Orderly(m)
    ensures Orderly(Finish(m, e))
  {
    if m.ended.None? {
      RefuseAllOrderly(m.status, m.waiters, e);
    }
  }

  lemma {:induction false} RunOrderly(steps: seq<Step>)
    ensures Orderly(Run(steps))
  {
    hide Orderly, Push, Take, Timeout, Finish;
    if steps == [] {
      EmptyOrderly();
    } else {
      var m := Run(steps[..|steps| - 1]);
      RunOrderly(steps[..|steps| - 1]);
      match steps[|steps| - 1]
      case Arrive(e) => PushOrderly(m, e);
      case Receive => TakeOrderly(m);
      case Expire(id) => TimeoutOrderly(m, id);
      case Stop(e) => FinishOrderly(m, e);
    }
  }

  lemma EmptyOrderly()
    ensures Orderly(Empty())
  {
  }

  /** A settled call stays as it is: a promise settles once. */
  lemma SettledOnce(m: Mailbox, s: Step, c: CallId)
    requires c < |m.status| && !m.status[c].Waiting?
    ensures c < |Next(m, s).status| && Next(m, s).status[c] == m.status[c]
  {
    if s.Stop? {
      RefusedKeeps(m.status, m.waiters, s.ending, c);
    }
  }

  lemma {:induction false} RefusedKeeps(status: seq<Status>, ids: seq<CallId>, e: Ending, c: CallId)
    requires c < |status| && !status[c].Waiting?
    ensures RefuseAll(status, ids, e)[c] == status[c]
    decreases |ids|
  {
    if ids != [] {
      RefusedKeeps(Settle(status, ids[0], Refused(e)), ids[1..], e, c);
    }
  }

  // ---------------------------------------------------------------------------
  // Which call a step settles, and how
  // ---------------------------------------------------------------------------

  /** The call waits, and none made before it does. */
  predicate LongestWaiting(status: seq<Status>, c: CallId) {
    c < |status| && status[c].Waiting? && forall d: CallId :: d < c ==> !status[d].Waiting?
  }

  lemma LongestIsFirst(m: Mailbox, c: CallId)
    requires Orderly(m) && c < |m.status|
    ensures LongestWaiting(m.status, c) <==> m.waiters != [] && m.waiters[0] == c
  {
    hide Received, Fair;
    if m.waiters != [] {
      FirstWaits(m.status, m.waiters);
    }
    if LongestWaiting(m.status, c) {
      assert c in m.waiters;
      var k :| 0 <= k < |m.waiters| && m.waiters[k] == c;
      assert m.status[m.waiters[0]].Waiting?;
    }
  }

  lemma {:induction false} RefusedAre(status: seq<Status>, ids: seq<CallId>, e: Ending, c: CallId)
    requires Listed(status, ids) && c < |status|
    ensures RefuseAll(status, ids, e)[c] == if status[c].Waiting? then Refused(e) else status[c]
    decreases |ids|
  {
    if ids != [] {
      Unlist(status, ids, 0, Refused(e));
      assert ids[..0] + ids[1..] == ids[1..];
      RefusedAre(status[ids[0] := Refused(e)], ids[1..], e, c);
      RefusedKeeps(status[ids[0] := Refused(e)], ids[1..], e, ids[0]);
    }
  }

  /**
    Over every run, each step settles the calls it says and no other: an arrival the longest waiting one, with
    the event; a timer its own call, as timed out; the first ending every waiting call, with that ending.
   */
  lemma StepsSettle(steps: seq<Step>, c: CallId, e: Event, ending: Ending, id: CallId)
    requires c < |Run(steps).status|
    ensures var m := Run(steps);
      && |Run(steps + [Arrive(e)]).status| == |Run(steps + [Expire(id)]).status| == |Run(steps + [Stop(ending)]).status| == |m.status|
      && Run(steps + [Arrive(e)]).status[c] == (if LongestWaiting(m.status, c) then Got(e) else m.status[c])
      && Run(steps + [Expire(id)]).status[c] == (if c == id && m.status[c].Waiting? then TimedOut else m.status[c])
      && Run(steps + [Stop(ending)]).status[c] == (if m.ended.None? && m.status[c].Waiting? then Refused(ending) else m.status[c])
  {
    var m := Run(steps);
    RunOrderly(steps);
    OneMore(steps, Arrive(e));
    OneMore(steps, Expire(id));
    OneMore(steps, Stop(ending));
    hide Run;
    LongestIsFirst(m, c);
    if m.ended.None? {
      RefusedAre(m.status, m.waiters, ending, c);
    } else {
      assert !m.status[c].Waiting?;
    }
    hide Received, RefuseAll, Fair, LongestWaiting;
  }

  /** A call takes the first event of the queue, or else the ending, or else it waits. */
  lemma CallsTake(steps: seq<Step>)
    ensures var m := Run(steps);
      Run(steps + [Step.Receive]).status == m.status +
        [if m.queue != [] then Got(m.queue[0]) else if m.ended.Some? then Refused(m.ended.value) else Waiting]
  {
    OneMore(steps, Step.Receive);
    hide Run;
  }

  // ---------------------------------------------------------------------------
  // After the end
  // ---------------------------------------------------------------------------

  function Receives(n: nat): seq<Step> { if n == 0 then [] else Receives(n - 1) + [Step.Receive] }

  lemma OneMore(steps: seq<Step>, s: Step)
    ensures Run(steps + [s]) == Next(Run(steps), s)
  {
    hide Next;
    assert (steps + [s])[..|steps|] == steps;
  }

  /** The outcomes of calls that were all served. */
  function Served(events: seq<Event>): (out: seq<Status>)
    ensures |out| == |events| && forall i :: 0 <= i < |out| ==> out[i] == Got(events[i])
  {
    seq(|events|, i requires 0 <= i < |events| => Got(events[i]))
  }

  /**
    Whatever is queued is received before the end is: n calls made in any reachable state, before or after
    the connection has ended, get the first n queued events in order; and a call that finds nothing queued is
    refused with the ending, or waits if there is none yet.
   */
  lemma {:induction false} QueueOutlivesEnd(steps: seq<Step>, n: nat)
    requires n <= |Run(steps).queue|
    ensures var m, k := Run(steps), Run(steps + Receives(n));
      && k.status == m.status + Served(m.queue[..n]) && k.queue == m.queue[n..]
      && k.ended == m.ended && k.waiters == m.waiters
    ensures n == |Run(steps).queue| ==>
      var m, k := Run(steps), Run(steps + Receives(n) + [Step.Receive]);
      k.status == m.status + Served(m.queue) + [if m.ended.Some? then Refused(m.ended.value) else Waiting]
  {
    hide Run;
    var m := Run(steps);
    if n == 0 {
      assert steps + Receives(0) == steps && m.status + Served(m.queue[..0]) == m.status;
    } else {
      QueueOutlivesEnd(steps, n - 1);
      assert steps + Receives(n) == steps + Receives(n - 1) + [Step.Receive];
      OneMore(steps + Receives(n - 1), Step.Receive);
      assert Served(m.queue[..n]) == Served(m.queue[..n - 1]) + [Got(m.queue[n - 1])];
    }
    OneMore(steps + Receives(n), Step.Receive);
    if n == |m.queue| {
      assert m.queue[..n] == m.queue;
    }
  }

  /**
    Over every interleaving: the queue and the waiters are never both in use, the waiters are exactly the
    calls still waiting, and the events received, in the order of the calls, followed by those queued are
    the events that arrived. A call's outcome is one status, and the connection's end leaves none waiting.
   */
  lemma EachEventOnce(steps: seq<Step>)
    ensures var m := Run(steps);
            && (m.queue == [] || m.waiters == [])
            && Received(m.status) + m.queue == m.arrived
            && (forall c: CallId :: c in m.waiters <==> c < |m.status| && m.status[c].Waiting?)
            && (m.ended.Some? ==> forall c: CallId :: c < |m.status| ==> !m.status[c].Waiting?)
            && (forall c: CallId, d: CallId :: c < d < |m.status| && m.status[c].Waiting? ==> !m.status[d].Got?)
  {
    hide Run;
    RunOrderly(steps);
  }

  // ---------------------------------------------------------------------------
  // The object
  // ---------------------------------------------------------------------------

  /** The mailbox's arrays. */
  class MailboxObject {
    var queue: seq<Event>
    var waiters: seq<CallId>
    var ended: Option<Ending>
    var status: seq<Status>
    ghost var arrived: seq<Event>

    ghost function State(): Mailbox
      reads this
    {
      Mailbox(queue, waiters, ended, status, arrived)
    }

    constructor ()
      ensures State() == Empty()
    {
      queue, waiters, ended, status, arrived := [], [], None, [], [];
    }

    method Push(event: Event)
      modifies this
      ensures State() == Next(old(State()), Arrive(event))
    {
      arrived := arrived + [event];
      if waiters != [] {
        var waiting := waiters[0];
        waiters := waiters[1..];
        status := Settle(status, waiting, Got(event));
      } else {
        queue := queue + [event];
      }
    }

    method Receive() returns (call: CallId)
      modifies this
      ensures State() == Next(old(State()), Step.Receive) && call == |old(status)|
    {
      call := |status|;
      if queue != [] {
        status := status + [Got(queue[0])];
        queue := queue[1..];
      } else if ended.Some? {
        status := status + [Refused(ended.value)];
      } else {
        status := status + [Waiting];
        waiters := waiters + [call];
      }
    }

    method Expire(call: CallId)
      modifies this
      ensures State() == Next(old(State()), Step.Expire(call))
    {
      var i := IndexOf(waiters, call);
      if i.Some? {
        waiters := waiters[..i.value] + waiters[i.value + 1..];
        status := Settle(status, call, TimedOut);
      }
    }

    /** Refuses the waiting calls one by one. */
    method Stop(ending: Ending)
      modifies this
      ensures State() == Next(old(State()), Step.Stop(ending))
    {
      if ended.Some? {
        return;
      }
      ended := Some(ending);
      var splice := waiters;
      waiters := [];
      while splice != []
        invariant waiters == [] && ended == Some(ending)
        invariant queue == old(queue) && arrived == old(arrived)
        invariant RefuseAll(status, splice, ending) == RefuseAll(old(status), old(waiters), ending)
        decreases |splice|
      {
        status := Settle(status, splice[0], Refused(ending));
        splice := splice[1..];
      }
    }
  }
}
