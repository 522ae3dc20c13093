/**
  What becomes of the notes upstream sends to a session, and when they keep their order.

  A note that passed the filters is handed to a running segment, waits in the buffer, or is dropped: a
  tool output drains the buffer, and a completed turn among the buffered notes ends the segment before the
  notes behind it are reached. And a note that arrives while a segment runs overtakes what is still
  buffered. The two are exactly the ways in which a run loses the order of arrival.
 */
module BridgeDelivery {
  import opened Wrappers
  import opened ResponseSegments
  import opened BridgeState
  import opened BridgeOperations

  /** The buffer of the latest session, dead or alive. */
  function Rest(b: Bridge): seq<Note> {
    if b.session.Some? then b.session.value.buffered
    else if b.wire.dead != [] then b.wire.dead[|b.wire.dead| - 1].buffered
    else []
  }

  /** While the session lives, each of its notes is in one place. */
  ghost predicate Accounted(b: Bridge) {
    b.session.Some? ==>
      multiset(b.delivery.arrived) ==
      multiset(b.delivery.handed) + multiset(b.delivery.dropped) + multiset(b.session.value.buffered)
  }

  /** No note was dropped, and those handed out, followed by those buffered, came first and in this order. */
  ghost predicate InOrder(b: Bridge) {
    b.delivery.dropped == [] && b.delivery.handed + Rest(b) <= b.delivery.arrived
  }

  /** The notes and the buffer are as they were. */
  ghost predicate SameNotes(b: Bridge, c: Bridge) {
    && c.delivery.(mark := b.delivery.mark) == b.delivery && Rest(c) == Rest(b)
    && (c.session.Some? ==> b.session.Some?)
  }

  lemma SameNotesKept(b: Bridge, c: Bridge)
    requires SameNotes(b, c)
    ensures Accounted(b) ==> Accounted(c)
    ensures InOrder(b) <==> InOrder(c)
  {
  }

  lemma SameNotesTwice(b: Bridge, c: Bridge, d: Bridge)
    requires SameNotes(b, c) && SameNotes(c, d)
    ensures SameNotes(b, d)
  {
  }

  lemma FailNotes(b: Bridge, error: Fault)
    requires Sane(b)
    ensures SameNotes(b, Fail(b, error)) && Fail(b, error).session.None?
  {
    hide Fail, CancelAll;
  }

  lemma DriveFaultNotes(b: Bridge, oid: nat, fault: Option<Fault>)
    requires Sane(b)
    ensures SameNotes(b, DriveFault(b, oid, fault))
  {
    hide Fail, SameNotes;
    if fault.Some? {
      FailNotes(b, fault.value);
    }
    assert SameNotes(b, b) by { Unmoved(b); }
  }

  lemma Unmoved(b: Bridge)
    ensures SameNotes(b, b)
  {
  }

  lemma ReleaseNotes(b: Bridge)
    ensures SameNotes(b, Release(b)) && Release(b).session.None?
  {
    hide Release, CancelAll;
  }

  // ---------------------------------------------------------------------------
  // Draining the buffer
  // ---------------------------------------------------------------------------

  /** What a segment was handed of `notes`, and what was dropped behind it, unless an exception ended it all. */
  ghost predicate Poured(a: Delivery, notes: seq<Note>, e: Effect) {
    var d := e.bridge.delivery;
    var m := |d.handed| - |a.handed|;
    && 0 <= m <= |notes| && d.handed == a.handed + notes[..m]
    && d.dropped == a.dropped + (if e.fault.None? then notes[m..] else [])
    && d.arrived == a.arrived
  }

  /** Draining gets as far as note i, and past it, without an exception. */
  predicate Reaches(a: Bridge, notes: seq<Note>, i: nat)
    requires Sane(a) && i < |notes|
  {
    ConsumeAll(a, notes[..i + 1]).fault.None?
  }

  /** A completed turn is reached, without an exception before it, and a note stands behind it. */
  ghost predicate DropsIn(a: Bridge, notes: seq<Note>)
    requires Sane(a) && a.session.Some?
  {
    exists i :: 0 <= i < |notes| - 1 && Closes(a.session.value, notes[i]) && Reaches(a, notes, i)
  }

  /** A note ends the segment exactly when it closes the turn; else the session keeps its turn and calls. */
  lemma ClosesExactly(b: Bridge, n: Note)
    requires Good(b) && b.session.Some? && Generating(b) && HandOver(b, n).fault.None?
    ensures Closes(b.session.value, n) <==> !Generating(HandOver(b, n).bridge)
    ensures HandOver(b, n).bridge.session.Some?
    ensures Generating(HandOver(b, n).bridge) ==> HandOver(b, n).bridge.session == b.session
  {
    hide TextDeltaStep, CompleteMessage, Finish, Ends, Core;
  }

  lemma ConsumeAllSteps(b: Bridge, notes: seq<Note>)
    requires Sane(b) && notes != []
    ensures ConsumeAll(b, notes) ==
            if HandOver(b, notes[0]).fault.Some? then HandOver(b, notes[0])
            else ConsumeAll(HandOver(b, notes[0]).bridge, notes[1..])
  {
    hide HandOver;
  }

  lemma NotedLog(b: Bridge, n: Note)
    requires Sane(b)
    ensures var d := HandOver(b, n).bridge.delivery;
      && d.arrived == b.delivery.arrived
      && (b.session.Some? && Generating(b) ==>
            d.handed == b.delivery.handed + [n] && d.dropped == b.delivery.dropped)
      && (b.session.None? || !Generating(b) ==>
            HandOver(b, n).fault.None? && d.handed == b.delivery.handed && d.dropped == b.delivery.dropped + [n])
  {
    hide ConsumeNote, Ends;
  }

  /** Once no segment runs, all notes are dropped, and nothing else happens. */
  lemma {:induction false} FinishedDrops(b: Bridge, notes: seq<Note>)
    requires Sane(b) && !Generating(b)
    ensures ConsumeAll(b, notes) == Effect(b.(delivery := b.delivery.(dropped := b.delivery.dropped + notes)), None)
    decreases |notes|
  {
    if notes == [] {
      assert b.delivery.dropped + notes == b.delivery.dropped;
    } else {
      var c := HandOver(b, notes[0]).bridge;
      assert c == Noted(b, notes[0]);
      ConsumeAllSteps(b, notes);
      FinishedDrops(c, notes[1..]);
      assert b.delivery.dropped + [notes[0]] + notes[1..] == b.delivery.dropped + notes;
    }
  }

  lemma FinishedPours(b: Bridge, n: Note, notes: seq<Note>)
    requires Sane(b) && b.session.Some? && Generating(b) && notes != [] && notes[0] == n
    requires HandOver(b, n).fault.None? && !Generating(HandOver(b, n).bridge)
    ensures Poured(b.delivery, notes, ConsumeAll(b, notes))
    ensures ConsumeAll(b, notes).bridge.delivery.dropped == b.delivery.dropped + notes[1..]
    ensures ConsumeAll(b, notes[..1]).fault.None?
  {
    hide HandOver, ConsumeAll;
    var c := HandOver(b, n).bridge;
    NotedLog(b, n);
    ConsumeAllSteps(b, notes);
    FinishedDrops(c, notes[1..]);
    ConsumeAllSteps(b, notes[..1]);
    FinishedDrops(c, notes[..1][1..]);
    assert notes[..1] == [n];
  }

  lemma PouredSnoc(b: Bridge, c: Bridge, n: Note, notes: seq<Note>, e: Effect)
    requires notes != [] && notes[0] == n && Poured(c.delivery, notes[1..], e)
    requires c.delivery.arrived == b.delivery.arrived && c.delivery.dropped == b.delivery.dropped
    requires c.delivery.handed == b.delivery.handed + [n]
    ensures Poured(b.delivery, notes, e)
  {
    var m := |e.bridge.delivery.handed| - |c.delivery.handed|;
    assert notes[..m + 1] == [n] + notes[1..][..m];
    assert notes[m + 1..] == notes[1..][m..];
  }

  /** Draining drops a note exactly when a completed turn stands before another note. */
  lemma {:induction false} ConsumeAllPours(b: Bridge, notes: seq<Note>)
    requires Sane(b) && Good(b) && b.session.Some? && Generating(b)
    ensures Poured(b.delivery, notes, ConsumeAll(b, notes))
    ensures ConsumeAll(b, notes).bridge.delivery.dropped == b.delivery.dropped <==> !DropsIn(b, notes)
    decreases |notes|
  {
    hide HandOver, Good, Poured, ConsumeAll, Closes;
    if notes == [] {
      NothingPours(b, notes);
    } else {
      var r := HandOver(b, notes[0]);
      NotedLog(b, notes[0]);
      ConsumeAllSteps(b, notes);
      if r.fault.Some? {
        FaultPours(b, notes);
      } else if !Generating(r.bridge) {
        ClosesExactly(b, notes[0]);
        FinishedPours(b, notes[0], notes);
        LastDrops(b, notes);
      } else {
        ClosesExactly(b, notes[0]);
        HandOverHalfway(b, notes[0]);
        HalfwayGood(r);
        ConsumeAllPours(r.bridge, notes[1..]);
        PouredSnoc(b, r.bridge, notes[0], notes, ConsumeAll(r.bridge, notes[1..]));
        DropsLater(b, notes);
      }
    }
  }

  lemma HalfwayGood(e: Effect)
    requires Halfway(e) && e.fault.None?
    ensures Good(e.bridge)
  {
  }

  lemma NothingPours(b: Bridge, notes: seq<Note>)
    requires Sane(b) && b.session.Some? && notes == []
    ensures Poured(b.delivery, notes, ConsumeAll(b, notes)) && ConsumeAll(b, notes) == Effect(b, None) && !DropsIn(b, notes)
  {
    hide HandOver, Closes, Reaches;
    assert b.delivery.handed + [] == b.delivery.handed && b.delivery.dropped + [] == b.delivery.dropped;
  }

  lemma FaultPours(b: Bridge, notes: seq<Note>)
    requires Sane(b) && b.session.Some? && Generating(b) && notes != [] && HandOver(b, notes[0]).fault.Some?
    ensures Poured(b.delivery, notes, ConsumeAll(b, notes)) && !DropsIn(b, notes)
    ensures ConsumeAll(b, notes).bridge.delivery.dropped == b.delivery.dropped
  {
    hide HandOver, ConsumeAll, Closes;
    NotedLog(b, notes[0]);
    ConsumeAllSteps(b, notes);
    forall i | 0 <= i < |notes| ensures !Reaches(b, notes, i) {
      ConsumeAllSteps(b, notes[..i + 1]);
    }
  }

  /** The first note closed the turn. */
  lemma LastDrops(b: Bridge, notes: seq<Note>)
    requires Sane(b) && b.session.Some? && notes != [] && Closes(b.session.value, notes[0])
    requires ConsumeAll(b, notes[..1]).fault.None?
    ensures DropsIn(b, notes) <==> notes[1..] != []
  {
    hide ConsumeAll, Closes;
    if notes[1..] != [] {
      assert Closes(b.session.value, notes[0]) && Reaches(b, notes, 0);
    }
  }

  /** The first note left the session and the segment running. */
  lemma DropsLater(b: Bridge, notes: seq<Note>)
    requires Sane(b) && b.session.Some? && notes != [] && HandOver(b, notes[0]).fault.None?
    requires !Closes(b.session.value, notes[0]) && HandOver(b, notes[0]).bridge.session == b.session
    ensures DropsIn(b, notes) <==> DropsIn(HandOver(b, notes[0]).bridge, notes[1..])
  {
    hide ConsumeAll, HandOver, Closes;
    var c := HandOver(b, notes[0]).bridge;
    forall i | 0 < i < |notes| ensures Reaches(b, notes, i) == Reaches(c, notes[1..], i - 1) {
      ConsumeAllSteps(b, notes[..i + 1]);
      assert notes[..i + 1][1..] == notes[1..][..i];
    }
    if DropsIn(b, notes) {
      var i :| 0 <= i < |notes| - 1 && Closes(b.session.value, notes[i]) && Reaches(b, notes, i);
      assert Closes(c.session.value, notes[1..][i - 1]) && Reaches(c, notes[1..], i - 1);
    }
    if DropsIn(c, notes[1..]) {
      var i :| 0 <= i < |notes[1..]| - 1 && Closes(c.session.value, notes[1..][i]) && Reaches(c, notes[1..], i);
      assert Closes(b.session.value, notes[i + 1]) && Reaches(b, notes, i + 1);
    }
  }
}
