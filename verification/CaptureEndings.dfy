/**
  How a captured flow ends: by the first callback that ends it, for that callback's reason.

  Which callback ends a flow is told by the callback and by what the flow was last said to be, a WebSocket or
  not, without reference to the add-on.
 */
module CaptureEndings {
  import opened Wrappers
  import opened CaptureVaults
  import opened CaptureAddons
  import opened CaptureSessions
  import opened CaptureStories

  /** Whether the latest word on flow g, response headers or a WebSocket's start, takes it for a WebSocket. */
  function IsSocket(steps: seq<Step>, g: FlowId): bool {
    if steps == [] then false
    else
      var s := steps[|steps| - 1];
      if Begins(s, g) then false
      else if s.ResponseHead? && s.id == g then s.upgrade
      else if s.SocketStart? && s.id == g then true
      else IsSocket(steps[..|steps| - 1], g)
  }

  /** Callback k would end flow g, were it running. */
  ghost predicate EndsAt(steps: seq<Step>, g: FlowId, k: nat) {
    k < |steps| && EndOf(steps[k], g, IsSocket(steps[..k], g)).Some?
  }

  /** Callback k is the first after the flow began, in callback `from`, that ends it. */
  ghost predicate FirstEnd(steps: seq<Step>, g: FlowId, from: nat, k: nat) {
    from < k && EndsAt(steps, g, k) && forall j :: from < j < k ==> !EndsAt(steps, g, j)
  }

  ghost predicate NeverEnds(steps: seq<Step>, g: FlowId, from: nat) {
    forall j :: from < j < |steps| ==> !EndsAt(steps, g, j)
  }

  /** The reasons of terminal records, in order. */
  function Reasons(story: seq<FlowEvent>): seq<Reason> {
    if story == [] then []
    else
      var e := story[|story| - 1];
      Reasons(story[..|story| - 1]) + (if e.FlowTerminal? then [e.reason] else [])
  }

  lemma {:induction false} ReasonsJoin(a: seq<FlowEvent>, b: seq<FlowEvent>)
    ensures Reasons(a + b) == Reasons(a) + Reasons(b)
  {
    if b == [] {
      assert a + b == a;
    } else {
      ReasonsJoin(a, b[..|b| - 1]);
      assert (a + b)[..|a + b| - 1] == a + b[..|b| - 1];
    }
  }

  /** One callback's terminal records: one if it ends the flow. */
  lemma AddsReasons(l: Life, ids: seq<FlowId>, s: Step, g: FlowId)
    ensures Reasons(Adds(l, ids, s, g)) ==
      if Begins(s, g) || !l.running || EndOf(s, g, l.socket).None? then [] else [EndOf(s, g, l.socket).value]
    ensures After(l, ids, s, g).running == (Begins(s, g) || (l.running && EndOf(s, g, l.socket).None?))
  {
    hide Reasons;
    if !Begins(s, g) && !Feeds(l, ids, s, g) && l.running {
      var t := TerminalOf(EndOf(s, g, l.socket), After(l, ids, s, g));
      NotesReasons(l, s, g);
      ReasonsJoin(Notes(l, s, g), t);
      if t == [] {
        NoReasons();
      } else {
        ReasonOfOne(t[0]);
      }
    } else {
      ChunkReasons(l, ids, s, g);
    }
  }

  lemma ChunkReasons(l: Life, ids: seq<FlowId>, s: Step, g: FlowId)
    requires Begins(s, g) || Feeds(l, ids, s, g) || !l.running
    ensures Reasons(Adds(l, ids, s, g)) == []
  {
    hide Reasons;
    var adds := Adds(l, ids, s, g);
    if |adds| == 2 {
      ReasonsOfTwo(adds[0], adds[1]);
    } else if |adds| == 1 {
      ReasonOfOne(adds[0]);
    } else {
      NoReasons();
    }
  }

  lemma NoReasons()
    ensures Reasons([]) == []
  {
  }

  lemma ReasonOfOne(e: FlowEvent)
    ensures Reasons([e]) == if e.FlowTerminal? then [e.reason] else []
  {
    assert [e][..0] == [];
  }

  lemma ReasonsOfTwo(e: FlowEvent, f: FlowEvent)
    ensures Reasons([e, f]) == Reasons([e]) + Reasons([f])
    ensures Reasons([e]) == if e.FlowTerminal? then [e.reason] else []
    ensures Reasons([f]) == if f.FlowTerminal? then [f.reason] else []
  {
    ReasonOfOne(e);
    ReasonOfOne(f);
    assert [e] + [f] == [e, f];
    ReasonsJoin([e], [f]);
  }

  lemma NotesReasons(l: Life, s: Step, g: FlowId)
    ensures Reasons(Notes(l, s, g)) == []
  {
    hide Reasons;
    var notes := Notes(l, s, g);
    if |notes| == 2 {
      ReasonsOfTwo(notes[0], notes[1]);
    } else if |notes| == 1 {
      ReasonOfOne(notes[0]);
    } else {
      NoReasons();
    }
  }

  /** While a flow runs it is taken for what the latest word on it says. */
  lemma {:induction false} SocketTold(steps: seq<Step>, g: FlowId)
    ensures LifeOf(steps, g).running ==> LifeOf(steps, g).socket == IsSocket(steps, g)
  {
    if steps != [] {
      var before, s := steps[..|steps| - 1], steps[|steps| - 1];
      SocketTold(before, g);
      AddsReasons(LifeOf(before, g), Announced(before), s, g);
    }
  }

  /** A flow that did not begin does not run and has no terminal record. */
  lemma {:induction false} NotBegun(steps: seq<Step>, g: FlowId)
    requires forall j :: 0 <= j < |steps| ==> !Begins(steps[j], g)
    ensures !LifeOf(steps, g).running && Reasons(Story(steps, g)) == []
  {
    if steps != [] {
      var before, s := steps[..|steps| - 1], steps[|steps| - 1];
      NotBegun(before, g);
      AddsReasons(LifeOf(before, g), Announced(before), s, g);
      ReasonsJoin(Story(before, g), Adds(LifeOf(before, g), Announced(before), s, g));
    }
  }

  ghost predicate BeginsOnce(steps: seq<Step>, g: FlowId, from: nat) {
    from < |steps| && forall j :: 0 <= j < |steps| ==> (Begins(steps[j], g) <==> j == from)
  }

  /** There is one reason, that of callback k. */
  predicate ReasonAt(steps: seq<Step>, g: FlowId, k: nat, reasons: seq<Reason>) {
    k < |steps| && |reasons| == 1 && EndOf(steps[k], g, IsSocket(steps[..k], g)) == Some(reasons[0])
  }

  /** The flow runs while nothing ended it, and its one terminal record gives the reason of its first end. */
  ghost predicate EndsTold(steps: seq<Step>, g: FlowId, from: nat) {
    && (LifeOf(steps, g).running <==> NeverEnds(steps, g, from))
    && (NeverEnds(steps, g, from) ==> Reasons(Story(steps, g)) == [])
    && (forall k: nat | FirstEnd(steps, g, from, k) :: ReasonAt(steps, g, k, Reasons(Story(steps, g))))
  }

  lemma {:induction false} EndTold(steps: seq<Step>, g: FlowId, from: nat)
    requires BeginsOnce(steps, g, from)
    ensures EndsTold(steps, g, from)
    decreases |steps|
  {
    var before := steps[..|steps| - 1];
    hide EndsTold, LifeOf, Story, Begins;
    if from == |steps| - 1 {
      JustBegun(steps, g);
    } else {
      assert BeginsOnce(before, g, from);
      EndTold(before, g, from);
      ToldOn(steps, g, from);
    }
  }

  lemma JustBegun(steps: seq<Step>, g: FlowId)
    requires steps != [] && BeginsOnce(steps, g, |steps| - 1)
    ensures EndsTold(steps, g, |steps| - 1)
  {
    hide LifeOf, Story, Reasons, EndOf, IsSocket, Begins;
    StoryStep(steps, g);
    NotBegun(steps[..|steps| - 1], g);
    assert Begins(steps[|steps| - 1], g);
  }

  /** One more callback, after the one in which the flow began. */
  lemma ToldOn(steps: seq<Step>, g: FlowId, from: nat)
    requires from < |steps| - 1 && !Begins(steps[|steps| - 1], g) && EndsTold(steps[..|steps| - 1], g, from)
    ensures EndsTold(steps, g, from)
  {
    hide LifeOf, Story, Reasons, EndOf, IsSocket, Begins, NeverEnds, FirstEnd, EndsAt;
    var before := steps[..|steps| - 1];
    var l := LifeOf(before, g);
    StoryStep(steps, g);
    SocketTold(before, g);
    EndsBefore(steps, g, from);
    EndLast(steps, g, from, l.running, l.socket);
    forall k: nat | FirstEnd(steps, g, from, k)
      ensures ReasonAt(steps, g, k, Reasons(Story(steps, g)))
    {
      FirstWithin(steps, g, from, k);
      if l.running {
        assert steps[..k] == before;
      } else {
        FirstWithin(before, g, from, k);
      }
    }
  }

  /** What one callback does to a flow's run and to its terminal records. */
  lemma StoryStep(steps: seq<Step>, g: FlowId)
    requires steps != []
    ensures var before, s := steps[..|steps| - 1], steps[|steps| - 1];
      var l := LifeOf(before, g);
      var reason := if Begins(s, g) || !l.running then None else EndOf(s, g, l.socket);
      && LifeOf(steps, g).running == (Begins(s, g) || (l.running && reason.None?))
      && Reasons(Story(steps, g)) == Reasons(Story(before, g)) + (if reason.None? then [] else [reason.value])
  {
    var before, s := steps[..|steps| - 1], steps[|steps| - 1];
    var l := LifeOf(before, g);
    AddsReasons(l, Announced(before), s, g);
    ReasonsJoin(Story(before, g), Adds(l, Announced(before), s, g));
    hide Adds, After, Reasons, EndOf;
  }

  lemma FirstWithin(steps: seq<Step>, g: FlowId, from: nat, k: nat)
    requires FirstEnd(steps, g, from, k)
    ensures k < |steps| && EndOf(steps[k], g, IsSocket(steps[..k], g)).Some?
  {
  }

  lemma EndsBefore(steps: seq<Step>, g: FlowId, from: nat)
    requires steps != []
    ensures var before := steps[..|steps| - 1];
      && (forall k: nat :: k < |steps| - 1 ==> (EndsAt(steps, g, k) <==> EndsAt(before, g, k)) && steps[..k] == before[..k])
      && (EndsAt(steps, g, |steps| - 1) <==> EndOf(steps[|steps| - 1], g, IsSocket(before, g)).Some?)
  {
    assert forall k: nat :: k < |steps| - 1 ==> steps[..|steps| - 1][..k] == steps[..k];
  }

  lemma EndLast(steps: seq<Step>, g: FlowId, from: nat, running: bool, socket: bool)
    requires from < |steps| - 1
    requires var before := steps[..|steps| - 1];
      && (running <==> NeverEnds(before, g, from)) && (running ==> socket == IsSocket(before, g))
      && (forall k: nat :: k < |steps| - 1 ==> (EndsAt(steps, g, k) <==> EndsAt(before, g, k)) && steps[..k] == before[..k])
      && (EndsAt(steps, g, |steps| - 1) <==> EndOf(steps[|steps| - 1], g, IsSocket(before, g)).Some?)
    ensures NeverEnds(steps, g, from) <==> running && EndOf(steps[|steps| - 1], g, socket).None?
    ensures forall k: nat | FirstEnd(steps, g, from, k) ::
      if running then k == |steps| - 1 else FirstEnd(steps[..|steps| - 1], g, from, k)
  {
    hide EndOf, IsSocket;
  }

  /**
    In every run in which nothing fails, a flow that began in callback `from` is kept exactly while no callback
    has ended it; until then it has no terminal record, and from the first callback that ends it on it has one,
    whose reason is that callback's.
   */
  lemma EndedByFirst(x: Setting, name: string, steps: seq<Step>, g: FlowId, from: nat)
    requires Lawful(x.codec) && Begin(x.codec, name, x.disk(0)).ok && OwnIds(steps)
    requires Final(x, name, steps).failures == 0
    requires from < |steps| && Begins(steps[from], g)
    ensures var reasons := Reasons(Recorded(Final(x, name, steps).history, g));
      && (IsActive(Run(Started(Begin(x.codec, name, x.disk(0)).vault), x, steps), g) <==> NeverEnds(steps, g, from))
      && (NeverEnds(steps, g, from) ==> reasons == [])
      && (forall k: nat | FirstEnd(steps, g, from, k) :: ReasonAt(steps, g, k, reasons))
  {
    OwnStory(x, name, steps, g);
    hide Begin, Run, LifeOf, Story, Recorded, Reasons, EndOf, IsSocket;
    assert BeginsOnce(steps, g, from);
    EndTold(steps, g, from);
  }
}
