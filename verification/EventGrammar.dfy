/**
  What a well-formed event stream is, said without reference to how a segment produces one.

  `Read` runs a small automaton over the numbered events. The lemmas turn its verdict into plain
  statements: events are numbered 0, 1, 2, ..., created and in_progress come first, output indices are
  added in order, an item is done at most once and its deltas concatenate to its final content, and
  nothing follows a terminal event.
 */
module EventGrammar {
  import opened Wrappers
  import opened ResponseSegments

  datatype Stage = Unopened | Filling | TextClosed | PartClosed | ItemClosed

  /** One output item as a reader of the stream knows it. */
  datatype Seen = Seen(added: Item, stage: Stage, content: string, final: Option<Item>)

  datatype Phase = Silent | Announced | Running | Ended

  datatype Reader = Reader(phase: Phase, items: seq<Seen>)

  predicate At(r: Reader, index: nat, message: bool, stage: Stage) {
    r.phase == Running && index < |r.items| && r.items[index].added.Message? == message && r.items[index].stage == stage
  }

  /** A done item is the item that was added: its kind, call id and name never change. */
  predicate SameItem(added: Item, done: Item) {
    if added.Message? then done.Message?
    else done.FunctionCall? && done.callId == added.callId && done.name == added.name
  }

  function Advance(r: Reader, e: Event): Option<Reader> {
    match e
    case Created(output) =>
      if r.phase == Silent && output == [] then Some(r.(phase := Announced)) else None
    case InProgress(output) =>
      if r.phase == Announced && output == [] then Some(r.(phase := Running)) else None
    case ItemAdded(index, item) =>
      if r.phase == Running && index == |r.items| && item.Content() == "" && !item.completed
      then Some(r.(items := r.items + [Seen(item, if item.Message? then Unopened else Filling, "", None)]))
      else None
    case PartAdded(index, part) =>
      if At(r, index, true, Unopened) && part == ""
      then Some(r.(items := r.items[index := r.items[index].(stage := Filling)])) else None
    case TextDelta(index, delta) =>
      if At(r, index, true, Filling) && delta != ""
      then Some(r.(items := r.items[index := r.items[index].(content := r.items[index].content + delta)])) else None
    case ArgumentsDelta(index, delta) =>
      if At(r, index, false, Filling)
      then Some(r.(items := r.items[index := r.items[index].(content := r.items[index].content + delta)])) else None
    case TextDone(index, text) =>
      if At(r, index, true, Filling) && text == r.items[index].content
      then Some(r.(items := r.items[index := r.items[index].(stage := TextClosed)])) else None
    case PartDone(index, part) =>
      if At(r, index, true, TextClosed) && part == r.items[index].content
      then Some(r.(items := r.items[index := r.items[index].(stage := PartClosed)])) else None
    case ArgumentsDone(index, arguments) =>
      if At(r, index, false, Filling) && arguments == r.items[index].content
      then Some(r.(items := r.items[index := r.items[index].(stage := PartClosed)])) else None
    case ItemDone(index, item) =>
      if At(r, index, item.Message?, PartClosed) && SameItem(r.items[index].added, item) && item.Content() == r.items[index].content && item.completed
      then Some(r.(items := r.items[index := r.items[index].(stage := ItemClosed, final := Some(item))])) else None
    case ResponseCompleted(output) =>
      if r.phase == Running && |output| == |r.items|
        && forall i :: 0 <= i < |output| ==> r.items[i].stage == ItemClosed && r.items[i].final == Some(output[i])
      then Some(r.(phase := Ended)) else None
    case ResponseFailed(_, _) =>
      if r.phase == Announced || r.phase == Running then Some(r.(phase := Ended)) else None
  }

  /** The verdict on a stream: None when it is not well formed. */
  function Read(offers: seq<Offer>): Option<Reader> {
    if offers == [] then Some(Reader(Silent, []))
    else
      var last := |offers| - 1;
      var r := Read(offers[..last]);
      if r.None? || offers[last].number != last then None else Advance(r.value, offers[last].event)
  }

  predicate WellFormed(offers: seq<Offer>) { Read(offers).Some? }

  lemma ReadSnoc(offers: seq<Offer>, o: Offer)
    ensures Read(offers + [o]) ==
            if Read(offers).None? || o.number != |offers| then None else Advance(Read(offers).value, o.event)
  {
    assert (offers + [o])[..|offers|] == offers;
  }

  /** Every prefix of a well-formed stream is one: a client that is cut off saw nothing wrong. */
  lemma {:induction false} PrefixWellFormed(offers: seq<Offer>, k: nat)
    requires WellFormed(offers) && k <= |offers|
    ensures WellFormed(offers[..k])
  {
    if k < |offers| {
      PrefixWellFormed(offers[..|offers| - 1], k);
      assert offers[..|offers| - 1][..k] == offers[..k];
    } else {
      assert offers[..k] == offers;
    }
  }

  // ---------------------------------------------------------------------------
  // What a well-formed stream looks like
  // ---------------------------------------------------------------------------

  predicate Terminal(e: Event) { e.ResponseCompleted? || e.ResponseFailed? }

  function DeltaFor(e: Event, index: nat): string {
    if e.TextDelta? && e.index == index then e.delta
    else if e.ArgumentsDelta? && e.index == index then e.delta
    else ""
  }

  /** All the deltas of one item, joined. */
  function Deltas(offers: seq<Offer>, index: nat): string {
    if offers == [] then ""
    else
      var e := offers[|offers| - 1].event;
      Deltas(offers[..|offers| - 1], index) + DeltaFor(e, index)
  }

  function CountAdded(offers: seq<Offer>, index: nat): nat {
    if offers == [] then 0
    else
      var e := offers[|offers| - 1].event;
      CountAdded(offers[..|offers| - 1], index) + if e.ItemAdded? && e.index == index then 1 else 0
  }

  function CountDone(offers: seq<Offer>, index: nat): nat {
    if offers == [] then 0
    else
      var e := offers[|offers| - 1].event;
      CountDone(offers[..|offers| - 1], index) + if e.ItemDone? && e.index == index then 1 else 0
  }

  /** What one event does to what the automaton remembers of one item. */
  lemma AdvanceMemory(r: Reader, e: Event, index: nat)
    requires Advance(r, e).Some?
    ensures var q := Advance(r, e).value;
      && |r.items| <= |q.items|
      && (index < |r.items| ==>
            && !(e.ItemAdded? && e.index == index)
            && q.items[index].content == r.items[index].content + DeltaFor(e, index)
            && (e.ItemDone? && e.index == index ==>
                  r.items[index].stage == PartClosed && q.items[index].stage == ItemClosed && q.items[index].final == Some(e.item)
                  && e.item.Content() == r.items[index].content)
            && (!(e.ItemDone? && e.index == index) ==>
                  q.items[index].final == r.items[index].final
                  && (q.items[index].stage == ItemClosed <==> r.items[index].stage == ItemClosed))
            && (r.items[index].stage == ItemClosed ==> DeltaFor(e, index) == ""))
      && (|r.items| <= index < |q.items| ==>
            e.ItemAdded? && e.index == index && q.items[index].content == "" && q.items[index].final.None?
            && q.items[index].stage != ItemClosed)
      && (|q.items| <= index ==>
            DeltaFor(e, index) == "" && !(e.ItemAdded? && e.index == index) && !(e.ItemDone? && e.index == index))
  {
  }

  /** The automaton's memory of an item is exactly what the stream said about it. */
  lemma {:induction false} ReaderMemory(offers: seq<Offer>, index: nat)
    requires WellFormed(offers)
    ensures var items := Read(offers).value.items;
      if index < |items| then
        && Deltas(offers, index) == items[index].content
        && CountAdded(offers, index) == 1
        && CountDone(offers, index) == (if items[index].stage == ItemClosed then 1 else 0)
        && (items[index].stage == ItemClosed <==> items[index].final.Some?)
        && (items[index].final.Some? ==> items[index].final.value.Content() == items[index].content)
      else
        Deltas(offers, index) == "" && CountAdded(offers, index) == 0 && CountDone(offers, index) == 0
  {
    hide Advance;
    if offers == [] {
      assert Read(offers) == Some(Reader(Silent, []));
    } else {
      var last := |offers| - 1;
      ReaderMemory(offers[..last], index);
      AdvanceMemory(Read(offers[..last]).value, offers[last].event, index);
    }
  }

  /** The snapshot remembered for a closed item is the one its done event carried. */
  lemma {:induction false} DoneSnapshot(offers: seq<Offer>, index: nat) returns (k: nat)
    requires WellFormed(offers) && index < |Read(offers).value.items| && Read(offers).value.items[index].final.Some?
    ensures k < |offers| && offers[k].event == ItemDone(index, Read(offers).value.items[index].final.value)
  {
    var last := |offers| - 1;
    if offers[last].event.ItemDone? && offers[last].event.index == index {
      k := last;
    } else {
      k := DoneSnapshot(offers[..last], index);
    }
  }

  /** The item the automaton knows is the one its added event announced, and it never becomes another. */
  lemma {:induction false} AddedSnapshot(offers: seq<Offer>, index: nat) returns (k: nat)
    requires WellFormed(offers) && index < |Read(offers).value.items|
    ensures var seen := Read(offers).value.items[index];
      && k < |offers| && offers[k].event == ItemAdded(index, seen.added)
      && seen.added.Content() == "" && !seen.added.completed
      && (seen.final.Some? ==> SameItem(seen.added, seen.final.value) && seen.final.value.completed)
  {
    var last := |offers| - 1;
    if offers[last].event.ItemAdded? && offers[last].event.index == index {
      k := last;
    } else {
      k := AddedSnapshot(offers[..last], index);
    }
  }

  /** The arguments of a closed function call were announced as done. */
  lemma {:induction false} ArgumentsSnapshot(offers: seq<Offer>, index: nat) returns (k: nat)
    requires WellFormed(offers) && index < |Read(offers).value.items|
    requires var seen := Read(offers).value.items[index];
      seen.added.FunctionCall? && (seen.stage == PartClosed || seen.stage == ItemClosed)
    ensures k < |offers| && offers[k].event == ArgumentsDone(index, Read(offers).value.items[index].content)
  {
    var last := |offers| - 1;
    if offers[last].event.ArgumentsDone? && offers[last].event.index == index {
      k := last;
    } else {
      k := ArgumentsSnapshot(offers[..last], index);
    }
  }

  /** A function call in a stream: announced empty, filled by deltas, its arguments done, and done. */
  ghost predicate CallShown(offers: seq<Offer>, index: nat, callId: nat, name: string, args: string) {
    && CountAdded(offers, index) == 1 && CountDone(offers, index) == 1 && Deltas(offers, index) == args
    && (exists k :: 0 <= k < |offers| && offers[k].event == ItemAdded(index, FunctionCall(callId, name, "", false)))
    && (exists k :: 0 <= k < |offers| && offers[k].event == ArgumentsDone(index, args))
    && (exists k :: 0 <= k < |offers| && offers[k].event == ItemDone(index, FunctionCall(callId, name, args, true)))
  }

  /** Every function call in the output of a completed stream was shown so. */
  lemma CompletedCall(offers: seq<Offer>, output: seq<Item>, i: nat)
    requires WellFormed(offers) && offers != [] && offers[|offers| - 1].event == ResponseCompleted(output)
    requires i < |output| && output[i].FunctionCall?
    ensures output[i].completed && CallShown(offers, i, output[i].callId, output[i].name, output[i].arguments)
  {
    CompletedReader(offers, output);
    hide Read;
    ReaderMemory(offers, i);
    var a := AddedSnapshot(offers, i);
    var m := ArgumentsSnapshot(offers, i);
    var d := DoneSnapshot(offers, i);
  }

  lemma ReadLast(offers: seq<Offer>)
    requires offers != [] && WellFormed(offers)
    ensures var last := |offers| - 1;
      && WellFormed(offers[..last]) && offers[last].number == last
      && Read(offers) == Advance(Read(offers[..last]).value, offers[last].event)
  {
  }

  /** What one event does to the phase. */
  lemma AdvancePhase(r: Reader, e: Event)
    requires Advance(r, e).Some?
    ensures var q := Advance(r, e).value;
      && r.phase != Ended && q.phase != Silent
      && (q.phase == Ended <==> Terminal(e))
      && (q.phase == Announced <==> r.phase == Silent)
      && (r.phase == Silent ==> e == Created([]))
      && (r.phase == Announced && !Terminal(e) ==> e == InProgress([]))
  {
  }

  /** Numbering, the two opening events, and silence after a terminal event. */
  lemma {:induction false} StreamShape(offers: seq<Offer>)
    requires WellFormed(offers)
    ensures forall i :: 0 <= i < |offers| ==> offers[i].number == i
    ensures |offers| > 0 ==> offers[0].event == Created([])
    ensures |offers| > 1 && !Terminal(offers[1].event) ==> offers[1].event == InProgress([])
    ensures forall i :: 0 <= i < |offers| && Terminal(offers[i].event) ==> i == |offers| - 1
    ensures Read(offers).value.phase == Ended <==> offers != [] && Terminal(offers[|offers| - 1].event)
    ensures Read(offers).value.phase == Silent <==> offers == []
    ensures Read(offers).value.phase == Announced <==> |offers| == 1
  {
    if offers == [] {
      assert Read(offers) == Some(Reader(Silent, []));
    } else {
      var before := offers[..|offers| - 1];
      ReadLast(offers);
      hide Advance, Read;
      StreamShape(before);
      AdvancePhase(Read(before).value, offers[|offers| - 1].event);
      assert forall i :: 0 <= i < |before| ==> before[i] == offers[i];
    }
  }

  /** The reader of a completed stream knows every item of the output as closed, with its final snapshot. */
  lemma CompletedReader(offers: seq<Offer>, output: seq<Item>)
    requires WellFormed(offers) && offers != [] && offers[|offers| - 1].event == ResponseCompleted(output)
    ensures |Read(offers).value.items| == |output|
    ensures forall i :: 0 <= i < |output| ==>
      Read(offers).value.items[i].stage == ItemClosed && Read(offers).value.items[i].final == Some(output[i])
  {
  }

  /**
    A stream that ends in response.completed: the output array is the list of done snapshots, every item
    was added once and done once, and its deltas concatenate to its final content.
   */
  lemma CompletedStream(offers: seq<Offer>, output: seq<Item>)
    requires WellFormed(offers) && offers != [] && offers[|offers| - 1].event == ResponseCompleted(output)
    ensures forall i :: 0 <= i < |output| ==>
      && CountAdded(offers, i) == 1 && CountDone(offers, i) == 1
      && Deltas(offers, i) == output[i].Content()
    ensures CountAdded(offers, |output|) == 0
    ensures forall i :: 0 <= i < |output| ==> exists k :: 0 <= k < |offers| && offers[k].event == ItemDone(i, output[i])
  {
    CompletedReader(offers, output);
    hide *;
    forall i | 0 <= i < |output|
      ensures CountAdded(offers, i) == 1 && CountDone(offers, i) == 1 && Deltas(offers, i) == output[i].Content()
      ensures exists k :: 0 <= k < |offers| && offers[k].event == ItemDone(i, output[i])
    {
      ReaderMemory(offers, i);
      var k := DoneSnapshot(offers, i);
    }
    ReaderMemory(offers, |output|);
  }
}
