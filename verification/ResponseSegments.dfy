/**
  One HTTP response segment: the builder of the typed event stream that a client reads.

  A segment keeps an ordered list of output items and offers numbered events to a sink. The sink may
  refuse any event, and then the call in progress stops there. `Segment` is the state as a value, the
  functions below say what each call does to it, and class `ResponseSegment` is the object itself.
 */
module ResponseSegments {
  import opened Wrappers

  /** The errors a bridge operation can be rejected with. */
  datatype Fault =
    | SinkRefused
    | InvalidUpstreamEvent
    | InvalidToolCall
    | UnsupportedServerAction
    | UpstreamTurnFailed
    | UpstreamBufferLimit
    | ModelMismatch
    | RpcError
    | ClientDisconnected
    | GenerationTimeout
    | BridgeShutdown
    | CodexUnavailable

  /** An output item. Its identifier is fresh in the program; here it is the item's output index. */
  datatype Item =
    | Message(phase: Option<string>, text: string, completed: bool)
    | FunctionCall(callId: nat, name: string, arguments: string, completed: bool)
  {
    function Content(): string { if Message? then text else arguments }
  }

  datatype ResponseStatus = Streaming | Succeeded | Failed

  datatype Event =
    | Created(output: seq<Item>)
    | InProgress(output: seq<Item>)
    | ItemAdded(index: nat, item: Item)
    | PartAdded(index: nat, part: string)
    | TextDelta(index: nat, delta: string)
    | TextDone(index: nat, text: string)
    | PartDone(index: nat, part: string)
    | ArgumentsDelta(index: nat, delta: string)
    | ArgumentsDone(index: nat, arguments: string)
    | ItemDone(index: nat, item: Item)
    | ResponseCompleted(output: seq<Item>)
    | ResponseFailed(output: seq<Item>, error: Fault)

  /** An event as the sink sees it: numbered. */
  datatype Offer = Offer(number: nat, event: Event)

  /** Says, for each sequence number, whether the sink takes the event or throws. */
  type Sink = nat -> bool

  /** A completed upstream message. A `text` that is not a string is None. */
  datatype RawMessage = RawMessage(id: string, phase: Option<string>, text: Option<string>)

  /**
    The fields of a segment. `messages` maps upstream item ids to output indices in insertion order;
    `offered` is the log of everything the sink was shown.
   */
  datatype Segment = Segment(
    sequence: nat,
    messages: seq<(string, nat)>,
    doneItems: set<nat>,
    finished: bool,
    status: ResponseStatus,
    output: seq<Item>,
    offered: seq<Offer>)

  /** What a call leaves behind: the new state, and the exception it ended with, if any. */
  datatype Outcome = Outcome(seg: Segment, fault: Option<Fault>)

  const Fresh: Segment := Segment(0, [], {}, false, Streaming, [], [])

  // ---------------------------------------------------------------------------
  // The calls
  // ---------------------------------------------------------------------------

  function Emit(s: Segment, e: Event, sink: Sink): Outcome {
    Outcome(s.(sequence := s.sequence + 1, offered := s.offered + [Offer(s.sequence, e)]),
            if sink(s.sequence) then None else Some(SinkRefused))
  }

  function Start(s: Segment, sink: Sink): (r: Outcome)
    ensures r.seg.messages == s.messages && r.seg.output == s.output && r.seg.finished == s.finished
  {
    var r := Emit(s, Created(s.output), sink);
    if r.fault.Some? then r else Emit(r.seg, InProgress(r.seg.output), sink)
  }

  /** Position of an upstream item id in the insertion-ordered map, or its length when absent. */
  function Find(messages: seq<(string, nat)>, id: string): (k: nat)
    ensures k <= |messages|
    ensures k < |messages| ==> messages[k].0 == id
    ensures forall j :: 0 <= j < k ==> messages[j].0 != id
  {
    if messages == [] then 0
    else if messages[0].0 == id then 0
    else Find(messages[1..], id) + 1
  }

  predicate Known(s: Segment, id: string) { Find(s.messages, id) < |s.messages| }

  /** The output index of an upstream item, counting the item that OpenMessage would add. */
  function IndexOf(s: Segment, id: string): nat {
    if Known(s, id) then s.messages[Find(s.messages, id)].1 else |s.output|
  }

  /** `message(itemId, phase)`: looks an item up, or adds it and announces it. */
  function OpenMessage(s: Segment, id: string, phase: Option<string>, sink: Sink): Outcome {
    if Known(s, id) then Outcome(s, None)
    else
      var index := |s.output|;
      var item := Message(phase, "", false);
      var t := s.(output := s.output + [item], messages := s.messages + [(id, index)]);
      var r := Emit(t, ItemAdded(index, item), sink);
      if r.fault.Some? then r else Emit(r.seg, PartAdded(index, ""), sink)
  }

  /** Items addressed through `messages` are messages of the output. */
  predicate Indexed(s: Segment) {
    && (forall k :: 0 <= k < |s.messages| ==>
          s.messages[k].1 < |s.output| && s.output[s.messages[k].1].Message?)
  }

  function WithText(s: Segment, index: nat, text: string): (t: Segment)
    requires index < |s.output| && s.output[index].Message?
    ensures Indexed(s) ==> Indexed(t)
  {
    s.(output := s.output[index := s.output[index].(text := text)])
  }

  lemma OpenMessageIndexed(s: Segment, id: string, phase: Option<string>, sink: Sink)
    requires Indexed(s)
    ensures var r := OpenMessage(s, id, phase, sink);
      && Indexed(r.seg)
      && IndexOf(s, id) < |r.seg.output|
      && r.seg.output[IndexOf(s, id)].Message?
  {
  }

  function TextDeltaStep(s: Segment, id: string, delta: string, sink: Sink): (r: Outcome)
    requires Indexed(s)
    ensures Indexed(r.seg)
    ensures |s.output| <= |r.seg.output|
    ensures forall i :: 0 <= i < |s.output| && s.output[i].Message? ==> r.seg.output[i].Message?
    ensures r.seg.finished == s.finished && r.seg.doneItems == s.doneItems
  {
    if s.finished || delta == "" then Outcome(s, None)
    else
      var index := IndexOf(s, id);
      var entry := OpenMessage(s, id, None, sink);
      OpenMessageIndexed(s, id, None, sink);
      if entry.fault.Some? then entry
      else if index in entry.seg.doneItems then Outcome(entry.seg, Some(InvalidUpstreamEvent))
      else
        var t := WithText(entry.seg, index, entry.seg.output[index].text + delta);
        Emit(t, TextDelta(index, delta), sink)
  }

  /** `finishMessage`: closes one message item, once. */
  function FinishMessage(s: Segment, index: nat, sink: Sink): (r: Outcome)
    requires Indexed(s) && index < |s.output| && s.output[index].Message?
    ensures Indexed(r.seg) && |r.seg.output| == |s.output| && r.seg.messages == s.messages
    ensures r.seg.finished == s.finished
  {
    if index in s.doneItems then Outcome(s, None)
    else
      var item := Message(s.output[index].phase, s.output[index].text, true);
      var t := s.(doneItems := s.doneItems + {index}, output := s.output[index := item]);
      var r := Emit(t, TextDone(index, item.text), sink);
      if r.fault.Some? then r
      else
        var q := Emit(r.seg, PartDone(index, item.text), sink);
        if q.fault.Some? then q else Emit(q.seg, ItemDone(index, item), sink)
  }

  function WithPhase(s: Segment, index: nat, phase: Option<string>): (t: Segment)
    requires index < |s.output| && s.output[index].Message?
    ensures Indexed(s) ==> Indexed(t)
    ensures |t.output| == |s.output| && t.output[index].Message?
  {
    if phase.None? then s else s.(output := s.output[index := s.output[index].(phase := phase)])
  }

  /** `completeMessage(raw)`: sends what is missing of the text, then closes the item. */
  function CompleteMessage(s: Segment, raw: RawMessage, sink: Sink): (r: Outcome)
    requires Indexed(s)
    ensures Indexed(r.seg) && r.seg.finished == s.finished
  {
    if s.finished then Outcome(s, None)
    else
      var index := IndexOf(s, raw.id);
      var entry := OpenMessage(s, raw.id, raw.phase, sink);
      OpenMessageIndexed(s, raw.id, raw.phase, sink);
      if entry.fault.Some? then entry
      else if index in entry.seg.doneItems then Outcome(entry.seg, None)
      else
        var current := entry.seg.output[index].text;
        if raw.text.None? || !(current <= raw.text.value) then Outcome(entry.seg, Some(InvalidUpstreamEvent))
        else
          var sent := TextDeltaStep(entry.seg, raw.id, raw.text.value[|current|..], sink);
          if sent.fault.Some? then sent
          else FinishMessage(WithPhase(sent.seg, index, raw.phase), index, sink)
  }

  /** `toolCall`: adds, fills and closes a function call item. */
  function ToolCall(s: Segment, callId: nat, name: string, args: string, sink: Sink): (r: Outcome)
    requires Indexed(s)
    ensures Indexed(r.seg) && r.seg.finished == s.finished
  {
    var index := |s.output|;
    var item := FunctionCall(callId, name, "", false);
    var r0 := Emit(s.(output := s.output + [item]), ItemAdded(index, item), sink);
    if r0.fault.Some? then r0
    else
      var filled := FunctionCall(callId, name, args, false);
      var r1 := Emit(r0.seg.(output := r0.seg.output[index := filled]), ArgumentsDelta(index, args), sink);
      if r1.fault.Some? then r1
      else
        var r2 := Emit(r1.seg, ArgumentsDone(index, args), sink);
        if r2.fault.Some? then r2
        else
          var closed := FunctionCall(callId, name, args, true);
          Emit(r2.seg.(output := r2.seg.output[index := closed]), ItemDone(index, closed), sink)
  }

  /** The loop of `finish`: closes the messages from position k on. */
  function FinishFrom(s: Segment, k: nat, sink: Sink): (r: Outcome)
    requires Indexed(s) && k <= |s.messages|
    ensures Indexed(r.seg) && r.seg.finished == s.finished
    decreases |s.messages| - k
  {
    if k == |s.messages| then Outcome(s, None)
    else
      var r := FinishMessage(s, s.messages[k].1, sink);
      if r.fault.Some? then r else FinishFrom(r.seg, k + 1, sink)
  }

  function Finish(s: Segment, sink: Sink): (r: Outcome)
    requires Indexed(s)
    ensures Indexed(r.seg) && (r.fault.None? ==> r.seg.finished)
  {
    if s.finished then Outcome(s, None)
    else
      var r := FinishFrom(s, 0, sink);
      if r.fault.Some? then r
      else Emit(r.seg.(finished := true, status := Succeeded), ResponseCompleted(r.seg.output), sink)
  }

  function Abandon(s: Segment, error: Fault, sink: Sink): (r: Outcome)
    ensures Indexed(s) ==> Indexed(r.seg)
    ensures r.seg.finished
  {
    if s.finished then Outcome(s, None)
    else Emit(s.(finished := true, status := Failed), ResponseFailed(s.output, error), sink)
  }

  // ---------------------------------------------------------------------------
  // The object
  // ---------------------------------------------------------------------------

  /**
    The segment object. An exception of the sink is the out-parameter `fault`; a method that meets one
    returns at once, as the original does.
   */
  class ResponseSegment {
    var sequence: nat
    var messages: seq<(string, nat)>
    var doneItems: set<nat>
    var finished: bool
    var status: ResponseStatus
    var output: seq<Item>
    var offered: seq<Offer>
    const sink: Sink

    constructor (sink: Sink)
      ensures State() == Fresh && this.sink == sink
    {
      this.sink := sink;
      sequence, messages, doneItems, finished := 0, [], {}, false;
      status, output, offered := Streaming, [], [];
    }

    ghost function State(): Segment
      reads this
    {
      Segment(sequence, messages, doneItems, finished, status, output, offered)
    }

    method Send(e: Event) returns (fault: Option<Fault>)
      modifies this`sequence, this`offered
      ensures Outcome(State(), fault) == Emit(old(State()), e, sink)
    {
      offered := offered + [Offer(sequence, e)];
      sequence := sequence + 1;
      fault := if sink(sequence - 1) then None else Some(SinkRefused);
    }

    method Begin() returns (fault: Option<Fault>)
      modifies this
      ensures Outcome(State(), fault) == Start(old(State()), sink)
    {
      fault := Send(Created(output));
      if fault.None? {
        fault := Send(InProgress(output));
      }
    }

    method Locate(id: string) returns (k: nat)
      ensures k == Find(messages, id)
    {
      k := 0;
      while k < |messages| && messages[k].0 != id
        invariant k <= |messages|
        invariant Find(messages, id) == k + Find(messages[k..], id)
      {
        assert messages[k..][1..] == messages[k + 1..];
        k := k + 1;
      }
    }

    method EnsureMessage(id: string, phase: Option<string>) returns (index: nat, fault: Option<Fault>)
      modifies this
      ensures Outcome(State(), fault) == OpenMessage(old(State()), id, phase, sink)
      ensures index == IndexOf(old(State()), id)
    {
      var k := Locate(id);
      if k < |messages| {
        return messages[k].1, None;
      }
      index := |output|;
      var item := Message(phase, "", false);
      output := output + [item];
      messages := messages + [(id, index)];
      fault := Send(ItemAdded(index, item));
      if fault.None? {
        fault := Send(PartAdded(index, ""));
      }
    }

    method AppendText(id: string, delta: string) returns (fault: Option<Fault>)
      requires Indexed(State())
      modifies this
      ensures Outcome(State(), fault) == TextDeltaStep(old(State()), id, delta, sink)
    {
      if finished || delta == "" {
        return None;
      }
      OpenMessageIndexed(State(), id, None, sink);
      var index;
      index, fault := EnsureMessage(id, None);
      if fault.Some? {
        return;
      }
      if index in doneItems {
        return Some(InvalidUpstreamEvent);
      }
      output := output[index := output[index].(text := output[index].text + delta)];
      fault := Send(TextDelta(index, delta));
    }

    method CloseMessage(index: nat) returns (fault: Option<Fault>)
      requires Indexed(State()) && index < |output| && output[index].Message?
      modifies this
      ensures Outcome(State(), fault) == FinishMessage(old(State()), index, sink)
    {
      if index in doneItems {
        return None;
      }
      doneItems := doneItems + {index};
      var item := Message(output[index].phase, output[index].text, true);
      output := output[index := item];
      fault := Send(TextDone(index, item.text));
      if fault.None? {
        fault := Send(PartDone(index, item.text));
      }
      if fault.None? {
        fault := Send(ItemDone(index, item));
      }
    }

    method Complete(raw: RawMessage) returns (fault: Option<Fault>)
      requires Indexed(State())
      modifies this
      ensures Outcome(State(), fault) == CompleteMessage(old(State()), raw, sink)
    {
      if finished {
        return None;
      }
      OpenMessageIndexed(State(), raw.id, raw.phase, sink);
      var index;
      index, fault := EnsureMessage(raw.id, raw.phase);
      if fault.Some? || index in doneItems {
        return;
      }
      var current := output[index].text;
      if raw.text.None? || !(current <= raw.text.value) {
        return Some(InvalidUpstreamEvent);
      }
      fault := AppendText(raw.id, raw.text.value[|current|..]);
      if fault.Some? {
        return;
      }
      if raw.phase.Some? {
        output := output[index := output[index].(phase := raw.phase)];
      }
      fault := CloseMessage(index);
    }

    method Call(callId: nat, name: string, args: string) returns (fault: Option<Fault>)
      requires Indexed(State())
      modifies this
      ensures Outcome(State(), fault) == ToolCall(old(State()), callId, name, args, sink)
    {
      var index := |output|;
      output := output + [FunctionCall(callId, name, "", false)];
      fault := Send(ItemAdded(index, output[index]));
      if fault.Some? {
        return;
      }
      output := output[index := FunctionCall(callId, name, args, false)];
      fault := Send(ArgumentsDelta(index, args));
      if fault.Some? {
        return;
      }
      fault := Send(ArgumentsDone(index, args));
      if fault.Some? {
        return;
      }
      output := output[index := FunctionCall(callId, name, args, true)];
      fault := Send(ItemDone(index, output[index]));
    }

    method End() returns (fault: Option<Fault>)
      requires Indexed(State())
      modifies this
      ensures Outcome(State(), fault) == Finish(old(State()), sink)
    {
      if finished {
        return None;
      }
      fault := None;
      var k := 0;
      while k < |messages| && fault.None?
        invariant k <= |messages| && Indexed(State()) && finished == old(finished)
        invariant FinishFrom(old(State()), 0, sink) ==
                  if fault.None? then FinishFrom(State(), k, sink) else Outcome(State(), fault)
      {
        fault := CloseMessage(messages[k].1);
        k := k + 1;
      }
      if fault.None? {
        finished, status := true, Succeeded;
        fault := Send(ResponseCompleted(output));
      }
    }

    method Fail(error: Fault) returns (fault: Option<Fault>)
      modifies this
      ensures Outcome(State(), fault) == Abandon(old(State()), error, sink)
    {
      if finished {
        return None;
      }
      finished, status := true, Failed;
      fault := Send(ResponseFailed(output, error));
    }
  }
}
