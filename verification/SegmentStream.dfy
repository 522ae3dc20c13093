/**
  Every segment offers a well-formed event stream, whatever the calls and whatever the sink refuses.

  `Clean` relates a segment that no call has failed on to the reader of its stream. A call keeps it, or
  ends with an exception and leaves a segment that is only `Sound`; from there `Abandon` closes the
  stream. The bridge does exactly that: every exception of a segment call ends in `fail`.
 */
module SegmentStream {
  import opened Wrappers
  import opened ResponseSegments
  import opened EventGrammar

  /** The offered events form a well-formed stream, ended exactly when the segment is finished. */
  ghost predicate Sound(s: Segment) {
    && WellFormed(s.offered)
    && s.sequence == |s.offered|
    && (s.finished <==> Read(s.offered).value.phase == Ended)
    && Indexed(s)
  }

  /** One output item agrees with what the reader of the stream knows about it. */
  ghost predicate Agrees(item: Item, seen: Seen, done: bool) {
    && SameItem(seen.added, item)
    && seen.content == item.Content()
    && item.completed == (seen.stage == ItemClosed)
    && (seen.stage == ItemClosed ==> seen.final == Some(item))
    && (if item.Message? then seen.stage == (if done then ItemClosed else Filling) else seen.stage == ItemClosed)
  }

  ghost predicate Listed(messages: seq<(string, nat)>, i: nat) {
    exists k :: 0 <= k < |messages| && messages[k].1 == i
  }

  /** The segment is running and every item, save perhaps item k, agrees with the stream. */
  ghost predicate CleanBut(s: Segment, k: nat) {
    && Sound(s)
    && !s.finished
    && Read(s.offered).value.phase == Running
    && |Read(s.offered).value.items| == |s.output|
    && (forall i :: 0 <= i < |s.output| && i != k ==>
          Agrees(s.output[i], Read(s.offered).value.items[i], i in s.doneItems))
    && (forall i :: 0 <= i < |s.output| && s.output[i].Message? ==> Listed(s.messages, i))
    && (forall i :: i in s.doneItems ==> i < |s.output|)
  }

  /** No call has failed: every item agrees with the stream. */
  ghost predicate Clean(s: Segment) {
    CleanBut(s, |s.output|)
  }

  /** What a call may do to a clean segment. */
  ghost predicate Keeps(r: Outcome) {
    if r.fault.None? then Clean(r.seg) else Sound(r.seg) && r.seg.offered != []
  }

  lemma EmitReads(s: Segment, e: Event, sink: Sink)
    requires WellFormed(s.offered) && s.sequence == |s.offered|
    ensures Read(Emit(s, e, sink).seg.offered) == Advance(Read(s.offered).value, e)
    ensures Emit(s, e, sink).seg.sequence == |Emit(s, e, sink).seg.offered|
  {
    ReadSnoc(s.offered, Offer(s.sequence, e));
  }

  lemma StartClean(sink: Sink)
    ensures Sound(Fresh)
    ensures Keeps(Start(Fresh, sink))
  {
    var r := Emit(Fresh, Created([]), sink);
    EmitReads(Fresh, Created([]), sink);
    EmitReads(r.seg, InProgress([]), sink);
  }

  /** An event about item k, sent after only item k was updated. */
  lemma Touch(s: Segment, t: Segment, k: nat, e: Event, sink: Sink) returns (q: Segment, reader: Reader)
    requires CleanBut(s, k) && k < |s.output| && !e.Created? && !e.InProgress? && !e.ItemAdded? && !Terminal(e)
    requires e.index == k && Advance(Read(s.offered).value, e).Some?
    requires t.offered == s.offered && t.sequence == s.sequence && t.finished == s.finished && t.messages == s.messages
    requires t.doneItems == s.doneItems || t.doneItems == s.doneItems + {k}
    requires |t.output| == |s.output| && t.output[k].Message? == s.output[k].Message?
    requires forall i :: 0 <= i < |s.output| && i != k ==> t.output[i] == s.output[i]
    ensures q == Emit(t, e, sink).seg && CleanBut(q, k)
    ensures reader == Advance(Read(s.offered).value, e).value && Read(q.offered) == Some(reader)
  {
    q := Emit(t, e, sink).seg;
    reader := Advance(Read(s.offered).value, e).value;
    EmitReads(t, e, sink);
  }

  /** A new item, announced. */
  lemma Announce(s: Segment, t: Segment, item: Item, id: string, sink: Sink) returns (q: Segment, reader: Reader)
    requires Clean(s) && item.Content() == "" && !item.completed
    requires t == s.(output := s.output + [item],
                     messages := if item.Message? then s.messages + [(id, |s.output|)] else s.messages)
    ensures q == Emit(t, ItemAdded(|s.output|, item), sink).seg && CleanBut(q, |s.output|)
    ensures Read(q.offered) == Some(reader)
    ensures reader.items[|s.output|] == Seen(item, if item.Message? then Unopened else Filling, "", None)
  {
    hide Read, Agrees;
    var n := |s.output|;
    q := Emit(t, ItemAdded(n, item), sink).seg;
    EmitReads(t, ItemAdded(n, item), sink);
    reader := Read(q.offered).value;
    forall i | 0 <= i <= n && t.output[i].Message? ensures Listed(t.messages, i) {
      if i < n {
        var k :| 0 <= k < |s.messages| && s.messages[k].1 == i;
        assert t.messages[k].1 == i;
      } else {
        assert t.messages[|s.messages|].1 == n;
      }
    }
  }

  lemma OpenMessageClean(s: Segment, id: string, phase: Option<string>, sink: Sink)
    requires Clean(s)
    ensures Keeps(OpenMessage(s, id, phase, sink))
    ensures OpenMessage(s, id, phase, sink).fault.None? ==>
      Known(OpenMessage(s, id, phase, sink).seg, id) && IndexOf(OpenMessage(s, id, phase, sink).seg, id) == IndexOf(s, id)
  {
    hide Read, Find, Listed;
    if !Known(s, id) {
      var n := |s.output|;
      var item := Message(phase, "", false);
      var t := s.(output := s.output + [item], messages := s.messages + [(id, n)]);
      FindBound(s.messages, id);
      FindSnoc(s.messages, id, n);
      var r, _ := Announce(s, t, item, id, sink);
      var _, _ := Touch(r, r, n, PartAdded(n, ""), sink);
    }
  }

  lemma FindBound(messages: seq<(string, nat)>, id: string)
    ensures Find(messages, id) <= |messages|
  {
  }

  lemma {:induction false} FindSnoc(messages: seq<(string, nat)>, id: string, index: nat)
    requires Find(messages, id) == |messages|
    ensures Find(messages + [(id, index)], id) == |messages|
  {
    if messages != [] {
      assert (messages + [(id, index)])[1..] == messages[1..] + [(id, index)];
      FindSnoc(messages[1..], id, index);
    }
  }

  lemma TextDeltaClean(s: Segment, id: string, delta: string, sink: Sink)
    requires Clean(s)
    ensures Keeps(TextDeltaStep(s, id, delta, sink))
  {
    hide OpenMessage;
    if delta != "" {
      var entry := OpenMessage(s, id, None, sink);
      OpenMessageClean(s, id, None, sink);
      OpenMessageIndexed(s, id, None, sink);
      var index := IndexOf(s, id);
      if entry.fault.None? && index !in entry.seg.doneItems {
        AppendClean(entry.seg, index, delta, sink);
      }
    }
  }

  lemma AppendClean(s: Segment, index: nat, delta: string, sink: Sink)
    requires Clean(s) && delta != ""
    requires index < |s.output| && s.output[index].Message? && index !in s.doneItems
    ensures Clean(Emit(WithText(s, index, s.output[index].text + delta), TextDelta(index, delta), sink).seg)
  {
    var t := WithText(s, index, s.output[index].text + delta);
    var _, _ := Touch(s, t, index, TextDelta(index, delta), sink);
  }

  lemma FinishMessageClean(s: Segment, index: nat, sink: Sink)
    requires Clean(s) && index < |s.output| && s.output[index].Message?
    ensures Keeps(FinishMessage(s, index, sink))
    ensures FinishMessage(s, index, sink).seg.doneItems == s.doneItems + {index}
    ensures forall i :: 0 <= i < |s.output| ==> FinishMessage(s, index, sink).seg.output[i].Message? == s.output[i].Message?
  {
    hide Read;
    if index !in s.doneItems {
      var item := Message(s.output[index].phase, s.output[index].text, true);
      var t := s.(doneItems := s.doneItems + {index}, output := s.output[index := item]);
      var r, _ := Touch(s, t, index, TextDone(index, item.text), sink);
      var q, _ := Touch(r, r, index, PartDone(index, item.text), sink);
      var z, _ := Touch(q, q, index, ItemDone(index, item), sink);
    }
  }

  lemma WithPhaseClean(s: Segment, index: nat, phase: Option<string>)
    requires Clean(s) && index < |s.output| && s.output[index].Message? && index !in s.doneItems
    ensures Clean(WithPhase(s, index, phase))
  {
  }

  lemma CompleteMessageClean(s: Segment, raw: RawMessage, sink: Sink)
    requires Clean(s)
    ensures Keeps(CompleteMessage(s, raw, sink))
  {
    hide OpenMessage, TextDeltaStep, FinishMessage;
    var index := IndexOf(s, raw.id);
    var entry := OpenMessage(s, raw.id, raw.phase, sink);
    OpenMessageClean(s, raw.id, raw.phase, sink);
    OpenMessageIndexed(s, raw.id, raw.phase, sink);
    if entry.fault.None? && index !in entry.seg.doneItems {
      var current := entry.seg.output[index].text;
      if raw.text.Some? && current <= raw.text.value {
        var delta := raw.text.value[|current|..];
        TextDeltaClean(entry.seg, raw.id, delta, sink);
        var sent := TextDeltaStep(entry.seg, raw.id, delta, sink);
        if sent.fault.None? {
          assert sent.seg.doneItems == entry.seg.doneItems;
          WithPhaseClean(sent.seg, index, raw.phase);
          FinishMessageClean(WithPhase(sent.seg, index, raw.phase), index, sink);
        }
      }
    }
  }

  lemma ToolCallClean(s: Segment, callId: nat, name: string, args: string, sink: Sink)
    requires Clean(s)
    ensures Keeps(ToolCall(s, callId, name, args, sink))
  {
    hide Read;
    var n := |s.output|;
    var item := FunctionCall(callId, name, "", false);
    var filled := FunctionCall(callId, name, args, false);
    var closed := FunctionCall(callId, name, args, true);
    var r0, g0 := Announce(s, s.(output := s.output + [item]), item, "", sink);
    var r1, g1 := Touch(r0, r0.(output := r0.output[n := filled]), n, ArgumentsDelta(n, args), sink);
    var r2, g2 := Touch(r1, r1, n, ArgumentsDone(n, args), sink);
    var r3, g3 := Touch(r2, r2.(output := r2.output[n := closed]), n, ItemDone(n, closed), sink);
  }

  /** The closing loop leaves every message done. */
  lemma {:induction false} FinishFromClean(s: Segment, k: nat, sink: Sink)
    requires Clean(s) && k <= |s.messages|
    requires forall j :: 0 <= j < k ==> s.messages[j].1 in s.doneItems
    ensures Keeps(FinishFrom(s, k, sink))
    ensures FinishFrom(s, k, sink).fault.None? ==> FinishFrom(s, k, sink).seg.messages == s.messages
    ensures FinishFrom(s, k, sink).fault.None? ==>
      forall j :: 0 <= j < |s.messages| ==> s.messages[j].1 in FinishFrom(s, k, sink).seg.doneItems
    decreases |s.messages| - k
  {
    hide FinishMessage;
    if k < |s.messages| {
      FinishMessageClean(s, s.messages[k].1, sink);
      var r := FinishMessage(s, s.messages[k].1, sink);
      if r.fault.None? {
        FinishFromClean(r.seg, k + 1, sink);
      }
    }
  }

  lemma AllClosed(s: Segment)
    requires Clean(s) && forall j :: 0 <= j < |s.messages| ==> s.messages[j].1 in s.doneItems
    ensures forall i :: 0 <= i < |s.output| ==>
      Read(s.offered).value.items[i].stage == ItemClosed && Read(s.offered).value.items[i].final == Some(s.output[i])
  {
    forall i | 0 <= i < |s.output| ensures
      Read(s.offered).value.items[i].stage == ItemClosed && Read(s.offered).value.items[i].final == Some(s.output[i])
    {
      if s.output[i].Message? {
        assert Listed(s.messages, i);
      }
    }
  }

  lemma TerminalEvent(s: Segment, sink: Sink)
    requires Clean(s) && forall j :: 0 <= j < |s.messages| ==> s.messages[j].1 in s.doneItems
    ensures Sound(Emit(s.(finished := true, status := Succeeded), ResponseCompleted(s.output), sink).seg)
  {
    AllClosed(s);
    EmitReads(s.(finished := true, status := Succeeded), ResponseCompleted(s.output), sink);
  }

  /** `finish` either ends the stream with response.completed or leaves it open for `fail`. */
  lemma FinishEnds(s: Segment, sink: Sink)
    requires Clean(s)
    ensures Sound(Finish(s, sink).seg) && Finish(s, sink).seg.offered != []
    ensures Finish(s, sink).fault.None? ==> Finish(s, sink).seg.finished
    ensures Finish(s, sink).seg.finished ==>
      var q := Finish(s, sink).seg;
      && q.offered[|q.offered| - 1].event == ResponseCompleted(q.output)
      && (Finish(s, sink).fault.Some? ==> Finish(s, sink).fault == Some(SinkRefused))
  {
    hide FinishFrom;
    FinishFromClean(s, 0, sink);
    var r := FinishFrom(s, 0, sink);
    if r.fault.None? {
      TerminalEvent(r.seg, sink);
    }
  }

  /** `fail` ends any stream that has begun, and does nothing to one that has ended. */
  lemma AbandonEnds(s: Segment, error: Fault, sink: Sink)
    requires Sound(s) && s.offered != []
    ensures Sound(Abandon(s, error, sink).seg) && Abandon(s, error, sink).seg.finished
    ensures s.finished ==> Abandon(s, error, sink).seg == s
    ensures !s.finished ==>
      var offers := Abandon(s, error, sink).seg.offered; offers[|offers| - 1].event == ResponseFailed(s.output, error)
  {
    if !s.finished {
      StreamShape(s.offered);
      var t := s.(finished := true, status := Failed);
      EmitReads(t, ResponseFailed(s.output, error), sink);
    }
  }
}
