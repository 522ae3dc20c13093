/**
  The text a segment streams is the text upstream sent.

  A transcript is what a list of notes says about each upstream message, computed without a segment. A
  segment that was fed those notes holds the same text for every message, and so did its deltas.
 */
module Transcripts {
  import opened Wrappers
  import opened ResponseSegments
  import opened EventGrammar
  import opened SegmentStream
  import opened BridgeState

  datatype Entry = Entry(text: string, done: bool, phase: Option<string>)

  type Transcript = map<string, Entry>

  /** What one more note says. */
  function Follow(t: Transcript, n: Note): Transcript {
    match n.body
    case MessageDelta(itemId, delta) =>
      if itemId.None? || delta.None? || delta.value == "" then t
      else if itemId.value in t then t[itemId.value := t[itemId.value].(text := t[itemId.value].text + delta.value)]
      else t[itemId.value := Entry(delta.value, false, None)]
    case ItemCompleted(message) =>
      if message.None? || message.value.text.None? || (message.value.id in t && t[message.value.id].done) then t
      else t[message.value.id := Entry(message.value.text.value, true, PhaseAfter(t, message.value))]
    case _ => t
  }

  /** A completed message tells its phase; one that tells none leaves the phase as it was. */
  function PhaseAfter(t: Transcript, raw: RawMessage): Option<string> {
    if raw.phase.Some? || raw.id !in t then raw.phase else t[raw.id].phase
  }

  function Transcribe(notes: seq<Note>): Transcript {
    if notes == [] then map[] else Follow(Transcribe(notes[..|notes| - 1]), notes[|notes| - 1])
  }

  lemma TranscribeSnoc(notes: seq<Note>, n: Note)
    ensures Transcribe(notes + [n]) == Follow(Transcribe(notes), n)
  {
    assert (notes + [n])[..|notes|] == notes;
  }

  ghost predicate HoldsAt(s: Segment, t: Transcript, k: nat)
    requires k < |s.messages|
  {
    var (id, index) := s.messages[k];
    && id in t && index < |s.output| && s.output[index].Message?
    && s.output[index].text == t[id].text && s.output[index].phase == t[id].phase && (index in s.doneItems <==> t[id].done)
  }

  /** The segment's messages are exactly the transcript's, each with its text, in the order of their items. */
  ghost predicate Matches(s: Segment, t: Transcript) {
    && (forall k :: 0 <= k < |s.messages| ==> HoldsAt(s, t, k))
    && (forall id :: id in t ==> Known(s, id))
    && (forall k, j :: 0 <= k < j < |s.messages| ==> s.messages[k].0 != s.messages[j].0 && s.messages[k].1 < s.messages[j].1)
  }

  lemma {:induction false} FindIs(messages: seq<(string, nat)>, k: nat)
    requires k < |messages| && forall j :: 0 <= j < k ==> messages[j].0 != messages[k].0
    ensures Find(messages, messages[k].0) == k
  {
    if k > 0 {
      assert messages[1..][k - 1] == messages[k];
      FindIs(messages[1..], k - 1);
    }
  }

  /** A message the transcript does not know is new to the segment, at the end of the output. */
  lemma OpenNew(s: Segment, t: Transcript, id: string, phase: Option<string>, sink: Sink)
    requires Indexed(s) && (forall i :: i in s.doneItems ==> i < |s.output|)
    requires Matches(s, t) && !Known(s, id) && OpenMessage(s, id, phase, sink).fault.None?
    ensures Matches(OpenMessage(s, id, phase, sink).seg, t[id := Entry("", false, phase)])
  {
    var q := OpenMessage(s, id, phase, sink).seg;
    var u := t[id := Entry("", false, phase)];
    var n := |s.messages|;
    assert q.messages == s.messages + [(id, |s.output|)];
    forall k | 0 <= k < |q.messages| ensures HoldsAt(q, u, k) {
      if k < n {
        assert HoldsAt(s, t, k);
        assert q.messages[k] == s.messages[k];
      }
    }
    forall x | x in u ensures Known(q, x) {
      if x != id {
        var k := Find(s.messages, x);
        FindIs(q.messages, k);
      } else {
        FindIs(q.messages, n);
      }
    }
  }

  /** The item of a known message. */
  lemma KnownItem(s: Segment, t: Transcript, id: string)
    requires Matches(s, t) && Known(s, id)
    ensures id in t && HoldsAt(s, t, Find(s.messages, id)) && IndexOf(s, id) == s.messages[Find(s.messages, id)].1
  {
    assert HoldsAt(s, t, Find(s.messages, id));
  }

  /** One message's text and state change; everything else stays. */
  lemma Rewrite(s: Segment, t: Transcript, id: string, q: Segment, entry: Entry)
    requires Matches(s, t) && Known(s, id) && q.messages == s.messages && |q.output| == |s.output|
    requires IndexOf(s, id) < |q.output| && q.output[IndexOf(s, id)].Message?
    requires q.output[IndexOf(s, id)].text == entry.text && q.output[IndexOf(s, id)].phase == entry.phase
    requires (IndexOf(s, id) in q.doneItems <==> entry.done)
    requires forall i :: 0 <= i < |s.output| && i != IndexOf(s, id) ==> q.output[i] == s.output[i] && (i in q.doneItems <==> i in s.doneItems)
    ensures Matches(q, t[id := entry])
  {
    var u := t[id := entry];
    var m := Find(s.messages, id);
    forall k | 0 <= k < |q.messages| ensures HoldsAt(q, u, k) {
      assert HoldsAt(s, t, k);
    }
    forall x | x in u ensures Known(q, x) {
      assert Known(s, x);
    }
  }

  /** The transcript once a message has been mentioned. */
  function Mention(t: Transcript, id: string, phase: Option<string>): Transcript {
    if id in t then t else t[id := Entry("", false, phase)]
  }

  /** Opening a message mentions it; its item then agrees with its entry. */
  lemma Opened(s: Segment, t: Transcript, id: string, phase: Option<string>, sink: Sink) returns (q: Segment, index: nat)
    requires Clean(s) && Matches(s, t) && OpenMessage(s, id, phase, sink).fault.None?
    ensures q == OpenMessage(s, id, phase, sink).seg && index == IndexOf(s, id)
    ensures Clean(q) && Indexed(q) && Matches(q, Mention(t, id, phase)) && Known(q, id) && IndexOf(q, id) == index
    ensures index < |q.output| && q.output[index].Message?
    ensures var entry := Mention(t, id, phase)[id];
      q.output[index].text == entry.text && q.output[index].phase == entry.phase && (index in q.doneItems <==> entry.done)
  {
    q := OpenMessage(s, id, phase, sink).seg;
    index := IndexOf(s, id);
    OpenMessageClean(s, id, phase, sink);
    if Known(s, id) {
      KnownItem(s, t, id);
    } else {
      OpenNew(s, t, id, phase, sink);
    }
    KnownItem(q, Mention(t, id, phase), id);
  }

  lemma TextDeltaMatches(s: Segment, t: Transcript, id: string, delta: string, sink: Sink)
    requires Clean(s) && Matches(s, t) && delta != "" && TextDeltaStep(s, id, delta, sink).fault.None?
    ensures var u := Mention(t, id, None);
      Matches(TextDeltaStep(s, id, delta, sink).seg, u[id := u[id].(text := u[id].text + delta)])
  {
    hide OpenMessage, Clean, Matches;
    CleanRuns(s);
    var q, index := Opened(s, t, id, None, sink);
    var u := Mention(t, id, None);
    Rewrite(q, u, id, TextDeltaStep(s, id, delta, sink).seg, u[id].(text := u[id].text + delta));
  }

  lemma CleanRuns(s: Segment)
    requires Clean(s)
    ensures !s.finished && Indexed(s)
  {
  }

  lemma FinishMatches(s: Segment, t: Transcript, id: string, phase: Option<string>, sink: Sink)
    requires Indexed(s) && Matches(s, t) && Known(s, id) && IndexOf(s, id) < |s.output| && s.output[IndexOf(s, id)].Message?
    requires IndexOf(s, id) !in s.doneItems
    requires FinishMessage(WithPhase(s, IndexOf(s, id), phase), IndexOf(s, id), sink).fault.None?
    ensures id in t
    ensures var entry := t[id].(done := true, phase := if phase.Some? then phase else t[id].phase);
      Matches(FinishMessage(WithPhase(s, IndexOf(s, id), phase), IndexOf(s, id), sink).seg, t[id := entry])
  {
    KnownItem(s, t, id);
    hide Matches;
    var entry := t[id].(done := true, phase := if phase.Some? then phase else t[id].phase);
    Rewrite(s, t, id, FinishMessage(WithPhase(s, IndexOf(s, id), phase), IndexOf(s, id), sink).seg, entry);
  }

  lemma CompleteMatches(s: Segment, t: Transcript, raw: RawMessage, sink: Sink)
    requires Clean(s) && Matches(s, t) && CompleteMessage(s, raw, sink).fault.None?
    ensures var u := Mention(t, raw.id, raw.phase);
      u[raw.id].done || raw.text.Some?
    ensures var u := Mention(t, raw.id, raw.phase);
      Matches(CompleteMessage(s, raw, sink).seg,
              if u[raw.id].done then u else u[raw.id := Entry(raw.text.value, true, PhaseAfter(u, raw))])
  {
    hide OpenMessage, TextDeltaStep, FinishMessage, Clean, Matches;
    CleanRuns(s);
    var q, index := Opened(s, t, raw.id, raw.phase, sink);
    if index !in q.doneItems {
      var current := q.output[index].text;
      var delta := raw.text.value[|current|..];
      assert raw.text.value == current + delta;
      var sent := TextDeltaStep(q, raw.id, delta, sink);
      CompleteRest(q, Mention(t, raw.id, raw.phase), raw, index, delta, sent,
                   FinishMessage(WithPhase(sent.seg, index, raw.phase), index, sink), sink);
    }
  }

  /** The missing suffix is streamed, if there is one. */
  lemma SuffixMatches(s: Segment, t: Transcript, id: string, index: nat, delta: string, sink: Sink)
    requires Clean(s) && Matches(s, t) && index < |s.output| && s.output[index].Message?
    requires id in t && t[id] == Entry(s.output[index].text, false, s.output[index].phase)
    requires TextDeltaStep(s, id, delta, sink).fault.None?
    ensures Matches(TextDeltaStep(s, id, delta, sink).seg, t[id := Entry(s.output[index].text + delta, false, s.output[index].phase)])
  {
    CleanRuns(s);
    hide Clean, Matches, Mention, OpenMessage, Emit, Find;
    if delta != "" {
      Mentioned(t, id, None);
      TextDeltaMatches(s, t, id, delta, sink);
    } else {
      assert s.output[index].text + "" == s.output[index].text;
      assert t[id := t[id]] == t;
    }
  }

  /** The rest of the text and the closing of a message that is open. */
  lemma CompleteRest(s: Segment, t: Transcript, raw: RawMessage, index: nat, delta: string, sent: Outcome, last: Outcome, sink: Sink)
    requires Clean(s) && Matches(s, t) && Known(s, raw.id) && index == IndexOf(s, raw.id)
    requires index < |s.output| && s.output[index].Message? && index !in s.doneItems
    requires raw.id in t && t[raw.id] == Entry(s.output[index].text, false, s.output[index].phase)
    requires raw.text == Some(s.output[index].text + delta)
    requires sent == TextDeltaStep(s, raw.id, delta, sink) && sent.fault.None?
    requires last == FinishMessage(WithPhase(sent.seg, index, raw.phase), index, sink) && last.fault.None?
    ensures Matches(last.seg, t[raw.id := Entry(raw.text.value, true, PhaseAfter(t, raw))])
  {
    CleanRuns(s);
    KnownStays(s, raw.id, delta, sink);
    var whole := Entry(raw.text.value, true, PhaseAfter(t, raw));
    assert whole.phase == if raw.phase.Some? then raw.phase else s.output[index].phase;
    hide *;
    var partial := Entry(raw.text.value, false, s.output[index].phase);
    Overwrite(t, raw.id, partial, whole);
    SuffixMatches(s, t, raw.id, index, delta, sink);
    FinishMatches(sent.seg, t[raw.id := partial], raw.id, raw.phase, sink);
  }

  lemma Overwrite(t: Transcript, id: string, a: Entry, b: Entry)
    ensures t[id := a][id := b] == t[id := b]
    ensures id in t ==> t[id := t[id]] == t
  {
  }

  lemma Mentioned(t: Transcript, id: string, phase: Option<string>)
    requires id in t
    ensures Mention(t, id, phase) == t
  {
  }

  lemma KnownStays(s: Segment, id: string, delta: string, sink: Sink)
    requires Indexed(s) && Known(s, id)
    ensures var q := TextDeltaStep(s, id, delta, sink).seg;
      Known(q, id) && IndexOf(q, id) == IndexOf(s, id) && (delta == "" ==> q == s)
  {
  }

  /** What was streamed for each message, joined, is its text in the transcript. */
  lemma StreamedText(s: Segment, t: Transcript, k: nat)
    requires Clean(s) && Matches(s, t) && k < |s.messages|
    ensures s.messages[k].0 in t && Deltas(s.offered, s.messages[k].1) == t[s.messages[k].0].text
  {
    assert HoldsAt(s, t, k);
    ReaderMemory(s.offered, s.messages[k].1);
  }

  // ---------------------------------------------------------------------------
  // Completed responses
  // ---------------------------------------------------------------------------

  /** The upstream message a note is about. */
  function Subject(n: Note): Option<string> {
    match n.body
    case MessageDelta(itemId, _) => itemId
    case ItemCompleted(message) => if message.Some? then Some(message.value.id) else None
    case _ => None
  }

  /** The messages of a transcript in the order in which the notes first tell of them. */
  function Mentions(notes: seq<Note>): seq<string> {
    if notes == [] then []
    else
      var before := Mentions(notes[..|notes| - 1]);
      var id := Subject(notes[|notes| - 1]);
      if id.Some? && id.value in Transcribe(notes) && id.value !in before then before + [id.value] else before
  }

  ghost predicate Names(messages: seq<(string, nat)>, ids: seq<string>) {
    |messages| == |ids| && forall k :: 0 <= k < |ids| ==> messages[k].0 == ids[k]
  }

  /** The segment holds what the notes say, message by message and in their order. */
  ghost predicate Follows(s: Segment, notes: seq<Note>) {
    Matches(s, Transcribe(notes)) && Names(s.messages, Mentions(notes))
  }

  /** A call may open one message, at the end. */
  ghost predicate Opens(s: Segment, q: Segment, id: Option<string>) {
    q.messages == s.messages || (id.Some? && exists index :: q.messages == s.messages + [(id.value, index)])
  }

  /** One more note: whatever the segment's call did to the messages, they stay in the order of the notes. */
  lemma FollowsSnoc(s: Segment, q: Segment, notes: seq<Note>, n: Note)
    requires Follows(s, notes) && Opens(s, q, Subject(n)) && Matches(q, Follow(Transcribe(notes), n))
    ensures Follows(q, notes + [n])
  {
    TranscribeSnoc(notes, n);
    var more := notes + [n];
    assert more[..|notes|] == notes && more[|more| - 1] == n;
    var ids := Mentions(notes);
    if q.messages == s.messages {
      if Subject(n).Some? && Subject(n).value in Transcribe(more) {
        var k := Find(q.messages, Subject(n).value);
        assert Known(q, Subject(n).value);
        assert ids[k] == Subject(n).value;
      }
    } else {
      var id := Subject(n).value;
      assert HoldsAt(q, Transcribe(more), |s.messages|);
      forall k | 0 <= k < |ids| ensures ids[k] != id {
        assert q.messages[k] == s.messages[k] && q.messages[|s.messages|].0 == id;
      }
    }
  }

  lemma DeltaOpens(s: Segment, id: string, delta: string, sink: Sink)
    requires Indexed(s)
    ensures Opens(s, TextDeltaStep(s, id, delta, sink).seg, Some(id))
  {
    hide Find;
  }

  lemma CompleteOpens(s: Segment, raw: RawMessage, sink: Sink)
    requires Indexed(s)
    ensures Opens(s, CompleteMessage(s, raw, sink).seg, Some(raw.id))
  {
    OpenMessageIndexed(s, raw.id, raw.phase, sink);
    hide TextDeltaStep, Find;
    var entry := OpenMessage(s, raw.id, raw.phase, sink);
    var index := IndexOf(s, raw.id);
    if !s.finished && entry.fault.None? && index !in entry.seg.doneItems && raw.text.Some? && entry.seg.output[index].text <= raw.text.value {
      KnownOpens(entry.seg, raw.id, raw.text.value[|entry.seg.output[index].text|..], sink) by {
        OpenKnown(s, raw.id, raw.phase, sink);
      }
    }
  }

  lemma OpenKnown(s: Segment, id: string, phase: Option<string>, sink: Sink)
    ensures Known(OpenMessage(s, id, phase, sink).seg, id)
  {
    if !Known(s, id) {
      FindIs(OpenMessage(s, id, phase, sink).seg.messages, |s.messages|);
    }
  }

  lemma KnownOpens(s: Segment, id: string, delta: string, sink: Sink)
    requires Indexed(s) && Known(s, id)
    ensures TextDeltaStep(s, id, delta, sink).seg.messages == s.messages
  {
  }

  lemma AppendedEntry(t: Transcript, id: string, delta: string)
    ensures var u := Mention(t, id, None);
      u[id := u[id].(text := u[id].text + delta)] ==
      t[id := if id in t then t[id].(text := t[id].text + delta) else Entry(delta, false, None)]
  {
    assert "" + delta == delta;
  }

  lemma ClosedEntry(t: Transcript, n: Note, raw: RawMessage)
    requires n.body == ItemCompleted(Some(raw)) && (Mention(t, raw.id, raw.phase)[raw.id].done || raw.text.Some?)
    ensures Subject(n) == Some(raw.id)
    ensures var u := Mention(t, raw.id, raw.phase);
      (if u[raw.id].done then u else u[raw.id := Entry(raw.text.value, true, PhaseAfter(u, raw))]) == Follow(t, n)
  {
  }

  /** A text delta that was applied without an exception. */
  lemma DeltaFollows(s: Segment, notes: seq<Note>, n: Note, id: string, delta: string, sink: Sink)
    requires Clean(s) && Follows(s, notes) && n.body == MessageDelta(Some(id), Some(delta))
    requires TextDeltaStep(s, id, delta, sink).fault.None?
    ensures Follows(TextDeltaStep(s, id, delta, sink).seg, notes + [n])
  {
    CleanRuns(s);
    DeltaOpens(s, id, delta, sink);
    hide Clean, Matches, Opens, Names, Transcribe, Mentions;
    var t := Transcribe(notes);
    if delta == "" {
      assert TextDeltaStep(s, id, delta, sink).seg == s;
    } else {
      hide TextDeltaStep;
      TextDeltaMatches(s, t, id, delta, sink);
      AppendedEntry(t, id, delta);
    }
    FollowsSnoc(s, TextDeltaStep(s, id, delta, sink).seg, notes, n);
  }

  /** A completed message that was applied without an exception. */
  lemma ItemFollows(s: Segment, notes: seq<Note>, n: Note, raw: RawMessage, sink: Sink)
    requires Clean(s) && Follows(s, notes) && n.body == ItemCompleted(Some(raw))
    requires CompleteMessage(s, raw, sink).fault.None?
    ensures Follows(CompleteMessage(s, raw, sink).seg, notes + [n])
  {
    CleanRuns(s);
    CompleteOpens(s, raw, sink);
    FollowsMatches(s, notes);
    hide *;
    CompleteMatches(s, Transcribe(notes), raw, sink);
    ClosedEntry(Transcribe(notes), n, raw);
    FollowsSnoc(s, CompleteMessage(s, raw, sink).seg, notes, n);
  }

  lemma FollowsMatches(s: Segment, notes: seq<Note>)
    requires Follows(s, notes)
    ensures Matches(s, Transcribe(notes))
  {
  }

  /** A note that tells of no message. */
  lemma OtherFollows(s: Segment, notes: seq<Note>, n: Note)
    requires Follows(s, notes) && !n.body.MessageDelta? && (n.body.ItemCompleted? ==> n.body.message.None?)
    ensures Follows(s, notes + [n])
  {
    hide Matches, Names, Transcribe, Mentions;
    FollowsSnoc(s, s, notes, n);
  }

  /** The message items of an output, in order, are the messages `ids` with their texts and phases in the transcript. */
  ghost predicate TellsAt(output: seq<Item>, t: Transcript, ids: seq<string>, at: seq<nat>) {
    && |at| == |ids|
    && (forall k, j :: 0 <= k < j < |at| ==> at[k] < at[j])
    && (forall k :: 0 <= k < |at| ==>
          at[k] < |output| && output[at[k]].Message? && ids[k] in t
          && output[at[k]].text == t[ids[k]].text && output[at[k]].phase == t[ids[k]].phase)
    && (forall i :: 0 <= i < |output| && output[i].Message? ==> i in at)
  }

  /** The output says exactly what the notes say, message by message and in their order. */
  ghost predicate Tells(output: seq<Item>, notes: seq<Note>) {
    exists at :: TellsAt(output, Transcribe(notes), Mentions(notes), at)
  }

  ghost predicate CompletedTells(offers: seq<Offer>, notes: seq<Note>) {
    && offers != [] && offers[|offers| - 1].event.ResponseCompleted?
    && Tells(offers[|offers| - 1].event.output, notes)
  }

  /** A function call leaves the messages alone. */
  lemma ToolCallFollows(s: Segment, callId: nat, name: string, args: string, sink: Sink, notes: seq<Note>)
    requires Clean(s) && Follows(s, notes)
    ensures Follows(ToolCall(s, callId, name, args, sink).seg, notes)
  {
    var q := ToolCall(s, callId, name, args, sink).seg;
    ToolCallMessages(s, callId, name, args, sink);
    hide ToolCall, Transcribe, Clean;
    var t := Transcribe(notes);
    forall k | 0 <= k < |q.messages| ensures HoldsAt(q, t, k) {
      assert HoldsAt(s, t, k);
    }
    forall id | id in t ensures Known(q, id) {
      assert Known(s, id);
    }
  }

  lemma ToolCallMessages(s: Segment, callId: nat, name: string, args: string, sink: Sink)
    requires Indexed(s)
    ensures var q := ToolCall(s, callId, name, args, sink).seg;
      q.messages == s.messages && q.doneItems == s.doneItems && |s.output| < |q.output| && q.output[..|s.output|] == s.output
  {
  }

  /** Finishing a segment closes its messages and keeps their text. */
  lemma {:induction false} FinishKeepsText(s: Segment, k: nat, sink: Sink)
    requires Indexed(s) && k <= |s.messages|
    ensures SameText(FinishFrom(s, k, sink).seg.output, s.output)
    decreases |s.messages| - k
  {
    if k == |s.messages| {
      assert FinishFrom(s, k, sink).seg == s;
    } else {
      var r := FinishMessage(s, s.messages[k].1, sink);
      if r.fault.None? {
        FinishKeepsText(r.seg, k + 1, sink);
      }
    }
  }

  ghost predicate SameText(a: seq<Item>, b: seq<Item>) {
    |a| == |b| && forall i :: 0 <= i < |a| ==>
      a[i].Content() == b[i].Content() && a[i].Message? == b[i].Message? && (b[i].Message? ==> a[i].phase == b[i].phase)
  }

  function Places(messages: seq<(string, nat)>): (at: seq<nat>)
    ensures |at| == |messages| && forall k :: 0 <= k < |at| ==> at[k] == messages[k].1
  {
    seq(|messages|, k requires 0 <= k < |messages| => messages[k].1)
  }

  lemma PlaceTells(s: Segment, output: seq<Item>, t: Transcript, k: nat)
    requires Matches(s, t) && SameText(output, s.output) && k < |s.messages|
    ensures var (id, index) := s.messages[k];
      index < |output| && output[index].Message? && id in t && output[index].text == t[id].text && output[index].phase == t[id].phase
  {
    assert HoldsAt(s, t, k);
    assert output[s.messages[k].1].Content() == s.output[s.messages[k].1].Content();
  }

  lemma ListedPlaces(messages: seq<(string, nat)>, i: nat)
    requires Listed(messages, i)
    ensures i in Places(messages)
  {
    var k :| 0 <= k < |messages| && messages[k].1 == i;
    assert Places(messages)[k] == i;
  }

  lemma PlacesTell(s: Segment, output: seq<Item>, notes: seq<Note>)
    requires Follows(s, notes) && (forall i :: 0 <= i < |s.output| && s.output[i].Message? ==> Listed(s.messages, i))
    requires SameText(output, s.output)
    ensures TellsAt(output, Transcribe(notes), Mentions(notes), Places(s.messages))
  {
    hide Transcribe, Mentions, HoldsAt, Known, Listed;
    var t := Transcribe(notes);
    forall k | 0 <= k < |s.messages|
      ensures var (id, index) := s.messages[k];
        index < |output| && output[index].Message? && id in t && output[index].text == t[id].text && output[index].phase == t[id].phase
    {
      PlaceTells(s, output, t, k);
    }
    forall i | 0 <= i < |output| && output[i].Message? ensures i in Places(s.messages) {
      ListedPlaces(s.messages, i);
    }
  }

  /** Whatever keeps the text of the items keeps what they tell. */
  lemma KeptTells(s: Segment, output: seq<Item>, notes: seq<Note>)
    requires Follows(s, notes) && (forall i :: 0 <= i < |s.output| && s.output[i].Message? ==> Listed(s.messages, i))
    requires SameText(output, s.output)
    ensures Tells(output, notes)
  {
    PlacesTell(s, output, notes);
    hide TellsAt, Transcribe, Mentions, Places, Follows, SameText, Listed;
  }

  lemma FinishShape(s: Segment, sink: Sink, notes: seq<Note>)
    requires Indexed(s) && !s.finished && Finish(s, sink).fault.None? && Tells(FinishFrom(s, 0, sink).seg.output, notes)
    ensures CompletedTells(Finish(s, sink).seg.offered, notes)
  {
    hide FinishFrom, Tells;
  }

  lemma CleanListed(s: Segment)
    requires Clean(s)
    ensures forall i :: 0 <= i < |s.output| && s.output[i].Message? ==> Listed(s.messages, i)
  {
  }

  /** A segment that followed its notes ends its stream with a response that tells them. */
  lemma FinishTells(s: Segment, sink: Sink, notes: seq<Note>)
    requires Clean(s) && Follows(s, notes) && Finish(s, sink).fault.None?
    ensures CompletedTells(Finish(s, sink).seg.offered, notes)
  {
    CleanRuns(s);
    FinishKeepsText(s, 0, sink);
    CleanListed(s);
    hide *;
    KeptTells(s, FinishFrom(s, 0, sink).seg.output, notes);
    FinishShape(s, sink, notes);
  }

  // ---------------------------------------------------------------------------
  // What a segment refuses
  // ---------------------------------------------------------------------------

  /** Text for a message that is done already. */
  predicate LateText(t: Transcript, id: string, delta: string) { delta != "" && id in t && t[id].done }

  /** A completed message without a text, or with one that what was streamed does not begin. */
  predicate BadItem(t: Transcript, raw: RawMessage) {
    && !(raw.id in t && t[raw.id].done)
    && (raw.text.None? || !((if raw.id in t then t[raw.id].text else "") <= raw.text.value))
  }

  /** A sink that takes everything leaves only the upstream event to blame. */
  predicate Blames(fault: Option<Fault>, bad: bool, willing: bool) {
    && (fault == Some(InvalidUpstreamEvent) ==> bad)
    && (fault.None? ==> !bad)
    && (fault.Some? ==> fault == Some(InvalidUpstreamEvent) || fault == Some(SinkRefused))
    && (willing ==> fault != Some(SinkRefused))
  }

  ghost predicate Willing(sink: Sink) { forall n: nat :: sink(n) }

  /** A text delta is refused exactly for a message that is done, or because the sink refuses an event. */
  lemma DeltaRefused(s: Segment, t: Transcript, id: string, delta: string, sink: Sink)
    requires Clean(s) && Matches(s, t)
    ensures Blames(TextDeltaStep(s, id, delta, sink).fault, LateText(t, id, delta), Willing(sink))
  {
    CleanRuns(s);
    KnownOrNew(s, t, id);
    if Known(s, id) {
      KnownItem(s, t, id);
    } else {
      NewIsOpen(s);
    }
    hide Clean, Matches, Find;
  }

  lemma KnownOrNew(s: Segment, t: Transcript, id: string)
    requires Matches(s, t)
    ensures id in t <==> Known(s, id)
  {
    if Known(s, id) {
      KnownItem(s, t, id);
    }
  }

  lemma NewIsOpen(s: Segment)
    requires Clean(s)
    ensures |s.output| !in s.doneItems
  {
  }

  /** A completed message is refused exactly for its text, or because the sink refuses an event. */
  lemma ItemRefused(s: Segment, t: Transcript, raw: RawMessage, sink: Sink)
    requires Clean(s) && Matches(s, t)
    ensures Blames(CompleteMessage(s, raw, sink).fault, BadItem(t, raw), Willing(sink))
  {
    CleanRuns(s);
    OpenMessageIndexed(s, raw.id, raw.phase, sink);
    var entry := OpenMessage(s, raw.id, raw.phase, sink);
    var index := IndexOf(s, raw.id);
    OpenBlames(s, raw.id, raw.phase, sink);
    CompleteFault(s, raw, sink);
    if entry.fault.None? {
      var _, _ := Opened(s, t, raw.id, raw.phase, sink);
      hide *;
      OpenedRefused(entry.seg, Mention(t, raw.id, raw.phase), raw, index, sink);
      MentionBad(t, raw);
    } else {
      hide *;
      RefusedBlames(entry.fault, BadItem(t, raw), Willing(sink));
    }
  }

  lemma RefusedBlames(fault: Option<Fault>, bad: bool, willing: bool)
    requires Blames(fault, false, willing) && fault.Some?
    ensures Blames(fault, bad, willing)
  {
  }

  lemma MentionBad(t: Transcript, raw: RawMessage)
    ensures BadItem(Mention(t, raw.id, raw.phase), raw) <==> BadItem(t, raw)
  {
  }

  /** What becomes of a completed message whose item is there. */
  function RestFault(s: Segment, raw: RawMessage, index: nat, sink: Sink): Option<Fault>
    requires Indexed(s) && index < |s.output| && s.output[index].Message?
  {
    if index in s.doneItems then None
    else if raw.text.None? || !(s.output[index].text <= raw.text.value) then Some(InvalidUpstreamEvent)
    else
      var sent := TextDeltaStep(s, raw.id, raw.text.value[|s.output[index].text|..], sink);
      if sent.fault.Some? then sent.fault else FinishMessage(WithPhase(sent.seg, index, raw.phase), index, sink).fault
  }

  lemma CompleteFault(s: Segment, raw: RawMessage, sink: Sink)
    requires Indexed(s) && !s.finished
    ensures var entry := OpenMessage(s, raw.id, raw.phase, sink);
      var index := IndexOf(s, raw.id);
      && Indexed(entry.seg) && index < |entry.seg.output| && entry.seg.output[index].Message?
      && CompleteMessage(s, raw, sink).fault == if entry.fault.Some? then entry.fault else RestFault(entry.seg, raw, index, sink)
  {
    OpenMessageIndexed(s, raw.id, raw.phase, sink);
    hide OpenMessage, TextDeltaStep, FinishMessage, WithPhase, Find;
  }

  lemma OpenedRefused(s: Segment, t: Transcript, raw: RawMessage, index: nat, sink: Sink)
    requires Clean(s) && Indexed(s) && Matches(s, t) && index < |s.output| && s.output[index].Message?
    requires raw.id in t && s.output[index].text == t[raw.id].text && (index in s.doneItems <==> t[raw.id].done)
    ensures Blames(RestFault(s, raw, index, sink), BadItem(t, raw), Willing(sink))
  {
    hide Clean, Matches, TextDeltaStep, FinishMessage, WithPhase, Find;
    if index !in s.doneItems && raw.text.Some? && s.output[index].text <= raw.text.value {
      var delta := raw.text.value[|s.output[index].text|..];
      DeltaRefused(s, t, raw.id, delta, sink);
      FinishBlames(WithPhase(TextDeltaStep(s, raw.id, delta, sink).seg, index, raw.phase), index, sink);
    }
  }

  lemma OpenBlames(s: Segment, id: string, phase: Option<string>, sink: Sink)
    ensures Blames(OpenMessage(s, id, phase, sink).fault, false, Willing(sink))
  {
    hide Find;
  }

  lemma FinishBlames(s: Segment, index: nat, sink: Sink)
    requires Indexed(s) && index < |s.output| && s.output[index].Message?
    ensures Blames(FinishMessage(s, index, sink).fault, false, Willing(sink))
  {
  }

  /** A function call, and the end of a response, are refused only by the sink. */
  lemma {:induction false} FinishRefused(s: Segment, k: nat, sink: Sink)
    requires Indexed(s) && k <= |s.messages|
    ensures Blames(FinishFrom(s, k, sink).fault, false, Willing(sink))
    decreases |s.messages| - k
  {
    if k < |s.messages| {
      var r := FinishMessage(s, s.messages[k].1, sink);
      FinishBlames(s, s.messages[k].1, sink);
      if r.fault.None? {
        FinishRefused(r.seg, k + 1, sink);
      }
    }
  }

  lemma CallRefused(s: Segment, callId: nat, name: string, args: string, sink: Sink)
    requires Indexed(s)
    ensures Blames(ToolCall(s, callId, name, args, sink).fault, false, Willing(sink))
    ensures Blames(Finish(s, sink).fault, false, Willing(sink))
  {
    FinishRefused(s, 0, sink);
    hide FinishFrom;
  }
}
