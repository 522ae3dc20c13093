/**
  Server-sent events: the text the server writes, and the client's incremental reader of it (section 9.2 of
  the WHATWG HTML standard).

  The reader accepts LF, CRLF and CR line ends, a CRLF possibly cut in half. What JSON text means is a
  parameter: a payload is rejected, completes the response, or neither.
 */
module ServerSentEvents {
  import opened Wrappers

  datatype Verdict = Rejected | Completes | Ignored

  type Judge = (string, string) -> Verdict

  /** An event handed to the client: its name and its payload. */
  datatype Payload = Payload(name: string, data: string)

  /** The reader's variables; `thrown` once a payload was rejected. */
  datatype Reader = Reader(
    buffer: string,
    name: string,
    data: seq<string>,
    dispatched: seq<Payload>,
    completed: Option<string>,
    thrown: bool)

  function Fresh(): Reader { Reader("", "", [], [], None, false) }

  function Join(lines: seq<string>): string {
    if lines == [] then "" else if |lines| == 1 then lines[0] else lines[0] + "\n" + Join(lines[1..])
  }

  /** What becomes of one complete event. */
  function Deliver(r: Reader, judge: Judge, name: string, data: string): Reader {
    var heard := r.(dispatched := r.dispatched + [Payload(name, data)]);
    match judge(name, data)
    case Rejected => heard.(thrown := true)
    case Completes => heard.(completed := Some(data))
    case Ignored => heard
  }

  function Dispatch(r: Reader, judge: Judge): Reader {
    var data := Join(r.data);
    var clear := r.(name := "", data := []);
    if data == "" || data == "[DONE]" then clear else Deliver(clear, judge, r.name, data)
  }

  predicate IsBreak(c: char) { c == '\r' || c == '\n' }

  /** The position of the first character that satisfies `p`, or the length. */
  function Seek(s: string, p: char -> bool): (i: nat)
    ensures i <= |s| && (i < |s| ==> p(s[i])) && forall k :: 0 <= k < i ==> !p(s[k])
  {
    if s == "" then 0 else if p(s[0]) then 0 else 1 + Seek(s[1..], p)
  }

  function Content(value: string): string {
    var separator := Seek(value, c => c == ':');
    if separator == |value| then ""
    else
      var content := value[separator + 1..];
      if content != "" && content[0] == ' ' then content[1..] else content
  }

  function OnLine(r: Reader, judge: Judge, value: string): Reader {
    if value == "" then Dispatch(r, judge)
    else if value[0] == ':' then r
    else
      var field := value[..Seek(value, c => c == ':')];
      if field == "event" then r.(name := Content(value))
      else if field == "data" then r.(data := r.data + [Content(value)])
      else r
  }

  function Width(s: string, i: nat): (w: nat)
    requires i < |s|
    ensures 1 <= w <= 2 && i + w <= |s|
  {
    if s[i] == '\r' && i + 1 < |s| && s[i + 1] == '\n' then 2 else 1
  }

  /** Takes complete lines off the buffer; a CR at its very end may be half of a CRLF and waits. */
  function Drain(r: Reader, judge: Judge, atEnd: bool): Reader
    decreases |r.buffer|
  {
    var s := r.buffer;
    var i := Seek(s, IsBreak);
    if i == |s| || (!atEnd && s[i] == '\r' && i == |s| - 1) then r
    else
      var t := OnLine(r, judge, s[..i]);
      if t.thrown then t else Drain(t.(buffer := s[i + Width(s, i)..]), judge, atEnd)
  }

  function Feed(r: Reader, judge: Judge, chunk: string): Reader {
    if r.thrown then r else Drain(r.(buffer := r.buffer + chunk), judge, false)
  }

  /** The end of the stream: what is left is a last line, and ends an event. */
  function Finish(r: Reader, judge: Judge): Reader {
    if r.thrown then r
    else
      var d := Drain(r, judge, true);
      if d.thrown then d
      else
        var l := if d.buffer == "" then d else OnLine(d, judge, d.buffer);
        if l.thrown then l else Dispatch(l.(buffer := ""), judge)
  }

  function FeedAll(r: Reader, judge: Judge, chunks: seq<string>): Reader
    decreases |chunks|
  {
    if chunks == [] then r else FeedAll(Feed(r, judge, chunks[0]), judge, chunks[1..])
  }

  function Concat(chunks: seq<string>): string {
    if chunks == [] then "" else chunks[0] + Concat(chunks[1..])
  }

  /** The client's variables. */
  class SseReader {
    const judge: Judge
    var buffer: string
    var eventName: string
    var dataLines: seq<string>
    var dispatched: seq<Payload>
    var completed: Option<string>
    var thrown: bool

    ghost function State(): Reader
      reads this
    {
      Reader(buffer, eventName, dataLines, dispatched, completed, thrown)
    }

    constructor (judge: Judge)
      ensures this.judge == judge && State() == Fresh()
    {
      this.judge := judge;
      buffer, eventName, dataLines, dispatched, completed, thrown := "", "", [], [], None, false;
    }

    method DispatchEvent()
      modifies this
      ensures State() == Dispatch(old(State()), judge)
    {
      var data, namedType := Join(dataLines), eventName;
      eventName, dataLines := "", [];
      if data == "" || data == "[DONE]" {
        return;
      }
      dispatched := dispatched + [Payload(namedType, data)];
      match judge(namedType, data) {
        case Rejected => thrown := true;
        case Completes => completed := Some(data);
        case Ignored =>
      }
    }

    method Line(value: string)
      modifies this
      ensures State() == OnLine(old(State()), judge, value)
    {
      hide Dispatch;
      if value == "" {
        DispatchEvent();
        return;
      }
      if value[0] == ':' {
        return;
      }
      var field, content := value[..Seek(value, c => c == ':')], Content(value);
      if field == "event" {
        eventName := content;
      }
      if field == "data" {
        dataLines := dataLines + [content];
      }
    }

    method DrainBuffer(atEnd: bool)
      requires !thrown
      modifies this
      ensures State() == Drain(old(State()), judge, atEnd)
    {
      hide OnLine, Seek;
      while buffer != ""
        invariant !thrown && Drain(State(), judge, atEnd) == Drain(old(State()), judge, atEnd)
        decreases |buffer|
      {
        var separator := Seek(buffer, IsBreak);
        if separator == |buffer| {
          break;
        }
        if !atEnd && buffer[separator] == '\r' && separator == |buffer| - 1 {
          break;
        }
        var width := Width(buffer, separator);
        LineKeepsBuffer(State(), judge, buffer[..separator]);
        Line(buffer[..separator]);
        if thrown {
          return;
        }
        buffer := buffer[separator + width..];
      }
    }

    method Receive(chunk: string)
      modifies this
      ensures State() == Feed(old(State()), judge, chunk)
    {
      hide Drain;
      if thrown {
        return;
      }
      buffer := buffer + chunk;
      DrainBuffer(false);
    }

    method End()
      modifies this
      ensures State() == Finish(old(State()), judge)
    {
      hide Drain, OnLine, Dispatch;
      if thrown {
        return;
      }
      DrainBuffer(true);
      if thrown {
        return;
      }
      if buffer != "" {
        Line(buffer);
        if thrown {
          return;
        }
      }
      buffer := "";
      DispatchEvent();
    }
  }

  lemma LineKeepsBuffer(r: Reader, judge: Judge, value: string)
    ensures OnLine(r, judge, value).buffer == r.buffer
  {
  }

  // ---------------------------------------------------------------------------
  // However the text is cut
  // ---------------------------------------------------------------------------

  /** The same reader; once a payload was rejected its buffer is never looked at again. */
  predicate Same(r: Reader, s: Reader) { r == s || (r.thrown && s.thrown && r.(buffer := "") == s.(buffer := "")) }

  lemma LineIgnoresBuffer(r: Reader, judge: Judge, value: string, b: string)
    ensures OnLine(r.(buffer := b), judge, value) == OnLine(r, judge, value).(buffer := b)
  {
    hide Join, Content, Seek, Deliver;
    DeliverIgnoresBuffer(r.(name := "", data := []), judge, r.name, Join(r.data), b);
  }

  lemma DeliverIgnoresBuffer(r: Reader, judge: Judge, name: string, data: string, b: string)
    ensures Deliver(r.(buffer := b), judge, name, data) == Deliver(r, judge, name, data).(buffer := b)
  {
  }

  lemma DrainCases(r: Reader, judge: Judge, atEnd: bool)
    ensures var s := r.buffer;
            var i := Seek(s, IsBreak);
            Drain(r, judge, atEnd) ==
            if i == |s| || (!atEnd && s[i] == '\r' && i == |s| - 1) then r
            else
              var t := OnLine(r, judge, s[..i]);
              if t.thrown then t else Drain(t.(buffer := s[i + Width(s, i)..]), judge, atEnd)
  {
    hide OnLine, Seek, Width;
  }

  lemma SeekStable(s: string, t: string)
    requires Seek(s, IsBreak) < |s|
    ensures Seek(s + t, IsBreak) == Seek(s, IsBreak)
  {
    var i, j := Seek(s, IsBreak), Seek(s + t, IsBreak);
    assert forall k :: 0 <= k <= i ==> (s + t)[k] == s[k];
  }

  /** Draining a buffer, then the rest with more text, is draining it all. */
  lemma {:induction false} DrainInParts(r: Reader, judge: Judge, t: string, atEnd: bool)
    requires !r.thrown
    ensures var d := Drain(r, judge, false);
            var whole := Drain(r.(buffer := r.buffer + t), judge, atEnd);
            if d.thrown then Same(d, whole) else whole == Drain(d.(buffer := d.buffer + t), judge, atEnd)
    decreases |r.buffer|
  {
    hide OnLine, Drain, Seek;
    var s := r.buffer;
    var i := Seek(s, IsBreak);
    DrainCases(r, judge, false);
    if i < |s| && !(s[i] == '\r' && i == |s| - 1) {
      DrainCases(r.(buffer := s + t), judge, atEnd);
      SeekStable(s, t);
      assert (s + t)[..i] == s[..i];
      var w := Width(s, i);
      assert Width(s + t, i) == w;
      assert (s + t)[i + w..] == s[i + w..] + t;
      var l := OnLine(r, judge, s[..i]);
      LineIgnoresBuffer(r, judge, s[..i], s + t);
      if !l.thrown {
        DrainInParts(l.(buffer := s[i + w..]), judge, t, atEnd);
      }
    }
  }

  /** Feeding chunks and then ending is feeding their concatenation and ending, wherever the cuts fall. */
  lemma {:induction false} ChunkingIrrelevant(r: Reader, judge: Judge, chunks: seq<string>)
    ensures Same(Finish(FeedAll(r, judge, chunks), judge), Finish(r.(buffer := r.buffer + Concat(chunks)), judge))
    decreases |chunks|
  {
    hide Drain, OnLine, Dispatch;
    if chunks == [] {
      assert r.buffer + "" == r.buffer;
    } else if r.thrown {
      ChunkingIrrelevant(r, judge, chunks[1..]);
      assert Feed(r, judge, chunks[0]) == r;
    } else {
      var whole := r.(buffer := r.buffer + Concat(chunks));
      var joined := r.(buffer := r.buffer + chunks[0]);
      var d := Feed(r, judge, chunks[0]);
      ChunkingIrrelevant(d, judge, chunks[1..]);
      assert r.buffer + chunks[0] + Concat(chunks[1..]) == r.buffer + Concat(chunks);
      DrainInParts(joined, judge, Concat(chunks[1..]), true);
    }
  }

  // ---------------------------------------------------------------------------
  // What the server writes
  // ---------------------------------------------------------------------------

  datatype Piece = Event(name: string, json: string) | KeepAlive

  function PieceText(p: Piece): string {
    match p
    case Event(name, json) => "event: " + name + "\n" + "data: " + json + "\n" + "\n"
    case KeepAlive => ": keepalive\n" + "\n"
  }

  function Text(ps: seq<Piece>): string {
    if ps == [] then "" else PieceText(ps[0]) + Text(ps[1..])
  }

  /** Event names and JSON text hold no line ends; a JSON text is never empty, and an event is an object. */
  predicate Writable(p: Piece) {
    p.Event? ==> (forall c :: c in p.name || c in p.json ==> !IsBreak(c)) && p.json != "" && p.json != "[DONE]"
  }

  datatype WriterError = ClientDisconnected | SlowConsumer

  /** The response being streamed. */
  class SseWriter {
    var streaming: bool
    var heartbeat: bool
    var output: string
    ghost var pieces: seq<Piece>

    ghost predicate Valid()
      reads this
    {
      output == Text(pieces) && (heartbeat ==> streaming)
    }

    constructor ()
      ensures Valid() && pieces == [] && !streaming && !heartbeat
    {
      streaming, heartbeat, output, pieces := false, false, "", [];
    }

    /** `onEvent`: the first event opens the stream and starts the heartbeat. */
    method OnEvent(name: string, json: string, destroyed: bool, backlogged: bool) returns (error: Option<WriterError>)
      requires Valid()
      modifies this
      ensures Valid()
      ensures error == if destroyed then Some(ClientDisconnected) else if backlogged then Some(SlowConsumer) else None
      ensures pieces == if error.None? then old(pieces) + [Event(name, json)] else old(pieces)
      ensures streaming == (old(streaming) || !destroyed)
      ensures heartbeat == (old(heartbeat) || (!destroyed && !old(streaming)))
    {
      if destroyed {
        return Some(ClientDisconnected);
      }
      if !streaming {
        streaming := true;
        heartbeat := true;
      }
      if backlogged {
        return Some(SlowConsumer);
      }
      TextAppend(pieces, Event(name, json));
      pieces := pieces + [Event(name, json)];
      output := output + ("event: " + name + "\n" + "data: " + json + "\n" + "\n");
      return None;
    }

    /** One tick of the heartbeat timer. */
    method Tick(destroyed: bool)
      requires Valid() && heartbeat
      modifies this
      ensures Valid() && streaming == old(streaming) && heartbeat == old(heartbeat)
      ensures pieces == if destroyed then old(pieces) else old(pieces) + [KeepAlive]
    {
      if !destroyed {
        TextAppend(pieces, KeepAlive);
        pieces := pieces + [KeepAlive];
        output := output + (": keepalive\n" + "\n");
      }
    }

    /** `clearInterval`. */
    method Stop()
      requires Valid()
      modifies this
      ensures Valid() && !heartbeat && pieces == old(pieces) && streaming == old(streaming)
    {
      heartbeat := false;
    }
  }

  lemma {:induction false} TextAppend(ps: seq<Piece>, p: Piece)
    ensures Text(ps + [p]) == Text(ps) + PieceText(p)
  {
    hide PieceText;
    if ps == [] {
      assert [] + [p] == [p] && [p][1..] == [];
      assert Text([p]) == PieceText(p) + Text([]);
    } else {
      assert (ps + [p])[1..] == ps[1..] + [p];
      TextAppend(ps[1..], p);
    }
  }

  // ---------------------------------------------------------------------------
  // The round trip
  // ---------------------------------------------------------------------------

  /** The events, delivered one after another until one is rejected. */
  function DeliverAll(r: Reader, judge: Judge, ps: seq<Piece>): Reader
    decreases |ps|
  {
    if ps == [] || r.thrown then r
    else if ps[0].KeepAlive? then DeliverAll(r, judge, ps[1..])
    else DeliverAll(Deliver(r, judge, ps[0].name, ps[0].json), judge, ps[1..])
  }

  /** A line and its line feed at the front of the buffer is one line read. */
  lemma LineRead(r: Reader, judge: Judge, value: string, after: string, atEnd: bool)
    requires !r.thrown && r.buffer == value + "\n" + after && forall c :: c in value ==> !IsBreak(c)
    ensures var t := OnLine(r, judge, value);
            Drain(r, judge, atEnd) == if t.thrown then t else Drain(t.(buffer := after), judge, atEnd)
  {
    hide OnLine, Drain, Seek;
    var s := r.buffer;
    var i := Seek(s, IsBreak);
    assert s[|value|] == '\n';
    assert forall k :: 0 <= k < |value| ==> s[k] == value[k];
    DrainCases(r, judge, atEnd);
    assert s[..i] == value && s[i + 1..] == after;
  }

  lemma EventLine(r: Reader, judge: Judge, name: string)
    ensures OnLine(r, judge, "event: " + name) == r.(name := name)
  {
    var value := "event: " + name;
    SeparatorAt(value, 5);
    assert value[..5] == "event" && value[6..] == " " + name;
  }

  lemma DataLine(r: Reader, judge: Judge, json: string)
    ensures OnLine(r, judge, "data: " + json) == r.(data := r.data + [json])
  {
    var value := "data: " + json;
    SeparatorAt(value, 4);
    assert value[..4] == "data" && value[5..] == " " + json;
  }

  lemma SeparatorAt(value: string, i: nat)
    requires i < |value| && value[i] == ':' && forall k :: 0 <= k < i ==> value[k] != ':'
    ensures Seek(value, c => c == ':') == i
  {
  }

  lemma PieceRead(r: Reader, judge: Judge, p: Piece, after: string, atEnd: bool)
    requires !r.thrown && r.name == "" && r.data == [] && Writable(p) && r.buffer == PieceText(p) + after
    ensures var t := if p.Event? then Deliver(r, judge, p.name, p.json) else r;
            Same(Drain(r, judge, atEnd), if t.thrown then t else Drain(t.(buffer := after), judge, atEnd))
  {
    hide Drain;
    match p {
      case Event(name, json) =>
        EventRead(r, judge, name, json, after, atEnd);
      case KeepAlive =>
        var rest := "\n" + after;
        assert r.buffer == ": keepalive" + "\n" + rest;
        LineRead(r, judge, ": keepalive", rest, atEnd);
        var t := r.(buffer := rest);
        assert t.buffer == "" + "\n" + after;
        LineRead(t, judge, "", after, atEnd);
    }
  }

  lemma EventText(name: string, json: string, after: string)
    ensures PieceText(Event(name, json)) + after == "event: " + name + "\n" + ("data: " + json + "\n" + ("\n" + after))
  {
  }

  lemma FieldsRead(r: Reader, judge: Judge, name: string, json: string, after: string, atEnd: bool)
    requires !r.thrown && r.name == "" && r.data == [] && Writable(Event(name, json))
    requires r.buffer == PieceText(Event(name, json)) + after
    ensures Drain(r, judge, atEnd) == Drain(r.(name := name, data := [json], buffer := "\n" + after), judge, atEnd)
  {
    hide Drain, OnLine, Seek, PieceText;
    var first := "data: " + json + "\n" + ("\n" + after);
    EventText(name, json, after);
    LineRead(r, judge, "event: " + name, first, atEnd);
    EventLine(r, judge, name);
    var a := r.(name := name, buffer := first);
    LineRead(a, judge, "data: " + json, "\n" + after, atEnd);
    DataLine(a, judge, json);
    assert a.data + [json] == [json];
  }

  lemma EventRead(r: Reader, judge: Judge, name: string, json: string, after: string, atEnd: bool)
    requires !r.thrown && r.name == "" && r.data == [] && Writable(Event(name, json))
    requires r.buffer == PieceText(Event(name, json)) + after
    ensures var t := Deliver(r, judge, name, json);
            Same(Drain(r, judge, atEnd), if t.thrown then t else Drain(t.(buffer := after), judge, atEnd))
  {
    hide Drain, OnLine, PieceText;
    FieldsRead(r, judge, name, json, after, atEnd);
    var b := r.(name := name, data := [json], buffer := "\n" + after);
    assert b.buffer == "" + "\n" + after;
    LineRead(b, judge, "", after, atEnd);
    BlankLine(b, judge);
    assert Join(b.data) == json;
    assert b.(name := "", data := []) == r.(buffer := b.buffer);
  }

  lemma BlankLine(r: Reader, judge: Judge)
    ensures OnLine(r, judge, "") == Dispatch(r, judge)
  {
  }

  lemma {:induction false} TextRead(r: Reader, judge: Judge, ps: seq<Piece>)
    requires !r.thrown && r.name == "" && r.data == [] && r.buffer == Text(ps)
    requires forall i :: 0 <= i < |ps| ==> Writable(ps[i])
    ensures Same(Drain(r, judge, true), DeliverAll(r.(buffer := ""), judge, ps))
    decreases |ps|
  {
    hide Drain, PieceText;
    if ps == [] {
      DrainCases(r, judge, true);
    } else {
      var after := Text(ps[1..]);
      PieceRead(r, judge, ps[0], after, true);
      var t := if ps[0].Event? then Deliver(r, judge, ps[0].name, ps[0].json) else r;
      if !t.thrown {
        TextRead(t.(buffer := after), judge, ps[1..]);
      }
    }
  }

  lemma {:induction false} DeliverAllQuiet(r: Reader, judge: Judge, ps: seq<Piece>)
    requires r.name == "" && r.data == [] && r.buffer == ""
    ensures var d := DeliverAll(r, judge, ps);
            d.name == "" && d.data == [] && d.buffer == ""
    decreases |ps|
  {
    if ps != [] && !r.thrown {
      DeliverAllQuiet(if ps[0].KeepAlive? then r else Deliver(r, judge, ps[0].name, ps[0].json), judge, ps[1..]);
    }
  }

  /**
    What the server writes, keepalive comments wherever they fall, is read back by the client as exactly the
    same events in order, up to the first one it rejects, for every way the text is cut into chunks.
   */
  lemma WrittenIsRead(judge: Judge, ps: seq<Piece>, chunks: seq<string>)
    requires Concat(chunks) == Text(ps) && forall i :: 0 <= i < |ps| ==> Writable(ps[i])
    ensures Same(Finish(FeedAll(Fresh(), judge, chunks), judge), DeliverAll(Fresh(), judge, ps))
  {
    hide Drain, FeedAll, DeliverAll, Text, OnLine;
    ChunkingIrrelevant(Fresh(), judge, chunks);
    var r := Fresh().(buffer := Text(ps));
    assert "" + Concat(chunks) == Text(ps);
    TextRead(r, judge, ps);
    DeliverAllQuiet(Fresh(), judge, ps);
  }

  /** The payloads of the events written. */
  function Payloads(ps: seq<Piece>): seq<Payload> {
    if ps == [] then [] else (if ps[0].Event? then [Payload(ps[0].name, ps[0].json)] else []) + Payloads(ps[1..])
  }

  /** A client that rejects nothing sees every event, once, in order. */
  lemma {:induction false} AllDelivered(r: Reader, judge: Judge, ps: seq<Piece>)
    requires !r.thrown && forall i :: 0 <= i < |ps| && ps[i].Event? ==> judge(ps[i].name, ps[i].json) != Rejected
    ensures var d := DeliverAll(r, judge, ps);
            d.dispatched == r.dispatched + Payloads(ps) && !d.thrown
    decreases |ps|
  {
    if ps == [] {
      assert r.dispatched + [] == r.dispatched;
    } else {
      AllDelivered(if ps[0].KeepAlive? then r else Deliver(r, judge, ps[0].name, ps[0].json), judge, ps[1..]);
      if ps[0].Event? {
        assert r.dispatched + [Payload(ps[0].name, ps[0].json)] + Payloads(ps[1..]) == r.dispatched + Payloads(ps);
      } else {
        assert [] + Payloads(ps[1..]) == Payloads(ps);
      }
    }
  }
}
