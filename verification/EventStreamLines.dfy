/**
  Any text that section 9.2 of the WHATWG HTML standard reads as an event is read as that event by the client:
  fields in any order and number, with or without the space behind the colon, comments and unknown fields
  between them, and any of the three line ends.
 */
module EventStreamLines {
  import opened Wrappers
  import opened ServerSentEvents

  /** One line of an event; `spaced` if a space follows the colon. */
  datatype Line =
    | Name(value: string, spaced: bool)
    | Data(value: string, spaced: bool)
    | Comment(text: string)
    | Other(field: string, value: string, spaced: bool)
    | Bare(field: string)

  function Gap(spaced: bool): string { if spaced then " " else "" }

  function LineText(l: Line): string {
    match l
    case Name(value, spaced) => "event:" + Gap(spaced) + value
    case Data(value, spaced) => "data:" + Gap(spaced) + value
    case Comment(text) => ":" + text
    case Other(field, value, spaced) => field + ":" + Gap(spaced) + value
    case Bare(field) => field
  }

  predicate OneLine(s: string) { forall c :: c in s ==> c != '\r' && c != '\n' }

  /** A value written without a space does not begin with one. */
  predicate Spaced(value: string, spaced: bool) { spaced || value == "" || value[0] != ' ' }

  predicate FieldName(field: string) { field != "" && OneLine(field) && forall c :: c in field ==> c != ':' }

  predicate Proper(l: Line) {
    match l
    case Name(value, spaced) => OneLine(value) && Spaced(value, spaced)
    case Data(value, spaced) => OneLine(value) && Spaced(value, spaced)
    case Comment(text) => OneLine(text)
    case Other(field, value, spaced) => FieldName(field) && field != "event" && field != "data" && OneLine(value)
    case Bare(field) => FieldName(field)
  }

  /** What a line says: the last name counts, data lines add up, a field without a colon has no value. */
  function Says(r: Reader, l: Line): Reader {
    match l
    case Name(value, _) => r.(name := value)
    case Data(value, _) => r.(data := r.data + [value])
    case Bare(field) => if field == "event" then r.(name := "") else if field == "data" then r.(data := r.data + [""]) else r
    case _ => r
  }

  predicate LineEnd(e: string) { e == "\n" || e == "\r\n" || e == "\r" }

  /** A bare CR is not completed to a CRLF by what follows, and is known to be whole. */
  predicate Closed(e: string, after: string, atEnd: bool) {
    e == "\r" ==> if after == "" then atEnd else after[0] != '\n'
  }

  function BlockText(lines: seq<Line>, e: string): string {
    if lines == [] then e else LineText(lines[0]) + e + BlockText(lines[1..], e)
  }

  function SaysAll(r: Reader, lines: seq<Line>): Reader
    decreases |lines|
  {
    if lines == [] then r else SaysAll(Says(r, lines[0]), lines[1..])
  }

  // ---------------------------------------------------------------------------
  // One line
  // ---------------------------------------------------------------------------

  lemma ColonAt(value: string, i: nat)
    requires i < |value| && value[i] == ':' && forall k :: 0 <= k < i ==> value[k] != ':'
    ensures Seek(value, c => c == ':') == i
  {
  }

  lemma NoColon(value: string)
    requires forall c :: c in value ==> c != ':'
    ensures Seek(value, c => c == ':') == |value|
  {
    assert forall k :: 0 <= k < |value| ==> value[k] in value;
  }

  /** The field's name ends at the colon, and one space behind it does not count. */
  lemma FieldSays(r: Reader, judge: Judge, field: string, value: string, spaced: bool)
    requires FieldName(field) && Spaced(value, spaced)
    ensures OnLine(r, judge, field + ":" + Gap(spaced) + value) ==
      if field == "event" then r.(name := value) else if field == "data" then r.(data := r.data + [value]) else r
  {
    hide Seek;
    var line := field + ":" + Gap(spaced) + value;
    assert forall k :: 0 <= k < |field| ==> line[k] == field[k] && field[k] in field;
    ColonAt(line, |field|);
    assert line[..|field|] == field;
    assert line[|field| + 1..] == Gap(spaced) + value;
    assert spaced ==> (Gap(spaced) + value)[1..] == value;
    assert !spaced ==> Gap(spaced) + value == value;
    assert line[0] == field[0];
  }

  /** A field that is not known may have any value. */
  lemma OtherSays(r: Reader, judge: Judge, field: string, rest: string)
    requires FieldName(field) && field != "event" && field != "data"
    ensures OnLine(r, judge, field + ":" + rest) == r
  {
    var line := field + ":" + rest;
    assert forall k :: 0 <= k < |field| ==> line[k] == field[k] && field[k] in field;
    ColonAt(line, |field|);
    assert line[..|field|] == field && line[0] == field[0];
  }

  lemma BareSays(r: Reader, judge: Judge, field: string)
    requires FieldName(field)
    ensures OnLine(r, judge, field) == Says(r, Bare(field))
  {
    NoColon(field);
    assert field[0] in field;
    assert field[..|field|] == field;
  }

  /** A line is read as what it says. */
  lemma LineSays(r: Reader, judge: Judge, l: Line)
    requires Proper(l)
    ensures OnLine(r, judge, LineText(l)) == Says(r, l)
  {
    hide OnLine, Seek;
    match l
    case Name(value, spaced) =>
      FieldSays(r, judge, "event", value, spaced);
      assert "event" + ":" == "event:";
    case Data(value, spaced) =>
      FieldSays(r, judge, "data", value, spaced);
      assert "data" + ":" == "data:";
      assert |"data"| != |"event"|;
    case Comment(text) => CommentSays(r, judge, text);
    case Other(field, value, spaced) =>
      OtherSays(r, judge, field, Gap(spaced) + value);
      assert field + ":" + Gap(spaced) + value == field + ":" + (Gap(spaced) + value);
    case Bare(field) => BareSays(r, judge, field);
  }

  lemma LineWhole(l: Line)
    requires Proper(l)
    ensures LineText(l) != "" && OneLine(LineText(l))
  {
  }

  lemma CommentSays(r: Reader, judge: Judge, text: string)
    ensures OnLine(r, judge, ":" + text) == r
  {
  }

  lemma BreakAt(s: string, value: string)
    requires OneLine(value) && |value| < |s| && s[..|value|] == value && IsBreak(s[|value|])
    ensures Seek(s, IsBreak) == |value|
  {
    var i := Seek(s, IsBreak);
    assert forall k :: 0 <= k < |value| ==> s[k] == value[k] && value[k] in value;
  }

  /** A line with its end at the front of the buffer is taken as a line, whichever of the three ends it is. */
  lemma EndTaken(r: Reader, judge: Judge, value: string, e: string, after: string, atEnd: bool)
    requires r.buffer == value + e + after && OneLine(value) && LineEnd(e) && Closed(e, after, atEnd)
    ensures var t := OnLine(r, judge, value);
      Drain(r, judge, atEnd) == if t.thrown then t else Drain(t.(buffer := after), judge, atEnd)
  {
    hide OnLine, Drain, Seek;
    var s := r.buffer;
    var n := |value|;
    assert s[..n] == value && s[n] == e[0] && s[n..] == e + after;
    BreakAt(s, value);
    DrainCases(r, judge, atEnd);
    if e == "\r\n" {
      assert s[n + 1] == e[1];
      assert s[n + 2..] == after;
    } else {
      assert s[n + 1..] == after;
      assert after != "" ==> s[n + 1] == after[0];
    }
  }

  // ---------------------------------------------------------------------------
  // One event
  // ---------------------------------------------------------------------------

  lemma BlockStarts(lines: seq<Line>, e: string)
    requires LineEnd(e) && forall i :: 0 <= i < |lines| ==> Proper(lines[i])
    ensures BlockText(lines, e) != "" && (e == "\r" ==> BlockText(lines, e)[0] != '\n')
  {
    if lines != [] {
      var text := LineText(lines[0]);
      LineWhole(lines[0]);
      assert BlockText(lines, e)[0] == text[0] && text[0] in text;
    }
  }

  lemma SaysQuiet(r: Reader, l: Line)
    ensures Says(r, l).thrown == r.thrown && Says(r, l).buffer == r.buffer
  {
  }

  /** The lines of an event, then a blank one. */
  lemma {:induction false} BlockTaken(r: Reader, judge: Judge, lines: seq<Line>, e: string, after: string, atEnd: bool)
    requires !r.thrown && r.buffer == BlockText(lines, e) + after && LineEnd(e) && Closed(e, after, atEnd)
    requires forall i :: 0 <= i < |lines| ==> Proper(lines[i])
    ensures var t := Dispatch(SaysAll(r, lines), judge);
      Drain(r, judge, atEnd) == if t.thrown then t.(buffer := Drain(r, judge, atEnd).buffer) else Drain(t.(buffer := after), judge, atEnd)
    decreases |lines|
  {
    hide Drain, OnLine, Dispatch, Says, LineText, Proper;
    if lines == [] {
      assert r.buffer == "" + e + after;
      EndTaken(r, judge, "", e, after, atEnd);
      BlankSays(r, judge);
    } else {
      var rest := BlockText(lines[1..], e) + after;
      var text := LineText(lines[0]);
      assert r.buffer == text + e + rest;
      LineSays(r, judge, lines[0]);
      LineWhole(lines[0]);
      SaysQuiet(r, lines[0]);
      BlockStarts(lines[1..], e);
      assert Closed(e, rest, atEnd);
      EndTaken(r, judge, text, e, rest, atEnd);
      var t := Says(r, lines[0]).(buffer := rest);
      BlockTaken(t, judge, lines[1..], e, after, atEnd);
      AllIgnoreBuffer(Says(r, lines[0]), lines[1..], rest);
      DispatchIgnores(SaysAll(Says(r, lines[0]), lines[1..]), judge, rest);
    }
  }

  lemma BlankSays(r: Reader, judge: Judge)
    ensures OnLine(r, judge, "") == Dispatch(r, judge)
  {
  }

  lemma {:induction false} AllIgnoreBuffer(r: Reader, lines: seq<Line>, b: string)
    ensures SaysAll(r.(buffer := b), lines) == SaysAll(r, lines).(buffer := b)
    decreases |lines|
  {
    if lines != [] {
      AllIgnoreBuffer(Says(r, lines[0]), lines[1..], b);
      assert Says(r.(buffer := b), lines[0]) == Says(r, lines[0]).(buffer := b);
    }
  }

  lemma DispatchIgnores(r: Reader, judge: Judge, b: string)
    ensures Dispatch(r.(buffer := b), judge) == Dispatch(r, judge).(buffer := b)
  {
  }

  // ---------------------------------------------------------------------------
  // What the event is
  // ---------------------------------------------------------------------------

  /** The values of the data lines, in order. */
  function DataOf(lines: seq<Line>): seq<string> {
    if lines == [] then []
    else
      var l := lines[|lines| - 1];
      DataOf(lines[..|lines| - 1]) + (if l.Data? then [l.value] else if l == Bare("data") then [""] else [])
  }

  /** The last name given, or none. */
  function NameOf(lines: seq<Line>): string {
    if lines == [] then ""
    else
      var l := lines[|lines| - 1];
      if l.Name? then l.value else if l == Bare("event") then "" else NameOf(lines[..|lines| - 1])
  }

  lemma {:induction false} SaysSnoc(r: Reader, lines: seq<Line>, l: Line)
    ensures SaysAll(r, lines + [l]) == Says(SaysAll(r, lines), l)
    decreases |lines|
  {
    if lines == [] {
      assert [l][1..] == [];
      assert SaysAll(r, [l]) == SaysAll(Says(r, l), []);
    } else {
      assert (lines + [l])[1..] == lines[1..] + [l];
      SaysSnoc(Says(r, lines[0]), lines[1..], l);
    }
  }

  lemma {:induction false} SaysWhat(r: Reader, lines: seq<Line>)
    requires r.name == "" && r.data == []
    ensures SaysAll(r, lines) == r.(name := NameOf(lines), data := DataOf(lines))
    decreases |lines|
  {
    if lines != [] {
      var last := |lines| - 1;
      assert lines == lines[..last] + [lines[last]];
      SaysSnoc(r, lines[..last], lines[last]);
      SaysWhat(r, lines[..last]);
    }
  }

  /**
    An event at the front of the buffer, however it is written, is delivered under its last name with its data
    lines joined, and the reader goes on behind it; without data, or as the end marker, it is passed over.
   */
  lemma EventRead(r: Reader, judge: Judge, lines: seq<Line>, e: string, after: string, atEnd: bool)
    requires !r.thrown && r.name == "" && r.data == [] && r.buffer == BlockText(lines, e) + after
    requires LineEnd(e) && Closed(e, after, atEnd) && forall i :: 0 <= i < |lines| ==> Proper(lines[i])
    ensures var data := Join(DataOf(lines));
      var heard := r.(dispatched := r.dispatched + [Payload(NameOf(lines), data)]);
      var t := Drain(r, judge, atEnd);
      if data == "" || data == "[DONE]" then t == Drain(r.(buffer := after), judge, atEnd)
      else match judge(NameOf(lines), data)
        case Rejected => t == heard.(thrown := true, buffer := t.buffer)
        case Completes => t == Drain(heard.(completed := Some(data), buffer := after), judge, atEnd)
        case Ignored => t == Drain(heard.(buffer := after), judge, atEnd)
  {
    BlockTaken(r, judge, lines, e, after, atEnd);
    SaysWhat(r, lines);
    hide Drain, BlockText, DataOf, NameOf, Join, SaysAll;
  }
}
