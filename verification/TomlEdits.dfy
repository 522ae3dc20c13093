/**
  Setting one key of one table in a TOML file, line by line. Every other line stays as it is; the key then
  stands once in its table; and setting it again changes nothing, provided the new line and the line it
  replaces close the strings they open.
 */
module TomlEdits {
  import opened Wrappers
  import opened TomlLines

  datatype Error =
    | UnterminatedString
    | ArrayTableInUse
    | DuplicateTables
    | MultilineValue
    | MultilineArray
    | DuplicateKeys

  // ---------------------------------------------------------------------------
  // The edit
  // ---------------------------------------------------------------------------

  predicate HasArrayTable(lines: seq<string>, section: string) {
    exists i :: 0 <= i < |lines| && Heading(lines, i).ArrayTable? && SameFolded(Heading(lines, i).name, section)
  }

  /** The lines from `from` on that head the section, in order. */
  function TablesNamed(lines: seq<string>, section: string, from: nat): (ts: seq<nat>)
    requires from <= |lines|
    ensures forall t :: t in ts <==> from <= t < |lines| && Heading(lines, t) == Table(section)
    decreases |lines| - from
  {
    hide Heading;
    if from == |lines| then []
    else
      var rest := TablesNamed(lines, section, from + 1);
      if Heading(lines, from) == Table(section) then [from] + rest else rest
  }

  /** The first header at or after `start`, or the end of the file. */
  function Boundary(lines: seq<string>, start: nat): (b: nat)
    requires start <= |lines|
    ensures start <= b <= |lines|
    ensures forall i :: start <= i < b ==> Heading(lines, i) == NoHeader
    ensures b < |lines| ==> Heading(lines, b) != NoHeader
    decreases |lines| - start
  {
    if start == |lines| || Heading(lines, start) != NoHeader then start else Boundary(lines, start + 1)
  }

  /** The lines to edit, and the lines of the section among them. */
  datatype Place = Place(lines: seq<string>, start: nat, end: nat)

  function HeaderLine(section: string): string { "[" + section + "]" }

  function Locate(lines: seq<string>, section: string): (r: Result<Place, Error>)
    ensures r.Ok? ==> r.value.start <= r.value.end <= |r.value.lines|
  {
    if StateAt(lines, |lines|) != Outside then Err(UnterminatedString)
    else if section == "" then Ok(Place(lines, 0, Boundary(lines, 0)))
    else if HasArrayTable(lines, section) then Err(ArrayTableInUse)
    else
      var ts := TablesNamed(lines, section, 0);
      if |ts| > 1 then Err(DuplicateTables)
      else if |ts| == 1 then
        assert ts[0] in ts;
        Ok(Place(lines, ts[0] + 1, Boundary(lines, ts[0] + 1)))
      else Ok(Place(lines + ["", HeaderLine(section)], |lines| + 2, |lines| + 2))
  }

  function BadValue(line: string): Option<Error> {
    var value := AfterEquals(line);
    if StartsTriple(value) then Some(MultilineValue)
    else if value != "" && value[0] == '[' && !ClosesArray(value) then Some(MultilineArray)
    else None
  }

  predicate KeyAt(lines: seq<string>, key: string, i: nat)
    requires i < |lines|
  {
    Active(lines, i) && HasKey(lines[i], key)
  }

  /** The lines that assign to the key, or the first that cannot be edited. */
  function KeyLines(lines: seq<string>, key: string, from: nat, end: nat): (r: Result<seq<nat>, Error>)
    requires from <= end <= |lines|
    ensures r.Ok? ==> forall i :: i in r.value <==> from <= i < end && KeyAt(lines, key, i)
    ensures r.Ok? ==> forall i :: i in r.value ==> BadValue(lines[i]).None?
    decreases end - from
  {
    hide KeyAt, BadValue;
    if from == end then Ok([])
    else if !KeyAt(lines, key, from) then KeyLines(lines, key, from + 1, end)
    else if BadValue(lines[from]).Some? then Err(BadValue(lines[from]).value)
    else
      var rest := KeyLines(lines, key, from + 1, end);
      if rest.Err? then rest else Ok([from] + rest.value)
  }

  function NewLine(key: string, literal: string): string { key + " = " + literal }

  /** The edited lines and the position of the key's line. */
  datatype Edit = Edit(lines: seq<string>, position: nat, replaced: bool)

  function Apply(p: Place, key: string, literal: string, onlyIfMissing: bool): (r: Result<Edit, Error>)
    requires p.start <= p.end <= |p.lines|
  {
    var found := KeyLines(p.lines, key, p.start, p.end);
    if found.Err? then Err(found.error)
    else if |found.value| > 1 then Err(DuplicateKeys)
    else if |found.value| == 1 then
      assert found.value[0] in found.value;
      Ok(Edit(if onlyIfMissing then p.lines else p.lines[found.value[0] := NewLine(key, literal)], found.value[0], true))
    else Ok(Edit(p.lines[..p.end] + [NewLine(key, literal)] + p.lines[p.end..], p.end, false))
  }

  function Set(lines: seq<string>, section: string, key: string, literal: string, onlyIfMissing: bool): Result<Edit, Error> {
    var p := Locate(lines, section);
    if p.Err? then Err(p.error) else Apply(p.value, key, literal, onlyIfMissing)
  }

  // ---------------------------------------------------------------------------
  // Text and lines
  // ---------------------------------------------------------------------------

  /** Splits at LF and CRLF. */
  function SplitFrom(s: string, current: string): (lines: seq<string>)
    ensures lines != []
    decreases |s|
  {
    if s == "" then [current]
    else if s[0] == '\n' then [current] + SplitFrom(s[1..], "")
    else if s[0] == '\r' && |s| > 1 && s[1] == '\n' then [current] + SplitFrom(s[2..], "")
    else SplitFrom(s[1..], current + [s[0]])
  }

  function SplitLines(text: string): seq<string> { SplitFrom(text, "") }

  function JoinLines(lines: seq<string>): string
    requires lines != []
  {
    if |lines| == 1 then lines[0] else lines[0] + "\r\n" + JoinLines(lines[1..])
  }

  // ---------------------------------------------------------------------------
  // The editor
  // ---------------------------------------------------------------------------

  /** The configuration under edit. */
  class ClientConfig {
    var text: string

    constructor (text: string)
      ensures this.text == text
    {
      this.text := text;
    }

    method SetTomlValue(section: string, key: string, literal: string, onlyIfMissing: bool) returns (error: Option<Error>)
      modifies this
      ensures var r := Set(SplitLines(old(text)), section, key, literal, onlyIfMissing);
              if r.Ok? then error == None && r.value.lines != [] && text == JoinLines(r.value.lines)
              else error == Some(r.error) && text == old(text)
    {
      hide Locate, KeyLines, JoinLines;
      var lines := SplitLines(text);
      var located := LocateSection(lines, section);
      if located.Err? {
        return Some(located.error);
      }
      var place := located.value;
      var keys := FindKeys(place, key);
      if keys.Err? {
        return Some(keys.error);
      }
      if |keys.value| > 1 {
        return Some(DuplicateKeys);
      }
      if |keys.value| == 1 {
        assert keys.value[0] in keys.value;
        lines := if onlyIfMissing then place.lines else place.lines[keys.value[0] := NewLine(key, literal)];
      } else {
        lines := place.lines[..place.end] + [NewLine(key, literal)] + place.lines[place.end..];
      }
      text := JoinLines(lines);
      return None;
    }
  }

  /** Where the section's lines are; a missing table is added at the end. */
  method LocateSection(lines: seq<string>, section: string) returns (r: Result<Place, Error>)
    ensures r == Locate(lines, section)
  {
    hide Heading, SameFolded, LexLine;
    var unterminated, tables, arrayTables, boundaries, active := GetTomlStructure(lines);
    if unterminated {
      return Err(UnterminatedString);
    }
    if section == "" {
      var end := FirstBoundary(lines, 0, boundaries);
      return Ok(Place(lines, 0, end));
    }
    if exists i :: i in arrayTables && SameFolded(arrayTables[i], section) {
      return Err(ArrayTableInUse);
    }
    var found := MatchingTables(lines, section, tables);
    if |found| > 1 {
      return Err(DuplicateTables);
    }
    if |found| == 1 {
      assert found[0] in found;
      var end := FirstBoundary(lines, found[0] + 1, boundaries);
      return Ok(Place(lines, found[0] + 1, end));
    }
    return Ok(Place(lines + ["", HeaderLine(section)], |lines| + 2, |lines| + 2));
  }

  /** The lines of the table map that head the section, sorted. */
  method MatchingTables(lines: seq<string>, section: string, tables: map<nat, string>) returns (found: seq<nat>)
    requires forall i: nat :: i in tables <==> i < |lines| && Heading(lines, i).Table?
    requires forall i: nat :: i in tables ==> Heading(lines, i) == Table(tables[i])
    ensures found == TablesNamed(lines, section, 0)
  {
    hide Heading;
    found := [];
    var n: nat := |lines|;
    while n > 0
      invariant n <= |lines| && found == TablesNamed(lines, section, n)
    {
      n := n - 1;
      if n in tables && tables[n] == section {
        found := [n] + found;
      }
    }
  }

  /** The first boundary at or after `start`. */
  method FirstBoundary(lines: seq<string>, start: nat, boundaries: set<nat>) returns (end: nat)
    requires start <= |lines|
    requires forall i: nat :: i in boundaries <==> i < |lines| && Heading(lines, i) != NoHeader
    ensures end == Boundary(lines, start)
  {
    hide Heading;
    end := start;
    while end < |lines|
      invariant start <= end <= |lines| && Boundary(lines, end) == Boundary(lines, start)
    {
      if end in boundaries {
        return;
      }
      end := end + 1;
    }
  }

  /** The search for the key between two positions. */
  method FindKeys(p: Place, key: string) returns (r: Result<seq<nat>, Error>)
    requires p.start <= p.end <= |p.lines|
    ensures r == KeyLines(p.lines, key, p.start, p.end)
  {
    hide KeyAt, BadValue;
    var found: seq<nat> := [];
    ghost var all := KeyLines(p.lines, key, p.start, p.end);
    assert all.Ok? ==> found + all.value == all.value;
    var i := p.start;
    while i < p.end
      invariant p.start <= i <= p.end
      invariant var rest := KeyLines(p.lines, key, i, p.end);
                KeyLines(p.lines, key, p.start, p.end) == if rest.Ok? then Ok(found + rest.value) else rest
    {
      if KeyAt(p.lines, key, i) {
        var bad := BadValue(p.lines[i]);
        if bad.Some? {
          return Err(bad.value);
        }
        ghost var rest := KeyLines(p.lines, key, i + 1, p.end);
        assert rest.Ok? ==> found + ([i] + rest.value) == found + [i] + rest.value;
        found := found + [i];
      }
      i := i + 1;
    }
    assert found + [] == found;
    return Ok(found);
  }

  // ---------------------------------------------------------------------------
  // What the edit leaves alone
  // ---------------------------------------------------------------------------

  /** The lines the edit works on: the file, and the header of a table it did not have. */
  function Base(lines: seq<string>, section: string): seq<string> {
    var p := Locate(lines, section);
    if p.Ok? then p.value.lines else lines
  }

  /** Where the section's lines are lies outside every string, and so does the end of the section. */
  lemma SectionEndsOutside(lines: seq<string>, section: string)
    requires SimpleSection(section) && Locate(lines, section).Ok?
    ensures var p := Locate(lines, section).value;
            && StateAt(p.lines, |p.lines|) == Outside && StateAt(p.lines, p.end) == Outside
            && (forall i :: p.start <= i < p.end ==> Heading(p.lines, i) == NoHeader)
            && Locate(p.lines, section) == Ok(p)
  {
    hide HeaderOf, LexLine, SameFolded;
    var p := Locate(lines, section).value;
    if p.lines != lines {
      Extended(lines, section);
    }
  }

  lemma EmptyLine()
    ensures LexLine(Outside, "") == Outside && HeaderOf("") == NoHeader
  {
  }

  /** A section that is not in the file is found once its header is added. */
  lemma Extended(lines: seq<string>, section: string)
    requires SimpleSection(section) && section != "" && StateAt(lines, |lines|) == Outside
    requires !HasArrayTable(lines, section) && TablesNamed(lines, section, 0) == []
    ensures var more := lines + ["", HeaderLine(section)];
            Locate(more, section) == Ok(Place(more, |more|, |more|)) && StateAt(more, |more|) == Outside
  {
    hide HeaderOf, LexLine, SameFolded;
    var more := lines + ["", HeaderLine(section)];
    var n := |lines|;
    EmptyLine();
    forall k: nat | k <= n ensures StateAt(more, k) == StateAt(lines, k) {
      assert more[..k] == lines[..k];
      StatePrefix(more, lines, k);
    }
    assert StateAt(more, n + 1) == Outside && StateAt(more, n + 2) == Outside;
    assert Heading(more, n) == NoHeader && Heading(more, n + 1) == Table(section);
    forall i | 0 <= i < n ensures Heading(more, i) == Heading(lines, i) {
    }
    forall i | 0 <= i < n ensures Heading(lines, i) != Table(section) {
      assert i !in TablesNamed(lines, section, 0);
    }
    OneTable(more, section, n + 1, 0);
  }

  lemma {:induction false} OneTable(lines: seq<string>, section: string, t: nat, from: nat)
    requires from <= |lines| && t < |lines|
    requires forall i :: 0 <= i < |lines| ==> (Heading(lines, i) == Table(section) <==> i == t)
    ensures TablesNamed(lines, section, from) == if from <= t then [t] else []
    decreases |lines| - from
  {
    hide Heading;
    if from < |lines| {
      OneTable(lines, section, t, from + 1);
    }
  }

  /** A name the header pattern reads back as itself. */
  predicate SimpleSection(section: string) {
    section == "" || (HeaderOf(HeaderLine(section)) == Table(section) && Closes(HeaderLine(section)))
  }

  /** Every other line stays, in order, and the key's line begins outside every multiline string. */
  lemma OthersUnchanged(lines: seq<string>, section: string, key: string, literal: string, onlyIfMissing: bool)
    requires SimpleSection(section) && Set(lines, section, key, literal, onlyIfMissing).Ok?
    ensures var e := Set(lines, section, key, literal, onlyIfMissing).value;
            var base := Base(lines, section);
            && (base == lines || base == lines + ["", HeaderLine(section)])
            && e.position <= |base| && StateAt(base, e.position) == Outside
            && (e.replaced ==>
                  && base == lines && e.position < |lines| && HasKey(lines[e.position], key)
                  && |e.lines| == |lines|
                  && (forall i :: 0 <= i < |lines| && i != e.position ==> e.lines[i] == lines[i])
                  && e.lines[e.position] == if onlyIfMissing then lines[e.position] else NewLine(key, literal))
            && (!e.replaced ==>
                  && |e.lines| == |base| + 1
                  && e.lines[..e.position] == base[..e.position] && e.lines[e.position + 1..] == base[e.position..]
                  && e.lines[e.position] == NewLine(key, literal))
  {
    hide HeaderOf, LexLine, SameFolded, HasKey, BadValue;
    SectionEndsOutside(lines, section);
    var p := Locate(lines, section).value;
    var found := KeyLines(p.lines, key, p.start, p.end);
    if |found.value| == 1 {
      assert found.value[0] in found.value;
    }
  }
}
