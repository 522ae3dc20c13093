/**
  What setting a TOML key guarantees, and when: the lexical classification of every other line is kept exactly
  when the replaced line closed its own strings, and then the key stands once and setting it again is idle.
 */
module TomlResults {
  import opened Wrappers
  import opened TomlLines
  import opened TomlEdits

  // ---------------------------------------------------------------------------
  // The new line
  // ---------------------------------------------------------------------------

  /** A key the key pattern finds at the start of its line. */
  predicate SimpleKey(key: string) { key != "" && !Space(key[0]) && key[0] != '[' }

  /** A literal that keeps to its line: it closes its strings and is none of the values the editor refuses. */
  predicate SimpleValue(key: string, literal: string) {
    Closes(NewLine(key, literal)) && BadValue(NewLine(key, literal)).None?
  }

  lemma NewLineRead(key: string, literal: string)
    requires SimpleKey(key)
    ensures HasKey(NewLine(key, literal), key) && HeaderOf(NewLine(key, literal)) == NoHeader
  {
    var line := NewLine(key, literal);
    assert line[0] == key[0];
    assert TrimStart(line) == line;
    assert line[..|key|] == key;
    var rest := line[|key|..];
    assert rest == " = " + literal;
    assert rest[0] == ' ' && rest[1..][0] == '=';
    assert TrimStart(rest) == rest[1..];
  }

  // ---------------------------------------------------------------------------
  // Replacing a line
  // ---------------------------------------------------------------------------

  /** Every line begins in the same state in both files. */
  ghost predicate SameStates(lines: seq<string>, other: seq<string>) {
    |lines| == |other| && forall n: nat :: n <= |lines| ==> StateAt(lines, n) == StateAt(other, n)
  }

  /** Replacing a line that began outside keeps every later state exactly when the old and new line end alike. */
  lemma ReplaceStates(lines: seq<string>, i: nat, line: string)
    requires i < |lines| && StateAt(lines, i) == Outside && Closes(line)
    ensures SameStates(lines[i := line], lines) <==> Closes(lines[i])
  {
    hide StateAt, LexLine;
    if Closes(lines[i]) {
      ReplaceKeeps(lines, i, line);
    } else {
      ReplaceChanges(lines, i, line);
    }
  }

  lemma ReplaceChanges(lines: seq<string>, i: nat, line: string)
    requires i < |lines| && StateAt(lines, i) == Outside && Closes(line) && !Closes(lines[i])
    ensures StateAt(lines[i := line], i + 1) != StateAt(lines, i + 1)
  {
    var after := lines[i := line];
    assert after[..i] == lines[..i];
    StatePrefix(after, lines, i);
    hide StateAt, LexLine;
    StateNext(after, i);
    StateNext(lines, i);
  }

  lemma ReplaceKeeps(lines: seq<string>, i: nat, line: string)
    requires i < |lines| && StateAt(lines, i) == Outside && Closes(line) && Closes(lines[i])
    ensures SameStates(lines[i := line], lines)
  {
    hide StateAt, LexLine;
    forall n: nat | n <= |lines| ensures StateAt(lines[i := line], n) == StateAt(lines, n) {
      ReplaceKeepsAt(lines, i, line, n);
    }
  }

  lemma ReplaceKeepsAt(lines: seq<string>, i: nat, line: string, n: nat)
    requires i < |lines| && n <= |lines| && StateAt(lines, i) == Outside && Closes(line) && Closes(lines[i])
    ensures StateAt(lines[i := line], n) == StateAt(lines, n)
  {
    hide StateAt, LexLine;
    var after := lines[i := line];
    if n <= i {
      assert after[..n] == lines[..n];
      StatePrefix(after, lines, n);
    } else {
      assert after[..i] == lines[..i];
      StatePrefix(after, lines, i);
      StateNext(after, i);
      StateNext(lines, i);
      var d := n - i - 1;
      assert after[i + 1..i + 1 + d] == lines[i + 1..i + 1 + d];
      StateCarries(after, i + 1, lines, i + 1, d);
    }
  }

  lemma StateNext(lines: seq<string>, n: nat)
    requires n < |lines|
    ensures StateAt(lines, n + 1) == LexLine(StateAt(lines, n), lines[n])
  {
  }

  /** The tables and array tables of files with the same headings are the same. */
  lemma {:induction false} SameTables(lines: seq<string>, after: seq<string>, section: string, from: nat)
    requires |lines| == |after| && from <= |lines|
    requires forall i: nat :: i < |lines| ==> Heading(after, i) == Heading(lines, i)
    ensures TablesNamed(after, section, from) == TablesNamed(lines, section, from)
    ensures HasArrayTable(after, section) <==> HasArrayTable(lines, section)
    decreases |lines| - from
  {
    hide Heading, SameFolded;
    if from < |lines| {
      SameTables(lines, after, section, from + 1);
    }
  }

  lemma {:induction false} BoundaryIs(lines: seq<string>, start: nat, b: nat)
    requires start <= b <= |lines| && (b < |lines| ==> Heading(lines, b) != NoHeader)
    requires forall i :: start <= i < b ==> Heading(lines, i) == NoHeader
    ensures Boundary(lines, start) == b
    decreases b - start
  {
    hide Heading;
    if start < b {
      BoundaryIs(lines, start + 1, b);
    }
  }

  lemma ReplaceLocated(lines: seq<string>, section: string, p: Place, i: nat, line: string)
    requires Locate(lines, section) == Ok(p) && p.lines == lines && p.start <= i < p.end
    requires StateAt(lines, i) == Outside && Closes(line) && Closes(lines[i]) && HeaderOf(line) == NoHeader
    ensures Locate(lines[i := line], section) == Ok(p.(lines := lines[i := line]))
  {
    hide HeaderOf, LexLine, SameFolded, StateAt;
    var after := lines[i := line];
    ReplaceStates(lines, i, line);
    forall k: nat | k < |lines| ensures Heading(after, k) == Heading(lines, k) {
      assert StateAt(after, k) == StateAt(lines, k);
    }
    assert StateAt(after, |lines|) == StateAt(lines, |lines|);
    SameTables(lines, after, section, 0);
    forall k | p.start <= k < p.end ensures Heading(after, k) == NoHeader {
      assert Heading(after, k) == Heading(lines, k);
    }
    BoundaryIs(after, p.start, p.end);
  }

  /** If k is the only line of the key in the range, the search finds it alone. */
  lemma {:induction false} OnlyKey(lines: seq<string>, key: string, from: nat, end: nat, k: nat)
    requires from <= end <= |lines| && k < end && BadValue(lines[k]).None?
    requires forall i :: from <= i < end ==> (KeyAt(lines, key, i) <==> i == k)
    ensures KeyLines(lines, key, from, end) == Ok(if from <= k then [k] else [])
    decreases end - from
  {
    hide KeyAt, BadValue;
    if from < end {
      OnlyKey(lines, key, from + 1, end, k);
      assert [from] + [] == [from];
    }
  }

  /** The key stands once in its section, at position k, with this line. */
  ghost predicate KeyOnce(lines: seq<string>, section: string, key: string, k: nat) {
    var p := Locate(lines, section);
    && p.Ok? && p.value.lines == lines && p.value.start <= k < p.value.end
    && forall i :: p.value.start <= i < p.value.end ==> (KeyAt(lines, key, i) <==> i == k)
  }

  lemma FoundOnce(lines: seq<string>, key: string, start: nat, end: nat)
    requires start <= end <= |lines|
    requires KeyLines(lines, key, start, end).Ok? && |KeyLines(lines, key, start, end).value| == 1
    ensures var k := KeyLines(lines, key, start, end).value[0];
            && start <= k < end && KeyAt(lines, key, k) && BadValue(lines[k]).None?
            && forall i :: start <= i < end ==> (KeyAt(lines, key, i) <==> i == k)
  {
    hide KeyAt, BadValue;
    var found := KeyLines(lines, key, start, end).value;
    assert found == [found[0]];
    assert found[0] in found;
    forall i | start <= i < end ensures KeyAt(lines, key, i) <==> i == found[0] {
      assert i in found <==> KeyAt(lines, key, i);
    }
  }

  lemma ReplacedOnce(lines: seq<string>, section: string, p: Place, key: string, literal: string, k: nat)
    requires Locate(lines, section) == Ok(p) && p.lines == lines && SimpleKey(key) && SimpleValue(key, literal)
    requires p.start <= k < p.end && KeyAt(lines, key, k) && Closes(lines[k])
    requires forall i :: p.start <= i < p.end ==> (KeyAt(lines, key, i) <==> i == k)
    ensures var after := lines[k := NewLine(key, literal)];
            && KeyOnce(after, section, key, k) && Locate(after, section) == Ok(p.(lines := after))
            && KeyLines(after, key, p.start, p.end) == Ok([k])
  {
    hide HeaderOf, LexLine, SameFolded, HasKey, Locate, BadValue, NewLine, StateAt, SimpleKey;
    var line := NewLine(key, literal);
    var after := lines[k := line];
    NewLineRead(key, literal);
    ReplaceLocated(lines, section, p, k, line);
    ReplaceStates(lines, k, line);
    forall i | p.start <= i < p.end ensures KeyAt(after, key, i) <==> i == k {
      assert StateAt(after, i) == StateAt(lines, i);
      assert KeyAt(lines, key, i) <==> i == k;
      assert i != k ==> after[i] == lines[i];
    }
    OnlyKey(after, key, p.start, p.end, k);
  }

  // ---------------------------------------------------------------------------
  // Inserting a line
  // ---------------------------------------------------------------------------

  function Inserted(lines: seq<string>, at: nat, line: string): (out: seq<string>)
    requires at <= |lines|
    ensures |out| == |lines| + 1
    ensures forall i :: 0 <= i < at ==> out[i] == lines[i]
    ensures out[at] == line
    ensures forall i :: at <= i < |lines| ==> out[i + 1] == lines[i]
  {
    lines[..at] + [line] + lines[at..]
  }

  /** A new line that closes its strings, put where no string is open, keeps the state of every other line. */
  lemma InsertStates(lines: seq<string>, at: nat, line: string)
    requires at <= |lines| && StateAt(lines, at) == Outside && Closes(line)
    ensures var after := Inserted(lines, at, line);
            && (forall n: nat :: n <= at ==> StateAt(after, n) == StateAt(lines, n))
            && (forall n: nat :: at <= n <= |lines| ==> StateAt(after, n + 1) == StateAt(lines, n))
  {
    hide LexLine;
    var after := Inserted(lines, at, line);
    forall n: nat | n <= at ensures StateAt(after, n) == StateAt(lines, n) {
      assert after[..n] == lines[..n];
      StatePrefix(after, lines, n);
    }
    assert StateAt(after, at + 1) == Outside;
    forall n: nat | at <= n <= |lines| ensures StateAt(after, n + 1) == StateAt(lines, n) {
      assert after[at + 1..at + 1 + (n - at)] == lines[at..at + (n - at)];
      StateCarries(after, at + 1, lines, at, n - at);
    }
  }

  /** The headings of a file with one plain line more. */
  ghost predicate Shifted(lines: seq<string>, after: seq<string>, at: nat) {
    && at <= |lines| && |after| == |lines| + 1
    && (forall i: nat :: i < at ==> Heading(after, i) == Heading(lines, i))
    && Heading(after, at) == NoHeader
    && (forall i: nat :: at < i <= |lines| ==> Heading(after, i) == Heading(lines, i - 1))
  }

  lemma InsertHeadings(lines: seq<string>, at: nat, line: string)
    requires at <= |lines| && StateAt(lines, at) == Outside && Closes(line) && HeaderOf(line) == NoHeader
    ensures Shifted(lines, Inserted(lines, at, line), at)
    ensures StateAt(Inserted(lines, at, line), |lines| + 1) == StateAt(lines, |lines|)
  {
    hide HeaderOf, LexLine, Inserted, StateAt;
    InsertStates(lines, at, line);
    var after := Inserted(lines, at, line);
    forall i: nat | i < at ensures Heading(after, i) == Heading(lines, i) {
      assert StateAt(after, i) == StateAt(lines, i);
    }
    forall i: nat | at < i <= |lines| ensures Heading(after, i) == Heading(lines, i - 1) {
      assert StateAt(after, i - 1 + 1) == StateAt(lines, i - 1) && after[i - 1 + 1] == lines[i - 1];
    }
  }

  lemma LocateCases(lines: seq<string>, section: string, p: Place)
    requires p.lines == lines
    ensures Locate(lines, section) == Ok(p) <==>
            && StateAt(lines, |lines|) == Outside
            && p.start <= |lines| && p.end == Boundary(lines, p.start)
            && (section == "" ==> p.start == 0)
            && (section != "" ==> p.start > 0 && !HasArrayTable(lines, section) && TablesNamed(lines, section, 0) == [p.start - 1])
  {
    hide StateAt, Boundary, HasArrayTable, TablesNamed;
  }

  lemma InsertLocated(lines: seq<string>, section: string, p: Place, line: string)
    requires Locate(lines, section) == Ok(p) && p.lines == lines && StateAt(lines, p.end) == Outside
    requires Closes(line) && HeaderOf(line) == NoHeader
    ensures var after := Inserted(lines, p.end, line);
            Locate(after, section) == Ok(Place(after, p.start, p.end + 1))
  {
    hide *;
    var after := Inserted(lines, p.end, line);
    LocateCases(lines, section, p);
    InsertHeadings(lines, p.end, line);
    if section != "" {
      NoNewArrayTable(lines, after, section, p.end);
      TableStays(lines, after, section, p.end, p.start - 1);
    }
    BoundaryShifts(lines, after, p.start, p.end);
    LocateCases(after, section, Place(after, p.start, p.end + 1));
  }

  lemma BoundaryShifts(lines: seq<string>, after: seq<string>, start: nat, at: nat)
    requires Shifted(lines, after, at) && start <= at && Boundary(lines, start) == at
    ensures Boundary(after, start) == at + 1
  {
    hide Heading, Boundary;
    BoundaryIs(after, start, at + 1);
  }

  lemma NoNewArrayTable(lines: seq<string>, after: seq<string>, section: string, at: nat)
    requires Shifted(lines, after, at) && !HasArrayTable(lines, section)
    ensures !HasArrayTable(after, section)
  {
    hide Heading, SameFolded;
    forall i: nat | i < |after| && Heading(after, i).ArrayTable? ensures !SameFolded(Heading(after, i).name, section) {
      assert Heading(after, i) == Heading(lines, if i < at then i else i - 1);
    }
  }

  lemma TableStays(lines: seq<string>, after: seq<string>, section: string, at: nat, t: nat)
    requires Shifted(lines, after, at) && t < at && TablesNamed(lines, section, 0) == [t]
    ensures TablesNamed(after, section, 0) == [t]
  {
    hide Heading, TablesNamed;
    var ts := TablesNamed(lines, section, 0);
    assert t in ts;
    forall i: nat | i < |after| ensures Heading(after, i) == Table(section) <==> i == t {
      if i < at {
        assert Heading(lines, i) == Table(section) <==> i in ts;
      } else if i > at {
        assert Heading(lines, i - 1) == Table(section) <==> i - 1 in ts;
      }
    }
    OneTable(after, section, t, 0);
  }

  lemma InsertedOnce(lines: seq<string>, section: string, p: Place, key: string, literal: string)
    requires Locate(lines, section) == Ok(p) && p.lines == lines && StateAt(lines, p.end) == Outside
    requires SimpleKey(key) && SimpleValue(key, literal)
    requires forall i :: p.start <= i < p.end ==> !KeyAt(lines, key, i)
    ensures var after := Inserted(lines, p.end, NewLine(key, literal));
            && KeyOnce(after, section, key, p.end) && Locate(after, section) == Ok(Place(after, p.start, p.end + 1))
            && KeyLines(after, key, p.start, p.end + 1) == Ok([p.end])
  {
    hide HeaderOf, LexLine, SameFolded, HasKey, Locate, BadValue, NewLine, StateAt, SimpleKey, Inserted;
    var line := NewLine(key, literal);
    var after := Inserted(lines, p.end, line);
    NewLineRead(key, literal);
    InsertStates(lines, p.end, line);
    InsertLocated(lines, section, p, line);
    forall i | p.start <= i < p.end + 1 ensures KeyAt(after, key, i) <==> i == p.end {
      if i < p.end {
        assert StateAt(after, i) == StateAt(lines, i) && after[i] == lines[i];
        assert !KeyAt(lines, key, i);
      } else {
        assert StateAt(after, p.end) == StateAt(lines, p.end) && after[p.end] == line;
      }
    }
    OnlyKey(after, key, p.start, p.end + 1, p.end);
  }

  // ---------------------------------------------------------------------------
  // The results
  // ---------------------------------------------------------------------------

  /** A line that is replaced closes its own strings. */
  predicate OldCloses(lines: seq<string>, e: Edit, onlyIfMissing: bool) {
    e.replaced && !onlyIfMissing && e.position < |lines| ==> Closes(lines[e.position])
  }

  /** After a successful edit the key stands exactly once in its section, and a second edit changes nothing. */
  lemma SetOnceAndIdempotent(lines: seq<string>, section: string, key: string, literal: string, onlyIfMissing: bool)
    requires SimpleSection(section) && SimpleKey(key) && SimpleValue(key, literal)
    requires Set(lines, section, key, literal, onlyIfMissing).Ok?
    requires OldCloses(lines, Set(lines, section, key, literal, onlyIfMissing).value, onlyIfMissing)
    ensures var e := Set(lines, section, key, literal, onlyIfMissing).value;
            && KeyOnce(e.lines, section, key, e.position)
            && (e.lines[e.position] == NewLine(key, literal) || (onlyIfMissing && e.lines == lines))
            && Set(e.lines, section, key, literal, onlyIfMissing) == Ok(Edit(e.lines, e.position, true))
  {
    hide HeaderOf, LexLine, SameFolded, HasKey, Locate, BadValue, NewLine, StateAt, SimpleKey, SimpleSection, KeyAt, KeyLines;
    SectionEndsOutside(lines, section);
    BaseIs(lines, section);
    var p := Locate(lines, section).value;
    var found := KeyLines(p.lines, key, p.start, p.end).value;
    if |found| == 1 {
      FoundOnce(p.lines, key, p.start, p.end);
      if !onlyIfMissing {
        KeyInFile(lines, section, found[0]);
        ReplacedOnce(p.lines, section, p, key, literal, found[0]);
        var after := lines[found[0] := NewLine(key, literal)];
        assert after[found[0] := NewLine(key, literal)] == after;
      } else {
        KeyInFile(lines, section, found[0]);
      }
    } else {
      NoneFound(p.lines, key, p.start, p.end);
      InsertedOnce(p.lines, section, p, key, literal);
      var after := Inserted(p.lines, p.end, NewLine(key, literal));
      assert after[p.end := NewLine(key, literal)] == after;
    }
  }

  lemma BaseIs(lines: seq<string>, section: string)
    requires SimpleSection(section) && Locate(lines, section).Ok?
    ensures Locate(Locate(lines, section).value.lines, section) == Locate(lines, section)
  {
    hide Locate;
    SectionEndsOutside(lines, section);
  }

  /** A section that had to be added has no lines yet. */
  lemma KeyInFile(lines: seq<string>, section: string, k: nat)
    requires Locate(lines, section).Ok?
    requires Locate(lines, section).value.start <= k < Locate(lines, section).value.end
    ensures Locate(lines, section).value.lines == lines
  {
  }

  lemma NoneFound(lines: seq<string>, key: string, start: nat, end: nat)
    requires start <= end <= |lines| && KeyLines(lines, key, start, end) == Ok([])
    ensures forall i :: start <= i < end ==> !KeyAt(lines, key, i)
  {
    hide KeyAt, BadValue;
    forall i | start <= i < end ensures !KeyAt(lines, key, i) {
      assert i !in KeyLines(lines, key, start, end).value;
    }
  }

  /** The state in which each line of the edited file begins, told from the file before. */
  ghost predicate ClassesKept(base: seq<string>, e: Edit)
    requires !e.replaced ==> |e.lines| == |base| + 1
  {
    if e.replaced then SameStates(e.lines, base)
    else
      && (forall n: nat :: n <= e.position && n <= |base| ==> StateAt(e.lines, n) == StateAt(base, n))
      && (forall n: nat :: e.position <= n <= |base| ==> StateAt(e.lines, n + 1) == StateAt(base, n))
  }

  /**
    The lexical classification of every other line is kept exactly when the line replaced, if one is,
    closes the strings it opens; an inserted line always keeps it.
   */
  lemma ClassesKeptExactly(lines: seq<string>, section: string, key: string, literal: string, onlyIfMissing: bool)
    requires SimpleSection(section) && SimpleValue(key, literal)
    requires Set(lines, section, key, literal, onlyIfMissing).Ok?
    ensures var e := Set(lines, section, key, literal, onlyIfMissing).value;
            var base := Base(lines, section);
            && (e.replaced ==> |e.lines| == |base|) && (!e.replaced ==> |e.lines| == |base| + 1)
            && (ClassesKept(base, e) <==> OldCloses(lines, e, onlyIfMissing))
  {
    hide HeaderOf, LexLine, SameFolded, HasKey, Locate, BadValue, NewLine, StateAt, SimpleSection, KeyAt, KeyLines;
    SectionEndsOutside(lines, section);
    OthersUnchanged(lines, section, key, literal, onlyIfMissing);
    var e := Set(lines, section, key, literal, onlyIfMissing).value;
    var p := Locate(lines, section).value;
    if !e.replaced {
      InsertStates(p.lines, p.end, NewLine(key, literal));
      assert e.position == p.end;
      assert e.lines == Inserted(p.lines, p.end, NewLine(key, literal));
    } else if !onlyIfMissing {
      ReplaceStates(lines, e.position, NewLine(key, literal));
      assert e.lines == lines[e.position := NewLine(key, literal)];
    } else {
      assert e.lines == lines;
    }
  }

  // ---------------------------------------------------------------------------
  // A replaced line that leaves a string open
  // ---------------------------------------------------------------------------

  const OPENING: string := "x={y=\"\"\""
  const CLOSING: string := "\"\"\"}"

  lemma OpeningScanned()
    ensures LexLine(Outside, OPENING) == InBasic
  {
    assert Scan(OPENING, 8, InBasic, None, false) == InBasic;
    assert Scan(OPENING, 5, Outside, None, false) == InBasic;
    assert Scan(OPENING, 3, Outside, None, false) == InBasic;
  }

  lemma ClosingScanned()
    ensures LexLine(InBasic, CLOSING) == Outside && LexLine(Outside, CLOSING) == InBasic
  {
    assert Scan(CLOSING, 3, Outside, None, false) == Outside;
    assert Scan(CLOSING, 3, InBasic, None, false) == InBasic;
  }

  lemma ReplacementScanned()
    ensures LexLine(Outside, NewLine("x", "1")) == Outside
  {
    var c := NewLine("x", "1");
    assert Scan(c, 5, Outside, None, false) == Outside;
    assert Scan(c, 3, Outside, None, false) == Outside;
    assert Scan(c, 1, Outside, None, false) == Outside;
  }

  lemma OpeningKey()
    ensures HeaderOf(OPENING) == NoHeader && HasKey(OPENING, "x")
  {
    assert TrimStart(OPENING) == OPENING;
    assert OPENING[..1] == "x" && OPENING[1..][0] == '=';
  }

  lemma OpeningValue()
    ensures BadValue(OPENING).None?
  {
    hide ClosesArray;
    assert OPENING[1..][0] == '=' && Run(OPENING[1..], NotEqualsSign) == 0;
    assert Run(OPENING, NotEqualsSign) == 1;
    var value := OPENING[2..];
    assert value[0] == '{' && TrimStart(value) == value;
  }

  /**
    A value whose multiline string begins inside an inline table is not recognised as one: replacing its
    first line leaves the rest behind, and the file no longer reads.
   */
  lemma OpenStringBreaks()
    ensures var lines := [OPENING, CLOSING];
            && !Closes(lines[0])
            && Set(lines, "", "x", "1", false) == Ok(Edit([NewLine("x", "1"), CLOSING], 0, true))
            && Set([NewLine("x", "1"), CLOSING], "", "x", "1", false) == Err(UnterminatedString)
  {
    hide LexLine, HeaderOf, HasKey, BadValue, NewLine;
    var lines := [OPENING, CLOSING];
    OpeningScanned();
    ClosingScanned();
    ReplacementScanned();
    OpeningKey();
    OpeningValue();
    assert StateAt(lines, 1) == InBasic;
    assert StateAt(lines, 2) == LexLine(StateAt(lines, 1), lines[1]);
    assert Heading(lines, 0) == NoHeader && Heading(lines, 1) == NoHeader;
    BoundaryIs(lines, 0, 2);
    OnlyKey(lines, "x", 0, 2, 0);
    assert lines[0 := NewLine("x", "1")] == [NewLine("x", "1"), CLOSING];
    var after := [NewLine("x", "1"), CLOSING];
    assert StateAt(after, 1) == Outside;
    assert StateAt(after, 2) == LexLine(StateAt(after, 1), after[1]);
  }

  // ---------------------------------------------------------------------------
  // On the text
  // ---------------------------------------------------------------------------

  predicate OneLine(s: string) { '\n' !in s }

  lemma {:induction false} SplitLine(line: string, rest: string, current: string)
    requires OneLine(line) && (rest == "" || (|rest| >= 2 && rest[0] == '\r' && rest[1] == '\n'))
    ensures SplitFrom(line + rest, current) == SplitFrom(rest, current + line)
    decreases |line|
  {
    if line == "" {
      assert line + rest == rest && current + line == current;
    } else {
      var s := line + rest;
      assert s[0] == line[0] && line[0] in line;
      assert s[1..] == line[1..] + rest;
      if |line| > 1 {
        assert s[1] == line[1] && line[1] in line;
      } else if rest != "" {
        assert s[1] == rest[0];
      }
      SplitLine(line[1..], rest, current + [line[0]]);
      assert current + [line[0]] + line[1..] == current + line;
    }
  }

  /** Joined lines split into those lines. */
  lemma {:induction false} SplitJoin(lines: seq<string>)
    requires lines != [] && forall l :: l in lines ==> OneLine(l)
    ensures SplitLines(JoinLines(lines)) == lines
    decreases |lines|
  {
    assert lines[0] in lines;
    assert "" + lines[0] == lines[0];
    if |lines| == 1 {
      SplitLine(lines[0], "", "");
      assert lines[0] + "" == lines[0];
    } else {
      var rest := "\r\n" + JoinLines(lines[1..]);
      SplitLine(lines[0], rest, "");
      assert JoinLines(lines) == lines[0] + rest;
      assert rest[2..] == JoinLines(lines[1..]);
      SplitJoin(lines[1..]);
      assert lines == [lines[0]] + lines[1..];
    }
  }

  lemma {:induction false} SplitOneLine(s: string, current: string)
    requires OneLine(current)
    ensures forall l :: l in SplitFrom(s, current) ==> OneLine(l)
    decreases |s|
  {
    if s != "" {
      if s[0] == '\n' {
        SplitOneLine(s[1..], "");
      } else if s[0] == '\r' && |s| > 1 && s[1] == '\n' {
        SplitOneLine(s[2..], "");
      } else {
        SplitOneLine(s[1..], current + [s[0]]);
      }
    }
  }

  /** Writing the file and reading it again, a second edit leaves the text as it is. */
  lemma TextIdempotent(text: string, section: string, key: string, literal: string, onlyIfMissing: bool)
    requires SimpleSection(section) && SimpleKey(key) && SimpleValue(key, literal)
    requires OneLine(section) && OneLine(key) && OneLine(literal)
    requires Set(SplitLines(text), section, key, literal, onlyIfMissing).Ok?
    requires OldCloses(SplitLines(text), Set(SplitLines(text), section, key, literal, onlyIfMissing).value, onlyIfMissing)
    ensures var e := Set(SplitLines(text), section, key, literal, onlyIfMissing).value;
            && e.lines != []
            && Set(SplitLines(JoinLines(e.lines)), section, key, literal, onlyIfMissing) == Ok(Edit(e.lines, e.position, true))
  {
    hide HeaderOf, LexLine, Locate, BadValue, StateAt, SimpleKey, SimpleSection, SimpleValue, KeyLines, Closes;
    var lines := SplitLines(text);
    SplitOneLine(text, "");
    OthersUnchanged(lines, section, key, literal, onlyIfMissing);
    SetOnceAndIdempotent(lines, section, key, literal, onlyIfMissing);
    var e := Set(lines, section, key, literal, onlyIfMissing).value;
    assert lines[..] == lines;
    forall l | l in e.lines ensures OneLine(l) {
      EditedLine(lines, section, key, literal, onlyIfMissing, l);
    }
    SplitJoin(e.lines);
  }

  lemma EditedLine(lines: seq<string>, section: string, key: string, literal: string, onlyIfMissing: bool, l: string)
    requires SimpleSection(section) && Set(lines, section, key, literal, onlyIfMissing).Ok?
    requires l in Set(lines, section, key, literal, onlyIfMissing).value.lines
    ensures l in lines || l == "" || l == HeaderLine(section) || l == NewLine(key, literal)
  {
    hide HeaderOf, LexLine, Locate, BadValue, StateAt, SimpleSection, KeyLines, Set, Base, NewLine, HeaderLine, HasKey;
    OthersUnchanged(lines, section, key, literal, onlyIfMissing);
    var e := Set(lines, section, key, literal, onlyIfMissing).value;
    var base := Base(lines, section);
    var i :| 0 <= i < |e.lines| && e.lines[i] == l;
    if !e.replaced && i != e.position {
      if i < e.position {
        assert e.lines[..e.position][i] == base[i];
      } else {
        assert e.lines[e.position + 1..][i - e.position - 1] == base[e.position..][i - e.position - 1];
      }
      assert l in base;
    }
  }
}
