/**
  When an edit is refused, and with which error, said of the lines of the file: what heads them, which of them
  belong to the section, and which assign to the key.
 */
module TomlErrors {
  import opened Wrappers
  import opened TomlLines
  import opened TomlEdits
  import opened TomlGrammar

  /** Line i belongs to the section: the last header above it is the section's, or there is none for the root. */
  ghost predicate InSection(lines: seq<string>, section: string, i: nat)
    requires i < |lines|
  {
    if section == "" then forall j: nat :: j <= i ==> Heading(lines, j) == NoHeader
    else exists h: nat :: h < i && Heading(lines, h) == Table(section) && Unheaded(lines, h + 1, i + 1)
  }

  ghost predicate Unheaded(lines: seq<string>, from: nat, end: nat)
    requires end <= |lines|
  {
    forall j: nat :: from <= j < end ==> Heading(lines, j) == NoHeader
  }

  /** Line i, outside every string, assigns to the key in the section. */
  ghost predicate KeyLine(lines: seq<string>, section: string, key: string, i: nat) {
    i < |lines| && StateAt(lines, i) == Outside && InSection(lines, section, i) && Assigns(lines[i], key)
  }

  ghost predicate ListsTable(lines: seq<string>, section: string) {
    exists i: nat :: i < |lines| && Heading(lines, i).ArrayTable? && SameFolded(Heading(lines, i).name, section)
  }

  ghost predicate TwoTables(lines: seq<string>, section: string) {
    exists i: nat, j: nat :: i < j < |lines| && Heading(lines, i) == Table(section) && Heading(lines, j) == Table(section)
  }

  /** The lines of the section, if it can be told which they are. */
  ghost predicate Covers(lines: seq<string>, section: string, p: Place) {
    if p.lines == lines then forall i: nat :: i < |lines| ==> (InSection(lines, section, i) <==> p.start <= i < p.end)
    else p.start == p.end && forall i: nat :: i < |lines| ==> !InSection(lines, section, i)
  }

  lemma RootCovers(lines: seq<string>)
    ensures Covers(lines, "", Place(lines, 0, Boundary(lines, 0)))
  {
    hide Heading;
    var b := Boundary(lines, 0);
    forall i: nat | i < |lines| ensures InSection(lines, "", i) <==> i < b {
    }
  }

  /** With one header, the section runs to the next one. */
  lemma TableCovers(lines: seq<string>, section: string, h: nat)
    requires section != "" && h < |lines| && Heading(lines, h) == Table(section)
    requires forall j: nat :: j < |lines| && Heading(lines, j) == Table(section) ==> j == h
    ensures Covers(lines, section, Place(lines, h + 1, Boundary(lines, h + 1)))
  {
    hide Heading;
    var b := Boundary(lines, h + 1);
    forall i: nat | i < |lines| ensures InSection(lines, section, i) <==> h + 1 <= i < b {
      if InSection(lines, section, i) {
        var g: nat :| g < i && Heading(lines, g) == Table(section) && Unheaded(lines, g + 1, i + 1);
        assert g == h;
      }
      if h + 1 <= i < b {
        assert Unheaded(lines, h + 1, i + 1);
      }
    }
  }

  lemma NoneCovers(lines: seq<string>, section: string, p: Place)
    requires section != "" && forall j: nat :: j < |lines| ==> Heading(lines, j) != Table(section)
    requires p == Place(lines + ["", HeaderLine(section)], |lines| + 2, |lines| + 2)
    ensures Covers(lines, section, p)
  {
    hide Heading;
    assert |p.lines| != |lines|;
  }

  /** Why a section cannot be located, or where it is. */
  lemma LocatesExactly(lines: seq<string>, section: string)
    ensures var r := Locate(lines, section);
      var whole := StateAt(lines, |lines|) == Outside;
      && (r == Err(UnterminatedString) <==> !whole)
      && (r == Err(ArrayTableInUse) <==> whole && section != "" && ListsTable(lines, section))
      && (r == Err(DuplicateTables) <==> whole && section != "" && !ListsTable(lines, section) && TwoTables(lines, section))
      && (r.Ok? <==> whole && (section != "" ==> !ListsTable(lines, section) && !TwoTables(lines, section)))
      && (r.Ok? ==> Covers(lines, section, r.value))
  {
    ListedExactly(lines, section);
    NamedExactly(lines, section);
    RootCovers(lines);
    hide Heading, StateAt, Boundary, TablesNamed, Covers, ListsTable, TwoTables, HasArrayTable;
    var ts := TablesNamed(lines, section, 0);
    if section != "" {
      if |ts| == 1 {
        TableCovers(lines, section, ts[0]);
      } else if |ts| == 0 {
        NoneCovers(lines, section, Place(lines + ["", HeaderLine(section)], |lines| + 2, |lines| + 2));
      }
    }
  }

  lemma ListedExactly(lines: seq<string>, section: string)
    ensures HasArrayTable(lines, section) <==> ListsTable(lines, section)
  {
    hide Heading, SameFolded;
  }

  lemma NamedExactly(lines: seq<string>, section: string)
    ensures var ts := TablesNamed(lines, section, 0);
      && (|ts| > 1 <==> TwoTables(lines, section))
      && (|ts| == 1 ==> ts[0] < |lines| && Heading(lines, ts[0]) == Table(section)
                        && forall j: nat :: j < |lines| && Heading(lines, j) == Table(section) ==> j == ts[0])
      && (|ts| == 0 ==> forall j: nat :: j < |lines| ==> Heading(lines, j) != Table(section))
  {
    hide Heading;
    var ts := TablesNamed(lines, section, 0);
    TablesAscend(lines, section, 0);
    hide TablesNamed;
    if |ts| > 1 {
      assert ts[0] in ts && ts[1] in ts && ts[0] < ts[1];
    } else if |ts| == 1 {
      assert ts[0] in ts;
    }
    if TwoTables(lines, section) {
      var i: nat, j: nat :| i < j < |lines| && Heading(lines, i) == Table(section) && Heading(lines, j) == Table(section);
      assert i in ts && j in ts;
    }
  }

  predicate Ascending(ts: seq<nat>) { forall i, j :: 0 <= i < j < |ts| ==> ts[i] < ts[j] }

  lemma AscendsBefore(t: nat, ts: seq<nat>)
    requires Ascending(ts) && forall x :: x in ts ==> t < x
    ensures Ascending([t] + ts)
  {
    assert forall j :: 0 <= j < |ts| ==> ts[j] in ts;
  }

  lemma {:induction false} TablesAscend(lines: seq<string>, section: string, from: nat)
    requires from <= |lines|
    ensures Ascending(TablesNamed(lines, section, from))
    decreases |lines| - from
  {
    hide Heading, Ascending;
    if from < |lines| {
      TablesAscend(lines, section, from + 1);
      AscendsBefore(from, TablesNamed(lines, section, from + 1));
    } else {
      NothingAscends();
    }
  }

  lemma NothingAscends()
    ensures Ascending([])
  {
  }

  // ---------------------------------------------------------------------------
  // The keys of the section
  // ---------------------------------------------------------------------------

  lemma {:induction false} KeysExactly(lines: seq<string>, key: string, from: nat, end: nat)
    requires from <= end <= |lines|
    ensures var r := KeyLines(lines, key, from, end);
      && (r.Ok? <==> forall i: nat :: from <= i < end && KeyAt(lines, key, i) ==> BadValue(lines[i]).None?)
      && (r.Ok? ==> forall i, j :: 0 <= i < j < |r.value| ==> r.value[i] < r.value[j])
      && (r.Err? ==> r.error == MultilineValue || r.error == MultilineArray)
    decreases end - from
  {
    hide KeyAt, AfterEquals, ClosesArray;
    if from < end {
      KeysExactly(lines, key, from + 1, end);
      var rest := KeyLines(lines, key, from + 1, end);
      if rest.Ok? {
        forall j | 0 <= j < |rest.value| ensures from < rest.value[j] {
          assert rest.value[j] in rest.value;
        }
      }
    }
  }

  /** What Apply makes of the keys of the place. */
  lemma AppliesExactly(p: Place, key: string, literal: string, onlyIfMissing: bool)
    requires p.start <= p.end <= |p.lines|
    ensures var r := Apply(p, key, literal, onlyIfMissing);
      var fine := forall i: nat :: p.start <= i < p.end && KeyAt(p.lines, key, i) ==> BadValue(p.lines[i]).None?;
      var twice := exists i: nat, j: nat :: p.start <= i < j < p.end && KeyAt(p.lines, key, i) && KeyAt(p.lines, key, j);
      && (r == Err(DuplicateKeys) <==> fine && twice)
      && (r.Ok? <==> fine && !twice)
      && (r.Err? && !fine ==> r.error == MultilineValue || r.error == MultilineArray)
  {
    KeysExactly(p.lines, key, p.start, p.end);
    hide KeyAt, BadValue;
    var found := KeyLines(p.lines, key, p.start, p.end);
    if found.Ok? {
      if |found.value| > 1 {
        assert found.value[0] in found.value && found.value[1] in found.value;
      }
      if i: nat, j: nat :| p.start <= i < j < p.end && KeyAt(p.lines, key, i) && KeyAt(p.lines, key, j) {
        assert i in found.value && j in found.value;
      }
    }
  }

  /** The key lines of the file are those of the place. */
  lemma KeyLinesOf(lines: seq<string>, section: string, key: string, p: Place, i: nat)
    requires PlainKey(key) && Covers(lines, section, p) && p.start <= p.end <= |p.lines|
    ensures p.lines == lines ==>
      (KeyLine(lines, section, key, i) <==> p.start <= i < p.end && KeyAt(lines, key, i))
    ensures p.lines != lines ==> !KeyLine(lines, section, key, i)
  {
    hide InSection, KeyAt, Assigns, StateAt;
    if i < |lines| {
      KeyAtExactly(lines, key, i);
    }
  }

  /**
    An edit succeeds exactly if no string is left open, the section is no array table and has one header at
    most, and at most one of its lines assigns to the key, with a value that ends on its line; and each error
    says which of these fails, in this order.
   */
  lemma EditsExactly(lines: seq<string>, section: string, key: string, literal: string, onlyIfMissing: bool)
    requires PlainKey(key)
    ensures var r := Set(lines, section, key, literal, onlyIfMissing);
      var whole := StateAt(lines, |lines|) == Outside;
      var found := whole && (section != "" ==> !ListsTable(lines, section) && !TwoTables(lines, section));
      var fine := forall i: nat :: KeyLine(lines, section, key, i) ==> BadValue(lines[i]).None?;
      var twice := exists i: nat, j: nat :: i < j && KeyLine(lines, section, key, i) && KeyLine(lines, section, key, j);
      && (r == Err(UnterminatedString) <==> !whole)
      && (r == Err(ArrayTableInUse) <==> whole && section != "" && ListsTable(lines, section))
      && (r == Err(DuplicateTables) <==> whole && section != "" && !ListsTable(lines, section) && TwoTables(lines, section))
      && (r == Err(MultilineValue) || r == Err(MultilineArray) <==> found && !fine)
      && (r == Err(DuplicateKeys) <==> found && fine && twice)
      && (r.Ok? <==> found && fine && !twice)
  {
    LocatesExactly(lines, section);
    hide Locate, ListsTable, TwoTables, StateAt, KeyLine, KeyAt, BadValue, Covers, PlainKey, KeyLines, Apply;
    if Locate(lines, section).Ok? {
      var p := Locate(lines, section).value;
      AppliesExactly(p, key, literal, onlyIfMissing);
      forall i: nat ensures (p.lines == lines ==> (KeyLine(lines, section, key, i) <==> p.start <= i < p.end && KeyAt(lines, key, i)))
                         && (p.lines != lines ==> !KeyLine(lines, section, key, i)) {
        KeyLinesOf(lines, section, key, p, i);
      }
      if p.lines != lines {
        EmptyPlace(lines, section, p);
      }
    }
  }

  lemma EmptyPlace(lines: seq<string>, section: string, p: Place)
    requires Covers(lines, section, p) && p.lines != lines
    ensures p.start == p.end
  {
  }
}
