/**
  What the editor recognises in a line, said by what the line is made of: assignments as space, key, space,
  equals sign; headers as names between brackets; and strings and comments as a sequence of tokens.
 */
module TomlGrammar {
  import opened Wrappers
  import opened TomlLines
  import opened TomlEdits
  import opened TomlResults

  predicate Blank(s: string) { forall i :: 0 <= i < |s| ==> Space(s[i]) }

  // ---------------------------------------------------------------------------
  // Assignments
  // ---------------------------------------------------------------------------

  /** Space, the key in any case, space, an equals sign, and whatever follows. */
  predicate AssignsAt(line: string, key: string, before: string, name: string, between: string, rest: string) {
    && line == before + name + between + "=" + rest
    && Blank(before) && SameFolded(name, key) && Blank(between)
  }

  ghost predicate Assigns(line: string, key: string) {
    exists before, name, between, rest :: AssignsAt(line, key, before, name, between, rest)
  }

  lemma {:induction false} TrimStartIs(before: string, s: string)
    requires Blank(before) && (s == "" || !Space(s[0]))
    ensures TrimStart(before + s) == s
  {
    if before == "" {
      assert before + s == s;
    } else {
      assert (before + s)[1..] == before[1..] + s;
      TrimStartIs(before[1..], s);
    }
  }

  lemma {:induction false} TrimStartSplits(s: string) returns (before: string)
    ensures s == before + TrimStart(s) && Blank(before) && (TrimStart(s) == "" || !Space(TrimStart(s)[0]))
  {
    if s != "" && Space(s[0]) {
      var more := TrimStartSplits(s[1..]);
      before := [s[0]] + more;
      assert s == [s[0]] + s[1..];
    } else {
      before := "";
    }
  }

  /** Letters have two cases, space has none. */
  lemma FoldedSpace(c: char, d: char)
    requires Fold(c) == Fold(d) && !Space(d)
    ensures !Space(c)
  {
  }

  /** The editor finds an assignment to a key in exactly the lines that are one. */
  lemma HasKeyExactly(line: string, key: string)
    requires key == "" || !Space(key[0])
    ensures HasKey(line, key) <==> Assigns(line, key)
  {
    if HasKey(line, key) {
      HasKeyAssigns(line, key);
    }
    if Assigns(line, key) {
      var before, name, between, rest :| AssignsAt(line, key, before, name, between, rest);
      AssignsHasKey(line, key, before, name, between, rest);
    }
  }

  lemma HasKeyAssigns(line: string, key: string)
    requires HasKey(line, key)
    ensures Assigns(line, key)
  {
    var s := TrimStart(line);
    var before := TrimStartSplits(line);
    var between := TrimStartSplits(s[|key|..]);
    var t := TrimStart(s[|key|..]);
    hide TrimStart, SameFolded, Space;
    Pieces(line, before, s, |key|, between, t);
    assert AssignsAt(line, key, before, s[..|key|], between, t[1..]);
  }

  lemma Pieces(line: string, before: string, s: string, n: nat, between: string, t: string)
    requires line == before + s && n <= |s| && s[n..] == between + t && t != "" && t[0] == '='
    ensures line == before + s[..n] + between + "=" + t[1..]
  {
    assert t == "=" + t[1..];
    assert s == s[..n] + s[n..];
  }

  lemma AssignsHasKey(line: string, key: string, before: string, name: string, between: string, rest: string)
    requires (key == "" || !Space(key[0])) && AssignsAt(line, key, before, name, between, rest)
    ensures HasKey(line, key)
  {
    var tail := "=" + rest;
    assert !Space('=');
    TrimStartIs(between, tail);
    assert between + tail == between + "=" + rest;
    if key == "" {
      assert name == "" && line == (before + between) + tail;
      TrimStartIs(before + between, tail);
      TrimStartIs("", tail);
    } else {
      var s := name + (between + tail);
      FoldedSpace(name[0], key[0]);
      assert line == before + s;
      TrimStartIs(before, s);
      assert s[..|key|] == name && s[|key|..] == between + tail;
    }
  }

  /** A key without space and equals sign. */
  predicate PlainKey(key: string) { key != "" && forall i :: 0 <= i < |key| ==> !Space(key[i]) && key[i] != '=' }

  lemma PlainName(name: string, key: string)
    requires PlainKey(key) && SameFolded(name, key)
    ensures PlainKey(name)
  {
    forall i | 0 <= i < |name| ensures !Space(name[i]) && name[i] != '=' {
      FoldedSpace(name[i], key[i]);
      assert Fold(name[i]) == Fold(key[i]);
    }
  }

  /** A line that assigns to a plain key assigns to no other. */
  lemma OneAssignment(line: string, key: string, other: string)
    requires PlainKey(key) && PlainKey(other) && Assigns(line, key) && Assigns(line, other)
    ensures SameFolded(key, other)
  {
    hide SameFolded, Assigns, PlainKey, StopsPlain;
    var n1, x1 := AssignedName(line, key);
    var n2, x2 := AssignedName(line, other);
    SameName(n1, x1, n2, x2);
    SameFoldedBoth(n1, key, other);
  }

  /** The assigned name, and what follows it. */
  lemma AssignedName(line: string, key: string) returns (name: string, rest: string)
    requires PlainKey(key) && Assigns(line, key)
    ensures TrimStart(line) == name + rest && PlainKey(name) && StopsPlain(rest) && SameFolded(name, key)
  {
    var before, n, between, r :| AssignsAt(line, key, before, n, between, r);
    name, rest := n, between + ("=" + r);
    PlainName(name, key);
    hide SameFolded;
    assert line == before + (name + rest);
    TrimStartIs(before, name + rest);
  }

  predicate StopsPlain(s: string) { s != "" && (Space(s[0]) || s[0] == '=') }

  lemma SameName(a: string, x: string, b: string, y: string)
    requires PlainKey(a) && PlainKey(b) && StopsPlain(x) && StopsPlain(y) && a + x == b + y
    ensures a == b
  {
    if |a| < |b| {
      Overlap(a, x, b, y);
    } else if |b| < |a| {
      Overlap(b, y, a, x);
    } else {
      assert (a + x)[..|a|] == a && (b + y)[..|a|] == b;
    }
  }

  lemma Overlap(a: string, x: string, b: string, y: string)
    requires a + x == b + y && |a| < |b| && x != ""
    ensures b[|a|] == x[0]
  {
    assert (a + x)[|a|] == x[0] && (b + y)[|a|] == b[|a|];
  }

  lemma SameFoldedBoth(name: string, key: string, other: string)
    requires SameFolded(name, key) && SameFolded(name, other)
    ensures SameFolded(key, other)
  {
  }

  /** Where line i of the file stands after the edit. */
  function Moved(e: Edit, i: nat): nat { if e.replaced || i < e.position then i else i + 1 }

  /**
    Setting one key never touches a line that assigns to another: it is still there, at its place or one line
    further down. And a line is replaced only if it assigns to the key itself.
   */
  lemma OtherKeysUntouched(lines: seq<string>, section: string, key: string, literal: string, onlyIfMissing: bool, other: string, i: nat)
    requires SimpleSection(section) && Set(lines, section, key, literal, onlyIfMissing).Ok?
    requires PlainKey(key) && PlainKey(other) && !SameFolded(key, other) && i < |lines| && Assigns(lines[i], other)
    ensures var e := Set(lines, section, key, literal, onlyIfMissing).value;
      && Moved(e, i) < |e.lines| && e.lines[Moved(e, i)] == lines[i]
      && (e.replaced ==> e.position < |lines| && Assigns(lines[e.position], key) && e.position != i)
  {
    OthersUnchanged(lines, section, key, literal, onlyIfMissing);
    var e := Set(lines, section, key, literal, onlyIfMissing).value;
    hide Set, SimpleSection, Assigns, SameFolded, PlainKey, StateAt;
    if e.replaced {
      KeyStarts(key);
      HasKeyExactly(lines[e.position], key);
      if e.position == i {
        OneAssignment(lines[i], key, other);
      }
    } else {
      InsertedAt(Base(lines, section), e.lines, e.position, i);
    }
  }

  lemma KeyStarts(key: string)
    requires PlainKey(key)
    ensures !Space(key[0])
  {
  }

  lemma InsertedAt(base: seq<string>, after: seq<string>, at: nat, i: nat)
    requires i < |base| && at <= |base| && |after| == |base| + 1
    requires after[..at] == base[..at] && after[at + 1..] == base[at..]
    ensures after[if i < at then i else i + 1] == base[i]
  {
    if i < at {
      assert after[..at][i] == base[..at][i];
    } else {
      assert after[at + 1..][i - at] == base[at..][i - at];
    }
  }

  /** Some line of the range, outside every string, assigns to the key. */
  ghost predicate AssignedIn(lines: seq<string>, key: string, start: nat, end: nat) {
    exists i :: start <= i < end <= |lines| && StateAt(lines, i) == Outside && Assigns(lines[i], key)
  }

  /**
    A line is replaced exactly when some line of the section, outside every string, assigns to the key;
    otherwise the key's line is new, and is put at the end of the section.
   */
  lemma ReplacedExactly(lines: seq<string>, section: string, key: string, literal: string, onlyIfMissing: bool)
    requires PlainKey(key) && Set(lines, section, key, literal, onlyIfMissing).Ok?
    ensures var e := Set(lines, section, key, literal, onlyIfMissing).value;
      var p := Locate(lines, section).value;
      && (e.replaced <==> AssignedIn(p.lines, key, p.start, p.end))
      && (!e.replaced ==> e.position == p.end)
  {
    hide *;
    SetIs(lines, section, key, literal, onlyIfMissing);
    SomeKeyLine(Locate(lines, section).value, key);
  }

  lemma SetIs(lines: seq<string>, section: string, key: string, literal: string, onlyIfMissing: bool)
    requires Set(lines, section, key, literal, onlyIfMissing).Ok?
    ensures Locate(lines, section).Ok?
    ensures var e := Set(lines, section, key, literal, onlyIfMissing).value;
      var p := Locate(lines, section).value;
      var found := KeyLines(p.lines, key, p.start, p.end);
      found.Ok? && (e.replaced <==> found.value != []) && (!e.replaced ==> e.position == p.end)
  {
    hide Locate, KeyLines;
  }

  lemma SomeKeyLine(p: Place, key: string)
    requires PlainKey(key) && p.start <= p.end <= |p.lines| && KeyLines(p.lines, key, p.start, p.end).Ok?
    ensures KeyLines(p.lines, key, p.start, p.end).value != [] <==> AssignedIn(p.lines, key, p.start, p.end)
  {
    hide KeyAt, BadValue, Assigns, StateAt, PlainKey;
    var found := KeyLines(p.lines, key, p.start, p.end).value;
    if found != [] {
      assert found[0] in found;
      KeyAtExactly(p.lines, key, found[0]);
    }
    if AssignedIn(p.lines, key, p.start, p.end) {
      var i :| p.start <= i < p.end && StateAt(p.lines, i) == Outside && Assigns(p.lines[i], key);
      KeyAtExactly(p.lines, key, i);
      assert i in found;
    }
  }

  lemma KeyAtExactly(lines: seq<string>, key: string, i: nat)
    requires PlainKey(key) && i < |lines|
    ensures KeyAt(lines, key, i) <==> StateAt(lines, i) == Outside && Assigns(lines[i], key)
  {
    KeyStarts(key);
    hide Assigns, HasKey, StateAt;
    HasKeyExactly(lines[i], key);
  }
}
