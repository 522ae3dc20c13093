/**
  The line structure of a TOML file: which lines begin outside every multiline string, and which of those are
  table headers.
 */
module TomlLines {
  import opened Wrappers

  /** The multiline string a line starts in. */
  datatype Multi = Outside | InBasic | InLiteral

  datatype Header = NoHeader | Table(name: string) | ArrayTable(name: string)

  // ---------------------------------------------------------------------------
  // The lexer
  // ---------------------------------------------------------------------------

  predicate IsQuote(c: char) { c == '"' || c == '\'' }

  /** Whether three quotes c start at i. */
  predicate TripleAt(line: string, i: nat, c: char) {
    i + 2 < |line| && line[i] == c && line[i + 1] == c && line[i + 2] == c
  }

  function QuoteOf(m: Multi): char { if m == InBasic then '"' else '\'' }

  function MultiOf(c: char): Multi { if c == '"' then InBasic else InLiteral }

  /** Scans from position i, in a multiline string, in a one-line string (`single`), or in neither. */
  function Scan(line: string, i: nat, m: Multi, single: Option<char>, escaped: bool): Multi
    decreases |line| - i
  {
    if i >= |line| then m
    else if m != Outside then
      if TripleAt(line, i, QuoteOf(m)) then Scan(line, i + 3, Outside, single, escaped)
      else if m == InBasic && line[i] == '\\' then Scan(line, i + 2, m, single, escaped)
      else Scan(line, i + 1, m, single, escaped)
    else if single.Some? then
      if single.value == '"' && !escaped && line[i] == '\\' then Scan(line, i + 1, m, single, true)
      else Scan(line, i + 1, m, if !escaped && line[i] == single.value then None else single, false)
    else if line[i] == '#' then m
    else if IsQuote(line[i]) then
      if TripleAt(line, i, line[i]) then Scan(line, i + 3, MultiOf(line[i]), single, escaped)
      else Scan(line, i + 1, m, Some(line[i]), escaped)
    else Scan(line, i + 1, m, single, escaped)
  }

  /** The multiline string the next line starts in; a one-line string ends with its line. */
  function LexLine(m: Multi, line: string): Multi { Scan(line, 0, m, None, false) }

  predicate Closes(line: string) { LexLine(Outside, line) == Outside }

  /** The character loop. */
  method ScanLine(start: Multi, line: string) returns (m: Multi)
    ensures m == LexLine(start, line)
  {
    m := start;
    var single: Option<char> := None;
    var escaped := false;
    var i := 0;
    while i < |line|
      invariant Scan(line, i, m, single, escaped) == LexLine(start, line)
      decreases |line| - i
    {
      if m != Outside {
        if TripleAt(line, i, QuoteOf(m)) {
          m := Outside;
          i := i + 2;
        } else if m == InBasic && line[i] == '\\' {
          i := i + 1;
        }
      } else if single.Some? {
        if single.value == '"' && !escaped && line[i] == '\\' {
          escaped := true;
        } else {
          if !escaped && line[i] == single.value {
            single := None;
          }
          escaped := false;
        }
      } else if line[i] == '#' {
        break;
      } else if IsQuote(line[i]) {
        if TripleAt(line, i, line[i]) {
          m := MultiOf(line[i]);
          i := i + 2;
        } else {
          single := Some(line[i]);
        }
      }
      i := i + 1;
    }
  }

  // ---------------------------------------------------------------------------
  // Headers and keys
  // ---------------------------------------------------------------------------

  predicate Space(c: char) {
    var u := c as int;
    9 <= u <= 13 || u in {32, 0x85, 0xA0, 0x1680, 0x2028, 0x2029, 0x202F, 0x205F, 0x3000} || 0x2000 <= u <= 0x200A
  }

  function TrimStart(s: string): (t: string)
    ensures |t| <= |s|
  {
    if s != "" && Space(s[0]) then TrimStart(s[1..]) else s
  }

  function TrimEnd(s: string): string {
    if s != "" && Space(s[|s| - 1]) then TrimEnd(s[..|s| - 1]) else s
  }

  predicate NoBracket(c: char) { c != '[' && c != ']' }

  predicate NameChar(c: char) { 'a' <= c <= 'z' || 'A' <= c <= 'Z' || '0' <= c <= '9' || c == '_' || c == '-' }

  /** How many characters at the front satisfy p. */
  function Run(s: string, p: char -> bool): (n: nat)
    ensures n <= |s|
  {
    if s != "" && p(s[0]) then 1 + Run(s[1..], p) else 0
  }

  /** Takes simple names out of quotes q. */
  function Unquote(s: string, q: char): string
    decreases |s|
  {
    if s == "" then ""
    else
      var n := Run(s[1..], NameChar);
      if s[0] == q && n > 0 && 1 + n < |s| && s[1 + n] == q then s[1..1 + n] + Unquote(s[2 + n..], q)
      else [s[0]] + Unquote(s[1..], q)
  }

  function TableName(s: string): string { Unquote(Unquote(TrimEnd(TrimStart(s)), '"'), '\'') }

  /** Only space or a comment follows. */
  predicate Ends(s: string) { TrimStart(s) == "" || TrimStart(s)[0] == '#' }

  /** A header line: a name without brackets between single or double brackets. */
  function HeaderOf(line: string): Header {
    var s := TrimStart(line);
    if |s| >= 2 && s[0] == '[' && s[1] == '[' then
      var n := Run(s[2..], NoBracket);
      if n > 0 && n + 3 < |s| && s[n + 2] == ']' && s[n + 3] == ']' && Ends(s[n + 4..]) then ArrayTable(TableName(s[2..n + 2]))
      else NoHeader
    else if s != "" && s[0] == '[' then
      var n := Run(s[1..], NoBracket);
      if n > 0 && n + 1 < |s| && s[n + 1] == ']' && Ends(s[n + 2..]) then Table(TableName(s[1..n + 1])) else NoHeader
    else NoHeader
  }

  function Fold(c: char): char { if 'A' <= c <= 'Z' then c - 'A' + 'a' else c }

  /** Equal but for the case of letters. */
  predicate SameFolded(s: string, t: string) {
    |s| == |t| && forall i :: 0 <= i < |s| ==> Fold(s[i]) == Fold(t[i])
  }

  /** The line assigns to the key, whatever its case. */
  predicate HasKey(line: string, key: string) {
    var s := TrimStart(line);
    |s| >= |key| && SameFolded(s[..|key|], key)
    && var t := TrimStart(s[|key|..]); t != "" && t[0] == '='
  }

  predicate NotEqualsSign(c: char) { c != '=' }

  function AfterEquals(line: string): string {
    var n := Run(line, NotEqualsSign);
    if n < |line| then TrimStart(line[n + 1..]) else ""
  }

  /** The text ends in a closing bracket, but for space and a comment. */
  predicate ClosesArray(s: string) { exists i :: 0 <= i < |s| && s[i] == ']' && Ends(s[i + 1..]) }

  predicate StartsTriple(s: string) { TripleAt(s, 0, '"') || TripleAt(s, 0, '\'') }

  // ---------------------------------------------------------------------------
  // Line by line
  // ---------------------------------------------------------------------------

  /** The multiline string line n starts in. */
  function StateAt(lines: seq<string>, n: nat): Multi
    requires n <= |lines|
  {
    if n == 0 then Outside else LexLine(StateAt(lines, n - 1), lines[n - 1])
  }

  predicate Active(lines: seq<string>, n: nat)
    requires n < |lines|
  {
    StateAt(lines, n) == Outside
  }

  /** A table header counts only outside every multiline string. */
  function Heading(lines: seq<string>, n: nat): Header
    requires n < |lines|
  {
    if Active(lines, n) then HeaderOf(lines[n]) else NoHeader
  }

  /** The tables, array tables and boundaries of a file by line, and its active lines. */
  method GetTomlStructure(lines: seq<string>)
    returns (error: bool, tables: map<nat, string>, arrayTables: map<nat, string>, boundaries: set<nat>, activeLines: set<nat>)
    ensures error <==> StateAt(lines, |lines|) != Outside
    ensures forall i: nat :: i in tables <==> i < |lines| && Heading(lines, i).Table?
    ensures forall i: nat :: i in tables ==> Heading(lines, i) == Table(tables[i])
    ensures forall i: nat :: i in arrayTables <==> i < |lines| && Heading(lines, i).ArrayTable?
    ensures forall i: nat :: i in arrayTables ==> Heading(lines, i) == ArrayTable(arrayTables[i])
    ensures forall i: nat :: i in boundaries <==> i < |lines| && Heading(lines, i) != NoHeader
    ensures forall i: nat :: i in activeLines <==> i < |lines| && Active(lines, i)
  {
    hide HeaderOf, LexLine;
    var state := Outside;
    tables, arrayTables, boundaries, activeLines := map[], map[], {}, {};
    for n := 0 to |lines|
      invariant state == StateAt(lines, n)
      invariant forall i: nat :: i in tables <==> i < n && Heading(lines, i).Table?
      invariant forall i: nat :: i in tables ==> Heading(lines, i) == Table(tables[i])
      invariant forall i: nat :: i in arrayTables <==> i < n && Heading(lines, i).ArrayTable?
      invariant forall i: nat :: i in arrayTables ==> Heading(lines, i) == ArrayTable(arrayTables[i])
      invariant forall i: nat :: i in boundaries <==> i < n && Heading(lines, i) != NoHeader
      invariant forall i: nat :: i in activeLines <==> i < n && Active(lines, i)
    {
      if state == Outside {
        activeLines := activeLines + {n};
        match HeaderOf(lines[n]) {
          case ArrayTable(name) =>
            arrayTables := arrayTables[n := name];
            boundaries := boundaries + {n};
          case Table(name) =>
            tables := tables[n := name];
            boundaries := boundaries + {n};
          case NoHeader =>
        }
      }
      state := ScanLine(state, lines[n]);
    }
    error := state != Outside;
  }

  // ---------------------------------------------------------------------------
  // States carry over unchanged lines
  // ---------------------------------------------------------------------------

  lemma {:induction false} StatePrefix(lines: seq<string>, other: seq<string>, n: nat)
    requires n <= |lines| && n <= |other| && lines[..n] == other[..n]
    ensures StateAt(lines, n) == StateAt(other, n)
  {
    hide LexLine;
    if n > 0 {
      assert lines[n - 1] == lines[..n][n - 1] && other[n - 1] == other[..n][n - 1];
      assert lines[..n - 1] == lines[..n][..n - 1] && other[..n - 1] == other[..n][..n - 1];
      StatePrefix(lines, other, n - 1);
    }
  }

  /** From equal states on, equal lines keep them equal. */
  lemma {:induction false} StateCarries(lines: seq<string>, a: nat, other: seq<string>, b: nat, d: nat)
    requires a + d <= |lines| && b + d <= |other| && lines[a..a + d] == other[b..b + d]
    requires StateAt(lines, a) == StateAt(other, b)
    ensures StateAt(lines, a + d) == StateAt(other, b + d)
    decreases d
  {
    hide LexLine;
    if d > 0 {
      assert lines[a + d - 1] == lines[a..a + d][d - 1] && other[b + d - 1] == other[b..b + d][d - 1];
      assert lines[a..a + d - 1] == lines[a..a + d][..d - 1] && other[b..b + d - 1] == other[b..b + d][..d - 1];
      StateCarries(lines, a, other, b, d - 1);
    }
  }
}
