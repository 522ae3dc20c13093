/**
  Lines written from a grammar read back as they were written: table headers with bare and quoted names, and
  lines of one-line strings, multiline strings and comments, whose lexical state is what the grammar says.
 */
module TomlTokens {
  import opened Wrappers
  import opened TomlLines
  import opened TomlEdits
  import opened TomlGrammar

  // ---------------------------------------------------------------------------
  // Strings and comments
  // ---------------------------------------------------------------------------

  /** A piece of a string between quotes q: a character, an escape, or one or two quotes and a character. */
  datatype Piece = Plain(c: char) | Escape(c: char) | Lone(c: char) | Pair(c: char)

  function PieceText(p: Piece, q: char): (s: string)
    ensures s != ""
  {
    match p
    case Plain(c) => [c]
    case Escape(c) => ['\\', c]
    case Lone(c) => [q, c]
    case Pair(c) => [q, q, c]
  }

  predicate PieceOk(p: Piece, q: char) {
    match p
    case Escape(_) => q == '"'
    case _ => p.c != q && (q == '"' ==> p.c != '\\')
  }

  function BodyText(body: seq<Piece>, q: char): string {
    if body == [] then "" else PieceText(body[0], q) + BodyText(body[1..], q)
  }

  predicate BodyOk(body: seq<Piece>, q: char) { forall i :: 0 <= i < |body| ==> PieceOk(body[i], q) }

  /** In a one-line string a quote would end it. */
  predicate LineBodyOk(body: seq<Piece>, q: char) {
    BodyOk(body, q) && forall i :: 0 <= i < |body| ==> body[i].Plain? || body[i].Escape?
  }

  datatype Token =
    | Other(c: char)
    | Line(q: char, body: seq<Piece>)
    | Block(q: char, body: seq<Piece>)

  /** How a line ends: with nothing, in a comment, in a multiline string, or in a one-line string never closed. */
  datatype Tail =
    | End
    | Comment(text: string)
    | OpenBlock(q: char, body: seq<Piece>)
    | Unclosed(q: char, body: seq<Piece>)

  function Triple(q: char): string { [q, q, q] }

  function TokenText(t: Token): string {
    match t
    case Other(c) => [c]
    case Line(q, body) => [q] + BodyText(body, q) + [q]
    case Block(q, body) => Triple(q) + BodyText(body, q) + Triple(q)
  }

  function TailText(t: Tail): string {
    match t
    case End => ""
    case Comment(text) => "#" + text
    case OpenBlock(q, body) => Triple(q) + BodyText(body, q)
    case Unclosed(q, body) => [q] + BodyText(body, q)
  }

  function LineText(ts: seq<Token>, tail: Tail): string {
    if ts == [] then TailText(tail) else TokenText(ts[0]) + LineText(ts[1..], tail)
  }

  predicate Quote(c: char) { c == '"' || c == '\'' }

  predicate TailOk(t: Tail) {
    match t
    case End => true
    case Comment(_) => true
    case OpenBlock(q, body) => Quote(q) && BodyOk(body, q)
    case Unclosed(q, body) => Quote(q) && LineBodyOk(body, q)
  }

  /** An empty one-line string is not followed by another quote, which would make it a multiline one. */
  predicate TokenOk(t: Token, rest: string) {
    match t
    case Other(c) => !Quote(c) && c != '#'
    case Line(q, body) => Quote(q) && LineBodyOk(body, q) && (body == [] ==> rest == "" || rest[0] != q)
    case Block(q, body) => Quote(q) && BodyOk(body, q)
  }

  predicate LineOk(ts: seq<Token>, tail: Tail) {
    if ts == [] then TailOk(tail) else TokenOk(ts[0], LineText(ts[1..], tail)) && LineOk(ts[1..], tail)
  }

  /** What the next line begins in. */
  function After(tail: Tail): Multi {
    if tail.OpenBlock? then (if tail.q == '"' then InBasic else InLiteral) else Outside
  }

  // ---------------------------------------------------------------------------
  // Scanning
  // ---------------------------------------------------------------------------

  /** Scanning looks only at what is ahead. */
  lemma {:induction false} ScanAhead(a: string, s: string, i: nat, m: Multi, single: Option<char>, escaped: bool)
    ensures Scan(a + s, |a| + i, m, single, escaped) == Scan(s, i, m, single, escaped)
    decreases |s| - i
  {
    if i >= |s| {
      assert Scan(s, i, m, single, escaped) == m;
    } else {
      var line := a + s;
      assert line[|a| + i] == s[i];
      assert forall c: char :: TripleAt(line, |a| + i, c) == TripleAt(s, i, c);
      ScanAhead(a, s, i + 3, Outside, single, escaped);
      ScanAhead(a, s, i + 3, MultiOf(s[i]), single, escaped);
      ScanAhead(a, s, i + 2, m, single, escaped);
      ScanAhead(a, s, i + 1, m, single, escaped);
      ScanAhead(a, s, i + 1, m, single, true);
      ScanAhead(a, s, i + 1, m, single, false);
      ScanAhead(a, s, i + 1, m, None, false);
      ScanAhead(a, s, i + 1, m, Some(s[i]), escaped);
    }
  }

  lemma Ahead(a: string, s: string, m: Multi, single: Option<char>, escaped: bool)
    ensures Scan(a + s, |a|, m, single, escaped) == Scan(s, 0, m, single, escaped)
  {
    ScanAhead(a, s, 0, m, single, escaped);
  }

  lemma PieceInBlock(p: Piece, q: char, rest: string)
    requires Quote(q) && PieceOk(p, q)
    ensures Scan(PieceText(p, q) + rest, 0, MultiOf(q), None, false) == Scan(rest, 0, MultiOf(q), None, false)
  {
    var s := PieceText(p, q) + rest;
    var m := MultiOf(q);
    Ahead(PieceText(p, q), rest, m, None, false);
    assert QuoteOf(m) == q && m != Outside;
    match p
    case Plain(c) =>
      assert s[0] == c && !TripleAt(s, 0, q);
    case Escape(c) =>
      assert s[0] == '\\' && !TripleAt(s, 0, q);
    case Lone(c) =>
      assert s[0] == q && s[1] == c && !TripleAt(s, 0, q) && !TripleAt(s, 1, q);
      assert Scan(s, 0, m, None, false) == Scan(s, 1, m, None, false) == Scan(s, 2, m, None, false);
    case Pair(c) =>
      assert s[0] == q && s[1] == q && s[2] == c && !TripleAt(s, 0, q) && !TripleAt(s, 1, q) && !TripleAt(s, 2, q);
      assert Scan(s, 0, m, None, false) == Scan(s, 1, m, None, false) == Scan(s, 2, m, None, false);
      assert Scan(s, 2, m, None, false) == Scan(s, 3, m, None, false);
  }

  lemma {:induction false} BodyInBlock(body: seq<Piece>, q: char, rest: string)
    requires Quote(q) && BodyOk(body, q)
    ensures Scan(BodyText(body, q) + rest, 0, MultiOf(q), None, false) == Scan(rest, 0, MultiOf(q), None, false)
  {
    hide Scan, PieceText;
    if body == [] {
      assert BodyText(body, q) + rest == rest;
    } else {
      assert BodyText(body, q) + rest == PieceText(body[0], q) + (BodyText(body[1..], q) + rest);
      PieceInBlock(body[0], q, BodyText(body[1..], q) + rest);
      BodyInBlock(body[1..], q, rest);
    }
  }

  lemma PieceInLine(p: Piece, q: char, rest: string)
    requires Quote(q) && PieceOk(p, q) && (p.Plain? || p.Escape?)
    ensures Scan(PieceText(p, q) + rest, 0, Outside, Some(q), false) == Scan(rest, 0, Outside, Some(q), false)
  {
    var s := PieceText(p, q) + rest;
    Ahead(PieceText(p, q), rest, Outside, Some(q), false);
    assert s[0] == PieceText(p, q)[0];
    if p.Escape? {
      assert Scan(s, 0, Outside, Some(q), false) == Scan(s, 1, Outside, Some(q), true);
    }
  }

  lemma {:induction false} BodyInLine(body: seq<Piece>, q: char, rest: string)
    requires Quote(q) && LineBodyOk(body, q)
    ensures Scan(BodyText(body, q) + rest, 0, Outside, Some(q), false) == Scan(rest, 0, Outside, Some(q), false)
  {
    hide Scan, PieceText;
    if body == [] {
      assert BodyText(body, q) + rest == rest;
    } else {
      assert BodyText(body, q) + rest == PieceText(body[0], q) + (BodyText(body[1..], q) + rest);
      PieceInLine(body[0], q, BodyText(body[1..], q) + rest);
      BodyInLine(body[1..], q, rest);
    }
  }

  /** Three quotes end a multiline string, and begin one outside. */
  lemma Tripled(q: char, rest: string)
    requires Quote(q)
    ensures Scan(Triple(q) + rest, 0, MultiOf(q), None, false) == Scan(rest, 0, Outside, None, false)
    ensures Scan(Triple(q) + rest, 0, Outside, None, false) == Scan(rest, 0, MultiOf(q), None, false)
  {
    var s := Triple(q) + rest;
    assert TripleAt(s, 0, q) && s[0] == q;
    Ahead(Triple(q), rest, Outside, None, false);
    Ahead(Triple(q), rest, MultiOf(q), None, false);
  }

  lemma Opened(q: char, rest: string)
    requires Quote(q) && !(|rest| >= 2 && rest[0] == q && rest[1] == q)
    ensures Scan([q] + rest, 0, Outside, None, false) == Scan(rest, 0, Outside, Some(q), false)
  {
    var s := [q] + rest;
    assert s[0] == q && !TripleAt(s, 0, q);
    Ahead([q], rest, Outside, Some(q), false);
  }

  lemma Closed(q: char, rest: string)
    requires Quote(q)
    ensures Scan([q] + rest, 0, Outside, Some(q), false) == Scan(rest, 0, Outside, None, false)
  {
    assert ([q] + rest)[0] == q;
    Ahead([q], rest, Outside, None, false);
  }

  lemma BodyStarts(body: seq<Piece>, q: char)
    requires Quote(q) && LineBodyOk(body, q) && body != []
    ensures BodyText(body, q) != "" && BodyText(body, q)[0] != q
  {
    assert PieceOk(body[0], q) && (body[0].Plain? || body[0].Escape?);
  }

  lemma TokenScanned(t: Token, rest: string)
    requires TokenOk(t, rest)
    ensures Scan(TokenText(t) + rest, 0, Outside, None, false) == Scan(rest, 0, Outside, None, false)
  {
    match t
    case Other(c) =>
      assert ([c] + rest)[0] == c;
      Ahead([c], rest, Outside, None, false);
    case Line(q, body) =>
      hide Scan;
      var inner := BodyText(body, q) + ([q] + rest);
      assert TokenText(t) + rest == [q] + inner;
      if body != [] {
        BodyStarts(body, q);
      } else {
        assert inner == [q] + rest;
      }
      Opened(q, inner);
      BodyInLine(body, q, [q] + rest);
      Closed(q, rest);
    case Block(q, body) =>
      hide Scan;
      var inner := BodyText(body, q) + (Triple(q) + rest);
      assert TokenText(t) + rest == Triple(q) + inner;
      Tripled(q, inner);
      BodyInBlock(body, q, Triple(q) + rest);
      Tripled(q, rest);
  }

  lemma NothingLeft(m: Multi, single: Option<char>)
    ensures Scan("", 0, m, single, false) == m
  {
  }

  lemma TailScanned(t: Tail)
    requires TailOk(t)
    ensures Scan(TailText(t), 0, Outside, None, false) == After(t)
  {
    match t
    case End =>
    case Comment(text) => assert TailText(t)[0] == '#';
    case OpenBlock(q, body) =>
      hide Scan;
      Tripled(q, BodyText(body, q));
      BodyInBlock(body, q, "");
      assert BodyText(body, q) + "" == BodyText(body, q);
      NothingLeft(MultiOf(q), None);
    case Unclosed(q, body) =>
      hide Scan;
      if body != [] {
        BodyStarts(body, q);
      }
      Opened(q, BodyText(body, q));
      BodyInLine(body, q, "");
      assert BodyText(body, q) + "" == BodyText(body, q);
      NothingLeft(Outside, Some(q));
  }

  lemma {:induction false} LineScanned(ts: seq<Token>, tail: Tail)
    requires LineOk(ts, tail)
    ensures Scan(LineText(ts, tail), 0, Outside, None, false) == After(tail)
  {
    hide Scan, TokenText, TailText, TokenOk, TailOk;
    if ts == [] {
      TailScanned(tail);
    } else {
      TokenScanned(ts[0], LineText(ts[1..], tail));
      LineScanned(ts[1..], tail);
    }
  }

  /**
    A line of strings and other characters that begins outside every string leaves a multiline string open
    exactly when it ends in one; strings that are closed on the line, escapes, quotes of the other kind,
    comments and one-line strings that are never closed make no difference.
   */
  lemma LineReads(ts: seq<Token>, tail: Tail)
    requires LineOk(ts, tail)
    ensures LexLine(Outside, LineText(ts, tail)) == After(tail)
  {
    LineScanned(ts, tail);
  }

  lemma BlockStays(q: char, body: seq<Piece>)
    requires Quote(q) && BodyOk(body, q)
    ensures LexLine(MultiOf(q), BodyText(body, q)) == MultiOf(q)
  {
    hide Scan, MultiOf;
    BodyInBlock(body, q, "");
    assert BodyText(body, q) + "" == BodyText(body, q);
    NothingLeft(MultiOf(q), None);
  }

  lemma BlockLeaves(q: char, body: seq<Piece>, line: string)
    requires Quote(q) && BodyOk(body, q)
    ensures LexLine(MultiOf(q), BodyText(body, q) + Triple(q) + line) == LexLine(Outside, line)
  {
    hide Scan, MultiOf, Triple;
    assert BodyText(body, q) + Triple(q) + line == BodyText(body, q) + (Triple(q) + line);
    BodyInBlock(body, q, Triple(q) + line);
    Tripled(q, line);
  }

  /** A line that begins in a multiline string stays in it, or leaves it at three quotes and goes on as above. */
  lemma BlockReads(q: char, body: seq<Piece>, ts: seq<Token>, tail: Tail)
    requires Quote(q) && BodyOk(body, q) && LineOk(ts, tail)
    ensures var m := if q == '"' then InBasic else InLiteral;
      && LexLine(m, BodyText(body, q)) == m
      && LexLine(m, BodyText(body, q) + Triple(q) + LineText(ts, tail)) == After(tail)
  {
    hide LexLine, BodyText, LineText, After;
    BlockStays(q, body);
    BlockLeaves(q, body, LineText(ts, tail));
    LineReads(ts, tail);
  }

  // ---------------------------------------------------------------------------
  // Headers
  // ---------------------------------------------------------------------------

  /** Space and perhaps a comment. */
  ghost predicate Trailing(s: string) {
    exists blank, comment :: s == blank + comment && Blank(blank) && (comment == "" || comment[0] == '#')
  }

  lemma EndsExactly(s: string)
    ensures Ends(s) <==> Trailing(s)
  {
    if Ends(s) {
      var blank := TrimStartSplits(s);
      assert s == blank + TrimStart(s);
    }
    if Trailing(s) {
      var blank, comment :| s == blank + comment && Blank(blank) && (comment == "" || comment[0] == '#');
      assert !Space('#');
      TrimStartIs(blank, comment);
    }
  }

  predicate AllNoBracket(s: string) { forall i :: 0 <= i < |s| ==> s[i] != '[' && s[i] != ']' }

  lemma {:induction false} RunIs(inner: string, rest: string)
    requires AllNoBracket(inner) && rest != "" && !NoBracket(rest[0])
    ensures Run(inner + rest, NoBracket) == |inner|
  {
    if inner == "" {
      assert inner + rest == rest;
    } else {
      assert (inner + rest)[1..] == inner[1..] + rest;
      RunIs(inner[1..], rest);
    }
  }

  lemma {:induction false} RunTakes(s: string)
    ensures AllNoBracket(s[..Run(s, NoBracket)])
  {
    if s != "" && NoBracket(s[0]) {
      RunTakes(s[1..]);
      assert forall i :: 0 < i < Run(s, NoBracket) ==> s[i] == s[1..][..Run(s[1..], NoBracket)][i - 1];
    }
  }

  ghost predicate TableAt(line: string, name: string, before: string, inner: string, after: string) {
    line == before + "[" + inner + "]" + after && Blank(before) && inner != "" && AllNoBracket(inner)
    && Trailing(after) && name == TableName(inner)
  }

  ghost predicate ArrayTableAt(line: string, name: string, before: string, inner: string, after: string) {
    line == before + "[[" + inner + "]]" + after && Blank(before) && inner != "" && AllNoBracket(inner)
    && Trailing(after) && name == TableName(inner)
  }

  ghost predicate IsTable(line: string, name: string) {
    exists before, inner, after :: TableAt(line, name, before, inner, after)
  }

  ghost predicate IsArrayTable(line: string, name: string) {
    exists before, inner, after :: ArrayTableAt(line, name, before, inner, after)
  }

  lemma TableReads(line: string, name: string, before: string, inner: string, after: string)
    requires TableAt(line, name, before, inner, after)
    ensures HeaderOf(line) == Table(name)
  {
    EndsExactly(after);
    hide TableName, Trailing, Ends;
    var s := "[" + inner + "]" + after;
    assert line == before + s;
    assert !Space('[');
    TrimStartIs(before, s);
    assert s[1..] == inner + ("]" + after);
    RunIs(inner, "]" + after);
    var n := |inner|;
    assert s[n + 1] == ']' && s[n + 2..] == after && s[1..n + 1] == inner && s[1] == inner[0];
  }

  lemma ArrayTableReads(line: string, name: string, before: string, inner: string, after: string)
    requires ArrayTableAt(line, name, before, inner, after)
    ensures HeaderOf(line) == ArrayTable(name)
  {
    EndsExactly(after);
    hide TableName, Trailing, Ends;
    var s := "[[" + inner + "]]" + after;
    assert line == before + s;
    assert !Space('[');
    TrimStartIs(before, s);
    assert s[2..] == inner + ("]]" + after);
    RunIs(inner, "]]" + after);
    var n := |inner|;
    assert s[n + 2] == ']' && s[n + 3] == ']' && s[n + 4..] == after && s[2..n + 2] == inner;
  }

  lemma HeaderSplits(line: string) returns (before: string, inner: string, after: string)
    requires HeaderOf(line) != NoHeader
    ensures HeaderOf(line).Table? ==> TableAt(line, HeaderOf(line).name, before, inner, after)
    ensures HeaderOf(line).ArrayTable? ==> ArrayTableAt(line, HeaderOf(line).name, before, inner, after)
  {
    hide HeaderOf, TableName, Ends, Trailing, TrimStart, Run;
    var s := TrimStart(line);
    before := TrimStartSplits(line);
    if HeaderOf(line).ArrayTable? {
      DoubleCase(line);
      var n := Run(s[2..], NoBracket);
      RunTakes(s[2..]);
      inner, after := s[2..n + 2], s[n + 4..];
      SameSlice(s, 2, n);
      EndsExactly(after);
      hide *;
      DoubleBrackets(s, n);
    } else {
      SingleCase(line);
      var n := Run(s[1..], NoBracket);
      RunTakes(s[1..]);
      inner, after := s[1..n + 1], s[n + 2..];
      SameSlice(s, 1, n);
      EndsExactly(after);
      hide *;
      SingleBrackets(s, n);
    }
    Around(line, before, s, inner, after);
  }

  lemma SameSlice(s: string, k: nat, n: nat)
    requires k + n <= |s|
    ensures s[k..][..n] == s[k..n + k]
  {
  }

  lemma SingleCase(line: string)
    requires HeaderOf(line).Table?
    ensures var s := TrimStart(line);
      && |s| > 0 && s[0] == '['
      && var n := Run(s[1..], NoBracket);
      && n > 0 && n + 1 < |s| && s[n + 1] == ']' && Ends(s[n + 2..]) && HeaderOf(line).name == TableName(s[1..n + 1])
  {
    hide Ends, TableName, TrimStart, Run;
  }

  lemma DoubleCase(line: string)
    requires HeaderOf(line).ArrayTable?
    ensures var s := TrimStart(line);
      && |s| > 1 && s[0] == '[' && s[1] == '['
      && var n := Run(s[2..], NoBracket);
      && n > 0 && n + 3 < |s| && s[n + 2] == ']' && s[n + 3] == ']' && Ends(s[n + 4..])
      && HeaderOf(line).name == TableName(s[2..n + 2])
  {
    hide Ends, TableName, TrimStart, Run;
  }

  lemma SingleBrackets(s: string, n: nat)
    requires n + 1 < |s| && s[0] == '[' && s[n + 1] == ']'
    ensures s == "[" + s[1..n + 1] + "]" + s[n + 2..]
  {
  }

  lemma DoubleBrackets(s: string, n: nat)
    requires n + 3 < |s| && s[0] == '[' && s[1] == '[' && s[n + 2] == ']' && s[n + 3] == ']'
    ensures s == "[[" + s[2..n + 2] + "]]" + s[n + 4..]
  {
  }

  lemma Around(line: string, before: string, s: string, inner: string, after: string)
    requires line == before + s
    ensures s == "[" + inner + "]" + after ==> line == before + "[" + inner + "]" + after
    ensures s == "[[" + inner + "]]" + after ==> line == before + "[[" + inner + "]]" + after
  {
  }

  /** A line heads a table exactly when it is a name between brackets, with nothing but space and a comment around. */
  lemma HeaderExactly(line: string, name: string)
    ensures HeaderOf(line) == Table(name) <==> IsTable(line, name)
    ensures HeaderOf(line) == ArrayTable(name) <==> IsArrayTable(line, name)
  {
    hide HeaderOf, TableName, Trailing, AllNoBracket, Blank;
    if HeaderOf(line) == Table(name) || HeaderOf(line) == ArrayTable(name) {
      HeaderFound(line, name);
    }
    if IsTable(line, name) {
      var before, inner, after :| TableAt(line, name, before, inner, after);
      TableReads(line, name, before, inner, after);
    }
    if IsArrayTable(line, name) {
      var before, inner, after :| ArrayTableAt(line, name, before, inner, after);
      ArrayTableReads(line, name, before, inner, after);
    }
  }

  lemma HeaderFound(line: string, name: string)
    requires HeaderOf(line) == Table(name) || HeaderOf(line) == ArrayTable(name)
    ensures if HeaderOf(line).Table? then IsTable(line, name) else IsArrayTable(line, name)
  {
    hide HeaderOf, TableAt, ArrayTableAt;
    var before, inner, after := HeaderSplits(line);
  }

  // ---------------------------------------------------------------------------
  // Names
  // ---------------------------------------------------------------------------

  /** A part of a table name, bare or in quotes. */
  datatype Part = Part(name: string, quote: Option<char>)

  predicate Simple(name: string) { name != "" && forall i :: 0 <= i < |name| ==> NameChar(name[i]) }

  predicate PartsOk(ps: seq<Part>) {
    ps != [] && forall i :: 0 <= i < |ps| ==> Simple(ps[i].name) && (ps[i].quote.Some? ==> Quote(ps[i].quote.value))
  }

  function PartText(p: Part): string {
    if p.quote.None? then p.name else [p.quote.value] + p.name + [p.quote.value]
  }

  function Dotted(ps: seq<Part>): string
    requires ps != []
  {
    if |ps| == 1 then PartText(ps[0]) else PartText(ps[0]) + "." + Dotted(ps[1..])
  }

  function Bare(p: Part): Part { p.(quote := None) }

  function BareAll(ps: seq<Part>): (r: seq<Part>)
    ensures |r| == |ps| && forall i :: 0 <= i < |ps| ==> r[i] == Bare(ps[i])
  {
    seq(|ps|, i requires 0 <= i < |ps| => Bare(ps[i]))
  }

  /** Takes the quotes q off. */
  function Without(p: Part, q: char): Part { if p.quote == Some(q) then Bare(p) else p }

  function WithoutAll(ps: seq<Part>, q: char): (r: seq<Part>)
    ensures |r| == |ps| && forall i :: 0 <= i < |ps| ==> r[i] == Without(ps[i], q)
  {
    seq(|ps|, i requires 0 <= i < |ps| => Without(ps[i], q))
  }

  lemma {:induction false} UnquoteOther(a: string, rest: string, q: char)
    requires forall i :: 0 <= i < |a| ==> a[i] != q
    ensures Unquote(a + rest, q) == a + Unquote(rest, q)
  {
    if a == "" {
      assert a + rest == rest;
    } else {
      assert (a + rest)[0] == a[0] && (a + rest)[1..] == a[1..] + rest;
      UnquoteOther(a[1..], rest, q);
      assert a == [a[0]] + a[1..];
    }
  }

  lemma {:induction false} RunName(name: string, rest: string)
    requires (forall i :: 0 <= i < |name| ==> NameChar(name[i])) && rest != "" && !NameChar(rest[0])
    ensures Run(name + rest, NameChar) == |name|
  {
    if name == "" {
      assert name + rest == rest;
    } else {
      assert (name + rest)[1..] == name[1..] + rest;
      RunName(name[1..], rest);
    }
  }

  lemma UnquoteName(name: string, rest: string, q: char)
    requires Simple(name) && Quote(q)
    ensures Unquote([q] + name + [q] + rest, q) == name + Unquote(rest, q)
  {
    var s := [q] + name + [q] + rest;
    assert s[1..] == name + ([q] + rest);
    RunName(name, [q] + rest);
    assert s[1..1 + |name|] == name && s[1 + |name|] == q && s[2 + |name|..] == rest;
  }

  lemma UnquotePart(p: Part, rest: string, q: char)
    requires Simple(p.name) && Quote(q) && (p.quote.Some? ==> Quote(p.quote.value))
    ensures Unquote(PartText(p) + rest, q) == PartText(Without(p, q)) + Unquote(rest, q)
  {
    if p.quote == Some(q) {
      UnquoteName(p.name, rest, q);
      assert PartText(p) + rest == [q] + p.name + [q] + rest;
    } else {
      UnquoteOther(PartText(p), rest, q);
    }
  }

  lemma {:induction false} UnquoteDotted(ps: seq<Part>, q: char)
    requires PartsOk(ps) && Quote(q)
    ensures Unquote(Dotted(ps), q) == Dotted(WithoutAll(ps, q))
  {
    hide Unquote, PartText;
    if |ps| == 1 {
      UnquotePart(ps[0], "", q);
      NothingQuoted(q);
      assert PartText(ps[0]) + "" == PartText(ps[0]);
      assert PartText(Without(ps[0], q)) + "" == PartText(Without(ps[0], q));
    } else {
      UnquotePart(ps[0], "." + Dotted(ps[1..]), q);
      UnquoteDotted(ps[1..], q);
      hide *;
      UnquoteDot(Dotted(ps[1..]), q);
      DottedCons(ps);
      WithoutCons(ps, q);
      DottedCons(WithoutAll(ps, q));
    }
  }

  lemma DottedCons(ps: seq<Part>)
    requires |ps| > 1
    ensures Dotted(ps) == PartText(ps[0]) + ("." + Dotted(ps[1..]))
  {
    hide PartText;
  }

  lemma WithoutCons(ps: seq<Part>, q: char)
    requires |ps| > 1
    ensures |WithoutAll(ps, q)| == |ps| && WithoutAll(ps, q)[0] == Without(ps[0], q)
    ensures WithoutAll(ps, q)[1..] == WithoutAll(ps[1..], q)
  {
  }

  lemma NothingQuoted(q: char)
    ensures Unquote("", q) == ""
  {
  }

  lemma UnquoteDot(rest: string, q: char)
    requires Quote(q)
    ensures Unquote("." + rest, q) == "." + Unquote(rest, q)
  {
    UnquoteOther(".", rest, q);
  }

  lemma {:induction false} TrimEndIs(s: string, after: string)
    requires Blank(after) && (s == "" || !Space(s[|s| - 1]))
    ensures TrimEnd(s + after) == s
  {
    if after == "" {
      assert s + after == s;
    } else {
      assert (s + after)[..|s + after| - 1] == s + after[..|after| - 1];
      TrimEndIs(s, after[..|after| - 1]);
    }
  }

  lemma {:induction false} DottedEnds(ps: seq<Part>)
    requires PartsOk(ps)
    ensures Dotted(ps) != "" && !Space(Dotted(ps)[0]) && !Space(Dotted(ps)[|Dotted(ps)| - 1])
  {
    PartEnds(ps[0]);
    hide PartText, Space;
    if |ps| > 1 {
      DottedEnds(ps[1..]);
    } else {
      assert Dotted(ps) == PartText(ps[0]);
    }
  }

  lemma PartEnds(p: Part)
    requires Simple(p.name) && (p.quote.Some? ==> Quote(p.quote.value))
    ensures PartText(p) != "" && !Space(PartText(p)[0]) && !Space(PartText(p)[|PartText(p)| - 1])
  {
    assert NameChar(p.name[0]) && NameChar(p.name[|p.name| - 1]);
  }

  lemma BareTwice(ps: seq<Part>)
    requires PartsOk(ps)
    ensures WithoutAll(WithoutAll(ps, '"'), '\'') == BareAll(ps) && PartsOk(WithoutAll(ps, '"'))
  {
  }

  /** A dotted name, its parts bare or in quotes of either kind, with space around: its parts, bare. */
  lemma NameReads(before: string, ps: seq<Part>, after: string)
    requires Blank(before) && PartsOk(ps) && Blank(after)
    ensures TableName(before + Dotted(ps) + after) == Dotted(BareAll(ps))
  {
    hide Dotted, Space, Unquote;
    DottedEnds(ps);
    var s := Dotted(ps) + after;
    assert before + Dotted(ps) + after == before + s && s[0] == Dotted(ps)[0];
    TrimStartIs(before, s);
    TrimEndIs(Dotted(ps), after);
    UnquoteDotted(ps, '"');
    BareTwice(ps);
    UnquoteDotted(WithoutAll(ps, '"'), '\'');
  }

  lemma {:induction false} DottedPlain(ps: seq<Part>)
    requires PartsOk(ps)
    ensures AllNoBracket(Dotted(ps))
  {
    assert forall i :: 0 <= i < |ps[0].name| ==> NameChar(ps[0].name[i]);
    if |ps| > 1 {
      DottedPlain(ps[1..]);
    }
  }

  /** So a header written with such a name, in single or double brackets, heads that table. */
  lemma HeaderReads(before: string, ps: seq<Part>, after: string)
    requires Blank(before) && PartsOk(ps) && Trailing(after)
    ensures HeaderOf(before + "[" + Dotted(ps) + "]" + after) == Table(Dotted(BareAll(ps)))
    ensures HeaderOf(before + "[[" + Dotted(ps) + "]]" + after) == ArrayTable(Dotted(BareAll(ps)))
  {
    hide HeaderOf, Dotted, TableName, Trailing;
    DottedPlain(ps);
    DottedEnds(ps);
    NameReads("", ps, "");
    assert "" + Dotted(ps) + "" == Dotted(ps);
    TableReads(before + "[" + Dotted(ps) + "]" + after, Dotted(BareAll(ps)), before, Dotted(ps), after);
    ArrayTableReads(before + "[[" + Dotted(ps) + "]]" + after, Dotted(BareAll(ps)), before, Dotted(ps), after);
  }

  // ---------------------------------------------------------------------------
  // Values
  // ---------------------------------------------------------------------------

  lemma {:induction false} RunToEquals(a: string, rest: string)
    requires forall i :: 0 <= i < |a| ==> a[i] != '='
    ensures Run(a + ("=" + rest), NotEqualsSign) == |a|
  {
    if a == "" {
      assert a + ("=" + rest) == "=" + rest;
    } else {
      assert (a + ("=" + rest))[1..] == a[1..] + ("=" + rest);
      RunToEquals(a[1..], rest);
    }
  }

  /** The value of an assignment is what follows the equals sign, without the space before it. */
  lemma ValueReads(line: string, key: string, before: string, name: string, between: string, rest: string)
    requires PlainKey(key) && AssignsAt(line, key, before, name, between, rest)
    ensures AfterEquals(line) == TrimStart(rest)
  {
    PlainName(name, key);
    assert !Space('=');
    hide SameFolded, Space, TrimStart;
    var front := before + name + between;
    assert line == front + ("=" + rest);
    RunToEquals(front, rest);
    assert line[|front| + 1..] == rest;
  }

  /** An array that is closed on its line. */
  ghost predicate ClosedArray(value: string) {
    exists front, after :: value == front + "]" + after && Trailing(after)
  }

  lemma ClosesArrayExactly(value: string)
    ensures ClosesArray(value) <==> ClosedArray(value)
  {
    hide Ends, Trailing;
    if ClosesArray(value) {
      var i :| 0 <= i < |value| && value[i] == ']' && Ends(value[i + 1..]);
      EndsExactly(value[i + 1..]);
      assert value == value[..i] + "]" + value[i + 1..];
    }
    if ClosedArray(value) {
      var front, after :| value == front + "]" + after && Trailing(after);
      EndsExactly(after);
      assert value[|front|] == ']' && value[|front| + 1..] == after;
    }
  }

  /**
    The value of an assignment is refused exactly when it begins with three quotes, or is an array that its
    line does not close.
   */
  lemma RefusedExactly(line: string, key: string, before: string, name: string, between: string, blank: string, value: string)
    requires PlainKey(key) && AssignsAt(line, key, before, name, between, blank + value)
    requires Blank(blank) && (value == "" || !Space(value[0]))
    ensures BadValue(line) == Some(MultilineValue) <==>
            exists q, more :: Quote(q) && value == Triple(q) + more
    ensures BadValue(line) == Some(MultilineArray) <==>
            value != "" && value[0] == '[' && !ClosedArray(value)
  {
    ValueReads(line, key, before, name, between, blank + value);
    TrimStartIs(blank, value);
    ClosesArrayExactly(value);
    hide AfterEquals, ClosesArray, ClosedArray, PlainKey, AssignsAt, Space;
    TripleExactly(value);
  }

  lemma TripleExactly(value: string)
    ensures StartsTriple(value) <==> exists q, more :: Quote(q) && value == Triple(q) + more
    ensures StartsTriple(value) ==> value[0] != '['
  {
    if StartsTriple(value) {
      assert value == Triple(value[0]) + value[3..];
    }
  }

  /** The line the editor writes assigns its literal to its key. */
  lemma NewLineSays(key: string, literal: string)
    requires PlainKey(key)
    ensures Assigns(NewLine(key, literal), key) && AfterEquals(NewLine(key, literal)) == TrimStart(literal)
  {
    assert Space(' ');
    assert NewLine(key, literal) == "" + key + " " + "=" + (" " + literal);
    assert AssignsAt(NewLine(key, literal), key, "", key, " ", " " + literal);
    ValueReads(NewLine(key, literal), key, "", key, " ", " " + literal);
    assert (" " + literal)[1..] == literal;
  }
}
