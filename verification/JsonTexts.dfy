/**
  JSON string literals as JSON.stringify writes them (section 7 of RFC 8259): quoting, short escapes, control
  characters and lone surrogates in hexadecimal, surrogate pairs and everything else as they are.
 */
module JsonTexts {
  /** A UTF-16 code unit. */
  type Unit = u: int | 0 <= u < 65536

  type Text = seq<Unit>

  const QUOTE: Unit := 34
  const BACKSLASH: Unit := 92
  const LETTER_U: Unit := 117

  predicate High(u: Unit) { 0xD800 <= u <= 0xDBFF }

  predicate Low(u: Unit) { 0xDC00 <= u <= 0xDFFF }

  /** Whether the text starts with a surrogate pair. */
  predicate Paired(s: Text) { |s| >= 2 && High(s[0]) && Low(s[1]) }

  function HexDigit(d: nat): Unit
    requires d < 16
  {
    if d < 10 then 48 + d else 87 + d
  }

  function Hex(u: Unit): (h: Text)
    ensures |h| == 4
  {
    [HexDigit(u / 16 / 16 / 16), HexDigit(u / 16 / 16 % 16), HexDigit(u / 16 % 16), HexDigit(u % 16)]
  }

  /** The letter of a two-character escape, or 0 for a unit that has none. */
  function Short(u: Unit): Unit {
    if u == QUOTE then QUOTE
    else if u == BACKSLASH then BACKSLASH
    else if u == 8 then 98
    else if u == 9 then 116
    else if u == 10 then 110
    else if u == 12 then 102
    else if u == 13 then 114
    else 0
  }

  function EscapeUnit(u: Unit): (e: Text)
    ensures e != []
  {
    if Short(u) != 0 then [BACKSLASH, Short(u)]
    else if u < 32 || High(u) || Low(u) then [BACKSLASH, LETTER_U] + Hex(u)
    else [u]
  }

  /** How many units the first piece of the text takes. */
  function Span(s: Text): (n: nat)
    requires s != []
    ensures 1 <= n <= |s|
  {
    if Paired(s) then 2 else 1
  }

  function Piece(s: Text): (p: Text)
    requires s != []
    ensures p != []
  {
    if Paired(s) then s[..2] else EscapeUnit(s[0])
  }

  function Escape(s: Text): Text
    decreases |s|
  {
    if s == [] then [] else Piece(s) + Escape(s[Span(s)..])
  }

  function Quote(s: Text): (q: Text)
    ensures |q| >= 2 && q[0] == QUOTE
  {
    [QUOTE] + Escape(s) + [QUOTE]
  }

  // ---------------------------------------------------------------------------
  // Reading a literal back
  // ---------------------------------------------------------------------------

  lemma HexInjective(a: Unit, b: Unit)
    requires Hex(a) == Hex(b)
    ensures a == b
  {
    assert Hex(a)[0] == Hex(b)[0] && Hex(a)[1] == Hex(b)[1] && Hex(a)[2] == Hex(b)[2] && Hex(a)[3] == Hex(b)[3];
    DigitInjective(a / 16 / 16 / 16, b / 16 / 16 / 16);
    DigitInjective(a / 16 / 16 % 16, b / 16 / 16 % 16);
    DigitInjective(a / 16 % 16, b / 16 % 16);
    DigitInjective(a % 16, b % 16);
    Rebuild(a / 16 / 16, b / 16 / 16);
    Rebuild(a / 16, b / 16);
    Rebuild(a, b);
  }

  lemma DigitInjective(d: nat, e: nat)
    requires d < 16 && e < 16
    ensures HexDigit(d) == HexDigit(e) ==> d == e
  {
  }

  lemma Rebuild(a: nat, b: nat)
    requires a / 16 == b / 16 && a % 16 == b % 16
    ensures a == b
  {
  }

  lemma ShortInjective(a: Unit, b: Unit)
    requires Short(a) != 0 && Short(a) == Short(b)
    ensures a == b
  {
  }

  lemma ShortIsNotU(a: Unit)
    ensures Short(a) != LETTER_U
  {
  }

  /** The first piece can be told from the text that starts with it. */
  lemma PieceReadable(s: Text, t: Text, x: Text, y: Text)
    requires s != [] && t != [] && Piece(s) + x == Piece(t) + y
    ensures x == y && s[..Span(s)] == t[..Span(t)]
  {
    hide Hex, Short;
    var whole := Piece(s) + x;
    assert whole[0] == Piece(s)[0] && whole[0] == Piece(t)[0];
    if Paired(s) || Paired(t) {
      assert whole[1] == Piece(s)[1] && whole[1] == Piece(t)[1];
      Split(Piece(s), x, Piece(t), y);
    } else if whole[0] == BACKSLASH {
      BackslashShort();
      EscapeReadable(s[0], t[0], x, y);
    } else {
      Split(Piece(s), x, Piece(t), y);
    }
  }

  lemma BackslashShort()
    ensures Short(BACKSLASH) == BACKSLASH
  {
  }

  lemma Split(a: Text, x: Text, b: Text, y: Text)
    requires |a| == |b| && a + x == b + y
    ensures a == b && x == y
  {
    assert a == (a + x)[..|a|] && b == (b + y)[..|b|];
    assert x == (a + x)[|a|..] && y == (b + y)[|b|..];
  }

  lemma EscapeReadable(a: Unit, b: Unit, x: Text, y: Text)
    requires EscapeUnit(a) + x == EscapeUnit(b) + y && EscapeUnit(a)[0] == BACKSLASH && EscapeUnit(b)[0] == BACKSLASH
    ensures x == y && a == b
  {
    hide Hex, Short;
    BackslashShort();
    var whole := EscapeUnit(a) + x;
    assert whole[1] == EscapeUnit(a)[1] && whole[1] == EscapeUnit(b)[1];
    ShortIsNotU(a);
    ShortIsNotU(b);
    Split(EscapeUnit(a), x, EscapeUnit(b), y);
    if Short(a) != 0 {
      ShortInjective(a, b);
    } else {
      assert EscapeUnit(a)[2..] == Hex(a) && EscapeUnit(b)[2..] == Hex(b);
      HexInjective(a, b);
    }
  }

  /** What a nonempty text escapes to does not start with a quote. */
  lemma EscapeStart(s: Text, x: Text)
    ensures s != [] ==> (Escape(s) + x)[0] != QUOTE
    ensures s == [] ==> Escape(s) + x == x
  {
    if s == [] {
      assert [] + x == x;
    } else {
      assert (Escape(s) + x)[0] == Piece(s)[0];
    }
  }

  /** A literal ends where its closing quote is: what follows does not matter. */
  lemma {:induction false} EscapeUnique(s: Text, t: Text, x: Text, y: Text)
    requires Escape(s) + ([QUOTE] + x) == Escape(t) + ([QUOTE] + y)
    ensures s == t && x == y
    decreases |s| + |t|
  {
    hide Piece, Span;
    if s == [] || t == [] {
      EscapeStart(s, [QUOTE] + x);
      EscapeStart(t, [QUOTE] + y);
      Split([QUOTE], x, [QUOTE], y);
    } else {
      var s1, t1 := s[Span(s)..], t[Span(t)..];
      assert Escape(s) + ([QUOTE] + x) == Piece(s) + (Escape(s1) + ([QUOTE] + x));
      assert Escape(t) + ([QUOTE] + y) == Piece(t) + (Escape(t1) + ([QUOTE] + y));
      PieceReadable(s, t, Escape(s1) + ([QUOTE] + x), Escape(t1) + ([QUOTE] + y));
      EscapeUnique(s1, t1, x, y);
      assert s == s[..Span(s)] + s1 && t == t[..Span(t)] + t1;
    }
  }

  /** Two string literals followed by anything are the same text only if they are the same literal. */
  lemma QuoteUnique(s: Text, t: Text, x: Text, y: Text)
    requires Quote(s) + x == Quote(t) + y
    ensures s == t && x == y
  {
    hide Escape;
    assert Quote(s) + x == [QUOTE] + (Escape(s) + ([QUOTE] + x));
    assert Quote(t) + y == [QUOTE] + (Escape(t) + ([QUOTE] + y));
    Split([QUOTE], Escape(s) + ([QUOTE] + x), [QUOTE], Escape(t) + ([QUOTE] + y));
    EscapeUnique(s, t, x, y);
  }
}
