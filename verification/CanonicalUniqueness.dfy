/** The canonical form is injective up to key order: unique readability of canonical texts. */
module CanonicalUniqueness {
  import opened JsonTexts
  import opened CanonicalJson

  /** What can follow a value inside a canonical text. */
  predicate Delimited(p: Text) { p == [] || p[0] in {COMMA, CLOSE_ARRAY, CLOSE_OBJECT} }

  /** A value's kind shows in its first character. */
  lemma FirstUnit(j: Json)
    requires Proper(j)
    ensures var t := Canonical(j);
            && t != []
            && (t[0] == 110 <==> j.Null? || (j.Num? && j.number.Infinite?))
            && (t[0] == 116 <==> j == Bool(true)) && (t[0] == 102 <==> j == Bool(false))
            && (t[0] == QUOTE <==> j.Str?) && (t[0] == OPEN_ARRAY <==> j.Arr?) && (t[0] == OPEN_OBJECT <==> j.Obj?)
            && (48 <= t[0] <= 57 || t[0] == 45 <==> j.Num? && j.number.Finite?)
  {
    hide Escape, Elements, Properties, Sort;
  }

  lemma SplitAt(a: Text, x: Text, b: Text, y: Text)
    requires |a| == |b| && a + x == b + y
    ensures a == b && x == y
  {
    Split(a, x, b, y);
  }

  /** Two number tokens that end at a delimiter are the same token. */
  lemma TokenUnique(s: Text, t: Text, p: Text, q: Text)
    requires Token(s) && Token(t) && Delimited(p) && Delimited(q) && s + p == t + q
    ensures s == t && p == q
  {
    if |s| < |t| {
      Continues(s, t, p, q);
    } else if |t| < |s| {
      Continues(t, s, q, p);
    } else {
      SplitAt(s, p, t, q);
    }
  }

  /** The text after a token cannot lie inside a longer one. */
  lemma Continues(s: Text, t: Text, p: Text, q: Text)
    requires Token(t) && |s| < |t| && s + p == t + q
    ensures !Delimited(p)
  {
    assert p[0] == (s + p)[|s|] == (t + q)[|s|] == t[|s|];
    assert t[|s|] in t;
  }

  /** A value's text ends where the value does: what follows does not matter. */
  lemma {:induction false} SelfDelimiting(x: Json, y: Json, p: Text, q: Text)
    requires Proper(x) && Proper(y) && Delimited(p) && Delimited(q)
    requires Canonical(x) + p == Canonical(y) + q
    ensures Canonical(x) == Canonical(y) && p == q
    decreases x, 1, 0
  {
    hide Proper, Escape, Elements, Properties, Sort, Token, Delimited;
    FirstUnit(x);
    FirstUnit(y);
    assert (Canonical(x) + p)[0] == Canonical(x)[0] && (Canonical(y) + q)[0] == Canonical(y)[0];
    match x {
      case Str(s) =>
        QuoteUnique(s, y.text, p, q);
      case Arr(items) =>
        Whole(Texts(items));
        Whole(Texts(y.items));
        ArrayText(items, p);
        ArrayText(y.items, q);
        SplitAt([OPEN_ARRAY], Elements(Texts(items), true) + p, [OPEN_ARRAY], Elements(Texts(y.items), true) + q);
        ElementsUnique(x, y, 0, true, p, q);
      case Obj(fields) =>
        ObjectText(fields, p);
        ObjectText(y.fields, q);
        SplitAt([OPEN_OBJECT], Properties(Sort(Members(fields)), true) + p, [OPEN_OBJECT], Properties(Sort(Members(y.fields)), true) + q);
        PropertiesUnique(x, y, Sort(Members(fields)), Sort(Members(y.fields)), true, p, q);
      case Num(n) =>
        if n.Finite? {
          ProperToken(x);
          ProperToken(y);
          TokenUnique(n.token, y.number.token, p, q);
        } else {
          SplitAt(Canonical(x), p, Canonical(y), q);
        }
      case _ =>
        SplitAt(Canonical(x), p, Canonical(y), q);
    }
  }

  lemma ProperToken(j: Json)
    requires Proper(j) && j.Num? && j.number.Finite?
    ensures Token(j.number.token)
  {
  }

  lemma Whole<T>(s: seq<T>)
    ensures s[0..] == s
  {
  }

  lemma ArrayText(items: seq<Json>, p: Text)
    ensures Canonical(Arr(items)) + p == [OPEN_ARRAY] + (Elements(Texts(items), true) + p)
  {
  }

  lemma ObjectText(fields: seq<Field>, p: Text)
    ensures Canonical(Obj(fields)) + p == [OPEN_OBJECT] + (Properties(Sort(Members(fields)), true) + p)
  {
  }

  /** One step of an array's text: a closing bracket, or an element and what follows it. */
  lemma ElementsStep(texts: seq<Text>, first: bool, p: Text)
    ensures texts == [] ==> Elements(texts, first) + p == [CLOSE_ARRAY] + p
    ensures texts != [] ==> Elements(texts, first) + p ==
                            (if first then [] else [COMMA]) + (texts[0] + (Elements(texts[1..], false) + p))
    ensures var t := Elements(texts, first) + p;
            && t != [] && (!first ==> Delimited(t)) && (texts == [] ==> t[0] == CLOSE_ARRAY)
            && (texts != [] && !first ==> t[0] == COMMA)
            && (texts != [] && first && texts[0] != [] ==> t[0] == texts[0][0])
  {
  }

  lemma {:induction false} ElementsUnique(x: Json, y: Json, n: nat, first: bool, p: Text, q: Text)
    requires x.Arr? && y.Arr? && Proper(x) && Proper(y) && n <= |x.items| && n <= |y.items|
    requires Elements(Texts(x.items)[n..], first) + p == Elements(Texts(y.items)[n..], first) + q
    ensures Texts(x.items)[n..] == Texts(y.items)[n..] && p == q
    decreases x, 0, |x.items| - n
  {
    hide Elements, Texts, Canonical, Delimited;
    var xs, ys := Texts(x.items)[n..], Texts(y.items)[n..];
    ElementsStep(xs, first, p);
    ElementsStep(ys, first, q);
    if n < |x.items| {
      FirstUnit(x.items[n]);
    }
    if n < |y.items| {
      FirstUnit(y.items[n]);
    }
    if xs == [] {
      SplitAt([CLOSE_ARRAY], p, [CLOSE_ARRAY], q);
    } else {
      var sep: Text := if first then [] else [COMMA];
      var after, more := Elements(xs[1..], false) + p, Elements(ys[1..], false) + q;
      SplitAt(sep, xs[0] + after, sep, ys[0] + more);
      ElementsStep(xs[1..], false, p);
      ElementsStep(ys[1..], false, q);
      SelfDelimiting(x.items[n], y.items[n], after, more);
      assert xs[1..] == Texts(x.items)[n + 1..] && ys[1..] == Texts(y.items)[n + 1..];
      ElementsUnique(x, y, n + 1, false, p, q);
      assert xs == [xs[0]] + xs[1..] && ys == [ys[0]] + ys[1..];
    }
  }

  lemma PropertiesStep(ms: seq<Member>, first: bool, p: Text)
    ensures ms == [] ==> Properties(ms, first) + p == [CLOSE_OBJECT] + p
    ensures ms != [] ==> Properties(ms, first) + p ==
                         (if first then [] else [COMMA]) + (Quote(ms[0].key) + ([COLON] + (ms[0].text + (Properties(ms[1..], false) + p))))
    ensures var t := Properties(ms, first) + p;
            && t != [] && (!first ==> Delimited(t)) && (ms == [] ==> t[0] == CLOSE_OBJECT)
            && (ms != [] ==> t[0] == if first then QUOTE else COMMA)
  {
    hide Escape;
  }

  /** These members are printed fields of this object. */
  predicate From(j: Json, ms: seq<Member>)
    requires j.Obj?
  {
    forall i :: 0 <= i < |ms| ==> ms[i] in Members(j.fields)
  }

  lemma FieldOf(j: Json, m: Member) returns (i: nat)
    requires j.Obj? && m in Members(j.fields)
    ensures i < |j.fields| && m == Member(j.fields[i].key, Canonical(j.fields[i].value))
  {
    hide Canonical, Members;
    var ms := Members(j.fields);
    i :| 0 <= i < |ms| && ms[i] == m;
  }

  lemma SortedFrom(j: Json)
    requires j.Obj?
    ensures From(j, Sort(Members(j.fields)))
  {
    hide Sort, Members;
    var ms, sorted := Members(j.fields), Sort(Members(j.fields));
    forall i | 0 <= i < |sorted| ensures sorted[i] in ms {
      assert sorted[i] in sorted;
      InMultiset(sorted, ms, sorted[i]);
    }
  }

  lemma {:induction false} PropertiesUnique(x: Json, y: Json, ms: seq<Member>, ns: seq<Member>, first: bool, p: Text, q: Text)
    requires x.Obj? && y.Obj? && Proper(x) && Proper(y)
    requires Properties(ms, first) + p == Properties(ns, first) + q
    requires From(x, ms) || ms == Sort(Members(x.fields))
    requires From(y, ns) || ns == Sort(Members(y.fields))
    ensures ms == ns && p == q
    decreases x, 0, |ms|
  {
    hide Properties, Members, Canonical, Delimited, Escape, Sort;
    SortedFrom(x);
    SortedFrom(y);
    PropertiesStep(ms, first, p);
    PropertiesStep(ns, first, q);
    if ms == [] {
      SplitAt([CLOSE_OBJECT], p, [CLOSE_OBJECT], q);
    } else {
      var sep: Text := if first then [] else [COMMA];
      var after, more := Properties(ms[1..], false) + p, Properties(ns[1..], false) + q;
      SplitAt(sep, Quote(ms[0].key) + ([COLON] + (ms[0].text + after)), sep, Quote(ns[0].key) + ([COLON] + (ns[0].text + more)));
      QuoteUnique(ms[0].key, ns[0].key, [COLON] + (ms[0].text + after), [COLON] + (ns[0].text + more));
      SplitAt([COLON], ms[0].text + after, [COLON], ns[0].text + more);
      PropertiesStep(ms[1..], false, p);
      PropertiesStep(ns[1..], false, q);
      var i := FieldOf(x, ms[0]);
      var k := FieldOf(y, ns[0]);
      SelfDelimiting(x.fields[i].value, y.fields[k].value, after, more);
      PropertiesUnique(x, y, ms[1..], ns[1..], false, p, q);
      assert ms == [ms[0]] + ms[1..] && ns == [ns[0]] + ns[1..];
    }
  }

  // ---------------------------------------------------------------------------
  // Equal texts, equal values
  // ---------------------------------------------------------------------------

  lemma {:induction false} SameTextEqual(x: Json, y: Json)
    requires Proper(x) && Proper(y) && AllFinite(x) && AllFinite(y) && Canonical(x) == Canonical(y)
    ensures Equal(x, y)
    decreases x
  {
    hide Escape, Elements, Properties, Sort, Members, Texts, Token, DistinctKeys;
    FirstUnit(x);
    FirstUnit(y);
    match x {
      case Str(s) =>
        QuoteUnique(s, y.text, [], []);
      case Arr(items) =>
        SameArray(x, y);
        forall i | 0 <= i < |items| ensures Equal(items[i], y.items[i]) {
          assert Texts(items)[i] == Texts(y.items)[i];
          SameTextEqual(items[i], y.items[i]);
        }
      case Obj(fields) =>
        SameObject(x, y);
        forall i | 0 <= i < |fields| ensures Matched(fields[i], y.fields) {
          var k := FieldOf(y, Members(fields)[i]);
          SameTextEqual(fields[i].value, y.fields[k].value);
        }
      case _ =>
    }
  }

  lemma SameArray(x: Json, y: Json)
    requires x.Arr? && y.Arr? && Proper(x) && Proper(y) && Canonical(x) == Canonical(y)
    ensures Texts(x.items) == Texts(y.items)
  {
    hide Elements, Texts, Proper;
    ArrayText(x.items, []);
    ArrayText(y.items, []);
    SplitAt([OPEN_ARRAY], Elements(Texts(x.items), true) + [], [OPEN_ARRAY], Elements(Texts(y.items), true) + []);
    Whole(Texts(x.items));
    Whole(Texts(y.items));
    ElementsUnique(x, y, 0, true, [], []);
  }

  lemma SameObject(x: Json, y: Json)
    requires x.Obj? && y.Obj? && Proper(x) && Proper(y) && Canonical(x) == Canonical(y)
    ensures |x.fields| == |y.fields| && forall m :: m in Members(x.fields) ==> m in Members(y.fields)
  {
    hide Properties, Members, Sort, Proper;
    ObjectText(x.fields, []);
    ObjectText(y.fields, []);
    var ms, ns := Sort(Members(x.fields)), Sort(Members(y.fields));
    SplitAt([OPEN_OBJECT], Properties(ms, true) + [], [OPEN_OBJECT], Properties(ns, true) + []);
    PropertiesUnique(x, y, ms, ns, true, [], []);
    assert |multiset(Members(x.fields))| == |multiset(Members(y.fields))|;
    forall m | m in Members(x.fields) ensures m in Members(y.fields) {
      InMultiset(ms, Members(x.fields), m);
      InMultiset(ns, Members(y.fields), m);
    }
  }

  lemma {:induction false} EqualSameText(x: Json, y: Json)
    requires Proper(x) && Proper(y) && Equal(x, y)
    ensures Canonical(x) == Canonical(y)
    decreases x
  {
    hide Escape, Elements, Properties, Sort, Token;
    match x {
      case Arr(items) =>
        forall i | 0 <= i < |items| ensures Texts(items)[i] == Texts(y.items)[i] {
          EqualSameText(items[i], y.items[i]);
        }
        assert Texts(items) == Texts(y.items);
      case Obj(fields) =>
        forall i | 0 <= i < |fields| ensures Members(fields)[i] in Members(y.fields) {
          assert Matched(fields[i], y.fields);
          var k :| 0 <= k < |y.fields| && fields[i].key == y.fields[k].key && Equal(fields[i].value, y.fields[k].value);
          EqualSameText(fields[i].value, y.fields[k].value);
          assert Members(y.fields)[k] == Members(fields)[i];
        }
        SameMembers(fields, y.fields);
      case _ =>
    }
  }

  lemma SameMembers(fs: seq<Field>, gs: seq<Field>)
    requires DistinctKeys(fs) && DistinctKeys(gs) && |fs| == |gs|
    requires forall i :: 0 <= i < |fs| ==> Members(fs)[i] in Members(gs)
    ensures Sort(Members(fs)) == Sort(Members(gs))
  {
    hide Sort, Members;
    SortIncreasing(Members(fs));
    SortIncreasing(Members(gs));
    forall m | m in Sort(Members(fs)) ensures m in Sort(Members(gs)) {
      assert m in Members(fs);
    }
    IncreasingUnique(Sort(Members(fs)), Sort(Members(gs)));
  }

  lemma {:induction false} PrintedSame(j: Json)
    requires Proper(j)
    ensures Proper(Printed(j)) && AllFinite(Printed(j)) && Canonical(Printed(j)) == Canonical(j)
    decreases j
  {
    hide Escape, Elements, Properties, Sort, Token;
    match j {
      case Arr(items) =>
        forall i | 0 <= i < |items|
          ensures Proper(Printed(items[i])) && AllFinite(Printed(items[i])) && Texts(PrintedItems(items))[i] == Texts(items)[i]
        {
          PrintedSame(items[i]);
        }
        assert Texts(PrintedItems(items)) == Texts(items);
      case Obj(fields) =>
        forall i | 0 <= i < |fields|
          ensures Proper(Printed(fields[i].value)) && AllFinite(Printed(fields[i].value))
          ensures Members(PrintedFields(fields))[i] == Members(fields)[i]
        {
          PrintedSame(fields[i].value);
        }
        assert Members(PrintedFields(fields)) == Members(fields);
      case _ =>
    }
  }

  /** Canonical texts are equal exactly when the values are equal up to key order, overflows counting as null. */
  lemma CanonicalExact(x: Json, y: Json)
    requires Proper(x) && Proper(y)
    ensures Canonical(x) == Canonical(y) <==> Equal(Printed(x), Printed(y))
  {
    hide Canonical, Printed, Proper, Equal, AllFinite;
    PrintedSame(x);
    PrintedSame(y);
    if Canonical(x) == Canonical(y) {
      SameTextEqual(Printed(x), Printed(y));
    }
    if Equal(Printed(x), Printed(y)) {
      EqualSameText(Printed(x), Printed(y));
    }
  }

  /** Without overflows the canonical text decides equality up to key order. */
  lemma CanonicalDecides(x: Json, y: Json)
    requires Proper(x) && Proper(y) && AllFinite(x) && AllFinite(y)
    ensures Canonical(x) == Canonical(y) <==> Equal(x, y)
  {
    hide Canonical, Proper, Equal, AllFinite;
    if Canonical(x) == Canonical(y) {
      SameTextEqual(x, y);
    }
    if Equal(x, y) {
      EqualSameText(x, y);
    }
  }

  /** An overflow and null have one canonical text: a tool list with 1e999 passes for one with null. */
  lemma OverflowPassesForNull()
    ensures Proper(Arr([Num(Infinite(false))])) && Proper(Arr([Null]))
    ensures !Equal(Arr([Num(Infinite(false))]), Arr([Null]))
    ensures Canonical(Arr([Num(Infinite(false))])) == Canonical(Arr([Null]))
  {
    assert Texts([Num(Infinite(false))]) == [NULL_TEXT] == Texts([Null]);
  }
}
