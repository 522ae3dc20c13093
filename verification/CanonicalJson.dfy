/**
  The bridge's canonical form of a JSON value: object keys sorted, everything else as JSON.stringify prints
  it. Two values have the same canonical text exactly when they are equal up to the order of object keys,
  except that a number too large for a double prints as null.
 */
module CanonicalJson {
  import opened JsonTexts

  /** A number as its shortest decimal text, or an overflow, which JSON text can spell but not print. */
  datatype Number = Finite(token: Text) | Infinite(negative: bool)

  datatype Json =
    | Null
    | Bool(value: bool)
    | Num(number: Number)
    | Str(text: Text)
    | Arr(items: seq<Json>)
    | Obj(fields: seq<Field>)

  datatype Field = Field(key: Text, value: Json)

  const NULL_TEXT: Text := [110, 117, 108, 108]
  const TRUE_TEXT: Text := [116, 114, 117, 101]
  const FALSE_TEXT: Text := [102, 97, 108, 115, 101]
  const COMMA: Unit := 44
  const COLON: Unit := 58
  const OPEN_ARRAY: Unit := 91
  const CLOSE_ARRAY: Unit := 93
  const OPEN_OBJECT: Unit := 123
  const CLOSE_OBJECT: Unit := 125

  predicate NumberUnit(u: Unit) { 48 <= u <= 57 || u in {43, 45, 46, 101} }

  predicate Token(t: Text) { t != [] && (48 <= t[0] <= 57 || t[0] == 45) && forall u :: u in t ==> NumberUnit(u) }

  /** Keys are compared unit by unit, as the sort method compares strings. */
  predicate Less(a: Text, b: Text) {
    if b == [] then false
    else if a == [] then true
    else if a[0] != b[0] then a[0] < b[0]
    else Less(a[1..], b[1..])
  }

  /** A member of an object: its key and the canonical text of its value. */
  datatype Member = Member(key: Text, text: Text)

  function Insert(m: Member, sorted: seq<Member>): (out: seq<Member>)
    ensures multiset(out) == multiset(sorted) + multiset{m}
  {
    if sorted == [] then [m]
    else if Less(sorted[0].key, m.key) then
      assert sorted == [sorted[0]] + sorted[1..];
      [sorted[0]] + Insert(m, sorted[1..])
    else [m] + sorted
  }

  function Sort(ms: seq<Member>): (out: seq<Member>)
    ensures multiset(out) == multiset(ms)
  {
    if ms == [] then []
    else
      assert ms == [ms[0]] + ms[1..];
      Insert(ms[0], Sort(ms[1..]))
  }

  /** What follows the first element or member: a separator and the next, or the closing bracket. */
  function Elements(texts: seq<Text>, first: bool): Text {
    if texts == [] then [CLOSE_ARRAY]
    else (if first then [] else [COMMA]) + texts[0] + Elements(texts[1..], false)
  }

  function MemberText(m: Member): Text { Quote(m.key) + [COLON] + m.text }

  function Properties(ms: seq<Member>, first: bool): Text {
    if ms == [] then [CLOSE_OBJECT]
    else (if first then [] else [COMMA]) + MemberText(ms[0]) + Properties(ms[1..], false)
  }

  function Canonical(j: Json): Text {
    match j
    case Null => NULL_TEXT
    case Bool(b) => if b then TRUE_TEXT else FALSE_TEXT
    case Num(n) => if n.Finite? then n.token else NULL_TEXT
    case Str(s) => Quote(s)
    case Arr(items) => [OPEN_ARRAY] + Elements(Texts(items), true)
    case Obj(fields) => [OPEN_OBJECT] + Properties(Sort(Members(fields)), true)
  }

  function Texts(items: seq<Json>): (ts: seq<Text>)
    ensures |ts| == |items|
    ensures forall i :: 0 <= i < |items| ==> ts[i] == Canonical(items[i])
  {
    if items == [] then [] else [Canonical(items[0])] + Texts(items[1..])
  }

  function Members(fields: seq<Field>): (ms: seq<Member>)
    ensures |ms| == |fields|
    ensures forall i :: 0 <= i < |fields| ==> ms[i] == Member(fields[i].key, Canonical(fields[i].value))
  {
    if fields == [] then [] else [Member(fields[0].key, Canonical(fields[0].value))] + Members(fields[1..])
  }

  // ---------------------------------------------------------------------------
  // Equality up to key order
  // ---------------------------------------------------------------------------

  predicate DistinctKeys(fields: seq<Field>) { forall i, j :: 0 <= i < j < |fields| ==> fields[i].key != fields[j].key }

  /** Numbers are number tokens, and an object has each key once. */
  predicate Proper(j: Json) {
    match j
    case Num(n) => n.Finite? ==> Token(n.token)
    case Arr(items) => forall i :: 0 <= i < |items| ==> Proper(items[i])
    case Obj(fields) => DistinctKeys(fields) && forall i :: 0 <= i < |fields| ==> Proper(fields[i].value)
    case _ => true
  }

  predicate AllFinite(j: Json) {
    match j
    case Num(n) => n.Finite?
    case Arr(items) => forall i :: 0 <= i < |items| ==> AllFinite(items[i])
    case Obj(fields) => forall i :: 0 <= i < |fields| ==> AllFinite(fields[i].value)
    case _ => true
  }

  /** Equal, whatever the order of the keys of each object. */
  predicate Equal(a: Json, b: Json) {
    match (a, b)
    case (Arr(xs), Arr(ys)) => |xs| == |ys| && forall i :: 0 <= i < |xs| ==> Equal(xs[i], ys[i])
    case (Obj(fs), Obj(gs)) =>
      |fs| == |gs| && forall i :: 0 <= i < |fs| ==> Matched(fs[i], gs)
    case (_, _) => a == b
  }

  /** Some field of the other object has this key and an equal value. */
  predicate Matched(f: Field, gs: seq<Field>) {
    exists k :: 0 <= k < |gs| && f.key == gs[k].key && Equal(f.value, gs[k].value)
  }

  /** Numbers that print as null, made null. */
  function Printed(j: Json): Json {
    match j
    case Num(n) => if n.Finite? then j else Null
    case Arr(items) => Arr(PrintedItems(items))
    case Obj(fields) => Obj(PrintedFields(fields))
    case _ => j
  }

  function PrintedItems(items: seq<Json>): (out: seq<Json>)
    ensures |out| == |items| && forall i :: 0 <= i < |items| ==> out[i] == Printed(items[i])
  {
    if items == [] then [] else [Printed(items[0])] + PrintedItems(items[1..])
  }

  function PrintedFields(fields: seq<Field>): (out: seq<Field>)
    ensures |out| == |fields| && forall i :: 0 <= i < |fields| ==> out[i] == Field(fields[i].key, Printed(fields[i].value))
  {
    if fields == [] then [] else [Field(fields[0].key, Printed(fields[0].value))] + PrintedFields(fields[1..])
  }

  // ---------------------------------------------------------------------------
  // Sorting by key
  // ---------------------------------------------------------------------------

  lemma {:induction false} LessTotal(a: Text, b: Text)
    ensures !Less(a, a)
    ensures !(Less(a, b) && Less(b, a))
    ensures Less(a, b) || Less(b, a) || a == b
  {
    if a != [] {
      LessTotal(a[1..], if b != [] then b[1..] else []);
      if b != [] && a[0] == b[0] {
        assert a == [a[0]] + a[1..] && b == [b[0]] + b[1..];
      }
    }
  }

  lemma {:induction false} LessTransitive(a: Text, b: Text, c: Text)
    requires Less(a, b) && Less(b, c)
    ensures Less(a, c)
  {
    if a != [] && a[0] == b[0] && b[0] == c[0] {
      LessTransitive(a[1..], b[1..], c[1..]);
    }
  }

  predicate Increasing(ms: seq<Member>) { forall i, j :: 0 <= i < j < |ms| ==> Less(ms[i].key, ms[j].key) }

  predicate Apart(ms: seq<Member>) { forall i, j :: 0 <= i < j < |ms| ==> ms[i].key != ms[j].key }

  lemma InMultiset<T>(a: seq<T>, b: seq<T>, x: T)
    requires multiset(a) == multiset(b)
    ensures x in a <==> x in b
  {
    assert x in a <==> x in multiset(a);
    assert x in b <==> x in multiset(b);
  }

  lemma InsertMembers(m: Member, sorted: seq<Member>)
    ensures forall n :: n in Insert(m, sorted) <==> n == m || n in sorted
  {
    hide Insert;
    var out := Insert(m, sorted);
    assert forall n :: n in out <==> n in multiset(out);
    assert forall n :: n in sorted <==> n in multiset(sorted);
  }

  lemma {:induction false} InsertIncreasing(m: Member, sorted: seq<Member>)
    requires Increasing(sorted) && forall i :: 0 <= i < |sorted| ==> sorted[i].key != m.key
    ensures Increasing(Insert(m, sorted))
  {
    hide Less;
    if sorted != [] {
      var rest := sorted[1..];
      LessTotal(sorted[0].key, m.key);
      if Less(sorted[0].key, m.key) {
        InsertIncreasing(m, rest);
        InsertMembers(m, rest);
        var out := Insert(m, rest);
        forall j | 0 <= j < |out| ensures Less(sorted[0].key, out[j].key) {
          assert out[j] in out;
        }
      } else {
        forall j | 0 <= j < |rest| ensures Less(m.key, rest[j].key) {
          LessTransitive(m.key, sorted[0].key, rest[j].key);
        }
      }
    }
  }

  lemma {:induction false} SortIncreasing(ms: seq<Member>)
    requires Apart(ms)
    ensures Increasing(Sort(ms)) && |Sort(ms)| == |ms|
    ensures forall n :: n in Sort(ms) <==> n in ms
  {
    hide Less, Insert;
    if ms != [] {
      var rest := ms[1..];
      assert ms == [ms[0]] + rest;
      SortIncreasing(rest);
      forall k | 0 <= k < |Sort(rest)| ensures Sort(rest)[k].key != ms[0].key {
        assert Sort(rest)[k] in Sort(rest);
        var i :| 0 <= i < |rest| && rest[i] == Sort(rest)[k];
        assert ms[i + 1] == rest[i];
      }
      InsertIncreasing(ms[0], Sort(rest));
      InsertMembers(ms[0], Sort(rest));
    }
    assert |multiset(Sort(ms))| == |multiset(ms)|;
  }

  /** Two increasing lists with the same members are the same list. */
  lemma {:induction false} IncreasingUnique(a: seq<Member>, b: seq<Member>)
    requires Increasing(a) && Increasing(b) && |a| == |b| && forall m :: m in a ==> m in b
    ensures a == b
  {
    hide Less;
    if a != [] {
      var m := a[0];
      assert m in a;
      var k :| 0 <= k < |b| && b[k] == m;
      Positions(a, b);
      assert a == [a[0]] + a[1..] && b == [b[0]] + b[1..];
      forall x | x in a[1..] ensures x in b[1..] {
        var i :| 0 <= i < |a[1..]| && a[1..][i] == x;
        assert x in a && Less(a[0].key, a[i + 1].key);
        LessTotal(a[0].key, a[0].key);
      }
      IncreasingUnique(a[1..], b[1..]);
    }
  }

  /** Every member of an increasing list sits at or after its place in a longer or equal one. */
  lemma Positions(a: seq<Member>, b: seq<Member>)
    requires Increasing(a) && Increasing(b) && |a| == |b| && a != [] && forall m :: m in a ==> m in b
    ensures a[0] == b[0]
  {
    hide Less;
    if a[0] != b[0] {
      var rest := b[1..];
      assert b == [b[0]] + rest;
      forall i | 0 <= i < |a| ensures a[i] in rest {
        assert a[i] in b;
        if a[i] == b[0] {
          assert a[0] in a;
          var k :| 0 <= k < |b| && b[k] == a[0];
          LessTotal(b[0].key, b[k].key);
        }
      }
      Fits(a, rest);
    }
  }

  /** Distinct members of one list fit into another only if it is as long. */
  lemma {:induction false} Fits(a: seq<Member>, b: seq<Member>)
    requires Increasing(a) && forall i :: 0 <= i < |a| ==> a[i] in b
    ensures |a| <= |b|
  {
    hide Less;
    if a != [] {
      var last := |a| - 1;
      var k :| 0 <= k < |b| && b[k] == a[last];
      var rest := b[..k] + b[k + 1..];
      forall i | 0 <= i < last ensures a[i] in rest {
        var n :| 0 <= n < |b| && b[n] == a[i];
        LessTotal(a[i].key, a[last].key);
        assert n != k;
        assert rest[if n < k then n else n - 1] == a[i];
      }
      assert forall i :: 0 <= i < last ==> a[..last][i] == a[i];
      Fits(a[..last], rest);
    }
  }
}
