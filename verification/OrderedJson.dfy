/**
  The analyzer's view of a JSON document: an ordered tree with repeated keys, a canonical text, a list of
  fields with one path per node, and the difference of two such lists.

  Hashes are injective, numbers are their printed tokens, and strings are UTF-16 text. A path is built from
  names that are not redacted.
 */
module OrderedJson {
  import opened Wrappers
  import opened JsonTexts
  import J = CanonicalJson

  datatype Tree =
    | Null
    | Bool(value: bool)
    | Num(number: J.Number)
    | Str(text: Text)
    | Arr(items: seq<Tree>)
    | Pairs(pairs: seq<Pair>)

  datatype Pair = Pair(key: Text, value: Tree)

  /** "$ordered_object" */
  const ORDERED_OBJECT: Text := [36, 111, 114, 100, 101, 114, 101, 100, 95, 111, 98, 106, 101, 99, 116]

  /** An object becomes its marked list of pairs, so that order and repetition survive. */
  function Normalized(t: Tree): J.Json {
    match t
    case Null => J.Null
    case Bool(b) => J.Bool(b)
    case Num(n) => J.Num(n)
    case Str(s) => J.Str(s)
    case Arr(items) => J.Arr(NormalizedItems(items))
    case Pairs(pairs) => J.Obj([J.Field(ORDERED_OBJECT, J.Arr(NormalizedPairs(pairs)))])
  }

  function NormalizedItems(items: seq<Tree>): (out: seq<J.Json>)
    ensures |out| == |items| && forall i :: 0 <= i < |items| ==> out[i] == Normalized(items[i])
  {
    if items == [] then [] else [Normalized(items[0])] + NormalizedItems(items[1..])
  }

  function NormalizedPairs(pairs: seq<Pair>): (out: seq<J.Json>)
    ensures |out| == |pairs|
    ensures forall i :: 0 <= i < |pairs| ==> out[i] == J.Arr([J.Str(pairs[i].key), Normalized(pairs[i].value)])
  {
    if pairs == [] then [] else [J.Arr([J.Str(pairs[0].key), Normalized(pairs[0].value)])] + NormalizedPairs(pairs[1..])
  }

  /** Every surrogate is half of a pair, so the text has a UTF-8 encoding. */
  predicate WellPaired(s: Text)
    decreases |s|
  {
    s == [] || (if Paired(s) then WellPaired(s[2..]) else !High(s[0]) && !Low(s[0]) && WellPaired(s[1..]))
  }

  /** The document can be printed: finite numbers, encodable text. */
  predicate Printable(t: Tree) {
    match t
    case Num(n) => n.Finite?
    case Str(s) => WellPaired(s)
    case Arr(items) => forall i :: 0 <= i < |items| ==> Printable(items[i])
    case Pairs(pairs) => forall i :: 0 <= i < |pairs| ==> WellPaired(pairs[i].key) && Printable(pairs[i].value)
    case _ => true
  }

  /** Number tokens look like numbers. */
  predicate Sensible(t: Tree) {
    match t
    case Num(n) => n.Finite? ==> J.Token(n.token)
    case Arr(items) => forall i :: 0 <= i < |items| ==> Sensible(items[i])
    case Pairs(pairs) => forall i :: 0 <= i < |pairs| ==> Sensible(pairs[i].value)
    case _ => true
  }

  /** `canonical`: the text that is hashed, or an error for what cannot be printed. */
  function Canonical(t: Tree): Option<Text> {
    if Printable(t) then Some(J.Canonical(Normalized(t))) else None
  }

  // ---------------------------------------------------------------------------
  // Fields
  // ---------------------------------------------------------------------------

  datatype Kind = ObjectKind | ArrayKind | NullKind | BooleanKind | StringKind | NumberKind

  function KindOf(t: Tree): Kind {
    match t
    case Null => NullKind
    case Bool(_) => BooleanKind
    case Num(_) => NumberKind
    case Str(_) => StringKind
    case Arr(_) => ArrayKind
    case Pairs(_) => ObjectKind
  }

  function CodePoints(s: Text): nat
    decreases |s|
  {
    if s == [] then 0 else 1 + CodePoints(s[Span(s)..])
  }

  function LengthOf(t: Tree): Option<nat> {
    match t
    case Str(s) => Some(CodePoints(s))
    case Arr(items) => Some(|items|)
    case Pairs(pairs) => Some(|pairs|)
    case _ => None
  }

  datatype Entry = Entry(path: Text, kind: Kind, digest: int, length: Option<nat>)

  /** The hash, and what becomes of names that might be secrets. */
  datatype World = World(hash: Text -> int, safe: Text -> Text)

  function EntryOf(w: World, t: Tree, path: Text): Entry {
    Entry(path, KindOf(t), w.hash(J.Canonical(Normalized(t))), LengthOf(t))
  }

  const OPEN: Unit := 91
  const CLOSE: Unit := 93
  const ROOT: Text := [36]

  /** "[duplicate=" */
  function Duplicate(): Text { [OPEN, 100, 117, 112, 108, 105, 99, 97, 116, 101, 61] }

  function Decimal(n: nat): (t: Text)
    ensures t != [] && forall u :: u in t ==> 48 <= u <= 57
  {
    if n < 10 then [48 + n] else Decimal(n / 10) + [48 + n % 10]
  }

  /** How often the key of pair n occurs up to and including it. */
  function Occurrence(pairs: seq<Pair>, n: nat): (o: nat)
    requires n < |pairs|
    ensures o >= 1
  {
    1 + CountKey(pairs[..n], pairs[n].key)
  }

  function CountKey(pairs: seq<Pair>, key: Text): nat {
    if pairs == [] then 0 else CountKey(pairs[..|pairs| - 1], key) + (if pairs[|pairs| - 1].key == key then 1 else 0)
  }

  /** What tells a repeated key from its first occurrence. */
  function Mark(occurrence: nat): Text {
    if occurrence > 1 then Duplicate() + Decimal(occurrence) + [CLOSE] else []
  }

  function KeyStep(name: Text, occurrence: nat): Text { [OPEN] + Quote(name) + [CLOSE] + Mark(occurrence) }

  function IndexStep(i: nat): Text { [OPEN] + Decimal(i) + [CLOSE] }

  /** `json_fields`: the node itself, then its children in order. */
  function Fields(w: World, t: Tree, path: Text): seq<Entry>
    decreases t, 1, 0
  {
    [EntryOf(w, t, path)] +
    match t
    case Arr(items) => ItemFields(w, t, 0, path)
    case Pairs(pairs) => PairFields(w, t, 0, path)
    case _ => []
  }

  function ItemFields(w: World, t: Tree, n: nat, path: Text): seq<Entry>
    requires t.Arr? && n <= |t.items|
    decreases t, 0, |t.items| - n
  {
    if n == |t.items| then [] else Fields(w, t.items[n], path + IndexStep(n)) + ItemFields(w, t, n + 1, path)
  }

  function PairFields(w: World, t: Tree, n: nat, path: Text): seq<Entry>
    requires t.Pairs? && n <= |t.pairs|
    decreases t, 0, |t.pairs| - n
  {
    if n == |t.pairs| then []
    else
      Fields(w, t.pairs[n].value, path + KeyStep(w.safe(t.pairs[n].key), Occurrence(t.pairs, n)))
      + PairFields(w, t, n + 1, path)
  }

  /** The document's fields; a document that cannot be printed has none, as its own entry already fails. */
  function JsonFields(w: World, t: Tree): Option<seq<Entry>> {
    if Canonical(t).None? then None else Some(Fields(w, t, ROOT))
  }

  lemma FieldsCases(w: World, t: Tree, path: Text)
    ensures Fields(w, t, path) == [EntryOf(w, t, path)] +
            if t.Arr? then ItemFields(w, t, 0, path) else if t.Pairs? then PairFields(w, t, 0, path) else []
  {
  }

  lemma ItemFieldsStep(w: World, t: Tree, n: nat, path: Text)
    requires t.Arr? && n <= |t.items|
    ensures ItemFields(w, t, n, path) ==
            if n == |t.items| then [] else Fields(w, t.items[n], path + IndexStep(n)) + ItemFields(w, t, n + 1, path)
  {
  }

  lemma PairFieldsStep(w: World, t: Tree, n: nat, path: Text)
    requires t.Pairs? && n <= |t.pairs|
    ensures PairFields(w, t, n, path) ==
            if n == |t.pairs| then []
            else Fields(w, t.pairs[n].value, path + KeyStep(w.safe(t.pairs[n].key), Occurrence(t.pairs, n))) + PairFields(w, t, n + 1, path)
  {
  }

  lemma CountStep(pairs: seq<Pair>, n: nat, key: Text)
    requires n < |pairs|
    ensures CountKey(pairs[..n + 1], key) == CountKey(pairs[..n], key) + (if pairs[n].key == key then 1 else 0)
    ensures Occurrence(pairs, n) == CountKey(pairs[..n], pairs[n].key) + 1
  {
    assert pairs[..n + 1][..n] == pairs[..n];
  }

  function Seen(occurrences: map<Text, nat>, key: Text): nat { if key in occurrences then occurrences[key] else 0 }

  /** The dictionary counts the keys of these pairs. */
  ghost predicate Tracks(occurrences: map<Text, nat>, pairs: seq<Pair>) {
    forall k :: Seen(occurrences, k) == CountKey(pairs, k)
  }

  lemma TracksNext(occurrences: map<Text, nat>, pairs: seq<Pair>, n: nat)
    requires n < |pairs| && Tracks(occurrences, pairs[..n])
    ensures var key := pairs[n].key;
            && Tracks(occurrences[key := Seen(occurrences, key) + 1], pairs[..n + 1])
            && Seen(occurrences, key) + 1 == Occurrence(pairs, n)
  {
    hide CountKey;
    var key := pairs[n].key;
    CountStep(pairs, n, key);
    var next := occurrences[key := Seen(occurrences, key) + 1];
    forall k ensures Seen(next, k) == CountKey(pairs[..n + 1], k) {
      CountStep(pairs, n, k);
      assert Seen(occurrences, k) == CountKey(pairs[..n], k);
    }
  }

  lemma TracksNone(pairs: seq<Pair>)
    ensures Tracks(map[], pairs[..0])
  {
  }

  /** The recursive walk, with its dictionary of key occurrences. */
  method Walk(w: World, value: Tree, path: Text, result: seq<Entry>) returns (out: seq<Entry>)
    ensures out == result + Fields(w, value, path)
    decreases value
  {
    hide *;
    FieldsCases(w, value, path);
    out := result + [EntryOf(w, value, path)];
    if value.Pairs? {
      var occurrences: map<Text, nat> := map[];
      TracksNone(value.pairs);
      for n := 0 to |value.pairs|
        invariant Tracks(occurrences, value.pairs[..n])
        invariant out + PairFields(w, value, n, path) == result + Fields(w, value, path)
      {
        var key, child := value.pairs[n].key, value.pairs[n].value;
        TracksNext(occurrences, value.pairs, n);
        PairFieldsStep(w, value, n, path);
        var seen := Seen(occurrences, key) + 1;
        occurrences := occurrences[key := seen];
        out := Walk(w, child, path + KeyStep(w.safe(key), seen), out);
      }
      PairFieldsStep(w, value, |value.pairs|, path);
    } else if value.Arr? {
      for n := 0 to |value.items|
        invariant out + ItemFields(w, value, n, path) == result + Fields(w, value, path)
      {
        ItemFieldsStep(w, value, n, path);
        out := Walk(w, value.items[n], path + IndexStep(n), out);
      }
      ItemFieldsStep(w, value, |value.items|, path);
    }
  }

  /** The outermost call: its own entry fails first for a document that cannot be printed. */
  method FieldsOf(w: World, value: Tree) returns (r: Option<seq<Entry>>)
    ensures r == JsonFields(w, value)
    ensures r.Some? <==> Printable(value)
  {
    hide Fields, Printable;
    if Canonical(value).None? {
      return None;
    }
    var out := Walk(w, value, ROOT, []);
    assert [] + Fields(w, value, ROOT) == Fields(w, value, ROOT);
    return Some(out);
  }

  // ---------------------------------------------------------------------------
  // Differences
  // ---------------------------------------------------------------------------

  datatype Difference = Difference(path: Text, left: Option<Entry>, right: Option<Entry>)

  /** The entry a dictionary built from the list holds under a path: the last one. */
  function Lookup(entries: seq<Entry>, path: Text): Option<Entry> {
    if entries == [] then None
    else if entries[|entries| - 1].path == path then Some(entries[|entries| - 1])
    else Lookup(entries[..|entries| - 1], path)
  }

  /** `field_diff`, as a set: every path of either list whose entries differ. */
  function FieldDiff(left: seq<Entry>, right: seq<Entry>): set<Difference> {
    set e | e in left + right && Lookup(left, e.path) != Lookup(right, e.path)
      :: Difference(e.path, Lookup(left, e.path), Lookup(right, e.path))
  }

  datatype IndexDifference<T> = IndexDifference(index: nat, left: Option<T>, right: Option<T>)

  function Element<T>(s: seq<T>, i: nat): Option<T> { if i < |s| then Some(s[i]) else None }

  /** `ordered_diff`: the positions at which two lists differ, in order, and nothing else. */
  method OrderedDiff<T(==)>(left: seq<T>, right: seq<T>) returns (result: seq<IndexDifference<T>>)
    ensures forall d :: d in result ==> d.left == Element(left, d.index) && d.right == Element(right, d.index) && d.left != d.right
    ensures forall i: nat :: Element(left, i) != Element(right, i) ==> IndexDifference(i, Element(left, i), Element(right, i)) in result
    ensures forall i, j :: 0 <= i < j < |result| ==> result[i].index < result[j].index
    ensures result == [] <==> left == right
  {
    result := [];
    var longest := if |left| < |right| then |right| else |left|;
    for index := 0 to longest
      invariant forall d :: d in result ==> d.left == Element(left, d.index) && d.right == Element(right, d.index) && d.left != d.right && d.index < index
      invariant forall i: nat :: i < index && Element(left, i) != Element(right, i) ==> IndexDifference(i, Element(left, i), Element(right, i)) in result
      invariant forall i, j :: 0 <= i < j < |result| ==> result[i].index < result[j].index
    {
      var a, b := Element(left, index), Element(right, index);
      if a != b {
        forall i | 0 <= i < |result| ensures result[i].index < index {
          assert result[i] in result;
        }
        result := result + [IndexDifference(index, a, b)];
      }
    }
    if result == [] {
      SameElements(left, right);
    } else {
      assert result[0] in result;
    }
  }

  lemma SameElements<T>(left: seq<T>, right: seq<T>)
    requires forall i: nat :: Element(left, i) == Element(right, i)
    ensures left == right
  {
    assert Element(left, |left|) == Element(right, |left|) && Element(left, |right|) == Element(right, |right|);
    forall i: nat | i < |left| ensures left[i] == right[i] {
      assert Element(left, i) == Element(right, i);
    }
  }
}
