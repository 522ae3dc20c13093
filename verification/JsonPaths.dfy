/**
  Every node of an ordered document gets its own path, and the field difference lists exactly the positions
  at which two documents differ; it is empty only for equal documents.
 */
module JsonPaths {
  import opened Wrappers
  import opened JsonTexts
  import J = CanonicalJson
  import U = CanonicalUniqueness
  import opened OrderedJson

  /** One step down: the o-th pair with a key, or the i-th element. */
  datatype Step = Key(name: Text, occurrence: nat) | Index(index: nat)

  type Address = seq<Step>

  /** The pair a key step names. */
  function Position(pairs: seq<Pair>, name: Text, occurrence: nat, from: nat): (k: Option<nat>)
    requires from <= |pairs|
    ensures k.Some? ==> from <= k.value < |pairs| && pairs[k.value].key == name && Occurrence(pairs, k.value) == occurrence
    ensures k.None? ==> forall i :: from <= i < |pairs| ==> !(pairs[i].key == name && Occurrence(pairs, i) == occurrence)
    decreases |pairs| - from
  {
    if from == |pairs| then None
    else if pairs[from].key == name && Occurrence(pairs, from) == occurrence then Some(from)
    else Position(pairs, name, occurrence, from + 1)
  }

  function Child(t: Tree, s: Step): Option<Tree> {
    match (t, s)
    case (Arr(items), Index(i)) => if i < |items| then Some(items[i]) else None
    case (Pairs(pairs), Key(name, occurrence)) =>
      var k := Position(pairs, name, occurrence, 0);
      if k.Some? then Some(pairs[k.value].value) else None
    case (_, _) => None
  }

  /** The node at an address. */
  function At(t: Tree, a: Address): Option<Tree>
    decreases |a|
  {
    if a == [] then Some(t)
    else
      var c := Child(t, a[0]);
      if c.None? then None else At(c.value, a[1..])
  }

  function StepText(s: Step): Text {
    match s
    case Key(name, occurrence) => KeyStep(name, occurrence)
    case Index(i) => IndexStep(i)
  }

  function Steps(a: Address): Text {
    if a == [] then [] else StepText(a[0]) + Steps(a[1..])
  }

  /** The path `json_fields` gives to the node at an address. */
  function PathOf(a: Address): Text { ROOT + Steps(a) }

  predicate Counting(a: Address) { forall i :: 0 <= i < |a| && a[i].Key? ==> a[i].occurrence >= 1 }

  // ---------------------------------------------------------------------------
  // Paths can be read back
  // ---------------------------------------------------------------------------

  lemma {:induction false} DecimalInjective(m: nat, n: nat)
    requires Decimal(m) == Decimal(n)
    ensures m == n
  {
    DecimalCases(m);
    DecimalCases(n);
    if m >= 10 && n >= 10 {
      Split(Decimal(m / 10), [48 + m % 10], Decimal(n / 10), [48 + n % 10]);
      DecimalInjective(m / 10, n / 10);
    }
  }

  lemma DecimalCases(n: nat)
    ensures n < 10 ==> Decimal(n) == [48 + n]
    ensures n >= 10 ==> Decimal(n) == Decimal(n / 10) + [48 + n % 10] && |Decimal(n)| >= 2
  {
  }

  /** A number ends at the first bracket. */
  lemma DecimalUnique(m: nat, n: nat, x: Text, y: Text)
    requires Decimal(m) + ([CLOSE] + x) == Decimal(n) + ([CLOSE] + y)
    ensures m == n && x == y
  {
    hide Decimal;
    NoBracket(m, n, x, y);
    NoBracket(n, m, y, x);
    Split(Decimal(m), [CLOSE] + x, Decimal(n), [CLOSE] + y);
    Split([CLOSE], x, [CLOSE], y);
    DecimalInjective(m, n);
  }

  lemma NoBracket(m: nat, n: nat, x: Text, y: Text)
    requires Decimal(m) + ([CLOSE] + x) == Decimal(n) + ([CLOSE] + y)
    ensures |Decimal(m)| <= |Decimal(n)|
  {
    hide Decimal;
    var d := Decimal(m);
    if |Decimal(n)| < |d| {
      ClosesAt(n, y);
      DigitAt(m, [CLOSE] + x, |Decimal(n)|);
    }
  }

  lemma ClosesAt(n: nat, y: Text)
    ensures (Decimal(n) + ([CLOSE] + y))[|Decimal(n)|] == CLOSE
  {
  }

  lemma DigitAt(m: nat, x: Text, i: nat)
    requires i < |Decimal(m)|
    ensures 48 <= (Decimal(m) + x)[i] <= 57
  {
    assert Decimal(m)[i] in Decimal(m);
  }

  /** What a path continues with: nothing, or a bracket followed by a quote or a digit. */
  lemma StepsShape(a: Address)
    ensures a == [] ==> Steps(a) == []
    ensures a != [] ==> |Steps(a)| >= 2 && Steps(a)[0] == OPEN
    ensures a != [] && a[0].Key? ==> Steps(a)[1] == QUOTE
    ensures a != [] && a[0].Index? ==> 48 <= Steps(a)[1] <= 57
  {
    hide Quote, Decimal;
    if a != [] && a[0].Index? {
      var d := Decimal(a[0].index);
      assert d[0] in d;
    }
  }

  lemma MarkUnique(o: nat, p: nat, a: Address, b: Address)
    requires o >= 1 && p >= 1 && Mark(o) + Steps(a) == Mark(p) + Steps(b)
    ensures o == p && Steps(a) == Steps(b)
  {
    hide Steps, Mark, Decimal, Duplicate;
    StepsShape(a);
    StepsShape(b);
    MarkShape(o, Steps(a));
    MarkShape(p, Steps(b));
    if o > 1 && p > 1 {
      var before := Duplicate();
      Split(before, Decimal(o) + ([CLOSE] + Steps(a)), before, Decimal(p) + ([CLOSE] + Steps(b)));
      DecimalUnique(o, p, Steps(a), Steps(b));
    }
  }

  /** A duplicate mark continues with a letter, where a step has a quote or a digit. */
  lemma MarkShape(o: nat, rest: Text)
    ensures o > 1 ==> |Mark(o) + rest| >= 2 && (Mark(o) + rest)[1] == 100
    ensures o > 1 ==> Mark(o) + rest == Duplicate() + (Decimal(o) + ([CLOSE] + rest))
    ensures o <= 1 ==> Mark(o) + rest == rest
  {
    hide Decimal;
    if o > 1 {
      assert Mark(o)[1] == Duplicate()[1];
    }
  }

  lemma {:induction false} StepsInjective(a: Address, b: Address)
    requires Counting(a) && Counting(b) && Steps(a) == Steps(b)
    ensures a == b
    decreases |a|
  {
    hide Steps, Quote, Decimal;
    StepsShape(a);
    StepsShape(b);
    if a != [] {
      StepsCases(a);
      StepsCases(b);
      var c, d := a[1..], b[1..];
      if a[0].Key? {
        Split([OPEN], Quote(a[0].name) + ([CLOSE] + (Mark(a[0].occurrence) + Steps(c))),
              [OPEN], Quote(b[0].name) + ([CLOSE] + (Mark(b[0].occurrence) + Steps(d))));
        QuoteUnique(a[0].name, b[0].name, [CLOSE] + (Mark(a[0].occurrence) + Steps(c)), [CLOSE] + (Mark(b[0].occurrence) + Steps(d)));
        Split([CLOSE], Mark(a[0].occurrence) + Steps(c), [CLOSE], Mark(b[0].occurrence) + Steps(d));
        MarkUnique(a[0].occurrence, b[0].occurrence, c, d);
      } else {
        Split([OPEN], Decimal(a[0].index) + ([CLOSE] + Steps(c)), [OPEN], Decimal(b[0].index) + ([CLOSE] + Steps(d)));
        DecimalUnique(a[0].index, b[0].index, Steps(c), Steps(d));
      }
      StepsInjective(c, d);
      assert a == [a[0]] + c && b == [b[0]] + d;
    }
  }

  lemma StepsCases(a: Address)
    requires a != []
    ensures a[0].Key? ==> Steps(a) == [OPEN] + (Quote(a[0].name) + ([CLOSE] + (Mark(a[0].occurrence) + Steps(a[1..]))))
    ensures a[0].Index? ==> Steps(a) == [OPEN] + (Decimal(a[0].index) + ([CLOSE] + Steps(a[1..])))
  {
    hide Quote, Decimal, Mark;
    match a[0] {
      case Key(name, o) => Regroup([OPEN], Quote(name), [CLOSE], Mark(o), Steps(a[1..]));
      case Index(i) => Regroup([OPEN], Decimal(i), [CLOSE], [], Steps(a[1..]));
    }
  }

  lemma Regroup(a: Text, b: Text, c: Text, d: Text, e: Text)
    ensures a + b + c + d + e == a + (b + (c + (d + e)))
    ensures d == [] ==> a + b + c + e == a + (b + (c + e))
  {
  }

  // ---------------------------------------------------------------------------
  // The field list, entry by entry
  // ---------------------------------------------------------------------------

  /** No name in the document is redacted. */
  predicate Plain(w: World, t: Tree) {
    match t
    case Arr(items) => forall i :: 0 <= i < |items| ==> Plain(w, items[i])
    case Pairs(pairs) => forall i :: 0 <= i < |pairs| ==> w.safe(pairs[i].key) == pairs[i].key && Plain(w, pairs[i].value)
    case _ => true
  }

  /** The addresses of all nodes, in the order of the field list. */
  function Addresses(t: Tree): seq<Address>
    decreases t, 1, 0
  {
    [[]] +
    match t
    case Arr(items) => ItemAddresses(t, 0)
    case Pairs(pairs) => PairAddresses(t, 0)
    case _ => []
  }

  function ItemAddresses(t: Tree, n: nat): seq<Address>
    requires t.Arr? && n <= |t.items|
    decreases t, 0, |t.items| - n
  {
    if n == |t.items| then [] else Under(Index(n), Addresses(t.items[n])) + ItemAddresses(t, n + 1)
  }

  function PairAddresses(t: Tree, n: nat): seq<Address>
    requires t.Pairs? && n <= |t.pairs|
    decreases t, 0, |t.pairs| - n
  {
    if n == |t.pairs| then []
    else Under(Key(t.pairs[n].key, Occurrence(t.pairs, n)), Addresses(t.pairs[n].value)) + PairAddresses(t, n + 1)
  }

  function Under(s: Step, addresses: seq<Address>): (out: seq<Address>)
    ensures |out| == |addresses| && forall i :: 0 <= i < |out| ==> out[i] == [s] + addresses[i]
  {
    if addresses == [] then [] else [[s] + addresses[0]] + Under(s, addresses[1..])
  }

  /** Entry i is the entry of the node at address i, under its path. */
  ghost predicate Describes(w: World, t: Tree, path: Text, entries: seq<Entry>, addresses: seq<Address>) {
    && |entries| == |addresses|
    && forall i :: 0 <= i < |entries| ==> Describe(w, t, path, entries[i], addresses[i])
  }

  ghost predicate Describe(w: World, t: Tree, path: Text, e: Entry, a: Address) {
    && Counting(a) && At(t, a).Some?
    && e == EntryOf(w, At(t, a).value, path + Steps(a))
  }

  /** One level up: the child's entries, seen from its parent. */
  lemma DescribeUnder(w: World, t: Tree, path: Text, s: Step, e: Entry, a: Address)
    requires Child(t, s).Some? && (s.Key? ==> s.occurrence >= 1)
    requires Describe(w, Child(t, s).value, path + StepText(s), e, a)
    ensures Describe(w, t, path, e, [s] + a)
  {
    hide EntryOf, StepText, Child;
    var b := [s] + a;
    assert b[0] == s && b[1..] == a;
    assert Steps(b) == StepText(s) + Steps(a);
    assert path + StepText(s) + Steps(a) == path + (StepText(s) + Steps(a));
  }

  lemma DescribesUnder(w: World, t: Tree, path: Text, s: Step, entries: seq<Entry>, addresses: seq<Address>)
    requires Child(t, s).Some? && (s.Key? ==> s.occurrence >= 1)
    requires Describes(w, Child(t, s).value, path + StepText(s), entries, addresses)
    ensures Describes(w, t, path, entries, Under(s, addresses))
  {
    hide Describe, Child, StepText;
    forall i | 0 <= i < |entries| ensures Describe(w, t, path, entries[i], Under(s, addresses)[i]) {
      DescribeUnder(w, t, path, s, entries[i], addresses[i]);
    }
  }

  lemma DescribesJoin(w: World, t: Tree, path: Text, e1: seq<Entry>, a1: seq<Address>, e2: seq<Entry>, a2: seq<Address>)
    requires Describes(w, t, path, e1, a1) && Describes(w, t, path, e2, a2)
    ensures Describes(w, t, path, e1 + e2, a1 + a2)
  {
    hide Describe;
  }

  lemma {:induction false} FieldsDescribe(w: World, t: Tree, path: Text)
    requires Plain(w, t)
    ensures Describes(w, t, path, Fields(w, t, path), Addresses(t))
    decreases t, 1, 0
  {
    hide EntryOf, Describes, Fields, ItemFields, PairFields, ItemAddresses, PairAddresses, Plain;
    FieldsCases(w, t, path);
    RootDescribed(w, t, path);
    if t.Arr? {
      ItemsDescribe(w, t, 0, path);
      DescribesJoin(w, t, path, [EntryOf(w, t, path)], [[]], ItemFields(w, t, 0, path), ItemAddresses(t, 0));
    } else if t.Pairs? {
      PairsDescribe(w, t, 0, path);
      DescribesJoin(w, t, path, [EntryOf(w, t, path)], [[]], PairFields(w, t, 0, path), PairAddresses(t, 0));
    } else {
      assert [EntryOf(w, t, path)] + [] == [EntryOf(w, t, path)];
      assert Addresses(t) == [[]];
    }
  }

  lemma RootDescribed(w: World, t: Tree, path: Text)
    ensures Describes(w, t, path, [EntryOf(w, t, path)], [[]])
  {
    hide EntryOf;
    assert path + [] == path;
  }

  lemma {:induction false} ItemsDescribe(w: World, t: Tree, n: nat, path: Text)
    requires t.Arr? && Plain(w, t) && n <= |t.items|
    ensures Describes(w, t, path, ItemFields(w, t, n, path), ItemAddresses(t, n))
    decreases t, 0, |t.items| - n
  {
    hide Fields, Addresses, EntryOf, Describes, IndexStep;
    ItemFieldsStep(w, t, n, path);
    if n < |t.items| {
      FieldsDescribe(w, t.items[n], path + IndexStep(n));
      DescribesUnder(w, t, path, Index(n), Fields(w, t.items[n], path + IndexStep(n)), Addresses(t.items[n]));
      ItemsDescribe(w, t, n + 1, path);
      DescribesJoin(w, t, path, Fields(w, t.items[n], path + IndexStep(n)), Under(Index(n), Addresses(t.items[n])),
                    ItemFields(w, t, n + 1, path), ItemAddresses(t, n + 1));
    } else {
      NothingDescribed(w, t, path);
    }
  }

  lemma {:induction false} PairsDescribe(w: World, t: Tree, n: nat, path: Text)
    requires t.Pairs? && Plain(w, t) && n <= |t.pairs|
    ensures Describes(w, t, path, PairFields(w, t, n, path), PairAddresses(t, n))
    decreases t, 0, |t.pairs| - n
  {
    hide Fields, Addresses, EntryOf, Describes, Occurrence, KeyStep, Position;
    PairFieldsStep(w, t, n, path);
    if n < |t.pairs| {
      var key, o := t.pairs[n].key, Occurrence(t.pairs, n);
      Found(t.pairs, n);
      FieldsDescribe(w, t.pairs[n].value, path + KeyStep(key, o));
      DescribesUnder(w, t, path, Key(key, o), Fields(w, t.pairs[n].value, path + KeyStep(key, o)), Addresses(t.pairs[n].value));
      PairsDescribe(w, t, n + 1, path);
      DescribesJoin(w, t, path, Fields(w, t.pairs[n].value, path + KeyStep(key, o)), Under(Key(key, o), Addresses(t.pairs[n].value)),
                    PairFields(w, t, n + 1, path), PairAddresses(t, n + 1));
    } else {
      NothingDescribed(w, t, path);
    }
  }

  lemma NothingDescribed(w: World, t: Tree, path: Text)
    ensures Describes(w, t, path, [], [])
  {
  }

  /** A key and its occurrence name one pair. */
  lemma Found(pairs: seq<Pair>, n: nat)
    requires n < |pairs|
    ensures Position(pairs, pairs[n].key, Occurrence(pairs, n), 0) == Some(n)
  {
    hide Position;
    var k := Position(pairs, pairs[n].key, Occurrence(pairs, n), 0).value;
    if k < n {
      OccurrenceGrows(pairs, k, n);
    } else if n < k {
      OccurrenceGrows(pairs, n, k);
    }
  }

  lemma {:induction false} OccurrenceGrows(pairs: seq<Pair>, i: nat, j: nat)
    requires i < j < |pairs| && pairs[i].key == pairs[j].key
    ensures Occurrence(pairs, i) < Occurrence(pairs, j)
  {
    CountStep(pairs, i, pairs[i].key);
    CountGrows(pairs, i + 1, j, pairs[i].key);
  }

  lemma {:induction false} CountGrows(pairs: seq<Pair>, i: nat, j: nat, key: Text)
    requires i <= j <= |pairs|
    ensures CountKey(pairs[..i], key) <= CountKey(pairs[..j], key)
  {
    if i < j {
      CountGrows(pairs, i, j - 1, key);
      CountStep(pairs, j - 1, key);
    }
  }

  /** Every node's address is listed. */
  lemma {:induction false} EveryAddress(t: Tree, a: Address)
    requires At(t, a).Some?
    ensures a in Addresses(t)
    decreases |a|
  {
    hide ItemAddresses, PairAddresses, Position;
    if a == [] {
      assert Addresses(t)[0] == [];
    } else {
      var c := Child(t, a[0]).value;
      EveryAddress(c, a[1..]);
      var i :| 0 <= i < |Addresses(c)| && Addresses(c)[i] == a[1..];
      assert a == [a[0]] + a[1..];
      assert a == Under(a[0], Addresses(c))[i];
      if t.Arr? {
        ItemListed(t, 0, a[0].index, a);
      } else {
        PairListed(t, 0, Position(t.pairs, a[0].name, a[0].occurrence, 0).value, a);
      }
    }
  }

  lemma {:induction false} ItemListed(t: Tree, n: nat, k: nat, a: Address)
    requires t.Arr? && n <= k < |t.items| && a in Under(Index(k), Addresses(t.items[k]))
    ensures a in ItemAddresses(t, n)
    decreases k - n
  {
    hide Addresses, Under;
    if n < k {
      ItemListed(t, n + 1, k, a);
    }
  }

  lemma {:induction false} PairListed(t: Tree, n: nat, k: nat, a: Address)
    requires t.Pairs? && n <= k < |t.pairs| && a in Under(Key(t.pairs[k].key, Occurrence(t.pairs, k)), Addresses(t.pairs[k].value))
    ensures a in PairAddresses(t, n)
    decreases k - n
  {
    hide Addresses, Under, Occurrence;
    if n < k {
      PairListed(t, n + 1, k, a);
    }
  }

  lemma PathInjective(a: Address, b: Address)
    requires Counting(a) && Counting(b) && PathOf(a) == PathOf(b)
    ensures a == b
  {
    Split(ROOT, Steps(a), ROOT, Steps(b));
    StepsInjective(a, b);
  }

  lemma {:induction false} LookupFinds(entries: seq<Entry>, path: Text)
    ensures Lookup(entries, path).Some? ==> Lookup(entries, path).value in entries && Lookup(entries, path).value.path == path
    ensures Lookup(entries, path).None? ==> forall e :: e in entries ==> e.path != path
  {
    if entries != [] {
      LookupFinds(entries[..|entries| - 1], path);
      assert entries == entries[..|entries| - 1] + [entries[|entries| - 1]];
    }
  }

  /** The dictionary built from a document's fields holds, under each node's path, that node's entry. */
  lemma LookupNode(w: World, t: Tree, a: Address)
    requires Plain(w, t) && Counting(a)
    ensures Lookup(Fields(w, t, ROOT), PathOf(a)) ==
            if At(t, a).Some? then Some(EntryOf(w, At(t, a).value, PathOf(a))) else None
  {
    hide Fields, Addresses, At, EntryOf, Plain, Steps, Lookup;
    var entries, addresses := Fields(w, t, ROOT), Addresses(t);
    FieldsDescribe(w, t, ROOT);
    LookupFinds(entries, PathOf(a));
    var found := Lookup(entries, PathOf(a));
    if found.Some? {
      var i :| 0 <= i < |entries| && entries[i] == found.value;
      assert Describe(w, t, ROOT, entries[i], addresses[i]);
      EntryPath(w, At(t, addresses[i]).value, PathOf(addresses[i]));
      PathInjective(addresses[i], a);
    } else if At(t, a).Some? {
      EveryAddress(t, a);
      var i :| 0 <= i < |addresses| && addresses[i] == a;
      assert Describe(w, t, ROOT, entries[i], addresses[i]);
      EntryPath(w, At(t, a).value, PathOf(a));
    }
  }

  lemma EntryPath(w: World, t: Tree, path: Text)
    ensures EntryOf(w, t, path).path == path
  {
  }

  // ---------------------------------------------------------------------------
  // Canonical texts of documents
  // ---------------------------------------------------------------------------

  lemma {:induction false} NormalizedProper(t: Tree)
    requires Sensible(t)
    ensures J.Proper(Normalized(t))
    ensures Printable(t) ==> J.AllFinite(Normalized(t))
    decreases t
  {
    match t {
      case Arr(items) =>
        forall i | 0 <= i < |items| ensures J.Proper(Normalized(items[i])) && (Printable(items[i]) ==> J.AllFinite(Normalized(items[i]))) {
          NormalizedProper(items[i]);
        }
      case Pairs(pairs) =>
        var list := NormalizedPairs(pairs);
        forall i | 0 <= i < |pairs| ensures J.Proper(list[i]) && (Printable(pairs[i].value) ==> J.AllFinite(list[i])) {
          NormalizedProper(pairs[i].value);
        }
        assert J.Proper(J.Arr(list));
      case _ =>
    }
  }

  lemma {:induction false} NormalizedInjective(s: Tree, t: Tree)
    requires J.Equal(Normalized(s), Normalized(t))
    ensures s == t
    decreases s
  {
    match s {
      case Arr(items) =>
        forall i | 0 <= i < |items| ensures items[i] == t.items[i] {
          NormalizedInjective(items[i], t.items[i]);
        }
      case Pairs(pairs) =>
        PairsEqual(s, t);
        forall i | 0 <= i < |pairs| ensures pairs[i] == t.pairs[i] {
          NormalizedInjective(pairs[i].value, t.pairs[i].value);
        }
      case _ =>
    }
  }

  lemma PairsEqual(s: Tree, t: Tree)
    requires s.Pairs? && J.Equal(Normalized(s), Normalized(t))
    ensures t.Pairs? && |s.pairs| == |t.pairs|
    ensures forall i :: 0 <= i < |s.pairs| ==> s.pairs[i].key == t.pairs[i].key && J.Equal(Normalized(s.pairs[i].value), Normalized(t.pairs[i].value))
  {
    var x, y := NormalizedPairs(s.pairs), NormalizedPairs(t.pairs);
    var fs, gs := [J.Field(ORDERED_OBJECT, J.Arr(x))], [J.Field(ORDERED_OBJECT, J.Arr(y))];
    assert Normalized(s) == J.Obj(fs) && Normalized(t) == J.Obj(gs);
    assert J.Matched(fs[0], gs);
    forall i | 0 <= i < |s.pairs|
      ensures s.pairs[i].key == t.pairs[i].key && J.Equal(Normalized(s.pairs[i].value), Normalized(t.pairs[i].value))
    {
      assert J.Equal(x[i], y[i]);
      assert J.Equal(x[i].items[0], y[i].items[0]) && J.Equal(x[i].items[1], y[i].items[1]);
    }
  }

  ghost predicate Injective(hash: Text -> int) { forall x: Text, y: Text :: hash(x) == hash(y) ==> x == y }

  /** Two nodes with one canonical text are the same tree, order and repetition of keys included. */
  lemma CanonicalInjective(s: Tree, t: Tree)
    requires Sensible(s) && Sensible(t)
    ensures Canonical(s).Some? && Canonical(s) == Canonical(t) ==> s == t
  {
    if Canonical(s).Some? && Canonical(s) == Canonical(t) {
      NormalizedProper(s);
      NormalizedProper(t);
      U.CanonicalDecides(Normalized(s), Normalized(t));
      NormalizedInjective(s, t);
    }
  }

  lemma EntryInjective(w: World, s: Tree, t: Tree, path: Text)
    requires Injective(w.hash) && Sensible(s) && Sensible(t) && Printable(s) && Printable(t)
    ensures EntryOf(w, s, path) == EntryOf(w, t, path) <==> s == t
  {
    hide J.Canonical, Normalized, KindOf, LengthOf;
    if EntryOf(w, s, path) == EntryOf(w, t, path) {
      CanonicalInjective(s, t);
    }
  }

  lemma {:induction false} NodeProper(t: Tree, a: Address)
    requires Sensible(t) && Printable(t) && At(t, a).Some?
    ensures Sensible(At(t, a).value) && Printable(At(t, a).value)
    decreases |a|
  {
    if a != [] {
      NodeProper(Child(t, a[0]).value, a[1..]);
    }
  }

  // ---------------------------------------------------------------------------
  // The difference
  // ---------------------------------------------------------------------------

  /** Documents the analyzer can compare by path: printable, with no redacted name. */
  ghost predicate Comparable(w: World, t: Tree) { Sensible(t) && Printable(t) && Plain(w, t) }

  /** At one address, the dictionaries agree exactly when the documents do. */
  lemma LookupsAgree(w: World, s: Tree, t: Tree, a: Address)
    requires Injective(w.hash) && Comparable(w, s) && Comparable(w, t) && Counting(a)
    ensures Lookup(Fields(w, s, ROOT), PathOf(a)) == Lookup(Fields(w, t, ROOT), PathOf(a)) <==> At(s, a) == At(t, a)
  {
    hide Fields, Lookup, At, EntryOf, Sensible, Printable, Plain, Steps;
    LookupNode(w, s, a);
    LookupNode(w, t, a);
    if At(s, a).Some? && At(t, a).Some? {
      NodeProper(s, a);
      NodeProper(t, a);
      EntryInjective(w, At(s, a).value, At(t, a).value, PathOf(a));
    }
  }

  /** A listed path is the path of some node. */
  lemma ListedNode(w: World, t: Tree, e: Entry) returns (a: Address)
    requires Plain(w, t) && e in Fields(w, t, ROOT)
    ensures Counting(a) && At(t, a).Some? && e.path == PathOf(a)
  {
    hide Fields, Addresses, At, EntryOf, Plain, Steps;
    FieldsDescribe(w, t, ROOT);
    var entries := Fields(w, t, ROOT);
    var i :| 0 <= i < |entries| && entries[i] == e;
    a := Addresses(t)[i];
    assert Describe(w, t, ROOT, entries[i], a);
    EntryPath(w, At(t, a).value, PathOf(a));
  }

  /** No two nodes of a document share a path. */
  lemma PathsUnique(w: World, t: Tree, a: Address, b: Address)
    requires Plain(w, t) && Counting(a) && Counting(b) && At(t, a).Some? && At(t, b).Some? && a != b
    ensures PathOf(a) != PathOf(b)
    ensures Lookup(Fields(w, t, ROOT), PathOf(a)) == Some(EntryOf(w, At(t, a).value, PathOf(a)))
  {
    hide Fields, Lookup, At, EntryOf, Plain, PathOf;
    LookupNode(w, t, a);
    if PathOf(a) == PathOf(b) {
      PathInjective(a, b);
    }
  }

  ghost predicate Differs(s: Tree, t: Tree, a: Address) { Counting(a) && At(s, a) != At(t, a) }

  ghost predicate ListsPath(diff: set<Difference>, path: Text) { exists d :: d in diff && d.path == path }

  /**
    The field difference of two documents lists a path exactly when it is the path of a position at which
    the documents differ; it is empty only when they are equal.
   */
  lemma FieldDiffExact(w: World, s: Tree, t: Tree, path: Text)
    requires Injective(w.hash) && Comparable(w, s) && Comparable(w, t)
    ensures var diff := FieldDiff(Fields(w, s, ROOT), Fields(w, t, ROOT));
            && (ListsPath(diff, path) <==> exists a: Address :: Differs(s, t, a) && PathOf(a) == path)
            && (diff == {} <==> s == t)
  {
    hide Fields, Lookup, At, Steps, Injective, Comparable, PathOf;
    var left, right := Fields(w, s, ROOT), Fields(w, t, ROOT);
    var diff := FieldDiff(left, right);
    if ListsPath(diff, path) {
      var d :| d in diff && d.path == path;
      var a := DifferencePosition(w, s, t, d);
      assert Differs(s, t, a);
    }
    if a: Address :| Differs(s, t, a) && PathOf(a) == path {
      DifferenceListed(w, s, t, a);
    }
    if s != t {
      RootPosition(s, t);
      DifferenceListed(w, s, t, []);
    } else if d: Difference :| d in diff {
      var a := DifferencePosition(w, s, t, d);
    }
  }

  lemma RootPosition(s: Tree, t: Tree)
    ensures Differs(s, t, []) <==> s != t
  {
  }

  lemma DifferencePosition(w: World, s: Tree, t: Tree, d: Difference) returns (a: Address)
    requires Injective(w.hash) && Comparable(w, s) && Comparable(w, t)
    requires d in FieldDiff(Fields(w, s, ROOT), Fields(w, t, ROOT))
    ensures Differs(s, t, a) && PathOf(a) == d.path
  {
    hide Fields, Lookup, At, Injective, PathOf, Sensible, Printable, Plain;
    var left, right := Fields(w, s, ROOT), Fields(w, t, ROOT);
    var e: Entry :| e in left + right && Lookup(left, e.path) != Lookup(right, e.path) && e.path == d.path;
    if e in left {
      a := ListedNode(w, s, e);
    } else {
      a := ListedNode(w, t, e);
    }
    LookupsAgree(w, s, t, a);
  }

  lemma DifferenceListed(w: World, s: Tree, t: Tree, a: Address)
    requires Injective(w.hash) && Comparable(w, s) && Comparable(w, t) && Differs(s, t, a)
    ensures ListsPath(FieldDiff(Fields(w, s, ROOT), Fields(w, t, ROOT)), PathOf(a))
  {
    hide Fields, Lookup, At, Injective, PathOf, Sensible, Printable, Plain;
    var left, right := Fields(w, s, ROOT), Fields(w, t, ROOT);
    var path := PathOf(a);
    LookupsAgree(w, s, t, a);
    LookupFinds(left, path);
    LookupFinds(right, path);
    var e := if Lookup(left, path).Some? then Lookup(left, path).value else Lookup(right, path).value;
    assert e in left + right && e.path == path;
    assert Difference(path, Lookup(left, path), Lookup(right, path)) in FieldDiff(left, right);
  }
}
