/**
 JSON-like values held by ordered maps, and the canonical order of their keys:
 core/schemas/orderedmap.go.

 An ordered map is a list of fields without repeated keys, standing for its key slice together
 with its value map; a plain Go map is a list of fields in some iteration order.  Nil maps, nil
 slices and ordered maps whose value map was never made are values of their own.
 */
module OrderedValues {
  import opened Wrappers

  datatype Scalar = Text(s: string) | Number(n: real) | Bool(b: bool) | Null

  datatype Field = Field(key: string, value: Value)

  datatype Value =
    | Leaf(scalar: Scalar)
    | Ordered(made: bool, fields: seq<Field>)
    | NilOrdered
    | Plain(fields: seq<Field>)
    | NilPlain
    | Slice(items: seq<Value>)
    | NilSlice

  predicate UniqueKeys(fs: seq<Field>) {
    forall i, j :: 0 <= i < j < |fs| ==> fs[i].key != fs[j].key
  }

  /** Maps hold a key once, and a map never made is empty, at every depth. */
  predicate WellFormed(v: Value) {
    match v
    case Ordered(made, fs) => UniqueKeys(fs) && (!made ==> fs == []) && forall i :: 0 <= i < |fs| ==> WellFormed(fs[i].value)
    case Plain(fs) => UniqueKeys(fs) && forall i :: 0 <= i < |fs| ==> WellFormed(fs[i].value)
    case Slice(items) => forall i :: 0 <= i < |items| ==> WellFormed(items[i])
    case _ => true
  }

  // ----- The order of keys -----

  predicate Lex(a: string, b: string) {
    b != [] && (a == [] || a[0] < b[0] || (a[0] == b[0] && Lex(a[1..], b[1..])))
  }

  lemma {:induction false} LexTotal(a: string, b: string)
    ensures a == b || Lex(a, b) || Lex(b, a)
    ensures !(Lex(a, b) && Lex(b, a)) && !Lex(a, a)
  {
    if a != [] {
      LexTotal(a[1..], a[1..]);
      if b != [] && a[0] == b[0] {
        LexTotal(a[1..], b[1..]);
        assert a == [a[0]] + a[1..] && b == [b[0]] + b[1..];
      }
    }
  }

  lemma {:induction false} LexTransitive(a: string, b: string, c: string)
    requires Lex(a, b) && Lex(b, c)
    ensures Lex(a, c)
  {
    if a != [] && a[0] == b[0] == c[0] { LexTransitive(a[1..], b[1..], c[1..]); }
  }

  /** The position a JSON Schema keyword is given ahead of all other keys. */
  function Priority(k: string): nat {
    if k == "type" then 0 else if k == "description" then 1 else if k == "properties" then 2 else if k == "required" then 3 else 4
  }

  /** The comparison both sorts use: keywords first, by priority; the rest by their text. */
  predicate Before(a: string, b: string) {
    if Priority(a) < 4 && Priority(b) < 4 then Priority(a) < Priority(b)
    else if Priority(a) < 4 then true
    else if Priority(b) < 4 then false
    else Lex(a, b)
  }

  lemma BeforeTotal(a: string, b: string)
    ensures a == b || Before(a, b) || Before(b, a)
    ensures !(Before(a, b) && Before(b, a)) && !Before(a, a)
  {
    LexTotal(a, b);
    LexTotal(a, a);
  }

  lemma BeforeTransitive(a: string, b: string, c: string)
    requires Before(a, b) && Before(b, c)
    ensures Before(a, c)
  {
    if Lex(a, b) && Lex(b, c) { LexTransitive(a, b, c); }
  }

  /** A strict total order. */
  ghost predicate IsOrder(lt: (string, string) -> bool) {
    && (forall a, b {:trigger lt(a, b)} :: (a == b || lt(a, b) || lt(b, a)) && !(lt(a, b) && lt(b, a)))
    && (forall a, b, c {:trigger lt(a, b), lt(b, c)} :: lt(a, b) && lt(b, c) ==> lt(a, c))
  }

  lemma KeyOrders()
    ensures IsOrder(Before) && IsOrder(Lex)
  {
    forall a, b ensures (a == b || Lex(a, b) || Lex(b, a)) && !(Lex(a, b) && Lex(b, a)) { LexTotal(a, b); }
    forall a, b, c | Lex(a, b) && Lex(b, c) ensures Lex(a, c) { LexTransitive(a, b, c); }
    forall a, b ensures (a == b || Before(a, b) || Before(b, a)) && !(Before(a, b) && Before(b, a)) { BeforeTotal(a, b); }
    forall a, b, c | Before(a, b) && Before(b, c) ensures Before(a, c) { BeforeTransitive(a, b, c); }
  }

  // ----- Sorting fields by key -----

  predicate Sorted(fs: seq<Field>, lt: (string, string) -> bool) {
    forall i, j :: 0 <= i < j < |fs| ==> lt(fs[i].key, fs[j].key)
  }

  function Insert(f: Field, fs: seq<Field>, lt: (string, string) -> bool): (r: seq<Field>)
    ensures |r| == |fs| + 1
  {
    if fs == [] || lt(f.key, fs[0].key) then [f] + fs else [fs[0]] + Insert(f, fs[1..], lt)
  }

  /** What sorting the keys with that comparison leaves. */
  function Sort(fs: seq<Field>, lt: (string, string) -> bool): (r: seq<Field>)
    ensures |r| == |fs|
  {
    if fs == [] then [] else Insert(fs[0], Sort(fs[1..], lt), lt)
  }

  lemma {:induction false} InsertElements(f: Field, fs: seq<Field>, lt: (string, string) -> bool, x: Field)
    ensures x in Insert(f, fs, lt) <==> x == f || x in fs
  {
    if fs == [] || lt(f.key, fs[0].key) {
    } else {
      InsertElements(f, fs[1..], lt, x);
      assert fs == [fs[0]] + fs[1..];
    }
  }

  lemma {:induction false} SortElements(fs: seq<Field>, lt: (string, string) -> bool, x: Field)
    ensures x in Sort(fs, lt) <==> x in fs
  {
    if fs != [] {
      SortElements(fs[1..], lt, x);
      InsertElements(fs[0], Sort(fs[1..], lt), lt, x);
      assert fs == [fs[0]] + fs[1..];
    }
  }

  lemma {:induction false} InsertSorted(f: Field, fs: seq<Field>, lt: (string, string) -> bool)
    requires IsOrder(lt) && Sorted(fs, lt) && forall x :: x in fs ==> x.key != f.key
    ensures Sorted(Insert(f, fs, lt), lt)
  {
    if fs == [] || lt(f.key, fs[0].key) {
    } else {
      InsertSorted(f, fs[1..], lt);
      var r := Insert(f, fs[1..], lt);
      forall j | 0 <= j < |r| ensures lt(fs[0].key, r[j].key) {
        InsertElements(f, fs[1..], lt, r[j]);
        if r[j] != f {
          var i :| 0 <= i < |fs[1..]| && fs[1..][i] == r[j];
          assert fs[i + 1] == r[j];
        }
      }
    }
  }

  lemma {:induction false} SortSorted(fs: seq<Field>, lt: (string, string) -> bool)
    requires IsOrder(lt) && UniqueKeys(fs)
    ensures Sorted(Sort(fs, lt), lt)
  {
    if fs != [] {
      SortSorted(fs[1..], lt);
      forall x | x in Sort(fs[1..], lt) ensures x.key != fs[0].key {
        SortElements(fs[1..], lt, x);
        var i :| 0 <= i < |fs[1..]| && fs[1..][i] == x;
        assert fs[i + 1] == x;
      }
      InsertSorted(fs[0], Sort(fs[1..], lt), lt);
    }
  }

  lemma SortedUnique(fs: seq<Field>, lt: (string, string) -> bool)
    requires IsOrder(lt) && Sorted(fs, lt)
    ensures UniqueKeys(fs)
  {
  }

  /** Sorted lists with the same fields are the same list. */
  lemma {:induction false} SortedSame(a: seq<Field>, b: seq<Field>, lt: (string, string) -> bool)
    requires IsOrder(lt) && Sorted(a, lt) && Sorted(b, lt) && forall x :: x in a <==> x in b
    ensures a == b
  {
    assert b == [] || b[0] in b;
    if a != [] {
      assert a[0] in a;
      FirstSame(a, b, lt);
      var a', b' := a[1..], b[1..];
      SortedUnique(a, lt);
      SortedUnique(b, lt);
      forall x ensures x in a' <==> x in b' {
        InRest(a, x);
        InRest(b, x);
      }
      SortedSame(a', b', lt);
    }
  }

  lemma InRest(fs: seq<Field>, x: Field)
    requires UniqueKeys(fs) && fs != []
    ensures x in fs[1..] <==> x in fs && x != fs[0]
  {
    if x in fs && x != fs[0] {
      var i :| 0 <= i < |fs| && fs[i] == x;
      assert fs[1..][i - 1] == x;
    }
    if x in fs[1..] {
      var i :| 0 <= i < |fs[1..]| && fs[1..][i] == x;
      assert fs[i + 1] == x;
    }
  }

  lemma FirstSame(a: seq<Field>, b: seq<Field>, lt: (string, string) -> bool)
    requires IsOrder(lt) && Sorted(a, lt) && Sorted(b, lt) && a != [] && b != [] && a[0] in b && b[0] in a
    ensures a[0] == b[0]
  {
    var i :| 0 <= i < |b| && b[i] == a[0];
    var j :| 0 <= j < |a| && a[j] == b[0];
    assert i > 0 ==> lt(b[0].key, a[0].key);
    assert j > 0 ==> lt(a[0].key, b[0].key);
  }

  predicate SameFields(a: seq<Field>, b: seq<Field>) {
    (forall x :: x in a ==> x in b) && (forall x :: x in b ==> x in a)
  }

  /** Sorting depends only on which fields there are. */
  lemma SortCanonical(a: seq<Field>, b: seq<Field>, lt: (string, string) -> bool)
    requires IsOrder(lt) && UniqueKeys(a) && UniqueKeys(b)
    ensures Sort(a, lt) == Sort(b, lt) <==> SameFields(a, b)
  {
    forall x ensures (x in Sort(a, lt) <==> x in a) && (x in Sort(b, lt) <==> x in b) {
      SortElements(a, lt, x);
      SortElements(b, lt, x);
    }
    SortSorted(a, lt);
    SortSorted(b, lt);
    if SameFields(a, b) { SortedSame(Sort(a, lt), Sort(b, lt), lt); }
  }
}
