/**
 Sorting ordered maps: SortKeys in place, SortedCopy, and SortedCopyPreservingProperties, and
 exactly which values they make equal.
 */
module OrderedCopies {
  import opened Wrappers
  import opened OrderedValues

  // ----- SortedCopy -----

  /** SortedCopy on every kind of value: plain maps become ordered maps with sorted keys. */
  function Copy(v: Value): Value {
    match v
    case Ordered(_, fs) =>
      var copied := seq(|fs|, i requires 0 <= i < |fs| => Field(fs[i].key, Copy(fs[i].value)));
      Ordered(true, Sort(copied, Before))
    case Plain(fs) =>
      var copied := seq(|fs|, i requires 0 <= i < |fs| => Field(fs[i].key, Copy(fs[i].value)));
      Ordered(true, Sort(Sort(copied, Lex), Before))
    case NilPlain => NilOrdered
    case Slice(items) => Slice(seq(|items|, i requires 0 <= i < |items| => Copy(items[i])))
    case NilSlice => Slice([])
    case _ => v
  }

  predicate IsObject(v: Value) {
    v.Ordered? || v.Plain?
  }

  predicate IsNilMap(v: Value) {
    v.NilOrdered? || v.NilPlain?
  }

  predicate IsSlice(v: Value) {
    v.Slice? || v.NilSlice?
  }

  function Items(v: Value): seq<Value>
    requires IsSlice(v)
  {
    if v.Slice? then v.items else []
  }

  /** Equal as nested maps: key order, and how an empty or missing container is held, aside. */
  predicate Same(a: Value, b: Value)
    decreases a
  {
    if IsObject(a) then
      && IsObject(b)
      && (forall i :: 0 <= i < |a.fields| ==> Finds(a.fields[i], b.fields))
      && (forall j :: 0 <= j < |b.fields| ==> Found(a.fields, b.fields[j]))
    else if IsNilMap(a) then IsNilMap(b)
    else if a.Slice? then IsSlice(b) && |a.items| == |Items(b)| && forall i :: 0 <= i < |a.items| ==> Same(a.items[i], Items(b)[i])
    else if a.NilSlice? then IsSlice(b) && Items(b) == []
    else a == b
  }

  /** f's key has the same value in gs. */
  predicate Finds(f: Field, gs: seq<Field>)
    decreases f
  {
    exists j :: 0 <= j < |gs| && gs[j].key == f.key && Same(f.value, gs[j].value)
  }

  predicate Found(fs: seq<Field>, g: Field)
    decreases fs
  {
    exists i :: 0 <= i < |fs| && fs[i].key == g.key && Same(fs[i].value, g.value)
  }

  /** The fields with their values replaced. */
  predicate Maps(fs: seq<Field>, gs: seq<Field>) {
    |gs| == |fs| && forall i :: 0 <= i < |fs| ==> gs[i].key == fs[i].key
  }

  lemma MapsUnique(fs: seq<Field>, gs: seq<Field>)
    requires UniqueKeys(fs) && Maps(fs, gs)
    ensures UniqueKeys(gs)
  {
  }

  /** Sorting twice sorts by the last comparison. */
  lemma SortTwice(fs: seq<Field>)
    requires UniqueKeys(fs)
    ensures Sort(Sort(fs, Lex), Before) == Sort(fs, Before)
  {
    KeyOrders();
    SortSorted(fs, Lex);
    SortedUnique(Sort(fs, Lex), Lex);
    forall x ensures x in Sort(fs, Lex) <==> x in fs { SortElements(fs, Lex, x); }
    SortCanonical(Sort(fs, Lex), fs, Before);
  }

  function CopiedFields(v: Value): (gs: seq<Field>)
    requires IsObject(v)
    ensures Maps(v.fields, gs)
  {
    seq(|v.fields|, i requires 0 <= i < |v.fields| => Field(v.fields[i].key, Copy(v.fields[i].value)))
  }

  lemma CopyObject(v: Value)
    requires WellFormed(v) && IsObject(v)
    ensures Copy(v) == Ordered(true, Sort(CopiedFields(v), Before)) && UniqueKeys(CopiedFields(v))
  {
    MapsUnique(v.fields, CopiedFields(v));
    SortTwice(CopiedFields(v));
  }

  lemma CopyKind(v: Value)
    ensures IsObject(v) <==> Copy(v).Ordered?
    ensures IsNilMap(v) <==> Copy(v).NilOrdered?
    ensures IsSlice(v) <==> Copy(v).Slice?
    ensures IsSlice(v) ==> Copy(v) == Slice(seq(|Items(v)|, i requires 0 <= i < |Items(v)| => Copy(Items(v)[i])))
    ensures v.Leaf? ==> Copy(v) == v
  {
  }

  /** Two values have the same sorted copy exactly when they are equal as nested maps. */
  lemma {:induction false} CopyExact(a: Value, b: Value)
    requires WellFormed(a) && WellFormed(b)
    ensures Copy(a) == Copy(b) <==> Same(a, b)
    decreases a
  {
    CopyKind(a);
    CopyKind(b);
    if IsObject(a) && IsObject(b) {
      forall i, j | 0 <= i < |a.fields| && 0 <= j < |b.fields|
        ensures Copy(a.fields[i].value) == Copy(b.fields[j].value) <==> Same(a.fields[i].value, b.fields[j].value)
      {
        CopyExact(a.fields[i].value, b.fields[j].value);
      }
      CopyObject(a);
      CopyObject(b);
      KeyOrders();
      SortCanonical(CopiedFields(a), CopiedFields(b), Before);
      SameObjects(a, b);
    } else if IsSlice(a) && IsSlice(b) {
      var xs, ys := Items(a), Items(b);
      forall i | 0 <= i < |xs| && i < |ys| ensures Copy(xs[i]) == Copy(ys[i]) <==> Same(xs[i], ys[i]) { CopyExact(xs[i], ys[i]); }
      SameSlices(a, b);
    }
  }

  lemma SameObjects(a: Value, b: Value)
    requires IsObject(a) && IsObject(b)
    requires forall i, j :: 0 <= i < |a.fields| && 0 <= j < |b.fields| ==>
                              (Copy(a.fields[i].value) == Copy(b.fields[j].value) <==> Same(a.fields[i].value, b.fields[j].value))
    ensures SameFields(CopiedFields(a), CopiedFields(b)) <==> Same(a, b)
  {
    if SameFields(CopiedFields(a), CopiedFields(b)) { SameObjectsTo(a, b); }
    if Same(a, b) { SameObjectsFrom(a, b); }
  }

  lemma SameObjectsTo(a: Value, b: Value)
    requires IsObject(a) && IsObject(b) && SameFields(CopiedFields(a), CopiedFields(b))
    requires forall i, j :: 0 <= i < |a.fields| && 0 <= j < |b.fields| ==>
                              (Copy(a.fields[i].value) == Copy(b.fields[j].value) <==> Same(a.fields[i].value, b.fields[j].value))
    ensures Same(a, b)
  {
    var x, y := CopiedFields(a), CopiedFields(b);
    forall i | 0 <= i < |a.fields| ensures Finds(a.fields[i], b.fields) {
      assert x[i] in y;
      var j :| 0 <= j < |y| && y[j] == x[i];
      assert b.fields[j].key == a.fields[i].key;
    }
    forall j | 0 <= j < |b.fields| ensures Found(a.fields, b.fields[j]) {
      assert y[j] in x;
      var i :| 0 <= i < |x| && x[i] == y[j];
      assert a.fields[i].key == b.fields[j].key;
    }
  }

  lemma SameObjectsThere(a: Value, b: Value, i: nat)
    requires IsObject(a) && IsObject(b) && i < |a.fields| && Finds(a.fields[i], b.fields)
    requires forall i, j :: 0 <= i < |a.fields| && 0 <= j < |b.fields| ==>
                              (Copy(a.fields[i].value) == Copy(b.fields[j].value) <==> Same(a.fields[i].value, b.fields[j].value))
    ensures CopiedFields(a)[i] in CopiedFields(b)
  {
    var j :| 0 <= j < |b.fields| && b.fields[j].key == a.fields[i].key && Same(a.fields[i].value, b.fields[j].value);
    assert CopiedFields(b)[j] == CopiedFields(a)[i];
  }

  lemma SameObjectsBack(a: Value, b: Value, j: nat)
    requires IsObject(a) && IsObject(b) && j < |b.fields| && Found(a.fields, b.fields[j])
    requires forall i, j :: 0 <= i < |a.fields| && 0 <= j < |b.fields| ==>
                              (Copy(a.fields[i].value) == Copy(b.fields[j].value) <==> Same(a.fields[i].value, b.fields[j].value))
    ensures CopiedFields(b)[j] in CopiedFields(a)
  {
    var i :| 0 <= i < |a.fields| && a.fields[i].key == b.fields[j].key && Same(a.fields[i].value, b.fields[j].value);
    assert CopiedFields(a)[i] == CopiedFields(b)[j];
  }

  lemma SameObjectsFrom(a: Value, b: Value)
    requires IsObject(a) && IsObject(b) && Same(a, b)
    requires forall i, j :: 0 <= i < |a.fields| && 0 <= j < |b.fields| ==>
                              (Copy(a.fields[i].value) == Copy(b.fields[j].value) <==> Same(a.fields[i].value, b.fields[j].value))
    ensures SameFields(CopiedFields(a), CopiedFields(b))
  {
    var x, y := CopiedFields(a), CopiedFields(b);
    forall i | 0 <= i < |x| ensures x[i] in y { SameObjectsThere(a, b, i); }
    forall j | 0 <= j < |y| ensures y[j] in x { SameObjectsBack(a, b, j); }
  }

  lemma SameSlices(a: Value, b: Value)
    requires IsSlice(a) && IsSlice(b)
    requires forall i :: 0 <= i < |Items(a)| && i < |Items(b)| ==>
                           (Copy(Items(a)[i]) == Copy(Items(b)[i]) <==> Same(Items(a)[i], Items(b)[i]))
    ensures Copy(a) == Copy(b) <==> Same(a, b)
  {
    CopyKind(a);
    CopyKind(b);
    var x := seq(|Items(a)|, i requires 0 <= i < |Items(a)| => Copy(Items(a)[i]));
    var y := seq(|Items(b)|, i requires 0 <= i < |Items(b)| => Copy(Items(b)[i]));
    assert Copy(a) == Slice(x) && Copy(b) == Slice(y);
    if x == y {
      forall i | 0 <= i < |Items(a)| ensures Same(Items(a)[i], Items(b)[i]) { assert x[i] == y[i]; }
    }
    if Same(a, b) {
      assert |x| == |y|;
      forall i | 0 <= i < |x| ensures x[i] == y[i] { assert Same(Items(a)[i], Items(b)[i]); }
    }
  }

  // ----- SortKeys -----

  /** What SortKeys leaves of a tree that shares no part with another: an empty map is returned as
      it is, and a nil slice stays nil. */
  function SortValue(v: Value): Value {
    match v
    case Ordered(made, fs) =>
      if fs == [] then v
      else Ordered(made, Sort(seq(|fs|, i requires 0 <= i < |fs| => Field(fs[i].key, SortValue(fs[i].value))), Before))
    case Plain(fs) =>
      var sorted := seq(|fs|, i requires 0 <= i < |fs| => Field(fs[i].key, SortValue(fs[i].value)));
      Ordered(true, Sort(Sort(sorted, Lex), Before))
    case NilPlain => NilOrdered
    case Slice(items) => Slice(seq(|items|, i requires 0 <= i < |items| => SortValue(items[i])))
    case _ => v
  }

  /** No nil slice and no empty ordered map whose value map was never made, at any depth. */
  predicate Clean(v: Value) {
    match v
    case Ordered(made, fs) => made && forall i :: 0 <= i < |fs| ==> Clean(fs[i].value)
    case Plain(fs) => forall i :: 0 <= i < |fs| ==> Clean(fs[i].value)
    case Slice(items) => forall i :: 0 <= i < |items| ==> Clean(items[i])
    case NilSlice => false
    case _ => true
  }

  function SortedFields(v: Value): (gs: seq<Field>)
    requires IsObject(v)
    ensures Maps(v.fields, gs)
  {
    seq(|v.fields|, i requires 0 <= i < |v.fields| => Field(v.fields[i].key, SortValue(v.fields[i].value)))
  }

  /** Fields under the same keys sort to the same list only if they are the same. */
  lemma SortInjective(fs: seq<Field>, x: seq<Field>, y: seq<Field>)
    requires UniqueKeys(fs) && Maps(fs, x) && Maps(fs, y)
    ensures Sort(x, Before) == Sort(y, Before) <==> x == y
  {
    KeyOrders();
    MapsUnique(fs, x);
    MapsUnique(fs, y);
    SortCanonical(x, y, Before);
    if SameFields(x, y) {
      forall i | 0 <= i < |fs| ensures x[i] == y[i] {
        assert x[i] in y;
        var j :| 0 <= j < |y| && y[j] == x[i];
        assert i == j;
      }
    }
  }

  lemma SortObject(v: Value)
    requires WellFormed(v) && IsObject(v)
    requires forall i :: 0 <= i < |v.fields| ==> (SortValue(v.fields[i].value) == Copy(v.fields[i].value) <==> Clean(v.fields[i].value))
    ensures SortValue(v) == Copy(v) <==> Clean(v)
  {
    var x, y := SortedFields(v), CopiedFields(v);
    MapsUnique(v.fields, x);
    SortTwice(x);
    CopyObject(v);
    SortInjective(v.fields, x, y);
    assert x == y <==> forall i :: 0 <= i < |x| ==> x[i] == y[i];
    assert forall i :: 0 <= i < |x| ==> (x[i] == y[i] <==> Clean(v.fields[i].value));
    if v.Ordered? && v.fields == [] { assert Sort(y, Before) == []; }
  }

  lemma SortSlice(v: Value)
    requires WellFormed(v) && v.Slice?
    requires forall i :: 0 <= i < |v.items| ==> (SortValue(v.items[i]) == Copy(v.items[i]) <==> Clean(v.items[i]))
    ensures SortValue(v) == Copy(v) <==> Clean(v)
  {
    var x := seq(|v.items|, i requires 0 <= i < |v.items| => SortValue(v.items[i]));
    var y := seq(|v.items|, i requires 0 <= i < |v.items| => Copy(v.items[i]));
    assert SortValue(v) == Slice(x) && Copy(v) == Slice(y);
    assert x == y <==> forall i :: 0 <= i < |x| ==> x[i] == y[i];
    assert forall i :: 0 <= i < |x| ==> (x[i] == y[i] <==> Clean(v.items[i]));
  }

  /** Sorting in place gives what the sorted copy gives exactly when the tree is clean. */
  lemma {:induction false} SortExact(v: Value)
    requires WellFormed(v)
    ensures SortValue(v) == Copy(v) <==> Clean(v)
  {
    if IsObject(v) {
      forall i | 0 <= i < |v.fields| ensures SortValue(v.fields[i].value) == Copy(v.fields[i].value) <==> Clean(v.fields[i].value) {
        SortExact(v.fields[i].value);
      }
      SortObject(v);
    } else if v.Slice? {
      forall i | 0 <= i < |v.items| ensures SortValue(v.items[i]) == Copy(v.items[i]) <==> Clean(v.items[i]) { SortExact(v.items[i]); }
      SortSlice(v);
    }
  }

  // ----- SortedCopyPreservingProperties -----

  const PROPERTIES := "properties"

  /** As Copy, except that the value under the key "properties" is copied by CopyNames. */
  function CopyKeeping(v: Value): Value
    decreases v, 0
  {
    match v
    case Ordered(_, fs) =>
      Ordered(true, Sort(seq(|fs|, i requires 0 <= i < |fs| => Field(fs[i].key, CopyUnder(fs[i].key, fs[i].value))), Before))
    case Plain(fs) =>
      var copied := seq(|fs|, i requires 0 <= i < |fs| => Field(fs[i].key, CopyUnder(fs[i].key, fs[i].value)));
      Ordered(true, Sort(Sort(copied, Lex), Before))
    case NilPlain => NilOrdered
    case Slice(items) => Slice(seq(|items|, i requires 0 <= i < |items| => CopyKeeping(items[i])))
    case NilSlice => Slice([])
    case _ => v
  }

  function CopyUnder(k: string, v: Value): Value
    decreases v, 2
  {
    if k == PROPERTIES then CopyNames(v) else CopyKeeping(v)
  }

  /** An ordered map of property names keeps its order, a plain map has none to keep, and anything
      else is passed on as it is. */
  function CopyNames(v: Value): Value
    decreases v, 1
  {
    match v
    case Ordered(_, fs) => Ordered(true, seq(|fs|, i requires 0 <= i < |fs| => Field(fs[i].key, CopyKeeping(fs[i].value))))
    case Plain(_) => CopyKeeping(v)
    case NilPlain => NilOrdered
    case _ => v
  }

  /** Equal as nested maps, the order of names under "properties" included. */
  predicate SameKeeping(a: Value, b: Value)
    decreases a, 0
  {
    if IsObject(a) then
      && IsObject(b)
      && (forall i :: 0 <= i < |a.fields| ==> FindsKept(a.fields[i], b.fields))
      && (forall j :: 0 <= j < |b.fields| ==> FoundKept(a.fields, b.fields[j]))
    else if IsNilMap(a) then IsNilMap(b)
    else if a.Slice? then IsSlice(b) && |a.items| == |Items(b)| && forall i :: 0 <= i < |a.items| ==> SameKeeping(a.items[i], Items(b)[i])
    else if a.NilSlice? then IsSlice(b) && Items(b) == []
    else a == b
  }

  predicate FindsKept(f: Field, gs: seq<Field>)
    decreases f, 0
  {
    exists j :: 0 <= j < |gs| && gs[j].key == f.key && SameUnder(f.key, f.value, gs[j].value)
  }

  predicate FoundKept(fs: seq<Field>, g: Field)
    decreases fs, 0
  {
    exists i :: 0 <= i < |fs| && fs[i].key == g.key && SameUnder(g.key, fs[i].value, g.value)
  }

  predicate SameUnder(k: string, a: Value, b: Value)
    decreases a, 2
  {
    if k == PROPERTIES then SameNames(a, b) else SameKeeping(a, b)
  }

  predicate SameNames(a: Value, b: Value)
    decreases a, 1
  {
    if a.Ordered? then
      && b.Ordered? && |a.fields| == |b.fields|
      && forall i :: 0 <= i < |a.fields| ==> a.fields[i].key == b.fields[i].key && SameKeeping(a.fields[i].value, b.fields[i].value)
    else if a.Plain? then b.Plain? && SameKeeping(a, b)
    else if IsNilMap(a) then IsNilMap(b)
    else a == b
  }

  /** Wherever the key "properties" belongs to a schema, its value is not a plain map. */
  predicate NamesOrdered(v: Value)
    decreases v, 0
  {
    match v
    case Ordered(_, fs) => forall i :: 0 <= i < |fs| ==> NamesOrderedUnder(fs[i].key, fs[i].value)
    case Plain(fs) => forall i :: 0 <= i < |fs| ==> NamesOrderedUnder(fs[i].key, fs[i].value)
    case Slice(items) => forall i :: 0 <= i < |items| ==> NamesOrdered(items[i])
    case _ => true
  }

  predicate NamesOrderedUnder(k: string, v: Value)
    decreases v, 1
  {
    if k != PROPERTIES then NamesOrdered(v)
    else !v.Plain? && (v.Ordered? ==> forall i :: 0 <= i < |v.fields| ==> NamesOrdered(v.fields[i].value))
  }

  function KeptFields(v: Value): (gs: seq<Field>)
    requires IsObject(v)
    ensures Maps(v.fields, gs)
  {
    seq(|v.fields|, i requires 0 <= i < |v.fields| => Field(v.fields[i].key, CopyUnder(v.fields[i].key, v.fields[i].value)))
  }

  lemma KeepObject(v: Value)
    requires WellFormed(v) && IsObject(v)
    ensures CopyKeeping(v) == Ordered(true, Sort(KeptFields(v), Before)) && UniqueKeys(KeptFields(v))
  {
    MapsUnique(v.fields, KeptFields(v));
    SortTwice(KeptFields(v));
  }

  lemma KeepKind(v: Value)
    ensures IsObject(v) <==> CopyKeeping(v).Ordered?
    ensures IsNilMap(v) <==> CopyKeeping(v).NilOrdered?
    ensures IsSlice(v) <==> CopyKeeping(v).Slice?
    ensures IsSlice(v) ==> CopyKeeping(v) == Slice(seq(|Items(v)|, i requires 0 <= i < |Items(v)| => CopyKeeping(Items(v)[i])))
    ensures v.Leaf? ==> CopyKeeping(v) == v
  {
  }

  /** Two values have the same property-preserving copy exactly when they are equal as nested maps
      and agree on the order of the names held by each ordered map under "properties". */
  lemma {:induction false} KeepExact(a: Value, b: Value)
    requires WellFormed(a) && WellFormed(b) && NamesOrdered(a) && NamesOrdered(b)
    ensures CopyKeeping(a) == CopyKeeping(b) <==> SameKeeping(a, b)
    decreases a, 0
  {
    KeepKind(a);
    KeepKind(b);
    if IsObject(a) && IsObject(b) {
      forall i, j | 0 <= i < |a.fields| && 0 <= j < |b.fields| && a.fields[i].key == b.fields[j].key
        ensures CopyUnder(a.fields[i].key, a.fields[i].value) == CopyUnder(b.fields[j].key, b.fields[j].value)
                <==> SameUnder(a.fields[i].key, a.fields[i].value, b.fields[j].value)
      {
        UnderExact(a.fields[i].key, a.fields[i].value, b.fields[j].value);
      }
      KeepObject(a);
      KeepObject(b);
      KeyOrders();
      SortCanonical(KeptFields(a), KeptFields(b), Before);
      SameKept(a, b);
    } else if IsSlice(a) && IsSlice(b) {
      var xs, ys := Items(a), Items(b);
      forall i | 0 <= i < |xs| && i < |ys| ensures CopyKeeping(xs[i]) == CopyKeeping(ys[i]) <==> SameKeeping(xs[i], ys[i]) {
        KeepExact(xs[i], ys[i]);
      }
      SameKeptSlices(a, b);
    }
  }

  lemma {:induction false} UnderExact(k: string, a: Value, b: Value)
    requires WellFormed(a) && WellFormed(b) && NamesOrderedUnder(k, a) && NamesOrderedUnder(k, b)
    ensures CopyUnder(k, a) == CopyUnder(k, b) <==> SameUnder(k, a, b)
    decreases a, 1
  {
    if k != PROPERTIES {
      KeepExact(a, b);
    } else if a.Ordered? && b.Ordered? {
      var x := seq(|a.fields|, i requires 0 <= i < |a.fields| => Field(a.fields[i].key, CopyKeeping(a.fields[i].value)));
      var y := seq(|b.fields|, i requires 0 <= i < |b.fields| => Field(b.fields[i].key, CopyKeeping(b.fields[i].value)));
      assert CopyNames(a) == Ordered(true, x) && CopyNames(b) == Ordered(true, y);
      forall i | 0 <= i < |x| && i < |y|
        ensures x[i] == y[i] <==> a.fields[i].key == b.fields[i].key && SameKeeping(a.fields[i].value, b.fields[i].value)
      {
        KeepExact(a.fields[i].value, b.fields[i].value);
      }
      if x == y {
        forall i | 0 <= i < |x| ensures a.fields[i].key == b.fields[i].key && SameKeeping(a.fields[i].value, b.fields[i].value) {
          assert x[i] == y[i];
        }
      }
    }
  }

  lemma SameKept(a: Value, b: Value)
    requires IsObject(a) && IsObject(b)
    requires forall i, j :: 0 <= i < |a.fields| && 0 <= j < |b.fields| && a.fields[i].key == b.fields[j].key ==>
                              (CopyUnder(a.fields[i].key, a.fields[i].value) == CopyUnder(b.fields[j].key, b.fields[j].value)
                               <==> SameUnder(a.fields[i].key, a.fields[i].value, b.fields[j].value))
    ensures SameFields(KeptFields(a), KeptFields(b)) <==> SameKeeping(a, b)
  {
    if SameFields(KeptFields(a), KeptFields(b)) { SameKeptTo(a, b); }
    if SameKeeping(a, b) { SameKeptFrom(a, b); }
  }

  lemma SameKeptTo(a: Value, b: Value)
    requires IsObject(a) && IsObject(b) && SameFields(KeptFields(a), KeptFields(b))
    requires forall i, j :: 0 <= i < |a.fields| && 0 <= j < |b.fields| && a.fields[i].key == b.fields[j].key ==>
                              (CopyUnder(a.fields[i].key, a.fields[i].value) == CopyUnder(b.fields[j].key, b.fields[j].value)
                               <==> SameUnder(a.fields[i].key, a.fields[i].value, b.fields[j].value))
    ensures SameKeeping(a, b)
  {
    var x, y := KeptFields(a), KeptFields(b);
    forall i | 0 <= i < |a.fields| ensures FindsKept(a.fields[i], b.fields) {
      assert x[i] in y;
      var j :| 0 <= j < |y| && y[j] == x[i];
      assert b.fields[j].key == a.fields[i].key;
    }
    forall j | 0 <= j < |b.fields| ensures FoundKept(a.fields, b.fields[j]) {
      assert y[j] in x;
      var i :| 0 <= i < |x| && x[i] == y[j];
      assert a.fields[i].key == b.fields[j].key;
    }
  }

  lemma SameKeptThere(a: Value, b: Value, i: nat)
    requires IsObject(a) && IsObject(b) && i < |a.fields| && FindsKept(a.fields[i], b.fields)
    requires forall i, j :: 0 <= i < |a.fields| && 0 <= j < |b.fields| && a.fields[i].key == b.fields[j].key ==>
                              (SameUnder(a.fields[i].key, a.fields[i].value, b.fields[j].value)
                               ==> CopyUnder(a.fields[i].key, a.fields[i].value) == CopyUnder(b.fields[j].key, b.fields[j].value))
    ensures KeptFields(a)[i] in KeptFields(b)
  {
    var j :| 0 <= j < |b.fields| && b.fields[j].key == a.fields[i].key && SameUnder(a.fields[i].key, a.fields[i].value, b.fields[j].value);
    assert KeptFields(b)[j] == KeptFields(a)[i];
  }

  lemma SameKeptBack(a: Value, b: Value, j: nat)
    requires IsObject(a) && IsObject(b) && j < |b.fields| && FoundKept(a.fields, b.fields[j])
    requires forall i, j :: 0 <= i < |a.fields| && 0 <= j < |b.fields| && a.fields[i].key == b.fields[j].key ==>
                              (SameUnder(a.fields[i].key, a.fields[i].value, b.fields[j].value)
                               ==> CopyUnder(a.fields[i].key, a.fields[i].value) == CopyUnder(b.fields[j].key, b.fields[j].value))
    ensures KeptFields(b)[j] in KeptFields(a)
  {
    var i :| 0 <= i < |a.fields| && a.fields[i].key == b.fields[j].key && SameUnder(b.fields[j].key, a.fields[i].value, b.fields[j].value);
    assert KeptFields(a)[i] == KeptFields(b)[j];
  }

  lemma SameKeptFrom(a: Value, b: Value)
    requires IsObject(a) && IsObject(b) && SameKeeping(a, b)
    requires forall i, j :: 0 <= i < |a.fields| && 0 <= j < |b.fields| && a.fields[i].key == b.fields[j].key ==>
                              (SameUnder(a.fields[i].key, a.fields[i].value, b.fields[j].value)
                               ==> CopyUnder(a.fields[i].key, a.fields[i].value) == CopyUnder(b.fields[j].key, b.fields[j].value))
    ensures SameFields(KeptFields(a), KeptFields(b))
  {
    var x, y := KeptFields(a), KeptFields(b);
    forall i | 0 <= i < |x| ensures x[i] in y { SameKeptThere(a, b, i); }
    forall j | 0 <= j < |y| ensures y[j] in x { SameKeptBack(a, b, j); }
  }

  lemma SameKeptSlices(a: Value, b: Value)
    requires IsSlice(a) && IsSlice(b)
    requires forall i :: 0 <= i < |Items(a)| && i < |Items(b)| ==>
                           (CopyKeeping(Items(a)[i]) == CopyKeeping(Items(b)[i]) <==> SameKeeping(Items(a)[i], Items(b)[i]))
    ensures CopyKeeping(a) == CopyKeeping(b) <==> SameKeeping(a, b)
  {
    KeepKind(a);
    KeepKind(b);
    var x := seq(|Items(a)|, i requires 0 <= i < |Items(a)| => CopyKeeping(Items(a)[i]));
    var y := seq(|Items(b)|, i requires 0 <= i < |Items(b)| => CopyKeeping(Items(b)[i]));
    assert CopyKeeping(a) == Slice(x) && CopyKeeping(b) == Slice(y);
    if x == y {
      forall i | 0 <= i < |Items(a)| ensures SameKeeping(Items(a)[i], Items(b)[i]) { assert x[i] == y[i]; }
    }
    if SameKeeping(a, b) {
      assert |x| == |y|;
      forall i | 0 <= i < |x| ensures x[i] == y[i] { assert SameKeeping(Items(a)[i], Items(b)[i]); }
    }
  }

  /** The copy forgets every order but that of the names held by an ordered map under "properties":
      values equal up to the rest have the same copy, plain maps under "properties" included. */
  lemma {:induction false} KeepErases(a: Value, b: Value)
    requires WellFormed(a) && WellFormed(b) && SameKeeping(a, b)
    ensures CopyKeeping(a) == CopyKeeping(b)
    decreases a, 0
  {
    KeepKind(a);
    KeepKind(b);
    if IsObject(a) {
      forall i, j | 0 <= i < |a.fields| && 0 <= j < |b.fields| && a.fields[i].key == b.fields[j].key
                    && SameUnder(a.fields[i].key, a.fields[i].value, b.fields[j].value)
        ensures CopyUnder(a.fields[i].key, a.fields[i].value) == CopyUnder(b.fields[j].key, b.fields[j].value)
      {
        ErasesUnder(a.fields[i].key, a.fields[i].value, b.fields[j].value);
      }
      KeepObject(a);
      KeepObject(b);
      KeyOrders();
      SortCanonical(KeptFields(a), KeptFields(b), Before);
      SameKeptFrom(a, b);
    } else if IsSlice(a) {
      var xs, ys := Items(a), Items(b);
      assert |xs| == |ys|;
      forall i | 0 <= i < |xs| ensures CopyKeeping(xs[i]) == CopyKeeping(ys[i]) { KeepErases(xs[i], ys[i]); }
      assert CopyKeeping(a).items == CopyKeeping(b).items;
    }
  }

  lemma {:induction false} ErasesUnder(k: string, a: Value, b: Value)
    requires WellFormed(a) && WellFormed(b) && SameUnder(k, a, b)
    ensures CopyUnder(k, a) == CopyUnder(k, b)
    decreases a, 1
  {
    if k != PROPERTIES || a.Plain? {
      KeepErases(a, b);
    } else if a.Ordered? {
      forall i | 0 <= i < |a.fields| ensures CopyKeeping(a.fields[i].value) == CopyKeeping(b.fields[i].value) {
        KeepErases(a.fields[i].value, b.fields[i].value);
      }
      assert CopyNames(a).fields == CopyNames(b).fields;
    }
  }
}
