/**
 The mutable ordered map of core/schemas/orderedmap.go and the token readers over a decoder whose
 position moves, each proved against the functions on values.

 Nested values are held as values, so two maps never share a part: the in-place methods are those
 of an unshared tree.
 */
module OrderedMaps {
  import opened Wrappers
  import opened OrderedValues
  import opened OrderedCopies
  import opened OrderedCodec

  /** encoding/json.Decoder as far as it is used: a position in the token text. */
  class Decoder {
    const tokens: seq<Token>
    var pos: nat

    constructor (tokens: seq<Token>)
      ensures Valid() && this.tokens == tokens && pos == 0
    {
      this.tokens := tokens;
      pos := 0;
    }

    predicate Valid()
      reads this
    {
      pos <= |tokens|
    }

    function Left(): seq<Token>
      requires Valid()
      reads this
    {
      tokens[pos..]
    }

    /** More tokens before the end of the container or the text. */
    method More() returns (more: bool)
      requires Valid()
      ensures more == (Left() != [] && Left()[0] != ObjectClose && Left()[0] != ArrayClose)
    {
      more := pos < |tokens| && tokens[pos] != ObjectClose && tokens[pos] != ArrayClose;
    }

    method NextToken() returns (t: Option<Token>)
      requires Valid()
      modifies this`pos
      ensures Valid()
      ensures if old(Left()) == [] then t == None && pos == old(pos)
              else t == Some(old(Left())[0]) && Left() == old(Left())[1..] && pos == old(pos) + 1
    {
      if pos == |tokens| {
        return None;
      }
      t := Some(tokens[pos]);
      pos := pos + 1;
    }

    method DecodeOrderedValue() returns (value: Option<Value>)
      requires Valid()
      modifies this`pos
      ensures Valid() && pos >= old(pos) && (value.Some? ==> pos > old(pos))
      ensures match DecodeValue(old(Left()))
              case Ok(v, rest) => value == Some(v) && Left() == rest
              case Err => value == None
      decreases |tokens| - pos, 1
    {
      var t := NextToken();
      if t.None? {
        return None;
      }
      match t.value {
        case ObjectOpen =>
          var nested := [];
          var ok;
          nested, ok := DecodeFieldsInto(nested);
          value := if ok then Some(Ordered(true, nested)) else None;
        case ArrayOpen => value := DecodeElements();
        case Prim(s) => value := Some(Leaf(s));
        case _ => value := None;
      }
    }

    /** The loop over the fields of an object and its closing brace; on failure the fields read so
        far are returned. */
    method DecodeFieldsInto(before: seq<Field>) returns (fields: seq<Field>, ok: bool)
      requires Valid()
      modifies this`pos
      ensures Valid() && pos >= old(pos)
      ensures match DecodeFields(old(Left()), before)
              case Ok(v, rest) => ok && fields == v.fields && Left() == rest
              case Err => !ok
      decreases |tokens| - pos, 0
    {
      fields, ok := before, false;
      var more := More();
      while more
        invariant Valid() && pos >= old(pos)
        invariant DecodeFields(Left(), fields) == DecodeFields(old(Left()), before)
        invariant more == (Left() != [] && Left()[0] != ObjectClose && Left()[0] != ArrayClose)
        decreases |tokens| - pos
      {
        var key := NextToken();
        if !key.value.Prim? || !key.value.scalar.Text? {
          return;
        }
        var value := DecodeOrderedValue();
        if value.None? {
          return;
        }
        fields := SetField(fields, key.value.scalar.s, value.value);
        more := More();
      }
      var close := NextToken();
      ok := close == Some(ObjectClose);
    }

    method DecodeElements() returns (value: Option<Value>)
      requires Valid()
      modifies this`pos
      ensures Valid() && pos >= old(pos)
      ensures match DecodeItems(old(Left()), [])
              case Ok(v, rest) => value == Some(v) && Left() == rest
              case Err => value == None
      decreases |tokens| - pos, 2
    {
      var items: seq<Value> := [];
      var more := More();
      while more
        invariant Valid() && pos >= old(pos)
        invariant DecodeItems(Left(), items) == DecodeItems(old(Left()), [])
        invariant more == (Left() != [] && Left()[0] != ObjectClose && Left()[0] != ArrayClose)
        decreases |tokens| - pos
      {
        var v := DecodeOrderedValue();
        if v.None? {
          return None;
        }
        items := items + [v.value];
        more := More();
      }
      var close := NextToken();
      value := if close == Some(ArrayClose) then Some(Slice(items)) else None;
    }

    method SkipJSONValue() returns (ok: bool)
      requires Valid()
      modifies this`pos
      ensures Valid() && pos >= old(pos) && (ok ==> pos > old(pos))
      ensures match SkipValue(old(Left()))
              case Some(rest) => ok && Left() == rest
              case None => !ok
      decreases |tokens| - pos
    {
      var t := NextToken();
      if t.None? {
        return false;
      }
      ghost var after := Left();
      match t.value {
        case Prim(_) => ok := true;
        case ObjectOpen =>
          var more := More();
          while more
            invariant Valid() && pos > old(pos)
            invariant SkipFields(Left()) == SkipFields(after)
            invariant more == (Left() != [] && Left()[0] != ObjectClose && Left()[0] != ArrayClose)
            decreases |tokens| - pos
          {
            var key := NextToken();
            if !key.value.Prim? || !key.value.scalar.Text? {
              return false;
            }
            var skipped := SkipJSONValue();
            if !skipped {
              return false;
            }
            more := More();
          }
          var close := NextToken();
          ok := close == Some(ObjectClose);
        case ArrayOpen =>
          var more := More();
          while more
            invariant Valid() && pos > old(pos)
            invariant SkipItems(Left()) == SkipItems(after)
            invariant more == (Left() != [] && Left()[0] != ObjectClose && Left()[0] != ArrayClose)
            decreases |tokens| - pos
          {
            var skipped := SkipJSONValue();
            if !skipped {
              return false;
            }
            more := More();
          }
          var close := NextToken();
          ok := close == Some(ArrayClose);
        case _ => ok := false;
      }
    }
  }

  /** One key of an object, read and its value skipped. */
  lemma KeysStep(keys: seq<string>, ts: seq<Token>)
    requires ts != [] && ts[0].Prim? && ts[0].scalar.Text?
    ensures keys + KeysFrom(ts) ==
            match SkipValue(ts[1..])
            case Some(rest) => keys + [ts[0].scalar.s] + KeysFrom(rest)
            case None => keys + [ts[0].scalar.s]
  {
    var rest := match SkipValue(ts[1..]) case Some(r) => KeysFrom(r) case None => [];
    assert KeysFrom(ts) == [ts[0].scalar.s] + rest;
    assert keys + ([ts[0].scalar.s] + rest) == keys + [ts[0].scalar.s] + rest;
  }

  lemma NoMoreKeys(keys: seq<string>, ts: seq<Token>)
    requires ts == [] || !ts[0].Prim? || !ts[0].scalar.Text?
    ensures keys + KeysFrom(ts) == keys
  {
  }

  method ExtractTopLevelKeyOrder(tokens: seq<Token>) returns (keys: seq<string>)
    ensures keys == TopLevelKeys(tokens)
  {
    keys := [];
    if |tokens| == 0 || tokens[0] != ObjectOpen {
      return;
    }
    var dec := new Decoder(tokens);
    var brace := dec.NextToken();
    var more := dec.More();
    while more
      invariant fresh(dec) && dec.Valid() && dec.tokens == tokens
      invariant keys + KeysFrom(dec.Left()) == TopLevelKeys(tokens)
      invariant more == (dec.Left() != [] && dec.Left()[0] != ObjectClose && dec.Left()[0] != ArrayClose)
      decreases |tokens| - dec.pos
    {
      hide KeysFrom, SkipValue, TopLevelKeys;
      ghost var before := dec.Left();
      var key := dec.NextToken();
      if !key.value.Prim? || !key.value.scalar.Text? {
        NoMoreKeys(keys, before);
        return;
      }
      KeysStep(keys, before);
      keys := keys + [key.value.scalar.s];
      var ok := dec.SkipJSONValue();
      if !ok {
        return;
      }
      more := dec.More();
    }
    NoMoreKeys(keys, dec.Left());
  }

  // ----- The map itself -----

  function Without(fs: seq<Field>, k: string): seq<Field> {
    if fs == [] then [] else if fs[0].key == k then fs[1..] else [fs[0]] + Without(fs[1..], k)
  }

  /** Setting a new key and deleting it again changes nothing. */
  lemma {:induction false} DeleteUndoesSet(fs: seq<Field>, k: string, v: Value)
    requires k !in Keys(fs)
    ensures Without(SetField(fs, k, v), k) == fs
  {
    if fs != [] {
      assert Keys(fs) == [fs[0].key] + Keys(fs[1..]);
      DeleteUndoesSet(fs[1..], k, v);
      assert SetField(fs, k, v)[1..] == SetField(fs[1..], k, v);
    }
  }

  /** The fields a key list and a value map stand for. */
  function FieldsOf(keys: seq<string>, values: map<string, Value>): (fs: seq<Field>)
    requires forall k :: k in keys ==> k in values
    ensures |fs| == |keys| && forall i :: 0 <= i < |keys| ==> fs[i] == Field(keys[i], values[keys[i]])
  {
    seq(|keys|, i requires 0 <= i < |keys| => Field(keys[i], values[keys[i]]))
  }

  lemma SetFieldOf(keys: seq<string>, values: map<string, Value>, k: string, v: Value)
    requires NoRepeats(keys) && forall x :: x in keys <==> x in values
    ensures
      var keys' := if k in values then keys else keys + [k];
      && (forall x :: x in keys' <==> x in values[k := v]) && NoRepeats(keys')
      && FieldsOf(keys', values[k := v]) == SetField(FieldsOf(keys, values), k, v)
  {
    var fs := FieldsOf(keys, values);
    assert Keys(fs) == keys;
    SetFieldAt(fs, k, v);
    var keys' := if k in values then keys else keys + [k];
    assert forall x :: x in keys' <==> x in values[k := v];
  }

  lemma WithoutKey(keys: seq<string>, k: string, i: nat)
    requires NoRepeats(keys) && i < |keys| && keys[i] == k
    ensures NoRepeats(keys[..i] + keys[i + 1..])
    ensures forall x :: x in keys[..i] + keys[i + 1..] <==> x in keys && x != k
  {
    var keys' := keys[..i] + keys[i + 1..];
    forall x | x in keys && x != k ensures x in keys' {
      var j :| 0 <= j < |keys| && keys[j] == x;
      assert keys'[if j < i then j else j - 1] == x;
    }
    assert forall j :: 0 <= j < |keys'| ==> keys'[j] == keys[if j < i then j else j + 1];
  }

  lemma WithoutFieldOf(keys: seq<string>, values: map<string, Value>, k: string, i: nat)
    requires NoRepeats(keys) && (forall x :: x in keys <==> x in values) && i < |keys| && keys[i] == k
    ensures
      var keys' := keys[..i] + keys[i + 1..];
      && (forall x :: x in keys' <==> x in values - {k})
      && FieldsOf(keys', values - {k}) == Without(FieldsOf(keys, values), k)
  {
    var fs := FieldsOf(keys, values);
    WithoutAt(fs, k, i);
    WithoutKey(keys, k, i);
    hide Without, NoRepeats;
    var keys' := keys[..i] + keys[i + 1..];
    var left, right := FieldsOf(keys', values - {k}), Without(fs, k);
    forall j | 0 <= j < |left| ensures left[j] == right[j] {
      assert keys'[j] == keys[if j < i then j else j + 1];
    }
  }

  lemma AbsentKey(keys: seq<string>, values: map<string, Value>, k: string)
    requires NoRepeats(keys) && (forall x :: x in keys <==> x in values) && k !in values
    ensures Without(FieldsOf(keys, values), k) == FieldsOf(keys, values)
  {
    assert Keys(FieldsOf(keys, values)) == keys;
    WithoutAbsent(FieldsOf(keys, values), k);
  }

  /** Replace every nested map by its sorted form, in any order of iteration. */
  method SortNested(values: map<string, Value>) returns (after: map<string, Value>)
    ensures after.Keys == values.Keys && forall k :: k in values ==> after[k] == SortValue(values[k])
  {
    after := values;
    var todo := values.Keys;
    while todo != {}
      invariant todo <= values.Keys && after.Keys == values.Keys
      invariant forall k :: k in values ==> after[k] == if k in todo then values[k] else SortValue(values[k])
      decreases |todo|
    {
      var k :| k in todo;
      after := after[k := SortValue(values[k])];
      todo := todo - {k};
    }
  }

  class OrderedMap {
    var keys: seq<string>
    var values: map<string, Value>
    var made: bool

    constructor ()
      ensures Valid() && Contents() == Ordered(true, [])
    {
      keys, values, made := [], map[], true;
    }

    /** Every key is listed once; a map never made is empty. */
    ghost predicate Valid()
      reads this
    {
      && NoRepeats(keys)
      && (forall k :: k in keys <==> k in values)
      && (!made ==> keys == [])
    }

    /** The map as a value. */
    ghost function Contents(): Value
      requires Valid()
      reads this
    {
      Ordered(made, FieldsOf(keys, values))
    }

    /** A new key goes to the end, a known one keeps its place. */
    method Set(k: string, v: Value)
      requires Valid()
      modifies this
      ensures Valid() && Contents() == Ordered(true, SetField(old(Contents()).fields, k, v))
    {
      SetFieldOf(keys, values, k, v);
      made := true;
      if k !in values {
        keys := keys + [k];
      }
      values := values[k := v];
    }

    method Delete(k: string)
      requires Valid()
      modifies this
      ensures Valid() && Contents() == Ordered(old(made), Without(old(Contents()).fields, k))
    {
      if k !in values {
        AbsentKey(keys, values, k);
        return;
      }
      ghost var ks, vs := keys, values;
      values := values - {k};
      for i := 0 to |keys|
        invariant keys == ks && values == vs - {k} && made == old(made) && k !in keys[..i]
      {
        if keys[i] == k {
          WithoutKey(ks, k, i);
          WithoutFieldOf(ks, vs, k, i);
          hide NoRepeats, FieldsOf, Without;
          keys := keys[..i] + keys[i + 1..];
          return;
        }
      }
      assert false;
    }

    /** Sort the keys, and every nested map, in place. */
    method SortKeys()
      requires Valid()
      modifies this
      ensures Valid() && Contents() == SortValue(old(Contents()))
    {
      if |keys| == 0 {
        return;
      }
      ghost var ks, vs := keys, values;
      KeysSorted(ks, vs);
      keys := Keys(Sort(FieldsOf(keys, values), Before));
      values := SortNested(values);
      SortedContents(ks, vs, values);
    }

    /** Read an object into the map, replacing what it held. */
    method UnmarshalJSON(dec: Decoder) returns (ok: bool)
      requires Valid() && dec.Valid()
      modifies this, dec
      ensures Valid() && dec.Valid()
      ensures old(dec.Left()) == [Prim(Null)] ==> ok && Contents() == Ordered(false, [])
      ensures old(dec.Left()) != [Prim(Null)] ==>
                (ok <==> old(dec.Left()) != [] && old(dec.Left())[0] == ObjectOpen && DecodeValue(old(dec.Left())).Ok?)
      ensures old(dec.Left()) != [Prim(Null)] && ok ==> Ok(Contents(), dec.Left()) == DecodeValue(old(dec.Left()))
    {
      ghost var text := dec.Left();
      if dec.pos + 1 == |dec.tokens| && dec.tokens[dec.pos] == Prim(Null) {
        keys, values, made := [], map[], false;
        return true;
      }
      var t := dec.NextToken();
      if t != Some(ObjectOpen) {
        return false;
      }
      keys, values, made := [], map[], true;
      assert Contents() == Ordered(true, []);
      var more := dec.More();
      while more
        invariant Valid() && made && dec.Valid()
        invariant text != [] && text[0] == ObjectOpen && DecodeFields(dec.Left(), Contents().fields) == DecodeFields(text[1..], [])
        invariant more == (dec.Left() != [] && dec.Left()[0] != ObjectClose && dec.Left()[0] != ArrayClose)
        decreases |dec.tokens| - dec.pos
      {
        var key := dec.NextToken();
        if !key.value.Prim? || !key.value.scalar.Text? {
          return false;
        }
        var value := dec.DecodeOrderedValue();
        if value.None? {
          return false;
        }
        Set(key.value.scalar.s, value.value);
        more := dec.More();
      }
      var close := dec.NextToken();
      ok := close == Some(ObjectClose);
    }
  }

  lemma KeysSorted(keys: seq<string>, values: map<string, Value>)
    requires NoRepeats(keys) && forall k :: k in keys <==> k in values
    ensures
      var sorted := Keys(Sort(FieldsOf(keys, values), Before));
      NoRepeats(sorted) && forall k :: k in sorted <==> k in values
  {
    var fs := FieldsOf(keys, values);
    var sorted := Sort(fs, Before);
    KeyOrders();
    SortSorted(fs, Before);
    SortedUnique(sorted, Before);
    forall k ensures k in Keys(sorted) <==> k in values {
      if k in Keys(sorted) {
        var i :| 0 <= i < |sorted| && sorted[i].key == k;
        SortElements(fs, Before, sorted[i]);
      }
      if k in values {
        var i :| 0 <= i < |keys| && keys[i] == k;
        SortElements(fs, Before, fs[i]);
        var j :| 0 <= j < |sorted| && sorted[j] == fs[i];
        assert Keys(sorted)[j] == k;
      }
    }
  }

  /** Sorting the keys and replacing the values, in either order, gives the same. */
  lemma {:induction false} SortMaps(fs: seq<Field>, gs: seq<Field>, f: Field -> Field)
    requires |gs| == |fs| && (forall i :: 0 <= i < |fs| ==> gs[i] == f(fs[i])) && forall x {:trigger f(x)} :: f(x).key == x.key
    ensures |Sort(gs, Before)| == |Sort(fs, Before)|
    ensures forall i :: 0 <= i < |fs| ==> Sort(gs, Before)[i] == f(Sort(fs, Before)[i])
  {
    if fs != [] {
      SortMaps(fs[1..], gs[1..], f);
      InsertMaps(fs[0], Sort(fs[1..], Before), Sort(gs[1..], Before), f);
    }
  }

  lemma {:induction false} InsertMaps(x: Field, fs: seq<Field>, gs: seq<Field>, f: Field -> Field)
    requires |gs| == |fs| && (forall i :: 0 <= i < |fs| ==> gs[i] == f(fs[i])) && forall y {:trigger f(y)} :: f(y).key == y.key
    ensures forall i :: 0 <= i < |fs| + 1 ==> Insert(f(x), gs, Before)[i] == f(Insert(x, fs, Before)[i])
  {
    if fs != [] && !Before(x.key, fs[0].key) { InsertMaps(x, fs[1..], gs[1..], f); }
  }

  lemma SortedContents(keys: seq<string>, values: map<string, Value>, after: map<string, Value>)
    requires keys != [] && NoRepeats(keys) && (forall k :: k in keys <==> k in values)
    requires after.Keys == values.Keys && forall k :: k in values ==> after[k] == SortValue(values[k])
    ensures
      var sorted := Keys(Sort(FieldsOf(keys, values), Before));
      && (forall k :: k in sorted ==> k in after)
      && Ordered(true, FieldsOf(sorted, after)) == SortValue(Ordered(true, FieldsOf(keys, values)))
  {
    var fs := FieldsOf(keys, values);
    var f := (x: Field) => Field(x.key, SortValue(x.value));
    var gs := seq(|fs|, i requires 0 <= i < |fs| => Field(fs[i].key, SortValue(fs[i].value)));
    KeysSorted(keys, values);
    SortMaps(fs, gs, f);
    var sorted := Sort(fs, Before);
    forall i | 0 <= i < |sorted| ensures FieldsOf(Keys(sorted), after)[i] == Sort(gs, Before)[i] {
      SortElements(fs, Before, sorted[i]);
      var j :| 0 <= j < |fs| && fs[j] == sorted[i];
    }
    assert FieldsOf(Keys(sorted), after) == Sort(gs, Before);
  }

  lemma {:induction false} SetFieldAt(fs: seq<Field>, k: string, v: Value)
    requires UniqueKeys(fs)
    ensures |SetField(fs, k, v)| == |fs| + if k in Keys(fs) then 0 else 1
    ensures forall i :: 0 <= i < |fs| ==> SetField(fs, k, v)[i] == if fs[i].key == k then Field(k, v) else fs[i]
    ensures k !in Keys(fs) ==> SetField(fs, k, v)[|fs|] == Field(k, v)
  {
    if fs != [] {
      assert Keys(fs) == [fs[0].key] + Keys(fs[1..]);
      SetFieldAt(fs[1..], k, v);
    }
  }

  lemma {:induction false} WithoutAbsent(fs: seq<Field>, k: string)
    requires k !in Keys(fs)
    ensures Without(fs, k) == fs
  {
    if fs != [] {
      assert Keys(fs) == [fs[0].key] + Keys(fs[1..]);
      WithoutAbsent(fs[1..], k);
    }
  }

  lemma {:induction false} WithoutAt(fs: seq<Field>, k: string, i: nat)
    requires i < |fs| && fs[i].key == k && forall j :: 0 <= j < i ==> fs[j].key != k
    ensures |Without(fs, k)| == |fs| - 1
    ensures forall j :: 0 <= j < |fs| - 1 ==> Without(fs, k)[j] == fs[if j < i then j else j + 1]
  {
    if i > 0 { WithoutAt(fs[1..], k, i - 1); }
  }
}
