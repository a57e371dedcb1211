/**
 Ordered maps as JSON, at the level of tokens (sections 4 and 5 of RFC 8259): the printer, the
 order-preserving decoder of core/schemas/orderedmap.go, and the skipping reader of
 core/schemas/jsonkeyorder.go.

 Tokens come without commas and colons.  The tokenizer refuses a closing delimiter where a value is
 due, anything but a string or the closing brace where a key is due, and a delimiter that closes
 the wrong container; the functions here fail in those places.
 */
module OrderedCodec {
  import opened Wrappers
  import opened OrderedValues

  datatype Token = ObjectOpen | ObjectClose | ArrayOpen | ArrayClose | Prim(scalar: Scalar)

  datatype Result<T> = Ok(value: T, rest: seq<Token>) | Err

  // ----- Decoding -----

  function Keys(fs: seq<Field>): (ks: seq<string>)
    ensures |ks| == |fs|
  {
    seq(|fs|, i requires 0 <= i < |fs| => fs[i].key)
  }

  /** OrderedMap.Set: a known key keeps its place. */
  function SetField(fs: seq<Field>, k: string, v: Value): seq<Field> {
    if fs == [] then [Field(k, v)]
    else if fs[0].key == k then [Field(k, v)] + fs[1..]
    else [fs[0]] + SetField(fs[1..], k, v)
  }

  /** decodeOrderedValue */
  function DecodeValue(ts: seq<Token>): (r: Result<Value>)
    ensures r.Ok? ==> |r.rest| < |ts|
    decreases |ts|, 1
  {
    if ts == [] then Err
    else
      match ts[0]
      case ObjectOpen => DecodeFields(ts[1..], [])
      case ArrayOpen => DecodeItems(ts[1..], [])
      case Prim(s) => Ok(Leaf(s), ts[1..])
      case _ => Err
  }

  function DecodeFields(ts: seq<Token>, before: seq<Field>): (r: Result<Value>)
    ensures r.Ok? ==> |r.rest| < |ts| && r.value.Ordered? && r.value.made
    decreases |ts|, 0
  {
    if ts == [] then Err
    else if ts[0] == ObjectClose then Ok(Ordered(true, before), ts[1..])
    else if !ts[0].Prim? || !ts[0].scalar.Text? then Err
    else
      match DecodeValue(ts[1..])
      case Ok(v, rest) => DecodeFields(rest, SetField(before, ts[0].scalar.s, v))
      case Err => Err
  }

  function DecodeItems(ts: seq<Token>, before: seq<Value>): (r: Result<Value>)
    ensures r.Ok? ==> |r.rest| < |ts|
    decreases |ts|, 2
  {
    if ts == [] then Err
    else if ts[0] == ArrayClose then Ok(Slice(before), ts[1..])
    else
      match DecodeValue(ts)
      case Ok(v, rest) => DecodeItems(rest, before + [v])
      case Err => Err
  }

  // ----- Printing -----

  /** What a value is in JSON: nil and unmade containers are null, plain maps have sorted keys. */
  function Canon(v: Value): Value {
    match v
    case Ordered(made, fs) =>
      if made then Ordered(true, seq(|fs|, i requires 0 <= i < |fs| => Field(fs[i].key, Canon(fs[i].value)))) else Leaf(Null)
    case Plain(fs) => Ordered(true, Sort(seq(|fs|, i requires 0 <= i < |fs| => Field(fs[i].key, Canon(fs[i].value))), Lex))
    case Slice(items) => Slice(seq(|items|, i requires 0 <= i < |items| => Canon(items[i])))
    case Leaf(_) => v
    case _ => Leaf(Null)
  }

  /** Only scalars, made ordered maps without repeated keys, and slices. */
  predicate Canonical(v: Value) {
    match v
    case Leaf(_) => true
    case Ordered(made, fs) => made && UniqueKeys(fs) && forall i :: 0 <= i < |fs| ==> Canonical(fs[i].value)
    case Slice(items) => forall i :: 0 <= i < |items| ==> Canonical(items[i])
    case _ => false
  }

  function PrintValue(v: Value): seq<Token>
    requires Canonical(v)
    decreases v
  {
    match v
    case Leaf(s) => [Prim(s)]
    case Ordered(_, fs) => [ObjectOpen] + PrintFields(fs) + [ObjectClose]
    case Slice(items) => [ArrayOpen] + PrintItems(items) + [ArrayClose]
  }

  function PrintFields(fs: seq<Field>): seq<Token>
    requires forall i :: 0 <= i < |fs| ==> Canonical(fs[i].value)
    decreases fs
  {
    if fs == [] then [] else [Prim(Text(fs[0].key))] + PrintValue(fs[0].value) + PrintFields(fs[1..])
  }

  function PrintItems(items: seq<Value>): seq<Token>
    requires forall i :: 0 <= i < |items| ==> Canonical(items[i])
    decreases items
  {
    if items == [] then [] else PrintValue(items[0]) + PrintItems(items[1..])
  }

  // ----- Round trip -----

  lemma {:induction false} SetFresh(fs: seq<Field>, k: string, v: Value)
    requires forall i :: 0 <= i < |fs| ==> fs[i].key != k
    ensures SetField(fs, k, v) == fs + [Field(k, v)]
  {
    if fs != [] {
      SetFresh(fs[1..], k, v);
      assert fs == [fs[0]] + fs[1..];
    }
  }

  /** Decoding undoes printing and leaves what follows. */
  lemma {:induction false} DecodePrint(v: Value, rest: seq<Token>)
    requires Canonical(v)
    ensures DecodeValue(PrintValue(v) + rest) == Ok(v, rest)
    decreases v
  {
    var ts := PrintValue(v) + rest;
    match v {
      case Leaf(s) => assert ts[1..] == rest;
      case Ordered(_, fs) =>
        assert ts[1..] == PrintFields(fs) + ([ObjectClose] + rest);
        DecodePrintFields(fs, [], rest);
        assert [] + fs == fs;
      case Slice(items) =>
        assert ts[1..] == PrintItems(items) + ([ArrayClose] + rest);
        DecodePrintItems(items, [], rest);
        assert [] + items == items;
    }
  }

  lemma {:induction false} DecodePrintFields(fs: seq<Field>, before: seq<Field>, rest: seq<Token>)
    requires forall i :: 0 <= i < |fs| ==> Canonical(fs[i].value)
    requires UniqueKeys(before + fs)
    ensures DecodeFields(PrintFields(fs) + ([ObjectClose] + rest), before) == Ok(Ordered(true, before + fs), rest)
    decreases fs
  {
    var ts := PrintFields(fs) + ([ObjectClose] + rest);
    if fs == [] {
      assert ts == [ObjectClose] + rest;
      assert before + fs == before;
    } else {
      var after := PrintFields(fs[1..]) + ([ObjectClose] + rest);
      assert ts == [Prim(Text(fs[0].key))] + (PrintValue(fs[0].value) + after);
      assert ts[1..] == PrintValue(fs[0].value) + after;
      DecodePrint(fs[0].value, after);
      forall i | 0 <= i < |before| ensures before[i].key != fs[0].key { assert (before + fs)[i] == before[i] && (before + fs)[|before|] == fs[0]; }
      SetFresh(before, fs[0].key, fs[0].value);
      assert before + [fs[0]] + fs[1..] == before + fs;
      DecodePrintFields(fs[1..], before + [fs[0]], rest);
    }
  }

  lemma {:induction false} PrintStarts(v: Value)
    requires Canonical(v)
    ensures PrintValue(v) != [] && PrintValue(v)[0] != ArrayClose && PrintValue(v)[0] != ObjectClose
  {
  }

  lemma {:induction false} DecodePrintItems(items: seq<Value>, before: seq<Value>, rest: seq<Token>)
    requires forall i :: 0 <= i < |items| ==> Canonical(items[i])
    ensures DecodeItems(PrintItems(items) + ([ArrayClose] + rest), before) == Ok(Slice(before + items), rest)
    decreases items
  {
    var ts := PrintItems(items) + ([ArrayClose] + rest);
    if items == [] {
      assert ts == [ArrayClose] + rest;
      assert before + items == before;
    } else {
      var after := PrintItems(items[1..]) + ([ArrayClose] + rest);
      assert ts == PrintValue(items[0]) + after;
      PrintStarts(items[0]);
      DecodePrint(items[0], after);
      assert before + [items[0]] + items[1..] == before + items;
      DecodePrintItems(items[1..], before + [items[0]], rest);
    }
  }

  lemma {:induction false} CanonIsCanonical(v: Value)
    requires WellFormed(v)
    ensures Canonical(Canon(v))
    ensures Canon(v) == v <==> Canonical(v)
  {
    match v {
      case Ordered(made, fs) =>
        forall i | 0 <= i < |fs| ensures Canonical(Canon(fs[i].value)) && (Canon(fs[i].value) == fs[i].value <==> Canonical(fs[i].value)) {
          CanonIsCanonical(fs[i].value);
        }
        var x := seq(|fs|, i requires 0 <= i < |fs| => Field(fs[i].key, Canon(fs[i].value)));
        assert x == fs <==> forall i :: 0 <= i < |fs| ==> x[i] == fs[i];
        assert forall i :: 0 <= i < |fs| ==> (x[i] == fs[i] <==> Canonical(fs[i].value));
      case Plain(fs) =>
        var x := seq(|fs|, i requires 0 <= i < |fs| => Field(fs[i].key, Canon(fs[i].value)));
        forall i | 0 <= i < |fs| ensures Canonical(x[i].value) { CanonIsCanonical(fs[i].value); }
        CanonSorted(x);
      case Slice(items) =>
        forall i | 0 <= i < |items| ensures Canonical(Canon(items[i])) && (Canon(items[i]) == items[i] <==> Canonical(items[i])) {
          CanonIsCanonical(items[i]);
        }
        var x := seq(|items|, i requires 0 <= i < |items| => Canon(items[i]));
        assert x == items <==> forall i :: 0 <= i < |items| ==> x[i] == items[i];
      case _ =>
    }
  }

  lemma CanonSorted(x: seq<Field>)
    requires UniqueKeys(x) && forall i :: 0 <= i < |x| ==> Canonical(x[i].value)
    ensures Canonical(Ordered(true, Sort(x, Lex)))
  {
    KeyOrders();
    SortSorted(x, Lex);
    SortedUnique(Sort(x, Lex), Lex);
    forall i | 0 <= i < |Sort(x, Lex)| ensures Canonical(Sort(x, Lex)[i].value) {
      SortElements(x, Lex, Sort(x, Lex)[i]);
    }
  }

  /** Printing a value and decoding it gives its canonical form; it gives the value itself exactly
      when the value has no nil or unmade container and no plain map. */
  lemma RoundTrip(v: Value)
    requires WellFormed(v)
    ensures Canonical(Canon(v)) && DecodeValue(PrintValue(Canon(v))) == Ok(Canon(v), [])
    ensures DecodeValue(PrintValue(Canon(v))) == Ok(v, []) <==> Canonical(v)
  {
    CanonIsCanonical(v);
    DecodePrint(Canon(v), []);
    assert PrintValue(Canon(v)) + [] == PrintValue(Canon(v));
  }

  // ----- Skipping -----

  /** skipJSONValue: what is left after one value. */
  function SkipValue(ts: seq<Token>): (r: Option<seq<Token>>)
    ensures r.Some? ==> |r.value| < |ts|
    decreases |ts|, 1
  {
    if ts == [] then None
    else
      match ts[0]
      case ObjectOpen => SkipFields(ts[1..])
      case ArrayOpen => SkipItems(ts[1..])
      case Prim(_) => Some(ts[1..])
      case _ => None
  }

  function SkipFields(ts: seq<Token>): (r: Option<seq<Token>>)
    ensures r.Some? ==> |r.value| < |ts|
    decreases |ts|, 0
  {
    if ts == [] then None
    else if ts[0] == ObjectClose then Some(ts[1..])
    else if !ts[0].Prim? || !ts[0].scalar.Text? then None
    else
      match SkipValue(ts[1..])
      case Some(rest) => SkipFields(rest)
      case None => None
  }

  function SkipItems(ts: seq<Token>): (r: Option<seq<Token>>)
    ensures r.Some? ==> |r.value| < |ts|
    decreases |ts|, 2
  {
    if ts == [] then None
    else if ts[0] == ArrayClose then Some(ts[1..])
    else
      match SkipValue(ts)
      case Some(rest) => SkipItems(rest)
      case None => None
  }

  function Rest(r: Result<Value>): Option<seq<Token>> {
    match r
    case Ok(_, rest) => Some(rest)
    case Err => None
  }

  /** Skipping a value consumes exactly the tokens decoding it does, and fails exactly when it fails. */
  lemma {:induction false} SkipMatchesDecode(ts: seq<Token>)
    ensures SkipValue(ts) == Rest(DecodeValue(ts))
    decreases |ts|, 1
  {
    if ts != [] {
      match ts[0] {
        case ObjectOpen => SkipMatchesFields(ts[1..], []);
        case ArrayOpen => SkipMatchesItems(ts[1..], []);
        case _ =>
      }
    }
  }

  lemma {:induction false} SkipMatchesFields(ts: seq<Token>, before: seq<Field>)
    ensures SkipFields(ts) == Rest(DecodeFields(ts, before))
    decreases |ts|, 0
  {
    if ts != [] && ts[0].Prim? && ts[0].scalar.Text? {
      SkipMatchesDecode(ts[1..]);
      match DecodeValue(ts[1..]) {
        case Ok(v, rest) => SkipMatchesFields(rest, SetField(before, ts[0].scalar.s, v));
        case Err =>
      }
    }
  }

  lemma {:induction false} SkipMatchesItems(ts: seq<Token>, before: seq<Value>)
    ensures SkipItems(ts) == Rest(DecodeItems(ts, before))
    decreases |ts|, 2
  {
    if ts != [] && ts[0] != ArrayClose {
      SkipMatchesDecode(ts);
      match DecodeValue(ts) {
        case Ok(v, rest) => SkipMatchesItems(rest, before + [v]);
        case Err =>
      }
    }
  }

  // ----- Key order -----

  /** The keys of an object, from behind its opening brace, as far as it can be read. */
  function KeysFrom(ts: seq<Token>): seq<string>
    decreases |ts|
  {
    if ts == [] || !ts[0].Prim? || !ts[0].scalar.Text? then []
    else
      [ts[0].scalar.s] +
      match SkipValue(ts[1..])
      case Some(rest) => KeysFrom(rest)
      case None => []
  }

  /** ExtractTopLevelKeyOrder */
  function TopLevelKeys(ts: seq<Token>): seq<string> {
    if ts == [] || ts[0] != ObjectOpen then [] else KeysFrom(ts[1..])
  }

  /** The keys not yet there, each at its first occurrence. */
  function Append(known: seq<string>, more: seq<string>): seq<string>
    decreases |more|
  {
    if more == [] then known
    else if more[0] in known then Append(known, more[1..])
    else Append(known + [more[0]], more[1..])
  }

  lemma {:induction false} SetFieldKeys(fs: seq<Field>, k: string, v: Value)
    ensures Keys(SetField(fs, k, v)) == if k in Keys(fs) then Keys(fs) else Keys(fs) + [k]
  {
    if fs == [] {
    } else if fs[0].key == k {
      assert Keys(fs)[0] == k;
      assert Keys([Field(k, v)] + fs[1..]) == Keys(fs);
    } else {
      SetFieldKeys(fs[1..], k, v);
      assert Keys(fs) == [fs[0].key] + Keys(fs[1..]);
      var set_ := SetField(fs[1..], k, v);
      assert Keys([fs[0]] + set_) == [fs[0].key] + Keys(set_);
    }
  }

  lemma {:induction false} DecodedKeys(ts: seq<Token>, before: seq<Field>)
    requires DecodeFields(ts, before).Ok?
    ensures Keys(DecodeFields(ts, before).value.fields) == Append(Keys(before), KeysFrom(ts))
    decreases |ts|
  {
    if ts[0] != ObjectClose {
      var k := ts[0].scalar.s;
      SkipMatchesDecode(ts[1..]);
      var d := DecodeValue(ts[1..]);
      SetFieldKeys(before, k, d.value);
      DecodedKeys(d.rest, SetField(before, k, d.value));
      var more := KeysFrom(ts);
      assert more[0] == k && more[1..] == KeysFrom(d.rest);
    }
  }

  predicate NoRepeats(ks: seq<string>) {
    forall i, j :: 0 <= i < j < |ks| ==> ks[i] != ks[j]
  }

  lemma {:induction false} AppendNew(known: seq<string>, more: seq<string>)
    requires NoRepeats(known + more)
    ensures Append(known, more) == known + more
    decreases |more|
  {
    if more == [] {
      assert known + more == known;
    } else {
      assert forall i :: 0 <= i < |known| ==> (known + more)[i] == known[i];
      assert (known + more)[|known|] == more[0];
      assert known + [more[0]] + more[1..] == known + more;
      AppendNew(known + [more[0]], more[1..]);
    }
  }

  /** The keys of a decoded object are the first occurrences among the keys read from the text; when
      the text repeats none, they are those keys, in that order. */
  lemma KeyOrder(ts: seq<Token>)
    requires ts != [] && ts[0] == ObjectOpen && DecodeValue(ts).Ok?
    ensures DecodeValue(ts).value.Ordered? && Keys(DecodeValue(ts).value.fields) == Append([], TopLevelKeys(ts))
    ensures NoRepeats(TopLevelKeys(ts)) ==> Keys(DecodeValue(ts).value.fields) == TopLevelKeys(ts)
  {
    DecodedKeys(ts[1..], []);
    var ks := TopLevelKeys(ts);
    assert [] + ks == ks;
    if NoRepeats(ks) { AppendNew([], ks); }
  }

  /** Printing an object shows its keys in its own order. */
  lemma PrintedKeyOrder(fs: seq<Field>)
    requires Canonical(Ordered(true, fs))
    ensures TopLevelKeys(PrintValue(Ordered(true, fs))) == Keys(fs)
  {
    var v := Ordered(true, fs);
    var ts := PrintValue(v);
    DecodePrint(v, []);
    assert ts + [] == ts;
    PrintedKeys(fs, [ObjectClose]);
    assert ts[1..] == PrintFields(fs) + [ObjectClose];
  }

  lemma {:induction false} PrintedKeys(fs: seq<Field>, rest: seq<Token>)
    requires (forall i :: 0 <= i < |fs| ==> Canonical(fs[i].value)) && rest != [] && !rest[0].Prim?
    ensures KeysFrom(PrintFields(fs) + rest) == Keys(fs)
    decreases fs
  {
    var ts := PrintFields(fs) + rest;
    if fs == [] {
      assert ts == rest;
    } else {
      var after := PrintFields(fs[1..]) + rest;
      assert ts == [Prim(Text(fs[0].key))] + (PrintValue(fs[0].value) + after);
      assert ts[1..] == PrintValue(fs[0].value) + after;
      DecodePrint(fs[0].value, after);
      SkipMatchesDecode(ts[1..]);
      PrintedKeys(fs[1..], rest);
      assert Keys(fs) == [fs[0].key] + Keys(fs[1..]);
    }
  }
}
