/**
 ReorderJSONKeys of core/schemas/jsonkeyorder.go: the top-level fields of a serialized object are
 emitted again, the keys of a given order first.

 Values are raw text and never looked at; an object whose text does not parse is returned as it is
 by the source and does not reach this point.
 */
module KeyReordering {
  import opened Wrappers

  datatype Pair<V> = Pair(key: string, value: V)

  /** What a reader of the object finds under a key: the last value given for it. */
  function Lookup<V>(pairs: seq<Pair<V>>, k: string): Option<V> {
    if pairs == [] then None
    else
      var n := |pairs| - 1;
      if pairs[n].key == k then Some(pairs[n].value) else Lookup(pairs[..n], k)
  }

  /** The keys of the order that the object has, repeats included. */
  function Present<V>(pairs: seq<Pair<V>>, order: seq<string>): seq<string> {
    if order == [] then []
    else
      var n := |order| - 1;
      Present(pairs, order[..n]) + if Lookup(pairs, order[n]).Some? then [order[n]] else []
  }

  function Fields<V>(pairs: seq<Pair<V>>, keys: seq<string>): seq<Pair<V>>
    requires forall i :: 0 <= i < |keys| ==> Lookup(pairs, keys[i]).Some?
  {
    seq(|keys|, i requires 0 <= i < |keys| => Pair(keys[i], Lookup(pairs, keys[i]).value))
  }

  lemma {:induction false} PresentFound<V>(pairs: seq<Pair<V>>, order: seq<string>)
    ensures forall i :: 0 <= i < |Present(pairs, order)| ==> Lookup(pairs, Present(pairs, order)[i]).Some?
    ensures forall k :: k in Present(pairs, order) <==> k in order && Lookup(pairs, k).Some?
  {
    if order != [] {
      var n := |order| - 1;
      PresentFound(pairs, order[..n]);
      assert order == order[..n] + [order[n]];
    }
  }

  /** The fields whose keys are not among these, in their own order. */
  function Others<V>(pairs: seq<Pair<V>>, keys: seq<string>): seq<Pair<V>> {
    if pairs == [] then []
    else
      var n := |pairs| - 1;
      Others(pairs[..n], keys) + if pairs[n].key in keys then [] else [pairs[n]]
  }

  method BuildPairMap<V>(pairs: seq<Pair<V>>) returns (pairMap: map<string, V>)
    ensures forall k :: Lookup(pairs, k) == if k in pairMap then Some(pairMap[k]) else None
  {
    pairMap := map[];
    for i := 0 to |pairs|
      invariant forall k :: Lookup(pairs[..i], k) == if k in pairMap then Some(pairMap[k]) else None
    {
      assert pairs[..i + 1][..i] == pairs[..i];
      pairMap := pairMap[pairs[i].key := pairs[i].value];
    }
    assert pairs[..|pairs|] == pairs;
  }

  method EmitOrdered<V>(pairs: seq<Pair<V>>, pairMap: map<string, V>, order: seq<string>) returns (out: seq<Pair<V>>, emitted: set<string>)
    requires forall k :: Lookup(pairs, k) == if k in pairMap then Some(pairMap[k]) else None
    ensures forall i :: 0 <= i < |Present(pairs, order)| ==> Lookup(pairs, Present(pairs, order)[i]).Some?
    ensures out == Fields(pairs, Present(pairs, order))
    ensures forall k :: k in emitted <==> k in order && Lookup(pairs, k).Some?
  {
    out, emitted := [], {};
    for i := 0 to |order|
      invariant forall j :: 0 <= j < |Present(pairs, order[..i])| ==> Lookup(pairs, Present(pairs, order[..i])[j]).Some?
      invariant out == Fields(pairs, Present(pairs, order[..i]))
      invariant forall k :: k in emitted <==> k in order[..i] && Lookup(pairs, k).Some?
    {
      assert order[..i + 1][..i] == order[..i];
      PresentFound(pairs, order[..i + 1]);
      var key := order[i];
      if key in pairMap {
        out := out + [Pair(key, pairMap[key])];
        emitted := emitted + {key};
      }
    }
    assert order[..|order|] == order;
  }

  method ReorderJSONKeys<V>(pairs: seq<Pair<V>>, order: seq<string>) returns (out: seq<Pair<V>>)
    ensures forall i :: 0 <= i < |Present(pairs, order)| ==> Lookup(pairs, Present(pairs, order)[i]).Some?
    ensures out == Fields(pairs, Present(pairs, order)) + Others(pairs, order)
  {
    var pairMap := BuildPairMap(pairs);
    var emitted;
    out, emitted := EmitOrdered(pairs, pairMap, order);
    ghost var front := out;
    for i := 0 to |pairs|
      invariant out == front + Others(pairs[..i], order)
    {
      assert pairs[..i + 1][..i] == pairs[..i];
      LookupHas(pairs, i);
      if pairs[i].key !in emitted {
        out := out + [pairs[i]];
      }
    }
    assert pairs[..|pairs|] == pairs;
  }

  lemma {:induction false} LookupHas<V>(pairs: seq<Pair<V>>, i: nat)
    requires i < |pairs|
    ensures Lookup(pairs, pairs[i].key).Some?
  {
    var n := |pairs| - 1;
    if i < n && pairs[n].key != pairs[i].key { LookupHas(pairs[..n], i); }
  }

  lemma {:induction false} LookupConcat<V>(a: seq<Pair<V>>, b: seq<Pair<V>>, k: string)
    ensures Lookup(a + b, k) == if Lookup(b, k).Some? then Lookup(b, k) else Lookup(a, k)
  {
    if b == [] {
      assert a + b == a;
    } else {
      var n := |b| - 1;
      assert (a + b)[..|a + b| - 1] == a + b[..n];
      if b[n].key != k { LookupConcat(a, b[..n], k); }
    }
  }

  lemma {:induction false} LookupOthers<V>(pairs: seq<Pair<V>>, keys: seq<string>, k: string)
    ensures Lookup(Others(pairs, keys), k) == if k in keys then None else Lookup(pairs, k)
  {
    if pairs != [] {
      var n := |pairs| - 1;
      LookupOthers(pairs[..n], keys, k);
      if pairs[n].key !in keys {
        LookupConcat(Others(pairs[..n], keys), [pairs[n]], k);
        assert [pairs[n]][..0] == [];
        assert Lookup([pairs[n]], k) == if pairs[n].key == k then Some(pairs[n].value) else None;
      } else {
        assert Others(pairs, keys) == Others(pairs[..n], keys);
      }
    }
  }

  lemma {:induction false} LookupFields<V>(pairs: seq<Pair<V>>, keys: seq<string>, k: string)
    requires forall i :: 0 <= i < |keys| ==> Lookup(pairs, keys[i]).Some?
    ensures Lookup(Fields(pairs, keys), k) == if k in keys then Lookup(pairs, k) else None
  {
    if keys != [] {
      var n := |keys| - 1;
      assert Fields(pairs, keys)[..n] == Fields(pairs, keys[..n]);
      LookupFields(pairs, keys[..n], k);
      assert keys == keys[..n] + [keys[n]];
    }
  }

  /** Reordering keeps what the object means: every key has the value it had, even when the order or
      the object repeats keys. */
  lemma ReorderKeepsMeaning<V>(pairs: seq<Pair<V>>, order: seq<string>, k: string)
    requires forall i :: 0 <= i < |Present(pairs, order)| ==> Lookup(pairs, Present(pairs, order)[i]).Some?
    ensures Lookup(Fields(pairs, Present(pairs, order)) + Others(pairs, order), k) == Lookup(pairs, k)
  {
    PresentFound(pairs, order);
    LookupFields(pairs, Present(pairs, order), k);
    LookupOthers(pairs, order, k);
    LookupConcat(Fields(pairs, Present(pairs, order)), Others(pairs, order), k);
  }

  predicate Unique<V>(pairs: seq<Pair<V>>) {
    forall i, j :: 0 <= i < j < |pairs| ==> pairs[i].key != pairs[j].key
  }

  predicate NoRepeats(ks: seq<string>) {
    forall i, j :: 0 <= i < j < |ks| ==> ks[i] != ks[j]
  }

  lemma {:induction false} OthersKeys<V>(pairs: seq<Pair<V>>, keys: seq<string>)
    ensures forall i :: 0 <= i < |Others(pairs, keys)| ==> Others(pairs, keys)[i] in pairs && Others(pairs, keys)[i].key !in keys
    ensures Unique(pairs) ==> Unique(Others(pairs, keys))
  {
    if pairs != [] {
      var n := |pairs| - 1;
      OthersKeys(pairs[..n], keys);
      var rest := Others(pairs[..n], keys);
      forall i | 0 <= i < |rest| ensures rest[i] in pairs && (Unique(pairs) ==> rest[i].key != pairs[n].key) {
        var j :| 0 <= j < n && pairs[..n][j] == rest[i];
        assert pairs[j] == rest[i];
      }
    }
  }

  /** The reordered object repeats no key exactly when the keys of the order that it has are given
      once, provided the object repeated none. */
  lemma RepeatsExactly<V>(pairs: seq<Pair<V>>, order: seq<string>)
    requires Unique(pairs)
    requires forall i :: 0 <= i < |Present(pairs, order)| ==> Lookup(pairs, Present(pairs, order)[i]).Some?
    ensures Unique(Fields(pairs, Present(pairs, order)) + Others(pairs, order)) <==> NoRepeats(Present(pairs, order))
  {
    var ks := Present(pairs, order);
    var front, back := Fields(pairs, ks), Others(pairs, order);
    var out := front + back;
    OthersKeys(pairs, order);
    PresentFound(pairs, order);
    if Unique(out) {
      forall i, j | 0 <= i < j < |ks| ensures ks[i] != ks[j] { assert out[i].key != out[j].key; }
    }
    if NoRepeats(ks) {
      forall i, j | 0 <= i < j < |out| ensures out[i].key != out[j].key {
        if j < |front| {
          assert ks[i] != ks[j];
        } else if i < |front| {
          assert ks[i] in ks;
        } else {
          assert back[i - |front|].key != back[j - |front|].key;
        }
      }
    }
  }
}
