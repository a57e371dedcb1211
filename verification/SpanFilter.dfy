/**
 The plugin span filter of the observability connectors: core/schemas/span_filter.go.

 BuildReparentMap resolves chains of removed spans in place, in whatever order the map is
 iterated, reading entries it may have overwritten already.
 */
module SpanFilter {
  import opened Wrappers

  datatype Mode = Include | Exclude | OtherMode

  datatype Filter = Filter(mode: Mode, plugins: seq<string>)

  datatype Span = Span(id: string, parent: string, isPlugin: bool, name: string)

  // ----- Which spans are exported -----

  /** Position of the first dot, or the length. */
  function DotIn(s: string): (i: nat)
    ensures i <= |s| && '.' !in s[..i] && (i < |s| ==> s[i] == '.')
  {
    if s == "" || s[0] == '.' then 0
    else
      var i := 1 + DotIn(s[1..]);
      assert s[..i] == [s[0]] + s[1..][..i - 1];
      i
  }

  /** strings.SplitN(name, ".", 3) */
  function SplitThree(name: string): seq<string> {
    var i := DotIn(name);
    if i == |name| then [name]
    else
      var rest := name[i + 1..];
      var j := DotIn(rest);
      if j == |rest| then [name[..i], rest] else [name[..i], rest[..j], rest[j + 1..]]
  }

  function PluginNameFromSpan(span: Option<Span>): string {
    if span.None? || !span.value.isPlugin then ""
    else
      var parts := SplitThree(span.value.name);
      if |parts| != 3 || parts[0] != "plugin" || parts[1] == "" then "" else parts[1]
  }

  predicate ShouldExportSpan(filter: Option<Filter>, span: Option<Span>) {
    if filter.None? || span.None? || !span.value.isPlugin then true
    else
      var plugin := PluginNameFromSpan(span);
      if plugin == "" then true
      else if filter.value.mode == Include then plugin in filter.value.plugins
      else plugin !in filter.value.plugins
  }

  lemma DotUnique(s: string, p: string, rest: string)
    requires s == p + "." + rest && '.' !in p
    ensures DotIn(s) == |p|
  {
    var i := DotIn(s);
    assert s[|p|] == '.';
  }

  lemma NameParts(name: string, p: string)
    requires |SplitThree(name)| == 3 && SplitThree(name) == ["plugin", p, SplitThree(name)[2]]
    ensures '.' !in p && name == "plugin" + "." + (p + "." + SplitThree(name)[2])
  {
    var i := DotIn(name);
    var rest := name[i + 1..];
    var j := DotIn(rest);
    assert name == name[..i] + "." + rest;
    assert rest == rest[..j] + "." + rest[j + 1..];
  }

  lemma PartsOfName(p: string, stage: string)
    requires '.' !in p
    ensures SplitThree("plugin" + "." + (p + "." + stage)) == ["plugin", p, stage]
  {
    var name, rest := "plugin" + "." + (p + "." + stage), p + "." + stage;
    DotUnique(name, "plugin", rest);
    DotUnique(rest, p, stage);
    assert name[..6] == "plugin" && name[7..] == rest;
    assert rest[..|p|] == p && rest[|p| + 1..] == stage;
  }

  /** A span names plugin p exactly when it is a plugin span called "plugin.p.stage", for any stage. */
  lemma NamesPlugin(span: Span, p: string)
    requires p != ""
    ensures PluginNameFromSpan(Some(span)) == p <==>
              span.isPlugin && '.' !in p && exists stage :: span.name == "plugin" + "." + (p + "." + stage)
  {
    if PluginNameFromSpan(Some(span)) == p {
      assert SplitThree(span.name) == ["plugin", p, SplitThree(span.name)[2]];
      NameParts(span.name, p);
    }
    hide SplitThree;
    if '.' !in p {
      if stage :| span.name == "plugin" + "." + (p + "." + stage) {
        PartsOfName(p, stage);
      }
    }
  }

  // ----- Parent chains -----

  type Links = map<string, string>

  /** The k-th ID on the chain from x, staying put once outside the removed spans. */
  function Hop(links: Links, x: string, k: nat): string
    decreases k
  {
    if k > 0 && x in links then Hop(links, links[x], k - 1) else x
  }

  /** The chain from x leaves the removed spans. */
  ghost predicate Leaves(links: Links, x: string) {
    exists k: nat :: Hop(links, x, k) !in links
  }

  lemma {:induction false} HopSplits(links: Links, x: string, j: nat, k: nat)
    ensures Hop(links, x, j + k) == Hop(links, Hop(links, x, j), k)
    decreases j
  {
    if j > 0 && x in links {
      HopSplits(links, links[x], j - 1, k);
    } else if x !in links {
      assert Hop(links, x, j + k) == x;
    }
  }

  /** The IDs visited before hop k. */
  function Visited(links: Links, x: string, k: nat): set<string> {
    set i: nat | i < k :: Hop(links, x, i)
  }

  /** Removed IDs met twice are met forever. */
  lemma {:induction false} LoopsForever(links: Links, x: string, i: nat, j: nat, k: nat)
    requires i < j && Hop(links, x, i) == Hop(links, x, j) && Hop(links, x, i) in links && Hop(links, x, k) !in links && j <= k
    ensures false
    decreases k
  {
    HopSplits(links, x, j, k - j);
    HopSplits(links, x, i, k - j);
    var m := i + (k - j);
    if m < j {
      HopSplits(links, x, m, j - m);
    } else {
      LoopsForever(links, x, i, j, m);
    }
  }

  lemma {:induction false} VisitedGrows(links: Links, x: string, k: nat, n: nat)
    requires k <= n && Hop(links, x, n) !in links && forall i: nat :: i < k ==> Hop(links, x, i) in links
    ensures |Visited(links, x, k)| == k && Visited(links, x, k) <= links.Keys
  {
    if k > 0 {
      VisitedGrows(links, x, k - 1, n);
      assert Visited(links, x, k) == Visited(links, x, k - 1) + {Hop(links, x, k - 1)};
      if Hop(links, x, k - 1) in Visited(links, x, k - 1) {
        var i: nat :| i < k - 1 && Hop(links, x, i) == Hop(links, x, k - 1);
        LoopsForever(links, x, i, k - 1, n);
      }
    }
  }

  lemma SubsetSize(a: set<string>, b: set<string>)
    requires a <= b
    ensures |a| <= |b|
  {
    assert b == a + (b - a);
  }

  /** Number of hops out of the removed spans. */
  ghost function Depth(links: Links, x: string): (d: nat)
    requires Leaves(links, x)
    ensures Hop(links, x, d) !in links && forall k: nat :: k < d ==> Hop(links, x, k) in links
  {
    var k: nat :| Hop(links, x, k) !in links;
    LeastHop(links, x, k)
  }

  function LeastHop(links: Links, x: string, k: nat): (d: nat)
    requires Hop(links, x, k) !in links
    ensures Hop(links, x, d) !in links && forall i: nat :: i < d ==> Hop(links, x, i) in links
    decreases k
  {
    if x !in links then 0
    else
      var d := 1 + LeastHop(links, links[x], k - 1);
      assert forall i: nat :: i < d ==> Hop(links, x, i) in links by {
        assert forall i: nat :: 0 < i < d ==> Hop(links, x, i) == Hop(links, links[x], i - 1);
      }
      d
  }

  /** A chain that leaves the removed spans does so within as many hops as there are removed spans. */
  lemma DepthBound(links: Links, x: string)
    requires Leaves(links, x)
    ensures Depth(links, x) <= |links|
  {
    var d := Depth(links, x);
    VisitedGrows(links, x, d, d);
    SubsetSize(Visited(links, x, d), links.Keys);
  }

  /** The first ID on the chain that is not removed. */
  ghost function Ancestor(links: Links, x: string): (a: string)
    requires Leaves(links, x)
    ensures a !in links
  {
    Hop(links, x, Depth(links, x))
  }

  lemma NextOnChain(links: Links, x: string)
    requires x in links
    ensures Leaves(links, x) <==> Leaves(links, links[x])
    ensures Leaves(links, x) ==> Depth(links, x) == 1 + Depth(links, links[x]) && Ancestor(links, x) == Ancestor(links, links[x])
  {
    if Leaves(links, links[x]) {
      var d := Depth(links, links[x]);
      assert Hop(links, x, d + 1) == Hop(links, links[x], d);
    }
    if Leaves(links, x) {
      var d := Depth(links, x);
      assert Hop(links, links[x], d - 1) == Hop(links, x, d);
      var e := Depth(links, links[x]);
      assert Hop(links, x, e + 1) == Hop(links, links[x], e);
    }
  }

  lemma Outside(links: Links, x: string)
    requires x !in links
    ensures Leaves(links, x) && Depth(links, x) == 0 && Ancestor(links, x) == x
  {
    assert Hop(links, x, 0) == x;
  }

  /** Links without cycles: some measure goes down along every link between removed spans. */
  ghost predicate Acyclic(links: Links, rank: string -> nat) {
    forall x :: x in links && links[x] in links ==> rank(links[x]) < rank(x)
  }

  lemma {:induction false} AcyclicLeaves(links: Links, rank: string -> nat, x: string)
    requires Acyclic(links, rank)
    ensures Leaves(links, x)
    decreases rank(x), x in links
  {
    if x !in links {
      Outside(links, x);
    } else {
      if links[x] in links { AcyclicLeaves(links, rank, links[x]); } else { Outside(links, links[x]); }
      NextOnChain(links, x);
    }
  }

  // ----- Building the map -----

  /** The direct parent of every removed span; of spans with the same ID the last one counts. */
  function Removed(filter: Option<Filter>, spans: seq<Option<Span>>): Links {
    if spans == [] then map[]
    else
      var before := Removed(filter, spans[..|spans| - 1]);
      var span := spans[|spans| - 1];
      if ShouldExportSpan(filter, span) then before else before[span.value.id := span.value.parent]
  }

  /** y lies further along x's chain, or at its end. */
  ghost predicate Onward(links: Links, x: string, y: string) {
    && (Leaves(links, x) <==> Leaves(links, y))
    && (Leaves(links, x) && x in links ==> Depth(links, y) < Depth(links, x) && Ancestor(links, y) == Ancestor(links, x))
    && (!Leaves(links, x) ==> y in links)
  }

  lemma DirectlyOnward(links: Links, x: string)
    requires x in links
    ensures Onward(links, x, links[x])
  {
    NextOnChain(links, x);
    if links[x] !in links { Outside(links, links[x]); }
  }

  lemma OnwardTwice(links: Links, x: string, y: string, z: string)
    requires x in links && y in links && Onward(links, x, y) && Onward(links, y, z)
    ensures Onward(links, x, z)
    ensures Leaves(links, x) ==> Depth(links, z) < Depth(links, y)
  {
  }

  /** The whole map between passes: entries point onward, those done to the ancestor. */
  ghost predicate Resolving(links: Links, current: Links, todo: set<string>) {
    && current.Keys == links.Keys
    && (forall x :: x in links ==> Onward(links, x, current[x]))
    && (forall x :: x in links && x !in todo && Leaves(links, x) ==> current[x] == Ancestor(links, x))
  }

  /** The inner loop: follow the map as it now is, at most as many hops as it has entries. */
  method Resolve(current: Links, x: string, ghost links: Links, ghost todo: set<string>) returns (parent: string)
    requires Resolving(links, current, todo) && x in links
    ensures Onward(links, x, parent)
    ensures Leaves(links, x) ==> parent == Ancestor(links, x)
  {
    parent := current[x];
    var maxHops := |current|;
    if Leaves(links, x) { DepthBound(links, x); }
    for i := 0 to maxHops
      invariant Onward(links, x, parent)
      invariant Leaves(links, x) ==> Depth(links, parent) + i < |links| || parent !in links
    {
      if parent !in current {
        break;
      }
      OnwardTwice(links, x, parent, current[parent]);
      parent := current[parent];
    }
    if Leaves(links, x) && parent in links {
      assert false;
    }
    if Leaves(links, x) { Outside(links, parent); }
  }

  lemma ResolvesOne(links: Links, current: Links, todo: set<string>, x: string, parent: string)
    requires Resolving(links, current, todo) && x in todo && x in links && Onward(links, x, parent)
    requires Leaves(links, x) ==> parent == Ancestor(links, x)
    ensures Resolving(links, current[x := parent], todo - {x})
  {
    hide Onward, Leaves, Ancestor;
  }

  lemma StartsResolving(links: Links)
    ensures Resolving(links, links, links.Keys)
  {
    forall x | x in links ensures Onward(links, x, links[x]) { DirectlyOnward(links, x); }
  }

  lemma AllResolved(links: Links, current: Links)
    requires Resolving(links, current, {})
    ensures current.Keys == links.Keys
    ensures forall x :: x in links ==> if Leaves(links, x) then current[x] == Ancestor(links, x) else current[x] in links
  {
  }

  /** The second pass, in any order of iteration. */
  method ResolveAll(links: Links) returns (current: Links)
    ensures current.Keys == links.Keys
    ensures forall x :: x in links ==> if Leaves(links, x) then current[x] == Ancestor(links, x) else current[x] in links
  {
    hide Resolving, Onward, Leaves, Ancestor;
    current := links;
    var todo := links.Keys;
    StartsResolving(links);
    while todo != {}
      invariant todo <= links.Keys && Resolving(links, current, todo)
      decreases |todo|
    {
      var x :| x in todo;
      var parent := Resolve(current, x, links, todo);
      ResolvesOne(links, current, todo, x, parent);
      current := current[x := parent];
      todo := todo - {x};
    }
    AllResolved(links, current);
  }

  /** Nil when nothing is removed; else every removed span whose parent chain leaves the removed
      spans is sent to the first ID on it that is not removed, and every other one, caught in a
      cycle, to a removed span: for every order of iteration, although entries are overwritten. */
  method BuildReparentMap(filter: Option<Filter>, spans: seq<Option<Span>>) returns (result: Option<Links>)
    ensures result.None? <==> filter.None? || Removed(filter, spans) == map[]
    ensures result.Some? ==> result.value.Keys == Removed(filter, spans).Keys
    ensures result.Some? ==>
              forall x :: x in result.value ==>
                            if Leaves(Removed(filter, spans), x)
                            then result.value[x] == Ancestor(Removed(filter, spans), x)
                            else result.value[x] in Removed(filter, spans)
  {
    if filter.None? {
      return None;
    }
    var filtered: Links := map[];
    for i := 0 to |spans|
      invariant filtered == Removed(filter, spans[..i])
    {
      assert spans[..i + 1][..i] == spans[..i];
      if !ShouldExportSpan(filter, spans[i]) {
        filtered := filtered[spans[i].value.id := spans[i].value.parent];
      }
    }
    assert spans[..|spans|] == spans;
    if |filtered| == 0 {
      return None;
    }
    var resolved := ResolveAll(filtered);
    return Some(resolved);
  }
}
