/**
 Session stickiness: concurrent requests of one session and model share one cell of an atomic
 key-value store and try to agree on a key.

 Each store call is one step.  Any number of requests interleave; the key selector may return any
 supported key, or fail.  The set of supported keys is fixed; the store does not fail and no
 entry expires.  Keys stand for their IDs.
 */
module Stickiness {
  import opened Wrappers

  /** Where a request stands; the argument is the key ID in its local variable. */
  datatype Pc =
    | Refreshing(id: string)
    | ClearingFirst
    | Selecting
    | Claiming(id: string)
    | Rereading(id: string)
    | ClearingLast(id: string)
    | Returned(id: string)
    | SelectorFailed

  datatype State = State(cell: Option<string>, pcs: map<nat, Pc>)

  datatype Lookup = Found(id: string) | Stale | Missing

  /** getCachedKeyFromStore: an empty ID counts as no entry at all. */
  function Cached(cell: Option<string>, supported: set<string>): Lookup {
    if cell == None || cell.value == "" then Missing
    else if cell.value in supported then Found(cell.value)
    else Stale
  }

  /** What the first look at the store leads to. */
  function AfterFirst(l: Lookup): Pc {
    match l
    case Found(id) => Refreshing(id)
    case Stale => ClearingFirst
    case Missing => Selecting
  }

  /** What the second look leads to, for a request that selected id and lost the race. */
  function AfterSecond(l: Lookup, id: string): Pc {
    match l
    case Found(other) => Returned(other)
    case Stale => ClearingLast(id)
    case Missing => Returned(id)
  }

  /** Request r takes its next step; choice is what the selector returns, if it is asked. */
  ghost predicate Next(supported: set<string>, s: State, r: nat, choice: Option<string>, s': State) {
    if r !in s.pcs then
      s' == s.(pcs := s.pcs[r := AfterFirst(Cached(s.cell, supported))])
    else
      match s.pcs[r]
      case Refreshing(id) => s' == State(Some(id), s.pcs[r := Returned(id)])
      case ClearingFirst => s' == State(None, s.pcs[r := Selecting])
      case Selecting =>
        && (choice.Some? ==> choice.value in supported)
        && s' == s.(pcs := s.pcs[r := if choice.Some? then Claiming(choice.value) else SelectorFailed])
      case Claiming(id) =>
        if s.cell == None then s' == State(Some(id), s.pcs[r := Returned(id)]) else s' == s.(pcs := s.pcs[r := Rereading(id)])
      case Rereading(id) => s' == s.(pcs := s.pcs[r := AfterSecond(Cached(s.cell, supported), id)])
      case ClearingLast(id) => s' == State(None, s.pcs[r := Returned(id)])
      case _ => false
  }

  datatype Move = Move(r: nat, choice: Option<string>)

  /** Every interleaving of any length from a stored binding. */
  ghost predicate IsRun(supported: set<string>, cell: Option<string>, run: seq<State>, moves: seq<Move>) {
    && |run| == |moves| + 1
    && run[0] == State(cell, map[])
    && forall i {:trigger moves[i]} :: 0 <= i < |moves| ==> Next(supported, run[i], moves[i].r, moves[i].choice, run[i + 1])
  }

  /** All requests that have returned, returned the same key. */
  ghost predicate Agree(s: State) {
    forall q, r :: q in s.pcs && r in s.pcs && s.pcs[q].Returned? && s.pcs[r].Returned? ==> s.pcs[q].id == s.pcs[r].id
  }

  ghost predicate AlwaysAgree(supported: set<string>, cell: Option<string>) {
    forall run, moves :: IsRun(supported, cell, run, moves) ==> Agree(run[|run| - 1])
  }

  /** The stored binding is absent and no supported ID is empty, or it names a supported key. */
  predicate Sound(supported: set<string>, cell: Option<string>) {
    if cell == None then "" !in supported else cell.value != "" && cell.value in supported
  }

  /** Until someone claims the cell nobody has returned; from then on everyone follows the cell. */
  ghost predicate Settled(supported: set<string>, s: State, r: nat) {
    r in s.pcs ==>
      match s.pcs[r]
      case Refreshing(id) => s.cell == Some(id)
      case Returned(id) => s.cell == Some(id)
      case ClearingFirst => false
      case ClearingLast(_) => false
      case Rereading(_) => s.cell.Some?
      case Claiming(id) => id in supported
      case _ => true
  }

  ghost predicate Holds(supported: set<string>, s: State) {
    Sound(supported, s.cell) && (s.cell.Some? || "" !in supported) && forall r :: Settled(supported, s, r)
  }

  lemma NextHolds(supported: set<string>, s: State, r: nat, choice: Option<string>, s': State)
    requires Holds(supported, s) && Next(supported, s, r, choice, s')
    ensures Holds(supported, s')
    ensures s.cell.Some? ==> s'.cell == s.cell
  {
    assert Settled(supported, s, r);
    forall q ensures Settled(supported, s', q) { assert Settled(supported, s, q); }
  }

  lemma {:induction false} RunHolds(supported: set<string>, cell: Option<string>, run: seq<State>, moves: seq<Move>, i: nat)
    requires Sound(supported, cell) && IsRun(supported, cell, run, moves) && i < |run|
    ensures Holds(supported, run[i])
  {
    if i > 0 {
      RunHolds(supported, cell, run, moves, i - 1);
      NextHolds(supported, run[i - 1], moves[i - 1].r, moves[i - 1].choice, run[i]);
    }
  }

  /** A returned key is supported and is the one bound in the cell, for good. */
  lemma ReturnsTheBinding(supported: set<string>, cell: Option<string>, run: seq<State>, moves: seq<Move>, i: nat, r: nat)
    requires Sound(supported, cell) && IsRun(supported, cell, run, moves) && i < |run|
    requires r in run[i].pcs && run[i].pcs[r].Returned?
    ensures run[i].pcs[r].id in supported && run[i].cell == Some(run[i].pcs[r].id)
    ensures cell.Some? ==> run[i].pcs[r].id == cell.value
  {
    RunHolds(supported, cell, run, moves, i);
    assert Settled(supported, run[i], r);
    if cell.Some? { CellStays(supported, cell, run, moves, i); }
  }

  lemma {:induction false} CellStays(supported: set<string>, cell: Option<string>, run: seq<State>, moves: seq<Move>, i: nat)
    requires Sound(supported, cell) && cell.Some? && IsRun(supported, cell, run, moves) && i < |run|
    ensures run[i].cell == cell
  {
    if i > 0 {
      CellStays(supported, cell, run, moves, i - 1);
      RunHolds(supported, cell, run, moves, i - 1);
      NextHolds(supported, run[i - 1], moves[i - 1].r, moves[i - 1].choice, run[i]);
    }
  }

  lemma HoldsAgrees(supported: set<string>, s: State)
    requires Holds(supported, s)
    ensures Agree(s)
  {
    forall q, r | q in s.pcs && r in s.pcs && s.pcs[q].Returned? && s.pcs[r].Returned? ensures s.pcs[q].id == s.pcs[r].id {
      assert Settled(supported, s, q) && Settled(supported, s, r);
    }
  }

  lemma SoundAgrees(supported: set<string>, cell: Option<string>)
    requires Sound(supported, cell)
    ensures AlwaysAgree(supported, cell)
  {
    forall run, moves | IsRun(supported, cell, run, moves) ensures Agree(run[|run| - 1]) {
      RunHolds(supported, cell, run, moves, |run| - 1);
      HoldsAgrees(supported, run[|run| - 1]);
    }
  }

  // ----- Two requests that disagree -----

  ghost predicate Reached(supported: set<string>, cell: Option<string>, s: State) {
    exists run, moves :: IsRun(supported, cell, run, moves) && run[|run| - 1] == s
  }

  lemma Begins(supported: set<string>, cell: Option<string>)
    ensures Reached(supported, cell, State(cell, map[]))
  {
    assert IsRun(supported, cell, [State(cell, map[])], []);
  }

  lemma Extends(supported: set<string>, cell: Option<string>, s: State, r: nat, choice: Option<string>, s': State)
    requires Reached(supported, cell, s) && Next(supported, s, r, choice, s')
    ensures Reached(supported, cell, s')
  {
    var run, moves :| IsRun(supported, cell, run, moves) && run[|run| - 1] == s;
    var run', moves' := run + [s'], moves + [Move(r, choice)];
    forall i | 0 <= i < |moves'| ensures Next(supported, run'[i], moves'[i].r, moves'[i].choice, run'[i + 1]) {
      if i < |moves| { assert moves'[i] == moves[i]; }
    }
    assert IsRun(supported, cell, run', moves');
  }

  /** With an entry that counts as missing a request returns its own choice. */
  lemma ReturnsOwnChoice(supported: set<string>, cell: Option<string>, s: State, r: nat, id: string)
    requires Reached(supported, cell, s) && s.cell == Some("") && r !in s.pcs && id in supported
    ensures Reached(supported, cell, s.(pcs := s.pcs[r := Returned(id)]))
  {
    var a := s.(pcs := s.pcs[r := Selecting]);
    Extends(supported, cell, s, r, None, a);
    var b := a.(pcs := a.pcs[r := Claiming(id)]);
    Extends(supported, cell, a, r, Some(id), b);
    var c := b.(pcs := b.pcs[r := Rereading(id)]);
    Extends(supported, cell, b, r, None, c);
    var d := c.(pcs := c.pcs[r := Returned(id)]);
    Extends(supported, cell, c, r, None, d);
    assert d == s.(pcs := s.pcs[r := Returned(id)]);
  }

  /** With no entry a request claims the cell for its own choice. */
  lemma ClaimsOwnChoice(supported: set<string>, cell: Option<string>, s: State, r: nat, id: string)
    requires Reached(supported, cell, s) && s.cell == None && r in s.pcs && s.pcs[r] == Selecting && id in supported
    ensures Reached(supported, cell, State(Some(id), s.pcs[r := Returned(id)]))
  {
    var a := s.(pcs := s.pcs[r := Claiming(id)]);
    Extends(supported, cell, s, r, Some(id), a);
    var b := State(Some(id), a.pcs[r := Returned(id)]);
    Extends(supported, cell, a, r, None, b);
    assert b == State(Some(id), s.pcs[r := Returned(id)]);
  }

  lemma Disagreement(supported: set<string>, cell: Option<string>, s: State, q: nat, r: nat)
    requires Reached(supported, cell, s) && q in s.pcs && r in s.pcs && s.pcs[q].Returned? && s.pcs[r].Returned?
    requires s.pcs[q].id != s.pcs[r].id
    ensures !AlwaysAgree(supported, cell)
  {
  }

  /** An empty stored ID is never found and never replaced: each request keeps its own choice. */
  lemma EmptyEntryDisagrees(supported: set<string>, a: string, b: string)
    requires a in supported && b in supported && a != b
    ensures !AlwaysAgree(supported, Some(""))
  {
    var cell := Some("");
    Begins(supported, cell);
    var s := State(cell, map[]);
    ReturnsOwnChoice(supported, cell, s, 0, a);
    var t := s.(pcs := s.pcs[0 := Returned(a)]);
    ReturnsOwnChoice(supported, cell, t, 1, b);
    Disagreement(supported, cell, t.(pcs := t.pcs[1 := Returned(b)]), 0, 1);
  }

  /** A supported key with an empty ID, once bound, is not found by the next request. */
  lemma EmptyIdDisagrees(supported: set<string>, b: string)
    requires "" in supported && b in supported && b != ""
    ensures !AlwaysAgree(supported, None)
  {
    Begins(supported, None);
    var s := State(None, map[]);
    var a := State(None, map[0 := Selecting]);
    Extends(supported, None, s, 0, None, a);
    ClaimsOwnChoice(supported, None, a, 0, "");
    var t := State(Some(""), a.pcs[0 := Returned("")]);
    ReturnsOwnChoice(supported, None, t, 1, b);
    Disagreement(supported, None, t.(pcs := t.pcs[1 := Returned(b)]), 0, 1);
  }

  /** Two requests that both saw a stale entry: the second deletes what the first has bound. */
  lemma StaleEntryDisagrees(supported: set<string>, x: string, a: string, b: string)
    requires x != "" && x !in supported && a in supported && b in supported && a != b
    ensures !AlwaysAgree(supported, Some(x))
  {
    var cell := Some(x);
    Begins(supported, cell);
    var s1 := State(cell, map[0 := ClearingFirst]);
    Extends(supported, cell, State(cell, map[]), 0, None, s1);
    var s2 := State(cell, map[0 := ClearingFirst, 1 := ClearingFirst]);
    Extends(supported, cell, s1, 1, None, s2);
    var s3 := State(None, map[0 := Selecting, 1 := ClearingFirst]);
    Extends(supported, cell, s2, 0, None, s3);
    ClaimsOwnChoice(supported, cell, s3, 0, a);
    var s4 := State(Some(a), s3.pcs[0 := Returned(a)]);
    var s5 := State(None, s4.pcs[1 := Selecting]);
    Extends(supported, cell, s4, 1, None, s5);
    ClaimsOwnChoice(supported, cell, s5, 1, b);
    Disagreement(supported, cell, State(Some(b), s5.pcs[1 := Returned(b)]), 0, 1);
  }

  /** Exactly when all interleavings agree, for a pool of at least two different keys. */
  lemma AgreementExact(supported: set<string>, cell: Option<string>, a: string, b: string)
    requires a in supported && b in supported && a != b
    ensures AlwaysAgree(supported, cell) <==> Sound(supported, cell)
  {
    if Sound(supported, cell) {
      SoundAgrees(supported, cell);
    } else if cell == None {
      EmptyIdDisagrees(supported, if a == "" then b else a);
    } else if cell.value == "" {
      EmptyEntryDisagrees(supported, a, b);
    } else {
      StaleEntryDisagrees(supported, cell.value, a, b);
    }
  }
}
