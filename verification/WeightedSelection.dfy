/**
 Weighted random key selection: core/keyselectors/weightedrandom.go.

 Keys are known by their positions; weights are real numbers, scaled by a hundred and truncated
 as the source does (floating-point rounding is not modelled).  The random source is a parameter.
 */
module WeightedSelection {

  /** int(weight * 100): truncation toward zero. */
  function Scaled(weight: real): int {
    var x := weight * 100.0;
    if x >= 0.0 then x.Floor else -(-x).Floor
  }

  function Scale(weights: seq<real>): (ws: seq<int>)
    ensures |ws| == |weights|
  {
    seq(|weights|, i requires 0 <= i < |weights| => Scaled(weights[i]))
  }

  /** The weight of the positions before i. */
  function Before(ws: seq<int>, i: nat): int
    requires i <= |ws|
  {
    if i == 0 then 0 else Before(ws, i - 1) + ws[i - 1]
  }

  function Total(ws: seq<int>): int {
    Before(ws, |ws|)
  }

  /** A panic is what rand.Intn does with a bound that is not positive. */
  datatype Choice = Chosen(index: nat) | Panics

  /** i is the first position at whose end the running weight is above the draw. */
  predicate FirstAbove(ws: seq<int>, draw: int, i: nat)
    requires i < |ws|
  {
    draw < Before(ws, i + 1) && forall j :: 0 <= j <= i ==> Before(ws, j) <= draw
  }

  predicate NoneNegative(ws: seq<int>) {
    forall k :: 0 <= k < |ws| ==> ws[k] >= 0
  }

  method WeightedRandom(weights: seq<real>, intn: int -> int) returns (choice: Choice)
    requires forall n {:trigger intn(n)} :: n > 0 ==> 0 <= intn(n) < n
    ensures choice.Panics? <==> weights == [] || Total(Scale(weights)) < 0
    ensures choice.Chosen? ==> choice.index < |weights|
    ensures choice.Chosen? && Total(Scale(weights)) == 0 ==> choice.index == intn(|weights|)
    ensures choice.Chosen? && Total(Scale(weights)) > 0 ==>
              FirstAbove(Scale(weights), intn(Total(Scale(weights))), choice.index)
  {
    ghost var ws := Scale(weights);
    var total := 0;
    for i := 0 to |weights|
      invariant total == Before(ws, i)
    {
      total := total + Scaled(weights[i]);
    }
    if total == 0 {
      if |weights| == 0 {
        return Panics;
      }
      return Chosen(intn(|weights|));
    }
    if total < 0 {
      return Panics;
    }
    var draw := intn(total);
    var current := 0;
    for i := 0 to |weights|
      invariant current == Before(ws, i)
      invariant forall j :: 0 <= j <= i ==> Before(ws, j) <= draw
    {
      current := current + Scaled(weights[i]);
      if draw < current {
        return Chosen(i);
      }
    }
    // the running weight has reached the total, which is above the draw
    assert false;
  }

  lemma {:induction false} BeforeGrows(ws: seq<int>, i: nat, j: nat)
    requires i <= j <= |ws| && NoneNegative(ws)
    ensures Before(ws, i) <= Before(ws, j)
  {
    if i < j {
      BeforeGrows(ws, i, j - 1);
    }
  }

  predicate Within(v: int, lo: int, hi: int) {
    lo <= v < hi
  }

  lemma {:induction false} RangeSize(lo: int, hi: int, s: set<int>)
    requires lo <= hi && forall v :: v in s <==> Within(v, lo, hi)
    ensures |s| == hi - lo
    decreases hi - lo
  {
    if lo < hi {
      assert Within(hi - 1, lo, hi);
      var rest := s - {hi - 1};
      forall v ensures v in rest <==> Within(v, lo, hi - 1) { assert v in s <==> Within(v, lo, hi); }
      RangeSize(lo, hi - 1, rest);
    } else {
      forall v ensures v !in s { assert v in s <==> Within(v, lo, hi); }
      assert s == {};
    }
  }

  /** With weights that are not negative, a position is selected by the draws between the weight
      before it and the weight up to it. */
  lemma ShareOf(ws: seq<int>, draw: int, i: nat)
    requires i < |ws| && 0 <= draw && NoneNegative(ws)
    ensures FirstAbove(ws, draw, i) <==> Within(draw, Before(ws, i), Before(ws, i + 1))
  {
    forall j | 0 <= j <= i ensures Before(ws, j) <= Before(ws, i) { BeforeGrows(ws, j, i); }
  }

  /** Of the draws below the total exactly as many as its weight select a position. */
  lemma ExactShare(ws: seq<int>, i: nat)
    requires i < |ws| && NoneNegative(ws)
    ensures |set draw | 0 <= draw < Total(ws) && FirstAbove(ws, draw, i)| == ws[i]
  {
    var share := set draw | 0 <= draw < Total(ws) && FirstAbove(ws, draw, i);
    BeforeGrows(ws, 0, i);
    BeforeGrows(ws, i + 1, |ws|);
    forall v ensures v in share <==> Within(v, Before(ws, i), Before(ws, i + 1)) {
      if 0 <= v { ShareOf(ws, v, i); }
    }
    RangeSize(Before(ws, i), Before(ws, i + 1), share);
  }

  /** Every draw selects exactly one position, and that one has a positive weight. */
  lemma {:induction false} OnePosition(ws: seq<int>, draw: int, n: nat) returns (i: nat)
    requires n <= |ws| && 0 <= draw < Before(ws, n) && NoneNegative(ws)
    ensures i < n && FirstAbove(ws, draw, i) && ws[i] > 0
    ensures forall j: nat :: j < |ws| && FirstAbove(ws, draw, j) ==> j == i
  {
    if draw < Before(ws, n - 1) {
      i := OnePosition(ws, draw, n - 1);
    } else {
      i := n - 1;
      ShareOf(ws, draw, i);
    }
  }
}
