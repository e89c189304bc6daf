/** The proportional bars of the dashboard and of the weekly digest. */
module Bars {
  import opened Sums
  import opened Wrappers

  /** Go's `int(x)`: truncation toward zero. */
  function Trunc(x: real): int {
    if x >= 0.0 then x.Floor else -((-x).Floor)
  }

  lemma TruncIsTowardZero(x: real)
    ensures x >= 0.0 ==> 0 <= Trunc(x) && Trunc(x) as real <= x < Trunc(x) as real + 1.0
    ensures Trunc(-x) == -Trunc(x)
  {
  }

  /** A cost's share of the total, in cells. */
  function Share(cost: real, total: real, cells: nat): real
    requires total != 0.0
  {
    cost / total * cells as real
  }

  /** The bar lengths for a list of costs. */
  function Lengths(costs: seq<real>, total: real, cells: nat): seq<int>
    requires total != 0.0
  {
    if costs == [] then [] else [Trunc(Share(costs[0], total, cells))] + Lengths(costs[1..], total, cells)
  }

  lemma ShareAdds(x: real, y: real, total: real, cells: nat)
    requires total > 0.0
    ensures Share(x + y, total, cells) == Share(x, total, cells) + Share(y, total, cells)
  {
  }

  lemma ShareBounds(x: real, total: real, cells: nat)
    requires 0.0 <= x <= total && total > 0.0
    ensures 0.0 <= Share(x, total, cells) <= cells as real
  {
  }

  ghost predicate Fit(lengths: seq<int>, n: nat, cells: nat) {
    |lengths| == n && forall i :: 0 <= i < n ==> 0 <= lengths[i] <= cells
  }

  lemma FitCons(first: int, rest: seq<int>, n: nat, cells: nat)
    requires 0 <= first <= cells && Fit(rest, n, cells)
    ensures Fit([first] + rest, n + 1, cells)
  {
  }

  /** Truncation takes less than one cell from each bar. */
  lemma {:induction false} BarsWithinSum(costs: seq<real>, total: real, cells: nat)
    requires total > 0.0 && SumSeq(costs) <= total
    requires forall i :: 0 <= i < |costs| ==> costs[i] >= 0.0
    ensures var lengths := Lengths(costs, total, cells);
      && Fit(lengths, |costs|, cells)
      && Share(SumSeq(costs), total, cells) - |costs| as real <= Total(lengths) as real
      && Total(lengths) as real <= Share(SumSeq(costs), total, cells)
      && (costs != [] ==> Share(SumSeq(costs), total, cells) - |costs| as real < Total(lengths) as real)
  {
    if costs == [] {
      ShareBounds(0.0, total, cells);
      assert Share(0.0, total, cells) == 0.0;
    } else {
      var first, rest := costs[0], costs[1..];
      var share := Share(first, total, cells);
      SumSeqNonNegative(rest);
      BarsWithinSum(rest, total, cells);
      ShareAdds(first, SumSeq(rest), total, cells);
      ShareBounds(first, total, cells);
      FitCons(Trunc(share), Lengths(rest, total, cells), |rest|, cells);
      assert share - 1.0 < Trunc(share) as real <= share;
      assert Lengths(costs, total, cells)[1..] == Lengths(rest, total, cells);
    }
  }

  lemma FullShare(total: real, cells: nat)
    requires total > 0.0
    ensures Share(total, total, cells) == cells as real
  {
  }

  /** When the costs make up a positive total, each of the k bars fits its cells, and together they
      fill at most all the cells of one bar and more than all but k of them. */
  lemma BarsApportion(costs: seq<real>, cells: nat)
    requires SumSeq(costs) > 0.0 && forall i :: 0 <= i < |costs| ==> costs[i] >= 0.0
    ensures var lengths := Lengths(costs, SumSeq(costs), cells);
      && Fit(lengths, |costs|, cells)
      && cells - |costs| < Total(lengths) <= cells
  {
    BarsWithinSum(costs, SumSeq(costs), cells);
    FullShare(SumSeq(costs), cells);
    var filled := Total(Lengths(costs, SumSeq(costs), cells));
    assert cells as real - |costs| as real < filled as real <= cells as real;
  }

  const DASHBOARD_CELLS: nat := 20

  lemma {:induction false} LengthsAt(costs: seq<real>, total: real, cells: nat, i: nat)
    requires total != 0.0 && i < |costs|
    ensures |Lengths(costs, total, cells)| == |costs|
    ensures Lengths(costs, total, cells)[i] == Trunc(Share(costs[i], total, cells))
  {
    if i > 0 {
      LengthsAt(costs[1..], total, cells, i - 1);
    } else if |costs| > 1 {
      LengthsAt(costs[1..], total, cells, 0);
    }
  }

  /** A bar's filled cells.  For a zero total the quotient is no number, and `odd` stands for whatever
      the platform converts it to. */
  function Filled(cost: real, total: real, odd: real -> int): int {
    if total == 0.0 then odd(cost) else Trunc(Share(cost, total, DASHBOARD_CELLS))
  }

  /** The dashboard's bars, one per team; None when a repeat count is negative, which panics.  That never
      happens for costs that make up a positive total. */
  method TeamBars(costs: seq<real>, total: real, odd: real -> int) returns (lengths: Option<seq<int>>)
    ensures lengths.None? <==> exists i :: 0 <= i < |costs| && !(0 <= Filled(costs[i], total, odd) <= 20)
    ensures lengths.Some? ==> |lengths.value| == |costs|
                              && forall i :: 0 <= i < |costs| ==> lengths.value[i] == Filled(costs[i], total, odd)
    ensures total == SumSeq(costs) && total > 0.0 && (forall i :: 0 <= i < |costs| ==> costs[i] >= 0.0) ==>
              lengths.Some? && 20 - |costs| < Total(lengths.value) <= 20
  {
    var bars := [];
    for i := 0 to |costs|
      invariant |bars| == i
      invariant forall j :: 0 <= j < i ==>
                  0 <= bars[j] <= DASHBOARD_CELLS && bars[j] == Filled(costs[j], total, odd)
    {
      var barLen := if total == 0.0 then odd(costs[i]) else Trunc(costs[i] / total * 20.0);
      if barLen < 0 || 20 - barLen < 0 {
        MakesUpTotal(costs, total, odd, i);
        return None;
      }
      bars := bars + [barLen];
    }
    if total == SumSeq(costs) && total > 0.0 && forall i :: 0 <= i < |costs| ==> costs[i] >= 0.0 {
      AreLengths(costs, total, odd, bars);
      BarsApportion(costs, DASHBOARD_CELLS);
    }
    return Some(bars);
  }

  lemma MakesUpTotal(costs: seq<real>, total: real, odd: real -> int, i: nat)
    requires i < |costs|
    ensures total == SumSeq(costs) && total > 0.0 && (forall j :: 0 <= j < |costs| ==> costs[j] >= 0.0) ==>
              0 <= Filled(costs[i], total, odd) <= DASHBOARD_CELLS
  {
    if total == SumSeq(costs) && total > 0.0 && forall j :: 0 <= j < |costs| ==> costs[j] >= 0.0 {
      BarsApportion(costs, DASHBOARD_CELLS);
      LengthsAt(costs, total, DASHBOARD_CELLS, i);
    }
  }

  lemma AreLengths(costs: seq<real>, total: real, odd: real -> int, bars: seq<int>)
    requires total != 0.0 && |bars| == |costs|
    requires forall i :: 0 <= i < |costs| ==> bars[i] == Filled(costs[i], total, odd)
    ensures bars == Lengths(costs, total, DASHBOARD_CELLS)
  {
    forall i | 0 <= i < |costs|
      ensures |Lengths(costs, total, DASHBOARD_CELLS)| == |costs|
      ensures bars[i] == Lengths(costs, total, DASHBOARD_CELLS)[i]
    {
      LengthsAt(costs, total, DASHBOARD_CELLS, i);
    }
    assert costs == [] ==> Lengths(costs, total, DASHBOARD_CELLS) == [];
  }

  /** buildBar of the weekly digest: ten cells, the first ones filled. */
  method BuildBar(value: real, total: real) returns (bar: string)
    ensures |bar| == 10
    ensures forall i :: 0 <= i < 10 ==>
              bar[i] == if total != 0.0 && i < Trunc(value / total * 10.0) then '#' else '.'
  {
    if total == 0.0 {
      return "..........";
    }
    var pct := value / total;
    var filled := Trunc(pct * 10.0);
    bar := "";
    for i := 0 to 10
      invariant |bar| == i
      invariant forall j :: 0 <= j < i ==> bar[j] == if j < filled then '#' else '.'
    {
      bar := bar + if i < filled then "#" else ".";
    }
  }
}
