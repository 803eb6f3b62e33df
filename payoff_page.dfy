/** The payoff-diagram page of `pages/2_Payoff_Diagram.py`: for a non-empty
    portfolio, the total payoff over 21 spot prices from 90 to 110; for an
    empty one, only a notice. Plotting is not modelled. */
module PayoffPage {
  import opened Vectors
  import opened Portfolio

  /** The settings `spot_range = [90, 110]` and `num_points = 21`. */
  const SpotLow: real := 90.0
  const SpotHigh: real := 110.0
  const NumPoints: nat := 21

  /** What the page shows. */
  datatype View =
    | Info(message: string)
    | Chart(spotRangeArray: seq<real>, totalPayoff: seq<real>)

  /** `np.linspace(spot_range[0], spot_range[1], num_points)`: the whole
      numbers from 90 to 110, one apart. */
  function Grid(): (r: seq<real>)
    ensures |r| == NumPoints
    ensures forall j :: 0 <= j < |r| ==> r[j] == SpotLow + j as real
  {
    var r := Linspace(SpotLow, SpotHigh, NumPoints);
    LinspaceAt(SpotLow, SpotHigh, NumPoints);
    r
  }

  /** Entry `j` of an evenly spaced grid is `j` steps past its start. */
  lemma {:induction false} LinspaceAt(start: real, stop: real, num: nat)
    requires num >= 2
    ensures forall j :: 0 <= j < num ==>
      Linspace(start, stop, num)[j] == start + j as real * ((stop - start) / (num - 1) as real)
  {
    var r, step := Linspace(start, stop, num), (stop - start) / (num - 1) as real;
    for j := 0 to num
      invariant forall k :: 0 <= k < j ==> r[k] == start + k as real * step
    {
      if j > 0 {
        assert r[j] - r[j - 1] == step;
      }
    }
  }

  /** `total_payoff = np.zeros_like(...)`, then `total_payoff += payoff` for
      each asset in turn: the total is the portfolio's payoff at every grid
      point. */
  method AccumulateTotal(portfolio: seq<Asset>, grid: seq<real>) returns (totalPayoff: seq<real>)
    ensures |totalPayoff| == |grid|
    ensures forall j :: 0 <= j < |grid| ==> totalPayoff[j] == SumAt(portfolio, grid[j])
  {
    var total := ZerosLike(|grid|);
    for i := 0 to |portfolio|
      invariant forall j :: 0 <= j < total.Length ==> total[j] == SumAt(portfolio[..i], grid[j])
    {
      var payoff := Payoff(portfolio[i], grid);
      ghost var before := total[..];
      AddInto(total, payoff);
      SumAtExtend(portfolio, i, grid, before, total[..]);
    }
    assert portfolio[..|portfolio|] == portfolio;
    totalPayoff := total[..];
  }

  /** The page: a chart of the total payoff when the portfolio holds
      anything, otherwise the notice "No portfolio loaded.". */
  method Render(portfolio: seq<Asset>) returns (view: View)
    ensures view.Info? <==> |portfolio| == 0
    ensures view.Info? ==> view.message == "No portfolio loaded."
    ensures view.Chart? ==>
      && |view.spotRangeArray| == NumPoints
      && |view.totalPayoff| == NumPoints
      && forall j :: 0 <= j < NumPoints ==>
           view.spotRangeArray[j] == SpotLow + j as real &&
           view.totalPayoff[j] == SumAt(portfolio, SpotLow + j as real)
  {
    if |portfolio| > 0 {
      var spotRangeArray := Grid();
      var totalPayoff := AccumulateTotal(portfolio, spotRangeArray);
      view := Chart(spotRangeArray, totalPayoff);
    } else {
      view := Info("No portfolio loaded.");
    }
  }
}
