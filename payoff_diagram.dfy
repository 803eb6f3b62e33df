/** The payoff-diagram script of `payoff_diagram.py`: a fixed spot grid, a
    fixed four-asset portfolio, and the loop that adds every asset's payoff
    vector into the total. */
module PayoffDiagram {
  import opened Vectors
  import Options
  import Validation
  import Bonds
  import Text
  import opened Portfolio

  /** `spot_range = np.linspace(0, 50, 11)`. */
  function SpotRange(): (r: seq<real>)
    ensures r == [0.0, 5.0, 10.0, 15.0, 20.0, 25.0, 30.0, 35.0, 40.0, 45.0, 50.0]
  {
    Linspace(0.0, 50.0, 11)
  }

  /** The loop over the portfolio: each asset's payoff vector is appended to
      `payoffs` and added in place into `total_payoff`, which starts at zero. */
  method AccumulatePayoffs(portfolio: seq<Asset>, spotRange: seq<real>)
    returns (payoffs: seq<seq<real>>, totalPayoff: seq<real>)
    ensures |payoffs| == |portfolio|
    ensures forall i :: 0 <= i < |portfolio| ==> payoffs[i] == Payoff(portfolio[i], spotRange)
    ensures |totalPayoff| == |spotRange|
    ensures forall i :: 0 <= i < |payoffs| ==> |payoffs[i]| == |spotRange|
    ensures forall j :: 0 <= j < |spotRange| ==> totalPayoff[j] == ColumnSum(payoffs, j)
    ensures forall j :: 0 <= j < |spotRange| ==> totalPayoff[j] == SumAt(portfolio, spotRange[j])
  {
    var total := ZerosLike(|spotRange|);
    payoffs := [];
    for i := 0 to |portfolio|
      invariant payoffs == PayoffTable(portfolio[..i], spotRange)
      invariant forall j :: 0 <= j < total.Length ==> total[j] == SumAt(portfolio[..i], spotRange[j])
    {
      var payoff := Payoff(portfolio[i], spotRange);
      payoffs := payoffs + [payoff];
      ghost var before := total[..];
      AddInto(total, payoff);
      SumAtExtend(portfolio, i, spotRange, before, total[..]);
    }
    assert portfolio[..|portfolio|] == portfolio;
    totalPayoff := total[..];
    ColumnSumsOfPayoffs(portfolio, spotRange, payoffs);
  }

  /** The portfolio the script builds: a debt of 10 (a bond of face value
      -10), a long put struck at 30, a short call struck at 30 and a short
      call struck at 20; the options keep the constructor's defaults. */
  function Scenario(): seq<Asset> {
    [ BondAsset(Bonds.Bond(-10.0, 1)),
      OptionAsset(Options.Option(Options.Put, 30.0, 100.0, 1.0, 0.12, 0.20, 1)),
      OptionAsset(Options.Option(Options.Call, 30.0, 100.0, 1.0, 0.12, 0.20, -1)),
      OptionAsset(Options.Option(Options.Call, 20.0, 100.0, 1.0, 0.12, 0.20, -1)) ]
  }

  /** At any spot price the scenario pays `20 - s` up to 20 and `40 - 2s`
      beyond: it never rises as the spot price rises. */
  lemma ScenarioPayoffAt(s: real)
    ensures SumAt(Scenario(), s) == if s <= 20.0 then 20.0 - s else 40.0 - 2.0 * s
  {
    var p := Scenario();
    var put, call30, call20 := p[1].option, p[2].option, p[3].option;
    assert p[..3][..2] == p[..2] && p[..2][..1] == p[..1] && p[..1][..0] == [];
    assert SumAt(p[..1], s) == -10.0;
    assert SumAt(p[..2], s) == -10.0 + Options.PayoffAt(put, s);
    assert SumAt(p[..3], s) == SumAt(p[..2], s) + Options.PayoffAt(call30, s);
    assert SumAt(p, s) == SumAt(p[..3], s) + Options.PayoffAt(call20, s);
    assert Options.PayoffAt(put, s) == if s < 30.0 then 30.0 - s else 0.0;
    assert Options.PayoffAt(call30, s) == if s > 30.0 then 30.0 - s else 0.0;
    assert Options.PayoffAt(call20, s) == if s > 20.0 then 20.0 - s else 0.0;
  }

  lemma ScenarioNonIncreasing(s: real, t: real)
    requires s <= t
    ensures SumAt(Scenario(), t) <= SumAt(Scenario(), s)
  {
    ScenarioPayoffAt(s);
    ScenarioPayoffAt(t);
  }

  /** The three option constructions of the script all pass validation and
      build the options of the scenario. */
  lemma ScenarioOptionsBuild()
    ensures Options.NewOption("put", strike := 30.0, quantity := 1) == Validation.Ok(Scenario()[1].option)
    ensures Options.NewOption("call", strike := 30.0, quantity := -1) == Validation.Ok(Scenario()[2].option)
    ensures Options.NewOption("call", strike := 20.0, quantity := -1) == Validation.Ok(Scenario()[3].option)
  {
    Text.LowerOfLowerCase("put");
    Text.LowerOfLowerCase("call");
  }

  /** The scenario's total over the grid, point by point: 20 at 0, 0 at 20,
      -60 at 50, and never rising from one grid point to the next. */
  lemma ScenarioOnGrid(total: seq<real>)
    requires |total| == |SpotRange()|
    requires forall j :: 0 <= j < |total| ==> total[j] == SumAt(Scenario(), SpotRange()[j])
    ensures total == [20.0, 15.0, 10.0, 5.0, 0.0, -10.0, -20.0, -30.0, -40.0, -50.0, -60.0]
    ensures NonIncreasing(total)
  {
    var grid := SpotRange();
    ScenarioPayoffAt(0.0);
    ScenarioPayoffAt(5.0);
    ScenarioPayoffAt(10.0);
    ScenarioPayoffAt(15.0);
    ScenarioPayoffAt(20.0);
    ScenarioPayoffAt(25.0);
    ScenarioPayoffAt(30.0);
    ScenarioPayoffAt(35.0);
    ScenarioPayoffAt(40.0);
    ScenarioPayoffAt(45.0);
    ScenarioPayoffAt(50.0);
    assert total[0] == SumAt(Scenario(), grid[0]);
    assert total[1] == SumAt(Scenario(), grid[1]);
    assert total[2] == SumAt(Scenario(), grid[2]);
    assert total[3] == SumAt(Scenario(), grid[3]);
    assert total[4] == SumAt(Scenario(), grid[4]);
    assert total[5] == SumAt(Scenario(), grid[5]);
    assert total[6] == SumAt(Scenario(), grid[6]);
    assert total[7] == SumAt(Scenario(), grid[7]);
    assert total[8] == SumAt(Scenario(), grid[8]);
    assert total[9] == SumAt(Scenario(), grid[9]);
    assert total[10] == SumAt(Scenario(), grid[10]);
    NonIncreasingBySteps(total);
  }

  /** The whole script: the grid, the portfolio built by appending in
      order, and the loop. The total payoff over the grid is 20 at 0, 0 at
      20, -60 at 50, and never rises from one grid point to the next. */
  method Script() returns (spotRange: seq<real>, portfolio: seq<Asset>,
                           payoffs: seq<seq<real>>, totalPayoff: seq<real>)
    ensures spotRange == [0.0, 5.0, 10.0, 15.0, 20.0, 25.0, 30.0, 35.0, 40.0, 45.0, 50.0]
    ensures portfolio == Scenario()
    ensures |payoffs| == 4
    ensures totalPayoff == [20.0, 15.0, 10.0, 5.0, 0.0, -10.0, -20.0, -30.0, -40.0, -50.0, -60.0]
    ensures NonIncreasing(totalPayoff)
  {
    spotRange := SpotRange();
    portfolio := [];
    var put := Options.NewOption("put", strike := 30.0, quantity := 1);
    var shortCall30 := Options.NewOption("call", strike := 30.0, quantity := -1);
    var shortCall20 := Options.NewOption("call", strike := 20.0, quantity := -1);
    // every argument passes validation, so none of these raises
    ScenarioOptionsBuild();
    portfolio := portfolio + [BondAsset(Bonds.NewBond(-10.0))];
    portfolio := portfolio + [OptionAsset(put.value)];
    portfolio := portfolio + [OptionAsset(shortCall30.value)];
    portfolio := portfolio + [OptionAsset(shortCall20.value)];
    assert portfolio == Scenario();
    payoffs, totalPayoff := AccumulatePayoffs(portfolio, spotRange);
    ScenarioOnGrid(totalPayoff);
  }
}
