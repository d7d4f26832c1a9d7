/** Worked portfolios: the report each derivation gives for a few concrete inputs. */
module Scenarios {
  import opened Types
  import opened Yields
  import opened Aggregation

  function Holding(id: string, category: AssetCategory, amount: real, monthlyGain: real, totalGain: real): AssetPosition {
    AssetPosition(id, id, category, amount, monthlyGain, totalGain)
  }

  /** One bond of 100000 with gains 1000 and 5000: the totals are its own numbers,
      the monthly yield is 1000 over a base of 99000, the bond bucket holds the
      whole portfolio and every other bucket stays zero. */
  lemma SingleBond(c: AssetCategory)
    ensures var ps := [Holding("b", Bond, 100000.0, 1000.0, 5000.0)];
      var stats := CategoryStatsOf(ps, Total(ps, Amount));
      && Total(ps, Amount) == 100000.0 && Total(ps, MonthlyGain) == 1000.0 && Total(ps, TotalGain) == 5000.0
      && MonthlyYield(ps) == Finite(1000.0 / 99000.0 * 100.0)
      && stats[Bond].percentage == 100.0 && stats[Bond].count == 1
      && (c != Bond ==> stats[c] == ZeroStat)
  {
    var p := Holding("b", Bond, 100000.0, 1000.0, 5000.0);
    var ps := [p];
    TotalSmall(p, Amount);
    TotalSmall(p, MonthlyGain);
    TotalSmall(p, TotalGain);
    var t := Total(ps, Amount);
    assert Group(ps, Bond) == ps by {
      GroupSnoc([], p, Bond);
    }
    StatIsRollup(ps, Bond, t);
    if c != Bond {
      EmptyCategoryStaysZero(ps, c, t);
    }
  }

  /** The empty portfolio: zero totals, zero yields, zero shares and no chart slices. */
  lemma EmptyPortfolio(c: AssetCategory, m: Measure)
    ensures Total([], m) == 0.0
    ensures MonthlyYield([]) == Finite(0.0) && TotalYield([]) == Finite(0.0)
    ensures CategoryStatsOf([], 0.0)[c] == ZeroStat
    ensures PieData(CategoryStatsOf([], 0.0)) == []
  {
    EmptyCategoryStaysZero([], c, 0.0);
    var stats := CategoryStatsOf([], 0.0);
    forall d | d in stats ensures stats[d].amount <= 0.0 {
      EmptyCategoryStaysZero([], d, 0.0);
    }
    NothingToChart(stats, 0);
  }

  /** Two positions of one category: the bucket adds them up and its yield is
      taken on the summed numbers, 300 over a base of 79700. */
  lemma TwoInOneCategory()
    ensures var ps := [Holding("x", Stock, 50000.0, 500.0, 0.0), Holding("y", Stock, 30000.0, -200.0, 0.0)];
      var s := CategoryStatsOf(ps, Total(ps, Amount))[Stock];
      && s.amount == 80000.0 && s.monthlyGain == 300.0 && s.count == 2
      && CategoryMonthlyYield(s) == Finite(300.0 / 79700.0 * 100.0)
  {
    var p := Holding("x", Stock, 50000.0, 500.0, 0.0);
    var q := Holding("y", Stock, 30000.0, -200.0, 0.0);
    var ps := [p, q];
    assert ps == [p] + [q];
    assert Accumulated(ps, Stock) == CategoryStat(80000.0, 300.0, 0.0, 0.0, 2) by {
      AccumulatedSnoc([], p, Stock);
      AccumulatedSnoc([p], q, Stock);
      assert [] + [p] == [p];
    }
    StatIsRollup(ps, Stock, Total(ps, Amount));
  }

  /** A holding with nothing in it: its yield is 0, and it is still counted. */
  lemma EmptyHolding()
    ensures var p := Holding("z", Cash, 0.0, 0.0, 0.0);
      && ItemMonthlyYield(p) == Finite(0.0)
      && CategoryStatsOf([p], 0.0)[Cash].count == 1
  {
    var p := Holding("z", Cash, 0.0, 0.0, 0.0);
    assert Accumulated([p], Cash).count == 1 by {
      AccumulatedSnoc([], p, Cash);
      assert [] + [p] == [p];
    }
    StatIsRollup([p], Cash, 0.0);
  }
}
