/** The report derivation: grand totals, per-category grouping and rollups,
    the portfolio, category and item yields, and the chart series. */
module Aggregation {
  import opened Types
  import opened Yields
  import opened Formatting

  // ---------------------------------------------------------------------------
  // Grand totals
  // ---------------------------------------------------------------------------

  /** The three numbers a position carries. */
  datatype Measure = Amount | MonthlyGain | TotalGain

  function Of(p: AssetPosition, m: Measure): real {
    match m
    case Amount => p.amount
    case MonthlyGain => p.monthlyGain
    case TotalGain => p.totalGain
  }

  /** `positions.reduce((acc, curr) => acc + curr.<m>, 0)`, folded from the left. */
  function Total(ps: seq<AssetPosition>, m: Measure): (r: real)
    ensures ps == [] ==> r == 0.0
    decreases |ps|
  {
    if ps == [] then 0.0 else Total(ps[..|ps| - 1], m) + Of(ps[|ps| - 1], m)
  }

  /** A total of values none of which is negative is not negative. */
  lemma {:induction false} TotalNonNegative(ps: seq<AssetPosition>, m: Measure)
    requires forall i :: 0 <= i < |ps| ==> Of(ps[i], m) >= 0.0
    ensures Total(ps, m) >= 0.0
    decreases |ps|
  {
    if ps != [] {
      var init := ps[..|ps| - 1];
      assert forall i :: 0 <= i < |init| ==> Of(init[i], m) >= 0.0 by {
        forall i | 0 <= i < |init| ensures Of(init[i], m) >= 0.0 {
          assert init[i] == ps[i];
        }
      }
      TotalNonNegative(init, m);
    }
  }

  /** Folding one more position adds its value. */
  lemma TotalSnoc(ps: seq<AssetPosition>, p: AssetPosition, m: Measure)
    ensures Total(ps + [p], m) == Total(ps, m) + Of(p, m)
  {
    assert (ps + [p])[..|ps|] == ps;
  }

  /** The totals are additive: the total of two lists joined is the sum of their totals. */
  lemma {:induction false} TotalAppend(a: seq<AssetPosition>, b: seq<AssetPosition>, m: Measure)
    ensures Total(a + b, m) == Total(a, m) + Total(b, m)
    decreases |b|
  {
    if b == [] {
      assert a + b == a;
    } else {
      var init := b[..|b| - 1];
      var last := b[|b| - 1];
      assert b == init + [last];
      assert a + b == (a + init) + [last];
      TotalAppend(a, init, m);
      TotalSnoc(a + init, last, m);
      TotalSnoc(init, last, m);
    }
  }

  /** An empty portfolio totals to zero on every measure; a single position totals to its own value. */
  lemma TotalSmall(p: AssetPosition, m: Measure)
    ensures Total([], m) == 0.0
    ensures Total([p], m) == Of(p, m)
  {
    TotalSnoc([], p, m);
  }

  // ---------------------------------------------------------------------------
  // Per-category grouping
  // ---------------------------------------------------------------------------

  /** `positions.filter(p => p.category === c)`. */
  function Group(ps: seq<AssetPosition>, c: AssetCategory): (g: seq<AssetPosition>)
    ensures |g| <= |ps|
    decreases |ps|
  {
    if ps == [] then []
    else
      var init := ps[..|ps| - 1];
      var last := ps[|ps| - 1];
      assert ps == init + [last];
      var g := Group(init, c);
      if last.category == c then g + [last] else g
  }

  /** The group of `c` holds exactly the input's positions of category `c`. */
  lemma {:induction false} GroupMembers(ps: seq<AssetPosition>, c: AssetCategory)
    ensures forall p :: p in Group(ps, c) <==> p in ps && p.category == c
    decreases |ps|
  {
    if ps != [] {
      var init := ps[..|ps| - 1];
      var last := ps[|ps| - 1];
      GroupMembers(init, c);
      SplitLast([], ps);
      GroupSnoc(init, last, c);
    }
  }

  lemma GroupSnoc(ps: seq<AssetPosition>, p: AssetPosition, c: AssetCategory)
    ensures Group(ps + [p], c) == if p.category == c then Group(ps, c) + [p] else Group(ps, c)
  {
    assert (ps + [p])[..|ps|] == ps;
  }

  /** Filtering distributes over concatenation, so the positions of one category
      keep their original relative order. */
  lemma {:induction false} GroupAppend(a: seq<AssetPosition>, b: seq<AssetPosition>, c: AssetCategory)
    ensures Group(a + b, c) == Group(a, c) + Group(b, c)
    decreases |b|
  {
    if b == [] {
      assert a + b == a;
    } else {
      var init := b[..|b| - 1];
      var last := b[|b| - 1];
      SplitLast(a, b);
      GroupAppend(a, init, c);
      GroupSnoc(a + init, last, c);
      GroupSnoc(init, last, c);
      if last.category == c {
        assert Group(a, c) + Group(init, c) + [last] == Group(a, c) + (Group(init, c) + [last]);
      }
    }
  }

  /** A non-empty list is its prefix followed by its last element, also after a prefix `a`. */
  lemma SplitLast<T>(a: seq<T>, b: seq<T>)
    requires b != []
    ensures b == b[..|b| - 1] + [b[|b| - 1]]
    ensures a + b == (a + b[..|b| - 1]) + [b[|b| - 1]]
  {
  }

  /** Each position occurs in its category's group exactly as often as in the
      input, and in no other group. */
  lemma {:induction false} GroupMultiplicity(ps: seq<AssetPosition>, c: AssetCategory, p: AssetPosition)
    ensures multiset(Group(ps, c))[p] == if p.category == c then multiset(ps)[p] else 0
    decreases |ps|
  {
    if ps != [] {
      var init := ps[..|ps| - 1];
      var last := ps[|ps| - 1];
      assert ps == init + [last];
      GroupMultiplicity(init, c, p);
      GroupSnoc(init, last, c);
    }
  }

  /** `groupedPositions`: one entry per category key, each the filtered list. */
  function GroupedPositions(ps: seq<AssetPosition>): (grouped: map<AssetCategory, seq<AssetPosition>>)
    ensures forall c: AssetCategory :: c in grouped
  {
    var grouped := map c | c in CategoryKeys :: Group(ps, c);
    assert forall c: AssetCategory :: c in grouped by {
      forall c: AssetCategory ensures c in grouped {
        var i := KeyIndex(c);
      }
    }
    grouped
  }

  /** Sum of the list lengths of `grouped` over `keys`. */
  function GroupSizes(grouped: map<AssetCategory, seq<AssetPosition>>, keys: seq<AssetCategory>): int {
    if keys == [] then 0
    else (if keys[0] in grouped then |grouped[keys[0]]| else 0) + GroupSizes(grouped, keys[1..])
  }

  /** All the lists of `grouped` over `keys`, pooled. */
  function GroupUnion(grouped: map<AssetCategory, seq<AssetPosition>>, keys: seq<AssetCategory>): multiset<AssetPosition> {
    if keys == [] then multiset{}
    else (if keys[0] in grouped then multiset(grouped[keys[0]]) else multiset{}) + GroupUnion(grouped, keys[1..])
  }

  ghost predicate Distinct(keys: seq<AssetCategory>) {
    forall i, j :: 0 <= i < j < |keys| ==> keys[i] != keys[j]
  }

  /** The head of a list of distinct keys does not recur in its tail. */
  lemma DistinctTail(keys: seq<AssetCategory>)
    requires Distinct(keys) && keys != []
    ensures Distinct(keys[1..])
    ensures keys[0] !in keys[1..]
    ensures forall c :: c in keys <==> c == keys[0] || c in keys[1..]
  {
    forall j | 0 <= j < |keys[1..]| ensures keys[1..][j] != keys[0] {
      assert keys[1..][j] == keys[j + 1];
    }
    assert keys == [keys[0]] + keys[1..];
  }

  lemma {:induction false} GroupedEmpty(keys: seq<AssetCategory>)
    ensures GroupSizes(GroupedPositions([]), keys) == 0
    ensures GroupUnion(GroupedPositions([]), keys) == multiset{}
  {
    if keys != [] {
      GroupedEmpty(keys[1..]);
    }
  }

  lemma {:induction false} GroupedSnoc(ps: seq<AssetPosition>, p: AssetPosition, keys: seq<AssetCategory>)
    requires Distinct(keys)
    ensures GroupSizes(GroupedPositions(ps + [p]), keys)
         == GroupSizes(GroupedPositions(ps), keys) + (if p.category in keys then 1 else 0)
    ensures GroupUnion(GroupedPositions(ps + [p]), keys)
         == GroupUnion(GroupedPositions(ps), keys) + (if p.category in keys then multiset{p} else multiset{})
  {
    if keys != [] {
      var k := keys[0];
      DistinctTail(keys);
      GroupSnoc(ps, p, k);
      GroupedSnoc(ps, p, keys[1..]);
    }
  }

  /** The groups partition the portfolio: their lengths add up to the number of
      positions, and pooled together they are exactly the input, so nothing is
      lost or duplicated. */
  lemma {:induction false} GroupedPositionsPartition(ps: seq<AssetPosition>)
    ensures GroupSizes(GroupedPositions(ps), CategoryKeys) == |ps|
    ensures GroupUnion(GroupedPositions(ps), CategoryKeys) == multiset(ps)
    decreases |ps|
  {
    CategoryKeysEnumerate();
    if ps == [] {
      GroupedEmpty(CategoryKeys);
    } else {
      var init := ps[..|ps| - 1];
      var last := ps[|ps| - 1];
      assert ps == init + [last];
      GroupedPositionsPartition(init);
      GroupedSnoc(init, last, CategoryKeys);
    }
  }

  // ---------------------------------------------------------------------------
  // Category rollups (`categoryStats`)
  // ---------------------------------------------------------------------------

  datatype CategoryStat = CategoryStat(amount: real, monthlyGain: real, totalGain: real, percentage: real, count: nat)

  /** The seed every category starts from. */
  const ZeroStat := CategoryStat(0.0, 0.0, 0.0, 0.0, 0)

  function StatOf(s: CategoryStat, m: Measure): real {
    match m
    case Amount => s.amount
    case MonthlyGain => s.monthlyGain
    case TotalGain => s.totalGain
  }

  /** Share of the portfolio, set only when the portfolio total is positive. */
  function Share(amount: real, totalAmount: real): real {
    if totalAmount > 0.0 then amount / totalAmount * 100.0 else 0.0
  }

  /** A bucket after the summing pass: sums and count over the category's positions. */
  function Accumulated(ps: seq<AssetPosition>, c: AssetCategory): CategoryStat {
    var g := Group(ps, c);
    CategoryStat(Total(g, Amount), Total(g, MonthlyGain), Total(g, TotalGain), 0.0, |g|)
  }

  /** A bucket after the percentage pass. */
  function Rollup(ps: seq<AssetPosition>, c: AssetCategory, totalAmount: real): CategoryStat {
    var a := Accumulated(ps, c);
    a.(percentage := Share(a.amount, totalAmount))
  }

  /** What `categoryStats` holds for a portfolio and the total its rollup is measured against. */
  function CategoryStatsOf(ps: seq<AssetPosition>, totalAmount: real): map<AssetCategory, CategoryStat> {
    map c | c in CategoryKeys :: Rollup(ps, c, totalAmount)
  }

  lemma AccumulatedSnoc(ps: seq<AssetPosition>, p: AssetPosition, c: AssetCategory)
    ensures Accumulated(ps + [p], c)
         == if p.category == c then
              var s := Accumulated(ps, c);
              s.(amount := s.amount + p.amount, monthlyGain := s.monthlyGain + p.monthlyGain,
                 totalGain := s.totalGain + p.totalGain, count := s.count + 1)
            else Accumulated(ps, c)
  {
    GroupSnoc(ps, p, c);
    var g := Group(ps, c);
    TotalSnoc(g, p, Amount);
    TotalSnoc(g, p, MonthlyGain);
    TotalSnoc(g, p, TotalGain);
  }

  /** `categoryStats`: seed every category with zeros, add each position into its
      category's bucket, then set the shares when the total is positive. */
  method ComputeCategoryStats(positions: seq<AssetPosition>, totalAmount: real)
    returns (stats: map<AssetCategory, CategoryStat>)
    ensures stats == CategoryStatsOf(positions, totalAmount)
  {
    var seeded := SeedStats();
    var summed := SumUp(seeded, positions);
    stats := SetPercentages(summed, totalAmount);
    forall c: AssetCategory ensures c in CategoryStatsOf(positions, totalAmount)
      && stats[c] == CategoryStatsOf(positions, totalAmount)[c] {
      StatIsRollup(positions, c, totalAmount);
    }
  }

  /** Initialize: every category key gets a zero bucket. */
  method SeedStats() returns (stats: map<AssetCategory, CategoryStat>)
    ensures forall c: AssetCategory :: c in stats && stats[c] == ZeroStat
  {
    stats := map[];
    for k := 0 to |CategoryKeys|
      invariant forall c: AssetCategory :: c in stats <==> KeyIndex(c) < k
      invariant forall c :: c in stats ==> stats[c] == ZeroStat
    {
      KeyIndexInverse(k);
      stats := stats[CategoryKeys[k] := ZeroStat];
    }
  }

  /** Sum up: each position's numbers are added into its category's bucket. */
  method SumUp(seeded: map<AssetCategory, CategoryStat>, positions: seq<AssetPosition>)
    returns (stats: map<AssetCategory, CategoryStat>)
    requires forall c: AssetCategory :: c in seeded && seeded[c] == ZeroStat
    ensures forall c: AssetCategory :: c in stats && stats[c] == Accumulated(positions, c)
  {
    stats := seeded;
    for i := 0 to |positions|
      invariant forall c: AssetCategory :: c in stats && stats[c] == Accumulated(positions[..i], c)
    {
      var p := positions[i];
      if p.category in stats {
        var s := stats[p.category];
        stats := stats[p.category := s.(amount := s.amount + p.amount,
                                         monthlyGain := s.monthlyGain + p.monthlyGain,
                                         totalGain := s.totalGain + p.totalGain,
                                         count := s.count + 1)];
      }
      assert positions[..i + 1] == positions[..i] + [p];
      forall c: AssetCategory ensures stats[c] == Accumulated(positions[..i + 1], c) {
        AccumulatedSnoc(positions[..i], p, c);
      }
    }
    assert positions[..|positions|] == positions;
  }

  /** Calculate percentage: with a positive total, each bucket's share of it is set. */
  method SetPercentages(summed: map<AssetCategory, CategoryStat>, totalAmount: real)
    returns (stats: map<AssetCategory, CategoryStat>)
    requires forall c: AssetCategory :: c in summed
    ensures forall c: AssetCategory :: c in stats && stats[c] == WithShare(summed[c], totalAmount)
  {
    stats := summed;
    for k := 0 to |CategoryKeys|
      invariant forall c: AssetCategory :: c in stats
      invariant forall c: AssetCategory ::
        stats[c] == (if KeyIndex(c) < k then WithShare(summed[c], totalAmount) else summed[c])
    {
      var key := CategoryKeys[k];
      KeyIndexInverse(k);
      if totalAmount > 0.0 {
        stats := stats[key := stats[key].(percentage := stats[key].amount / totalAmount * 100.0)];
      }
    }
  }

  /** A summed bucket after the percentage pass. */
  function WithShare(s: CategoryStat, totalAmount: real): CategoryStat {
    if totalAmount > 0.0 then s.(percentage := s.amount / totalAmount * 100.0) else s
  }

  lemma StatIsRollup(ps: seq<AssetPosition>, c: AssetCategory, totalAmount: real)
    ensures c in CategoryStatsOf(ps, totalAmount)
    ensures CategoryStatsOf(ps, totalAmount)[c] == Rollup(ps, c, totalAmount)
    ensures Rollup(ps, c, totalAmount) == WithShare(Accumulated(ps, c), totalAmount)
  {
    var i := KeyIndex(c);
  }

  /** Every category has an entry, and one without positions keeps all zeros. */
  lemma EmptyCategoryStaysZero(ps: seq<AssetPosition>, c: AssetCategory, totalAmount: real)
    requires forall i :: 0 <= i < |ps| ==> ps[i].category != c
    ensures c in CategoryStatsOf(ps, totalAmount)
    ensures CategoryStatsOf(ps, totalAmount)[c] == ZeroStat
  {
    StatIsRollup(ps, c, totalAmount);
    assert Accumulated(ps, c) == ZeroStat by {
      GroupOfAbsent(ps, c);
    }
    assert Share(0.0, totalAmount) == 0.0;
  }

  lemma {:induction false} GroupOfAbsent(ps: seq<AssetPosition>, c: AssetCategory)
    requires forall i :: 0 <= i < |ps| ==> ps[i].category != c
    ensures Group(ps, c) == []
    decreases |ps|
  {
    if ps != [] {
      GroupOfAbsent(ps[..|ps| - 1], c);
    }
  }

  /** Sum of one measure over the buckets of `keys`. */
  function SumStats(stats: map<AssetCategory, CategoryStat>, keys: seq<AssetCategory>, m: Measure): real {
    if keys == [] then 0.0
    else (if keys[0] in stats then StatOf(stats[keys[0]], m) else 0.0) + SumStats(stats, keys[1..], m)
  }

  /** Sum of the counts over the buckets of `keys`. */
  function SumCounts(stats: map<AssetCategory, CategoryStat>, keys: seq<AssetCategory>): int {
    if keys == [] then 0
    else (if keys[0] in stats then stats[keys[0]].count else 0) + SumCounts(stats, keys[1..])
  }

  /** Sum of the shares over the buckets of `keys`. */
  function SumShares(stats: map<AssetCategory, CategoryStat>, keys: seq<AssetCategory>): real {
    if keys == [] then 0.0
    else (if keys[0] in stats then stats[keys[0]].percentage else 0.0) + SumShares(stats, keys[1..])
  }

  lemma {:induction false} StatsOfEmpty(keys: seq<AssetCategory>, totalAmount: real, m: Measure)
    ensures SumStats(CategoryStatsOf([], totalAmount), keys, m) == 0.0
    ensures SumCounts(CategoryStatsOf([], totalAmount), keys) == 0
  {
    if keys != [] {
      StatsOfEmpty(keys[1..], totalAmount, m);
    }
  }

  lemma {:induction false} StatsSnoc(ps: seq<AssetPosition>, p: AssetPosition, keys: seq<AssetCategory>, totalAmount: real, m: Measure)
    requires Distinct(keys)
    ensures SumStats(CategoryStatsOf(ps + [p], totalAmount), keys, m)
         == SumStats(CategoryStatsOf(ps, totalAmount), keys, m) + (if p.category in keys then Of(p, m) else 0.0)
    ensures SumCounts(CategoryStatsOf(ps + [p], totalAmount), keys)
         == SumCounts(CategoryStatsOf(ps, totalAmount), keys) + (if p.category in keys then 1 else 0)
  {
    if keys != [] {
      var k := keys[0];
      DistinctTail(keys);
      BucketSnoc(ps, p, k, totalAmount, m);
      StatsSnoc(ps, p, keys[1..], totalAmount, m);
    }
  }

  /** One more position changes only its own category's bucket, by its own numbers. */
  lemma BucketSnoc(ps: seq<AssetPosition>, p: AssetPosition, k: AssetCategory, totalAmount: real, m: Measure)
    ensures k in CategoryStatsOf(ps, totalAmount) && k in CategoryStatsOf(ps + [p], totalAmount)
    ensures StatOf(CategoryStatsOf(ps + [p], totalAmount)[k], m)
         == StatOf(CategoryStatsOf(ps, totalAmount)[k], m) + (if p.category == k then Of(p, m) else 0.0)
    ensures CategoryStatsOf(ps + [p], totalAmount)[k].count
         == CategoryStatsOf(ps, totalAmount)[k].count + (if p.category == k then 1 else 0)
  {
    StatIsRollup(ps, k, totalAmount);
    StatIsRollup(ps + [p], k, totalAmount);
    AccumulatedSnoc(ps, p, k);
  }

  /** The per-category sums add up to the grand totals, and the counts to the
      number of positions. */
  lemma RollupsAddUp(ps: seq<AssetPosition>, totalAmount: real, m: Measure)
    ensures SumStats(CategoryStatsOf(ps, totalAmount), CategoryKeys, m) == Total(ps, m)
    ensures SumCounts(CategoryStatsOf(ps, totalAmount), CategoryKeys) == |ps|
  {
    CategoryKeysEnumerate();
    RollupsAddUpOver(ps, CategoryKeys, totalAmount, m);
  }

  /** The same, summed over any list that names every category once. */
  lemma {:induction false} RollupsAddUpOver(ps: seq<AssetPosition>, keys: seq<AssetCategory>, totalAmount: real, m: Measure)
    requires Distinct(keys) && forall c: AssetCategory :: c in keys
    ensures SumStats(CategoryStatsOf(ps, totalAmount), keys, m) == Total(ps, m)
    ensures SumCounts(CategoryStatsOf(ps, totalAmount), keys) == |ps|
    decreases |ps|
  {
    if ps == [] {
      StatsOfEmpty(keys, totalAmount, m);
    } else {
      var init := ps[..|ps| - 1];
      var last := ps[|ps| - 1];
      SplitLast([], ps);
      RollupsAddUpOver(init, keys, totalAmount, m);
      StatsSnoc(init, last, keys, totalAmount, m);
      TotalSnoc(init, last, m);
    }
  }

  /** Every bucket's share is its amount measured against `totalAmount`. */
  ghost predicate SharesMeasuredAgainst(stats: map<AssetCategory, CategoryStat>, totalAmount: real) {
    forall c :: c in stats ==> stats[c].percentage == Share(stats[c].amount, totalAmount)
  }

  /** The sum of the shares is the share of the summed amounts. */
  lemma {:induction false} SharesAdditive(stats: map<AssetCategory, CategoryStat>, keys: seq<AssetCategory>, totalAmount: real)
    requires SharesMeasuredAgainst(stats, totalAmount)
    ensures SumShares(stats, keys) == Share(SumStats(stats, keys, Amount), totalAmount)
  {
    if keys != [] {
      SharesAdditive(stats, keys[1..], totalAmount);
      var amount := if keys[0] in stats then stats[keys[0]].amount else 0.0;
      ShareOfSum(amount, SumStats(stats, keys[1..], Amount), totalAmount);
    }
  }

  lemma ShareOfSum(a: real, b: real, totalAmount: real)
    ensures Share(a + b, totalAmount) == Share(a, totalAmount) + Share(b, totalAmount)
  {
  }

  /** With a positive portfolio total the shares add up to 100. */
  lemma SharesSumToHundred(ps: seq<AssetPosition>)
    requires Total(ps, Amount) > 0.0
    ensures SumShares(CategoryStatsOf(ps, Total(ps, Amount)), CategoryKeys) == 100.0
  {
    var t := Total(ps, Amount);
    var stats := CategoryStatsOf(ps, t);
    assert SumShares(stats, CategoryKeys) == Share(SumStats(stats, CategoryKeys, Amount), t) by {
      RollupSharesMeasured(ps, t);
      SharesAdditive(stats, CategoryKeys, t);
    }
    assert SumStats(stats, CategoryKeys, Amount) == t by {
      RollupsAddUp(ps, t, Amount);
    }
    WholeShare(t);
  }

  lemma WholeShare(t: real)
    requires t > 0.0
    ensures Share(t, t) == 100.0
  {
  }

  lemma RollupSharesMeasured(ps: seq<AssetPosition>, totalAmount: real)
    ensures SharesMeasuredAgainst(CategoryStatsOf(ps, totalAmount), totalAmount)
  {
  }


  /** With a zero or negative portfolio total every share stays 0. */
  lemma {:induction false} SharesZeroUnlessPositive(ps: seq<AssetPosition>, keys: seq<AssetCategory>, totalAmount: real)
    requires totalAmount <= 0.0
    ensures SumShares(CategoryStatsOf(ps, totalAmount), keys) == 0.0
    ensures forall c :: c in CategoryStatsOf(ps, totalAmount) ==> CategoryStatsOf(ps, totalAmount)[c].percentage == 0.0
  {
    if keys != [] {
      SharesZeroUnlessPositive(ps, keys[1..], totalAmount);
    }
  }

  /** The rollup of a category summarises exactly the group `groupedPositions` lists for it. */
  lemma RollupDescribesGroup(ps: seq<AssetPosition>, c: AssetCategory, totalAmount: real)
    ensures var s := CategoryStatsOf(ps, totalAmount)[c];
            var g := GroupedPositions(ps)[c];
            && s.count == |g|
            && s.amount == Total(g, Amount)
            && s.monthlyGain == Total(g, MonthlyGain)
            && s.totalGain == Total(g, TotalGain)
  {
    var i := KeyIndex(c);
  }

  // ---------------------------------------------------------------------------
  // Yields
  // ---------------------------------------------------------------------------

  /** Portfolio monthly yield: 0 for a portfolio worth nothing, and otherwise a
      finite yield grows the starting value `amount - monthlyGain` back to the amount. */
  function MonthlyYield(ps: seq<AssetPosition>): (r: Ratio)
    ensures Total(ps, Amount) == 0.0 ==> r == Finite(0.0)
    ensures r.Finite? && Total(ps, Amount) != 0.0 ==>
      (Total(ps, Amount) - Total(ps, MonthlyGain)) * (1.0 + r.value / 100.0) == Total(ps, Amount)
  {
    ApproxYield(Total(ps, MonthlyGain), Total(ps, Amount))
  }

  /** Portfolio cumulative yield, on the starting value `amount - totalGain`. */
  function TotalYield(ps: seq<AssetPosition>): (r: Ratio)
    ensures Total(ps, Amount) == 0.0 ==> r == Finite(0.0)
    ensures r.Finite? && Total(ps, Amount) != 0.0 ==>
      (Total(ps, Amount) - Total(ps, TotalGain)) * (1.0 + r.value / 100.0) == Total(ps, Amount)
  {
    ApproxYield(Total(ps, TotalGain), Total(ps, Amount))
  }

  /** Monthly yield of one category, from its rollup. */
  function CategoryMonthlyYield(s: CategoryStat): (r: Ratio)
    ensures s.amount == 0.0 ==> r == Finite(0.0)
    ensures r.Finite? && s.amount != 0.0 ==> (s.amount - s.monthlyGain) * (1.0 + r.value / 100.0) == s.amount
  {
    ApproxYield(s.monthlyGain, s.amount)
  }

  /** Cumulative yield of one category, from its rollup. */
  function CategoryTotalYield(s: CategoryStat): (r: Ratio)
    ensures s.amount == 0.0 ==> r == Finite(0.0)
    ensures r.Finite? && s.amount != 0.0 ==> (s.amount - s.totalGain) * (1.0 + r.value / 100.0) == s.amount
  {
    ApproxYield(s.totalGain, s.amount)
  }

  /** Monthly yield of a single holding: the same formula and guard as the
      portfolio yield, applied to a portfolio of that one position. */
  function ItemMonthlyYield(p: AssetPosition): (r: Ratio)
    ensures r == MonthlyYield([p])
  {
    TotalSmall(p, MonthlyGain);
    TotalSmall(p, Amount);
    ApproxYield(p.monthlyGain, p.amount)
  }

  /** A category's yields are the portfolio yields of that category's group. */
  lemma CategoryYieldIsGroupYield(ps: seq<AssetPosition>, c: AssetCategory, totalAmount: real)
    ensures CategoryMonthlyYield(CategoryStatsOf(ps, totalAmount)[c]) == MonthlyYield(GroupedPositions(ps)[c])
    ensures CategoryTotalYield(CategoryStatsOf(ps, totalAmount)[c]) == TotalYield(GroupedPositions(ps)[c])
  {
    RollupDescribesGroup(ps, c, totalAmount);
  }

  // ---------------------------------------------------------------------------
  // Chart series (`pieData`)
  // ---------------------------------------------------------------------------

  /** Chart label of a category: its label cut at the first `基金`. */
  function ChartName(c: AssetCategory): (r: string)
    ensures r <= Label(c)
    ensures |r| == |Label(c)| || OccursAt(Label(c), "基金", |r|)
  {
    BeforeFirst(Label(c), "基金")
  }

  /** The two fund labels lose their `基金` suffix on the chart. */
  lemma ChartNameShortened(c: AssetCategory)
    requires c == AH_Fund || c == US_Fund
    ensures ChartName(c) == if c == AH_Fund then "A/H股" else "美股"
  {
    var s := Label(c);
    var n := if c == AH_Fund then 4 else 2;
    assert OccursAt(s, "基金", n);
    assert forall i :: 0 <= i < n ==> s[i] != '基';
    BeforeFirstAt(s, "基金", n);
  }

  /** The other labels hold no `基金` and are shown whole. */
  lemma ChartNameWhole(c: AssetCategory)
    requires c != AH_Fund && c != US_Fund
    ensures ChartName(c) == Label(c)
  {
    var s := Label(c);
    forall i: nat | i < |s| ensures !OccursAt(s, "基金", i) {
      assert s[i] != '基';
    }
  }

  datatype PieSlice = PieSlice(name: string, value: real, categoryKey: AssetCategory)

  /** The categories a series lists, in its order. */
  function SliceKeys(slices: seq<PieSlice>): (keys: seq<AssetCategory>)
    ensures |keys| == |slices|
    ensures forall i :: 0 <= i < |slices| ==> keys[i] == slices[i].categoryKey
  {
    if slices == [] then [] else [slices[0].categoryKey] + SliceKeys(slices[1..])
  }

  /** The entries of `stats` from key position `k` on whose amount is positive. */
  function PieFrom(stats: map<AssetCategory, CategoryStat>, k: nat): seq<PieSlice>
    requires k <= |CategoryKeys|
    decreases |CategoryKeys| - k
  {
    if k == |CategoryKeys| then []
    else
      var c := CategoryKeys[k];
      var rest := PieFrom(stats, k + 1);
      if c in stats && stats[c].amount > 0.0 then [PieSlice(ChartName(c), stats[c].amount, c)] + rest
      else rest
  }

  /** Each slice shows an entry of `stats`: its chart label and its amount. */
  predicate ShowsEntries(slices: seq<PieSlice>, stats: map<AssetCategory, CategoryStat>) {
    forall i :: 0 <= i < |slices| ==>
      && slices[i].categoryKey in stats
      && slices[i].value == stats[slices[i].categoryKey].amount
      && slices[i].name == ChartName(slices[i].categoryKey)
  }

  /** The slices list their categories in strictly increasing key order. */
  predicate InKeyOrder(slices: seq<PieSlice>) {
    forall i, j :: 0 <= i < j < |slices| ==> KeyIndex(slices[i].categoryKey) < KeyIndex(slices[j].categoryKey)
  }

  lemma {:induction false} PieFromValues(stats: map<AssetCategory, CategoryStat>, k: nat)
    requires k <= |CategoryKeys|
    ensures ShowsEntries(PieFrom(stats, k), stats)
    decreases |CategoryKeys| - k
  {
    if k < |CategoryKeys| {
      var c := CategoryKeys[k];
      var rest := PieFrom(stats, k + 1);
      PieFromValues(stats, k + 1);
      if c in stats && stats[c].amount > 0.0 {
        ShowsEntriesCons(PieSlice(ChartName(c), stats[c].amount, c), rest, stats);
      }
    }
  }

  lemma ShowsEntriesCons(s: PieSlice, rest: seq<PieSlice>, stats: map<AssetCategory, CategoryStat>)
    requires s.categoryKey in stats && s.value == stats[s.categoryKey].amount && s.name == ChartName(s.categoryKey)
    requires ShowsEntries(rest, stats)
    ensures ShowsEntries([s] + rest, stats)
  {
    var slices := [s] + rest;
    forall i | 0 < i < |slices| ensures slices[i] == rest[i - 1] {
    }
  }

  /** The slices from position `k` on are the positive entries from `k` on. */
  lemma {:induction false} PieFromKeys(stats: map<AssetCategory, CategoryStat>, k: nat)
    requires k <= |CategoryKeys|
    ensures forall c :: c in SliceKeys(PieFrom(stats, k)) <==> c in stats && stats[c].amount > 0.0 && k <= KeyIndex(c)
    decreases |CategoryKeys| - k
  {
    if k < |CategoryKeys| {
      var c := CategoryKeys[k];
      var rest := PieFrom(stats, k + 1);
      PieFromKeys(stats, k + 1);
      KeyIndexInverse(k);
      assert forall d :: KeyIndex(d) == k ==> d == c;
      if c in stats && stats[c].amount > 0.0 {
        var slices := [PieSlice(ChartName(c), stats[c].amount, c)] + rest;
        assert SliceKeys(slices) == [c] + SliceKeys(rest) by {
          assert slices[1..] == rest;
        }
      }
    }
  }

  /** The slices from position `k` on lie at key positions `k` and later, in key order. */
  lemma {:induction false} PieFromOrdered(stats: map<AssetCategory, CategoryStat>, k: nat)
    requires k <= |CategoryKeys|
    ensures forall i :: 0 <= i < |PieFrom(stats, k)| ==> k <= KeyIndex(PieFrom(stats, k)[i].categoryKey)
    ensures InKeyOrder(PieFrom(stats, k))
    decreases |CategoryKeys| - k
  {
    if k < |CategoryKeys| {
      var c := CategoryKeys[k];
      var rest := PieFrom(stats, k + 1);
      PieFromOrdered(stats, k + 1);
      KeyIndexInverse(k);
      if c in stats && stats[c].amount > 0.0 {
        var slices := [PieSlice(ChartName(c), stats[c].amount, c)] + rest;
        forall i | 0 < i < |slices| ensures slices[i] == rest[i - 1] {
        }
        assert KeyIndex(slices[0].categoryKey) == k;
      }
    }
  }

  /** `pieData`: exactly the categories whose rollup amount is strictly positive,
      in key order, each with that amount as its value. */
  function PieData(stats: map<AssetCategory, CategoryStat>): (slices: seq<PieSlice>)
    ensures ShowsEntries(slices, stats)
    ensures forall c :: c in SliceKeys(slices) <==> c in stats && stats[c].amount > 0.0
    ensures InKeyOrder(slices)
  {
    PieFromValues(stats, 0);
    PieFromKeys(stats, 0);
    PieFromOrdered(stats, 0);
    PieFrom(stats, 0)
  }

  /** With no positive amount anywhere the chart has no slices. */
  lemma {:induction false} NothingToChart(stats: map<AssetCategory, CategoryStat>, k: nat)
    requires k <= |CategoryKeys|
    requires forall c :: c in stats ==> stats[c].amount <= 0.0
    ensures PieFrom(stats, k) == []
    decreases |CategoryKeys| - k
  {
    if k < |CategoryKeys| {
      NothingToChart(stats, k + 1);
    }
  }

  /** The chart never lists a category twice. */
  lemma PieDataDistinct(stats: map<AssetCategory, CategoryStat>)
    ensures var slices := PieData(stats);
      forall i, j :: 0 <= i < j < |slices| ==> slices[i].categoryKey != slices[j].categoryKey
  {
  }
}
