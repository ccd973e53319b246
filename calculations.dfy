/**
 * The statistics helpers: category shares of a grand total, averages,
 * month-end projection, budget usage and status, summing one field, and
 * grouping dated records by date. Amounts are exact reals; the rounding of
 * JavaScript's floating-point division is not modelled.
 */
module Calculations {
  import opened Wrappers
  import opened Scans

  // ---------------------------------------------------------------------------
  // Category shares

  datatype CategoryTotal = CategoryTotal(category: string, total: real)

  datatype CategoryStatistics = CategoryStatistics(category: string, total: real, percentage: real, count: nat)

  /** The share of a total in percent of the grand total, or 0 when the grand total is not positive. */
  function Share(total: real, grandTotal: real): real {
    if grandTotal > 0.0 then total / grandTotal * 100.0 else 0.0
  }

  /** `calculateCategoryPercentages`: one entry per category, in order, with its share and count 0. */
  function CalculateCategoryPercentages(categories: seq<CategoryTotal>, grandTotal: real): (r: seq<CategoryStatistics>)
    ensures |r| == |categories|
    ensures forall i :: 0 <= i < |r| ==>
      r[i].category == categories[i].category && r[i].total == categories[i].total && r[i].count == 0
    ensures grandTotal <= 0.0 ==> forall i :: 0 <= i < |r| ==> r[i].percentage == 0.0
    ensures forall i :: 0 <= i < |r| && 0.0 <= categories[i].total <= grandTotal ==> 0.0 <= r[i].percentage <= 100.0
  {
    seq(|categories|, i requires 0 <= i < |categories| =>
      ShareBound(categories[i].total, grandTotal);
      CategoryStatistics(categories[i].category, categories[i].total, Share(categories[i].total, grandTotal), 0))
  }

  /** A part of the grand total is between 0 and 100 percent of it. */
  lemma ShareBound(total: real, grandTotal: real)
    ensures 0.0 <= total <= grandTotal ==> 0.0 <= Share(total, grandTotal) <= 100.0
  {
    if 0.0 <= total <= grandTotal && grandTotal > 0.0 {
      assert total / grandTotal <= 1.0;
    }
  }

  function TotalOf(categories: seq<CategoryTotal>): real {
    if categories == [] then 0.0 else TotalOf(categories[..|categories| - 1]) + categories[|categories| - 1].total
  }

  function PercentageSum(stats: seq<CategoryStatistics>): real {
    if stats == [] then 0.0 else PercentageSum(stats[..|stats| - 1]) + stats[|stats| - 1].percentage
  }

  /** The shares add up to the categories' total as a percentage of the grand total. */
  lemma {:induction false} SharesAddUp(categories: seq<CategoryTotal>, grandTotal: real)
    requires grandTotal > 0.0
    ensures PercentageSum(CalculateCategoryPercentages(categories, grandTotal)) == TotalOf(categories) / grandTotal * 100.0
    decreases |categories|
  {
    if categories != [] {
      var n := |categories|;
      var init := categories[..n - 1];
      var t := categories[n - 1].total;
      var r := CalculateCategoryPercentages(categories, grandTotal);
      PercentagesPrefix(categories, grandTotal);
      SharesAddUp(init, grandTotal);
      ShareAdd(TotalOf(init), t, grandTotal);
    }
  }

  /** Dropping the last category drops the last entry. */
  lemma PercentagesPrefix(categories: seq<CategoryTotal>, grandTotal: real)
    requires categories != []
    ensures var n := |categories|; var r := CalculateCategoryPercentages(categories, grandTotal);
      r[..n - 1] == CalculateCategoryPercentages(categories[..n - 1], grandTotal)
      && r[n - 1].percentage == Share(categories[n - 1].total, grandTotal)
  {
  }

  lemma ShareAdd(a: real, b: real, g: real)
    requires g > 0.0
    ensures a / g * 100.0 + b / g * 100.0 == (a + b) / g * 100.0
  {
  }

  /** When the grand total is the sum of the categories, the shares add up to 100. */
  lemma SharesAddUpToHundred(categories: seq<CategoryTotal>)
    requires TotalOf(categories) > 0.0
    ensures PercentageSum(CalculateCategoryPercentages(categories, TotalOf(categories))) == 100.0
  {
    var g := TotalOf(categories);
    SharesAddUp(categories, g);
    WholeShare(g);
  }

  lemma WholeShare(g: real)
    requires g > 0.0
    ensures g / g * 100.0 == 100.0
  {
  }

  // ---------------------------------------------------------------------------
  // Averages and projection

  /** The sum of the values, added from the left starting at 0. */
  function Sum(values: seq<real>): real {
    if values == [] then 0.0 else Sum(values[..|values| - 1]) + values[|values| - 1]
  }

  /** `calculateAverage`: 0 for no values, otherwise their sum over their count. */
  function CalculateAverage(values: seq<real>): (r: real)
    ensures |values| == 0 ==> r == 0.0
    ensures |values| > 0 ==> r * |values| as real == Sum(values)
  {
    if |values| == 0 then 0.0 else Sum(values) / |values| as real
  }

  lemma {:induction false} SumBounds(values: seq<real>, lo: real, hi: real)
    requires forall i :: 0 <= i < |values| ==> lo <= values[i] <= hi
    ensures lo * |values| as real <= Sum(values) <= hi * |values| as real
    decreases |values|
  {
    if values != [] {
      var n := |values|;
      SumBounds(values[..n - 1], lo, hi);
      assert lo * n as real == lo * (n - 1) as real + lo;
      assert hi * n as real == hi * (n - 1) as real + hi;
    }
  }

  /** The average of values that all lie in `[lo, hi]` lies there too. */
  lemma AverageBounds(values: seq<real>, lo: real, hi: real)
    requires |values| > 0
    requires forall i :: 0 <= i < |values| ==> lo <= values[i] <= hi
    ensures lo <= CalculateAverage(values) <= hi
  {
    SumBounds(values, lo, hi);
    var n := |values| as real;
    assert CalculateAverage(values) * n == Sum(values);
  }

  /**
   * `calculateMonthlyProjection`: the daily average so far, times the days
   * of the month. With no days elapsed the projection is 0; at the end of
   * the month it is the total; part-way through, a non-negative total only
   * grows.
   */
  function CalculateMonthlyProjection(currentTotal: real, daysElapsed: real, totalDaysInMonth: real): (r: real)
    ensures daysElapsed == 0.0 ==> r == 0.0
    ensures daysElapsed != 0.0 ==> r * daysElapsed == currentTotal * totalDaysInMonth
    ensures daysElapsed != 0.0 && daysElapsed == totalDaysInMonth ==> r == currentTotal
    ensures 0.0 < daysElapsed <= totalDaysInMonth && currentTotal >= 0.0 ==> r >= currentTotal
  {
    if daysElapsed == 0.0 then 0.0
    else
      var daily := currentTotal / daysElapsed;
      assert daily * daysElapsed == currentTotal;
      assert daily * totalDaysInMonth * daysElapsed == daily * daysElapsed * totalDaysInMonth;
      assert 0.0 < daysElapsed <= totalDaysInMonth && currentTotal >= 0.0 ==>
        daily >= 0.0 && daily * totalDaysInMonth >= daily * daysElapsed;
      daily * totalDaysInMonth
  }

  // ---------------------------------------------------------------------------
  // Budget

  /** `calculateBudgetUsage`: spent as a percentage of the budget, 0 for a zero budget. */
  function CalculateBudgetUsage(spent: real, budget: real): (r: real)
    ensures budget == 0.0 ==> r == 0.0
    ensures budget != 0.0 ==> r * budget == spent * 100.0
  {
    if budget == 0.0 then 0.0 else spent / budget * 100.0
  }

  datatype BudgetStatus = Safe | Warning | Danger

  /**
   * `getBudgetStatus`: below 75 percent is safe, below 100 a warning,
   * otherwise danger. In terms of the amounts: for a positive budget, safe
   * below three quarters of it, a warning from there up to the budget,
   * danger from the budget on; a zero budget is always safe. A negative
   * budget flips the comparisons: safe above three quarters of it, a
   * warning from the budget up to there, danger at or below the budget.
   */
  function GetBudgetStatus(spent: real, budget: real): (r: BudgetStatus)
    ensures budget == 0.0 ==> r == Safe
    ensures budget > 0.0 ==> (r == Safe <==> spent < 0.75 * budget)
    ensures budget > 0.0 ==> (r == Warning <==> 0.75 * budget <= spent < budget)
    ensures budget > 0.0 ==> (r == Danger <==> spent >= budget)
    ensures budget < 0.0 ==> (r == Safe <==> spent > 0.75 * budget)
    ensures budget < 0.0 ==> (r == Warning <==> budget < spent <= 0.75 * budget)
    ensures budget < 0.0 ==> (r == Danger <==> spent <= budget)
  {
    var usage := CalculateBudgetUsage(spent, budget);
    var status := if usage < 75.0 then Safe else if usage < 100.0 then Warning else Danger;
    if budget > 0.0 then
      UsageBelow(usage, spent, budget, 75.0);
      UsageBelow(usage, spent, budget, 100.0);
      status
    else if budget < 0.0 then
      UsageBelowNegative(usage, spent, budget, 75.0);
      UsageBelowNegative(usage, spent, budget, 100.0);
      status
    else status
  }

  /** A usage below `k` percent is spending below `k` hundredths of the budget. */
  lemma UsageBelow(usage: real, spent: real, budget: real, k: real)
    requires budget > 0.0 && usage * budget == spent * 100.0
    ensures usage < k <==> spent * 100.0 < k * budget
  {
    ScaleLess(usage, k, budget);
  }

  /** Against a negative budget, a usage below `k` percent is spending above `k` hundredths of it. */
  lemma UsageBelowNegative(usage: real, spent: real, budget: real, k: real)
    requires budget < 0.0 && usage * budget == spent * 100.0
    ensures usage < k <==> spent * 100.0 > k * budget
  {
    ScaleLess(usage, k, -budget);
  }

  /** Multiplying by a positive number keeps the order. */
  lemma ScaleLess(x: real, y: real, b: real)
    requires b > 0.0
    ensures x < y <==> x * b < y * b
  {
    if x < y {
      assert (y - x) * b > 0.0;
    } else {
      assert (x - y) * b >= 0.0;
    }
  }

  // ---------------------------------------------------------------------------
  // Summing a field

  /** The value of a field, a missing field counting as 0. */
  function FieldOrZero(item: map<string, real>, key: string): real {
    if key in item then item[key] else 0.0
  }

  /** `sumBy`: the total of one field over the items, an item without the field adding 0. */
  function SumBy(items: seq<map<string, real>>, key: string): (r: real)
    ensures (forall i :: 0 <= i < |items| ==> key !in items[i]) ==> r == 0.0
    ensures (forall i :: 0 <= i < |items| ==> FieldOrZero(items[i], key) >= 0.0) ==> r >= 0.0
  {
    if items == [] then 0.0 else SumBy(items[..|items| - 1], key) + FieldOrZero(items[|items| - 1], key)
  }

  /** Summing two lists one after the other adds their sums; items without the field add nothing. */
  lemma {:induction false} SumByAppend(a: seq<map<string, real>>, b: seq<map<string, real>>, key: string)
    ensures SumBy(a + b, key) == SumBy(a, key) + SumBy(b, key)
    ensures (forall i :: 0 <= i < |b| ==> key !in b[i]) ==> SumBy(a + b, key) == SumBy(a, key)
    decreases |b|
  {
    if b != [] {
      var n := |b|;
      assert (a + b)[..|a + b| - 1] == a + b[..n - 1];
      SumByAppend(a, b[..n - 1], key);
    } else {
      assert a + b == a;
    }
  }

  // ---------------------------------------------------------------------------
  // Grouping by date

  /** A record with a `date` field and any other fields. */
  datatype Dated<T> = Dated(date: string, fields: T)

  /** Each record, kept when it has date `d`. */
  function OnDate<T>(items: seq<Dated<T>>, d: string): (r: seq<Option<Dated<T>>>)
    ensures |r| == |items|
    ensures forall i :: 0 <= i < |items| ==> (r[i].Some? <==> items[i].date == d) && (r[i].Some? ==> r[i].value == items[i])
  {
    seq(|items|, i requires 0 <= i < |items| => if items[i].date == d then Some(items[i]) else None)
  }

  /** The records with date `d`, in their input order. */
  function ItemsOn<T>(items: seq<Dated<T>>, d: string): seq<Dated<T>> {
    Somes(OnDate(items, d), 0, |items|)
  }

  function DatesOf<T>(items: seq<Dated<T>>): set<string> {
    set i | 0 <= i < |items| :: items[i].date
  }

  /**
   * `groupByDate`: one group per date that occurs, holding the records with
   * that date in their input order.
   */
  method GroupByDate<T>(items: seq<Dated<T>>) returns (grouped: map<string, seq<Dated<T>>>)
    ensures grouped.Keys == DatesOf(items)
    ensures forall d :: d in grouped ==> grouped[d] == ItemsOn(items, d)
  {
    grouped := map[];
    var i := 0;
    while i < |items|
      invariant i <= |items|
      invariant grouped.Keys == DatesOf(items[..i])
      invariant forall d :: d in grouped ==> grouped[d] == Somes(OnDate(items, d), 0, i)
    {
      var item := items[i];
      GroupStep(items, i, grouped);
      var existing := if item.date in grouped then grouped[item.date] else [];
      grouped := grouped[item.date := existing + [item]];
      i := i + 1;
    }
    assert items[..i] == items;
  }

  /** One step of the grouping loop keeps its invariant. */
  lemma GroupStep<T>(items: seq<Dated<T>>, i: nat, grouped: map<string, seq<Dated<T>>>)
    requires i < |items|
    requires grouped.Keys == DatesOf(items[..i])
    requires forall d :: d in grouped ==> grouped[d] == Somes(OnDate(items, d), 0, i)
    ensures var item := items[i];
      var existing := if item.date in grouped then grouped[item.date] else [];
      var next := grouped[item.date := existing + [item]];
      next.Keys == DatesOf(items[..i + 1])
      && forall d :: d in next ==> next[d] == Somes(OnDate(items, d), 0, i + 1)
  {
    var item := items[i];
    var existing := if item.date in grouped then grouped[item.date] else [];
    var next := grouped[item.date := existing + [item]];
    assert items[..i + 1] == items[..i] + [item];
    assert DatesOf(items[..i + 1]) == DatesOf(items[..i]) + {item.date} by {
      forall x | x in DatesOf(items[..i + 1]) ensures x in DatesOf(items[..i]) + {item.date} {
        var j :| 0 <= j < i + 1 && items[..i + 1][j].date == x;
        if j < i {
          assert items[..i][j].date == x;
        }
      }
      forall x | x in DatesOf(items[..i]) ensures x in DatesOf(items[..i + 1]) {
        var j :| 0 <= j < i && items[..i][j].date == x;
        assert items[..i + 1][j].date == x;
      }
    }
    forall d | d in next ensures next[d] == Somes(OnDate(items, d), 0, i + 1) {
      SomesSnoc(OnDate(items, d), 0, i);
      if d == item.date && item.date !in grouped {
        NoEarlierDate(items, i, d);
      }
    }
  }

  /** A date that no earlier record has selects nothing before `i`. */
  lemma NoEarlierDate<T>(items: seq<Dated<T>>, i: nat, d: string)
    requires i <= |items| && d !in DatesOf(items[..i])
    ensures Somes(OnDate(items, d), 0, i) == []
  {
    forall j | 0 <= j < i ensures OnDate(items, d)[j].None? {
      assert items[..i][j] == items[j];
    }
    SomesEmpty(OnDate(items, d), 0, i);
  }

  /**
   * Every record lands in exactly one group, the one of its own date, and
   * each group keeps the input order: the group of `d` lists the records
   * with date `d` at strictly increasing input positions, all of them.
   */
  lemma GroupOrigin<T>(items: seq<Dated<T>>, d: string)
    ensures var g := ItemsOn(items, d); var ix := SomeIndices(OnDate(items, d), 0, |items|);
      |ix| == |g|
      && (forall k :: 0 <= k < |ix| ==> ix[k] < |items| && items[ix[k]] == g[k] && g[k].date == d)
      && (forall k, l :: 0 <= k < l < |ix| ==> ix[k] < ix[l])
      && (forall j :: 0 <= j < |items| && items[j].date == d ==> j in ix)
  {
    SomesOrigin(OnDate(items, d), 0, |items|);
  }
}
