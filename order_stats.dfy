/**
 * The order aggregation that both admin dashboards (src/pages/AdminDashboard.tsx
 * and src/pages/AdminManagement.tsx) run over the fetched orders: total
 * revenue, and the monthly sales series for the bar chart.
 *
 * The month of an order is the locale's short month name of its creation
 * time (`toLocaleString("default", { month: "short" })`). It depends on the
 * browser's locale and time zone, so it is a parameter `monthOf` here. It
 * carries no year, so orders of the same month in different years share a
 * bucket (see `MonthsMergeAcrossYears`).
 */
module OrderStats {
  import opened Common
  import opened Records

  /** The month label of a creation time. */
  type MonthOf = Timestamp -> string

  /** One bar of the chart: `{ month, amount }`. */
  datatype MonthTotal = MonthTotal(month: string, amount: int)

  /** No order has a negative amount, checked from the last order back. */
  predicate NoNegativeAmounts(orders: seq<Order>)
  {
    orders == [] || (NoNegativeAmounts(orders[..|orders| - 1]) && orders[|orders| - 1].totalAmount >= 0)
  }

  /** `NoNegativeAmounts` holds exactly when every order's amount is non-negative. */
  lemma {:induction false} NoNegativeAmountsEvery(orders: seq<Order>)
    ensures NoNegativeAmounts(orders) <==> forall i :: 0 <= i < |orders| ==> orders[i].totalAmount >= 0
  {
    if orders != [] {
      var init := orders[..|orders| - 1];
      NoNegativeAmountsEvery(init);
      assert forall i :: 0 <= i < |init| ==> init[i] == orders[i];
    }
  }

  /** `orders.reduce((sum, order) => sum + order.total_amount, 0)`, a left fold. */
  function Revenue(orders: seq<Order>): (r: int)
    ensures NoNegativeAmounts(orders) ==> r >= 0
  {
    if orders == [] then 0
    else Revenue(orders[..|orders| - 1]) + orders[|orders| - 1].totalAmount
  }

  /** Revenue is additive over concatenation. */
  lemma {:induction false} RevenueAppend(a: seq<Order>, b: seq<Order>)
    ensures Revenue(a + b) == Revenue(a) + Revenue(b)
  {
    if b == [] {
      assert a + b == a;
    } else {
      var ab := a + b;
      assert ab[..|ab| - 1] == a + b[..|b| - 1];
      assert ab[|ab| - 1] == b[|b| - 1];
      RevenueAppend(a, b[..|b| - 1]);
    }
  }

  /** Splitting the orders by any test splits the revenue: the two parts add up to the whole. */
  lemma {:induction false} RevenuePartition(orders: seq<Order>, p: Order -> bool)
    ensures Revenue(Keep(orders, p)) + Revenue(Keep(orders, (o: Order) => !p(o))) == Revenue(orders)
  {
    if orders != [] {
      var rest := orders[1..];
      RevenuePartition(rest, p);
      assert orders == [orders[0]] + rest;
      RevenueAppend([orders[0]], rest);
      if p(orders[0]) {
        assert Keep(orders, p) == [orders[0]] + Keep(rest, p);
        RevenueAppend([orders[0]], Keep(rest, p));
      } else {
        assert Keep(orders, (o: Order) => !p(o)) == [orders[0]] + Keep(rest, (o: Order) => !p(o));
        RevenueAppend([orders[0]], Keep(rest, (o: Order) => !p(o)));
      }
    }
  }

  /** The test "this order falls in month `m`". */
  function InMonth(monthOf: MonthOf, m: string): Order -> bool
  {
    (o: Order) => monthOf(o.createdAt) == m
  }

  /** The sum of `total_amount` over the orders whose month label is `m`. */
  function MonthSum(orders: seq<Order>, m: string, monthOf: MonthOf): int
  {
    Revenue(Keep(orders, InMonth(monthOf, m)))
  }

  /** One more order adds its amount to its own month and to no other. */
  lemma MonthSumSnoc(orders: seq<Order>, o: Order, monthOf: MonthOf)
    ensures forall m ::
      MonthSum(orders + [o], m, monthOf) == MonthSum(orders, m, monthOf) + (if monthOf(o.createdAt) == m then o.totalAmount else 0)
  {
    forall m ensures MonthSum(orders + [o], m, monthOf)
      == MonthSum(orders, m, monthOf) + (if monthOf(o.createdAt) == m then o.totalAmount else 0)
    {
      var p := InMonth(monthOf, m);
      KeepAppend(orders, [o], p);
      RevenueAppend(Keep(orders, p), Keep([o], p));
      assert [o][1..] == [];
      if p(o) {
        assert Keep([o], p) == [o];
        assert Revenue([o]) == Revenue([o][..0]) + o.totalAmount;
      } else {
        assert Keep([o], p) == [];
      }
    }
  }

  /** Some order at position `i` of `orders` has month label `m`. */
  predicate HasMonthAt(orders: seq<Order>, monthOf: MonthOf, m: string, i: int)
  {
    0 <= i < |orders| && monthOf(orders[i].createdAt) == m
  }

  /**
   * The distinct month labels of `orders`, in order of first appearance: the
   * keys of the accumulator object, in the order `Object.entries` lists them.
   */
  function MonthKeys(orders: seq<Order>, monthOf: MonthOf): (keys: seq<string>)
  {
    if orders == [] then []
    else
      var prev := MonthKeys(orders[..|orders| - 1], monthOf);
      var m := monthOf(orders[|orders| - 1].createdAt);
      if m in prev then prev else prev + [m]
  }

  /** No two entries of `keys` are equal. */
  predicate Distinct(keys: seq<string>)
  {
    forall a, b :: 0 <= a < b < |keys| ==> keys[a] != keys[b]
  }

  /**
   * The month keys are exactly the month labels of the orders, each once:
   * no label twice, every order's label present, and nothing else.
   */
  lemma {:induction false} MonthKeysExact(orders: seq<Order>, monthOf: MonthOf)
    ensures Distinct(MonthKeys(orders, monthOf))
    ensures forall i :: 0 <= i < |orders| ==> monthOf(orders[i].createdAt) in MonthKeys(orders, monthOf)
    ensures forall m :: m in MonthKeys(orders, monthOf) ==> exists i :: HasMonthAt(orders, monthOf, m, i)
  {
    if orders != [] {
      var init := orders[..|orders| - 1];
      MonthKeysExact(init, monthOf);
      var prev := MonthKeys(init, monthOf);
      var m := monthOf(orders[|orders| - 1].createdAt);
      assert forall i :: 0 <= i < |init| ==> orders[i] == init[i];
      assert forall k, i :: HasMonthAt(init, monthOf, k, i) ==> HasMonthAt(orders, monthOf, k, i);
      assert HasMonthAt(orders, monthOf, m, |orders| - 1);
    }
  }

  /** The chart series for a list of month labels: each label with its month's sum. */
  function SeriesFor(orders: seq<Order>, keys: seq<string>, monthOf: MonthOf): (series: seq<MonthTotal>)
  {
    seq(|keys|, j requires 0 <= j < |keys| => MonthTotal(keys[j], MonthSum(orders, keys[j], monthOf)))
  }

  /** `Object.entries(monthlySales).map(([month, amount]) => ({ month, amount }))` */
  function MonthlySeries(orders: seq<Order>, monthOf: MonthOf): seq<MonthTotal>
  {
    SeriesFor(orders, MonthKeys(orders, monthOf), monthOf)
  }

  /** The accumulator object after reducing `orders`: each month's running total. */
  function MonthTotals(orders: seq<Order>, monthOf: MonthOf): map<string, int>
  {
    if orders == [] then map[]
    else
      var prev := MonthTotals(orders[..|orders| - 1], monthOf);
      var o := orders[|orders| - 1];
      var m := monthOf(o.createdAt);
      prev[m := (if m in prev then prev[m] else 0) + o.totalAmount]
  }

  /** A month is in the accumulator exactly when it is among the month keys. */
  lemma {:induction false} MonthTotalsHasKey(orders: seq<Order>, monthOf: MonthOf, m: string)
    ensures m in MonthTotals(orders, monthOf) <==> m in MonthKeys(orders, monthOf)
  {
    if orders != [] {
      MonthTotalsHasKey(orders[..|orders| - 1], monthOf, m);
    }
  }

  /** Each month in the accumulator holds the sum of that month's orders. */
  lemma {:induction false} MonthTotalsSum(orders: seq<Order>, monthOf: MonthOf, k: string)
    ensures k in MonthTotals(orders, monthOf) ==> MonthTotals(orders, monthOf)[k] == MonthSum(orders, k, monthOf)
  {
    if orders != [] {
      var init := orders[..|orders| - 1];
      var o := orders[|orders| - 1];
      var m := monthOf(o.createdAt);
      MonthTotalsSum(init, monthOf, k);
      assert orders == init + [o];
      MonthSumSnoc(init, o, monthOf);
      if k == m && m !in MonthTotals(init, monthOf) {
        MonthTotalsHasKey(init, monthOf, m);
        MonthKeysExact(init, monthOf);
        MonthSumAbsent(init, m, monthOf);
      }
    }
  }

  /**
   * The month reduction of both dashboards: `acc[month] = (acc[month] || 0) +
   * order.total_amount` over the orders. `keys` records the order in which
   * the months entered `acc`.
   */
  method AccumulateMonths(orders: seq<Order>, monthOf: MonthOf) returns (acc: map<string, int>, keys: seq<string>)
    ensures acc == MonthTotals(orders, monthOf)
    ensures keys == MonthKeys(orders, monthOf)
  {
    acc := map[];
    keys := [];
    var i := 0;
    while i < |orders|
      invariant 0 <= i <= |orders|
      invariant acc == MonthTotals(orders[..i], monthOf)
      invariant keys == MonthKeys(orders[..i], monthOf)
    {
      var order := orders[i];
      var month := monthOf(order.createdAt);
      MonthTotalsHasKey(orders[..i], monthOf, month);
      assert orders[..i + 1][..i] == orders[..i];
      if month !in acc {
        keys := keys + [month];
      }
      acc := acc[month := (if month in acc then acc[month] else 0) + order.totalAmount];
      i := i + 1;
    }
    assert orders[..|orders|] == orders;
  }

  /**
   * Both dashboards' chart data: the month reduction, then
   * `Object.entries(acc).map(([month, amount]) => ({ month, amount }))`,
   * the entries in the order their months entered `acc`.
   */
  method MonthlySales(orders: seq<Order>, monthOf: MonthOf) returns (series: seq<MonthTotal>)
    ensures series == MonthlySeries(orders, monthOf)
  {
    var acc, keys := AccumulateMonths(orders, monthOf);
    series := [];
    var j := 0;
    while j < |keys|
      invariant 0 <= j <= |keys|
      invariant series == SeriesFor(orders, keys[..j], monthOf)
    {
      assert keys[..j + 1] == keys[..j] + [keys[j]];
      MonthTotalsHasKey(orders, monthOf, keys[j]);
      MonthTotalsSum(orders, monthOf, keys[j]);
      SeriesForSnoc(orders, keys[..j], keys[j], monthOf);
      series := series + [MonthTotal(keys[j], acc[keys[j]])];
      j := j + 1;
    }
    assert keys[..|keys|] == keys;
  }

  lemma SeriesForSnoc(orders: seq<Order>, keys: seq<string>, k: string, monthOf: MonthOf)
    ensures SeriesFor(orders, keys + [k], monthOf) == SeriesFor(orders, keys, monthOf) + [MonthTotal(k, MonthSum(orders, k, monthOf))]
  {
  }

  /** A month with no orders sums to zero. */
  lemma {:induction false} MonthSumAbsent(orders: seq<Order>, m: string, monthOf: MonthOf)
    requires forall i :: 0 <= i < |orders| ==> monthOf(orders[i].createdAt) != m
    ensures MonthSum(orders, m, monthOf) == 0
  {
    if orders != [] {
      MonthSumAbsent(orders[1..], m, monthOf);
      assert Keep(orders, InMonth(monthOf, m)) == Keep(orders[1..], InMonth(monthOf, m));
    }
  }

  /** The sum of the amounts of a chart series. */
  function SeriesTotal(series: seq<MonthTotal>): int
  {
    if series == [] then 0 else series[0].amount + SeriesTotal(series[1..])
  }

  lemma {:induction false} SeriesForTotalSnoc(orders: seq<Order>, o: Order, keys: seq<string>, monthOf: MonthOf)
    requires Distinct(keys)
    ensures SeriesTotal(SeriesFor(orders + [o], keys, monthOf))
      == SeriesTotal(SeriesFor(orders, keys, monthOf)) + (if monthOf(o.createdAt) in keys then o.totalAmount else 0)
  {
    if keys != [] {
      SeriesForTotalSnoc(orders, o, keys[1..], monthOf);
      MonthSumSnoc(orders, o, monthOf);
      assert SeriesFor(orders + [o], keys, monthOf)[1..] == SeriesFor(orders + [o], keys[1..], monthOf);
      assert SeriesFor(orders, keys, monthOf)[1..] == SeriesFor(orders, keys[1..], monthOf);
      assert monthOf(o.createdAt) == keys[0] ==> monthOf(o.createdAt) !in keys[1..];
    }
  }

  lemma {:induction false} SeriesForTotal(orders: seq<Order>, keys: seq<string>, monthOf: MonthOf)
    requires Distinct(keys)
    requires forall i :: 0 <= i < |orders| ==> monthOf(orders[i].createdAt) in keys
    ensures SeriesTotal(SeriesFor(orders, keys, monthOf)) == Revenue(orders)
  {
    if orders == [] {
      SeriesForEmpty(keys, monthOf);
    } else {
      var init := orders[..|orders| - 1];
      var o := orders[|orders| - 1];
      assert orders == init + [o];
      assert forall i :: 0 <= i < |init| ==> init[i] == orders[i];
      SeriesForTotal(init, keys, monthOf);
      SeriesForTotalSnoc(init, o, keys, monthOf);
    }
  }

  lemma {:induction false} SeriesForEmpty(keys: seq<string>, monthOf: MonthOf)
    ensures SeriesTotal(SeriesFor([], keys, monthOf)) == 0
  {
    if keys != [] {
      SeriesForEmpty(keys[1..], monthOf);
      assert SeriesFor([], keys, monthOf)[1..] == SeriesFor([], keys[1..], monthOf);
    }
  }

  /** The monthly buckets together hold exactly the total revenue. */
  lemma SeriesSumsToRevenue(orders: seq<Order>, monthOf: MonthOf)
    ensures SeriesTotal(MonthlySeries(orders, monthOf)) == Revenue(orders)
  {
    MonthKeysExact(orders, monthOf);
    SeriesForTotal(orders, MonthKeys(orders, monthOf), monthOf);
  }

  /**
   * The position of the first order whose month label is `m`, or `|orders|`
   * when there is none.
   */
  function FirstIndex(orders: seq<Order>, monthOf: MonthOf, m: string): (r: nat)
    ensures r <= |orders|
  {
    if orders == [] then 0
    else
      var p := FirstIndex(orders[..|orders| - 1], monthOf, m);
      if p < |orders| - 1 || monthOf(orders[|orders| - 1].createdAt) == m then p else |orders|
  }

  /** `FirstIndex` is the first position holding `m`: it holds `m`, and no earlier one does. */
  lemma {:induction false} FirstIndexIsFirst(orders: seq<Order>, monthOf: MonthOf, m: string)
    ensures var r := FirstIndex(orders, monthOf, m);
      && (r < |orders| ==> HasMonthAt(orders, monthOf, m, r))
      && (forall j :: 0 <= j < r ==> !HasMonthAt(orders, monthOf, m, j))
  {
    if orders != [] {
      var init := orders[..|orders| - 1];
      FirstIndexIsFirst(init, monthOf, m);
      forall j | 0 <= j < |init| ensures HasMonthAt(init, monthOf, m, j) == HasMonthAt(orders, monthOf, m, j) {
        assert init[j] == orders[j];
      }
    }
  }

  /** A label is a month key exactly when some order carries it. */
  lemma {:induction false} MonthKeysFirstIndex(orders: seq<Order>, monthOf: MonthOf, m: string)
    ensures m in MonthKeys(orders, monthOf) <==> FirstIndex(orders, monthOf, m) < |orders|
  {
    if orders != [] {
      MonthKeysFirstIndex(orders[..|orders| - 1], monthOf, m);
    }
  }

  /** Each key's first order comes before the first order of every key listed after it. */
  predicate InFirstAppearanceOrder(orders: seq<Order>, monthOf: MonthOf, keys: seq<string>)
  {
    forall a, b :: 0 <= a < b < |keys| ==> FirstIndex(orders, monthOf, keys[a]) < FirstIndex(orders, monthOf, keys[b])
  }

  /** The series lists the months in the order in which they first appear among the orders. */
  lemma {:induction false} KeysInFirstAppearanceOrder(orders: seq<Order>, monthOf: MonthOf)
    ensures InFirstAppearanceOrder(orders, monthOf, MonthKeys(orders, monthOf))
  {
    if orders != [] {
      var n := |orders|;
      var init := orders[..n - 1];
      var prev := MonthKeys(init, monthOf);
      var keys := MonthKeys(orders, monthOf);
      var m := monthOf(orders[n - 1].createdAt);
      KeysInFirstAppearanceOrder(init, monthOf);
      forall x | x in prev ensures FirstIndex(orders, monthOf, x) == FirstIndex(init, monthOf, x) < n - 1 {
        MonthKeysFirstIndex(init, monthOf, x);
      }
      if m !in prev {
        MonthKeysFirstIndex(init, monthOf, m);
        assert FirstIndex(orders, monthOf, m) == n - 1;
      }
      forall a, b | 0 <= a < b < |keys|
        ensures FirstIndex(orders, monthOf, keys[a]) < FirstIndex(orders, monthOf, keys[b])
      {
        assert keys[a] == prev[a] && keys[a] in prev;
        if b < |prev| {
          assert keys[b] == prev[b] && keys[b] in prev;
        }
      }
    }
  }

  /**
   * Two orders whose creation times share a month label (March 2024 and
   * March 2025, say) end up in a single bar holding both amounts.
   */
  lemma MonthsMergeAcrossYears(a: Order, b: Order, monthOf: MonthOf)
    requires monthOf(a.createdAt) == monthOf(b.createdAt)
    ensures MonthlySeries([a, b], monthOf) == [MonthTotal(monthOf(a.createdAt), a.totalAmount + b.totalAmount)]
  {
    var m := monthOf(a.createdAt);
    assert [a, b][..1] == [a];
    assert [a][..0] == [];
    assert MonthKeys([a], monthOf) == [m];
    assert MonthKeys([a, b], monthOf) == [m];
    var p := InMonth(monthOf, m);
    assert Keep([a, b], p) == [a, b] by {
      assert [a, b][1..] == [b];
      assert [b][1..] == [];
    }
    assert Revenue([a]) == a.totalAmount;
    assert Revenue([a, b]) == a.totalAmount + b.totalAmount;
  }
}
