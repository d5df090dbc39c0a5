/**
 * The figures of src/pages/AdminDashboard.tsx: total revenue, order count
 * and the monthly sales series, computed from the fetched orders, and the
 * customer count the server reports.
 */
module AdminDashboard {
  import opened Common
  import opened Records
  import opened OrderStats

  class AdminDashboardPage {
    var totalRevenue: int
    var totalOrders: nat
    var totalCustomers: nat
    var salesData: seq<MonthTotal>
    var loading: bool

    /** Zero figures, an empty chart, loading. */
    constructor ()
      ensures totalRevenue == 0 && totalOrders == 0 && totalCustomers == 0
      ensures salesData == [] && loading
    {
      totalRevenue := 0;
      totalOrders := 0;
      totalCustomers := 0;
      salesData := [];
      loading := true;
    }

    /**
     * `fetchDashboardData`. Returned orders set the revenue, the order count
     * and the monthly series, whose bars add up to the revenue; without
     * orders those keep their values. The customer count is the server's
     * count, or 0 when there is none. Loading ends either way.
     */
    method FetchDashboardData(orders: Option<seq<Order>>, count: Option<nat>, monthOf: MonthOf)
      modifies this
      ensures orders.Some? ==>
        && totalRevenue == Revenue(orders.value)
        && totalOrders == |orders.value|
        && salesData == MonthlySeries(orders.value, monthOf)
        && SeriesTotal(salesData) == totalRevenue
      ensures orders.None? ==>
        totalRevenue == old(totalRevenue) && totalOrders == old(totalOrders) && salesData == old(salesData)
      ensures totalCustomers == if count.Some? then count.value else 0
      ensures !loading
    {
      if orders.Some? {
        totalRevenue := Revenue(orders.value);
        totalOrders := |orders.value|;
        salesData := MonthlySales(orders.value, monthOf);
        SeriesSumsToRevenue(orders.value, monthOf);
      }
      totalCustomers := if count.Some? then count.value else 0;
      loading := false;
    }
  }
}
