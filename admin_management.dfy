/**
 * The administration page of src/pages/AdminManagement.tsx: the figures it
 * loads (revenue, order count, monthly sales, the signed-in user's role, the
 * user list), the downloadable report cut to a date range, and the
 * activate/deactivate switch that only a `"supa-admin"` may use.
 *
 * The locale's rendering of amounts and dates (`toLocaleString()`) and the
 * parsing of the date inputs (`new Date(s)`) are parameters.
 */
module AdminManagement {
  import opened Common
  import opened Records
  import opened DateFilter
  import opened OrderStats

  /** A row of the `users` table as this page selects it. */
  datatype User = User(id: string, email: string, role: string, status: string, createdAt: string)

  const Active := "active"
  const Inactive := "inactive"

  /** The only role allowed to change a user's status. */
  const SupaAdmin := "supa-admin"

  const NotAllowedAlert := "Only users with the role 'supa-admin' can modify user status."

  // ---------------------------------------------------------------------------
  // The user status switch

  /** `currentStatus === "active" ? "inactive" : "active"`. */
  function NextStatus(current: string): (r: string)
    ensures r == Active <==> current != Active
    ensures r == Inactive || r == Active
  {
    if current == Active then Inactive else Active
  }

  /** Switching twice brings an active or inactive status back to where it was. */
  lemma NextStatusTwice(current: string)
    requires current == Active || current == Inactive
    ensures NextStatus(NextStatus(current)) == current
  {
  }

  /** `users.map((user) => user.id === userId ? { ...user, status: newStatus } : user)`. */
  function SetStatus(users: seq<User>, userId: string, status: string): (r: seq<User>)
    ensures |r| == |users|
    ensures forall i :: 0 <= i < |r| ==> r[i] == if users[i].id == userId then users[i].(status := status) else users[i]
  {
    seq(|users|, (i: int) requires 0 <= i < |users| => if users[i].id == userId then users[i].(status := status) else users[i])
  }

  /**
   * Only the user with the given id changes, and only in its status; when
   * every user with that id had status `s` (active or inactive), switching
   * from `s` and then back restores the list.
   */
  lemma ToggleTwiceRestores(users: seq<User>, userId: string, s: string)
    requires s == Active || s == Inactive
    requires forall i :: 0 <= i < |users| && users[i].id == userId ==> users[i].status == s
    ensures SetStatus(SetStatus(users, userId, NextStatus(s)), userId, NextStatus(NextStatus(s))) == users
  {
    var once := SetStatus(users, userId, NextStatus(s));
    var twice := SetStatus(once, userId, NextStatus(NextStatus(s)));
    forall i | 0 <= i < |users| ensures twice[i] == users[i] {
      if users[i].id == userId {
        assert once[i].id == userId;
      }
    }
  }

  // ---------------------------------------------------------------------------
  // The report

  /** A date input: empty means no bound, otherwise the instant it parses to. */
  function Bound(input: string, parse: string -> Timestamp): Option<Timestamp>
  {
    if input == [] then None else Some(parse(input))
  }

  /** The orders the report covers: those created within the date range. */
  function ReportOrders(orders: seq<Order>, start: Option<Timestamp>, end: Option<Timestamp>): (r: seq<Order>)
    ensures forall o :: o in r <==> o in orders && InRange(o.createdAt, start, end)
  {
    Keep(orders, (o: Order) => InRange(o.createdAt, start, end))
  }

  /** With neither date set, the report covers every order. */
  lemma ReportOrdersNoDates(orders: seq<Order>)
    ensures ReportOrders(orders, None, None) == orders
  {
    KeepAll(orders, (o: Order) => InRange(o.createdAt, None, None));
  }

  /** An email that `filter(Boolean)` keeps: present and not empty. */
  predicate HasEmail(o: Order)
  {
    o.customerEmail.Some? && o.customerEmail.value != []
  }

  predicate EmailAt(orders: seq<Order>, e: string, i: int)
  {
    0 <= i < |orders| && HasEmail(orders[i]) && orders[i].customerEmail.value == e
  }

  /** `new Set(orders.map((order) => order.customer_email).filter(Boolean))`. */
  function Emails(orders: seq<Order>): (r: set<string>)
    ensures forall e :: e in r ==> e != []
  {
    if orders == [] then {}
    else
      var o := orders[|orders| - 1];
      Emails(orders[..|orders| - 1]) + (if HasEmail(o) then {o.customerEmail.value} else {})
  }

  /** The set holds exactly the non-empty emails some order carries. */
  lemma {:induction false} EmailsExact(orders: seq<Order>, e: string)
    ensures e in Emails(orders) <==> exists i :: EmailAt(orders, e, i)
  {
    if orders != [] {
      var n := |orders|;
      var init := orders[..n - 1];
      EmailsExact(init, e);
      if e in Emails(orders) {
        if e in Emails(init) {
          var i :| EmailAt(init, e, i);
          assert init[i] == orders[i];
          assert EmailAt(orders, e, i);
        } else {
          assert EmailAt(orders, e, n - 1);
        }
      }
      if exists i :: EmailAt(orders, e, i) {
        var i :| EmailAt(orders, e, i);
        if i < n - 1 {
          assert init[i] == orders[i];
          assert EmailAt(init, e, i);
        }
      }
    }
  }

  /**
   * The customer count never exceeds the number of orders that carry an
   * email, and so never the number of orders: orders without an email count
   * as orders but not as customers.
   */
  lemma {:induction false} CustomersAtMostOrders(orders: seq<Order>)
    ensures |Emails(orders)| <= Count(orders, HasEmail) <= |orders|
  {
    if orders != [] {
      var init := orders[..|orders| - 1];
      var o := orders[|orders| - 1];
      CustomersAtMostOrders(init);
      assert orders == init + [o];
      KeepAppend(init, [o], HasEmail);
      assert Keep([o], HasEmail) == if HasEmail(o) then [o] else [] by {
        assert [o][1..] == [];
      }
    }
  }

  /** The header line: the four column names. */
  const Header := "Metric,Value,Trend vs Last Month,Details"

  /** The growth figure and the four trend figures shown on the page's cards, which the report repeats. */
  const GrowthRate := "15.2%"
  const RevenueTrend := "12.5"
  const CustomersTrend := "8.1"
  const OrdersTrend := "-3.2"
  const GrowthTrend := "4.8"

  /** The four summary lines that follow the header. */
  function SummaryLines(revenue: string, customers: nat, count: nat): (r: seq<string>)
    ensures |r| == 4
  {
    [ "Total Revenue (Filtered),Frw " + revenue + "," + RevenueTrend + "%,",
      "Total Customers (Filtered)," + NatToString(customers) + "," + CustomersTrend + "%,",
      "Total Orders (Filtered)," + NatToString(count) + "," + OrdersTrend + "%,",
      "Growth Rate," + GrowthRate + "," + GrowthTrend + "%," ]
  }

  /** The line of one order: its amount, creation time and email, or `N/A` without an email. */
  function OrderLine(o: Order, amount: int -> string, date: Timestamp -> string): (r: string)
    ensures "Order,Frw " <= r
    ensures HasEmail(o) ==> EndsWith(r, o.customerEmail.value)
    ensures !HasEmail(o) ==> EndsWith(r, "N/A")
  {
    "Order,Frw " + amount(o.totalAmount) + ",,Created At: " + date(o.createdAt)
    + ", Customer: " + (if HasEmail(o) then o.customerEmail.value else "N/A")
  }

  /** The lines after the header: the summary, then one line per order of the range. */
  function Rows(filtered: seq<Order>, amount: int -> string, date: Timestamp -> string): (r: seq<string>)
    ensures |r| == 4 + |filtered|
  {
    SummaryLines(amount(Revenue(filtered)), |Emails(filtered)|, |filtered|)
    + seq(|filtered|, (i: int) requires 0 <= i < |filtered| => OrderLine(filtered[i], amount, date))
  }

  /** `${csvHeaders}\n${csvRows}`: the header, a newline, and the rows joined by newlines. */
  function Report(orders: seq<Order>, start: Option<Timestamp>, end: Option<Timestamp>,
                  amount: int -> string, date: Timestamp -> string): (r: string)
    ensures Header + "\n" <= r
  {
    Header + "\n" + Join(Rows(ReportOrders(orders, start, end), amount, date), '\n')
  }

  /** No piece the report is assembled from contains a line break. */
  ghost predicate NoBreaks(orders: seq<Order>, amount: int -> string, date: Timestamp -> string)
  {
    && (forall a :: '\n' !in amount(a))
    && (forall t :: '\n' !in date(t))
    && (forall o :: o in orders && o.customerEmail.Some? ==> '\n' !in o.customerEmail.value)
  }

  lemma NoBreakInDigits(n: nat)
    ensures '\n' !in NatToString(n)
  {
    var s := NatToString(n);
    assert forall i :: 0 <= i < |s| ==> s[i] != '\n';
  }

  /**
   * The report is a list of lines separated by `\n`, with no quoting and no
   * trailing newline: reading it back line by line gives the header, the
   * four summary lines, and one line per order of the range, in the order
   * of the fetched orders: five lines plus one per order in the range.
   */
  lemma ReportLines(orders: seq<Order>, start: Option<Timestamp>, end: Option<Timestamp>,
                    amount: int -> string, date: Timestamp -> string)
    requires NoBreaks(orders, amount, date)
    ensures var lines := Split(Report(orders, start, end, amount, date), '\n');
      var filtered := ReportOrders(orders, start, end);
      && lines == [Header] + Rows(filtered, amount, date)
      && |lines| == 5 + |filtered|
      && (forall i :: 0 <= i < |filtered| ==> lines[5 + i] == OrderLine(filtered[i], amount, date))
  {
    ReportSplit(orders, start, end, amount, date);
    HeaderRowsOrderLines(ReportOrders(orders, start, end), amount, date);
  }

  /** With the header in front, the line of the `i`-th order is line `5 + i`. */
  lemma HeaderRowsOrderLines(filtered: seq<Order>, amount: int -> string, date: Timestamp -> string)
    ensures var lines := [Header] + Rows(filtered, amount, date);
      forall i :: 0 <= i < |filtered| ==> lines[5 + i] == OrderLine(filtered[i], amount, date)
  {
    var rows := Rows(filtered, amount, date);
    RowsOrderLines(filtered, amount, date);
    forall i | 0 <= i < |filtered| ensures ([Header] + rows)[5 + i] == OrderLine(filtered[i], amount, date) {
      assert ([Header] + rows)[5 + i] == rows[4 + i];
    }
  }

  /** Split back at `\n`, the report gives the header followed by the rows. */
  lemma ReportSplit(orders: seq<Order>, start: Option<Timestamp>, end: Option<Timestamp>,
                    amount: int -> string, date: Timestamp -> string)
    requires NoBreaks(orders, amount, date)
    ensures Split(Report(orders, start, end, amount, date), '\n') == [Header] + Rows(ReportOrders(orders, start, end), amount, date)
  {
    var filtered := ReportOrders(orders, start, end);
    var lines := [Header] + Rows(filtered, amount, date);
    ReportIsJoin(orders, start, end, amount, date);
    LinesHaveNoBreaks(orders, filtered, amount, date);
    SplitJoin(lines, '\n');
  }

  /** After the four summary lines, the rows are the order lines, one per order, in order. */
  lemma RowsOrderLines(filtered: seq<Order>, amount: int -> string, date: Timestamp -> string)
    ensures forall i :: 0 <= i < |filtered| ==> Rows(filtered, amount, date)[4 + i] == OrderLine(filtered[i], amount, date)
  {
  }

  lemma ReportIsJoin(orders: seq<Order>, start: Option<Timestamp>, end: Option<Timestamp>,
                     amount: int -> string, date: Timestamp -> string)
    ensures Report(orders, start, end, amount, date) == Join([Header] + Rows(ReportOrders(orders, start, end), amount, date), '\n')
  {
    var lines := [Header] + Rows(ReportOrders(orders, start, end), amount, date);
    assert lines[1..] == Rows(ReportOrders(orders, start, end), amount, date);
  }

  lemma LinesHaveNoBreaks(orders: seq<Order>, filtered: seq<Order>, amount: int -> string, date: Timestamp -> string)
    requires NoBreaks(orders, amount, date)
    requires forall o :: o in filtered ==> o in orders
    ensures forall i :: 0 <= i < |[Header] + Rows(filtered, amount, date)| ==> '\n' !in ([Header] + Rows(filtered, amount, date))[i]
  {
    var rows := Rows(filtered, amount, date);
    RowsHaveNoBreaks(orders, filtered, amount, date);
    assert '\n' !in Header;
    forall i | 0 <= i < |[Header] + rows| ensures '\n' !in ([Header] + rows)[i] {
      if i > 0 {
        assert ([Header] + rows)[i] == rows[i - 1];
      }
    }
  }

  /** No summary or order line contains a line break. */
  lemma RowsHaveNoBreaks(orders: seq<Order>, filtered: seq<Order>, amount: int -> string, date: Timestamp -> string)
    requires NoBreaks(orders, amount, date)
    requires forall o :: o in filtered ==> o in orders
    ensures forall i :: 0 <= i < |Rows(filtered, amount, date)| ==> '\n' !in Rows(filtered, amount, date)[i]
  {
    var rows := Rows(filtered, amount, date);
    assert forall i :: 0 <= i < 4 ==> '\n' !in rows[i] by {
      SummaryRowsHaveNoBreaks(filtered, amount, date);
    }
    forall i | 4 <= i < |rows| ensures '\n' !in rows[i] {
      FilteredLineHasNoBreak(orders, filtered, i - 4, amount, date);
    }
  }

  /** The four summary lines have no line break when the rendered revenue has none. */
  lemma SummaryRowsHaveNoBreaks(filtered: seq<Order>, amount: int -> string, date: Timestamp -> string)
    requires '\n' !in amount(Revenue(filtered))
    ensures forall i :: 0 <= i < 4 ==> '\n' !in Rows(filtered, amount, date)[i]
  {
    var rows := Rows(filtered, amount, date);
    var summary := SummaryLines(amount(Revenue(filtered)), |Emails(filtered)|, |filtered|);
    SummaryHasNoBreaks(amount(Revenue(filtered)), |Emails(filtered)|, |filtered|);
    assert rows[0] == summary[0] && rows[1] == summary[1] && rows[2] == summary[2] && rows[3] == summary[3];
  }

  /** The row of an order taken from the fetched orders has no line break. */
  lemma FilteredLineHasNoBreak(orders: seq<Order>, filtered: seq<Order>, k: int, amount: int -> string, date: Timestamp -> string)
    requires NoBreaks(orders, amount, date)
    requires forall o :: o in filtered ==> o in orders
    requires 0 <= k < |filtered|
    ensures '\n' !in Rows(filtered, amount, date)[4 + k]
  {
    assert filtered[k] in orders;
    OrderLineHasNoBreak(filtered[k], amount, date);
    RowsOrderLines(filtered, amount, date);
  }

  lemma SummaryHasNoBreaks(revenue: string, customers: nat, count: nat)
    requires '\n' !in revenue
    ensures var r := SummaryLines(revenue, customers, count);
      '\n' !in r[0] && '\n' !in r[1] && '\n' !in r[2] && '\n' !in r[3]
  {
    RevenueLineHasNoBreak(revenue, customers, count);
    CustomersLineHasNoBreak(revenue, customers, count);
    OrdersLineHasNoBreak(revenue, customers, count);
  }

  lemma RevenueLineHasNoBreak(revenue: string, customers: nat, count: nat)
    requires '\n' !in revenue
    ensures '\n' !in SummaryLines(revenue, customers, count)[0]
  {
    NoBreakConcat("Total Revenue (Filtered),Frw ", revenue);
    NoBreakConcat("Total Revenue (Filtered),Frw " + revenue, "," + RevenueTrend + "%,");
  }

  lemma CustomersLineHasNoBreak(revenue: string, customers: nat, count: nat)
    ensures '\n' !in SummaryLines(revenue, customers, count)[1]
  {
    NoBreakInDigits(customers);
    NoBreakConcat("Total Customers (Filtered),", NatToString(customers));
    NoBreakConcat("Total Customers (Filtered)," + NatToString(customers), "," + CustomersTrend + "%,");
  }

  lemma OrdersLineHasNoBreak(revenue: string, customers: nat, count: nat)
    ensures '\n' !in SummaryLines(revenue, customers, count)[2]
  {
    NoBreakInDigits(count);
    NoBreakConcat("Total Orders (Filtered),", NatToString(count));
    NoBreakConcat("Total Orders (Filtered)," + NatToString(count), "," + OrdersTrend + "%,");
  }

  /** A concatenation of two pieces without a line break has none. */
  lemma NoBreakConcat(a: string, b: string)
    requires '\n' !in a && '\n' !in b
    ensures '\n' !in a + b
  {
  }

  lemma OrderLineHasNoBreak(o: Order, amount: int -> string, date: Timestamp -> string)
    requires '\n' !in amount(o.totalAmount) && '\n' !in date(o.createdAt)
    requires o.customerEmail.Some? ==> '\n' !in o.customerEmail.value
    ensures '\n' !in OrderLine(o, amount, date)
  {
  }

  /** `x || fallback` for a string. */
  function OrElse(x: string, fallback: string): (r: string)
    ensures x != [] ==> r == x
    ensures x == [] ==> r == fallback
  {
    if x == [] then fallback else x
  }

  /**
   * `admin_report_${startDate || "start"}_to_${endDate || "end"}.csv`: the
   * start date (or `start`) follows the fixed prefix, then `_to_` and the end
   * date (or `end`), and the name ends in `.csv`.
   */
  function ReportFileName(startDate: string, endDate: string): (r: string)
    ensures |r| == 21 + |OrElse(startDate, "start")| + |OrElse(endDate, "end")|
    ensures r[..13] == "admin_report_" && r[|r| - 4..] == ".csv"
    ensures r[13..13 + |OrElse(startDate, "start")|] == OrElse(startDate, "start")
    ensures r[13 + |OrElse(startDate, "start")|..|r| - 4] == "_to_" + OrElse(endDate, "end")
  {
    "admin_report_" + OrElse(startDate, "start") + "_to_" + OrElse(endDate, "end") + ".csv"
  }

  // ---------------------------------------------------------------------------
  // The page's state

  /** The result of looking up the signed-in user's row: an error, or the row's role (which may be null). */
  datatype RoleLookup = LookupFailed | Found(role: Option<string>)

  /** `userData?.role || null`: an empty role reads as no role. */
  function RoleOrNull(role: Option<string>): (r: Option<string>)
    ensures r.Some? <==> role.Some? && role.value != []
    ensures r.Some? ==> r == role
  {
    if role.Some? && role.value != [] then role else None
  }

  class AdminManagementPage {
    var totalRevenue: int
    var totalOrders: nat
    var totalCustomers: nat
    var salesData: seq<MonthTotal>
    var ordersData: seq<Order>
    var users: seq<User>
    var loading: bool
    var startDate: string
    var endDate: string
    var currentUserRole: Option<string>

    /** Zero figures, empty lists, no dates, no role, loading. */
    constructor ()
      ensures totalRevenue == 0 && totalOrders == 0 && totalCustomers == 0
      ensures salesData == [] && ordersData == [] && users == []
      ensures loading && startDate == [] && endDate == [] && currentUserRole == None
    {
      totalRevenue := 0;
      totalOrders := 0;
      totalCustomers := 0;
      salesData := [];
      ordersData := [];
      users := [];
      loading := true;
      startDate := [];
      endDate := [];
      currentUserRole := None;
    }

    /**
     * `fetchDashboardData`. With a signed-in user, a failed role lookup ends
     * the load with nothing else changed; otherwise the role is recorded.
     * Returned orders set the revenue, the order count, the raw orders and the
     * monthly series; no orders leave those as they were. The customer count
     * is the server's count or 0, the users the returned rows or none.
     */
    method FetchDashboardData(userId: Option<string>, lookup: RoleLookup, orders: Option<seq<Order>>,
                              count: Option<nat>, usersData: Option<seq<User>>, monthOf: MonthOf)
      modifies this
      ensures !loading
      ensures startDate == old(startDate) && endDate == old(endDate)
      ensures if userId.Some? && lookup.LookupFailed? then
          && currentUserRole == old(currentUserRole)
          && totalRevenue == old(totalRevenue) && totalOrders == old(totalOrders) && salesData == old(salesData)
          && ordersData == old(ordersData) && totalCustomers == old(totalCustomers) && users == old(users)
        else
          && currentUserRole == (if userId.Some? then RoleOrNull(lookup.role) else old(currentUserRole))
          && (orders.Some? ==>
                totalRevenue == Revenue(orders.value) && totalOrders == |orders.value|
                && ordersData == orders.value && salesData == MonthlySeries(orders.value, monthOf))
          && (orders.None? ==>
                totalRevenue == old(totalRevenue) && totalOrders == old(totalOrders)
                && ordersData == old(ordersData) && salesData == old(salesData))
          && totalCustomers == (if count.Some? then count.value else 0)
          && users == (if usersData.Some? then usersData.value else [])
    {
      if userId.Some? {
        if lookup.LookupFailed? {
          loading := false;
          return;
        }
        currentUserRole := RoleOrNull(lookup.role);
      }
      if orders.Some? {
        totalRevenue := Revenue(orders.value);
        totalOrders := |orders.value|;
        ordersData := orders.value;
        salesData := MonthlySales(orders.value, monthOf);
      }
      totalCustomers := if count.Some? then count.value else 0;
      users := if usersData.Some? then usersData.value else [];
      loading := false;
    }

    /** The two date inputs. */
    method SetDates(start: string, end: string)
      modifies this
      ensures startDate == start && endDate == end
      ensures totalRevenue == old(totalRevenue) && totalOrders == old(totalOrders) && totalCustomers == old(totalCustomers)
      ensures salesData == old(salesData) && ordersData == old(ordersData) && users == old(users)
      ensures loading == old(loading) && currentUserRole == old(currentUserRole)
    {
      startDate := start;
      endDate := end;
    }

    /** `downloadReport`: the file's name and its contents, for the current dates. */
    function DownloadReport(parse: string -> Timestamp, amount: int -> string, date: Timestamp -> string): (r: (string, string))
      reads this
      ensures r.0 == ReportFileName(startDate, endDate)
      ensures r.1 == Report(ordersData, Bound(startDate, parse), Bound(endDate, parse), amount, date)
    {
      (ReportFileName(startDate, endDate), Report(ordersData, Bound(startDate, parse), Bound(endDate, parse), amount, date))
    }

    /**
     * `toggleUserStatus`. Anyone but a `"supa-admin"` gets the refusal alert
     * and nothing changes. Otherwise the new status is the opposite of the
     * status shown, and once the server accepts it only the user with that
     * id takes it.
     */
    method ToggleUserStatus(userId: string, currentStatus: string, updateOk: bool) returns (alert: Option<string>)
      modifies this
      ensures currentUserRole != Some(SupaAdmin) ==> alert == Some(NotAllowedAlert) && users == old(users)
      ensures currentUserRole == Some(SupaAdmin) ==> alert == None
      ensures currentUserRole == Some(SupaAdmin) && updateOk ==> users == SetStatus(old(users), userId, NextStatus(currentStatus))
      ensures !updateOk ==> users == old(users)
      ensures totalRevenue == old(totalRevenue) && totalOrders == old(totalOrders) && totalCustomers == old(totalCustomers)
      ensures salesData == old(salesData) && ordersData == old(ordersData)
      ensures loading == old(loading) && currentUserRole == old(currentUserRole)
      ensures startDate == old(startDate) && endDate == old(endDate)
    {
      if currentUserRole != Some(SupaAdmin) {
        return Some(NotAllowedAlert);
      }
      alert := None;
      var newStatus := NextStatus(currentStatus);
      if updateOk {
        users := SetStatus(users, userId, newStatus);
      }
    }
  }
}
