/**
 * The orders page of src/pages/SalesDashboard.tsx: its pagination (the
 * numbered page buttons, the row range each page requests, the previous and
 * next buttons, the page count taken from the server's row count) and the
 * validation of the "add order" form.
 *
 * The page's own orders table has `customer`, `product` and `amount` text
 * columns, so a new order is its own datatype here rather than a `Records.Order`.
 */
module SalesDashboard {
  import opened Common

  /** `recordsPerPage`. */
  const RecordsPerPage: nat := 8

  /** `maxVisiblePages`: up to this many pages, every page gets a button. */
  const MaxVisiblePages: nat := 3

  /** One button of the pagination bar: a page number or the `"..."` filler. */
  datatype PageItem = Page(n: int) | Ellipsis

  /** `[1, 2, …, total]`, the buttons when every page is shown. */
  function AllPages(total: int): (r: seq<PageItem>)
    ensures |r| == if total < 0 then 0 else total
    ensures forall i :: 0 <= i < |r| ==> r[i] == Page(i + 1)
  {
    if total <= 0 then [] else AllPages(total - 1) + [Page(total)]
  }

  /** `[x]` when `c` holds, `[]` otherwise. */
  function When(c: bool, x: PageItem): seq<PageItem>
  {
    if c then [x] else []
  }

  /**
   * The buttons `generatePageNumbers` produces for the current page and the
   * page count: every page when there are at most three; otherwise the first
   * page, an ellipsis when the current page is past page 2, the current page
   * unless it is the first or the last, an ellipsis when the current page is
   * before the last but one, and the last page.
   */
  function PageNumbers(current: int, total: int): seq<PageItem>
  {
    if total <= MaxVisiblePages as int then AllPages(total)
    else
      [Page(1)]
      + When(current > 2, Ellipsis)
      + When(current != 1 && current != total, Page(current))
      + When(current < total - 1, Ellipsis)
      + [Page(total)]
  }

  /** `generatePageNumbers`, pushing onto a list one button at a time. */
  method GeneratePageNumbers(current: int, total: int) returns (items: seq<PageItem>)
    ensures items == PageNumbers(current, total)
  {
    items := [];
    if total <= MaxVisiblePages as int {
      var i := 1;
      while i <= total
        invariant 1 <= i <= if total < 0 then 1 else total + 1
        invariant items == AllPages(i - 1)
      {
        items := items + [Page(i)];
        i := i + 1;
      }
    } else {
      items := items + [Page(1)];
      if current > 2 {
        items := items + [Ellipsis];
      }
      if current != 1 && current != total {
        items := items + [Page(current)];
      }
      if current < total - 1 {
        items := items + [Ellipsis];
      }
      items := items + [Page(total)];
    }
  }

  /** The page numbers shown, in order. */
  function Numbers(items: seq<PageItem>): seq<int>
  {
    if items == [] then []
    else (if items[0].Page? then [items[0].n] else []) + Numbers(items[1..])
  }

  predicate StrictlyIncreasing(xs: seq<int>)
  {
    forall i, j :: 0 <= i < j < |xs| ==> xs[i] < xs[j]
  }

  /** How many ellipses a button list holds. */
  function Ellipses(items: seq<PageItem>): nat
  {
    Count(items, (it: PageItem) => it.Ellipsis?)
  }

  /** The list of every page numbers them 1, 2, …, `total` and holds no ellipsis. */
  lemma {:induction false} AllPagesNumbers(total: nat)
    ensures Numbers(AllPages(total)) == seq(total, (i: int) => i + 1)
    ensures Ellipses(AllPages(total)) == 0
  {
    if total > 0 {
      AllPagesNumbers(total - 1);
      NumbersAppend(AllPages(total - 1), [Page(total)]);
      KeepAppend(AllPages(total - 1), [Page(total)], (it: PageItem) => it.Ellipsis?);
    }
  }

  /** With at most three pages, the buttons are exactly the pages 1 to `total`, ascending. */
  lemma SmallTotalShowsEveryPage(current: int, total: int)
    requires 0 <= total <= MaxVisiblePages as int
    ensures Numbers(PageNumbers(current, total)) == seq(total, (i: int) => i + 1)
    ensures Ellipses(PageNumbers(current, total)) == 0
  {
    AllPagesNumbers(total);
  }

  /** With more than three pages, the bar starts at page 1, ends at the last page, and has 3 to 5 buttons. */
  lemma LargeTotalShape(current: int, total: int)
    requires total > MaxVisiblePages as int
    ensures var r := PageNumbers(current, total);
      && r[0] == Page(1) && r[|r| - 1] == Page(total)
      && 3 <= |r| <= 5
  {
  }

  /**
   * On the first or the last page, the bar is the first page, one ellipsis
   * and the last page.
   */
  lemma EndPageBar(current: int, total: int)
    requires total > MaxVisiblePages as int
    requires current == 1 || current == total
    ensures PageNumbers(current, total) == [Page(1), Ellipsis, Page(total)]
  {
  }

  /**
   * When the current page is shown between the ends, an ellipsis stands
   * before it exactly when the page is past page 2, and after it exactly when
   * the page is before the last but one.
   */
  lemma EllipsisPlacement(current: int, total: int)
    requires total > MaxVisiblePages as int
    requires current != 1 && current != total
    ensures var r := PageNumbers(current, total);
      && (r[1] == Ellipsis <==> current > 2)
      && (r[|r| - 2] == Ellipsis <==> current < total - 1)
      && (r[1] == Page(current) || r[2] == Page(current))
  {
  }

  /** The current page has a button between the ends exactly when it is neither the first nor the last page. */
  lemma MiddleEntry(current: int, total: int)
    requires total > MaxVisiblePages as int
    ensures var r := PageNumbers(current, total);
      Page(current) in r[1..|r| - 1] <==> current != 1 && current != total
  {
    var r := PageNumbers(current, total);
    if current == 1 || current == total {
      EndPageBar(current, total);
      assert r[1..|r| - 1] == [Ellipsis];
    } else {
      EllipsisPlacement(current, total);
      if r[1] == Page(current) {
        assert r[1..|r| - 1][0] == Page(current);
      } else {
        assert r[1..|r| - 1][1] == Page(current);
      }
    }
  }

  /** The number of ellipses: one for each side whose test holds, and none with three pages or fewer. */
  lemma EllipsisCount(current: int, total: int)
    requires total > MaxVisiblePages as int
    ensures Ellipses(PageNumbers(current, total)) == (if current > 2 then 1 else 0) + (if current < total - 1 then 1 else 0)
  {
    var isE := (it: PageItem) => it.Ellipsis?;
    var a, b, c := When(current > 2, Ellipsis), When(current != 1 && current != total, Page(current)), When(current < total - 1, Ellipsis);
    assert PageNumbers(current, total) == [Page(1)] + a + b + c + [Page(total)];
    KeepAppend([Page(1)] + a + b + c, [Page(total)], isE);
    KeepAppend([Page(1)] + a + b, c, isE);
    KeepAppend([Page(1)] + a, b, isE);
    KeepAppend([Page(1)], a, isE);
  }

  lemma {:induction false} NumbersAppend(a: seq<PageItem>, b: seq<PageItem>)
    ensures Numbers(a + b) == Numbers(a) + Numbers(b)
  {
    if a == [] {
      assert a + b == b;
    } else {
      var head := if a[0].Page? then [a[0].n] else [];
      assert (a + b)[0] == a[0];
      assert (a + b)[1..] == a[1..] + b;
      NumbersAppend(a[1..], b);
      assert Numbers(a + b) == head + (Numbers(a[1..]) + Numbers(b));
      assert Numbers(a) == head + Numbers(a[1..]);
      assert head + (Numbers(a[1..]) + Numbers(b)) == (head + Numbers(a[1..])) + Numbers(b);
    }
  }

  /** With more than three pages, the numbers on the bar are the first page, the current one when it is neither end, and the last. */
  lemma LargeTotalNumbers(current: int, total: int)
    requires total > MaxVisiblePages as int
    ensures Numbers(PageNumbers(current, total))
      == [1] + (if current != 1 && current != total then [current] else []) + [total]
  {
    var a, b, c := When(current > 2, Ellipsis), When(current != 1 && current != total, Page(current)), When(current < total - 1, Ellipsis);
    assert Numbers(a) == [] && Numbers(c) == [];
    assert Numbers(b) == if current != 1 && current != total then [current] else [];
    assert Numbers([Page(1)]) == [1] && Numbers([Page(total)]) == [total];
    NumbersAppend([Page(1)] + a + b + c, [Page(total)]);
    NumbersAppend([Page(1)] + a + b, c);
    NumbersAppend([Page(1)] + a, b);
    NumbersAppend([Page(1)], a);
  }

  /**
   * When the current page lies between 1 and the page count, the page
   * numbers on the bar are strictly increasing and all lie in that range, so
   * every numbered button leads to an existing page.
   */
  lemma NumbersIncreasing(current: int, total: int)
    requires 1 <= current <= total
    ensures StrictlyIncreasing(Numbers(PageNumbers(current, total)))
    ensures forall k :: k in Numbers(PageNumbers(current, total)) ==> 1 <= k <= total
  {
    if total <= MaxVisiblePages as int {
      SmallTotalShowsEveryPage(current, total);
    } else {
      LargeTotalNumbers(current, total);
    }
  }

  /** The first row index page `p` requests: `(currentPage - 1) * recordsPerPage`. */
  function RangeFrom(p: int): int
  {
    (p - 1) * RecordsPerPage as int
  }

  /** The last row index page `p` requests, inclusive: `from + recordsPerPage - 1`. */
  function RangeTo(p: int): int
  {
    RangeFrom(p) + RecordsPerPage as int - 1
  }

  /** The page on which row `row` (counted from 0) is shown. */
  function PageOfRow(row: nat): (p: int)
    ensures p >= 1
  {
    row / RecordsPerPage as int + 1
  }

  /**
   * Each page asks for exactly `RecordsPerPage` rows; the next page starts
   * right after it, so pages never overlap; and every row belongs to the
   * page `PageOfRow` names.
   */
  lemma PageRanges(p: int, row: nat)
    ensures RangeTo(p) - RangeFrom(p) + 1 == RecordsPerPage as int
    ensures RangeFrom(p + 1) == RangeTo(p) + 1
    ensures !(RangeFrom(p) <= row <= RangeTo(p) && RangeFrom(p + 1) <= row <= RangeTo(p + 1))
    ensures RangeFrom(PageOfRow(row)) <= row <= RangeTo(PageOfRow(row))
  {
  }

  /**
   * A row number (counted from 1) on page `p` whose predecessor lies on an
   * earlier page is that page's first row, `(p - 1) * recordsPerPage + 1`.
   */
  lemma FirstRowOfPage(p: int, r: int)
    requires r >= 1 && PageOfRow(r - 1) == p
    requires r == 1 || PageOfRow(r - 2) < p
    ensures r == RangeFrom(p) + 1
  {
    PageRanges(p, r - 1);
  }

  /** `Math.ceil(count / recordsPerPage)` for a positive count. */
  function PagesFor(count: nat): (pages: nat)
    ensures count > 0 ==> pages >= 1
    ensures (pages - 1) * RecordsPerPage as int < count <= pages * RecordsPerPage as int || (count == 0 && pages == 0)
  {
    (count + RecordsPerPage - 1) / RecordsPerPage
  }

  /** The fields of the "add order" form. */
  datatype OrderForm = OrderForm(customer: string, product: string, amount: string, status: string)

  /** The form as it starts and as it is reset after a successful insert. */
  const BlankForm := OrderForm("", "", "", "Pending")

  /** The row `addOrder` inserts. */
  datatype NewOrder = NewOrder(customer: string, product: string, amount: string, status: string, createdAt: int)

  /** `amount` with a `$` in front, unless it already starts with one. */
  function WithDollar(amount: string): (r: string)
    ensures r == amount || r == "$" + amount
  {
    if "$" <= amount then amount else "$" + amount
  }

  /** The formatted amount always starts with `$`, and formatting twice changes nothing more. */
  lemma WithDollarIdempotent(amount: string)
    ensures "$" <= WithDollar(amount)
    ensures WithDollar(WithDollar(amount)) == WithDollar(amount)
    ensures WithDollar(amount) == amount <==> "$" <= amount
  {
    if !("$" <= amount) {
      assert WithDollar(amount)[0] == '$';
    }
  }

  const MissingFieldsAlert := "Please fill all required fields"
  const AddFailedAlert := "Failed to add order"

  /** The state of the orders page that its handlers update. */
  class OrdersPage {
    var currentPage: int
    var totalPages: int
    var totalRecords: nat
    var newOrder: OrderForm
    var showAddModal: bool

    /** Page 1 of 1, no records, a blank form, the modal closed. */
    constructor ()
      ensures currentPage == 1 && totalPages == 1 && totalRecords == 0
      ensures newOrder == BlankForm && !showAddModal
      ensures Valid()
    {
      currentPage := 1;
      totalPages := 1;
      totalRecords := 0;
      newOrder := BlankForm;
      showAddModal := false;
    }

    /** There is always at least one page, and the current page is never below 1. */
    predicate Valid()
      reads this
    {
      1 <= currentPage && 1 <= totalPages
    }

    /** The previous-page button: `Math.max(prev - 1, 1)`. */
    method PreviousPage()
      requires Valid()
      modifies this
      ensures Valid()
      ensures currentPage == if old(currentPage) - 1 < 1 then 1 else old(currentPage) - 1
      ensures old(currentPage) <= totalPages ==> currentPage <= totalPages
      ensures totalPages == old(totalPages) && totalRecords == old(totalRecords)
      ensures newOrder == old(newOrder) && showAddModal == old(showAddModal)
    {
      currentPage := if currentPage - 1 < 1 then 1 else currentPage - 1;
    }

    /** The next-page button: `Math.min(prev + 1, totalPages)`. */
    method NextPage()
      requires Valid()
      modifies this
      ensures Valid()
      ensures currentPage == if old(currentPage) + 1 < totalPages then old(currentPage) + 1 else totalPages
      ensures currentPage <= totalPages
      ensures totalPages == old(totalPages) && totalRecords == old(totalRecords)
      ensures newOrder == old(newOrder) && showAddModal == old(showAddModal)
    {
      currentPage := if currentPage + 1 < totalPages then currentPage + 1 else totalPages;
    }

    /** A click on a button of the bar: a page number selects that page, an ellipsis does nothing. */
    method SelectPage(item: PageItem)
      requires Valid()
      requires item in PageNumbers(currentPage, totalPages)
      modifies this
      ensures Valid()
      ensures currentPage == if item.Page? then item.n else old(currentPage)
      ensures old(currentPage) <= totalPages ==> currentPage <= totalPages
      ensures totalPages == old(totalPages) && totalRecords == old(totalRecords)
      ensures newOrder == old(newOrder) && showAddModal == old(showAddModal)
    {
      if item.Page? {
        if currentPage <= totalPages {
          NumbersIncreasing(currentPage, totalPages);
        }
        ButtonNumberIsShown(PageNumbers(currentPage, totalPages), item);
        PageNumbersPositive(currentPage, totalPages);
        currentPage := item.n;
      }
    }

    /**
     * The fetch's row count: a non-zero count sets the record total and the
     * page count `ceil(count / 8)`; a zero or missing count leaves both as they were.
     */
    method ApplyCount(count: Option<nat>)
      requires Valid()
      modifies this
      ensures Valid()
      ensures count.Some? && count.value != 0 ==> totalRecords == count.value && totalPages == PagesFor(count.value)
      ensures !(count.Some? && count.value != 0) ==> totalRecords == old(totalRecords) && totalPages == old(totalPages)
      ensures currentPage == old(currentPage) && newOrder == old(newOrder) && showAddModal == old(showAddModal)
    {
      if count.Some? && count.value != 0 {
        totalRecords := count.value;
        totalPages := PagesFor(count.value);
      }
    }

    /**
     * `(currentPage - 1) * recordsPerPage + 1`, the first figure of "Showing
     * … to … of …": the number (counted from 1) of the first row the
     * current page asks for, which lies on that page.
     */
    function ShowingFrom(): (r: int)
      reads this
      ensures Valid() ==> r >= 1 && PageOfRow(r - 1) == currentPage
      ensures Valid() ==> r == 1 || PageOfRow(r - 2) < currentPage
    {
      RangeFrom(currentPage) + 1
    }

    /** `Math.min(currentPage * recordsPerPage, totalRecords)`: never past the last record. */
    function ShowingTo(): (r: int)
      reads this
      ensures r <= totalRecords
      ensures r <= RangeTo(currentPage) + 1
      ensures r == totalRecords || r == RangeTo(currentPage) + 1
    {
      if currentPage * RecordsPerPage as int < totalRecords then currentPage * RecordsPerPage as int else totalRecords
    }

    /** The form's input fields, changed one at a time. */
    method EditForm(form: OrderForm)
      modifies this
      ensures newOrder == form
      ensures currentPage == old(currentPage) && totalPages == old(totalPages) && totalRecords == old(totalRecords)
      ensures showAddModal == old(showAddModal)
    {
      newOrder := form;
    }

    /**
     * `addOrder`. A missing customer, product or amount raises the
     * "required fields" alert and sends nothing. Otherwise the row sent has
     * the amount prefixed with `$`; on success the form is reset and the
     * modal closed, on failure the "failed" alert is raised and the form kept.
     * `now` is the creation time taken from the clock; `insertOk` the result
     * of the insert.
     */
    method AddOrder(now: int, insertOk: bool) returns (sent: Option<NewOrder>, alert: Option<string>)
      modifies this
      ensures var f := old(newOrder);
        if f.customer == [] || f.product == [] || f.amount == [] then
          && sent == None && alert == Some(MissingFieldsAlert)
          && newOrder == old(newOrder) && showAddModal == old(showAddModal)
        else
          && sent == Some(NewOrder(f.customer, f.product, WithDollar(f.amount), f.status, now))
          && (insertOk ==> alert == None && newOrder == BlankForm && !showAddModal)
          && (!insertOk ==> alert == Some(AddFailedAlert) && newOrder == old(newOrder) && showAddModal == old(showAddModal))
      ensures currentPage == old(currentPage) && totalPages == old(totalPages) && totalRecords == old(totalRecords)
    {
      if newOrder.customer == [] || newOrder.product == [] || newOrder.amount == [] {
        return None, Some(MissingFieldsAlert);
      }
      var amount := WithDollar(newOrder.amount);
      sent := Some(NewOrder(newOrder.customer, newOrder.product, amount, newOrder.status, now));
      if insertOk {
        newOrder := BlankForm;
        showAddModal := false;
        alert := None;
      } else {
        alert := Some(AddFailedAlert);
      }
    }
  }

  /** A numbered button's page number is among the numbers of the bar. */
  lemma {:induction false} ButtonNumberIsShown(items: seq<PageItem>, item: PageItem)
    requires item in items && item.Page?
    ensures item.n in Numbers(items)
  {
    if items[0] == item {
    } else {
      ButtonNumberIsShown(items[1..], item);
    }
  }

  /** Every numbered button on the bar shows a page of at least 1, whenever the current page is at least 1. */
  lemma PageNumbersPositive(current: int, total: int)
    requires current >= 1
    ensures forall it :: it in PageNumbers(current, total) && it.Page? ==> it.n >= 1
  {
  }
}
