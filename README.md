# Inventory dashboard: a Dafny model of its page logic

The application is a React inventory and sales dashboard over a Supabase
backend. Its behaviour is spread over the page components: small
deterministic helpers and small state machines. This project models them.
The helpers cover:

- the orders table's pagination window;
- the product list's search, date filter, sort, edit and delete;
- the month reduction and the downloadable report of the admin pages;
- the stock and expiry classifiers;
- the company and category forms;
- the notification bell;
- the authentication context;
- the sign-up and login forms.

Each component becomes one module:

- State the component keeps in `useState` becomes a `class` whose methods
  change its fields.
- `filter`/`map`/`sort`/`reduce` expressions become functions.
- Loops that build their result step by step become methods with loop
  invariants, proved against a specification function:
  - the page-number list of `generatePageNumbers`;
  - the month accumulator of the dashboards.

Every call to the backend becomes a parameter carrying its outcome: the
returned rows, an error flag or a count. The same goes for the browser's
clock, locale and dialogs (`confirm`, the admin's choice of dates). A
timestamp is an integer number of milliseconds. A string is a sequence of
characters.

Shared modules:

- `Common` holds the JavaScript built-ins the pages use:
  - `filter` (`Keep`);
  - `includes` (`Contains`);
  - `toLowerCase` (`Lower`);
  - `trim` over the ECMAScript white-space set;
  - decimal rendering of counts;
  - `join`/`split` on a separator.
- `Records` holds the row types of src/types/database.ts.
- `DateFilter` holds the inclusive date-range test that the product list and
  the report share.
- `OrderStats` holds the revenue sum and the month reduction that both admin
  dashboards run.

## Model

| member | source | states |
|---|---|---|
| Common.Keep | src/pages/ProductList.tsx:52 | `filter` keeps exactly the elements satisfying the predicate, and never lengthens the list |
| Common.KeepAppend | src/pages/ProductList.tsx:155-168 | filtering a concatenation is the concatenation of the filtered parts |
| Common.KeepIdempotent | src/pages/ProductList.tsx:155-168 | filtering twice with the same test is filtering once |
| Common.KeepSplice | src/pages/ProductList.tsx:52 | removing the one failing element leaves the elements before and after it, in order |
| Common.OrderedTail | src/pages/ProductList.tsx:149-152 | the tail of an ordered list is ordered and its head comes before all of it |
| Common.OrderedCons | src/pages/ProductList.tsx:149-152 | an element before everything of an ordered list can be put in front of it |
| Common.KeepPreservesOrder | src/pages/ProductList.tsx:149-168 | filtering an ordered list keeps it ordered |
| Common.ContainsAt | src/pages/ProductList.tsx:109-110 | `includes` holds exactly when the term occurs at some position |
| Common.ContainsEmpty | src/pages/ProductList.tsx:107-111 | every string includes the empty term |
| Common.Lower | src/pages/ProductList.tsx:109 | `toLowerCase` keeps the length and maps each character |
| Common.LowerIdempotent | src/pages/ProductList.tsx:109 | lower-casing twice is lower-casing once, and leaves no upper-case letter |
| Common.TrimStartSpec | src/pages/Companies.tsx:51 | the left trim drops exactly the leading white space, stopping at a non-space |
| Common.TrimEndSpec | src/pages/Companies.tsx:51 | the right trim drops exactly the trailing white space, stopping at a non-space |
| Common.TrimSlice | src/pages/Companies.tsx:61-67 | `trim` returns a slice of the input with only white space around it, and the result has no white space at either end |
| Common.TrimIsTrimmedFrom | src/pages/Companies.tsx:61-67 | `trim` removes white space from the ends of its input and nothing else |
| Common.TrimBlank | src/pages/Companies.tsx:51 | a trimmed string is empty exactly when the input is all white space |
| Common.TrimIdempotent | src/pages/Companies.tsx:61-67 | trimming a trimmed string changes nothing |
| Common.NatToString | src/pages/AdminManagement.tsx:212-218 | a count renders as a non-empty string of digits without a leading zero |
| Common.NatToStringValue | src/pages/AdminManagement.tsx:212-218 | the rendered digits read back as the count |
| Common.SplitJoin | src/pages/AdminManagement.tsx:224-226 | splitting lines joined by a separator none of them contains gives the lines back |
| Common.SplitAfterPiece | src/pages/ExpiredProducts.tsx:38 | splitting at the first separator gives the piece before it, then the split of the rest |
| DateFilter.InRange | src/pages/ProductList.tsx:155-168 | the four-branch date test accepts a time exactly when every bound that is set holds, inclusively |
| DateFilter.InRangeBounds | src/pages/ProductList.tsx:155-168 | with no dates every time is kept, and each bound is inclusive: a start date alone, or an end date alone, keeps its own instant |
| ProductList.Search | src/pages/ProductList.tsx:107-111 | the search keeps exactly the products whose lower-cased name, or non-null lower-cased SKU, includes the lower-cased term |
| ProductList.EmptySearchKeepsAll | src/pages/ProductList.tsx:107-111 | an empty search term keeps every product, in order |
| ProductList.SearchIgnoresCase | src/pages/ProductList.tsx:109-110 | a term and its lower-cased form match the same products |
| ProductList.MatchesAt | src/pages/ProductList.tsx:109-110 | a product matches exactly when the term occurs at some position of its lower-cased name or SKU |
| ProductList.Insert | src/pages/ProductList.tsx:149-152 | one insertion step of the sort adds exactly that product |
| ProductList.InsertOrdered | src/pages/ProductList.tsx:149-152 | inserting into a list ordered by creation time keeps it ordered |
| ProductList.SortByCreated | src/pages/ProductList.tsx:149-152 | the sort returns a permutation of the products in ascending creation time |
| ProductList.InsertKeepsTies | src/pages/ProductList.tsx:149-152 | an insertion step keeps the products created at one instant in their original order |
| ProductList.InsertPastHeadKeepsTies | src/pages/ProductList.tsx:149-152 | when the inserted product goes past the first one, the ties of the rest carry over to the whole list |
| ProductList.SortIsStable | src/pages/ProductList.tsx:149-152 | products created at the same instant keep their relative order, as `Array.prototype.sort` promises |
| ProductList.PrintList | src/pages/ProductList.tsx:148-168 | the print-all list is no longer than the products and holds only products created within the date range |
| ProductList.PrintListProperties | src/pages/ProductList.tsx:149-168 | the printed list is ordered by creation time, holds exactly the products inside the date range, and refiltering it changes nothing |
| ProductList.PrintListNoDates | src/pages/ProductList.tsx:157-167 | with no dates set the printed list is the whole sorted list |
| ProductList.DeleteById | src/pages/ProductList.tsx:52 | delete keeps exactly the products with another id |
| ProductList.DeleteRemovesOnlyTarget | src/pages/ProductList.tsx:52 | deleting the one product with an id leaves all the others, in order |
| ProductList.Change | src/pages/ProductList.tsx:69-74 | an edit sets one field of the pending edit and keeps the others |
| ProductList.StartPatch | src/pages/ProductList.tsx:59-67 | starting an edit sets all four editable fields, and saving it unchanged onto any product gives that product the edited product's name, SKU, price and quantity |
| ProductList.Apply | src/pages/ProductList.tsx:92 | merging the edit into a product keeps its id |
| ProductList.ApplyProperties | src/pages/ProductList.tsx:59-92 | saving an untouched edit changes nothing; merging is idempotent; an empty edit changes nothing; only name, SKU, price and quantity can change |
| ProductList.EditsShow | src/pages/ProductList.tsx:59-92 | after starting an edit, the saved product carries, field by field, the last value typed into each field, or the original |
| ProductList.UpdateById | src/pages/ProductList.tsx:90-94 | the update merges the edit into the products with that id and leaves every other product unchanged, in place |
| ProductList.UpdateDeleteCommute | src/pages/ProductList.tsx:52-94 | deleting an edited product is deleting it unedited |
| ProductList.ProductListPage.Fetch | src/pages/ProductList.tsx:24-45 | returned rows (or none) replace the list; a failure keeps it; loading ends |
| ProductList.ProductListPage.Shown | src/pages/ProductList.tsx:107-111 | the table shows exactly the products matching the search term |
| ProductList.ProductListPage.Printed | src/pages/ProductList.tsx:148-168 | the print-all list is ordered and holds exactly the products inside the page's dates |
| ProductList.ProductListPage.Delete | src/pages/ProductList.tsx:47-57 | only a confirmed, accepted delete removes the products with that id; nothing else changes |
| ProductList.ProductListPage.EditStart | src/pages/ProductList.tsx:59-67 | editing starts on the product's id with a copy of its name, SKU, price and quantity |
| ProductList.ProductListPage.EditChange | src/pages/ProductList.tsx:69-74 | an input changes one field of the pending edit |
| ProductList.ProductListPage.EditSave | src/pages/ProductList.tsx:76-100 | an accepted save merges the edit into the products with that id and leaves edit mode; a failed one changes nothing |
| ProductList.ProductListPage.EditCancel | src/pages/ProductList.tsx:102-105 | cancel leaves edit mode with an empty edit |
| ProductList.ProductListPage.SetFilters | src/pages/ProductList.tsx:14-18 | the search and date inputs change only those fields |
| OrderStats.Revenue | src/pages/AdminDashboard.tsx:63-66 | the revenue `reduce` is never negative when no order amount is |
| OrderStats.NoNegativeAmountsEvery | src/pages/AdminDashboard.tsx:63-66 | the recursive no-negative-amount test used by the revenue contract holds exactly when every order's amount is non-negative |
| OrderStats.RevenueAppend | src/pages/AdminDashboard.tsx:63-66 | revenue is additive over concatenation |
| OrderStats.RevenuePartition | src/pages/AdminManagement.tsx:196-199 | the revenue of the orders that pass a test, plus that of those that fail it, is the total revenue |
| OrderStats.MonthSumSnoc | src/pages/AdminDashboard.tsx:71-77 | one more order adds its amount to its own month's sum and to no other |
| OrderStats.MonthKeysExact | src/pages/AdminDashboard.tsx:71-84 | the month labels are distinct, every order's month is among them, and each one is some order's month |
| OrderStats.MonthTotalsHasKey | src/pages/AdminDashboard.tsx:71-77 | a month is in the accumulator object exactly when it is a month key |
| OrderStats.MonthTotalsSum | src/pages/AdminDashboard.tsx:71-77 | every month in the accumulator object holds the sum of that month's orders |
| OrderStats.AccumulateMonths | src/pages/AdminDashboard.tsx:71-77 | the `reduce` loop builds the accumulator of the month fold and records its months in insertion order |
| OrderStats.MonthlySales | src/pages/AdminDashboard.tsx:71-84 | the accumulator loop followed by `Object.entries(...).map` produces the monthly series: one entry per month, with that month's total |
| OrderStats.SeriesSumsToRevenue | src/pages/AdminDashboard.tsx:63-84 | the monthly entries add up to the total revenue |
| OrderStats.SeriesForTotal | src/pages/AdminManagement.tsx:102-115 | over distinct labels covering every order's month, the series totals the revenue |
| OrderStats.FirstIndexIsFirst | src/pages/AdminDashboard.tsx:71-77 | the first-appearance index of a month holds that month and no earlier order does |
| OrderStats.MonthKeysFirstIndex | src/pages/AdminDashboard.tsx:71-77 | a month has a bucket exactly when some order falls in it |
| OrderStats.KeysInFirstAppearanceOrder | src/pages/AdminDashboard.tsx:79-84 | the series lists the months in the order of their first appearance among the orders |
| OrderStats.MonthsMergeAcrossYears | src/pages/AdminManagement.tsx:103-106 | two orders with the same month name, whatever the year, share one bucket holding both amounts |
| AdminDashboard.AdminDashboardPage.FetchDashboardData | src/pages/AdminDashboard.tsx:53-102 | returned orders set revenue, count and series, whose entries add up to the revenue; with none those keep their values; customers are the returned count or 0; loading ends |
| AdminManagement.NextStatus | src/pages/AdminManagement.tsx:245 | the new status is inactive exactly for an active user, and active otherwise |
| AdminManagement.NextStatusTwice | src/pages/AdminManagement.tsx:245 | toggling an active or inactive status twice restores it |
| AdminManagement.SetStatus | src/pages/AdminManagement.tsx:254-258 | the users with that id get the new status and every other user is unchanged, in place |
| AdminManagement.ToggleTwiceRestores | src/pages/AdminManagement.tsx:245-258 | toggling a user twice restores the user list |
| AdminManagement.ReportOrders | src/pages/AdminManagement.tsx:180-194 | the report keeps exactly the orders inside the date range, with the product list's inclusive semantics |
| AdminManagement.ReportOrdersNoDates | src/pages/AdminManagement.tsx:180-194 | with no dates every order is reported |
| AdminManagement.Emails | src/pages/AdminManagement.tsx:201-203 | the customer `Set` holds no empty email, since `filter(Boolean)` drops them |
| AdminManagement.EmailsExact | src/pages/AdminManagement.tsx:201-203 | the customer set holds exactly the non-empty emails of the orders |
| AdminManagement.CustomersAtMostOrders | src/pages/AdminManagement.tsx:196-203 | there are no more distinct customers than orders with an email, nor more of those than orders |
| AdminManagement.SummaryLines | src/pages/AdminManagement.tsx:211-217 | the report has exactly four summary lines |
| AdminManagement.OrderLine | src/pages/AdminManagement.tsx:218-222 | an order's line starts with `Order,Frw ` and ends with the customer's email, or `N/A` when there is none |
| AdminManagement.Rows | src/pages/AdminManagement.tsx:211-224 | the body is the four summary lines and one line per filtered order |
| AdminManagement.Report | src/pages/AdminManagement.tsx:205-226 | the report starts with the header line, followed by a line break |
| AdminManagement.ReportIsJoin | src/pages/AdminManagement.tsx:205-226 | the report is the header and the body lines joined by `\n`, with no quoting and no trailing newline |
| AdminManagement.ReportLines | src/pages/AdminManagement.tsx:205-226 | read back line by line, the report is the header, four summary lines, then exactly one line per filtered order, in order |
| AdminManagement.ReportSplit | src/pages/AdminManagement.tsx:205-226 | split back at `\n`, the report is the header followed by the body lines |
| AdminManagement.RowsOrderLines | src/pages/AdminManagement.tsx:211-223 | after the four summary lines, the body holds each order's line in order |
| AdminManagement.HeaderRowsOrderLines | src/pages/AdminManagement.tsx:205-226 | with the header in front, the line of the i-th order of the range is line 5 + i |
| AdminManagement.NoBreakInDigits | src/pages/AdminManagement.tsx:212-218 | a rendered count never contains a line break |
| AdminManagement.LinesHaveNoBreaks | src/pages/AdminManagement.tsx:205-224 | no header, summary or order line contains a line break |
| AdminManagement.RowsHaveNoBreaks | src/pages/AdminManagement.tsx:211-223 | no summary or order line contains a line break |
| AdminManagement.SummaryRowsHaveNoBreaks | src/pages/AdminManagement.tsx:211-217 | the four summary lines have no line break when the rendered revenue has none |
| AdminManagement.SummaryHasNoBreaks | src/pages/AdminManagement.tsx:211-217 | the summary lines contain no line break |
| AdminManagement.NoBreakConcat | src/pages/AdminManagement.tsx:211-223 | gluing two pieces without a line break gives none |
| AdminManagement.OrderLineHasNoBreak | src/pages/AdminManagement.tsx:218-222 | an order line contains no line break |
| AdminManagement.OrElse | src/pages/AdminManagement.tsx:230 | `x \|\| fallback` for a string: a non-empty `x` is kept, an empty one gives the fallback |
| AdminManagement.ReportFileName | src/pages/AdminManagement.tsx:230 | the file name is `admin_report_`, the start date (or `start`), `_to_`, the end date (or `end`), and `.csv`, in that order |
| AdminManagement.RoleOrNull | src/pages/AdminManagement.tsx:83 | the role is kept when non-empty and null otherwise |
| AdminManagement.AdminManagementPage.FetchDashboardData | src/pages/AdminManagement.tsx:68-140 | a failed role lookup aborts before any figure changes; otherwise the role, revenue, count, orders, series, customers and users are set from what was returned; loading ends |
| AdminManagement.AdminManagementPage.SetDates | src/pages/AdminManagement.tsx:296-306 | the date inputs change only the dates |
| AdminManagement.AdminManagementPage.DownloadReport | src/pages/AdminManagement.tsx:178-232 | the download is the report of the fetched orders between the chosen dates, under the report file name |
| AdminManagement.AdminManagementPage.ToggleUserStatus | src/pages/AdminManagement.tsx:235-258 | a user without role `supa-admin` gets the alert and nothing changes; otherwise an accepted update toggles that user's status only, and a failed one changes nothing |
| ExpiredProducts.TodayCutoff | src/pages/ExpiredProducts.tsx:38 | the cut-off is the prefix of the ISO time before its first `T` |
| ExpiredProducts.TodayCutoffIsFirstPiece | src/pages/ExpiredProducts.tsx:38 | the cut-off is the first piece of `split("T")` |
| ExpiredProducts.TodayCutoffOfTimestamp | src/pages/ExpiredProducts.tsx:38 | the cut-off of `date + "T" + time` is the date |
| ExpiredProducts.Search | src/pages/ExpiredProducts.tsx:77-83 | the search keeps exactly the products whose name, SKU, category or company includes the lower-cased term |
| ExpiredProducts.SearchProperties | src/pages/ExpiredProducts.tsx:77-83 | an empty term keeps all; case is ignored; a match on the category or company alone suffices |
| ExpiredProducts.DaysExpired | src/pages/ExpiredProducts.tsx:85-91 | the day count covers the gap, and is zero exactly when today and the expiry coincide |
| ExpiredProducts.DaysExpiredIsCeiling | src/pages/ExpiredProducts.tsx:85-91 | the day count is the least number of whole days covering the gap between the two instants |
| ExpiredProducts.DaysExpiredProperties | src/pages/ExpiredProducts.tsx:85-91 | the count is 0 exactly when the instants coincide, 1 for any gap of at most a day, and the same either way round |
| ExpiredProducts.ExpiredProductsPage.Fetch | src/pages/ExpiredProducts.tsx:35-60 | returned rows replace the list; a failure records the load error; loading ends |
| ExpiredProducts.ExpiredProductsPage.Delete | src/pages/ExpiredProducts.tsx:62-75 | a confirmed, accepted delete removes the product; a failed one records the delete error; unconfirmed, nothing changes |
| ExpiredProducts.ExpiredProductsPage.Shown | src/pages/ExpiredProducts.tsx:77-83 | the table shows exactly the products matching the search term |
| Companies.TrimForm | src/pages/Companies.tsx:61-67 | every field of the inserted row is trimmed |
| Companies.TrimFormKeepsFields | src/pages/Companies.tsx:61-67 | each field of the inserted row is the form's field of the same name with only white space removed from its ends |
| Companies.TrimFormProperties | src/pages/Companies.tsx:51-67 | trimming the row again changes nothing, and the name is blank exactly when it is all white space |
| Companies.DeleteById | src/pages/Companies.tsx:99 | delete keeps exactly the companies with another id |
| Companies.DeleteRemovesOnlyTarget | src/pages/Companies.tsx:99 | deleting the one company with an id leaves the others in order |
| Companies.CompaniesPage.Fetch | src/pages/Companies.tsx:31-47 | returned rows (or none) replace the list; a failure records the load error; loading ends |
| Companies.CompaniesPage.EditForm | src/pages/Companies.tsx:128-203 | the form's inputs change only the form |
| Companies.CompaniesPage.AddCompany | src/pages/Companies.tsx:49-89 | a blank name records the required error and sends nothing; otherwise the trimmed form is sent, returned rows go in front of the list and the form and error clear, or the failed error is recorded; not adding afterwards |
| Companies.CompaniesPage.DeleteCompany | src/pages/Companies.tsx:91-104 | a confirmed, accepted delete removes the company; a failed one records the error; unconfirmed, nothing changes |
| CategoryList.TrimForm | src/pages/CategoryList.tsx:52-56 | the inserted name and description are trimmed |
| CategoryList.TrimFormKeepsFields | src/pages/CategoryList.tsx:52-56 | the inserted name and description are the form's own with only white space removed from their ends |
| CategoryList.TrimFormProperties | src/pages/CategoryList.tsx:42-56 | trimming again changes nothing, and the name is blank exactly when it is all white space |
| CategoryList.DeleteById | src/pages/CategoryList.tsx:81 | delete keeps exactly the categories with another id |
| CategoryList.DeleteRemovesOnlyTarget | src/pages/CategoryList.tsx:81 | deleting the one category with an id leaves the others in order |
| CategoryList.CategoryListPage.Fetch | src/pages/CategoryList.tsx:22-38 | returned rows (or none) replace the list; a failure records the load error; loading ends |
| CategoryList.CategoryListPage.EditForm | src/pages/CategoryList.tsx:110-129 | the form's inputs change only the form |
| CategoryList.CategoryListPage.AddCategory | src/pages/CategoryList.tsx:40-71 | a blank name records the required error and sends nothing; otherwise the trimmed form is sent, returned rows are prepended and the form and error clear, or the failed error is recorded; not adding afterwards |
| CategoryList.CategoryListPage.DeleteCategory | src/pages/CategoryList.tsx:73-86 | a confirmed, accepted delete removes the category; a failed one records the error; unconfirmed, nothing changes |
| LowStocks.StatusClass | src/pages/LowStocks.tsx:57-61 | red exactly up to 7, orange exactly above 7 up to 20, yellow exactly above 20 |
| LowStocks.StatusClassMonotone | src/pages/LowStocks.tsx:57-61 | a smaller quantity is never less urgent than a larger one |
| LowStocks.ListedNeverYellow | src/pages/LowStocks.tsx:26-60 | quantities below the threshold are never yellow |
| Notification.MarkRead | src/components/Notification.tsx:53-57 | marking sets `read` on the notifications with that id and leaves all others unchanged, in place |
| Notification.MarkReadIdempotent | src/components/Notification.tsx:53-57 | marking the same notification twice is marking it once |
| Notification.UnreadAfterMark | src/components/Notification.tsx:36-57 | marking lowers the unread count by exactly the unread notifications with that id |
| Notification.NotificationBell.constructor | src/components/Notification.tsx:15-17 | no notifications, dropdown closed, badge 0, consistent |
| Notification.NotificationBell.Fetch | src/components/Notification.tsx:23-41 | returned rows replace the list and set the badge to their unread count; otherwise nothing changes |
| Notification.NotificationBell.MarkAsRead | src/components/Notification.tsx:43-62 | an accepted update marks the notification and lowers the badge by one but not below 0; the badge stays right when exactly one unread notification had the id, and goes wrong when the clicked one was already read; a failed update changes nothing |
| Notification.NotificationBell.ToggleDropdown | src/components/Notification.tsx:64-66 | the dropdown flips and nothing else changes |
| SalesDashboard.AllPages | src/pages/SalesDashboard.tsx:295-299 | pages 1 to `total` in order, none for a non-positive total |
| SalesDashboard.GeneratePageNumbers | src/pages/SalesDashboard.tsx:291-324 | the loop builds exactly the page window |
| SalesDashboard.AllPagesNumbers | src/pages/SalesDashboard.tsx:295-299 | the full list is exactly the numbers 1 to `total`, without ellipses |
| SalesDashboard.SmallTotalShowsEveryPage | src/pages/SalesDashboard.tsx:295-299 | with at most three pages every page is shown, ascending, without ellipses |
| SalesDashboard.LargeTotalShape | src/pages/SalesDashboard.tsx:300-321 | with more than three pages the window starts at page 1, ends at the last page, and has 3 to 5 entries |
| SalesDashboard.EndPageBar | src/pages/SalesDashboard.tsx:300-321 | on the first or last page the window is first, ellipsis, last |
| SalesDashboard.EllipsisPlacement | src/pages/SalesDashboard.tsx:305-317 | an ellipsis precedes the middle entry exactly when the current page is above 2, and follows it exactly when it is below the last but one |
| SalesDashboard.MiddleEntry | src/pages/SalesDashboard.tsx:309-312 | the current page is a middle entry exactly when it is neither the first nor the last |
| SalesDashboard.EllipsisCount | src/pages/SalesDashboard.tsx:305-317 | the number of ellipses is one per side condition that holds |
| SalesDashboard.NumbersAppend | src/pages/SalesDashboard.tsx:291-324 | the page numbers of a concatenation are those of each part |
| SalesDashboard.LargeTotalNumbers | src/pages/SalesDashboard.tsx:300-321 | with more than three pages the numbers shown are 1, the current page when it is neither end, and the last page |
| SalesDashboard.NumbersIncreasing | src/pages/SalesDashboard.tsx:300-321 | with the current page in range the numbers shown strictly increase and lie between 1 and the last page |
| SalesDashboard.PageOfRow | src/pages/SalesDashboard.tsx:70-71 | the page of a row is at least 1 |
| SalesDashboard.PageRanges | src/pages/SalesDashboard.tsx:62-71 | each page asks for exactly 8 rows, consecutive pages are adjacent and disjoint, and every row lies on its page |
| SalesDashboard.FirstRowOfPage | src/pages/SalesDashboard.tsx:545 | a row number on a page whose predecessor lies on an earlier page is `(page - 1) * 8 + 1` |
| SalesDashboard.PagesFor | src/pages/SalesDashboard.tsx:102-105 | the page count is the ceiling of the record count over 8 |
| SalesDashboard.WithDollar | src/pages/SalesDashboard.tsx:171-173 | the amount is kept or gets a `$` prefix |
| SalesDashboard.WithDollarIdempotent | src/pages/SalesDashboard.tsx:171-173 | the result starts with `$`, is kept exactly when it already did, and prefixing twice is prefixing once |
| SalesDashboard.ButtonNumberIsShown | src/pages/SalesDashboard.tsx:577 | a page button's number is among the window's numbers |
| SalesDashboard.PageNumbersPositive | src/pages/SalesDashboard.tsx:577 | every page button's number is at least 1 |
| SalesDashboard.OrdersPage.constructor | src/pages/SalesDashboard.tsx:46-61 | page 1 of 1, no records, blank form, modal closed |
| SalesDashboard.OrdersPage.PreviousPage | src/pages/SalesDashboard.tsx:554-558 | the page goes down by one but not below 1, and stays within the page count |
| SalesDashboard.OrdersPage.NextPage | src/pages/SalesDashboard.tsx:584-588 | the page goes up by one but not above the page count |
| SalesDashboard.OrdersPage.SelectPage | src/pages/SalesDashboard.tsx:577 | a number button selects its page, an ellipsis does nothing, and the page stays within the count |
| SalesDashboard.OrdersPage.ApplyCount | src/pages/SalesDashboard.tsx:102-105 | a non-zero count sets the record count and the page count to its ceiling over 8; a zero or missing count changes nothing |
| SalesDashboard.OrdersPage.ShowingFrom | src/pages/SalesDashboard.tsx:545 | the "showing from" figure counts a row on the current page whose predecessor is on an earlier page (or is 1), which FirstRowOfPage pins to `(currentPage - 1) * 8 + 1` |
| SalesDashboard.OrdersPage.ShowingTo | src/pages/SalesDashboard.tsx:549 | `Math.min`: the "showing to" figure is at most the current page's end and at most the record count, and equals one of them |
| SalesDashboard.OrdersPage.EditForm | src/pages/SalesDashboard.tsx:624-669 | the form's inputs change only the form |
| SalesDashboard.OrdersPage.AddOrder | src/pages/SalesDashboard.tsx:165-205 | a missing customer, product or amount alerts and sends nothing; otherwise the order goes out with a `$`-prefixed amount and the creation time, and success clears the form and closes the modal while failure alerts |
| AuthContext.RoleOrDefault | src/components/AuthContext.tsx:106-130 | the role is the given non-empty role, or `user` when it is missing or empty |
| AuthContext.FullNameOrDefault | src/components/AuthContext.tsx:116-129 | the full name is the given one, or empty when missing |
| AuthContext.IsAdminExactly | src/components/AuthContext.tsx:165 | admin exactly when the row's role is `admin`; never for `supa-admin` or the default role |
| AuthContext.UseAuth | src/components/AuthContext.tsx:185-189 | outside a provider the hook throws its message; inside it returns the context |
| AuthContext.AuthProvider.constructor | src/components/AuthContext.tsx:41-43 | nobody signed in, loading |
| AuthContext.AuthProvider.InitializeAuth | src/components/AuthContext.tsx:61-78 | an existing session sets the user and its row; loading ends |
| AuthContext.AuthProvider.OnAuthStateChange | src/components/AuthContext.tsx:72-77 | the user and row follow the new session, both null without one |
| AuthContext.AuthProvider.Login | src/components/AuthContext.tsx:84-100 | no error exactly on success; success sets the user and its row, failure returns the error and keeps them; loading ends |
| AuthContext.AuthProvider.Signup | src/components/AuthContext.tsx:102-149 | metadata and inserted row carry the same defaulted name and role; a rejected sign-up or a failed insert returns its error and sets no user; success sets the user and its row; loading ends |
| AuthContext.AuthProvider.Logout | src/components/AuthContext.tsx:151-162 | unless signing out throws, user and row become null and nobody is admin; loading ends |
| Signup.CheckFields | src/pages/Signup.tsx:19-27 | an empty field gives "Please fill in all fields", before the length check; a password under 6 characters gives the length error; otherwise no error |
| Signup.CheckFieldsBoundary | src/pages/Signup.tsx:19-27 | a 6-character password passes, a 5-character one fails, and an empty email is reported as a missing field |
| Signup.SignupForm.HandleSignup | src/pages/Signup.tsx:14-40 | both messages clear; a failed check sets its error and calls nothing; otherwise signup is called and the success message shows whatever it returned |
| Login.Destination | src/pages/Login.tsx:24-28 | `/admin-dashboard` exactly for an admin, `/dashboard` otherwise |
| Login.LoginForm.HandleLogin | src/pages/Login.tsx:12-32 | the error clears; an empty email or password sets the error and calls nothing; otherwise login is called and the form navigates by the admin flag whatever login returned |

## Left out

- Backend traffic: every select, insert, update, delete, count and
  authentication call is a parameter carrying its outcome. The server-side
  operators (`ilike`, `range`, `lt`, `lte`, `not`, `order`, `limit`) are not
  modelled. The rows they return are taken as given.
- Floating point: `parseFloat` of the sales amounts, the average sale (NaN
  with no orders), `toFixed`, and the currency formatting. Amounts are
  integers, and rendering a number is a function parameter.
- Dates and locales: `new Date(...)`, `toISOString`, `toLocaleString` and
  the month names are parameters (`monthOf`, `parse`, `date`). An invalid
  date (NaN) is not modelled.
- `Object.entries` lists integer-like keys first. The month series assumes
  the month labels are not array-index strings (locale month names never
  are).
- Browser effects are not modelled: print windows, the file-saver
  download, the simulated e-mail log, and the `setTimeout` redirect after
  sign-up. `alert` and `confirm` become a returned message and a
  `confirmed` parameter.
- The hard-coded growth and trend figures appear only as constant report
  text.
- React scheduling is not modelled:
  - each handler runs to completion on the state it starts from;
  - stale closures and effect re-runs are not modelled;
  - the list refresh that follows a successful insert or sign-up is left out.
- SalesDashboard's order deletion, statistics fetch and status badge colours
  are not modelled, and neither is LowStocks' fetch and error state.
- Common.Lower: maps only ASCII letters, not Unicode case mapping.
- Signup.CheckFields: counts characters, where JavaScript's `length`
  counts UTF-16 code units. A password with characters outside the Basic
  Multilingual Plane can pass in the browser with fewer characters.
- The report follows the code, not RFC 4180 CSV:
  - fields are never quoted;
  - lines are separated by `\n`, with no final newline;
  - there is no byte-order mark.

  `AdminManagement.ReportLines` assumes that the rendered amounts, dates
  and emails hold no line break.
- AuthContext.AuthProvider.Signup: a sign-up that the service accepts
  without a user object (a `TypeError` caught by the same handler) is not
  distinguished from an accepted one.
- The catch branches of the sign-up and login forms are not modelled. The
  provider's `signup` and `login` never throw, so those branches cannot
  run.
