/**
 * The expired-products page of src/pages/ExpiredProducts.tsx: the cut-off
 * date it asks the server for, its search over four fields, deleting a
 * product (the same filter as the product list's), and the number of days
 * since a product expired.
 */
module ExpiredProducts {
  import opened Common
  import opened Records
  import ProductList

  /** `1000 * 60 * 60 * 24`: milliseconds in a day. */
  const MillisPerDay: nat := 86400000

  /**
   * `new Date().toISOString().split("T")[0]`: the part of the ISO timestamp
   * before its first `T` (the whole string when it has none).
   */
  function TodayCutoff(iso: string): (r: string)
    ensures 'T' !in r
    ensures |r| <= |iso| && r == iso[..|r|]
    ensures |r| < |iso| ==> iso[|r|] == 'T'
  {
    if iso == [] || iso[0] == 'T' then []
    else [iso[0]] + TodayCutoff(iso[1..])
  }

  /** The cut-off is what `split("T")` yields first: for `date + "T" + time`, it is `date`. */
  lemma {:induction false} TodayCutoffIsFirstPiece(iso: string)
    ensures TodayCutoff(iso) == Split(iso, 'T')[0]
  {
    if iso != [] && iso[0] != 'T' {
      TodayCutoffIsFirstPiece(iso[1..]);
    }
  }

  lemma TodayCutoffOfTimestamp(date: string, time: string)
    requires 'T' !in date
    ensures TodayCutoff(date + "T" + time) == date
  {
    TodayCutoffIsFirstPiece(date + "T" + time);
    SplitAfterPiece(date, time, 'T');
  }

  // ---------------------------------------------------------------------------
  // Search

  /** `s?.toLowerCase().includes(term.toLowerCase())` for an optional field. */
  predicate FieldMatches(field: Option<string>, term: string)
  {
    field.Some? && Contains(Lower(field.value), Lower(term))
  }

  /** The search box's test: the term occurs, ignoring case, in the name, SKU, category name or company name. */
  predicate Matches(p: Product, term: string)
  {
    Contains(Lower(p.name), Lower(term))
    || FieldMatches(p.sku, term)
    || FieldMatches(p.categoryName, term)
    || FieldMatches(p.companyName, term)
  }

  /** The rows shown for a search term. */
  function Search(products: seq<Product>, term: string): (r: seq<Product>)
    ensures forall p :: p in r <==> p in products && Matches(p, term)
  {
    Keep(products, (p: Product) => Matches(p, term))
  }

  /**
   * An empty search shows every product; any term matches what its
   * lower-cased form matches; and a product matching on its SKU, category
   * or company name is shown even when its name does not match.
   */
  lemma SearchProperties(products: seq<Product>, p: Product, term: string)
    ensures Search(products, "") == products
    ensures Matches(p, term) <==> Matches(p, Lower(term))
    ensures FieldMatches(p.categoryName, term) || FieldMatches(p.companyName, term) ==> Matches(p, term)
  {
    forall q | q in products ensures Matches(q, "") {
      ContainsEmpty(Lower(q.name));
    }
    KeepAll(products, (q: Product) => Matches(q, ""));
    LowerIdempotent(term);
  }

  // ---------------------------------------------------------------------------
  // Days expired

  /** `Math.abs(today.getTime() - expiry.getTime())`. */
  function Gap(today: Timestamp, expiry: Timestamp): nat
  {
    if today >= expiry then today - expiry else expiry - today
  }

  /** `Math.ceil(diffTime / (1000 * 60 * 60 * 24))` for the whole-millisecond gap. */
  function DaysExpired(today: Timestamp, expiry: Timestamp): (days: nat)
    ensures Gap(today, expiry) <= days * MillisPerDay
    ensures days == 0 <==> today == expiry
  {
    (Gap(today, expiry) + MillisPerDay - 1) / MillisPerDay
  }

  /**
   * The count is the ceiling of the gap in days: the gap fits in `days`
   * whole days but not in one fewer.
   */
  lemma DaysExpiredIsCeiling(today: Timestamp, expiry: Timestamp)
    ensures var days := DaysExpired(today, expiry);
      (days - 1) * MillisPerDay < Gap(today, expiry) <= days * MillisPerDay
  {
  }

  /**
   * The count is 0 exactly when the two instants coincide, 1 for any gap of
   * up to one day, and the same whichever side of today the expiry lies on.
   */
  lemma DaysExpiredProperties(today: Timestamp, expiry: Timestamp)
    ensures DaysExpired(today, expiry) == 0 <==> today == expiry
    ensures 0 < Gap(today, expiry) <= MillisPerDay ==> DaysExpired(today, expiry) == 1
    ensures DaysExpired(today, expiry) == DaysExpired(expiry, today)
    ensures DaysExpired(today + MillisPerDay, today) == 1
  {
    DaysExpiredIsCeiling(today, expiry);
  }

  // ---------------------------------------------------------------------------
  // The page's state

  const LoadFailed := "Failed to load expired products"
  const DeleteFailed := "Failed to delete product"

  class ExpiredProductsPage {
    var products: seq<Product>
    var loading: bool
    var error: Option<string>
    var searchTerm: string

    constructor ()
      ensures products == [] && loading && error == None && searchTerm == []
    {
      products := [];
      loading := true;
      error := None;
      searchTerm := [];
    }

    /**
     * `fetchExpiredProducts`: returned rows (or none) replace the list; a
     * failed fetch keeps it and records the load error. Loading ends either way.
     */
    method Fetch(result: Fetched<Product>)
      modifies this
      ensures result.Returned? ==> products == result.Rows() && error == old(error)
      ensures result.Failed? ==> products == old(products) && error == Some(LoadFailed)
      ensures !loading && searchTerm == old(searchTerm)
    {
      loading := true;
      if result.Returned? {
        products := result.Rows();
      } else {
        error := Some(LoadFailed);
      }
      loading := false;
    }

    /**
     * `handleDeleteProduct`: nothing happens unless the user confirms; then
     * a successful delete removes the product from the list and a failed
     * one records the delete error.
     */
    method Delete(id: string, confirmed: bool, deleteOk: bool)
      modifies this
      ensures confirmed && deleteOk ==> products == ProductList.DeleteById(old(products), id) && error == old(error)
      ensures confirmed && !deleteOk ==> products == old(products) && error == Some(DeleteFailed)
      ensures !confirmed ==> products == old(products) && error == old(error)
      ensures loading == old(loading) && searchTerm == old(searchTerm)
    {
      if !confirmed {
        return;
      }
      if deleteOk {
        products := ProductList.DeleteById(products, id);
      } else {
        error := Some(DeleteFailed);
      }
    }

    /** The rows the table shows. */
    function Shown(): (r: seq<Product>)
      reads this
      ensures forall p :: p in r <==> p in products && Matches(p, searchTerm)
    {
      Search(products, searchTerm)
    }
  }
}
