/**
 * The product table of src/pages/ProductList.tsx: the search box, the
 * printable list (sorted by creation time and cut to a date range), deleting
 * a product, and the inline edit mode that changes a product's name, SKU,
 * price and quantity.
 */
module ProductList {
  import opened Common
  import opened Records
  import opened DateFilter

  // ---------------------------------------------------------------------------
  // Search

  /**
   * The search box's test: the lower-cased term occurs in the lower-cased
   * name, or in the lower-cased SKU when the product has one.
   */
  predicate Matches(p: Product, term: string)
  {
    Contains(Lower(p.name), Lower(term))
    || (p.sku.Some? && Contains(Lower(p.sku.value), Lower(term)))
  }

  /** The rows shown for a search term. */
  function Search(products: seq<Product>, term: string): (r: seq<Product>)
    ensures forall p :: p in r <==> p in products && Matches(p, term)
  {
    Keep(products, (p: Product) => Matches(p, term))
  }

  /** An empty search shows every product, in order. */
  lemma EmptySearchKeepsAll(products: seq<Product>)
    ensures Search(products, "") == products
  {
    forall p | p in products ensures Matches(p, "") {
      ContainsEmpty(Lower(p.name));
    }
    KeepAll(products, (p: Product) => Matches(p, ""));
  }

  /** The search ignores the case of the term: any term matches what its lower-cased form matches. */
  lemma SearchIgnoresCase(p: Product, term: string)
    ensures Matches(p, term) <==> Matches(p, Lower(term))
  {
    LowerIdempotent(term);
  }

  /** A product matches exactly when the term occurs at some position of its lower-cased name or SKU. */
  lemma MatchesAt(p: Product, term: string)
    ensures Matches(p, term) <==>
      (exists i :: OccursAt(Lower(p.name), Lower(term), i))
      || (p.sku.Some? && exists i :: OccursAt(Lower(p.sku.value), Lower(term), i))
  {
    ContainsAt(Lower(p.name), Lower(term));
    if p.sku.Some? {
      ContainsAt(Lower(p.sku.value), Lower(term));
    }
  }

  // ---------------------------------------------------------------------------
  // The printable list

  /** The sort's comparison: `a` was created no later than `b`. */
  predicate CreatedNoLater(a: Product, b: Product)
  {
    a.createdAt <= b.createdAt
  }

  /** The products created at instant `t`. */
  function CreatedAt(t: Timestamp): Product -> bool
  {
    (p: Product) => p.createdAt == t
  }

  /** `x` placed in front of the first product of `s` created no earlier than it. */
  function Insert(x: Product, s: seq<Product>): (r: seq<Product>)
    ensures multiset(r) == multiset(s) + multiset{x}
    ensures forall y :: y in r <==> y == x || y in s
  {
    if s == [] then [x]
    else if x.createdAt <= s[0].createdAt then [x] + s
    else
      assert s == [s[0]] + s[1..];
      [s[0]] + Insert(x, s[1..])
  }

  /** Inserting into an ordered list gives an ordered list. */
  lemma {:induction false} InsertOrdered(x: Product, s: seq<Product>)
    requires Ordered(s, CreatedNoLater)
    ensures Ordered(Insert(x, s), CreatedNoLater)
  {
    if s != [] && s[0].createdAt < x.createdAt {
      OrderedTail(s, CreatedNoLater);
      InsertOrdered(x, s[1..]);
      OrderedCons(s[0], Insert(x, s[1..]), CreatedNoLater);
    }
  }

  /**
   * `[...products].sort((a, b) => a.created_at - b.created_at)`: ascending
   * creation time. The result is ordered and holds the same products.
   */
  function SortByCreated(products: seq<Product>): (r: seq<Product>)
    ensures multiset(r) == multiset(products)
    ensures Ordered(r, CreatedNoLater)
  {
    if products == [] then []
    else
      assert products == [products[0]] + products[1..];
      InsertOrdered(products[0], SortByCreated(products[1..]));
      Insert(products[0], SortByCreated(products[1..]))
  }

  /** Two prefixes of which one is empty can be put in either order. */
  lemma SwapEmptyPrefix<T>(a: seq<T>, b: seq<T>, c: seq<T>)
    requires a == [] || b == []
    ensures a + (b + c) == b + (a + c)
  {
  }

  /** The products of `xs` created at `t`, in order. */
  function Tied(xs: seq<Product>, t: Timestamp): seq<Product>
  {
    Keep(xs, CreatedAt(t))
  }

  /** Inserting keeps, among the products of any one creation time, the order they had. */
  lemma {:induction false} InsertKeepsTies(x: Product, s: seq<Product>, t: Timestamp)
    ensures Keep(Insert(x, s), CreatedAt(t)) == (if x.createdAt == t then [x] else []) + Keep(s, CreatedAt(t))
  {
    if s == [] || x.createdAt <= s[0].createdAt {
      assert Insert(x, s) == [x] + s;
      KeepAppend([x], s, CreatedAt(t));
      assert [x][1..] == [];
    } else {
      InsertKeepsTies(x, s[1..], t);
      InsertPastHeadKeepsTies(x, s, t);
    }
  }

  /**
   * The step of `InsertKeepsTies` where `x` goes past the first product: if
   * inserting into the rest keeps the ties, so does inserting into `s`.
   */
  lemma InsertPastHeadKeepsTies(x: Product, s: seq<Product>, t: Timestamp)
    requires s != [] && s[0].createdAt < x.createdAt
    requires Tied(Insert(x, s[1..]), t) == (if x.createdAt == t then [x] else []) + Tied(s[1..], t)
    ensures Tied(Insert(x, s), t) == (if x.createdAt == t then [x] else []) + Tied(s, t)
  {
    var head := if x.createdAt == t then [x] else [];
    var first := if s[0].createdAt == t then [s[0]] else [];
    var r := Insert(x, s);
    assert r[0] == s[0] && r[1..] == Insert(x, s[1..]);
    assert Tied(r, t) == first + Tied(r[1..], t);
    assert Tied(s, t) == first + Tied(s[1..], t);
    SwapEmptyPrefix(first, head, Tied(s[1..], t));
  }

  /**
   * The sort is stable: the products created at the same instant come out
   * in the order they had in the input.
   */
  lemma {:induction false} SortIsStable(products: seq<Product>, t: Timestamp)
    ensures Keep(SortByCreated(products), CreatedAt(t)) == Keep(products, CreatedAt(t))
  {
    if products != [] {
      SortIsStable(products[1..], t);
      InsertKeepsTies(products[0], SortByCreated(products[1..]), t);
    }
  }

  /** The date filter as a test on products. */
  function InDates(start: Option<Timestamp>, end: Option<Timestamp>): Product -> bool
  {
    (p: Product) => InRange(p.createdAt, start, end)
  }

  /** The rows `printAllProducts` prints: the products sorted by creation time, then cut to the date range. */
  function PrintList(products: seq<Product>, start: Option<Timestamp>, end: Option<Timestamp>): (r: seq<Product>)
    ensures |r| <= |products|
    ensures forall p :: p in r ==> p in products && InRange(p.createdAt, start, end)
  {
    var sorted := SortByCreated(products);
    assert |sorted| == |products| by {
      assert |multiset(sorted)| == |multiset(products)|;
    }
    assert forall p :: p in sorted ==> p in products by {
      forall p | p in sorted ensures p in products {
        assert p in multiset(sorted);
      }
    }
    Keep(sorted, InDates(start, end))
  }

  /**
   * The printed list is in ascending creation order, holds exactly the
   * products created within the range, and is left alone by filtering it again.
   */
  lemma PrintListProperties(products: seq<Product>, start: Option<Timestamp>, end: Option<Timestamp>)
    ensures Ordered(PrintList(products, start, end), CreatedNoLater)
    ensures forall p :: p in PrintList(products, start, end) <==> p in products && InRange(p.createdAt, start, end)
    ensures Keep(PrintList(products, start, end), InDates(start, end)) == PrintList(products, start, end)
  {
    var sorted := SortByCreated(products);
    KeepPreservesOrder(sorted, InDates(start, end), CreatedNoLater);
    KeepIdempotent(sorted, InDates(start, end));
    forall p ensures p in sorted <==> p in products {
      assert p in sorted <==> p in multiset(sorted);
    }
  }

  /** With no dates chosen, every product is printed, sorted. */
  lemma PrintListNoDates(products: seq<Product>)
    ensures PrintList(products, None, None) == SortByCreated(products)
  {
    KeepAll(SortByCreated(products), InDates(None, None));
  }

  // ---------------------------------------------------------------------------
  // Deleting and editing

  /** `products.filter((product) => product.id !== id)`. */
  function DeleteById(products: seq<Product>, id: string): (r: seq<Product>)
    ensures forall p :: p in r <==> p in products && p.id != id
  {
    Keep(products, (p: Product) => p.id != id)
  }

  /** Deleting the one product with that id leaves the products before and after it, in order. */
  lemma DeleteRemovesOnlyTarget(before: seq<Product>, target: Product, after: seq<Product>)
    requires forall p :: p in before + after ==> p.id != target.id
    ensures DeleteById(before + [target] + after, target.id) == before + after
  {
    KeepSplice(before, target, after, (p: Product) => p.id != target.id);
  }

  /**
   * `editedProduct`, a `Partial<Product>`: the fields the edit row has set.
   * `sku` is `Some(None)` when the product's null SKU was copied in.
   */
  datatype Patch = Patch(name: Option<string>, sku: Option<Option<string>>, price: Option<int>, quantity: Option<int>)

  /** `{}`. */
  const NoEdits := Patch(None, None, None, None)

  /** The row's inputs, one field at a time: `handleEditChange(field, value)`. */
  datatype FieldEdit = SetName(name: string) | SetSku(sku: string) | SetPrice(price: int) | SetQuantity(quantity: int)

  /** `{ ...prev, [field]: value }`. */
  function Change(patch: Patch, edit: FieldEdit): (r: Patch)
    ensures edit.SetName? ==> r == patch.(name := Some(edit.name))
    ensures edit.SetSku? ==> r == patch.(sku := Some(Some(edit.sku)))
    ensures edit.SetPrice? ==> r == patch.(price := Some(edit.price))
    ensures edit.SetQuantity? ==> r == patch.(quantity := Some(edit.quantity))
  {
    match edit
    case SetName(n) => patch.(name := Some(n))
    case SetSku(s) => patch.(sku := Some(Some(s)))
    case SetPrice(v) => patch.(price := Some(v))
    case SetQuantity(q) => patch.(quantity := Some(q))
  }

  /** What `handleEditStart` copies from the product: its name, SKU, price and quantity. */
  function StartPatch(p: Product): (r: Patch)
    ensures r.name.Some? && r.sku.Some? && r.price.Some? && r.quantity.Some?
    ensures forall q :: Apply(q, r) == q.(name := p.name, sku := p.sku, price := p.price, quantity := p.quantity)
  {
    Patch(Some(p.name), Some(p.sku), Some(p.price), Some(p.quantity))
  }

  /** `{ ...product, ...editedProduct }`: every field the patch sets replaces the product's. */
  function Apply(p: Product, patch: Patch): (r: Product)
    ensures r.id == p.id
  {
    p.(name := if patch.name.Some? then patch.name.value else p.name,
       sku := if patch.sku.Some? then patch.sku.value else p.sku,
       price := if patch.price.Some? then patch.price.value else p.price,
       quantity := if patch.quantity.Some? then patch.quantity.value else p.quantity)
  }

  /**
   * Saving an untouched edit changes nothing; applying a patch twice is
   * applying it once; an empty patch changes nothing; and only the four
   * editable fields can change.
   */
  lemma ApplyProperties(p: Product, patch: Patch)
    ensures Apply(p, StartPatch(p)) == p
    ensures Apply(Apply(p, patch), patch) == Apply(p, patch)
    ensures Apply(p, NoEdits) == p
    ensures Apply(p, patch) == p.(name := Apply(p, patch).name, sku := Apply(p, patch).sku,
                                  price := Apply(p, patch).price, quantity := Apply(p, patch).quantity)
  {
  }

  /** The edits made after starting to edit `p` show in the saved product, field by field. */
  lemma {:induction false} EditsShow(p: Product, edits: seq<FieldEdit>, q: Product)
    ensures var r := Apply(q, Changes(StartPatch(p), edits));
      && r.name == LastName(edits, p.name)
      && r.sku == LastSku(edits, p.sku)
      && r.price == LastPrice(edits, p.price)
      && r.quantity == LastQuantity(edits, p.quantity)
  {
    if edits != [] {
      EditsShow(p, edits[..|edits| - 1], q);
    }
  }

  /** The patch after a series of edits. */
  function Changes(patch: Patch, edits: seq<FieldEdit>): Patch
  {
    if edits == [] then patch else Change(Changes(patch, edits[..|edits| - 1]), edits[|edits| - 1])
  }

  /** The name the last name edit typed, or `name` when there was none. */
  function LastName(edits: seq<FieldEdit>, name: string): string
  {
    if edits == [] then name
    else if edits[|edits| - 1].SetName? then edits[|edits| - 1].name
    else LastName(edits[..|edits| - 1], name)
  }

  /** The SKU the last SKU edit typed, or `sku` when there was none. */
  function LastSku(edits: seq<FieldEdit>, sku: Option<string>): Option<string>
  {
    if edits == [] then sku
    else if edits[|edits| - 1].SetSku? then Some(edits[|edits| - 1].sku)
    else LastSku(edits[..|edits| - 1], sku)
  }

  /** The price the last price edit entered, or `price` when there was none. */
  function LastPrice(edits: seq<FieldEdit>, price: int): int
  {
    if edits == [] then price
    else if edits[|edits| - 1].SetPrice? then edits[|edits| - 1].price
    else LastPrice(edits[..|edits| - 1], price)
  }

  /** The quantity the last quantity edit entered, or `quantity` when there was none. */
  function LastQuantity(edits: seq<FieldEdit>, quantity: int): int
  {
    if edits == [] then quantity
    else if edits[|edits| - 1].SetQuantity? then edits[|edits| - 1].quantity
    else LastQuantity(edits[..|edits| - 1], quantity)
  }

  /** `products.map((product) => product.id === id ? { ...product, ...editedProduct } : product)`. */
  function UpdateById(products: seq<Product>, id: string, patch: Patch): (r: seq<Product>)
    ensures |r| == |products|
    ensures forall i :: 0 <= i < |r| ==> r[i] == if products[i].id == id then Apply(products[i], patch) else products[i]
  {
    seq(|products|, (i: int) requires 0 <= i < |products| => if products[i].id == id then Apply(products[i], patch) else products[i])
  }

  /** Deleting a product after editing it is deleting it unedited. */
  lemma {:induction false} UpdateDeleteCommute(products: seq<Product>, id: string, patch: Patch)
    ensures DeleteById(UpdateById(products, id, patch), id) == DeleteById(products, id)
  {
    if products != [] {
      var u := UpdateById(products, id, patch);
      assert u[0].id == products[0].id;
      assert u[1..] == UpdateById(products[1..], id, patch);
      UpdateDeleteCommute(products[1..], id, patch);
    }
  }

  // ---------------------------------------------------------------------------
  // The page's state

  class ProductListPage {
    var products: seq<Product>
    var loading: bool
    var searchTerm: string
    var startDate: Option<Timestamp>
    var endDate: Option<Timestamp>
    var editingId: Option<string>
    var editedProduct: Patch

    /** Loading, with no products, no search, no dates and nothing being edited. */
    constructor ()
      ensures products == [] && loading && searchTerm == []
      ensures startDate == None && endDate == None
      ensures editingId == None && editedProduct == NoEdits
    {
      products := [];
      loading := true;
      searchTerm := [];
      startDate := None;
      endDate := None;
      editingId := None;
      editedProduct := NoEdits;
    }

    /** `fetchProducts`: the returned rows (or none) replace the list; a failed fetch keeps it. Loading ends either way. */
    method Fetch(result: Fetched<Product>)
      modifies this
      ensures products == if result.Returned? then result.Rows() else old(products)
      ensures !loading
      ensures searchTerm == old(searchTerm) && startDate == old(startDate) && endDate == old(endDate)
      ensures editingId == old(editingId) && editedProduct == old(editedProduct)
    {
      if result.Returned? {
        products := result.Rows();
      }
      loading := false;
    }

    /** The rows the table shows. */
    function Shown(): (r: seq<Product>)
      reads this
      ensures forall p :: p in r <==> p in products && Matches(p, searchTerm)
    {
      Search(products, searchTerm)
    }

    /** The rows the print button prints. */
    function Printed(): (r: seq<Product>)
      reads this
      ensures Ordered(r, CreatedNoLater)
      ensures forall p :: p in r <==> p in products && InRange(p.createdAt, startDate, endDate)
    {
      PrintListProperties(products, startDate, endDate);
      PrintList(products, startDate, endDate)
    }

    /**
     * `handleDelete`: only when the user confirms and the server deletes
     * the row is it removed from the list.
     */
    method Delete(id: string, confirmed: bool, deleteOk: bool)
      modifies this
      ensures products == if confirmed && deleteOk then DeleteById(old(products), id) else old(products)
      ensures loading == old(loading) && searchTerm == old(searchTerm)
      ensures startDate == old(startDate) && endDate == old(endDate)
      ensures editingId == old(editingId) && editedProduct == old(editedProduct)
    {
      if confirmed && deleteOk {
        products := DeleteById(products, id);
      }
    }

    /** `handleEditStart`: the row of `p` becomes editable, with its four fields copied in. */
    method EditStart(p: Product)
      modifies this
      ensures editingId == Some(p.id) && editedProduct == StartPatch(p)
      ensures products == old(products) && loading == old(loading) && searchTerm == old(searchTerm)
      ensures startDate == old(startDate) && endDate == old(endDate)
    {
      editingId := Some(p.id);
      editedProduct := StartPatch(p);
    }

    /** `handleEditChange`: one field of the edit is replaced. */
    method EditChange(edit: FieldEdit)
      modifies this
      ensures editedProduct == Change(old(editedProduct), edit)
      ensures editingId == old(editingId)
      ensures products == old(products) && loading == old(loading) && searchTerm == old(searchTerm)
      ensures startDate == old(startDate) && endDate == old(endDate)
    {
      editedProduct := Change(editedProduct, edit);
    }

    /**
     * `handleEditSave`: sends the edited fields; when the update succeeds the
     * edit is merged into the product with that id and edit mode ends,
     * otherwise nothing changes.
     */
    method EditSave(id: string, updateOk: bool) returns (sent: Patch)
      modifies this
      ensures sent == old(editedProduct)
      ensures updateOk ==> products == UpdateById(old(products), id, old(editedProduct))
      ensures updateOk ==> editingId == None && editedProduct == NoEdits
      ensures !updateOk ==> products == old(products) && editingId == old(editingId) && editedProduct == old(editedProduct)
      ensures loading == old(loading) && searchTerm == old(searchTerm)
      ensures startDate == old(startDate) && endDate == old(endDate)
    {
      sent := editedProduct;
      if updateOk {
        products := UpdateById(products, id, editedProduct);
        editingId := None;
        editedProduct := NoEdits;
      }
    }

    /** `handleEditCancel`: edit mode ends and the edit is dropped. */
    method EditCancel()
      modifies this
      ensures editingId == None && editedProduct == NoEdits
      ensures products == old(products) && loading == old(loading) && searchTerm == old(searchTerm)
      ensures startDate == old(startDate) && endDate == old(endDate)
    {
      editingId := None;
      editedProduct := NoEdits;
    }

    /** The search box and the two date inputs. */
    method SetFilters(term: string, start: Option<Timestamp>, end: Option<Timestamp>)
      modifies this
      ensures searchTerm == term && startDate == start && endDate == end
      ensures products == old(products) && loading == old(loading)
      ensures editingId == old(editingId) && editedProduct == old(editedProduct)
    {
      searchTerm := term;
      startDate := start;
      endDate := end;
    }
  }
}
