/** The product catalog (src/components/Product/ProductCatalog.tsx): the
    request it sends, its retry back-off, the title and price filter, and
    adding a product to the cart. */
module ProductCatalog {
  import opened Wrappers
  import opened Text
  import opened Sequences
  import opened ProductsSlice
  import opened CartSlice
  import Storage

  const ProductsUrl := "https://fakestoreapi.com/products"

  // --------------------------------------------------------------- endpoint

  /** The URL `fetchProducts(category, sortOrder)` requests. */
  function Endpoint(category: string, sortOrder: string): (url: string)
    ensures ProductsUrl <= url
    ensures |url| >= |"?sort=" + sortOrder| && url[|url| - |"?sort=" + sortOrder|..] == "?sort=" + sortOrder
    ensures category == "" <==> url == ProductsUrl + "?sort=" + sortOrder
    ensures category != "" ==> ProductsUrl + "/category/" + category <= url
    ensures |url| == |ProductsUrl| + (if category == "" then 0 else |"/category/" + category|)
                     + |"?sort=" + sortOrder|
  {
    if category != "" then ProductsUrl + "/category/" + category + "?sort=" + sortOrder
    else ProductsUrl + "?sort=" + sortOrder
  }

  // ---------------------------------------------------------------- back-off

  const MaxRetryDelay := 30000

  /** `2 ** n`. */
  function Pow2(n: nat): (p: nat)
    ensures p >= 1
  {
    if n == 0 then 1 else 2 * Pow2(n - 1)
  }

  lemma {:induction false} Pow2Monotone(i: nat, j: nat)
    requires i <= j
    ensures Pow2(i) <= Pow2(j)
    decreases j
  {
    if i < j {
      Pow2Monotone(i, j - 1);
    }
  }

  /** `retryDelay`: `Math.min(100 * 2 ** attemptIndex, 30000)` milliseconds. */
  function RetryDelay(attemptIndex: nat): (ms: nat)
    ensures ms <= MaxRetryDelay
  {
    if 100 * Pow2(attemptIndex) < MaxRetryDelay then 100 * Pow2(attemptIndex) else MaxRetryDelay
  }

  lemma RetryDelayMonotone(i: nat, j: nat)
    requires i <= j
    ensures RetryDelay(i) <= RetryDelay(j)
  {
    Pow2Monotone(i, j);
  }

  /** The cap is first reached at the tenth attempt (index 9). */
  lemma RetryDelaySchedule(i: nat)
    ensures i <= 8 ==> RetryDelay(i) == 100 * Pow2(i)
    ensures i >= 9 ==> RetryDelay(i) == MaxRetryDelay
  {
    if i <= 8 {
      Pow2Monotone(i, 8);
      assert Pow2(8) == 256;
    } else {
      Pow2Monotone(9, i);
      assert Pow2(9) == 512;
    }
  }

  // ------------------------------------------------------------------ filter

  /** The maximum-price input: blank, or a limit. */
  datatype PriceQuery = Blank | Limit(max: int)

  /** The filter's test: the lower-cased title contains the lower-cased search
      text, and the price is within the limit, if any. */
  predicate Matches(p: Product, searchQuery: string, priceQuery: PriceQuery)
  {
    Contains(Lower(p.title), Lower(searchQuery))
    && (priceQuery.Blank? || p.price <= priceQuery.max)
  }

  /** `filteredProducts`. */
  function FilteredProducts(products: seq<Product>, searchQuery: string, priceQuery: PriceQuery): (r: seq<Product>)
    ensures IsSubsequence(r, products)
    ensures forall p :: p in r ==> Contains(Lower(p.title), Lower(searchQuery))
    ensures forall p :: p in r && priceQuery.Limit? ==> p.price <= priceQuery.max
    ensures forall p :: p in products && Matches(p, searchQuery, priceQuery) ==> p in r
    ensures forall p :: multiset(r)[p] == if Matches(p, searchQuery, priceQuery) then multiset(products)[p] else 0
  {
    Filter(products, p => Matches(p, searchQuery, priceQuery))
  }

  /** With no search text and no price limit every product is shown. */
  lemma BlankFilterKeepsAll(products: seq<Product>)
    ensures FilteredProducts(products, "", Blank) == products
  {
    forall p | p in products
      ensures Matches(p, "", Blank)
    {
      ContainsEmpty(Lower(p.title));
    }
    FilterKeepsAll(products, p => Matches(p, "", Blank));
  }

  // -------------------------------------------------------------- the page

  /** The catalog's own state. */
  class CatalogView {
    var category: string
    var sortOrder: string
    var searchQuery: string
    var priceQuery: PriceQuery

    constructor ()
      ensures category == "" && sortOrder == "asc" && searchQuery == "" && priceQuery == Blank
      ensures Endpoint(category, sortOrder) == ProductsUrl + "?sort=asc"
    {
      category, sortOrder, searchQuery, priceQuery := "", "asc", "", Blank;
    }

    method HandleCategoryClick(selected: string)
      modifies this`category
      ensures category == selected
    {
      category := selected;
    }

    method HandleSortChange(order: string)
      modifies this`sortOrder
      ensures sortOrder == order
    {
      sortOrder := order;
    }

    method HandleSearchChange(text: string)
      modifies this`searchQuery
      ensures searchQuery == text
    {
      searchQuery := text;
    }

    method HandlePriceChange(query: PriceQuery)
      modifies this`priceQuery
      ensures priceQuery == query
    {
      priceQuery := query;
    }
  }

  /** `handleAddToCart(id)`: `addItem` under the decimal text of the id. */
  method HandleAddToCart(cart: Cart, id: int)
    modifies cart, cart.store
    ensures cart.items == AddedItems(old(cart.items), IntToString(id)) && cart.Consistent()
    ensures cart.store.data == old(cart.store.data)[Storage.CartItemsKey := Storage.CartItems(cart.items)]
    ensures cart.Mirrored()
  {
    cart.AddItem(IntToString(id));
  }

  /** Distinct products never share a cart entry, and the entry's key reads
      back as the product id. */
  lemma CartKeyIdentifiesProduct(a: int, b: int)
    ensures IntToString(a) == IntToString(b) <==> a == b
    ensures NumberOf(IntToString(a)) == Some(a)
  {
    if IntToString(a) == IntToString(b) {
      IntToStringInjective(a, b);
    }
    NumberOfIntToString(a);
  }
}
