/** The cart reducer (src/features/cart/cartSlice.tsx): a mapping from product
    id to quantity, the derived `totalItems`, and the `cartItems` record that
    mirrors the mapping in storage. */
module CartSlice {
  import opened Storage

  type CartItems = map<string, int>

  // ------------------------------------------------------------ total items

  ghost function Pick(m: CartItems): (k: string)
    requires m != map[]
    ensures k in m
  {
    var k :| k in m; k
  }

  /** The sum of all quantities, `Object.values(items)` added up. */
  ghost function Sum(m: CartItems): int
    decreases |m|
  {
    if m == map[] then 0
    else
      var k := Pick(m);
      assert |m - {k}| < |m| by { assert (m - {k}).Keys == m.Keys - {k}; }
      m[k] + Sum(m - {k})
  }

  /** The sum does not depend on which key is taken out first. */
  lemma {:induction false} SumRemove(m: CartItems, k: string)
    requires k in m
    ensures Sum(m) == m[k] + Sum(m - {k})
    decreases |m|
  {
    var j := Pick(m);
    if j != k {
      assert (m - {j}).Keys == m.Keys - {j};
      assert (m - {k}).Keys == m.Keys - {k};
      SumRemove(m - {j}, k);
      SumRemove(m - {k}, j);
      assert m - {j} - {k} == m - {k} - {j};
    }
  }

  /** Replacing one quantity changes the sum by the difference. */
  lemma SumUpdate(m: CartItems, k: string, v: int)
    ensures Sum(m[k := v]) == Sum(m) - (if k in m then m[k] else 0) + v
  {
    SumRemove(m[k := v], k);
    assert m[k := v] - {k} == m - {k};
    if k in m {
      SumRemove(m, k);
    } else {
      assert m - {k} == m;
    }
  }

  /** `calculateTotalItems`: the `reduce` over the quantities. */
  method CalculateTotalItems(items: CartItems) returns (total: int)
    ensures total == Sum(items)
  {
    total := 0;
    var rest := items;
    while rest != map[]
      invariant total + Sum(rest) == Sum(items)
      decreases |rest|
    {
      var k :| k in rest;
      SumRemove(rest, k);
      assert (rest - {k}).Keys == rest.Keys - {k};
      total := total + rest[k];
      rest := rest - {k};
    }
  }

  // ------------------------------------------------- effect on the mapping

  /** `if (state.items[id])`: the id is present with a non-zero quantity. */
  predicate IsPresent(items: CartItems, id: string)
  {
    id in items && items[id] != 0
  }

  /** The cart invariant: every stored quantity is positive,
      so no entry is 0. */
  predicate AllPositive(items: CartItems)
  {
    forall k :: k in items ==> items[k] > 0
  }

  /** What `addItem(id)` does to `items`. */
  function AddedItems(items: CartItems, id: string): (r: CartItems)
    ensures r.Keys == items.Keys + {id}
    ensures r[id] == if IsPresent(items, id) then items[id] + 1 else 1
    ensures forall k :: k in items && k != id ==> r[k] == items[k]
    ensures AllPositive(items) ==> AllPositive(r)
  {
    if IsPresent(items, id) then items[id := items[id] + 1] else items[id := 1]
  }

  /** What `removeItem(id)` does to `items`. */
  function RemovedItems(items: CartItems, id: string): (r: CartItems)
    ensures !IsPresent(items, id) ==> r == items
    ensures IsPresent(items, id) && items[id] == 1 ==> r == items - {id}
    ensures IsPresent(items, id) && items[id] != 1 ==> r == items[id := items[id] - 1]
    ensures IsPresent(items, id) ==> id !in r || r[id] != 0
    ensures forall k :: k != id ==> (k in r <==> k in items)
    ensures AllPositive(items) ==> AllPositive(r)
  {
    if !IsPresent(items, id) then items
    else if items[id] - 1 == 0 then items - {id}
    else items[id := items[id] - 1]
  }

  /** Every `addItem` raises the total by exactly one, whatever the prior
      quantity (absent and 0 both become 1). */
  lemma AddedItemsSum(items: CartItems, id: string)
    ensures Sum(AddedItems(items, id)) == Sum(items) + 1
  {
    if IsPresent(items, id) {
      SumUpdate(items, id, items[id] + 1);
    } else {
      SumUpdate(items, id, 1);
    }
  }

  /** A `removeItem` that finds the id lowers the total by exactly one. */
  lemma RemovedItemsSum(items: CartItems, id: string)
    requires IsPresent(items, id)
    ensures Sum(RemovedItems(items, id)) == Sum(items) - 1
  {
    if items[id] == 1 {
      SumRemove(items, id);
    } else {
      SumUpdate(items, id, items[id] - 1);
    }
  }

  /** `removeItem` undoes `addItem`, unless the prior quantity was 0 (then
      `add` makes it 1 and `remove` deletes the entry) or -1 (then `add`
      makes it 0, which `remove` treats as absent). */
  lemma AddThenRemove(items: CartItems, id: string)
    requires id in items ==> items[id] != 0 && items[id] != -1
    ensures RemovedItems(AddedItems(items, id), id) == items
  {
    var added := AddedItems(items, id);
    if id in items {
      assert added == items[id := items[id] + 1];
      assert added[id := added[id] - 1] == items;
    } else {
      assert added - {id} == items;
    }
  }

  /** Both exceptions to AddThenRemove are real. */
  lemma AddThenRemoveExceptions()
    ensures RemovedItems(AddedItems(map["5" := 0], "5"), "5") == map[]
    ensures RemovedItems(AddedItems(map["5" := -1], "5"), "5") == map["5" := 0]
  {
    assert AddedItems(map["5" := 0], "5") == map["5" := 1];
    assert map["5" := 1] - {"5"} == map[];
    assert AddedItems(map["5" := -1], "5") == map["5" := 0];
  }

  /** On a cart with positive quantities the two exceptions cannot occur. */
  lemma AddThenRemovePositive(items: CartItems, id: string)
    requires AllPositive(items)
    ensures RemovedItems(AddedItems(items, id), id) == items
  {
    AddThenRemove(items, id);
  }

  // ----------------------------------------------------------- the reducer

  /** The cart slice's state, with the store its reducers write through. */
  class Cart {
    var items: CartItems
    var totalItems: int
    const store: Store

    /** `totalItems` equals the sum of the quantities. */
    ghost predicate Consistent()
      reads this
    {
      totalItems == Sum(items)
    }

    /** The stored `cartItems` record reads back as `items`. */
    ghost predicate Mirrored()
      reads this, store
    {
      StoredCartItems(store.data) == items
    }

    /** `initialState`: `items` come from storage but `totalItems` is 0,
        so Consistent() holds only once a hydrating reducer has run. */
    constructor (store: Store)
      ensures this.store == store
      ensures items == StoredCartItems(store.data) && totalItems == 0
      ensures Mirrored()
    {
      this.store := store;
      items := StoredCartItems(store.data);
      totalItems := 0;
    }

    /** `setCart`: replace the mapping and recompute the total. Storage is
        not written. */
    method SetCart(newItems: CartItems)
      modifies this
      ensures items == newItems && Consistent()
    {
      items := newItems;
      totalItems := CalculateTotalItems(newItems);
    }

    /** `addItem`. */
    method AddItem(id: string)
      modifies this, store
      ensures items == AddedItems(old(items), id) && Consistent()
      ensures old(Consistent()) ==> totalItems == old(totalItems) + 1
      ensures store.data == old(store.data)[CartItemsKey := CartItems(items)]
      ensures Mirrored()
    {
      if IsPresent(items, id) {
        items := items[id := items[id] + 1];
      } else {
        items := items[id := 1];
      }
      totalItems := CalculateTotalItems(items);
      AddedItemsSum(old(items), id);
      store.SetItem(CartItemsKey, CartItems(items));
      StoredCartItemsRoundTrip(old(store.data), items);
    }

    /** `removeItem`: when the id is absent or its quantity is 0, neither the
        state nor storage changes. */
    method RemoveItem(id: string)
      modifies this, store
      ensures items == RemovedItems(old(items), id)
      ensures IsPresent(old(items), id) ==> Consistent()
      ensures IsPresent(old(items), id) && old(Consistent()) ==> totalItems == old(totalItems) - 1
      ensures IsPresent(old(items), id) ==> store.data == old(store.data)[CartItemsKey := CartItems(items)]
      ensures !IsPresent(old(items), id) ==> totalItems == old(totalItems) && store.data == old(store.data)
      ensures old(Mirrored()) ==> Mirrored()
    {
      if IsPresent(items, id) {
        items := items[id := items[id] - 1];
        if items[id] == 0 {
          items := items - {id};
        }
        totalItems := CalculateTotalItems(items);
        RemovedItemsSum(old(items), id);
        store.SetItem(CartItemsKey, CartItems(items));
        StoredCartItemsRoundTrip(old(store.data), items);
      }
    }

    /** `clearCart`, dispatched by Logout. */
    method ClearCart()
      modifies this, store
      ensures items == map[] && totalItems == 0 && Consistent()
      ensures store.data == old(store.data) - {CartItemsKey}
      ensures Mirrored()
    {
      items := map[];
      totalItems := 0;
      store.RemoveItem(CartItemsKey);
    }

    /** `checkout`: the same local reset as `clearCart`; nothing is sent. */
    method Checkout()
      modifies this, store
      ensures items == map[] && totalItems == 0 && Consistent()
      ensures store.data == old(store.data) - {CartItemsKey}
      ensures Mirrored()
    {
      items := map[];
      totalItems := 0;
      store.RemoveItem(CartItemsKey);
    }

    /** The `initializeCart` thunk: `setCart` with the stored mapping. After
        any persisting reducer it gives back the same mapping. */
    method InitializeCart()
      modifies this
      ensures items == StoredCartItems(store.data) && Consistent()
      ensures old(Mirrored()) ==> items == old(items)
      ensures Mirrored()
    {
      SetCart(StoredCartItems(store.data));
    }
  }

  /** Scenario: add, add, remove, remove on an empty
      store, and a checkout that is idempotent. */
  method CartScenario()
  {
    var store := new Store(map[]);
    var cart := new Cart(store);
    assert cart.items == map[] && cart.totalItems == 0;
    cart.AddItem("5");
    assert cart.items == map["5" := 1] && cart.totalItems == 1;
    cart.AddItem("5");
    assert cart.items == map["5" := 2] && cart.totalItems == 2;
    cart.RemoveItem("5");
    assert cart.items == map["5" := 1] && cart.totalItems == 1;
    cart.RemoveItem("5");
    assert cart.items == map[] && cart.totalItems == 0;
    cart.AddItem("7");
    cart.Checkout();
    ghost var once := store.data;
    cart.Checkout();
    assert store.data == once && cart.items == map[] && cart.totalItems == 0;
  }
}
