/** The home page (src/components/Homepage.tsx): cart hydration on mount and
    the two screens it shows. */
module Homepage {
  import opened Wrappers
  import opened Text
  import opened Storage
  import opened CartSlice

  /** The mount effect: `setCart` with the stored mapping, or `{}`. */
  method Mount(cart: Cart)
    modifies cart
    ensures cart.items == StoredCartItems(cart.store.data) && cart.Consistent()
    ensures cart.store.data == old(cart.store.data)
    ensures old(cart.Mirrored()) ==> cart.items == old(cart.items)
  {
    cart.SetCart(StoredCartItems(cart.store.data));
  }

  /** The cart button's count text (`t(key)` standing for `key`). */
  function CartLabel(count: int): (text: string)
    ensures text == "empty" <==> count == 0
    ensures count == 1 ==> text == "1 item"
    ensures count != 0 ==> IntToString(count) + " item" <= text
    ensures count != 0 ==> (text[|text| - 1] == 's' <==> count != 1)
    ensures count != 0 && count != 1 ==> text == IntToString(count) + " items"
  {
    if count == 0 then "empty"
    else IntToString(count) + " " + "item" + (if count != 1 then "s" else "")
  }

  /** The label tells the count. */
  lemma CartLabelInjective(a: int, b: int)
    requires CartLabel(a) == CartLabel(b)
    ensures a == b
  {
    if a != 0 && b != 0 {
      var x, y := IntToString(a), IntToString(b);
      var text := CartLabel(a);
      assert text[..|x|] == x && text[|x|] == ' ';
      assert text[..|y|] == y && text[|y|] == ' ';
      IntToStringInjective(a, b);
    }
  }

  /** What the page shows. */
  datatype Screen = Screen(loginPrompt: bool, cartButton: Option<string>, catalog: bool)

  function Render(isLoggedIn: bool, cartCount: int): (s: Screen)
    ensures s.loginPrompt <==> !isLoggedIn
    ensures s.cartButton.Some? <==> isLoggedIn
    ensures s.cartButton.Some? ==> s.cartButton.value == "yourCart: " + CartLabel(cartCount)
    ensures s.catalog
  {
    if !isLoggedIn then Screen(true, None, true)
    else Screen(false, Some("yourCart: " + CartLabel(cartCount)), true)
  }
}
