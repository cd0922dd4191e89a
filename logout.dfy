/** The logout page (src/components/User/Logout.tsx): one effect that removes
    both stored records, resets the user, clears the cart and redirects. */
module Logout {
  import opened UserContext
  import opened Storage
  import opened CartSlice
  import opened SemanticAppLayout

  /** The logout effect; the result is the navigation target. */
  method Logout(layout: Layout, cart: Cart) returns (target: string)
    requires cart.store == layout.store
    modifies layout`user, layout.store, cart
    ensures layout.store.data == old(layout.store.data) - {UserSessionKey, CartItemsKey}
    ensures layout.user == LoggedOutUser
    ensures cart.items == map[] && cart.totalItems == 0 && cart.Consistent() && cart.Mirrored()
    ensures target == "/login"
    ensures old(layout.Valid()) ==> layout.Valid()
    ensures layout.Synced()
  {
    layout.store.RemoveItem(UserSessionKey);
    layout.store.RemoveItem(CartItemsKey);
    layout.SetUser(LoggedOutUser);
    cart.ClearCart();
    assert layout.store.data == old(layout.store.data) - {UserSessionKey, CartItemsKey};
    target := "/login";
  }

  /** A second logout has no further effect: the state after two is the
      state after one. */
  method LogoutTwice(layout: Layout, cart: Cart) returns (target: string)
    requires cart.store == layout.store
    modifies layout`user, layout.store, cart
    ensures layout.store.data == old(layout.store.data) - {UserSessionKey, CartItemsKey}
    ensures layout.user == LoggedOutUser
    ensures cart.items == map[] && cart.totalItems == 0
    ensures target == "/login"
  {
    target := Logout(layout, cart);
    ghost var once := layout.store.data;
    target := Logout(layout, cart);
    assert layout.store.data == once;
  }
}
