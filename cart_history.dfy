/** The cart history page (src/components/User/CartHistory.tsx): the carts
    shown for an id typed by the user, the check of that input, each cart's
    item count, and the order-details panel. */
module CartHistory {
  import opened Wrappers
  import opened Text
  import opened Sequences
  import opened ProductsSlice

  datatype CartLine = CartLine(productId: int, quantity: int)

  /** A cart record of `GET /carts`. */
  datatype Order = Order(id: int, date: string, products: seq<CartLine>)

  /** The message `t('idInputError')`, keys standing for their text. */
  const IdInputError := "idInputError"

  /** `fetchCarts(userId)` once `GET /carts` has answered with `carts`: the
      carts whose own `id` equals the number (not their user id); `NaN`
      (None) equals nothing. */
  function FetchCarts(carts: seq<Order>, userId: Option<int>): (r: seq<Order>)
    ensures forall c :: c in r <==> c in carts && userId == Some(c.id)
    ensures forall c :: multiset(r)[c] == if userId == Some(c.id) then multiset(carts)[c] else 0
    ensures IsSubsequence(r, carts)
    ensures userId.None? ==> r == []
  {
    Filter(carts, (c: Order) => userId == Some(c.id))
  }

  // ------------------------------------------------------------ item totals

  /** The sum of the quantities of `lines`. */
  function QuantitySum(lines: seq<CartLine>): int
  {
    if lines == [] then 0 else lines[0].quantity + QuantitySum(lines[1..])
  }

  /** `products.reduce((acc, product) => acc + product.quantity, acc)`. */
  function ReduceQuantities(acc: int, lines: seq<CartLine>): (total: int)
    ensures total == acc + QuantitySum(lines)
    decreases |lines|
  {
    if lines == [] then acc else ReduceQuantities(acc + lines[0].quantity, lines[1..])
  }

  /** The "total items" a cart card shows. */
  function TotalItems(order: Order): (n: int)
    ensures n == QuantitySum(order.products)
  {
    ReduceQuantities(0, order.products)
  }

  // ----------------------------------------------------------- the id input

  /** `isNaN(Number(userId)) || userId.trim() === ''`. */
  predicate IdInputInvalid(userId: string)
  {
    NumberOf(userId).None? || Trim(userId) == ""
  }

  /** Every integer typed in decimal is accepted and selects that id. */
  lemma DecimalIdAccepted(n: int)
    ensures !IdInputInvalid(IntToString(n))
    ensures NumberOf(IntToString(n)) == Some(n)
  {
    NumberOfIntToString(n);
    TrimUnpadded(IntToString(n));
  }

  /** Blank input is rejected although `Number` reads it as 0. */
  lemma BlankIdRejected(userId: string)
    requires Trim(userId) == ""
    ensures IdInputInvalid(userId) && NumberOf(userId) == Some(0)
  {
  }

  /** Input whose trimmed text holds anything but digits and signs is not a
      number and is rejected. */
  lemma NonNumericIdRejected(userId: string, i: nat)
    requires i < |Trim(userId)|
    requires !IsDigit(Trim(userId)[i]) && Trim(userId)[i] != '-' && Trim(userId)[i] != '+'
    ensures IdInputInvalid(userId) && NumberOf(userId).None?
  {
    var t := Trim(userId);
    assert NumberOf(userId) == NumberOfTrimmed(t);
    if i > 0 {
      assert t[1..][i - 1] == t[i];
    }
  }

  // ---------------------------------------------------------------- the page

  class CartHistoryView {
    var userId: string
    var inputError: string
    var selectedOrder: Option<Order>
    var productDetails: seq<Product>

    constructor ()
      ensures userId == "" && inputError == "" && selectedOrder == None && productDetails == []
    {
      userId, inputError, selectedOrder, productDetails := "", "", None, [];
    }

    method SetUserId(text: string)
      modifies this`userId
      ensures userId == text
    {
      userId := text;
    }

    /** The carts query's `enabled` flag: `!!userId`. */
    predicate QueryEnabled()
      reads this
    {
      userId != ""
    }

    /** The carts on the page once `GET /carts` answered with `all`; None
        while the query is disabled. */
    function Carts(all: seq<Order>): (r: Option<seq<Order>>)
      reads this
      ensures r.Some? <==> QueryEnabled()
      ensures r.Some? ==> forall c :: c in r.value <==> c in all && NumberOf(userId) == Some(c.id)
    {
      if QueryEnabled() then Some(FetchCarts(all, NumberOf(userId))) else None
    }

    /** `handleSearch`: the error is set iff the input is blank or not a
        number, and cleared otherwise. */
    method HandleSearch()
      modifies this`inputError
      ensures inputError != "" <==> IdInputInvalid(userId)
      ensures inputError != "" ==> inputError == IdInputError
    {
      if IdInputInvalid(userId) {
        inputError := IdInputError;
      } else {
        inputError := "";
      }
    }

    /** `handleOrderClick`: the order is selected at once; the details are
        replaced only when every product request succeeded (`details`). */
    method HandleOrderClick(order: Order, details: Option<seq<Product>>)
      modifies this`selectedOrder, this`productDetails
      ensures selectedOrder == Some(order)
      ensures productDetails == if details.Some? then details.value else old(productDetails)
    {
      selectedOrder := Some(order);
      if details.Some? {
        productDetails := details.value;
      }
    }

    /** `handleHideDetails`. */
    method HandleHideDetails()
      modifies this`selectedOrder, this`productDetails
      ensures selectedOrder == None && productDetails == []
    {
      selectedOrder := None;
      productDetails := [];
    }
  }
}
