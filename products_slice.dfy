/** The products slice (src/features/products/productsSlice.tsx): the fetch
    status of the product list and the reducers of the `fetchProducts` thunk. */
module ProductsSlice {
  import opened Wrappers

  /** A product as the API returns it; prices are whole numbers here and the
      floating-point `rating` is not kept. */
  datatype Product = Product(
    id: int,
    title: string,
    price: int,
    description: string,
    category: string,
    image: string)

  datatype Status = Idle | Loading | Succeeded | Failed

  /** How `fetch('…/products')` and `response.json()` settled. */
  datatype ProductsResponse =
    | NetworkFailure(message: string)
    | Reply(ok: bool, products: seq<Product>)

  const FetchFailedMessage := "Failed to fetch products"

  /** The thunk's payload creator: the products, or the message of the error
      it throws. */
  function FetchOutcome(response: ProductsResponse): (o: Result<seq<Product>, string>)
    ensures o.Ok? <==> response.Reply? && response.ok
    ensures o.Ok? ==> o.value == response.products
    ensures response.Reply? && !response.ok ==> o == Err(FetchFailedMessage)
    ensures response.NetworkFailure? ==> o == Err(response.message)
  {
    match response
    case NetworkFailure(m) => Err(m)
    case Reply(ok, products) => if ok then Ok(products) else Err(FetchFailedMessage)
  }

  /** `action.error?.message || null`. */
  function RejectionError(message: Option<string>): (e: Option<string>)
    ensures e.Some? <==> message.Some? && message.value != ""
    ensures e.Some? ==> e == message
  {
    if message.Some? && message.value != "" then message else None
  }

  class ProductsState {
    var items: seq<Product>
    var status: Status
    var error: Option<string>

    /** `initialState`. */
    constructor ()
      ensures items == [] && status == Idle && error == None
    {
      items, status, error := [], Idle, None;
    }

    /** `fetchProducts.pending`. */
    method Pending()
      modifies this
      ensures status == Loading
      ensures items == old(items) && error == old(error)
    {
      status := Loading;
    }

    /** `fetchProducts.fulfilled`: a stale error is kept. */
    method Fulfilled(payload: seq<Product>)
      modifies this
      ensures status == Succeeded && items == payload
      ensures error == old(error)
    {
      status := Succeeded;
      items := payload;
    }

    /** `fetchProducts.rejected`: the list from an earlier success is kept. */
    method Rejected(message: Option<string>)
      modifies this
      ensures status == Failed && error == RejectionError(message)
      ensures items == old(items)
    {
      status := Failed;
      error := RejectionError(message);
    }

    /** A whole dispatch of the thunk, its request settled by `response`. */
    method FetchProducts(response: ProductsResponse)
      modifies this
      ensures status == Succeeded || status == Failed
      ensures status == Succeeded <==> FetchOutcome(response).Ok?
      ensures status == Succeeded ==> items == response.products && error == old(error)
      ensures status == Failed ==> items == old(items)
                                   && error == RejectionError(Some(FetchOutcome(response).error))
      ensures response.Reply? && !response.ok ==> error == Some(FetchFailedMessage)
    {
      Pending();
      match FetchOutcome(response)
      case Ok(products) => Fulfilled(products);
      case Err(message) => Rejected(Some(message));
    }
  }
}
