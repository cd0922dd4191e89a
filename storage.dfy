/** The browser's `localStorage`, holding decoded records instead of JSON text
    under the three keys the application uses. */
module Storage {
  import opened Wrappers
  import opened UserContext

  const CartItemsKey := "cartItems"
  const UserSessionKey := "userSession"
  const LanguageKey := "language"

  /** What `JSON.parse` (or, for the language, the raw text) gives back. */
  datatype Value =
    | CartItems(items: map<string, int>)
    | Session(user: User)
    | Language(code: string)

  /** `JSON.parse(localStorage.getItem('cartItems') || '{}')`: an absent
      record reads as the empty cart. */
  function StoredCartItems(data: map<string, Value>): (items: map<string, int>)
    ensures CartItemsKey !in data ==> items == map[]
  {
    if CartItemsKey in data && data[CartItemsKey].CartItems? then data[CartItemsKey].items else map[]
  }

  /** Hydrating from what `setItem('cartItems', …)` wrote gives back the
      same mapping. */
  lemma StoredCartItemsRoundTrip(data: map<string, Value>, items: map<string, int>)
    ensures StoredCartItems(data[CartItemsKey := CartItems(items)]) == items
  {
  }

  /** The session record, if one is stored. */
  function StoredSession(data: map<string, Value>): (r: Option<User>)
    ensures UserSessionKey !in data ==> r == None
  {
    if UserSessionKey in data && data[UserSessionKey].Session? then Some(data[UserSessionKey].user) else None
  }

  /** Reading back the session `setItem('userSession', …)` wrote gives it. */
  lemma StoredSessionRoundTrip(data: map<string, Value>, u: User)
    ensures StoredSession(data[UserSessionKey := Session(u)]) == Some(u)
  {
  }

  /** A stored session exists and says the user is logged in. */
  predicate StoredLoggedIn(data: map<string, Value>)
  {
    StoredSession(data).Some? && StoredSession(data).value.isLoggedIn
  }

  /** The stored language, if one is stored. */
  function StoredLanguage(data: map<string, Value>): (r: Option<string>)
    ensures LanguageKey !in data ==> r == None
  {
    if LanguageKey in data && data[LanguageKey].Language? then Some(data[LanguageKey].code) else None
  }

  /** Every stored logged-in session holds a token. */
  predicate StoredSessionHoldsToken(data: map<string, Value>)
  {
    StoredSession(data).Some? ==> HoldsToken(StoredSession(data).value)
  }

  /** The process-wide store; `data` persists across reloads. */
  class Store {
    var data: map<string, Value>

    constructor (persisted: map<string, Value>)
      ensures data == persisted
    {
      data := persisted;
    }

    /** `localStorage.setItem(key, value)`. */
    method SetItem(key: string, value: Value)
      modifies this
      ensures data == old(data)[key := value]
    {
      data := data[key := value];
    }

    /** `localStorage.removeItem(key)`; removing an absent key does nothing. */
    method RemoveItem(key: string)
      modifies this
      ensures data == old(data) - {key}
      ensures key !in old(data) ==> data == old(data)
    {
      data := data - {key};
    }
  }
}
