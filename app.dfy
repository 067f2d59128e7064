/**
 * The application shell (src/App.jsx): the user id the cart is scoped to,
 * the loading gate and the choice of the root route.
 */
module App {
  import opened Js
  import opened Auth
  import opened Cart

  /** `token && user && typeof user.id === 'string' ? user.id : null`. */
  function CartUserId(token: Option<string>, user: Option<UserRecord>): (r: Option<string>)
    ensures r.Some? ==> Present(token) && user.Some? && user.value.id == Str(r.value)
  {
    if Present(token) && user.Some? && user.value.id.Str? then Some(user.value.id.s) else None
  }

  /** The cart is scoped to the user's string id exactly when there is a
      token and a user: without either, or with an id that is not a string
      (a number, say), there is no user id. */
  lemma CartUserIdCases(token: Option<string>, user: Option<UserRecord>)
    ensures !Present(token) || user.None? ==> CartUserId(token, user) == None
    ensures user.Some? && !user.value.id.Str? ==> CartUserId(token, user) == None
    ensures Present(token) && user.Some? && user.value.id.Str? ==>
              CartUserId(token, user) == Some(user.value.id.s)
  {
  }

  /** What the root path shows once auth has loaded. */
  datatype RootRoute = RedirectToCatalog | LoginForm

  /** What the shell renders: nothing while auth loads, else the routes. */
  datatype Screen = Blank | Routes(root: RootRoute)

  function Render(isLoading: bool, token: Option<string>): (s: Screen)
    ensures s.Blank? <==> isLoading
    ensures s.Routes? ==> (s.root == RedirectToCatalog <==> Present(token))
  {
    if isLoading then Blank
    else if Present(token) then Routes(RedirectToCatalog)
    else Routes(LoginForm)
  }

  /** A user whose id is a number gets no user id, so the cart provider
      neither loads a saved cart nor writes one, however it is used. */
  method NumericIdLeavesCartAlone(token: Option<string>, n: int, storage: map<string, StoredCart>, x: Line)
    returns (storeAfter: map<string, StoredCart>, loadedAfter: bool)
    ensures storeAfter == storage && !loadedAfter
  {
    var userId := CartUserId(token, Some(UserRecord(Num(n))));
    var p := new CartProvider(storage);
    p.LoadEffect(userId);
    p.SaveEffect(userId, false);
    p.AddToCart(x);
    p.SaveEffect(userId, false);
    storeAfter, loadedAfter := p.store, p.loaded;
  }
}
