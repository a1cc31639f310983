/** The cart page: a second, page-local copy of the cart, fetched on its own, with its
    own quantity steppers, removal, and the order summary (subtotal, flat shipping, 7%
    tax). Unlike the cart context, its handlers send a request whatever the sign-in
    state (with the user id or else the empty string) and a failed request changes
    nothing on the page. */
module CartPage {
  import opened Wrappers
  import opened Catalogue
  import opened CartLines
  import opened AuthContext
  import opened CartContext

  const LoadFailedMessage: string := "Failed to load your cart. Please try again."

  /** The flat shipping charge, in cents, on a cart with a positive subtotal. */
  const ShippingCharge: int := 999

  /** The tax rate, 7%. */
  const TaxRate: real := 0.07

  /** `user?.id || ''`. */
  function UserIdOrEmpty(user: Option<User>): (id: string)
    ensures user.Some? && user.value.id != "" ==> id == user.value.id
    ensures user.None? || user.value.id == "" ==> id == ""
    ensures id != "" <==> CanMutate(true, user)
  {
    if user.Some? && user.value.id != "" then user.value.id else ""
  }

  /** The order summary, in cents; tax and total are exact reals (the page computes them
      in floating point). */
  datatype OrderSummary = OrderSummary(subtotal: int, shipping: int, tax: real, total: real)

  /** `subtotal`, `shipping`, `tax` and `total` of a list of lines. */
  function Summarize(lines: seq<Line>): (r: OrderSummary)
    ensures r.subtotal == Total(lines)
    ensures r.shipping == ShippingCharge <==> r.subtotal > 0
    ensures r.shipping == 0 <==> r.subtotal <= 0
    ensures r.tax == TaxRate * r.subtotal as real
    ensures r.total == 1.07 * r.subtotal as real + r.shipping as real
  {
    var subtotal := Total(lines);
    var shipping := if subtotal > 0 then ShippingCharge else 0;
    var tax := subtotal as real * TaxRate;
    OrderSummary(subtotal, shipping, tax, subtotal as real + shipping as real + tax)
  }

  /** Every line has a non-negative quantity and a non-negative unit price. */
  predicate NonNegative(lines: seq<Line>) {
    forall i :: 0 <= i < |lines| ==> lines[i].quantity >= 0 && UnitPrice(lines[i]) >= 0
  }

  /** Every line has a quantity of at least 1. */
  predicate AllPositive(lines: seq<Line>) {
    forall i :: 0 <= i < |lines| ==> lines[i].quantity >= 1
  }

  /** On a cart of non-negative lines the total is never below the subtotal, and an
      empty or free cart is charged nothing at all. */
  lemma SummaryBounds(lines: seq<Line>)
    requires NonNegative(lines)
    ensures Summarize(lines).subtotal >= 0
    ensures Summarize(lines).total >= Summarize(lines).subtotal as real
    ensures Summarize(lines).subtotal == 0 ==> Summarize(lines).total == 0.0
    ensures Summarize(lines).subtotal > 0 ==> Summarize(lines).total > Summarize(lines).subtotal as real + 999.0
  {
  }

  lemma EmptyCartSummary()
    ensures Summarize([]) == OrderSummary(0, 0, 0.0, 0.0)
  {
  }

  /** Two of product 1 at 69.99: subtotal 139.98, shipping 9.99, tax 9.7986, total 159.7686. */
  lemma TwoHoodiesSummary()
    ensures Summarize([Line(1, 2, Some(InitialProducts[0]))]) == OrderSummary(13998, 999, 979.86, 15976.86)
  {
    var lines := [Line(1, 2, Some(InitialProducts[0]))];
    assert [] + lines == lines;
    AppendLineAggregates([], lines[0]);
  }

  /** The minus button is disabled at quantity 1 or less. */
  function DecrementDisabled(quantity: int): (d: bool)
    ensures d <==> quantity < 2
  {
    quantity <= 1
  }

  /** `handleUpdateQuantity`'s guard: quantities below 1 are ignored. */
  predicate Ignored(newQuantity: int) {
    newQuantity < 1
  }

  /** The minus button's `disabled` and the handler's guard agree: the button is
      disabled exactly when the quantity it would ask for would be ignored, and the plus
      button on a valid line never asks for an ignored quantity. */
  lemma SteppersAgreeWithGuard(quantity: int)
    ensures DecrementDisabled(quantity) <==> Ignored(quantity - 1)
    ensures quantity >= 1 ==> !Ignored(quantity + 1)
  {
  }

  /** An absolute update to at least 1 keeps every quantity at least 1. */
  lemma {:induction false} SetQuantityKeepsPositive(lines: seq<Line>, productId: int, quantity: int)
    requires AllPositive(lines) && quantity >= 1
    ensures AllPositive(SetQuantity(lines, productId, quantity))
  {
    var r := SetQuantity(lines, productId, quantity);
    forall i | 0 <= i < |r| ensures r[i].quantity >= 1 {
      assert r[i].quantity == (if lines[i].productId == productId then quantity else lines[i].quantity);
    }
  }

  /** Removal keeps every quantity at least 1. */
  lemma {:induction false} WithoutKeepsPositive(lines: seq<Line>, productId: int)
    requires AllPositive(lines)
    ensures AllPositive(Without(lines, productId))
  {
    var r := Without(lines, productId);
    forall i | 0 <= i < |r| ensures r[i].quantity >= 1 {
      assert r[i] in lines;
      var j :| 0 <= j < |lines| && lines[j] == r[i];
    }
  }

  /** What the page shows, in the order the render tests it. */
  datatype PageView =
    | SignInPrompt
    | Spinner
    | ErrorBanner(message: string)
    | EmptyCart
    | Items(lines: seq<Line>, summary: OrderSummary)

  function Render(isAuthenticated: bool, isLoading: bool, error: Option<string>, lines: seq<Line>): (v: PageView)
    ensures v.SignInPrompt? <==> !isAuthenticated
    ensures v.Spinner? <==> isAuthenticated && isLoading
    ensures v.ErrorBanner? <==> isAuthenticated && !isLoading && error.Some? && error.value != ""
    ensures v.ErrorBanner? ==> Some(v.message) == error
    ensures v.EmptyCart? <==> isAuthenticated && !isLoading && (error.None? || error.value == "") && lines == []
    ensures v.Items? ==> v.lines == lines && lines != [] && v.summary == Summarize(lines)
  {
    if !isAuthenticated then SignInPrompt
    else if isLoading then Spinner
    else if error.Some? && error.value != "" then ErrorBanner(error.value)
    else if lines == [] then EmptyCart
    else Items(lines, Summarize(lines))
  }

  class CartPageState {
    var cartItems: seq<Line>
    var isLoading: bool
    var error: Option<string>
    /** Every request the page sent to the remote cart store, oldest first. */
    var requests: seq<Request>

    /** The page mounts loading, with an empty cart. */
    constructor ()
      ensures cartItems == [] && isLoading && error.None? && requests == []
    {
      cartItems := [];
      isLoading := true;
      error := None;
      requests := [];
    }

    /** The page's fetch effect. Without an identity it only stops loading (the cart it
        holds stays); otherwise as the cart context's fetch, with the page's own message. */
    method FetchCart(isAuthenticated: bool, user: Option<User>, products: seq<Product>, outcome: FetchOutcome)
      modifies this
      ensures !isLoading
      ensures !CanFetch(isAuthenticated, user) ==>
                cartItems == old(cartItems) && error == old(error) && requests == old(requests)
      ensures CanFetch(isAuthenticated, user) ==> requests == old(requests) + [GetCart(user.value.email)]
      ensures CanFetch(isAuthenticated, user) && outcome.Fetched? ==>
                cartItems == Enrich(products, outcome.cart) && error == old(error)
      ensures CanFetch(isAuthenticated, user) && outcome.FetchFailed? ==>
                cartItems == old(cartItems) && error == Some(LoadFailedMessage)
    {
      if !CanFetch(isAuthenticated, user) {
        isLoading := false;
        return;
      }
      isLoading := true;
      requests := requests + [GetCart(user.value.email)];
      match outcome {
        case Fetched(remote) =>
          cartItems := Enrich(products, remote);
        case FetchFailed =>
          error := Some(LoadFailedMessage);
      }
      isLoading := false;
    }

    /** `handleUpdateQuantity`: ignored below 1; otherwise the request goes out and, if it
        succeeds, every line of the product takes the new quantity. A failure changes
        nothing on the page. */
    method HandleUpdateQuantity(user: Option<User>, productId: int, newQuantity: int, outcome: Outcome)
      modifies this
      ensures isLoading == old(isLoading) && error == old(error)
      ensures Ignored(newQuantity) ==> cartItems == old(cartItems) && requests == old(requests)
      ensures !Ignored(newQuantity) ==>
                requests == old(requests) + [UpdateCartItem(UserIdOrEmpty(user), productId, newQuantity)]
      ensures !Ignored(newQuantity) && outcome.Ok? ==> cartItems == SetQuantity(old(cartItems), productId, newQuantity)
      ensures outcome.Fail? ==> cartItems == old(cartItems)
      ensures AllPositive(old(cartItems)) ==> AllPositive(cartItems)
    {
      if newQuantity < 1 {
        return;
      }
      requests := requests + [UpdateCartItem(UserIdOrEmpty(user), productId, newQuantity)];
      if outcome.Ok? {
        if AllPositive(cartItems) {
          SetQuantityKeepsPositive(cartItems, productId, newQuantity);
        }
        cartItems := SetQuantity(cartItems, productId, newQuantity);
      }
    }

    /** `handleRemoveItem`: the request goes out and, if it succeeds, every line of the
        product is dropped. A failure changes nothing on the page. */
    method HandleRemoveItem(user: Option<User>, productId: int, outcome: Outcome)
      modifies this
      ensures isLoading == old(isLoading) && error == old(error)
      ensures requests == old(requests) + [RemoveFromCart(UserIdOrEmpty(user), productId)]
      ensures outcome.Ok? ==> cartItems == Without(old(cartItems), productId)
      ensures outcome.Fail? ==> cartItems == old(cartItems)
      ensures AllPositive(old(cartItems)) ==> AllPositive(cartItems)
    {
      requests := requests + [RemoveFromCart(UserIdOrEmpty(user), productId)];
      if outcome.Ok? {
        if AllPositive(cartItems) {
          WithoutKeepsPositive(cartItems, productId);
        }
        cartItems := Without(cartItems, productId);
      }
    }

    /** The minus button of line `i`, clicked. */
    method Decrement(user: Option<User>, i: nat, outcome: Outcome)
      requires i < |cartItems|
      modifies this
      ensures isLoading == old(isLoading) && error == old(error)
      ensures DecrementDisabled(old(cartItems)[i].quantity) ==> cartItems == old(cartItems) && requests == old(requests)
      ensures !DecrementDisabled(old(cartItems)[i].quantity) ==>
                requests == old(requests) + [UpdateCartItem(UserIdOrEmpty(user), old(cartItems)[i].productId,
                                                            old(cartItems)[i].quantity - 1)]
      ensures !DecrementDisabled(old(cartItems)[i].quantity) && outcome.Ok? ==>
                cartItems == SetQuantity(old(cartItems), old(cartItems)[i].productId, old(cartItems)[i].quantity - 1)
      ensures outcome.Fail? ==> cartItems == old(cartItems)
      ensures AllPositive(old(cartItems)) ==> AllPositive(cartItems)
    {
      var line := cartItems[i];
      if DecrementDisabled(line.quantity) {
        return;
      }
      HandleUpdateQuantity(user, line.productId, line.quantity - 1, outcome);
    }

    /** The plus button of line `i`, clicked. */
    method Increment(user: Option<User>, i: nat, outcome: Outcome)
      requires i < |cartItems|
      modifies this
      ensures isLoading == old(isLoading) && error == old(error)
      ensures old(cartItems)[i].quantity >= 0 ==>
                requests == old(requests) + [UpdateCartItem(UserIdOrEmpty(user), old(cartItems)[i].productId,
                                                            old(cartItems)[i].quantity + 1)]
      ensures old(cartItems)[i].quantity < 0 ==> cartItems == old(cartItems) && requests == old(requests)
      ensures old(cartItems)[i].quantity >= 0 && outcome.Ok? ==>
                cartItems == SetQuantity(old(cartItems), old(cartItems)[i].productId, old(cartItems)[i].quantity + 1)
      ensures outcome.Fail? ==> cartItems == old(cartItems)
      ensures AllPositive(old(cartItems)) ==> AllPositive(cartItems)
    {
      var line := cartItems[i];
      HandleUpdateQuantity(user, line.productId, line.quantity + 1, outcome);
    }
  }
}
