/** The cart context: the app-wide cart the navbar and product pages use. Each action
    that talks to the remote cart store awaits it first and changes the local lines only
    when it succeeded; a failure records the action's message in `error`. The signed-in
    identity comes from the auth context and is passed in as `isAuthenticated` and `user`. */
module CartContext {
  import opened Wrappers
  import opened Catalogue
  import opened CartLines
  import opened AuthContext

  const FetchFailedMessage: string := "Failed to load cart data"
  const AddFailedMessage: string := "Failed to add item to cart"
  const UpdateFailedMessage: string := "Failed to update cart"
  const RemoveFailedMessage: string := "Failed to remove item from cart"

  /** The mutations' guard `isAuthenticated && user?.id`. */
  predicate CanMutate(isAuthenticated: bool, user: Option<User>) {
    isAuthenticated && user.Some? && user.value.id != ""
  }

  /** The fetch effect's guard `isAuthenticated && user?.email`. */
  predicate CanFetch(isAuthenticated: bool, user: Option<User>) {
    isAuthenticated && user.Some? && user.value.email != ""
  }

  /** The guards follow the auth session: nothing is allowed before the mount effect or
      after logout, a restored session allows both, and a sign-in allows mutations
      exactly when the response's `_id` is non-empty and the fetch exactly when its email is. */
  lemma GuardsFollowSession(s: Session, u: ServerUser, fallback: string)
    requires u.isAdmin.Some?
    ensures var i := InitialSession(s.storage); !CanMutate(i.isAuthenticated, i.user) && !CanFetch(i.isAuthenticated, i.user)
    ensures var o := SignOut(s); !CanMutate(o.isAuthenticated, o.user) && !CanFetch(o.isAuthenticated, o.user)
    ensures StoredUser(s.storage).Some? ==>
              var r := Restore(s); CanMutate(r.isAuthenticated, r.user) && CanFetch(r.isAuthenticated, r.user)
    ensures var r := SignIn(s, Answered(Some(u)), fallback);
            && (CanMutate(r.isAuthenticated, r.user) <==> u.serverId != "")
            && (CanFetch(r.isAuthenticated, r.user) <==> u.email != "")
  {
  }

  class CartProvider {
    var cartItems: seq<Line>
    var isLoading: bool
    var error: Option<string>
    /** Every request sent to the remote cart store, oldest first. */
    var requests: seq<Request>

    constructor ()
      ensures cartItems == [] && !isLoading && error.None? && requests == []
    {
      cartItems := [];
      isLoading := false;
      error := None;
      requests := [];
    }

    /** `cartCount`. */
    function CartCount(): (r: int)
      reads this
      ensures cartItems == [] ==> r == 0
      ensures (forall i :: 0 <= i < |cartItems| ==> cartItems[i].quantity >= 0) ==> r >= 0
    {
      Count(cartItems)
    }

    /** `cartTotal`, in cents. */
    function CartTotal(): (r: int)
      reads this
      ensures cartItems == [] ==> r == 0
      ensures (forall i :: 0 <= i < |cartItems| ==> cartItems[i].quantity >= 0 && UnitPrice(cartItems[i]) >= 0) ==> r >= 0
    {
      Total(cartItems)
    }

    /** The fetch effect, run whenever the signed-in identity changes. Without an
        identity the cart is emptied with no request; otherwise the remote cart replaces
        the local one, each line enriched from `products`, or on failure the local cart
        stays and the error is set. */
    method FetchCart(isAuthenticated: bool, user: Option<User>, products: seq<Product>, outcome: FetchOutcome)
      modifies this
      ensures !CanFetch(isAuthenticated, user) ==>
                cartItems == [] && isLoading == old(isLoading) && error == old(error) && requests == old(requests)
      ensures CanFetch(isAuthenticated, user) ==>
                requests == old(requests) + [GetCart(user.value.email)] && !isLoading
      ensures CanFetch(isAuthenticated, user) && outcome.Fetched? ==>
                cartItems == Enrich(products, outcome.cart) && error == old(error)
      ensures CanFetch(isAuthenticated, user) && outcome.FetchFailed? ==>
                cartItems == old(cartItems) && error == Some(FetchFailedMessage)
    {
      if !CanFetch(isAuthenticated, user) {
        cartItems := [];
        return;
      }
      isLoading := true;
      requests := requests + [GetCart(user.value.email)];
      match outcome {
        case Fetched(remote) =>
          cartItems := Enrich(products, remote);
        case FetchFailed =>
          error := Some(FetchFailedMessage);
      }
      isLoading := false;
    }

    /** `addToCart`: after the remote add succeeds, merges `quantity` into the product's
        line or appends a new line. */
    method AddToCart(isAuthenticated: bool, user: Option<User>, products: seq<Product>,
                     productId: int, quantity: int, outcome: Outcome)
      modifies this
      ensures !CanMutate(isAuthenticated, user) ==>
                cartItems == old(cartItems) && isLoading == old(isLoading) && error == old(error)
                && requests == old(requests)
      ensures CanMutate(isAuthenticated, user) ==>
                requests == old(requests) + [Request.AddToCart(user.value.id, productId, quantity)] && !isLoading
      ensures CanMutate(isAuthenticated, user) && outcome.Ok? ==>
                cartItems == AddLine(products, old(cartItems), productId, quantity) && error == old(error)
      ensures CanMutate(isAuthenticated, user) && outcome.Fail? ==>
                cartItems == old(cartItems) && error == Some(AddFailedMessage)
    {
      if !CanMutate(isAuthenticated, user) {
        return;
      }
      isLoading := true;
      requests := requests + [Request.AddToCart(user.value.id, productId, quantity)];
      if outcome.Ok? {
        cartItems := AddLine(products, cartItems, productId, quantity);
      } else {
        error := Some(AddFailedMessage);
      }
      isLoading := false;
    }

    /** `updateQuantity`: ignored below 1; otherwise, after the remote update succeeds,
        every line of the product gets the absolute quantity. */
    method UpdateQuantity(isAuthenticated: bool, user: Option<User>, productId: int, quantity: int, outcome: Outcome)
      modifies this
      ensures !CanMutate(isAuthenticated, user) || quantity < 1 ==>
                cartItems == old(cartItems) && isLoading == old(isLoading) && error == old(error)
                && requests == old(requests)
      ensures CanMutate(isAuthenticated, user) && 1 <= quantity ==>
                requests == old(requests) + [UpdateCartItem(user.value.id, productId, quantity)] && !isLoading
      ensures CanMutate(isAuthenticated, user) && 1 <= quantity && outcome.Ok? ==>
                cartItems == SetQuantity(old(cartItems), productId, quantity) && error == old(error)
      ensures CanMutate(isAuthenticated, user) && 1 <= quantity && outcome.Fail? ==>
                cartItems == old(cartItems) && error == Some(UpdateFailedMessage)
    {
      if !CanMutate(isAuthenticated, user) || quantity < 1 {
        return;
      }
      isLoading := true;
      requests := requests + [UpdateCartItem(user.value.id, productId, quantity)];
      if outcome.Ok? {
        cartItems := SetQuantity(cartItems, productId, quantity);
      } else {
        error := Some(UpdateFailedMessage);
      }
      isLoading := false;
    }

    /** `removeItem`: after the remote removal succeeds, drops every line of the product. */
    method RemoveItem(isAuthenticated: bool, user: Option<User>, productId: int, outcome: Outcome)
      modifies this
      ensures !CanMutate(isAuthenticated, user) ==>
                cartItems == old(cartItems) && isLoading == old(isLoading) && error == old(error)
                && requests == old(requests)
      ensures CanMutate(isAuthenticated, user) ==>
                requests == old(requests) + [RemoveFromCart(user.value.id, productId)] && !isLoading
      ensures CanMutate(isAuthenticated, user) && outcome.Ok? ==>
                cartItems == Without(old(cartItems), productId) && error == old(error)
      ensures CanMutate(isAuthenticated, user) && outcome.Fail? ==>
                cartItems == old(cartItems) && error == Some(RemoveFailedMessage)
    {
      if !CanMutate(isAuthenticated, user) {
        return;
      }
      isLoading := true;
      requests := requests + [RemoveFromCart(user.value.id, productId)];
      if outcome.Ok? {
        cartItems := Without(cartItems, productId);
      } else {
        error := Some(RemoveFailedMessage);
      }
      isLoading := false;
    }

    /** `clearCart`: empties the local cart only; no request is sent. */
    method ClearCart(isAuthenticated: bool, user: Option<User>)
      modifies this
      ensures !CanMutate(isAuthenticated, user) ==>
                cartItems == old(cartItems) && isLoading == old(isLoading) && error == old(error)
      ensures CanMutate(isAuthenticated, user) ==> cartItems == [] && !isLoading && error == old(error)
      ensures requests == old(requests)
    {
      if !CanMutate(isAuthenticated, user) {
        return;
      }
      isLoading := true;
      cartItems := [];
      isLoading := false;
    }
  }

  /** A session as the cart sees it, over any catalogue, using only the contracts above:
      sign in with a remote cart of two of product 1, add one more, update product 99,
      remove product 1, fail to add product 2, then sign out. */
  method SessionScenario(u: User, products: seq<Product>) returns (log: seq<Request>, lastError: Option<string>)
    requires u.id != "" && u.email != ""
    ensures log == [GetCart(u.email), Request.AddToCart(u.id, 1, 1), UpdateCartItem(u.id, 99, 5),
                    RemoveFromCart(u.id, 1), Request.AddToCart(u.id, 2, 1)]
    ensures lastError == Some(AddFailedMessage)
  {
    var cart := new CartProvider();
    cart.FetchCart(true, Some(u), products, Fetched([RemoteLine(1, 2)]));
    assert cart.requests == [GetCart(u.email)];
    cart.AddToCart(true, Some(u), products, 1, 1, Ok);
    assert cart.requests == [GetCart(u.email), Request.AddToCart(u.id, 1, 1)];
    cart.UpdateQuantity(true, Some(u), 99, 5, Ok);
    var three := [GetCart(u.email), Request.AddToCart(u.id, 1, 1), UpdateCartItem(u.id, 99, 5)];
    assert cart.requests == three;
    cart.RemoveItem(true, Some(u), 1, Ok);
    assert cart.requests == three + [RemoveFromCart(u.id, 1)];
    cart.AddToCart(true, Some(u), products, 2, 1, Fail);
    assert cart.requests == three + [RemoveFromCart(u.id, 1), Request.AddToCart(u.id, 2, 1)];
    assert cart.error == Some(AddFailedMessage);
    cart.FetchCart(false, None, products, FetchFailed);
    log, lastError := cart.requests, cart.error;
  }
}
