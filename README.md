# Animora storefront: a verified model of the client-side state

Animora is an anime-themed storefront front-end written in React and TypeScript. Almost
all of it is markup. The part that holds logic is the client-side state, and that is what
this Dafny project models:

- the cart context: hydration from the remote cart, with each line enriched from the
  catalogue; merge-or-append add; absolute quantity update; removal; local clear; item
  count and money total;
- the cart page's own copy of that logic and its order summary: subtotal, flat shipping,
  7% tax and total;
- the catalogue queries over the module-level product array, including `getNewArrivals`,
  which sorts that array in place;
- the product filter panel's record, its handlers, reset, and the collapsible sections;
- the auth session: restore from `localStorage`, login and register, and logout;
- the protected-route guard;
- the product details page: theme parsing, lookups, initial selections, the quantity
  stepper and the stock-gated add button.

Modules follow the source files:

| module | file | flavour |
|---|---|---|
| `Sequences` | `sequences.dfy` | JavaScript's `findIndex`, `filter` and `slice(0, n)` as functions, with their lemmas |
| `Catalogue` | `catalogue.dfy` | pure queries; `GetNewArrivals` is a method that sorts an `array` in place |
| `CartLines` | `cart_lines.dfy` | the line list and its updates and reduces, as functions |
| `CartContext` | `cart_context.dfy` | class `CartProvider`, whose methods update its fields step by step |
| `CartPage` | `cart_page.dfy` | the summary and render as functions; class `CartPageState` for the handlers |
| `ProductFilter` | `product_filter.dfy` | pure transition functions over the filter record |
| `AuthContext` | `auth_context.dfy` | pure transitions on `Session`; class `AuthProvider` applies them step by step |
| `ProtectedRoute` | `protected_route.dfy` | a pure decision function |
| `ProductDetails` | `product_details.dfy` | pure lookups; class `DetailsState` as the stepper and selection state machine |

Modelling conventions:

- Money is integer cents: 69.99 is `6999`. The cart page's tax and total are exact `real`s.
- A remote call is not performed. Its result is an input to the method: `Ok` or `Fail`
  for a mutation, `Fetched(cart)` or `FetchFailed` for a fetch, and either
  `Answered(user?)` or `Rejected(message?)` for login and register.
- Each cart class keeps `requests`, the log of calls it sent to the remote cart store. A
  contract can then say whether a call was made, and with which arguments.
- `localStorage` is a `map<string, string>`.
- `undefined` and `null` are `Option.None`.
- The identity comes from the auth context. The cart methods receive it as
  `isAuthenticated` and `user`.
- The catalogue queries take the current contents of the shared product array as a
  parameter. `GetNewArrivals` reorders that array, so later queries see the new order.

Behaviour of the code that the model reproduces as written:

- The cart actions await the remote call and change the local lines only when it
  succeeds. A failure leaves the cart exactly as it was and sets the action's error
  message; nothing is updated ahead of the call and nothing is rolled back.
- `addToCart` accepts any quantity, including 0 and negative ones, so a line can hold
  a quantity below 1.
- When there is no identity, hydration empties the cart but does not clear `error`.
- `updateQuantity` for a product that is not in the cart still sends the remote request.
  The local cart is then unchanged.
- `clearCart` is local only. It sends no request and cannot fail.

## Model

| member | source | states |
|---|---|---|
| Sequences.FirstIndex | src/contexts/CartContext.tsx:76 | `findIndex`: the index of the first element that passes, with no earlier element passing; the length when none passes |
| Sequences.Filter | src/data/products.ts:78-82 | `filter` keeps exactly the passing elements in their original order (a subsequence), drops nothing that passes, and keeps each passing value as many times as it occurs |
| Sequences.FilterAppend | src/contexts/CartContext.tsx:137 | filtering a concatenation is the concatenation of the filtered parts |
| Sequences.FilterKeepsAll | src/contexts/CartContext.tsx:137 | a filter that every element passes returns the sequence unchanged |
| Sequences.FilterDistinct | src/components/ProductFilter.tsx:46-48 | filtering a duplicate-free sequence leaves it duplicate-free |
| Sequences.Take | src/data/products.ts:93 | `slice(0, limit)` is a prefix whose length follows JavaScript's rule for non-negative and negative limits |
| Sequences.TakeIsSubset | src/data/products.ts:93 | every element of the slice is in the original |
| Catalogue.GetProductById | src/data/products.ts:75-76 | nothing exactly when no product has the id; otherwise the first product with that id |
| Catalogue.GetProductByIdUnique | src/data/products.ts:75-76 | with unique ids, the lookup gives `p` exactly when `p` is in the catalogue with that id |
| Catalogue.GetProductByIdAfterReorder | src/data/products.ts:101-104 | on a catalogue with unique ids, reordering the shared array, as `getNewArrivals` does, changes no `getProductById` answer |
| Catalogue.GetProductsByTheme | src/data/products.ts:78-79 | exactly the products of the theme, in catalogue order, each as many times as it occurs |
| Catalogue.GetProductsByCategory | src/data/products.ts:81-82 | exactly the products of the category, in catalogue order, each as many times as it occurs |
| Catalogue.GetRelatedProducts | src/data/products.ts:84-94 | `[]` for an unknown id; otherwise exactly the first `min(limit, n)` of the `n` other products of the same theme, in catalogue order |
| Catalogue.GetFeaturedProducts | src/data/products.ts:96-99 | exactly the first `min(limit, n)` of the `n` products marked `isNew`, in catalogue order (default limit 4) |
| Catalogue.GetNewArrivals | src/data/products.ts:101-104 | the array is left sorted by descending id and is a permutation of its old contents; the result is its first `limit` elements |
| Catalogue.SortByIdDescending | src/data/products.ts:103 | `Array.sort` with `b.id - a.id` sorts by descending id and permutes the array |
| Catalogue.InsertIntoPrefix | src/data/products.ts:103 | one insertion step extends the sorted prefix by one, keeps the multiset and leaves the suffix untouched |
| Catalogue.InitialCatalogueShape | src/data/products.ts:18-72 | the page's three products have unique ids and pairwise distinct themes |
| Catalogue.NoRelatedProductsInInitialCatalogue | src/data/products.ts:84-94 | on the page's catalogue, `getRelatedProducts` returns `[]` for every id and limit |
| CartLines.SumNonNegative | src/contexts/CartContext.tsx:172-175 | a reduce whose every term is non-negative is non-negative |
| CartLines.UnitPrice | src/contexts/CartContext.tsx:174 | the product's price, or 0 for an unresolved product |
| CartLines.LineTotal | src/contexts/CartContext.tsx:174 | a line with non-negative price and quantity contributes a non-negative amount |
| CartLines.Count | src/contexts/CartContext.tsx:172 | `cartCount` is non-negative when every quantity is |
| CartLines.Total | src/contexts/CartContext.tsx:173-175 | `cartTotal` is non-negative when every quantity and unit price is |
| CartLines.SumAppend | src/contexts/CartContext.tsx:172-175 | a reduce over a concatenation is the sum of the two reduces |
| CartLines.SumUpdate | src/contexts/CartContext.tsx:172-175 | replacing one line changes a reduce by the difference of that line's contributions |
| CartLines.SumOfZeros | src/contexts/CartContext.tsx:172-175 | a reduce over lines that each contribute 0 is 0 |
| CartLines.AppendLineAggregates | src/contexts/CartContext.tsx:172-175 | an appended line adds its quantity to `cartCount`; it adds price times quantity to `cartTotal`, or 0 when its product is unresolved |
| CartLines.Enrich | src/contexts/CartContext.tsx:46-51 | one line per remote line, in order, with its id and quantity and the catalogue lookup (unknown products left unresolved) |
| CartLines.StripEnrich | src/contexts/CartContext.tsx:46-53 | hydration keeps every remote line: dropping the enrichment gives back the remote cart |
| CartLines.AddLine | src/contexts/CartContext.tsx:76-86 | a present product gets `quantity` added to its first line and no line is added; otherwise one line `{productId, quantity, getProductById(productId)}` is appended at the end |
| CartLines.AddLineAggregates | src/contexts/CartContext.tsx:76-86 | after an add, the count and that product's quantity rise by `quantity` and other products are unchanged; unique product ids stay unique |
| CartLines.AddSeriesAccumulates | src/contexts/CartContext.tsx:76-86 | repeated adds of one product raise its quantity and the count by the sum of the added quantities, and keep ids unique |
| CartLines.SetQuantity | src/contexts/CartContext.tsx:110-114 | lines of the product take the absolute quantity and all other lines are unchanged; an absent product leaves the list as it was |
| CartLines.SetQuantityAggregates | src/contexts/CartContext.tsx:110-114 | with unique ids only the product's one line changes, and the count and total move by the difference |
| CartLines.Without | src/contexts/CartContext.tsx:137 | every line of the product is gone and the others are kept in order, each as many times as before; an absent product leaves the list as it was |
| CartLines.WithoutCount | src/contexts/CartContext.tsx:137 | removal takes exactly that product's quantity out of `cartCount` |
| CartLines.RemoveThenAdd | src/contexts/CartContext.tsx:76-86 | adding a product just removed appends one line with exactly the added quantity |
| CartLines.HydrateAddRemoveScenario | src/contexts/CartContext.tsx:46-137 | hydrating two of product 1 gives count 2 and total 139.98; adding one gives count 3 and total 209.97; removing gives an empty cart |
| CartContext.GuardsFollowSession | src/contexts/CartContext.tsx:36 | the guards `isAuthenticated && user?.id` and `isAuthenticated && user?.email` (also at lines 67, 101, 128, 150) hold for no one before the mount effect or after logout, for a restored stored user, and after a sign-in exactly when the response's `_id`, respectively email, is non-empty |
| CartContext.CartProvider.constructor | src/contexts/CartContext.tsx:28-30 | the cart starts empty, not loading, with no error and no requests |
| CartContext.CartProvider.CartCount | src/contexts/CartContext.tsx:172 | 0 for an empty cart, and never negative while quantities are not |
| CartContext.CartProvider.CartTotal | src/contexts/CartContext.tsx:173-175 | 0 for an empty cart, and never negative while quantities and prices are not |
| CartContext.CartProvider.FetchCart | src/contexts/CartContext.tsx:34-63 | with no identity or email the cart is emptied and no call is made; otherwise one `getCart(email)` call is made; success replaces the cart with the enriched remote cart; failure keeps the cart and sets "Failed to load cart data"; loading ends |
| CartContext.CartProvider.AddToCart | src/contexts/CartContext.tsx:66-97 | with no identity nothing changes and no call is made; otherwise one `addToCart` call is made; on success the lines become `AddLine`; on failure they are unchanged and the error is "Failed to add item to cart"; loading ends |
| CartContext.CartProvider.UpdateQuantity | src/contexts/CartContext.tsx:100-124 | with no identity, or quantity below 1, nothing changes and no call is made; otherwise one `updateCartItem` call is made; on success the lines become `SetQuantity`; on failure they are unchanged and the error is "Failed to update cart" |
| CartContext.CartProvider.RemoveItem | src/contexts/CartContext.tsx:127-146 | with no identity nothing changes; otherwise one `removeFromCart` call is made; on success the lines become `Without`; on failure they are unchanged and the error is "Failed to remove item from cart" |
| CartContext.CartProvider.ClearCart | src/contexts/CartContext.tsx:149-169 | an identified user's cart becomes empty locally; no call is ever made; without identity nothing changes |
| CartContext.SessionScenario | src/contexts/CartContext.tsx:34-146 | over any catalogue, a session built from the provider's contracts alone: fetch, add, update of an absent product, remove, a failed add and a sign-out fetch send exactly the five calls `getCart`, `addToCart`, `updateCartItem`, `removeFromCart`, `addToCart` in that order (the sign-out fetch sends none), and the failed add's message is still the error at the end |
| CartPage.UserIdOrEmpty | src/pages/CartPage.tsx:61 | the user's id when there is a non-empty one, otherwise the empty string; non-empty exactly when a signed-in user would pass the cart context's mutation guard |
| CartPage.Summarize | src/pages/CartPage.tsx:92-98 | the subtotal is the cart's money total; shipping is 9.99 exactly when the subtotal is positive, and 0 otherwise; tax is 7% of the subtotal; the total is 1.07 times the subtotal plus shipping |
| CartPage.SummaryBounds | src/pages/CartPage.tsx:92-98 | on such a cart the total is at least the subtotal; a zero subtotal totals 0; a positive one totals more than subtotal plus 9.99 |
| CartPage.EmptyCartSummary | src/pages/CartPage.tsx:92-98 | an empty cart has subtotal, shipping, tax and total all 0 |
| CartPage.TwoHoodiesSummary | src/pages/CartPage.tsx:92-98 | two of the 69.99 hoodie give subtotal 139.98, shipping 9.99, tax 9.7986 and total 159.7686 |
| CartPage.DecrementDisabled | src/pages/CartPage.tsx:184-186 | the minus button is disabled exactly below quantity 2 |
| CartPage.SteppersAgreeWithGuard | src/pages/CartPage.tsx:58 | the minus button is disabled exactly when the quantity it would request is ignored by the handler, and plus on a valid line always requests an accepted quantity |
| CartPage.SetQuantityKeepsPositive | src/pages/CartPage.tsx:64-68 | an update to at least 1 keeps every quantity at least 1 |
| CartPage.WithoutKeepsPositive | src/pages/CartPage.tsx:83 | removal keeps every quantity at least 1 |
| CartPage.Render | src/pages/CartPage.tsx:101-156 | sign-in prompt exactly when unauthenticated; then the spinner while loading; then the error text; then the empty-cart panel; otherwise the lines with their summary |
| CartPage.CartPageState.constructor | src/pages/CartPage.tsx:17-19 | the page starts loading, with an empty cart, no error and no requests |
| CartPage.CartPageState.FetchCart | src/pages/CartPage.tsx:24-54 | with no identity or email only loading ends and no call is made; otherwise one `getCart` call is made; success replaces the cart; failure keeps it and sets "Failed to load your cart. Please try again." |
| CartPage.CartPageState.HandleUpdateQuantity | src/pages/CartPage.tsx:57-75 | below 1 it returns before any call; otherwise one `updateCartItem` call, with the user's id or else the empty string, is made; success sets the quantity on matching lines only; failure changes nothing; quantities at least 1 stay so |
| CartPage.CartPageState.HandleRemoveItem | src/pages/CartPage.tsx:78-89 | one `removeFromCart` call is made; success removes the product's lines; failure changes nothing |
| CartPage.CartPageState.Decrement | src/pages/CartPage.tsx:184-186 | a disabled minus sends nothing and changes nothing; otherwise one `updateCartItem` call for quantity − 1 is made, success sets that quantity, failure keeps the cart; loading and error are untouched; quantities at least 1 stay so |
| CartPage.CartPageState.Increment | src/pages/CartPage.tsx:192-194 | one `updateCartItem` call for quantity + 1 of the line's product is made; success sets that quantity, failure keeps the cart; loading and error are untouched; quantities at least 1 stay so |
| ProductFilter.Toggle | src/components/ProductFilter.tsx:46-48 | a selected value is removed, every occurrence of it, and every other value keeps its number of occurrences; an unselected one is appended; no other value's membership changes |
| ProductFilter.FilterShorter | src/components/ProductFilter.tsx:47 | removing a present value shortens the list |
| ProductFilter.ToggleTwiceRestores | src/components/ProductFilter.tsx:46-48 | clicking an unselected colour or size twice restores the original list |
| ProductFilter.ToggleTwiceMovesToEnd | src/components/ProductFilter.tsx:46-48 | clicking a selected value twice moves it to the end of the list |
| ProductFilter.ToggleKeepsDistinct | src/components/ProductFilter.tsx:46-48 | a duplicate-free selection stays duplicate-free |
| ProductFilter.HandlePriceChange | src/components/ProductFilter.tsx:39-43 | sets the price range and no other field; the record passed to `onFilterChange` is the one stored |
| ProductFilter.HandleColorChange | src/components/ProductFilter.tsx:45-53 | toggles the colour and no other field; the record passed on is the one stored |
| ProductFilter.HandleSizeChange | src/components/ProductFilter.tsx:55-63 | toggles the size and no other field; the record passed on is the one stored |
| ProductFilter.HandleAvailabilityChange | src/components/ProductFilter.tsx:65-69 | flips availability and no other field; the record passed on is the one stored |
| ProductFilter.HandleCategoryChange | src/components/ProductFilter.tsx:71-75 | sets the category and no other field; the record passed on is the one stored |
| ProductFilter.HandleReset | src/components/ProductFilter.tsx:271-286 | stores and passes on `{'', [], [], false, ''}` |
| ProductFilter.OverwritesAreIdempotent | src/components/ProductFilter.tsx:39-75 | choosing the same price range or category twice equals choosing it once |
| ProductFilter.AvailabilityTwiceRestores | src/components/ProductFilter.tsx:65-69 | two availability clicks give the original record back |
| ProductFilter.ResetIsIdempotent | src/components/ProductFilter.tsx:271-286 | resetting twice equals resetting once, and gives the starting record |
| ProductFilter.Step | src/components/ProductFilter.tsx:39-75 | every action passes `onFilterChange` exactly the record it stores |
| ProductFilter.StepKeepsConsistent | src/components/ProductFilter.tsx:45-63 | no action makes a selection hold a value twice |
| ProductFilter.RunKeepsConsistent | src/components/ProductFilter.tsx:45-63 | over any series of actions, neither selection ever holds a value twice |
| ProductFilter.ToggleSection | src/components/ProductFilter.tsx:32-37 | flips the named section and no other |
| ProductFilter.ToggleSectionTwice | src/components/ProductFilter.tsx:32-37 | toggling a section twice restores every section |
| ProductFilter.InitiallyAllOpen | src/components/ProductFilter.tsx:24-30 | all five sections start expanded |
| AuthContext.StoredUser | src/contexts/AuthContext.tsx:32-43 | a user exists exactly when the id, name and email keys are all non-empty; its fields are those keys; `isAdmin` holds exactly when the admin key is the string `true` |
| AuthContext.Restore | src/contexts/AuthContext.tsx:31-48 | the stored user, if any, is signed in; loading ends whatever was stored; storage and error are unchanged |
| AuthContext.ErrorText | src/contexts/AuthContext.tsx:80 | the server's non-empty message wins; otherwise the fallback is used |
| AuthContext.SignIn | src/contexts/AuthContext.tsx:54-117 | loading always ends; the error is cleared exactly when a response came back and its user, if any, carries `isAdmin`; any error is the server's message or the fallback; only a response with a complete user changes who is signed in, and it signs in exactly that user, with `id` taken from `_id` and its name, email and `isAdmin`; no storage key is removed and keys other than the four session keys keep their values |
| AuthContext.SignOut | src/contexts/AuthContext.tsx:120-127 | exactly the four user keys are removed, other keys are untouched, and the user is signed out |
| AuthContext.SignInSuccess | src/contexts/AuthContext.tsx:61-77 | a response with a complete user writes the four keys, with `isAdmin` as `'true'`/`'false'`; it signs in the user with `id = _id` and clears the error |
| AuthContext.SignInFailure | src/contexts/AuthContext.tsx:55-83 | a rejection keeps the user and storage and reports the server message or the fallback; a response without a user only clears the error and ends loading |
| AuthContext.RestoreAfterSignIn | src/contexts/AuthContext.tsx:37-75 | restoring after a successful sign-in gives back the same user exactly when its id, name and email are non-empty |
| AuthContext.SignOutLeavesNothingToRestore | src/contexts/AuthContext.tsx:120-127 | after logout the restore finds no user |
| AuthContext.MissingAdminFlagStillRestores | src/contexts/AuthContext.tsx:65-68 | a response user without `isAdmin` is reported as a failure, yet the three text keys were written and the next restore signs that user in |
| AuthContext.ActionsKeepCoherent | src/contexts/AuthContext.tsx:24-127 | every action keeps `isAuthenticated` true exactly when there is a user |
| AuthContext.AuthProvider.constructor | src/contexts/AuthContext.tsx:24-27 | the provider mounts loading, with no user, no error and not signed in |
| AuthContext.AuthProvider.CheckUserSession | src/contexts/AuthContext.tsx:31-48 | the step-by-step restore gives the state `Restore` describes, and loading ends |
| AuthContext.AuthProvider.Login | src/contexts/AuthContext.tsx:54-84 | gives the state `SignIn` describes, with fallback "Failed to login" |
| AuthContext.AuthProvider.Register | src/contexts/AuthContext.tsx:87-117 | gives the state `SignIn` describes, with fallback "Failed to register" |
| AuthContext.AuthProvider.Authenticate | src/contexts/AuthContext.tsx:55-83 | the shared sequence of `setItem`s and state updates gives the state `SignIn` describes |
| AuthContext.AuthProvider.Logout | src/contexts/AuthContext.tsx:120-127 | the four `removeItem`s and the sign-out give the state `SignOut` describes |
| ProtectedRoute.Guard | src/components/ProtectedRoute.tsx:10-40 | the spinner while loading, whatever else holds; otherwise the unauthenticated go to `/login` with `from = pathname`, "Please sign in to continue" and replace; non-admins on an admin route go to `/`; children render exactly when not loading, signed in, and not admin-only or an admin; `adminOnly` defaults to false |
| ProtectedRoute.GuardAfterRestore | src/components/ProtectedRoute.tsx:14-40 | at mount the guard waits; after restoring a stored user an ordinary route renders, and an admin route renders exactly when the stored flag is `true` |
| ProtectedRoute.GuardAfterSignOut | src/components/ProtectedRoute.tsx:24-32 | after logout every guarded route redirects to sign in |
| ProtectedRoute.AdminRouteNeedsAdmin | src/components/ProtectedRoute.tsx:35-40 | on a coherent session an admin route renders exactly for a signed-in administrator |
| ProductDetails.ParseTheme | src/pages/ProductDetails.tsx:10 | `'naruto'` when the parameter is absent or empty; any other text is taken unvalidated |
| ProductDetails.StyleFor | src/pages/ProductDetails.tsx:45-72 | a style exists exactly for the four theme names |
| ProductDetails.Details | src/pages/ProductDetails.tsx:12-72 | Not Found exactly for an id with no product; an unknown theme breaks the render; otherwise the product, its theme's style, and `getRelatedProducts(id, 3)`, so at most 3 related items |
| ProductDetails.CatalogueProductsOpen | src/pages/ProductDetails.tsx:12-72 | every catalogue product opens in the default theme with no related products |
| ProductDetails.InitialImage | src/pages/ProductDetails.tsx:22 | the first of `images` when present and non-empty, else `image`; never empty when `image` is not |
| ProductDetails.FirstOf | src/pages/ProductDetails.tsx:23-24 | `list[0]`, undefined exactly for an empty list |
| ProductDetails.CatalogueSelectionsDefined | src/pages/ProductDetails.tsx:20-25 | every catalogue product has a colour, a size and a non-empty image to preselect |
| ProductDetails.StepDown | src/pages/ProductDetails.tsx:187 | `Math.max(1, q - 1)`: never below 1; q − 1 above 1; 1 otherwise |
| ProductDetails.StepUp | src/pages/ProductDetails.tsx:194 | plus makes the quantity larger |
| ProductDetails.StepsUndo | src/pages/ProductDetails.tsx:187-194 | minus undoes plus on every valid quantity; plus undoes minus above 1 |
| ProductDetails.AddToCartButton | src/pages/ProductDetails.tsx:200-207 | disabled exactly when the product is out of stock, and labelled accordingly |
| ProductDetails.CatalogueButtonsEnabled | src/pages/ProductDetails.tsx:200-207 | every catalogue product's add button is enabled |
| ProductDetails.DetailsState.constructor | src/pages/ProductDetails.tsx:15-18 | empty selections and quantity 1 |
| ProductDetails.DetailsState.ApplyProduct | src/pages/ProductDetails.tsx:20-26 | the resolved product's first image, colour and size are preselected; the quantity is left alone |
| ProductDetails.DetailsState.Decrement | src/pages/ProductDetails.tsx:187 | the quantity becomes `StepDown` of the old one and is at least 1; selections unchanged |
| ProductDetails.DetailsState.Increment | src/pages/ProductDetails.tsx:194 | the quantity becomes `StepUp` of the old one and stays at least 1; selections unchanged |
| ProductDetails.DetailsState.SelectImage | src/pages/ProductDetails.tsx:104 | sets only the image |
| ProductDetails.DetailsState.SelectColor | src/pages/ProductDetails.tsx:152 | sets only the colour |
| ProductDetails.DetailsState.SelectSize | src/pages/ProductDetails.tsx:174 | sets only the size |

## Left out

- HTTP, the REST endpoints and the axios token interceptor (`src/Services/api.ts`): each call is an input outcome, and the wire format is not part of this model.
- Toasts, console logging, `Navigate` and the markup of every component. Pure markup components and the KaijuPage and OnePiecePage filter wiring are not part of this model.
- Async interleavings and React mechanics: each action is atomic. Stale closures over `cartItems` in `addToCart`, double clicks and `useEffect` re-triggering are not modelled.
- CartLines.AddLine: `addToCart` copies the array but updates the existing line object in place, so the previous state's line also sees the new quantity. The model works on values and does not capture that aliasing.
- Floating point and formatting: prices, tax and total are exact. `toFixed(2)` rounding and float error are not modelled.
- `Number(id)` parsing on the details page: the caller passes the parsed id, and `None` stands for `NaN`.
- Product `rating` and `reviews`, which no modelled logic reads.
- Catalogue.SortByIdDescending: it states sorted-and-permuted, not the stability `Array.sort` also guarantees.
- The details page's add button has no click handler in the source, so nothing is added to the cart from there.
- The cart page's quantity buttons are rendered only when signed in. Its handlers are modelled without that condition, as the source writes them.
- LoginPage's empty-field check is not part of this model.
- The filter panel's lists of offered price ranges, sizes and categories: they only feed the markup.
