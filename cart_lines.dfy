/** The cart's lines and the list operations both the cart context and the cart page
    perform on them: enrichment from the catalogue, merge-or-append, absolute quantity
    update, removal, and the two reduces (item count and money total). */
module CartLines {
  import opened Wrappers
  import opened Sequences
  import opened Catalogue

  /** One cart entry. `product` is the catalogue entry looked up when the line was made;
      it is `None` (the source's `undefined`) when the id is not in the catalogue. */
  datatype Line = Line(productId: int, quantity: int, product: Option<Product>)

  /** A line as the remote cart store keeps it. */
  datatype RemoteLine = RemoteLine(productId: int, quantity: int)

  /** A request sent to the remote cart store. */
  datatype Request =
    | GetCart(email: string)
    | AddToCart(userId: string, productId: int, quantity: int)
    | UpdateCartItem(userId: string, productId: int, quantity: int)
    | RemoveFromCart(userId: string, productId: int)

  /** How a remote mutation ended: acknowledged, or thrown. */
  datatype Outcome = Ok | Fail

  /** How a remote cart fetch ended. */
  datatype FetchOutcome = Fetched(cart: seq<RemoteLine>) | FetchFailed

  predicate HasProduct(lines: seq<Line>, productId: int) {
    exists i :: 0 <= i < |lines| && lines[i].productId == productId
  }

  /** At most one line per product. */
  predicate UniqueProductIds(lines: seq<Line>) {
    forall i, j :: 0 <= i < |lines| && 0 <= j < |lines| && lines[i].productId == lines[j].productId ==> i == j
  }

  // ---------------------------------------------------------------------------------
  // Reduces

  /** `lines.reduce((acc, item) => acc + f(item), 0)`. */
  function Sum(lines: seq<Line>, f: Line -> int): int {
    if lines == [] then 0 else Sum(lines[..|lines| - 1], f) + f(lines[|lines| - 1])
  }

  /** A reduce of non-negative terms is non-negative. */
  lemma {:induction false} SumNonNegative(lines: seq<Line>, f: Line -> int)
    ensures (forall i :: 0 <= i < |lines| ==> f(lines[i]) >= 0) ==> Sum(lines, f) >= 0
  {
    if lines != [] && forall i :: 0 <= i < |lines| ==> f(lines[i]) >= 0 {
      var init := lines[..|lines| - 1];
      assert forall i :: 0 <= i < |init| ==> init[i] == lines[i];
      SumNonNegative(init, f);
    }
  }

  function Quantity(l: Line): int { l.quantity }

  /** `item.product?.price || 0`: a line without a product is priced at 0. */
  function UnitPrice(l: Line): (price: int)
    ensures l.product.None? ==> price == 0
    ensures l.product.Some? ==> price == l.product.value.price
  {
    match l.product
    case None => 0
    case Some(p) => p.price
  }

  function LineTotal(l: Line): (r: int)
    ensures UnitPrice(l) >= 0 && l.quantity >= 0 ==> r >= 0
  {
    UnitPrice(l) * l.quantity
  }

  /** The quantity a line contributes to product `productId`. */
  function QuantityIf(productId: int): Line -> int {
    (l: Line) => if l.productId == productId then l.quantity else 0
  }

  /** `cartCount`. */
  function Count(lines: seq<Line>): (c: int)
    ensures (forall i :: 0 <= i < |lines| ==> lines[i].quantity >= 0) ==> c >= 0
  {
    SumNonNegative(lines, Quantity);
    Sum(lines, Quantity)
  }

  /** `cartTotal` (and the cart page's `subtotal`), in cents. */
  function Total(lines: seq<Line>): (t: int)
    ensures (forall i :: 0 <= i < |lines| ==> lines[i].quantity >= 0 && UnitPrice(lines[i]) >= 0) ==> t >= 0
  {
    SumNonNegative(lines, LineTotal);
    Sum(lines, LineTotal)
  }

  /** The total quantity the cart holds of one product. */
  function QuantityOf(lines: seq<Line>, productId: int): int { Sum(lines, QuantityIf(productId)) }

  lemma {:induction false} SumAppend(a: seq<Line>, b: seq<Line>, f: Line -> int)
    ensures Sum(a + b, f) == Sum(a, f) + Sum(b, f)
  {
    if b != [] {
      var b' := b[..|b| - 1];
      assert (a + b)[..|a + b| - 1] == a + b';
      SumAppend(a, b', f);
    } else {
      assert a + b == a;
    }
  }

  lemma {:induction false} SumUpdate(s: seq<Line>, k: nat, v: Line, f: Line -> int)
    requires k < |s|
    ensures Sum(s[k := v], f) == Sum(s, f) - f(s[k]) + f(v)
  {
    var n := |s| - 1;
    if k < n {
      assert s[k := v][..n] == s[..n][k := v];
      SumUpdate(s[..n], k, v, f);
    } else {
      assert s[k := v][..n] == s[..n];
    }
  }

  /** A sum over a sequence where `f` is zero everywhere is zero. */
  lemma {:induction false} SumOfZeros(s: seq<Line>, f: Line -> int)
    requires forall i :: 0 <= i < |s| ==> f(s[i]) == 0
    ensures Sum(s, f) == 0
  {
    if s != [] {
      SumOfZeros(s[..|s| - 1], f);
    }
  }

  /** A line whose product is unresolved adds its quantity to `cartCount` and nothing to
      `cartTotal`; a resolved line adds price times quantity. */
  lemma AppendLineAggregates(lines: seq<Line>, l: Line)
    ensures Count(lines + [l]) == Count(lines) + l.quantity
    ensures l.product.None? ==> Total(lines + [l]) == Total(lines)
    ensures l.product.Some? ==> Total(lines + [l]) == Total(lines) + l.product.value.price * l.quantity
  {
    assert (lines + [l])[..|lines + [l]| - 1] == lines;
  }

  // ---------------------------------------------------------------------------------
  // Hydration

  /** The fetch effect's `response.data.cart.map(item => ({...item, product: getProductById(item.productId)}))`. */
  function Enrich(products: seq<Product>, remote: seq<RemoteLine>): (r: seq<Line>)
    ensures |r| == |remote|
    ensures forall i :: 0 <= i < |r| ==>
              r[i].productId == remote[i].productId && r[i].quantity == remote[i].quantity
              && r[i].product == GetProductById(products, remote[i].productId)
  {
    if remote == [] then []
    else [Line(remote[0].productId, remote[0].quantity, GetProductById(products, remote[0].productId))]
         + Enrich(products, remote[1..])
  }

  /** What the remote store holds for a list of local lines. */
  function Strip(lines: seq<Line>): (r: seq<RemoteLine>)
    ensures |r| == |lines|
  {
    if lines == [] then [] else [RemoteLine(lines[0].productId, lines[0].quantity)] + Strip(lines[1..])
  }

  /** Hydration keeps every remote line, in order, with its id and quantity, whether or
      not the catalogue knows the product: stripping the enrichment gives the remote cart back. */
  lemma {:induction false} StripEnrich(products: seq<Product>, remote: seq<RemoteLine>)
    ensures Strip(Enrich(products, remote)) == remote
  {
    if remote != [] {
      var e := Enrich(products, remote);
      assert e[1..] == Enrich(products, remote[1..]);
      StripEnrich(products, remote[1..]);
    }
  }

  // ---------------------------------------------------------------------------------
  // The three list updates

  /** `addToCart`'s local update: add `quantity` to the first line of that product, or
      append a new line looked up in the catalogue. No bound is checked on `quantity`. */
  function AddLine(products: seq<Product>, lines: seq<Line>, productId: int, quantity: int): (r: seq<Line>)
    ensures !HasProduct(lines, productId) ==>
              r == lines + [Line(productId, quantity, GetProductById(products, productId))]
    ensures HasProduct(lines, productId) ==>
              exists k :: 0 <= k < |lines| && lines[k].productId == productId
                && (forall j :: 0 <= j < k ==> lines[j].productId != productId)
                && r == lines[k := lines[k].(quantity := lines[k].quantity + quantity)]
  {
    var k := FirstIndex(lines, (l: Line) => l.productId == productId);
    if k < |lines| then lines[k := lines[k].(quantity := lines[k].quantity + quantity)]
    else lines + [Line(productId, quantity, GetProductById(products, productId))]
  }

  /** Adding raises the count and that product's quantity by `quantity`, leaves every
      other product's quantity alone, and keeps product ids unique. */
  lemma AddLineAggregates(products: seq<Product>, lines: seq<Line>, productId: int, quantity: int)
    ensures Count(AddLine(products, lines, productId, quantity)) == Count(lines) + quantity
    ensures QuantityOf(AddLine(products, lines, productId, quantity), productId)
            == QuantityOf(lines, productId) + quantity
    ensures forall other :: other != productId ==>
              QuantityOf(AddLine(products, lines, productId, quantity), other) == QuantityOf(lines, other)
    ensures UniqueProductIds(lines) ==> UniqueProductIds(AddLine(products, lines, productId, quantity))
    ensures HasProduct(AddLine(products, lines, productId, quantity), productId)
  {
    var r := AddLine(products, lines, productId, quantity);
    if HasProduct(lines, productId) {
      var k :| 0 <= k < |lines| && lines[k].productId == productId
                && r == lines[k := lines[k].(quantity := lines[k].quantity + quantity)];
      var v := lines[k].(quantity := lines[k].quantity + quantity);
      SumUpdate(lines, k, v, Quantity);
      SumUpdate(lines, k, v, QuantityIf(productId));
      forall other | other != productId
        ensures QuantityOf(r, other) == QuantityOf(lines, other)
      {
        SumUpdate(lines, k, v, QuantityIf(other));
      }
      assert r[k].productId == productId;
    } else {
      var l := Line(productId, quantity, GetProductById(products, productId));
      SumAppend(lines, [l], Quantity);
      SumAppend(lines, [l], QuantityIf(productId));
      forall other | other != productId
        ensures QuantityOf(r, other) == QuantityOf(lines, other)
      {
        SumAppend(lines, [l], QuantityIf(other));
      }
      assert r[|lines|].productId == productId;
    }
  }

  /** Several adds of one product to a cart end with its quantity raised by their sum. */
  function AddSeries(products: seq<Product>, lines: seq<Line>, productId: int, quantities: seq<int>): seq<Line>
    decreases quantities
  {
    if quantities == [] then lines
    else AddSeries(products, AddLine(products, lines, productId, quantities[0]), productId, quantities[1..])
  }

  function SumInts(s: seq<int>): int {
    if s == [] then 0 else s[0] + SumInts(s[1..])
  }

  /** Repeated adds of one product accumulate: its quantity grows by the sum of the added
      quantities, the item count too, and a cart with unique ids keeps them unique (so the
      product ends on a single line). */
  lemma {:induction false} AddSeriesAccumulates(products: seq<Product>, lines: seq<Line>, productId: int, quantities: seq<int>)
    ensures QuantityOf(AddSeries(products, lines, productId, quantities), productId)
            == QuantityOf(lines, productId) + SumInts(quantities)
    ensures Count(AddSeries(products, lines, productId, quantities)) == Count(lines) + SumInts(quantities)
    ensures UniqueProductIds(lines) ==> UniqueProductIds(AddSeries(products, lines, productId, quantities))
    decreases quantities
  {
    if quantities != [] {
      AddLineAggregates(products, lines, productId, quantities[0]);
      AddSeriesAccumulates(products, AddLine(products, lines, productId, quantities[0]), productId, quantities[1..]);
    }
  }

  /** `updateQuantity`'s local update: every line of that product gets the absolute
      quantity; no line is created or removed. */
  function SetQuantity(lines: seq<Line>, productId: int, quantity: int): (r: seq<Line>)
    ensures |r| == |lines|
    ensures forall i :: 0 <= i < |lines| ==>
              r[i] == if lines[i].productId == productId then lines[i].(quantity := quantity) else lines[i]
    ensures !HasProduct(lines, productId) ==> r == lines
  {
    if lines == [] then []
    else [if lines[0].productId == productId then lines[0].(quantity := quantity) else lines[0]]
         + SetQuantity(lines[1..], productId, quantity)
  }

  /** With unique ids, setting a product's quantity changes only its one line, and the
      aggregates move by the difference. */
  lemma SetQuantityAggregates(lines: seq<Line>, productId: int, quantity: int, k: nat)
    requires UniqueProductIds(lines)
    requires k < |lines| && lines[k].productId == productId
    ensures SetQuantity(lines, productId, quantity) == lines[k := lines[k].(quantity := quantity)]
    ensures Count(SetQuantity(lines, productId, quantity)) == Count(lines) - lines[k].quantity + quantity
    ensures Total(SetQuantity(lines, productId, quantity))
            == Total(lines) - UnitPrice(lines[k]) * lines[k].quantity + UnitPrice(lines[k]) * quantity
    ensures UniqueProductIds(SetQuantity(lines, productId, quantity))
  {
    var r := SetQuantity(lines, productId, quantity);
    var v := lines[k].(quantity := quantity);
    assert r == lines[k := v];
    SumUpdate(lines, k, v, Quantity);
    SumUpdate(lines, k, v, LineTotal);
  }

  /** `removeItem`'s local update: `lines.filter(item => item.productId !== productId)`. */
  function Without(lines: seq<Line>, productId: int): (r: seq<Line>)
    ensures Subsequence(r, lines)
    ensures forall i :: 0 <= i < |r| ==> r[i].productId != productId
    ensures forall i :: 0 <= i < |lines| && lines[i].productId != productId ==> lines[i] in r
    ensures forall i :: 0 <= i < |lines| ==>
              multiset(r)[lines[i]] == if lines[i].productId != productId then multiset(lines)[lines[i]] else 0
    ensures !HasProduct(lines, productId) ==> r == lines
  {
    if !HasProduct(lines, productId) then FilterKeepsAll(lines, OtherProduct(productId)); Filter(lines, OtherProduct(productId))
    else Filter(lines, OtherProduct(productId))
  }

  /** The predicate `item => item.productId !== productId` of the removal. */
  function OtherProduct(productId: int): Line -> bool {
    (l: Line) => l.productId != productId
  }

  /** Removing a product takes exactly its quantity out of the count. */
  lemma WithoutCount(lines: seq<Line>, productId: int)
    ensures Count(lines) == Count(Without(lines, productId)) + QuantityOf(lines, productId)
    ensures QuantityOf(Without(lines, productId), productId) == 0
  {
    FilterCount(lines, productId);
  }

  /** `WithoutCount` over the filter itself, by induction from the back. */
  lemma {:induction false} FilterCount(lines: seq<Line>, productId: int)
    ensures Count(lines) == Count(Filter(lines, OtherProduct(productId))) + QuantityOf(lines, productId)
    ensures QuantityOf(Filter(lines, OtherProduct(productId)), productId) == 0
  {
    var keep := OtherProduct(productId);
    var r := Filter(lines, keep);
    SumOfZeros(r, QuantityIf(productId));
    if lines != [] {
      var n := |lines| - 1;
      var init, last := lines[..n], lines[n];
      assert lines == init + [last];
      FilterAppend(init, [last], keep);
      FilterCount(init, productId);
      if last.productId == productId {
        assert Filter([last], keep) == [];
        assert r == Filter(init, keep);
      } else {
        assert Filter([last], keep) == [last];
        assert r == Filter(init, keep) + [last];
        SumAppend(Filter(init, keep), [last], Quantity);
      }
    }
  }

  /** A product removed and then added again sits on one fresh line with exactly the
      added quantity, after all the untouched lines. */
  lemma RemoveThenAdd(products: seq<Product>, lines: seq<Line>, productId: int, quantity: int)
    ensures AddLine(products, Without(lines, productId), productId, quantity)
            == Without(lines, productId) + [Line(productId, quantity, GetProductById(products, productId))]
  {
  }

  /** The cart from hydrating `[{productId: 1, quantity: 2}]` against the page's
      catalogue, then adding one more of product 1, then removing it. */
  lemma HydrateAddRemoveScenario()
    ensures var hydrated := Enrich(InitialProducts, [RemoteLine(1, 2)]);
            && Count(hydrated) == 2 && Total(hydrated) == 13998
            && var added := AddLine(InitialProducts, hydrated, 1, 1);
            && added == [Line(1, 3, Some(InitialProducts[0]))]
            && Count(added) == 3 && Total(added) == 20997
            && Without(added, 1) == [] && Count(Without(added, 1)) == 0
  {
    var hydrated := Enrich(InitialProducts, [RemoteLine(1, 2)]);
    assert hydrated == [Line(1, 2, Some(InitialProducts[0]))];
    assert [] + hydrated == hydrated;
    AppendLineAggregates([], hydrated[0]);
    var added := AddLine(InitialProducts, hydrated, 1, 1);
    assert HasProduct(hydrated, 1);
    assert added == [Line(1, 3, Some(InitialProducts[0]))];
    AppendLineAggregates([], added[0]);
    assert Without(added, 1) == [] by {
      assert !(Without(added, 1) != []);
    }
  }
}
