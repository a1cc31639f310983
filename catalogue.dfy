/** The product catalogue: the module-level `products` array and the queries over it.
    Every query takes the array's current contents as `products`, because
    `GetNewArrivals` reorders that array in place and later queries see the new order. */
module Catalogue {
  import opened Wrappers
  import opened Sequences

  datatype Theme = Naruto | OnePiece | Kaiju | Bleach

  /** Prices are integer cents (69.99 is 6999). */
  datatype Product = Product(
    id: int,
    name: string,
    price: int,
    image: string,
    images: Option<seq<string>>,
    category: string,
    description: string,
    colors: seq<string>,
    sizes: seq<string>,
    animeTheme: Theme,
    isNew: bool,
    inStock: bool)

  /** The theme as the query string and the style table spell it. */
  function ThemeName(t: Theme): string {
    match t
    case Naruto => "naruto"
    case OnePiece => "one-piece"
    case Kaiju => "kaiju"
    case Bleach => "bleach"
  }

  /** The catalogue as the page loads it. */
  const InitialProducts: seq<Product> := [
    Product(1, "Hashirama Sage Art : 1000 hands Hoodie", 6999, "/imgs/narutohoodie.webp",
      Some(["/imgs/narutohoodieback.webp", "/imgs/narutohoodie.webp"]), "Clothing",
      "Premium quality hoodie featuring Naruto's Sage Mode design",
      ["Black"], ["S", "M", "L", "XL"], Naruto, true, true),
    Product(2, "Straw Hat Pirates Tee", 3999, "/imgs/optshirt1.webp",
      Some(["/imgs/opshirt1.1.webp", "/imgs/optshirt1.webp"]), "Clothing",
      "Collage t-shirt featuring the Straw Hat Pirates wanted posters",
      ["White", "brown"], ["S", "M", "L", "XL"], OnePiece, true, true),
    Product(3, "Kaiju No. 8 T-shirt", 8999, "/imgs/kaijutshirt1.webp",
      None, "Outerwear",
      "classic t-shirt featuring kaiju no. 8",
      ["Black"], ["M", "L", "XL"], Kaiju, true, true)
  ]

  /** No two products share an id. */
  predicate UniqueIds(products: seq<Product>) {
    forall i, j :: 0 <= i < |products| && 0 <= j < |products| && products[i].id == products[j].id ==> i == j
  }

  /** `getProductById`: the first product carrying `id`, or nothing. */
  function GetProductById(products: seq<Product>, id: int): (r: Option<Product>)
    ensures r.None? <==> forall i :: 0 <= i < |products| ==> products[i].id != id
    ensures r.Some? ==> exists k :: 0 <= k < |products| && products[k] == r.value && r.value.id == id
                                 && forall j :: 0 <= j < k ==> products[j].id != id
  {
    var k := FirstIndex(products, (p: Product) => p.id == id);
    if k < |products| then Some(products[k]) else None
  }

  /** With unique ids the lookup finds a product exactly when it is in the catalogue. */
  lemma GetProductByIdUnique(products: seq<Product>, id: int, p: Product)
    requires UniqueIds(products)
    ensures GetProductById(products, id) == Some(p) <==> p in products && p.id == id
  {
    if p in products && p.id == id {
      var i :| 0 <= i < |products| && products[i] == p;
      var r := GetProductById(products, id);
      var k :| 0 <= k < |products| && products[k] == r.value && r.value.id == id;
      assert k == i;
    }
  }

  /** Reordering a catalogue with unique ids (as `GetNewArrivals` does) leaves every
      `getProductById` answer as it was. */
  lemma GetProductByIdAfterReorder(s: seq<Product>, t: seq<Product>, id: int)
    requires UniqueIds(s)
    requires multiset(s) == multiset(t)
    ensures GetProductById(t, id) == GetProductById(s, id)
  {
    forall x ensures x in s <==> x in t {
      assert x in s <==> x in multiset(s);
      assert x in t <==> x in multiset(t);
    }
    var r := GetProductById(t, id);
    if r.Some? {
      GetProductByIdUnique(s, id, r.value);
    } else {
      forall i | 0 <= i < |s| ensures s[i].id != id {
        assert s[i] in s;
        assert s[i] in t;
        var j :| 0 <= j < |t| && t[j] == s[i];
      }
    }
  }

  /** `getProductsByTheme`: exactly the products of that theme, in catalogue order. */
  function GetProductsByTheme(products: seq<Product>, theme: Theme): (r: seq<Product>)
    ensures Subsequence(r, products)
    ensures forall i :: 0 <= i < |r| ==> r[i].animeTheme == theme
    ensures forall i :: 0 <= i < |products| && products[i].animeTheme == theme ==> products[i] in r
    ensures forall i :: 0 <= i < |products| ==>
              multiset(r)[products[i]] == if products[i].animeTheme == theme then multiset(products)[products[i]] else 0
  {
    Filter(products, (p: Product) => p.animeTheme == theme)
  }

  /** `getProductsByCategory`: exactly the products of that category, in catalogue order. */
  function GetProductsByCategory(products: seq<Product>, category: string): (r: seq<Product>)
    ensures Subsequence(r, products)
    ensures forall i :: 0 <= i < |r| ==> r[i].category == category
    ensures forall i :: 0 <= i < |products| && products[i].category == category ==> products[i] in r
    ensures forall i :: 0 <= i < |products| ==>
              multiset(r)[products[i]] == if products[i].category == category then multiset(products)[products[i]] else 0
  {
    Filter(products, (p: Product) => p.category == category)
  }

  /** The related-products predicate: another product of the same theme. */
  function SameThemeOther(productId: int, theme: Theme): Product -> bool {
    (p: Product) => p.id != productId && p.animeTheme == theme
  }

  /** `getRelatedProducts`: nothing for an unknown id; otherwise the first `limit` (in the
      sense of `slice(0, limit)`) other products of the same theme, in catalogue order. */
  function GetRelatedProducts(products: seq<Product>, productId: int, limit: int): (r: seq<Product>)
    ensures GetProductById(products, productId).None? ==> r == []
    ensures GetProductById(products, productId).Some? ==>
              r <= Filter(products, SameThemeOther(productId, GetProductById(products, productId).value.animeTheme))
    ensures GetProductById(products, productId).Some? ==>
              |r| == SliceEnd(|Filter(products, SameThemeOther(productId, GetProductById(products, productId).value.animeTheme))|, limit)
    ensures |r| <= SliceEnd(|products|, limit)
    ensures 0 <= limit ==> |r| <= limit
    ensures forall i :: 0 <= i < |r| ==>
              r[i] in products && r[i].id != productId
              && r[i].animeTheme == GetProductById(products, productId).value.animeTheme
  {
    match GetProductById(products, productId)
    case None => []
    case Some(current) =>
      var same := Filter(products, SameThemeOther(productId, current.animeTheme));
      TakeIsSubset(same, limit);
      Take(same, limit)
  }

  /** The featured-products predicate. */
  function IsNew(p: Product): bool { p.isNew }

  /** `getFeaturedProducts`: the first `limit` new products, in catalogue order. */
  function GetFeaturedProducts(products: seq<Product>, limit: int := 4): (r: seq<Product>)
    ensures |r| <= SliceEnd(|products|, limit)
    ensures forall i :: 0 <= i < |r| ==> r[i] in products && r[i].isNew
    ensures r <= Filter(products, IsNew)
    ensures |r| == SliceEnd(|Filter(products, IsNew)|, limit)
  {
    var newOnes := Filter(products, IsNew);
    TakeIsSubset(newOnes, limit);
    Take(newOnes, limit)
  }

  /** In catalogue order after `getNewArrivals`' comparator `b.id - a.id`. */
  predicate SortedByIdDescending(s: seq<Product>) {
    forall i, j :: 0 <= i < j < |s| ==> s[i].id >= s[j].id
  }

  /** `getNewArrivals`: sorts the shared array by descending id IN PLACE (the source calls
      `Array.sort` on the module-level array itself) and returns its first `limit`. */
  method GetNewArrivals(products: array<Product>, limit: int := 4) returns (r: seq<Product>)
    modifies products
    ensures SortedByIdDescending(products[..])
    ensures multiset(products[..]) == multiset(old(products[..]))
    ensures r == Take(products[..], limit)
  {
    SortByIdDescending(products);
    r := products[..SliceEnd(products.Length, limit)];
  }

  /** `Array.sort` with `(a, b) => b.id - a.id`, as a stable insertion sort. */
  method SortByIdDescending(a: array<Product>)
    modifies a
    ensures SortedByIdDescending(a[..])
    ensures multiset(a[..]) == multiset(old(a[..]))
  {
    var i := 0;
    while i < a.Length
      invariant 0 <= i <= a.Length
      invariant SortedByIdDescending(a[..i])
      invariant multiset(a[..]) == multiset(old(a[..]))
    {
      InsertIntoPrefix(a, i);
      i := i + 1;
    }
    assert a[..a.Length] == a[..];
  }

  /** One insertion step: moves `a[i]` left past every element with a smaller id, so
      that the sorted prefix `a[..i]` grows to `a[..i + 1]`. */
  method InsertIntoPrefix(a: array<Product>, i: nat)
    requires i < a.Length
    requires SortedByIdDescending(a[..i])
    modifies a
    ensures SortedByIdDescending(a[..i + 1])
    ensures multiset(a[..]) == multiset(old(a[..]))
    ensures a[i + 1..] == old(a[i + 1..])
  {
    var j := i;
    while 0 < j && a[j - 1].id < a[j].id
      invariant 0 <= j <= i
      invariant forall k, l :: 0 <= k < l <= i && k != j && l != j ==> a[k].id >= a[l].id
      invariant forall l :: j < l <= i ==> a[j].id > a[l].id
      invariant multiset(a[..]) == multiset(old(a[..]))
      invariant a[i + 1..] == old(a[i + 1..])
    {
      Swap(a, j);
      j := j - 1;
    }
  }

  /** Exchanges `a[j - 1]` and `a[j]`. */
  method Swap(a: array<Product>, j: nat)
    requires 0 < j < a.Length
    modifies a
    ensures a[..] == old(a[..])[j - 1 := old(a[j])][j := old(a[j - 1])]
    ensures multiset(a[..]) == multiset(old(a[..]))
  {
    a[j - 1], a[j] := a[j], a[j - 1];
  }

  /** The page's catalogue: ids 1, 2, 3 and one product per theme. */
  lemma InitialCatalogueShape()
    ensures UniqueIds(InitialProducts)
    ensures forall i, j :: 0 <= i < |InitialProducts| && 0 <= j < |InitialProducts| && i != j ==>
              InitialProducts[i].animeTheme != InitialProducts[j].animeTheme
  {
  }

  /** Because the page's catalogue has one product per theme, no catalogue product has
      related products, whatever the limit. */
  lemma NoRelatedProductsInInitialCatalogue(productId: int, limit: int)
    ensures GetRelatedProducts(InitialProducts, productId, limit) == []
  {
    var r := GetRelatedProducts(InitialProducts, productId, limit);
    if r != [] {
      InitialCatalogueShape();
      assert false;
    }
  }
}
