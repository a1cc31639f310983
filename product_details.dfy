/** The product details page: the theme taken from the query string, the product and
    related-product lookups, the selections the page starts from, the quantity stepper,
    and the stock-gated add button. */
module ProductDetails {
  import opened Wrappers
  import opened Sequences
  import opened Catalogue

  const DefaultTheme: string := "naruto"
  const RelatedLimit: int := 3

  /** `searchParams.get('theme') || 'naruto'`: any non-empty text is taken as it is. */
  function ParseTheme(param: Option<string>): (theme: string)
    ensures param.None? || param.value == "" ==> theme == DefaultTheme
    ensures param.Some? && param.value != "" ==> theme == param.value
    ensures theme != ""
  {
    if param.Some? && param.value != "" then param.value else DefaultTheme
  }

  /** The Tailwind classes of one theme. */
  datatype ThemeStyle = ThemeStyle(accent: string, button: string, text: string, border: string)

  /** `themeStyles[theme]`: present for the four theme names only. */
  function StyleFor(theme: string): (r: Option<ThemeStyle>)
    ensures r.Some? <==> exists t :: ThemeName(t) == theme
  {
    if theme == "naruto" then
      assert ThemeName(Naruto) == theme;
      Some(ThemeStyle("from-orange-500 to-purple-600", "bg-orange-600 hover:bg-orange-700", "text-orange-400", "border-orange-500"))
    else if theme == "one-piece" then
      assert ThemeName(OnePiece) == theme;
      Some(ThemeStyle("from-red-500 to-gray-600", "bg-red-600 hover:bg-red-700", "text-red-400", "border-red-500"))
    else if theme == "kaiju" then
      assert ThemeName(Kaiju) == theme;
      Some(ThemeStyle("from-blue-500 to-teal-600", "bg-teal-600 hover:bg-teal-700", "text-teal-400", "border-teal-500"))
    else if theme == "bleach" then
      assert ThemeName(Bleach) == theme;
      Some(ThemeStyle("from-gray-500 to-gray-700", "bg-gray-600 hover:bg-gray-700", "text-gray-400", "border-gray-500"))
    else None
  }

  /** What the page renders. `StyleMissing` is the render that throws: a theme the style
      table does not know leaves `style` undefined and the first `style.text` fails. */
  datatype View =
    | NotFound
    | StyleMissing
    | Found(product: Product, style: ThemeStyle, related: seq<Product>)

  /** The page for route parameter `id` (already converted by `Number`; `None` is `NaN`,
      which equals no id) and query parameter `theme`. */
  function Details(products: seq<Product>, id: Option<int>, themeParam: Option<string>): (v: View)
    ensures v.NotFound? <==> id.None? || GetProductById(products, id.value).None?
    ensures v.StyleMissing? <==>
              !v.NotFound? && forall t :: ThemeName(t) != ParseTheme(themeParam)
    ensures v.Found? ==> id.Some? && GetProductById(products, id.value) == Some(v.product)
    ensures v.Found? ==> Some(v.style) == StyleFor(ParseTheme(themeParam))
    ensures v.Found? ==> v.related == GetRelatedProducts(products, id.value, RelatedLimit)
    ensures v.Found? ==> |v.related| <= RelatedLimit
  {
    if id.None? then NotFound
    else match GetProductById(products, id.value)
      case None => NotFound
      case Some(p) =>
        match StyleFor(ParseTheme(themeParam))
        case None => StyleMissing
        case Some(style) => Found(p, style, GetRelatedProducts(products, id.value, RelatedLimit))
  }

  /** Every catalogue product opens in the default theme, with no related products. */
  lemma CatalogueProductsOpen(i: nat)
    requires i < |InitialProducts|
    ensures Details(InitialProducts, Some(InitialProducts[i].id), None)
            == Found(InitialProducts[i], StyleFor(DefaultTheme).value, [])
  {
    InitialCatalogueShape();
    GetProductByIdUnique(InitialProducts, InitialProducts[i].id, InitialProducts[i]);
    NoRelatedProductsInInitialCatalogue(InitialProducts[i].id, RelatedLimit);
    assert ThemeName(Naruto) == DefaultTheme;
  }

  /** `product.images?.[0] || product.image`. */
  function InitialImage(p: Product): (img: string)
    ensures p.images.Some? && |p.images.value| > 0 && p.images.value[0] != "" ==> img == p.images.value[0]
    ensures p.images.None? || |p.images.value| == 0 || p.images.value[0] == "" ==> img == p.image
    ensures p.image != "" ==> img != ""
  {
    if p.images.Some? && |p.images.value| > 0 && p.images.value[0] != "" then p.images.value[0] else p.image
  }

  /** `list[0]`, which is `undefined` on an empty list. */
  function FirstOf(list: seq<string>): (r: Option<string>)
    ensures r.None? <==> list == []
    ensures r.Some? ==> r.value == list[0]
  {
    if list == [] then None else Some(list[0])
  }

  /** The all-catalogue facts the effect relies on: every catalogue product has a
      colour and a size to preselect. */
  lemma CatalogueSelectionsDefined(i: nat)
    requires i < |InitialProducts|
    ensures FirstOf(InitialProducts[i].colors).Some? && FirstOf(InitialProducts[i].sizes).Some?
    ensures InitialImage(InitialProducts[i]) != ""
  {
  }

  /** `Math.max(1, q - 1)`. */
  function StepDown(q: int): (r: int)
    ensures r >= 1
    ensures q > 1 ==> r == q - 1
    ensures q <= 1 ==> r == 1
  {
    if q - 1 < 1 then 1 else q - 1
  }

  function StepUp(q: int): (r: int)
    ensures r > q
  {
    q + 1
  }

  /** The two buttons undo each other on every quantity the page can hold, except that
      minus at 1 stays at 1. */
  lemma StepsUndo(q: int)
    requires q >= 1
    ensures StepDown(StepUp(q)) == q
    ensures q >= 2 ==> StepUp(StepDown(q)) == q
    ensures StepDown(1) == 1
  {
  }

  datatype Button = Button(disabled: bool, caption: string)

  /** The add button: disabled, and labelled `Out of Stock`, when the product is not in
      stock. It has no click handler. */
  function AddToCartButton(p: Product): (b: Button)
    ensures b.disabled <==> !p.inStock
    ensures b.caption == (if p.inStock then "Add to Cart" else "Out of Stock")
  {
    if p.inStock then Button(false, "Add to Cart") else Button(true, "Out of Stock")
  }

  lemma CatalogueButtonsEnabled(i: nat)
    requires i < |InitialProducts|
    ensures !AddToCartButton(InitialProducts[i]).disabled
  {
  }

  /** The page's local state: the chosen image, colour, size and quantity. */
  class DetailsState {
    var selectedImage: string
    var selectedColor: Option<string>
    var selectedSize: Option<string>
    var quantity: int

    /** The stepper never shows less than 1. */
    predicate Valid()
      reads this
    {
      quantity >= 1
    }

    constructor ()
      ensures Valid()
      ensures selectedImage == "" && selectedColor == Some("") && selectedSize == Some("") && quantity == 1
    {
      selectedImage := "";
      selectedColor := Some("");
      selectedSize := Some("");
      quantity := 1;
    }

    /** The effect run when the product resolves: preselects its first image, colour and
        size. The quantity is left alone. */
    method ApplyProduct(p: Product)
      modifies this
      ensures selectedImage == InitialImage(p)
      ensures selectedColor == FirstOf(p.colors) && selectedSize == FirstOf(p.sizes)
      ensures quantity == old(quantity)
    {
      selectedImage := InitialImage(p);
      selectedColor := FirstOf(p.colors);
      selectedSize := FirstOf(p.sizes);
    }

    method Decrement()
      modifies this
      ensures quantity == StepDown(old(quantity))
      ensures Valid()
      ensures selectedImage == old(selectedImage) && selectedColor == old(selectedColor) && selectedSize == old(selectedSize)
    {
      quantity := StepDown(quantity);
    }

    method Increment()
      requires Valid()
      modifies this
      ensures quantity == StepUp(old(quantity))
      ensures Valid()
      ensures selectedImage == old(selectedImage) && selectedColor == old(selectedColor) && selectedSize == old(selectedSize)
    {
      quantity := StepUp(quantity);
    }

    method SelectImage(image: string)
      modifies this
      ensures selectedImage == image
      ensures selectedColor == old(selectedColor) && selectedSize == old(selectedSize) && quantity == old(quantity)
    {
      selectedImage := image;
    }

    method SelectColor(color: string)
      modifies this
      ensures selectedColor == Some(color)
      ensures selectedImage == old(selectedImage) && selectedSize == old(selectedSize) && quantity == old(quantity)
    {
      selectedColor := Some(color);
    }

    method SelectSize(size: string)
      modifies this
      ensures selectedSize == Some(size)
      ensures selectedImage == old(selectedImage) && selectedColor == old(selectedColor) && quantity == old(quantity)
    {
      selectedSize := Some(size);
    }
  }
}
