/** The product filter panel: the filter record it stores, the handlers that replace it
    wholesale and report the new record to the page through `onFilterChange`, the reset
    button, and the five collapsible sections. */
module ProductFilter {
  import opened Sequences

  datatype Filters = Filters(
    price: string,
    colors: seq<string>,
    sizes: seq<string>,
    availability: bool,
    category: string)

  /** The record the panel starts from and the reset button restores. */
  const NoFilters: Filters := Filters("", [], [], false, "")

  /** What a handler does: the record it stores with `setFilters` and the record it
      passes to `onFilterChange`. */
  datatype Update = Update(stored: Filters, emitted: Filters)

  /** The predicate `x => x !== v` of the removal branch. */
  function Other(v: string): string -> bool {
    (x: string) => x != v
  }

  /** `list.includes(v) ? list.filter(x => x !== v) : [...list, v]`. */
  function Toggle(list: seq<string>, v: string): (r: seq<string>)
    ensures v in r <==> v !in list
    ensures v !in list ==> r == list + [v]
    ensures v in list ==> Subsequence(r, list) && |r| < |list|
    ensures forall x :: x != v ==> (x in r <==> x in list)
    ensures v in list ==> forall i :: 0 <= i < |list| && list[i] != v ==> multiset(r)[list[i]] == multiset(list)[list[i]]
  {
    if v in list then
      var kept := Filter(list, Other(v));
      assert v !in kept by {
        forall i | 0 <= i < |kept| ensures kept[i] != v {
          assert Other(v)(kept[i]);
        }
      }
      FilterShorter(list, Other(v), v);
      kept
    else list + [v]
  }

  /** A filter that drops a present element makes the sequence shorter. */
  lemma {:induction false} FilterShorter(s: seq<string>, p: string -> bool, v: string)
    requires v in s && !p(v)
    ensures |Filter(s, p)| < |s|
  {
    if s[0] == v {
      assert |Filter(s[1..], p)| <= |s[1..]|;
    } else {
      assert v in s[1..];
      FilterShorter(s[1..], p, v);
    }
  }

  /** Selecting a value that was not selected and then clicking it again gives the
      original list back. */
  lemma ToggleTwiceRestores(list: seq<string>, v: string)
    requires v !in list
    ensures Toggle(Toggle(list, v), v) == list
  {
    FilterAppend(list, [v], Other(v));
    forall i | 0 <= i < |list| ensures Other(v)(list[i]) {
      assert list[i] in list;
    }
    FilterKeepsAll(list, Other(v));
    assert Filter([v], Other(v)) == [];
  }

  /** Clicking a selected value twice moves it to the end of the selection. */
  lemma ToggleTwiceMovesToEnd(list: seq<string>, v: string)
    requires v in list
    ensures Toggle(Toggle(list, v), v) == Filter(list, Other(v)) + [v]
  {
  }

  /** A selection without repetitions keeps none after any click. */
  lemma ToggleKeepsDistinct(list: seq<string>, v: string)
    requires Distinct(list)
    ensures Distinct(Toggle(list, v))
  {
    if v in list {
      FilterDistinct(list, Other(v));
    } else {
      var r := list + [v];
      forall i, j | 0 <= i < j < |r| ensures r[i] != r[j] {
        if j == |list| {
          assert r[i] == list[i];
        }
      }
    }
  }

  /** `handlePriceChange`. */
  function HandlePriceChange(f: Filters, range: string): (u: Update)
    ensures u.stored == u.emitted
    ensures u.stored.price == range && u.stored.(price := f.price) == f
  {
    var next := f.(price := range);
    Update(next, next)
  }

  /** `handleColorChange`. */
  function HandleColorChange(f: Filters, color: string): (u: Update)
    ensures u.stored == u.emitted
    ensures u.stored.colors == Toggle(f.colors, color) && u.stored.(colors := f.colors) == f
  {
    var next := f.(colors := Toggle(f.colors, color));
    Update(next, next)
  }

  /** `handleSizeChange`. */
  function HandleSizeChange(f: Filters, size: string): (u: Update)
    ensures u.stored == u.emitted
    ensures u.stored.sizes == Toggle(f.sizes, size) && u.stored.(sizes := f.sizes) == f
  {
    var next := f.(sizes := Toggle(f.sizes, size));
    Update(next, next)
  }

  /** `handleAvailabilityChange`. */
  function HandleAvailabilityChange(f: Filters): (u: Update)
    ensures u.stored == u.emitted
    ensures u.stored.availability != f.availability && u.stored.(availability := f.availability) == f
  {
    var next := f.(availability := !f.availability);
    Update(next, next)
  }

  /** `handleCategoryChange`. */
  function HandleCategoryChange(f: Filters, category: string): (u: Update)
    ensures u.stored == u.emitted
    ensures u.stored.category == category && u.stored.(category := f.category) == f
  {
    var next := f.(category := category);
    Update(next, next)
  }

  /** The reset button. */
  function HandleReset(f: Filters): (u: Update)
    ensures u.stored == u.emitted
    ensures u.stored.colors == [] && u.stored.sizes == [] && !u.stored.availability
    ensures u.stored.price == "" && u.stored.category == ""
  {
    Update(NoFilters, NoFilters)
  }

  /** Choosing the same price range or category again changes nothing further. */
  lemma OverwritesAreIdempotent(f: Filters, range: string, category: string)
    ensures HandlePriceChange(HandlePriceChange(f, range).stored, range) == HandlePriceChange(f, range)
    ensures HandleCategoryChange(HandleCategoryChange(f, category).stored, category) == HandleCategoryChange(f, category)
  {
  }

  /** Two availability clicks give the original record back. */
  lemma AvailabilityTwiceRestores(f: Filters)
    ensures HandleAvailabilityChange(HandleAvailabilityChange(f).stored).stored == f
  {
  }

  /** Resetting twice is resetting once, and a reset panel is the panel as it started. */
  lemma ResetIsIdempotent(f: Filters)
    ensures HandleReset(HandleReset(f).stored) == HandleReset(f)
    ensures HandleReset(f).stored == NoFilters
  {
  }

  /** One user action on the panel. */
  datatype Event =
    | PriceChosen(range: string)
    | ColorClicked(color: string)
    | SizeClicked(size: string)
    | AvailabilityClicked
    | CategoryChosen(category: string)
    | ResetClicked

  function Step(f: Filters, e: Event): (u: Update)
    ensures u.stored == u.emitted
  {
    match e
    case PriceChosen(range) => HandlePriceChange(f, range)
    case ColorClicked(color) => HandleColorChange(f, color)
    case SizeClicked(size) => HandleSizeChange(f, size)
    case AvailabilityClicked => HandleAvailabilityChange(f)
    case CategoryChosen(category) => HandleCategoryChange(f, category)
    case ResetClicked => HandleReset(f)
  }

  /** The record after a series of actions from `f`. */
  function Run(f: Filters, events: seq<Event>): Filters
    decreases |events|
  {
    if events == [] then f else Run(Step(f, events[0]).stored, events[1..])
  }

  /** Neither the colour nor the size selection ever holds a value twice. */
  predicate Consistent(f: Filters) {
    Distinct(f.colors) && Distinct(f.sizes)
  }

  lemma StepKeepsConsistent(f: Filters, e: Event)
    requires Consistent(f)
    ensures Consistent(Step(f, e).stored)
  {
    match e
    case ColorClicked(color) => ToggleKeepsDistinct(f.colors, color);
    case SizeClicked(size) => ToggleKeepsDistinct(f.sizes, size);
    case _ =>
  }

  /** Whatever the user does from the initial panel, no selection holds a value twice. */
  lemma {:induction false} RunKeepsConsistent(f: Filters, events: seq<Event>)
    requires Consistent(f)
    ensures Consistent(Run(f, events))
    decreases |events|
  {
    if events != [] {
      StepKeepsConsistent(f, events[0]);
      RunKeepsConsistent(Step(f, events[0]).stored, events[1..]);
    }
  }

  // ---------------------------------------------------------------------------------
  // Collapsible sections

  datatype Section = PriceSection | ColorSection | SizeSection | AvailabilitySection | CategorySection

  datatype Expanded = Expanded(price: bool, color: bool, size: bool, availability: bool, category: bool)

  /** All five sections start open. */
  const AllExpanded: Expanded := Expanded(true, true, true, true, true)

  function IsExpanded(e: Expanded, s: Section): bool {
    match s
    case PriceSection => e.price
    case ColorSection => e.color
    case SizeSection => e.size
    case AvailabilitySection => e.availability
    case CategorySection => e.category
  }

  /** `toggleSection`: flips the named section and no other. */
  function ToggleSection(e: Expanded, s: Section): (r: Expanded)
    ensures IsExpanded(r, s) == !IsExpanded(e, s)
    ensures forall t :: t != s ==> IsExpanded(r, t) == IsExpanded(e, t)
  {
    match s
    case PriceSection => e.(price := !e.price)
    case ColorSection => e.(color := !e.color)
    case SizeSection => e.(size := !e.size)
    case AvailabilitySection => e.(availability := !e.availability)
    case CategorySection => e.(category := !e.category)
  }

  /** Toggling a section twice leaves every section as it was. */
  lemma ToggleSectionTwice(e: Expanded, s: Section)
    ensures ToggleSection(ToggleSection(e, s), s) == e
  {
  }

  lemma InitiallyAllOpen(s: Section)
    ensures IsExpanded(AllExpanded, s)
  {
  }
}
