/**
 * The catalog page's filtering logic: the products, the filter settings, the
 * predicates `applyFilters` chains together, the price bounds computed when the
 * catalog loads, and the updaters the filter controls pass to `setFilters`.
 */
module CatalogFilter {
  import opened Wrappers

  datatype Product = Product(
    id: string,
    name: string,
    description: string,
    price: real,
    image: string,
    category: string,
    color: string)

  /** The `filters` state: "" means no category; an empty colour list means no colour filter. */
  datatype Filters = Filters(category: string, colors: seq<string>, minPrice: real, maxPrice: real)

  /** The `priceRange` state: the two integer ends of the price slider. */
  datatype PriceRange = PriceRange(lo: int, hi: int)

  /** The range the page starts with, and keeps when the catalog is empty. */
  const DefaultRange := PriceRange(0, 200)

  /** The filters before any product is loaded; the category comes from the `category` query parameter. */
  function InitialFilters(categoryParam: Option<string>): (f: Filters)
    ensures f.colors == [] && f.minPrice == DefaultRange.lo as real && f.maxPrice == DefaultRange.hi as real
    ensures categoryParam.Some? ==> f.category == categoryParam.value
    ensures categoryParam.None? ==> f.category == ""
  {
    Filters(if categoryParam.Some? then categoryParam.value else "", [], 0.0, 200.0)
  }

  // ---------------------------------------------------------------------------
  // Filtering

  /** `r` is `s` with some entries dropped and the rest kept in order. */
  predicate IsSubsequence(r: seq<Product>, s: seq<Product>)
    decreases |s|
  {
    if r == [] then true
    else if s == [] then false
    else if r[0] == s[0] then IsSubsequence(r[1..], s[1..])
    else IsSubsequence(r, s[1..])
  }

  lemma {:induction false} SubsequenceReflexive(s: seq<Product>)
    ensures IsSubsequence(s, s)
    decreases |s|
  {
    if s != [] {
      SubsequenceReflexive(s[1..]);
    }
  }

  lemma {:induction false} SubsequenceTransitive(a: seq<Product>, b: seq<Product>, c: seq<Product>)
    requires IsSubsequence(a, b) && IsSubsequence(b, c)
    ensures IsSubsequence(a, c)
    decreases |c|
  {
    if a == [] {
    } else if b == [] {
    } else if b[0] == c[0] {
      if a[0] == b[0] {
        SubsequenceTransitive(a[1..], b[1..], c[1..]);
      } else {
        SubsequenceTransitive(a, b[1..], c[1..]);
        SubsequenceHead(a, c);
      }
    } else {
      SubsequenceTransitive(a, b, c[1..]);
      SubsequenceHead(a, c);
    }
  }

  /** Skipping the head of `c` never loses a subsequence. */
  lemma {:induction false} SubsequenceHead(a: seq<Product>, c: seq<Product>)
    requires c != [] && IsSubsequence(a, c[1..])
    ensures IsSubsequence(a, c)
    decreases |c|, 1
  {
    if a != [] && a[0] == c[0] {
      SubsequenceDropFirst(a, c[1..]);
    }
  }

  /** Dropping the first element of a subsequence keeps it a subsequence. */
  lemma {:induction false} SubsequenceDropFirst(a: seq<Product>, c: seq<Product>)
    requires a != [] && IsSubsequence(a, c)
    ensures IsSubsequence(a[1..], c)
    decreases |c|, 2
  {
    assert c != [];
    if a[0] == c[0] {
      SubsequenceHead(a[1..], c);
    } else {
      SubsequenceDropFirst(a, c[1..]);
      SubsequenceHead(a[1..], c);
    }
  }

  /** JavaScript's `Array.prototype.filter` on products. */
  function Filter(s: seq<Product>, keep: Product -> bool): (r: seq<Product>)
    ensures forall p :: p in r <==> p in s && keep(p)
    ensures forall p :: multiset(r)[p] == if keep(p) then multiset(s)[p] else 0
    ensures IsSubsequence(r, s)
  {
    if s == [] then []
    else
      var rest := Filter(s[1..], keep);
      assert s == [s[0]] + s[1..];
      if keep(s[0]) then
        assert ([s[0]] + rest)[1..] == rest;
        [s[0]] + rest
      else
        SubsequenceHead(rest, s);
        rest
  }

  /** A filter that keeps every entry of `s` returns `s` itself. */
  lemma {:induction false} FilterKeepsAll(s: seq<Product>, keep: Product -> bool)
    requires forall p :: p in s ==> keep(p)
    ensures Filter(s, keep) == s
  {
    if s != [] {
      FilterKeepsAll(s[1..], keep);
    }
  }

  /** One step of `.filter`: the head is kept or dropped, the tail filtered. */
  lemma FilterCons(x: Product, s: seq<Product>, keep: Product -> bool)
    ensures Filter([x] + s, keep) == if keep(x) then [x] + Filter(s, keep) else Filter(s, keep)
  {
    assert ([x] + s)[0] == x && ([x] + s)[1..] == s;
  }

  /** The predicate of the category stage: equal category. */
  function CategoryTest(f: Filters): Product -> bool
  {
    (p: Product) => p.category == f.category
  }

  /** The predicate of the colour stage: the colour is among the chosen ones. */
  function ColorTest(f: Filters): Product -> bool
  {
    (p: Product) => p.color in f.colors
  }

  /** The predicate of the price stage: the inclusive price range. */
  function PriceTest(f: Filters): Product -> bool
  {
    (p: Product) => f.minPrice <= p.price <= f.maxPrice
  }

  /** The three predicates `applyFilters` combines: category, colour and inclusive price range. */
  predicate Matches(f: Filters, p: Product)
  {
    && (f.category != "" ==> p.category == f.category)
    && (|f.colors| > 0 ==> p.color in f.colors)
    && f.minPrice <= p.price <= f.maxPrice
  }

  /** One optional `.filter` step: applied only when `active`. */
  function Stage(s: seq<Product>, active: bool, keep: Product -> bool): (r: seq<Product>)
    ensures forall p :: p in r <==> p in s && (active ==> keep(p))
    ensures forall p :: multiset(r)[p] == if !active || keep(p) then multiset(s)[p] else 0
    ensures IsSubsequence(r, s)
  {
    if active then Filter(s, keep)
    else
      SubsequenceReflexive(s);
      s
  }

  /**
   * `applyFilters`: a category filter when a category is set, then a colour
   * filter when colours are chosen, then the price filter, always. The result
   * holds exactly the matching products, each as often as in the catalog, in
   * catalog order.
   */
  function ApplyFilters(products: seq<Product>, f: Filters): (r: seq<Product>)
    ensures forall p :: p in r <==> p in products && Matches(f, p)
    ensures forall p :: multiset(r)[p] == if Matches(f, p) then multiset(products)[p] else 0
    ensures IsSubsequence(r, products)
  {
    var byCategory := Stage(products, f.category != "", CategoryTest(f));
    var byColor := Stage(byCategory, |f.colors| > 0, ColorTest(f));
    var byPrice := Stage(byColor, true, PriceTest(f));
    SubsequenceTransitive(byColor, byCategory, products);
    SubsequenceTransitive(byPrice, byColor, products);
    assert forall p :: p in byPrice <==> p in products && Matches(f, p);
    assert forall p :: multiset(byPrice)[p] == if Matches(f, p) then multiset(products)[p] else 0 by {
      forall p ensures multiset(byPrice)[p] == if Matches(f, p) then multiset(products)[p] else 0 {
        assert Matches(f, p) <==> (f.category != "" ==> CategoryTest(f)(p)) && (|f.colors| > 0 ==> ColorTest(f)(p)) && PriceTest(f)(p);
      }
    }
    byPrice
  }

  /** When every product matches, filtering hands back the catalog unchanged. */
  lemma AllMatchKeepsCatalog(products: seq<Product>, f: Filters)
    requires forall p :: p in products ==> Matches(f, p)
    ensures ApplyFilters(products, f) == products
  {
    if f.category != "" {
      FilterKeepsAll(products, CategoryTest(f));
    }
    if |f.colors| > 0 {
      FilterKeepsAll(products, ColorTest(f));
    }
    FilterKeepsAll(products, PriceTest(f));
  }

  /** Filtering the filtered list again with the same filters changes nothing. */
  lemma ApplyFiltersIdempotent(products: seq<Product>, f: Filters)
    ensures ApplyFilters(ApplyFilters(products, f), f) == ApplyFilters(products, f)
  {
    AllMatchKeepsCatalog(ApplyFilters(products, f), f);
  }

  // ---------------------------------------------------------------------------
  // Price bounds

  /** `Math.floor`. */
  function Floor(x: real): (n: int)
    ensures n as real <= x < n as real + 1.0
  {
    x.Floor
  }

  /** `Math.ceil`, derived from the floor. */
  function Ceil(x: real): (n: int)
    ensures x <= n as real < x + 1.0
  {
    -((-x).Floor)
  }

  /** `Math.min(...prices)`. */
  function MinPrice(products: seq<Product>): (m: real)
    requires |products| > 0
    ensures forall p :: p in products ==> m <= p.price
    ensures exists p :: p in products && p.price == m
  {
    if |products| == 1 then products[0].price
    else
      var rest := MinPrice(products[1..]);
      if products[0].price <= rest then products[0].price else rest
  }

  /** `Math.max(...prices)`. */
  function MaxPrice(products: seq<Product>): (m: real)
    requires |products| > 0
    ensures forall p :: p in products ==> p.price <= m
    ensures exists p :: p in products && p.price == m
  {
    if |products| == 1 then products[0].price
    else
      var rest := MaxPrice(products[1..]);
      if products[0].price >= rest then products[0].price else rest
  }

  /**
   * The slider range `fetchProducts` derives from a catalog: the floor of the
   * lowest price and the ceiling of the highest, or the default range when the
   * catalog is empty. Every price lies inside it, and neither end can be moved
   * inwards by a whole unit without cutting a product off.
   */
  function PriceBounds(products: seq<Product>): (b: PriceRange)
    ensures products == [] ==> b == DefaultRange
    ensures forall p :: p in products ==> b.lo as real <= p.price <= b.hi as real
    ensures products != [] ==> exists p :: p in products && p.price < b.lo as real + 1.0
    ensures products != [] ==> exists p :: p in products && b.hi as real - 1.0 < p.price
    ensures b.lo <= b.hi
  {
    if products == [] then DefaultRange
    else PriceRange(Floor(MinPrice(products)), Ceil(MaxPrice(products)))
  }

  // ---------------------------------------------------------------------------
  // Filter-state updaters

  /**
   * `handleCategoryChange`: single-select toggle. Afterwards at most the clicked
   * category is selected, and (for a real category) its checkbox has flipped.
   * Colours and prices are untouched.
   */
  function ToggleCategory(f: Filters, clicked: string): (r: Filters)
    ensures r.colors == f.colors && r.minPrice == f.minPrice && r.maxPrice == f.maxPrice
    ensures r.category == "" || r.category == clicked
    ensures clicked != "" ==> (r.category == clicked <==> f.category != clicked)
  {
    f.(category := if f.category == clicked then "" else clicked)
  }

  /**
   * Toggling the same category twice restores the selection exactly when
   * nothing, or that very category, was selected before.
   */
  lemma ToggleCategoryTwice(f: Filters, clicked: string)
    ensures ToggleCategory(ToggleCategory(f, clicked), clicked) == f <==> f.category == "" || f.category == clicked
  {
    if f.category != "" && f.category != clicked {
      assert ToggleCategory(ToggleCategory(f, clicked), clicked).category == "";
    }
  }

  /** `prev.colors.filter((c) => c !== color)`: removes every occurrence of `color`. */
  function RemoveColor(colors: seq<string>, color: string): (r: seq<string>)
    ensures forall c :: c in r <==> c in colors && c != color
    ensures NoDuplicates(colors) ==> NoDuplicates(r)
    ensures color !in colors ==> r == colors
  {
    if colors == [] then []
    else
      var rest := RemoveColor(colors[1..], color);
      if colors[0] != color then
        assert colors == [colors[0]] + colors[1..];
        assert NoDuplicates(colors) ==> colors[0] !in colors[1..] && NoDuplicates(colors[1..]);
        assert NoDuplicates(colors) ==> NoDuplicates([colors[0]] + rest) by {
          if NoDuplicates(colors) {
            PrependKeepsNoDuplicates(colors[0], rest);
          }
        }
        [colors[0]] + rest
      else
        assert NoDuplicates(colors) ==> NoDuplicates(colors[1..]);
        rest
  }

  predicate NoDuplicates(s: seq<string>)
  {
    forall i, j :: 0 <= i < j < |s| ==> s[i] != s[j]
  }

  lemma PrependKeepsNoDuplicates(x: string, s: seq<string>)
    requires x !in s && NoDuplicates(s)
    ensures NoDuplicates([x] + s)
  {
    forall i, j | 0 <= i < j < |[x] + s|
      ensures ([x] + s)[i] != ([x] + s)[j]
    {
      if i == 0 {
        assert ([x] + s)[j] == s[j - 1];
      }
    }
  }

  /**
   * `handleColorChange`: multi-select toggle. The clicked colour's membership
   * flips, every other colour keeps its membership, no duplicate is introduced,
   * and category and prices are untouched.
   */
  function ToggleColor(f: Filters, color: string): (r: Filters)
    ensures r.category == f.category && r.minPrice == f.minPrice && r.maxPrice == f.maxPrice
    ensures color in r.colors <==> color !in f.colors
    ensures forall c :: c != color ==> (c in r.colors <==> c in f.colors)
    ensures NoDuplicates(f.colors) ==> NoDuplicates(r.colors)
  {
    if color in f.colors then
      f.(colors := RemoveColor(f.colors, color))
    else
      var colors := f.colors + [color];
      assert NoDuplicates(f.colors) ==> NoDuplicates(colors) by {
        if NoDuplicates(f.colors) {
          forall i, j | 0 <= i < j < |colors| ensures colors[i] != colors[j] {
            if j == |f.colors| {
              assert colors[i] == f.colors[i];
            }
          }
        }
      }
      f.(colors := colors)
  }

  /** Toggling a colour that was not chosen, twice, restores the exact colour list. */
  lemma {:induction false} ToggleColorTwiceAbsent(f: Filters, color: string)
    requires color !in f.colors
    ensures ToggleColor(ToggleColor(f, color), color) == f
  {
    RemoveAppended(f.colors, color);
  }

  lemma {:induction false} RemoveAppended(colors: seq<string>, color: string)
    requires color !in colors
    ensures RemoveColor(colors + [color], color) == colors
  {
    if colors != [] {
      assert (colors + [color])[1..] == colors[1..] + [color];
      RemoveAppended(colors[1..], color);
    } else {
      assert RemoveColor([color], color) == RemoveColor([], color);
    }
  }

  /** `handlePriceChange`: the slider's two values become the price bounds; nothing else changes. */
  function SetPriceRange(f: Filters, lo: real, hi: real): (r: Filters)
    ensures r.category == f.category && r.colors == f.colors
    ensures r.minPrice == lo && r.maxPrice == hi
    ensures forall p :: Matches(r, p) <==>
      (r.category == "" || p.category == r.category) && (r.colors == [] || p.color in r.colors) && lo <= p.price <= hi
  {
    f.(minPrice := lo, maxPrice := hi)
  }

  /** `clearFilters`: no category, no colours, the whole slider range. */
  function ClearFilters(range: PriceRange): (f: Filters)
    ensures forall p :: Matches(f, p) <==> range.lo as real <= p.price <= range.hi as real
  {
    Filters("", [], range.lo as real, range.hi as real)
  }

  /** After clearing the filters, with the range computed from the same catalog, every product is shown, in order. */
  lemma ClearFiltersShowsCatalog(products: seq<Product>)
    ensures ApplyFilters(products, ClearFilters(PriceBounds(products))) == products
  {
    AllMatchKeepsCatalog(products, ClearFilters(PriceBounds(products)));
  }
}
