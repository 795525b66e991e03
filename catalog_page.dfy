/**
 * The catalog page's state, as the component holds it: the loaded products, the
 * products on display, the slider range and the filter settings. Each handler
 * replaces the filters through the updaters of CatalogFilter; `ApplyFilters`
 * is the effect that recomputes the displayed list whenever the filters or the
 * products change.
 */
module CatalogPage {
  import opened Wrappers
  import opened CatalogFilter

  class CatalogPage {
    var products: seq<Product>
    var filteredProducts: seq<Product>
    var priceRange: PriceRange
    var filters: Filters
    var isLoading: bool

    /** The displayed list is the filtered catalog (true once the filter effect has run). */
    ghost predicate Settled()
      reads this
    {
      filteredProducts == CatalogFilter.ApplyFilters(products, filters)
    }

    /** The slider range is the one the loaded catalog calls for. */
    ghost predicate RangeFitsCatalog()
      reads this
    {
      priceRange == PriceBounds(products)
    }

    /** The state on first render, before the catalog is fetched. */
    constructor (categoryParam: Option<string>)
      ensures products == [] && filteredProducts == []
      ensures priceRange == DefaultRange
      ensures filters == InitialFilters(categoryParam)
      ensures isLoading
      ensures Settled() && RangeFitsCatalog()
    {
      products := [];
      filteredProducts := [];
      priceRange := DefaultRange;
      filters := InitialFilters(categoryParam);
      isLoading := true;
    }

    /**
     * `fetchProducts`. `response` is what `getProducts` delivered. A database
     * error is caught inside `getProducts`, which then delivers an empty
     * catalog (`Some([])`). None stands for an exception that escapes
     * `getProducts` (the server action itself failing); the page only logs it.
     * A non-empty catalog resets the slider range and the filter's price bounds
     * to the catalog's bounds; an empty one leaves both as they were.
     */
    method FetchProducts(response: Option<seq<Product>>)
      modifies this
      ensures !isLoading
      ensures response.None? ==> products == old(products) && filteredProducts == old(filteredProducts)
                                  && priceRange == old(priceRange) && filters == old(filters)
      ensures response.Some? ==> products == response.value && filteredProducts == response.value
      ensures response.Some? && response.value != [] ==>
                priceRange == PriceBounds(response.value)
                && filters == old(filters).(minPrice := priceRange.lo as real, maxPrice := priceRange.hi as real)
      ensures response.Some? && response.value == [] ==> priceRange == old(priceRange) && filters == old(filters)
      ensures response.Some? && old(priceRange) == DefaultRange ==> RangeFitsCatalog()
    {
      isLoading := true;
      if response.Some? {
        var data := response.value;
        products := data;
        filteredProducts := data;
        if |data| > 0 {
          var bounds := PriceBounds(data);
          priceRange := bounds;
          filters := filters.(minPrice := bounds.lo as real, maxPrice := bounds.hi as real);
        }
      }
      isLoading := false;
    }

    /** The effect on a changed `category` query parameter: a non-empty value selects that category. */
    method SyncCategoryParam(categoryParam: Option<string>)
      modifies this`filters
      ensures categoryParam.Some? && categoryParam.value != "" ==>
                filters == old(filters).(category := categoryParam.value)
      ensures categoryParam.None? || categoryParam.value == "" ==> filters == old(filters)
    {
      if categoryParam.Some? && categoryParam.value != "" {
        filters := filters.(category := categoryParam.value);
      }
    }

    /** The effect that runs after every change of `filters` or `products`. */
    method ApplyFilters()
      modifies this`filteredProducts
      ensures Settled()
    {
      filteredProducts := CatalogFilter.ApplyFilters(products, filters);
    }

    method HandleCategoryChange(category: string)
      modifies this`filters
      ensures filters == ToggleCategory(old(filters), category)
    {
      filters := ToggleCategory(filters, category);
    }

    method HandleColorChange(color: string)
      modifies this`filters
      ensures filters == ToggleColor(old(filters), color)
    {
      filters := ToggleColor(filters, color);
    }

    method HandlePriceChange(lo: real, hi: real)
      modifies this`filters
      ensures filters == SetPriceRange(old(filters), lo, hi)
    {
      filters := SetPriceRange(filters, lo, hi);
    }

    /**
     * `clearFilters`, followed by the filter effect: when the slider range is
     * the loaded catalog's, the whole catalog is on display again, in order.
     */
    method ClearFilters()
      modifies this`filters, this`filteredProducts
      ensures filters == CatalogFilter.ClearFilters(priceRange)
      ensures Settled()
      ensures RangeFitsCatalog() ==> filteredProducts == products
    {
      filters := CatalogFilter.ClearFilters(priceRange);
      ApplyFilters();
      if RangeFitsCatalog() {
        ClearFiltersShowsCatalog(products);
      }
    }
  }
}
