# Edenrobe store: catalog filtering, cart summary, upload checks and product form

This project models, in Dafny, the behavioural core of a small Next.js storefront:

- **Catalog page** (`app/catalog/page.tsx`). It covers the filter settings (category, colours, price range) and `applyFilters`, the chain of up to three `.filter` calls. It also covers the integer slider range computed when the catalog loads (floor of the lowest price, ceiling of the highest, `[0, 200]` for an empty catalog) and the updaters behind the category, colour, price and "Clear Filters" controls. The pure logic is in module `CatalogFilter`. The component's state (products, displayed products, slider range, filters, loading flag) is the class `CatalogPage.CatalogPage`, whose handler methods replace that state the way the component's `set…` calls do.
- **Cart page** (`app/cart/page.tsx`), module `Cart`. The subtotal is a left fold of price × quantity, proved equal to a reference sum and additive over appending. Shipping is a flat 10 on a positive subtotal, and the total is subtotal plus shipping. The model also covers the empty-cart view, the calls the −, + and remove buttons and the checkout button make on the cart store, and the rule that the − button is disabled at quantity 1.
- **Upload route** (`app/api/upload/route.ts`), module `Upload`. It covers the ordered checks on the posted `file` entry: missing, then type whitelist, then the 5 MiB cap. It also covers the stored name, `uuid-name` with every JavaScript `\s` character replaced by `_`, and the `/uploads/…` URL.
- **Add-product form** (`app/add-product/page.tsx`), module `ProductForm`. It covers the schema's six field rules, the default values, the image field set by the uploader, and the rule that `createProduct` is reached only with valid values.
- The development catalog of `lib/products.ts` (`getMockProducts`) is module `MockCatalog`. It serves as a concrete fixture: its slider range is `[19, 55]`, and selecting "T-shirts" shows products 1 and 4.

Prices are exact `real`s. Floor is Dafny's `.Floor` and the ceiling is derived from it. The uuid, the outcome of reading the request and writing the file, and the catalog delivered by `getProducts` are parameters.

## Behaviour worth noting

- Clicking a category twice clears the selection unless no category, or that same category, was selected before. From "Jeans", clicking "Hoodies" twice leaves no category selected (`CatalogFilter.ToggleCategoryTwice`, `MockCatalog.CategoryToggleCounterexample`).
- `getProducts` catches database errors itself and returns an empty list (`lib/products.ts:5-13`). The page then sees an empty catalog: products and the shown list become empty, and the slider range and filters keep their values. Only an exception that escapes `getProducts` reaches the page's own `catch`. That case is only logged and leaves products, filters and slider range as they were (`CatalogPage.CatalogPage.FetchProducts` with `None`).
- An empty catalog leaves the slider range and the price filter as they were, which on first load is `[0, 200]`.

## Model

| member | source | states |
|---|---|---|
| `CatalogFilter.InitialFilters` | app/catalog/page.tsx:31-37 | initial filters: the query's category or "", no colours, prices 0 to 200 |
| `CatalogFilter.Filter` | app/catalog/page.tsx:88-101 | `.filter` keeps exactly the entries satisfying the predicate, with their multiplicities, as a subsequence in source order |
| `CatalogFilter.FilterKeepsAll` | app/catalog/page.tsx:101 | a filter every entry passes returns the sequence unchanged |
| `CatalogFilter.Stage` | app/catalog/page.tsx:91-98 | a conditional filter step is the identity when inactive and a filter when active |
| `CatalogFilter.ApplyFilters` | app/catalog/page.tsx:87-104 | soundness and completeness (a product is shown iff it is in the catalog and matches category, colour and inclusive price), each shown as often as in the catalog, in catalog order |
| `CatalogFilter.AllMatchKeepsCatalog` | app/catalog/page.tsx:87-101 | when every product matches, the shown list is the catalog itself |
| `CatalogFilter.ApplyFiltersIdempotent` | app/catalog/page.tsx:87-101 | filtering the shown list again with the same filters gives the same list |
| `CatalogFilter.SubsequenceTransitive` | app/catalog/page.tsx:88-101 | a subsequence of a subsequence is a subsequence, so chained filters preserve source order |
| `CatalogFilter.Floor` | app/catalog/page.tsx:54 | `Math.floor`: the greatest integer not above the value |
| `CatalogFilter.Ceil` | app/catalog/page.tsx:55 | `Math.ceil`: the least integer not below the value |
| `CatalogFilter.MinPrice` | app/catalog/page.tsx:53-54 | `Math.min` of the prices: below every price and equal to one of them |
| `CatalogFilter.MaxPrice` | app/catalog/page.tsx:53-55 | `Math.max` of the prices: above every price and equal to one of them |
| `CatalogFilter.PriceBounds` | app/catalog/page.tsx:52-61 | `[0,200]` for an empty catalog; otherwise every price lies in the range, and some price lies within 1 of each end |
| `CatalogFilter.ToggleCategory` | app/catalog/page.tsx:106-111 | at most the clicked category is selected afterwards, its checkbox flips, colours and prices are untouched |
| `CatalogFilter.ToggleCategoryTwice` | app/catalog/page.tsx:106-111 | toggling twice restores the filters iff the category was "" or the clicked one |
| `CatalogFilter.RemoveColor` | app/catalog/page.tsx:115 | removes every occurrence of the colour and nothing else, and keeps a duplicate-free list duplicate-free |
| `CatalogFilter.PrependKeepsNoDuplicates` | app/catalog/page.tsx:115 | putting a fresh colour in front keeps a list duplicate-free |
| `CatalogFilter.ToggleColor` | app/catalog/page.tsx:113-122 | the clicked colour's membership flips, every other colour's is unchanged, no duplicate appears, category and prices untouched |
| `CatalogFilter.RemoveAppended` | app/catalog/page.tsx:115 | removing a just-appended absent colour gives back the original list |
| `CatalogFilter.ToggleColorTwiceAbsent` | app/catalog/page.tsx:113-122 | toggling an unchosen colour twice restores the exact filters |
| `CatalogFilter.SetPriceRange` | app/catalog/page.tsx:124-130 | the slider's two values become the minimum and maximum price, whatever their order, and a product matches iff its price lies between them inclusive; category and colours untouched |
| `CatalogFilter.ClearFilters` | app/catalog/page.tsx:136-143 | after clearing, a product matches iff its price is within the slider range |
| `CatalogFilter.ClearFiltersShowsCatalog` | app/catalog/page.tsx:136-143 | with the range computed from the catalog, clearing shows the whole catalog in order |
| `CatalogPage.CatalogPage.constructor` | app/catalog/page.tsx:28-37 | no products, range `[0,200]`, initial filters, loading |
| `CatalogPage.CatalogPage.FetchProducts` | app/catalog/page.tsx:44-68 | on success products and shown list become the data and a non-empty catalog sets range and price filter to its bounds; on failure nothing but the loading flag changes |
| `CatalogPage.CatalogPage.SyncCategoryParam` | app/catalog/page.tsx:73-81 | a non-empty `category` parameter becomes the selected category; otherwise filters unchanged |
| `CatalogPage.CatalogPage.ApplyFilters` | app/catalog/page.tsx:83-104 | the shown list becomes the filtered catalog |
| `CatalogPage.CatalogPage.HandleCategoryChange` | app/catalog/page.tsx:106-111 | filters become the category toggle of the old filters |
| `CatalogPage.CatalogPage.HandleColorChange` | app/catalog/page.tsx:113-122 | filters become the colour toggle of the old filters |
| `CatalogPage.CatalogPage.HandlePriceChange` | app/catalog/page.tsx:124-130 | filters take the slider's two values as price bounds |
| `CatalogPage.CatalogPage.ClearFilters` | app/catalog/page.tsx:136-143 | filters reset to the slider range; when that range is the catalog's, the whole catalog is shown |
| `Cart.ReduceIsShiftedSum` | app/cart/page.tsx:41 | the left fold from any start value equals that value plus Σ price × quantity |
| `Cart.Subtotal` | app/cart/page.tsx:41 | subtotal equals Σ price × quantity, and 0 for an empty cart |
| `Cart.SumAppend` | app/cart/page.tsx:41 | the reference sum over `items + [x]` adds x's line total |
| `Cart.SubtotalAppend` | app/cart/page.tsx:41 | appending a line adds exactly its price × quantity to the subtotal |
| `Cart.Shipping` | app/cart/page.tsx:42 | 10 exactly when the subtotal is positive, otherwise 0 |
| `Cart.Total` | app/cart/page.tsx:43 | subtotal + 10 for a positive subtotal, the subtotal itself otherwise |
| `Cart.SumNonNegative` | app/cart/page.tsx:41 | non-negative prices and quantities give a non-negative sum |
| `Cart.TotalBounds` | app/cart/page.tsx:41-43 | with non-negative prices and quantities, subtotal ≥ 0, total ≥ subtotal, total = 0 iff subtotal = 0 |
| `Cart.ShippingIffNonEmpty` | app/cart/page.tsx:41-42 | with positive prices and quantities ≥ 1, shipping is charged exactly when the cart is non-empty |
| `Cart.OrderSummary` | app/cart/page.tsx:41-43 | summary subtotal is the sum, shipping follows the subtotal, total = subtotal + shipping |
| `Cart.Render` | app/cart/page.tsx:56-157 | the empty-cart view is shown iff there are no items; otherwise the items with exactly their order summary (subtotal, shipping and total) |
| `Cart.DecrementClick` | app/cart/page.tsx:77-86 | disabled iff quantity ≤ 1; otherwise asks for quantity − 1 ≥ 1 for the same id |
| `Cart.IncrementClick` | app/cart/page.tsx:88-96 | asks for quantity + 1 for the same id only |
| `Cart.RemoveClick` | app/cart/page.tsx:28-34 | asks the store to remove this item's id |
| `Cart.HandleCheckout` | app/cart/page.tsx:36-39 | clears the cart, then navigates to the success page |
| `Cart.AfterCall` | app/cart/page.tsx:37 | after `clearCart` the page sees an empty item list |
| `Cart.CheckoutZeroesSummary` | app/cart/page.tsx:36-43 | after checkout's clear, subtotal, shipping and total are 0 and the empty view is shown |
| `Upload.CheckEntry` | app/api/upload/route.ts:11-27 | accepts iff a file with whitelisted type and size ≤ 5 MiB; missing, then type, then size decides the error |
| `Upload.Sanitize` | app/api/upload/route.ts:33 | same length; whitespace becomes `_`, everything else unchanged; no whitespace remains |
| `Upload.SanitizeIdempotent` | app/api/upload/route.ts:33 | sanitizing twice equals sanitizing once |
| `Upload.StoredName` | app/api/upload/route.ts:33 | the uuid, a dash, then the sanitized name |
| `Upload.ImageUrl` | app/api/upload/route.ts:48 | `/uploads/` followed by the stored name |
| `Upload.Post` | app/api/upload/route.ts:6-55 | success iff form parsed, file acceptable and stored, with the URL of the stored name; 400 with the first failing check's message; 500 with "Failed to upload file" for a malformed body or failed write |
| `Upload.MissingFileFirst` | app/api/upload/route.ts:11-13 | an absent file is a 400 "No file uploaded" |
| `Upload.TypeCheckedBeforeSize` | app/api/upload/route.ts:16-27 | a wrong type is reported even for an oversized file |
| `Upload.SizeBoundary` | app/api/upload/route.ts:25-27 | 5242880 bytes pass, 5242881 bytes are refused |
| `Upload.ConcatNoWhitespace` | app/api/upload/route.ts:33 | joining whitespace-free strings gives a whitespace-free string |
| `Upload.UrlHasNoWhitespace` | app/api/upload/route.ts:33-48 | for a whitespace-free uuid, the returned URL contains no whitespace |
| `ProductForm.MessageIdentifiesError` | app/add-product/page.tsx:19-24 | two errors show the same message iff they are the same error, so each message names one rule |
| `ProductForm.SchemaOrder` | app/add-product/page.tsx:18-25 | the six fields in schema order (name, description, price, category, colour, image), each with one error it can report; the price field's error is "not a number" exactly when no number was given |
| `ProductForm.Failing` | app/add-product/page.tsx:18-25 | keeps exactly the listed errors whose rules fail, without introducing repeats or changing their field order |
| `ProductForm.Errors` | app/add-product/page.tsx:18-25 | an error is reported iff its rule fails (name ≥ 2, description ≥ 10, price a number > 0, category, colour, image non-empty); no error appears twice; errors come in the schema's field order; no errors iff valid |
| `ProductForm.DefaultValues` | app/add-product/page.tsx:34-41 | the defaults are invalid, failing all six fields |
| `ProductForm.HandleImageUploaded` | app/add-product/page.tsx:64-66 | image becomes the URL and nothing else changes; an empty URL makes the form invalid |
| `ProductForm.HandleSubmit` | app/add-product/page.tsx:44-76 | `createProduct` is reached iff the values are valid, with those values; otherwise the errors are reported |
| `MockCatalog.MockProducts` | lib/products.ts:59-116 | the six development products |
| `MockCatalog.MockPrices` | lib/products.ts:59-116 | every mock price lies in [19.99, 54.99], both ends attained |
| `MockCatalog.MockBounds` | lib/products.ts:59-116 | the mock catalog's slider range is `[19, 55]` |
| `CatalogFilter.FilterCons` | app/catalog/page.tsx:92 | one step of `.filter`: the head is kept iff it passes, the tail is filtered |
| `MockCatalog.MockTShirtStageTail` | lib/products.ts:88-115 | the category stage over the last three mock products keeps only the white T-shirt |
| `MockCatalog.MockTShirtStageMiddle` | lib/products.ts:70-115 | the category stage over the last five mock products keeps only the white T-shirt |
| `MockCatalog.MockTShirtStage` | lib/products.ts:59-116 | the category stage over the whole mock catalog keeps products 1 and 4 |
| `MockCatalog.MockTShirts` | lib/products.ts:59-116 | "T-shirts" over `[19, 55]` shows products 1 and 4, in that order |
| `MockCatalog.CategoryToggleCounterexample` | app/catalog/page.tsx:106-111 | from "Jeans", clicking "Hoodies" twice leaves no category |

## Left out

- The cart store (`lib/cart-context`) is not part of this model. `addToCart` merging by id, `updateQuantity` with a quantity of 0 or less, `removeFromCart` and the local-storage persistence are not modelled. The page's calls to the store are values (`Cart.StoreCall`). Only `clearCart`'s effect, an empty list, is used.
- Cart.AfterCall: gives no result for `updateQuantity` and `removeFromCart`, because their effect lives in the store.
- React effect scheduling is not modelled. The effect that re-runs `applyFilters` is the explicit method `CatalogPage.CatalogPage.ApplyFilters`. The async fetch is `FetchProducts` applied to its outcome.
- The "Sort by" select is wired to no logic, so there is no sorting to model.
- Rendering, styling, images, toasts, router navigation beyond the checkout step, the `mounted` and `isLoggedIn` render gates, and the loading skeleton are left out as presentation.
- The slider keeps its values between the range's ends and moves in steps. That is widget behaviour: `SetPriceRange` accepts any two values.
- Prices are exact reals. Floating-point rounding and `toFixed(2)` display are left out.
- `Math.min(...prices)` fails on argument lists beyond the engine's limit. That limit is not modelled.
- Upload: `uuidv4()` is a parameter. Reading the form body, reading the file's bytes and writing the file are outcomes given as parameters. The swallowed failure of the `.gitkeep` write has no effect on the response and is left out.
- Upload.Sanitize: works on Unicode scalar values, while JavaScript strings are UTF-16 code units. Every character `\s` matches is in the Basic Multilingual Plane, so the replacement is the same. Only lengths differ, for names with characters outside that plane.
- ProductForm.Errors: string lengths are counted in Unicode scalar values, not in the UTF-16 code units zod counts. Zod's coercion of the price text to a number is left out: the price is already a number, or None for NaN. The NaN message is zod's default wording.
- `lib/products.ts` (database access), `lib/auth.ts`, `prisma/seed.ts`, the login page and hook, the image-upload component, header, footer, theme provider, home page, product page and checkout success page are outside this core. The mock catalog is used only as a fixture.
