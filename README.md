# HengamGallery storefront core, in Dafny

HengamGallery is a Persian-language jewellery storefront written in React and TypeScript.
This project models the parts of it that hold behaviour and proves what that behaviour guarantees:

- **The stores.** The cart reducer with its totals, the favorites list, and the sign-in state.
- **The catalogue.** Search, category, material and price filtering, the four sort orders,
  paging by 12, the page selector, the filter panel, related products and the product lookup.
- **Price rules.** The rounded discount percentage and its label, and free shipping above
  50,000,000 rials.
- **Forms.** The checks and submit handlers of the sign-up, sign-in, password-reset, profile,
  password-change, contact, checkout, address-book and support-ticket forms.
- **Widgets.** The search box with suggestions, the image gallery, the product carousel and
  the questions accordion.

Each source file has one module, in the form the code takes.

- Pure code becomes functions and lemmas. This covers the reducer, the mock data, the
  price helpers and the cart widgets.
- Components whose handlers update state become classes. Their fields are the component's
  state, and each handler is a method with a `modifies` clause.
- Each `validateForm` that fills an error record check by check becomes a method. Its
  `ensures` ties the record it builds to a function that states the rules, and lemmas
  about that function give the rules in both directions.

Six modules hold what the rest share:

- `Wrappers`: an Option type.
- `Seqs`: `filter`, `slice` and subsequences.
- `Text`: JavaScript white space, `trim`, `includes`, ASCII `toLowerCase`, integer rendering
  and `parseInt`.
- `Patterns`: the three regular expressions, stated as what a match means.
- `Forms`: form and error records, and the shared input handler.
- `Cyclic`: stepping around a list with JavaScript's `%`.

Three behaviours of the code worth knowing:

- `UPDATE_QUANTITY` sets the quantity on every line of the product id, whatever its variations.
- The address book tests `editingId` for truthiness, so an address whose id is 0 is appended
  again rather than edited.
- `handleSelect` in the search box changes the query. The suggestion effect then runs again
  and may reopen the dropdown it has just closed.

## Model

| member | source | states |
|---|---|---|
| Cart.AddToMatching | src/context/CartContext.tsx:36-41 | the map keeps the number of lines; a line with the product id and variation signature gains `q` units and every other line is unchanged |
| Cart.SetQuantity | src/context/CartContext.tsx:89-91 | the map keeps the number of lines; every line of the product id, whatever its variations, gets quantity `q`; other lines are unchanged |
| Cart.WithTotals | src/context/CartContext.tsx:42-50 | the returned state holds exactly the given lines, and its `totalItems`/`totalPrice` are the folds of those lines |
| Cart.Reduce | src/context/CartContext.tsx:25-110 | every state the reducer returns has totals equal to the folds of its lines (`Consistent`) |
| Cart.TotalsAppend | src/context/CartContext.tsx:58-67 | both folds of a concatenation are the sums of the folds of the parts |
| Cart.TotalsUpdateAt | src/context/CartContext.tsx:36-49 | replacing one line changes the item count and the price by exactly that line's difference |
| Cart.TotalsSplit | src/context/CartContext.tsx:72-79 | the totals of a cart are those of the lines REMOVE_ITEM keeps plus those of the product's lines |
| Cart.ItemsSetQuantity | src/context/CartContext.tsx:89-95 | after UPDATE_QUANTITY's map the item count is that of the other products' lines plus `q` per line of the product |
| Cart.PriceSetQuantity | src/context/CartContext.tsx:89-96 | after UPDATE_QUANTITY's map the price is that of the other lines plus `q` times the unit prices of the product's lines |
| Cart.AddExisting | src/context/CartContext.tsx:27-50 | when `find` succeeds, ADD_ITEM keeps the number of lines, adds the quantity (1 if omitted) to each matching line and leaves every other line unchanged |
| Cart.OnlyMatch | src/context/CartContext.tsx:29-38 | in a cart without repeated (id, signature) keys, the line `find` returns is the only one the map changes |
| Cart.AddExistingTotals | src/context/CartContext.tsx:35-50 | when one line matches, ADD_ITEM of `d` units raises that line by `d`, `totalItems` by `d` and `totalPrice` by `price * d` |
| Cart.AddToOnlyMatch | src/context/CartContext.tsx:36-41 | when line `k` is the only match, the map is an update of line `k` alone |
| Cart.AddAtTotals | src/context/CartContext.tsx:45-49 | raising one line by `d` units raises the item count by `d` and the price by `d` units of that product |
| Cart.AddNew | src/context/CartContext.tsx:51-67 | when `find` fails, ADD_ITEM appends exactly one line (fresh id, product, quantity or 1, signature) and the totals grow by it |
| Cart.AddDefaultsToOne | src/context/CartContext.tsx:28 | an omitted quantity behaves exactly as a quantity of 1 |
| Cart.RemoveDropsProduct | src/context/CartContext.tsx:71-81 | REMOVE_ITEM leaves no line of the product, keeps the other lines in order with their multiplicities, and subtracts the product's lines from both totals |
| Cart.RemoveAbsent | src/context/CartContext.tsx:71-81 | REMOVE_ITEM of a product with no line returns the same state |
| Cart.UpdateNonPositiveRemoves | src/context/CartContext.tsx:84-87 | UPDATE_QUANTITY with a quantity of 0 or less equals REMOVE_ITEM of the product |
| Cart.UpdatePositive | src/context/CartContext.tsx:83-98 | UPDATE_QUANTITY with a positive quantity keeps every line's id, product and variations, sets the quantity on every line of the product and no other, and gives the matching totals |
| Cart.ClearEmpties | src/context/CartContext.tsx:100-105 | CLEAR_CART gives the empty cart with both totals zero, which are the folds of no lines |
| Cart.WithoutKeepsUnique | src/context/CartContext.tsx:72-74 | the filter of REMOVE_ITEM keeps (id, signature) keys unique |
| Cart.AddedKeepsUnique | src/context/CartContext.tsx:27-68 | ADD_ITEM keeps keys unique: it adds to the line with the key or appends a line whose key was absent |
| Cart.SetQuantityKeepsUnique | src/context/CartContext.tsx:89-91 | UPDATE_QUANTITY's map changes no key, so keys stay unique |
| Cart.ReducePreservesUniqueKeys | src/context/CartContext.tsx:25-110 | no action creates two lines with the same product id and variation signature |
| Cart.WithoutKeepsPositive | src/context/CartContext.tsx:72-74 | the filter keeps every remaining line at one unit or more |
| Cart.AddedKeepsPositive | src/context/CartContext.tsx:27-68 | ADD_ITEM of at least one unit keeps every line at one unit or more |
| Cart.ReducePreservesPositive | src/context/CartContext.tsx:25-110 | every line keeps at least one unit under every action, provided ADD_ITEM's quantity is at least 1 |
| Cart.AddToMatchingTwice | src/context/CartContext.tsx:36-41 | two rounds of the ADD_ITEM map equal one round with the sum |
| Cart.AddedTwice | src/context/CartContext.tsx:27-68 | the lines of two ADD_ITEMs of the same product and signature are those of one ADD_ITEM of the sum |
| Cart.AddTwiceIsSum | src/context/CartContext.tsx:25-69 | reducing ADD_ITEM `q1` then ADD_ITEM `q2` gives the lines of ADD_ITEM `q1 + q2` |
| Cart.ReduceAdd | src/context/CartContext.tsx:27-68 | ADD_ITEM leaves the lines of `Added`, with the omitted quantity read as 1 |
| Cart.ReduceRemove | src/context/CartContext.tsx:71-81 | REMOVE_ITEM leaves the lines of the other products, in order |
| Cart.ReduceUpdate | src/context/CartContext.tsx:83-98 | UPDATE_QUANTITY leaves the filtered lines for a quantity of 0 or less, and otherwise the mapped lines |
| Cart.ZeroOnlyProduct | src/context/CartContext.tsx:83-87 | setting the only product's quantity to 0 gives the empty cart |
| Cart.AddThenZeroScenario | src/context/CartContext.tsx:25-110 | from an empty cart: 2 units then 1 more give one line of 3 units with totals 2 and `2 * price` after the first step, and quantity 0 then empties the cart |
| CartItemView.QuantityChangeIsUpdate | src/components/cart/CartItem.tsx:15-21 | `handleQuantityChange` dispatches REMOVE_ITEM for 0 or less and UPDATE_QUANTITY otherwise; both branches have the effect of UPDATE_QUANTITY |
| CartItemView.DecreaseAtOneRemovesProduct | src/components/cart/CartItem.tsx:15-21 | minus on a line of one unit removes every line of that product and keeps all other lines in order with their multiplicities |
| CartItemView.DecreaseAboveOne | src/components/cart/CartItem.tsx:15-21 | minus on a line of more than one unit sets every line of the product to one unit less than this line |
| CartItemView.IncreaseSetsProduct | src/components/cart/CartItem.tsx:15-21 | plus sets every line of the product, whatever its variations, to one more than this line; other lines are unchanged |
| CartItemView.RemoveDropsAllVariants | src/components/cart/CartItem.tsx:23-25 | the trash button leaves no line of the product and takes its units out of the item count |
| CartSummary.ShippingCost | src/components/cart/CartSummary.tsx:20 | shipping is free exactly when the total exceeds 50,000,000, and is otherwise the 5,000,000 fee |
| CartSummary.FinalTotal | src/components/cart/CartSummary.tsx:21 | the final total lies between the total and the total plus the fee, and equals the total exactly above the threshold |
| CartSummary.HintUpToThreshold | src/components/cart/CartSummary.tsx:51-54 | the free-shipping hint shows exactly for totals up to and including 50,000,000 |
| CartSummary.ItemCountIsTotalItems | src/components/cart/CartSummary.tsx:31 | for every reducer output, the count shown equals the state's `totalItems` |
| CartSummary.FinalTotalDropsAtThreshold | src/components/cart/CartSummary.tsx:20-21 | the final total is not monotone: one unit over the threshold costs less than the threshold itself |
| Pricing.RoundDiv | src/utils/formatPrice.ts:11 | `Math.round` of `n / d`: the result is within one half of the quotient, halves rounded up |
| Pricing.CalculateDiscount | src/utils/formatPrice.ts:10-12 | the result is the integer nearest to `100 * (o - c) / o` (halves up), for either sign of `o` |
| Pricing.RoundUnique | src/utils/formatPrice.ts:11 | the rounding bounds determine the result: at most one integer satisfies them |
| Pricing.DiscountEnds | src/utils/formatPrice.ts:10-12 | full price gives a 0% discount and a price of 0 gives 100% |
| Pricing.RoundDivMonotone | src/utils/formatPrice.ts:11 | the rounded quotient is monotone in its numerator |
| Pricing.DiscountMonotone | src/utils/formatPrice.ts:10-12 | for a fixed original price, a higher current price never gives a larger discount |
| Pricing.DiscountRange | src/utils/formatPrice.ts:10-12 | a current price between 0 and the original price gives a percentage between 0 and 100 |
| Pricing.FormatDiscount | src/utils/formatPrice.ts:14-16 | the label ends in "% تخفیف" after a non-empty number |
| Pricing.FormatDiscountReadsBack | src/utils/formatPrice.ts:14-16 | `parseInt` of the label gives the discount back, for every integer |
| Favorites.AddSpec | src/context/FavoritesContext.tsx:44-53 | adding is idempotent; it returns the list unchanged when the id is present and appends the product otherwise; afterwards the ids are the old ones plus the new one |
| Favorites.AddKeepsUnique | src/context/FavoritesContext.tsx:44-53 | adding keeps the ids pairwise distinct |
| Favorites.RemoveSpec | src/context/FavoritesContext.tsx:60-65 | removing keeps the other products in order, leaves exactly the ids other than `id`, and changes nothing when `id` is absent |
| Favorites.RemoveKeepsUnique | src/context/FavoritesContext.tsx:60-65 | removing keeps the ids pairwise distinct |
| Favorites.ToggleTwice | src/context/FavoritesContext.tsx:74-80 | toggling twice restores the set of ids, and the exact list when the product was absent |
| Favorites.FavoritesStore.constructor | src/context/FavoritesContext.tsx:22-25 | the store starts with no favorites and not loading |
| Favorites.FavoritesStore.AddToFavorites | src/context/FavoritesContext.tsx:44-58 | the list becomes `WithFavorite` of the old list; the product is a favorite afterwards and ids stay distinct |
| Favorites.FavoritesStore.RemoveFromFavorites | src/context/FavoritesContext.tsx:60-72 | the list becomes `WithoutFavorite`; the id is no longer a favorite and ids stay distinct |
| Favorites.FavoritesStore.ToggleFavorite | src/context/FavoritesContext.tsx:74-80 | the list becomes `Toggled`; the product is a favorite afterwards exactly when it was not before |
| Favorites.FavoritesStore.ClearFavorites | src/context/FavoritesContext.tsx:86-88 | the list becomes empty and the count is 0 |
| Products.FindCategory | src/pages/Products.tsx:54 | `find` by slug returns a category with that slug, and returns none only when no category has it |
| Products.SortedCons | src/pages/Products.tsx:115-130 | a sorted list stays sorted under a first element whose key is not larger |
| Products.InsertSpec | src/pages/Products.tsx:115-130 | inserting into a sorted list keeps it sorted and adds exactly that product |
| Products.SortBySpec | src/pages/Products.tsx:115-130 | the sort orders by the comparator's key and is a permutation of its input |
| Products.InsertStable | src/pages/Products.tsx:115-130 | insertion puts the product before every product of equal key |
| Products.SortStable | src/pages/Products.tsx:115-130 | the sort is stable: the products of each key keep their relative order |
| Products.UnsortedKeepsOrder | src/pages/Products.tsx:115-116 | a `sortBy` that matches no case leaves the order unchanged |
| Products.StepAt | src/pages/Products.tsx:70-113 | for one product, passing the first `stage` steps is passing the earlier ones and this step's test, when the step is switched on |
| Products.Step | src/pages/Products.tsx:70-113 | each filter step narrows the previous list to the products that also pass its test, or leaves the list when switched off |
| Products.AllStepsAt | src/pages/Products.tsx:70-113 | passing all five steps is exactly being kept by the pipeline |
| Products.AllSteps | src/pages/Products.tsx:70-113 | filtering by the five steps keeps what the pipeline keeps |
| Products.SearchStep | src/pages/Products.tsx:73-82 | a non-blank query keeps the products whose lower-cased names, tags or description contain it; a blank query keeps all |
| Products.CategoryStep | src/pages/Products.tsx:86-93 | a known category slug keeps the products with a tag containing the category name; an unknown or empty slug keeps all |
| Products.MaterialStep | src/pages/Products.tsx:95-99 | a non-empty material keeps the products whose lower-cased material contains it |
| Products.MinPriceStep | src/pages/Products.tsx:101-106 | a minimum that `parseInt` reads keeps the products priced at least that; an unreadable one keeps all |
| Products.MaxPriceStep | src/pages/Products.tsx:108-113 | a maximum that `parseInt` reads keeps the products priced at most that; an unreadable one keeps all |
| Products.NoRecordSteps | src/pages/Products.tsx:85 | without a filter record only the search step applies |
| Products.ApplySearchAndFilters | src/pages/Products.tsx:70-135 | the step-by-step pipeline leaves exactly `Expected`: the filtered products, sorted by `sortBy` |
| Products.ExpectedContents | src/pages/Products.tsx:70-135 | the result holds exactly the products that pass every step, each as often as in the input; without a sort it is a subsequence of the input |
| Products.ExpectedOrder | src/pages/Products.tsx:115-130 | "price-asc" gives non-decreasing prices, "price-desc" non-increasing prices, "rating" non-increasing ratings, "newest" non-increasing ids |
| Products.PriceRange | src/pages/Products.tsx:101-113 | with both bounds readable, every product kept lies in the inclusive price range |
| Products.NeutralSteps | src/pages/Products.tsx:73-93 | an unknown category slug filters nothing, and a blank query without a record keeps the whole list |
| Products.TotalPages | src/pages/Products.tsx:146 | `Math.ceil(n / 12)`: the least page count whose pages hold `n` products |
| Products.PrefixThenPage | src/pages/Products.tsx:147-149 | the first `start` products followed by the slice from `start` are the first `start + 12` products |
| Products.PagesArePrefix | src/pages/Products.tsx:147-149 | pages 1 to `count` together are the first `12 * count` products |
| Products.PagesCover | src/pages/Products.tsx:146-149 | all the pages together give the filtered list back, nothing repeated or lost |
| Products.PageContents | src/pages/Products.tsx:147-149 | page `p` holds at most 12 products, those from index `(p - 1) * 12`; it is empty exactly past the last page |
| Products.ProductsPage.constructor | src/pages/Products.tsx:21-27 | the page starts loading, on page 1, with no products and an empty query |
| Products.ProductsPage.Loaded | src/pages/Products.tsx:29-43 | the loaded data becomes both the product list and the shown list, and loading ends |
| Products.ProductsPage.Apply | src/pages/Products.tsx:70-135 | the shown list becomes `Expected` of the products and the page returns to 1; nothing else changes |
| Products.ProductsPage.HandleFiltersChange | src/pages/Products.tsx:137-139 | the pipeline runs with the current search query and the new filters, and the page returns to 1; the product list, the query and the loading flag are unchanged |
| Products.ProductsPage.SearchParamsChanged | src/pages/Products.tsx:45-68 | a non-empty `search` becomes the query; a known category runs the pipeline with that category alone; without a category a search runs the search step; an unknown category changes nothing shown; the product list and the loading flag are unchanged |
| Products.ProductsPage.HandlePageChange | src/pages/Products.tsx:141-144 | the current page becomes `page`; the shown list, the product list, the query and the loading flag are unchanged |
| Pagination.Run | src/components/common/Pagination.tsx:23-29 | the window loop's pages `first..last`, in order, one entry each, and none when `first > last` |
| Pagination.VisiblePages | src/components/common/Pagination.tsx:18-46 | the loop and pushes of `getVisiblePages` return exactly `Layout`: page 1, an optional "...", the window, an optional "..." and the last page |
| Pagination.CountsAppend | src/components/common/Pagination.tsx:37 | the page and marker counts of a concatenation add up |
| Pagination.CountsRun | src/components/common/Pagination.tsx:23-29 | the window holds page numbers only |
| Pagination.LayoutEnds | src/components/common/Pagination.tsx:18-46 | for a current page in `1..totalPages`, the entries start with page 1, end with the last page and include the current page |
| Pagination.LayoutIncreasing | src/components/common/Pagination.tsx:18-46 | the page numbers shown increase strictly from left to right |
| Pagination.LayoutConsecutive | src/components/common/Pagination.tsx:18-46 | two page numbers side by side are consecutive pages |
| Pagination.LayoutDots | src/components/common/Pagination.tsx:31-43 | every "..." sits between two page numbers that differ by at least 2, so it hides at least one page and no shown page |
| Pagination.LayoutCounts | src/components/common/Pagination.tsx:18-46 | at most 7 page numbers and at most 2 markers are shown |
| Pagination.ButtonsStayInRange | src/components/common/Pagination.tsx:50-101 | an enabled previous or next button asks for a page within `1..totalPages`, and one of them is enabled exactly when the selector is rendered |
| Catalog.FindById | src/utils/mockData.ts:307-308 | `find` by id returns nothing exactly when no product has the id, and otherwise a product of the list with that id |
| Catalog.FilterKeepsUnique | src/context/FavoritesContext.tsx:64 | the `filter` that removes a favorite, like every filter of a list without repeated ids, leaves no repeated ids |
| Catalog.FindByIdUnique | src/utils/mockData.ts:307-308 | in a list without repeated ids, `find` of a product's id returns that product |
| Catalog.GetProduct | src/utils/mockData.ts:304-311 | `getProduct(id)` resolves to a seed product with that id, or to null exactly when no seed product has it |
| Catalog.SeedIds | src/utils/mockData.ts:44-185 | the six seed products carry ids 1 to 6, in order, so no id repeats |
| Catalog.GetProductSeed | src/utils/mockData.ts:304-311 | `getProduct` finds the seed product for ids 1 to 6 and nothing for any other id |
| Catalog.SeedDiscounts | src/utils/mockData.ts:44-185 | every seed product with an original price costs less than that price |
| Catalog.SeedStockAndImages | src/utils/mockData.ts:44-185 | every seed product is in stock and has at least one image |
| Catalog.SeedOrderTotals | src/utils/mockData.ts:259-294 | each order of the seed user totals the prices of its items |
| Catalog.SeedSlugs | src/utils/mockData.ts:226-233 | the category slugs are pairwise distinct |
| ProductFilters.WithChangesOnlyKey | src/components/product/ProductFilters.tsx:56-57 | the spread sets the chosen field to the value and leaves the other four fields |
| ProductFilters.WithOverwrites | src/components/product/ProductFilters.tsx:56-57 | setting a field to its own value changes nothing, and the later of two settings of a field wins |
| ProductFilters.FilterPanel.constructor | src/components/product/ProductFilters.tsx:21-29 | the panel starts with every field empty, collapsed |
| ProductFilters.FilterPanel.HandleFilterChange | src/components/product/ProductFilters.tsx:56-60 | the record gets the field set, no other field changes, and the listener receives the new record |
| ProductFilters.FilterPanel.HandleClearFilters | src/components/product/ProductFilters.tsx:62-72 | every field becomes "" and the listener receives the cleared record |
| ProductFilters.FilterPanel.ToggleExpanded | src/components/product/ProductFilters.tsx:88 | the panel flips between expanded and collapsed; the filters stay |
| ProductDetail.RelatedIsPrefix | src/pages/ProductDetail.tsx:44 | at most 8 related products are shown: the first `min(8, n)` of the combined list, in order |
| ProductDetail.RelatedExcludesViewed | src/pages/ProductDetail.tsx:33-44 | the viewed product is never among the related ones, and every related product comes from the catalogue |
| ProductDetail.RelatedSharedFirst | src/pages/ProductDetail.tsx:33-35 | the first stage holds exactly the other products with a tag in common, in catalogue order, and it leads the related list |
| ProductDetail.RelatedFill | src/pages/ProductDetail.tsx:37-44 | with 4 or more sharing products only those are shown; with fewer, every other product whose id is not already chosen follows, in catalogue order |
| ProductDetail.RelatedUnique | src/pages/ProductDetail.tsx:33-44 | in a catalogue without repeated ids, no product appears twice among the related ones |
| ProductDetail.Keys | src/pages/ProductDetail.tsx:18 | the keys of a selection, one per entry, in insertion order |
| ProductDetail.WithKeySpec | src/pages/ProductDetail.tsx:56-58 | the spread stores the value under the key and changes no other key; a new key goes last and an existing one keeps its place |
| ProductDetail.WithKeyKeepsUnique | src/pages/ProductDetail.tsx:56-58 | setting a key keeps the keys distinct |
| ProductDetail.DiscountShown | src/pages/ProductDetail.tsx:91-93 | no original price shows no discount; a price between 0 and a positive original price shows 0 to 100; an unchanged price shows 0 |
| ProductDetail.RequestedById | src/pages/ProductDetail.tsx:30 | an address holding a product id in decimal names the product `getProduct` returns for that id |
| ProductDetail.RelatedList | src/pages/ProductDetail.tsx:33-44 | the effect's filter, conditional fill and slice produce exactly `Related` |
| ProductDetail.ProductPage.constructor | src/pages/ProductDetail.tsx:17-21 | the page starts loading, with no product, no selection and no related products |
| ProductDetail.ProductPage.Load | src/pages/ProductDetail.tsx:25-54 | a missing id returns at once and leaves the page loading; otherwise loading ends, and an id that names a product shows it with its related list |
| ProductDetail.ProductPage.HandleVariationChange | src/pages/ProductDetail.tsx:56-58 | the selection gets the key set to the value and no other key changes |
| ProductDetail.ProductPage.HandleAddToCart | src/pages/ProductDetail.tsx:60-64 | with no product nothing is dispatched; otherwise ADD_ITEM of the product, quantity 1 and the current selection |
| ProductDetail.AddToCartAddsOne | src/pages/ProductDetail.tsx:60-64 | the button raises `totalItems` by one and `totalPrice` by the product's price, whether it adds to an existing line or appends one |
| Auth.OverlaySpec | src/context/AuthContext.tsx:109 | the spread `{ ...user, ...userData }`: each key the patch gives takes the given value and every other key keeps the user's; the empty patch changes nothing; two updates equal one with the merged patch |
| Auth.AuthStore.constructor | src/context/AuthContext.tsx:27-31 | nobody is signed in and nothing is loading |
| Auth.AuthStore.Restore | src/context/AuthContext.tsx:125-139 | a saved user is signed in; without one the state is unchanged |
| Auth.AuthStore.Login | src/context/AuthContext.tsx:33-63 | login succeeds exactly for the demo credentials and then signs in the demo user; a failure leaves who is signed in unchanged; loading ends either way |
| Auth.AuthStore.Register | src/context/AuthContext.tsx:65-90 | register always succeeds and signs in a new user with the given name, email and phone and a fresh id |
| Auth.AuthStore.Logout | src/context/AuthContext.tsx:92-99 | nobody is signed in and nothing is loading |
| Auth.AuthStore.UpdateProfile | src/context/AuthContext.tsx:101-123 | fails and changes nothing exactly when nobody is signed in; otherwise the user becomes the overlay of the patch |
| Auth.DemoSessionRename | src/context/AuthContext.tsx:33-123 | a demo login followed by a name update leaves the demo user with the new name, signed in |
| Text.Utf16LengthBounds | src/pages/Auth/Register.tsx:47 | `.length` counts UTF-16 code units: between the number of characters and twice it, and equal to it exactly when every character is in the Basic Multilingual Plane |
| Text.TrimStartSpec | src/components/common/SearchAutocomplete.tsx:28 | `trimStart()` leaves a suffix that does not start with white space, and everything it drops is white space |
| Text.TrimEndSpec | src/components/common/SearchAutocomplete.tsx:28 | `trimEnd()` leaves a prefix that does not end with white space, and everything it drops is white space |
| Text.TrimBlank | src/pages/Auth/Register.tsx:29 | `s.trim()` is empty, so `!s.trim()` holds, exactly when `s` is white space only |
| Text.NatToDecimal | src/utils/formatPrice.ts:15 | `${n}` for `n >= 0` is a non-empty run of decimal digits with no leading zero |
| Text.DigitValue | src/pages/Products.tsx:102 | the digit values `parseInt` reads: below the radix, and in base 10 exactly the ASCII digits with their usual values |
| Text.DigitRun | src/pages/Products.tsx:102 | `parseInt` reads the longest leading run of digits: all digits, ended by a non-digit or the end |
| Text.DecimalValue | src/utils/formatPrice.ts:15 | the digits `${n}` writes denote `n` |
| Text.ParseRendered | src/pages/Products.tsx:102 | `parseInt` of the rendering of any integer, followed by text that does not continue the number, gives the integer back |
| Patterns.StrictIsLoose | src/pages/Auth/ForgotPassword.tsx:12-15 | every address the anchored pattern of the reset form accepts is accepted by the unanchored pattern of the other forms |
| Patterns.StrictShape | src/pages/Auth/ForgotPassword.tsx:12-15 | an address the anchored pattern accepts has exactly one '@' and no white space |
| Patterns.StrictIsStricter | src/pages/Auth/ForgotPassword.tsx:12-15 | the two patterns differ: "a@b@c.d" passes the unanchored one and fails the anchored one |
| Patterns.MobileIsNotEmail | src/pages/Auth/Register.tsx:39-43 | a string that matches `^09\d{9}$` passes neither e-mail pattern |
| Forms.ClearedErrorSpec | src/pages/Auth/Register.tsx:21-23 | after an edit the edited field shows no message; the keys and every other message are unchanged |
| Forms.Missing | src/pages/Checkout.tsx:50-55 | `if (!value)` refuses exactly the empty value, with the given message |
| Forms.BlankRule | src/components/user/Addresses.tsx:58-61 | `if (!value.trim())` refuses exactly the values that are white space only, with the given message |
| Forms.Spread | src/components/user/PersonalInfo.tsx:96 | `{ ...a, ...b }` has the keys of both, with `b`'s message where both have one |
| Forms.NameRule | src/pages/Auth/Register.tsx:29-31 | the name is refused exactly when it is blank once trimmed |
| Forms.EmailRule | src/pages/Auth/Register.tsx:33-37 | the e-mail passes exactly when it matches `\S+@\S+\.\S+`; an empty one gets the "required" message |
| Forms.PhoneRule | src/pages/Auth/Register.tsx:39-43 | the phone passes exactly when it matches `^09\d{9}$`; an empty one gets the "required" message |
| Forms.PasswordRule | src/pages/Auth/Register.tsx:45-49 | the password passes exactly when its `.length` is at least 6 UTF-16 code units; an empty one gets the "required" message |
| Forms.SurrogatePairsCountTwice | src/pages/Auth/Register.tsx:45-49 | three gem characters (six code units) make a long enough password, while five letters do not |
| Cyclic.RemBelowTwice | src/components/product/ImageGallery.tsx:33 | JavaScript's `%` of a non-negative number below `2n` is the number itself or the number minus `n` |
| Cyclic.StepsCycle | src/components/product/ImageGallery.tsx:32-40 | from -1 or an index in range, both steps land in range; they undo each other; they wrap at both ends; forward from -1 gives 0 |
| Cyclic.BackwardFromNothing | src/components/common/SearchAutocomplete.tsx:78 | a backward step from -1 (nothing chosen) lands on the next-to-last entry, not the last |
| RegisterPage.Errors | src/pages/Auth/Register.tsx:26-56 | a field has a message exactly when its check fails: blank name, e-mail not matching, phone not a mobile number, password under 6 characters, confirmation empty or different |
| RegisterPage.ValidIffAllPass | src/pages/Auth/Register.tsx:26-59 | the form is valid exactly when every one of the five checks passes |
| RegisterPage.PasswordStoredAsPhone | src/pages/Auth/Register.tsx:67-72 | a form that passes every check can have a password that is not the phone and not a mobile number |
| RegisterPage.Page.constructor | src/pages/Auth/Register.tsx:8-15 | every field starts empty and there are no messages |
| RegisterPage.Page.HandleInputChange | src/pages/Auth/Register.tsx:18-24 | the field takes the value, and its message is blanked when one is shown |
| RegisterPage.Page.ValidateForm | src/pages/Auth/Register.tsx:26-59 | the step-by-step checks leave exactly `Errors` of the data as the messages, and return true exactly when there are none |
| RegisterPage.Page.HandleSubmit | src/pages/Auth/Register.tsx:61-81 | an invalid form only shows its messages; a valid one keeps no messages, signs in a new user whose phone is the password, as written, leaves the store consistent, and moves to "/" |
| RegisterPage.Page.HandleSubmitCorrected | src/pages/Auth/Register.tsx:61-81 | with the arguments in declared order, a valid form signs in a user whose phone is the checked mobile number |
| LoginPage.Errors | src/pages/Auth/Login.tsx:23-37 | the e-mail has a message exactly when it fails `\S+@\S+\.\S+` and the password exactly when it is under 6 characters; empty fields get the "required" messages |
| LoginPage.DemoCredentialsPass | src/pages/Auth/Login.tsx:23-40 | the demo credentials pass the page's own checks |
| LoginPage.Page.constructor | src/pages/Auth/Login.tsx:8-12 | both fields start empty and there are no messages |
| LoginPage.Page.HandleInputChange | src/pages/Auth/Login.tsx:15-21 | the field takes the value, and its message is blanked when one is shown |
| LoginPage.Page.ValidateForm | src/pages/Auth/Login.tsx:23-40 | the step-by-step checks leave exactly `Errors` of the data as the messages, and return true exactly when there are none |
| LoginPage.Page.HandleSubmit | src/pages/Auth/Login.tsx:42-57 | an invalid form only shows its messages; a valid one with the demo credentials keeps no messages, signs in the demo user with the store consistent, and moves to "/"; other credentials show only the wrong-credentials message and leave who is signed in as it was |
| ForgotPasswordPage.SubmitErrorSpec | src/pages/Auth/ForgotPassword.tsx:17-42 | a request is sent exactly for an address the anchored pattern accepts; such an address has no white space, one '@', and passes the looser check; a blank address gets the "required" message |
| ForgotPasswordPage.Page.constructor | src/pages/Auth/ForgotPassword.tsx:7-10 | the address is empty, nothing is under way or sent, and no message is shown |
| ForgotPasswordPage.Page.SetEmail | src/pages/Auth/ForgotPassword.tsx:103 | typing sets the address and nothing else |
| ForgotPasswordPage.Page.HandleSubmit | src/pages/Auth/ForgotPassword.tsx:17-42 | a refused address shows why and changes nothing else; an accepted one clears the message and shows the confirmation with nothing under way |
| ForgotPasswordPage.Page.TryAgain | src/pages/Auth/ForgotPassword.tsx:72 | back to the form with the address kept |
| ContactPage.Errors | src/pages/Contact.tsx:43-59 | a field has a message exactly when its check fails: blank name, e-mail not matching, phone not a mobile number, empty subject, blank message |
| ContactPage.ValidIffAllPass | src/pages/Contact.tsx:43-62 | a message is sent exactly when all five checks pass |
| ContactPage.Page.constructor | src/pages/Contact.tsx:9-17 | the form is empty, with no messages and nothing under way |
| ContactPage.Page.HandleInputChange | src/pages/Contact.tsx:28-41 | the field takes the value, and its message is blanked when one is shown |
| ContactPage.Page.ValidateForm | src/pages/Contact.tsx:43-62 | the step-by-step checks leave exactly `Errors` of the data as the messages, and return true exactly when there are none |
| ContactPage.Page.HandleSubmit | src/pages/Contact.tsx:64-85 | an invalid form keeps its data and shows its messages; a valid one is sent and the form is emptied, with nothing under way |
| CheckoutPage.Errors | src/pages/Checkout.tsx:47-56 | each of the six required fields has a message exactly when it is empty; e-mail and notes never get one |
| CheckoutPage.ValidIffRequiredGiven | src/pages/Checkout.tsx:47-59 | the form passes exactly when every required field is non-empty, whatever the e-mail and notes hold |
| CheckoutPage.Page.constructor | src/pages/Checkout.tsx:12-22 | every field starts empty and there are no messages |
| CheckoutPage.Page.HandleInputChange | src/pages/Checkout.tsx:32-45 | the field takes the value, and its message is blanked when one is shown |
| CheckoutPage.Page.ValidateForm | src/pages/Checkout.tsx:47-59 | the step-by-step checks leave exactly `Errors` of the data as the messages, and return true exactly when there are none |
| CheckoutPage.Page.HandleSubmit | src/pages/Checkout.tsx:61-66 | the messages become `Errors` of the data, and the page moves to "/order-success" exactly when there are none |
| CheckoutPage.Render | src/pages/Checkout.tsx:68-74 | an empty cart is sent to "/cart"; otherwise the summary shows the cart total, shipping free exactly above the threshold, and their sum |
| PersonalInfo.Truthy | src/components/user/PersonalInfo.tsx:160 | `image \|\| undefined` keeps a picture exactly when it is present and non-empty |
| PersonalInfo.ProfileOf | src/components/user/PersonalInfo.tsx:10-14 | the form holds the user's name, e-mail and phone, or three empty strings when nobody is signed in |
| PersonalInfo.ProfileErrors | src/components/user/PersonalInfo.tsx:128-146 | a field has a message exactly when its check fails: blank name, e-mail not matching, phone not a mobile number |
| PersonalInfo.NewRule | src/components/user/PersonalInfo.tsx:84-88 | the new password passes exactly when it is not blank and its `.length` is at least 6 UTF-16 code units |
| PersonalInfo.ConfirmRule | src/components/user/PersonalInfo.tsx:90-94 | the confirmation passes exactly when it is not blank and equals the new password |
| PersonalInfo.PasswordErrors | src/components/user/PersonalInfo.tsx:77-95 | a password field has a message exactly when its check fails |
| PersonalInfo.PasswordValidIff | src/components/user/PersonalInfo.tsx:77-98 | a change passes exactly when the current password is given, the new one is not blank and has at least 6 characters, and the confirmation repeats it |
| PersonalInfo.MergeKeepsOtherMessages | src/components/user/PersonalInfo.tsx:96 | merging keeps every message outside the password form, and a passing password form changes no message |
| PersonalInfo.ImageRule | src/components/user/PersonalInfo.tsx:38-46 | a file is accepted exactly when it is at most 5 MiB and its type starts with "image/"; the size is checked first |
| PersonalInfo.Panel.constructor | src/components/user/PersonalInfo.tsx:7-24 | the panel shows the user's profile and picture, an empty password form, no messages, not editing |
| PersonalInfo.Panel.StartEditing | src/components/user/PersonalInfo.tsx:190 | editing starts and nothing else changes |
| PersonalInfo.Panel.HandleInputChange | src/components/user/PersonalInfo.tsx:26-32 | the profile field takes the value, and its message is blanked when one is shown |
| PersonalInfo.Panel.HandlePasswordChange | src/components/user/PersonalInfo.tsx:69-75 | the password field takes the value, and its message is blanked when one is shown |
| PersonalInfo.Panel.HandleImageUpload | src/components/user/PersonalInfo.tsx:34-63 | no file changes nothing; a refused file sets the picture message and keeps the picture; an accepted one blanks the message and shows the data URL |
| PersonalInfo.Panel.HandleRemoveImage | src/components/user/PersonalInfo.tsx:65-67 | the picture is removed and nothing else changes |
| PersonalInfo.Panel.TogglePasswordChange | src/components/user/PersonalInfo.tsx:370 | the password form is shown or hidden, the rest unchanged |
| PersonalInfo.Panel.ClosePasswordChange | src/components/user/PersonalInfo.tsx:426-434 | the password form is hidden and emptied, and every message is cleared |
| PersonalInfo.Panel.ValidatePasswordForm | src/components/user/PersonalInfo.tsx:77-98 | the step-by-step checks merge `PasswordErrors` into the existing messages, and return true exactly when that record is empty |
| PersonalInfo.Panel.MergeErrors | src/components/user/PersonalInfo.tsx:96 | the messages become the spread of the old ones and the new ones |
| PersonalInfo.Panel.HandlePasswordSubmit | src/components/user/PersonalInfo.tsx:100-126 | an invalid change stops after the merge; a valid one empties and hides the password form and clears every message |
| PersonalInfo.Panel.ValidateForm | src/components/user/PersonalInfo.tsx:128-149 | the step-by-step checks replace every message by `ProfileErrors`, and return true exactly when there are none |
| PersonalInfo.Panel.HandleSubmit | src/components/user/PersonalInfo.tsx:151-170 | a valid profile updates the signed-in user's name, e-mail, phone and picture (an empty picture removes it) and ends editing; otherwise the user is unchanged |
| PersonalInfo.Panel.HandleCancel | src/components/user/PersonalInfo.tsx:172-181 | the form and the picture return to the signed-in user's, the messages clear and editing ends; the password form, its visibility and both loading flags are unchanged |
| PersonalInfo.EditThenCancel | src/components/user/PersonalInfo.tsx:172-181 | editing a field and cancelling leaves the form as the user's, with no messages |
| AddressBook.Errors | src/components/user/Addresses.tsx:55-63 | the title, street, postal code and city have a message exactly when blank, the province exactly when empty |
| AddressBook.Apply | src/components/user/Addresses.tsx:75 | `{ ...addr, ...formData }` keeps the address's id |
| AddressBook.FormOf | src/components/user/Addresses.tsx:89-95 | the form filled from an address has exactly the five fields |
| AddressBook.ApplyFormOf | src/components/user/Addresses.tsx:75-95 | applying the form filled from an address gives that address back |
| AddressBook.EditedSpec | src/components/user/Addresses.tsx:74-76 | an edit keeps the length, order and ids; addresses with the id take the form's values, the others are untouched; unique ids stay unique |
| AddressBook.AppendedSpec | src/components/user/Addresses.tsx:78-82 | adding keeps every address and puts the new one last with the fresh id; with a fresh id, ids stay unique |
| AddressBook.DeletedSpec | src/components/user/Addresses.tsx:100-104 | a delete removes every address with the id and keeps every other one, in order |
| AddressBook.Book.constructor | src/components/user/Addresses.tsx:18-28 | the book starts with the mock user's addresses, the empty form closed, nothing being edited |
| AddressBook.Book.StartAdding | src/components/user/Addresses.tsx:125 | the form opens and nothing else changes |
| AddressBook.Book.HandleInputChange | src/components/user/Addresses.tsx:40-53 | the field takes the value, and its message is blanked when one is shown |
| AddressBook.Book.ResetForm | src/components/user/Addresses.tsx:106-117 | the form is emptied and closed, with no message and no address being edited |
| AddressBook.Book.HandleEdit | src/components/user/Addresses.tsx:88-98 | the form is filled from the address and opened for its id |
| AddressBook.Book.HandleDelete | src/components/user/Addresses.tsx:100-104 | when confirmed, the addresses with the id are removed; otherwise nothing changes |
| AddressBook.Book.ValidateForm | src/components/user/Addresses.tsx:55-66 | the step-by-step checks leave exactly `Errors` of the data as the messages, and return true exactly when there are none |
| AddressBook.Book.HandleSubmit | src/components/user/Addresses.tsx:68-86 | an invalid form only shows its messages; a valid one edits the address being edited (an id of 0 counts as none) or adds a new one, then resets the form |
| AddressBook.EditUnchanged | src/components/user/Addresses.tsx:68-98 | editing an address and submitting the form unchanged leaves the book as it was, when ids are unique and non-zero |
| SupportTickets.StatusColourSpec | src/components/user/SupportTickets.tsx:80-93 | each colour but the default belongs to exactly one status; every other status gets the default and no status gets the error colour |
| SupportTickets.PriorityColourSpec | src/components/user/SupportTickets.tsx:95-108 | each colour but the default belongs to exactly one priority; every other priority gets the default and no priority gets the success colour |
| SupportTickets.SelectValuesUncoloured | src/components/user/SupportTickets.tsx:73-108 | every value the priority select stores falls through to the default colour |
| SupportTickets.Errors | src/components/user/SupportTickets.tsx:125-131 | the subject and message have a message exactly when blank, the category and priority exactly when unchosen |
| SupportTickets.ValidIffAllPass | src/components/user/SupportTickets.tsx:125-135 | a ticket is accepted exactly when its subject and message are not blank and a category and priority are chosen |
| SupportTickets.Page.constructor | src/components/user/SupportTickets.tsx:21-61 | the page starts with the three listed tickets, the empty form closed and no messages |
| SupportTickets.Page.SetCreating | src/components/user/SupportTickets.tsx:54 | only the form's visibility changes |
| SupportTickets.Page.HandleInputChange | src/components/user/SupportTickets.tsx:110-123 | the field takes the value, and its message is blanked when one is shown |
| SupportTickets.Page.ValidateForm | src/components/user/SupportTickets.tsx:125-135 | the step-by-step checks leave exactly `Errors` of the data as the messages, and return true exactly when there are none |
| SupportTickets.Page.HandleSubmit | src/components/user/SupportTickets.tsx:137-156 | an invalid form only shows its messages; a valid one is emptied and closed with no messages |
| SearchAutocomplete.SuggestionsSpec | src/components/common/SearchAutocomplete.tsx:27-42 | the suggestions are at most 5 matching products of the list, in its order; a matching product is left out only when 5 come before it; a query whose trimmed `.length` is at most one UTF-16 code unit suggests nothing |
| SearchAutocomplete.OneGemSuggests | src/components/common/SearchAutocomplete.tsx:28 | a query of one gem character is two code units long, so it already produces suggestions |
| SearchAutocomplete.SuggestionIsSearchHit | src/components/common/SearchAutocomplete.tsx:29-34 | every suggestion is also a hit of the catalogue search for the same query, and the description has no say |
| SearchAutocomplete.SearchBox.constructor | src/components/common/SearchAutocomplete.tsx:20-23 | the box starts empty and closed with no highlight |
| SearchAutocomplete.SearchBox.Suggest | src/components/common/SearchAutocomplete.tsx:27-42 | the suggestions become `Suggestions` of the query, the dropdown is open exactly when the trimmed query is longer than one UTF-16 code unit, and the highlight is cleared |
| SearchAutocomplete.SearchBox.SetQuery | src/components/common/SearchAutocomplete.tsx:27-42 | a changed query recomputes the suggestions; an unchanged one leaves everything as it was |
| SearchAutocomplete.SearchBox.HandleInputChange | src/components/common/SearchAutocomplete.tsx:62-66 | the typed value becomes the query and is what `onSearch` receives |
| SearchAutocomplete.SearchBox.HandleSelect | src/components/common/SearchAutocomplete.tsx:96-101 | the product's Persian name becomes the query, `onSelect` receives the product, and the dropdown closes unless the changed query's suggestions reopen it |
| SearchAutocomplete.SearchBox.HandleKeyDown | src/components/common/SearchAutocomplete.tsx:68-94 | a closed or empty dropdown ignores every key; the arrows move the highlight cyclically onto a suggestion; Enter picks the highlighted suggestion, leaving the box as `HandleSelect` does, or else searches a non-blank trimmed query; Escape closes and clears the highlight |
| SearchAutocomplete.SearchBox.HandleSubmit | src/components/common/SearchAutocomplete.tsx:103-109 | a non-blank query is searched trimmed and closes the dropdown; a blank one does nothing |
| SearchAutocomplete.SearchBox.ShowAllResults | src/components/common/SearchAutocomplete.tsx:175-178 | the trimmed query, blank or not, is searched and the dropdown closes |
| SearchAutocomplete.SearchBox.HandleFocus | src/components/common/SearchAutocomplete.tsx:120-124 | the dropdown opens when there are suggestions and otherwise stays as it was |
| SearchAutocomplete.SearchBox.ClickOutside | src/components/common/SearchAutocomplete.tsx:44-60 | the dropdown closes and nothing else changes |
| ImageGallery.Gallery.constructor | src/components/product/ImageGallery.tsx:10-11 | the first image, not zoomed |
| ImageGallery.Gallery.NextImage | src/components/product/ImageGallery.tsx:32-35 | the following image, the first after the last, unzoomed; the index stays on an image |
| ImageGallery.Gallery.PrevImage | src/components/product/ImageGallery.tsx:37-40 | the preceding image, the last before the first, unzoomed; the index stays on an image |
| ImageGallery.Gallery.SelectThumbnail | src/components/product/ImageGallery.tsx:107-110 | the chosen image, unzoomed |
| ImageGallery.Gallery.HandleImageClick | src/components/product/ImageGallery.tsx:14-16 | the zoom flips and the image stays |
| ImageGallery.Gallery.HandleMouseLeave | src/components/product/ImageGallery.tsx:28-30 | the zoom ends and the image stays |
| ImageGallery.NextThenPrev | src/components/product/ImageGallery.tsx:32-40 | the next image and then the previous one shows the image shown before, unzoomed |
| ProductSlider.ItemsForSpec | src/components/product/ProductSlider.tsx:18-27 | the count shown is 1, 2 or 4 and never falls as the window widens |
| ProductSlider.Slider.constructor | src/components/product/ProductSlider.tsx:13-14 | index 0 and 4 products, in range for every list |
| ProductSlider.Slider.HandleResize | src/components/product/ProductSlider.tsx:18-30 | the count follows the window's width and the index stays |
| ProductSlider.Slider.HandlePrevious | src/components/product/ProductSlider.tsx:35-37 | one step back, never below 0; within range, it moves exactly when `canGoPrevious` holds |
| ProductSlider.Slider.HandleNext | src/components/product/ProductSlider.tsx:39-42 | one step on, never past the last reachable index; within range, it moves exactly when `canGoNext` holds |
| ProductSlider.ButtonsMatchMoves | src/components/product/ProductSlider.tsx:35-45 | within range, each button is enabled exactly when pressing it moves the index |
| Faq.ToggleSpec | src/pages/FAQ.tsx:55-57 | toggling the open answer closes it, toggling any other opens exactly that one, and toggling twice from closed closes again |
| Faq.Accordion.constructor | src/pages/FAQ.tsx:10 | no answer is open |
| Faq.Accordion.ToggleAccordion | src/pages/FAQ.tsx:55-57 | the toggled answer's state flips and no other answer is open |

## Left out

- The `localStorage` copies of the cart, favorites and sign-in stores are not modelled. The stores are in-memory state only.
- Toasts, `alert` and `console` output are left out. They have no effect on the state.
- Every `setTimeout` or Promise delay collapses into one step. This covers the simulated API, sign-in, sign-up, password reset, contact, profile save and favorites loading. The `catch` branches those promises can never reach are not modelled.
- `Date.now()` is a parameter. It becomes `freshId` for a new cart line, user or address.
- Navigation (`navigate`, `window.location`, `scrollTo`) is a returned value or left out.
- The answer to `confirm()` is a boolean parameter.
- The `FileReader` upload of a profile picture is not modelled. The data URL it yields is a parameter, and only the size and type checks are modelled.
- `Intl.NumberFormat` and `toLocaleString` (`formatPrice`, `formatNumber`) are foreign formatting calls and are not modelled.
- The zoom position of the image gallery is floating-point arithmetic on mouse coordinates, and is not modelled. Only the zoom flag is.
- Text.ToLower: maps only the ASCII letters. JavaScript's full Unicode case mapping is not modelled. Persian text has no case, so only Latin letters outside ASCII behave differently.
- Text.ParseInt: digit runs are read as unbounded integers. The floating-point rounding of very long runs is not modelled.
- React's render scheduling is not modelled: batching, stale closures and effects that run after a render. Handlers run one after another on the current state. An effect runs inside the handler that changes what it depends on.
- The names of input fields are a datatype per form, not arbitrary strings. Select values are strings.
- A submitted support ticket is not added to the ticket list, because the page only logs it.
- The sign-up failure message is not modelled, because the store's `register` always succeeds.
- Pricing.CalculateDiscount: requires a non-zero original price. JavaScript gives `NaN` or `Infinity` there, and every caller tests the original price for truthiness first. The percentage is also computed exactly, while JavaScript's floating point can round a half down: (4000000, 1700000) gives 57 in JavaScript and 58 here.
- ProductDetail.ProductPage.HandleAddToCart: the button is disabled when the product's stock is 0, which is rendering. The handler itself does not test the stock, so neither does the model.
- Rendering is not modelled: JSX, styles, icons and the static pages hold no behaviour beyond what is modelled here.

## Findings

| source | as written | input that shows it | evidently intended | confidence | as-written member | corrected member |
|---|---|---|---|---|---|---|
| src/pages/Auth/Register.tsx:67-72 | the page calls `register(name, email, password, phone)`, but the store's `register` takes `(name, email, phone)`, so the password is stored as the user's phone number and the phone is dropped | name "Sara", email "sara@example.com", phone "09121234567", password and confirmation "secret1": the form passes every check, and the signed-in user's phone is "secret1", which is not a mobile number | the user's phone is the phone typed into the form | high, not executed | RegisterPage.PasswordStoredAsPhone | RegisterPage.Page.HandleSubmitCorrected |
