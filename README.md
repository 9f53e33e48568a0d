# musa-lavka storefront model

A Dafny model of the state and page logic of the musa-lavka Telegram
storefront (a shop for nuts, dried fruit and frozen desserts):

- the static catalog (five categories, ten products) and its queries: by
  category, similar products, discounted products and text search;
- the four client stores: favorites (a de-duplicated list of products),
  reviews (a newest-first list seeded with five reviews), orders (an
  append-only, newest-first history) and the UI store (search, chip and
  modal state);
- the checkout page: pre-fee total, delivery fee (free from 1500 roubles,
  otherwise 199), the order it records for a cart purchase or a direct
  "buy now" purchase, cart clearing, and the redirect to the cart;
- the product-reviews panel: who may write a review (only buyers of the
  product), the per-star histogram, the defaults a written review receives,
  what a review card shows and when the rating badge appears;
- the home page and catalog page product lists, the chip row, the cart
  summary bar and the price block.

Stores whose fields the source updates in place are classes (`Favorites`,
`Reviews`, `Orders`, `Ui`, and the page-local state of `Checkout` and
`WriteReviewForm`); each state-changing method states its new state in
terms of a pure function of the old state, and the properties are proved as
lemmas about those functions. Pure code (catalog queries, page filters,
view rules) is written as functions with lemmas.

Interfaces to the world are parameters: the clock is a `Clock` value (the
millisecond count and an ISO timestamp text; the stores read the clock twice,
and the model does not tie the two together), `toLowerCase` is a function parameter
`lower`, the host user is an optional `HostUser`, and the cart is a sequence
of cart lines passed in. The average rating is exact: an integer count of
tenths, `(20 * sum + n) / (2 * n)`, which is the source's `Math.round` of
ten times the mean.

## Model

| member | source | states |
|---|---|---|
| Seqs.Filter | src/data/products.ts:181-182 | `filter` keeps exactly the elements satisfying the predicate, in their original order (an order-preserving subsequence, never longer) |
| Seqs.FilterKeepsEveryOccurrence | src/data/products.ts:181-182 | `filter` keeps every occurrence of a kept element and none of a dropped one (multiplicities preserved) |
| Seqs.FilterPrefixKeepsEarlier | src/data/products.ts:187-188 | a prefix of a filter of distinct elements that holds an element also holds every earlier element passing the filter |
| Seqs.IncludesMeansOccurrence | src/data/products.ts:198-200 | `includes` on strings holds exactly when the needle occurs at some position |
| Seqs.Decimal | src/store/ordersStore.ts:35 | the decimal rendering of the clock reading used in ids is non-empty, all digits, and starts with 0 only for 0 |
| Seqs.DecimalDenotes | src/store/ordersStore.ts:35 | the rendering, read back digit by digit from the left, denotes the clock reading |
| Seqs.DecimalInjective | src/store/ordersStore.ts:35 | two clock readings with the same rendering are equal |
| Catalog.CategoryIds | src/data/products.ts:3-9 | the listed category ids, one per category in order |
| Catalog.GetProductsByCategory | src/data/products.ts:179-183 | "all" gives the whole catalog; "frozen" exactly the frozen products; any other id exactly the products of that category; always an order-preserving subsequence of the catalog |
| Catalog.SliceEnd | src/data/products.ts:188 | `slice(0, end)` keeps `min(end, len)` elements, counting a negative end back from the end |
| Catalog.GetSimilarProducts | src/data/products.ts:185-189 | as many products as `slice(0, limit)` keeps of the similar ones (a negative limit counts back from the end), each of the same category and not the product itself, in catalog order; at most `limit`, and when fewer come back every similar product is included |
| Catalog.SimilarProductsAreTheFirst | src/data/products.ts:185-189 | the kept similar products are the first ones in catalog order: a similar product before a kept one is kept |
| Catalog.GetDiscountedProducts | src/data/products.ts:191-193 | exactly the catalog products with a present, non-zero `discountPercent`, in catalog order |
| Catalog.SearchProducts | src/data/products.ts:195-202 | keeps a product iff its lowercased name, description or some tag contains the lowercased query; order-preserving |
| Catalog.CatalogIsConsistent | src/data/products.ts:3-177 | product ids are distinct, every product's category is listed, every product with a discount percent has an original price above its price |
| Catalog.CatalogPricesArePositive | src/data/products.ts:11-177 | every catalog price is positive |
| Catalog.UnknownCategoryIsEmpty | src/data/products.ts:182 | an id that is not "all", "frozen" or a listed category selects nothing |
| Catalog.EmptySearchKeepsAll | src/data/products.ts:195-201 | the empty query keeps the whole catalog |
| OrdersStore.Orders.constructor | src/store/ordersStore.ts:30 | the history starts empty |
| OrdersStore.Orders.AddOrder | src/store/ordersStore.ts:32-42 | the new order is prepended and the old history follows unchanged; items, total, address and phone are copied; status is confirmed; id is `order-<millis>` and the timestamp is the clock's |
| OrdersStore.Orders.GetOrders | src/store/ordersStore.ts:44 | returns the stored history unchanged |
| ReviewsStore.ProductReviews | src/store/reviewsStore.ts:99-101 | exactly the stored reviews of the product, in stored order |
| ReviewsStore.AverageRating | src/store/reviewsStore.ts:103-108 | 0 without reviews; otherwise the tenths `t` with `n(2t-1) <= 20*sum < n(2t+1)`, the mean rounded half-up to one decimal |
| ReviewsStore.RoundedTenths | src/store/reviewsStore.ts:107 | `(20*sum + n) / (2*n)` lies within half a tenth of the mean |
| ReviewsStore.Reviews.constructor | src/store/reviewsStore.ts:25-86 | the store starts with the five seed reviews |
| ReviewsStore.Reviews.AddReview | src/store/reviewsStore.ts:88-97 | exactly one review is prepended with the submitted fields unchanged, id `review-<millis>` and the clock's timestamp; the old list follows intact |
| ReviewsStore.Reviews.GetProductReviews | src/store/reviewsStore.ts:99-101 | exactly the stored reviews of the product, in stored order |
| ReviewsStore.Reviews.GetAverageRating | src/store/reviewsStore.ts:103-108 | 0 without reviews; otherwise the product's mean rating rounded half-up to a tenth, in tenths |
| ReviewsStore.Reviews.GetReviewCount | src/store/reviewsStore.ts:110-112 | the count equals the length of the product's review list |
| ReviewsStore.Reviews.CanWriteReview | src/store/reviewsStore.ts:114-116 | true iff the product id is among the ordered ids; independent of the store |
| ReviewsStore.AddReviewTouchesOnlyItsProduct | src/store/reviewsStore.ts:94-104 | a new review leaves every other product's list, count and average unchanged and prepends to its own product's list |
| ReviewsStore.SumRatingsBounds | src/store/reviewsStore.ts:106 | with ratings 1 to 5, the sum lies between the count and five times the count |
| ReviewsStore.AverageRatingInRange | src/store/reviewsStore.ts:103-108 | with ratings 1 to 5 and at least one review, the average is between 1.0 and 5.0 |
| ReviewsStore.TenthsInRange | src/store/reviewsStore.ts:107 | the rounding bounds keep the tenths between 10 and 50 when the mean is between 1 and 5 |
| ReviewsStore.SeedSamples | src/store/reviewsStore.ts:25-81 | on the seed data product "1" has 2 reviews averaging 4.5, product "5" has none and average 0 |
| FavoritesStore.WithoutFavoriteDropsExactlyThatId | src/store/favoritesStore.ts:27-31 | removing an id drops every entry with that id, keeps the rest in order, and changes nothing when the id is absent |
| FavoritesStore.WithFavoriteKeepsIdsUnique | src/store/favoritesStore.ts:18-24 | adding keeps ids pairwise distinct |
| FavoritesStore.WithoutFavoriteKeepsIdsUnique | src/store/favoritesStore.ts:27-31 | removing keeps ids pairwise distinct |
| FavoritesStore.ToggledKeepsIdsUnique | src/store/favoritesStore.ts:37-44 | toggling keeps ids pairwise distinct |
| FavoritesStore.ToggledFlipsOnlyItsId | src/store/favoritesStore.ts:37-44 | toggling flips membership of the toggled id and leaves every other id's membership unchanged |
| FavoritesStore.DoubleToggleFromAbsentRestores | src/store/favoritesStore.ts:18-44 | from a list without the product, toggling twice restores the list exactly |
| FavoritesStore.DoubleToggleFromPresentMovesToEnd | src/store/favoritesStore.ts:18-44 | from a list with the product, toggling twice removes its entries and re-appends it at the end |
| FavoritesStore.Favorites.constructor | src/store/favoritesStore.ts:16 | the list starts empty |
| FavoritesStore.Favorites.AddFavorite | src/store/favoritesStore.ts:18-25 | a present id leaves the list unchanged; an absent product is appended at the end; distinct ids stay distinct |
| FavoritesStore.Favorites.RemoveFavorite | src/store/favoritesStore.ts:27-31 | afterwards no entry has the id; an absent id changes nothing; distinct ids stay distinct |
| FavoritesStore.Favorites.IsFavorite | src/store/favoritesStore.ts:33-35 | true iff some entry has the id |
| FavoritesStore.Favorites.ToggleFavorite | src/store/favoritesStore.ts:37-44 | flips `IsFavorite` of the product's id and of no other id; distinct ids stay distinct |
| UiStore.Ui.constructor | src/store/uiStore.ts:17-20 | search closed, empty query, no active category, no modal product |
| UiStore.Ui.SetSearchOpen | src/store/uiStore.ts:22 | only `isSearchOpen` changes, to the argument |
| UiStore.Ui.SetSearchQuery | src/store/uiStore.ts:23 | only `searchQuery` changes, to the argument |
| UiStore.Ui.SetActiveCategory | src/store/uiStore.ts:24 | only `activeCategory` changes, to the argument |
| UiStore.Ui.OpenProductModal | src/store/uiStore.ts:25 | only `modalProduct` changes, to the product |
| UiStore.Ui.CloseProductModal | src/store/uiStore.ts:26 | only `modalProduct` changes, to none, whatever it was |
| UiStore.UiStoreHarness | src/store/uiStore.ts:17-26 | from the initial state, every setter applied twice equals applying it once, and open-then-close leaves no modal product; the final state is the last values set |
| CheckoutPage.DeliveryFee | src/pages/CheckoutPage.tsx:55 | the fee is 0 iff the pre-fee total is at least 1500, otherwise 199 |
| CheckoutPage.PreFeeTotal | src/pages/CheckoutPage.tsx:52-54 | the direct purchase's total on the direct path, otherwise the sum of the cart-path line prices |
| CheckoutPage.CartOrderItems | src/pages/CheckoutPage.tsx:94-98 | one order item per cart line, in cart order, with the line's product and quantity and price `product.price * quantity` |
| CheckoutPage.CartOrderItemsAddUpToCartTotal | src/pages/CheckoutPage.tsx:54-99 | the cart-path line prices add up to the cart total |
| CheckoutPage.BuildOrderInput | src/pages/CheckoutPage.tsx:51-102 | total = pre-fee total + fee = sum of line prices + fee; a direct purchase gives one item priced at its total; the cart path gives one item per line, in order, priced `price * quantity`; only address and phone come from the form |
| CheckoutPage.Checkout.constructor | src/pages/CheckoutPage.tsx:58-66 | empty form, not submitting, not succeeded |
| CheckoutPage.Checkout.RedirectsToCart | src/pages/CheckoutPage.tsx:112-115 | the page redirects only when there is nothing to order (no order items, pre-fee total 0) and no success; without a redirect there are cart lines, a success or a direct purchase |
| CheckoutPage.Checkout.ShowsForm | src/pages/CheckoutPage.tsx:112-146 | the form is shown only before success and with something to order |
| CheckoutPage.Checkout.CanSubmit | src/pages/CheckoutPage.tsx:198-289 | a submit goes through only when not submitting, not succeeded, with something to order and with name, phone and address filled in |
| CheckoutPage.Checkout.Edit | src/pages/CheckoutPage.tsx:198-253 | an input's change replaces that form field only |
| CheckoutPage.Checkout.Submit | src/pages/CheckoutPage.tsx:68-116 | a submit that can go through records exactly the built order first, clears the cart on the cart path only, then sets success, after which no redirect and no second submit is possible; otherwise nothing changes |
| CheckoutPage.CheckoutExamples | src/pages/CheckoutPage.tsx:54-102 | 450 x 1 + 590 x 2 = 1630 pays no fee and gives a two-item order of 1630; a 300 direct purchase gives 499 |
| ProductReviews.ItemProductIds | src/components/product/ProductReviews.tsx:202 | the product ids of an order's items, one per item in order |
| ProductReviews.OrderedProductIds | src/components/product/ProductReviews.tsx:202 | an id is listed iff some item of some stored order is for that product |
| ProductReviews.CanWrite | src/components/product/ProductReviews.tsx:202-203 | writing is allowed iff some item of some stored order is for the product |
| ProductReviews.AddOrderGrantsEligibility | src/components/product/ProductReviews.tsx:202-203 | after a new order, a product is eligible iff it was before or the new order contains it |
| ProductReviews.RatingCounts | src/components/product/ProductReviews.tsx:205-209 | five bars, stars 5, 4, 3, 2, 1 in that order, each counting reviews of exactly that rating |
| ProductReviews.RatingCountsAddUp | src/components/product/ProductReviews.tsx:205-209 | with ratings 1 to 5, the bar counts add up to the number of reviews |
| ProductReviews.StarCountsPartition | src/components/product/ProductReviews.tsx:207 | every review with a rating of 1 to 5 is counted by exactly one star |
| ProductReviews.SubmittedReview | src/components/product/ProductReviews.tsx:117-125 | user id is "guest" when the host user or its id is missing, name "Гость" when the user or its first name is missing, otherwise the host's; empty disadvantages become "Нет"; rating, advantages and comment pass through |
| ProductReviews.WriteReviewForm.constructor | src/components/product/ProductReviews.tsx:105-108 | the rating starts at 5, the texts empty |
| ProductReviews.WriteReviewForm.ClickStar | src/components/product/ProductReviews.tsx:24-33 | a star click sets the rating to that star, 1 to 5 |
| ProductReviews.WriteReviewForm.Edit | src/components/product/ProductReviews.tsx:155-183 | an input's change replaces that text only |
| ProductReviews.WriteReviewForm.Submit | src/components/product/ProductReviews.tsx:111-129 | exactly the defaulted review is added to the store; its rating is 1 to 5, so a store whose ratings are 1 to 5 stays so |
| ProductReviews.SeedRatingsInRange | src/store/reviewsStore.ts:25-81 | every seed rating is 1 to 5 |
| ProductReviews.WriteAreaView | src/components/product/ProductReviews.tsx:258-283 | the form shows iff writing is allowed and requested; the purchase hint iff writing is not allowed |
| ProductReviews.ReviewCard | src/components/product/ProductReviews.tsx:75-93 | advantages and comment show iff non-empty; disadvantages iff non-empty and not "Нет" |
| ProductReviews.EmptyDisadvantagesStayHidden | src/components/product/ProductReviews.tsx:82-123 | a review written with empty disadvantages shows no disadvantages section |
| ProductReviews.RatingBadge | src/components/product/ProductReviews.tsx:303-319 | nothing iff the product has no reviews; otherwise its average and count |
| ProductReviews.RatingBadgeInRange | src/components/product/ProductReviews.tsx:303-317 | with ratings 1 to 5 a shown badge reads between 1.0 and 5.0 |
| HomePage.FilteredProducts | src/pages/HomePage.tsx:38-48 | keeps a catalog product iff it matches the query by name and the active chip; order-preserving |
| HomePage.UnfilteredShowsAll | src/pages/HomePage.tsx:39-43 | with no query and no chip `filteredProducts` is the whole catalog |
| HomePage.UnknownChipShowsNothing | src/pages/HomePage.tsx:42-47 | a chip other than sale, favorites and history (such as "new") empties `filteredProducts` whatever the query, so the results grid reads 0 |
| HomePage.FavoritesAndHistoryDoNotFilter | src/pages/HomePage.tsx:45-46 | under the favorites and history chips `filteredProducts` is what it is with no chip |
| HomePage.SaleChipShowsDiscounted | src/pages/HomePage.tsx:44 | with no query, `filteredProducts` under the sale chip is exactly the discounted products (not rendered then; see `HomePageView`) |
| HomePage.DiscountProducts | src/pages/HomePage.tsx:50 | the sale carousel is the discounted-products list |
| HomePage.FrozenProducts | src/pages/HomePage.tsx:51 | the frozen carousel is the "frozen" category list |
| HomePage.HomePageView | src/pages/HomePage.tsx:93-121 | a query gives one results grid of `filteredProducts`; no query gives the sale section iff there are discounted products, the frozen section iff there are frozen products, then the whole catalog |
| HomePage.ChipIsInvisibleWithoutQuery | src/pages/HomePage.tsx:93-121 | without a query the active chip changes nothing on the page |
| CatalogPage.FilteredProducts | src/pages/CatalogPage.tsx:11-15 | no query gives the whole catalog; a query keeps products whose lowercased name contains it |
| CatalogPage.GroupProducts | src/pages/CatalogPage.tsx:17-20 | one group per category in category order, each exactly the filtered products of that category in filtered order |
| CatalogPage.GroupsAreDisjoint | src/pages/CatalogPage.tsx:19 | with distinct category ids, no product is in two groups |
| CatalogPage.CategoryIdsAreDistinct | src/data/products.ts:3-9 | the listed category ids are distinct |
| CatalogPage.CatalogIsCategorised | src/data/products.ts:11-177 | every catalog product belongs to a listed category |
| CatalogPage.PageGroupsAreDisjoint | src/pages/CatalogPage.tsx:17-20 | on the page, no product is in two sections |
| CatalogPage.GroupsPartitionFiltered | src/pages/CatalogPage.tsx:11-20 | the section sizes add up to the number of products found |
| CatalogPage.CatalogPageView | src/pages/CatalogPage.tsx:46-62 | a query shows one grid of the found products; otherwise the sections with products, in category order |
| CategoryFilter.NextActive | src/components/catalog/CategoryFilter.tsx:46-48 | a click on the active chip clears it; any other click activates the clicked chip |
| CategoryFilter.ClickChip | src/components/catalog/CategoryFilter.tsx:6-48 | only the store's active category changes, and it stays none or a chip id |
| CategoryFilter.AtMostOneActiveChip | src/components/catalog/CategoryFilter.tsx:50-51 | at most one chip is highlighted |
| CategoryFilter.DoubleClickFromNoneClears | src/components/catalog/CategoryFilter.tsx:47 | from no chip, two clicks on one chip return to no chip |
| CartSummary.ItemWord | src/components/cart/CartSummary.tsx:14-18 | "товар" iff the count is 1, "товара" iff 2 to 4, "товаров" otherwise |
| CartSummary.ItemWordSamples | src/components/cart/CartSummary.tsx:14-18 | 0, 11 and 21 give "товаров"; 1 gives "товар"; 3 gives "товара" |
| CartSummary.CartSummaryView | src/components/cart/CartSummary.tsx:7-39 | nothing iff the cart has no lines; otherwise the unit count, its word and the total |
| PriceDisplay.PriceBlock | src/components/product/PriceDisplay.tsx:20-48 | the price always; the original price iff it is present, non-zero and above the price; the badge iff that holds and the percent is truthy |
| PriceDisplay.CatalogSaleShowsBadge | src/components/product/PriceDisplay.tsx:20-46 | every discounted catalog product shows its original price and its badge |

## Left out

- The cart store (`src/store/cartStore`) is not part of this model: the cart is a sequence passed in, and `CartTotal` / `ItemCount` are the sums its readers rely on (`product.price * quantity` and the quantities). Its mutators (`addItem`, `updateQuantity`, `clearCart`) are not modelled; `Checkout.Submit` returns the cart contents after the submit instead of clearing a store.
- Persistence of the stores to local storage and the subscription machinery of the store library.
- Timers and waiting: the checkout's 1500 ms and 2000 ms delays and the review form's 500 ms delay; each submit is one atomic step, so the review form's own `isSubmitting` flag and a second click during the wait are not modelled. The atomic checkout submit also hides the moment between `clearCart()` and `setIsSuccess(true)` (src/pages/CheckoutPage.tsx:103-106): if the renderer shows that state, the cart is empty and success is not yet set, so the redirect guard's condition holds there on the cart path; whether the two updates are batched is not modelled.
- Navigation: the redirect to the cart is the predicate `RedirectsToCart`; the navigation to the home page after success is not modelled.
- Floating point and locale formatting: the histogram's `percent`, `formatPrice`, `toLocaleDateString`, animated numbers. The average is modelled in exact tenths.
- `toLowerCase`: Unicode case mapping is a function parameter; lemmas that need it to map the empty string to itself say so.
- The Telegram host: the user record is an optional `HostUser` whose numeric id is already rendered as text (the empty text stands for a missing id); haptics, alerts and the admin check are not modelled.
- Ids built from the clock are not unique in general, and no uniqueness is claimed.
- Animation, layout and routing components, the admin and profile pages, and the unused `Order` type of `src/types/index.ts` (the orders store's own shape is modelled).
- Catalog.GetDiscountedProducts: the concrete result on the shipped data (products 2, 4, 6 and 9) is not proved; the contract states the selection rule only.
- PriceDisplay.PriceBlock: shows nothing where the page renders a literal "0": an original price of 0 (`0 && ...`), or a percent of 0 on a discounted product, makes the source print the number 0 in place of the struck price or the badge. No catalog product has either value.
- Catalog product records keep images, tags, weight, stock and variants as data; nothing in the model reads images, weight, stock or variants.
