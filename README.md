# HiveImage storefront — a Dafny model of its shopping logic

HiveImage is a single-page React storefront for a fixed catalogue of eight
electronics products. This project models the logic under its markup and
proves properties of that model:

- the session state kept by `App.tsx`: the basket, the comparison list (at
  most three products), the wishlist and the recently-viewed list (most recent
  first, at most five), the order history, the direct "Buy Now" line and the
  shop filters. It also covers the mount-time reload of stored id lists
  against the catalogue and the values derived from the catalogue: the
  filtered shop list, the category list and the per-category counts;
- the basket page (`components/Cart.tsx`): subtotal, delivery charge, total,
  the free-delivery progress bar and the "add £x more" message;
- the checkout page (`components/PaymentGateway.tsx`): delivery cost and
  final total, the business-day delivery estimate with its 4 PM cutoff, and
  the card-number input formatter;
- the header's quick search (`components/Header.tsx`) and the "You May Also
  Like" products (`components/ProductDetail.tsx`).

Modelling choices:

- Money is integer pence, so £999.00 is 99900.
- Ratings are integer tenths of a star, so 4.9 is 49.
- A product category is the datatype `Catalog.Category`. Its `Name()` is the
  display string the source stores.
- A date is an integer day number whose weekday is `day % 7`, with 0 = Sunday.
- Catalogue functions take the catalogue as a parameter. The app passes
  `Catalog.Products`.

Modules:

| module | file | models |
|---|---|---|
| `Seqs` | seqs.dfy | generic sequence tools: `Filter`, `Take`, `Distinct`, subsequence order |
| `Catalog` | catalog.dfy | types.ts, and the `PRODUCTS` constant of constants.tsx |
| `Basket` | basket.dfy | components/Cart.tsx |
| `Payment` | payment.dfy | components/PaymentGateway.tsx |
| `QuickSearch` | search.dfy | the search effect of components/Header.tsx |
| `Recommendations` | related.dfy | `relatedProducts` of components/ProductDetail.tsx |
| `Session` | session.dfy | the pure `prev => next` reducers and derived values of App.tsx |
| `Store` | store.dfy | the App component's state slots and handlers, as the class `Storefront` |

`Store.Storefront` has one field for each React state slot of the shopping
logic, except that the three filter slots (`activeCategory`, `priceRange`,
`minRating`) are one field, `filters`, and the loading flag
`isProductsLoading` has none. It also has one field per localStorage entry the
app writes (`savedViewed`, `savedWishlist`, `savedOrders`).

Each handler is a method. It applies the matching `Session` function to the
field it updates. Its contract states the whole new state through `State()`,
so every other field is unchanged. It also keeps `Valid()`:

- no id appears twice in the basket, the comparison list, the recently-viewed
  list or the wishlist;
- the comparison list holds at most three products;
- the recently-viewed list holds at most five.

The two free-delivery thresholds disagree: the basket page makes delivery free
from £100.00, the checkout only above £100.00. Both are modelled as written,
and `Payment.ThresholdsDisagreeAtHundredPounds` shows they differ exactly at
£100.00.

## Model

| member | source | states |
|---|---|---|
| Catalog.Category.Name | types.ts:19 | the category names are the five strings of the union type, none of them `'All'` |
| Catalog.CategoryNamesDistinct | types.ts:19 | two categories have the same display name exactly when they are the same category |
| Catalog.Ids | App.tsx:157 | `updated.map(p => p.id)`: same length, and position i holds the id of product i |
| Catalog.CatalogIdsUnique | constants.tsx:20-160 | no two products of the catalogue share an id |
| Basket.LineTotal | components/Cart.tsx:96 | a line shows its product's price times its quantity; `Basket.View` and `Basket.SubtotalIsSumOfLines` state what is built from it |
| Basket.Subtotal | components/Cart.tsx:13 | the `reduce` over the lines, adding each line's amount to a sum that starts at 0; its properties are `Basket.SubtotalAppend` and `Basket.SubtotalIsSumOfLines` |
| Basket.SubtotalAppend | components/Cart.tsx:13 | the subtotal of two concatenated baskets is the sum of their subtotals |
| Basket.SubtotalIsSumOfLines | components/Cart.tsx:13 | the subtotal is 0 for an empty basket; it is the previous lines' subtotal plus the last line's `price * quantity`; it is never negative when no price or quantity is |
| Basket.CartDelivery | components/Cart.tsx:14-15 | delivery is free exactly when the subtotal is at least £100.00; otherwise it is £4.99 |
| Basket.CartTotal | components/Cart.tsx:16 | the total is the subtotal plus delivery, so it lies between the subtotal and the subtotal plus £4.99 |
| Basket.Progress | components/Cart.tsx:17 | the bar is never above 100 %; it is exactly 100 % once the threshold is reached; it is never negative for a non-negative subtotal; below the threshold it is the subtotal's share of £100.00 |
| Basket.Message | components/Cart.tsx:48-50 | the "free delivery earned" text shows exactly at or above the threshold; otherwise the amount shown is positive and brings the subtotal to exactly £100.00 |
| Basket.View | components/Cart.tsx:13-50 | the empty-basket branch renders exactly when there are no items; otherwise the summary shows one `price * quantity` per line; its subtotal is the basket's subtotal, its delivery, total, progress and message are those of that subtotal, the total is subtotal plus delivery, and the bar is full exactly when the "earned" message shows |
| Payment.StandardCost | components/PaymentGateway.tsx:20 | standard delivery is free exactly when the subtotal is above £100.00; otherwise it costs £4.99 |
| Payment.DeliveryCost | components/PaymentGateway.tsx:20-22 | platinum costs £8.99; standard costs the standard charge of the subtotal; the cost is 0 exactly for standard delivery above £100.00, and never exceeds £8.99 |
| Payment.FinalTotal | components/PaymentGateway.tsx:23 | the final total exceeds the subtotal by the selected method's cost, so it is never below the subtotal |
| Payment.ThresholdsDisagreeAtHundredPounds | components/PaymentGateway.tsx:20 | the basket page and the checkout page charge different delivery for exactly one subtotal, £100.00: free on the first, £4.99 on the second |
| Payment.IsBusinessDay | components/PaymentGateway.tsx:28-31 | a day is a business day unless its weekday is Sunday (0) or Saturday (6); `Payment.BusinessDaysPerWeek` counts them |
| Payment.BusinessDaysPerWeek | components/PaymentGateway.tsx:28-31 | any seven consecutive days hold exactly five business days |
| Payment.NextBusinessDay | components/PaymentGateway.tsx:28-31 | the first day after d that is not a Saturday (6) or Sunday (0) lies at most three days ahead, with no business day before it |
| Payment.NthBusinessDay | components/PaymentGateway.tsx:33-41 | the n-th business day after `start` is never before `start`; for n ≥ 1 it is later than `start` and is a business day |
| Payment.NthBusinessDayMonotone | components/PaymentGateway.tsx:33-41 | a later count never gives an earlier day |
| Payment.CountFlat | components/PaymentGateway.tsx:38 | skipping only weekend days adds nothing to the business-day count |
| Payment.CountMonotone | components/PaymentGateway.tsx:38 | the business-day count never decreases as the end of the interval moves later |
| Payment.NthBusinessDayCount | components/PaymentGateway.tsx:33-41 | exactly n business days lie in (start, NthBusinessDay(start, n)], and every earlier day has fewer |
| Payment.AddBusinessDays | components/PaymentGateway.tsx:33-41 | the loop terminates; its result is the n-th business day; for days ≥ 1 it is after `start` and is a business day; exactly `days` business days lie in (start, result] |
| Payment.PlatinumBusinessDays | components/PaymentGateway.tsx:56-57 | platinum takes 2 business days exactly when the hour is 16 or later, otherwise 1 |
| Payment.EstimateDelivery | components/PaymentGateway.tsx:51-63 | the standard window starts after today and ends strictly later on the next business day; all three dates are business days; the platinum date is the window's start before 4 PM and its end from 4 PM on |
| Payment.StandardWindow | components/PaymentGateway.tsx:52-53 | the standard window's start is before its end, and the end is at most four days after today |
| Payment.Digits | components/PaymentGateway.tsx:78 | `replace(/\D/g, '')` keeps only digits and never lengthens the input |
| Payment.FormatCardNumber | components/PaymentGateway.tsx:77-81 | the formatted number is at most 19 characters |
| Payment.Grouped | components/PaymentGateway.tsx:79 | groups of at most four characters joined by single spaces; its properties are `Payment.GroupedLength`, `Payment.GroupedAt` and `Payment.DigitsOfGrouped` |
| Payment.GroupedLength | components/PaymentGateway.tsx:79 | grouping n digits in fours gives n + (n - 1) / 4 characters |
| Payment.GroupedAt | components/PaymentGateway.tsx:79 | in the grouped text, every fifth position is a space and every other position holds the matching digit |
| Payment.DigitsOfGrouped | components/PaymentGateway.tsx:79 | removing the spaces from grouped digits gives the digits back |
| Payment.DigitsSkipSpace | components/PaymentGateway.tsx:79 | the space between two groups contributes no digit |
| Payment.GroupedPrefix | components/PaymentGateway.tsx:79-80 | grouping the first k full groups of digits gives a prefix of the grouped text |
| Payment.FormatIsGroupedPrefix | components/PaymentGateway.tsx:78-80 | cutting the grouped text at 19 characters equals grouping the first 16 digits |
| Payment.CardNumberShape | components/PaymentGateway.tsx:77-81 | the output holds only digits and spaces; a space sits exactly at every fifth position; the output never ends with a space |
| Payment.CardNumberDigits | components/PaymentGateway.tsx:77-81 | removing the spaces from the output gives the first (up to 16) digits of the input |
| Payment.CardNumberNonEmpty | components/PaymentGateway.tsx:77-81 | an input that starts with a digit leaves the card-number field non-empty |
| Payment.CardNumberIdempotent | components/PaymentGateway.tsx:77-81 | formatting an already formatted number changes nothing |
| Payment.PaymentForm.constructor | components/PaymentGateway.tsx:11-18 | the form starts with standard delivery, the four inputs empty, and processing off |
| Payment.PaymentForm.Total | components/PaymentGateway.tsx:22-23 | the total shown is the subtotal plus the selected method's cost, so never below the subtotal |
| Payment.PaymentForm.Filled | components/PaymentGateway.tsx:196-235 | the form can be submitted only when none of the four `required` inputs is empty |
| Payment.PaymentForm.SelectDelivery | components/PaymentGateway.tsx:127-158 | the delivery method is set, even while a payment is processing; the inputs, the processing flag and the captured total do not change |
| Payment.PaymentForm.ChangeName | components/PaymentGateway.tsx:193-200 | the name input holds the typed text; nothing else changes |
| Payment.PaymentForm.ChangeCardNumber | components/PaymentGateway.tsx:77-81 | the field holds the formatted text; nothing else changes |
| Payment.PaymentForm.ChangeExpiry | components/PaymentGateway.tsx:219-227 | the expiry input holds the typed text cut at its `maxLength` of five; nothing else changes |
| Payment.PaymentForm.ChangeCvv | components/PaymentGateway.tsx:231-239 | the CVV input holds the typed text cut at its `maxLength` of three; nothing else changes |
| Payment.PaymentForm.Submit | components/PaymentGateway.tsx:66-74 | a payment starts exactly when none is processing and every required input is filled; it then captures the total shown at submission; otherwise nothing changes, as the browser refuses the form or the button is disabled |
| Payment.PaymentForm.Complete | components/PaymentGateway.tsx:71-74 | processing ends, and the amount handed to `onSuccess` is the total captured at submission |
| Payment.ChargedTotalCanDifferFromShown | components/PaymentGateway.tsx:66-74 | filling the form, submitting £50.00 with standard delivery and switching to platinum before completion hands on £54.99 while the page shows £58.99 |
| QuickSearch.LowerChar | components/Header.tsx:56-57 | `toLowerCase` on one character, mapping the ASCII capitals to lower case; `QuickSearch.LowerKeepsWhitespace` is stated about it |
| QuickSearch.ToLower | components/Header.tsx:56-57 | lower-casing keeps the length and maps each character |
| QuickSearch.TrimStart | components/Header.tsx:54 | what is removed is a run of leading white space, and what is left does not start with white space |
| QuickSearch.TrimEnd | components/Header.tsx:54 | what is removed is a run of trailing white space, and what is left does not end with white space |
| QuickSearch.Trim | components/Header.tsx:54 | `trim()`: the result is no longer than the input and neither starts nor ends with white space |
| QuickSearch.TrimDropsOnlyWhitespace | components/Header.tsx:54 | the trimmed query is a slice of the query, and everything before and after that slice is white space |
| QuickSearch.Utf16Length | components/Header.tsx:54 | `length` counts UTF-16 code units: between one and two per character, exactly one per character of the Basic Multilingual Plane |
| QuickSearch.ToLowerKeepsUtf16Length | components/Header.tsx:54-57 | lower-casing keeps the UTF-16 length |
| QuickSearch.Includes | components/Header.tsx:56-57 | `includes`: the needle occurs at some position of the haystack |
| QuickSearch.MatchesQuery | components/Header.tsx:55-58 | a product matches when its lower-cased name or category contains the lower-cased query; `QuickSearch.SameLoweredQuery` is stated about it |
| QuickSearch.Matching | components/Header.tsx:55-58 | every product the filter keeps matches the query |
| QuickSearch.Search | components/Header.tsx:53-65 | the dropdown shows exactly when the trimmed query is longer than one UTF-16 code unit, and is empty when hidden; results never exceed 5; each matches the untrimmed query in name or category; they are the first min(5, matches) matches |
| QuickSearch.SearchKeepsCatalogOrder | components/Header.tsx:55-58 | results are catalogue products, in catalogue order |
| QuickSearch.LowerKeepsWhitespace | components/Header.tsx:54-57 | lower-casing a character never changes whether it is white space |
| QuickSearch.TrimStartCommutesWithLower | components/Header.tsx:54-57 | removing leading white space and lower-casing can be done in either order |
| QuickSearch.TrimEndCommutesWithLower | components/Header.tsx:54-57 | removing trailing white space and lower-casing can be done in either order |
| QuickSearch.TrimCommutesWithLower | components/Header.tsx:54-57 | `trim` and lower-casing can be done in either order |
| QuickSearch.SameLoweredQuery | components/Header.tsx:55-57 | whether a product matches depends on the query only through its lower-cased form |
| QuickSearch.SearchIgnoresCase | components/Header.tsx:53-65 | two queries with the same lower-cased form give the same results and the same dropdown state |
| Recommendations.IsRelated | components/ProductDetail.tsx:23 | a product is related when it shares the category and has a different id |
| Recommendations.Candidates | components/ProductDetail.tsx:23 | the catalogue products related to the one shown, in catalogue order; `Recommendations.RelatedProducts` and `Recommendations.ShowRelatedIff` are stated about them |
| Recommendations.RelatedProducts | components/ProductDetail.tsx:23 | at most three products; each shares the category and has a different id; each is in the catalogue; they are the first min(3, candidates) candidates |
| Recommendations.ShowRelatedIff | components/ProductDetail.tsx:164 | the section renders exactly when some other catalogue product shares the category |
| Recommendations.RelatedKeepsCatalogOrder | components/ProductDetail.tsx:23 | related products appear in catalogue order |
| Session.WithoutId | App.tsx:213-215 | no entry with the id is left; every other entry is kept; the list shrinks exactly when the id was present |
| Session.WithoutIdKeepsOrder | App.tsx:213-215 | the remaining entries keep their order, and each keeps its multiplicity |
| Session.WithoutIdKeepsUnique | App.tsx:213-215 | removal keeps ids unique |
| Session.TrackProductView | App.tsx:153-160 | the list starts with the product, and no later entry has its id; it holds 1 to 5 entries; the rest are the other previous entries, in order, cut to fit |
| Session.TrackProductViewKeepsOrder | App.tsx:155-156 | the other entries keep their previous relative order |
| Session.TrackProductViewKeepsUnique | App.tsx:153-160 | the list stays free of duplicate ids |
| Session.TrackProductViewIdempotent | App.tsx:153-160 | viewing the same product twice in a row is the same as viewing it once |
| Session.ToggleWishlist | App.tsx:162-176 | membership of the id flips; an absent product is appended at the end; a present one is removed; no other product's membership changes |
| Session.ToggleWishlistTwiceRestores | App.tsx:162-176 | toggling an absent product twice restores the list |
| Session.ToggleWishlistTwiceMovesToEnd | App.tsx:162-176 | toggling a present product twice moves it to the end |
| Session.ToggleWishlistKeepsUnique | App.tsx:162-176 | the wishlist stays free of duplicate ids |
| Session.CompareRejects | App.tsx:205-207 | a product is refused exactly when it is absent and three products are already listed; `Session.ToggleCompare` and `Store.Storefront.ToggleCompare` are stated with it |
| Session.ToggleCompare | App.tsx:199-211 | a list of at most three stays at most three; a present product is removed; an absent one is appended only when fewer than three are listed; otherwise the list is returned unchanged; the product is listed afterwards exactly when it was absent and there was room |
| Session.ToggleCompareKeepsUnique | App.tsx:199-211 | the comparison list stays free of duplicate ids |
| Session.AddToCart | App.tsx:178-187 | the id is in the basket afterwards. On an existing id, the length and every product are unchanged; the matching line's quantity rises by `quantity`, and every other line is unchanged. On a new id, one line with that quantity is appended |
| Session.AddToCartKeepsUnique | App.tsx:178-187 | basket ids stay unique |
| Session.SubtotalChangeAt | App.tsx:289 | changing one line changes the subtotal by the difference of that line's totals |
| Session.AddToCartSubtotal | App.tsx:178-187 | adding `quantity` of a product raises the subtotal by `price * quantity` |
| Session.AddToCartExistingSubtotal | App.tsx:181-183 | the same, for a product already in the basket |
| Session.ItemCount | App.tsx:310 | the header badge sums the quantities of the basket lines; its properties are the three lemmas below |
| Session.ItemCountAppend | App.tsx:310 | the header badge of two concatenated baskets is the sum of their badges |
| Session.ItemCountChangeAt | App.tsx:310 | changing one line changes the badge by the difference of that line's quantities |
| Session.AddToCartItemCount | App.tsx:310 | adding `quantity` of a product raises the header badge by `quantity` |
| Session.UpdateQuantity | App.tsx:235-243 | the length and every product are unchanged; the matching lines get max(1, q + delta), so at least 1; every other line is unchanged |
| Session.UpdateQuantityRoundTrip | App.tsx:235-243 | `+` then `-` on a line restores the basket |
| Session.UpdateQuantityFloor | App.tsx:238 | `-` on a line of quantity 1 changes nothing |
| Session.RemoveFromCart | App.tsx:245-248 | no line with the id is left; every other line is kept |
| Session.RemoveFromCartKeepsOrder | App.tsx:245-248 | the remaining lines keep their order and their multiplicities, and ids stay unique |
| Session.OrderItems | App.tsx:251 | the items of an order: the direct-buy line alone if one is set, otherwise the basket; `Session.CheckoutSuccess` is stated with it |
| Session.CheckoutSubtotal | App.tsx:501 | the payment page is given the subtotal of what is ordered: the direct-buy line if set, otherwise the basket |
| Session.CheckoutSuccess | App.tsx:250-270 | exactly one order is appended, with status Processing and the final total. Its items are the direct-buy line if one is set, otherwise the basket. Afterwards the direct-buy line is cleared and the basket kept, or the basket is emptied |
| Session.FindById | App.tsx:127 | `find` succeeds exactly when some product has the id, and returns a catalogue product with that id |
| Session.FindByIdFirst | App.tsx:127 | `find` returns the first product with the id |
| Session.Rehydrate | App.tsx:122-139 | the loaded list's ids are the stored ids the catalogue knows, in stored order; unknown ids are dropped |
| Session.RehydrateRoundTrip | App.tsx:122-139 | saving a list of catalogue products as ids and loading them back gives the list back, when catalogue ids are unique |
| Session.MatchesFilters | App.tsx:297-302 | the three conditions of the shop filter: category (`'All'` matches any), inclusive price range, minimum rating; `Session.FilteredProducts` is stated with it |
| Session.FilteredProducts | App.tsx:297-302 | a product is listed exactly when its category matches (`'All'` matches every one), its price lies in the inclusive range, and its rating is at least the minimum |
| Session.FilteredProductsKeepOrder | App.tsx:297-302 | the shop lists products in catalogue order, each as often as the catalogue holds it |
| Session.DefaultFiltersShowCatalog | App.tsx:281-286 | after `clearFilters` the shop lists the whole catalogue |
| Session.PricesAndRatingsInRange | constants.tsx:20-160 | every catalogue price lies in [£0, £2000] and every rating is non-negative |
| Session.CategoryNames | App.tsx:290 | `PRODUCTS.map(p => p.category)`, position by position |
| Session.CategoryList | App.tsx:290 | the list starts with `'All'`; the rest hold each category name present in the catalogue exactly once |
| Session.CategoryListKeepsOrder | App.tsx:290 | the categories after `'All'` appear in catalogue order, and in order of first appearance: a category listed before another first occurs in the catalogue before any occurrence of the other |
| Session.CategoryCount | App.tsx:292-295 | the number of catalogue products in a category; `Session.CategoryCountStep` and `Session.CategoryCountIsFilterLength` are stated about it |
| Session.CategoryCountStep | App.tsx:292-295 | one more product raises its category's count by one and no other count |
| Session.CategoryCountIsFilterLength | App.tsx:292-295 | a category's count is the number of products a filter on that category keeps |
| Session.ProductCounts | App.tsx:292-295 | the resulting map has a key exactly for each category present, holding that category's count, which is at least 1 |
| Store.Storefront.constructor | App.tsx:107-120 | the initial state: Home view, empty lists, default filters, no direct-buy line |
| Store.Storefront.Load | App.tsx:122-147 | each stored entry that is present replaces its list: the id lists are reloaded against the catalogue, and the orders are taken as stored; nothing else changes |
| Store.Storefront.ChangeView | App.tsx:194-197 | only the view changes |
| Store.Storefront.TrackProductView | App.tsx:153-160 | the list is `Session.TrackProductView` of the old one, and its ids are saved |
| Store.Storefront.ToggleWishlist | App.tsx:162-176 | the wishlist is toggled and its ids saved, with the "Removed" or "Added" notice as the product was present or not |
| Store.Storefront.AddToCart | App.tsx:178-187 | the basket is `Session.AddToCart` of the old one, with the "Added … to Basket" notice |
| Store.Storefront.BuyNow | App.tsx:189-192 | the direct-buy line is set and the checkout opens; the basket is untouched |
| Store.Storefront.ToggleCompare | App.tsx:199-211 | the list is `Session.ToggleCompare` of the old one; the "Max 3" notice shows exactly when the product is refused, and the list is then unchanged |
| Store.Storefront.RemoveFromCompare | App.tsx:213-215 | no product with the id is left in the comparison list |
| Store.Storefront.ViewProductDetails | App.tsx:217-221 | the view is recorded, the product selected and its page opened |
| Store.Storefront.QuickView | App.tsx:223-226 | the view is recorded and the quick-view product set |
| Store.Storefront.SelectCategory | App.tsx:228-233 | the active category is set and the shop opens |
| Store.Storefront.UpdateQuantity | App.tsx:235-243 | the basket is `Session.UpdateQuantity` of the old one |
| Store.Storefront.RemoveFromCart | App.tsx:245-248 | the basket is `Session.RemoveFromCart` of the old one, with the "Item removed" notice |
| Store.Storefront.CheckoutSubtotal | App.tsx:501 | the subtotal of the direct-buy line if set, otherwise of the basket |
| Store.Storefront.CheckoutSlots | App.tsx:250-270 | the basket, direct-buy line and orders the success handler of the current render reads |
| Store.Storefront.CheckoutSuccess | App.tsx:250-270 | the handler as the payment callback runs it, with the slots captured at submission: the order built from them is appended to the captured orders and saved; the direct-buy line is cleared if one was captured, otherwise the basket is emptied; the success page opens; when nothing changed since submission this is `Session.CheckoutSuccess` |
| Store.CancelledPaymentStillOrders | App.tsx:250-279 | a direct purchase submitted and then cancelled is still ordered when the callback runs: the success page opens, the order holds the direct-buy line, and the basket is kept |
| Store.Storefront.CancelCheckout | App.tsx:272-279 | a direct purchase is dropped and the shop opens; otherwise the basket page opens |
| Store.Storefront.ClearFilters | App.tsx:281-287 | the filters return to `'All'`, [£0, £2000] and no minimum rating |
| Store.Storefront.ClearCompare | App.tsx:609 | the comparison bar's "clear" empties the comparison list; nothing else changes |
| Store.Storefront.CloseQuickView | App.tsx:614 | closing the quick-view dialog clears the quick-view product; nothing else changes |
| Store.Storefront.DismissToast | App.tsx:620 | the notice's `onClose`, which its three-second timer calls, clears the notice; nothing else changes |
| Store.Storefront.ShopProducts | App.tsx:297-302 | a product is listed exactly when it is in the catalogue and passes the current filters |

## Left out

- The chat assistant and its remote model call (components/ChatBot.tsx, services/geminiService.ts) are not modelled. They are network I/O to a foreign API.
- JSON encoding is not modelled. A localStorage entry is absent or holds its decoded value. A parse failure, which the source catches and ignores, is treated like an absent entry.
- `window.scrollTo`, the structured-data script and other DOM effects are not modelled.
- Timers are not modelled as time: the notice's three-second dismissal is `Store.Storefront.DismissToast`, and the 2.5 s simulated payment delay is the gap between `Payment.PaymentForm.Submit`, where the callback captures the total, and `Payment.PaymentForm.Complete`, where it runs. The callback is never cleared, so "Back to Basket" or the header's navigation during the delay does not stop it; `Store.Storefront.CheckoutSuccess` takes the slots captured at submission, and `Store.CancelledPaymentStillOrders` shows an order placed after a cancel. The link between the two classes (which form's `Complete` feeds which storefront) is not a field. The loading spinners are left out, and the loading flag `isProductsLoading` is not a field.
- The random order id (`Math.random`) and the locale-formatted date are not computed. `Store.Storefront.CheckoutSuccess` takes both as parameters. The formatted delivery-date strings are likewise left out: `EstimateDelivery` returns day numbers.
- The current time is an input to `Payment.EstimateDelivery`, given as a day number and an hour.
- JavaScript floating-point money, `toFixed` rounding and VAT display are not modelled. All amounts are integer pence, and the progress bar is an exact real.
- Display-only product fields (description, image, specifications, reviews) are not modelled, and neither are the pages and components that only render markup.
- The WhatsApp link is not modelled. It is built with `encodeURIComponent`, which is not part of this model.
- The payment inputs are checked only as `required` (non-empty), as the browser does. Their `placeholder` formats (MM/YY, three digits) are hints the browser does not enforce, and the model does not either.
- QuickSearch.LowerChar and QuickSearch.ToLower: only ASCII letters are lower-cased, so QuickSearch.MatchesQuery compares non-ASCII letters case-sensitively. JavaScript's `toLowerCase` also maps non-ASCII letters, and can change the length (it maps "İ" to "i" followed by a combining dot).
- QuickSearch.SearchIgnoresCase: it holds for this ASCII-only lower-casing. With JavaScript's full `toLowerCase` it fails: "İ" and "i\u0307" lower-case to the same text, but their trimmed lengths are 1 and 2, so only the second opens the dropdown.
- QuickSearch.Search: strings are sequences of Unicode characters. A string holding an unpaired UTF-16 surrogate cannot be written, so `includes` is matched per character.
- Session.ToggleCompare: the cap of three is stated for lists that already hold at most three. A longer list cannot arise from the handlers.
- Store.Storefront.Load: it does not promise `Valid()`. Stored id lists are taken as they are, so a stored list with repeated ids or more than five entries is loaded as it is, exactly as the source does.
- Session.ProductCounts: it keys its map by `Catalog.Category`, standing for each category's display name, rather than by the name string.
- The application of the `setPriceRange` and `setMinRating` setters by the filter sidebar is not modelled separately. Only `clearFilters` and `selectCategory` change `Store.Storefront.filters`.
