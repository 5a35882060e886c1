# Storefront logic in Dafny

This project models the ordinary logic of a small storefront front end: the
cart page, the three-step checkout wizard, the product catalog's filter, the
admin product screen's pagination and form state, and the request middleware
that guards the admin area. Markup, styling and the SDKs the screens call are
not part of the model.

Modules:

- `Pricing` (`pricing.dfy`): line items and order totals. The subtotal is the
  sum of price × quantity, folded from the left like `reduce`. Shipping is a
  flat 10, tax is 10% of the subtotal, and the total is their sum. The cart and
  the checkout share it.
- `Cart` (`cart.dfy`): the cart page. The `cartItems` state is the class
  `ShoppingCart` with a `seq<LineItem>` field. `UpdateQuantity` and `RemoveItem`
  reassign it. Each is specified by a pure function (`AfterUpdateQuantity`,
  `WithoutId`) with its own lemmas. Row buttons ("-", "+", trash) are modelled as
  `Click`s, and any click sequence keeps every quantity at least 1.
- `Checkout` (`checkout.dfy`): the wizard. The class `CheckoutFlow` holds `step`,
  `loading` and `paymentError`. Its methods are the page's handlers. The pure
  `Transition`/`Run` pair states what a whole sequence of events does. The
  shipping schema is an explicit error-list function.
- `Catalog` (`catalog.dfy`): the product listing's filter. It is a conjunction
  of four predicates applied by an order-preserving filter. It keeps the
  JavaScript truthiness of `!selectedPriceRange`: bucket index 0 ("Under $50")
  filters nothing.
- `AdminProducts` (`admin_products.dfy`):
  - ten-per-page pagination with JavaScript `slice` semantics, including
    negative bounds;
  - the Previous/Next clamps and the "Showing a to b of n" line;
  - the product schema;
  - the class `AdminProductsPage` for the modal, editing, submitting and
    deleting state.
- `RouteGuard` (`route_guard.dfy`): the middleware's decision over cookie
  presence and path, and the matcher `/admin/:path*`.
- Helpers: `Wrappers` (Option), `JsMath` (`Math.min`, `Math.max`, `Math.ceil` of
  a quotient), `Seqs` (`filter` and the subsequence relation), `Forms` (field
  errors).

Modelling choices:

- Money is an exact `real`, not an IEEE double.
- Whether a string is an email address is decided by a function parameter
  `isEmail`, which stands for the schema library's check.
- `toLowerCase` is ASCII lower-casing.
- Callbacks whose bodies could raise take a boolean input that says whether they
  did: `threw` for the payment-complete handler and `apiFailed` for the admin
  save and delete calls. The answer to the delete confirmation prompt is the
  boolean `confirmed`.

Behaviour of the code that is easy to miss:

- The payment-complete handler only logs the payment method and sets step 3.
- Price buckets are inclusive at both ends, so a boundary price such as 100 lies
  in two buckets. Bucket 0 applies no price constraint at all.
- The admin screen's Next button is enabled on an empty list, because page 1 is
  not page 0. It moves to page 0, and the label reads "Showing -9 to 0 of 0"
  (`AdminProducts.EmptyListNextGoesToPageZero`).

## Model

| member | source | states |
|---|---|---|
| Pricing.ComputeTotals | app/cart/page.tsx:44-47 | shipping is 10; total = subtotal + shipping + tax = 10 + 1.1 × subtotal; with non-negative prices and quantities, tax ≥ 0 and total ≥ 10 + subtotal |
| Pricing.Subtotal | app/cart/page.tsx:44 | a left fold of price × quantity; lines that all have quantity 0 give subtotal 0 |
| Pricing.SubtotalAppend | app/cart/page.tsx:44 | the subtotal of a concatenation is the sum of the subtotals, so the fold order does not matter |
| Pricing.SubtotalNonNegative | app/cart/page.tsx:44 | non-negative prices and quantities give a non-negative subtotal |
| Pricing.SubtotalPartition | app/cart/page.tsx:44 | the subtotal is the sum of the subtotals of the lines a predicate keeps and of those it drops |
| Cart.SetQuantity | app/cart/page.tsx:33-37 | same length and order; every line with the id has quantity q and its other fields unchanged; every other line is unchanged |
| Cart.AfterUpdateQuantity | app/cart/page.tsx:31-38 | a quantity below 1 leaves the list exactly as it was; otherwise the map of SetQuantity; positivity of all quantities is preserved |
| Cart.WithoutId | app/cart/page.tsx:40-42 | the result holds exactly the lines whose id differs, as a subsequence of the input (original order) |
| Cart.UpdateAbsentIdUnchanged | app/cart/page.tsx:33-37 | updating an id no line has leaves the list unchanged |
| Cart.RemoveAbsentIdUnchanged | app/cart/page.tsx:41 | removing an id no line has leaves the list unchanged |
| Cart.RemoveIdempotent | app/cart/page.tsx:41 | removing twice equals removing once |
| Cart.SubtotalAfterRemove | app/cart/page.tsx:41-44 | removal lowers the subtotal by exactly the amount of the removed lines |
| Cart.SubtotalReplace | app/cart/page.tsx:44 | replacing one line moves the subtotal by the difference of the two line amounts |
| Cart.SetQuantityAtUniqueId | app/cart/page.tsx:33-37 | with a unique id, the map replaces that one line only |
| Cart.SubtotalAfterQuantityChange | app/cart/page.tsx:44 | changing one line's quantity moves the subtotal by price × (new − old) |
| Cart.SubtotalAfterUpdate | app/cart/page.tsx:31-44 | an accepted update of a unique id moves the subtotal by price × (new − old quantity) |
| Cart.AfterClick | app/cart/page.tsx:89-103 | a "-", "+" or trash click keeps every quantity ≥ 1 when all were ≥ 1 |
| Cart.ClicksKeepQuantitiesPositive | app/cart/page.tsx:89-96 | from quantities all ≥ 1, any sequence of clicks keeps them all ≥ 1 |
| Cart.AfterClicks | app/cart/page.tsx:89-103 | a sequence of clicks never lengthens the list |
| Cart.ShoppingCart.constructor | app/cart/page.tsx:28 | the cart starts with the given lines |
| Cart.ShoppingCart.UpdateQuantity | app/cart/page.tsx:31-38 | the new list is AfterUpdateQuantity of the old one; positivity is preserved |
| Cart.ShoppingCart.RemoveItem | app/cart/page.tsx:40-42 | the new list is WithoutId of the old one |
| Cart.ShoppingCart.Decrement | app/cart/page.tsx:89 | "-" asks for the displayed quantity minus one |
| Cart.ShoppingCart.Increment | app/cart/page.tsx:96 | "+" asks for the displayed quantity plus one |
| Cart.ShoppingCart.Remove | app/cart/page.tsx:103 | the trash button removes the row's id |
| Cart.ShoppingCart.Totals | app/cart/page.tsx:44-47 | the summary's subtotal is that of the current lines and total ≥ 10 for non-negative lines |
| Checkout.ShippingErrors | app/checkout/page.tsx:13-23 | no errors iff name ≥ 2, email valid, street ≥ 5, city, state, country ≥ 2 and zip ≥ 5; a short zip yields the ZIP message |
| Checkout.ShippingValid | app/checkout/page.tsx:13-23 | the schema's acceptance: a valid form has non-empty name, street and zip |
| Checkout.NextStep | app/checkout/page.tsx:70-72 | from a step in 1..3 the result is in 1..3, one more or equal, equal only at step 3 |
| Checkout.PreviousStep | app/checkout/page.tsx:74-76 | from a step in 1..3 the result is in 1..3, one less or equal, equal only at step 1 |
| Checkout.PaymentErrorText | app/checkout/page.tsx:95-98 | the error's message when non-empty, else "Payment failed. Please try again."; never empty |
| Checkout.AfterValidSubmit | app/checkout/page.tsx:100-111 | below step 3 the step advances by exactly one and nothing else changes; at step 3 nothing changes |
| Checkout.Transition | app/checkout/page.tsx:70-111 | keeps the step in 1..3; an invalid form changes nothing; a payment error keeps the step; payment complete leaves loading false and, when it did not raise, step 3 |
| Checkout.RunKeepsStepInRange | app/checkout/page.tsx:44-111 | from a step in 1..3, any sequence of events keeps the step in 1..3 |
| Checkout.Run | app/checkout/page.tsx:44-111 | a run of payment-error events only never changes the step |
| Checkout.ShortZipRefused | app/checkout/page.tsx:20 | zip "1234" is reported with the ZIP message and the submit leaves the state unchanged |
| Checkout.CheckoutFlow.constructor | app/checkout/page.tsx:44-46 | step 1, not loading, no payment error |
| Checkout.CheckoutFlow.HandleNext | app/checkout/page.tsx:70-72 | step := NextStep(step); nothing else changes |
| Checkout.CheckoutFlow.HandleBack | app/checkout/page.tsx:74-76 | step := PreviousStep(step); nothing else changes |
| Checkout.CheckoutFlow.HandlePaymentComplete | app/checkout/page.tsx:78-93 | step 3 on success, the fallback message if the body raised; loading is false afterwards |
| Checkout.CheckoutFlow.HandlePaymentError | app/checkout/page.tsx:95-98 | stores PaymentErrorText of the message; step and loading unchanged |
| Checkout.CheckoutFlow.OnSubmit | app/checkout/page.tsx:100-111 | the state becomes AfterValidSubmit of the old state |
| Checkout.CheckoutFlow.Submit | app/checkout/page.tsx:100-111 | returns the schema's errors and changes the state exactly as Transition on a submit |
| Checkout.CheckoutFlow.Totals | app/checkout/page.tsx:62-68 | the cart's formula: total = subtotal + 10 + tax, total ≥ 10 for non-negative lines |
| Catalog.FilteredProducts | app/products/page.tsx:42-51 | a product is listed iff it is in the catalog and all four predicates hold; the listing is a subsequence of the catalog |
| Catalog.FilteredCount | app/products/page.tsx:42 | a matching product occurs as often as in the catalog, a non-matching one never |
| Catalog.IncludesIff | app/products/page.tsx:43 | `includes` holds iff the needle occurs at some position |
| Catalog.ToLower | app/products/page.tsx:43 | same length; no ASCII capital is left; every other character is kept |
| Catalog.Includes | app/products/page.tsx:43 | the empty needle is always included; a needle longer than the haystack never is |
| Catalog.MatchesSearch | app/products/page.tsx:43 | the empty query matches; a query longer than the name does not |
| Catalog.MatchesCategory | app/products/page.tsx:44 | "All" matches; any other selection iff the product's category equals it |
| Catalog.MatchesPriceRange | app/products/page.tsx:45-47 | no selection or index 0 matches (the `!selectedPriceRange` test); an index 1..4 iff the price is in that bucket |
| Catalog.MatchesRating | app/products/page.tsx:48 | no selection or 0 matches; a choice r iff rating ≥ r |
| Catalog.Matches | app/products/page.tsx:43-50 | the default criteria match every product; a match passes search and category |
| Catalog.OfferedCategoryFilters | app/products/page.tsx:27-44 | the first offered category is "All"; any other offered category filters by exact equality |
| Catalog.SearchIsSubstring | app/products/page.tsx:43 | the search holds iff lowercase(query) occurs in lowercase(name) |
| Catalog.EmptySearchMatchesAll | app/products/page.tsx:43 | the empty query matches every product |
| Catalog.NoFilterShowsAll | app/products/page.tsx:37-51 | with "", "All", no bucket and no rating the listing equals the catalog |
| Catalog.WatchFindsBothWatches | app/products/page.tsx:43 | "watch" matches "Watch" and "Digital Watch" |
| Catalog.CategorySelection | app/products/page.tsx:44 | "All" matches everything, any other category needs exact equality |
| Catalog.FirstBucketFiltersNothing | app/products/page.tsx:45 | bucket index 0 lets every price through, even above 50 |
| Catalog.BucketBounds | app/products/page.tsx:28-47 | buckets 1..3 require min ≤ price ≤ max inclusive; bucket 4 requires price ≥ 500 |
| Catalog.BoundaryInTwoBuckets | app/products/page.tsx:29-33 | price 100 lies in both "$50 - $100" and "$100 - $200" |
| Catalog.RatingChoiceFilters | app/products/page.tsx:48 | for an offered choice (4, 3, 2, 1) the rating filter is rating ≥ choice |
| AdminProducts.ProductErrors | app/admin/products/page.tsx:16-21 | no errors iff name ≥ 2, price ≥ 0, category ≥ 2, stock ≥ 0; the price message appears iff price < 0 |
| AdminProducts.ProductValid | app/admin/products/page.tsx:16-21 | the schema's acceptance: a valid form has a non-empty name and category |
| AdminProducts.ZeroPriceAccepted | app/admin/products/page.tsx:18 | price 0 passes the schema |
| AdminProducts.EmptyFormRefused | app/admin/products/page.tsx:109-116 | the add-new defaults fail on name and category only |
| AdminProducts.TotalPages | app/admin/products/page.tsx:76 | the least r with 10r ≥ n, which is 0 exactly for no products |
| AdminProducts.StartIndex | app/admin/products/page.tsx:77 | a multiple of 10, non-negative from page 1 |
| AdminProducts.EndIndex | app/admin/products/page.tsx:78 | exactly 10 past the start, and equal to the next page's start |
| AdminProducts.SliceBound | app/admin/products/page.tsx:79 | slice bounds are clamped into 0..n; a non-negative bound is min(k, n) |
| AdminProducts.Slice | app/admin/products/page.tsx:79 | a non-negative in-range start gives s[start..min(end, n)]; a start past the end gives [] |
| AdminProducts.CurrentProducts | app/admin/products/page.tsx:77-79 | for 1 ≤ p ≤ totalPages the page is the slice [(p−1)·10, min(p·10, n)) with 1 to 10 items; page 0 or past the end is empty |
| AdminProducts.PagesUpToPrefix | app/admin/products/page.tsx:291 | pages 1..k together are the first min(10k, n) products |
| AdminProducts.AllPagesCoverList | app/admin/products/page.tsx:76-79 | pages 1..totalPages concatenated are the whole list |
| AdminProducts.Showing | app/admin/products/page.tsx:277-279 | from = start + 1, and from..to counts exactly the products shown, to ≤ n |
| AdminProducts.PreviousPage | app/admin/products/page.tsx:260 | never below page 1; one page back from above page 1, page 1 otherwise |
| AdminProducts.NextPage | app/admin/products/page.tsx:267 | never beyond totalPages; one page on below the last page, totalPages otherwise (0 for an empty list) |
| AdminProducts.NavigationKeepsPageInRange | app/admin/products/page.tsx:260-305 | Previous, Next and page buttons keep the page within range |
| AdminProducts.DisabledButtonsAreNoOps | app/admin/products/page.tsx:261-268 | the disabled Previous (page 1) and Next (last page) would change nothing |
| AdminProducts.EmptyListNextGoesToPageZero | app/admin/products/page.tsx:267-279 | on an empty list Next goes to page 0, which shows nothing and "Showing -9 to 0 of 0" |
| AdminProducts.AdminProductsPage.constructor | app/admin/products/page.tsx:52-73 | page 1, modal closed, nothing edited, not busy, no error, empty form |
| AdminProducts.AdminProductsPage.Visible | app/admin/products/page.tsx:79 | a non-empty list shows 1 to 10 products on a valid page |
| AdminProducts.AdminProductsPage.Previous | app/admin/products/page.tsx:285 | page := PreviousPage(page), page stays in range, nothing else changes |
| AdminProducts.AdminProductsPage.Next | app/admin/products/page.tsx:305 | page := NextPage(page, totalPages), page stays in range, nothing else changes |
| AdminProducts.AdminProductsPage.GoToPage | app/admin/products/page.tsx:294 | page := the button's number |
| AdminProducts.AdminProductsPage.HandleEdit | app/admin/products/page.tsx:81-86 | editing p, form reset to p's values, modal open, error cleared |
| AdminProducts.AdminProductsPage.HandleAddNew | app/admin/products/page.tsx:109-119 | nothing edited, empty form, modal open, error cleared |
| AdminProducts.AdminProductsPage.HandleDelete | app/admin/products/page.tsx:88-107 | declined: nothing changes; confirmed: not deleting afterwards, error only when the call failed |
| AdminProducts.AdminProductsPage.OnSubmit | app/admin/products/page.tsx:121-143 | not submitting afterwards; success closes the modal and clears the error; failure keeps it open with the save message |
| AdminProducts.AdminProductsPage.Submit | app/admin/products/page.tsx:121-143 | returns the schema's errors; with errors nothing changes, otherwise OnSubmit's outcome |
| AdminProducts.AdminProductsPage.CloseModal | app/admin/products/page.tsx:412 | the modal is closed |
| RouteGuard.Middleware | middleware.ts:4-21 | redirect to /admin/login iff an /admin path, no cookie, not login or signup; redirect to /admin iff login page with cookie; otherwise pass through |
| RouteGuard.Guard | middleware.ts:23-25 | paths outside /admin pass through; under the matcher the middleware decides |
| RouteGuard.MatcherApplies | middleware.ts:23-25 | a path under the matcher starts with "/admin" |
| RouteGuard.LoginPageWithoutCookiePasses | middleware.ts:11-18 | the login page without a cookie passes, so it never redirects to itself |
| RouteGuard.SignupAlwaysPasses | middleware.ts:8-18 | /admin/signup passes with or without a cookie |
| RouteGuard.CookieValueIrrelevant | middleware.ts:5-16 | two present cookies with different values give the same decision |
| RouteGuard.NoRedirectLoop | middleware.ts:11-18 | the target of a redirect is passed through with the same cookie |
| RouteGuard.MatcherNarrowerThanPrefix | middleware.ts:6-25 | "/administrator" would be redirected by the prefix test but the matcher lets it through |

## Left out

- Markup, styling, `toFixed(2)` formatting, router navigation and `console.log`: presentation and logging only.
- Floating-point money: prices, tax and totals are exact reals, so rounding drift of doubles is not modelled.
- The cart lines' `image` URL: it is only rendered.
- The payment widget (its payment-intent request and card collection): only its two callbacks, complete and error, are modelled.
- Authentication and role lookup, the admin dashboard's mock statistics and charts, layout, theme switcher and navigation bar: no logic of their own that the modelled screens use.
- Static mock data: the initial cart, the checkout's cart and the admin and catalog product lists are inputs. The stock `status` is data, and no threshold rule is invented for it.
- Email syntax: the schema's email check is the parameter `isEmail`.
- Unicode case mapping: `toLowerCase` is ASCII lower-casing.
- String lengths: the model counts characters, where JavaScript's `length` counts UTF-16 code units. A one-character emoji such as "😀" has length 2 in JavaScript, so it passes the `min(2)` checks at app/checkout/page.tsx:14 and app/admin/products/page.tsx:17, but the model refuses it.
- The form library's parsing: a number field left empty (NaN) and the dynamic registration of fields are not modelled. A form is a record, and its schema is a function from the form to its field errors.
- Asynchrony: each handler runs to completion. The intermediate `loading`, `isSubmitting` and `isDeleting` values are only visible inside a call. The buttons these flags disable are not turned into preconditions.
- Simulated delays (`setTimeout`) and the confirmation dialog: the dialog's answer is the input `confirmed`.
- RouteGuard.Guard: the matcher `/admin/:path*` is approximated as "/admin" or any path starting with "/admin/". The segment syntax of the matcher library is not modelled.
- Catalog.FilteredProducts: a bucket index outside 0..4 is excluded by its precondition. The page only offers 0..4, and any other index would make the source raise a TypeError.
