# Storefront cart and checkout, modelled in Dafny

This project models the decision logic of a clothing storefront's web client:

- the shopping cart store (`CartProvider`): a list of cart lines keyed by product id and size, changed by `addItem`, `removeItem`, `updateQuantity` and `clearCart`, with the totals `totalItems` and `totalPrice`;
- the checkout page: form validation, shipping fee and final total, the order payload, and how the order service's reply is routed;
- the payment gateway's return page, which turns the `Id`/`id` and `Status`/`status` query parameters into one of three states;
- the product review form: validation, payload trimming, and the form state after the review service answers;
- list selection on the shop page (category filter and count label) and on the home page (up to four featured products).

Modules: `Wrappers` (an `Option`), `Types` (the product and cart-line records), `Lists` (`filter` and a summing `reduce`, with their facts), `Text` (JavaScript whitespace and `trim`), `CartLines` (the pure list operations and folds behind the cart), `CartStore` (the `Cart` class), `Checkout` (the checkout rules and the `CheckoutPage` class), `PaymentCallback`, `Reviews` (rules and the `ReviewForm` class), `Catalog` (filters and the `ShopPage` class).

The state cells the pages update in place are class fields changed by methods. The cart's `items`, the checkout form and `loading`, the review form's fields, and the shop page's lists and active category are modelled this way. The computations the source writes as expressions are functions with lemmas. These are `find`/`map`/`filter`/`reduce` on the cart, the regular-expression tests, the shipping rule, the callback's if/else chain and the list filters. The cart invariant is "at most one line per (product id, size), and every quantity positive". `Cart.Valid()` states it, and every cart method keeps it.

Calls to other services are inputs. The order service's reply to `createOrder` is an `OrderReply`, and the review service's reply is a `CreateReply`. Navigation (`router.push`, `window.location.href`) and `alert` come back as outcome values: `SubmitOutcome` and `ReviewOutcome`.

Three behaviours of the code are worth noting:

- A reply that carries a payment URL redirects WITHOUT clearing the cart (app/checkout/page.tsx:81-86). `Checkout.ClearsCart` states that the cart is cleared exactly on the way to the success page.
- The phone pattern accepts `+` anywhere, not only in front (app/checkout/page.tsx:49).
- The cart does not itself require a positive quantity in `addItem`. Every caller passes at least 1 (components/product-card.tsx:22 uses the default, and app/product/[id]/page.tsx:226 never lets the quantity drop below 1). `Cart.AddItem` therefore requires a positive quantity.

## Model

| member | source | states |
|---|---|---|
| Text.Trim | app/checkout/page.tsx:35-36 | `trim()` returns a contiguous slice of its input; everything cut off on either side is whitespace, and the result neither starts nor ends with whitespace |
| Text.BlankIffAllSpace | app/checkout/page.tsx:35-36 | a field is blank after trimming exactly when every character of it is whitespace |
| Text.TrimIdempotent | components/review-form.tsx:39-41 | trimming an already trimmed value changes nothing |
| CartLines.Added | context/cart-context.tsx:36-46 | after an add the key is present; the list grows by one line exactly when the key was absent, and otherwise keeps its length |
| CartLines.Removed | context/cart-context.tsx:50 | no line of the result has the removed key, and the result is no longer than the input |
| CartLines.Requantified | context/cart-context.tsx:59-61 | a quantity update keeps the length, every line's key and every line's product snapshot |
| CartLines.Find | context/cart-context.tsx:37 | `find` gives the first line with the same product id and size, or nothing when no line has that key |
| CartLines.AddedSpec | context/cart-context.tsx:37-45 | with unique keys, adding an existing key raises only that line's quantity by the added amount and keeps every other line, the line count and the stored product snapshot; adding a new key appends exactly one line `{product, size, quantity}` at the end |
| CartLines.AddedWellFormed | context/cart-context.tsx:35-46 | adding a positive quantity keeps at most one line per key and all quantities positive |
| CartLines.AddedTwice | context/cart-context.tsx:37-45 | two adds of the same key equal one add of the summed quantity, so repeated adds never create a duplicate line |
| CartLines.AddedTotals | context/cart-context.tsx:68-69 | after an add, `totalItems` rises by the quantity and `totalPrice` by the quantity times the price of the line that received it |
| CartLines.RemovedSpec | context/cart-context.tsx:49-51 | with unique keys, removal deletes exactly the matching line and keeps the rest in order, and it is a no-op when no line matches |
| CartLines.RemovedWellFormed | context/cart-context.tsx:49-51 | after removal no line has the key, and the invariant still holds |
| CartLines.RemovedTotals | context/cart-context.tsx:68-69 | after removal both totals drop by exactly the removed line's quantity and amount, or stay the same when nothing matched |
| CartLines.RequantifiedSpec | context/cart-context.tsx:59-61 | a positive quantity update replaces only the matching line's quantity and never appends, and it is a no-op when the key is absent |
| CartLines.RequantifiedWellFormed | context/cart-context.tsx:59-61 | a positive quantity update keeps the invariant |
| CartLines.TotalPriceNonNegative | context/cart-context.tsx:69 | with non-negative prices and quantities, `totalPrice` is never negative |
| CartLines.RequantifiedTotals | context/cart-context.tsx:68-69 | after a positive update the totals move by the change in that line's quantity (times its price) |
| CartLines.TotalItems | context/cart-context.tsx:68 | with positive quantities, `totalItems` is at least the number of lines, and it is zero exactly for an empty cart |
| CartStore.Cart.constructor | context/cart-context.tsx:20 | the store starts with no lines |
| CartStore.Cart.AddItem | context/cart-context.tsx:35-47 | the new list is the add of the old one (bump the existing line or append), the invariant is kept, and `totalItems` grows by the quantity |
| CartStore.Cart.RemoveItem | context/cart-context.tsx:49-51 | the new list is the old one without the matching line, in order; afterwards the key is absent and the invariant still holds |
| CartStore.Cart.UpdateQuantity | context/cart-context.tsx:53-62 | a quantity of zero or less has exactly the effect of `removeItem`; a positive one replaces only the matching line's quantity, or changes nothing when the key is absent |
| CartStore.Cart.ClearCart | context/cart-context.tsx:64-66 | the list is empty and both totals are zero |
| Checkout.EmptyForm | app/checkout/page.tsx:21-29 | the form starts with all six fields empty and payment method "paystack" |
| Checkout.WithInput | app/checkout/page.tsx:109-114 | a text input sets its own field and leaves every other field and the payment method alone; a payment-method radio sets only the payment method |
| Checkout.RequiredFilled | app/checkout/page.tsx:35-36 | when the required-fields check passes, none of the six fields is empty |
| Checkout.RequiredFilledIff | app/checkout/page.tsx:35-39 | the required-fields check passes exactly when each of the six fields has a non-whitespace character |
| Checkout.IsEmail | app/checkout/page.tsx:42-43 | an accepted email is at least as long as `a@b.c` |
| Checkout.EmailIffPattern | app/checkout/page.tsx:42-43 | the character-level email test accepts exactly the strings that are a non-empty run without whitespace or `@`, then `@`, then such a run, a `.`, and another such run |
| Checkout.EmailNotBlank | app/checkout/page.tsx:35-46 | an accepted email is never blank |
| Checkout.IsPhone | app/checkout/page.tsx:49-50 | an accepted phone is non-empty and contains no ASCII letter |
| Checkout.BlankPhonePassesPattern | app/checkout/page.tsx:35-53 | a phone of only spaces passes the phone pattern, so it is the required-fields check, run first, that rejects it |
| Checkout.Validate | app/checkout/page.tsx:35-53 | validation passes exactly when the required fields, the email pattern and the phone pattern all pass; otherwise the first failing check in the order required, email, phone names the error |
| Checkout.RejectsNotAnEmail | app/checkout/page.tsx:42-46 | a form whose only fault is the email "not-an-email" is rejected for its email |
| Checkout.ShippingFee | app/checkout/page.tsx:121 | shipping is free exactly when the subtotal is strictly above 50000 and is otherwise the flat 3000 |
| Checkout.FinalTotal | app/checkout/page.tsx:122 | the total is never below the subtotal, at most 3000 above it, and equal to it exactly when shipping is free |
| Checkout.ShippingExamples | app/checkout/page.tsx:121-122 | 50000 pays 3000 shipping; 60000 pays none and totals 60000; 20000 totals 23000 |
| Checkout.View | app/checkout/page.tsx:116-122 | an empty cart redirects to the cart page; otherwise the summary shows the cart's total price, its shipping fee and their sum |
| Checkout.BuildPayload | app/checkout/page.tsx:59-78 | the order items are a same-length, order-preserving map of the cart lines to (product id, size, quantity, price); the customer fields are sent as typed; subtotal, shipping and total are the page's amounts |
| Checkout.PayloadConsistent | app/checkout/page.tsx:59-78 | the payload's subtotal equals the sum over its own items, and its total is that sum plus the shipping fee for it |
| Checkout.Route | app/checkout/page.tsx:80-106 | a non-empty payment URL redirects to it; otherwise the shopper goes to the success page with the order id, or "unknown" when none is given; a thrown error shows the server's message or the generic retry text |
| Checkout.ClearsCart | app/checkout/page.tsx:80-98 | `clearCart()` runs exactly when the reply routes to the success page: never on a gateway redirect, never on an error |
| Checkout.CheckoutPage.constructor | app/checkout/page.tsx:17-29 | the page starts with the empty form, not loading, reading the given cart |
| Checkout.CheckoutPage.HandleChange | app/checkout/page.tsx:109-114 | a text input change updates that one form field; a payment-method radio change updates only the payment method; `loading` is untouched |
| Checkout.CheckoutPage.HandleSubmit | app/checkout/page.tsx:31-107 | a failing validation alerts, sends nothing and changes neither the cart nor `loading`; otherwise the payload built from the cart is sent, the outcome is the routed reply, the cart is emptied only when going to the success page, and `loading` ends false |
| PaymentCallback.IsSuccessCode | app/checkout/verge-callback/page.tsx:28 | a success code is two or seven characters long |
| PaymentCallback.SuccessCodeIff | app/checkout/verge-callback/page.tsx:28 | a status means success exactly when it is "00" or seven characters each matching the lower- or upper-case letter of "success" at that position |
| PaymentCallback.Interpret | app/checkout/verge-callback/page.tsx:13-43 | the id comes from `Id` when non-empty, else from `id`, else stays ""; the status likewise from `Status` over `status`; a success code gives success with the confirmation message, any other non-empty status gives failed with that status as message, no status gives loading with "Verifying payment status..." |
| PaymentCallback.CallbackExamples | app/checkout/verge-callback/page.tsx:17-43 | `Status=00` and `status=SUCCESS` succeed; `Status=ERR_DECLINED` fails with that message; with only ids, `Id` wins and the page stays verifying |
| Reviews.CanSubmit | components/review-form.tsx:29 | a submittable form has a chosen rating and a non-empty comment and name |
| Reviews.BuildPayload | components/review-form.tsx:37-42 | the sent comment and name are trimmed, and the email is trimmed or absent exactly when it is blank |
| Reviews.PayloadNormalized | components/review-form.tsx:29-42 | a payload that passed validation has a non-empty comment and name, an email that is absent or non-empty, and rebuilding it from its own fields changes nothing |
| Reviews.ReviewForm.constructor | components/review-form.tsx:18-24 | the form starts with rating 0, empty text fields, not loading and not submitted |
| Reviews.ReviewForm.SubmitDisabled | components/review-form.tsx:156 | the submit button is enabled exactly when nothing is loading, a rating is chosen, and comment and name are non-blank |
| Reviews.ReviewForm.ClickStar | components/review-form.tsx:83-89 | a star click sets the rating to that star (1 to 5) and nothing else |
| Reviews.ReviewForm.Edit | components/review-form.tsx:115-144 | typing into one input sets that field only |
| Reviews.ReviewForm.HandleSubmit | components/review-form.tsx:26-58 | an incomplete form alerts and changes nothing; otherwise the trimmed payload (rating 1 to 5) is sent; success hands on the review, sets `submitted` and resets rating, comment, name and email; failure keeps the fields and shows the server's message or the generic text; `loading` ends false |
| Lists.Filter | app/shop/page.tsx:45 | a filter is no longer than its input and keeps only accepted elements |
| Lists.FilterSpec | app/shop/page.tsx:45 | a filter keeps input order and keeps every copy of each accepted element |
| Catalog.Shown | app/shop/page.tsx:41-47 | "all" shows the products unchanged; a category shows exactly that category's products, as an order-preserving subsequence no longer than the catalog |
| Catalog.CountNoun | app/shop/page.tsx:104 | the count reads "product" exactly for one product and "products" otherwise |
| Catalog.ShopPage.constructor | app/shop/page.tsx:11-16 | the page starts loading, with empty lists and the "all" category |
| Catalog.ShopPage.ApplyCategory | app/shop/page.tsx:41-47 | the effect makes the shown list the category filter of the loaded products |
| Catalog.ShopPage.Loaded | app/shop/page.tsx:25-39 | loaded data becomes the product list; the shown list is its filter for the current category, which under the initial "all" is the whole list; loading ends |
| Catalog.ShopPage.LoadFailed | app/shop/page.tsx:31-35 | a failed load only ends loading |
| Catalog.ShopPage.SelectCategory | app/shop/page.tsx:88 | a category click sets the active category and re-filters the loaded products |
| Catalog.FeaturedSelection | app/page.tsx:20 | at most four products are shown, and all of them are featured |
| Catalog.FeaturedSpec | app/page.tsx:20 | the shown products are an order-preserving subsequence of the catalog: the first featured ones, all of them when fewer than four exist, and exactly four otherwise |

## Left out

- Saving the cart to and loading it from local storage (context/cart-context.tsx:23-33) is browser storage and JSON encoding, so the persistence round trip is not modelled. The code neither guards `JSON.parse` nor waits for the first load before saving.
- The HTTP client is not part of this model: the base URL, bearer-token and 401 handling, the 30-second timeout, request logging, and the stub catalog resolved by a timer. The order and review services are represented only by their replies.
- Asynchrony is not modelled: awaiting the services, submitting twice (only the disabled button prevents it), and the timer that hides the review "thank you" banner after three seconds (components/review-form.tsx:51). `ReviewForm.HandleSubmit` leaves `submitted` set.
- Hovering over the stars, a display-only rating, is not modelled.
- The payment method is carried as an opaque string from form to payload. The radio group offers "paystack", "flutterwave" and "verge" (app/checkout/page.tsx:273-316); the form's type admits only the first two while the order call is typed for "verge", and no branch depends on it.
- The `Review` record returned by the review service is opaque here: its fields are not part of this model.
- The callback page's `toLowerCase` is modelled for ASCII letters only. No other character lower-cases to one of the letters of "success", so the success test is unaffected.
- Category filter values are the four buttons ("all" and the three categories), not arbitrary strings.
- The count label is modelled as its noun only; the number in front of it is the shown list's length.
- Prices and quantities are unbounded integers; the source's floating-point numbers only ever hold whole amounts here.
- Pages that only render (about, collections, footer, layout, the success page's random order number, review list formatting, currency formatting) are not modelled.
