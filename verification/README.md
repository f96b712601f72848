# Bakery storefront cart — a Dafny model

This project models the client-side logic of a bakery storefront, a single-page
React application (`App.tsx`). It covers:

- the cart store: lines of product plus quantity, changed by add, set-quantity
  and remove;
- the two values derived from the cart: the item count shown on the badge and
  the subtotal;
- the category filter of the product grid;
- the quantity controls of a cart row: the "-" and "+" buttons, and the text
  field parsed with `parseInt` on blur;
- the checkout form's submit gate;
- the two-step order submission: one `orders` row, then the `order_items` rows;
- the cart panel's three views: cart, checkout and success.

Prices are integer cents (`nat`), so every subtotal is exact. The backend's
answers to the two inserts are inputs to the model. The whole page is
`Storefront.Step`, a function from a state and a user event to the next state.
`Storefront.RunPreservesInv` proves that every state the model reaches keeps
three properties: at most one line per product, every quantity at least 1, and
the checkout view only over a non-empty cart. The model settles an order
submission at the moment it is submitted; in the browser the inserts finish
later, and that interleaving can break the third property (see "## Left out").

Modules, one per component of the page:

| file | module | component |
|---|---|---|
| `types.dfy` | `Types` | the `Product` and `CartItem` records of `types.ts` |
| `sequences.dfy` | `Sequences` | order-preserving filter and subsequence, shared by removal and the category view |
| `cart.dfy` | `Cart` | the cart store and its totals |
| `catalog.dfy` | `Catalog` | `filteredProducts` |
| `quantity_input.dfy` | `QuantityInput` | `CartItemRow`'s controls and `parseInt` |
| `checkout.dfy` | `Checkout` | `CheckoutForm`'s data and submit gate |
| `order_submission.dfy` | `OrderSubmission` | `handleSubmitOrder` |
| `sidebar.dfy` | `Sidebar` | `CartSidebar`'s view transitions |
| `storefront.dfy` | `Storefront` | the page: state, events, invariant |

## Behaviour as the code does it

The submit handler of the cart panel (App.tsx:273-276) calls `onSubmitOrder`
without awaiting it. It then switches to the success view unconditionally.
The re-throw in `handleSubmitOrder` (App.tsx:468) therefore cannot keep the
panel on the checkout view. The model follows the code: a submit that passes
the form's gate always shows the success view. The cart is still emptied only
when both inserts succeed (`Storefront.SubmitShowsSuccessRegardless`). A
design that keeps the checkout view open after a failed submission describes
something the code does not do.

Adding a product that is already in the cart keeps the line's stored product
record and raises only its quantity (App.tsx:381-383). So the subtotal grows
by the price stored in that line, not by the price of the product passed in
(`Cart.AddTotals`).

## Model

| member | source | states |
|---|---|---|
| `Cart.Add` | App.tsx:377-386 | if the product is in the cart, the length, order and products are unchanged, its line's quantity grows by 1 and every other line is identical; otherwise the result is the cart with the product appended at quantity 1; a valid cart stays valid |
| `Cart.Remove` | App.tsx:410-412 | no line for the id remains; the result is a subsequence of the cart (original relative order) that keeps every other line; an absent id is a no-op; validity is preserved |
| `Cart.SetQuantity` | App.tsx:398-408 | a quantity of 0 or below behaves exactly as remove; a positive one keeps length, order and products, sets the quantity of the id's lines and leaves every other line identical; an absent id is a no-op; validity is preserved |
| `Cart.CartCount` | App.tsx:479-481 | the left-to-right reduce returns the sum of the quantities; with all quantities at least 1 the badge count is positive exactly when the cart has lines |
| `Cart.CartSubtotal` | App.tsx:260-262 | the left-to-right reduce returns the sum of price times quantity over the lines, never negative for a cart of positive quantities |
| `Cart.CountBounds` | App.tsx:479-494 | with every quantity at least 1 the count is at least the number of lines, it is positive exactly when there is a line, and the subtotal is non-negative |
| `Cart.AddTotals` | App.tsx:377-386 | on a valid cart, add raises the count by exactly 1 and the subtotal by the stored price of the existing line, or by the product's price when the line is new |
| `Cart.BumpTotals` | App.tsx:380-383 | incrementing the line of a product present in a valid cart adds 1 to the count and that line's price to the subtotal |
| `Cart.RemoveTotals` | App.tsx:410-412 | on a valid cart, removing a present product drops exactly one line and subtracts its quantity from the count and its price times quantity from the subtotal; removing an absent one changes nothing |
| `Cart.SetQuantityTotals` | App.tsx:402-406 | on a valid cart, setting a positive quantity for a present product replaces that line's contribution to count and subtotal |
| `Cart.AddRepeatedly` | App.tsx:377-386 | adding a product not yet in a valid cart n >= 1 times yields the cart plus exactly one line for it, at the end, with quantity n |
| `Cart.TwoLineExample` | App.tsx:260-262 | 2 x 15.00 plus 1 x 8.50 gives a subtotal of 38.50 and a count of 3; setting product 1's quantity to 0 leaves only product 2's line |
| `Catalog.FilteredProducts` | App.tsx:472-477 | "all" returns the products unchanged; a category returns a subsequence of the products (original order) holding only products of that category, every one of them, and as many as the products of that category |
| `Catalog.CategoryViewUnique` | App.tsx:472-477 | any order-preserving selection of the products that holds only products of the category, as many as there are, equals the category view |
| `QuantityInput.BlurRequest` | App.tsx:63-70 | the text field forwards a quantity only when `parseInt` yields a number of at least 1, and then forwards exactly that number; NaN and values below 1 forward nothing (the field reverts) |
| `QuantityInput.DecimalRoundTrip` | App.tsx:63-66 | `parseInt` reads back the plain decimal numeral of every non-negative integer, which is what `toString` prints below 10^21 |
| `QuantityInput.RevertedTextForwardsQuantity` | App.tsx:63-70 | the decimal text of a quantity of at least 1 (the text a row shows for it below 10^21) is accepted on blur and forwards that same quantity |
| `QuantityInput.BlurTruncates` | App.tsx:64-68 | "2.5" forwards 2 and " 7x" forwards 7: leading whitespace is skipped, anything after the digits is ignored |
| `QuantityInput.BlurRejects` | App.tsx:64-66 | "0", "-2", "" and "abc" forward nothing |
| `QuantityInput.ParsesAsDigits` | App.tsx:64 | text that is a non-empty run of decimal digits parses as its decimal value |
| `QuantityInput.ParsesNoDigits` | App.tsx:64-65 | text that is empty or starts with a character that is neither whitespace, a sign nor a digit parses as NaN |
| `QuantityInput.DecrementRequest` | App.tsx:86 | the "-" button requests exactly one less than a current quantity above 1, and exactly 1 otherwise, so never less than 1 |
| `QuantityInput.IncrementRequest` | App.tsx:97 | the "+" button requests exactly one more than the current quantity, so at least 2 for a line of quantity at least 1 |
| `Checkout.InitialForm` | App.tsx:123-131 | a fresh form has every field empty except the fixed pickup-only address |
| `Checkout.HandleSubmit` | App.tsx:142-149 | the form is handed on exactly when payment method, date, shift and time are all non-empty, and then unchanged; name and contact are not checked |
| `Checkout.GateIgnoresContact` | App.tsx:144 | changing name, WhatsApp contact or address never changes the gate's decision |
| `Checkout.InitialFormBlocked` | App.tsx:142-149 | an untouched form is blocked |
| `OrderSubmission.OrderRowFor` | App.tsx:429-440 | the order row carries status "pending", the cart's subtotal and the checkout details field for field |
| `OrderSubmission.OrderItemRows` | App.tsx:450-455 | one row per cart line in cart order; row i carries the order id and line i's product id, quantity and price |
| `OrderSubmission.SubmitOrder` | App.tsx:423-469 | the order row sent carries every checkout detail field for field, status "pending" and the cart's subtotal; the items insert is attempted exactly when the order insert reported no error and returned a row; then it sends one row per line under the returned id, adding up to the order's subtotal; the cart becomes empty (count and subtotal 0) exactly when both inserts succeed and is unchanged otherwise; a failed items insert after a successful order insert is the partial order |
| `OrderSubmission.RowsMatchSubtotal` | App.tsx:450-455 | the item rows' price times quantity adds up to the subtotal recorded on the order row |
| `OrderSubmission.ItemRowsOfValidCart` | App.tsx:450-455 | for a valid cart the item rows name each product once, all under the one order id, each with quantity at least 1 |
| `Sidebar.ProceedToCheckout` | App.tsx:312-317 | the checkout view is entered only from the cart view with a non-empty cart; otherwise the view is unchanged |
| `Sidebar.BackToCart` | App.tsx:323 | "back" leaves the checkout view for the cart view and changes no other view |
| `Sidebar.AfterSubmit` | App.tsx:273-276 | a handed-on submission moves the checkout view to the success view, independently of the order's outcome |
| `Sidebar.OnOpenChange` | App.tsx:264-271 | any change of the panel's open state resets the view to cart; no change leaves the view alone |
| `Storefront.Initial` | App.tsx:346-350 | the page starts with an empty cart, the panel closed on the cart view, and all products selected |
| `Storefront.Step` | App.tsx:536-543 | every event preserves the invariant (valid cart, checkout view only over a non-empty cart), and the checkout view is entered only from the cart view with lines in the cart |
| `Storefront.RunPreservesInv` | App.tsx:377-412 | any sequence of events from a state satisfying the invariant ends in a state satisfying it |
| `Storefront.ReachableStatesKeepInv` | App.tsx:312-317 | every state reachable from the first render has a valid cart and shows the checkout view only over a non-empty cart |
| `Storefront.SubmitShowsSuccessRegardless` | App.tsx:273-276 | a submit that passes the gate always shows the success view, whatever the backend answers; the cart is emptied only when both inserts succeed |
| `Storefront.BlockedSubmitChangesNothing` | App.tsx:142-149 | a submit the gate blocks leaves the whole state unchanged |
| `Storefront.RowControlsNeverRemove` | App.tsx:63-97 | the "-" button and the text field never drop a product's line nor change the number of lines |
| `Storefront.ToggleResetsView` | App.tsx:264-271 | opening a closed panel or closing an open one shows the cart view and changes nothing else |

## Left out

- Catalogue loading (App.tsx:355-375): it is two network reads, so products are a parameter of the category view.
- Backend inserts (App.tsx:427-457): these are network calls; their answers are the inputs `OrderInsertResponse` and `itemsFailed`.
- Asynchronous completion of a submission: the order is treated as settled when it is submitted, and that interleaving is not modelled. The source builds the item rows from the cart of the render that submitted and clears whatever the cart holds when the inserts finish (App.tsx:462). Two consequences are outside the model's guarantees. First, lines added while the inserts are in flight are cleared without being ordered. Second, the checkout view can end up over an empty cart: submit (the view becomes success at once, App.tsx:275), close and reopen the panel (the view resets to cart, App.tsx:266), press "Finalizar Compra" while the old lines are still there, then let the inserts finish. A second submit from that view sends an order with subtotal 0 and no item rows. `Storefront.ReachableStatesKeepInv` holds only for the model's atomic submission.
- Browser form validation: the name, WhatsApp, date, shift and time inputs are `required` and the date has a `min` (App.tsx:179, 183, 192, 202, 206). The browser does not fire the form's submit event while any of them fails. `SubmitForm` stands for the submit event after that validation has passed. The model does not restrict its form, so name and contact are unchecked only by the handler (`Checkout.HandleSubmit`), not by the page as a whole.
- Timers: the toast timer and the 300 ms view reset after closing (App.tsx:269, 391-396) are timing-dependent UI; the view reset is modelled as immediate.
- The toast messages, the alerts and `console.error`: these are display only.
- The advisory notices, including the `subtotal > 200` large-order notice (App.tsx:162-171): these are display-only text that enforces nothing.
- `getTodayString` and the `min` date of the date field (App.tsx:151-157): this depends on the clock.
- Currency formatting with `toFixed(2)` (App.tsx:83, 310): this is floating-point display; prices are exact cents here.
- Form field editing (App.tsx:133-140): these are plain record updates, so the submit event carries the finished form.
- React rendering, hooks, memoisation, icons and styling.
- `QuantityInput.BlurRequest`: numbers beyond 2^53 are exact here but lose precision in JavaScript, and the browser's own sanitising of `type="number"` input is not modelled.
- `QuantityInput.NatToDecimal`: it matches JavaScript's `toString` only below 10^21. From 10^21 upwards `toString` prints exponent notation such as "1e+21", which `parseInt` reads as 1. So a quantity of 10^21 or more, once shown in the field, becomes 1 on the next blur, and the round trip of `QuantityInput.RevertedTextForwardsQuantity` does not describe that case.
- The `Order` and `OrderItem` interfaces of `types.ts` are not used by the cart logic; the rows actually sent are `OrderRow` and `OrderItemRow`.
