/** The storefront page (`App` in `App.tsx`) as a state machine over user
    events: the cart, the panel's open state and view, and the category
    selection, with every handler wired as the page wires it. */
module Storefront {
  import opened Types
  import opened Cart
  import opened Catalog
  import opened QuantityInput
  import opened Checkout
  import opened OrderSubmission
  import opened Sidebar

  datatype AppState = AppState(
    cart: seq<CartItem>,
    isOpen: bool,
    view: View,
    selection: Selection)

  /** The page as first rendered: empty cart, panel closed, all products. */
  function Initial(): (s: AppState)
    ensures s.cart == [] && !s.isOpen && s.view == CartView && s.selection == All
  {
    AppState([], false, CartView, All)
  }

  /** A user action. The two backend answers of an order submission travel
      with the submit event. */
  datatype Event =
    | SelectCategory(selection: Selection)
    | AddToCart(product: Product)
    | OpenCart
    | CloseCart
    | IncrementClick(productId: int)
    | DecrementClick(productId: int)
    | QuantityBlur(productId: int, text: string)
    | RemoveClick(productId: int)
    | CheckoutClick
    | BackClick
    | SubmitForm(form: FormData, orderResponse: OrderInsertResponse, itemsFailed: bool)

  /** The page's invariant: a valid cart, and the checkout view is shown
      only while the cart has lines. */
  predicate Inv(s: AppState) {
    Valid(s.cart) && (s.view == CheckoutView ==> |s.cart| > 0)
  }

  /** One event handled to completion. */
  function Step(s: AppState, e: Event): (t: AppState)
    ensures Inv(s) ==> Inv(t)
    ensures t.view == CheckoutView ==> s.view == CheckoutView || (s.view == CartView && |s.cart| > 0)
  {
    match e
    case SelectCategory(sel) => s.(selection := sel)
    case AddToCart(p) => s.(cart := Add(s.cart, p))
    case OpenCart => s.(isOpen := true, view := OnOpenChange(s.view, s.isOpen, true))
    case CloseCart => s.(isOpen := false, view := OnOpenChange(s.view, s.isOpen, false))
    case IncrementClick(id) =>
      if s.view != CartView then s
      else (match Find(s.cart, id)
            case None => s
            case Some(line) => s.(cart := SetQuantity(s.cart, id, IncrementRequest(line.quantity))))
    case DecrementClick(id) =>
      if s.view != CartView then s
      else (match Find(s.cart, id)
            case None => s
            case Some(line) => s.(cart := SetQuantity(s.cart, id, DecrementRequest(line.quantity))))
    case QuantityBlur(id, text) =>
      if s.view != CartView || Find(s.cart, id).None? then s
      else (match BlurRequest(text)
            case None => s
            case Some(q) => s.(cart := SetQuantity(s.cart, id, q)))
    case RemoveClick(id) =>
      if s.view != CartView || Find(s.cart, id).None? then s
      else s.(cart := Remove(s.cart, id))
    case CheckoutClick => s.(view := ProceedToCheckout(s.view, |s.cart|))
    case BackClick => s.(view := BackToCart(s.view))
    case SubmitForm(form, orderResponse, itemsFailed) =>
      if s.view != CheckoutView then s
      else (match HandleSubmit(form)
            case Blocked => s
            case Submitted(details) =>
              var submission := SubmitOrder(s.cart, details, orderResponse, itemsFailed);
              s.(cart := submission.cart, view := AfterSubmit(s.view)))
  }

  /** The state after a sequence of events. */
  function Run(s: AppState, events: seq<Event>): AppState
    decreases |events|
  {
    if |events| == 0 then s else Run(Step(s, events[0]), events[1..])
  }

  // ---------------------------------------------------------------------
  // Lemmas

  /** Every state the page can reach from its first render keeps the
      invariant: no duplicate product lines, no quantity below 1, and no
      checkout view over an empty cart. */
  lemma {:induction false} RunPreservesInv(s: AppState, events: seq<Event>)
    requires Inv(s)
    ensures Inv(Run(s, events))
    decreases |events|
  {
    if |events| > 0 {
      RunPreservesInv(Step(s, events[0]), events[1..]);
    }
  }

  lemma ReachableStatesKeepInv(events: seq<Event>)
    ensures Valid(Run(Initial(), events).cart)
    ensures Run(Initial(), events).view == CheckoutView ==> |Run(Initial(), events).cart| > 0
  {
    RunPreservesInv(Initial(), events);
  }

  /** A submit that passes the form's gate always shows the success view,
      whatever the backend answers; the cart is emptied only when both
      inserts succeed and is otherwise left as it was. */
  lemma SubmitShowsSuccessRegardless(s: AppState, form: FormData,
                                     orderResponse: OrderInsertResponse, itemsFailed: bool)
    requires s.view == CheckoutView && HandleSubmit(form).Submitted?
    ensures Step(s, SubmitForm(form, orderResponse, itemsFailed)).view == SuccessView
    ensures Step(s, SubmitForm(form, orderResponse, itemsFailed)).cart ==
      (if !orderResponse.failed && orderResponse.insertedId.Some? && !itemsFailed then [] else s.cart)
  {
  }

  /** A submit the gate blocks changes nothing: no backend call, same view,
      same cart. */
  lemma BlockedSubmitChangesNothing(s: AppState, form: FormData,
                                    orderResponse: OrderInsertResponse, itemsFailed: bool)
    requires HandleSubmit(form) == Blocked
    ensures Step(s, SubmitForm(form, orderResponse, itemsFailed)) == s
  {
  }

  /** The "-" button and the text field never remove a line: they keep the
      product in the cart and the number of lines unchanged. */
  lemma RowControlsNeverRemove(s: AppState, id: int, text: string)
    requires Inv(s)
    ensures HasId(s.cart, id) ==> HasId(Step(s, DecrementClick(id)).cart, id)
    ensures |Step(s, DecrementClick(id)).cart| == |s.cart|
    ensures HasId(s.cart, id) ==> HasId(Step(s, QuantityBlur(id, text)).cart, id)
    ensures |Step(s, QuantityBlur(id, text)).cart| == |s.cart|
  {
  }

  /** Opening or closing the panel shows the cart view and touches nothing
      else. */
  lemma ToggleResetsView(s: AppState)
    ensures !s.isOpen ==> Step(s, OpenCart) == s.(isOpen := true, view := CartView)
    ensures s.isOpen ==> Step(s, CloseCart) == s.(isOpen := false, view := CartView)
  {
  }
}
