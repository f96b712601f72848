/** The cart panel's three views (`CartSidebar` in `App.tsx`) and the
    transitions between them. */
module Sidebar {

  datatype View = CartView | CheckoutView | SuccessView

  /** The "checkout" button: rendered only in the cart view and disabled
      while the cart has no lines. */
  function ProceedToCheckout(view: View, lineCount: nat): (v: View)
    ensures v == CheckoutView <==> view == CheckoutView || (view == CartView && lineCount > 0)
    ensures v != CheckoutView ==> v == view
  {
    if view == CartView && lineCount > 0 then CheckoutView else view
  }

  /** The form's "back to cart" button, rendered only in the checkout view. */
  function BackToCart(view: View): (v: View)
    ensures view == CheckoutView ==> v == CartView
    ensures view != CheckoutView ==> v == view
  {
    if view == CheckoutView then CartView else view
  }

  /** handleOrderSubmit: once the form's gate has passed, the view becomes
      the success view at once; the order submission is not awaited, so its
      outcome plays no part here. */
  function AfterSubmit(view: View): (v: View)
    ensures view == CheckoutView ==> v == SuccessView
    ensures view != CheckoutView ==> v == view
  {
    if view == CheckoutView then SuccessView else view
  }

  /** The effect on `isOpen`: any change of the panel's open state resets
      the view to the cart (on close, after a 300 ms timer). */
  function OnOpenChange(view: View, wasOpen: bool, isOpen: bool): (v: View)
    ensures wasOpen != isOpen ==> v == CartView
    ensures wasOpen == isOpen ==> v == view
  {
    if wasOpen != isOpen then CartView else view
  }
}
