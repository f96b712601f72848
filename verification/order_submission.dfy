/** Order submission (`handleSubmitOrder` in `App.tsx`): two dependent writes,
    one `orders` row and then one `order_items` row per cart line, with the
    cart cleared only when both succeed. The backend's answers are inputs. */
module OrderSubmission {
  import opened Types
  import opened Cart
  import opened Checkout

  /** The row sent to the `orders` table (`data_agendamento`, `turno` and
      `horario_agendamento` appear as `pickupDate`, `shift`, `pickupTime`). */
  datatype OrderRow = OrderRow(
    customerName: string,
    customerWhatsapp: string,
    deliveryAddress: string,
    paymentMethod: string,
    status: string,
    subtotal: int,
    pickupDate: string,
    shift: string,
    pickupTime: string)

  /** A row sent to the `order_items` table; the unit price is copied from
      the cart line at submission time. */
  datatype OrderItemRow = OrderItemRow(orderId: int, productId: int, quantity: int, unitPrice: nat)

  const Pending: string := "pending"

  /** The backend's answer to the `orders` insert: whether it reported an
      error, and the id of the row it returned, if it returned one. */
  datatype OrderInsertResponse = OrderInsertResponse(failed: bool, insertedId: Option<int>)

  /** How a submission ended. `ItemsInsertFailed` is the partial order: the
      `orders` row exists but has no items. */
  datatype Outcome = Placed(orderId: int) | OrderInsertFailed | ItemsInsertFailed(orderId: int)

  /** Everything a submission does: the order row it sends, the item rows it
      sends (if it gets that far), how it ends, and the cart afterwards. */
  datatype Submission = Submission(
    orderRequest: OrderRow,
    itemsRequest: Option<seq<OrderItemRow>>,
    outcome: Outcome,
    cart: seq<CartItem>)

  /** The `orders` row for a cart and the checkout details. */
  function OrderRowFor(cart: seq<CartItem>, details: FormData): (row: OrderRow)
    ensures row.status == Pending
    ensures row.subtotal == TotalPrice(cart)
    ensures row.customerName == details.name && row.customerWhatsapp == details.whatsapp
    ensures row.deliveryAddress == details.address && row.paymentMethod == details.paymentMethod
    ensures row.pickupDate == details.pickupDate && row.shift == details.shift
    ensures row.pickupTime == details.pickupTime
  {
    OrderRow(details.name, details.whatsapp, details.address, details.paymentMethod,
             Pending, TotalPrice(cart), details.pickupDate, details.shift, details.pickupTime)
  }

  /** The `order_items` rows: one per cart line, in cart order. */
  function OrderItemRows(cart: seq<CartItem>, orderId: int): (rows: seq<OrderItemRow>)
    ensures |rows| == |cart|
    ensures forall i :: 0 <= i < |cart| ==>
      rows[i] == OrderItemRow(orderId, cart[i].product.id, cart[i].quantity, cart[i].product.price)
  {
    if |cart| == 0 then []
    else [OrderItemRow(orderId, cart[0].product.id, cart[0].quantity, cart[0].product.price)]
         + OrderItemRows(cart[1..], orderId)
  }

  /** Sum of unit price times quantity over item rows. */
  function RowsTotal(rows: seq<OrderItemRow>): int {
    if |rows| == 0 then 0 else rows[0].unitPrice * rows[0].quantity + RowsTotal(rows[1..])
  }

  /** The submission as written: insert the order; stop if the backend
      reported an error or returned no row; otherwise insert the item rows
      under the returned id; clear the cart only if that succeeded too. */
  function SubmitOrder(cart: seq<CartItem>, details: FormData,
                       orderResponse: OrderInsertResponse, itemsFailed: bool): (s: Submission)
    ensures s.orderRequest == OrderRow(details.name, details.whatsapp, details.address,
                                       details.paymentMethod, Pending, TotalPrice(cart),
                                       details.pickupDate, details.shift, details.pickupTime)
    ensures s.itemsRequest.Some? <==> !orderResponse.failed && orderResponse.insertedId.Some?
    ensures s.itemsRequest.Some? ==> |s.itemsRequest.value| == |cart|
    ensures s.itemsRequest.Some? ==>
      forall i :: 0 <= i < |cart| ==>
        && s.itemsRequest.value[i].orderId == orderResponse.insertedId.value
        && s.itemsRequest.value[i].productId == cart[i].product.id
        && s.itemsRequest.value[i].quantity == cart[i].quantity
        && s.itemsRequest.value[i].unitPrice == cart[i].product.price
    ensures s.itemsRequest.Some? ==> RowsTotal(s.itemsRequest.value) == s.orderRequest.subtotal
    ensures s.outcome.Placed? <==> s.itemsRequest.Some? && !itemsFailed
    ensures s.outcome.ItemsInsertFailed? <==> s.itemsRequest.Some? && itemsFailed
    ensures s.outcome.Placed? ==> s.cart == [] && TotalQuantity(s.cart) == 0 && TotalPrice(s.cart) == 0
    ensures !s.outcome.Placed? ==> s.cart == cart
  {
    var order := OrderRowFor(cart, details);
    if orderResponse.failed || orderResponse.insertedId.None? then
      Submission(order, None, OrderInsertFailed, cart)
    else
      var id := orderResponse.insertedId.value;
      var rows := OrderItemRows(cart, id);
      RowsMatchSubtotal(cart, id);
      if itemsFailed then Submission(order, Some(rows), ItemsInsertFailed(id), cart)
      else Submission(order, Some(rows), Placed(id), [])
  }

  // ---------------------------------------------------------------------
  // Lemmas

  /** The item rows add up to the subtotal recorded on the order row. */
  lemma {:induction false} RowsMatchSubtotal(cart: seq<CartItem>, orderId: int)
    ensures RowsTotal(OrderItemRows(cart, orderId)) == TotalPrice(cart)
    decreases |cart|
  {
    if |cart| > 0 {
      RowsMatchSubtotal(cart[1..], orderId);
    }
  }

  /** The item rows of a valid cart name each product once, all under the
      same order, and every row orders at least one unit. */
  lemma ItemRowsOfValidCart(cart: seq<CartItem>, orderId: int)
    requires Valid(cart)
    ensures forall i, j :: 0 <= i < j < |cart| ==>
      OrderItemRows(cart, orderId)[i].productId != OrderItemRows(cart, orderId)[j].productId
    ensures forall i :: 0 <= i < |cart| ==>
      OrderItemRows(cart, orderId)[i].orderId == orderId && OrderItemRows(cart, orderId)[i].quantity >= 1
  {
  }
}
