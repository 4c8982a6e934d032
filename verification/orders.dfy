/**
 * The order history screen: status badges (colour and text), the reorder
 * action and the delivery row, and the sample orders shown when the order
 * service is unavailable.
 */
module Orders {
  import opened Common
  import opened Text
  import opened Seqs

  datatype OrderItem = OrderItem(name: string, quantity: int, price: int)

  datatype Address = Address(fullName: string, phone: string, address: string, city: string, emirate: string)

  /** An order as the service returns it; `status` is whatever string the service sent. */
  datatype Order = Order(
    id: string,
    status: string,
    total: int,
    items: seq<OrderItem>,
    shippingAddress: Address,
    createdAt: string,
    estimatedDelivery: Option<string>)

  /** The five statuses the screen knows, in lifecycle order. */
  const KnownStatuses: seq<string> := ["pending", "confirmed", "shipped", "delivered", "cancelled"]

  const DeliveredStatus: string := "delivered"

  /** The badge colour for unknown statuses. */
  const DefaultColor: string := "#6c757d"

  /** `getStatusColor`. */
  function StatusColor(status: string): (color: string)
    ensures color == DefaultColor <==> status !in KnownStatuses
  {
    match status
    case "pending" => "#ffc107"
    case "confirmed" => "#17a2b8"
    case "shipped" => "#007bff"
    case "delivered" => "#28a745"
    case "cancelled" => "#dc3545"
    case _ => DefaultColor
  }

  /** Distinct known statuses get distinct colours, so the badge colour identifies the status. */
  lemma StatusColorsDistinct(a: string, b: string)
    requires a in KnownStatuses && b in KnownStatuses && a != b
    ensures StatusColor(a) != StatusColor(b)
  {
  }

  /** `getStatusText`. */
  function StatusText(status: string): (text: string)
    ensures status in KnownStatuses ==> text == Capitalize(status)
    ensures status !in KnownStatuses ==> text == status
  {
    match status
    case "pending" => "Pending"
    case "confirmed" => "Confirmed"
    case "shipped" => "Shipped"
    case "delivered" => "Delivered"
    case "cancelled" => "Cancelled"
    case _ => status
  }

  /** Lower-casing the badge text of a known status gives the status back. */
  lemma StatusTextRoundTrip(status: string)
    requires status in KnownStatuses
    ensures Lower(StatusText(status)) == status
  {
  }

  /** The Reorder button is shown only for delivered orders. */
  predicate ShowsReorder(o: Order)
    ensures ShowsReorder(o) <==> StatusColor(o.status) == "#28a745"
  {
    o.status == DeliveredStatus
  }

  /** The delivery row's label: no row without a (non-empty) delivery date. */
  function DeliveryLabel(o: Order): (r: Option<string>)
    ensures r.Some? <==> o.estimatedDelivery.Some? && o.estimatedDelivery.value != ""
    ensures r.Some? ==> (r.value == "Delivered on:" <==> o.status == DeliveredStatus)
    ensures r.Some? ==> (r.value == "Estimated delivery:" <==> o.status != DeliveredStatus)
  {
    match o.estimatedDelivery
    case None => None
    case Some(d) =>
      if d == "" then None
      else if o.status == DeliveredStatus then Some("Delivered on:") else Some("Estimated delivery:")
  }

  /** A delivered order offers Reorder exactly when its delivery row, if any, says it was delivered. */
  lemma ReorderAgreesWithDeliveryLabel(o: Order)
    requires DeliveryLabel(o).Some?
    ensures ShowsReorder(o) <==> DeliveryLabel(o) == Some("Delivered on:")
  {
  }

  function ItemValue(item: OrderItem): int {
    LineAmount(item.price, item.quantity)
  }

  /** The sum of price times quantity over an order's items. */
  function ItemsTotal(items: seq<OrderItem>): int {
    Sum(items, ItemValue)
  }

  /** The demo orders; the recipient is the signed-in user's name, or "John Doe". */
  function SampleOrders(userName: Option<string>): (r: seq<Order>)
    ensures |r| == 2 && r[0].id != r[1].id
    ensures forall o :: o in r ==>
              o.shippingAddress.fullName ==
                (if userName.Some? && userName.value != "" then userName.value else "John Doe")
  {
    var recipient := match userName
      case Some(n) => if n != "" then n else "John Doe"
      case None => "John Doe";
    var to := Address(recipient, "+971501234567", "123 Business Bay", "Dubai", "Dubai");
    [ Order("ORD-001", "delivered", 580, [OrderItem("POWER SOLUTION HES", 1, 580)], to,
            "2024-01-15T10:30:00Z", Some("2024-01-18T14:00:00Z")),
      Order("ORD-002", "shipped", 330, [OrderItem("MOISTURE REPLENISHING HYALURON SERUM", 1, 330)], to,
            "2024-01-20T15:45:00Z", Some("2024-01-23T16:00:00Z")) ]
  }

  /** Every sample order's total is the value of its items, and its status is a known one. */
  lemma SampleOrdersConsistent(userName: Option<string>)
    ensures forall o :: o in SampleOrders(userName) ==> o.total == ItemsTotal(o.items)
    ensures forall o :: o in SampleOrders(userName) ==> o.status in KnownStatuses
  {
  }

  /** What the orders request produced. */
  datatype OrdersFetch = Listed(orders: seq<Order>) | NotOk | Threw

  /** The list `fetchOrders` stores: the service's list, or the samples on any failure. */
  function LoadOrders(fetch: OrdersFetch, userName: Option<string>): (r: seq<Order>)
    ensures fetch.Listed? ==> r == fetch.orders
    ensures !fetch.Listed? ==> r == SampleOrders(userName) && |r| == 2
  {
    match fetch
    case Listed(orders) => orders
    case _ => SampleOrders(userName)
  }
}
