/** What the order-details screen offers for one order: the driver's and
    the customer's actions, the delivery PIN, the status label and the
    displayed fee. These render-time conditions are the only place where
    the four-stage lifecycle pending, assigned, picked_up, delivered
    appears. The role is the one `getUserType` returned. */
module OrderDetails {
  import opened Wrappers
  import opened Schema
  import opened Queries

  /** The entries of the driver-actions block, in the order they render. */
  datatype DriverAction = AcceptOrder | MarkPickedUp | ConfirmDelivery | OrderCompleted

  /** The lifecycle statuses in the order an order passes through them. */
  const Lifecycle: seq<string> := [Pending, Assigned, PickedUp, Delivered]

  /** The driver-actions block: shown to drivers only; each entry has its
      own status condition, and pickup and delivery also need a driver. */
  function DriverActions(role: Role, order: Order): (r: seq<DriverAction>)
    ensures |r| <= 1
    ensures AcceptOrder in r <==> role == Driver && order.status == Pending
    ensures MarkPickedUp in r <==> role == Driver && order.status == Assigned && Truthy(order.driverId)
    ensures ConfirmDelivery in r <==> role == Driver && order.status == PickedUp && Truthy(order.driverId)
    ensures OrderCompleted in r <==> role == Driver && order.status == Delivered
  {
    if role != Driver then []
    else
      (if order.status == Pending then [AcceptOrder] else []) +
      (if order.status == Assigned && Truthy(order.driverId) then [MarkPickedUp] else []) +
      (if order.status == PickedUp && Truthy(order.driverId) then [ConfirmDelivery] else []) +
      (if order.status == Delivered then [OrderCompleted] else [])
  }

  /** The delivery PIN panel of the customer-actions block. */
  function ShownPin(role: Role, order: Order): (r: Option<string>)
    ensures r.Some? <==> role == Customer && Truthy(order.deliveryPin) && order.status != Delivered
    ensures r.Some? ==> r == order.deliveryPin
  {
    if role == Customer && Truthy(order.deliveryPin) && order.status != Delivered then order.deliveryPin
    else None
  }

  /** The "Delete Order" button of the customer-actions block. */
  function DeleteOffered(role: Role, order: Order): (r: bool)
    ensures r <==> role == Customer && order.status in {Pending, Assigned}
  {
    role == Customer && (order.status == Pending || order.status == Assigned)
  }

  /** The status badge text: the three early stages have their own label
      and every other status string reads "Delivered". */
  function StatusLabel(status: string): (text: string)
    ensures text in {"Pending", "Assigned", "Picked Up", "Delivered"}
    ensures text == "Pending" <==> status == Pending
    ensures text == "Assigned" <==> status == Assigned
    ensures text == "Picked Up" <==> status == PickedUp
    ensures text == "Delivered" <==> status !in {Pending, Assigned, PickedUp}
  {
    if status == Pending then "Pending"
    else if status == Assigned then "Assigned"
    else if status == PickedUp then "Picked Up"
    else "Delivered"
  }

  /** The fee shown on the screen: the stored fee plus 500. */
  function DisplayedFee(order: Order): real
  {
    order.deliveryFee + 500.0
  }

  /** The driver action that belongs to each lifecycle stage. */
  function StageAction(k: nat): DriverAction
    requires k < |Lifecycle|
  {
    [AcceptOrder, MarkPickedUp, ConfirmDelivery, OrderCompleted][k]
  }

  /** At every lifecycle stage a driver is offered exactly that stage's
      action, and different stages offer different actions. Only the two
      middle stages need a driver on the order. */
  lemma DriverActionPerStage(order: Order, k: nat)
    requires k < |Lifecycle| && order.status == Lifecycle[k]
    requires (k == 1 || k == 2) ==> Truthy(order.driverId)
    ensures DriverActions(Driver, order) == [StageAction(k)]
    ensures forall k' :: 0 <= k' < |Lifecycle| && k' != k ==> StageAction(k') != StageAction(k)
  {
  }

  /** Pickup and delivery confirmation are never offered for an order
      without a driver. */
  lemma NoDriverNoTransition(role: Role, order: Order)
    requires !Truthy(order.driverId)
    ensures MarkPickedUp !in DriverActions(role, order)
    ensures ConfirmDelivery !in DriverActions(role, order)
  {
  }

  /** The driver block and the customer block never both offer something. */
  lemma ActionsSplitByRole(role: Role, order: Order)
    ensures DriverActions(role, order) != [] ==> ShownPin(role, order).None? && !DeleteOffered(role, order)
    ensures ShownPin(role, order).Some? || DeleteOffered(role, order) ==> DriverActions(role, order) == []
  {
  }

  /** A status outside the lifecycle is labelled "Delivered", yet offers a
      driver nothing and still shows the customer the PIN. */
  lemma UnknownStatusReadsDelivered(order: Order)
    requires order.status !in Lifecycle
    ensures StatusLabel(order.status) == "Delivered"
    ensures DriverActions(Driver, order) == []
    ensures Truthy(order.deliveryPin) ==> ShownPin(Customer, order) == order.deliveryPin
  {
  }

  /** The screen shows the order `getSingleOrder` returned, to the role
      `getUserType` returned. Although the screen itself only checks that
      some driver is set, pickup and delivery confirmation then reach only
      the driver the order is assigned to, and the PIN and the delete
      button only the customer who created the order. */
  lemma ScreenActionsReachOnlyOwners(user: Option<Identity>, userTypes: seq<RoleRecord>, orders: seq<Order>,
                                     trackingId: string)
    requires GetSingleOrder(user, userTypes, orders, trackingId).Ok?
    requires GetSingleOrder(user, userTypes, orders, trackingId).value.Some?
    ensures var role := GetUserType(user, userTypes).value;
            var order := GetSingleOrder(user, userTypes, orders, trackingId).value.value;
            (MarkPickedUp in DriverActions(role, order) || ConfirmDelivery in DriverActions(role, order)) ==>
              order.driverId == Some(user.value.subject)
    ensures var role := GetUserType(user, userTypes).value;
            var order := GetSingleOrder(user, userTypes, orders, trackingId).value.value;
            (ShownPin(role, order).Some? || DeleteOffered(role, order)) ==> order.userId == user.value.subject
  {
  }
}
