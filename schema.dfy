/** The records held by the two Convex tables, `userType` and `orders`.

    The role is the closed union of convex/schema.ts; the order record has
    the fields that convex/queries.ts filters on and that the gating of
    app/order-details.tsx reads, plus `deliveryFee`, which the screen
    displays with 500 added (`OrderDetails.DisplayedFee`). The other fields
    the screen only displays are not part of it. */
module Schema {
  import opened Wrappers

  /** The role claimed by a user at registration. */
  datatype Role = Customer | Driver

  /** One row of the `userType` table. */
  datatype RoleRecord = RoleRecord(userId: string, role: Role, phoneNumber: string)

  /** One row of the `orders` table. `status` is the raw string stored with
      the order; `driverId` and `deliveryPin` may be absent. */
  datatype Order = Order(
    trackingId: string,
    userId: string,
    driverId: Option<string>,
    status: string,
    deliveryPin: Option<string>,
    deliveryFee: real)

  /** The four status strings of the order lifecycle. */
  const Pending: string := "pending"
  const Assigned: string := "assigned"
  const PickedUp: string := "picked_up"
  const Delivered: string := "delivered"

  /** JavaScript truthiness of an optional string: present and not "". */
  predicate Truthy(s: Option<string>) {
    s.Some? && s.value != ""
  }

  /** `s || fallback` for an optional string. */
  function OrElse(s: Option<string>, fallback: string): string
  {
    if Truthy(s) then s.value else fallback
  }
}
