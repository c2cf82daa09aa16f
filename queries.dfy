/** The read side of convex/queries.ts: who may see which role, which
    orders and which profile. Every query is a function of the caller's
    identity and the contents of the two tables, so none of them can change
    either table. */
module Queries {
  import opened Wrappers
  import opened Seqs
  import opened Schema
  import opened Registry

  /** The authenticated caller as the identity provider describes it. */
  datatype Identity = Identity(
    subject: string,
    name: Option<string>,
    email: Option<string>,
    pictureUrl: Option<string>)

  /** The errors the queries throw: "Unauthorized" and "User type not found". */
  datatype QueryError = Unauthorized | UserTypeNotFound

  /** What `getUserProfile` returns. */
  datatype Profile = Profile(
    name: string,
    email: string,
    pictureUrl: string,
    userType: Role,
    userId: string)

  /** A driver sees every pending order and every order assigned to them. */
  predicate DriverSees(subject: string, o: Order) {
    o.status == Pending || o.driverId == Some(subject)
  }

  /** Any other caller sees the orders they created. */
  predicate CustomerSees(subject: string, o: Order) {
    o.userId == subject
  }

  /** The visibility filter one role applies. */
  predicate InScope(role: Role, subject: string, o: Order) {
    if role == Driver then DriverSees(subject, o) else CustomerSees(subject, o)
  }

  /** `getUserType`. */
  function GetUserType(user: Option<Identity>, userTypes: seq<RoleRecord>): (r: Result<Role, QueryError>)
    ensures r == Err(Unauthorized) <==> user.None?
    ensures r == Err(UserTypeNotFound) <==> user.Some? && !HasUser(userTypes, user.value.subject)
    ensures r.Ok? ==> exists i :: IsFirstRecord(userTypes, i, user.value.subject) && userTypes[i].role == r.value
  {
    if user.None? then Err(Unauthorized)
    else
      match FindUserType(userTypes, user.value.subject)
      case None => Err(UserTypeNotFound)
      case Some(record) => Ok(record.role)
  }

  /** `getUserOrders`: the caller's role decides the filter; the orders come
      back in table order. */
  function GetUserOrders(user: Option<Identity>, userTypes: seq<RoleRecord>, orders: seq<Order>)
    : (r: Result<seq<Order>, QueryError>)
    ensures r.Err? <==> GetUserType(user, userTypes).Err?
    ensures r.Err? ==> r.error == GetUserType(user, userTypes).error
    ensures r.Ok? && GetUserType(user, userTypes).value == Driver ==>
      forall o :: o in r.value <==> o in orders && (o.status == Pending || o.driverId == Some(user.value.subject))
    ensures r.Ok? && GetUserType(user, userTypes).value == Customer ==>
      forall o :: o in r.value <==> o in orders && o.userId == user.value.subject
    ensures r.Ok? ==>
      forall o :: multiset(r.value)[o] ==
        if InScope(GetUserType(user, userTypes).value, user.value.subject, o) then multiset(orders)[o] else 0
    ensures r.Ok? ==> IsSubsequence(r.value, orders)
  {
    match GetUserType(user, userTypes)
    case Err(e) => Err(e)
    case Ok(role) =>
      var subject := user.value.subject;
      Ok(Filter(orders, (o: Order) => InScope(role, subject, o)))
  }

  /** `getSingleOrder`: the first order in the caller's scope that carries
      `trackingId`. */
  function GetSingleOrder(user: Option<Identity>, userTypes: seq<RoleRecord>, orders: seq<Order>,
                          trackingId: string): (r: Result<Option<Order>, QueryError>)
    ensures r.Err? <==> GetUserType(user, userTypes).Err?
    ensures r.Err? ==> r.error == GetUserType(user, userTypes).error
    ensures r.Ok? && r.value.Some? ==>
      r.value.value in orders && r.value.value.trackingId == trackingId &&
      InScope(GetUserType(user, userTypes).value, user.value.subject, r.value.value)
  {
    match GetUserType(user, userTypes)
    case Err(e) => Err(e)
    case Ok(role) =>
      var subject := user.value.subject;
      Ok(First(orders, (o: Order) => InScope(role, subject, o) && o.trackingId == trackingId))
  }

  /** `getUserProfile`: fails only without an identity; a missing role reads
      as customer and missing claims read as "User" and "". */
  function GetUserProfile(user: Option<Identity>, userTypes: seq<RoleRecord>): (r: Result<Profile, QueryError>)
    ensures r.Err? <==> user.None?
    ensures r.Err? ==> r.error == Unauthorized
    ensures r.Ok? ==> r.value.userId == user.value.subject
    ensures r.Ok? ==>
      (r.value.userType == if HasUser(userTypes, user.value.subject) then GetUserType(user, userTypes).value else Customer)
    ensures r.Ok? ==> (r.value.name == if Truthy(user.value.name) then user.value.name.value else "User")
    ensures r.Ok? ==> (r.value.email == if Truthy(user.value.email) then user.value.email.value else "")
    ensures r.Ok? ==>
      (r.value.pictureUrl == if Truthy(user.value.pictureUrl) then user.value.pictureUrl.value else "")
  {
    if user.None? then Err(Unauthorized)
    else
      var id := user.value;
      var record := FindUserType(userTypes, id.subject);
      Ok(Profile(
        OrElse(id.name, "User"),
        OrElse(id.email, ""),
        OrElse(id.pictureUrl, ""),
        if record.Some? then record.value.role else Customer,
        id.subject))
  }

  /** A customer is never shown an order somebody else created. */
  lemma CustomerSeesOnlyOwnOrders(user: Option<Identity>, userTypes: seq<RoleRecord>, orders: seq<Order>, o: Order)
    requires GetUserType(user, userTypes) == Ok(Customer)
    requires o in GetUserOrders(user, userTypes, orders).value
    ensures o.userId == user.value.subject
  {
  }

  /** The order `getSingleOrder` returns is one of the caller's
      `getUserOrders`, and it is the first of those carrying `trackingId`. */
  lemma SingleOrderIsUserOrder(user: Option<Identity>, userTypes: seq<RoleRecord>, orders: seq<Order>,
                               trackingId: string)
    requires GetSingleOrder(user, userTypes, orders, trackingId).Ok?
    requires GetSingleOrder(user, userTypes, orders, trackingId).value.Some?
    ensures GetUserOrders(user, userTypes, orders).Ok?
    ensures GetSingleOrder(user, userTypes, orders, trackingId).value.value
            in GetUserOrders(user, userTypes, orders).value
    ensures GetSingleOrder(user, userTypes, orders, trackingId).value ==
            First(GetUserOrders(user, userTypes, orders).value, (o: Order) => o.trackingId == trackingId)
  {
    var role := GetUserType(user, userTypes).value;
    var subject := user.value.subject;
    FirstOfFilter(orders, (o: Order) => InScope(role, subject, o), (o: Order) => o.trackingId == trackingId,
                  (o: Order) => InScope(role, subject, o) && o.trackingId == trackingId);
  }

  /** `getSingleOrder` finds nothing exactly when none of the caller's
      `getUserOrders` carries `trackingId`. */
  lemma SingleOrderNoneIff(user: Option<Identity>, userTypes: seq<RoleRecord>, orders: seq<Order>,
                           trackingId: string)
    requires GetUserType(user, userTypes).Ok?
    ensures GetSingleOrder(user, userTypes, orders, trackingId).value.None? <==>
      forall o :: o in GetUserOrders(user, userTypes, orders).value ==> o.trackingId != trackingId
  {
    var role := GetUserType(user, userTypes).value;
    var subject := user.value.subject;
    FirstOfFilter(orders, (o: Order) => InScope(role, subject, o), (o: Order) => o.trackingId == trackingId,
                  (o: Order) => InScope(role, subject, o) && o.trackingId == trackingId);
  }
}
