/** The role registry: the `userType` table and `userCreatedMutation`, which
    registers a role for a user id the first time it is seen and ignores
    every later registration of the same id. */
module Registry {
  import opened Wrappers
  import opened Seqs
  import opened Schema

  /** Some record of `rows` belongs to `userId`. */
  predicate HasUser(rows: seq<RoleRecord>, userId: string) {
    exists i :: 0 <= i < |rows| && rows[i].userId == userId
  }

  /** Position `i` holds the earliest record of `userId`. */
  ghost predicate IsFirstRecord(rows: seq<RoleRecord>, i: int, userId: string) {
    0 <= i < |rows| && rows[i].userId == userId &&
    forall j :: 0 <= j < i ==> rows[j].userId != userId
  }

  /** At most one record per user id. */
  ghost predicate UniqueUsers(rows: seq<RoleRecord>) {
    forall i, j :: 0 <= i < j < |rows| ==> rows[i].userId != rows[j].userId
  }

  /** `ctx.db.query("userType").filter(userId == ...).first()`. */
  function FindUserType(rows: seq<RoleRecord>, userId: string): (r: Option<RoleRecord>)
    ensures r.None? <==> !HasUser(rows, userId)
    ensures r.Some? ==> exists i :: IsFirstRecord(rows, i, userId) && rows[i] == r.value
  {
    var r := First(rows, (rec: RoleRecord) => rec.userId == userId);
    assert r.Some? ==> exists i :: IsFirstRecord(rows, i, userId) && rows[i] == r.value;
    r
  }

  /** The `userType` table after `userCreatedMutation(userId, role, phoneNumber)`. */
  function Registered(rows: seq<RoleRecord>, userId: string, role: Role, phoneNumber: string): seq<RoleRecord>
  {
    if FindUserType(rows, userId).Some? then rows
    else rows + [RoleRecord(userId, role, phoneNumber)]
  }

  /** After registration the user has a record, and the role found for them
      is the one already stored or, for a new user, the one just given. */
  lemma RegisteredRole(rows: seq<RoleRecord>, userId: string, role: Role, phoneNumber: string)
    ensures FindUserType(Registered(rows, userId, role, phoneNumber), userId).Some?
    ensures FindUserType(Registered(rows, userId, role, phoneNumber), userId).value ==
      if HasUser(rows, userId) then FindUserType(rows, userId).value
      else RoleRecord(userId, role, phoneNumber)
  {
    if !HasUser(rows, userId) {
      FirstAppend(rows, RoleRecord(userId, role, phoneNumber), (rec: RoleRecord) => rec.userId == userId);
    }
  }

  /** A second registration of the same id leaves the table as the first one
      left it, whatever role and phone number it carries: the first write
      wins. */
  lemma RegisterIdempotent(rows: seq<RoleRecord>, userId: string, role: Role, phoneNumber: string,
                           role': Role, phoneNumber': string)
    ensures Registered(Registered(rows, userId, role, phoneNumber), userId, role', phoneNumber') ==
            Registered(rows, userId, role, phoneNumber)
  {
    RegisteredRole(rows, userId, role, phoneNumber);
  }

  /** Registration never alters an existing record: it can only append one. */
  lemma RegisterExtends(rows: seq<RoleRecord>, userId: string, role: Role, phoneNumber: string)
    ensures |Registered(rows, userId, role, phoneNumber)| >= |rows|
    ensures Registered(rows, userId, role, phoneNumber)[..|rows|] == rows
  {
  }

  /** What is found for any other user id stays the same. */
  lemma RegisterKeepsOthers(rows: seq<RoleRecord>, userId: string, role: Role, phoneNumber: string,
                            other: string)
    requires other != userId
    ensures FindUserType(Registered(rows, userId, role, phoneNumber), other) == FindUserType(rows, other)
  {
  }

  /** A table with at most one record per user id keeps that property. */
  lemma RegisterPreservesUnique(rows: seq<RoleRecord>, userId: string, role: Role, phoneNumber: string)
    requires UniqueUsers(rows)
    ensures UniqueUsers(Registered(rows, userId, role, phoneNumber))
  {
  }

  /** The two Convex tables the model touches. */
  class Database {
    var userType: seq<RoleRecord>
    var orders: seq<Order>

    constructor (userType: seq<RoleRecord>, orders: seq<Order>)
      ensures this.userType == userType && this.orders == orders
    {
      this.userType := userType;
      this.orders := orders;
    }

    /** `userCreatedMutation`: look the id up, insert only when absent. */
    method UserCreated(userId: string, role: Role, phoneNumber: string)
      modifies this
      ensures userType == Registered(old(userType), userId, role, phoneNumber)
      ensures HasUser(old(userType), userId) ==> userType == old(userType)
      ensures !HasUser(old(userType), userId) ==>
        userType == old(userType) + [RoleRecord(userId, role, phoneNumber)]
      ensures orders == old(orders)
    {
      var userExist := FindUserType(userType, userId);
      if userExist.None? {
        userType := userType + [RoleRecord(userId, role, phoneNumber)];
      }
    }
  }
}
