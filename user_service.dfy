/** `UserService.createOrUpdateUser`: upsert the local user row from a verified
    identity token, taking the role from the token's "role" claim. */
module UserService {
  import opened Wrappers
  import opened Entities
  import opened Errors
  import opened Store

  /** The fields read from a decoded identity token; `roleClaim` is the string
      form of the "role" custom claim, when the claim is present. */
  datatype Token = Token(uid: string, email: string, name: string, roleClaim: Option<string>)

  /** `Role.name()`. */
  function RoleToString(role: Role): string {
    match role
    case CUSTOMER => "CUSTOMER"
    case ADMIN => "ADMIN"
  }

  /** `Role.valueOf`: the constant with exactly that name, if any. */
  function RoleValueOf(name: string): (r: Option<Role>)
    ensures r.Some? ==> RoleToString(r.value) == name
    ensures r.None? <==> forall role: Role :: RoleToString(role) != name
  {
    if name == "CUSTOMER" then Some(CUSTOMER)
    else if name == "ADMIN" then Some(ADMIN)
    else None
  }

  /** `valueOf` inverts `name()` on every constant. */
  lemma RoleRoundTrip(role: Role)
    ensures RoleValueOf(RoleToString(role)) == Some(role)
  {
  }

  /** The role name to look up: the claim when present, "CUSTOMER" otherwise. */
  function RoleName(claim: Option<string>): (r: string)
    ensures claim.Some? ==> r == claim.value
    ensures claim.None? ==> r == "CUSTOMER"
  {
    if claim.Some? then claim.value else "CUSTOMER"
  }

  /** The fallback names a real constant, so a token without a role claim always
      yields a CUSTOMER. */
  lemma MissingClaimIsCustomer()
    ensures RoleValueOf(RoleName(None)) == Some(CUSTOMER)
  {
  }

  /** The users table after the upsert, or the `valueOf` failure. */
  function Upsert(users: map<string, User>, token: Token): (r: Result<map<string, User>, ServiceError>)
    ensures r.Failure? <==> RoleValueOf(RoleName(token.roleClaim)).None?
    ensures r.Failure? ==> r.error == NoEnumConstant(RoleName(token.roleClaim))
    ensures r.Success? ==> r.value.Keys == users.Keys + {token.uid}
    ensures r.Success? ==> forall u :: u in users && u != token.uid ==> r.value[u] == users[u]
    ensures r.Success? ==> var user := r.value[token.uid];
      user.email == token.email && user.name == token.name &&
      user.role == RoleValueOf(RoleName(token.roleClaim)).value
    ensures r.Success? && token.uid in users ==> var user := r.value[token.uid];
      user.uid == users[token.uid].uid && user.phoneNumber == users[token.uid].phoneNumber &&
      user.shippingAddress == users[token.uid].shippingAddress
    ensures r.Success? && token.uid !in users ==>
      r.value[token.uid] == User(token.uid, token.name, token.email, None, None, r.value[token.uid].role)
  {
    match RoleValueOf(RoleName(token.roleClaim))
    case None => Failure(NoEnumConstant(RoleName(token.roleClaim)))
    case Some(role) =>
      var user :=
        if token.uid in users then users[token.uid].(email := token.email, name := token.name, role := role)
        else User(token.uid, token.name, token.email, None, None, role);
      Success(users[token.uid := user])
  }

  /** Upserting twice with the same token stores the same table as upserting once. */
  lemma UpsertIdempotent(users: map<string, User>, token: Token)
    requires Upsert(users, token).Success?
    ensures Upsert(Upsert(users, token).value, token) == Upsert(users, token)
  {
    var once := Upsert(users, token).value;
    var role := RoleValueOf(RoleName(token.roleClaim)).value;
    var user := once[token.uid];
    assert user.(email := token.email, name := token.name, role := role) == user;
    assert once[token.uid := user] == once;
  }

  /** The upsert stores the user under the token's uid, so rows stay keyed by uid. */
  lemma UpsertKeepsKeyed(users: map<string, User>, token: Token)
    requires UsersKeyed(users) && Upsert(users, token).Success?
    ensures UsersKeyed(Upsert(users, token).value)
  {
  }

  /** `createOrUpdateUser`: refresh email, name and role of an existing user or
      create a new one; an unknown role name fails and nothing is saved. */
  method CreateOrUpdateUser(db: Database, token: Token) returns (r: Result<User, ServiceError>)
    requires db.Valid()
    modifies db
    ensures db.Valid()
    ensures db.categories == old(db.categories) && db.products == old(db.products)
    ensures db.carts == old(db.carts) && db.orders == old(db.orders) && db.nextId == old(db.nextId)
    ensures Upsert(old(db.users), token).Failure? ==>
      r == Failure(Upsert(old(db.users), token).error) && unchanged(db)
    ensures Upsert(old(db.users), token).Success? ==>
      db.users == Upsert(old(db.users), token).value && r == Success(db.users[token.uid])
  {
    var uid, email, name := token.uid, token.email, token.name;
    var role := RoleName(token.roleClaim);
    var user: User;
    if uid in db.users {
      user := db.users[uid];
      user := user.(email := email);
      user := user.(name := name);
      var parsed := RoleValueOf(role);
      if parsed.None? {
        return Failure(NoEnumConstant(role));
      }
      user := user.(role := parsed.value);
    } else {
      var parsed := RoleValueOf(role);
      if parsed.None? {
        return Failure(NoEnumConstant(role));
      }
      user := User(uid, name, email, None, None, parsed.value);
    }
    UpsertKeepsKeyed(db.users, token);
    db.users := db.users[uid := user];
    r := Success(user);
  }
}
