/** User lookups and registration (src/users/router.py): the public sign-up
    endpoints force the stored role (and, for members, the user type), only
    the admin endpoint stores the role it is sent, every endpoint refuses an
    email that is already registered, and only the hash of the password is
    stored. */
module UserRegistration {
  import opened Common
  import opened Models

  // ---------------------------------------------------------------------------
  // Lookups
  // ---------------------------------------------------------------------------

  datatype Lookups = Lookups(ageRanges: seq<string>, industries: seq<string>, roles: seq<string>,
                             userTypes: seq<string>)

  /** The values other than `excluded`, in order. */
  function Except(values: seq<string>, excluded: string): (r: seq<string>)
    ensures forall v :: v in r <==> v in values && v != excluded
    ensures |r| <= |values|
    decreases |values|
  {
    if values == [] then []
    else (if values[0] == excluded then [] else [values[0]]) + Except(values[1..], excluded)
  }

  /** `get_lookups`: every enumeration in declaration order, without the
      admin role. */
  function GetLookups(): (r: Lookups)
    ensures r.ageRanges == AgeRangeValues && r.industries == IndustryValues && r.userTypes == UserTypeValues
    ensures forall v :: v in r.roles <==> v in RoleValues && v != RoleAdmin
  {
    Lookups(AgeRangeValues, IndustryValues, Except(RoleValues, RoleAdmin), UserTypeValues)
  }

  /** The sign-up roles are the member, supplier and provider roles, in that
      order. */
  lemma LookupRoles()
    ensures GetLookups().roles == [RoleMember, RoleSupplier, RoleProvider]
  {
    var rs := RoleValues;
    assert rs[3..][1..] == [];
    assert Except(rs[3..], RoleAdmin) == [];
    assert rs[2..][1..] == rs[3..];
    assert Except(rs[2..], RoleAdmin) == [RoleProvider];
    assert rs[1..][1..] == rs[2..];
    assert Except(rs[1..], RoleAdmin) == [RoleSupplier, RoleProvider];
  }

  // ---------------------------------------------------------------------------
  // Registration
  // ---------------------------------------------------------------------------

  /** The `UserCreate` body. `role` and `userType` hold the strings sent;
      Pydantic fills in "Member" and "consumer" when they are absent. */
  datatype UserCreate = UserCreate(email: string, password: string, fullName: Option<string>,
                                   state: Option<string>, ageRange: Option<string>, industry: Option<string>,
                                   householdSize: Option<int>, role: string, userType: string)

  const EmailExists := HttpError(400, "A user with this email already exists.")
  const EmailAlreadyRegistered := HttpError(400, "Email already registered")

  const ConsumerType := "consumer"

  /** FastAPI's answer to a body that fails validation. */
  const InvalidBody := HttpError(422, "Unprocessable Entity")

  /** The `UserCreate` constraints checked before any endpoint runs: an
      email that `EmailStr` accepts (its syntax check is the opaque
      `validEmail`), a password of 8 to 128 characters, a state of at most 2
      characters, and a role and a user type from their enumerations. */
  predicate ValidPayload(p: UserCreate, validEmail: string -> bool) {
    && validEmail(p.email)
    && 8 <= |p.password| <= 128
    && (p.state.Some? ==> |p.state.value| <= 2)
    && p.role in RoleValues && p.userType in UserTypeValues
  }

  predicate EmailTaken(users: seq<User>, email: string) {
    exists u :: u in users && u.email == email
  }

  /** The row an endpoint stores for the payload, given the role and user
      type it decided on. Only the hash of the password is kept. */
  function NewUser(id: int, payload: UserCreate, role: string, userType: string, hash: string -> string): (u: User)
    ensures u.id == id && u.email == payload.email && u.hashedPassword == hash(payload.password)
    ensures u.role == role && u.userType == userType
    ensures u.fullName == payload.fullName && u.state == payload.state && u.ageRange == payload.ageRange
    ensures u.industry == payload.industry && u.householdSize == payload.householdSize
    ensures u.chronicConditions.None?
  {
    User(id, payload.email, hash(payload.password), userType, payload.fullName, payload.state, payload.ageRange,
         payload.industry, payload.householdSize, role, None)
  }

  /** The user type `register_supplier` stores: the value sent when it is one
      of the enumeration's, otherwise the enumeration's first value. */
  function SupplierUserType(sent: string): (t: string)
    ensures t in UserTypeValues
    ensures sent in UserTypeValues ==> t == sent
    ensures sent !in UserTypeValues ==> t == ConsumerType
  {
    if sent in UserTypeValues then sent else UserTypeValues[0]
  }

  /** Emails are unique and ids increase in insertion order. */
  ghost predicate WellFormed(users: seq<User>, nextId: int) {
    && (forall i, j :: 0 <= i < j < |users| ==> users[i].email != users[j].email)
    && (forall i, j :: 0 <= i < j < |users| ==> users[i].id < users[j].id)
    && (forall i :: 0 <= i < |users| ==> users[i].id < nextId)
  }

  /** Appending a user with a new email and the next id keeps the table
      well formed. */
  lemma {:induction false} InsertKeepsWellFormed(users: seq<User>, nextId: int, u: User)
    requires WellFormed(users, nextId)
    requires !EmailTaken(users, u.email) && u.id == nextId
    ensures WellFormed(users + [u], nextId + 1)
  {
    var t := users + [u];
    forall i, j | 0 <= i < j < |t| ensures t[i].email != t[j].email {
      if j == |users| {
        assert t[i] in users;
      }
    }
  }

  /** The `users` table. */
  class UserDirectory {
    var users: seq<User>
    var nextId: int

    ghost predicate Valid()
      reads this
    {
      WellFormed(users, nextId)
    }

    constructor ()
      ensures users == [] && nextId == 1
      ensures Valid()
    {
      users := [];
      nextId := 1;
    }

    /** Stores a user with the next id and the decided role and type. */
    method Insert(payload: UserCreate, role: string, userType: string, hash: string -> string) returns (u: User)
      requires Valid()
      requires !EmailTaken(users, payload.email)
      modifies this
      ensures Valid()
      ensures u == NewUser(old(nextId), payload, role, userType, hash)
      ensures users == old(users) + [u] && nextId == old(nextId) + 1
    {
      u := NewUser(nextId, payload, role, userType, hash);
      InsertKeepsWellFormed(users, nextId, u);
      users := users + [u];
      nextId := nextId + 1;
    }

    /** `register_user`: an invalid body (a malformed email included) is a 422 and a taken email a 400;
        otherwise a member consumer, whatever role and type the payload asks
        for. */
    method RegisterUser(payload: UserCreate, validEmail: string -> bool, hash: string -> string) returns (r: Result<User>)
      requires Valid()
      modifies this
      ensures Valid()
      ensures r.Ok? <==> ValidPayload(payload, validEmail) && !EmailTaken(old(users), payload.email)
      ensures r.Err? ==> users == old(users) && nextId == old(nextId)
      ensures !ValidPayload(payload, validEmail) ==> r == Err(InvalidBody)
      ensures ValidPayload(payload, validEmail) && EmailTaken(old(users), payload.email) ==> r == Err(EmailExists)
      ensures r.Ok? ==> r.value == NewUser(old(nextId), payload, RoleMember, ConsumerType, hash)
                        && users == old(users) + [r.value]
    {
      if !ValidPayload(payload, validEmail) {
        return Err(InvalidBody);
      }
      if EmailTaken(users, payload.email) {
        return Err(EmailExists);
      }
      var u := Insert(payload, RoleMember, ConsumerType, hash);
      r := Ok(u);
    }

    /** `register_supplier`: an invalid body is a 422 and a taken email a
        400; otherwise an insurance supplier with the user type sent, or the
        first type. Since the body was validated, the type sent is always
        the one stored. */
    method RegisterSupplier(payload: UserCreate, validEmail: string -> bool, hash: string -> string) returns (r: Result<User>)
      requires Valid()
      modifies this
      ensures Valid()
      ensures r.Ok? <==> ValidPayload(payload, validEmail) && !EmailTaken(old(users), payload.email)
      ensures r.Err? ==> users == old(users) && nextId == old(nextId)
      ensures !ValidPayload(payload, validEmail) ==> r == Err(InvalidBody)
      ensures ValidPayload(payload, validEmail) && EmailTaken(old(users), payload.email) ==> r == Err(EmailAlreadyRegistered)
      ensures r.Ok? ==> r.value == NewUser(old(nextId), payload, RoleSupplier, SupplierUserType(payload.userType), hash)
                        && users == old(users) + [r.value]
      ensures r.Ok? ==> r.value.userType == payload.userType
    {
      if !ValidPayload(payload, validEmail) {
        return Err(InvalidBody);
      }
      if EmailTaken(users, payload.email) {
        return Err(EmailAlreadyRegistered);
      }
      var u := Insert(payload, RoleSupplier, SupplierUserType(payload.userType), hash);
      r := Ok(u);
    }

    /** `admin_create_user`: an invalid body is a 422 and a taken email a
        400; otherwise the role and type of the payload are stored as sent,
        so only enumeration values are ever stored. */
    method AdminCreateUser(payload: UserCreate, validEmail: string -> bool, hash: string -> string) returns (r: Result<User>)
      requires Valid()
      modifies this
      ensures Valid()
      ensures r.Ok? <==> ValidPayload(payload, validEmail) && !EmailTaken(old(users), payload.email)
      ensures r.Err? ==> users == old(users) && nextId == old(nextId)
      ensures !ValidPayload(payload, validEmail) ==> r == Err(InvalidBody)
      ensures ValidPayload(payload, validEmail) && EmailTaken(old(users), payload.email) ==> r == Err(EmailExists)
      ensures r.Ok? ==> r.value == NewUser(old(nextId), payload, payload.role, payload.userType, hash)
                        && users == old(users) + [r.value]
      ensures r.Ok? ==> r.value.role in RoleValues && r.value.userType in UserTypeValues
    {
      if !ValidPayload(payload, validEmail) {
        return Err(InvalidBody);
      }
      if EmailTaken(users, payload.email) {
        return Err(EmailExists);
      }
      var u := Insert(payload, payload.role, payload.userType, hash);
      r := Ok(u);
    }
  }

  /** Neither public endpoint can store the admin role, whatever the payload
      says; only the admin endpoint passes the payload's role through. */
  lemma PublicSignupNeverAdmin(id: int, payload: UserCreate, hash: string -> string)
    ensures NewUser(id, payload, RoleMember, ConsumerType, hash).role != RoleAdmin
    ensures NewUser(id, payload, RoleSupplier, SupplierUserType(payload.userType), hash).role != RoleAdmin
    ensures payload.role == RoleAdmin ==> NewUser(id, payload, payload.role, payload.userType, hash).role == RoleAdmin
  {
  }

  /** In a well-formed table an email identifies at most one user: a login
      by email finds exactly the user registered with it. */
  lemma {:induction false} OneUserPerEmail(users: seq<User>, nextId: int, u: User, v: User)
    requires WellFormed(users, nextId)
    requires u in users && v in users && u.email == v.email
    ensures u == v
  {
    var i :| 0 <= i < |users| && users[i] == u;
    var j :| 0 <= j < |users| && users[j] == v;
    assert users[i].email == users[j].email;
    assert i == j;
  }
}
