/** The admin routes of routes/adminAuth.js (`POST /login`, `GET /me`) and
    the admin record they read. models/admin.js is not part of this model:
    the record is taken to have an e-mail, a stored password hash and a
    creation time, and `matchPassword` to be `compare(candidate, hash)` as
    for customers. The routes only read the admin collection. */
module AdminAuth {
  import opened Wrappers
  import opened Search
  import opened Http
  import opened Bearer

  datatype Admin = Admin(id: string, email: string, password: string, createdAt: int)

  /** An admin document read with `.select('-password')`. */
  datatype AdminAccount = AdminAccount(id: string, email: string, createdAt: int)

  function AdminAccountOf(a: Admin): AdminAccount
  {
    AdminAccount(a.id, a.email, a.createdAt)
  }

  /** `Admin.findOne({ email })`. */
  function AdminIndexOfEmail(admins: seq<Admin>, email: string): (r: Option<nat>)
    ensures r.Some? ==> r.value < |admins| && admins[r.value].email == email
    ensures r.None? <==> forall k :: 0 <= k < |admins| ==> admins[k].email != email
  {
    FindFirst(admins, (a: Admin) => a.email == email)
  }

  /** `Admin.findById(id)`. */
  function AdminIndexOfId(admins: seq<Admin>, id: string): (r: Option<nat>)
    ensures r.Some? ==> r.value < |admins| && admins[r.value].id == id
    ensures r.None? <==> forall k :: 0 <= k < |admins| ==> admins[k].id != id
  {
    FindFirst(admins, (a: Admin) => a.id == id)
  }

  const BadCredentialsMessage := "Invalid credentials"
  const LoginMessage := "Admin login successful"
  const NoTokenMessage := "Access denied. No token provided."
  const AdminsOnlyMessage := "Access denied. Admins only."
  const AdminNotFoundMessage := "Admin not found"

  /** The `user` object of the admin login answer. */
  datatype AdminProfile = AdminProfile(id: string, email: string, role: string)

  /** The admin login answer: the token, by its claims, the profile and a
      message. */
  datatype AdminSession = AdminSession(token: Claims, user: AdminProfile, message: string)

  const LoginFaultMessage := "Server error during admin login"

  /** `POST /login` (also `POST /admin/login` of routes/auth.js, which has the
      same body): an unknown e-mail and a wrong password get the very same
      401; a match gets a token and a profile with role "admin". The password
      is `None` when the body has none or a non-string one: `compare` then
      rejects, and the catch answers 500, but only once an admin was found. */
  function Login(admins: seq<Admin>, email: string, password: Option<string>, compare: (string, string) -> bool)
    : (r: Reply<AdminSession>)
    ensures r.Failure? ==> r == Failure(401, BadCredentialsMessage) || r == Failure(500, LoginFaultMessage)
    ensures r == Failure(500, LoginFaultMessage) <==> AdminIndexOfEmail(admins, email).Some? && password.None?
    ensures AdminIndexOfEmail(admins, email).None? ==> r == Failure(401, BadCredentialsMessage)
    ensures r.Success? <==>
      && AdminIndexOfEmail(admins, email).Some? && password.Some?
      && compare(password.value, admins[AdminIndexOfEmail(admins, email).value].password)
    ensures r.Success? ==>
      var a := admins[AdminIndexOfEmail(admins, email).value];
      && r.code == 200
      && r.body.token == Claims(a.id, "admin")
      && r.body.user == AdminProfile(a.id, a.email, "admin")
      && r.body.message == LoginMessage
  {
    match AdminIndexOfEmail(admins, email)
    case None => Failure(401, BadCredentialsMessage)
    case Some(k) =>
      match password
      case None => Failure(500, LoginFaultMessage)
      case Some(p) =>
        if !compare(p, admins[k].password) then Failure(401, BadCredentialsMessage)
        else Success(200, AdminSession(Claims(admins[k].id, "admin"), AdminProfile(admins[k].id, admins[k].email, "admin"), LoginMessage))
  }

  /** What `GET /me` returns: id, e-mail, creation time and role "admin". */
  datatype AdminView = AdminView(id: string, email: string, createdAt: int, role: string)

  /** `GET /me`: a refused credential maps to 401 (500 for an unexpected
      verification error), a token whose role is not "admin" to 403 before
      any lookup, an unknown id to 404. */
  function Me(header: Option<string>, verify: string -> Verdict, admins: seq<Admin>): (r: Reply<AdminView>)
    ensures Authenticate(header, verify).Err? ==>
      var f := Authenticate(header, verify).error;
      r == Failure(FailureCode(f), FailureMessage(f, NoTokenMessage))
    ensures r == Failure(403, AdminsOnlyMessage) <==>
      Authenticate(header, verify).Ok? && Authenticate(header, verify).value.role != "admin"
    ensures r == Failure(404, AdminNotFoundMessage) <==>
      && Authenticate(header, verify).Ok? && Authenticate(header, verify).value.role == "admin"
      && AdminIndexOfId(admins, Authenticate(header, verify).value.id).None?
    ensures r.Success? ==>
      && Authenticate(header, verify).Ok? && Authenticate(header, verify).value.role == "admin"
      && var a := admins[AdminIndexOfId(admins, Authenticate(header, verify).value.id).value];
         r == Success(200, AdminView(a.id, a.email, a.createdAt, "admin"))
  {
    match Authenticate(header, verify)
    case Err(f) => Failure(FailureCode(f), FailureMessage(f, NoTokenMessage))
    case Ok(claims) =>
      if claims.role != "admin" then Failure(403, AdminsOnlyMessage)
      else match AdminIndexOfId(admins, claims.id)
        case None => Failure(404, AdminNotFoundMessage)
        case Some(k) => Success(200, AdminView(admins[k].id, admins[k].email, admins[k].createdAt, "admin"))
  }

  /** The role test comes before the lookup: a non-admin token gets the same
      403 whatever the admin collection holds. */
  lemma MeRoleBeforeLookup(header: Option<string>, verify: string -> Verdict, admins1: seq<Admin>, admins2: seq<Admin>)
    requires Authenticate(header, verify).Ok? && Authenticate(header, verify).value.role != "admin"
    ensures Me(header, verify, admins1) == Me(header, verify, admins2) == Failure(403, AdminsOnlyMessage)
  {
  }
}
