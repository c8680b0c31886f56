/** The `protectAdmin` guard of middleware/protectAdmin.js: a bearer token
    that verifies, names role "admin" and an existing admin lets the request
    through with `req.admin` set; every other request is answered here. */
module ProtectAdmin {
  import opened Wrappers
  import opened Bearer
  import opened AdminAuth
  import opened Express

  const NoTokenMessage := "Not authorized. No token provided."

  /** The decision chain: token, verification, role, lookup. A missing admin
      is 401 here, not 404. */
  function Decide(header: Option<string>, verify: string -> Verdict, admins: seq<Admin>): (g: Guard<AdminAccount>)
    ensures BearerToken(header).None? ==> g == Halt(401, NoTokenMessage)
    ensures Authenticate(header, verify).Err? ==>
      var f := Authenticate(header, verify).error;
      g == Halt(FailureCode(f), FailureMessage(f, NoTokenMessage))
    ensures Authenticate(header, verify).Ok? && Authenticate(header, verify).value.role != "admin" ==>
      g == Halt(403, AdminsOnlyMessage)
    ensures g.Pass? <==>
      && Authenticate(header, verify).Ok? && Authenticate(header, verify).value.role == "admin"
      && AdminIndexOfId(admins, Authenticate(header, verify).value.id).Some?
    ensures g.Pass? ==>
      g.principal == AdminAccountOf(admins[AdminIndexOfId(admins, Authenticate(header, verify).value.id).value])
    ensures Authenticate(header, verify).Ok? && Authenticate(header, verify).value.role == "admin" && !g.Pass? ==>
      g == Halt(401, AdminNotFoundMessage)
  {
    match Authenticate(header, verify)
    case Err(f) => Halt(FailureCode(f), FailureMessage(f, NoTokenMessage))
    case Ok(claims) =>
      if claims.role != "admin" then Halt(403, AdminsOnlyMessage)
      else match AdminIndexOfId(admins, claims.id)
        case None => Halt(401, AdminNotFoundMessage)
        case Some(k) => Pass(AdminAccountOf(admins[k]))
  }

  /** The guard itself: on a pass `req.admin` is set and `next()` is called
      exactly once, with no answer sent; otherwise the answer is sent and
      `next()` is not called. */
  method Run(ex: Exchange, verify: string -> Verdict, admins: seq<Admin>)
    modifies ex
    ensures ex.user == old(ex.user)
    ensures match Decide(ex.authorization, verify, admins)
      case Pass(a) =>
        ex.admin == Some(Some(a)) && ex.nextCalls == old(ex.nextCalls) + 1 && ex.answer == old(ex.answer)
      case Halt(code, message) =>
        ex.answer == Some(Answer(code, message)) && ex.nextCalls == old(ex.nextCalls) && ex.admin == old(ex.admin)
  {
    match Decide(ex.authorization, verify, admins)
    case Pass(a) =>
      ex.admin := Some(Some(a));
      ex.nextCalls := ex.nextCalls + 1;
    case Halt(code, message) =>
      ex.answer := Some(Answer(code, message));
  }
}
