/** The `protect` guard of middleware/auth.js: weaker than `protectAdmin`.
    Any verified token passes, whatever its role, and `next()` is called
    even when no admin has the token's id (`req.admin` is then null). Every
    verification failure is the same 401. The token is verified with this
    file's own fallback secret, which differs from the other files'; the
    verification function is a parameter, so the difference is only noted. */
module AuthMiddleware {
  import opened Wrappers
  import opened Bearer
  import opened AdminAuth
  import opened Express
  import ProtectAdmin

  const NoTokenMessage := "Not authorized"
  const BadTokenMessage := "Token is not valid"

  function Decide(header: Option<string>, verify: string -> Verdict, admins: seq<Admin>): (g: Guard<Option<AdminAccount>>)
    ensures BearerToken(header).None? ==> g == Halt(401, NoTokenMessage)
    ensures BearerToken(header).Some? && Authenticate(header, verify).Err? ==> g == Halt(401, BadTokenMessage)
    ensures g.Pass? <==> Authenticate(header, verify).Ok?
    ensures g.Pass? ==>
      match AdminIndexOfId(admins, Authenticate(header, verify).value.id)
      case Some(k) => g.principal == Some(AdminAccountOf(admins[k]))
      case None => g.principal == None
    ensures g.Halt? ==> g.code == 401
  {
    match Authenticate(header, verify)
    case Err(NoToken) => Halt(401, NoTokenMessage)
    case Err(_) => Halt(401, BadTokenMessage)
    case Ok(claims) =>
      match AdminIndexOfId(admins, claims.id)
      case Some(k) => Pass(Some(AdminAccountOf(admins[k])))
      case None => Pass(None)
  }

  /** The guard itself: on a pass `req.admin` is set (possibly to null) and
      `next()` is called exactly once; otherwise the 401 is sent. */
  method Run(ex: Exchange, verify: string -> Verdict, admins: seq<Admin>)
    modifies ex
    ensures ex.user == old(ex.user)
    ensures match Decide(ex.authorization, verify, admins)
      case Pass(a) =>
        ex.admin == Some(a) && ex.nextCalls == old(ex.nextCalls) + 1 && ex.answer == old(ex.answer)
      case Halt(code, message) =>
        ex.answer == Some(Answer(code, message)) && ex.nextCalls == old(ex.nextCalls) && ex.admin == old(ex.admin)
  {
    match Decide(ex.authorization, verify, admins)
    case Pass(a) =>
      ex.admin := Some(a);
      ex.nextCalls := ex.nextCalls + 1;
    case Halt(code, message) =>
      ex.answer := Some(Answer(code, message));
  }

  /** Everything `protectAdmin` lets through, `protect` lets through too; a
      customer token (role "user") shows that the converse fails. */
  lemma WeakerThanProtectAdmin(header: Option<string>, verify: string -> Verdict, admins: seq<Admin>)
    ensures ProtectAdmin.Decide(header, verify, admins).Pass? ==> Decide(header, verify, admins).Pass?
    ensures Authenticate(header, verify).Ok? && Authenticate(header, verify).value.role == "user" ==>
      Decide(header, verify, admins).Pass? && ProtectAdmin.Decide(header, verify, admins).Halt?
  {
  }
}
