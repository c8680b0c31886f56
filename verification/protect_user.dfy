/** The `protectUser` guard of middleware/protectUser.js: a bearer token
    that verifies, names role "user" and an existing customer lets the
    request through with `req.user` set to the password-less document. */
module ProtectUser {
  import opened Wrappers
  import opened Bearer
  import opened UserModel
  import opened Express
  import CustomerAuth

  const NoTokenMessage := "Not authorized. No token provided."
  const CustomersOnlyMessage := "Access denied. Customers only."
  const UserNotFoundMessage := "User not found"

  /** The decision chain: token, verification, role, lookup. A missing user
      is 401 here, not 404. */
  function Decide(header: Option<string>, verify: string -> Verdict, users: seq<User>): (g: Guard<Account>)
    ensures BearerToken(header).None? ==> g == Halt(401, NoTokenMessage)
    ensures Authenticate(header, verify).Err? ==>
      var f := Authenticate(header, verify).error;
      g == Halt(FailureCode(f), FailureMessage(f, NoTokenMessage))
    ensures Authenticate(header, verify).Ok? && Authenticate(header, verify).value.role != "user" ==>
      g == Halt(403, CustomersOnlyMessage)
    ensures g.Pass? <==>
      && Authenticate(header, verify).Ok? && Authenticate(header, verify).value.role == "user"
      && IndexOfId(users, Authenticate(header, verify).value.id).Some?
    ensures g.Pass? ==>
      g.principal == AccountOf(users[IndexOfId(users, Authenticate(header, verify).value.id).value])
    ensures Authenticate(header, verify).Ok? && Authenticate(header, verify).value.role == "user" && !g.Pass? ==>
      g == Halt(401, UserNotFoundMessage)
  {
    match Authenticate(header, verify)
    case Err(f) => Halt(FailureCode(f), FailureMessage(f, NoTokenMessage))
    case Ok(claims) =>
      if claims.role != "user" then Halt(403, CustomersOnlyMessage)
      else match IndexOfId(users, claims.id)
        case None => Halt(401, UserNotFoundMessage)
        case Some(k) => Pass(AccountOf(users[k]))
  }

  /** The guard itself: on a pass `req.user` is set and `next()` is called
      exactly once, with no answer sent; otherwise the answer is sent and
      `next()` is not called. */
  method Run(ex: Exchange, verify: string -> Verdict, users: seq<User>)
    modifies ex
    ensures ex.admin == old(ex.admin)
    ensures match Decide(ex.authorization, verify, users)
      case Pass(u) =>
        ex.user == Some(u) && ex.nextCalls == old(ex.nextCalls) + 1 && ex.answer == old(ex.answer)
      case Halt(code, message) =>
        ex.answer == Some(Answer(code, message)) && ex.nextCalls == old(ex.nextCalls) && ex.user == old(ex.user)
  {
    match Decide(ex.authorization, verify, users)
    case Pass(u) =>
      ex.user := Some(u);
      ex.nextCalls := ex.nextCalls + 1;
    case Halt(code, message) =>
      ex.answer := Some(Answer(code, message));
  }

  /** The guard and the customer `/me` route agree on who is signed in: a
      request the guard lets through is answered by `/me` with the same
      document. */
  lemma PassedUserIsMe(header: Option<string>, verify: string -> Verdict, users: seq<User>)
    requires Decide(header, verify, users).Pass?
    ensures CustomerAuth.Me(header, verify, users).Success?
    ensures CustomerAuth.Me(header, verify, users).body.account == Decide(header, verify, users).principal
  {
  }
}
