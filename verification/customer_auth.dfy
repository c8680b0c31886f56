/** The customer routes of routes/customerAuth.js: registration, login,
    `/me`, and the password-reset token lifecycle (`/forgot-password` issues
    a token valid for one hour, `/reset-password/:token` redeems it once).
    Request fields are strings; an absent field reads as "" (both are falsy
    and both fail a `required` validator). A token is represented by the
    claims it is signed with. */
module CustomerAuth {
  import opened Wrappers
  import opened Search
  import opened Http
  import opened Bearer
  import opened UserModel

  /** The `user` object of the register and login answers. */
  datatype Profile = Profile(id: string, name: string, email: string, role: string)

  /** A signed-in answer: the token, by its claims, and the profile. */
  datatype Session = Session(token: Claims, user: Profile)

  /** The session every customer answer carries: a token and a profile with
      role "user". */
  function CustomerSession(u: User): Session
  {
    Session(Claims(u.id, "user"), Profile(u.id, u.name, u.email, "user"))
  }

  const MissingFieldsMessage := "Name, email, and password are required"
  const DuplicateEmailMessage := "User with this email already exists"
  const RegisterFaultMessage := "Server error during registration"
  const BadCredentialsMessage := "Invalid credentials"
  const NoTokenMessage := "Access denied. No token provided."

  // ---------------------------------------------------------------------
  // Registration
  // ---------------------------------------------------------------------

  /** The answer of `POST /register` for the users stored before the request:
      400 for a missing field before any lookup, 400 for a taken e-mail, 500
      when the write fails, and otherwise 201 with a role "user" session for
      the new record. */
  function RegisterAnswer(users: seq<User>, name: string, email: string, password: string, id: string, dbOk: bool)
    : (r: Reply<Session>)
    ensures name == "" || email == "" || password == "" ==> r == Failure(400, MissingFieldsMessage)
    ensures r.code == 400 <==> name == "" || email == "" || password == "" || IndexOfEmail(users, email).Some?
    ensures r.Success? <==> name != "" && email != "" && password != "" && IndexOfEmail(users, email).None? && dbOk
    ensures r.Success? ==> r.code == 201 && r.body.token == Claims(id, "user") && r.body.user == Profile(id, name, email, "user")
    ensures r.Failure? && r.code != 400 ==> r == Failure(500, RegisterFaultMessage)
  {
    if name == "" || email == "" || password == "" then Failure(400, MissingFieldsMessage)
    else if IndexOfEmail(users, email).Some? then Failure(400, DuplicateEmailMessage)
    else if !dbOk then Failure(500, RegisterFaultMessage)
    else Success(201, Session(Claims(id, "user"), Profile(id, name, email, "user")))
  }

  /** `POST /register`: the presence test, the duplicate lookup, then
      `User.create`. Exactly one user is added on success, none otherwise. */
  method Register(store: UserStore, name: string, email: string, password: string, id: string, now: int, dbOk: bool)
    returns (r: Reply<Session>)
    requires store.Valid() && IndexOfId(store.users, id).None?
    modifies store
    ensures store.Valid()
    ensures r == RegisterAnswer(old(store.users), name, email, password, id, dbOk)
    ensures r.Success? ==> store.users == old(store.users) + [User(id, name, email, store.hash(password), now, None, None)]
    ensures r.Failure? ==> store.users == old(store.users)
  {
    if name == "" || email == "" || password == "" {
      return Failure(400, MissingFieldsMessage);
    }
    if IndexOfEmail(store.users, email).Some? {
      return Failure(400, DuplicateEmailMessage);
    }
    var created := store.Create(id, name, email, password, now, dbOk);
    if created.None? {
      return Failure(500, RegisterFaultMessage);
    }
    r := Success(201, CustomerSession(created.value));
  }

  // ---------------------------------------------------------------------
  // Login and /me
  // ---------------------------------------------------------------------

  const LoginFaultMessage := "Server error during login"

  /** `POST /login`: the first user with the e-mail, then `matchPassword`.
      An unknown e-mail and a wrong password get the very same 401. The
      password is `None` when the body has none or a non-string one: bcrypt's
      `compare` then rejects, and the catch answers 500, but only once a user
      was found. */
  function Login(users: seq<User>, email: string, password: Option<string>, compare: (string, string) -> bool)
    : (r: Reply<Session>)
    ensures r.Failure? ==> r == Failure(401, BadCredentialsMessage) || r == Failure(500, LoginFaultMessage)
    ensures r == Failure(500, LoginFaultMessage) <==> IndexOfEmail(users, email).Some? && password.None?
    ensures IndexOfEmail(users, email).None? ==> r == Failure(401, BadCredentialsMessage)
    ensures r.Success? <==>
      && IndexOfEmail(users, email).Some? && password.Some?
      && MatchPassword(users[IndexOfEmail(users, email).value], password.value, compare)
    ensures r.Success? ==>
      var u := users[IndexOfEmail(users, email).value];
      r.code == 200 && r.body.token == Claims(u.id, "user") && r.body.user == Profile(u.id, u.name, u.email, "user")
  {
    match IndexOfEmail(users, email)
    case None => Failure(401, BadCredentialsMessage)
    case Some(k) =>
      match password
      case None => Failure(500, LoginFaultMessage)
      case Some(p) =>
        if !MatchPassword(users[k], p, compare) then Failure(401, BadCredentialsMessage)
        else Success(200, CustomerSession(users[k]))
  }

  /** A user just added with a fresh e-mail can log in with the password it
      registered, given a `compare` that accepts a plaintext against its own
      hash. */
  lemma NewcomerCanLogIn(users: seq<User>, u: User, password: string, hash: string -> string, compare: (string, string) -> bool)
    requires IndexOfEmail(users, u.email).None?
    requires u.password == hash(password)
    requires forall p :: compare(p, hash(p))
    ensures Login(users + [u], u.email, Some(password), compare) == Success(200, CustomerSession(u))
  {
    var all := users + [u];
    var k := IndexOfEmail(all, u.email);
    assert all[|users|].email == u.email;
    assert forall j :: 0 <= j < |users| ==> all[j] == users[j];
    assert k.Some?;
  }

  /** What `GET /me` returns, `{ ...user._doc, role: "user" }`: the stored
      document without its password, and a role. */
  datatype UserView = UserView(account: Account, role: string)

  function ViewOf(u: User): UserView
  {
    UserView(AccountOf(u), "user")
  }

  const UserNotFoundMessage := "User not found"

  /** `GET /me`: a refused credential maps to 401 (500 for an unexpected
      verification error); a verified id found among the users answers that
      user, whatever role the token names; otherwise 404. */
  function Me(header: Option<string>, verify: string -> Verdict, users: seq<User>): (r: Reply<UserView>)
    ensures Authenticate(header, verify).Err? ==>
      var f := Authenticate(header, verify).error;
      r == Failure(FailureCode(f), FailureMessage(f, NoTokenMessage))
    ensures r.Success? <==>
      Authenticate(header, verify).Ok? && IndexOfId(users, Authenticate(header, verify).value.id).Some?
    ensures r.Success? ==>
      var k := IndexOfId(users, Authenticate(header, verify).value.id).value;
      r.code == 200 && r.body == ViewOf(users[k]) && r.body.role == "user"
    ensures Authenticate(header, verify).Ok? && IndexOfId(users, Authenticate(header, verify).value.id).None? ==>
      r == Failure(404, UserNotFoundMessage)
  {
    match Authenticate(header, verify)
    case Err(f) => Failure(FailureCode(f), FailureMessage(f, NoTokenMessage))
    case Ok(claims) =>
      match IndexOfId(users, claims.id)
      case Some(k) => Success(200, ViewOf(users[k]))
      case None => Failure(404, UserNotFoundMessage)
  }

  /** The role in the token plays no part in `GET /me`: two verifications
      that agree on the id give the same answer. */
  lemma MeIgnoresRole(header: Option<string>, v1: string -> Verdict, v2: string -> Verdict, users: seq<User>)
    requires Authenticate(header, v1).Ok? && Authenticate(header, v2).Ok?
    requires Authenticate(header, v1).value.id == Authenticate(header, v2).value.id
    ensures Me(header, v1, users) == Me(header, v2, users)
  {
  }

  // ---------------------------------------------------------------------
  // Password reset
  // ---------------------------------------------------------------------

  /** One hour, in milliseconds. */
  const ResetWindow := 3600000

  const ForgotMessage := "If your email is registered, you will receive a reset link."
  const InvalidResetMessage := "Password reset token is invalid or has expired."
  const ResetDoneMessage := "Your password has been reset successfully."
  const ServerErrorMessage := "Server error"

  /** A user after `/forgot-password`: the new token and its expiry replace
      whatever was there. */
  function IssueReset(u: User, token: string, now: int): (r: User)
    ensures forall t :: HoldsLiveToken(r, token, t) <==> t < now + ResetWindow
    ensures r.(resetToken := u.resetToken, resetExpires := u.resetExpires) == u
  {
    u.(resetToken := Some(token), resetExpires := Some(now + ResetWindow))
  }

  /** A user after `/reset-password`, before the pre-save hook: the new
      password and both reset fields cleared. */
  function Redeem(u: User, password: string): (r: User)
    ensures forall token, t :: !HoldsLiveToken(r, token, t)
    ensures r.password == password && r.id == u.id && r.email == u.email && r.name == u.name
  {
    u.(password := password, resetToken := None, resetExpires := None)
  }

  /** The query `{ resetPasswordToken: token, resetPasswordExpires: { $gt: now } }`. */
  predicate HoldsLiveToken(u: User, token: string, now: int)
    ensures HoldsLiveToken(u, token, now) <==> u.resetToken == Some(token) && u.resetExpires.Some? && now < u.resetExpires.value
  {
    u.resetToken == Some(token) && u.resetExpires.Some? && u.resetExpires.value > now
  }

  /** `User.findOne` with that query. */
  function ResetHolder(users: seq<User>, token: string, now: int): (r: Option<nat>)
    ensures r.Some? ==> r.value < |users| && HoldsLiveToken(users[r.value], token, now)
    ensures r.None? <==> forall k :: 0 <= k < |users| ==> !HoldsLiveToken(users[k], token, now)
  {
    FindFirst(users, (u: User) => HoldsLiveToken(u, token, now))
  }

  /** A freshly issued token that no other user holds is honoured for the
      user it was issued to exactly until one hour has passed. */
  lemma IssuedTokenWindow(users: seq<User>, i: nat, token: string, now: int, t: int)
    requires i < |users|
    requires forall k :: 0 <= k < |users| && k != i ==> users[k].resetToken != Some(token)
    ensures ResetHolder(users[i := IssueReset(users[i], token, now)], token, t) ==
            if t < now + ResetWindow then Some(i) else None
  {
    var after := users[i := IssueReset(users[i], token, now)];
    var r := ResetHolder(after, token, t);
    if t < now + ResetWindow {
      assert HoldsLiveToken(after[i], token, t);
      assert forall j :: 0 <= j < |after| && j != i ==> after[j] == users[j];
      assert r.Some?;
    } else {
      forall k | 0 <= k < |after|
        ensures !HoldsLiveToken(after[k], token, t)
      {
        if k != i {
          assert after[k] == users[k];
        }
      }
    }
  }

  /** A later request supersedes an earlier one: once a new token is issued
      to a user, the earlier token no longer opens that user's record. */
  lemma LaterRequestSupersedes(users: seq<User>, i: nat, earlier: string, later: string, now: int, t: int)
    requires i < |users| && earlier != later
    ensures ResetHolder(users[i := IssueReset(users[i], later, now)], earlier, t) != Some(i)
  {
  }

  /** A redeemed token cannot be used again: when no other user holds it, no
      user holds it after the reset, at any time. */
  lemma RedeemIsSingleUse(users: seq<User>, i: nat, token: string, password: string, hash: string -> string, t: int)
    requires i < |users|
    requires forall k :: 0 <= k < |users| && k != i ==> users[k].resetToken != Some(token)
    ensures ResetHolder(users[i := PreSave(Redeem(users[i], password), true, hash)], token, t).None?
  {
    var after := users[i := PreSave(Redeem(users[i], password), true, hash)];
    forall k | 0 <= k < |after|
      ensures !HoldsLiveToken(after[k], token, t)
    {
      if k != i {
        assert after[k] == users[k];
      }
    }
  }

  /** After a reset, the user logs in with the new password, given unique
      e-mails and a `compare` that accepts a plaintext against its own hash. */
  lemma ResetThenLogIn(users: seq<User>, i: nat, password: string, hash: string -> string, compare: (string, string) -> bool)
    requires i < |users| && UniqueEmails(users)
    requires forall p :: compare(p, hash(p))
    ensures Login(users[i := PreSave(Redeem(users[i], password), true, hash)], users[i].email, Some(password), compare).Success?
  {
    var after := users[i := PreSave(Redeem(users[i], password), true, hash)];
    var k := IndexOfEmail(after, users[i].email);
    assert after[i].email == users[i].email;
    assert forall j :: 0 <= j < |after| && j != i ==> after[j] == users[j];
    assert k.Some?;
  }

  /** A user after `/forgot-password` against models/user.js as written: the
      schema declares neither reset path, and Mongoose's default strict mode
      ignores assignments to undeclared paths, so the record saved is the
      record loaded. */
  function StrictIssueReset(u: User, token: string, now: int): (r: User)
    ensures r.resetToken == u.resetToken && r.resetExpires == u.resetExpires
    ensures r.password == u.password && r.email == u.email
  {
    u
  }

  /** As written, the token that was e-mailed never opens a record: a user
      who asks for a reset and follows the link at once is refused, while
      with the reset paths declared the same link opens that user's record. */
  lemma MailedTokenRefusedAsWritten(users: seq<User>, i: nat, token: string, now: int)
    requires i < |users|
    requires forall k :: 0 <= k < |users| ==> users[k].resetToken != Some(token)
    ensures ResetHolder(users[i := StrictIssueReset(users[i], token, now)], token, now).None?
    ensures ResetHolder(users[i := IssueReset(users[i], token, now)], token, now) == Some(i)
  {
    var after := users[i := StrictIssueReset(users[i], token, now)];
    forall k | 0 <= k < |after|
      ensures !HoldsLiveToken(after[k], token, now)
    {
      assert after[k].resetToken == users[k].resetToken;
    }
    IssuedTokenWindow(users, i, token, now, now);
  }

  /** The reset e-mail `sendResetEmail(email, token)` that was attempted. */
  datatype ResetMail = ResetMail(to: string, token: string)

  /** `POST /forgot-password`: for a registered e-mail the new token and its
      expiry are saved and the reset e-mail is attempted; the answer is the
      same message whether or not the e-mail is registered and whatever the
      e-mail's fate (`delivered`). Only a failed save answers 500. */
  method ForgotPassword(store: UserStore, email: string, token: string, now: int, delivered: bool, dbOk: bool)
    returns (r: Reply<string>, mail: Option<ResetMail>)
    requires store.Valid()
    modifies store
    ensures store.Valid()
    ensures r.Failure? <==> IndexOfEmail(old(store.users), email).Some? && !dbOk
    ensures r.Failure? ==> r == Failure(500, ServerErrorMessage)
    ensures r.Success? ==> r == Success(200, ForgotMessage)
    ensures IndexOfEmail(old(store.users), email).None? ==> store.users == old(store.users) && mail.None?
    ensures IndexOfEmail(old(store.users), email).Some? ==>
      var i := IndexOfEmail(old(store.users), email).value;
      store.users == if dbOk then old(store.users)[i := IssueReset(old(store.users)[i], token, now)] else old(store.users)
    ensures mail.Some? <==> IndexOfEmail(old(store.users), email).Some? && dbOk
    ensures mail.Some? ==> mail.value == ResetMail(email, token)
  {
    var found := IndexOfEmail(store.users, email);
    if found.None? {
      return Success(200, ForgotMessage), None;
    }
    var i := found.value;
    var ok := store.Save(i, IssueReset(store.users[i], token, now), false, dbOk);
    if !ok {
      return Failure(500, ServerErrorMessage), None;
    }
    // The e-mail is attempted; its failure is caught and the answer is the same.
    mail := Some(ResetMail(email, token));
    r := Success(200, ForgotMessage);
  }

  /** `POST /reset-password/:token`: 400 unless some user holds the token
      with an expiry strictly after `now`; otherwise the password is set
      (and hashed by the hook) and both reset fields are cleared. The save
      fails, with 500, when the password is missing. */
  method ResetPassword(store: UserStore, token: string, password: string, now: int, dbOk: bool)
    returns (r: Reply<string>)
    requires store.Valid()
    modifies store
    ensures store.Valid()
    ensures ResetHolder(old(store.users), token, now).None? ==>
      r == Failure(400, InvalidResetMessage) && store.users == old(store.users)
    ensures ResetHolder(old(store.users), token, now).Some? && (!dbOk || password == "") ==>
      r == Failure(500, ServerErrorMessage) && store.users == old(store.users)
    ensures ResetHolder(old(store.users), token, now).Some? && dbOk && password != "" ==>
      var i := ResetHolder(old(store.users), token, now).value;
      && r == Success(200, ResetDoneMessage)
      && store.users == old(store.users)[i := PreSave(Redeem(old(store.users)[i], password), true, store.hash)]
  {
    var holder := ResetHolder(store.users, token, now);
    if holder.None? {
      return Failure(400, InvalidResetMessage);
    }
    var i := holder.value;
    var ok := store.Save(i, Redeem(store.users[i], password), true, dbOk);
    if !ok {
      return Failure(500, ServerErrorMessage);
    }
    r := Success(200, ResetDoneMessage);
  }
}
