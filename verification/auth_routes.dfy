/** The combined router of routes/auth.js: the password-strength rule, the
    customer registration that applies it, and `/auth/me`, which answers
    for admins and customers alike by dispatching on the token's role. Its
    admin login and customer login have the bodies of `AdminAuth.Login` and
    `CustomerAuth.Login`. */
module AuthRoutes {
  import opened Wrappers
  import opened Http
  import opened Bearer
  import opened UserModel
  import opened AdminAuth
  import CustomerAuth

  // ---------------------------------------------------------------------
  // Password strength
  // ---------------------------------------------------------------------

  /** `/[A-Z]/`. */
  predicate IsUpper(c: char) { 'A' <= c <= 'Z' }

  /** `/[a-z]/`. */
  predicate IsLower(c: char) { 'a' <= c <= 'z' }

  /** `/\d/`: the ASCII digits only. */
  predicate IsDigit(c: char) { '0' <= c <= '9' }

  /** `/[!@#$%^&*(),.?":{}|<>]/`. */
  predicate IsSpecial(c: char) { c in "!@#$%^&*(),.?\":{}|<>" }

  /** `regex.test(s)` for a one-character class: some character of `s` is in
      the class. */
  function Occurs(s: string, cls: char -> bool): (r: bool)
    ensures r <==> exists i :: 0 <= i < |s| && cls(s[i])
  {
    if |s| == 0 then false
    else if cls(s[0]) then true
    else
      var r := Occurs(s[1..], cls);
      assert forall i :: 1 <= i < |s| ==> s[i] == s[1..][i - 1];
      r
  }

  const MinPasswordLength := 8

  /** `isStrongPassword`: at least eight characters, with an upper-case
      letter, a lower-case letter, a digit and one of the listed specials. */
  function IsStrongPassword(p: string): (r: bool)
    ensures r <==>
      && |p| >= 8
      && (exists i :: 0 <= i < |p| && 'A' <= p[i] <= 'Z')
      && (exists i :: 0 <= i < |p| && 'a' <= p[i] <= 'z')
      && (exists i :: 0 <= i < |p| && '0' <= p[i] <= '9')
      && (exists i :: 0 <= i < |p| && p[i] in "!@#$%^&*(),.?\":{}|<>")
  {
    |p| >= MinPasswordLength && Occurs(p, IsUpper) && Occurs(p, IsLower) && Occurs(p, IsDigit) && Occurs(p, IsSpecial)
  }

  /** "Passw0rd!" has all four kinds of character and nine characters. */
  lemma StrongExample()
    ensures IsStrongPassword("Passw0rd!")
  {
    var p := "Passw0rd!";
    assert 'A' <= p[0] <= 'Z' && 'a' <= p[1] <= 'z' && '0' <= p[5] <= '9';
    assert p[8] in "!@#$%^&*(),.?\":{}|<>";
  }

  /** No letter or digit is one of the listed specials. */
  lemma AlphanumericNotSpecial(c: char)
    requires IsUpper(c) || IsLower(c) || IsDigit(c)
    ensures !IsSpecial(c)
  {
  }

  /** A string of letters and digits has no special character. */
  lemma {:induction false} AlphanumericHasNoSpecial(s: string)
    requires forall i :: 0 <= i < |s| ==> IsUpper(s[i]) || IsLower(s[i]) || IsDigit(s[i])
    ensures !Occurs(s, IsSpecial)
  {
    if |s| > 0 {
      AlphanumericNotSpecial(s[0]);
      assert forall i :: 0 <= i < |s[1..]| ==> s[1..][i] == s[i + 1];
      AlphanumericHasNoSpecial(s[1..]);
    }
  }

  /** "Password1" is long enough but has no special character. */
  lemma NoSpecialExample()
    ensures !IsStrongPassword("Password1")
  {
    var q := "Password1";
    assert IsUpper(q[0]) && IsLower(q[1]) && IsLower(q[2]) && IsLower(q[3]) && IsLower(q[4]);
    assert IsLower(q[5]) && IsLower(q[6]) && IsLower(q[7]) && IsDigit(q[8]);
    AlphanumericHasNoSpecial(q);
  }

  /** "Pa1!" has every kind of character but only four characters. */
  lemma TooShortExample()
    ensures !IsStrongPassword("Pa1!")
  {
  }

  // ---------------------------------------------------------------------
  // Registration
  // ---------------------------------------------------------------------

  const WeakPasswordMessage :=
    "Password must be at least 8 characters long and include uppercase, lowercase, number, and special character"

  /** The answer of `POST /auth/register`: the presence test, then the
      strength test, both 400 and both before any lookup; then the answer of
      the customer registration. */
  function RegisterAnswer(users: seq<User>, name: string, email: string, password: string, id: string, dbOk: bool)
    : (r: Reply<CustomerAuth.Session>)
    ensures name == "" || email == "" || password == "" ==> r == Failure(400, CustomerAuth.MissingFieldsMessage)
    ensures name != "" && email != "" && password != "" && !IsStrongPassword(password) ==>
      r == Failure(400, WeakPasswordMessage)
    ensures IsStrongPassword(password) ==> r == CustomerAuth.RegisterAnswer(users, name, email, password, id, dbOk)
    ensures r.Success? ==> IsStrongPassword(password) && IndexOfEmail(users, email).None?
  {
    if name == "" || email == "" || password == "" then Failure(400, CustomerAuth.MissingFieldsMessage)
    else if !IsStrongPassword(password) then Failure(400, WeakPasswordMessage)
    else CustomerAuth.RegisterAnswer(users, name, email, password, id, dbOk)
  }

  /** `POST /auth/register`: a weak password leaves the store unchanged;
      otherwise the customer registration runs. */
  method Register(store: UserStore, name: string, email: string, password: string, id: string, now: int, dbOk: bool)
    returns (r: Reply<CustomerAuth.Session>)
    requires store.Valid() && IndexOfId(store.users, id).None?
    modifies store
    ensures store.Valid()
    ensures r == RegisterAnswer(old(store.users), name, email, password, id, dbOk)
    ensures r.Success? ==> store.users == old(store.users) + [User(id, name, email, store.hash(password), now, None, None)]
    ensures r.Failure? ==> store.users == old(store.users)
  {
    if name == "" || email == "" || password == "" {
      return Failure(400, CustomerAuth.MissingFieldsMessage);
    }
    if !IsStrongPassword(password) {
      return Failure(400, WeakPasswordMessage);
    }
    r := CustomerAuth.Register(store, name, email, password, id, now, dbOk);
  }

  // ---------------------------------------------------------------------
  // /auth/me
  // ---------------------------------------------------------------------

  /** The two shapes `/auth/me` answers with: `{ id, email, role: "admin" }`
      for an admin, the password-less document with role "user" otherwise. */
  datatype MeView =
    | AdminMe(id: string, email: string, role: string)
    | CustomerMe(view: CustomerAuth.UserView)

  const UserNotFoundMessage := "User not found"

  /** `GET /auth/me`: a refused credential maps to 401 (500 for an
      unexpected verification error); role "admin" is looked up among the
      admins, every other role among the customers; an id the chosen
      collection lacks gets 404. */
  function Me(header: Option<string>, verify: string -> Verdict, admins: seq<Admin>, users: seq<User>)
    : (r: Reply<MeView>)
    ensures Authenticate(header, verify).Err? ==>
      var f := Authenticate(header, verify).error;
      r == Failure(FailureCode(f), FailureMessage(f, CustomerAuth.NoTokenMessage))
    ensures Authenticate(header, verify).Ok? && Authenticate(header, verify).value.role == "admin" ==>
      var id := Authenticate(header, verify).value.id;
      match AdminIndexOfId(admins, id)
      case Some(k) => r == Success(200, AdminMe(admins[k].id, admins[k].email, "admin"))
      case None => r == Failure(404, UserNotFoundMessage)
    ensures Authenticate(header, verify).Ok? && Authenticate(header, verify).value.role != "admin" ==>
      var id := Authenticate(header, verify).value.id;
      match IndexOfId(users, id)
      case Some(k) => r == Success(200, CustomerMe(CustomerAuth.ViewOf(users[k])))
      case None => r == Failure(404, UserNotFoundMessage)
  {
    match Authenticate(header, verify)
    case Err(f) => Failure(FailureCode(f), FailureMessage(f, CustomerAuth.NoTokenMessage))
    case Ok(claims) =>
      if claims.role == "admin" then
        match AdminIndexOfId(admins, claims.id)
        case Some(k) => Success(200, AdminMe(admins[k].id, admins[k].email, "admin"))
        case None => Failure(404, UserNotFoundMessage)
      else
        match IndexOfId(users, claims.id)
        case Some(k) => Success(200, CustomerMe(CustomerAuth.ViewOf(users[k])))
        case None => Failure(404, UserNotFoundMessage)
  }

  /** Each role consults one collection only: an admin token's answer does
      not depend on the customers, any other token's answer does not depend
      on the admins. */
  lemma MeConsultsOneStore(header: Option<string>, verify: string -> Verdict,
                           admins1: seq<Admin>, admins2: seq<Admin>, users1: seq<User>, users2: seq<User>)
    requires Authenticate(header, verify).Ok?
    ensures Authenticate(header, verify).value.role == "admin" ==>
      Me(header, verify, admins1, users1) == Me(header, verify, admins1, users2)
    ensures Authenticate(header, verify).value.role != "admin" ==>
      Me(header, verify, admins1, users1) == Me(header, verify, admins2, users1)
  {
  }

  /** For a customer token, `/auth/me` answers what the customer router's
      `/me` answers, wrapped. */
  lemma MeAgreesForCustomers(header: Option<string>, verify: string -> Verdict, admins: seq<Admin>, users: seq<User>)
    requires Authenticate(header, verify).Ok? && Authenticate(header, verify).value.role != "admin"
    ensures CustomerAuth.Me(header, verify, users).Success? <==> Me(header, verify, admins, users).Success?
    ensures CustomerAuth.Me(header, verify, users).Success? ==>
      Me(header, verify, admins, users).body == CustomerMe(CustomerAuth.Me(header, verify, users).body)
  {
  }
}
