/** The customer record of models/user.js and the collection that holds it.
    Passwords are stored as the value of a one-way `hash` supplied at
    construction (bcrypt's salt is not modelled); `compare` stands for
    `bcrypt.compare`. */
module UserModel {
  import opened Wrappers
  import opened Search

  datatype User = User(
    id: string,
    name: string,
    email: string,
    password: string,                // the stored hash
    createdAt: int,
    resetToken: Option<string>,      // resetPasswordToken, present only sometimes
    resetExpires: Option<int>)       // resetPasswordExpires, milliseconds

  /** A user document read with `.select("-password")`: every path except
      the password. */
  datatype Account = Account(
    id: string,
    name: string,
    email: string,
    createdAt: int,
    resetToken: Option<string>,
    resetExpires: Option<int>)

  function AccountOf(u: User): Account
  {
    Account(u.id, u.name, u.email, u.createdAt, u.resetToken, u.resetExpires)
  }

  /** `name`, `email` and `password` are `required`: present and non-empty. */
  predicate HasRequired(u: User)
  {
    u.name != "" && u.email != "" && u.password != ""
  }

  /** The pre-save hook: when the password path was modified it is replaced by
      its hash, otherwise the document is saved as it is. */
  function PreSave(doc: User, passwordModified: bool, hash: string -> string): (r: User)
    ensures r.password == if passwordModified then hash(doc.password) else doc.password
    ensures r.(password := doc.password) == doc
  {
    if passwordModified then doc.(password := hash(doc.password)) else doc
  }

  /** `user.matchPassword(candidate)`: `bcrypt.compare(candidate, this.password)`. */
  function MatchPassword(u: User, candidate: string, compare: (string, string) -> bool): (r: bool)
    ensures r <==> compare(candidate, u.password)
  {
    compare(candidate, u.password)
  }

  /** A password saved through the hook is matched by the plaintext it came
      from, given a `compare` that accepts a plaintext against its own hash. */
  lemma SavedPasswordMatches(doc: User, hash: string -> string, compare: (string, string) -> bool)
    requires forall p :: compare(p, hash(p))
    ensures MatchPassword(PreSave(doc, true, hash), doc.password, compare)
  {
  }

  /** A save that did not touch the password keeps the stored hash, so the
      same candidates keep matching. */
  lemma UntouchedPasswordKeepsMatching(doc: User, hash: string -> string, compare: (string, string) -> bool, candidate: string)
    ensures MatchPassword(PreSave(doc, false, hash), candidate, compare) == MatchPassword(doc, candidate, compare)
  {
  }

  /** `User.findOne({ email })`. */
  function IndexOfEmail(users: seq<User>, email: string): (r: Option<nat>)
    ensures r.Some? ==> r.value < |users| && users[r.value].email == email
    ensures r.None? <==> forall k :: 0 <= k < |users| ==> users[k].email != email
  {
    FindFirst(users, (u: User) => u.email == email)
  }

  /** `User.findById(id)`. */
  function IndexOfId(users: seq<User>, id: string): (r: Option<nat>)
    ensures r.Some? ==> r.value < |users| && users[r.value].id == id
    ensures r.None? <==> forall k :: 0 <= k < |users| ==> users[k].id != id
  {
    FindFirst(users, (u: User) => u.id == id)
  }

  predicate UniqueEmails(users: seq<User>)
  {
    forall i, j :: 0 <= i < j < |users| ==> users[i].email != users[j].email
  }

  predicate UniqueIds(users: seq<User>)
  {
    forall i, j :: 0 <= i < j < |users| ==> users[i].id != users[j].id
  }

  /** The `users` collection, in insertion order. */
  class UserStore {
    var users: seq<User>
    const hash: string -> string

    /** Every stored user has its required fields, e-mails are unique (the
        unique index), ids are unique, and hashing never yields "". */
    ghost predicate Valid()
      reads this
    {
      && (forall k :: 0 <= k < |users| ==> HasRequired(users[k]))
      && UniqueEmails(users)
      && UniqueIds(users)
      && (forall p :: hash(p) != "")
    }

    constructor (hash: string -> string)
      requires forall p :: hash(p) != ""
      ensures Valid() && users == [] && this.hash == hash
    {
      users := [];
      this.hash := hash;
    }

    /** `User.create({ name, email, password })`: validation, the pre-save
        hook, `createdAt` defaulting to the save time, and the insert, which
        the unique index refuses for a taken e-mail. */
    method Create(id: string, name: string, email: string, password: string, now: int, dbOk: bool)
      returns (created: Option<User>)
      requires Valid() && IndexOfId(users, id).None?
      modifies this
      ensures Valid()
      ensures created.Some? <==>
        dbOk && name != "" && email != "" && password != "" && IndexOfEmail(old(users), email).None?
      ensures created.Some? ==>
        created.value == User(id, name, email, hash(password), now, None, None)
        && users == old(users) + [created.value]
      ensures created.None? ==> users == old(users)
    {
      var doc := User(id, name, email, password, now, None, None);
      if !dbOk || !HasRequired(doc) || IndexOfEmail(users, email).Some? {
        return None;
      }
      var saved := PreSave(doc, true, hash);
      users := users + [saved];
      created := Some(saved);
    }

    /** `doc.save()` for the document loaded from position `i`: validation,
        the pre-save hook, and the write back. The id and e-mail are the
        loaded ones. */
    method Save(i: nat, doc: User, passwordModified: bool, dbOk: bool) returns (ok: bool)
      requires Valid() && i < |users| && doc.id == users[i].id && doc.email == users[i].email
      modifies this
      ensures Valid()
      ensures ok <==> dbOk && HasRequired(doc)
      ensures users == if ok then old(users)[i := PreSave(doc, passwordModified, hash)] else old(users)
    {
      if !dbOk || !HasRequired(doc) {
        return false;
      }
      users := users[i := PreSave(doc, passwordModified, hash)];
      ok := true;
    }
  }
}
