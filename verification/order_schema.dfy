/** The persisted order document of models/order.js: the values a saved order
    holds after Mongoose's setters (trim, lowercase) and the validators it had
    to pass (required, regular expression, minimum length, minimum value).
    `status` and `userId` are not paths of that schema although the order
    routes write them; the model stores them as the routes intend. */
module OrderSchema {
  import opened Wrappers
  import opened Text
  import opened Json

  /** The five order states the status route accepts. */
  datatype Status = Pending | Confirmed | Shipped | Delivered | Cancelled

  function StatusName(s: Status): string
  {
    match s
    case Pending => "pending"
    case Confirmed => "confirmed"
    case Shipped => "shipped"
    case Delivered => "delivered"
    case Cancelled => "cancelled"
  }

  /** One purchased line: `{ id: Number, title: String, price: Number,
      quantity: Number, img: String }`. */
  datatype LineItem = LineItem(id: int, title: string, price: int, quantity: int, img: string)

  datatype Order = Order(
    id: string,
    name: string,
    email: string,
    address: string,
    items: seq<LineItem>,
    totalPrice: int,
    userId: Option<string>,
    status: Status,
    createdAt: int,
    updatedAt: int)

  /** Σ price × quantity over the lines, in order. */
  function Sum(items: seq<LineItem>): int
  {
    if |items| == 0 then 0 else items[0].price * items[0].quantity + Sum(items[1..])
  }

  /** `/^\S+@\S+\.\S+$/`: no white space anywhere, an `@` with at least one
      character before it, then a `.` with at least one character between the
      two and at least one after the dot. */
  predicate EmailPattern(s: string)
  {
    NoSpace(s)
    && exists i, j :: 1 <= i && i + 2 <= j && j + 2 <= |s| && s[i] == '@' && s[j] == '.'
  }

  /** The e-mail setter lower-cases before the pattern validator runs; the
      verdict is the same either way, because lower-casing moves no `@`, no
      `.` and no white space. */
  lemma EmailPatternIgnoresCase(s: string)
    ensures EmailPattern(Lower(s)) <==> EmailPattern(s)
  {
    var l := Lower(s);
    LowerFacts(s);
    assert forall k :: 0 <= k < |s| ==> (l[k] == '@' <==> s[k] == '@') && (l[k] == '.' <==> s[k] == '.');
    if EmailPattern(s) {
      var i, j :| 1 <= i && i + 2 <= j && j + 2 <= |s| && s[i] == '@' && s[j] == '.';
      assert l[i] == '@' && l[j] == '.';
    }
    if EmailPattern(l) {
      var i, j :| 1 <= i && i + 2 <= j && j + 2 <= |l| && l[i] == '@' && l[j] == '.';
      assert s[i] == '@' && s[j] == '.';
    }
  }

  /** A line passes the item validators: `title` and `img` are required
      strings (an empty string fails `required`), `price` has `min: 0`,
      `quantity` has `min: 1`. */
  predicate LineConforms(item: LineItem)
  {
    item.title != "" && item.img != "" && item.price >= 0 && item.quantity >= 1
  }

  /** The schema validators, run on the values the setters produced: name
      required (a string that is empty after trimming fails), e-mail matching
      the pattern, address of at least 10 characters, every line valid, total
      at least 0. */
  predicate PassesValidators(o: Order)
  {
    && o.name != ""
    && EmailPattern(o.email)
    && |o.address| >= 10
    && (forall k :: 0 <= k < |o.items| ==> LineConforms(o.items[k]))
    && o.totalPrice >= 0
  }

  /** What every saved order satisfies: it passed the validators, and its name
      and e-mail are in the form the setters leave them (trimmed, lower-case). */
  predicate Conforms(o: Order)
  {
    PassesValidators(o) && o.name == Trim(o.name) && o.email == Lower(o.email)
  }

  /** With all lines conforming, the total can never be negative, so the
      total's own `min: 0` can only fail on a total that is not the sum. */
  lemma {:induction false} SumOfConformingLines(items: seq<LineItem>)
    requires forall k :: 0 <= k < |items| ==> LineConforms(items[k])
    ensures Sum(items) >= 0
  {
    if |items| > 0 {
      SumOfConformingLines(items[1..]);
    }
  }

  // ---------------------------------------------------------------------
  // Building the document from the request values
  // ---------------------------------------------------------------------

  /** Casting one request item into a line. A request value of another JSON
      type than the path's is a cast failure. */
  function CastItem(v: Value): Option<LineItem>
  {
    match v
    case Obj(f) =>
      if && "id" in f && f["id"].Num?
         && "title" in f && f["title"].Str?
         && "price" in f && f["price"].Num?
         && "quantity" in f && f["quantity"].Num?
         && "img" in f && f["img"].Str?
      then Some(LineItem(f["id"].n, f["title"].s, f["price"].n, f["quantity"].n, f["img"].s))
      else None
    case _ => None
  }

  function CastItems(vs: seq<Value>): (r: Option<seq<LineItem>>)
    ensures r.Some? ==> |r.value| == |vs|
    ensures r.Some? ==> forall k :: 0 <= k < |vs| ==> CastItem(vs[k]) == Some(r.value[k])
    ensures r.None? ==> exists k :: 0 <= k < |vs| && CastItem(vs[k]).None?
  {
    if |vs| == 0 then Some([])
    else match (CastItem(vs[0]), CastItems(vs[1..]))
      case (Some(item), Some(rest)) => Some([item] + rest)
      case (None, _) => None
      case (Some(_), None) => None
  }

  /** Why `order.save()` was refused. */
  datatype SaveFailure =
    | CastFailure        // a value of the wrong JSON type for its path
    | ValidationFailure  // a required, match, minlength or min validator failed
    | StorageFailure     // the database itself refused or was unreachable

  /** `new Order({...})` followed by validation: the document that would be
      written, or why it would not. Setters run first (trim the name,
      lower-case the e-mail); the validators then check the stored values. */
  function BuildOrder(
    id: string, name: Value, email: Value, address: Value, items: seq<Value>,
    totalPrice: int, userId: Option<string>, now: int): (r: Result<Order, SaveFailure>)
    ensures r.Ok? ==> Conforms(r.value)
    ensures r.Ok? ==> r.value.id == id && r.value.totalPrice == totalPrice && r.value.userId == userId
    ensures r.Ok? ==> r.value.status == Pending && r.value.createdAt == now && r.value.updatedAt == now
    ensures r.Ok? ==> Some(r.value.items) == CastItems(items)
    ensures r.Ok? ==> name.Str? && r.value.name == Trim(name.s)
    ensures r.Ok? ==> email.Str? && r.value.email == Lower(email.s)
    ensures r.Ok? ==> address == Str(r.value.address)
    ensures r == Err(CastFailure) <==> !name.Str? || !email.Str? || !address.Str? || CastItems(items).None?
    ensures r.Err? && r.error != CastFailure ==> r.error == ValidationFailure
    ensures name.Str? && email.Str? && address.Str? && CastItems(items).Some? ==>
      (r.Ok? <==> PassesValidators(Order(id, Trim(name.s), Lower(email.s), address.s, CastItems(items).value,
                                         totalPrice, userId, Pending, now, now)))
  {
    if !name.Str? || !email.Str? || !address.Str? || CastItems(items).None? then Err(CastFailure)
    else
      var o := Order(id, Trim(name.s), Lower(email.s), address.s, CastItems(items).value,
                     totalPrice, userId, Pending, now, now);
      TrimIdempotent(name.s);
      LowerFacts(email.s);
      if PassesValidators(o) then Ok(o) else Err(ValidationFailure)
  }
}
