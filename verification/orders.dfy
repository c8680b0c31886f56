/** The order routes of routes/orders.js: checkout (`POST /`), the admin
    listing (`GET /`), the owner listings (`GET /user/:userId`,
    `GET /email/:email`) and the status change (`PATCH /:orderId/status`),
    over an order collection held by `OrderStore`. The guards that run
    before the protected routes are modelled in ProtectAdmin and
    ProtectUser; here the routes receive the user the guard attached. */
module Orders {
  import opened Wrappers
  import opened Search
  import opened Json
  import opened Http
  import opened OrderSchema
  import UserModel

  // ---------------------------------------------------------------------
  // Checkout validation (route level, status 400)
  // ---------------------------------------------------------------------

  /** The fields `POST /` destructures from the request body. */
  datatype CheckoutBody = CheckoutBody(name: Value, email: Value, address: Value, items: Value, userId: Value)

  /** The 400 answers of checkout, each carrying what its message names. */
  datatype CheckoutError =
    | MissingFields                          // name, email, address or a non-empty items array
    | MissingItemFields(itemId: Value)       // "missing fields for item ID ${item.id}"
    | InvalidPriceOrQuantity(itemTitle: Value) // "Invalid price or quantity for item: ${item.title}"

  /** `name`, `email` and `address` are truthy and `items` is a non-empty array. */
  predicate FieldsPresent(body: CheckoutBody)
  {
    Truthy(body.name) && Truthy(body.email) && Truthy(body.address)
    && body.items.Arr? && |body.items.elems| > 0
  }

  /** `item[key]` for an item that is neither null nor undefined. */
  function Field(item: Value, key: string): Value
  {
    match Prop(item, key)
    case Some(v) => v
    case None => Undefined
  }

  /** Verdict of the loop body on one cart item. */
  datatype ItemCheck = Accepted | Refused(error: CheckoutError) | Throws

  /** One iteration of the item loop: the truthiness test of the five fields
      first, then the number tests. Reading a field of a null or undefined
      item throws. */
  function CheckItem(item: Value): (r: ItemCheck)
    ensures r.Throws? <==> item.Null? || item.Undefined?
    ensures r == Refused(MissingItemFields(Field(item, "id"))) <==>
      && !item.Null? && !item.Undefined?
      && !(Truthy(Field(item, "id")) && Truthy(Field(item, "title")) && Truthy(Field(item, "price"))
           && Truthy(Field(item, "quantity")) && Truthy(Field(item, "img")))
    ensures r.Accepted? ==> Field(item, "price").Num? && Field(item, "quantity").Num? && Field(item, "quantity").n >= 1
  {
    if item.Null? || item.Undefined? then Throws
    else if !Truthy(Field(item, "id")) || !Truthy(Field(item, "title")) || !Truthy(Field(item, "price"))
         || !Truthy(Field(item, "quantity")) || !Truthy(Field(item, "img"))
    then Refused(MissingItemFields(Field(item, "id")))
    else if !Field(item, "price").Num? || !Field(item, "quantity").Num? || Field(item, "quantity").n < 1
    then Refused(InvalidPriceOrQuantity(Field(item, "title")))
    else Accepted
  }

  /** An accepted item has truthy id, title and image, a non-zero numeric
      price (of either sign) and a numeric quantity of at least 1; a price of
      0 is refused as a missing field. */
  lemma AcceptedItemShape(item: Value)
    ensures CheckItem(item).Accepted? <==>
      && !item.Null? && !item.Undefined?
      && Truthy(Field(item, "id")) && Truthy(Field(item, "title")) && Truthy(Field(item, "img"))
      && Field(item, "price").Num? && Field(item, "price").n != 0
      && Field(item, "quantity").Num? && Field(item, "quantity").n >= 1
    ensures !item.Null? && !item.Undefined? && Field(item, "price") == Num(0) ==>
      CheckItem(item) == Refused(MissingItemFields(Field(item, "id")))
  {
  }

  predicate NotAccepted(item: Value)
  {
    !CheckItem(item).Accepted?
  }

  /** The `for (const item of items)` loop with its early returns: the index
      of the first item the loop body does not accept, if any. */
  method ScanItems(items: seq<Value>) returns (bad: Option<nat>)
    ensures bad.None? <==> forall k :: 0 <= k < |items| ==> CheckItem(items[k]).Accepted?
    ensures bad.Some? ==> bad.value < |items| && !CheckItem(items[bad.value]).Accepted?
    ensures bad.Some? ==> forall k :: 0 <= k < bad.value ==> CheckItem(items[k]).Accepted?
    ensures bad == FirstRefusedItem(items)
  {
    var i := 0;
    while i < |items|
      invariant 0 <= i <= |items|
      invariant forall k :: 0 <= k < i ==> CheckItem(items[k]).Accepted?
    {
      if !CheckItem(items[i]).Accepted? {
        return Some(i);
      }
      i := i + 1;
    }
    return None;
  }

  /** Functional counterpart of `ScanItems`. */
  function FirstRefusedItem(items: seq<Value>): Option<nat>
  {
    FindFirst(items, NotAccepted)
  }

  // ---------------------------------------------------------------------
  // Total
  // ---------------------------------------------------------------------

  function PriceOf(item: Value): int
  {
    match Field(item, "price")
    case Num(n) => n
    case _ => 0
  }

  function QuantityOf(item: Value): int
  {
    match Field(item, "quantity")
    case Num(n) => n
    case _ => 0
  }

  /** Σ price × quantity over the request items, summed from the front. */
  function LinesTotal(items: seq<Value>): int
  {
    if |items| == 0 then 0
    else PriceOf(items[0]) * QuantityOf(items[0]) + LinesTotal(items[1..])
  }

  /** `items.reduce((sum, item) => sum + item.price * item.quantity, acc)`:
      the left fold adds Σ price × quantity to its start value. */
  function Reduce(items: seq<Value>, acc: int): (r: int)
    ensures r == acc + LinesTotal(items)
  {
    if |items| == 0 then acc
    else Reduce(items[1..], acc + PriceOf(items[0]) * QuantityOf(items[0]))
  }

  /** The total the route computes from the request is Σ price × quantity over
      the lines that are saved. */
  lemma {:induction false} ReduceIsSumOfLines(items: seq<Value>, lines: seq<LineItem>, acc: int)
    requires CastItems(items) == Some(lines)
    ensures Reduce(items, acc) == acc + Sum(lines)
  {
    if |items| > 0 {
      assert CastItem(items[0]) == Some(lines[0]);
      assert PriceOf(items[0]) == lines[0].price && QuantityOf(items[0]) == lines[0].quantity;
      assert CastItems(items[1..]) == Some(lines[1..]);
      ReduceIsSumOfLines(items[1..], lines[1..], acc + lines[0].price * lines[0].quantity);
    }
  }

  // ---------------------------------------------------------------------
  // Checkout outcome
  // ---------------------------------------------------------------------

  datatype PlaceResult =
    | Placed(orderId: string)          // 201 { orderId, success: true }
    | BadRequest(error: CheckoutError) // 400
    | SaveFailed(reason: SaveFailure)  // 500 { success: false }
    | NoResponse                       // the handler threw before answering
  {
    predicate Answers() { !NoResponse? }

    function Code(): int
      requires Answers()
    {
      match this
      case Placed(_) => 201
      case BadRequest(_) => 400
      case SaveFailed(_) => 500
    }
  }

  /** `userId || null`: a non-empty string owner, otherwise none. */
  function OwnerOf(v: Value): (r: Option<string>)
    ensures r.Some? ==> Truthy(v) && v == Str(r.value)
    ensures v.Str? && Truthy(v) ==> r == Some(v.s)
  {
    if v.Str? && v.s != "" then Some(v.s) else None
  }

  /** The request passes both route-level checks. */
  predicate Validated(body: CheckoutBody)
  {
    FieldsPresent(body) && FirstRefusedItem(body.items.elems).None?
  }

  /** The order document a validated request becomes, or why saving it fails. */
  function Draft(body: CheckoutBody, id: string, now: int): Result<Order, SaveFailure>
    requires Validated(body)
  {
    var items := body.items.elems;
    BuildOrder(id, body.name, body.email, body.address, items, Reduce(items, 0), OwnerOf(body.userId), now)
  }

  /** The answer of `POST /` for a request, the id the database assigns, the
      time and whether the database accepts the write. The e-mail step does
      not appear: its outcome cannot change the answer. */
  function Checkout(body: CheckoutBody, id: string, now: int, dbOk: bool): (r: PlaceResult)
    ensures r.Placed? ==> r == Placed(id) && Validated(body) && dbOk
    ensures r.SaveFailed? ==> Validated(body)
    ensures r.NoResponse? ==>
      && FieldsPresent(body) && FirstRefusedItem(body.items.elems).Some?
      && CheckItem(body.items.elems[FirstRefusedItem(body.items.elems).value]).Throws?
  {
    if !FieldsPresent(body) then BadRequest(MissingFields)
    else match FirstRefusedItem(body.items.elems)
      case Some(k) =>
        (match CheckItem(body.items.elems[k])
         case Refused(e) => BadRequest(e)
         case _ => NoResponse)
      case None =>
        match Draft(body, id, now)
        case Err(f) => SaveFailed(f)
        case Ok(_) => if dbOk then Placed(id) else SaveFailed(StorageFailure)
  }

  /** Checkout answers 400 exactly when a route-level check fails, and then
      it names the first offending item; a validated request is placed
      exactly when its document passes the schema and the database accepts
      the write, and is otherwise a 500; a placed order passes the schema,
      starts `pending`, and its total is Σ price × quantity of its saved
      lines. */
  lemma CheckoutCases(body: CheckoutBody, id: string, now: int, dbOk: bool)
    ensures !FieldsPresent(body) ==> Checkout(body, id, now, dbOk) == BadRequest(MissingFields)
    ensures FieldsPresent(body) && FirstRefusedItem(body.items.elems).Some? ==>
      var k := FirstRefusedItem(body.items.elems).value;
      && (forall j :: 0 <= j < k ==> CheckItem(body.items.elems[j]).Accepted?)
      && (CheckItem(body.items.elems[k]).Refused? ==> Checkout(body, id, now, dbOk) == BadRequest(CheckItem(body.items.elems[k]).error))
    ensures Checkout(body, id, now, dbOk).BadRequest? <==>
      !FieldsPresent(body) || (FirstRefusedItem(body.items.elems).Some? && CheckItem(body.items.elems[FirstRefusedItem(body.items.elems).value]).Refused?)
    ensures Checkout(body, id, now, dbOk).Placed? ==>
      && Validated(body) && dbOk && Draft(body, id, now).Ok?
      && var o := Draft(body, id, now).value;
         Conforms(o) && o.totalPrice == Sum(o.items) && o.status == Pending && o.id == id
    ensures Validated(body) ==>
      (Checkout(body, id, now, dbOk) == Placed(id) <==> Draft(body, id, now).Ok? && dbOk)
    ensures Validated(body) && !Checkout(body, id, now, dbOk).Placed? ==>
      Checkout(body, id, now, dbOk).SaveFailed?
  {
    if Checkout(body, id, now, dbOk).Placed? {
      var items := body.items.elems;
      var o := Draft(body, id, now).value;
      ReduceIsSumOfLines(items, o.items, 0);
    }
  }

  /** The answer when the item loop stops at item `k`: 400 naming that item
      when it was refused, no answer when reading it threw. */
  lemma StopsAtItem(body: CheckoutBody, id: string, now: int, dbOk: bool, k: nat)
    requires FieldsPresent(body) && FirstRefusedItem(body.items.elems) == Some(k)
    ensures !Validated(body)
    ensures Checkout(body, id, now, dbOk) ==
      if CheckItem(body.items.elems[k]).Refused? then BadRequest(CheckItem(body.items.elems[k]).error) else NoResponse
  {
  }

  /** The route-level checks of `POST /`: the presence test, then the item
      loop with its early returns. Nothing is answered when both pass. */
  method Screen(body: CheckoutBody, id: string, now: int, dbOk: bool) returns (refusal: Option<PlaceResult>)
    ensures refusal.None? <==> Validated(body)
    ensures refusal.Some? ==> refusal.value == Checkout(body, id, now, dbOk) && !refusal.value.Placed?
  {
    if !FieldsPresent(body) {
      return Some(BadRequest(MissingFields));
    }
    var items := body.items.elems;
    var bad := ScanItems(items);
    if bad.Some? {
      StopsAtItem(body, id, now, dbOk, bad.value);
      var check := CheckItem(items[bad.value]);
      if check.Refused? {
        return Some(BadRequest(check.error));
      }
      return Some(NoResponse);
    }
    return None;
  }

  /** A cast line carries the price and quantity the route read. */
  lemma CastKeepsNumbers(v: Value, line: LineItem)
    requires CastItem(v) == Some(line)
    ensures line.price == PriceOf(v) && line.quantity == QuantityOf(v)
  {
  }

  /** A negative price passes the route's checks but not the schema's `min: 0`:
      the request gets 500, not 400. */
  lemma NegativePriceFailsAtSave(body: CheckoutBody, id: string, now: int, dbOk: bool)
    requires Validated(body)
    requires exists k :: 0 <= k < |body.items.elems| && PriceOf(body.items.elems[k]) < 0
    ensures Checkout(body, id, now, dbOk).SaveFailed?
  {
    var k :| 0 <= k < |body.items.elems| && PriceOf(body.items.elems[k]) < 0;
    var items := body.items.elems;
    match CastItems(items)
    case None =>
    case Some(lines) =>
      CastKeepsNumbers(items[k], lines[k]);
      assert !LineConforms(lines[k]);
      assert Draft(body, id, now).Err?;
  }

  /** The one-line cart of the scenario: a shirt at 500, two of them. */
  const Shirt := Obj(map["id" := Num(1), "title" := Str("Shirt"), "price" := Num(500),
                         "quantity" := Num(2), "img" := Str("x")])
  const ShirtCart := CheckoutBody(Str("A"), Str("a@b.com"), Str("123 Main Street"), Arr([Shirt]), Undefined)

  lemma ShirtIsAccepted()
    ensures CheckItem(Shirt).Accepted?
    ensures CastItem(Shirt) == Some(LineItem(1, "Shirt", 500, 2, "x"))
    ensures PriceOf(Shirt) == 500 && QuantityOf(Shirt) == 2
  {
  }

  lemma ShirtCartName()
    ensures Text.Trim("A") == "A"
  {
    assert "A" == [] + "A" + [];
    Text.TrimExact([], "A", []);
  }

  lemma ShirtCartEmail()
    ensures Text.Lower("a@b.com") == "a@b.com"
    ensures EmailPattern("a@b.com")
  {
    var e := "a@b.com";
    assert forall i :: 0 <= i < |e| ==> e[i] in {'a', '@', 'b', '.', 'c', 'o', 'm'};
    Text.LowerKeepsLowercase(e);
    assert e[1] == '@' && e[3] == '.';
  }

  /** The scenario of a one-line cart: 2 × 500 is placed with total 1000 and
      status pending. */
  lemma CheckoutScenario(id: string, now: int)
    ensures Checkout(ShirtCart, id, now, true) == Placed(id)
    ensures Draft(ShirtCart, id, now).Ok?
    ensures Draft(ShirtCart, id, now).value.totalPrice == 1000
    ensures Draft(ShirtCart, id, now).value.status == Pending
  {
    ShirtIsAccepted();
    ShirtCartName();
    ShirtCartEmail();
    var items := [Shirt];
    assert FirstRefusedItem(items) == None;
    assert items[1..] == [];
    assert CastItems(items[1..]) == Some([]);
    assert CastItem(items[0]) == Some(LineItem(1, "Shirt", 500, 2, "x"));
    assert [LineItem(1, "Shirt", 500, 2, "x")] + [] == [LineItem(1, "Shirt", 500, 2, "x")];
    assert CastItems(items) == Some([LineItem(1, "Shirt", 500, 2, "x")]);
    assert Reduce(items, 0) == 1000;
    var o := Order(id, "A", "a@b.com", "123 Main Street", [LineItem(1, "Shirt", 500, 2, "x")],
                   1000, None, Pending, now, now);
    assert PassesValidators(o);
    assert Draft(ShirtCart, id, now) == Ok(o);
  }

  // ---------------------------------------------------------------------
  // Listing
  // ---------------------------------------------------------------------

  /** `.sort({ createdAt: -1 })`: most recent first. */
  predicate NewestFirst(s: seq<Order>)
  {
    forall i, j :: 0 <= i < j < |s| ==> s[i].createdAt >= s[j].createdAt
  }

  function Insert(o: Order, s: seq<Order>): (r: seq<Order>)
    requires NewestFirst(s)
    ensures NewestFirst(r)
    ensures multiset(r) == multiset(s) + multiset{o}
    ensures |r| == |s| + 1 && (r[0] == o || (|s| > 0 && r[0] == s[0]))
  {
    if |s| == 0 || o.createdAt >= s[0].createdAt then [o] + s
    else
      var rest := Insert(o, s[1..]);
      assert s == [s[0]] + s[1..];
      assert rest[0].createdAt <= s[0].createdAt;
      [s[0]] + rest
  }

  /** The orders newest-first; ties keep no particular order. */
  function SortNewestFirst(s: seq<Order>): (r: seq<Order>)
    ensures NewestFirst(r)
    ensures multiset(r) == multiset(s)
  {
    if |s| == 0 then []
    else
      assert s == [s[0]] + s[1..];
      Insert(s[0], SortNewestFirst(s[1..]))
  }

  /** Sorting neither adds nor drops an order. */
  lemma SortKeepsMembers(s: seq<Order>)
    ensures forall o :: o in SortNewestFirst(s) <==> o in s
  {
    var r := SortNewestFirst(s);
    forall o ensures o in r <==> o in s {
      assert o in r <==> o in multiset(r);
      assert o in s <==> o in multiset(s);
    }
  }

  const ForbiddenMessage := "Access denied. Cannot view another user\U{2019}s orders."
  const InvalidStatusMessage := "Invalid status. Valid options: pending, confirmed, shipped, delivered, cancelled"

  predicate UniqueIds(orders: seq<Order>)
  {
    forall i, j :: 0 <= i < j < |orders| ==> orders[i].id != orders[j].id
  }

  /** `Order.findById(id)`. */
  function OrderIndex(orders: seq<Order>, id: string): (r: Option<nat>)
    ensures r.Some? ==> r.value < |orders| && orders[r.value].id == id
    ensures r.None? <==> forall k :: 0 <= k < |orders| ==> orders[k].id != id
  {
    FindFirst(orders, (o: Order) => o.id == id)
  }

  /** `validStatuses.includes(status)`: only the five exact strings. */
  function ParseStatus(v: Value): (r: Option<Status>)
    ensures r.Some? ==> v == Str(StatusName(r.value))
    ensures r.None? ==> forall s: Status :: v != Str(StatusName(s))
  {
    match v
    case Str(s) =>
      if s == "pending" then Some(Pending)
      else if s == "confirmed" then Some(Confirmed)
      else if s == "shipped" then Some(Shipped)
      else if s == "delivered" then Some(Delivered)
      else if s == "cancelled" then Some(Cancelled)
      else None
    case _ => None
  }

  /** Every status name is accepted and read back as itself. */
  lemma ParseStatusRoundTrip(s: Status)
    ensures ParseStatus(Str(StatusName(s))) == Some(s)
  {
  }

  /** An order after a status change: the status and `updatedAt` are new,
      nothing else is touched. */
  function WithStatus(o: Order, s: Status, now: int): (r: Order)
    ensures r.status == s && r.updatedAt == now
    ensures r.(status := o.status, updatedAt := o.updatedAt) == o
  {
    o.(status := s, updatedAt := now)
  }

  /** The status route has no transition guard: from any order, whatever its
      current status (including `cancelled` and `delivered`), every status can
      be written, and the result still passes the schema with the same total. */
  lemma NoTransitionGuard(o: Order, s: Status, now: int)
    requires Conforms(o) && o.totalPrice == Sum(o.items)
    ensures WithStatus(o, s, now).status == s
    ensures Conforms(WithStatus(o, s, now)) && WithStatus(o, s, now).totalPrice == Sum(WithStatus(o, s, now).items)
    ensures WithStatus(WithStatus(o, Cancelled, now), Pending, now).status == Pending
  {
  }

  /** What every saved order satisfies: it passed the schema, and its total
      is the sum of its lines. */
  predicate Stored(o: Order)
  {
    Conforms(o) && o.totalPrice == Sum(o.items)
  }

  predicate AllStored(orders: seq<Order>)
  {
    forall k :: 0 <= k < |orders| ==> Stored(orders[k])
  }

  /** Replacing one saved order by a conforming one with the same id keeps
      the collection well formed. */
  lemma ReplaceKeepsStore(orders: seq<Order>, k: nat, o: Order)
    requires AllStored(orders) && UniqueIds(orders) && k < |orders|
    requires Stored(o) && o.id == orders[k].id
    ensures AllStored(orders[k := o]) && UniqueIds(orders[k := o])
  {
    var s := orders[k := o];
    forall i | 0 <= i < |s|
      ensures Stored(s[i])
    {
      if i != k {
        assert s[i] == orders[i];
      }
    }
    forall i, j | 0 <= i < j < |s|
      ensures s[i].id != s[j].id
    {
      assert s[i].id == orders[i].id && s[j].id == orders[j].id;
    }
  }

  /** Appending a conforming order with a fresh id keeps the collection well
      formed. */
  lemma AppendKeepsStore(orders: seq<Order>, o: Order)
    requires AllStored(orders) && UniqueIds(orders)
    requires Stored(o) && OrderIndex(orders, o.id).None?
    ensures AllStored(orders + [o]) && UniqueIds(orders + [o])
  {
    AppendStored(orders, o);
    AppendUnique(orders, o);
  }

  /** Every order of `orders + [o]` is stored. */
  lemma AppendStored(orders: seq<Order>, o: Order)
    requires AllStored(orders) && Stored(o)
    ensures AllStored(orders + [o])
  {
    var s := orders + [o];
    forall i | 0 <= i < |s|
      ensures Stored(s[i])
    {
      if i < |orders| {
        assert s[i] == orders[i];
      } else {
        assert s[i] == o;
      }
    }
  }

  /** No two orders of `orders + [o]` share an id. */
  lemma AppendUnique(orders: seq<Order>, o: Order)
    requires UniqueIds(orders)
    requires forall k :: 0 <= k < |orders| ==> orders[k].id != o.id
    ensures UniqueIds(orders + [o])
  {
    var s := orders + [o];
    forall i, j | 0 <= i < j < |s|
      ensures s[i].id != s[j].id
    {
      assert s[i] == orders[i];
      if j < |orders| {
        assert s[j] == orders[j];
      } else {
        assert s[j] == o;
      }
    }
  }

  /** Writing a status into one saved order keeps the collection well
      formed. */
  lemma StatusKeepsStore(orders: seq<Order>, k: nat, s: Status, now: int)
    requires AllStored(orders) && UniqueIds(orders) && k < |orders|
    ensures AllStored(orders[k := WithStatus(orders[k], s, now)])
    ensures UniqueIds(orders[k := WithStatus(orders[k], s, now)])
  {
    assert Stored(orders[k]);
    NoTransitionGuard(orders[k], s, now);
    ReplaceKeepsStore(orders, k, WithStatus(orders[k], s, now));
  }

  // ---------------------------------------------------------------------
  // The order schema as written
  // ---------------------------------------------------------------------

  /** The document models/order.js actually lets reach the database: the
      schema declares no `userId` path, and Mongoose's default strict mode
      drops values of undeclared paths when saving, so the stored order has
      no owner; everything else is kept. */
  function StrictSave(o: Order): (r: Order)
    ensures r.userId.None?
    ensures r.(userId := o.userId) == o
  {
    o.(userId := None)
  }

  /** A collection of orders all saved through the schema as written. */
  function StrictSaveAll(placed: seq<Order>): (r: seq<Order>)
    ensures |r| == |placed|
    ensures forall k :: 0 <= k < |r| ==> r[k] == StrictSave(placed[k])
  {
    seq(|placed|, k requires 0 <= k < |placed| => StrictSave(placed[k]))
  }

  /** As written, the owner listing finds nothing, whatever orders the
      customer placed with their id: every stored order lost its owner. */
  lemma OwnerListingEmptyAsWritten(placed: seq<Order>, userId: string)
    ensures Filter(StrictSaveAll(placed), (o: Order) => o.userId == Some(userId)) == []
  {
    var stored := StrictSaveAll(placed);
    var r := Filter(stored, (o: Order) => o.userId == Some(userId));
    if |r| > 0 {
      assert r[0] in stored;
    }
  }

  /** `findByIdAndUpdate(id, { status })` against the schema as written:
      `status` is not a declared path either, so strict mode strips it from
      the update and only the `updatedAt` timestamp changes. As written the
      stored document has no status at all (none is declared or set when the
      order is placed); `o.status` here stands for whatever the document
      holds, which the update leaves untouched. */
  function StrictUpdate(o: Order, s: Status, now: int): (r: Order)
    ensures r.status == o.status && r.updatedAt == now
    ensures r.(updatedAt := o.updatedAt) == o
  {
    o.(updatedAt := now)
  }

  /** As written, the status route answers 200 with an order whose status is
      not the requested one whenever the two differ; with the path declared,
      the requested status is the one written. */
  lemma StatusLostAsWritten(o: Order, s: Status, now: int)
    requires o.status != s
    ensures StrictUpdate(o, s, now).status != s
    ensures WithStatus(o, s, now).status == s
  {
  }

  /** An e-mail the handlers attempted; delivery is best effort. */
  datatype Notice =
    | OrderConfirmation(to: Value, name: Value, total: int, address: Value)
    | StatusNotice(recipient: string, customer: string, orderId: string, status: Status)

  /** The order collection, with the notices the handlers attempted to send. */
  class OrderStore {
    var orders: seq<Order>
    var outbox: seq<Notice>
    /** Whether a mail transporter exists (EMAIL_USER and EMAIL_PASS set). */
    const mailConfigured: bool

    /** Every saved order passes the schema and its total is the sum of its
        lines; ids are unique. */
    ghost predicate Valid()
      reads this
    {
      AllStored(orders) && UniqueIds(orders)
    }

    constructor (mailConfigured: bool)
      ensures Valid() && orders == [] && outbox == [] && this.mailConfigured == mailConfigured
    {
      orders := [];
      outbox := [];
      this.mailConfigured := mailConfigured;
    }

    /** `POST /`: validate, compute the total, attempt the confirmation
        e-mail, then save. Only the save decides between 201 and 500; the
        e-mail outcome (`delivered`) and a missing transporter change nothing
        but the outbox. */
    method Place(body: CheckoutBody, id: string, now: int, delivered: bool, dbOk: bool)
      returns (r: PlaceResult)
      requires Valid() && OrderIndex(orders, id).None?
      modifies this
      ensures Valid()
      ensures r == Checkout(body, id, now, dbOk)
      ensures r.Placed? ==> Validated(body) && orders == old(orders) + [Draft(body, id, now).value]
      ensures !r.Placed? ==> orders == old(orders)
      ensures Validated(body) && mailConfigured ==>
        outbox == old(outbox) + [OrderConfirmation(body.email, body.name, Reduce(body.items.elems, 0), body.address)]
      ensures !(Validated(body) && mailConfigured) ==> outbox == old(outbox)
    {
      var refusal := Screen(body, id, now, dbOk);
      if refusal.Some? {
        return refusal.value;
      }
      var total := Reduce(body.items.elems, 0);
      if mailConfigured {
        // `transporter.sendMail` inside its own try/catch: the attempt is
        // recorded and its outcome (`delivered`) is only logged.
        outbox := outbox + [OrderConfirmation(body.email, body.name, total, body.address)];
      }
      r := Save(body, id, now, dbOk);
    }

    /** `new Order({...}).save()` for a validated request: the document is
        written exactly when it passes the schema and the database accepts
        it; the outbox is left alone. */
    method Save(body: CheckoutBody, id: string, now: int, dbOk: bool) returns (r: PlaceResult)
      requires Valid() && Validated(body) && OrderIndex(orders, id).None?
      modifies this
      ensures Valid()
      ensures r == Checkout(body, id, now, dbOk)
      ensures r.Placed? ==> orders == old(orders) + [Draft(body, id, now).value]
      ensures !r.Placed? ==> orders == old(orders)
      ensures outbox == old(outbox)
    {
      var draft := Draft(body, id, now);
      if draft.Err? {
        return SaveFailed(draft.error);
      }
      if !dbOk {
        return SaveFailed(StorageFailure);
      }
      CheckoutCases(body, id, now, dbOk);
      assert Stored(draft.value) && draft.value.id == id;
      AppendKeepsStore(orders, draft.value);
      orders := orders + [draft.value];
      r := Placed(id);
    }

    /** `GET /` (admin only): every order, most recent first. */
    function ListAll(): (r: seq<Order>)
      reads this
      ensures NewestFirst(r)
      ensures multiset(r) == multiset(orders)
    {
      SortNewestFirst(orders)
    }

    /** `GET /user/:userId` for the user the guard attached: 403 unless the
        caller's id is the parameter; otherwise exactly the orders recorded
        for that user, most recent first. */
    function ListByUser(caller: UserModel.Account, userId: string): (r: Reply<seq<Order>>)
      reads this
      ensures caller.id != userId <==> r == Failure(403, ForbiddenMessage)
      ensures r.Success? ==> r.code == 200 && NewestFirst(r.body)
      ensures r.Success? ==> forall k :: 0 <= k < |r.body| ==> r.body[k].userId == Some(userId) && r.body[k] in orders
      ensures r.Success? ==> forall o :: o in orders && o.userId == Some(userId) ==> o in r.body
      ensures r.Success? ==> forall o :: multiset(r.body)[o] == if o.userId == Some(userId) then multiset(orders)[o] else 0
    {
      if caller.id != userId then Failure(403, ForbiddenMessage)
      else
        var p := (o: Order) => o.userId == Some(userId);
        var mine := Filter(orders, p);
        var sorted := SortNewestFirst(mine);
        SortKeepsMembers(mine);
        assert forall k :: 0 <= k < |sorted| ==> sorted[k] in mine;
        forall o | true
          ensures multiset(sorted)[o] == if o.userId == Some(userId) then multiset(orders)[o] else 0
        {
          FilterMultiset(orders, p, o);
        }
        Success(200, sorted)
    }

    /** `GET /email/:email` for the user the guard attached: 403 unless the
        caller's e-mail is the parameter; otherwise exactly the orders saved
        with that e-mail, most recent first. */
    function ListByEmail(caller: UserModel.Account, email: string): (r: Reply<seq<Order>>)
      reads this
      ensures caller.email != email <==> r == Failure(403, ForbiddenMessage)
      ensures r.Success? ==> r.code == 200 && NewestFirst(r.body)
      ensures r.Success? ==> forall k :: 0 <= k < |r.body| ==> r.body[k].email == Text.Lower(email) && r.body[k] in orders
      ensures r.Success? ==> forall o :: o in orders && o.email == Text.Lower(email) ==> o in r.body
      ensures r.Success? ==> forall o :: multiset(r.body)[o] == if o.email == Text.Lower(email) then multiset(orders)[o] else 0
    {
      if caller.email != email then Failure(403, ForbiddenMessage)
      else
        var p := (o: Order) => o.email == Text.Lower(email);
        var mine := Filter(orders, p);
        var sorted := SortNewestFirst(mine);
        SortKeepsMembers(mine);
        assert forall k :: 0 <= k < |sorted| ==> sorted[k] in mine;
        forall o | true
          ensures multiset(sorted)[o] == if o.email == Text.Lower(email) then multiset(orders)[o] else 0
        {
          FilterMultiset(orders, p, o);
        }
        Success(200, sorted)
    }

    /** `PATCH /:orderId/status` (admin only): 400 for a value outside the
        five statuses, 500 when the database fails, 404 for an unknown id;
        otherwise the status is written whatever the current one is, and only
        that order's status and `updatedAt` change. */
    method UpdateStatus(orderId: string, status: Value, now: int, delivered: bool, dbOk: bool)
      returns (r: Reply<Order>)
      requires Valid()
      modifies this
      ensures Valid()
      ensures ParseStatus(status).None? ==>
        r == Failure(400, InvalidStatusMessage) && orders == old(orders) && outbox == old(outbox)
      ensures ParseStatus(status).Some? && !dbOk ==>
        r == Failure(500, "Server error") && orders == old(orders) && outbox == old(outbox)
      ensures ParseStatus(status).Some? && dbOk && OrderIndex(old(orders), orderId).None? ==>
        r == Failure(404, "Order not found") && orders == old(orders) && outbox == old(outbox)
      ensures ParseStatus(status).Some? && dbOk && OrderIndex(old(orders), orderId).Some? ==>
        var k := OrderIndex(old(orders), orderId).value;
        var o := WithStatus(old(orders)[k], ParseStatus(status).value, now);
        && orders == old(orders)[k := o]
        && r == Success(200, o)
        && outbox == if mailConfigured
                     then old(outbox) + [StatusNotice(o.email, o.name, o.id, o.status)]
                     else old(outbox)
    {
      var s := ParseStatus(status);
      if s.None? {
        return Failure(400, InvalidStatusMessage);
      }
      if !dbOk {
        return Failure(500, "Server error");
      }
      var k := OrderIndex(orders, orderId);
      if k.None? {
        return Failure(404, "Order not found");
      }
      var o := WithStatus(orders[k.value], s.value, now);
      StatusKeepsStore(orders, k.value, s.value, now);
      orders := orders[k.value := o];
      if mailConfigured {
        outbox := outbox + [StatusNotice(o.email, o.name, o.id, o.status)];
      }
      r := Success(200, o);
    }
  }
}
