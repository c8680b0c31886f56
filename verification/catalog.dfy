/** The lookup shared by the two read-only catalogue routers
    (Routes/topProducts.js and tempRoutes/products.js): the path parameter
    is read with `parseInt`, and the first item whose numeric id is strictly
    equal to the result is answered; NaN is equal to no id. */
module Catalog {
  import opened Wrappers
  import opened Search
  import opened Http
  import opened Text
  import opened ParseInt

  /** `items.find(p => p.id === parseInt(param))`, as a position. */
  function FindById<T>(items: seq<T>, idOf: T -> int, param: string): (r: Option<nat>)
    ensures r.Some? ==>
      && Parse(param).Some? && r.value < |items| && idOf(items[r.value]) == Parse(param).value
      && forall k :: 0 <= k < r.value ==> idOf(items[k]) != Parse(param).value
    ensures r.None? <==>
      Parse(param).None? || forall k :: 0 <= k < |items| ==> idOf(items[k]) != Parse(param).value
  {
    match Parse(param)
    case None => None
    case Some(id) => FindFirst(items, (x: T) => idOf(x) == id)
  }

  /** `GET /:id`: the item found, or 404 with the router's message. */
  function GetById<T>(items: seq<T>, idOf: T -> int, param: string, notFound: string): (r: Reply<T>)
    ensures r.Failure? ==> r == Failure(404, notFound)
    ensures r.Failure? <==>
      Parse(param).None? || forall k :: 0 <= k < |items| ==> idOf(items[k]) != Parse(param).value
    ensures r.Success? ==>
      && r.code == 200 && r.body in items
      && Parse(param).Some? && idOf(r.body) == Parse(param).value
  {
    match FindById(items, idOf, param)
    case None => Failure(404, notFound)
    case Some(k) => Success(200, items[k])
  }

  /** No two items share an id. */
  predicate UniqueIds<T>(items: seq<T>, idOf: T -> int)
  {
    forall i, j :: 0 <= i < j < |items| ==> idOf(items[i]) != idOf(items[j])
  }

  /** With unique ids, a parameter that `parseInt` reads as the id of the
      item at position `k` fetches exactly that item. */
  lemma FetchById<T>(items: seq<T>, idOf: T -> int, k: nat, param: string, notFound: string)
    requires UniqueIds(items, idOf) && k < |items| && Parse(param) == Some(idOf(items[k]))
    ensures GetById(items, idOf, param, notFound) == Success(200, items[k])
  {
    assert forall j :: 0 <= j < |items| && j != k ==> idOf(items[j]) != idOf(items[k]) by {
      forall j | 0 <= j < |items| && j != k
        ensures idOf(items[j]) != idOf(items[k])
      {
        if j < k {
          assert idOf(items[j]) != idOf(items[k]);
        } else {
          assert idOf(items[k]) != idOf(items[j]);
        }
      }
    }
  }

  /** The item at position `k` is fetched by its id written in decimal, even
      with trailing text that `parseInt` stops at. */
  lemma FetchByDecimal<T>(items: seq<T>, idOf: T -> int, k: nat, rest: string, notFound: string)
    requires UniqueIds(items, idOf) && k < |items| && idOf(items[k]) >= 0
    requires rest == [] || DigitValue(rest[0], 10).None?
    requires idOf(items[k]) == 0 && rest != [] ==> rest[0] != 'x' && rest[0] != 'X'
    ensures GetById(items, idOf, Decimal(idOf(items[k])) + rest, notFound) == Success(200, items[k])
  {
    DecimalRoundTrip(idOf(items[k]), rest);
    FetchById(items, idOf, k, Decimal(idOf(items[k])) + rest, notFound);
  }

  /** Every item the listing route returns can be fetched by its id. */
  lemma ListedAreFetchable<T>(items: seq<T>, idOf: T -> int, notFound: string)
    requires UniqueIds(items, idOf)
    requires forall k :: 0 <= k < |items| ==> idOf(items[k]) >= 0
    ensures forall k :: 0 <= k < |items| ==>
      GetById(items, idOf, Decimal(idOf(items[k])), notFound) == Success(200, items[k])
  {
    forall k | 0 <= k < |items|
      ensures GetById(items, idOf, Decimal(idOf(items[k])), notFound) == Success(200, items[k])
    {
      FetchByDecimal(items, idOf, k, [], notFound);
      assert Decimal(idOf(items[k])) + [] == Decimal(idOf(items[k]));
    }
  }

  /** For items numbered 1, 2, ... in order, `GET /:id` answers exactly for
      the numbers `parseInt` reads in that range, with the item at that
      place. */
  lemma NumberedFetch<T>(items: seq<T>, idOf: T -> int, param: string, notFound: string)
    requires forall k :: 0 <= k < |items| ==> idOf(items[k]) == k + 1
    ensures GetById(items, idOf, param, notFound).Success? <==>
      Parse(param).Some? && 1 <= Parse(param).value <= |items|
    ensures GetById(items, idOf, param, notFound).Success? ==>
      GetById(items, idOf, param, notFound).body == items[Parse(param).value - 1]
  {
    var r := GetById(items, idOf, param, notFound);
    if Parse(param).Some? && 1 <= Parse(param).value <= |items| {
      var k := Parse(param).value - 1;
      assert idOf(items[k]) == Parse(param).value;
    }
    if r.Success? {
      var j :| 0 <= j < |items| && items[j] == r.body;
      assert idOf(items[j]) == j + 1;
    }
  }

  /** A parameter with no digit where `parseInt` looks for one is NaN and
      gets 404, whatever the catalogue holds. */
  lemma NonNumericIsNotFound<T>(items: seq<T>, idOf: T -> int, param: string, notFound: string)
    requires param == [] || (!IsSpace(param[0]) && param[0] != '-' && param[0] != '+' && DigitValue(param[0], 10).None?)
    ensures GetById(items, idOf, param, notFound) == Failure(404, notFound)
  {
    NoDigitsIsNaN(param);
  }
}
