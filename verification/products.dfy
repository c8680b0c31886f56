/** tempRoutes/products.js over the fixed list of data/products.js. */
module Products {
  import opened Wrappers
  import opened Http
  import opened ParseInt
  import opened Catalog

  /** One entry of the list. `rating` is a decimal with one fractional
      digit in the data, kept here in tenths. */
  datatype Product = Product(
    id: nat,
    img: string,
    title: string,
    ratingTenths: nat,
    color: string,
    price: nat,
    aosDelay: string)

  const Items: seq<Product> := [
    Product(1, "/uploads/women/women.png", "Women Ethnic", 50, "White", 2500, "0"),
    Product(2, "/uploads/women/women2.jpg", "Women Western", 45, "Red", 3200, "200"),
    Product(3, "/uploads/women/women3.jpg", "Goggles", 47, "Brown", 1200, "400"),
    Product(4, "/uploads/women/women4.jpg", "Printed T-Shirt", 44, "Yellow", 1800, "600"),
    Product(5, "/uploads/women/women2.jpg", "Fashion T-Shirt", 45, "Pink", 2000, "800")
  ]

  const NotFoundMessage := "Product not found"

  function IdOf(p: Product): int
  {
    p.id
  }

  /** The ids of the list are 1 to 5, in that order. */
  lemma ItemIds()
    ensures UniqueIds(Items, IdOf)
    ensures forall k :: 0 <= k < |Items| ==> Items[k].id == k + 1
  {
  }

  /** `GET /:id`: the entry whose id `parseInt` reads from the parameter, or
      404 "Product not found". */
  function Get(param: string): (r: Reply<Product>)
    ensures r.Failure? ==> r == Failure(404, NotFoundMessage)
    ensures r.Success? <==> Parse(param).Some? && 1 <= Parse(param).value <= 5
    ensures r.Success? ==> r.code == 200 && r.body == Items[Parse(param).value - 1]
  {
    ItemIds();
    NumberedFetch(Items, IdOf, param, NotFoundMessage);
    GetById(Items, IdOf, param, NotFoundMessage)
  }

  /** `GET /`: the whole list, each entry of which `GET /:id` answers for its
      own id. */
  function All(): (r: Reply<seq<Product>>)
    ensures r == Success(200, Items)
    ensures r.Success? && r.code == 200 && |r.body| == 5
    ensures forall k :: 0 <= k < |r.body| ==> Get(Decimal(r.body[k].id)) == Success(200, r.body[k])
  {
    ItemIds();
    ListedAreFetchable(Items, IdOf, NotFoundMessage);
    Success(200, Items)
  }

  /** A sign is read by `parseInt`: "-1" is the number -1, which no entry
      has. */
  lemma NegativeIdNotFound()
    ensures Get("-1") == Failure(404, NotFoundMessage)
  {
    assert Decimal(1) == "1";
    assert "-1" == ['-'] + ("1" + []);
    SignedRoundTrip('-', 1, []);
  }

  /** A parameter `parseInt` reads as a number from 1 to 5 fetches the
      entry at that place. */
  lemma FetchNumber(param: string, n: int)
    requires Parse(param) == Some(n) && 1 <= n <= 5
    ensures Get(param) == Success(200, Items[n - 1])
  {
    ItemIds();
    NumberedFetch(Items, IdOf, param, NotFoundMessage);
  }

  /** Leading white space is skipped: " 5" fetches the last entry. */
  lemma LeadingSpaceSkipped()
    ensures Get(" 5") == Success(200, Items[4])
  {
    assert Parse(" 5") == Some(5) by {
      assert Decimal(5) == "5";
      assert " 5" == " " + ("5" + []);
      DecimalRoundTrip(5, []);
      SkipsLeadingSpace(" ", "5");
    }
    FetchNumber(" 5", 5);
  }
}
