/** Routes/topProducts.js over the fixed list of data/topProducts.js. */
module TopProducts {
  import opened Http
  import opened ParseInt
  import opened Catalog

  /** One entry of the list. `rating` is a decimal with one fractional
      digit in the data, kept here in tenths. */
  datatype TopProduct = TopProduct(
    id: nat,
    img: string,
    title: string,
    ratingTenths: nat,
    description: string,
    price: nat,
    aosDelay: string)

  const Items: seq<TopProduct> := [
    TopProduct(1, "/uploads/shirt/shirt.png", "Casual Wear", 50, "Cotton Linen Shirt MN-CS-SS24-044", 2500, "0"),
    TopProduct(2, "/uploads/shirt/shirt2.png", "Printed Shirt", 45, "Printed Shirt MN-PS-SS24-045", 3200, "200"),
    TopProduct(3, "/uploads/shirt/shirt3.png", "Women Shirt", 47, "Printed Shirt WM-PS-SS24-046", 1200, "400")
  ]

  const NotFoundMessage := "Top product not found"

  function IdOf(p: TopProduct): int
  {
    p.id
  }

  /** The ids of the list are 1, 2 and 3, in that order. */
  lemma ItemIds()
    ensures UniqueIds(Items, IdOf)
    ensures forall k :: 0 <= k < |Items| ==> Items[k].id == k + 1
  {
  }

  /** `GET /:id`: the entry whose id `parseInt` reads from the parameter, or
      404 "Top product not found". */
  function Get(param: string): (r: Reply<TopProduct>)
    ensures r.Failure? ==> r == Failure(404, NotFoundMessage)
    ensures r.Success? <==> Parse(param).Some? && 1 <= Parse(param).value <= 3
    ensures r.Success? ==> r.code == 200 && r.body == Items[Parse(param).value - 1]
  {
    ItemIds();
    NumberedFetch(Items, IdOf, param, NotFoundMessage);
    GetById(Items, IdOf, param, NotFoundMessage)
  }

  /** `GET /`: the whole list, each entry of which `GET /:id` answers for its
      own id. */
  function All(): (r: Reply<seq<TopProduct>>)
    ensures r == Success(200, Items)
    ensures r.Success? && r.code == 200 && |r.body| == 3
    ensures forall k :: 0 <= k < |r.body| ==> Get(Decimal(r.body[k].id)) == Success(200, r.body[k])
  {
    ItemIds();
    ListedAreFetchable(Items, IdOf, NotFoundMessage);
    Success(200, Items)
  }

  /** `parseInt` stops at the first non-digit, so "2abc" fetches entry 2. */
  lemma TrailingTextIgnored()
    ensures Get("2abc") == Success(200, Items[1])
  {
    ItemIds();
    assert Decimal(2) == "2";
    assert "2" + "abc" == "2abc";
    FetchByDecimal(Items, IdOf, 1, "abc", NotFoundMessage);
  }

  /** Text with no leading digit is NaN and gets 404. */
  lemma NonNumericNotFound()
    ensures Get("abc") == Failure(404, NotFoundMessage)
  {
    NonNumericIsNotFound(Items, IdOf, "abc", NotFoundMessage);
  }

  /** An id past the list gets 404. */
  lemma UnknownIdNotFound()
    ensures Get("4") == Failure(404, NotFoundMessage)
  {
    assert Decimal(4) == "4";
    assert "4" + [] == "4";
    DecimalRoundTrip(4, []);
  }
}
