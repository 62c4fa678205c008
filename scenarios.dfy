/** A small store: vendor 5 "Acme", order 10 of that vendor, and two details of order 10. */
module Scenarios {
  import opened Wrappers
  import opened Json
  import opened Collections
  import opened Urls
  import opened PurchaseOrders
  import opened Middleware

  const Acme: Object := [Prop("businessEntityId", Num(5.0)), Prop("name", Str("Acme")), Prop("accountNumber", Str("AW001"))]
  const Order10: Object := [Prop("purchaseOrderId", Num(10.0)), Prop("vendorId", Num(5.0))]
  const Line1: Object := [Prop("purchaseOrderDetailId", Num(1.0)), Prop("purchaseOrderId", Num(10.0))]
  const Line2: Object := [Prop("purchaseOrderDetailId", Num(2.0)), Prop("purchaseOrderId", Num(10.0))]
  const Store := Db([Order10], [Line1, Line2], [Acme])

  /** Order 11 names vendor 9, which the store lacks, and has no details. */
  const Order11: Object := [Prop("purchaseOrderId", Num(11.0)), Prop("vendorId", Num(9.0))]
  const Orphans := Db([Order11], [Line1, Line2], [Acme])

  lemma AcmeWellFormed()
    ensures WellFormedObject(Acme)
  {
    assert Keys(Acme[1..][1..][1..]) == [];
    assert Keys(Acme[1..][1..]) == ["accountNumber"];
    assert Keys(Acme[1..]) == ["name", "accountNumber"];
  }

  lemma Order10WellFormed()
    ensures WellFormedObject(Order10)
  {
    assert Keys(Order10[1..][1..]) == [];
    assert Keys(Order10[1..]) == ["vendorId"];
  }

  lemma LinesWellFormed()
    ensures WellFormedObject(Line1) && WellFormedObject(Line2)
  {
    assert Keys(Line1[1..][1..]) == [];
    assert Keys(Line1[1..]) == ["purchaseOrderId"];
    assert Keys(Line2[1..][1..]) == [];
    assert Keys(Line2[1..]) == ["purchaseOrderId"];
  }

  lemma StoreWellFormed()
    ensures WellFormed(Store)
  {
    AcmeWellFormed();
    Order10WellFormed();
    LinesWellFormed();
  }

  /** Order 10 is the first order, and Acme its vendor. */
  lemma StoreLookups()
    ensures FindOrder(Store, 10) == Some(0)
    ensures FindVendor(Store, Order10) == Some(0)
  {
    assert Matches(Order10, "purchaseOrderId", IdValue(10));
    assert Matches(Acme, "businessEntityId", Get(Order10, "vendorId"));
  }

  lemma ParsedIds()
    ensures ParseInt("10") == 10 && ParseInt("11") == 11 && ParseInt("999") == 999
  {
    assert "11"[..1] == "1";
    assert "10"[..1] == "1" && "1"[..0] == [];
    assert "999"[..2] == "99" && "99"[..1] == "9" && "9"[..0] == [];
  }

  lemma DetailsOfOrder10()
    ensures DetailsOf(Store, 10) == [Line1, Line2]
  {
    assert Get(Line1, "purchaseOrderId") == IdValue(10);
    assert Get(Line2, "purchaseOrderId") == IdValue(10);
    FilterSingleton(Line1, "purchaseOrderId", IdValue(10));
    FilterSingleton(Line2, "purchaseOrderId", IdValue(10));
    assert [Line1, Line2] == [Line1] + [Line2];
    FilterAppend([Line1], [Line2], "purchaseOrderId", IdValue(10));
  }

  /** `GET /purchase-orders/10/details` gives both details of order 10. */
  lemma DetailsScenario()
    ensures Response(Request("GET", "/purchase-orders/10/details"), Store) ==
      Respond(200, CorsHeaders, Arr([Obj(Line1), Obj(Line2)]))
  {
    assert "/purchase-orders/10/details" == DetailsPath("10");
    DetailsAt();
  }

  lemma DetailsAt()
    ensures Response(Request("GET", DetailsPath("10")), Store) ==
      Respond(200, CorsHeaders, Arr([Obj(Line1), Obj(Line2)]))
  {
    StoreWellFormed();
    ParsedIds();
    DetailsValues10();
    DetailsAnswer(Store, "10");
  }

  lemma AcmeSummary()
    ensures Serialize(VendorSummary(Acme)) == Obj(Acme)
  {
    var ps := VendorSummary(Acme).props;
    assert Get(Acme, "businessEntityId") == Num(5.0);
    assert Get(Acme, "name") == Str("Acme");
    assert Get(Acme, "accountNumber") == Str("AW001");
    assert ps == Acme;
    assert IsJson(Obj(Acme));
    SerializeOfJson(Obj(Acme));
  }

  /** `GET /purchase-orders/10` gives order 10 with Acme's summary under `vendor`
      and both details under `purchaseOrderDetails`. */
  lemma FoundScenario()
    ensures var r := Response(Request("GET", "/purchase-orders/10"), Store);
      && r.Respond? && r.status == 200 && r.body.Obj?
      && Get(r.body.props, "vendor") == Obj(Acme)
      && Get(r.body.props, "purchaseOrderDetails") == Arr([Obj(Line1), Obj(Line2)])
  {
    assert "/purchase-orders/10" == SinglePath("10");
    FoundAt();
  }

  lemma FoundAt()
    ensures var r := Response(Request("GET", SinglePath("10")), Store);
      && r.Respond? && r.status == 200 && r.body.Obj?
      && Get(r.body.props, "vendor") == Obj(Acme)
      && Get(r.body.props, "purchaseOrderDetails") == Arr([Obj(Line1), Obj(Line2)])
  {
    FoundRoute();
    FoundBody();
    assert Serialize(Obj(WithVendorAndDetails(Store, Order10, 10))).props ==
      SerializeProps(WithVendorAndDetails(Store, Order10, 10));
  }

  lemma FoundRoute()
    ensures Response(Request("GET", SinglePath("10")), Store) ==
      Respond(200, CorsHeaders + NoCacheHeaders, Serialize(Obj(WithVendorAndDetails(Store, Order10, 10))))
  {
    ParsedIds();
    ClassifySinglePath("10");
    StoreLookups();
  }

  lemma FoundBody()
    ensures var body := SerializeProps(WithVendorAndDetails(Store, Order10, 10));
      && Get(body, "vendor") == Obj(Acme)
      && Get(body, "purchaseOrderDetails") == Arr([Obj(Line1), Obj(Line2)])
  {
    StoreWellFormed();
    StoreLookups();
    DetailsValues10();
    AcmeSummary();
    assert Store.vendors[0] == Acme;
    WithVendorAndDetailsFields(Store, Order10, 10);
  }

  lemma DetailsValues10()
    ensures Arr(AsValues(DetailsOf(Store, 10))) == Arr([Obj(Line1), Obj(Line2)])
  {
    DetailsOfOrder10();
    assert AsValues([Line1, Line2]) == [Obj(Line1), Obj(Line2)];
  }

  /** `GET /purchase-orders/999` gives the not-found answer. */
  lemma NotFoundScenario()
    ensures Response(Request("GET", "/purchase-orders/999"), Store) ==
      Respond(404, CorsHeaders + NoCacheHeaders, NotFoundBody)
  {
    ParsedIds();
    assert "/purchase-orders/999" == SinglePath("999");
    assert !Matches(Order10, "purchaseOrderId", IdValue(999));
    assert FindOrder(Store, 999).None?;
    NotFoundAnswer(Store, "999", Store.vendors, Store.purchaseOrderDetails);
  }

  lemma Order11WellFormed()
    ensures WellFormedObject(Order11)
  {
    assert Keys(Order11[1..][1..]) == [];
    assert Keys(Order11[1..]) == ["vendorId"];
  }

  lemma OrphanLookups()
    ensures FindOrder(Orphans, 11) == Some(0)
    ensures FindVendor(Orphans, Order11) == None
  {
    assert Matches(Order11, "purchaseOrderId", IdValue(11));
    assert !Matches(Acme, "businessEntityId", Get(Order11, "vendorId"));
  }

  lemma OrphanDetails()
    ensures DetailsOf(Orphans, 11) == []
  {
    assert !Matches(Line1, "purchaseOrderId", IdValue(11));
    assert !Matches(Line2, "purchaseOrderId", IdValue(11));
    FilterSingleton(Line1, "purchaseOrderId", IdValue(11));
    FilterSingleton(Line2, "purchaseOrderId", IdValue(11));
    assert [Line1, Line2] == [Line1] + [Line2];
    FilterAppend([Line1], [Line2], "purchaseOrderId", IdValue(11));
  }

  /** `GET /purchase-orders/11`, whose vendor is missing, still answers 200: the
      order is sent without a `vendor` property and with no details. */
  lemma VendorAbsentScenario()
    ensures var r := Response(Request("GET", SinglePath("11")), Orphans);
      && r.Respond? && r.status == 200 && r.body.Obj?
      && "vendor" !in Keys(r.body.props)
      && Get(r.body.props, "purchaseOrderId") == Num(11.0)
      && Get(r.body.props, "purchaseOrderDetails") == Arr([])
  {
    OrphanRoute();
    OrphanBody();
    assert Serialize(Obj(WithVendorAndDetails(Orphans, Order11, 11))).props ==
      SerializeProps(WithVendorAndDetails(Orphans, Order11, 11));
  }

  lemma OrphanRoute()
    ensures Response(Request("GET", SinglePath("11")), Orphans) ==
      Respond(200, CorsHeaders + NoCacheHeaders, Serialize(Obj(WithVendorAndDetails(Orphans, Order11, 11))))
  {
    ParsedIds();
    ClassifySinglePath("11");
    OrphanLookups();
  }

  lemma OrphanBody()
    ensures var body := SerializeProps(WithVendorAndDetails(Orphans, Order11, 11));
      && "vendor" !in Keys(body)
      && Get(body, "purchaseOrderId") == Num(11.0)
      && Get(body, "purchaseOrderDetails") == Arr([])
  {
    AcmeWellFormed();
    LinesWellFormed();
    Order11WellFormed();
    OrphanLookups();
    OrphanDetails();
    assert AsValues([]) == [];
    WithVendorAndDetailsFields(Orphans, Order11, 11);
  }
}
