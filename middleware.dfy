/** The request handler: for three read-only URL shapes under `/purchase-orders`
    it answers from the store itself, and it passes every other request on. */
module Middleware {
  import opened Wrappers
  import opened Json
  import opened Collections
  import opened Urls
  import opened PurchaseOrders

  datatype Request = Request(verb: string, url: string)

  /** One `res.header(name, value)` call. */
  datatype Header = Header(name: string, value: string)

  /** What the handler does with a request: pass it on to the next stage with
      the headers set so far, or answer it with a status, headers and a body.
      Headers are listed in the order they are set; the handler never sets a
      name twice, so the list is also the final set of headers. */
  datatype Outcome =
    | Next(headers: seq<Header>)
    | Respond(status: nat, headers: seq<Header>, body: Value)

  const CorsHeaders: seq<Header> := [
    Header("Access-Control-Allow-Origin", "*"),
    Header("Access-Control-Allow-Methods", "GET,POST,PUT,PATCH,DELETE,OPTIONS"),
    Header("Access-Control-Allow-Headers", "Origin, X-Requested-With, Content-Type, Accept")]

  const NoCacheHeaders: seq<Header> := [
    Header("Cache-Control", "no-cache, no-store, must-revalidate"),
    Header("Pragma", "no-cache"),
    Header("Expires", "0")]

  const NotFoundBody := Obj([Prop("error", Str("Purchase order not found"))])

  /** The details rule: a 200 answer with the details of order id. */
  function DetailsResponse(db: Db, id: nat, headers: seq<Header>): Outcome
  {
    Respond(200, headers, Serialize(Arr(AsValues(DetailsOf(db, id)))))
  }

  /** The single-order rule: the no-cache headers, then a 404 answer if no order
      has the id, or a 200 answer with the order, its vendor and its details. */
  function SingleResponse(db: Db, id: nat, headers: seq<Header>): Outcome
  {
    match FindOrder(db, id)
    case None => Respond(404, headers + NoCacheHeaders, Serialize(NotFoundBody))
    case Some(i) =>
      Respond(200, headers + NoCacheHeaders, Serialize(Obj(WithVendorAndDetails(db, db.purchaseOrders[i], id))))
  }

  /** The list rule: the no-cache headers, then a 200 answer with every order
      and its vendor. */
  function ListResponse(db: Db, headers: seq<Header>): Outcome
  {
    Respond(200, headers + NoCacheHeaders, Serialize(Arr(EnrichAll(db))))
  }

  /** The outcome of a request: the CORS headers, then the first rule that applies. */
  function Response(req: Request, db: Db): Outcome
  {
    match Classify(req.verb, req.url)
    case Details(id) => DetailsResponse(db, id, CorsHeaders)
    case Single(id) => SingleResponse(db, id, CorsHeaders)
    case List => ListResponse(db, CorsHeaders)
    case Other => Next(CorsHeaders)
  }

  /** `res.header(...)` for the three CORS headers, in turn. */
  method SetCorsHeaders(headers: seq<Header>) returns (r: seq<Header>)
    ensures r == headers + CorsHeaders
  {
    r := headers + [Header("Access-Control-Allow-Origin", "*")];
    r := r + [Header("Access-Control-Allow-Methods", "GET,POST,PUT,PATCH,DELETE,OPTIONS")];
    r := r + [Header("Access-Control-Allow-Headers", "Origin, X-Requested-With, Content-Type, Accept")];
  }

  /** `res.header(...)` for the three headers that disable caching, in turn. */
  method SetNoCacheHeaders(headers: seq<Header>) returns (r: seq<Header>)
    ensures r == headers + NoCacheHeaders
  {
    r := headers + [Header("Cache-Control", "no-cache, no-store, must-revalidate")];
    r := r + [Header("Pragma", "no-cache")];
    r := r + [Header("Expires", "0")];
  }

  // The three Answer methods below run each rule step by step, as the source
  // does, and are each proved against the rule's specification function above.
  // Keeping one method per rule keeps each proof small, so that Handle itself
  // only has to pick the rule.

  method AnswerDetails(db: Db, purchaseOrderId: nat, headers: seq<Header>) returns (out: Outcome)
    ensures out == DetailsResponse(db, purchaseOrderId, headers)
  {
    var details := DetailsOf(db, purchaseOrderId);
    out := Respond(200, headers, Serialize(Arr(AsValues(details))));
  }

  method AnswerSingle(db: Db, purchaseOrderId: nat, headers: seq<Header>) returns (out: Outcome)
    ensures out == SingleResponse(db, purchaseOrderId, headers)
  {
    var hs := SetNoCacheHeaders(headers);
    var found := FindOrder(db, purchaseOrderId);
    if found.None? {
      out := Respond(404, hs, Serialize(NotFoundBody));
      return;
    }
    var purchaseOrder := db.purchaseOrders[found.value];
    var vendor := VendorOf(db, purchaseOrder);
    var details := DetailsOf(db, purchaseOrderId);
    var response := Set(Set(purchaseOrder, "vendor", vendor), "purchaseOrderDetails", Arr(AsValues(details)));
    out := Respond(200, hs, Serialize(Obj(response)));
  }

  method AnswerList(db: Db, headers: seq<Header>) returns (out: Outcome)
    ensures out == ListResponse(db, headers)
  {
    var hs := SetNoCacheHeaders(headers);
    var ordersWithVendors := EnrichAll(db);
    out := Respond(200, hs, Serialize(Arr(ordersWithVendors)));
  }

  /** The handler as it runs: the CORS headers are set, then each rule is tried
      in turn and the first that applies answers and returns; otherwise the
      request is passed on. */
  method Handle(req: Request, db: Db) returns (out: Outcome)
    ensures out == Response(req, db)
  {
    var headers := SetCorsHeaders([]);

    var detailsMatch := MatchDetails(req.url);
    if req.verb == "GET" && detailsMatch.Some? {
      out := AnswerDetails(db, ParseInt(detailsMatch.value), headers);
      return;
    }

    var singleMatch := MatchSingle(req.url);
    if req.verb == "GET" && singleMatch.Some? {
      out := AnswerSingle(db, ParseInt(singleMatch.value), headers);
      return;
    }

    if req.verb == "GET" && (req.url == Collection || req.url == Collection + "/") {
      out := AnswerList(db, headers);
      return;
    }

    out := Next(headers);
  }

  /** The three CORS headers are set on every request, answered or passed on. */
  lemma CorsOnEveryRequest(req: Request, db: Db)
    ensures CorsHeaders <= Response(req, db).headers
  {
  }

  /** The no-cache headers are added for the single-order and list rules and
      for nothing else, not even the details rule. */
  lemma NoCacheOnlyOnSingleAndList(req: Request, db: Db)
    ensures Response(req, db).headers ==
      if req.verb == "GET" && (SingleShape(req.url) || ListShape(req.url))
      then CorsHeaders + NoCacheHeaders else CorsHeaders
  {
    ClassifyShapes(req.verb, req.url);
  }

  /** A request is passed on exactly when it is not a GET of one of the three
      shapes; a request passed on gets no status and no body. */
  lemma PassesOnExactly(req: Request, db: Db)
    ensures Response(req, db).Next? <==>
      !(req.verb == "GET" && (DetailsShape(req.url) || SingleShape(req.url) || ListShape(req.url)))
  {
    ClassifyShapes(req.verb, req.url);
  }

  /** `GET /purchase-orders/<digits>/details` answers 200 with the details whose
      purchaseOrderId is the parsed id, in store order; an id with no details
      gives the empty array, never 404. */
  lemma DetailsAnswer(db: Db, d: string)
    requires IsDigitRun(d) && WellFormed(db)
    ensures Response(Request("GET", DetailsPath(d)), db) ==
      Respond(200, CorsHeaders, Arr(AsValues(DetailsOf(db, ParseInt(d)))))
  {
    ClassifyDetailsPath(d);
    DetailsAreJson(db, ParseInt(d));
    SerializeOfJson(Arr(AsValues(DetailsOf(db, ParseInt(d)))));
  }

  /** `GET /purchase-orders/<digits>` for an id no order has answers 404 with
      `{error: "Purchase order not found"}`, whatever the vendors and details are. */
  lemma NotFoundAnswer(db: Db, d: string, vendors: seq<Object>, details: seq<Object>)
    requires IsDigitRun(d) && FindOrder(db, ParseInt(d)).None?
    ensures Response(Request("GET", SinglePath(d)), db) ==
      Respond(404, CorsHeaders + NoCacheHeaders, NotFoundBody)
    ensures Response(Request("GET", SinglePath(d)), db.(vendors := vendors, purchaseOrderDetails := details)) ==
      Respond(404, CorsHeaders + NoCacheHeaders, NotFoundBody)
  {
    ClassifySinglePath(d);
    SerializeOfJson(Str("Purchase order not found"));
    assert NotFoundBody.props[0].val == Str("Purchase order not found");
    SerializeOfJson(NotFoundBody);
  }

  /** `GET /purchase-orders/<digits>` for an existing order answers 200 with the
      first order of that id, its properties unchanged, with `vendor` attached or
      absent as the vendor lookup succeeds or fails, and with
      `purchaseOrderDetails` the details of that id. */
  lemma FoundAnswer(db: Db, d: string)
    requires IsDigitRun(d) && WellFormed(db) && FindOrder(db, ParseInt(d)).Some?
    ensures var i := FindOrder(db, ParseInt(d)).value;
      var order := db.purchaseOrders[i];
      var r := Response(Request("GET", SinglePath(d)), db);
      && Get(order, "purchaseOrderId") == IdValue(ParseInt(d))
      && (forall j :: 0 <= j < i ==> Get(db.purchaseOrders[j], "purchaseOrderId") != IdValue(ParseInt(d)))
      && r.Respond? && r.status == 200 && r.headers == CorsHeaders + NoCacheHeaders && r.body.Obj?
      && (forall k :: k != "vendor" && k != "purchaseOrderDetails" ==> Get(r.body.props, k) == Get(order, k))
      && Get(r.body.props, "purchaseOrderDetails") == Arr(AsValues(DetailsOf(db, ParseInt(d))))
      && ("vendor" in Keys(r.body.props) <==> FindVendor(db, order).Some?)
      && (FindVendor(db, order).Some? ==>
            Get(r.body.props, "vendor") == Serialize(VendorSummary(db.vendors[FindVendor(db, order).value])))
  {
    ClassifySinglePath(d);
    var i := FindOrder(db, ParseInt(d)).value;
    WithVendorAndDetailsFields(db, db.purchaseOrders[i], ParseInt(d));
  }

  /** `GET /purchase-orders` and `GET /purchase-orders/` answer 200 with one
      element per order, in store order, each the order with its vendor attached
      or absent; no `purchaseOrderDetails` is added to any of them. */
  lemma ListAnswer(db: Db, url: string)
    requires ListShape(url) && WellFormed(db)
    ensures var r := Response(Request("GET", url), db);
      && r.Respond? && r.status == 200 && r.headers == CorsHeaders + NoCacheHeaders
      && r.body.Arr? && |r.body.items| == |db.purchaseOrders|
      && (forall i :: 0 <= i < |db.purchaseOrders| ==> SentWithVendor(db, db.purchaseOrders[i], r.body.items[i]))
      && (forall i :: 0 <= i < |db.purchaseOrders| ==>
            ("purchaseOrderDetails" in Keys(r.body.items[i].props) <==>
             "purchaseOrderDetails" in Keys(db.purchaseOrders[i])))
  {
    ClassifyShapes("GET", url);
    var orders := db.purchaseOrders;
    var r := Response(Request("GET", url), db);
    assert r == Respond(200, CorsHeaders + NoCacheHeaders, Serialize(Arr(EnrichAll(db))));
    forall i | 0 <= i < |orders|
      ensures SentWithVendor(db, orders[i], r.body.items[i])
      ensures "purchaseOrderDetails" in Keys(r.body.items[i].props) <==> "purchaseOrderDetails" in Keys(orders[i])
    {
      assert r.body.items[i] == InArray(Serialize(Obj(WithVendor(db, orders[i]))));
      ListElement(db, orders[i]);
    }
  }

  lemma ListElement(db: Db, order: Object)
    requires WellFormed(db) && WellFormedObject(order)
    ensures SentWithVendor(db, order, Serialize(Obj(WithVendor(db, order))))
    ensures "purchaseOrderDetails" in Keys(Serialize(Obj(WithVendor(db, order))).props) <==>
      "purchaseOrderDetails" in Keys(order)
  {
    WithVendorFields(db, order);
    assert Serialize(Obj(WithVendor(db, order))).props == SerializeProps(WithVendor(db, order));
    SerializedGet(WithVendor(db, order), "purchaseOrderDetails");
    forall j | 0 <= j < |order| ensures order[j].val != Undefined {
      assert IsJson(order[j].val);
    }
    GetInKeys(order, "purchaseOrderDetails");
  }

  lemma NotUnderCollection(url: string, k: nat)
    requires k < |Collection + "/"| && k < |url| && url[k] != (Collection + "/")[k]
    ensures !DetailsShape(url) && !SingleShape(url) && !ListShape(url)
  {
    forall d | IsDigitRun(d) ensures url != DetailsPath(d) && url != SinglePath(d) {
      assert DetailsPath(d)[k] == (Collection + "/")[k];
      assert SinglePath(d)[k] == (Collection + "/")[k];
    }
    assert url != Collection + "/";
    if k < |Collection| {
      assert (Collection + "/")[k] == Collection[k];
    } else {
      assert |url| > |Collection|;
    }
  }

  /** Adding a query string to the list URL makes the request pass on. */
  lemma QueryStringPassesOn(db: Db, query: string)
    ensures Response(Request("GET", Collection + "?" + query), db).Next?
  {
    var url := Collection + "?" + query;
    assert url[|Collection|] == '?';
    NotUnderCollection(url, |Collection|);
    PassesOnExactly(Request("GET", url), db);
  }

  /** URLs under `/api` are never answered here, whatever follows. */
  lemma ApiPrefixPassesOn(db: Db, verb: string, rest: string)
    ensures Response(Request(verb, "/api" + rest), db).Next?
  {
    var url := "/api" + rest;
    assert url[1] == 'a';
    NotUnderCollection(url, 1);
    PassesOnExactly(Request(verb, url), db);
  }
}
