/** The store the handler reads and the joins it computes from it: the details
    of an order, the order itself, and the vendor summary attached to orders. */
module PurchaseOrders {
  import opened Wrappers
  import opened Json
  import opened Collections

  /** The three collections of the store the handler reads, each an array of
      objects keyed in the store by `purchase-orders`, `purchase-order-details`
      and `vendors`. */
  datatype Db = Db(purchaseOrders: seq<Object>, purchaseOrderDetails: seq<Object>, vendors: seq<Object>)

  predicate AllWellFormed(objs: seq<Object>)
  {
    forall i :: 0 <= i < |objs| ==> WellFormedObject(objs[i])
  }

  /** A store as JSON.parse produces it from the data file. */
  predicate WellFormed(db: Db)
  {
    AllWellFormed(db.purchaseOrders) && AllWellFormed(db.purchaseOrderDetails) && AllWellFormed(db.vendors)
  }

  /** The number `parseInt` yields for an id. */
  function IdValue(id: nat): Value
  {
    Num(id as real)
  }

  /** The details whose `purchaseOrderId` is `id`. */
  function DetailsOf(db: Db, id: nat): seq<Object>
  {
    Filter(db.purchaseOrderDetails, "purchaseOrderId", IdValue(id))
  }

  /** The position of the first order whose `purchaseOrderId` is `id`. */
  function FindOrder(db: Db, id: nat): Option<nat>
  {
    Find(db.purchaseOrders, "purchaseOrderId", IdValue(id))
  }

  /** The position of the first vendor whose `businessEntityId` is the order's `vendorId`. */
  function FindVendor(db: Db, order: Object): Option<nat>
  {
    Find(db.vendors, "businessEntityId", Get(order, "vendorId"))
  }

  /** The three vendor fields copied into an order. */
  function VendorSummary(vendor: Object): Value
  {
    Obj([Prop("businessEntityId", Get(vendor, "businessEntityId")),
         Prop("name", Get(vendor, "name")),
         Prop("accountNumber", Get(vendor, "accountNumber"))])
  }

  /** The `vendor` value of an order: the summary of its vendor, or `undefined`. */
  function VendorOf(db: Db, order: Object): (r: Value)
    ensures r == Undefined <==> FindVendor(db, order).None?
  {
    match FindVendor(db, order)
    case None => Undefined
    case Some(j) => VendorSummary(db.vendors[j])
  }

  /** `{...order, vendor: ...}`, an element of the list answer. */
  function WithVendor(db: Db, order: Object): Object
  {
    Set(order, "vendor", VendorOf(db, order))
  }

  function AsValues(objs: seq<Object>): seq<Value>
  {
    seq(|objs|, i requires 0 <= i < |objs| => Obj(objs[i]))
  }

  /** `{...order, vendor: ..., purchaseOrderDetails: details}`, the single-order answer. */
  function WithVendorAndDetails(db: Db, order: Object, id: nat): Object
  {
    Set(WithVendor(db, order), "purchaseOrderDetails", Arr(AsValues(DetailsOf(db, id))))
  }

  /** `purchaseOrders.map(order => ({...order, vendor: ...}))`. */
  function EnrichAll(db: Db): (r: seq<Value>)
  {
    seq(|db.purchaseOrders|, i requires 0 <= i < |db.purchaseOrders| => Obj(WithVendor(db, db.purchaseOrders[i])))
  }

  /** A detail is in the answer exactly when it is in the store and its
      `purchaseOrderId` is the number id (strict equality: the string "7" or an
      absent field never matches). */
  lemma DetailsOfMembers(db: Db, id: nat, d: Object)
    ensures d in DetailsOf(db, id) <==> d in db.purchaseOrderDetails && Get(d, "purchaseOrderId") == IdValue(id)
  {
  }

  /** The summary, once written, holds exactly the vendor's businessEntityId,
      name and accountNumber, leaving out any of them the vendor lacks. */
  lemma SummaryFields(vendor: Object)
    requires WellFormedObject(vendor)
    ensures Serialize(VendorSummary(vendor)).Obj?
    ensures var s := Serialize(VendorSummary(vendor)).props;
      && Get(s, "businessEntityId") == Get(vendor, "businessEntityId")
      && Get(s, "name") == Get(vendor, "name")
      && Get(s, "accountNumber") == Get(vendor, "accountNumber")
      && (forall k :: k in Keys(s) ==> k == "businessEntityId" || k == "name" || k == "accountNumber")
  {
    var summary := VendorSummary(vendor).props;
    assert Keys(summary[1..][1..][1..]) == [];
    assert Keys(summary[1..][1..]) == ["accountNumber"];
    assert Keys(summary[1..]) == ["name", "accountNumber"];
    assert Keys(summary) == ["businessEntityId", "name", "accountNumber"];
    assert UniqueKeys(summary) by {
      var ks := Keys(summary);
      assert Distinct(ks[1..][1..][1..]);
      assert Distinct(ks[1..][1..]);
      assert "name" != "accountNumber";
      assert Distinct(ks[1..]);
      assert "businessEntityId" != "name" && "businessEntityId" != "accountNumber";
    }
    assert Get(summary[1..][1..], "accountNumber") == Get(vendor, "accountNumber");
    assert Get(summary[1..], "accountNumber") == Get(vendor, "accountNumber");
    assert Get(summary, "accountNumber") == Get(vendor, "accountNumber");
    assert Get(summary, "name") == Get(vendor, "name");
    var s := SerializeProps(summary);
    assert Serialize(VendorSummary(vendor)).props == s;
    SerializedGet(summary, "businessEntityId");
    SerializedGet(summary, "name");
    SerializedGet(summary, "accountNumber");
    GetOfJsonObject(vendor, "businessEntityId");
    GetOfJsonObject(vendor, "name");
    GetOfJsonObject(vendor, "accountNumber");
    forall k | k in Keys(s) ensures k == "businessEntityId" || k == "name" || k == "accountNumber" {
      SerializedGet(summary, k);
    }
  }

  lemma {:induction false} GetOfJsonObject(o: Object, k: string)
    requires forall i :: 0 <= i < |o| ==> IsJson(o[i].val)
    ensures Serialize(Get(o, k)) == Get(o, k)
  {
    if o != [] {
      if o[0].key == k {
        SerializeOfJson(o[0].val);
      } else {
        GetOfJsonObject(o[1..], k);
      }
    }
  }

  /** What the handler sends for an order with its vendor attached: every
      property of the order except `vendor`, unchanged; `vendor` present exactly
      when the vendor lookup succeeds, and then the written summary of the first
      vendor whose businessEntityId is the order's vendorId. */
  ghost predicate SentWithVendor(db: Db, order: Object, sent: Value)
  {
    && sent.Obj?
    && UniqueKeys(sent.props)
    && (forall k :: k != "vendor" ==> Get(sent.props, k) == Get(order, k))
    && ("vendor" in Keys(sent.props) <==> FindVendor(db, order).Some?)
    && (FindVendor(db, order).Some? ==>
          Get(sent.props, "vendor") == Serialize(VendorSummary(db.vendors[FindVendor(db, order).value])))
  }

  lemma WithVendorFields(db: Db, order: Object)
    requires WellFormed(db) && WellFormedObject(order)
    ensures SentWithVendor(db, order, Serialize(Obj(WithVendor(db, order))))
  {
    var o := WithVendor(db, order);
    assert Serialize(Obj(o)).props == SerializeProps(o);
    SerializedGet(o, "vendor");
    forall k | k != "vendor" ensures Get(SerializeProps(o), k) == Get(order, k) {
      SerializedGet(o, k);
      GetOfJsonObject(order, k);
    }
  }

  /** The single-order answer: as WithVendorFields, and `purchaseOrderDetails`
      is the array of the details whose purchaseOrderId is id. */
  lemma WithVendorAndDetailsFields(db: Db, order: Object, id: nat)
    requires WellFormed(db) && WellFormedObject(order)
    ensures var body := SerializeProps(WithVendorAndDetails(db, order, id));
      && UniqueKeys(body)
      && (forall k :: k != "vendor" && k != "purchaseOrderDetails" ==> Get(body, k) == Get(order, k))
      && Get(body, "purchaseOrderDetails") == Arr(AsValues(DetailsOf(db, id)))
      && ("vendor" in Keys(body) <==> FindVendor(db, order).Some?)
      && (FindVendor(db, order).Some? ==>
            Get(body, "vendor") == Serialize(VendorSummary(db.vendors[FindVendor(db, order).value])))
  {
    var o := WithVendorAndDetails(db, order, id);
    var details := Arr(AsValues(DetailsOf(db, id)));
    DetailsAreJson(db, id);
    SerializeOfJson(details);
    SerializedGet(o, "purchaseOrderDetails");
    SerializedGet(o, "vendor");
    forall k | k != "vendor" && k != "purchaseOrderDetails"
      ensures Get(SerializeProps(o), k) == Get(order, k)
    {
      SerializedGet(o, k);
      GetOfJsonObject(order, k);
    }
  }

  lemma DetailsAreJson(db: Db, id: nat)
    requires WellFormed(db)
    ensures IsJson(Arr(AsValues(DetailsOf(db, id))))
  {
    var ds := DetailsOf(db, id);
    forall i | 0 <= i < |ds| ensures IsJson(Obj(ds[i])) {
      assert ds[i] in db.purchaseOrderDetails;
    }
  }
}
