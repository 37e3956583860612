/** The `/orders` handler (index.js:111-183): lists the open orders, fetches
    each order's items one at a time, and flattens every order into the
    record the spreadsheet importer reads. */
module Orders {
  import opened JsValues
  import opened Http
  import opened OrderItems

  /** One flattened order, as the object literal of index.js:155-175 builds
      it. The three fields copied verbatim may be `undefined` (`None`); the
      buyer and address fields always hold a value. `OrderTotal` holds the raw
      `Amount` that `Number(...)` would convert, or `None` for `null`. */
  datatype FlatOrder = FlatOrder(
    AmazonOrderId: Option<Json>,
    PurchaseDate: Option<Json>,
    OrderStatus: Option<Json>,
    BuyerName: Json,
    BuyerEmail: Json,
    PostalCode: Json,
    StateOrRegion: Json,
    City: Json,
    AddressLine1: Json,
    AddressLine2: Json,
    Phone: Json,
    OrderTotal: Option<Json>,
    Currency: Json,
    Items: seq<OrderItem>)

  /** A field that is present in the reply: either the source's truthy value
      or the empty string. */
  predicate Filled(v: Json) {
    v == JStr("") || Truthy(Some(v))
  }

  /** `parent?.key || ""` */
  function TextField(parent: Option<Json>, key: string): (v: Json)
    ensures Truthy(Prop(parent, key)) ==> v == Prop(parent, key).value
    ensures !Truthy(Prop(parent, key)) ==> v == JStr("")
    ensures Filled(v)
  {
    Or(Prop(parent, key), JStr(""))
  }

  /** The record built for order `o` with its item lookup `items`. Only
      reached once `o.AmazonOrderId` has been read, so `o` is not `null`. */
  function FlattenOrder(o: Json, items: seq<OrderItem>): (f: FlatOrder)
    requires !o.JNull?
    // copied verbatim, possibly undefined
    ensures f.AmazonOrderId == Prop(Some(o), "AmazonOrderId")
    ensures f.PurchaseDate == Prop(Some(o), "PurchaseDate")
    ensures f.OrderStatus == Prop(Some(o), "OrderStatus")
    ensures f.Items == items
    // every buyer and address key is `parent?.key || ""` of its source
    ensures f.BuyerName == TextField(Prop(Some(o), "BuyerInfo"), "BuyerName")
    ensures f.BuyerEmail == TextField(Prop(Some(o), "BuyerInfo"), "BuyerEmail")
    ensures f.PostalCode == TextField(Prop(Some(o), "ShippingAddress"), "PostalCode")
    ensures f.StateOrRegion == TextField(Prop(Some(o), "ShippingAddress"), "StateOrRegion")
    ensures f.City == TextField(Prop(Some(o), "ShippingAddress"), "City")
    ensures f.AddressLine1 == TextField(Prop(Some(o), "ShippingAddress"), "AddressLine1")
    ensures f.AddressLine2 == TextField(Prop(Some(o), "ShippingAddress"), "AddressLine2")
    ensures f.Phone == TextField(Prop(Some(o), "ShippingAddress"), "Phone")
    // so each holds the source's truthy value or ""
    ensures Filled(f.BuyerName) && Filled(f.BuyerEmail) && Filled(f.PostalCode) && Filled(f.StateOrRegion)
    ensures Filled(f.City) && Filled(f.AddressLine1) && Filled(f.AddressLine2) && Filled(f.Phone)
    ensures Truthy(Prop(Prop(Some(o), "BuyerInfo"), "BuyerName")) <==> f.BuyerName != JStr("")
    ensures Truthy(Prop(Prop(Some(o), "ShippingAddress"), "PostalCode")) <==> f.PostalCode != JStr("")
    // null exactly when the source value is absent or falsy
    ensures f.OrderTotal.None? <==> !Truthy(Prop(Prop(Some(o), "OrderTotal"), "Amount"))
    ensures f.OrderTotal.Some? ==> f.OrderTotal.value == Prop(Prop(Some(o), "OrderTotal"), "Amount").value
    ensures f.Currency == JNull <==> !Truthy(Prop(Prop(Some(o), "OrderTotal"), "CurrencyCode"))
    ensures f.Currency != JNull ==> f.Currency == Prop(Prop(Some(o), "OrderTotal"), "CurrencyCode").value
  {
    var buyer := Prop(Some(o), "BuyerInfo");
    var address := Prop(Some(o), "ShippingAddress");
    var total := Prop(Some(o), "OrderTotal");
    FlatOrder(
      Prop(Some(o), "AmazonOrderId"),
      Prop(Some(o), "PurchaseDate"),
      Prop(Some(o), "OrderStatus"),
      TextField(buyer, "BuyerName"),
      TextField(buyer, "BuyerEmail"),
      TextField(address, "PostalCode"),
      TextField(address, "StateOrRegion"),
      TextField(address, "City"),
      TextField(address, "AddressLine1"),
      TextField(address, "AddressLine2"),
      TextField(address, "Phone"),
      if Truthy(Prop(total, "Amount")) then Prop(total, "Amount") else None,
      Or(Prop(total, "CurrencyCode"), JNull),
      items)
  }

  /** An order without a shipping address (or with one that is not an
      object) still gets every address key, each holding "". */
  lemma MissingAddressBlank(o: Json, items: seq<OrderItem>)
    requires !o.JNull?
    requires !Prop(Some(o), "ShippingAddress").Some? || !Prop(Some(o), "ShippingAddress").value.JObj?
    ensures var f := FlattenOrder(o, items);
      f.PostalCode == f.StateOrRegion == f.City == f.AddressLine1 == f.AddressLine2 == f.Phone == JStr("")
  {
  }

  /** The keys a flattened order always has in the serialised reply. */
  const AlwaysKeys: set<string> := {
    "BuyerName", "BuyerEmail", "PostalCode", "StateOrRegion", "City",
    "AddressLine1", "AddressLine2", "Phone", "OrderTotal", "Currency", "Items"}

  /** Serialising with `JSON.stringify` drops keys whose value is `undefined`:
      the three verbatim fields appear only when the source had them. */
  function IdEntries(f: FlatOrder): (m: map<string, Json>)
    ensures "AmazonOrderId" in m <==> f.AmazonOrderId.Some?
    ensures "PurchaseDate" in m <==> f.PurchaseDate.Some?
    ensures "OrderStatus" in m <==> f.OrderStatus.Some?
    ensures m.Keys <= {"AmazonOrderId", "PurchaseDate", "OrderStatus"}
  {
    (if f.AmazonOrderId.Some? then map["AmazonOrderId" := f.AmazonOrderId.value] else map[])
    + (if f.PurchaseDate.Some? then map["PurchaseDate" := f.PurchaseDate.value] else map[])
    + (if f.OrderStatus.Some? then map["OrderStatus" := f.OrderStatus.value] else map[])
  }

  /** The entries a flattened order always has in the serialised reply. */
  function FixedEntries(f: FlatOrder): (m: map<string, Json>)
    ensures m.Keys == AlwaysKeys
    ensures "AmazonOrderId" !in m && "PurchaseDate" !in m && "OrderStatus" !in m
    ensures m["OrderTotal"] == JNull <==> f.OrderTotal.None? || f.OrderTotal.value == JNull
  {
    map[
      "BuyerName" := f.BuyerName, "BuyerEmail" := f.BuyerEmail,
      "PostalCode" := f.PostalCode, "StateOrRegion" := f.StateOrRegion, "City" := f.City,
      "AddressLine1" := f.AddressLine1, "AddressLine2" := f.AddressLine2, "Phone" := f.Phone,
      "OrderTotal" := (if f.OrderTotal.Some? then f.OrderTotal.value else JNull),
      "Currency" := f.Currency,
      "Items" := JArr(seq(|f.Items|, i requires 0 <= i < |f.Items| => ItemJson(f.Items[i])))]
  }

  /** A flattened order as it appears in the JSON reply: every buyer, address
      and total key is present, and the verbatim ones exactly when defined. */
  function RenderOrder(f: FlatOrder): (v: Json)
    ensures v.JObj? && AlwaysKeys <= v.fields.Keys
    ensures "AmazonOrderId" in v.fields <==> f.AmazonOrderId.Some?
    ensures "PurchaseDate" in v.fields <==> f.PurchaseDate.Some?
    ensures "OrderStatus" in v.fields <==> f.OrderStatus.Some?
    ensures v.fields.Keys <= AlwaysKeys + {"AmazonOrderId", "PurchaseDate", "OrderStatus"}
    ensures v.fields["OrderTotal"] == JNull <==> f.OrderTotal.None? || f.OrderTotal.value == JNull
  {
    JObj(IdEntries(f) + FixedEntries(f))
  }

  /** `o.AmazonOrderId`, the key the item lookup is made with. */
  function OrderId(o: Json): Option<Json> {
    Prop(Some(o), "AmazonOrderId")
  }

  /** `for (const o of v)`: arrays give their elements, strings their
      characters; anything else is not iterable and throws. */
  function Iterate(v: Json): Eval<seq<Json>> {
    match v
    case JArr(elems) => Value(elems)
    case JStr(s) => Value(seq(|s|, i requires 0 <= i < |s| => JStr([s[i]])))
    case _ => Threw
  }

  /** `ordersJson?.payload?.Orders || []`: unlike the item lookup there is no
      top-level fallback. */
  function RawOrders(json: Json): (v: Json)
    ensures Truthy(Prop(Prop(Some(json), "payload"), "Orders")) ==> v == Prop(Prop(Some(json), "payload"), "Orders").value
    ensures !Truthy(Prop(Prop(Some(json), "payload"), "Orders")) ==> v == JArr([])
  {
    Or(Prop(Prop(Some(json), "payload"), "Orders"), JArr([]))
  }

  /** The orders the loop walks, or `Threw` when the body does not parse or
      the chosen value is not iterable. */
  function OrdersToVisit(resp: Response): (r: Eval<seq<Json>>)
    // an empty body reads as {}, which holds no orders
    ensures resp.text == "" ==> r == Value([])
    // a non-empty body that is not JSON makes `JSON.parse` throw
    ensures resp.text != "" && resp.parsed.None? ==> r == Threw
    ensures resp.text != "" && resp.parsed.Some? ==>
      var orders := Prop(Prop(Some(resp.parsed.value), "payload"), "Orders");
      // absent or falsy: nothing to visit
      (!Truthy(orders) ==> r == Value([])) &&
      // an array: its elements, in order
      (Truthy(orders) && orders.value.JArr? ==> r == Value(orders.value.elems)) &&
      // a string: one order per character
      (Truthy(orders) && orders.value.JStr? ==>
         r.Value? && |r.value| == |orders.value.s| &&
         forall i :: 0 <= i < |orders.value.s| ==> r.value[i] == JStr([orders.value.s[i]])) &&
      // any other truthy value is not iterable
      (Truthy(orders) && !orders.value.JArr? && !orders.value.JStr? ==> r == Threw)
  {
    match ParseBody(resp)
    case Threw => Threw
    case Value(json) => Iterate(RawOrders(json))
  }

  /** `encodeURIComponent(o.AmazonOrderId)` in the item lookup converts the
      id to a string first, which throws as `String()` does; `undefined`
      converts to "undefined" and does not throw. */
  predicate OrderIdThrows(o: Json) {
    OrderId(o).Some? && ToStringThrows(OrderId(o).value)
  }

  /** `Number(o.OrderTotal.Amount)`, evaluated only for a truthy `Amount`,
      converts an object or array through its `toString` and so throws for
      the same values as `String()`. */
  predicate AmountThrows(o: Json) {
    var amount := Prop(Prop(Some(o), "OrderTotal"), "Amount");
    Truthy(amount) && ToStringThrows(amount.value)
  }

  /** One pass of the loop body for order `o`: read `o.AmazonOrderId` (a
      TypeError on `null`), run the item lookup for it (its URL encoding and
      the lookup itself may throw; an upstream failure fails open), and build
      the record (whose `Number(...)` may throw). */
  function Enrich(o: Json, fetchItems: Option<Json> -> Response): (r: Eval<FlatOrder>)
    ensures r.Value? <==>
      !o.JNull? && !OrderIdThrows(o) && GetOrderItems(fetchItems(OrderId(o))).Value? && !AmountThrows(o)
    ensures r.Value? ==> r.value == FlattenOrder(o, GetOrderItems(fetchItems(OrderId(o))).value)
  {
    if o.JNull? || OrderIdThrows(o) then Threw
    else
      match GetOrderItems(fetchItems(OrderId(o)))
      case Threw => Threw
      case Value(items) => if AmountThrows(o) then Threw else Value(FlattenOrder(o, items))
  }

  /** The `for...of` loop of index.js:151-176: one item lookup per order, in
      input order, each record pushed onto `simplified`. A lookup that fails
      upstream yields `Items: []` and the loop goes on; a throw ends the whole
      handler. */
  method FlattenOrders(rawOrders: seq<Json>, fetchItems: Option<Json> -> Response) returns (r: Eval<seq<FlatOrder>>)
    ensures r.Value? <==> forall i :: 0 <= i < |rawOrders| ==> Enrich(rawOrders[i], fetchItems).Value?
    ensures r.Value? ==> |r.value| == |rawOrders|
    ensures r.Value? ==> forall i :: 0 <= i < |rawOrders| ==> Value(r.value[i]) == Enrich(rawOrders[i], fetchItems)
  {
    var simplified: seq<FlatOrder> := [];
    var k := 0;
    while k < |rawOrders|
      invariant 0 <= k <= |rawOrders|
      invariant |simplified| == k
      invariant forall i :: 0 <= i < k ==> Value(simplified[i]) == Enrich(rawOrders[i], fetchItems)
    {
      var record := Enrich(rawOrders[k], fetchItems);
      if record.Threw? {
        return Threw;
      }
      simplified := simplified + [record.value];
      k := k + 1;
    }
    return Value(simplified);
  }

  /** The `/orders` handler after the query string has been turned into the
      list request: `authOk` is whether the token exchange succeeded,
      `listResp` the order-list response, `fetchItems` the item-lookup
      response for each order id. */
  method ListOrders(authOk: bool, listResp: Response, fetchItems: Option<Json> -> Response)
    returns (reply: Reply<seq<FlatOrder>>)
    ensures !authOk ==> reply == ServerError
    ensures authOk && !IsOk(listResp.status) ==>
      reply == UpstreamError("Orders API error", listResp.status, listResp.text)
    ensures authOk && IsOk(listResp.status) && OrdersToVisit(listResp).Threw? ==> reply == ServerError
    ensures authOk && IsOk(listResp.status) && OrdersToVisit(listResp).Value? ==>
      var os := OrdersToVisit(listResp).value;
      (reply.Success? <==> forall i :: 0 <= i < |os| ==> Enrich(os[i], fetchItems).Value?) &&
      (!reply.Success? ==> reply == ServerError) &&
      (reply.Success? ==> |reply.value| == |os|) &&
      (reply.Success? ==> forall i :: 0 <= i < |os| ==> Value(reply.value[i]) == Enrich(os[i], fetchItems))
    ensures reply.Success? ==> authOk && IsOk(listResp.status)
  {
    if !authOk {
      return ServerError;
    }
    if !IsOk(listResp.status) {
      return UpstreamError("Orders API error", listResp.status, listResp.text);
    }
    var visit := OrdersToVisit(listResp);
    if visit.Threw? {
      return ServerError;
    }
    var flat := FlattenOrders(visit.value, fetchItems);
    if flat.Threw? {
      return ServerError;
    }
    return Success(flat.value);
  }
}
