/** `getOrderItems` (index.js:36-63): turns the upstream order-items response
    into the item records the spreadsheet importer expects. Lookups fail open:
    a non-ok status yields an empty list, never an error. */
module OrderItems {
  import opened JsValues
  import opened Http

  /** One line item in the importer's shape. Each field holds whatever JSON
      value the defaulting rule leaves there. */
  datatype OrderItem = OrderItem(SellerSKU: Json, Title: Json, QuantityOrdered: Json)

  /** `json?.payload?.OrderItems || json?.OrderItems || []`. An empty array
      is truthy, so a present `payload.OrderItems` wins even when empty. */
  function ChooseItemArray(json: Json): (a: Json)
    ensures Truthy(Some(a))
    ensures Truthy(Prop(Prop(Some(json), "payload"), "OrderItems")) ==>
      a == Prop(Prop(Some(json), "payload"), "OrderItems").value
    ensures !Truthy(Prop(Prop(Some(json), "payload"), "OrderItems")) && Truthy(Prop(Some(json), "OrderItems")) ==>
      a == Prop(Some(json), "OrderItems").value
    ensures !Truthy(Prop(Prop(Some(json), "payload"), "OrderItems")) && !Truthy(Prop(Some(json), "OrderItems")) ==>
      a == JArr([])
  {
    var nested := Prop(Prop(Some(json), "payload"), "OrderItems");
    var top := Prop(Some(json), "OrderItems");
    Or(nested, Or(top, JArr([])))
  }

  /** The callback of index.js:58-62: `SellerSKU` and `Title` fall back to ""
      when falsy (`||`), `QuantityOrdered` to 1 only when absent or null (`??`),
      so a present 0, "" or false is kept. Reading a field of a `null` element
      throws. */
  function NormalizeItem(oi: Json): (r: Eval<OrderItem>)
    ensures r.Threw? <==> oi.JNull?
    ensures r.Value? ==> r.value.SellerSKU == (if Truthy(Prop(Some(oi), "SellerSKU")) then Prop(Some(oi), "SellerSKU").value else JStr(""))
    ensures r.Value? ==> r.value.Title == (if Truthy(Prop(Some(oi), "Title")) then Prop(Some(oi), "Title").value else JStr(""))
    ensures r.Value? && Prop(Some(oi), "QuantityOrdered").Some? && Prop(Some(oi), "QuantityOrdered").value != JNull ==>
      r.value.QuantityOrdered == Prop(Some(oi), "QuantityOrdered").value
    ensures r.Value? && (Prop(Some(oi), "QuantityOrdered").None? || Prop(Some(oi), "QuantityOrdered").value == JNull) ==>
      r.value.QuantityOrdered == JNum(1)
  {
    match Member(oi, "SellerSKU")
    case Threw => Threw
    case Value(sku) =>
      Value(OrderItem(Or(sku, JStr("")), Or(Prop(Some(oi), "Title"), JStr("")),
                      Coalesce(Prop(Some(oi), "QuantityOrdered"), JNum(1))))
  }

  /** `getOrderItems` given the upstream response. */
  function GetOrderItems(resp: Response): (r: Eval<seq<OrderItem>>)
    // fail open: a non-ok status yields [] and never throws
    ensures !IsOk(resp.status) ==> r == Value([])
    // an empty body reads as {}, which holds no items
    ensures IsOk(resp.status) && resp.text == "" ==> r == Value([])
    // a non-empty body that is not JSON makes `JSON.parse` throw
    ensures IsOk(resp.status) && resp.text != "" && resp.parsed.None? ==> r == Threw
    // otherwise the chosen array is mapped one to one, in order
    ensures IsOk(resp.status) && resp.text != "" && resp.parsed.Some? ==>
      var a := ChooseItemArray(resp.parsed.value);
      (r.Value? <==> a.JArr? && forall i :: 0 <= i < |a.elems| ==> !a.elems[i].JNull?) &&
      (r.Value? ==> |r.value| == |a.elems| &&
                    forall i :: 0 <= i < |a.elems| ==> r.value[i] == NormalizeItem(a.elems[i]).value)
  {
    if !IsOk(resp.status) then Value([])
    else
      match ParseBody(resp)
      case Threw => Threw
      case Value(json) => MapArray(ChooseItemArray(json), NormalizeItem)
  }

  /** An item record as it is serialised into the `/orders` reply. */
  function ItemJson(it: OrderItem): (v: Json)
    ensures v.JObj? && v.fields.Keys == {"SellerSKU", "Title", "QuantityOrdered"}
  {
    JObj(map["SellerSKU" := it.SellerSKU, "Title" := it.Title, "QuantityOrdered" := it.QuantityOrdered])
  }

  /** Normalising is idempotent: feeding a normalised item back through the
      same callback changes nothing, so every default it applies is stable. */
  lemma NormalizeIdempotent(oi: Json)
    requires !oi.JNull?
    ensures NormalizeItem(ItemJson(NormalizeItem(oi).value)) == NormalizeItem(oi)
  {
  }

  /** `||` versus `??`: a quantity of 0 is kept, while a SKU of 0 becomes "". */
  lemma ZeroQuantityKept(oi: Json)
    requires oi.JObj? && "QuantityOrdered" in oi.fields && "SellerSKU" in oi.fields
    requires oi.fields["QuantityOrdered"] == JNum(0) && oi.fields["SellerSKU"] == JNum(0)
    ensures NormalizeItem(oi).value.QuantityOrdered == JNum(0)
    ensures NormalizeItem(oi).value.SellerSKU == JStr("")
  {
  }
}
