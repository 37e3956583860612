/** The `/confirm-shipment` handler (index.js:186-268): validates the request,
    re-reads the order's items, and builds the shipment-confirmation body that
    marks every item's full ordered quantity as shipped. */
module Shipment {
  import opened JsValues
  import opened Http
  import opened OrderItems

  /** The Japan marketplace, used when `SPAPI_MARKETPLACE_ID` is unset or empty. */
  const DefaultMarketplaceId: string := "A1VC38T7YXB528"

  /** `process.env.SPAPI_MARKETPLACE_ID || "A1VC38T7YXB528"`; an environment
      variable is a string or `undefined`. */
  function MarketplaceId(env: Option<string>): (id: string)
    ensures id != ""
    ensures env.Some? && env.value != "" ==> id == env.value
    ensures env.None? || env.value == "" ==> id == DefaultMarketplaceId
  {
    if env.Some? && env.value != "" then env.value else DefaultMarketplaceId
  }

  /** One entry of `packageDetail.orderItems`: `oi.OrderItemId` and
      `oi.QuantityOrdered`, copied without defaults (either may be undefined). */
  datatype ConfirmItem = ConfirmItem(orderItemId: Option<Json>, quantity: Option<Json>)

  datatype PackageDetail = PackageDetail(
    packageReferenceId: string,
    carrierCode: string,
    trackingNumber: Json,
    shipDate: string,
    orderItems: seq<ConfirmItem>)

  /** The body POSTed to the shipment-confirmation endpoint. */
  datatype ShipmentConfirmation = ShipmentConfirmation(marketplaceId: string, packageDetail: PackageDetail)

  /** A decision to confirm: the trimmed order id the POST goes to, and its body. */
  datatype Confirmation = Confirmation(orderId: string, request: ShipmentConfirmation)

  /** The map callback of index.js:231-234; a `null` item throws. */
  function ToConfirmItem(oi: Json): (r: Eval<ConfirmItem>)
    ensures r.Threw? <==> oi.JNull?
    ensures r.Value? ==> r.value.orderItemId == Prop(Some(oi), "OrderItemId")
    ensures r.Value? ==> r.value.quantity == Prop(Some(oi), "QuantityOrdered")
  {
    match Member(oi, "OrderItemId")
    case Threw => Threw
    case Value(id) => Value(ConfirmItem(id, Prop(Some(oi), "QuantityOrdered")))
  }

  /** `v.length === 0` for the truthy value the fallback chain picks: an empty
      array, or an object whose `length` key holds the number 0. */
  predicate LengthIsZero(v: Json) {
    match v
    case JArr(elems) => |elems| == 0
    case JStr(s) => |s| == 0
    case JObj(fields) => "length" in fields && fields["length"] == JNum(0)
    case _ => false
  }

  /** `const { orderId, trackingNumber } = req.body` followed by the
      truthiness check of index.js:190; the check sees the raw values. */
  predicate HasRequiredFields(reqBody: Json) {
    !reqBody.JNull? && Truthy(Prop(Some(reqBody), "orderId")) && Truthy(Prop(Some(reqBody), "trackingNumber"))
  }

  /** `String(rawOrderId).trim()`, the id every outbound call is made with.
      Only reached once the truthiness check has passed. */
  function RequestedOrderId(reqBody: Json): (r: Eval<string>)
    requires HasRequiredFields(reqBody)
    // `String()` throws only on an id that is, or holds, an object with its own `toString`
    ensures r.Threw? <==> ToStringThrows(Prop(Some(reqBody), "orderId").value)
    // the id never starts or ends with white space
    ensures r.Value? ==> Unpadded(r.value)
    // a string id is trimmed; a non-negative number becomes its decimal digits
    ensures Prop(Some(reqBody), "orderId").value.JStr? ==> r == Value(Trim(Prop(Some(reqBody), "orderId").value.s))
    ensures Prop(Some(reqBody), "orderId").value.JNum? && Prop(Some(reqBody), "orderId").value.n >= 0 ==>
      r == Value(Decimal(Prop(Some(reqBody), "orderId").value.n))
  {
    var raw := Prop(Some(reqBody), "orderId").value;
    match JsString(raw)
    case Threw => Threw
    case Value(s) => Value(Trim(s))
  }

  /** A request that passed validation and whose order id converted. */
  predicate Validated(reqBody: Json) {
    HasRequiredFields(reqBody) && RequestedOrderId(reqBody).Value?
  }

  /** The item-lookup response for a validated request. */
  function ItemsLookup(reqBody: Json, fetchItems: string -> Response): Response
    requires Validated(reqBody)
  {
    fetchItems(RequestedOrderId(reqBody).value)
  }

  /** `itemsJson?.payload?.OrderItems || itemsJson?.OrderItems || []` for a
      response whose body parsed. */
  function ChosenItems(resp: Response): Json
    requires ParseBody(resp).Value?
  {
    ChooseItemArray(ParseBody(resp).value)
  }

  /** The handler from the item-lookup response `resp` for the trimmed
      `orderId` up to the confirmation POST. */
  function ConfirmFromLookup(trackingNumber: Json, orderId: string, marketplaceId: string, shipDate: string,
                             resp: Response): (d: Reply<Confirmation>)
    // a failed item lookup propagates its status and body
    ensures !IsOk(resp.status) ==> d == UpstreamError("getOrderItems error", resp.status, resp.text)
    // a non-empty lookup body that is not JSON makes `JSON.parse` throw
    ensures IsOk(resp.status) && resp.text != "" && resp.parsed.None? ==> d == ServerError
    // an empty item list is a 400, and only it
    ensures d.BadRequest? <==> IsOk(resp.status) && ParseBody(resp).Value? && LengthIsZero(ChosenItems(resp))
    ensures d.BadRequest? ==> d.reason == NoOrderItems
    // a non-empty value that is not an array, or an array holding `null`, makes `.map` throw
    ensures IsOk(resp.status) && ParseBody(resp).Value? ==>
      var a := ChosenItems(resp);
      !LengthIsZero(a) && (!a.JArr? || exists i :: 0 <= i < |a.elems| && a.elems[i].JNull?) ==> d == ServerError
    // a confirmation follows exactly a non-empty array of non-null items
    ensures d.Success? <==>
      IsOk(resp.status) && ParseBody(resp).Value? &&
      var a := ChosenItems(resp);
      a.JArr? && |a.elems| > 0 && forall i :: 0 <= i < |a.elems| ==> !a.elems[i].JNull?
    // its body goes to `orderId` and carries the marketplace, the fixed
    // reference id and carrier, the raw tracking number, the ship date, and
    // one entry per fetched item, in order
    ensures d.Success? ==>
      var pd := d.value.request.packageDetail;
      var elems := ChosenItems(resp).elems;
      d.value.orderId == orderId &&
      d.value.request.marketplaceId == marketplaceId &&
      pd.packageReferenceId == "1" && pd.carrierCode == "SAGAWA" &&
      pd.trackingNumber == trackingNumber && pd.shipDate == shipDate &&
      |pd.orderItems| == |elems| &&
      forall i :: 0 <= i < |elems| ==>
        pd.orderItems[i] == ConfirmItem(Prop(Some(elems[i]), "OrderItemId"), Prop(Some(elems[i]), "QuantityOrdered"))
  {
    if !IsOk(resp.status) then UpstreamError("getOrderItems error", resp.status, resp.text)
    else
      match ParseBody(resp)
      case Threw => ServerError
      case Value(json) =>
        var orderItems := ChooseItemArray(json);
        if LengthIsZero(orderItems) then BadRequest(NoOrderItems)
        else
          match MapArray(orderItems, ToConfirmItem)
          case Threw => ServerError
          case Value(items) =>
            var detail := PackageDetail("1", "SAGAWA", trackingNumber, shipDate, items);
            Success(Confirmation(orderId, ShipmentConfirmation(marketplaceId, detail)))
  }

  /** The handler up to the confirmation POST. `authOk` is whether the token
      exchange succeeded, `fetchItems` the item-lookup response for a trimmed
      order id, `shipDate` the submission time as an ISO-8601 string.
      `Success` is the decision to POST the confirmation. */
  function DecideConfirmation(reqBody: Json, authOk: bool, marketplaceId: string, shipDate: string,
                              fetchItems: string -> Response): (d: Reply<Confirmation>)
    // destructuring a null body throws
    ensures reqBody.JNull? ==> d == ServerError
    // missing or falsy fields are rejected before any outbound call, and only they
    ensures d == BadRequest(MissingOrderIdOrTrackingNumber) <==> !reqBody.JNull? && !HasRequiredFields(reqBody)
    // `String(rawOrderId)` throwing ends the handler before the token exchange
    ensures HasRequiredFields(reqBody) && RequestedOrderId(reqBody).Threw? ==> d == ServerError
    ensures Validated(reqBody) && !authOk ==> d == ServerError
    // from the item lookup on, the lookup's response for the trimmed id decides
    ensures Validated(reqBody) && authOk ==>
      d == ConfirmFromLookup(Prop(Some(reqBody), "trackingNumber").value, RequestedOrderId(reqBody).value,
                             marketplaceId, shipDate, ItemsLookup(reqBody, fetchItems))
    // so a confirmation follows exactly a valid request and a lookup that passes
    ensures d.Success? <==>
      (Validated(reqBody) && authOk &&
       ConfirmFromLookup(Prop(Some(reqBody), "trackingNumber").value, RequestedOrderId(reqBody).value,
                         marketplaceId, shipDate, ItemsLookup(reqBody, fetchItems)).Success?)
    // the empty-list 400 is only possible once validation and the token exchange passed
    ensures d == BadRequest(NoOrderItems) ==> Validated(reqBody) && authOk
  {
    if reqBody.JNull? then ServerError
    else if !HasRequiredFields(reqBody) then BadRequest(MissingOrderIdOrTrackingNumber)
    else
      match RequestedOrderId(reqBody)
      case Threw => ServerError
      case Value(orderId) =>
        if !authOk then ServerError
        else ConfirmFromLookup(Prop(Some(reqBody), "trackingNumber").value, orderId, marketplaceId, shipDate,
                               fetchItems(orderId))
  }

  /** The whole handler, with `env` the `SPAPI_MARKETPLACE_ID` setting: on a
      decision to confirm, the POST's response decides between `{ok: true}`
      and a propagated upstream error; every other decision is the reply as
      it stands. */
  function ConfirmShipment(reqBody: Json, authOk: bool, env: Option<string>, shipDate: string,
                           fetchItems: string -> Response,
                           post: (string, ShipmentConfirmation) -> Response): (r: Reply<()>)
    ensures var d := DecideConfirmation(reqBody, authOk, MarketplaceId(env), shipDate, fetchItems);
      (r.Success? <==> d.Success? && IsOk(post(d.value.orderId, d.value.request).status)) &&
      (d.Success? && !IsOk(post(d.value.orderId, d.value.request).status) ==>
         r == UpstreamError("confirmShipment error", post(d.value.orderId, d.value.request).status,
                            post(d.value.orderId, d.value.request).text)) &&
      (d.BadRequest? ==> r == BadRequest(d.reason)) &&
      (d.UpstreamError? ==> r == UpstreamError(d.error, d.status, d.body)) &&
      (d.ServerError? ==> r == ServerError)
  {
    match DecideConfirmation(reqBody, authOk, MarketplaceId(env), shipDate, fetchItems)
    case Success(c) =>
      var p := post(c.orderId, c.request);
      if IsOk(p.status) then Success(()) else UpstreamError("confirmShipment error", p.status, p.text)
    case BadRequest(reason) => BadRequest(reason)
    case UpstreamError(e, s, b) => UpstreamError(e, s, b)
    case ServerError => ServerError
  }

  /** Reject before send: without both fields the reply is the same 400
      whatever the token exchange, the item lookup or the confirmation POST
      would have answered, so none of them is made. */
  lemma RejectsBeforeAnyCall(reqBody: Json, env: Option<string>, shipDate: string,
                             authOk1: bool, fetch1: string -> Response, post1: (string, ShipmentConfirmation) -> Response,
                             authOk2: bool, fetch2: string -> Response, post2: (string, ShipmentConfirmation) -> Response)
    requires !reqBody.JNull? && !HasRequiredFields(reqBody)
    ensures ConfirmShipment(reqBody, authOk1, env, shipDate, fetch1, post1)
         == ConfirmShipment(reqBody, authOk2, env, shipDate, fetch2, post2)
         == BadRequest(MissingOrderIdOrTrackingNumber)
  {
  }

  /** `length === 0` is asked of whatever the fallback chain picked, so an
      item "array" that is really an object with `length: 0` is answered with
      the empty-list 400, not with the 500 that `.map` on it would raise. */
  lemma ZeroLengthObjectRejected(reqBody: Json, authOk: bool, marketplaceId: string, shipDate: string,
                                 fetchItems: string -> Response, other: map<string, Json>)
    requires Validated(reqBody) && authOk
    requires var resp := ItemsLookup(reqBody, fetchItems);
      IsOk(resp.status) && resp.text != "" &&
      resp.parsed == Some(JObj(map["payload" := JObj(map["OrderItems" := JObj(other["length" := JNum(0)])])]))
    ensures DecideConfirmation(reqBody, authOk, marketplaceId, shipDate, fetchItems) == BadRequest(NoOrderItems)
  {
    var resp := ItemsLookup(reqBody, fetchItems);
    var items := JObj(other["length" := JNum(0)]);
    assert Prop(Prop(Some(ParseBody(resp).value), "payload"), "OrderItems") == Some(items);
    assert ChosenItems(resp) == items;
    assert ConfirmFromLookup(Prop(Some(reqBody), "trackingNumber").value, RequestedOrderId(reqBody).value,
                             marketplaceId, shipDate, resp).BadRequest?;
  }

  /** The truthiness check runs before trimming, so an order id made only of
      white space passes it and the item lookup is made for the empty id. */
  lemma BlankOrderIdPassesValidation(reqBody: Json, s: string)
    requires reqBody.JObj? && "orderId" in reqBody.fields && reqBody.fields["orderId"] == JStr(s)
    requires s != "" && AllTrimmable(s)
    requires Truthy(Prop(Some(reqBody), "trackingNumber"))
    ensures Validated(reqBody)
    ensures RequestedOrderId(reqBody) == Value("")
  {
  }
}
