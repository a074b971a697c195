/** The checkout endpoint (`POST /api/create-checkout-session`): rejects a
    request without a product id, resolves the id to a unit price, asks the
    payment processor for a one-time-payment checkout session and answers with
    the session's hosted URL.

    The payment processor is a collaborator: the model receives the outcome of
    the one session request as `stripe`, and records in `Outcome.session` the
    parameters it was sent (`None` when it was not called). */
module CheckoutRoute {
  import opened JsValues

  // ---------------------------------------------------------------------------
  // Price resolution.

  const StarterSiteId := "prod_SKtGY4NCeUcq50"
  const BusinessSiteId := "prod_SKtJ2tDcekTr2s"
  const ProSiteId := "prod_SKtKDhawq0GveH"
  const ECommerceSiteId := "prod_SKtPeWgzmn1OPK"

  /** The price, in cents, of an unrecognised product. */
  const DefaultUnitAmount: nat := 99900

  /** The unit price in cents of a product; unknown ids are not rejected but
      priced like the business site. */
  function UnitAmountForProduct(productId: string): (cents: nat)
    ensures cents == 49900 || cents == 99900 || cents == 179900 || cents == 249900
    ensures cents == 49900 <==> productId == StarterSiteId
    ensures cents == 179900 <==> productId == ProSiteId
    ensures cents == 249900 <==> productId == ECommerceSiteId
    ensures productId == BusinessSiteId ==> cents == 99900
    ensures productId !in {StarterSiteId, BusinessSiteId, ProSiteId, ECommerceSiteId} ==> cents == DefaultUnitAmount
  {
    if productId == StarterSiteId then 49900
    else if productId == BusinessSiteId then 99900
    else if productId == ProSiteId then 179900
    else if productId == ECommerceSiteId then 249900
    else DefaultUnitAmount
  }

  /** The lookup applied to the `productId` of a request, whatever its JSON
      type: the `switch` compares strictly, so only strings can match a case. */
  function UnitAmountFor(productId: JsonValue): (cents: nat)
    ensures cents >= 49900
    ensures !productId.Str? ==> cents == DefaultUnitAmount
    ensures productId.Str? ==> cents == UnitAmountForProduct(productId.s)
  {
    match productId
    case Str(s) => UnitAmountForProduct(s)
    case _ => DefaultUnitAmount
  }

  // ---------------------------------------------------------------------------
  // The session request.

  const LocalOrigin := "http://localhost:3000"

  /** The `origin` header when present and non-empty, else the local
      development origin. */
  function Origin(header: Option<string>): (o: string)
    ensures o != ""
    ensures header.Some? && header.value != "" ==> o == header.value
    ensures header.None? || header.value == "" ==> o == LocalOrigin
  {
    if header.Some? && header.value != "" then header.value else LocalOrigin
  }

  datatype LineItem = LineItem(currency: string, product: JsonValue, unitAmount: nat, quantity: nat)

  datatype SessionParams = SessionParams(
    mode: string,
    paymentMethodTypes: seq<string>,
    lineItems: seq<LineItem>,
    successUrl: string,
    cancelUrl: string)

  const SuccessPath := "/success?session_id={CHECKOUT_SESSION_ID}"
  const CancelPath := "/pricing"

  /** A card payment for one unit of the product at its resolved price; both
      redirect URLs lead back to the requesting origin. */
  function SessionFor(productId: JsonValue, origin: string): (p: SessionParams)
    ensures p.mode == "payment" && p.paymentMethodTypes == ["card"]
    ensures |p.lineItems| == 1
    ensures p.lineItems[0] == LineItem("usd", productId, UnitAmountFor(productId), 1)
    ensures |origin| <= |p.successUrl| && p.successUrl[..|origin|] == origin && p.successUrl[|origin|..] == SuccessPath
    ensures |origin| <= |p.cancelUrl| && p.cancelUrl[..|origin|] == origin && p.cancelUrl[|origin|..] == CancelPath
  {
    SessionParams(
      mode := "payment",
      paymentMethodTypes := ["card"],
      lineItems := [LineItem("usd", productId, UnitAmountFor(productId), 1)],
      successUrl := origin + SuccessPath,
      cancelUrl := origin + CancelPath)
  }

  // ---------------------------------------------------------------------------
  // The handler.

  /** The request body: unreadable (the JSON parser throws, or the body is
      `null` and cannot be destructured), or the value of its `productId`. */
  datatype Body = Unreadable(failure: Thrown) | Parsed(productId: JsonValue)

  datatype Request = Request(body: Body, originHeader: Option<string>)

  /** What the payment processor did: created a session (whose URL may be
      null), or threw. */
  datatype SessionResult = Created(url: Option<string>) | Threw(failure: Thrown)

  /** `{url}`, or `{error}` with status 400 or 500. */
  datatype Reply = CheckoutUrl(url: Option<string>) | BadRequest(error: string) | ServerError(error: string)

  function StatusOf(r: Reply): int {
    match r
    case CheckoutUrl(_) => 200
    case BadRequest(_) => 400
    case ServerError(_) => 500
  }

  datatype Outcome = Outcome(reply: Reply, session: Option<SessionParams>)

  const ProductIdRequired := "Product ID is required"
  const InternalServerError := "Internal server error"
  const StripeErrorPrefix := "Stripe error: "

  /** The 500 text for a failure of the payment call. */
  function StripeErrorMessage(e: Thrown): (r: string)
    ensures |StripeErrorPrefix| <= |r| && r[..|StripeErrorPrefix|] == StripeErrorPrefix
    ensures e.ErrorObject? ==> r[|StripeErrorPrefix|..] == e.message
    ensures e.OtherValue? ==> r[|StripeErrorPrefix|..] == e.shown
  {
    StripeErrorPrefix + match e
      case ErrorObject(m) => m
      case OtherValue(shown) => shown
  }

  /** The 500 text for any other failure. */
  function ServerErrorMessage(e: Thrown): (r: string)
    ensures e.ErrorObject? ==> r == e.message
    ensures e.OtherValue? ==> r == InternalServerError
  {
    match e
    case ErrorObject(m) => m
    case OtherValue(_) => InternalServerError
  }

  function Handle(req: Request, stripe: SessionResult): (o: Outcome)
    // the processor is called exactly for a readable body with a truthy id
    ensures o.session.Some? <==> req.body.Parsed? && Truthy(req.body.productId)
    // a falsy id (missing, null, "", 0, false) is a 400 with a fixed text
    ensures StatusOf(o.reply) == 400 <==> req.body.Parsed? && !Truthy(req.body.productId)
    ensures o.reply.BadRequest? ==> o.reply.error == ProductIdRequired
    ensures o.session.Some? ==> o.session.value == SessionFor(req.body.productId, Origin(req.originHeader))
    // the session URL is returned exactly when the processor created a session
    ensures o.reply.CheckoutUrl? <==> o.session.Some? && stripe.Created?
    ensures o.reply.CheckoutUrl? ==> o.reply.url == stripe.url
    ensures o.session.Some? && stripe.Threw? ==> o.reply == ServerError(StripeErrorMessage(stripe.failure))
    ensures req.body.Unreadable? ==> o.reply == ServerError(ServerErrorMessage(req.body.failure))
  {
    match req.body
    case Unreadable(e) => Outcome(ServerError(ServerErrorMessage(e)), None)
    case Parsed(productId) =>
      if !Truthy(productId) then Outcome(BadRequest(ProductIdRequired), None)
      else
        var params := SessionFor(productId, Origin(req.originHeader));
        match stripe
        case Created(url) => Outcome(CheckoutUrl(url), Some(params))
        case Threw(e) => Outcome(ServerError(StripeErrorMessage(e)), Some(params))
  }

  /** An unrecognised, non-empty product id is not rejected: a session is
      requested at the default price. */
  lemma UnknownProductCharged(id: string, originHeader: Option<string>, url: Option<string>)
    requires id != "" && id !in {StarterSiteId, BusinessSiteId, ProSiteId, ECommerceSiteId}
    ensures var o := Handle(Request(Parsed(Str(id)), originHeader), Created(url));
      o.reply == CheckoutUrl(url) && o.session.Some?
      && o.session.value.lineItems[0].unitAmount == DefaultUnitAmount
  {
  }

  /** Every session request is for at least the cheapest plan's price. */
  lemma ChargedAtLeastStarter(req: Request, stripe: SessionResult)
    ensures var o := Handle(req, stripe);
      o.session.Some? ==> o.session.value.lineItems[0].unitAmount >= 49900
  {
  }
}
