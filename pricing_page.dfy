/** The pricing page: a static catalogue of four plans, each with a purchase
    button that posts the plan's product id to the checkout endpoint and either
    follows the returned URL or alerts the failure. The page keeps one piece of
    state, the product id whose checkout is in progress. */
module PricingPage {
  import opened JsValues
  import opened CheckoutRoute

  // ---------------------------------------------------------------------------
  // The catalogue.

  datatype Plan = Plan(name: string, priceLabel: string, productId: string, popular: bool)

  const Plans: seq<Plan> := [
    Plan("Starter Site", "$499", "prod_SKtGY4NCeUcq50", false),
    Plan("Business Site", "$999", "prod_SKtJ2tDcekTr2s", true),
    Plan("Pro Site", "$1799", "prod_SKtKDhawq0GveH", false),
    Plan("E-Commerce Site", "$2499+", "prod_SKtPeWgzmn1OPK", false)]

  predicate IsDigit(c: char) {
    '0' <= c <= '9'
  }

  predicate AllDigits(s: string) {
    forall k :: 0 <= k < |s| ==> IsDigit(s[k])
  }

  /** The number a string of decimal digits denotes. */
  function DecimalValue(s: string): nat
    requires AllDigits(s)
  {
    if s == [] then 0 else DecimalValue(s[..|s| - 1]) * 10 + (s[|s| - 1] as int - '0' as int)
  }

  /** The length of the run of digits that starts `s`. */
  function DigitRun(s: string): (k: nat)
    ensures k <= |s| && AllDigits(s[..k])
    ensures k < |s| ==> !IsDigit(s[k])
  {
    if s == [] || !IsDigit(s[0]) then 0
    else
      var k := 1 + DigitRun(s[1..]);
      assert s[..k] == [s[0]] + s[1..][..k - 1];
      k
  }

  /** The price a label shows, in cents: the dollar amount after `$`, ignoring
      any trailing mark such as `+`. */
  function LabelCents(shown: string): (r: Option<nat>)
    ensures r.Some? ==> |shown| >= 2 && shown[0] == '$' && IsDigit(shown[1])
  {
    if |shown| >= 2 && shown[0] == '$' && IsDigit(shown[1]) then
      var digits := shown[1..][..DigitRun(shown[1..])];
      Some(DecimalValue(digits) * 100)
    else None
  }

  /** The four plans sell four different products. */
  lemma PlanIdsDistinct()
    ensures |Plans| == 4
    ensures forall i, j :: 0 <= i < j < |Plans| ==> Plans[i].productId != Plans[j].productId
  {
  }

  lemma ThreeDigitLabel(shown: string, a: char, b: char, c: char)
    requires shown == ['$', a, b, c] && IsDigit(a) && IsDigit(b) && IsDigit(c)
    ensures LabelCents(shown) == Some(((a as int - '0' as int) * 100 + (b as int - '0' as int) * 10 + (c as int - '0' as int)) * 100)
  {
    var digits := shown[1..];
    assert DigitRun(digits[2..]) == 1 && DigitRun(digits[1..]) == 2 && DigitRun(digits) == 3;
    assert digits[..3] == digits && digits[..2] == [a, b] && [a, b][..1] == [a] && [a][..0] == [];
    assert DecimalValue([a]) == a as int - '0' as int;
    assert DecimalValue([a, b]) == DecimalValue([a]) * 10 + (b as int - '0' as int);
    assert DecimalValue(digits) == DecimalValue([a, b]) * 10 + (c as int - '0' as int);
  }

  lemma FourDigitLabel(shown: string, a: char, b: char, c: char, d: char, rest: string)
    requires shown == ['$', a, b, c, d] + rest && IsDigit(a) && IsDigit(b) && IsDigit(c) && IsDigit(d)
    requires rest == [] || !IsDigit(rest[0])
    ensures LabelCents(shown) == Some(((a as int - '0' as int) * 1000 + (b as int - '0' as int) * 100
      + (c as int - '0' as int) * 10 + (d as int - '0' as int)) * 100)
  {
    var digits := shown[1..];
    assert digits[4..] == rest;
    assert DigitRun(digits[4..]) == 0;
    assert DigitRun(digits[3..]) == 1;
    assert DigitRun(digits[2..]) == 2;
    assert DigitRun(digits[1..]) == 3;
    assert DigitRun(digits) == 4;
    assert digits[..4] == [a, b, c, d];
    assert [a, b, c, d][..3] == [a, b, c];
    assert [a, b, c][..2] == [a, b];
    assert [a, b][..1] == [a];
    assert [a][..0] == [];
    assert DecimalValue([a]) == a as int - '0' as int;
    assert DecimalValue([a, b]) == DecimalValue([a]) * 10 + (b as int - '0' as int);
    assert DecimalValue([a, b, c]) == DecimalValue([a, b]) * 10 + (c as int - '0' as int);
    assert DecimalValue([a, b, c, d]) == DecimalValue([a, b, c]) * 10 + (d as int - '0' as int);
  }

  /** The price plan `i` shows is the price the checkout endpoint charges for
      its product. */
  predicate PriceMatches(i: nat)
    requires i < |Plans|
  {
    LabelCents(Plans[i].priceLabel) == Some(UnitAmountForProduct(Plans[i].productId))
  }

  lemma StarterPriceMatches()
    ensures PriceMatches(0)
  {
    ThreeDigitLabel(Plans[0].priceLabel, '4', '9', '9');
  }

  lemma BusinessPriceMatches()
    ensures PriceMatches(1)
  {
    ThreeDigitLabel(Plans[1].priceLabel, '9', '9', '9');
  }

  lemma ProPriceMatches()
    ensures PriceMatches(2)
  {
    FourDigitLabel(Plans[2].priceLabel, '1', '7', '9', '9', "");
  }

  lemma ECommercePriceMatches()
    ensures PriceMatches(3)
  {
    FourDigitLabel(Plans[3].priceLabel, '2', '4', '9', '9', "+");
  }

  /** The price each plan shows is the price the checkout endpoint charges for
      its product. */
  lemma PlanPricesMatchServer()
    ensures forall i :: 0 <= i < |Plans| ==> PriceMatches(i)
  {
    StarterPriceMatches();
    BusinessPriceMatches();
    ProPriceMatches();
    ECommercePriceMatches();
    forall i | 0 <= i < |Plans|
      ensures PriceMatches(i)
    {
      assert i == 0 || i == 1 || i == 2 || i == 3;
    }
  }

  /** Every plan's id is one the checkout endpoint knows. */
  lemma PlanIdsKnown()
    ensures forall i :: 0 <= i < |Plans| ==>
      Plans[i].productId in {StarterSiteId, BusinessSiteId, ProSiteId, ECommerceSiteId}
  {
  }

  // ---------------------------------------------------------------------------
  // Classifying the endpoint's answer.

  /** A decimal rendering of a status code, as a template string gives it. */
  function NatToString(n: nat): (s: string)
    ensures |s| >= 1 && AllDigits(s) && DecimalValue(s) == n
    ensures s[0] == '0' ==> n == 0
  {
    var d := ('0' as int + n % 10) as char;
    if n < 10 then [d]
    else
      var p := NatToString(n / 10);
      var s := p + [d];
      assert s[..|s| - 1] == p;
      s
  }

  /** A digit string is at least its leading digit. */
  lemma {:induction false} AtLeastLeadingDigit(s: string)
    requires |s| >= 1 && AllDigits(s)
    ensures DecimalValue(s) >= s[0] as int - '0' as int
  {
    if |s| > 1 {
      AtLeastLeadingDigit(s[..|s| - 1]);
    }
  }

  /** Decimal digits without a leading zero are unique: any such string that
      denotes `n` is the one `NatToString` gives, so the status text is fixed. */
  lemma {:induction false} CanonicalDecimal(s: string, n: nat)
    requires |s| >= 1 && AllDigits(s) && DecimalValue(s) == n
    requires s[0] == '0' ==> |s| == 1
    ensures s == NatToString(n)
  {
    var last := s[|s| - 1];
    var p := s[..|s| - 1];
    assert DecimalValue(s) == DecimalValue(p) * 10 + (last as int - '0' as int);
    if |s| == 1 {
      assert p == [];
      assert s == [last];
      assert (('0' as int + n % 10) as char) == last;
    } else {
      assert p[0] == s[0];
      AtLeastLeadingDigit(p);
      assert n / 10 == DecimalValue(p) && n % 10 == last as int - '0' as int;
      CanonicalDecimal(p, n / 10);
      assert s == p + [last];
    }
  }

  /** The body of the answer: unreadable as JSON, or its `error` and `url`. */
  datatype ResponseBody = Unreadable(failure: Thrown) | Fields(error: Option<string>, url: Option<string>)

  /** What `fetch` gave: a rejection, or a response with its status. */
  datatype FetchResult = NetworkFailure(failure: Thrown) | Response(ok: bool, status: nat, body: ResponseBody)

  datatype Verdict = Redirect(url: string) | Failure(message: string)

  /** A present and non-empty string. */
  predicate Given(o: Option<string>) {
    o.Some? && o.value != ""
  }

  const UnknownError := "Unknown error"

  /** The message a caught value shows. */
  function CaughtMessage(e: Thrown): string {
    match e
    case ErrorObject(m) => m
    case OtherValue(_) => UnknownError
  }

  const NoCheckoutUrl := "No checkout URL received from the server"

  /** What the page does with the answer: a failed response reports the body's
      `error` or the status; a successful one reports its `error` if any, then
      a missing URL; otherwise the page goes to the URL. */
  function Classify(r: FetchResult): (v: Verdict)
    ensures v.Redirect? <==> r.Response? && r.ok && r.body.Fields? && !Given(r.body.error) && Given(r.body.url)
    ensures v.Redirect? ==> v.url == r.body.url.value && v.url != ""
    ensures r.NetworkFailure? ==>
      v == Failure(if r.failure.ErrorObject? then r.failure.message else UnknownError)
    ensures r.Response? && r.body.Unreadable? ==>
      v == Failure(if r.body.failure.ErrorObject? then r.body.failure.message else UnknownError)
    ensures r.Response? && !r.ok && r.body.Fields? ==>
      v == Failure(if Given(r.body.error) then r.body.error.value else "HTTP error " + NatToString(r.status))
    ensures r.Response? && r.ok && r.body.Fields? && Given(r.body.error) ==> v == Failure(r.body.error.value)
    ensures r.Response? && r.ok && r.body.Fields? && !Given(r.body.error) && !Given(r.body.url) ==>
      v == Failure(NoCheckoutUrl)
  {
    match r
    case NetworkFailure(e) => Failure(CaughtMessage(e))
    case Response(ok, status, body) =>
      match body
      case Unreadable(e) => Failure(CaughtMessage(e))
      case Fields(error, url) =>
        if !ok then Failure(if Given(error) then error.value else "HTTP error " + NatToString(status))
        else if Given(error) then Failure(error.value)
        else if !Given(url) then Failure(NoCheckoutUrl)
        else Redirect(url.value)
  }

  /** The page's visible reaction: navigation, or an alert. */
  datatype PageAction = Navigate(url: string) | Alert(text: string)

  function ActionFor(v: Verdict): PageAction {
    match v
    case Redirect(url) => Navigate(url)
    case Failure(message) => Alert("Checkout failed: " + message)
  }

  /** The answer of the endpoint to a request, as the page sees it, when the
      endpoint answered at all and its body was readable. */
  function Seen(reply: Reply): FetchResult {
    match reply
    case CheckoutUrl(url) => Response(true, 200, Fields(None, url))
    case BadRequest(error) => Response(false, 400, Fields(Some(error), None))
    case ServerError(error) => Response(false, 500, Fields(Some(error), None))
  }

  /** End to end: for a catalogue plan, the page redirects exactly when the
      payment processor created a session with a URL, and it then goes to that
      URL. */
  lemma PlanCheckoutEndToEnd(i: nat, originHeader: Option<string>, stripe: SessionResult)
    requires i < |Plans|
    ensures var o := Handle(Request(Parsed(Str(Plans[i].productId)), originHeader), stripe);
      o.session.Some?
      && (Classify(Seen(o.reply)).Redirect? <==> stripe.Created? && Given(stripe.url))
      && (Classify(Seen(o.reply)).Redirect? ==> Classify(Seen(o.reply)).url == stripe.url.value)
  {
    assert Truthy(Str(Plans[i].productId));
  }

  /** Whether a plan's button is disabled: only while its own checkout is in
      progress. */
  function IsDisabled(loading: Option<string>, productId: string): bool {
    loading == Some(productId)
  }

  /** Whatever is pending, at most one plan's button is disabled. */
  lemma AtMostOnePlanDisabled(loading: Option<string>)
    ensures forall i, j :: 0 <= i < j < |Plans| ==>
      !(IsDisabled(loading, Plans[i].productId) && IsDisabled(loading, Plans[j].productId))
  {
    PlanIdsDistinct();
  }

  /** While plan `i`'s checkout is in progress, its button is the only disabled
      one: every other plan stays clickable. */
  lemma OnlyPendingPlanDisabled(i: nat)
    requires i < |Plans|
    ensures IsDisabled(Some(Plans[i].productId), Plans[i].productId)
    ensures forall j :: 0 <= j < |Plans| && j != i ==> !IsDisabled(Some(Plans[i].productId), Plans[j].productId)
  {
    PlanIdsDistinct();
    forall j | 0 <= j < |Plans| && j != i
      ensures Plans[j].productId != Plans[i].productId
    {
      if j < i {
        assert Plans[j].productId != Plans[i].productId;
      } else {
        assert Plans[i].productId != Plans[j].productId;
      }
    }
  }

  // ---------------------------------------------------------------------------
  // The page state.

  class CheckoutButtons {
    /** The product id of the checkout in progress, if any. */
    var loading: Option<string>

    constructor ()
      ensures loading == None
    {
      loading := None;
    }

    function Disabled(productId: string): bool
      reads this
    {
      IsDisabled(loading, productId)
    }

    /** A click on a plan's button; a disabled button does nothing. Returns the
        product id posted to the endpoint, if any. */
    method Click(productId: string) returns (posted: Option<string>)
      modifies this
      ensures posted == if old(Disabled(productId)) then None else Some(productId)
      ensures loading == Some(productId)
      ensures forall j :: 0 <= j < |Plans| && Plans[j].productId != productId ==> !Disabled(Plans[j].productId)
    {
      if Disabled(productId) {
        posted := None;
      } else {
        loading := Some(productId);
        posted := Some(productId);
      }
    }

    /** The end of a checkout: on a redirect the page leaves with `loading`
        still set; on any failure it alerts and clears `loading`, whichever
        plan it names. */
    method Settle(r: FetchResult) returns (action: PageAction)
      modifies this
      ensures action == ActionFor(Classify(r))
      ensures loading == if Classify(r).Redirect? then old(loading) else None
    {
      var v := Classify(r);
      action := ActionFor(v);
      if v.Failure? {
        loading := None;
      }
    }
  }
}
