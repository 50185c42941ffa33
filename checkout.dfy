/**
 * The checkout initiator: it validates the plan, checks that the payment
 * provider is configured, builds the subscription-session request the
 * provider is asked to create, and classifies the provider's errors. It
 * holds no state; the provider's answer is a function of the request.
 */
module Checkout {
  import opened Wrappers
  import Webhook

  /** A `PLANS` entry of this route: display name, credit grant (-1 for unlimited) and price in cents. */
  datatype PlanInfo = PlanInfo(name: string, credits: int, priceAmount: int)

  /** `!planId || !PLANS[planId]` fails for exactly the two plan ids. */
  function PlanInfoFor(planId: Option<string>): (p: Option<PlanInfo>)
    ensures p.Some? <==> planId == Some("premium") || planId == Some("vip")
  {
    if planId == Some("premium") then Some(PlanInfo("Místico", 50, 999))
    else if planId == Some("vip") then Some(PlanInfo("Iluminado", -1, 1999))
    else None
  }

  /** The JSON body; absent fields are `None`. */
  datatype Body = Body(priceId: Option<string>, planId: Option<string>)

  datatype LineItem = LineItem(price: Option<string>, quantity: int)

  /** The metadata the webhook reads back from the completed session. */
  datatype SessionMetadata = SessionMetadata(planId: string, credits: int)

  datatype SessionRequest = SessionRequest(
    mode: string,
    paymentMethodTypes: seq<string>,
    lineItems: seq<LineItem>,
    successUrl: string,
    cancelUrl: string,
    metadata: SessionMetadata)

  /** The provider's answer to a session request: a session with its URL, or an error with its `type`. */
  datatype ProviderOutcome = Created(url: string) | Rejected(errorType: Option<string>)

  datatype Response =
    | Redirect(url: string)
    | InvalidPlan          // 400
    | NotConfigured        // 503 with needsConfig
    | ProviderMisconfigured // 400, the provider rejected the request
    | CreateFailed         // 500
  {
    function Status(): int {
      match this
      case Redirect(_) => 200
      case InvalidPlan => 400
      case NotConfigured => 503
      case ProviderMisconfigured => 400
      case CreateFailed => 500
    }

    predicate NeedsConfig() {
      NotConfigured?
    }

    /** The `error` text of the JSON body; a redirect carries a `url` instead. */
    function Error(): Option<string> {
      match this
      case Redirect(_) => None
      case InvalidPlan => Some("Plan inválido")
      case NotConfigured => Some("Sistema de pagos no configurado. Por favor configura STRIPE_SECRET_KEY.")
      case ProviderMisconfigured => Some("Configuración de Stripe incorrecta. Verifica los Price IDs.")
      case CreateFailed => Some("Error al crear la sesión de pago")
    }
  }

  const DEFAULT_ORIGIN := "http://localhost:3000"

  /** `request.headers.get('origin') || 'http://localhost:3000'`. */
  function Origin(header: Option<string>): (origin: string)
    ensures origin != ""
    ensures header.Some? && header.value != "" ==> origin == header.value
    ensures header.None? || header.value == "" ==> origin == DEFAULT_ORIGIN
  {
    if header.Some? && header.value != "" then header.value else DEFAULT_ORIGIN
  }

  /** The argument of `stripe.checkout.sessions.create` for a valid plan. */
  function SessionRequestFor(planId: string, priceId: Option<string>, origin: string): (req: SessionRequest)
    requires PlanInfoFor(Some(planId)).Some?
    ensures req.mode == "subscription"
    ensures req.lineItems == [LineItem(priceId, 1)]
    ensures req.metadata.planId == planId
    ensures req.metadata.credits == PlanInfoFor(Some(planId)).value.credits
    ensures origin <= req.successUrl && origin <= req.cancelUrl
  {
    SessionRequest(
      "subscription",
      ["card"],
      [LineItem(priceId, 1)],
      origin + "/dashboard?success=true&plan=" + planId,
      origin + "/pricing?canceled=true",
      SessionMetadata(planId, PlanInfoFor(Some(planId)).value.credits))
  }

  /** The `catch` block: an invalid-request error from the provider is a 400, anything else a 500. */
  function ErrorResponse(errorType: Option<string>): (r: Response)
    ensures r == ProviderMisconfigured <==> errorType == Some("StripeInvalidRequestError")
    ensures r == ProviderMisconfigured || r == CreateFailed
    ensures r.Status() == if errorType == Some("StripeInvalidRequestError") then 400 else 500
  {
    if errorType == Some("StripeInvalidRequestError") then ProviderMisconfigured else CreateFailed
  }

  /**
   * The route `POST`. `body` is `None` when the body does not parse (a
   * thrown error without a `type`); `secretKey` says whether
   * STRIPE_SECRET_KEY is set; `create` is the provider.
   */
  function Post(body: Option<Body>, secretKey: bool, originHeader: Option<string>,
                create: SessionRequest -> ProviderOutcome): (r: Response)
    ensures body.None? ==> r == CreateFailed
    ensures body.Some? && PlanInfoFor(body.value.planId).None? ==> r == InvalidPlan
    ensures body.Some? && PlanInfoFor(body.value.planId).Some? && !secretKey ==> r == NotConfigured
    ensures r.NeedsConfig() ==> r.Status() == 503 && !secretKey
    ensures r.Redirect? ==>
      && body.Some? && PlanInfoFor(body.value.planId).Some? && secretKey
      && create(SessionRequestFor(body.value.planId.value, body.value.priceId, Origin(originHeader)))
         == Created(r.url)
    ensures body.Some? && PlanInfoFor(body.value.planId).Some? && secretKey ==>
      r == match create(SessionRequestFor(body.value.planId.value, body.value.priceId, Origin(originHeader)))
           case Created(url) => Redirect(url)
           case Rejected(errorType) => ErrorResponse(errorType)
  {
    if body.None? then ErrorResponse(None)
    else
      var b := body.value;
      if PlanInfoFor(b.planId).None? then InvalidPlan
      else if !secretKey then NotConfigured
      else
        match create(SessionRequestFor(b.planId.value, b.priceId, Origin(originHeader)))
        case Created(url) => Redirect(url)
        case Rejected(errorType) => ErrorResponse(errorType)
  }

  /** Plan validation comes first: an invalid plan is a 400 even when the provider is not configured. */
  lemma PlanCheckedBeforeConfig(b: Body, originHeader: Option<string>, create: SessionRequest -> ProviderOutcome)
    requires b.planId != Some("premium") && b.planId != Some("vip")
    ensures Post(Some(b), false, originHeader, create) == InvalidPlan
    ensures Post(Some(b), false, originHeader, create).Status() == 400
  {
  }

  /** The request for a valid plan: the redirect addresses, built on the origin. */
  lemma SessionRequestUrls(planId: string, priceId: Option<string>, originHeader: Option<string>)
    requires planId == "premium" || planId == "vip"
    ensures var req := SessionRequestFor(planId, priceId, Origin(originHeader));
      && req.successUrl == Origin(originHeader) + "/dashboard?success=true&plan=" + planId
      && req.cancelUrl == Origin(originHeader) + "/pricing?canceled=true"
      && (originHeader.None? ==> req.cancelUrl == DEFAULT_ORIGIN + "/pricing?canceled=true")
  {
  }

  /** The webhook's view of the metadata: numbers come back as the same integers. */
  function Delivered(m: SessionMetadata): Webhook.Metadata {
    Webhook.Metadata(Some(m.planId), Some(m.credits))
  }

  /**
   * The metadata a valid checkout sends resolves, in the webhook, to the same
   * grant and to the tier named by the plan: the two `PLANS` tables agree.
   */
  lemma MetadataResolvesToSamePlan(planId: string, priceId: Option<string>, origin: string)
    requires planId == "premium" || planId == "vip"
    ensures var md := SessionRequestFor(planId, priceId, origin).metadata;
      && Webhook.ResolvePlan(Delivered(md)) == Webhook.PlanNamed(Some(planId)).value
      && Webhook.ResolvePlan(Delivered(md)).credits == md.credits
      && Webhook.ResolvePlan(Delivered(md)).tier == planId
  {
  }
}
