/**
 * `POST /api/create-dlpay-checkout`: fills in the redirect and webhook URLs the caller left out,
 * normalises the product list, encrypts the payload (with the same framing as `PayloadCipher`) and
 * forwards it to the gateway. The gateway call and the random IV are parameters.
 */
module DlpayCheckoutRoute {
  import opened Wrappers
  import opened Text
  import opened Bytes
  import opened Gateway
  import opened Http
  import PayloadCipher
  import ConfirmRoute

  /** A `productId` as the client may send it: text, a number, or nothing. */
  datatype IdValue = IdText(text: string) | IdNumber(n: int) | IdAbsent

  /** One product of the caller's payload; `price` None stands for NaN, which JSON writes as null. */
  datatype RawProduct = RawProduct(productId: IdValue, name: Option<string>, price: Option<int>, quantity: Option<int>,
                                   image: Option<string>)

  datatype CheckoutPayload = CheckoutPayload(
    webhookUrl: Option<string>,
    successUrl: Option<string>,
    cancelUrl: Option<string>,
    metadata: Option<Metadata>,
    products: Option<seq<RawProduct>>)

  datatype RequestBody = RequestBody(payload: Option<CheckoutPayload>)

  /** The settings the route reads from the environment. */
  datatype Config = Config(secretKey: Option<string>, apiKey: Option<string>, siteUrl: Option<string>,
                           apiUrl: Option<string>)

  /** The request forwarded to the gateway: its URL and the encrypted payload. */
  datatype Forward = Forward(url: string, payload: string)

  datatype Outcome = Outcome(resp: Response, sent: Option<Forward>)

  const DefaultSiteUrl := "http://localhost:3000"

  /** `String(v)`. */
  function IdString(v: IdValue): string {
    match v
    case IdText(t) => t
    case IdNumber(n) => if n < 0 then "-" + NatToString(-n) else NatToString(n)
    case IdAbsent => "undefined"
  }

  /** `{ ...product, price: Number(price), quantity: Number(quantity || 1), productId: String(productId) }`. */
  function NormalizeProduct(p: RawProduct): (q: RawProduct)
    ensures q.name == p.name && q.price == p.price && q.image == p.image
    ensures q.productId == IdText(IdString(p.productId))
    ensures p.quantity.Some? && p.quantity.value != 0 ==> q.quantity == p.quantity
    ensures p.quantity.None? || p.quantity == Some(0) ==> q.quantity == Some(1)
  {
    var quantity := if p.quantity.Some? && p.quantity.value != 0 then p.quantity.value else 1;
    p.(productId := IdText(IdString(p.productId)), quantity := Some(quantity))
  }

  function NormalizeProducts(ps: seq<RawProduct>): (qs: seq<RawProduct>)
    ensures |qs| == |ps| && forall i :: 0 <= i < |ps| ==> qs[i] == NormalizeProduct(ps[i])
  {
    seq(|ps|, i requires 0 <= i < |ps| => NormalizeProduct(ps[i]))
  }

  /** The query suffix of the success and cancel URLs: `payload.metadata?.orderId || ""`. */
  function OrderIdParam(p: CheckoutPayload): string {
    OrElse(if p.metadata.Some? then p.metadata.value.orderId else None, "")
  }

  /** The payload as it is encrypted: absent URLs filled from `siteUrl`, products normalised. */
  function Prepare(p: CheckoutPayload, siteUrl: string): (q: CheckoutPayload)
    ensures q.metadata == p.metadata
    ensures Truthy(q.webhookUrl) && Truthy(q.successUrl) && Truthy(q.cancelUrl)
    ensures Truthy(p.webhookUrl) ==> q.webhookUrl == p.webhookUrl
    ensures Truthy(p.successUrl) ==> q.successUrl == p.successUrl
    ensures Truthy(p.cancelUrl) ==> q.cancelUrl == p.cancelUrl
    ensures !Truthy(p.successUrl) ==> q.successUrl == Some(siteUrl + "/payment/success?orderId=" + OrderIdParam(p))
    ensures !Truthy(p.cancelUrl) ==> q.cancelUrl == Some(siteUrl + "/payment/cancel?orderId=" + OrderIdParam(p))
    ensures !Truthy(p.webhookUrl) ==> q.webhookUrl == Some(siteUrl + "/api/webhook")
    ensures q.products.Some? <==> p.products.Some?
    ensures p.products.Some? ==> q.products == Some(NormalizeProducts(p.products.value))
  {
    var q := if Truthy(p.webhookUrl) then p else p.(webhookUrl := Some(siteUrl + "/api/webhook"));
    var q := if Truthy(q.successUrl) then q else q.(successUrl := Some(siteUrl + "/payment/success?orderId=" + OrderIdParam(p)));
    var q := if Truthy(q.cancelUrl) then q else q.(cancelUrl := Some(siteUrl + "/payment/cancel?orderId=" + OrderIdParam(p)));
    if q.products.Some? then q.(products := Some(NormalizeProducts(q.products.value))) else q
  }

  function DlpayOutcome(body: Result<RequestBody, string>, config: Config, iv: seq<byte>,
                        stringify: CheckoutPayload -> seq<byte>, gateway: Forward -> Result<GatewayCheckout, string>): Outcome
    requires |iv| == PayloadCipher.IvLength
  {
    if body.Err? then Outcome(Response(500, Crashed(body.error)), None)
    else if body.value.payload.None? then Outcome(Response(400, Error("Payload is required")), None)
    else if !Truthy(config.secretKey) then Outcome(Response(500, Error("DL_PAY_SECRET_KEY is not defined")), None)
    else if !Truthy(config.apiKey) then Outcome(Response(500, Error("DL_PAY_API_KEY is not defined")), None)
    else
      var payload := Prepare(body.value.payload.value, OrElse(config.siteUrl, DefaultSiteUrl));
      var encrypted := PayloadCipher.EncryptPayload(payload, config.secretKey, iv, stringify);
      if encrypted.Err? then Outcome(Response(500, Crashed(encrypted.error)), None)
      else
        var apiUrl := OrElse(config.apiUrl, ConfirmRoute.DefaultApiUrl);
        var forward := Forward(apiUrl + "/api/checkout", encrypted.value);
        match gateway(forward)
        case Ok(data) => Outcome(Response(200, GatewayCreated(data)), Some(forward))
        case Err(m) => Outcome(Response(500, GatewayFailed(m, apiUrl)), Some(forward))
  }

  // ---- properties ----

  /**
   * A missing payload is answered 400; otherwise a missing secret key is reported before a missing API
   * key; nothing reaches the gateway unless both keys are set and the key decodes to 32 bytes.
   */
  lemma ErrorOrder(body: Result<RequestBody, string>, config: Config, iv: seq<byte>,
                   stringify: CheckoutPayload -> seq<byte>, gateway: Forward -> Result<GatewayCheckout, string>)
    requires |iv| == PayloadCipher.IvLength
    ensures var out := DlpayOutcome(body, config, iv, stringify, gateway);
      (body.Ok? && body.value.payload.None? ==> out.resp == Response(400, Error("Payload is required")))
      && (body.Ok? && body.value.payload.Some? && !Truthy(config.secretKey) ==>
            out.resp == Response(500, Error("DL_PAY_SECRET_KEY is not defined")))
      && (out.sent.Some? ==> Truthy(config.secretKey) && Truthy(config.apiKey)
                             && PayloadCipher.KeyBytes(config.secretKey).Ok?)
      && (out.resp.status == 200 ==> out.sent.Some?)
  {
  }

  /** Preparing twice is preparing once: filled URLs and normalised products are left as they are. */
  lemma PrepareIdempotent(p: CheckoutPayload, siteUrl: string, siteUrl': string)
    ensures Prepare(Prepare(p, siteUrl), siteUrl') == Prepare(p, siteUrl)
  {
    var q := Prepare(p, siteUrl);
    if p.products.Some? {
      var ps := q.products.value;
      assert NormalizeProducts(ps) == ps by {
        forall i | 0 <= i < |ps| ensures NormalizeProduct(ps[i]) == ps[i] {
          var r := p.products.value[i];
          assert ps[i] == NormalizeProduct(r);
        }
      }
    }
  }

  /**
   * What the gateway receives decrypts, with the same key, to the prepared payload: the route's own
   * encryption and the shared `decryptPayload` agree on the framing.
   */
  lemma ForwardedPayloadDecrypts(body: Result<RequestBody, string>, config: Config, iv: seq<byte>,
                                 stringify: CheckoutPayload -> seq<byte>,
                                 parse: seq<byte> -> Result<CheckoutPayload, string>,
                                 gateway: Forward -> Result<GatewayCheckout, string>)
    requires |iv| == PayloadCipher.IvLength
    requires forall p :: parse(stringify(p)) == Ok(p)
    ensures var out := DlpayOutcome(body, config, iv, stringify, gateway);
      out.sent.Some? ==>
        body.Ok? && body.value.payload.Some?
        && PayloadCipher.DecryptPayload(out.sent.value.payload, config.secretKey, parse)
           == Ok(Prepare(body.value.payload.value, OrElse(config.siteUrl, DefaultSiteUrl)))
  {
    var out := DlpayOutcome(body, config, iv, stringify, gateway);
    if out.sent.Some? {
      var payload := Prepare(body.value.payload.value, OrElse(config.siteUrl, DefaultSiteUrl));
      PayloadCipher.RoundTrip(payload, config.secretKey, iv, stringify, parse);
    }
  }

  // ---- the handler ----

  method Post(body: Result<RequestBody, string>, config: Config, iv: seq<byte>,
              stringify: CheckoutPayload -> seq<byte>, gateway: Forward -> Result<GatewayCheckout, string>)
    returns (resp: Response, sent: Option<Forward>)
    requires |iv| == PayloadCipher.IvLength
    ensures Outcome(resp, sent) == DlpayOutcome(body, config, iv, stringify, gateway)
  {
    sent := None;
    if body.Err? {
      return Response(500, Crashed(body.error)), None;
    }
    if body.value.payload.None? {
      return Response(400, Error("Payload is required")), None;
    }
    var payload := body.value.payload.value;
    if !Truthy(config.secretKey) {
      return Response(500, Error("DL_PAY_SECRET_KEY is not defined")), None;
    }
    if !Truthy(config.apiKey) {
      return Response(500, Error("DL_PAY_API_KEY is not defined")), None;
    }
    var siteUrl := OrElse(config.siteUrl, DefaultSiteUrl);
    var orderId := OrderIdParam(payload);
    if !Truthy(payload.webhookUrl) {
      payload := payload.(webhookUrl := Some(siteUrl + "/api/webhook"));
    }
    if !Truthy(payload.successUrl) {
      payload := payload.(successUrl := Some(siteUrl + "/payment/success?orderId=" + orderId));
    }
    if !Truthy(payload.cancelUrl) {
      payload := payload.(cancelUrl := Some(siteUrl + "/payment/cancel?orderId=" + orderId));
    }
    if payload.products.Some? {
      payload := payload.(products := Some(NormalizeProducts(payload.products.value)));
    }
    var encrypted := PayloadCipher.EncryptPayload(payload, config.secretKey, iv, stringify);
    if encrypted.Err? {
      return Response(500, Crashed(encrypted.error)), None;
    }
    var apiUrl := OrElse(config.apiUrl, ConfirmRoute.DefaultApiUrl);
    sent := Some(Forward(apiUrl + "/api/checkout", encrypted.value));
    var answer := gateway(sent.value);
    if answer.Ok? {
      resp := Response(200, GatewayCreated(answer.value));
    } else {
      resp := Response(500, GatewayFailed(answer.error, apiUrl));
    }
  }
}
