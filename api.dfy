/** The signed REST client for the processor (`CS3DS_API`): credentials fixed at
    construction, the four request payloads, host selection, the signed outbound request
    and the classification of what comes back into an envelope `{ok, status, body}`.
    The HTTP transport itself is a parameter: a function from the request sent to what
    the transport returns. */
module Api {
  import opened Php
  import opened Primitives
  import opened Signing

  const SetupPath := "/risk/v1/authentication-setups"
  const AuthenticationsPath := "/risk/v1/authentications"
  const PaymentsPath := "/pts/v2/payments"

  const ProductionHost := "api.cybersource.com"
  const SandboxHost := "apitest.cybersource.com"

  /** Seconds the transport waits for the processor. */
  const TimeoutSeconds := 45

  /** What `wp_remote_request` gives back: an error (no HTTP response at all), or a
      status code and the raw body. */
  datatype Transport =
    | TransportError(message: string)
    | Response(status: int, rawBody: string)

  /** The normalised result of one processor call. */
  datatype Envelope = Envelope(ok: bool, status: int, body: Value)

  datatype HttpRequest = HttpRequest(
    verb: string, url: string, headers: map<string, string>, body: string, timeout: nat)

  /** One call: the request that went out and the envelope made of the answer. */
  datatype Exchange = Exchange(request: HttpRequest, envelope: Envelope)

  /** The order fields the payloads read; the amount is the host's formatted total. */
  datatype OrderInfo = OrderInfo(
    id: nat, total: string, currency: string, billing: map<string, string>,
    email: string, phone: string)

  /** The answer to a call made into an envelope. A transport failure has status 0 and
      the error message as body; otherwise the call is `ok` exactly for a 2xx status and
      the body is the decoded JSON when that is an array, else `{raw: <the raw body>}`.
      Either way the body is an array. */
  function Classify(prims: Primitives, t: Transport): (e: Envelope)
    ensures e.body.Arr?
    ensures t.TransportError? ==>
              !e.ok && e.status == 0 && e.body == Arr(map[Name("message") := Str(t.message)])
    ensures t.Response? ==> e.status == t.status && (e.ok <==> 200 <= t.status < 300)
    ensures t.Response? && prims.jsonDecode(t.rawBody).Arr? ==>
              e.body == prims.jsonDecode(t.rawBody)
    ensures t.Response? && !prims.jsonDecode(t.rawBody).Arr? ==>
              e.body == Arr(map[Name("raw") := Str(t.rawBody)])
  {
    match t
    case TransportError(message) =>
      Envelope(false, 0, Arr(map[Name("message") := Str(message)]))
    case Response(status, raw) =>
      var parsed := prims.jsonDecode(raw);
      var body := if parsed.Arr? then parsed else Arr(map[Name("raw") := Str(raw)]);
      Envelope(200 <= status < 300, status, body)
  }

  // ---------------------------------------------------------------------------
  // Payloads

  function ClientReference(info: OrderInfo): Value {
    Arr(map[Name("code") := Str(NatToString(info.id))])
  }

  /** `isset($billing[$k]) ? $billing[$k] : ''` */
  function Billing(info: OrderInfo, k: string): Value {
    Str(if k in info.billing then info.billing[k] else "")
  }

  function OrderInformation(info: OrderInfo): Value {
    Arr(map[
      Name("amountDetails") := Arr(map[
        Name("totalAmount") := Str(info.total),
        Name("currency") := Str(info.currency)]),
      Name("billTo") := Arr(map[
        Name("firstName") := Billing(info, "first_name"),
        Name("lastName") := Billing(info, "last_name"),
        Name("address1") := Billing(info, "address_1"),
        Name("locality") := Billing(info, "city"),
        Name("administrativeArea") := Billing(info, "state"),
        Name("postalCode") := Billing(info, "postcode"),
        Name("country") := Billing(info, "country"),
        Name("email") := Str(info.email),
        Name("phoneNumber") := Str(info.phone)])])
  }

  /** The card number as sent: the stored number with all whitespace removed. */
  function CardNumber(card: Value): Value {
    Str(StripWhitespace(ToStr(Field(card, "number"))))
  }

  /** Body of the authentication-setup call: only the client reference. */
  function SetupPayload(info: OrderInfo): (p: Value)
    ensures p.Arr? && p.entries.Keys == {Name("clientReferenceInformation")}
    ensures Field(Field(p, "clientReferenceInformation"), "code") == Str(NatToString(info.id))
  {
    Arr(map[Name("clientReferenceInformation") := ClientReference(info)])
  }

  /** The card as the enrollment check sends it: the number without whitespace and the
      expiry, no security code. */
  function EnrollmentCard(card: Value): (c: Value)
    ensures c.Arr? && c.entries.Keys == {Name("number"), Name("expirationMonth"), Name("expirationYear")}
    ensures var n := Field(c, "number");
            n.Str? && (forall i :: 0 <= i < |n.s| ==> !IsSpace(n.s[i])) && n == CardNumber(card)
    ensures Field(c, "expirationMonth") == Field(card, "exp_month")
    ensures Field(c, "expirationYear") == Field(card, "exp_year")
  {
    Arr(map[
      Name("number") := CardNumber(card),
      Name("expirationMonth") := Field(card, "exp_month"),
      Name("expirationYear") := Field(card, "exp_year")])
  }

  /** The authentication block of the enrollment check: the three values passed through. */
  function EnrollmentAuthentication(setupId: Value, termUrl: string, challengeCode: string)
    : (cai: Value)
    ensures cai.Arr?
    ensures cai.entries.Keys == {Name("referenceId"), Name("returnUrl"), Name("challengeCode")}
    ensures Field(cai, "referenceId") == setupId
    ensures Field(cai, "returnUrl") == Str(termUrl)
    ensures Field(cai, "challengeCode") == Str(challengeCode)
  {
    Arr(map[
      Name("referenceId") := setupId,
      Name("returnUrl") := Str(termUrl),
      Name("challengeCode") := Str(challengeCode)])
  }

  /** Body of the enrollment check. The card number goes without whitespace; the setup
      reference id, the return URL and the challenge code are passed through unchanged. */
  function EnrollmentPayload(info: OrderInfo, card: Value, setupId: Value, termUrl: string,
                             challengeCode: string): (p: Value)
    ensures p.Arr?
    ensures var c := Field(Field(p, "paymentInformation"), "card");
            var n := Field(c, "number");
            n.Str? && (forall i :: 0 <= i < |n.s| ==> !IsSpace(n.s[i])) &&
            n == CardNumber(card) &&
            Field(c, "expirationMonth") == Field(card, "exp_month") &&
            Field(c, "expirationYear") == Field(card, "exp_year")
    ensures var cai := Field(p, "consumerAuthenticationInformation");
            cai.Arr? &&
            cai.entries.Keys == {Name("referenceId"), Name("returnUrl"), Name("challengeCode")} &&
            Field(cai, "referenceId") == setupId &&
            Field(cai, "returnUrl") == Str(termUrl) &&
            Field(cai, "challengeCode") == Str(challengeCode)
    ensures Field(p, "clientReferenceInformation") == ClientReference(info)
  {
    Arr(map[
      Name("clientReferenceInformation") := ClientReference(info),
      Name("paymentInformation") := Arr(map[Name("card") := EnrollmentCard(card)]),
      Name("orderInformation") := OrderInformation(info),
      Name("consumerAuthenticationInformation") :=
        EnrollmentAuthentication(setupId, termUrl, challengeCode)])
  }

  /** Body of the challenge-result validation: the authentication transaction id always,
      `cres` and `pares` only when the issuer sent a non-empty one. */
  function ValidationPayload(info: OrderInfo, txId: Value, challenge: Value): (p: Value)
    ensures var cai := Field(p, "consumerAuthenticationInformation");
            cai.Arr? &&
            Field(cai, "authenticationTransactionId") == txId &&
            (Name("cres") in cai.entries <==> !Empty(Field(challenge, "cres"))) &&
            (Name("pares") in cai.entries <==> !Empty(Field(challenge, "pares"))) &&
            (Name("cres") in cai.entries ==> Field(cai, "cres") == Field(challenge, "cres")) &&
            (Name("pares") in cai.entries ==> Field(cai, "pares") == Field(challenge, "pares")) &&
            cai.entries.Keys <= {Name("authenticationTransactionId"), Name("cres"), Name("pares")}
    ensures Field(p, "clientReferenceInformation") == ClientReference(info)
  {
    var cres := Field(challenge, "cres");
    var pares := Field(challenge, "pares");
    var cai := map[Name("authenticationTransactionId") := txId];
    var cai := if !Empty(cres) then cai[Name("cres") := cres] else cai;
    var cai := if !Empty(pares) then cai[Name("pares") := pares] else cai;
    Arr(map[
      Name("clientReferenceInformation") := ClientReference(info),
      Name("consumerAuthenticationInformation") := Arr(cai)])
  }

  /** What the payment call takes from a prior authentication response: the commerce
      indicator (default "internet") and the liability-shift evidence. */
  datatype Evidence = Evidence(commerceIndicator: Value, cavv: Value, xid: Value, eci: Value)

  function EvidenceOf(auth: Value): (ev: Evidence)
    ensures var cai := Field(auth, "consumerAuthenticationInformation");
            ev.commerceIndicator ==
              (if !Empty(cai) && !Empty(Field(cai, "commerceIndicator"))
               then Field(cai, "commerceIndicator") else Str("internet"))
  {
    var cai := Field(auth, "consumerAuthenticationInformation");
    if Empty(cai) then Evidence(Str("internet"), Str(""), Str(""), Str(""))
    else
      Evidence(
        NonEmptyOr(Field(cai, "commerceIndicator"), Str("internet")),
        NonEmptyOr(Field(cai, "cavv"), Str("")),
        NonEmptyOr(Field(cai, "xid"), Str("")),
        NonEmptyOr(Field(cai, "eciRaw"), Str("")))
  }

  /** The evidence is worth sending when at least one of its three parts is non-empty. */
  predicate HasEvidence(ev: Evidence) {
    ev.cavv != Str("") || ev.xid != Str("") || ev.eci != Str("")
  }

  /** The evidence block of the payment call: the three values as read. */
  function EvidenceBlock(ev: Evidence): (block: Value)
    ensures block.Arr? && block.entries.Keys == {Name("cavv"), Name("xid"), Name("eciRaw")}
    ensures Field(block, "cavv") == ev.cavv && Field(block, "xid") == ev.xid
    ensures Field(block, "eciRaw") == ev.eci
  {
    Arr(map[Name("cavv") := ev.cavv, Name("xid") := ev.xid, Name("eciRaw") := ev.eci])
  }

  /** The card as the payment call sends it: the number without whitespace, the expiry
      and the security code. */
  function PaymentCard(card: Value): (c: Value)
    ensures Field(c, "number") == CardNumber(card)
    ensures Field(c, "expirationMonth") == Field(card, "exp_month")
    ensures Field(c, "expirationYear") == Field(card, "exp_year")
    ensures Field(c, "securityCode") == Field(card, "cvc")
  {
    Arr(map[
      Name("number") := CardNumber(card),
      Name("expirationMonth") := Field(card, "exp_month"),
      Name("expirationYear") := Field(card, "exp_year"),
      Name("securityCode") := Field(card, "cvc")])
  }

  /** The payment body without the evidence block. */
  function PaymentBase(info: OrderInfo, card: Value, commerceIndicator: Value)
    : (base: map<Key, Value>)
    ensures Name("consumerAuthenticationInformation") !in base
    ensures Name("clientReferenceInformation") in base &&
            base[Name("clientReferenceInformation")] == ClientReference(info)
    ensures Field(Field(Arr(base), "processingInformation"), "capture") == Bool(true)
    ensures Field(Field(Arr(base), "processingInformation"), "commerceIndicator") == commerceIndicator
    ensures Field(Field(Arr(base), "paymentInformation"), "card") == PaymentCard(card)
  {
    map[
      Name("clientReferenceInformation") := ClientReference(info),
      Name("processingInformation") := Arr(map[
        Name("capture") := Bool(true),
        Name("commerceIndicator") := commerceIndicator]),
      Name("paymentInformation") := Arr(map[Name("card") := PaymentCard(card)]),
      Name("orderInformation") := OrderInformation(info)]
  }

  /** Body of the payment call. It always asks for capture; the evidence block is present
      exactly when the authentication response carries a non-empty `cavv`, `xid` or
      `eciRaw`, and never as an empty block. */
  function PaymentPayload(info: OrderInfo, card: Value, auth: Value): (p: Value)
    ensures p.Arr?
    ensures Field(Field(p, "processingInformation"), "capture") == Bool(true)
    ensures Field(Field(p, "processingInformation"), "commerceIndicator")
            == EvidenceOf(auth).commerceIndicator
    ensures Field(Field(p, "paymentInformation"), "card") == PaymentCard(card)
    ensures var cai := Field(auth, "consumerAuthenticationInformation");
            Name("consumerAuthenticationInformation") in p.entries <==>
              (!Empty(Field(cai, "cavv")) || !Empty(Field(cai, "xid")) || !Empty(Field(cai, "eciRaw")))
    ensures Name("consumerAuthenticationInformation") in p.entries ==>
              Field(p, "consumerAuthenticationInformation") == EvidenceBlock(EvidenceOf(auth))
    ensures Field(p, "clientReferenceInformation") == ClientReference(info)
  {
    var ev := EvidenceOf(auth);
    NonEmptyOrBlank(Field(Field(auth, "consumerAuthenticationInformation"), "cavv"));
    NonEmptyOrBlank(Field(Field(auth, "consumerAuthenticationInformation"), "xid"));
    NonEmptyOrBlank(Field(Field(auth, "consumerAuthenticationInformation"), "eciRaw"));
    var base := PaymentBase(info, card, ev.commerceIndicator);
    if HasEvidence(ev) then Arr(base[Name("consumerAuthenticationInformation") := EvidenceBlock(ev)])
    else Arr(base)
  }

  // ---------------------------------------------------------------------------
  // Client

  /** `isset($config[$k])` */
  predicate IsSet(config: map<string, Value>, k: string) {
    k in config && config[k] != Null
  }

  /** A credential as the constructor stores it: the trimmed setting, or "" if unset. */
  function Credential(config: map<string, Value>, k: string): string {
    if IsSet(config, k) then Trim(ToStr(config[k])) else ""
  }

  /** A credential is given when it is set to something other than trim characters. */
  predicate Given(config: map<string, Value>, k: string) {
    IsSet(config, k) && !Blank(ToStr(config[k]))
  }

  /** The client; its credentials are fixed when it is made. */
  class Client {
    const merchantId: string
    const keyId: string
    const secretKey: string
    const environment: Value
    const debug: bool

    /** Reads the trimmed credentials from `config`; the environment defaults to
        "sandbox". The client counts as configured exactly when all three credentials
        are given. */
    constructor(config: map<string, Value>)
      ensures merchantId == Credential(config, "merchant_id")
      ensures keyId == Credential(config, "key_id")
      ensures secretKey == Credential(config, "secret_key")
      ensures environment == if IsSet(config, "environment") then config["environment"] else Str("sandbox")
      ensures debug == ("debug" in config && !Empty(config["debug"]))
      ensures IsConfigured() <==>
                Given(config, "merchant_id") && Given(config, "key_id") && Given(config, "secret_key")
    {
      merchantId := Credential(config, "merchant_id");
      keyId := Credential(config, "key_id");
      secretKey := Credential(config, "secret_key");
      environment := if IsSet(config, "environment") then config["environment"] else Str("sandbox");
      debug := "debug" in config && !Empty(config["debug"]);
    }

    predicate IsConfigured() {
      merchantId != "" && keyId != "" && secretKey != ""
    }

    /** The production host exactly for the environment "production"; any other value,
        the default "sandbox" included, selects the test host. */
    function Host(): (h: string)
      ensures h == ProductionHost <==> environment == Str("production")
      ensures h == ProductionHost || h == SandboxHost
    {
      if environment == Str("production") then ProductionHost else SandboxHost
    }

    /** `build_signature`: the `Signature` header for the given signed parts. */
    function BuildSignature(prims: Primitives, host: string, resource: string, date: string,
                            digest: string): string
    {
      var signed := SignatureString(host, resource, date, digest, merchantId);
      var mac := prims.hmacSha256(signed, SigningKey(prims, secretKey));
      SignatureHeader(keyId, prims.base64Encode(mac))
    }

    /** The request `request` sends. Its `Digest` header is computed over exactly the body
        it carries, and its `Signature` covers the host, the resource, the date, that
        digest and the merchant id; the method only sets the HTTP verb. */
    function Outbound(prims: Primitives, verb: string, resource: string, payload: Value,
                      date: string): (req: HttpRequest)
      ensures req.url == "https://" + Host() + resource
      ensures req.verb == ToUpper(verb) && req.timeout == TimeoutSeconds
      ensures req.body == prims.jsonEncode(payload)
      ensures "Digest" in req.headers && req.headers["Digest"] == DigestHeader(prims, req.body)
      ensures "Signature" in req.headers
      ensures req.headers["Signature"] == BuildSignature(prims, Host(), resource, date, req.headers["Digest"])
      ensures "Host" in req.headers && req.headers["Host"] == Host()
      ensures "Date" in req.headers && req.headers["Date"] == date
      ensures "v-c-merchant-id" in req.headers && req.headers["v-c-merchant-id"] == merchantId
    {
      var host := Host();
      var body := prims.jsonEncode(payload);
      var digest := DigestHeader(prims, body);
      var headers := map[
        "Content-Type" := "application/json",
        "Accept" := "application/json",
        "v-c-merchant-id" := merchantId,
        "Date" := date,
        "Host" := host,
        "Digest" := digest,
        "Signature" := BuildSignature(prims, host, resource, date, digest)];
      HttpRequest(ToUpper(verb), "https://" + host + resource, headers, body, TimeoutSeconds)
    }

    /** `request`: send the signed request once and classify the answer. */
    function Request(prims: Primitives, verb: string, resource: string, payload: Value,
                     date: string, transport: HttpRequest -> Transport): (x: Exchange)
      ensures x.request == Outbound(prims, verb, resource, payload, date)
      ensures x.envelope == Classify(prims, transport(x.request))
    {
      var req := Outbound(prims, verb, resource, payload, date);
      Exchange(req, Classify(prims, transport(req)))
    }

    function CreateAuthenticationSetup(prims: Primitives, info: OrderInfo, date: string,
                                       transport: HttpRequest -> Transport): (x: Exchange)
      ensures x.request.url == "https://" + Host() + SetupPath
      ensures x.request.body == prims.jsonEncode(SetupPayload(info))
    {
      Request(prims, "POST", SetupPath, SetupPayload(info), date, transport)
    }

    function CheckEnrollment(prims: Primitives, info: OrderInfo, card: Value, setupId: Value,
                             termUrl: string, challengeCode: string, date: string,
                             transport: HttpRequest -> Transport): (x: Exchange)
      ensures x.request.url == "https://" + Host() + AuthenticationsPath
      ensures x.request.body ==
                prims.jsonEncode(EnrollmentPayload(info, card, setupId, termUrl, challengeCode))
    {
      Request(prims, "POST", AuthenticationsPath,
              EnrollmentPayload(info, card, setupId, termUrl, challengeCode), date, transport)
    }

    function ValidateAuthentication(prims: Primitives, info: OrderInfo, txId: Value,
                                    challenge: Value, date: string,
                                    transport: HttpRequest -> Transport): (x: Exchange)
      ensures x.request.url == "https://" + Host() + AuthenticationsPath
      ensures x.request.body == prims.jsonEncode(ValidationPayload(info, txId, challenge))
    {
      Request(prims, "POST", AuthenticationsPath, ValidationPayload(info, txId, challenge),
              date, transport)
    }

    function CreatePayment(prims: Primitives, info: OrderInfo, card: Value, auth: Value,
                           date: string, transport: HttpRequest -> Transport): (x: Exchange)
      ensures x.request.url == "https://" + Host() + PaymentsPath
      ensures x.request.body == prims.jsonEncode(PaymentPayload(info, card, auth))
    {
      Request(prims, "POST", PaymentsPath, PaymentPayload(info, card, auth), date, transport)
    }

    /** Two requests with the same body, date and lower-cased resource carry the same
        signature, whatever their methods: the signed request target is always `post`. */
    lemma SignatureIgnoresMethod(prims: Primitives, verb: string, verb': string,
                                 resource: string, resource': string, payload: Value,
                                 date: string)
      requires ToLower(resource) == ToLower(resource')
      ensures Outbound(prims, verb, resource, payload, date).headers["Signature"]
              == Outbound(prims, verb', resource', payload, date).headers["Signature"]
    {
    }
  }
}
