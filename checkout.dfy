/** The 3-D Secure checkout of `WC_Gateway_Cybersource_3DS_REST`, step by step, as functions
    of the order's state before the step: each returns the step's result, the order's new
    state and the effects outside the order (requests sent, notices shown, cart emptied).
    The `Gateway` class carries these steps out on an `Order`; the lemmas here state what
    the steps guarantee. */
module Checkout {
  import opened Php
  import opened Primitives
  import opened Api
  import opened Host

  /** What the steps consult outside the gateway and the order. */
  datatype Env = Env(
    prims: Primitives,
    /** The `Date` header of the n-th request sent (`gmdate` at the time of sending). */
    clock: nat -> string,
    /** What the transport returns for a request. */
    transport: HttpRequest -> Transport,
    /** `sanitize_text_field` on a string. */
    sanitize: string -> string,
    /** The status the host's `payment_complete` gives this order ("processing" or
        "completed", as the order needs processing or not). */
    paidStatus: string,
    /** The gateway's callback URL for an order id and key. */
    termUrl: (nat, string) -> string)

  /** Effects outside the order: the processor requests sent, in order, the error notices
      shown to the buyer and whether the cart was emptied. */
  datatype Effects = Effects(sent: seq<HttpRequest>, notices: seq<string>, cartEmptied: bool)
  {
    function Send(r: HttpRequest): Effects {
      this.(sent := sent + [r])
    }

    function Notice(m: string): Effects {
      this.(notices := notices + [m])
    }
  }

  /** The array `process_payment` and its helpers return. */
  datatype CheckoutResult = Success(redirect: Page) | Failure(redirect: Page)

  datatype Step<R> = Step(result: R, order: OrderState, fx: Effects)

  /** The date the next request carries. */
  function Date(env: Env, fx: Effects): string {
    env.clock(|fx.sent|)
  }

  // ---------------------------------------------------------------------------
  // Card fields

  const NumberField := "cs3ds_card_number"
  const MonthField := "cs3ds_exp_month"
  const YearField := "cs3ds_exp_year"
  const CvcField := "cs3ds_cvc"

  /** `isset($p[$k]) ? $p[$k] : ''` on posted (already cleaned) form fields. */
  function Posted(post: map<string, string>, k: string): string {
    if k in post then post[k] else ""
  }

  /** The emptiness test of `validate_fields`: the number counts without its whitespace. */
  predicate CardFieldsPresent(post: map<string, string>) {
    StripWhitespace(Posted(post, NumberField)) != "" && Posted(post, MonthField) != "" &&
    Posted(post, YearField) != "" && Posted(post, CvcField) != ""
  }

  const MissingCardNotice := "Please fill in card details."
  const NotConfiguredNotice := "Payment gateway is not configured yet."

  /** The notice `validate_fields` shows, or `None` when it accepts: the card is checked
      first, the configuration second. */
  function FieldsVerdict(post: map<string, string>, configured: bool): (v: Option<string>)
    ensures v.None? <==> CardFieldsPresent(post) && configured
    ensures v == Some(MissingCardNotice) <==> !CardFieldsPresent(post)
    ensures v == Some(NotConfiguredNotice) <==> CardFieldsPresent(post) && !configured
  {
    if !CardFieldsPresent(post) then Some(MissingCardNotice)
    else if !configured then Some(NotConfiguredNotice)
    else None
  }

  /** `get_card_from_post`: the four posted fields, "" for a missing one. */
  function CardFromPost(post: map<string, string>): (card: Value)
    ensures card.Arr? && |card.entries| == 4
    ensures Field(card, "number") == Str(Posted(post, NumberField))
    ensures Field(card, "exp_month") == Str(Posted(post, MonthField))
    ensures Field(card, "exp_year") == Str(Posted(post, YearField))
    ensures Field(card, "cvc") == Str(Posted(post, CvcField))
  {
    Arr(map[
      Name("number") := Str(Posted(post, NumberField)),
      Name("exp_month") := Str(Posted(post, MonthField)),
      Name("exp_year") := Str(Posted(post, YearField)),
      Name("cvc") := Str(Posted(post, CvcField))])
  }

  /** A card that passed `validate_fields` reaches the processor with a non-empty number
      free of whitespace and non-empty expiry fields, in the enrollment and payment calls. */
  lemma AcceptedCardIsComplete(post: map<string, string>, info: OrderInfo, setupId: Value,
                               termUrl: string, challengeCode: string, auth: Value)
    requires CardFieldsPresent(post)
    ensures var c := Field(Field(EnrollmentPayload(info, CardFromPost(post), setupId, termUrl,
                                                   challengeCode), "paymentInformation"), "card");
            var n := Field(c, "number");
            n.Str? && n.s != [] && (forall i :: 0 <= i < |n.s| ==> !IsSpace(n.s[i])) &&
            Field(c, "expirationMonth") == Str(Posted(post, MonthField)) &&
            Field(c, "expirationYear") == Str(Posted(post, YearField)) &&
            Posted(post, MonthField) != "" && Posted(post, YearField) != ""
    ensures var c := Field(Field(PaymentPayload(info, CardFromPost(post), auth),
                                 "paymentInformation"), "card");
            Field(c, "number") == Str(StripWhitespace(Posted(post, NumberField))) &&
            Field(c, "securityCode") == Str(Posted(post, CvcField)) && Posted(post, CvcField) != ""
  {
    var card := CardFromPost(post);
    assert Field(card, "exp_month") == Str(Posted(post, MonthField));
    assert Field(card, "exp_year") == Str(Posted(post, YearField));
  }

  // ---------------------------------------------------------------------------
  // Reading processor responses

  /** `!empty($b['consumerAuthenticationInformation']) ? … : []` */
  function AuthInfo(body: Value): Value {
    NonEmptyOr(Field(body, "consumerAuthenticationInformation"), EmptyArray)
  }

  /** The setup reference id handed to the enrollment call; "" when absent or empty. */
  function SetupId(setupBody: Value): (id: Value)
    ensures var r := Field(AuthInfo(setupBody), "referenceId");
            (id == Str("") <==> Empty(r)) && (!Empty(r) ==> id == r)
  {
    NonEmptyOr(Field(Field(setupBody, "consumerAuthenticationInformation"), "referenceId"), Str(""))
  }

  /** `!empty($cai['challengeRequired']) && $cai['challengeRequired'] === 'Y'` */
  predicate ChallengeRequired(body: Value) {
    var c := Field(AuthInfo(body), "challengeRequired");
    !Empty(c) && c == Str("Y")
  }

  /** A challenge is required exactly when the flag is the string "Y": neither "y", "Yes"
      nor a boolean true counts. */
  lemma ChallengeRequiredExactly(body: Value)
    ensures ChallengeRequired(body) <==>
              Field(Field(body, "consumerAuthenticationInformation"), "challengeRequired") == Str("Y")
  {
  }

  /** `$enrolled`: the `veresEnrolled` classification, "" when absent or empty. */
  function Enrolled(body: Value): Value {
    NonEmptyOr(Field(AuthInfo(body), "veresEnrolled"), Str(""))
  }

  /** The decisions that count as a successful payment. */
  const ApprovedDecisions: set<string> := {"AUTHORIZED", "PENDING", "COMPLETED"}

  /** `strtoupper($decision)` is one of the approved decisions. */
  predicate IsApproved(decision: Value) {
    ToUpper(ToStr(decision)) in ApprovedDecisions
  }

  /** The decision is matched regardless of ASCII case, against exactly three words. */
  lemma ApprovedIgnoringCase(s: string)
    ensures IsApproved(Str(s)) <==>
              EqualsIgnoringCase(s, "AUTHORIZED") || EqualsIgnoringCase(s, "PENDING") ||
              EqualsIgnoringCase(s, "COMPLETED")
  {
    ToUpperMatchesIgnoringCase(s, "AUTHORIZED");
    ToUpperMatchesIgnoringCase(s, "PENDING");
    ToUpperMatchesIgnoringCase(s, "COMPLETED");
  }

  /** The failure detail of `payment_error`: " - " and the sanitized `body.message` when it
      is non-empty, else " - " and the sanitized `body.details[0].reason` when that is,
      else nothing. */
  function ErrorDetail(body: Value, sanitize: string -> string): (d: string)
    ensures var m := Field(body, "message");
            var r := Field(Get(Field(body, "details"), Index(0)), "reason");
            (d == "" <==> Empty(m) && Empty(r)) &&
            (!Empty(m) ==> d == " - " + SanitizeTextField(sanitize, m)) &&
            (Empty(m) && !Empty(r) ==> d == " - " + SanitizeTextField(sanitize, r))
  {
    var m := Field(body, "message");
    var r := Field(Get(Field(body, "details"), Index(0)), "reason");
    if !Empty(m) then " - " + SanitizeTextField(sanitize, m)
    else if !Empty(r) then " - " + SanitizeTextField(sanitize, r)
    else ""
  }

  // ---------------------------------------------------------------------------
  // The steps

  const SetupFailedMessage := "Authentication setup failed"
  const EnrollmentFailedMessage := "3DS enrollment/authentication call failed"
  const CaptureFailedMessage := "Payment authorization/capture failed"
  const DeclinedMessage := "Payment declined after 3DS"
  const ValidationFailedMessage := "Challenge validation failed"
  const ChallengeStartedNote := "3DS challenge started."
  const MissingTransactionNote := "Missing authentication transaction id."
  const SuccessNotePrefix := "Cybersource payment success. ResponseCode: "

  /** `payment_error`: the order fails with the message and detail as its note, the buyer
      sees the same text, and the result is a failure back to the checkout. */
  function PaymentErrorSpec(o: OrderState, fx: Effects, message: string, response: Envelope,
                            sanitize: string -> string): Step<CheckoutResult>
  {
    var text := message + ErrorDetail(response.body, sanitize);
    Step(Failure(CheckoutPage), o.WithStatus("failed", text), fx.Notice(text))
  }

  /** The capture call `run_payment_after_auth` makes. */
  function PaymentCall(api: Client, info: OrderInfo, card: Value, auth: Value, fx: Effects,
                       env: Env): Exchange
  {
    api.CreatePayment(env.prims, info, card, auth, Date(env, fx), env.transport)
  }

  /** `run_payment_after_auth` once the capture call has answered with `e`: store the
      response, then complete the payment or fail. */
  function CaptureDecision(info: OrderInfo, e: Envelope, o: OrderState, fx: Effects, env: Env)
    : Step<CheckoutResult>
  {
    if !e.ok then PaymentErrorSpec(o, fx, CaptureFailedMessage, e, env.sanitize)
    else
      var decision := NonEmptyOr(Field(e.body, "status"), Str(""));
      var reasonCode := NonEmptyOr(Field(Field(e.body, "processorInformation"), "responseCode"), Str(""));
      var o1 := o.WithMeta(PaymentResponseKey, Str(env.prims.jsonEncode(e.body)));
      if IsApproved(decision) then
        var txId := NonEmptyOr(Field(e.body, "id"), Str(""));
        var o2 := if txId != Str("") then o1.(transactionId := ToStr(txId)) else o1;
        var o3 := o2.WithPaymentComplete(env.paidStatus).WithNote(SuccessNotePrefix + ToStr(reasonCode));
        Step(Success(ReturnPage(info.id)), o3, fx.(cartEmptied := true))
      else PaymentErrorSpec(o1, fx, DeclinedMessage, e, env.sanitize)
  }

  /** `run_payment_after_auth`: capture, store the response, then decide. */
  function RunPaymentSpec(api: Client, info: OrderInfo, card: Value, auth: Value,
                          o: OrderState, fx: Effects, env: Env): Step<CheckoutResult>
  {
    var payment := PaymentCall(api, info, card, auth, fx, env);
    CaptureDecision(info, payment.envelope, o, fx.Send(payment.request), env)
  }

  function SetupCall(api: Client, info: OrderInfo, fx: Effects, env: Env): Exchange {
    api.CreateAuthenticationSetup(env.prims, info, Date(env, fx), env.transport)
  }

  function EnrollmentCall(api: Client, challengeCode: string, info: OrderInfo, key: string,
                          card: Value, setupBody: Value, fx: Effects, env: Env): Exchange
  {
    api.CheckEnrollment(env.prims, info, card, SetupId(setupBody), env.termUrl(info.id, key),
                        challengeCode, Date(env, fx), env.transport)
  }

  /** `process_payment` once the enrollment call has answered with `e`: store the card and
      the response, then park the order for a challenge or capture at once. */
  function EnrollmentDecision(api: Client, info: OrderInfo, card: Value, e: Envelope,
                              o: OrderState, fx: Effects, env: Env): Step<CheckoutResult>
  {
    if !e.ok then PaymentErrorSpec(o, fx, EnrollmentFailedMessage, e, env.sanitize)
    else
      var encoded := Str(env.prims.jsonEncode(e.body));
      var o1 := o.WithMeta(CardKey, card).WithMeta(AuthInitialKey, encoded);
      if ChallengeRequired(e.body) then
        var o2 := o1.WithStatus("on-hold", ChallengeStartedNote)
                    .WithMeta(ChallengeRequiredKey, Str("yes"))
                    .WithMeta(ChallengePayloadKey, encoded);
        Step(Success(PayForOrderPage(info.id)), o2, fx)
      else
        var enrolled := Enrolled(e.body);
        if enrolled == Str("N") || enrolled == Str("U") || enrolled == Str("") then
          RunPaymentSpec(api, info, card, e.body, o1, fx, env)
        else
          RunPaymentSpec(api, info, card, e.body, o1, fx, env)
  }

  /** `process_payment` once the setup call has answered with `e`. */
  function SetupDecision(api: Client, challengeCode: string, info: OrderInfo, key: string,
                         card: Value, e: Envelope, o: OrderState, fx: Effects, env: Env)
    : Step<CheckoutResult>
  {
    if !e.ok then PaymentErrorSpec(o, fx, SetupFailedMessage, e, env.sanitize)
    else
      var enrollment := EnrollmentCall(api, challengeCode, info, key, card, e.body, fx, env);
      EnrollmentDecision(api, info, card, enrollment.envelope, o, fx.Send(enrollment.request), env)
  }

  /** `process_payment`: setup, enrollment, then park the order for a challenge or
      capture at once. */
  function ProcessPaymentSpec(api: Client, challengeCode: string, info: OrderInfo, key: string,
                              post: map<string, string>, o: OrderState, fx: Effects, env: Env)
    : Step<CheckoutResult>
  {
    var setup := SetupCall(api, info, fx, env);
    SetupDecision(api, challengeCode, info, key, CardFromPost(post), setup.envelope, o,
                  fx.Send(setup.request), env)
  }

  /** The authentication transaction id stored with the initial authentication response;
      "" when there is none. */
  function TransactionIdOf(initial: Value): (id: Value)
    ensures var t := Field(AuthInfo(initial), "authenticationTransactionId");
            (id == Str("") <==> Empty(t)) && (!Empty(t) ==> id == t)
  {
    NonEmptyOr(Field(AuthInfo(initial), "authenticationTransactionId"), Str(""))
  }

  /** The issuer's result as the callback passes it on: `cres`, and the legacy `PaRes`
      under the key `pares`. */
  function ChallengeData(post: map<string, string>): (c: Value)
    ensures Field(c, "cres") == Str(Posted(post, "cres"))
    ensures Field(c, "pares") == Str(Posted(post, "PaRes"))
  {
    Arr(map[Name("cres") := Str(Posted(post, "cres")), Name("pares") := Str(Posted(post, "PaRes"))])
  }

  function ValidationCall(api: Client, info: OrderInfo, txId: Value, post: map<string, string>,
                          fx: Effects, env: Env): Exchange
  {
    api.ValidateAuthentication(env.prims, info, txId, ChallengeData(post), Date(env, fx),
                               env.transport)
  }

  /** The stored initial authentication response, decoded again. */
  function StoredInitial(o: OrderState, prims: Primitives): Value {
    prims.jsonDecode(ToStr(o.Meta(AuthInitialKey)))
  }

  /** `handle_term_callback` once the validation call has answered with `e`: fail, or
      store the final response, clear the challenge flag and capture with the stored card. */
  function ValidationDecision(api: Client, info: OrderInfo, e: Envelope, o: OrderState,
                              fx: Effects, env: Env): Step<HttpReply>
  {
    if !e.ok then
      var err := PaymentErrorSpec(o, fx, ValidationFailedMessage, e, env.sanitize);
      Step(Redirect(CheckoutPage), err.order, err.fx)
    else
      var o1 := o.WithMeta(AuthFinalKey, Str(env.prims.jsonEncode(e.body)))
                 .WithMeta(ChallengeRequiredKey, Str("no"));
      var pay := RunPaymentSpec(api, info, o1.Meta(CardKey), e.body, o1, fx, env);
      Step(Redirect(pay.result.redirect), pay.order, pay.fx)
  }

  /** `handle_term_callback` once the order is found and its key matches: require the
      stored transaction id, validate the issuer's result, then capture. */
  function CallbackSpec(api: Client, info: OrderInfo, post: map<string, string>,
                        o: OrderState, fx: Effects, env: Env): Step<HttpReply>
  {
    var txId := TransactionIdOf(StoredInitial(o, env.prims));
    if txId == Str("") then
      Step(Redirect(OrderReceivedPage(info.id)), o.WithStatus("failed", MissingTransactionNote), fx)
    else
      var auth := ValidationCall(api, info, txId, post, fx, env);
      ValidationDecision(api, info, auth.envelope, o, fx.Send(auth.request), env)
  }

  // ---------------------------------------------------------------------------
  // The challenge page

  /** What `receipt_page` shows: no order, a plain "processing" page, the missing-parameters
      message, or the self-submitting form that posts `JWT` to the step-up URL. */
  datatype ReceiptView =
    | InvalidOrder
    | Processing
    | MissingChallengeParameters
    | ChallengeForm(action: Value, jwt: Value)

  /** The step-up form for a stored challenge payload. */
  function ChallengeView(payload: Value): (v: ReceiptView)
    ensures var cai := AuthInfo(payload);
            var url := Field(cai, "stepUpUrl");
            var token := Field(cai, "accessToken");
            var pareq := Field(cai, "pareq");
            (v == MissingChallengeParameters <==> Empty(url) || (Empty(token) && Empty(pareq))) &&
            (v != MissingChallengeParameters ==>
               v == ChallengeForm(url, if !Empty(token) then token else pareq)) &&
            (v.ChallengeForm? ==> !Empty(v.action) && !Empty(v.jwt))
  {
    var cai := AuthInfo(payload);
    var url := NonEmptyOr(Field(cai, "stepUpUrl"), Str(""));
    var token := NonEmptyOr(Field(cai, "accessToken"), Str(""));
    var pareq := NonEmptyOr(Field(cai, "pareq"), Str(""));
    if url == Str("") || (token == Str("") && pareq == Str("")) then MissingChallengeParameters
    else ChallengeForm(url, if token != Str("") then token else pareq)
  }

  /** `receipt_page` for an existing order. */
  function ReceiptFor(o: OrderState, prims: Primitives): (v: ReceiptView)
    ensures v == Processing <==> o.Meta(ChallengeRequiredKey) != Str("yes")
    ensures v != Processing ==> v == ChallengeView(prims.jsonDecode(ToStr(o.Meta(ChallengePayloadKey))))
  {
    if o.Meta(ChallengeRequiredKey) != Str("yes") then Processing
    else ChallengeView(prims.jsonDecode(ToStr(o.Meta(ChallengePayloadKey))))
  }
}
