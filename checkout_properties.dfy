/** What the checkout steps guarantee: routing after each processor call, fail-closed
    behaviour, what each step leaves untouched, and the hand-over between the checkout
    request and the issuer callback through the order's metadata. */
module CheckoutProperties {
  import opened Php
  import opened Primitives
  import opened Api
  import opened Host
  import opened Checkout

  // ---------------------------------------------------------------------------
  // payment_error

  /** A failure marks the order failed with the message and its detail as the note (the
      note is recorded with the status change, so not again on an order that has already
      failed), shows the buyer the same text, sends the buyer back to the checkout and
      changes nothing else: no metadata, no transaction id, no payment, no request. */
  lemma PaymentErrorFailsOrder(o: OrderState, fx: Effects, message: string, response: Envelope,
                               sanitize: string -> string)
    ensures var s := PaymentErrorSpec(o, fx, message, response, sanitize);
            var text := message + ErrorDetail(response.body, sanitize);
            s.result == Failure(CheckoutPage) && s.order.status == "failed" &&
            s.order.notes == o.notes + (if o.status == "failed" then [] else [text]) &&
            s.fx.notices == fx.notices + [text] &&
            s.order.meta == o.meta && s.order.transactionId == o.transactionId &&
            s.order.paid == o.paid && s.fx.sent == fx.sent && s.fx.cartEmptied == fx.cartEmptied
  {
  }

  // ---------------------------------------------------------------------------
  // run_payment_after_auth

  /** The source reads the decision as `!empty($status) ? $status : ''`; that is approved
      exactly when the status itself is, since no empty value upper-cases to an approved
      word. */
  lemma ApprovedDecisionOfStatus(status: Value)
    ensures IsApproved(NonEmptyOr(status, Str(""))) <==> IsApproved(status)
  {
    if Empty(status) {
      assert ToStr(NonEmptyOr(status, Str(""))) == "";
      assert |ToUpper(ToStr(status))| <= 5;
    }
  }

  /** The capture outcome, for every envelope the payment call may return: success
      exactly when the call is `ok` and its status is an approved decision. Success
      completes the payment (an order in a status the host completes from is marked paid
      and moved to the host's paid status; any other keeps its status and paid flag),
      empties the cart and sends the buyer to the return page;
      anything else is a failure that leaves the payment, the cart and the transaction id
      alone. A response that came back is stored before the decision, whatever the
      decision. No further request is sent. */
  lemma CaptureOutcome(info: OrderInfo, e: Envelope, o: OrderState, fx: Effects, env: Env)
    ensures var s := CaptureDecision(info, e, o, fx, env);
            s.fx.sent == fx.sent &&
            (s.result.Success? <==> e.ok && IsApproved(Field(e.body, "status"))) &&
            (s.result.Success? ==>
               s.result == Success(ReturnPage(info.id)) && s.fx.cartEmptied &&
               (o.status in PaymentCompleteStatuses ==>
                  s.order.paid && s.order.status == env.paidStatus) &&
               (o.status !in PaymentCompleteStatuses ==>
                  s.order.paid == o.paid && s.order.status == o.status)) &&
            (s.result.Failure? ==>
               s.result == Failure(CheckoutPage) && s.order.status == "failed" &&
               s.order.paid == o.paid && s.fx.cartEmptied == fx.cartEmptied &&
               s.order.transactionId == o.transactionId) &&
            (e.ok ==> s.order.Meta(PaymentResponseKey) == Str(env.prims.jsonEncode(e.body))) &&
            (!e.ok ==> s.order.meta == o.meta) &&
            (forall k :: k != PaymentResponseKey ==> s.order.Meta(k) == o.Meta(k))
  {
    ApprovedDecisionOfStatus(Field(e.body, "status"));
  }

  /** `run_payment_after_auth` sends exactly one request, the payment call carrying the
      payment body built from the card and the authentication response, and decides on
      its answer. */
  lemma RunPaymentSendsOnePayment(api: Client, info: OrderInfo, card: Value, auth: Value,
                                  o: OrderState, fx: Effects, env: Env)
    ensures var pay := PaymentCall(api, info, card, auth, fx, env);
            var s := RunPaymentSpec(api, info, card, auth, o, fx, env);
            s == CaptureDecision(info, pay.envelope, o, fx.Send(pay.request), env) &&
            s.fx.sent == fx.sent + [pay.request] &&
            pay.request.url == "https://" + api.Host() + PaymentsPath &&
            pay.request.body == env.prims.jsonEncode(PaymentPayload(info, card, auth))
  {
    var pay := PaymentCall(api, info, card, auth, fx, env);
    CaptureOutcome(info, pay.envelope, o, fx.Send(pay.request), env);
  }

  /** The transaction id is set only by a successful capture whose response has a
      non-empty `id`, and then to that id. */
  lemma TransactionIdOnlyFromResponse(info: OrderInfo, e: Envelope, o: OrderState,
                                      fx: Effects, env: Env)
    ensures var s := CaptureDecision(info, e, o, fx, env);
            var id := Field(e.body, "id");
            (s.order.transactionId != o.transactionId ==>
               s.result.Success? && !Empty(id) && s.order.transactionId == ToStr(id)) &&
            (s.result.Success? && !Empty(id) ==> s.order.transactionId == ToStr(id)) &&
            (s.result.Success? && Empty(id) ==> s.order.transactionId == o.transactionId)
  {
    NonEmptyOrBlank(Field(e.body, "id"));
  }

  /** Scenario: a payment response `{status: "DECLINED"}` fails the order and sets no
      transaction id. */
  lemma DeclinedPaymentFails(info: OrderInfo, e: Envelope, o: OrderState, fx: Effects, env: Env)
    requires e.ok && e.body == Arr(map[Name("status") := Str("DECLINED")])
    ensures var s := CaptureDecision(info, e, o, fx, env);
            s.result == Failure(CheckoutPage) && s.order.status == "failed" &&
            s.order.transactionId == o.transactionId && s.order.paid == o.paid
  {
    assert |ToUpper("DECLINED")| == 8;
    assert !IsApproved(Field(e.body, "status"));
    CaptureOutcome(info, e, o, fx, env);
  }

  // ---------------------------------------------------------------------------
  // process_payment

  /** A failed setup ends the checkout: the setup request is the only one sent, so there is
      no enrollment call, and the order fails through `payment_error`. */
  lemma SetupFailureStops(api: Client, code: string, info: OrderInfo, key: string,
                          post: map<string, string>, o: OrderState, fx: Effects, env: Env)
    requires !SetupCall(api, info, fx, env).envelope.ok
    ensures var setup := SetupCall(api, info, fx, env);
            var s := ProcessPaymentSpec(api, code, info, key, post, o, fx, env);
            s.fx.sent == fx.sent + [setup.request] &&
            setup.request.url == "https://" + api.Host() + SetupPath &&
            s == PaymentErrorSpec(o, fx.Send(setup.request), SetupFailedMessage, setup.envelope,
                                  env.sanitize)
  {
  }

  /** After a successful setup the enrollment call carries the card as posted, the setup
      reference id ("" when the setup response has none), the order's callback URL and the
      configured challenge code, and the checkout goes on with its answer. */
  lemma SetupSuccessEnrolls(api: Client, code: string, info: OrderInfo, key: string,
                            post: map<string, string>, o: OrderState, fx: Effects, env: Env)
    requires SetupCall(api, info, fx, env).envelope.ok
    ensures var setup := SetupCall(api, info, fx, env);
            var fx1 := fx.Send(setup.request);
            var enroll := EnrollmentCall(api, code, info, key, CardFromPost(post),
                                         setup.envelope.body, fx1, env);
            enroll.request.url == "https://" + api.Host() + AuthenticationsPath &&
            enroll.request.body ==
              env.prims.jsonEncode(EnrollmentPayload(info, CardFromPost(post),
                                                     SetupId(setup.envelope.body),
                                                     env.termUrl(info.id, key), code)) &&
            ProcessPaymentSpec(api, code, info, key, post, o, fx, env) ==
              EnrollmentDecision(api, info, CardFromPost(post), enroll.envelope, o,
                                 fx1.Send(enroll.request), env)
  {
  }

  /** A failed enrollment ends the checkout through `payment_error`: no card or
      authentication metadata is written and no payment is attempted. */
  lemma EnrollmentFailureStops(api: Client, info: OrderInfo, card: Value, e: Envelope,
                               o: OrderState, fx: Effects, env: Env)
    requires !e.ok
    ensures var s := EnrollmentDecision(api, info, card, e, o, fx, env);
            s == PaymentErrorSpec(o, fx, EnrollmentFailedMessage, e, env.sanitize) &&
            s.fx.sent == fx.sent && s.order.meta == o.meta && s.order.paid == o.paid
  {
  }

  /** When the enrollment response requires a challenge (the flag is exactly "Y"), the
      order is put on hold with the card, the response and the challenge flag stored, the
      buyer is sent to the order's payment page, and no payment request is sent in this
      invocation. */
  lemma ChallengeParksOrder(api: Client, info: OrderInfo, card: Value, e: Envelope,
                            o: OrderState, fx: Effects, env: Env)
    requires e.ok && ChallengeRequired(e.body)
    ensures var encoded := Str(env.prims.jsonEncode(e.body));
            var s := EnrollmentDecision(api, info, card, e, o, fx, env);
            s.result == Success(PayForOrderPage(info.id)) &&
            s.order.status == "on-hold" &&
            s.order.Meta(ChallengeRequiredKey) == Str("yes") &&
            s.order.Meta(ChallengePayloadKey) == encoded &&
            s.order.Meta(AuthInitialKey) == encoded &&
            s.order.Meta(CardKey) == card &&
            s.fx == fx &&
            s.order.transactionId == o.transactionId && s.order.paid == o.paid
  {
  }

  /** Without a challenge the checkout captures at once, with the enrollment response as
      the authentication evidence, after storing the card and that response: the same
      step whatever the `veresEnrolled` classification ("N", "U", "" or any other). */
  lemma NoChallengeCaptures(api: Client, info: OrderInfo, card: Value, e: Envelope,
                            o: OrderState, fx: Effects, env: Env)
    requires e.ok && !ChallengeRequired(e.body)
    ensures var o1 := o.WithMeta(CardKey, card)
                       .WithMeta(AuthInitialKey, Str(env.prims.jsonEncode(e.body)));
            EnrollmentDecision(api, info, card, e, o, fx, env)
              == RunPaymentSpec(api, info, card, e.body, o1, fx, env)
  {
  }

  /** Scenario: an enrollment response `{challengeRequired: "N", veresEnrolled: "N"}` goes
      straight to the payment call, which carries the payment body built from that
      response. */
  lemma NotEnrolledGoesToPayment(api: Client, info: OrderInfo, card: Value, e: Envelope,
                                 o: OrderState, fx: Effects, env: Env)
    requires e.ok
    requires e.body == Arr(map[Name("consumerAuthenticationInformation") := Arr(map[
               Name("challengeRequired") := Str("N"), Name("veresEnrolled") := Str("N")])])
    ensures var s := EnrollmentDecision(api, info, card, e, o, fx, env);
            |s.fx.sent| == |fx.sent| + 1 &&
            s.fx.sent[|fx.sent|].url == "https://" + api.Host() + PaymentsPath &&
            s.fx.sent[|fx.sent|].body == env.prims.jsonEncode(PaymentPayload(info, card, e.body))
  {
    assert Field(AuthInfo(e.body), "challengeRequired") == Str("N");
    NoChallengeCaptures(api, info, card, e, o, fx, env);
    var o1 := o.WithMeta(CardKey, card).WithMeta(AuthInitialKey, Str(env.prims.jsonEncode(e.body)));
    RunPaymentSendsOnePayment(api, info, card, e.body, o1, fx, env);
  }

  // ---------------------------------------------------------------------------
  // handle_term_callback

  /** Without a stored authentication transaction id the callback fails closed: the order
      fails, no request at all is sent (neither validation nor payment), and the buyer is
      sent to the order-received page. */
  lemma MissingTransactionIdFailsClosed(api: Client, info: OrderInfo, post: map<string, string>,
                                        o: OrderState, fx: Effects, env: Env)
    requires TransactionIdOf(StoredInitial(o, env.prims)) == Str("")
    ensures var s := CallbackSpec(api, info, post, o, fx, env);
            s.fx == fx && s.result == Redirect(OrderReceivedPage(info.id)) &&
            s.order == o.WithStatus("failed", MissingTransactionNote)
  {
  }

  /** The same holds for an order on which no authentication response was ever stored (a
      callback before the checkout got that far): the meta reads as "", which decodes to
      nothing. */
  lemma UnrecordedCallbackFailsClosed(api: Client, info: OrderInfo, post: map<string, string>,
                                      o: OrderState, fx: Effects, env: Env)
    requires AuthInitialKey !in o.meta && DecodesEmptyToNull(env.prims)
    ensures var s := CallbackSpec(api, info, post, o, fx, env);
            s.fx == fx && s.result == Redirect(OrderReceivedPage(info.id)) &&
            s.order == o.WithStatus("failed", MissingTransactionNote)
  {
    assert StoredInitial(o, env.prims) == Null;
    MissingTransactionIdFailsClosed(api, info, post, o, fx, env);
  }

  /** With a stored transaction id the callback validates exactly that id with the posted
      `cres`/`PaRes`, and goes on with the validation's answer. */
  lemma CallbackValidatesStoredId(api: Client, info: OrderInfo, post: map<string, string>,
                                  o: OrderState, fx: Effects, env: Env)
    requires TransactionIdOf(StoredInitial(o, env.prims)) != Str("")
    ensures var tx := TransactionIdOf(StoredInitial(o, env.prims));
            var v := ValidationCall(api, info, tx, post, fx, env);
            v.request.url == "https://" + api.Host() + AuthenticationsPath &&
            v.request.body == env.prims.jsonEncode(ValidationPayload(info, tx, ChallengeData(post))) &&
            CallbackSpec(api, info, post, o, fx, env) ==
              ValidationDecision(api, info, v.envelope, o, fx.Send(v.request), env)
  {
  }

  /** A failed validation fails the order through `payment_error`, sends the buyer back to
      the checkout and sends no payment request. */
  lemma ValidationFailureNoPayment(api: Client, info: OrderInfo, e: Envelope, o: OrderState,
                                   fx: Effects, env: Env)
    requires !e.ok
    ensures var s := ValidationDecision(api, info, e, o, fx, env);
            s.fx.sent == fx.sent && s.result == Redirect(CheckoutPage) &&
            s.order == o.WithStatus("failed", ValidationFailedMessage + ErrorDetail(e.body, env.sanitize)) &&
            s.order.paid == o.paid && s.order.meta == o.meta
  {
  }

  /** A successful validation captures with the stored card and the validation response
      as evidence; the buyer follows the capture's redirect. */
  lemma ValidationSuccessCaptures(api: Client, info: OrderInfo, e: Envelope, o: OrderState,
                                  fx: Effects, env: Env)
    requires e.ok
    ensures var o1 := o.WithMeta(AuthFinalKey, Str(env.prims.jsonEncode(e.body)))
                       .WithMeta(ChallengeRequiredKey, Str("no"));
            var pay := RunPaymentSpec(api, info, o.Meta(CardKey), e.body, o1, fx, env);
            ValidationDecision(api, info, e, o, fx, env)
              == Step(Redirect(pay.result.redirect), pay.order, pay.fx)
  {
    var o1 := o.WithMeta(AuthFinalKey, Str(env.prims.jsonEncode(e.body)))
               .WithMeta(ChallengeRequiredKey, Str("no"));
    assert o1.Meta(CardKey) == o.Meta(CardKey);
  }

  /** After a successful validation, whatever the capture decides, the order keeps the
      final authentication response and the challenge flag "no", and exactly one request
      (the payment) has been sent. */
  lemma ValidationSuccessRecords(api: Client, info: OrderInfo, e: Envelope, o: OrderState,
                                 fx: Effects, env: Env)
    requires e.ok
    ensures var s := ValidationDecision(api, info, e, o, fx, env);
            s.order.Meta(AuthFinalKey) == Str(env.prims.jsonEncode(e.body)) &&
            s.order.Meta(ChallengeRequiredKey) == Str("no") &&
            |s.fx.sent| == |fx.sent| + 1
  {
    var o1 := o.WithMeta(AuthFinalKey, Str(env.prims.jsonEncode(e.body)))
               .WithMeta(ChallengeRequiredKey, Str("no"));
    assert o1.Meta(AuthFinalKey) == Str(env.prims.jsonEncode(e.body));
    assert o1.Meta(ChallengeRequiredKey) == Str("no");
    ValidationSuccessCaptures(api, info, e, o, fx, env);
    RunPaymentKeepsOtherMeta(api, info, o.Meta(CardKey), e.body, o1, fx, env);
  }

  /** The capture sends one request and, of the order's metadata, writes at most the
      payment response. */
  lemma RunPaymentKeepsOtherMeta(api: Client, info: OrderInfo, card: Value, auth: Value,
                                 o: OrderState, fx: Effects, env: Env)
    ensures var s := RunPaymentSpec(api, info, card, auth, o, fx, env);
            |s.fx.sent| == |fx.sent| + 1 &&
            forall k :: k != PaymentResponseKey ==> s.order.Meta(k) == o.Meta(k)
  {
    RunPaymentSendsOnePayment(api, info, card, auth, o, fx, env);
    var pay := PaymentCall(api, info, card, auth, fx, env);
    CaptureOutcome(info, pay.envelope, o, fx.Send(pay.request), env);
  }

  // ---------------------------------------------------------------------------
  // From the checkout to the callback

  /** After a checkout that parked the order for a challenge, the order's state is what the
      next two requests need, provided JSON encoding round-trips the enrollment response:
      the payment page shows the step-up form of that response, the callback finds that
      response's transaction id, and the card captured later is the card of the checkout. */
  lemma ChallengeStateCarriesOver(api: Client, info: OrderInfo, card: Value, e: Envelope,
                                  o: OrderState, fx: Effects, env: Env)
    requires e.ok && ChallengeRequired(e.body) && JsonRoundTrips(env.prims, e.body)
    ensures var s := EnrollmentDecision(api, info, card, e, o, fx, env);
            ReceiptFor(s.order, env.prims) == ChallengeView(e.body) &&
            TransactionIdOf(StoredInitial(s.order, env.prims)) == TransactionIdOf(e.body) &&
            s.order.Meta(CardKey) == card
  {
    ChallengeParksOrder(api, info, card, e, o, fx, env);
  }

  /** Scenario: an enrollment response requiring a challenge with step-up URL
      "https://issuer/step" and access token "tok123" leads to a form that posts
      `JWT=tok123` to "https://issuer/step". */
  lemma StepUpWithAccessToken(api: Client, info: OrderInfo, card: Value, e: Envelope,
                              o: OrderState, fx: Effects, env: Env)
    requires e.ok && JsonRoundTrips(env.prims, e.body)
    requires e.body == Arr(map[Name("consumerAuthenticationInformation") := Arr(map[
               Name("challengeRequired") := Str("Y"),
               Name("stepUpUrl") := Str("https://issuer/step"),
               Name("accessToken") := Str("tok123")])])
    ensures var s := EnrollmentDecision(api, info, card, e, o, fx, env);
            s.result == Success(PayForOrderPage(info.id)) &&
            ReceiptFor(s.order, env.prims) == ChallengeForm(Str("https://issuer/step"), Str("tok123"))
  {
    StepUpView(e.body);
    ChallengeParksOrder(api, info, card, e, o, fx, env);
    ChallengeStateCarriesOver(api, info, card, e, o, fx, env);
  }

  /** The enrollment response of the step-up example asks for a challenge and shows the
      form that posts its access token to its step-up URL. */
  lemma StepUpView(body: Value)
    requires body == Arr(map[Name("consumerAuthenticationInformation") := Arr(map[
               Name("challengeRequired") := Str("Y"),
               Name("stepUpUrl") := Str("https://issuer/step"),
               Name("accessToken") := Str("tok123")])])
    ensures ChallengeRequired(body)
    ensures ChallengeView(body) == ChallengeForm(Str("https://issuer/step"), Str("tok123"))
  {
    assert Field(AuthInfo(body), "challengeRequired") == Str("Y");
    assert Field(AuthInfo(body), "accessToken") == Str("tok123");
  }

  // ---------------------------------------------------------------------------
  // One authentication session per order: not enforced

  /** A checkout attempt that captures without a challenge leaves the challenge flag and
      payload of an earlier, abandoned attempt where they were: the order's payment page
      still shows that earlier step-up form. */
  lemma StaleChallengeSurvives(api: Client, info: OrderInfo, card: Value, e: Envelope,
                               o: OrderState, fx: Effects, env: Env)
    requires e.ok && !ChallengeRequired(e.body)
    ensures var s := EnrollmentDecision(api, info, card, e, o, fx, env);
            s.order.Meta(ChallengeRequiredKey) == o.Meta(ChallengeRequiredKey) &&
            s.order.Meta(ChallengePayloadKey) == o.Meta(ChallengePayloadKey) &&
            ReceiptFor(s.order, env.prims) == ReceiptFor(o, env.prims)
  {
    NoChallengeCaptures(api, info, card, e, o, fx, env);
    var o1 := o.WithMeta(CardKey, card).WithMeta(AuthInitialKey, Str(env.prims.jsonEncode(e.body)));
    RunPaymentKeepsOtherMeta(api, info, card, e.body, o1, fx, env);
  }

  /** The callback checks neither the challenge flag nor whether the order is already
      paid: whenever a transaction id is stored and the validation call answers `ok`, a
      payment request follows, so a callback replayed on a paid order captures again. */
  lemma ReplayedCallbackCapturesAgain(api: Client, info: OrderInfo, post: map<string, string>,
                                      o: OrderState, fx: Effects, env: Env)
    requires TransactionIdOf(StoredInitial(o, env.prims)) != Str("")
    requires ValidationCall(api, info, TransactionIdOf(StoredInitial(o, env.prims)), post, fx,
                            env).envelope.ok
    ensures var s := CallbackSpec(api, info, post, o, fx, env);
            |s.fx.sent| == |fx.sent| + 2 &&
            s.fx.sent[|fx.sent| + 1].url == "https://" + api.Host() + PaymentsPath
  {
    var tx := TransactionIdOf(StoredInitial(o, env.prims));
    var v := ValidationCall(api, info, tx, post, fx, env);
    var fx1 := fx.Send(v.request);
    CallbackValidatesStoredId(api, info, post, o, fx, env);
    ValidationSuccessCaptures(api, info, v.envelope, o, fx1, env);
    var o1 := o.WithMeta(AuthFinalKey, Str(env.prims.jsonEncode(v.envelope.body)))
               .WithMeta(ChallengeRequiredKey, Str("no"));
    RunPaymentSendsOnePayment(api, info, o.Meta(CardKey), v.envelope.body, o1, fx1, env);
  }
}
