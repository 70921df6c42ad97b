/** The gateway object `WC_Gateway_Cybersource_3DS_REST`: its settings, the client it
    builds from them, and the checkout steps carried out on an `Order` in place. Each step
    is proved to leave the order and the effects exactly as its function in `Checkout`
    says. */
module Gateway {
  import opened Php
  import opened Primitives
  import opened Api
  import opened Host
  import opened Checkout

  /** The defaults of the settings form (`init_form_fields`); a field without one
      defaults to "". */
  function FormDefault(k: string): string {
    if k == "enabled" then "no"
    else if k == "title" then "Credit/Debit Card (3DS)"
    else if k == "description" then "Pay securely using 3D Secure 2.x."
    else if k == "environment" then "sandbox"
    else if k == "challenge_code" then "04"
    else if k == "debug" then "yes"
    else ""
  }

  /** `get_option($k, $emptyValue)`: the saved setting, else the form default; an empty
      result gives way to `$emptyValue` when one is passed. */
  function GetOption(settings: map<string, string>, k: string, emptyValue: Option<string>)
    : (v: string)
    ensures k in settings && settings[k] != "" ==> v == settings[k]
    ensures k !in settings && FormDefault(k) != "" ==> v == FormDefault(k)
    ensures emptyValue.Some? && emptyValue.value != "" ==> v != ""
  {
    var saved := if k in settings then settings[k] else FormDefault(k);
    if emptyValue.Some? && saved == "" then emptyValue.value else saved
  }

  /** When the saved setting, or else the form default, is "", `get_option` gives the
      fallback passed, or "" when none is passed. */
  lemma GetOptionFallback(settings: map<string, string>, k: string, emptyValue: Option<string>)
    requires (if k in settings then settings[k] else FormDefault(k)) == ""
    ensures emptyValue.Some? ==> GetOption(settings, k, emptyValue) == emptyValue.value
    ensures emptyValue.None? ==> GetOption(settings, k, emptyValue) == ""
  {
  }

  /** The client configuration the gateway's constructor passes on. */
  function ClientConfig(settings: map<string, string>): (config: map<string, Value>)
    ensures Given(config, "merchant_id") <==> !Blank(GetOption(settings, "merchant_id", None))
    ensures Given(config, "key_id") <==> !Blank(GetOption(settings, "key_id", None))
    ensures Given(config, "secret_key") <==> !Blank(GetOption(settings, "secret_key", None))
    ensures IsSet(config, "environment") &&
            config["environment"] == Str(GetOption(settings, "environment", Some("sandbox")))
    ensures ("debug" in config && !Empty(config["debug"])) <==> GetOption(settings, "debug", None) == "yes"
  {
    map[
      "merchant_id" := Str(GetOption(settings, "merchant_id", None)),
      "key_id" := Str(GetOption(settings, "key_id", None)),
      "secret_key" := Str(GetOption(settings, "secret_key", None)),
      "environment" := Str(GetOption(settings, "environment", Some("sandbox"))),
      "debug" := Bool(GetOption(settings, "debug", None) == "yes")]
  }

  /** What a client built from `ClientConfig(settings)` reports, in terms of the settings. */
  lemma ClientOfSettings(settings: map<string, string>, c: Client)
    requires c.IsConfigured() <==>
               Given(ClientConfig(settings), "merchant_id") && Given(ClientConfig(settings), "key_id") &&
               Given(ClientConfig(settings), "secret_key")
    requires c.environment == ClientConfig(settings)["environment"]
    requires c.debug == ("debug" in ClientConfig(settings) && !Empty(ClientConfig(settings)["debug"]))
    ensures c.IsConfigured() <==>
              !Blank(GetOption(settings, "merchant_id", None)) &&
              !Blank(GetOption(settings, "key_id", None)) &&
              !Blank(GetOption(settings, "secret_key", None))
    ensures c.Host() == ProductionHost <==>
              GetOption(settings, "environment", Some("sandbox")) == "production"
    ensures c.debug <==> GetOption(settings, "debug", None) == "yes"
  {
  }

  /** `new WC_Cybersource_REST_Client([...])` as the gateway's constructor calls it. */
  method NewClient(settings: map<string, string>) returns (c: Client)
    ensures c.IsConfigured() <==>
              !Blank(GetOption(settings, "merchant_id", None)) &&
              !Blank(GetOption(settings, "key_id", None)) &&
              !Blank(GetOption(settings, "secret_key", None))
    ensures c.Host() == ProductionHost <==>
              GetOption(settings, "environment", Some("sandbox")) == "production"
    ensures c.debug <==> GetOption(settings, "debug", None) == "yes"
  {
    c := new Client(ClientConfig(settings));
    ClientOfSettings(settings, c);
  }

  /** `absint($_GET['order_id'])`, 0 when absent. */
  function CallbackOrderId(query: map<string, string>): nat {
    if "order_id" in query then Absint(Str(query["order_id"])) else 0
  }

  /** `$_GET['key']`, "" when absent. */
  function CallbackKey(query: map<string, string>): string {
    Posted(query, "key")
  }

  class Gateway {
    const api: Client
    /** The challenge code sent with every enrollment check. */
    const challengeCode: string
    var sent: seq<HttpRequest>
    var notices: seq<string>
    var cartEmptied: bool

    function Fx(): Effects
      reads this
    {
      Effects(sent, notices, cartEmptied)
    }

    /** Builds the client from the saved settings: the gateway is configured exactly when
        the merchant id, key id and secret are set to something other than blanks; the
        production host is used exactly for the environment "production"; the challenge
        code is never empty ("04" unless set). */
    constructor(settings: map<string, string>)
      ensures api.IsConfigured() <==>
                !Blank(GetOption(settings, "merchant_id", None)) &&
                !Blank(GetOption(settings, "key_id", None)) &&
                !Blank(GetOption(settings, "secret_key", None))
      ensures api.Host() == ProductionHost <==>
                GetOption(settings, "environment", Some("sandbox")) == "production"
      ensures api.debug <==> GetOption(settings, "debug", None) == "yes"
      ensures challengeCode == GetOption(settings, "challenge_code", Some("04"))
      ensures challengeCode != ""
      ensures Fx() == Effects([], [], false)
    {
      var client := NewClient(settings);
      api := client;
      challengeCode := GetOption(settings, "challenge_code", Some("04"));
      sent := [];
      notices := [];
      cartEmptied := false;
    }

    /** `validate_fields`: accept only a complete card on a configured gateway; otherwise
        show the notice of the first failing check. */
    method ValidateFields(post: map<string, string>) returns (ok: bool)
      modifies this
      ensures ok <==> CardFieldsPresent(post) && api.IsConfigured()
      ensures Fx() == match FieldsVerdict(post, api.IsConfigured())
                      case None => old(Fx())
                      case Some(m) => old(Fx()).Notice(m)
    {
      var number := StripWhitespace(Posted(post, NumberField));
      var month := Posted(post, MonthField);
      var year := Posted(post, YearField);
      var cvc := Posted(post, CvcField);
      if number == "" || month == "" || year == "" || cvc == "" {
        notices := notices + [MissingCardNotice];
        return false;
      }
      if !api.IsConfigured() {
        notices := notices + [NotConfiguredNotice];
        return false;
      }
      return true;
    }

    /** `payment_error` */
    method PaymentError(order: Order, message: string, response: Envelope, env: Env)
      returns (r: CheckoutResult)
      modifies this, order
      ensures Step(r, order.State(), Fx())
              == PaymentErrorSpec(old(order.State()), old(Fx()), message, response, env.sanitize)
    {
      var details := ErrorDetail(response.body, env.sanitize);
      order.UpdateStatus("failed", message + details);
      notices := notices + [message + details];
      r := Failure(CheckoutPage);
    }

    /** `run_payment_after_auth`: the capture call, then the decision on its answer. */
    method RunPaymentAfterAuth(order: Order, card: Value, auth: Value, env: Env)
      returns (r: CheckoutResult)
      modifies this, order
      ensures Step(r, order.State(), Fx())
              == RunPaymentSpec(api, order.info, card, auth, old(order.State()), old(Fx()), env)
    {
      var payment := PaymentCall(api, order.info, card, auth, Fx(), env);
      sent := sent + [payment.request];
      r := SettleCapture(order, payment.envelope, env);
    }

    /** The rest of `run_payment_after_auth` once the capture call answered with `e`: store
        the response, then complete the payment or fail. */
    method SettleCapture(order: Order, e: Envelope, env: Env) returns (r: CheckoutResult)
      modifies this, order
      ensures Step(r, order.State(), Fx())
              == CaptureDecision(order.info, e, old(order.State()), old(Fx()), env)
    {
      if !e.ok {
        r := PaymentError(order, CaptureFailedMessage, e, env);
        return;
      }
      var decision := NonEmptyOr(Field(e.body, "status"), Str(""));
      var reasonCode := NonEmptyOr(Field(Field(e.body, "processorInformation"), "responseCode"), Str(""));
      order.UpdateMeta(PaymentResponseKey, Str(env.prims.jsonEncode(e.body)));
      if IsApproved(decision) {
        var txId := NonEmptyOr(Field(e.body, "id"), Str(""));
        if txId != Str("") {
          order.SetTransactionId(ToStr(txId));
        }
        order.PaymentComplete(env.paidStatus);
        order.AddNote(SuccessNotePrefix + ToStr(reasonCode));
        cartEmptied := true;
        r := Success(ReturnPage(order.info.id));
        return;
      }
      r := PaymentError(order, DeclinedMessage, e, env);
    }

    /** `process_payment`: read the card, run the setup call, then go on with its answer. */
    method ProcessPayment(order: Order, post: map<string, string>, env: Env)
      returns (r: CheckoutResult)
      modifies this, order
      ensures Step(r, order.State(), Fx())
              == ProcessPaymentSpec(api, challengeCode, order.info, order.key, post,
                                    old(order.State()), old(Fx()), env)
    {
      var card := CardFromPost(post);
      var setup := SetupCall(api, order.info, Fx(), env);
      sent := sent + [setup.request];
      r := AfterSetup(order, card, setup.envelope, env);
    }

    /** `process_payment` once the setup call answered with `e`: fail, or run the
        enrollment check with the setup's reference id and the order's return URL. */
    method AfterSetup(order: Order, card: Value, e: Envelope, env: Env)
      returns (r: CheckoutResult)
      modifies this, order
      ensures Step(r, order.State(), Fx())
              == SetupDecision(api, challengeCode, order.info, order.key, card, e,
                               old(order.State()), old(Fx()), env)
    {
      if !e.ok {
        r := PaymentError(order, SetupFailedMessage, e, env);
        return;
      }
      var enrollment := EnrollmentCall(api, challengeCode, order.info, order.key, card, e.body,
                                       Fx(), env);
      sent := sent + [enrollment.request];
      r := SettleEnrollment(order, card, enrollment.envelope, env);
    }

    /** `process_payment` once the enrollment check answered with `e`: fail, or store the
        card and the response, then park the order for a challenge or capture at once. */
    method SettleEnrollment(order: Order, card: Value, e: Envelope, env: Env)
      returns (r: CheckoutResult)
      modifies this, order
      ensures Step(r, order.State(), Fx())
              == EnrollmentDecision(api, order.info, card, e, old(order.State()), old(Fx()), env)
    {
      if !e.ok {
        r := PaymentError(order, EnrollmentFailedMessage, e, env);
        return;
      }
      var body := e.body;
      var challengeRequired := ChallengeRequired(body);
      var enrolled := Enrolled(body);
      order.UpdateMeta(CardKey, card);
      order.UpdateMeta(AuthInitialKey, Str(env.prims.jsonEncode(body)));
      if challengeRequired {
        order.UpdateStatus("on-hold", ChallengeStartedNote);
        order.UpdateMeta(ChallengeRequiredKey, Str("yes"));
        order.UpdateMeta(ChallengePayloadKey, Str(env.prims.jsonEncode(body)));
        return Success(PayForOrderPage(order.info.id));
      }
      if enrolled == Str("N") || enrolled == Str("U") || enrolled == Str("") {
        r := RunPaymentAfterAuth(order, card, body, env);
        return;
      }
      r := RunPaymentAfterAuth(order, card, body, env);
    }

    /** `receipt_page`: the page shown for the order id, read from the stored flag and
        challenge payload. */
    function ReceiptPage(orders: map<nat, Order>, orderId: nat, prims: Primitives)
      : (v: ReceiptView)
      reads orders.Values
      ensures Find(orders, orderId) == null <==> v == InvalidOrder
      ensures Find(orders, orderId) != null ==> v == ReceiptFor(Find(orders, orderId).State(), prims)
    {
      var order := Find(orders, orderId);
      if order == null then InvalidOrder
      else ReceiptFor(order.State(), prims)
    }

    /** `handle_term_callback`: an unknown order or a wrong key is refused with 400 before
        anything else happens; otherwise the order found goes through the callback step
        and no other order changes. */
    method HandleTermCallback(orders: map<nat, Order>, query: map<string, string>,
                              post: map<string, string>, env: Env)
      returns (reply: HttpReply)
      modifies this, orders.Values
      ensures var o := Find(orders, CallbackOrderId(query));
              o == null || CallbackKey(query) != o.key ==>
                reply == Status(400, "invalid_order") && Fx() == old(Fx()) &&
                forall x :: x in orders.Values ==> x.State() == old(x.State())
      ensures var o := Find(orders, CallbackOrderId(query));
              o != null && CallbackKey(query) == o.key ==>
                Step(reply, o.State(), Fx())
                  == CallbackSpec(api, o.info, post, old(o.State()), old(Fx()), env) &&
                forall x :: x in orders.Values && x != o ==> x.State() == old(x.State())
    {
      var order := Find(orders, CallbackOrderId(query));
      if order == null || CallbackKey(query) != order.key {
        return Status(400, "invalid_order");
      }
      reply := Callback(order, post, env);
    }

    /** `handle_term_callback` for the order found: require the stored authentication
        transaction id, validate the issuer's result, then go on with the answer. */
    method Callback(order: Order, post: map<string, string>, env: Env) returns (reply: HttpReply)
      modifies this, order
      ensures Step(reply, order.State(), Fx())
              == CallbackSpec(api, order.info, post, old(order.State()), old(Fx()), env)
    {
      var txId := TransactionIdOf(StoredInitial(order.State(), env.prims));
      if txId == Str("") {
        order.UpdateStatus("failed", MissingTransactionNote);
        return Redirect(OrderReceivedPage(order.info.id));
      }
      var auth := ValidationCall(api, order.info, txId, post, Fx(), env);
      sent := sent + [auth.request];
      reply := SettleValidation(order, auth.envelope, env);
    }

    /** `handle_term_callback` once the validation call answered with `e`: fail, or store
        the final response, clear the challenge flag and capture with the stored card. */
    method SettleValidation(order: Order, e: Envelope, env: Env) returns (reply: HttpReply)
      modifies this, order
      ensures Step(reply, order.State(), Fx())
              == ValidationDecision(api, order.info, e, old(order.State()), old(Fx()), env)
    {
      if !e.ok {
        var failed := PaymentError(order, ValidationFailedMessage, e, env);
        return Redirect(CheckoutPage);
      }
      order.UpdateMeta(AuthFinalKey, Str(env.prims.jsonEncode(e.body)));
      order.UpdateMeta(ChallengeRequiredKey, Str("no"));
      var card := order.State().Meta(CardKey);
      var result := RunPaymentAfterAuth(order, card, e.body, env);
      reply := Redirect(result.redirect);
    }
  }
}
