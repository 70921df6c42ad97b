# Cybersource REST 3-D Secure gateway: a Dafny model

This project models the core of a WooCommerce payment gateway that takes card payments
through the Cybersource REST API with EMV 3-D Secure 2.x authentication:

- **The checkout orchestrator.** This is `WC_Gateway_Cybersource_3DS_REST`, and its steps are:
  - `validate_fields`;
  - `process_payment`, which runs authentication setup, then the enrollment check, then either parks the order for an issuer challenge or captures at once;
  - `receipt_page`, which chooses the step-up form;
  - `handle_term_callback`, the issuer's return, which checks the order key, requires the stored authentication transaction id, validates, then captures;
  - `run_payment_after_auth`, the capture and its decision;
  - `payment_error`;
  - `get_card_from_post`.

  The order's persisted state is its status, metadata, transaction id, notes and paid flag. It lives in a `Host.Order` object that the gateway's methods update in place. Each method is proved to leave the order and the gateway's effects exactly as a function in `Checkout` describes. Those effects are the requests sent, the notices shown and the cart emptied. The lemmas in `CheckoutProperties` then state routing, fail-closed behaviour and "nothing else changes" over those functions, for every envelope the processor may answer with.
- **The signed request client.** This is `CS3DS_API`, and it covers:
  - the constructor and `is_configured`;
  - the four payload builders;
  - host selection;
  - the `Digest` header of RFC 3230 (section 4.3.2);
  - the HTTP Signatures string and `Signature` header of draft-cavage-http-signatures (sections 2.1 and 2.3), including the secret-decoding fallback;
  - the classification of a processor answer into the `{ok, status, body}` envelope.
- **The webhook receiver.** This is `CS3DS_Webhook::handle`. It rejects a body that does not decode to an array and derives the order id from the client reference. It annotates that order only if it exists, and it answers 200 after every successful parse.

The modules are:
- `Php`: the PHP values and conversions the source relies on.
- `Primitives`: SHA-256, HMAC-SHA256, base64 and JSON as parameters.
- `Signing`, `Api`: the client.
- `Host`: orders, lookup, pages and replies.
- `Checkout`, `CheckoutProperties`: the steps as functions and their properties.
- `Gateway`: the gateway object.
- `Webhook`.

The outside world becomes parameters:
- SHA-256, HMAC-SHA256, base64 encode, strict base64 decode (an `Option`), `wp_json_encode` and `json_decode` are fields of a `Primitives` value.
- The network is a function from the request sent to a `Transport` answer: a response, or a transport error with its message.
- The clock gives the `Date` header for the n-th request of a run.
- `sanitize_text_field` on strings, the callback URL of an order and the status `payment_complete` gives an order are parameters of the environment.
- Two facts about `json_decode` are stated as preconditions of the lemmas that need them: it decodes what `wp_json_encode` produced, and it decodes "" to null.

## Model

| member | source | states |
|---|---|---|
| Php.NonEmptyOrBlank | includes/class-wc-gateway-cybersource-3ds.php:147-149 | `!empty($v) ? $v : ''` is `''` exactly when `$v` is empty, and `$v` itself otherwise |
| Php.NatToString | includes/class-cs3ds-api.php:32 | `(string)` of an order id is a non-empty run of decimal digits without a leading zero |
| Php.AbsintOfDecimal | includes/class-cs3ds-webhook.php:26 | `intval`/`absint` read back every decimal string `(string)` writes: the id sent as a reference code is the id found again |
| Php.StripWhitespace | includes/class-cs3ds-api.php:48 | `preg_replace('/\s+/', '', …)` leaves no whitespace, and is empty exactly when the input was all whitespace |
| Php.StripWhitespaceKeepsOthers | includes/class-cs3ds-api.php:48 | whitespace removal distributes over concatenation |
| Php.StripWhitespaceOfChar | includes/class-cs3ds-api.php:48 | a single character is dropped exactly when it is whitespace; with the concatenation lemma, the result is the non-whitespace characters of the input, in order |
| Php.Trim | includes/class-cs3ds-api.php:16-18 | `trim` returns a contiguous slice of its input with only trim characters cut before and after it, no trim character at either end, and is empty exactly for an all-blank string |
| Php.ToUpper | includes/class-wc-gateway-cybersource-3ds.php:290 | `strtoupper` maps each character to its ASCII upper case, keeping the length |
| Php.ToLower | includes/class-cs3ds-api.php:218 | `strtolower` maps each character to its ASCII lower case, keeping the length |
| Php.ToUpperMatchesIgnoringCase | includes/class-wc-gateway-cybersource-3ds.php:290 | comparing `strtoupper($s)` with an upper-case word is an ASCII case-insensitive comparison of `$s` with it |
| Php.ToLowerKeepsNewlines | includes/class-cs3ds-api.php:218 | lower-casing the resource adds or removes no line break and leaves no upper-case letter |
| Signing.SignatureStringLines | includes/class-cs3ds-api.php:218-222 | with single-line parts, the signature string is exactly five lines (request target with `post` and the lower-cased resource, host, date, digest, merchant id) and has no trailing newline |
| Signing.SplitJoin | includes/class-cs3ds-api.php:218-222 | cutting "\n"-joined single-line strings at the newlines gives the lines back, which is what makes the five-line layout unambiguous |
| Signing.SignatureStringInjective | includes/class-cs3ds-api.php:218-222 | equal signature strings sign the same host, date, digest, merchant id and lower-cased resource: changing any of them changes the signed string |
| Signing.SigningKey | includes/class-cs3ds-api.php:224-227 | the HMAC key is the strict base64 decoding of the secret when it succeeds, else the raw secret |
| Signing.SignatureHeaderInjective | includes/class-cs3ds-api.php:232-236 | the fixed `keyid="…", algorithm="HmacSHA256", headers="…", signature="…"` layout determines the key id (free of double quotes) and the signature |
| Api.Classify | includes/class-cs3ds-api.php:189-213 | a transport error gives `ok=false`, status 0 and `{message}`; otherwise the status is kept and `ok` holds iff 200 ≤ status < 300; a body that does not decode to an array becomes `{raw: <raw body>}` |
| Api.SetupPayload | includes/class-cs3ds-api.php:28-37 | the setup body holds only the client reference, whose code is the order id as a decimal string |
| Api.EnrollmentCard | includes/class-cs3ds-api.php:46-52 | the enrollment card is the number without whitespace and the two expiry fields as posted, with no security code |
| Api.EnrollmentAuthentication | includes/class-cs3ds-api.php:70-74 | the reference id, the return URL and the challenge code are passed through unchanged, and nothing else is added |
| Api.EnrollmentPayload | includes/class-cs3ds-api.php:39-78 | the enrollment body carries the client reference, the whitespace-free card number with the posted expiry, and the three authentication values unchanged |
| Api.ValidationPayload | includes/class-cs3ds-api.php:80-99 | the transaction id is always sent; `cres` and `pares` are present exactly when non-empty, then with their posted values; no other key is added |
| Api.EvidenceOf | includes/class-cs3ds-api.php:104-115 | the commerce indicator is the response's non-empty one, else "internet" |
| Api.EvidenceBlock | includes/class-cs3ds-api.php:152-157 | the evidence block holds exactly `cavv`, `xid` and `eciRaw` as read from the authentication response |
| Api.PaymentCard | includes/class-cs3ds-api.php:125-132 | the payment card is the whitespace-free number, the expiry and the security code as posted |
| Api.PaymentBase | includes/class-cs3ds-api.php:117-150 | the payment body always asks for capture with the chosen commerce indicator and the card, and carries the client reference |
| Api.PaymentPayload | includes/class-cs3ds-api.php:101-161 | capture is always true; the evidence block is present iff one of `cavv`, `xid`, `eciRaw` is non-empty, and then holds exactly those three values |
| Api.Client.constructor | includes/class-cs3ds-api.php:14-26 | the credentials are the trimmed settings ("" when unset); the environment defaults to "sandbox"; `is_configured` holds iff all three credentials are given |
| Api.Client.Host | includes/class-cs3ds-api.php:165 | the production host exactly for the environment "production", the test host for any other value |
| Api.Client.Outbound | includes/class-cs3ds-api.php:163-187 | the request goes to `https://<host><resource>` with the upper-cased method and a 45 s timeout; its `Digest` is `SHA-256=` + base64(sha256) of exactly the body sent; its `Signature` covers that digest, the host, the resource, the date and the merchant id |
| Api.Client.Request | includes/class-cs3ds-api.php:163-213 | one request is sent and its answer is classified into the envelope |
| Api.Client.CreateAuthenticationSetup | includes/class-cs3ds-api.php:28-37 | the setup call posts the setup body to the authentication-setups endpoint |
| Api.Client.CheckEnrollment | includes/class-cs3ds-api.php:39-78 | the enrollment call posts the enrollment body to the authentications endpoint |
| Api.Client.ValidateAuthentication | includes/class-cs3ds-api.php:80-99 | the validation call posts the validation body to the authentications endpoint |
| Api.Client.CreatePayment | includes/class-cs3ds-api.php:101-161 | the payment call posts the payment body to the payments endpoint |
| Api.Client.SignatureIgnoresMethod | includes/class-cs3ds-api.php:218 | requests that differ only in their method, or in the case of their resource, carry the same signature |
| Host.Order.UpdateStatus | includes/class-wc-gateway-cybersource-3ds.php:317 | `update_status` sets the status; the note is recorded only when the status actually changes; nothing else changes |
| Host.Order.UpdateMeta | includes/class-wc-gateway-cybersource-3ds.php:169-170 | `update_meta_data` writes one key and changes nothing else |
| Host.Order.AddNote | includes/class-wc-gateway-cybersource-3ds.php:296 | `add_order_note` appends one note and changes nothing else |
| Host.Order.SetTransactionId | includes/class-wc-gateway-cybersource-3ds.php:293 | `set_transaction_id` sets the transaction id and changes nothing else |
| Host.Order.PaymentComplete | includes/class-wc-gateway-cybersource-3ds.php:295 | `payment_complete` marks an order in status on-hold, pending, failed or cancelled paid and moves it to the host's paid status; any other order is left as it is |
| Host.Find | includes/class-wc-gateway-cybersource-3ds.php:230 | an order is found exactly for a positive id that the store holds |
| Checkout.FieldsVerdict | includes/class-wc-gateway-cybersource-3ds.php:113-128 | accepted iff the whitespace-free number, month, year and CVC are all non-empty and the client is configured; the card notice wins over the configuration notice |
| Checkout.CardFromPost | includes/class-wc-gateway-cybersource-3ds.php:326-334 | the card holds exactly the four posted fields, "" for a missing one |
| Checkout.AcceptedCardIsComplete | includes/class-wc-gateway-cybersource-3ds.php:113-118 | a card that passes `validate_fields` reaches both the enrollment and the payment call with a non-empty, whitespace-free number and non-empty expiry and CVC |
| Checkout.SetupId | includes/class-wc-gateway-cybersource-3ds.php:147-149 | the setup reference id is the response's non-empty `referenceId`, else "" |
| Checkout.ChallengeRequiredExactly | includes/class-wc-gateway-cybersource-3ds.php:166 | a challenge is required exactly when the flag is the string "Y" |
| Checkout.ApprovedIgnoringCase | includes/class-wc-gateway-cybersource-3ds.php:290 | a decision is approved iff it equals AUTHORIZED, PENDING or COMPLETED, ignoring ASCII case |
| Checkout.ErrorDetail | includes/class-wc-gateway-cybersource-3ds.php:310-315 | the detail is " - " and the sanitized `body.message` when non-empty, else " - " and the sanitized `body.details[0].reason` when non-empty, else ""; an array sanitizes to "" |
| Checkout.TransactionIdOf | includes/class-wc-gateway-cybersource-3ds.php:238-240 | the stored transaction id is the non-empty `authenticationTransactionId`, else "" |
| Checkout.ChallengeData | includes/class-wc-gateway-cybersource-3ds.php:248-251 | the issuer's result carries the posted `cres` and the posted `PaRes` under `pares` |
| Checkout.ChallengeView | includes/class-wc-gateway-cybersource-3ds.php:206-217 | missing parameters iff the step-up URL is empty or both the access token and `pareq` are; otherwise a form to the step-up URL whose JWT is the access token when non-empty, else `pareq` |
| Checkout.ReceiptFor | includes/class-wc-gateway-cybersource-3ds.php:200-217 | the plain processing page exactly when the challenge flag is not "yes"; otherwise the step-up view of the decoded stored payload |
| CheckoutProperties.PaymentErrorFailsOrder | includes/class-wc-gateway-cybersource-3ds.php:308-324 | `payment_error` fails the order with message and detail as the note (not repeated on an order already failed), shows the same text, returns a failure to the checkout and changes no metadata, transaction id, payment, cart or request |
| CheckoutProperties.ApprovedDecisionOfStatus | includes/class-wc-gateway-cybersource-3ds.php:282 | reading the status through `!empty(…) ? … : ''` does not change whether it is approved |
| CheckoutProperties.CaptureOutcome | includes/class-wc-gateway-cybersource-3ds.php:278-305 | success iff the call is `ok` and its status is approved; success completes the payment (paid and the host's paid status, from a status the host completes from), empties the cart and returns to the shop; failure sets `failed` and leaves payment, cart and transaction id; an `ok` answer is stored before the decision, a failed call stores nothing; no other metadata changes; no further request |
| CheckoutProperties.RunPaymentSendsOnePayment | includes/class-wc-gateway-cybersource-3ds.php:275-280 | `run_payment_after_auth` sends exactly the payment call, with the payment body of the card and the authentication response, and decides on its answer |
| CheckoutProperties.RunPaymentKeepsOtherMeta | includes/class-wc-gateway-cybersource-3ds.php:275-306 | the capture sends one request and writes no metadata except the payment response |
| CheckoutProperties.TransactionIdOnlyFromResponse | includes/class-wc-gateway-cybersource-3ds.php:291-294 | the transaction id changes only on success with a non-empty `id`, and then becomes that id |
| CheckoutProperties.DeclinedPaymentFails | includes/class-wc-gateway-cybersource-3ds.php:290-305 | a `DECLINED` payment fails the order, sets no transaction id and does not complete the payment |
| CheckoutProperties.SetupFailureStops | includes/class-wc-gateway-cybersource-3ds.php:143-146 | a failed setup is the only request sent (no enrollment call) and ends in `payment_error` |
| CheckoutProperties.SetupSuccessEnrolls | includes/class-wc-gateway-cybersource-3ds.php:147-157 | after a successful setup the enrollment call carries the posted card, the setup reference id ("" when missing), the callback URL and the challenge code |
| CheckoutProperties.EnrollmentFailureStops | includes/class-wc-gateway-cybersource-3ds.php:159-161 | a failed enrollment ends in `payment_error` with no metadata written and no payment sent |
| CheckoutProperties.ChallengeParksOrder | includes/class-wc-gateway-cybersource-3ds.php:166-183 | a required challenge puts the order on hold, stores card, response, flag "yes" and payload, redirects to the order's payment page and sends no payment |
| CheckoutProperties.NoChallengeCaptures | includes/class-wc-gateway-cybersource-3ds.php:185-189 | without a challenge the checkout captures at once with the enrollment response as evidence, whatever `veresEnrolled` says |
| CheckoutProperties.NotEnrolledGoesToPayment | includes/class-wc-gateway-cybersource-3ds.php:185-186 | the enrollment answer `{challengeRequired: "N", veresEnrolled: "N"}` leads to exactly one payment call with the payment body of that answer |
| CheckoutProperties.MissingTransactionIdFailsClosed | includes/class-wc-gateway-cybersource-3ds.php:238-246 | without a stored transaction id the order fails, no request at all is sent, and the buyer goes to the order-received page |
| CheckoutProperties.UnrecordedCallbackFailsClosed | includes/class-wc-gateway-cybersource-3ds.php:238-246 | the same for an order with no stored authentication response at all, since `json_decode('')` is null |
| CheckoutProperties.CallbackValidatesStoredId | includes/class-wc-gateway-cybersource-3ds.php:248-253 | the validation call carries exactly the stored transaction id and the posted `cres`/`PaRes` |
| CheckoutProperties.ValidationFailureNoPayment | includes/class-wc-gateway-cybersource-3ds.php:254-258 | a failed validation fails the order, returns the buyer to the checkout and sends no payment |
| CheckoutProperties.ValidationSuccessCaptures | includes/class-wc-gateway-cybersource-3ds.php:260-269 | a successful validation captures with the stored card and the validation response, and the buyer follows the capture's redirect |
| CheckoutProperties.ValidationSuccessRecords | includes/class-wc-gateway-cybersource-3ds.php:260-265 | after a successful validation the final response and the flag "no" stay stored whatever the capture decides, and exactly one payment request is sent |
| CheckoutProperties.ChallengeStateCarriesOver | includes/class-wc-gateway-cybersource-3ds.php:169-176 | after parking for a challenge, if JSON round-trips the response, the payment page shows that response's step-up form, the callback finds its transaction id, and the stored card is the checkout's card |
| CheckoutProperties.StaleChallengeSurvives | includes/class-wc-gateway-cybersource-3ds.php:169-189 | an attempt that captures without a challenge keeps the challenge flag and payload of an earlier attempt, so the payment page shows the same view as before |
| CheckoutProperties.ReplayedCallbackCapturesAgain | includes/class-wc-gateway-cybersource-3ds.php:226-269 | with a stored transaction id and an `ok` validation, the callback sends a payment request whatever the order's paid state or challenge flag |
| CheckoutProperties.StepUpView | includes/class-wc-gateway-cybersource-3ds.php:206-217 | a response with challenge flag "Y", a step-up URL and an access token shows the form posting that token to that URL |
| CheckoutProperties.StepUpWithAccessToken | includes/class-wc-gateway-cybersource-3ds.php:173-217 | such an enrollment response parks the order and leads to the form posting `JWT=tok123` to the step-up URL |
| Gateway.GetOption | includes/class-wc-gateway-cybersource-3ds.php:21-29 | a saved non-empty setting wins, else a non-empty form default; a non-empty fallback makes the result non-empty |
| Gateway.GetOptionFallback | includes/class-wc-gateway-cybersource-3ds.php:21-29 | when the saved setting, or else the form default, is "", the result is the fallback passed, or "" when none is passed |
| Gateway.ClientConfig | includes/class-wc-gateway-cybersource-3ds.php:24-30 | each credential is given iff its setting is not blank; the environment is always set ("sandbox" by default); debug is on iff the setting is "yes" |
| Gateway.Gateway.constructor | includes/class-wc-gateway-cybersource-3ds.php:10-37 | the gateway is configured iff the three credential settings are not blank; the production host is used iff the environment setting is "production"; the challenge code is never empty ("04" unless set) |
| Gateway.Gateway.ValidateFields | includes/class-wc-gateway-cybersource-3ds.php:111-129 | returns true iff the card fields are present and the client is configured, otherwise shows exactly the notice of the first failing check |
| Gateway.Gateway.PaymentError | includes/class-wc-gateway-cybersource-3ds.php:308-324 | updates the order and the notices exactly as `payment_error` is specified |
| Gateway.Gateway.RunPaymentAfterAuth | includes/class-wc-gateway-cybersource-3ds.php:275-306 | leaves the order and the effects exactly as the capture step is specified |
| Gateway.Gateway.SettleCapture | includes/class-wc-gateway-cybersource-3ds.php:278-305 | the decision on the capture answer, as specified |
| Gateway.Gateway.ProcessPayment | includes/class-wc-gateway-cybersource-3ds.php:131-190 | leaves the order and the effects exactly as the checkout step is specified |
| Gateway.Gateway.AfterSetup | includes/class-wc-gateway-cybersource-3ds.php:143-161 | what follows the setup answer, as specified |
| Gateway.Gateway.SettleEnrollment | includes/class-wc-gateway-cybersource-3ds.php:159-189 | what follows the enrollment answer, as specified |
| Gateway.Gateway.ReceiptPage | includes/class-wc-gateway-cybersource-3ds.php:192-224 | an invalid order exactly when the id finds none; otherwise the view of that order's stored state |
| Gateway.Gateway.HandleTermCallback | includes/class-wc-gateway-cybersource-3ds.php:226-236 | an unknown order or a wrong key gets 400 `invalid_order` with nothing changed; otherwise the order found goes through the callback step and no other order changes |
| Gateway.Gateway.Callback | includes/class-wc-gateway-cybersource-3ds.php:238-273 | the callback for the order found, as specified |
| Gateway.Gateway.SettleValidation | includes/class-wc-gateway-cybersource-3ds.php:254-272 | what follows the validation answer, as specified |
| Webhook.OrderIdOf | includes/class-cs3ds-webhook.php:24-27 | an empty reference code gives order id 0 |
| Webhook.EventType | includes/class-cs3ds-webhook.php:32 | the event type is never empty: the payload's own when non-empty, else "unknown" |
| Webhook.Annotated | includes/class-cs3ds-webhook.php:32-35 | a hit order gets exactly one note and the payload under `_cs3ds_last_webhook`; its status, payment, transaction id and other metadata are unchanged |
| Webhook.Handle | includes/class-cs3ds-webhook.php:13-42 | a body that is not an array gets 400 `invalid_payload` with no order changed; otherwise 200 `ok`, the order found (positive id, existing) is annotated and no other order changes |
| Webhook.ReferenceRoutesBack | includes/class-cs3ds-webhook.php:24-27 | a notification carrying the client reference the gateway sent for an order yields that order's id |
| Webhook.PaymentUpdatedExample | includes/class-cs3ds-webhook.php:24-33 | `{"clientReferenceInformation":{"code":"42"},"eventType":"PAYMENT.UPDATED"}` is routed to order 42 with the note "Cybersource webhook: " and the sanitized event type |

## Left out

- One authentication session per order is the intended behaviour, but the code does not enforce it, and the model follows the code. A later attempt without a challenge keeps an earlier attempt's challenge flag and payload (`StaleChallengeSurvives`). A callback is not refused for an order already paid or no longer waiting for a challenge (`ReplayedCallbackCapturesAgain`). Whether the processor refuses a replayed validation is outside the code.

- Network transport: `wp_remote_request` is a function from the request to a response or a transport error. Retries and timeouts are not modelled; the 45 s timeout is only a field of the request.
- Time: `gmdate` is a clock parameter indexed by the number of requests sent so far.
- Cryptography and encoding: SHA-256, HMAC-SHA256, base64 and JSON are uninterpreted parameters. The signature property is proved for the signed string and the header layout, not for the HMAC (collision resistance is not modelled).
- Debug logging (`wc_get_logger`), the `debug` flag's only effect, is not modelled.
- HTML output is not modelled: `payment_fields`, the `echo`s and the auto-submit script of `receipt_page`, and `esc_url`/`esc_attr`. The receipt page is a `ReceiptView` value.
- `wc_clean`/`wp_unslash` are not modelled: posted and query fields are taken as already cleaned.
- `sanitize_text_field` on strings is a parameter. An array gives "", as in WordPress, and any other value is cast to a string first.
- WooCommerce internals are abstract. `update_status` sets the status and records the note only on a change of status; WooCommerce's own "Order status changed" text is not modelled. `payment_complete` is reduced to the statuses it completes from, a paid flag (standing for the paid date) and a paid status given by the environment; its transaction-id argument and its hooks are not modelled. `empty_cart` sets a flag. `save` is implicit. URLs are `Page` values, and `wp_safe_redirect`/`exit` are the `Redirect` reply.
- `process_payment` takes the order object, not its id, so the lookup `wc_get_order($order_id)` at its start is not modelled. Likewise the callback URL built by `add_query_arg` is the environment's `termUrl` of the order's id and key.
- The settings store: `get_option` reads a map of saved settings, falling back to the form defaults of `init_form_fields`. The admin form itself, `process_admin_options` and the hook registrations are not modelled, nor are the gateway's title and description.
- `wc_format_decimal` of the order total is not modelled: the total is an opaque string, and billing fields come from a map of the order's billing address.
- PHP arithmetic: JSON numbers are integers. Floats, exponent notation in `intval` and integer overflow are not modelled.
- A missing `_cs3ds_card` meta is read as "" (what `get_meta` returns), not as an array.
- The final redirect of `handle_term_callback` to the order-received page (after the capture) is not modelled. It cannot be reached, because every capture result carries a non-empty redirect.
- The plugin bootstrap file only registers hooks and constants, so it is not part of this model.
- Webhook.Handle: reads the raw body as a parameter instead of `php://input`, and does not model `status_header`/`echo`/`exit` beyond the reply value.
