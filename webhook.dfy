/** The webhook receiver `CS3DS_Webhook::handle`: reject a body that does not decode to an
    array, derive the order id from the client reference, annotate that order if it
    exists, and answer 200 after every successful parse. */
module Webhook {
  import opened Php
  import opened Primitives
  import opened Api
  import opened Host

  const InvalidPayloadReply := Status(400, "invalid_payload")
  const OkReply := Status(200, "ok")
  const WebhookNotePrefix := "Cybersource webhook: "

  /** The order id a notification refers to: the `absint` of
      `clientReferenceInformation.code`, or 0 when that code is empty. */
  function OrderIdOf(data: Value): (id: nat)
    ensures Empty(Field(Field(data, "clientReferenceInformation"), "code")) ==> id == 0
  {
    var code := Field(Field(data, "clientReferenceInformation"), "code");
    if !Empty(code) then Absint(code) else 0
  }

  /** The event type named in the note; "unknown" when the payload has none. */
  function EventType(data: Value): (t: Value)
    ensures !Empty(t)
    ensures !Empty(Field(data, "eventType")) ==> t == Field(data, "eventType")
  {
    NonEmptyOr(Field(data, "eventType"), Str("unknown"))
  }

  function EventNote(data: Value, sanitize: string -> string): string {
    WebhookNotePrefix + SanitizeTextField(sanitize, EventType(data))
  }

  /** The state of the order a notification hits: the note, then the payload stored as the
      last webhook. */
  function Annotated(o: OrderState, data: Value, prims: Primitives, sanitize: string -> string)
    : (o': OrderState)
    ensures o'.status == o.status && o'.transactionId == o.transactionId && o'.paid == o.paid
    ensures o'.notes == o.notes + [EventNote(data, sanitize)]
    ensures o'.Meta(LastWebhookKey) == Str(prims.jsonEncode(data))
    ensures forall k :: k != LastWebhookKey ==> o'.Meta(k) == o.Meta(k)
  {
    o.WithNote(EventNote(data, sanitize)).WithMeta(LastWebhookKey, Str(prims.jsonEncode(data)))
  }

  /** `handle`: a body that does not decode to an array is refused with 400 and no order
      changes. Otherwise the answer is 200 `ok`; the order the payload refers to, when it
      exists, is annotated, and every other order is left as it was. */
  method Handle(orders: map<nat, Order>, raw: string, prims: Primitives,
                sanitize: string -> string)
    returns (reply: HttpReply)
    modifies orders.Values
    ensures !prims.jsonDecode(raw).Arr? ==>
              reply == InvalidPayloadReply &&
              forall o :: o in orders.Values ==> o.State() == old(o.State())
    ensures prims.jsonDecode(raw).Arr? ==> reply == OkReply
    ensures var data := prims.jsonDecode(raw);
            var hit := Find(orders, OrderIdOf(data));
            data.Arr? ==>
              (hit != null ==> hit.State() == Annotated(old(hit.State()), data, prims, sanitize)) &&
              forall o :: o in orders.Values && o != hit ==> o.State() == old(o.State())
  {
    var data := prims.jsonDecode(raw);
    if !data.Arr? {
      return InvalidPayloadReply;
    }
    var orderId := 0;
    var code := Field(Field(data, "clientReferenceInformation"), "code");
    if !Empty(code) {
      orderId := Absint(code);
    }
    if orderId > 0 {
      var order := Find(orders, orderId);
      if order != null {
        var eventType := NonEmptyOr(Field(data, "eventType"), Str("unknown"));
        order.AddNote(WebhookNotePrefix + SanitizeTextField(sanitize, eventType));
        order.UpdateMeta(LastWebhookKey, Str(prims.jsonEncode(data)));
      }
    }
    reply := OkReply;
  }

  /** A notification that carries the client reference the gateway sent for an order is
      routed back to exactly that order id (the id 0 is never looked up). */
  lemma {:induction false} ReferenceRoutesBack(info: OrderInfo, data: Value)
    requires Field(data, "clientReferenceInformation") == ClientReference(info)
    ensures OrderIdOf(data) == info.id
  {
    var s := NatToString(info.id);
    assert Field(ClientReference(info), "code") == Str(s);
    AbsintOfDecimal(info.id);
    if Empty(Str(s)) {
      assert s == "" || s == "0";
      assert IntVal("") == 0 && IntVal("0") == 0;
    }
  }

  /** The example notification for order 42: it is routed to order 42 and noted with its
      event type. */
  lemma PaymentUpdatedExample(sanitize: string -> string)
    ensures var data := Arr(map[
              Name("clientReferenceInformation") := Arr(map[Name("code") := Str("42")]),
              Name("eventType") := Str("PAYMENT.UPDATED")]);
            OrderIdOf(data) == 42 &&
            EventNote(data, sanitize) == WebhookNotePrefix + sanitize("PAYMENT.UPDATED")
  {
    var data := Arr(map[
      Name("clientReferenceInformation") := Arr(map[Name("code") := Str("42")]),
      Name("eventType") := Str("PAYMENT.UPDATED")]);
    assert NatToString(42) == "42" by {
      assert NatToString(4) == "4";
    }
    ReferenceRoutesBack(OrderInfo(42, "", "", map[], "", ""), data);
  }
}
