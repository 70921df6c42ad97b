/** What the shop host provides to the gateway: orders with their persisted state (status,
    metadata, transaction id, notes), the order lookup, the pages a buyer is sent to and
    the replies an inbound request gets. */
module Host {
  import opened Php
  import opened Api

  /** Order metadata keys the gateway writes. */
  const CardKey := "_cs3ds_card"
  const AuthInitialKey := "_cs3ds_auth_initial"
  const ChallengeRequiredKey := "_cs3ds_challenge_required"
  const ChallengePayloadKey := "_cs3ds_challenge_payload"
  const AuthFinalKey := "_cs3ds_auth_final"
  const PaymentResponseKey := "_cs3ds_payment_response"
  const LastWebhookKey := "_cs3ds_last_webhook"

  /** The statuses from which the host's `payment_complete` completes an order. */
  const PaymentCompleteStatuses := {"on-hold", "pending", "failed", "cancelled"}

  /** The persisted, mutable part of an order. `paid` records that the host's
      `payment_complete` ran. */
  datatype OrderState = OrderState(
    status: string, meta: map<string, Value>, transactionId: string, notes: seq<string>,
    paid: bool)
  {
    /** `get_meta($k)`: the stored value, or "" when there is none. */
    function Meta(k: string): Value {
      if k in meta then meta[k] else Str("")
    }

    /** `update_status($s, $note)`: the note is recorded with the status transition, so
        only when the status actually changes. */
    function WithStatus(s: string, note: string): OrderState {
      this.(status := s, notes := if s != status then notes + [note] else notes)
    }

    /** `payment_complete()`: an order whose status allows it is marked paid and moved to
        `paidStatus` (the host's choice of "processing" or "completed"); any other order is
        left as it is. */
    function WithPaymentComplete(paidStatus: string): OrderState {
      if status in PaymentCompleteStatuses then this.(status := paidStatus, paid := true)
      else this
    }

    /** `update_meta_data($k, $v)`. */
    function WithMeta(k: string, v: Value): OrderState {
      this.(meta := meta[k := v])
    }

    /** `add_order_note($note)`. */
    function WithNote(note: string): OrderState {
      this.(notes := notes + [note])
    }
  }

  /** An order of the shop. Its identity, key and the fields the payloads read are fixed;
      its state is updated in place. */
  class Order {
    const info: OrderInfo
    const key: string
    var status: string
    var meta: map<string, Value>
    var transactionId: string
    var notes: seq<string>
    var paid: bool

    constructor(info: OrderInfo, key: string, status: string)
      ensures this.info == info && this.key == key
      ensures State() == OrderState(status, map[], "", [], false)
    {
      this.info := info;
      this.key := key;
      this.status := status;
      meta := map[];
      transactionId := "";
      notes := [];
      paid := false;
    }

    function State(): OrderState
      reads this
    {
      OrderState(status, meta, transactionId, notes, paid)
    }

    method UpdateStatus(s: string, note: string)
      modifies this
      ensures State() == old(State()).WithStatus(s, note)
    {
      if s != status {
        notes := notes + [note];
      }
      status := s;
    }

    method UpdateMeta(k: string, v: Value)
      modifies this
      ensures State() == old(State()).WithMeta(k, v)
    {
      meta := meta[k := v];
    }

    method AddNote(note: string)
      modifies this
      ensures State() == old(State()).WithNote(note)
    {
      notes := notes + [note];
    }

    method SetTransactionId(id: string)
      modifies this
      ensures State() == old(State()).(transactionId := id)
    {
      transactionId := id;
    }

    method PaymentComplete(paidStatus: string)
      modifies this
      ensures State() == old(State()).WithPaymentComplete(paidStatus)
    {
      if status in PaymentCompleteStatuses {
        status := paidStatus;
        paid := true;
      }
    }
  }

  /** `wc_get_order($id)`: the order stored under a positive id, or nothing. */
  function Find(orders: map<nat, Order>, id: nat): (o: Order?)
    ensures o != null <==> id > 0 && id in orders
    ensures o != null ==> o == orders[id]
  {
    if id > 0 && id in orders then orders[id] else null
  }

  /** Where a buyer is sent. `ReturnPage` is the gateway's return URL after a successful
      payment; `PayForOrderPage` is the order's checkout-payment page (the receipt page). */
  datatype Page =
    | CheckoutPage
    | PayForOrderPage(orderId: nat)
    | ReturnPage(orderId: nat)
    | OrderReceivedPage(orderId: nat)

  /** The answer to an inbound request: a status line with a short body, or a redirect. */
  datatype HttpReply = Status(code: int, text: string) | Redirect(page: Page)
}
