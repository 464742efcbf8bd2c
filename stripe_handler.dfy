/** The older payment handler. Its callers pass whole NOK amounts, which it
    converts to øre for the SDK; it tests optional amounts with `is not None`
    where the Connect-based handler tests truthiness. What the SDK returns
    (object ids, client secrets, statuses) enters as parameters. */
module StripeHandlerLegacy {
  import opened Common
  import StripeHandlerComplete

  /** `int(amount * 100)`: whole NOK to øre. */
  function ToOre(nok: int): (ore: int)
    ensures ore % 100 == 0 && ore / 100 == nok
  {
    nok * 100
  }

  /** The idempotency key sent with a payment intent. */
  function IdempotencyKey(orderId: string): (key: string)
    ensures |key| == 7 + |orderId|
    ensures key[..7] == "taskup-" && key[7..] == orderId
  {
    "taskup-" + orderId
  }

  /** The key determines the order: the same order id gives the same key,
      and two orders share a key only when they are the same order. */
  lemma IdempotencyKeyIdentifiesOrder(a: string, b: string)
    ensures IdempotencyKey(a) == IdempotencyKey(b) <==> a == b
  {
    if IdempotencyKey(a) == IdempotencyKey(b) {
      assert a == IdempotencyKey(a)[7..] == IdempotencyKey(b)[7..] == b;
    }
  }

  /** The base payment metadata overlaid with the caller's (`dict.update`). */
  function MergedMetadata(userId: string, orderId: string, extra: Dict): (m: Dict)
    ensures m.Keys == {"user_id", "order_id", "platform"} + extra.Keys
    ensures forall k :: k in extra ==> m[k] == extra[k]
    ensures "user_id" !in extra ==> m["user_id"] == Str(userId)
    ensures "order_id" !in extra ==> m["order_id"] == Str(orderId)
    ensures "platform" !in extra ==> m["platform"] == Str("taskup")
  {
    map["user_id" := Str(userId), "order_id" := Str(orderId), "platform" := Str("taskup")] + extra
  }

  datatype IntentReply = IntentReply(clientSecret: string, paymentIntentId: string, amount: int, status: string)

  /** The SDK's payment intent: only the fields the handler copies. */
  datatype SdkIntent = SdkIntent(id: string, clientSecret: string, status: string)

  /** `create_payment_intent`: builds the metadata, overlays the caller's,
      and sends the amount in øre; the answer reports the NOK amount. */
  method CreatePaymentIntent(amount: int, userId: string, orderId: string, description: string,
                             metadata: Option<Dict>, intent: SdkIntent)
    returns (params: map<string, Value>, reply: IntentReply)
    ensures params.Keys == {"amount", "currency", "description", "metadata", "automatic_payment_methods", "idempotency_key"}
    ensures params["amount"] == Int(ToOre(amount)) && params["currency"] == Str("nok")
    ensures params["description"] == Str(description)
    ensures params["metadata"] == Dict(MergedMetadata(userId, orderId, if metadata.Some? then metadata.value else map[]))
    ensures params["automatic_payment_methods"] == Dict(map["enabled" := Bool(true)])
    ensures params["idempotency_key"] == Str(IdempotencyKey(orderId))
    ensures reply == IntentReply(intent.clientSecret, intent.id, amount, intent.status)
  {
    var paymentMetadata := map["user_id" := Str(userId), "order_id" := Str(orderId), "platform" := Str("taskup")];
    if DictTruthy(metadata) {
      paymentMetadata := paymentMetadata + metadata.value;
    }
    params := map[
      "amount" := Int(amount * 100),
      "currency" := Str("nok"),
      "description" := Str(description),
      "metadata" := Dict(paymentMetadata),
      "automatic_payment_methods" := Dict(map["enabled" := Bool(true)]),
      "idempotency_key" := Str("taskup-" + orderId)];
    reply := IntentReply(intent.clientSecret, intent.id, amount, intent.status);
  }

  /** The keyword arguments of `stripe.Refund.create`: the amount in øre
      exactly when one is given (0 included), the metadata only when
      non-empty. */
  function RefundParams(paymentIntentId: string, amount: Option<int>, reason: string,
                        metadata: Option<Dict>): (p: map<string, Value>)
    ensures p.Keys == {"payment_intent", "reason"}
                      + (if amount.Some? then {"amount"} else {})
                      + (if DictTruthy(metadata) then {"metadata"} else {})
    ensures p["payment_intent"] == Str(paymentIntentId) && p["reason"] == Str(reason)
    ensures amount.Some? ==> p["amount"] == Int(ToOre(amount.value))
    ensures DictTruthy(metadata) ==> p["metadata"] == Dict(metadata.value)
  {
    var base := map["payment_intent" := Str(paymentIntentId), "reason" := Str(reason)];
    var withAmount := if amount.Some? then base["amount" := Int(amount.value * 100)] else base;
    if DictTruthy(metadata) then withAmount["metadata" := Dict(metadata.value)] else withAmount
  }

  /** `create_refund`: the dictionary is built, then extended twice. */
  method CreateRefund(paymentIntentId: string, amount: Option<int>, reason: string, metadata: Option<Dict>)
    returns (refundParams: map<string, Value>)
    ensures refundParams == RefundParams(paymentIntentId, amount, reason, metadata)
  {
    refundParams := map["payment_intent" := Str(paymentIntentId), "reason" := Str(reason)];
    if amount.Some? {
      refundParams := refundParams["amount" := Int(amount.value * 100)];
    }
    if DictTruthy(metadata) {
      refundParams := refundParams["metadata" := Dict(metadata.value)];
    }
  }

  /** The two handlers part ways on a zero refund: the older one asks for a
      refund of 0 øre, the Connect-based one for a full refund. */
  lemma ZeroRefundDiffersBetweenHandlers(paymentIntentId: string, reason: string)
    ensures RefundParams(paymentIntentId, Some(0), reason, None)["amount"] == Int(0)
    ensures "amount" !in StripeHandlerComplete.RefundParams(paymentIntentId, Some(0), reason, None)
  {
  }

  datatype PayoutReply = PayoutReply(transferId: string, amount: int, destination: string, status: string)

  /** `create_payout`: a transfer of the amount in øre to the tasker's
      account, always reported as succeeded with the NOK amount.
      `transferId` is the id of the created transfer. */
  method CreatePayout(amount: int, destinationAccountId: string, description: string,
                      metadata: Option<Dict>, transferId: string)
    returns (transferParams: map<string, Value>, reply: PayoutReply)
    ensures transferParams.Keys == {"amount", "currency", "destination", "description", "metadata"}
    ensures transferParams["amount"] == Int(ToOre(amount)) && transferParams["currency"] == Str("nok")
    ensures transferParams["destination"] == Str(destinationAccountId)
    ensures transferParams["description"] == Str(description)
    ensures transferParams["metadata"] == Dict(DictOrEmpty(metadata))
    ensures reply == PayoutReply(transferId, amount, destinationAccountId, "succeeded")
  {
    transferParams := map[
      "amount" := Int(amount * 100),
      "currency" := Str("nok"),
      "destination" := Str(destinationAccountId),
      "description" := Str(description),
      "metadata" := Dict(if DictTruthy(metadata) then metadata.value else map[])];
    reply := PayoutReply(transferId, amount, destinationAccountId, "succeeded");
  }

  /** The keyword arguments of `stripe.Transfer.create_reversal`. */
  function ReversalParams(transferId: string, amount: Option<int>): (p: map<string, Value>)
    ensures p.Keys == {"transfer"} + (if amount.Some? then {"amount"} else {})
    ensures p["transfer"] == Str(transferId)
    ensures amount.Some? ==> p["amount"] == Int(ToOre(amount.value))
  {
    var base := map["transfer" := Str(transferId)];
    if amount.Some? then base["amount" := Int(amount.value * 100)] else base
  }

  /** `reverse_transfer`: the transfer id, then the amount when one is given. */
  method ReverseTransfer(transferId: string, amount: Option<int>) returns (reversalParams: map<string, Value>)
    ensures reversalParams == ReversalParams(transferId, amount)
  {
    reversalParams := map["transfer" := Str(transferId)];
    if amount.Some? {
      reversalParams := reversalParams["amount" := Int(amount.value * 100)];
    }
  }

  // ---------------------------------------------------------------------
  // Payment-method listing
  // ---------------------------------------------------------------------

  /** The SDK's card object; the listing copies four of its fields. */
  datatype SdkCard = SdkCard(brand: string, last4: string, expMonth: int, expYear: int,
                             funding: string, country: string)

  datatype SdkPaymentMethod = SdkPaymentMethod(id: string, kind: string, card: Option<SdkCard>)

  datatype CardSummary = CardSummary(brand: string, last4: string, expMonth: int, expYear: int)

  datatype MethodSummary = MethodSummary(id: string, kind: string, card: Option<CardSummary>)

  /** One entry of the listing. */
  function Summarize(pm: SdkPaymentMethod): (s: MethodSummary)
    ensures s.id == pm.id && s.kind == pm.kind
    ensures s.card.Some? <==> pm.card.Some?
    ensures pm.card.Some? ==> s.card.value == CardSummary(pm.card.value.brand, pm.card.value.last4,
                                                          pm.card.value.expMonth, pm.card.value.expYear)
  {
    MethodSummary(pm.id, pm.kind,
                  if pm.card.Some?
                  then Some(CardSummary(pm.card.value.brand, pm.card.value.last4,
                                        pm.card.value.expMonth, pm.card.value.expYear))
                  else None)
  }

  /** The list comprehension over `payment_methods.data`. */
  function SummarizeAll(pms: seq<SdkPaymentMethod>): (r: seq<MethodSummary>)
    ensures |r| == |pms|
    ensures forall i :: 0 <= i < |pms| ==> r[i].id == pms[i].id && r[i].kind == pms[i].kind
    ensures forall i :: 0 <= i < |pms| ==> (r[i].card.Some? <==> pms[i].card.Some?)
    ensures forall i :: 0 <= i < |pms| && pms[i].card.Some? ==>
              r[i].card.value.brand == pms[i].card.value.brand
              && r[i].card.value.last4 == pms[i].card.value.last4
              && r[i].card.value.expMonth == pms[i].card.value.expMonth
              && r[i].card.value.expYear == pms[i].card.value.expYear
  {
    if pms == [] then [] else [Summarize(pms[0])] + SummarizeAll(pms[1..])
  }

  /** `list_payment_methods`: `listing` is the SDK's answer, or None when the
      SDK raised, in which case the listing is empty. */
  function ListPaymentMethods(listing: Option<seq<SdkPaymentMethod>>): (r: seq<MethodSummary>)
    ensures listing.None? ==> r == []
    ensures listing.Some? ==> r == SummarizeAll(listing.value)
  {
    if listing.Some? then SummarizeAll(listing.value) else []
  }

  /** The listing is taken method by method: the summary of a concatenation
      is the concatenation of the summaries. */
  lemma {:induction false} SummarizeAllAppend(a: seq<SdkPaymentMethod>, b: seq<SdkPaymentMethod>)
    ensures SummarizeAll(a + b) == SummarizeAll(a) + SummarizeAll(b)
  {
    if a != [] {
      assert (a + b)[1..] == a[1..] + b;
      SummarizeAllAppend(a[1..], b);
    }
  }
}
