/** The Connect-based payment handler: the keyword dictionaries it hands to
    the payment processor's SDK, and the platform fee it keeps back from a
    transfer to a tasker. Amounts are integers in øre. What the SDK returns
    (object ids) enters as parameters. */
module StripeHandlerComplete {
  import opened Common

  // ---------------------------------------------------------------------
  // Configuration
  // ---------------------------------------------------------------------

  datatype ConfigError = ConfigError(message: string)

  const DefaultFeePercentage: nat := 10

  /** The module-level check: the secret key must be set and non-empty
      before the handler can be used at all. */
  function ApiKey(secretKeyEnv: Option<string>): (r: Result<string, ConfigError>)
    ensures r.Success? <==> StrTruthy(secretKeyEnv)
    ensures r.Success? ==> r.value == secretKeyEnv.value
    ensures r.Failure? ==> r.error == ConfigError("STRIPE_SECRET_KEY not set")
  {
    if StrTruthy(secretKeyEnv) then Success(secretKeyEnv.value)
    else Failure(ConfigError("STRIPE_SECRET_KEY not set"))
  }

  /** The platform's fee on a transfer: `int(amount * pct / 100)`, which
      truncates toward zero. */
  function PlatformFee(amount: int, pct: nat): (fee: int)
    ensures amount * pct >= 0 ==> fee * 100 <= amount * pct < fee * 100 + 100
    ensures amount * pct < 0 ==> fee * 100 - 100 < amount * pct <= fee * 100
  {
    var product := amount * pct;
    if product >= 0 then product / 100 else -((-product) / 100)
  }

  /** For a non-negative amount and a percentage of at most 100 the fee
      lies between 0 and the amount, is the exact floor of
      amount * pct / 100, and the tasker keeps at least (100 - pct)% of it. */
  lemma FeeSplitBounds(amount: int, pct: nat)
    requires amount >= 0 && pct <= 100
    ensures var fee := PlatformFee(amount, pct);
      && 0 <= fee <= amount
      && fee * 100 <= amount * pct < fee * 100 + 100
      && (amount - fee) * 100 >= amount * (100 - pct)
  {
    var fee := PlatformFee(amount, pct);
    assert amount * pct <= amount * 100;
    assert fee * 100 <= amount * pct;
  }

  /** A negative amount (a refund-like transfer) gets a fee truncated toward
      zero, so the fee is never more negative than the amount. */
  lemma FeeOfNegativeAmount(amount: int, pct: nat)
    requires amount < 0 && pct <= 100
    ensures amount <= PlatformFee(amount, pct) <= 0
    ensures PlatformFee(amount, pct) == -PlatformFee(-amount, pct)
  {
    var m := -amount;
    assert m * pct <= m * 100;
    assert amount * pct == -(m * pct);
  }

  /** The worked example of `transfer_to_tasker`: 500 NOK at 10%. */
  lemma FeeExample()
    ensures PlatformFee(50000, 10) == 5000 && 50000 - PlatformFee(50000, 10) == 45000
  {
  }

  // ---------------------------------------------------------------------
  // Parameter dictionaries of the pure builders
  // ---------------------------------------------------------------------

  /** `{k: v for k, v in metadata.items() if v is not None}`. */
  function DropNone(m: map<string, Option<string>>): (r: map<string, Value>)
    ensures r.Keys == set k | k in m && m[k].Some?
    ensures forall k :: k in r ==> r[k] == Str(m[k].value)
  {
    map k | k in m && m[k].Some? :: Str(m[k].value)
  }

  /** The metadata of `create_payment_intent` before the None entries go. */
  function IntentMetadataDraft(orderId: Option<string>, userId: Option<string>, taskId: Option<string>): (m: map<string, Option<string>>)
    ensures m.Keys == {"order_id", "user_id", "task_id", "platform"}
    ensures m["order_id"] == orderId && m["user_id"] == userId && m["task_id"] == taskId
    ensures m["platform"] == Some("taskup")
  {
    map["order_id" := orderId, "user_id" := userId, "task_id" := taskId, "platform" := Some("taskup")]
  }

  /** Payment metadata keeps exactly the ids that were given, always says
      which platform made it, and holds nothing else. */
  lemma IntentMetadataKeepsGivenIds(orderId: Option<string>, userId: Option<string>, taskId: Option<string>)
    ensures var m := DropNone(IntentMetadataDraft(orderId, userId, taskId));
      && m["platform"] == Str("taskup")
      && ("order_id" in m <==> orderId.Some?) && (orderId.Some? ==> m["order_id"] == Str(orderId.value))
      && ("user_id" in m <==> userId.Some?) && (userId.Some? ==> m["user_id"] == Str(userId.value))
      && ("task_id" in m <==> taskId.Some?) && (taskId.Some? ==> m["task_id"] == Str(taskId.value))
      && m.Keys <= {"order_id", "user_id", "task_id", "platform"}
  {
    var d := IntentMetadataDraft(orderId, userId, taskId);
    assert d["platform"] == Some("taskup");
    assert d["order_id"] == orderId && d["user_id"] == userId && d["task_id"] == taskId;
  }

  /** The keyword arguments of `stripe.PaymentIntent.create` in `create_payment_intent`. */
  function PaymentIntentParams(amount: int, currency: string, userId: Option<string>, taskId: Option<string>,
                               orderId: Option<string>, customerEmail: Option<string>,
                               description: Option<string>): (p: map<string, Value>)
    ensures p.Keys == {"amount", "currency", "description", "metadata", "receipt_email",
                       "automatic_payment_methods", "capture_method",
                       "statement_descriptor", "statement_descriptor_suffix"}
    ensures p["amount"] == Int(amount) && p["currency"] == Str(currency)
    ensures StrTruthy(description) ==> p["description"] == Str(description.value)
    ensures !StrTruthy(description) ==> p["description"] == Str("TaskUp payment - Order " + Format(orderId))
    ensures p["metadata"] == Dict(DropNone(IntentMetadataDraft(orderId, userId, taskId)))
    ensures p["receipt_email"] == StrOrNull(customerEmail)
    ensures p["automatic_payment_methods"] == Dict(map["enabled" := Bool(true), "allow_redirects" := Str("never")])
    ensures p["capture_method"] == Str("automatic")
    ensures p["statement_descriptor"] == Str("TASKUP") && p["statement_descriptor_suffix"] == Str("TASK")
  {
    map[
      "amount" := Int(amount),
      "currency" := Str(currency),
      "description" := Str(StrOr(description, "TaskUp payment - Order " + Format(orderId))),
      "metadata" := Dict(DropNone(IntentMetadataDraft(orderId, userId, taskId))),
      "receipt_email" := StrOrNull(customerEmail),
      "automatic_payment_methods" := Dict(map["enabled" := Bool(true), "allow_redirects" := Str("never")]),
      "capture_method" := Str("automatic"),
      "statement_descriptor" := Str("TASKUP"),
      "statement_descriptor_suffix" := Str("TASK")]
  }

  /** Without an order id the default description prints Python's "None". */
  lemma DefaultDescriptionWithoutOrder(amount: int)
    ensures PaymentIntentParams(amount, "nok", None, None, None, None, None)["description"]
         == Str("TaskUp payment - Order None")
  {
  }

  /** The keyword arguments of `stripe.Refund.create` in `create_refund`:
      payment intent, reason and metadata always; the amount only when it
      is truthy, so both None and 0 ask for a full refund. */
  function RefundParams(paymentIntentId: string, amount: Option<int>, reason: string,
                        metadata: Option<Dict>): (p: map<string, Value>)
    ensures p.Keys == {"payment_intent", "reason", "metadata"} + (if IntTruthy(amount) then {"amount"} else {})
    ensures p["payment_intent"] == Str(paymentIntentId) && p["reason"] == Str(reason)
    ensures p["metadata"] == Dict(DictOrEmpty(metadata))
    ensures "amount" in p ==> p["amount"] == Int(amount.value) && amount.value != 0
  {
    var base := map["payment_intent" := Str(paymentIntentId), "reason" := Str(reason),
                    "metadata" := Dict(DictOrEmpty(metadata))];
    if IntTruthy(amount) then base["amount" := Int(amount.value)] else base
  }

  /** A zero refund amount is treated exactly as a missing one. */
  lemma ZeroRefundIsFullRefund(paymentIntentId: string, reason: string, metadata: Option<Dict>)
    ensures RefundParams(paymentIntentId, Some(0), reason, metadata) == RefundParams(paymentIntentId, None, reason, metadata)
    ensures "amount" !in RefundParams(paymentIntentId, None, reason, metadata)
  {
  }

  /** The keyword arguments of `stripe.Transfer.create_reversal` in
      `reverse_transfer` (the transfer id is passed positionally). */
  function ReversalParams(amount: Option<int>, reason: string): (p: map<string, Value>)
    ensures p.Keys == {"description", "metadata"} + (if IntTruthy(amount) then {"amount"} else {})
    ensures p["description"] == Str(reason)
    ensures p["metadata"] == Dict(map["reason" := Str(reason)])
    ensures "amount" in p ==> p["amount"] == Int(amount.value) && amount.value != 0
  {
    var base := map["description" := Str(reason), "metadata" := Dict(map["reason" := Str(reason)])];
    if IntTruthy(amount) then base["amount" := Int(amount.value)] else base
  }

  /** `metadata` after `if user_id: metadata['taskup_user_id'] = user_id`. */
  function WithUserTag(m: Dict, userId: Option<string>): (r: Dict)
    ensures StrTruthy(userId) ==> "taskup_user_id" in r && r["taskup_user_id"] == Str(userId.value)
    ensures !StrTruthy(userId) ==> r == m
    ensures r.Keys == m.Keys + (if StrTruthy(userId) then {"taskup_user_id"} else {})
    ensures forall k :: k in m && k != "taskup_user_id" ==> r[k] == m[k]
  {
    if StrTruthy(userId) then m["taskup_user_id" := Str(userId.value)] else m
  }

  // ---------------------------------------------------------------------
  // The handler object and its imperative builders
  // ---------------------------------------------------------------------

  /** A caller-owned Python dictionary, which the handler may write into. */
  class PyDict {
    var entries: Dict

    constructor (entries: Dict)
      ensures this.entries == entries
    {
      this.entries := entries;
    }
  }

  datatype TransferReply = TransferReply(
    transferId: string, status: string, taskerReceives: int,
    platformFee: int, totalAmount: int, destinationAccount: string)

  datatype ReversalRequest = ReversalRequest(transferId: string, params: map<string, Value>)

  class StripeHandler {
    var webhookSecret: string
    var platformFeePercentage: nat

    ghost predicate Valid()
      reads this
    {
      webhookSecret != ""
    }

    constructor (webhookSecret: string, platformFeePercentage: nat)
      requires webhookSecret != ""
      ensures Valid()
      ensures this.webhookSecret == webhookSecret && this.platformFeePercentage == platformFeePercentage
    {
      this.webhookSecret := webhookSecret;
      this.platformFeePercentage := platformFeePercentage;
    }

    /** `StripeHandler()`: refuses to start without a webhook secret; the fee
        percentage is read from the environment and defaults to 10. */
    static method Create(webhookSecretEnv: Option<string>, feePercentageEnv: Option<nat>)
      returns (r: Result<StripeHandler, ConfigError>)
      ensures r.Success? <==> StrTruthy(webhookSecretEnv)
      ensures r.Failure? ==> r.error == ConfigError("STRIPE_WEBHOOK_SECRET not set")
      ensures r.Success? ==>
                && fresh(r.value) && r.value.Valid()
                && r.value.webhookSecret == webhookSecretEnv.value
                && r.value.platformFeePercentage
                   == (if feePercentageEnv.Some? then feePercentageEnv.value else DefaultFeePercentage)
    {
      if !StrTruthy(webhookSecretEnv) {
        return Failure(ConfigError("STRIPE_WEBHOOK_SECRET not set"));
      }
      var pct := if feePercentageEnv.Some? then feePercentageEnv.value else DefaultFeePercentage;
      var h := new StripeHandler(webhookSecretEnv.value, pct);
      r := Success(h);
    }

    /** `create_refund`: the dictionary is built, then the amount is added
        when it is truthy. */
    method CreateRefund(paymentIntentId: string, amount: Option<int>, reason: string, metadata: Option<Dict>)
      returns (refundData: map<string, Value>)
      requires Valid()
      ensures refundData == RefundParams(paymentIntentId, amount, reason, metadata)
    {
      refundData := map["payment_intent" := Str(paymentIntentId), "reason" := Str(reason),
                        "metadata" := Dict(if DictTruthy(metadata) then metadata.value else map[])];
      if IntTruthy(amount) {
        refundData := refundData["amount" := Int(amount.value)];
      }
    }

    /** `reverse_transfer`: the dictionary is built, then the amount is added
        when it is truthy. */
    method ReverseTransfer(transferId: string, amount: Option<int>, reason: string)
      returns (request: ReversalRequest)
      requires Valid()
      ensures request.transferId == transferId
      ensures request.params == ReversalParams(amount, reason)
    {
      var reversalData := map["description" := Str(reason), "metadata" := Dict(map["reason" := Str(reason)])];
      if IntTruthy(amount) {
        reversalData := reversalData["amount" := Int(amount.value)];
      }
      request := ReversalRequest(transferId, reversalData);
    }

    /** `metadata or {}` followed by the user tag. A non-empty dictionary from
        the caller is written into in place; None or an empty one is replaced
        by a fresh dictionary, so the caller's object is left alone. */
    static method TagMetadata(metadata: PyDict?, userId: Option<string>) returns (sent: Dict)
      modifies metadata
      ensures metadata == null ==> sent == WithUserTag(map[], userId)
      ensures metadata != null ==> sent == WithUserTag(old(metadata.entries), userId)
      ensures metadata != null && old(metadata.entries) != map[] ==> metadata.entries == sent
      ensures metadata != null && old(metadata.entries) == map[] ==> metadata.entries == map[]
    {
      if metadata != null && metadata.entries != map[] {
        if StrTruthy(userId) {
          metadata.entries := metadata.entries["taskup_user_id" := Str(userId.value)];
        }
        sent := metadata.entries;
      } else {
        var newDict: Dict := map[];
        if StrTruthy(userId) {
          newDict := newDict["taskup_user_id" := Str(userId.value)];
        }
        sent := newDict;
      }
    }

    /** `create_connect_account`: the keyword arguments of `stripe.Account.create`. */
    method CreateConnectAccount(email: string, country: string, userId: Option<string>, metadata: PyDict?)
      returns (accountParams: map<string, Value>)
      requires Valid()
      modifies metadata
      ensures accountParams.Keys == {"type", "country", "email", "capabilities", "business_type", "metadata", "settings"}
      ensures accountParams["type"] == Str("express") && accountParams["country"] == Str(country)
      ensures accountParams["email"] == Str(email) && accountParams["business_type"] == Str("individual")
      ensures accountParams["capabilities"] == Dict(map["card_payments" := Dict(map["requested" := Bool(true)]),
                                                        "transfers" := Dict(map["requested" := Bool(true)])])
      ensures accountParams["settings"]
              == Dict(map["payouts" := Dict(map["schedule" := Dict(map["interval" := Str("manual")])])])
      ensures accountParams["metadata"]
              == Dict(WithUserTag(if metadata == null then map[] else old(metadata.entries), userId))
      ensures metadata != null && old(metadata.entries) != map[] ==> metadata.entries == accountParams["metadata"].d
      ensures metadata != null && old(metadata.entries) == map[] ==> metadata.entries == map[]
    {
      var accountMetadata := TagMetadata(metadata, userId);
      accountParams := map[
        "type" := Str("express"),
        "country" := Str(country),
        "email" := Str(email),
        "capabilities" := Dict(map["card_payments" := Dict(map["requested" := Bool(true)]),
                                   "transfers" := Dict(map["requested" := Bool(true)])]),
        "business_type" := Str("individual"),
        "metadata" := Dict(accountMetadata),
        "settings" := Dict(map["payouts" := Dict(map["schedule" := Dict(map["interval" := Str("manual")])])])];
    }

    /** `create_customer`: the keyword arguments of `stripe.Customer.create`. */
    method CreateCustomer(email: string, name: Option<string>, userId: Option<string>, metadata: PyDict?)
      returns (customerParams: map<string, Value>)
      requires Valid()
      modifies metadata
      ensures customerParams.Keys == {"email", "name", "metadata"}
      ensures customerParams["email"] == Str(email) && customerParams["name"] == StrOrNull(name)
      ensures customerParams["metadata"]
              == Dict(WithUserTag(if metadata == null then map[] else old(metadata.entries), userId))
      ensures metadata != null && old(metadata.entries) != map[] ==> metadata.entries == customerParams["metadata"].d
      ensures metadata != null && old(metadata.entries) == map[] ==> metadata.entries == map[]
    {
      var customerMetadata := TagMetadata(metadata, userId);
      customerParams := map["email" := Str(email), "name" := StrOrNull(name), "metadata" := Dict(customerMetadata)];
    }

    /** `transfer_to_tasker`: the fee is kept back and the rest is sent to the
        tasker's account. `transferId` is the id of the created transfer. */
    method TransferToTasker(amount: int, taskerAccountId: string, taskId: string,
                            description: Option<string>, transferId: string)
      returns (transferParams: map<string, Value>, reply: TransferReply)
      requires Valid()
      ensures reply.platformFee == PlatformFee(amount, platformFeePercentage)
      ensures reply.taskerReceives + reply.platformFee == amount == reply.totalAmount
      ensures reply.transferId == transferId && reply.status == "created"
      ensures reply.destinationAccount == taskerAccountId
      ensures transferParams.Keys == {"amount", "currency", "destination", "description", "metadata"}
      ensures transferParams["amount"] == Int(reply.taskerReceives)
      ensures transferParams["destination"] == Str(taskerAccountId) && transferParams["currency"] == Str("nok")
      ensures transferParams["description"] == Str(StrOr(description, "TaskUp payout - Task " + taskId))
      ensures transferParams["metadata"]
              == Dict(map["task_id" := Str(taskId), "original_amount" := Int(amount),
                          "platform_fee" := Int(reply.platformFee),
                          "platform_fee_percentage" := Int(platformFeePercentage)])
    {
      var platformFee := PlatformFee(amount, platformFeePercentage);
      var taskerAmount := amount - platformFee;
      transferParams := map[
        "amount" := Int(taskerAmount),
        "currency" := Str("nok"),
        "destination" := Str(taskerAccountId),
        "description" := Str(StrOr(description, "TaskUp payout - Task " + taskId)),
        "metadata" := Dict(map["task_id" := Str(taskId), "original_amount" := Int(amount),
                               "platform_fee" := Int(platformFee),
                               "platform_fee_percentage" := Int(platformFeePercentage)])];
      reply := TransferReply(transferId, "created", taskerAmount, platformFee, amount, taskerAccountId);
    }
  }

  /** A handler created from an environment without a fee setting splits
      a 500 NOK transfer into 450 NOK for the tasker and 50 NOK for TaskUp. */
  method DefaultFeeTransferExample() returns (reply: TransferReply)
    ensures reply.taskerReceives == 45000 && reply.platformFee == 5000 && reply.totalAmount == 50000
  {
    var created := StripeHandler.Create(Some("whsec"), None);
    var handler := created.value;
    var params;
    params, reply := handler.TransferToTasker(50000, "acct_1", "task_456", None, "tr_1");
  }
}
