/** Values of the payment domain: invoices, deposits, events and their statuses. */
module Domain {

  datatype Option<+T> = None | Some(value: T)

  datatype Result<+T> = Ok(value: T) | Err(error: Error)

  datatype Error = InvalidArgument | NotFound | Conflict | Forbidden | Malformed | Internal

  /** Nanoseconds since the epoch. */
  type Time = int

  const SECOND: Time := 1_000_000_000

  /** Ids are positive numbers; zero stands for the empty string. */
  type MerchantId = nat
  type InvoiceId = nat
  type SinkId = nat
  type EventId = nat
  type ReviewId = nat

  datatype LatePolicy = MarkPaidLate | LateManualReview | IgnoreLate
  datatype PartialPolicy = AcceptPartial | RejectPartial
  datatype OverPolicy = MarkOverpaid | OverManualReview

  datatype Policies = Policies(late: LatePolicy, partial: PartialPolicy, over: OverPolicy)

  /** Policies are enumerations here, so only the numeric checks of `Validate` remain. */
  datatype Settings = Settings(ttlSeconds: int, requiredConfirmations: int, policies: Policies) {
    predicate Validate() {
      ttlSeconds >= 0 && requiredConfirmations >= 0
    }
  }

  datatype Merchant = Merchant(name: string, settings: Settings, createdAt: Time, updatedAt: Time)

  datatype Wallet = Wallet(walletId: string, ufvk: string, chain: string, uaHrp: string, coinType: int, createdAt: Time)

  datatype InvoiceStatus =
    Open | PartialPending | Pending | PartialConfirmed | Confirmed | Overpaid | Expired | PaidLate

  datatype Invoice = Invoice(
    merchant: MerchantId,
    externalOrder: string,
    wallet: string,
    addressIndex: nat,
    address: string,
    createdAfterHeight: int,
    createdAfterHash: string,
    amount: int,
    requiredConfirmations: int,
    policies: Policies,
    received: Received,
    status: InvoiceStatus,
    expiresAt: Option<Time>,
    createdAt: Time,
    updatedAt: Time)
  {
    predicate CanApplyDeposit(height: int) {
      height > createdAfterHeight
    }

    predicate ExpiredAt(now: Time) {
      expiresAt.Some? && now > expiresAt.value
    }

    /** Confirmations a deposit needs before it counts as confirmed. */
    function Required(): (r: int)
      ensures r >= 1
    {
      if requiredConfirmations <= 0 then 1 else requiredConfirmations
    }
  }

  /** The two running sums kept on an invoice. */
  datatype Received = Received(pending: int, confirmed: int)

  datatype DepositStatus = Detected | DepositConfirmed | Unconfirmed | Orphaned

  datatype DepKey = DepKey(wallet: string, txid: string, index: int)

  const NO_DEPOSIT := DepKey("", "", 0)

  datatype Deposit = Deposit(
    seqNo: nat,
    address: string,
    amount: int,
    height: int,
    status: DepositStatus,
    confirmedHeight: Option<int>,
    invoice: InvoiceId,
    detectedAt: Time,
    updatedAt: Time)

  datatype EventType =
    InvoiceCreated | InvoiceExpired | DepositDetectedEvent | DepositConfirmedEvent
  | InvoicePaid | InvoiceOverpaid | RefundRequested | RefundSent

  datatype Refund = Refund(
    id: nat,
    merchant: MerchantId,
    invoice: InvoiceId,
    externalId: string,
    toAddress: string,
    amount: int,
    sentTxid: string,
    notes: string,
    createdAt: Time)

  /** What an event is about besides its invoice. */
  datatype Subject =
    | NoSubject
    | OfDeposit(key: DepKey, amount: int, height: int)
    | OfRefund(refund: Refund)
  {
    /** The reference by which duplicate events are recognised. */
    predicate SameAs(other: Subject) {
      match (this, other)
      case (NoSubject, NoSubject) => true
      case (OfDeposit(k, _, _), OfDeposit(k', _, _)) => k == k'
      case (OfRefund(r), OfRefund(r')) => r.id == r'.id
      case _ => false
    }
  }

  datatype InvoiceEvent = InvoiceEvent(id: EventId, typ: EventType, at: Time, subject: Subject)

  datatype OutboxEvent =
    OutboxEvent(id: EventId, merchant: MerchantId, invoice: InvoiceId, typ: EventType, at: Time, subject: Subject)

  datatype SinkKind = Webhook | Kafka | NATS | RabbitMQ

  datatype Sink = Sink(merchant: MerchantId, kind: SinkKind, active: bool, config: string, createdAt: Time)

  datatype DeliveryStatus = DeliveryPending | Delivered | DeliveryFailed

  datatype Delivery = Delivery(status: DeliveryStatus, attempt: int, nextRetryAt: Option<Time>,
                               lastError: Option<string>)

  const NEW_DELIVERY := Delivery(DeliveryPending, 0, None, None)

  datatype ReviewReason = LatePayment | PartialPayment | Overpayment | UnknownAddress

  datatype ReviewStatus = ReviewOpen | ReviewResolved | ReviewRejected

  /** A case is about an invoice, or about a deposit nobody claims (`invoice == 0`). */
  datatype ReviewCase = ReviewCase(
    merchant: MerchantId,
    invoice: InvoiceId,
    reason: ReviewReason,
    status: ReviewStatus,
    deposit: DepKey,
    notes: string,
    createdAt: Time,
    updatedAt: Time)

  // ----- 64-bit arithmetic -----

  const MAX_INT64 := 0x7fff_ffff_ffff_ffff
  const TWO_64 := 0x1_0000_0000_0000_0000

  /** Two's complement reading of the low 64 bits. */
  function Wrap64(x: int): (r: int)
    ensures -MAX_INT64 - 1 <= r <= MAX_INT64
  {
    var low := x % TWO_64;
    if low > MAX_INT64 then low - TWO_64 else low
  }

  /** Wrapping at every addition is the same as wrapping the true sum once. */
  lemma WrapAdd(x: int, y: int)
    ensures Wrap64(Wrap64(x) + y) == Wrap64(x + y)
  {
    var q := x / TWO_64;
    var low := x % TWO_64;
    assert x == q * TWO_64 + low;
    var d := if low > MAX_INT64 then q + 1 else q;
    assert Wrap64(x) == x - d * TWO_64;
    WrapShift(x + y, d);
  }

  lemma WrapShift(x: int, d: int)
    ensures Wrap64(x - d * TWO_64) == Wrap64(x)
  {
    ModShift(x, d);
  }

  lemma {:induction false} ModShift(x: int, d: int)
    ensures (x - d * TWO_64) % TWO_64 == x % TWO_64
    decreases if d < 0 then -d else d
  {
    if d > 0 {
      ModShift(x, d - 1);
      assert (x - d * TWO_64) == (x - (d - 1) * TWO_64) - TWO_64;
    } else if d < 0 {
      ModShift(x, d + 1);
      assert (x - d * TWO_64) == (x - (d + 1) * TWO_64) + TWO_64;
    }
  }

  /** A wrapped non-negative sum is exact precisely when it fits. */
  lemma WrapExact(x: nat)
    ensures Wrap64(x) == x <==> x <= MAX_INT64
  {
  }

  /** Status of an invoice from its sums and the clock. */
  function ComputeStatus(inv: Invoice, now: Time): (r: InvoiceStatus) {
    var expired := inv.ExpiredAt(now);
    var total := Wrap64(inv.received.pending + inv.received.confirmed);
    if total == 0 && expired then Expired
    else if total == 0 then Open
    else if inv.received.confirmed > inv.amount then Overpaid
    else if inv.received.confirmed == inv.amount then
      if expired && inv.policies.late == MarkPaidLate then PaidLate else Confirmed
    else if total >= inv.amount then Pending
    else if inv.received.confirmed > 0 then PartialConfirmed
    else PartialPending
  }
}
