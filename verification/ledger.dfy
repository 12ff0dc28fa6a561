/**
 The payment ledger as a value, with one function per public operation of the
 in-memory store. Every operation of the store holds its mutex throughout, so
 each function is one atomic step; `now` is the clock during that step.
 Deliveries are indexed by (event, sink): their own ids carry no information.
*/
module Ledger {
  import opened Domain
  import opened Sums
  import opened Text

  type DeliveryKey = (EventId, SinkId)

  datatype State = State(
    merchants: map<MerchantId, Merchant>,
    wallets: map<MerchantId, Wallet>,
    nextIndex: map<MerchantId, nat>,
    invoices: map<InvoiceId, Invoice>,
    byExternal: map<(MerchantId, string), InvoiceId>,
    byAddress: map<(string, string), InvoiceId>,
    tokens: map<InvoiceId, string>,
    cursors: map<string, int>,
    deposits: map<DepKey, Deposit>,
    refunds: seq<Refund>,
    sinks: map<SinkId, Sink>,
    events: Events,
    reviews: Reviews,
    merchantSeq: nat,
    invoiceSeq: nat,
    depositSeq: nat,
    sinkSeq: nat)

  const EMPTY := State(map[], map[], map[], map[], map[], map[], map[], map[], map[], [], map[],
                       Events(map[], [], map[], 0), Reviews(map[], 0), 0, 0, 0, 0)

  // ----- events, outbox, deliveries -----

  predicate HasEvent(log: seq<InvoiceEvent>, typ: EventType, subject: Subject) {
    exists p :: 0 <= p < |log| && log[p].typ == typ && log[p].subject.SameAs(subject)
  }

  /** The active sinks of a merchant. */
  predicate Listens(sinks: map<SinkId, Sink>, sink: SinkId, merchant: MerchantId) {
    sink in sinks && sinks[sink].merchant == merchant && sinks[sink].active
  }

  /** One pending delivery for each listening sink. */
  function Fanout(sinks: map<SinkId, Sink>, event: EventId, merchant: MerchantId): (r: map<DeliveryKey, Delivery>) {
    map k | k in sinks && Listens(sinks, k, merchant) :: (event, k) := NEW_DELIVERY
  }

  /** An event to be recorded, if it is not there already. */
  datatype Emission = Emission(inv: InvoiceId, typ: EventType, at: Time, subject: Subject)

  /** The event logs of the invoices, the outbox and the deliveries. */
  datatype Events = Events(
    logs: map<InvoiceId, seq<InvoiceEvent>>,
    outbox: seq<OutboxEvent>,
    deliveries: map<DeliveryKey, Delivery>,
    lastId: nat)
  {
    function Log(inv: InvoiceId): (r: seq<InvoiceEvent>) {
      if inv in logs then logs[inv] else []
    }

    /** Put an event in the outbox with its deliveries; only invoices have a merchant to tell. */
    function Enqueue(e: Emission, owners: map<InvoiceId, MerchantId>, sinks: map<SinkId, Sink>): (r: Events) {
      if e.inv !in owners then this else
      var id := |outbox| + 1;
      this.(outbox := outbox + [OutboxEvent(id, owners[e.inv], e.inv, e.typ, e.at, e.subject)],
            deliveries := deliveries + Fanout(sinks, id, owners[e.inv]))
    }

    /** Record an event of an invoice unless it is there already. */
    function Append(e: Emission, owners: map<InvoiceId, MerchantId>, sinks: map<SinkId, Sink>): (r: Events) {
      if e.inv == 0 || HasEvent(Log(e.inv), e.typ, e.subject) then this else
      var event := InvoiceEvent(lastId + 1, e.typ, e.at, e.subject);
      this.(lastId := lastId + 1, logs := logs[e.inv := Log(e.inv) + [event]]).Enqueue(e, owners, sinks)
    }

    /** Record several events, in order. */
    function AppendAll(es: seq<Emission>, owners: map<InvoiceId, MerchantId>, sinks: map<SinkId, Sink>): (r: Events)
      decreases |es|
    {
      if es == [] then this
      else AppendAll(es[..|es| - 1], owners, sinks).Append(es[|es| - 1], owners, sinks)
    }
  }

  function Owners(invoices: map<InvoiceId, Invoice>): (r: map<InvoiceId, MerchantId>) {
    map i | i in invoices :: invoices[i].merchant
  }

  function AppendEvent(s: State, inv: InvoiceId, typ: EventType, at: Time, subject: Subject): (r: State)
    ensures r.(events := s.events) == s
  {
    s.(events := s.events.Append(Emission(inv, typ, at, subject), Owners(s.invoices), s.sinks))
  }

  // ----- review cases -----

  datatype Reviews = Reviews(cases: map<ReviewId, ReviewCase>, lastId: nat) {

    /** An open case that already covers the request. */
    predicate Covered(merchant: MerchantId, inv: InvoiceId, reason: ReviewReason, dep: DepKey) {
      exists r :: r in cases && Covers(cases[r], merchant, inv, reason, dep)
    }

    function Open(merchant: MerchantId, inv: InvoiceId, reason: ReviewReason, dep: DepKey, now: Time): (r: Reviews) {
      if merchant == 0 || Covered(merchant, inv, reason, dep) then this else
      Reviews(cases[lastId + 1 := ReviewCase(merchant, inv, reason, ReviewOpen, dep, "", now, now)], lastId + 1)
    }
  }

  predicate Covers(c: ReviewCase, merchant: MerchantId, inv: InvoiceId, reason: ReviewReason, dep: DepKey) {
    && c.status == ReviewOpen && c.merchant == merchant && c.reason == reason
    && if inv != 0 then c.invoice == inv
       else dep.wallet != "" && dep.txid != "" && c.deposit == dep
  }

  function CreateReview(s: State, merchant: MerchantId, inv: InvoiceId, reason: ReviewReason, dep: DepKey,
                        now: Time): (r: State)
    ensures r.(reviews := s.reviews) == s
  {
    s.(reviews := s.reviews.Open(merchant, inv, reason, dep, now))
  }

  // ----- recomputing an invoice -----

  /** What a deposit adds to the pending sum of an invoice. */
  function PendingShare(d: Deposit, inv: InvoiceId): (r: int) {
    if d.invoice == inv && (d.status == Detected || d.status == Unconfirmed) then d.amount else 0
  }

  /** What a deposit adds to the confirmed sum of an invoice. */
  function ConfirmedShare(d: Deposit, inv: InvoiceId): (r: int) {
    if d.invoice == inv && d.status == DepositConfirmed then d.amount else 0
  }

  ghost function PendingOf(deposits: map<DepKey, Deposit>, inv: InvoiceId): (r: int) {
    Sum(map k | k in deposits :: PendingShare(deposits[k], inv))
  }

  ghost function ConfirmedOf(deposits: map<DepKey, Deposit>, inv: InvoiceId): (r: int) {
    Sum(map k | k in deposits :: ConfirmedShare(deposits[k], inv))
  }

  /** The two sums as the store holds them: added in 64 bits without an overflow check. */
  ghost function ReceivedOf(deposits: map<DepKey, Deposit>, inv: InvoiceId): (r: Received) {
    Received(Wrap64(PendingOf(deposits, inv)), Wrap64(ConfirmedOf(deposits, inv)))
  }

  /** The invoice after its sums and status are brought up to date. */
  ghost function Refreshed(inv: Invoice, received: Received, now: Time): (r: Invoice) {
    var inv' := inv.(received := received);
    inv'.(status := ComputeStatus(inv', now), updatedAt := now)
  }

  /** Event announced when an invoice enters a status. */
  function StatusEvent(status: InvoiceStatus): (r: Option<EventType>) {
    match status
    case Expired => Some(InvoiceExpired)
    case Confirmed => Some(InvoicePaid)
    case PaidLate => Some(InvoicePaid)
    case Overpaid => Some(InvoiceOverpaid)
    case _ => None
  }

  /** Review asked for when an invoice enters a status. */
  function StatusReview(inv: Invoice, now: Time): (r: Option<ReviewReason>) {
    if inv.status == PartialConfirmed && inv.policies.partial == RejectPartial then Some(PartialPayment)
    else if inv.status == Overpaid && inv.policies.over == OverManualReview then Some(Overpayment)
    else if (inv.status == Confirmed || inv.status == PaidLate) && inv.ExpiredAt(now)
            && inv.received.confirmed == inv.amount && inv.policies.late == LateManualReview then Some(LatePayment)
    else None
  }

  /** Event and review of an invoice whose status has just changed. */
  function Announce(s: State, inv: InvoiceId, now: Time): (r: State)
    requires inv in s.invoices
    ensures r.(events := s.events, reviews := s.reviews) == s
  {
    var i := s.invoices[inv];
    var s1 := match StatusEvent(i.status)
      case Some(typ) => AppendEvent(s, inv, typ, now, NoSubject)
      case None => s;
    match StatusReview(i, now)
    case Some(reason) => CreateReview(s1, i.merchant, inv, reason, NO_DEPOSIT, now)
    case None => s1
  }

  ghost function Recompute(s: State, inv: InvoiceId, now: Time): (r: State)
    ensures r.(events := s.events, reviews := s.reviews, invoices := s.invoices) == s
    ensures r.invoices == if inv in s.invoices
                          then s.invoices[inv := Refreshed(s.invoices[inv], ReceivedOf(s.deposits, inv), now)]
                          else s.invoices
  {
    if inv !in s.invoices then s else
    var i := Refreshed(s.invoices[inv], ReceivedOf(s.deposits, inv), now);
    var s1 := s.(invoices := s.invoices[inv := i]);
    if i.status == s.invoices[inv].status then s1 else Announce(s1, inv, now)
  }

  // ----- scan events -----

  datatype EventKind = DepositEvent | DepositConfirmedKind | DepositUnconfirmedKind | DepositOrphanedKind | OtherKind

  /** `actionIndex` and `amount` are unsigned words of 32 and 64 bits. */
  datatype Payload = Payload(wallet: string, txid: string, actionIndex: nat, address: string, amount: nat, height: int)

  /** A scanner event; `payload` is None when it is not valid JSON, `occurredAt` is None for the zero time. */
  datatype ScanEvent =
    ScanEvent(wallet: string, cursor: int, kind: EventKind, payload: Option<Payload>, occurredAt: Option<Time>)

  /** Conversion of an unsigned word to int32. */
  function ToInt32(u: nat): (r: int) {
    var low := u % 0x1_0000_0000;
    if low >= 0x8000_0000 then low - 0x1_0000_0000 else low
  }

  /** Status a deposit event asks for. A confirmation report of the scanner does not confirm. */
  function Incoming(kind: EventKind): (r: DepositStatus) {
    match kind
    case DepositUnconfirmedKind => Unconfirmed
    case DepositOrphanedKind => Orphaned
    case _ => Detected
  }

  function CursorOf(s: State, wallet: string): (r: int) {
    if wallet in s.cursors then s.cursors[wallet] else 0
  }

  /** Invoice whose address received the payment, if the payment is new enough. */
  function MatchInvoice(s: State, wallet: string, address: string, height: int): (r: InvoiceId) {
    var key := (wallet, address);
    if key in s.byAddress && s.byAddress[key] in s.invoices && s.invoices[s.byAddress[key]].CanApplyDeposit(height)
    then s.byAddress[key] else 0
  }

  function OccurredOr(at: Option<Time>, now: Time): (r: Time) {
    match at case Some(t) => t case None => now
  }

  /** The Go zero time. */
  const ZERO_TIME: Time := -62135596800 * 1_000_000_000

  /** A deposit seen for the first time. */
  function NewDeposit(seqNo: nat, address: string, amount: int, height: int, status: DepositStatus,
                      inv: InvoiceId, at: Time, now: Time): (r: Deposit) {
    Deposit(seqNo, address, amount, height, status, None, inv, at, now)
  }

  /** A deposit reported again: a confirmed one stays confirmed when it is merely detected again. */
  function UpdatedDeposit(d: Deposit, address: string, amount: int, height: int, status: DepositStatus,
                          inv: InvoiceId, now: Time): (r: Deposit) {
    var next := if d.status == DepositConfirmed && status == Detected then DepositConfirmed else status;
    d.(address := address, amount := amount, height := height,
       status := next,
       confirmedHeight := if next == DepositConfirmed then d.confirmedHeight else None,
       invoice := if d.invoice == 0 then inv else d.invoice,
       updatedAt := now)
  }

  /** Merchants a wallet may be blamed on; the store takes whichever its map iteration meets first. */
  predicate OwnsWallet(s: State, wallet: string, owner: MerchantId) {
    owner in s.wallets && s.wallets[owner].walletId == wallet
  }

  predicate OwnerChoice(s: State, wallet: string, owner: MerchantId) {
    if owner == 0 then forall m :: m in s.wallets ==> !OwnsWallet(s, wallet, m)
    else OwnsWallet(s, wallet, owner)
  }

  function PayloadWallet(ev: ScanEvent, p: Payload): (r: string) {
    if p.wallet == "" then TrimSpace(ev.wallet) else p.wallet
  }

  function PayloadKey(ev: ScanEvent, p: Payload): (r: DepKey) {
    DepKey(PayloadWallet(ev, p), p.txid, ToInt32(p.actionIndex))
  }

  predicate Acceptable(p: Payload) {
    p.address != "" && p.amount <= MAX_INT64
  }

  /** The deposit row after an event. */
  function DepositAfter(s: State, ev: ScanEvent, p: Payload, now: Time): (r: Deposit) {
    var address := ToLower(TrimSpace(p.address));
    var key := PayloadKey(ev, p);
    var inv := MatchInvoice(s, key.wallet, address, p.height);
    if key in s.deposits
    then UpdatedDeposit(s.deposits[key], address, p.amount, p.height, Incoming(ev.kind), inv, now)
    else NewDeposit(s.depositSeq + 1, address, p.amount, p.height, Incoming(ev.kind), inv,
          OccurredOr(ev.occurredAt, now), now)
  }

  function PutDeposit(s: State, key: DepKey, d: Deposit): (r: State) {
    s.(deposits := s.deposits[key := d], depositSeq := if key in s.deposits then s.depositSeq else s.depositSeq + 1)
  }

  /** The deposit written and, when it was detected, the detection recorded. */
  function AfterDetection(s: State, ev: ScanEvent, p: Payload, now: Time): (r: State)
    ensures r.(events := s.events) == PutDeposit(s, PayloadKey(ev, p), DepositAfter(s, ev, p, now))
  {
    var key := PayloadKey(ev, p);
    var d := DepositAfter(s, ev, p, now);
    var s1 := PutDeposit(s, key, d);
    if Incoming(ev.kind) == Detected
    then AppendEvent(s1, d.invoice, DepositDetectedEvent, OccurredOr(ev.occurredAt, ZERO_TIME),
        OfDeposit(key, p.amount, p.height))
    else s1
  }

  ghost function ApplyDeposit(s: State, ev: ScanEvent, p: Payload, owner: MerchantId, now: Time): (r: State)
    ensures r.(events := s.events, reviews := s.reviews, invoices := s.invoices,
               deposits := s.deposits, depositSeq := s.depositSeq) == s
    ensures Acceptable(p) ==>
              var d := DepositAfter(s, ev, p, now);
              && r.deposits == s.deposits[PayloadKey(ev, p) := d]
              && r.depositSeq == (if PayloadKey(ev, p) in s.deposits then s.depositSeq else s.depositSeq + 1)
              && r.invoices == if d.invoice in s.invoices && d.invoice != 0
                               then s.invoices[d.invoice := Refreshed(s.invoices[d.invoice],
                                   ReceivedOf(r.deposits, d.invoice), now)]
                               else s.invoices
    ensures !Acceptable(p) ==> r == s
  {
    if !Acceptable(p) then s else
    var key := PayloadKey(ev, p);
    var d := DepositAfter(s, ev, p, now);
    var s1 := PutDeposit(s, key, d);
    if d.invoice == 0 then CreateReview(s1, owner, 0, UnknownAddress, key, now)
    else Recompute(AfterDetection(s, ev, p, now), d.invoice, now)
  }

  /** Scan events that change the store: valid, newer than the wallet's cursor, and readable. */
  predicate Effective(s: State, ev: ScanEvent) {
    && TrimSpace(ev.wallet) != "" && ev.cursor > 0
    && ev.cursor > CursorOf(s, TrimSpace(ev.wallet))
    && (ev.kind == OtherKind || ev.payload.Some?)
  }

  ghost function ApplyScanEvent(s: State, ev: ScanEvent, owner: MerchantId, now: Time): (r: State)
    ensures r.(events := s.events, reviews := s.reviews, invoices := s.invoices,
               deposits := s.deposits, depositSeq := s.depositSeq, cursors := s.cursors) == s
  {
    if !Effective(s, ev) then s else
    var s1 := if ev.kind == OtherKind then s else ApplyDeposit(s, ev, ev.payload.value, owner, now);
    s1.(cursors := s1.cursors[TrimSpace(ev.wallet) := ev.cursor])
  }

  function ScanEventResult(s: State, ev: ScanEvent): (r: Result<()>) {
    if TrimSpace(ev.wallet) == "" || ev.cursor <= 0 then Err(InvalidArgument)
    else if ev.cursor <= CursorOf(s, TrimSpace(ev.wallet)) then Ok(())
    else if ev.kind != OtherKind && ev.payload.None? then Err(Malformed)
    else Ok(())
  }

  // ----- confirmation pass -----

  predicate ConfirmsAt(s: State, d: Deposit, best: int) {
    && d.invoice != 0 && d.status == Detected && d.invoice in s.invoices
    && best - d.height + 1 >= s.invoices[d.invoice].Required()
  }

  function ConfirmedDeposit(s: State, d: Deposit, now: Time): (r: Deposit)
    requires d.invoice in s.invoices
  {
    d.(status := DepositConfirmed,
       confirmedHeight := Some(d.height + s.invoices[d.invoice].Required() - 1),
       updatedAt := now)
  }

  function ConfirmOne(s: State, k: DepKey, best: int, now: Time): (r: State)
    ensures r.(events := s.events, deposits := s.deposits) == s
    ensures r.deposits == if k in s.deposits && ConfirmsAt(s, s.deposits[k], best)
                          then s.deposits[k := ConfirmedDeposit(s, s.deposits[k], now)]
                          else s.deposits
  {
    if k !in s.deposits || !ConfirmsAt(s, s.deposits[k], best) then s else
    var d := s.deposits[k];
    AppendEvent(s.(deposits := s.deposits[k := ConfirmedDeposit(s, d, now)]),
                d.invoice, DepositConfirmedEvent, now, OfDeposit(k, d.amount, d.height))
  }

  /** The first loop of the pass: every deposit once, in the order the map yields them. */
  function ConfirmAll(s: State, order: seq<DepKey>, best: int, now: Time): (r: State) {
    if order == [] then s
    else ConfirmOne(ConfirmAll(s, order[..|order| - 1], best, now), order[|order| - 1], best, now)
  }

  ghost function Affected(s: State, best: int): (r: set<InvoiceId>) {
    set k | k in s.deposits && ConfirmsAt(s, s.deposits[k], best) :: s.deposits[k].invoice
  }

  /** The second loop: every affected invoice once. */
  ghost function RecomputeAll(s: State, order: seq<InvoiceId>, now: Time): (r: State) {
    if order == [] then s else Recompute(RecomputeAll(s, order[..|order| - 1], now), order[|order| - 1], now)
  }

  /** `order` lists each element of `elems` once. */
  ghost predicate Lists<T(!new)>(order: seq<T>, elems: set<T>) {
    && (forall x :: x in order <==> x in elems)
    && (forall i, j :: 0 <= i < j < |order| ==> order[i] != order[j])
  }

  lemma {:induction false} ListsLength<T(!new)>(order: seq<T>, elems: set<T>)
    requires Lists(order, elems)
    ensures |order| == |elems|
  {
    if order == [] {
      assert elems == {};
    } else {
      var rest, x := order[..|order| - 1], order[|order| - 1];
      assert order == rest + [x];
      ListsLength(rest, elems - {x});
    }
  }

  ghost predicate PassOrders(s: State, best: int, order: seq<DepKey>, invOrder: seq<InvoiceId>) {
    Lists(order, s.deposits.Keys) && Lists(invOrder, Affected(s, best))
  }

  ghost function ConfirmPass(s: State, best: int, now: Time, order: seq<DepKey>, invOrder: seq<InvoiceId>): (r: State) {
    RecomputeAll(ConfirmAll(s, order, best, now), invOrder, now)
  }

  // ----- API calls -----

  function CreateMerchant(s: State, name: string, settings: Settings, now: Time): (r: (State, Result<MerchantId>))
    ensures r.0.(merchants := s.merchants, merchantSeq := s.merchantSeq) == s
  {
    if TrimSpace(name) == "" || !settings.Validate() then (s, Err(InvalidArgument)) else
    var id := s.merchantSeq + 1;
    (s.(merchantSeq := id, merchants := s.merchants[id := Merchant(TrimSpace(name), settings, now, now)]), Ok(id))
  }

  function UpdateMerchantSettings(s: State, m: MerchantId, settings: Settings, now: Time): (r: (State, Result<()>))
    ensures r.0.(merchants := s.merchants) == s
  {
    if !settings.Validate() then (s, Err(InvalidArgument))
    else if m !in s.merchants then (s, Err(NotFound))
    else (s.(merchants := s.merchants[m := s.merchants[m].(settings := settings, updatedAt := now)]), Ok(()))
  }

  function NormalWallet(w: Wallet, now: Time): (r: Wallet) {
    Wallet(TrimSpace(w.walletId), TrimSpace(w.ufvk), TrimSpace(w.chain), TrimSpace(w.uaHrp), w.coinType, now)
  }

  function SetMerchantWallet(s: State, m: MerchantId, w: Wallet, now: Time): (r: (State, Result<()>))
    ensures r.0.(wallets := s.wallets, nextIndex := s.nextIndex) == s
  {
    var w' := NormalWallet(w, now);
    if w'.walletId == "" || w'.ufvk == "" || w'.uaHrp == "" || w'.chain == "" then (s, Err(InvalidArgument))
    else if m !in s.merchants then (s, Err(NotFound))
    else if m in s.wallets then (s, Err(Conflict))
    else (s.(wallets := s.wallets[m := w'], nextIndex := s.nextIndex[m := 0]), Ok(()))
  }

  const TWO_32 := 0x1_0000_0000

  /** Address indexes are 32-bit and wrap around. */
  function NextAddressIndex(s: State, m: MerchantId): (r: (State, Result<nat>))
    ensures r.0.(nextIndex := s.nextIndex) == s
  {
    if m == 0 then (s, Err(InvalidArgument))
    else if m !in s.merchants || m !in s.wallets then (s, Err(NotFound))
    else
      var idx := if m in s.nextIndex then s.nextIndex[m] else 0;
      (s.(nextIndex := s.nextIndex[m := (idx + 1) % TWO_32]), Ok(idx))
  }

  datatype InvoiceCreate = InvoiceCreate(
    merchant: MerchantId,
    externalOrder: string,
    wallet: string,
    addressIndex: nat,
    address: string,
    createdAfterHeight: int,
    createdAfterHash: string,
    amount: int,
    requiredConfirmations: int,
    policies: Policies,
    expiresAt: Option<Time>)
  {
    function Normal(): (r: InvoiceCreate) {
      this.(externalOrder := TrimSpace(externalOrder), wallet := TrimSpace(wallet),
          address := ToLower(TrimSpace(address)))
    }

    /** The arguments of a normalised request are usable. */
    predicate Usable() {
      merchant != 0 && externalOrder != "" && amount > 0 && address != "" && wallet != ""
    }

    function NewInvoice(now: Time): (r: Invoice) {
      Invoice(merchant, externalOrder, wallet, addressIndex, address, createdAfterHeight, createdAfterHash,
              amount, requiredConfirmations, policies, Received(0, 0), Open, expiresAt, now, now)
    }
  }

  /** Result of creating an invoice: its id and whether it is new. */
  datatype Created = Created(id: InvoiceId, invoice: Invoice, isNew: bool)

  function InsertInvoice(s: State, r: InvoiceCreate, now: Time): (res: State) {
    var id := s.invoiceSeq + 1;
    AppendEvent(s.(invoiceSeq := id,
                   invoices := s.invoices[id := r.NewInvoice(now)],
                   byExternal := s.byExternal[(r.merchant, r.externalOrder) := id],
                   byAddress := s.byAddress[(r.wallet, r.address) := id]),
                id, InvoiceCreated, now, NoSubject)
  }

  function CreateInvoice(s: State, req: InvoiceCreate, now: Time): (res: (State, Result<Created>))
    ensures res.0.(invoices := s.invoices, byExternal := s.byExternal, byAddress := s.byAddress,
            invoiceSeq := s.invoiceSeq,
                   events := s.events) == s
    ensures if res.1.Ok? && res.1.value.isNew
            then var id := s.invoiceSeq + 1;
                 && res.0.invoiceSeq == id && res.1.value.id == id
                 && res.0.invoices == s.invoices[id := req.Normal().NewInvoice(now)]
                 && res.0 == InsertInvoice(s, req.Normal(), now)
            else res.0 == s
  {
    var r := req.Normal();
    if !r.Usable() then (s, Err(InvalidArgument))
    else if r.merchant !in s.merchants then (s, Err(NotFound))
    else if (r.merchant, r.externalOrder) in s.byExternal then
      var id := s.byExternal[(r.merchant, r.externalOrder)];
      if id !in s.invoices || s.invoices[id].amount != r.amount then (s, Err(Conflict))
      else (s, Ok(Created(id, s.invoices[id], false)))
    else if (r.wallet, r.address) in s.byAddress then (s, Err(Conflict))
    else (InsertInvoice(s, r, now), Ok(Created(s.invoiceSeq + 1, r.NewInvoice(now), true)))
  }

  function PutInvoiceToken(s: State, inv: InvoiceId, token: string): (r: (State, Result<()>))
    ensures r.0.(tokens := s.tokens) == s
  {
    if inv == 0 || TrimSpace(token) == "" then (s, Err(InvalidArgument))
    else if inv !in s.invoices then (s, Err(NotFound))
    else (s.(tokens := s.tokens[inv := TrimSpace(token)]), Ok(()))
  }

  datatype RefundCreate = RefundCreate(
    merchant: MerchantId, invoice: InvoiceId, externalId: string, toAddress: string, amount: int, sentTxid: string,
        notes: string)

  function CreateRefund(s: State, req: RefundCreate, now: Time): (r: (State, Result<Refund>))
    ensures r.0.(refunds := s.refunds, events := s.events) == s
  {
    if req.merchant == 0 || TrimSpace(req.toAddress) == "" || req.amount <= 0 then (s, Err(InvalidArgument))
    else if req.merchant !in s.merchants then (s, Err(NotFound))
    else if req.invoice != 0 && req.invoice !in s.invoices then (s, Err(NotFound))
    else if req.invoice != 0 && s.invoices[req.invoice].merchant != req.merchant then (s, Err(Forbidden))
    else
      var refund := Refund(|s.refunds| + 1, req.merchant, req.invoice, TrimSpace(req.externalId),
          TrimSpace(req.toAddress),
                           req.amount, TrimSpace(req.sentTxid), TrimSpace(req.notes), now);
      var s1 := s.(refunds := s.refunds + [refund]);
      var typ := if refund.sentTxid == "" then RefundRequested else RefundSent;
      (AppendEvent(s1, req.invoice, typ, now, OfRefund(refund)), Ok(refund))
  }

  function CloseReview(s: State, id: ReviewId, verdict: ReviewStatus, notes: string,
                       now: Time): (r: (State, Result<()>))
    ensures r.0.(reviews := s.reviews) == s
    ensures r.0.reviews.lastId == s.reviews.lastId && r.0.reviews.cases.Keys == s.reviews.cases.Keys
    ensures forall x :: x in s.reviews.cases ==>
              var c, c' := s.reviews.cases[x], r.0.reviews.cases[x];
              && c'.(status := c.status, notes := c.notes, updatedAt := c.updatedAt) == c
              && (c' == c || (x == id && c'.status == verdict))
  {
    if id == 0 || TrimSpace(notes) == "" then (s, Err(InvalidArgument))
    else if id !in s.reviews.cases then (s, Err(NotFound))
    else
      var c := s.reviews.cases[id].(status := verdict, notes := TrimSpace(notes), updatedAt := now);
      (s.(reviews := s.reviews.(cases := s.reviews.cases[id := c])), Ok(()))
  }

  /** `kind` and `config` are None when the request does not hold a known kind or a JSON object. */
  function CreateEventSink(s: State, m: MerchantId, kind: Option<SinkKind>, config: Option<string>,
                           now: Time): (r: (State, Result<SinkId>))
    ensures r.0.(sinks := s.sinks, sinkSeq := s.sinkSeq) == s
  {
    if m == 0 || kind.None? || config.None? then (s, Err(InvalidArgument))
    else if m !in s.merchants then (s, Err(NotFound))
    else
      var id := s.sinkSeq + 1;
      (s.(sinkSeq := id, sinks := s.sinks[id := Sink(m, kind.value, true, config.value, now)]), Ok(id))
  }

  function UpdateDelivery(s: State, k: DeliveryKey, d: Delivery): (r: (State, Result<()>))
    ensures r.0.(events := s.events) == s && r.0.events.(deliveries := s.events.deliveries) == s.events
  {
    if k !in s.events.deliveries then (s, Err(NotFound))
    else (s.(events := s.events.(deliveries := s.events.deliveries[k := d])), Ok(()))
  }

  // ----- runs -----

  datatype Action =
    | DoCreateMerchant(name: string, settings: Settings, now: Time)
    | DoUpdateSettings(m: MerchantId, settings: Settings, now: Time)
    | DoSetWallet(m: MerchantId, w: Wallet, now: Time)
    | DoNextIndex(m: MerchantId)
    | DoCreateInvoice(req: InvoiceCreate, now: Time)
    | DoPutToken(inv: InvoiceId, token: string)
    | DoScan(ev: ScanEvent, owner: MerchantId, now: Time)
    | DoConfirm(best: int, order: seq<DepKey>, invOrder: seq<InvoiceId>, now: Time)
    | DoRefund(refund: RefundCreate, now: Time)
    | DoCloseReview(review: ReviewId, verdict: ReviewStatus, notes: string, now: Time)
    | DoCreateSink(m: MerchantId, kind: Option<SinkKind>, config: Option<string>, now: Time)
    | DoUpdateDelivery(delivery: DeliveryKey, next: Delivery)

  /** The choices recorded in an action are ones the store could make. */
  ghost predicate Enabled(s: State, a: Action) {
    match a
    case DoScan(ev, owner, _) => ev.payload.Some? ==> OwnerChoice(s, PayloadWallet(ev, ev.payload.value), owner)
    case DoConfirm(best, order, invOrder, _) => PassOrders(s, best, order, invOrder)
    case DoCloseReview(_, verdict, _, _) => verdict != ReviewOpen
    case _ => true
  }

  ghost function Step(s: State, a: Action): (r: State) {
    match a
    case DoCreateMerchant(name, settings, now) => CreateMerchant(s, name, settings, now).0
    case DoUpdateSettings(m, settings, now) => UpdateMerchantSettings(s, m, settings, now).0
    case DoSetWallet(m, w, now) => SetMerchantWallet(s, m, w, now).0
    case DoNextIndex(m) => NextAddressIndex(s, m).0
    case DoCreateInvoice(req, now) => CreateInvoice(s, req, now).0
    case DoPutToken(inv, token) => PutInvoiceToken(s, inv, token).0
    case DoScan(ev, owner, now) => ApplyScanEvent(s, ev, owner, now)
    case DoConfirm(best, order, invOrder, now) => ConfirmPass(s, best, now, order, invOrder)
    case DoRefund(refund, now) => CreateRefund(s, refund, now).0
    case DoCloseReview(r, verdict, notes, now) => CloseReview(s, r, verdict, notes, now).0
    case DoCreateSink(m, kind, config, now) => CreateEventSink(s, m, kind, config, now).0
    case DoUpdateDelivery(k, d) => UpdateDelivery(s, k, d).0
  }

  /** Calls that leave invoices and deposits alone. */
  predicate Minor(a: Action) {
    !a.DoScan? && !a.DoConfirm? && !a.DoCreateInvoice?
  }

  lemma MinorFrame(s: State, a: Action)
    requires Minor(a)
    ensures var s' := Step(s, a);
            && s'.invoices == s.invoices && s'.deposits == s.deposits && s'.cursors == s.cursors
            && s'.byExternal == s.byExternal && s'.byAddress == s.byAddress
            && s'.invoiceSeq == s.invoiceSeq && s'.depositSeq == s.depositSeq
            && (a.DoCreateSink? || s'.sinks == s.sinks)
  {
    hide CreateMerchant, UpdateMerchantSettings, SetMerchantWallet, NextAddressIndex, PutInvoiceToken, CreateRefund,
      CloseReview, CreateEventSink, UpdateDelivery;
  }

  /** State after a sequence of calls on a new store. */
  ghost function Run(acts: seq<Action>): (r: State) {
    if acts == [] then EMPTY else Step(Run(acts[..|acts| - 1]), acts[|acts| - 1])
  }

  /** Every recorded choice of the run was possible when it was made. */
  ghost predicate Legal(acts: seq<Action>) {
    forall n :: 0 <= n < |acts| ==> Enabled(Run(acts[..n]), acts[n])
  }

  lemma LegalPrefix(acts: seq<Action>)
    requires Legal(acts) && acts != []
    ensures Legal(acts[..|acts| - 1])
    ensures Enabled(Run(acts[..|acts| - 1]), acts[|acts| - 1])
  {
    var before := acts[..|acts| - 1];
    assert forall n :: 0 <= n < |before| ==> before[..n] == acts[..n];
  }
}
