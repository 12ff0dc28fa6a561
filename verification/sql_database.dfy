/**
 The calls of the SQL store on its whole database: the accounting tables with
 the event table and the review cases. Each call is one transaction, and
 leaves the database as it was when it fails. Random ids are modelled as
 numbers in order of insertion.
*/
module SqlDatabase {
  import opened Domain
  import opened Text
  import opened Ledger
  import opened SqlLedger
  import Emissions
  import opened ReviewCases

  /** The tables; in a review case about an invoice the deposit columns are null. */
  datatype Database = Database(
    tables: Tables,
    merchants: set<MerchantId>,
    merchantSeq: nat,
    invoiceSeq: nat,
    refunds: seq<Refund>,
    log: seq<Emission>,
    cases: seq<ReviewCase>)

  const EMPTY_DATABASE := Database(Tables(map[], map[], map[], map[], 0), {}, 0, 0, [], [], [])

  // ----- the event table -----

  /**
   A row with the same invoice and type that a unique index, or the check before the
   insert, takes for the same event.
  */
  predicate Said(log: seq<Emission>, e: Emission) {
    exists n :: 0 <= n < |log| && log[n].inv == e.inv && log[n].typ == e.typ && log[n].subject.SameAs(e.subject)
  }

  function InsertEvent(log: seq<Emission>, e: Emission): (r: seq<Emission>)
    ensures log <= r
  {
    if Said(log, e) then log else log + [e.(at := Whole(e.at))]
  }

  function InsertEvents(log: seq<Emission>, es: seq<Emission>): (r: seq<Emission>) {
    if es == [] then log else InsertEvent(InsertEvents(log, es[..|es| - 1]), es[|es| - 1])
  }

  lemma AtMostOneEvent(log: seq<Emission>, es: seq<Emission>)
    requires |es| <= 1
    ensures InsertEvents(log, es) == if es == [] then log else InsertEvent(log, es[0])
  {
    hide InsertEvent;
    if es != [] {
      assert es[..0] == [] && InsertEvents(log, es[..0]) == log;
    }
  }

  // ----- the review cases -----

  /** The unique index on merchant, invoice, reason and status; rows without an invoice are never equal under it. */
  predicate SameInvoiceCase(c: ReviewCase, merchant: MerchantId, inv: InvoiceId, reason: ReviewReason,
                            status: ReviewStatus) {
    c.invoice != 0 && c.invoice == inv && c.merchant == merchant && c.reason == reason && c.status == status
  }

  /** The unique index on the deposit and the reason; rows about invoices have no deposit. */
  predicate SameDepositCase(c: ReviewCase, dep: DepKey, reason: ReviewReason) {
    c.invoice == 0 && c.deposit == dep && c.reason == reason
  }

  predicate Blocked(cases: seq<ReviewCase>, a: Ask) {
    exists n :: 0 <= n < |cases| &&
      if a.inv != 0 then SameInvoiceCase(cases[n], a.merchant, a.inv, a.reason, ReviewOpen)
      else SameDepositCase(cases[n], a.dep, a.reason)
  }

  /** An insert that a unique index refuses is ignored; an unclaimed deposit without a merchant is not put up at all. */
  function InsertCase(cases: seq<ReviewCase>, a: Ask): (r: seq<ReviewCase>)
    ensures cases <= r
  {
    if a.merchant == 0 || Blocked(cases, a) then cases
    else cases + [ReviewCase(a.merchant, a.inv, a.reason, ReviewOpen, a.dep, "", Whole(a.now), Whole(a.now))]
  }

  function InsertCases(cases: seq<ReviewCase>, asks: seq<Ask>): (r: seq<ReviewCase>) {
    if asks == [] then cases else InsertCase(InsertCases(cases, asks[..|asks| - 1]), asks[|asks| - 1])
  }

  lemma AtMostOneCase(cases: seq<ReviewCase>, asks: seq<Ask>)
    requires |asks| <= 1
    ensures InsertCases(cases, asks) == if asks == [] then cases else InsertCase(cases, asks[0])
  {
    hide InsertCase;
    if asks != [] {
      assert asks[..0] == [] && InsertCases(cases, asks[..0]) == cases;
    }
  }

  // ----- recomputing an invoice -----

  /** The review a changed status calls for, with expiry judged in seconds. */
  function SqlReview(inv: Invoice, now: Time): (r: Option<ReviewReason>) {
    if inv.status == PartialConfirmed && inv.policies.partial == RejectPartial then Some(PartialPayment)
    else if inv.status == Overpaid && inv.policies.over == OverManualReview then Some(Overpayment)
    else if (inv.status == Confirmed || inv.status == PaidLate) && SqlExpired(inv, now)
            && inv.received.confirmed == inv.amount && inv.policies.late == LateManualReview then Some(LatePayment)
    else None
  }

  function SqlAsks(i: InvoiceId, before: Invoice, after: Invoice, now: Time): (r: seq<Ask>) {
    if after.status == before.status || SqlReview(after, now).None? then []
    else [Ask(after.merchant, i, SqlReview(after, now).value, NO_DEPOSIT, now)]
  }

  ghost function Recomputed(db: Database, i: InvoiceId, now: Time): (r: Result<Database>)
    ensures r.Ok? ==> r.value.(tables := db.tables, log := db.log, cases := db.cases) == db
    ensures if r.Ok? then SqlRecompute(db.tables, i, now) == Ok(r.value.tables)
            else SqlRecompute(db.tables, i, now) == Err(r.error)
  {
    var t := SqlRecompute(db.tables, i, now);
    if t.Err? then Err(t.error) else
    var before, after := db.tables.invoices[i], t.value.invoices[i];
    Ok(db.(tables := t.value,
           log := InsertEvents(db.log, Emissions.StatusNews(i, before, after, now)),
           cases := InsertCases(db.cases, SqlAsks(i, before, after, now))))
  }

  // ----- scan events -----

  /** Some merchant with the wallet, or zero. */
  ghost function WalletOwner(t: Tables, wallet: string): (m: MerchantId)
    ensures (m in t.wallets && t.wallets[m].walletId == wallet)
            || (m == 0 && forall n :: n in t.wallets ==> t.wallets[n].walletId != wallet)
  {
    if exists m :: m in t.wallets && t.wallets[m].walletId == wallet
    then var m :| m in t.wallets && t.wallets[m].walletId == wallet; m else 0
  }

  ghost function Detection(t: Tables, ev: ScanEvent, p: Payload): (r: seq<Emission>) {
    if Incoming(ev.kind) != Detected then []
    else [Emission(Matched(t, p), DepositDetectedEvent, OccurredOr(ev.occurredAt, ZERO_TIME),
          OfDeposit(EventKey(p), Wrap64(p.amount), p.height))]
  }

  ghost function DepositTx(db: Database, ev: ScanEvent, p: Payload, now: Time): (r: Result<Database>) {
    var t1 := PutRow(db.tables, EventKey(p), RowAfter(db.tables, ev, p, now));
    if Matched(db.tables, p) != 0
    then Recomputed(db.(tables := t1, log := InsertEvents(db.log, Detection(db.tables, ev, p))),
        Matched(db.tables, p), now)
    else if Ambiguous(db.tables, p.wallet) then Err(Internal)
    else Ok(db.(tables := t1,
                cases := InsertCase(db.cases,
                    Ask(WalletOwner(db.tables, p.wallet), 0, UnknownAddress, EventKey(p), now))))
  }

  /** The accounting part of it. */
  lemma DepositTxTables(db: Database, ev: ScanEvent, p: Payload, now: Time)
    ensures var r := DepositTx(db, ev, p, now);
            if r.Ok? then SqlDeposit(db.tables, ev, p, now) == Ok(r.value.tables)
                else SqlDeposit(db.tables, ev, p, now) == Err(r.error)
    ensures var r := DepositTx(db, ev, p, now);
            r.Ok? ==> r.value.(tables := db.tables, log := db.log, cases := db.cases) == db
  {
    hide RowAfter, Matched, Ambiguous, Recomputed, InsertEvents, InsertCase;
  }

  ghost function ScanTx(db: Database, ev: ScanEvent, now: Time): (r: Result<Database>) {
    var wallet := TrimSpace(ev.wallet);
    if wallet == "" || ev.cursor <= 0 then Err(InvalidArgument)
    else if ev.cursor <= StoredCursor(db.tables, wallet) then Ok(db)
    else if ev.kind != OtherKind && ev.payload.None? then Err(Malformed)
    else
      var r := if ev.kind == OtherKind then Ok(db) else DepositTx(db, ev, ev.payload.value, now);
      if r.Err? then r else
      var t := r.value.tables;
      Ok(r.value.(tables := t.(cursors := t.cursors[wallet := ev.cursor])))
  }

  // ----- confirmation pass -----

  /** The events of the rows confirmed, in the order the query yields them. */
  function ConfirmedNews(t: Tables, keys: seq<DepKey>, now: Time): (r: seq<Emission>)
    requires forall k :: k in keys ==> k in t.deposits
  {
    if keys == [] then [] else
    ConfirmedNews(t, keys[..|keys| - 1], now) + [ConfirmedEvent(t, keys[|keys| - 1], now)]
  }

  function ConfirmedEvent(t: Tables, k: DepKey, now: Time): (r: Emission)
    requires k in t.deposits
  {
    Emission(t.deposits[k].invoice, DepositConfirmedEvent, now,
        OfDeposit(k, t.deposits[k].amount, t.deposits[k].height))
  }

  /** The touched invoices recomputed one after another. */
  ghost function RecomputedAll(db: Database, touched: seq<InvoiceId>, now: Time): (r: Result<Database>) {
    if touched == [] then Ok(db) else
    var r := RecomputedAll(db, touched[..|touched| - 1], now);
    if r.Err? then r else Recomputed(r.value, touched[|touched| - 1], now)
  }

  ghost function SelectedKeys(t: Tables, best: int): (r: set<DepKey>) {
    set k | k in t.deposits && Selected(t, t.deposits[k], best)
  }

  /** The rows to confirm and the invoices they touch, in any order. */
  ghost predicate PassRows(t: Tables, best: int, keys: seq<DepKey>, touched: seq<InvoiceId>) {
    Lists(keys, SelectedKeys(t, best)) && Lists(touched, InvoicesTouched(t, best))
  }

  ghost function PassTx(db: Database, best: int, now: Time, keys: seq<DepKey>,
                        touched: seq<InvoiceId>): (r: Result<Database>)
    requires PassRows(db.tables, best, keys, touched)
  {
    RecomputedAll(db.(tables := db.tables.(deposits := RowsConfirmed(db.tables, best, now)),
                      log := InsertEvents(db.log, ConfirmedNews(db.tables, keys, now))), touched, now)
  }

  // ----- calls of the API -----

  function CreateMerchantTx(db: Database, name: string, settings: Settings): (r: Result<Database>) {
    if TrimSpace(name) == "" || !settings.Validate() then Err(InvalidArgument)
    else Ok(db.(merchantSeq := db.merchantSeq + 1, merchants := db.merchants + {db.merchantSeq + 1}))
  }

  function SetWalletTx(db: Database, m: MerchantId, w: Wallet, now: Time): (r: Result<Database>) {
    var w' := NormalWallet(w, Whole(now));
    if m == 0 || w'.walletId == "" || w'.ufvk == "" || w'.chain == "" || w'.uaHrp == "" then Err(InvalidArgument)
    else if m !in db.merchants then Err(NotFound)
    else if m in db.tables.wallets then Err(Conflict)
    else Ok(db.(tables := db.tables.(wallets := db.tables.wallets[m := w'])))
  }

  /** The row of a new invoice, with its times in whole seconds. */
  function InvoiceRow(req: InvoiceCreate, now: Time): (r: Invoice) {
    var expires := if req.expiresAt.Some? then Some(Whole(req.expiresAt.value)) else None;
    req.(createdAfterHash := TrimSpace(req.createdAfterHash), expiresAt := expires).NewInvoice(Whole(now))
  }

  /** A row the new one would violate a unique index with. */
  predicate Violates(invoices: map<InvoiceId, Invoice>, inv: Invoice) {
    exists i :: i in invoices &&
      ((invoices[i].merchant == inv.merchant && invoices[i].externalOrder == inv.externalOrder)
       || (invoices[i].wallet == inv.wallet && invoices[i].address == inv.address))
  }

  ghost predicate IsOrder(t: Tables, i: InvoiceId, merchant: MerchantId, order: string) {
    i in t.invoices && t.invoices[i].merchant == merchant && t.invoices[i].externalOrder == order
  }

  /** The answer when the insert is refused: the invoice of the same order, if it is for the same amount and address. */
  ghost function Replayed(t: Tables, r: InvoiceCreate): (res: Result<Created>) {
    if i: InvoiceId :| IsOrder(t, i, r.merchant, r.externalOrder) then
      if t.invoices[i].amount != r.amount || t.invoices[i].wallet != r.wallet
          || t.invoices[i].address != r.address then Err(Conflict)
      else Ok(Created(i, t.invoices[i], false))
    else Err(Conflict)
  }

  /** Whether the merchant exists is not asked. */
  ghost function CreateInvoiceTx(db: Database, req: InvoiceCreate, now: Time): (res: (Database, Result<Created>)) {
    var r := req.Normal();
    if !r.Usable() then (db, Err(InvalidArgument))
    else if Violates(db.tables.invoices, InvoiceRow(r, now)) then (db, Replayed(db.tables, r))
    else
      var id := db.invoiceSeq + 1;
      (db.(invoiceSeq := id, tables := db.tables.(invoices := db.tables.invoices[id := InvoiceRow(r, now)]),
           log := InsertEvent(db.log, Emission(id, InvoiceCreated, now, NoSubject))),
       Ok(Created(id, r.(createdAfterHash := TrimSpace(r.createdAfterHash)).NewInvoice(now), true)))
  }

  function RefundTx(db: Database, req: RefundCreate, now: Time): (r: Result<Database>) {
    if req.merchant == 0 || TrimSpace(req.toAddress) == "" || req.amount <= 0 then Err(InvalidArgument)
    else if req.merchant !in db.merchants then Err(NotFound)
    else if req.invoice != 0 && req.invoice !in db.tables.invoices then Err(NotFound)
    else if req.invoice != 0 && db.tables.invoices[req.invoice].merchant != req.merchant then Err(Forbidden)
    else
      var refund := Refund(|db.refunds| + 1, req.merchant, req.invoice, TrimSpace(req.externalId),
          TrimSpace(req.toAddress),
                           req.amount, TrimSpace(req.sentTxid), TrimSpace(req.notes), Whole(now));
      var typ := if refund.sentTxid == "" then RefundRequested else RefundSent;
      Ok(db.(refunds := db.refunds + [refund],
             log := if req.invoice == 0 then db.log
                 else InsertEvent(db.log, Emission(req.invoice, typ, now, OfRefund(refund)))))
  }

  /** Another case of the invoice that was closed in the same way stands in the way of closing this one. */
  predicate CloseBlocked(cases: seq<ReviewCase>, n: nat, verdict: ReviewStatus)
    requires n < |cases|
  {
    exists m :: 0 <= m < |cases| && m != n
      && SameInvoiceCase(cases[m], cases[n].merchant, cases[n].invoice, cases[n].reason, verdict)
  }

  function CloseReviewTx(db: Database, id: ReviewId, verdict: ReviewStatus, notes: string,
                         now: Time): (r: Result<Database>) {
    if id == 0 || TrimSpace(notes) == "" then Err(InvalidArgument)
    else if id > |db.cases| then Err(NotFound)
    else if CloseBlocked(db.cases, id - 1, verdict) then Err(Internal)
    else Ok(db.(cases := db.cases[id - 1 := db.cases[id - 1].(status := verdict, notes := TrimSpace(notes),
          updatedAt := Whole(now))]))
  }

  // ----- what the rows hold, and what the indexes refuse -----

  /** An event is stored once per invoice, type and subject, and its time in whole seconds. */
  lemma EventStored(log: seq<Emission>, e: Emission)
    ensures if Said(log, e) then InsertEvent(log, e) == log
            else |InsertEvent(log, e)| == |log| + 1 && InsertEvent(log, e)[..|log|] == log
                 && var x := InsertEvent(log, e)[|log|];
                    && x.inv == e.inv && x.typ == e.typ && x.subject == e.subject
                    && x.at % 1_000_000_000 == 0 && x.at <= e.at < x.at + 1_000_000_000
  {
  }

  /** A deposit gets one case for a reason, ever: a closed case, or one of another merchant, keeps a new one out. */
  lemma DepositCaseOnce(cases: seq<ReviewCase>, a: Ask)
    requires a.inv == 0 && a.merchant != 0
    ensures InsertCase(cases, a) == cases <==>
              exists n :: 0 <= n < |cases| && cases[n].invoice == 0 && cases[n].deposit == a.dep
                  && cases[n].reason == a.reason
    ensures InsertCase(cases, a) != cases ==>
              |InsertCase(cases, a)| == |cases| + 1
              && var c := InsertCase(cases, a)[|cases|];
                 c.status == ReviewOpen && c.merchant == a.merchant && c.deposit == a.dep && c.reason == a.reason
                     && c.invoice == 0
  {
    if exists n :: 0 <= n < |cases| && cases[n].invoice == 0 && cases[n].deposit == a.dep
        && cases[n].reason == a.reason {
      var n :| 0 <= n < |cases| && cases[n].invoice == 0 && cases[n].deposit == a.dep && cases[n].reason == a.reason;
      assert SameDepositCase(cases[n], a.dep, a.reason);
    }
  }

  /** A case is closed unless another one of the same invoice and reason has been closed in the same way. */
  lemma ClosedOnce(db: Database, id: ReviewId, verdict: ReviewStatus, notes: string, now: Time)
    ensures CloseReviewTx(db, id, verdict, notes, now).Ok? <==>
              && 1 <= id <= |db.cases| && TrimSpace(notes) != ""
              && forall m :: 0 <= m < |db.cases| && m != id - 1 ==>
                   !(db.cases[m].invoice != 0 && db.cases[m].invoice == db.cases[id - 1].invoice
                     && db.cases[m].merchant == db.cases[id - 1].merchant
                         && db.cases[m].reason == db.cases[id - 1].reason
                     && db.cases[m].status == verdict)
  {
    hide TrimSpace;
    if 1 <= id <= |db.cases| && CloseBlocked(db.cases, id - 1, verdict) {
      var m :| 0 <= m < |db.cases| && m != id - 1
        && SameInvoiceCase(db.cases[m], db.cases[id - 1].merchant, db.cases[id - 1].invoice, db.cases[id - 1].reason,
            verdict);
    }
  }

  /** An invoice is stored with its block hash trimmed and its times in whole seconds. */
  lemma InvoiceStored(req: InvoiceCreate, now: Time)
    ensures var row := InvoiceRow(req, now);
            && row.createdAfterHash == TrimSpace(req.createdAfterHash) && row.createdAt == row.updatedAt
            && row.createdAt % 1_000_000_000 == 0 && row.createdAt <= now < row.createdAt + 1_000_000_000
            && (req.expiresAt.None? <==> row.expiresAt.None?)
            && (req.expiresAt.Some? ==>
                  && row.expiresAt.value % 1_000_000_000 == 0
                  && row.expiresAt.value <= req.expiresAt.value < row.expiresAt.value + 1_000_000_000)
  {
    hide TrimSpace;
  }

  // ----- runs -----

  function Committed(db: Database, r: Result<Database>): (db': Database) {
    if r.Ok? then r.value else db
  }

  /** The keys of a list that a pass selects. */
  function SelectedOf(t: Tables, order: seq<DepKey>, best: int): (r: seq<DepKey>)
    ensures forall k :: k in r <==> k in order && k in t.deposits && Selected(t, t.deposits[k], best)
  {
    if order == [] then [] else
    var k := order[|order| - 1];
    assert order == order[..|order| - 1] + [k];
    SelectedOf(t, order[..|order| - 1], best) + if k in t.deposits && Selected(t, t.deposits[k], best) then [k] else []
  }

  /**
   A call on the database; the other calls touch none of these tables. Passes take rows
   in the order given by the action.
  */
  ghost function DatabaseStep(db: Database, a: Action): (db': Database) {
    match a
    case DoCreateMerchant(name, settings, _) => Committed(db, CreateMerchantTx(db, name, settings))
    case DoSetWallet(m, w, now) => Committed(db, SetWalletTx(db, m, w, now))
    case DoCreateInvoice(req, now) => CreateInvoiceTx(db, req, now).0
    case DoScan(ev, _, now) => Committed(db, ScanTx(db, ev, now))
    case DoConfirm(best, order, invOrder, now) =>
      var keys := SelectedOf(db.tables, order, best);
      if PassRows(db.tables, best, keys, invOrder) then Committed(db, PassTx(db, best, now, keys, invOrder)) else db
    case DoRefund(req, now) => Committed(db, RefundTx(db, req, now))
    case DoCloseReview(id, verdict, notes, now) => Committed(db, CloseReviewTx(db, id, verdict, notes, now))
    case _ => db
  }

  ghost function DatabaseRun(db: Database, acts: seq<Action>): (db': Database) {
    if acts == [] then db else DatabaseStep(DatabaseRun(db, acts[..|acts| - 1]), acts[|acts| - 1])
  }
}
