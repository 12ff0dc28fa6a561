/**
 The methods of the SQL store: each works on a transaction's view of the
 database and commits at the end, or leaves the database as it was.
*/
module SqlStore {
  import opened Domain
  import opened Sums
  import opened Text
  import opened Ledger
  import opened SqlLedger
  import opened SqlDatabase
  import Attribution
  import Emissions
  import opened ReviewCases

  /** The query for the two sums of an invoice. */
  method SelectSums(deposits: map<DepKey, Deposit>, inv: InvoiceId) returns (pending: int, confirmed: int)
    ensures pending == PendingOf(deposits, inv) && confirmed == ConfirmedOf(deposits, inv)
  {
    pending, confirmed := 0, 0;
    var todo := deposits.Keys;
    ghost var p: map<DepKey, int>, c: map<DepKey, int> := map[], map[];
    while todo != {}
      invariant todo <= deposits.Keys
      invariant p.Keys == c.Keys == deposits.Keys - todo
      invariant forall k :: k in p ==>
              p[k] == PendingShare(deposits[k], inv) && c[k] == ConfirmedShare(deposits[k], inv)
      invariant pending == Sum(p) && confirmed == Sum(c)
      decreases todo
    {
      var k :| k in todo;
      todo := todo - {k};
      var d := deposits[k];
      SumUpdate(p, k, PendingShare(d, inv));
      SumUpdate(c, k, ConfirmedShare(d, inv));
      if d.invoice == inv && (d.status == Detected || d.status == Unconfirmed) {
        pending := pending + d.amount;
      }
      if d.invoice == inv && d.status == DepositConfirmed {
        confirmed := confirmed + d.amount;
      }
      p := p[k := PendingShare(d, inv)];
      c := c[k := ConfirmedShare(d, inv)];
    }
    assert p == map k | k in deposits :: PendingShare(deposits[k], inv);
    assert c == map k | k in deposits :: ConfirmedShare(deposits[k], inv);
  }

  method RecomputeInvoice(tx: Database, inv: InvoiceId, now: Time) returns (r: Result<Database>)
    ensures r == Recomputed(tx, inv, now)
  {
    hide PendingOf, ConfirmedOf, InsertEvent, InsertCase, SqlStatus;
    var pending, confirmed := SelectSums(tx.tables.deposits, inv);
    if !Int64(pending) || !Int64(confirmed) {
      return Err(Internal);
    }
    if inv !in tx.tables.invoices {
      return Err(Internal);
    }
    var i := tx.tables.invoices[inv];
    var expired := i.expiresAt.Some? && now / SECOND > i.expiresAt.value / SECOND;
    var status := SqlStatus(i.amount, pending, confirmed, expired, i.policies.late);
    var i' := i.(received := Received(pending, confirmed), status := status, updatedAt := Whole(now));
    var log, cases := AnnounceStatus(tx, inv, i, i', now);
    r := Ok(tx.(tables := tx.tables.(invoices := tx.tables.invoices[inv := i']), log := log, cases := cases));
  }

  /** The event and the review case of a changed status. */
  method AnnounceStatus(tx: Database, inv: InvoiceId, before: Invoice, after: Invoice, now: Time)
      returns (log: seq<Emission>, cases: seq<ReviewCase>)
    ensures log == InsertEvents(tx.log, Emissions.StatusNews(inv, before, after, now))
    ensures cases == InsertCases(tx.cases, SqlAsks(inv, before, after, now))
  {
    hide InsertEvent, InsertCase;
    AtMostOneEvent(tx.log, Emissions.StatusNews(inv, before, after, now));
    AtMostOneCase(tx.cases, SqlAsks(inv, before, after, now));
    log, cases := tx.log, tx.cases;
    if after.status == before.status {
      return;
    }
    match after.status {
      case Expired => log := InsertEvent(log, Emission(inv, InvoiceExpired, now, NoSubject));
      case Confirmed => log := InsertEvent(log, Emission(inv, InvoicePaid, now, NoSubject));
      case PaidLate => log := InsertEvent(log, Emission(inv, InvoicePaid, now, NoSubject));
      case Overpaid => log := InsertEvent(log, Emission(inv, InvoiceOverpaid, now, NoSubject));
      case _ =>
    }
    if after.status == PartialConfirmed && after.policies.partial == RejectPartial {
      cases := InsertCase(cases, Ask(after.merchant, inv, PartialPayment, NO_DEPOSIT, now));
    } else if after.status == Overpaid && after.policies.over == OverManualReview {
      cases := InsertCase(cases, Ask(after.merchant, inv, Overpayment, NO_DEPOSIT, now));
    } else if (after.status == Confirmed || after.status == PaidLate) && SqlExpired(after, now)
              && after.received.confirmed == after.amount && after.policies.late == LateManualReview {
      cases := InsertCase(cases, Ask(after.merchant, inv, LatePayment, NO_DEPOSIT, now));
    }
  }

  /** The invoice row of a wallet and address. */
  method SelectInvoice(tx: Tables, wallet: string, address: string) returns (i: InvoiceId)
    requires UniqueRows(tx)
    ensures i == AnyRow(tx, wallet, address)
  {
    var todo := tx.invoices.Keys;
    i := 0;
    while todo != {}
      invariant todo <= tx.invoices.Keys
      invariant forall j :: j in tx.invoices && j !in todo ==> !IsRow(tx, j, wallet, address)
      decreases todo
    {
      var j :| j in todo;
      todo := todo - {j};
      if tx.invoices[j].wallet == wallet && tx.invoices[j].address == address {
        assert IsRow(tx, j, wallet, address);
        return j;
      }
    }
  }

  /** The merchant of a wallet, zero if there is none, and whether there are two. */
  method SelectMerchants(tx: Tables, wallet: string) returns (owner: MerchantId, ambiguous: bool)
    ensures ambiguous == Ambiguous(tx, wallet)
    ensures !ambiguous ==> owner == WalletOwner(tx, wallet)
  {
    var todo := tx.wallets.Keys;
    var merchant: Option<MerchantId> := None;
    while todo != {}
      invariant todo <= tx.wallets.Keys
      invariant merchant.Some? ==> merchant.value in tx.wallets && merchant.value !in todo
                                   && tx.wallets[merchant.value].walletId == wallet
      invariant forall m :: m in tx.wallets && m !in todo && tx.wallets[m].walletId == wallet ==> merchant == Some(m)
      decreases todo
    {
      var m :| m in todo;
      todo := todo - {m};
      if tx.wallets[m].walletId == wallet {
        if merchant.Some? && merchant.value != m {
          return 0, true;
        }
        merchant := Some(m);
      }
    }
    owner, ambiguous := if merchant.Some? then merchant.value else 0, false;
  }

  /** Update of a deposit row by its key, or insertion when no row is affected. */
  method UpsertDeposit(tx: Tables, ev: ScanEvent, p: Payload, matched: InvoiceId, now: Time) returns (tx': Tables)
    requires matched == Matched(tx, p)
    ensures tx' == PutRow(tx, EventKey(p), RowAfter(tx, ev, p, now))
  {
    hide MatchRow, TrimSpace;
    var address, amount, status := ToLower(TrimSpace(p.address)), Wrap64(p.amount), Incoming(ev.kind);
    var key := EventKey(p);
    if key in tx.deposits {
      var d := tx.deposits[key];
      d := d.(address := address, amount := amount, height := p.height,
              status := if d.status == DepositConfirmed && status == Detected then d.status else status,
              confirmedHeight := if status == Unconfirmed || status == Orphaned then None else d.confirmedHeight,
              invoice := if d.invoice != 0 then d.invoice else matched,
              updatedAt := Whole(now));
      tx' := tx.(deposits := tx.deposits[key := d]);
    } else {
      var detectedAt := match ev.occurredAt case Some(t) => Whole(t) case None => Whole(now);
      var d := Deposit(tx.depositSeq + 1, address, amount, p.height, status, None, matched, detectedAt, Whole(now));
      tx' := tx.(depositSeq := tx.depositSeq + 1, deposits := tx.deposits[key := d]);
    }
  }

  method ApplyDepositEvent(tx: Database, ev: ScanEvent, p: Payload, now: Time) returns (r: Result<Database>)
    requires UniqueRows(tx.tables)
    ensures r == DepositTx(tx, ev, p, now)
  {
    hide RowAfter, Recomputed, Ambiguous, WalletOwner, TrimSpace, InsertEvent, InsertCase;
    var row := SelectInvoice(tx.tables, p.wallet, ToLower(TrimSpace(p.address)));
    var matched := 0;
    if row in tx.tables.invoices && p.height > tx.tables.invoices[row].createdAfterHeight {
      matched := row;
    }
    var tables := UpsertDeposit(tx.tables, ev, p, matched, now);
    if matched == 0 {
      var owner, ambiguous := SelectMerchants(tx.tables, p.wallet);
      if ambiguous {
        return Err(Internal);
      }
      return Ok(tx.(tables := tables, cases := InsertCase(tx.cases, Ask(owner, 0, UnknownAddress, EventKey(p), now))));
    }
    var log := tx.log;
    if Incoming(ev.kind) == Detected {
      log := InsertEvent(log, Emission(matched, DepositDetectedEvent, OccurredOr(ev.occurredAt, ZERO_TIME),
                                       OfDeposit(EventKey(p), Wrap64(p.amount), p.height)));
    }
    AtMostOneEvent(tx.log, Detection(tx.tables, ev, p));
    r := RecomputeInvoice(tx.(tables := tables, log := log), matched, now);
  }

  /** Rows confirmed so far. */
  function SomeConfirmed(t: Tables, keys: set<DepKey>, now: Time): (r: map<DepKey, Deposit>) {
    map k | k in t.deposits :: if k in keys
        && t.deposits[k].invoice in t.invoices then RowConfirmed(t, t.deposits[k], now) else t.deposits[k]
  }

  ghost function InvoicesOf(t: Tables, keys: set<DepKey>): (r: set<InvoiceId>) {
    set k | k in keys && k in t.deposits :: t.deposits[k].invoice
  }

  /** Every element of a set once, in the order it is iterated. */
  method Elements(elems: set<InvoiceId>) returns (order: seq<InvoiceId>)
    ensures Lists(order, elems)
  {
    order := [];
    var todo := elems;
    while todo != {}
      invariant todo <= elems
      invariant forall i :: i in order <==> i in elems && i !in todo
      invariant forall i, j :: 0 <= i < j < |order| ==> order[i] != order[j]
      decreases todo
    {
      var i :| i in todo;
      todo, order := todo - {i}, order + [i];
    }
  }

  /** The first loop of a pass: each row confirmed and announced. */
  method ConfirmRows(db: Database, keys: seq<DepKey>, best: int, now: Time)
      returns (tx: Database, affected: set<InvoiceId>)
    requires Lists(keys, SelectedKeys(db.tables, best))
    ensures forall k :: k in keys ==> k in db.tables.deposits
    ensures tx == db.(tables := db.tables.(deposits := RowsConfirmed(db.tables, best, now)),
                      log := InsertEvents(db.log, ConfirmedNews(db.tables, keys, now)))
    ensures affected == InvoicesTouched(db.tables, best)
  {
    hide SomeConfirmed, InvoicesOf, RowsConfirmed, InvoicesTouched, InsertEvents, InsertEvent;
    var t := db.tables;
    tx, affected := db, {};
    NothingConfirmed(t, now);
    NothingSaid(db, now);
    assert forall k :: k in keys ==> k in SelectedKeys(t, best);
    hide SelectedKeys;
    for n := 0 to |keys|
      invariant forall k :: k in keys ==> k in t.deposits
      invariant tx == db.(tables := t.(deposits := SomeConfirmed(t, KeySet(keys[..n]), now)),
                          log := InsertEvents(db.log, ConfirmedNews(t, keys[..n], now)))
      invariant affected == InvoicesOf(t, KeySet(keys[..n]))
    {
      ConfirmMore(t, keys, best, n, now);
      SaidMore(db, keys, n, now);
      var d := tx.tables.deposits[keys[n]];
      var required := t.invoices[d.invoice].requiredConfirmations;
      if required <= 0 {
        required := 1;
      }
      var e := Emission(d.invoice, DepositConfirmedEvent, now, OfDeposit(keys[n], d.amount, d.height));
      assert e == ConfirmedEvent(t, keys[n], now);
      affected := affected + {d.invoice};
      d := d.(status := DepositConfirmed, confirmedHeight := Some(d.height + required - 1), updatedAt := Whole(now));
      tx := tx.(tables := tx.tables.(deposits := tx.tables.deposits[keys[n] := d]), log := InsertEvent(tx.log, e));
    }
    assert keys[..|keys|] == keys;
    AllConfirmed(t, keys, best, now);
  }

  class Store {
    var db: Database

    /** No two invoices with the same wallet and address, or with the same merchant and order. */
    ghost predicate Valid()
      reads this
    {
      UniqueRows(db.tables) && UniqueOrders(db.tables)
    }

    constructor ()
      ensures Valid() && db == EMPTY_DATABASE
    {
      db := EMPTY_DATABASE;
    }

    method ApplyScanEvent(ev: ScanEvent, now: Time) returns (done: Result<()>)
      requires Valid()
      modifies this
      ensures Valid()
      ensures var r := ScanTx(old(db), ev, now);
              if r.Ok? then done == Ok(()) && db == r.value else done == Err(r.error) && db == old(db)
    {
      hide DepositTx, TrimSpace;
      var wallet := TrimSpace(ev.wallet);
      if wallet == "" || ev.cursor <= 0 {
        return Err(InvalidArgument);
      }
      var tx := db;
      var cursor := if wallet in tx.tables.cursors then tx.tables.cursors[wallet] else 0;
      if ev.cursor <= cursor {
        return Ok(());
      }
      if ev.kind != OtherKind {
        if ev.payload.None? {
          return Err(Malformed);
        }
        var r := ApplyDepositEvent(tx, ev, ev.payload.value, now);
        if r.Err? {
          return Err(r.error);
        }
        DepositKeepsUnique(tx, ev, ev.payload.value, now);
        tx := r.value;
      }
      tx := tx.(tables := tx.tables.(cursors := tx.tables.cursors[wallet := ev.cursor]));
      db := tx;
      done := Ok(());
    }

    /** The rows to confirm, in whatever order the query yields them. */
    method SelectToConfirm(best: int) returns (keys: seq<DepKey>)
      ensures Lists(keys, SelectedKeys(db.tables, best))
    {
      var t := db.tables;
      keys := [];
      var todo := t.deposits.Keys;
      while todo != {}
        invariant todo <= t.deposits.Keys
        invariant forall k :: k in keys <==> k in t.deposits && k !in todo && Selected(t, t.deposits[k], best)
        invariant forall i, j :: 0 <= i < j < |keys| ==> keys[i] != keys[j]
        decreases todo
      {
        var k :| k in todo;
        todo := todo - {k};
        var d := t.deposits[k];
        if d.status == Detected && d.invoice != 0 && d.invoice in t.invoices && d.height <= best {
          var required := t.invoices[d.invoice].requiredConfirmations;
          if required <= 0 {
            required := 1;
          }
          if best - d.height + 1 >= required {
            keys := keys + [k];
          }
        }
      }
    }

    /** `keys` and `touched` are the orders in which the rows and the invoices came. */
    method UpdateInvoiceConfirmations(best: int, now: Time)
        returns (done: Result<()>, ghost keys: seq<DepKey>, ghost touched: seq<InvoiceId>)
      requires Valid()
      modifies this
      ensures Valid()
      ensures PassRows(old(db).tables, best, keys, touched)
      ensures var r := PassTx(old(db), best, now, keys, touched);
              if r.Ok? then done == Ok(()) && db == r.value else done == Err(r.error) && db == old(db)
    {
      hide SelectedKeys, RowsConfirmed, InvoicesTouched, Recomputed, UniqueRows, UniqueOrders, InsertEvents;
      var rows := SelectToConfirm(best);
      var tx, affected := ConfirmRows(db, rows, best, now);
      var invoices := Elements(affected);
      keys, touched := rows, invoices;
      ghost var tx1 := tx;
      SameInvoicesUnique(db.tables, tx1.tables);
      for n := 0 to |invoices|
        invariant db == old(db) && RecomputedAll(tx1, invoices[..n], now) == Ok(tx)
      {
        RecomputedOneMore(tx1, invoices, n, now);
        var r := RecomputeInvoice(tx, invoices[n], now);
        if r.Err? {
          FailureStays(tx1, invoices, n + 1, now);
          done := Err(r.error);
          return;
        }
        tx := r.value;
      }
      assert invoices[..|invoices|] == invoices;
      RecomputedAllKeepsUnique(tx1, invoices, now);
      db := tx;
      done := Ok(());
    }

    // ----- calls of the API -----

    method CreateMerchant(name: string, settings: Settings) returns (done: Result<MerchantId>)
      requires Valid()
      modifies this
      ensures Valid()
      ensures var r := CreateMerchantTx(old(db), name, settings);
              if r.Ok? then done == Ok(db.merchantSeq) && db == r.value else done == Err(r.error) && db == old(db)
    {
      if TrimSpace(name) == "" || !settings.Validate() {
        return Err(InvalidArgument);
      }
      var id := db.merchantSeq + 1;
      db := db.(merchantSeq := id, merchants := db.merchants + {id});
      done := Ok(id);
    }

    method SetMerchantWallet(m: MerchantId, w: Wallet, now: Time) returns (done: Result<()>)
      requires Valid()
      modifies this
      ensures Valid()
      ensures var r := SetWalletTx(old(db), m, w, now);
              if r.Ok? then done == Ok(()) && db == r.value else done == Err(r.error) && db == old(db)
    {
      hide TrimSpace;
      var walletId, ufvk, chain, uaHrp := TrimSpace(w.walletId), TrimSpace(w.ufvk), TrimSpace(w.chain),
          TrimSpace(w.uaHrp);
      if m == 0 || walletId == "" || ufvk == "" || chain == "" || uaHrp == "" {
        return Err(InvalidArgument);
      }
      if m !in db.merchants {
        return Err(NotFound);
      }
      if m in db.tables.wallets {
        return Err(Conflict);
      }
      var row := Wallet(walletId, ufvk, chain, uaHrp, w.coinType, Whole(now));
      db := db.(tables := db.tables.(wallets := db.tables.wallets[m := row]));
      done := Ok(());
    }

    /** The invoice of an order. */
    method FindInvoiceByExternalOrder(merchant: MerchantId, order: string) returns (found: Option<InvoiceId>)
      ensures found.Some? ==> IsOrder(db.tables, found.value, merchant, order)
      ensures found.None? ==> forall i: InvoiceId :: !IsOrder(db.tables, i, merchant, order)
    {
      var todo := db.tables.invoices.Keys;
      while todo != {}
        invariant todo <= db.tables.invoices.Keys
        invariant forall i: InvoiceId :: IsOrder(db.tables, i, merchant, order) ==> i in todo
        decreases todo
      {
        var i :| i in todo;
        todo := todo - {i};
        if db.tables.invoices[i].merchant == merchant && db.tables.invoices[i].externalOrder == order {
          return Some(i);
        }
      }
      found := None;
    }

    method CreateInvoice(req: InvoiceCreate, now: Time) returns (res: Result<Created>)
      requires Valid()
      modifies this
      ensures Valid()
      ensures CreateInvoiceTx(old(db), req, now) == (db, res)
    {
      hide TrimSpace, InsertEvent;
      var r := req.Normal();
      if r.merchant == 0 || r.externalOrder == "" || r.amount <= 0 || r.address == "" || r.wallet == "" {
        return Err(InvalidArgument);
      }
      var row := InvoiceRow(r, now);
      if !Violates(db.tables.invoices, row) {
        var id := db.invoiceSeq + 1;
        db := db.(invoiceSeq := id, tables := db.tables.(invoices := db.tables.invoices[id := row]),
                  log := InsertEvent(db.log, Emission(id, InvoiceCreated, now, NoSubject)));
        return Ok(Created(id, r.(createdAfterHash := TrimSpace(r.createdAfterHash)).NewInvoice(now), true));
      }
      var found := FindInvoiceByExternalOrder(r.merchant, r.externalOrder);
      if found.None? {
        return Err(Conflict);
      }
      var i := db.tables.invoices[found.value];
      OrderIsUnique(db.tables, found.value, r);
      if i.amount != r.amount || i.wallet != r.wallet || i.address != r.address {
        return Err(Conflict);
      }
      res := Ok(Created(found.value, i, false));
    }

    method CreateRefund(req: RefundCreate, now: Time) returns (done: Result<Refund>)
      requires Valid()
      modifies this
      ensures Valid()
      ensures var r := RefundTx(old(db), req, now);
              if r.Ok? then db == r.value && db.refunds != []
                  && done == Ok(db.refunds[|db.refunds| - 1].(createdAt := now))
              else done == Err(r.error) && db == old(db)
    {
      hide TrimSpace, InsertEvent;
      if req.merchant == 0 || TrimSpace(req.toAddress) == "" || req.amount <= 0 {
        return Err(InvalidArgument);
      }
      if req.merchant !in db.merchants {
        return Err(NotFound);
      }
      if req.invoice != 0 {
        if req.invoice !in db.tables.invoices {
          return Err(NotFound);
        }
        if db.tables.invoices[req.invoice].merchant != req.merchant {
          return Err(Forbidden);
        }
      }
      var refund := Refund(|db.refunds| + 1, req.merchant, req.invoice, TrimSpace(req.externalId),
          TrimSpace(req.toAddress),
                           req.amount, TrimSpace(req.sentTxid), TrimSpace(req.notes), Whole(now));
      var log := db.log;
      if req.invoice != 0 {
        var typ := if refund.sentTxid == "" then RefundRequested else RefundSent;
        log := InsertEvent(log, Emission(req.invoice, typ, now, OfRefund(refund)));
      }
      db := db.(refunds := db.refunds + [refund], log := log);
      done := Ok(refund.(createdAt := now));
    }

    /** Resolving and rejecting a case, which differ in the verdict alone. */
    method CloseReviewCase(id: ReviewId, verdict: ReviewStatus, notes: string, now: Time) returns (done: Result<()>)
      requires Valid()
      modifies this
      ensures Valid()
      ensures var r := CloseReviewTx(old(db), id, verdict, notes, now);
              if r.Ok? then done == Ok(()) && db == r.value else done == Err(r.error) && db == old(db)
    {
      hide TrimSpace;
      if id == 0 || TrimSpace(notes) == "" {
        return Err(InvalidArgument);
      }
      if id > |db.cases| {
        return Err(NotFound);
      }
      if CloseBlocked(db.cases, id - 1, verdict) {
        return Err(Internal);
      }
      var c := db.cases[id - 1].(status := verdict, notes := TrimSpace(notes), updatedAt := Whole(now));
      db := db.(cases := db.cases[id - 1 := c]);
      done := Ok(());
    }
  }

  // ----- unique rows -----

  ghost predicate UniqueOrders(t: Tables) {
    forall i, j | i in t.invoices && j in t.invoices ::
      Attribution.OrderKey(t.invoices[i]) == Attribution.OrderKey(t.invoices[j]) ==> i == j
  }

  lemma OrderIsUnique(t: Tables, i: InvoiceId, r: InvoiceCreate)
    requires UniqueOrders(t) && IsOrder(t, i, r.merchant, r.externalOrder)
    ensures forall j: InvoiceId :: IsOrder(t, j, r.merchant, r.externalOrder) ==> j == i
  {
  }

  lemma SameInvoicesUnique(t: Tables, t': Tables)
    requires t.invoices == t'.invoices && UniqueRows(t) && UniqueOrders(t)
    ensures UniqueRows(t') && UniqueOrders(t')
  {
  }

  lemma RecomputedKeepsUnique(tx: Database, i: InvoiceId, now: Time)
    requires UniqueRows(tx.tables) && UniqueOrders(tx.tables) && Recomputed(tx, i, now).Ok?
    ensures UniqueRows(Recomputed(tx, i, now).value.tables) && UniqueOrders(Recomputed(tx, i, now).value.tables)
  {
    hide PendingOf, ConfirmedOf, SqlStatus, InsertEvents, InsertCases, SumsFit;
  }

  lemma DepositKeepsUnique(tx: Database, ev: ScanEvent, p: Payload, now: Time)
    requires UniqueRows(tx.tables) && UniqueOrders(tx.tables) && DepositTx(tx, ev, p, now).Ok?
    ensures UniqueRows(DepositTx(tx, ev, p, now).value.tables) && UniqueOrders(DepositTx(tx, ev, p, now).value.tables)
  {
    hide RowAfter, Matched, Ambiguous, Recomputed, InsertEvents, InsertCase, Detection, WalletOwner;
    var t1 := PutRow(tx.tables, EventKey(p), RowAfter(tx.tables, ev, p, now));
    assert UniqueRows(t1) && UniqueOrders(t1);
    if Matched(tx.tables, p) != 0 {
      RecomputedKeepsUnique(tx.(tables := t1, log := InsertEvents(tx.log, Detection(tx.tables, ev, p))),
          Matched(tx.tables, p), now);
    }
  }

  lemma {:induction false} RecomputedAllKeepsUnique(tx: Database, touched: seq<InvoiceId>, now: Time)
    requires UniqueRows(tx.tables) && UniqueOrders(tx.tables) && RecomputedAll(tx, touched, now).Ok?
    ensures UniqueRows(RecomputedAll(tx, touched, now).value.tables)
            && UniqueOrders(RecomputedAll(tx, touched, now).value.tables)
  {
    hide Recomputed, UniqueRows, UniqueOrders;
    if touched != [] {
      RecomputedAllKeepsUnique(tx, touched[..|touched| - 1], now);
      RecomputedKeepsUnique(RecomputedAll(tx, touched[..|touched| - 1], now).value, touched[|touched| - 1], now);
    }
  }

  // ----- the loops of the pass -----

  function KeySet(keys: seq<DepKey>): (r: set<DepKey>) {
    set k | k in keys
  }

  lemma NothingConfirmed(t: Tables, now: Time)
    ensures SomeConfirmed(t, KeySet([]), now) == t.deposits && InvoicesOf(t, KeySet([])) == {}
  {
  }

  lemma ConfirmMore(t: Tables, keys: seq<DepKey>, best: int, n: nat, now: Time)
    requires Lists(keys, SelectedKeys(t, best)) && n < |keys|
    ensures var k := keys[n];
            && k in t.deposits && t.deposits[k].invoice in t.invoices
            && k in SomeConfirmed(t, KeySet(keys[..n]), now)
                && SomeConfirmed(t, KeySet(keys[..n]), now)[k] == t.deposits[k]
            && SomeConfirmed(t, KeySet(keys[..n + 1]), now)
            == SomeConfirmed(t, KeySet(keys[..n]), now)[k := RowConfirmed(t, t.deposits[k], now)]
            && InvoicesOf(t, KeySet(keys[..n + 1])) == InvoicesOf(t, KeySet(keys[..n])) + {t.deposits[k].invoice}
  {
    assert keys[n] in keys && keys[..n + 1] == keys[..n] + [keys[n]];
    assert KeySet(keys[..n + 1]) == KeySet(keys[..n]) + {keys[n]};
    assert keys[n] !in keys[..n];
  }

  lemma AllConfirmed(t: Tables, keys: seq<DepKey>, best: int, now: Time)
    requires Lists(keys, SelectedKeys(t, best))
    ensures SomeConfirmed(t, KeySet(keys), now) == RowsConfirmed(t, best, now)
    ensures InvoicesOf(t, KeySet(keys)) == InvoicesTouched(t, best) <= t.invoices.Keys
  {
    assert KeySet(keys) == SelectedKeys(t, best);
  }

  lemma NothingSaid(tx: Database, now: Time)
    ensures InsertEvents(tx.log, ConfirmedNews(tx.tables, [], now)) == tx.log
  {
  }

  lemma SaidMore(tx: Database, keys: seq<DepKey>, n: nat, now: Time)
    requires n < |keys| && forall k :: k in keys ==> k in tx.tables.deposits
    ensures InsertEvents(tx.log, ConfirmedNews(tx.tables, keys[..n + 1], now))
         == InsertEvent(InsertEvents(tx.log, ConfirmedNews(tx.tables, keys[..n], now)),
             ConfirmedEvent(tx.tables, keys[n], now))
  {
    hide InsertEvent;
    assert keys[..n + 1][..n] == keys[..n] && keys[..n + 1][n] == keys[n];
    var es := ConfirmedNews(tx.tables, keys[..n + 1], now);
    assert es[..|es| - 1] == ConfirmedNews(tx.tables, keys[..n], now);
  }

  lemma RecomputedOneMore(tx: Database, touched: seq<InvoiceId>, n: nat, now: Time)
    requires n < |touched|
    ensures RecomputedAll(tx, touched[..n + 1], now)
         == (var r := RecomputedAll(tx, touched[..n], now);
             if r.Err? then r else Recomputed(r.value, touched[n], now))
  {
    hide Recomputed;
    assert touched[..n + 1][..n] == touched[..n] && touched[..n + 1][n] == touched[n];
  }

  lemma {:induction false} FailureStays(tx: Database, touched: seq<InvoiceId>, n: nat, now: Time)
    requires n <= |touched| && RecomputedAll(tx, touched[..n], now).Err?
    ensures RecomputedAll(tx, touched, now) == RecomputedAll(tx, touched[..n], now)
  {
    hide Recomputed;
    if n == |touched| {
      assert touched[..n] == touched;
    } else {
      var rest := touched[..|touched| - 1];
      assert rest[..n] == touched[..n];
      FailureStays(tx, rest, n, now);
    }
  }
}
