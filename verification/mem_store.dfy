/**
 The in-memory store: its fields, its loops over maps in whatever order they
 yield their keys, and the proof that every method is the ledger's step.
*/
module MemStore {
  import opened Domain
  import opened Sums
  import opened Text
  import opened Ledger
  import Confirmation

  /** A delivery as the store keeps it, under a number of its own. */
  datatype DeliveryRow = DeliveryRow(event: EventId, sink: SinkId, state: Delivery)

  function KeyOf(row: DeliveryRow): (r: DeliveryKey) {
    (row.event, row.sink)
  }

  /** No two rows are for the same event and sink. */
  ghost predicate Distinct(rows: map<nat, DeliveryRow>) {
    forall x, y :: x in rows && y in rows && x != y ==> KeyOf(rows[x]) != KeyOf(rows[y])
  }

  ghost predicate HasRow(rows: map<nat, DeliveryRow>, key: DeliveryKey) {
    exists x :: x in rows && KeyOf(rows[x]) == key
  }

  /** The rows by event and sink. */
  ghost function ByKey(rows: map<nat, DeliveryRow>): (r: map<DeliveryKey, Delivery>)
    requires Distinct(rows)
  {
    map x | x in rows :: KeyOf(rows[x]) := rows[x].state
  }

  lemma ByKeyRows(rows: map<nat, DeliveryRow>)
    requires Distinct(rows)
    ensures forall key :: key in ByKey(rows) <==> HasRow(rows, key)
    ensures forall x :: x in rows ==> KeyOf(rows[x]) in ByKey(rows) && ByKey(rows)[KeyOf(rows[x])] == rows[x].state
  {
  }

  lemma NoRows()
    ensures Distinct(map[]) && ByKey(map[]) == map[]
  {
  }

  lemma AddRow(rows: map<nat, DeliveryRow>, id: nat, row: DeliveryRow)
    requires Distinct(rows) && id !in rows && !HasRow(rows, KeyOf(row))
    ensures Distinct(rows[id := row])
    ensures ByKey(rows[id := row]) == ByKey(rows)[KeyOf(row) := row.state]
  {
    hide ByKey;
    var rows' := rows[id := row];
    ByKeyRows(rows);
    ByKeyRows(rows');
    assert rows'[id] == row;
    forall key ensures key in ByKey(rows') <==> key in ByKey(rows)[KeyOf(row) := row.state] {
      if HasRow(rows, key) {
        var x :| x in rows && KeyOf(rows[x]) == key;
        assert rows'[x] == rows[x];
      }
    }
    forall key | key in ByKey(rows') ensures ByKey(rows')[key] == ByKey(rows)[KeyOf(row) := row.state][key] {
      var x :| x in rows' && KeyOf(rows'[x]) == key;
    }
  }

  /** One more delivery of a new event, on top of those made so far. */
  lemma FanStep(rows: map<nat, DeliveryRow>, rows1: map<nat, DeliveryRow>, made: map<DeliveryKey, Delivery>,
                id: nat, event: EventId, k: SinkId)
    requires Distinct(rows) && Distinct(rows1) && ByKey(rows1) == ByKey(rows) + made
    requires forall x :: x in rows ==> rows[x].event < event
    requires (event, k) !in made && id !in rows1
    ensures var rows2 := rows1[id := DeliveryRow(event, k, NEW_DELIVERY)];
            Distinct(rows2) && ByKey(rows2) == ByKey(rows) + made[(event, k) := NEW_DELIVERY]
  {
    hide ByKey;
    ByKeyRows(rows);
    ByKeyRows(rows1);
    AddRow(rows1, id, DeliveryRow(event, k, NEW_DELIVERY));
  }

  lemma ChangeRow(rows: map<nat, DeliveryRow>, id: nat, state: Delivery)
    requires Distinct(rows) && id in rows
    ensures var row := rows[id].(state := state);
            && Distinct(rows[id := row])
            && ByKey(rows[id := row]) == ByKey(rows)[KeyOf(row) := state]
            && KeyOf(row) in ByKey(rows)
  {
    hide ByKey;
    var row := rows[id].(state := state);
    var rows' := rows[id := row];
    ByKeyRows(rows);
    ByKeyRows(rows');
    assert rows'[id] == row;
    forall key ensures key in ByKey(rows') <==> key in ByKey(rows)[KeyOf(row) := state] {
      if HasRow(rows, key) {
        var x :| x in rows && KeyOf(rows[x]) == key;
        assert KeyOf(rows'[x]) == KeyOf(rows[x]);
      }
    }
    forall key | key in ByKey(rows') ensures ByKey(rows')[key] == ByKey(rows)[KeyOf(row) := state][key] {
      var x :| x in rows' && KeyOf(rows'[x]) == key;
    }
  }

  lemma FanoutKeys(sinks: map<SinkId, Sink>, event: EventId, merchant: MerchantId)
    ensures forall n: nat, k: nat :: (n, k) in Fanout(sinks, event, merchant) <==>
            n == event && Listens(sinks, k, merchant)
    ensures forall key :: key in Fanout(sinks, event, merchant) ==> Fanout(sinks, event, merchant)[key] == NEW_DELIVERY
  {
  }

  lemma FanoutIs(sinks: map<SinkId, Sink>, event: EventId, merchant: MerchantId, made: map<DeliveryKey, Delivery>)
    requires forall n: nat, k: nat :: (n, k) in made <==> n == event && Listens(sinks, k, merchant)
    requires forall key :: key in made ==> made[key] == NEW_DELIVERY
    ensures made == Fanout(sinks, event, merchant)
  {
    hide Fanout;
    FanoutKeys(sinks, event, merchant);
    forall key: DeliveryKey ensures key in made <==> key in Fanout(sinks, event, merchant) {
      assert key == (key.0, key.1);
    }
  }

  class Store {
    var merchantSeq: nat
    var invoiceSeq: nat
    var depositSeq: nat
    var refundSeq: nat
    var reviewSeq: nat
    var sinkSeq: nat
    var outboxSeq: nat
    var deliverySeq: nat
    var invoiceEventSeq: nat

    var merchants: map<MerchantId, Merchant>
    var merchantWallet: map<MerchantId, Wallet>
    var nextAddressIndex: map<MerchantId, nat>
    var invoices: map<InvoiceId, Invoice>
    var invoiceByExternal: map<(MerchantId, string), InvoiceId>
    var invoiceByAddress: map<(string, string), InvoiceId>
    var invoiceToken: map<InvoiceId, string>
    var scanCursor: map<string, int>
    var deposits: map<DepKey, Deposit>
    var invoiceEvents: map<InvoiceId, seq<InvoiceEvent>>
    var refunds: seq<Refund>
    var reviewCases: map<ReviewId, ReviewCase>
    var eventSinks: map<SinkId, Sink>
    var outbox: seq<OutboxEvent>
    var deliveries: map<nat, DeliveryRow>

    /** Counters count, and no sink has two deliveries of one event. */
    ghost predicate Valid()
      reads this
    {
      && outboxSeq == |outbox|
      && refundSeq == |refunds|
      && 0 !in merchants && merchantWallet.Keys <= merchants.Keys
      && Distinct(deliveries)
      && (forall x :: x in deliveries ==> x <= deliverySeq && deliveries[x].event <= outboxSeq)
    }

    ghost function Events(): (r: Ledger.Events)
      requires Valid()
      reads this
    {
      Ledger.Events(invoiceEvents, outbox, ByKey(deliveries), invoiceEventSeq)
    }

    /** The store as a value. */
    ghost function Abs(): (r: State)
      requires Valid()
      reads this
    {
      State(merchants, merchantWallet, nextAddressIndex, invoices, invoiceByExternal, invoiceByAddress, invoiceToken,
            scanCursor, deposits, refunds, eventSinks, Events(), Reviews(reviewCases, reviewSeq),
            merchantSeq, invoiceSeq, depositSeq, sinkSeq)
    }

    constructor ()
      ensures Valid() && Abs() == EMPTY
    {
      hide ByKey, Distinct;
      merchantSeq, invoiceSeq, depositSeq, refundSeq, reviewSeq, sinkSeq := 0, 0, 0, 0, 0, 0;
      outboxSeq, deliverySeq, invoiceEventSeq := 0, 0, 0;
      merchants, merchantWallet, nextAddressIndex := map[], map[], map[];
      invoices, invoiceByExternal, invoiceByAddress, invoiceToken := map[], map[], map[], map[];
      scanCursor, deposits, invoiceEvents := map[], map[], map[];
      refunds, reviewCases, eventSinks, outbox, deliveries := [], map[], map[], [], map[];
      new;
      NoRows();
    }

    // ----- events -----

    /** A pending delivery of an event for every active sink of a merchant, in whatever order the sinks come. */
    method FanOut(event: EventId, merchant: MerchantId)
      requires Distinct(deliveries)
      requires forall x :: x in deliveries ==> x <= deliverySeq && deliveries[x].event < event
      modifies this`deliverySeq, this`deliveries
      ensures Distinct(deliveries)
      ensures forall x :: x in deliveries ==> x <= deliverySeq && deliveries[x].event <= event
      ensures ByKey(deliveries) == ByKey(old(deliveries)) + Fanout(eventSinks, event, merchant)
    {
      hide ByKey, Fanout, Distinct;
      ghost var rows := deliveries;
      ghost var made: map<DeliveryKey, Delivery> := map[];
      var todo := eventSinks.Keys;
      while todo != {}
        invariant todo <= eventSinks.Keys
        invariant Distinct(deliveries)
        invariant forall x :: x in deliveries ==> x <= deliverySeq && deliveries[x].event <= event
        invariant forall n: nat, k: nat :: (n, k) in made <==>
                n == event && k !in todo && Listens(eventSinks, k, merchant)
        invariant forall key :: key in made ==> made[key] == NEW_DELIVERY
        invariant ByKey(deliveries) == ByKey(rows) + made
        decreases todo
      {
        var k :| k in todo;
        todo := todo - {k};
        if eventSinks[k].merchant == merchant && eventSinks[k].active {
          deliverySeq := deliverySeq + 1;
          FanStep(rows, deliveries, made, deliverySeq, event, k);
          deliveries := deliveries[deliverySeq := DeliveryRow(event, k, NEW_DELIVERY)];
          made := made[(event, k) := NEW_DELIVERY];
        }
      }
      FanoutIs(eventSinks, event, merchant, made);
    }

    method EnqueueOutbox(inv: InvoiceId, typ: EventType, at: Time, subject: Subject)
      requires Valid()
      modifies this`outboxSeq, this`outbox, this`deliverySeq, this`deliveries
      ensures Valid()
      ensures Events() == old(Events()).Enqueue(Emission(inv, typ, at, subject), Owners(invoices), eventSinks)
    {
      hide ByKey, Fanout;
      if inv !in invoices {
        return;
      }
      var merchant := invoices[inv].merchant;
      outboxSeq := outboxSeq + 1;
      outbox := outbox + [OutboxEvent(outboxSeq, merchant, inv, typ, at, subject)];
      FanOut(outboxSeq, merchant);
    }

    method AppendInvoiceEvent(inv: InvoiceId, typ: EventType, at: Time, subject: Subject)
      requires Valid()
      modifies this`outboxSeq, this`outbox, this`deliverySeq, this`deliveries, this`invoiceEventSeq, this`invoiceEvents
      ensures Valid()
      ensures Abs() == AppendEvent(old(Abs()), inv, typ, at, subject)
    {
      hide ByKey, Distinct, Owners, Ledger.Events.Append;
      ghost var s, e := Abs(), Events();
      RecordEvent(inv, typ, at, subject);
      assert Abs() == s.(events := Events());
      hide Abs, Events, Valid;
    }

    method RecordEvent(inv: InvoiceId, typ: EventType, at: Time, subject: Subject)
      requires Valid()
      modifies this`outboxSeq, this`outbox, this`deliverySeq, this`deliveries, this`invoiceEventSeq, this`invoiceEvents
      ensures Valid()
      ensures Events() == old(Events()).Append(Emission(inv, typ, at, subject), Owners(invoices), eventSinks)
    {
      hide ByKey, Owners, Ledger.Events.Enqueue;
      if inv == 0 {
        return;
      }
      var log := if inv in invoiceEvents then invoiceEvents[inv] else [];
      for p := 0 to |log|
        invariant forall q :: 0 <= q < p ==> !(log[q].typ == typ && log[q].subject.SameAs(subject))
      {
        if log[p].typ == typ && log[p].subject.SameAs(subject) {
          return;
        }
      }
      invoiceEventSeq := invoiceEventSeq + 1;
      invoiceEvents := invoiceEvents[inv := log + [InvoiceEvent(invoiceEventSeq, typ, at, subject)]];
      EnqueueOutbox(inv, typ, at, subject);
    }

    // ----- review cases -----

    method CreateReviewCase(merchant: MerchantId, inv: InvoiceId, reason: ReviewReason, dep: DepKey, now: Time)
      modifies this`reviewSeq, this`reviewCases
      ensures Reviews(reviewCases, reviewSeq)
              == old(Reviews(reviewCases, reviewSeq)).Open(merchant, inv, reason, dep, now)
    {
      if merchant == 0 {
        return;
      }
      var todo := reviewCases.Keys;
      while todo != {}
        invariant todo <= reviewCases.Keys
        invariant forall r :: r in reviewCases && r !in todo ==> !Covers(reviewCases[r], merchant, inv, reason, dep)
        decreases todo
      {
        var r :| r in todo;
        todo := todo - {r};
        if Covers(reviewCases[r], merchant, inv, reason, dep) {
          return;
        }
      }
      reviewSeq := reviewSeq + 1;
      reviewCases := reviewCases[reviewSeq := ReviewCase(merchant, inv, reason, ReviewOpen, dep, "", now, now)];
    }

    // ----- recomputing an invoice -----

    /** Adds up the deposits of an invoice, in 64 bits, in the order the map yields them. */
    method SumDeposits(inv: InvoiceId) returns (received: Received)
      ensures received == ReceivedOf(deposits, inv)
    {
      hide Wrap64, Sum;
      NothingWraps();
      var pending, confirmed := 0, 0;
      var todo := deposits.Keys;
      ghost var p: map<DepKey, int>, c: map<DepKey, int> := map[], map[];
      while todo != {}
        invariant todo <= deposits.Keys
        invariant p.Keys == c.Keys == deposits.Keys - todo
        invariant forall k :: k in p ==>
                p[k] == PendingShare(deposits[k], inv) && c[k] == ConfirmedShare(deposits[k], inv)
        invariant pending == Wrap64(Sum(p)) && confirmed == Wrap64(Sum(c))
        decreases todo
      {
        var k :| k in todo;
        todo := todo - {k};
        var d := deposits[k];
        AddWrapped(p, k, PendingShare(d, inv), pending);
        AddWrapped(c, k, ConfirmedShare(d, inv), confirmed);
        if d.invoice == inv {
          match d.status
          case DepositConfirmed => confirmed := Wrap64(confirmed + d.amount);
          case Detected => pending := Wrap64(pending + d.amount);
          case Unconfirmed => pending := Wrap64(pending + d.amount);
          case Orphaned =>
        }
        p := p[k := PendingShare(d, inv)];
        c := c[k := ConfirmedShare(d, inv)];
      }
      assert p == map k | k in deposits :: PendingShare(deposits[k], inv);
      assert c == map k | k in deposits :: ConfirmedShare(deposits[k], inv);
      received := Received(pending, confirmed);
    }

    method SayStatus(inv: InvoiceId, now: Time)
      requires Valid() && inv in invoices
      modifies this`outboxSeq, this`outbox, this`deliverySeq, this`deliveries, this`invoiceEventSeq, this`invoiceEvents
      ensures Valid()
      ensures Abs() == match StatusEvent(invoices[inv].status)
                       case Some(typ) => AppendEvent(old(Abs()), inv, typ, now, NoSubject)
                       case None => old(Abs())
    {
      hide AppendEvent, ByKey, Distinct;
      var status := invoices[inv].status;
      if status == Expired {
        AppendInvoiceEvent(inv, InvoiceExpired, now, NoSubject);
      } else if status == Confirmed || status == PaidLate {
        AppendInvoiceEvent(inv, InvoicePaid, now, NoSubject);
      } else if status == Overpaid {
        AppendInvoiceEvent(inv, InvoiceOverpaid, now, NoSubject);
      }
    }

    method AskReview(inv: InvoiceId, now: Time)
      requires Valid() && inv in invoices
      modifies this`reviewSeq, this`reviewCases
      ensures Valid()
      ensures Abs() == match StatusReview(invoices[inv], now)
                       case Some(reason) => CreateReview(old(Abs()), invoices[inv].merchant, inv, reason, NO_DEPOSIT,
                           now)
                       case None => old(Abs())
    {
      hide Reviews.Open, ByKey, Distinct;
      var i := invoices[inv];
      if i.status == PartialConfirmed && i.policies.partial == RejectPartial {
        CreateReviewCase(i.merchant, inv, PartialPayment, NO_DEPOSIT, now);
      } else if i.status == Overpaid && i.policies.over == OverManualReview {
        CreateReviewCase(i.merchant, inv, Overpayment, NO_DEPOSIT, now);
      } else if i.status == Confirmed || i.status == PaidLate {
        if i.ExpiredAt(now) && i.received.confirmed == i.amount && i.policies.late == LateManualReview {
          CreateReviewCase(i.merchant, inv, LatePayment, NO_DEPOSIT, now);
        }
      }
    }

    /** Event and review case of an invoice whose status has just changed. */
    method AnnounceStatus(inv: InvoiceId, now: Time)
      requires Valid() && inv in invoices
      modifies this`outboxSeq, this`outbox, this`deliverySeq, this`deliveries, this`invoiceEventSeq, this`invoiceEvents,
        this`reviewSeq, this`reviewCases
      ensures Valid() && Abs() == Announce(old(Abs()), inv, now)
    {
      hide Valid, StatusEvent, StatusReview, AppendEvent, CreateReview;
      SayStatus(inv, now);
      AskReview(inv, now);
    }

    method RecomputeInvoice(inv: InvoiceId, now: Time)
      requires Valid()
      modifies this
      ensures Valid() && Abs() == Recompute(old(Abs()), inv, now)
    {
      hide ReceivedOf, Owners, Announce, ByKey, Distinct;
      if inv !in invoices {
        return;
      }
      var received := SumDeposits(inv);
      var i := invoices[inv].(received := received);
      var prev := i.status;
      i := i.(status := ComputeStatus(i, now), updatedAt := now);
      invoices := invoices[inv := i];
      if i.status != prev {
        AnnounceStatus(inv, now);
      }
    }

    // ----- scan events -----

    /** The merchant of a wallet: whichever the map yields first, or zero. */
    method FindOwner(wallet: string) returns (owner: MerchantId)
      requires Valid()
      ensures owner == 0 ==> forall m :: m in merchantWallet ==> merchantWallet[m].walletId != wallet
      ensures owner != 0 ==> owner in merchantWallet && merchantWallet[owner].walletId == wallet
    {
      hide ByKey, Distinct;
      owner := 0;
      var todo := merchantWallet.Keys;
      while todo != {}
        invariant todo <= merchantWallet.Keys
        invariant forall m :: m in merchantWallet && m !in todo ==> merchantWallet[m].walletId != wallet
        decreases todo
      {
        var m :| m in todo;
        todo := todo - {m};
        if merchantWallet[m].walletId == wallet {
          return m;
        }
      }
    }

    /** The invoice whose address received a payment, if the payment is new enough. */
    method FindInvoice(wallet: string, address: string, height: int) returns (inv: InvoiceId)
      requires Valid()
      ensures inv == MatchInvoice(Abs(), wallet, address, height)
    {
      hide ByKey, Distinct;
      inv := 0;
      if (wallet, address) in invoiceByAddress {
        var id := invoiceByAddress[(wallet, address)];
        if id in invoices && invoices[id].CanApplyDeposit(height) {
          inv := id;
        }
      }
    }

    /** Writes the deposit row of an event. */
    method DepositRow(ev: ScanEvent, p: Payload, now: Time) returns (key: DepKey, d: Deposit)
      requires Valid()
      ensures key == PayloadKey(ev, p) && d == DepositAfter(Abs(), ev, p, now)
    {
      hide ByKey, Distinct, TrimSpace, ToLower, ToInt32, MatchInvoice;
      var wallet := if p.wallet == "" then TrimSpace(ev.wallet) else p.wallet;
      var status := Incoming(ev.kind);
      var address := ToLower(TrimSpace(p.address));
      var inv := FindInvoice(wallet, address, p.height);
      key := DepKey(wallet, p.txid, ToInt32(p.actionIndex));
      if key !in deposits {
        d := Deposit(depositSeq + 1, address, p.amount, p.height, status, None, inv, OccurredOr(ev.occurredAt, now),
            now);
      } else {
        d := deposits[key];
        var next := status;
        if d.status == DepositConfirmed && status == Detected {
          next := d.status;
        }
        d := d.(address := address, amount := p.amount, height := p.height, status := next, updatedAt := now);
        if status == Unconfirmed || status == Orphaned || next != DepositConfirmed {
          d := d.(confirmedHeight := None);
        }
        if d.invoice == 0 && inv != 0 {
          d := d.(invoice := inv);
        }
      }
    }

    method WriteDeposit(ev: ScanEvent, p: Payload, now: Time) returns (key: DepKey, d: Deposit)
      requires Valid()
      modifies this`deposits, this`depositSeq
      ensures Valid() && key == PayloadKey(ev, p) && d == DepositAfter(old(Abs()), ev, p, now)
      ensures Abs() == PutDeposit(old(Abs()), key, d)
    {
      hide ByKey, Distinct, DepositAfter, PayloadKey;
      key, d := DepositRow(ev, p, now);
      if key !in deposits {
        depositSeq := depositSeq + 1;
      }
      deposits := deposits[key := d];
    }

    method ApplyDepositEvent(ev: ScanEvent, p: Payload, now: Time) returns (ghost owner: MerchantId)
      requires Valid()
      modifies this
      ensures Valid() && OwnerChoice(old(Abs()), PayloadWallet(ev, p), owner)
      ensures Abs() == ApplyDeposit(old(Abs()), ev, p, owner, now)
    {
      hide ByKey, Distinct, DepositAfter, Recompute, ReceivedOf, Ledger.Events.Append, Reviews.Open, Owners, Sums.Sum;
      SomeOwner(Abs(), PayloadWallet(ev, p));
      owner :| OwnerChoice(Abs(), PayloadWallet(ev, p), owner);
      if p.address == "" || p.amount > MAX_INT64 {
        return;
      }
      var key, d := WriteDeposit(ev, p, now);
      if d.invoice == 0 {
        owner := BlameWallet(key, now);
      } else {
        SettleDeposit(ev, p, key, d, now);
      }
    }

    /** A deposit nobody claims is put up for review, if the wallet has a merchant. */
    method BlameWallet(key: DepKey, now: Time) returns (owner: MerchantId)
      requires Valid()
      modifies this`reviewSeq, this`reviewCases
      ensures Valid() && OwnerChoice(Abs(), key.wallet, owner)
      ensures Abs() == CreateReview(old(Abs()), owner, 0, UnknownAddress, key, now)
    {
      hide ByKey, Distinct;
      owner := FindOwner(key.wallet);
      if owner != 0 {
        hide Reviews.Open;
        CreateReviewCase(owner, 0, UnknownAddress, key, now);
      }
    }

    /** An attributed deposit is logged when detected, and its invoice brought up to date. */
    method SettleDeposit(ev: ScanEvent, p: Payload, key: DepKey, d: Deposit, now: Time)
      requires Valid()
      modifies this
      ensures Valid()
      ensures var s := old(Abs());
              var s1 := if Incoming(ev.kind) == Detected
                        then AppendEvent(s, d.invoice, DepositDetectedEvent, OccurredOr(ev.occurredAt, ZERO_TIME),
                                         OfDeposit(key, p.amount, p.height))
                        else s;
              Abs() == Recompute(s1, d.invoice, now)
    {
      hide ByKey, Distinct, Recompute, AppendEvent;
      if Incoming(ev.kind) == Detected {
        AppendInvoiceEvent(d.invoice, DepositDetectedEvent, OccurredOr(ev.occurredAt, ZERO_TIME),
            OfDeposit(key, p.amount, p.height));
      }
      RecomputeInvoice(d.invoice, now);
    }

    method ApplyScanEvent(ev: ScanEvent, now: Time) returns (r: Result<()>, ghost owner: MerchantId)
      requires Valid()
      modifies this
      ensures Valid() && r == ScanEventResult(old(Abs()), ev)
      ensures ev.payload.Some? ==> OwnerChoice(old(Abs()), PayloadWallet(ev, ev.payload.value), owner)
      ensures Abs() == Ledger.ApplyScanEvent(old(Abs()), ev, owner, now)
    {
      hide ByKey, Distinct, ApplyDeposit;
      owner := 0;
      if ev.payload.Some? {
        SomeOwner(Abs(), PayloadWallet(ev, ev.payload.value));
        owner :| OwnerChoice(Abs(), PayloadWallet(ev, ev.payload.value), owner);
      }
      var wallet := TrimSpace(ev.wallet);
      if wallet == "" || ev.cursor <= 0 {
        return Err(InvalidArgument), owner;
      }
      if ev.cursor <= (if wallet in scanCursor then scanCursor[wallet] else 0) {
        return Ok(()), owner;
      }
      if ev.kind != OtherKind {
        if ev.payload.None? {
          return Err(Malformed), owner;
        }
        owner := ApplyDepositEvent(ev, ev.payload.value, now);
      }
      scanCursor := scanCursor[wallet := ev.cursor];
      r := Ok(());
    }

    method ScanCursor(walletId: string) returns (r: Result<int>)
      requires Valid()
      ensures r == if TrimSpace(walletId) == "" then Err(InvalidArgument) else Ok(CursorOf(Abs(), TrimSpace(walletId)))
    {
      hide ByKey, Distinct;
      var wallet := TrimSpace(walletId);
      if wallet == "" {
        return Err(InvalidArgument);
      }
      r := Ok(if wallet in scanCursor then scanCursor[wallet] else 0);
    }

    /** All wallets, in whatever order the map yields them. */
    method ListMerchantWallets() returns (ws: seq<Wallet>)
      ensures forall w :: w in ws <==> exists m :: m in merchantWallet && merchantWallet[m] == w
    {
      ws := [];
      var todo := merchantWallet.Keys;
      while todo != {}
        invariant todo <= merchantWallet.Keys
        invariant forall w :: w in ws ==> exists m :: m in merchantWallet && merchantWallet[m] == w
        invariant forall m :: m in merchantWallet && m !in todo ==> merchantWallet[m] in ws
        decreases todo
      {
        var m :| m in todo;
        todo := todo - {m};
        ws := ws + [merchantWallet[m]];
      }
    }

    // ----- confirmation pass -----

    method ConfirmDeposit(k: DepKey, best: int, now: Time) returns (confirmed: bool)
      requires Valid() && k in deposits
      modifies this`deposits, this`outboxSeq, this`outbox, this`deliverySeq, this`deliveries, this`invoiceEventSeq,
          this`invoiceEvents
      ensures Valid() && Abs() == ConfirmOne(old(Abs()), k, best, now)
      ensures confirmed == ConfirmsAt(old(Abs()), old(deposits)[k], best)
    {
      hide ByKey, Distinct, AppendEvent;
      var d := deposits[k];
      if d.invoice == 0 || d.status != Detected || d.invoice !in invoices {
        return false;
      }
      var required := invoices[d.invoice].requiredConfirmations;
      if required <= 0 {
        required := 1;
      }
      var confs := best - d.height + 1;
      if confs < required {
        return false;
      }
      deposits := deposits[k := d.(status := DepositConfirmed, confirmedHeight := Some(d.height + required - 1),
          updatedAt := now)];
      AppendInvoiceEvent(d.invoice, DepositConfirmedEvent, now, OfDeposit(k, d.amount, d.height));
      confirmed := true;
    }

    /** The first loop: every deposit once, in whatever order the map yields them. */
    method ConfirmDeposits(best: int, now: Time) returns (affected: set<InvoiceId>, ghost order: seq<DepKey>)
      requires Valid()
      modifies this`deposits, this`outboxSeq, this`outbox, this`deliverySeq, this`deliveries, this`invoiceEventSeq,
          this`invoiceEvents
      ensures Valid() && Lists(order, old(deposits).Keys) && affected == Affected(old(Abs()), best)
      ensures Abs() == ConfirmAll(old(Abs()), order, best, now)
    {
      hide Valid, ConfirmOne, Affected, ConfirmsAt, Lists, AffectedBy;
      ghost var s := Abs();
      order := [];
      affected := {};
      var todo := deposits.Keys;
      ghost var done: set<DepKey> := {};
      NothingListed(s, best);
      while todo != {}
        invariant Valid() && Abs() == ConfirmAll(s, order, best, now)
        invariant deposits.Keys == s.deposits.Keys
        invariant done !! todo && done + todo == s.deposits.Keys
        invariant Lists(order, done) && affected == AffectedBy(s, best, done)
        decreases todo
      {
        var k :| k in todo;
        ConfirmAllUntouched(s, order, done, best, now, k);
        AffectedByMore(s, best, done, k);
        ListsMore(order, done, k);
        var i := deposits[k].invoice;
        var confirmed := ConfirmDeposit(k, best, now);
        if confirmed {
          affected := affected + {i};
        }
        ConfirmAllMore(s, order, best, now, k);
        todo, done, order := todo - {k}, done + {k}, order + [k];
      }
      assert done == s.deposits.Keys;
      AffectedByAll(s, best);
    }

    /** The second loop: every affected invoice once, in whatever order the set yields them. */
    method RecomputeAffected(affected: set<InvoiceId>, now: Time) returns (ghost invOrder: seq<InvoiceId>)
      requires Valid()
      modifies this
      ensures Valid() && Lists(invOrder, affected) && Abs() == RecomputeAll(old(Abs()), invOrder, now)
    {
      hide Valid, Recompute, Lists;
      ghost var s := Abs();
      invOrder := [];
      NoneListed<InvoiceId>();
      var todo := affected;
      ghost var done: set<InvoiceId> := {};
      while todo != {}
        invariant Valid() && Abs() == RecomputeAll(s, invOrder, now)
        invariant done !! todo && done + todo == affected && Lists(invOrder, done)
        decreases todo
      {
        var i :| i in todo;
        RecomputeInvoice(i, now);
        ListsMore(invOrder, done, i);
        RecomputeAllMore(s, invOrder, now, i);
        todo, done, invOrder := todo - {i}, done + {i}, invOrder + [i];
      }
      assert done == affected;
    }

    /** Confirms every deposit that is deep enough, then brings the affected invoices up to date. */
    method UpdateInvoiceConfirmations(best: int, now: Time)
        returns (ghost order: seq<DepKey>, ghost invOrder: seq<InvoiceId>)
      requires Valid()
      modifies this
      ensures Valid() && PassOrders(old(Abs()), best, order, invOrder)
      ensures Abs() == ConfirmPass(old(Abs()), best, now, order, invOrder)
    {
      hide Valid, ConfirmAll, RecomputeAll, Lists, Affected;
      var affected;
      affected, order := ConfirmDeposits(best, now);
      invOrder := RecomputeAffected(affected, now);
    }

    // ----- API calls -----

    method CreateMerchant(name: string, settings: Settings, now: Time) returns (r: Result<MerchantId>)
      requires Valid()
      modifies this`merchantSeq, this`merchants
      ensures Valid() && (Abs(), r) == Ledger.CreateMerchant(old(Abs()), name, settings, now)
    {
      hide ByKey, Distinct;
      if TrimSpace(name) == "" || !settings.Validate() {
        return Err(InvalidArgument);
      }
      merchantSeq := merchantSeq + 1;
      merchants := merchants[merchantSeq := Merchant(TrimSpace(name), settings, now, now)];
      r := Ok(merchantSeq);
    }

    method UpdateMerchantSettings(m: MerchantId, settings: Settings, now: Time) returns (r: Result<()>)
      requires Valid()
      modifies this`merchants
      ensures Valid() && (Abs(), r) == Ledger.UpdateMerchantSettings(old(Abs()), m, settings, now)
    {
      hide ByKey, Distinct;
      if !settings.Validate() {
        return Err(InvalidArgument);
      }
      if m !in merchants {
        return Err(NotFound);
      }
      merchants := merchants[m := merchants[m].(settings := settings, updatedAt := now)];
      r := Ok(());
    }

    method SetMerchantWallet(m: MerchantId, w: Wallet, now: Time) returns (r: Result<()>)
      requires Valid()
      modifies this`merchantWallet, this`nextAddressIndex
      ensures Valid() && (Abs(), r) == Ledger.SetMerchantWallet(old(Abs()), m, w, now)
    {
      hide ByKey, Distinct;
      var w' := NormalWallet(w, now);
      if w'.walletId == "" || w'.ufvk == "" || w'.uaHrp == "" || w'.chain == "" {
        return Err(InvalidArgument);
      }
      if m !in merchants {
        return Err(NotFound);
      }
      if m in merchantWallet {
        return Err(Conflict);
      }
      merchantWallet := merchantWallet[m := w'];
      nextAddressIndex := nextAddressIndex[m := 0];
      r := Ok(());
    }

    method NextAddressIndex(m: MerchantId) returns (r: Result<nat>)
      requires Valid()
      modifies this`nextAddressIndex
      ensures Valid() && (Abs(), r) == Ledger.NextAddressIndex(old(Abs()), m)
    {
      hide ByKey, Distinct;
      if m == 0 {
        return Err(InvalidArgument);
      }
      if m !in merchants || m !in merchantWallet {
        return Err(NotFound);
      }
      var idx := if m in nextAddressIndex then nextAddressIndex[m] else 0;
      nextAddressIndex := nextAddressIndex[m := (idx + 1) % TWO_32];
      r := Ok(idx);
    }

    method StoreInvoice(q: InvoiceCreate, now: Time) returns (id: InvoiceId, inv: Invoice)
      requires Valid()
      modifies this`invoiceSeq, this`invoices, this`invoiceByExternal, this`invoiceByAddress
      ensures Valid() && id == old(invoiceSeq) + 1 && inv == q.NewInvoice(now)
      ensures Abs() == old(Abs()).(invoiceSeq := id, invoices := invoices,
                                   byExternal := invoiceByExternal, byAddress := invoiceByAddress)
      ensures invoices == old(invoices)[id := inv]
      ensures invoiceByExternal == old(invoiceByExternal)[(q.merchant, q.externalOrder) := id]
      ensures invoiceByAddress == old(invoiceByAddress)[(q.wallet, q.address) := id]
    {
      hide ByKey, Distinct, InvoiceCreate.NewInvoice;
      ghost var s := Abs();
      invoiceSeq := invoiceSeq + 1;
      id := invoiceSeq;
      inv := q.NewInvoice(now);
      invoices := invoices[id := inv];
      invoiceByExternal := invoiceByExternal[(q.merchant, q.externalOrder) := id];
      invoiceByAddress := invoiceByAddress[(q.wallet, q.address) := id];
      assert Abs() == s.(invoiceSeq := id, invoices := invoices, byExternal := invoiceByExternal,
          byAddress := invoiceByAddress);
      hide Abs;
    }

    method InsertInvoice(q: InvoiceCreate, now: Time) returns (id: InvoiceId, inv: Invoice)
      requires Valid()
      modifies this`invoiceSeq, this`invoices, this`invoiceByExternal, this`invoiceByAddress,
        this`outboxSeq, this`outbox, this`deliverySeq, this`deliveries, this`invoiceEventSeq, this`invoiceEvents
      ensures Valid() && Abs() == Ledger.InsertInvoice(old(Abs()), q, now)
      ensures id == old(invoiceSeq) + 1 && inv == q.NewInvoice(now)
    {
      hide ByKey, Distinct, AppendEvent, InvoiceCreate.NewInvoice;
      id, inv := StoreInvoice(q, now);
      AppendInvoiceEvent(id, InvoiceCreated, now, NoSubject);
    }

    method CreateInvoice(req: InvoiceCreate, now: Time) returns (r: Result<Created>)
      requires Valid()
      modifies this
      ensures Valid() && (Abs(), r) == Ledger.CreateInvoice(old(Abs()), req, now)
    {
      hide Valid, Ledger.InsertInvoice, InvoiceCreate.Normal;
      var q := req.Normal();
      if q.merchant == 0 || q.externalOrder == "" || q.amount <= 0 || q.address == "" || q.wallet == "" {
        return Err(InvalidArgument);
      }
      if q.merchant !in merchants {
        return Err(NotFound);
      }
      if (q.merchant, q.externalOrder) in invoiceByExternal {
        var id := invoiceByExternal[(q.merchant, q.externalOrder)];
        if id !in invoices || invoices[id].amount != q.amount {
          return Err(Conflict);
        }
        return Ok(Created(id, invoices[id], false));
      }
      if (q.wallet, q.address) in invoiceByAddress {
        return Err(Conflict);
      }
      var id, inv := InsertInvoice(q, now);
      r := Ok(Created(id, inv, true));
    }

    method PutInvoiceToken(inv: InvoiceId, token: string) returns (r: Result<()>)
      requires Valid()
      modifies this`invoiceToken
      ensures Valid() && (Abs(), r) == Ledger.PutInvoiceToken(old(Abs()), inv, token)
    {
      hide ByKey, Distinct;
      if inv == 0 || TrimSpace(token) == "" {
        return Err(InvalidArgument);
      }
      if inv !in invoices {
        return Err(NotFound);
      }
      invoiceToken := invoiceToken[inv := TrimSpace(token)];
      r := Ok(());
    }

    method CreateRefund(req: RefundCreate, now: Time) returns (r: Result<Refund>)
      requires Valid()
      modifies this
      ensures Valid() && (Abs(), r) == Ledger.CreateRefund(old(Abs()), req, now)
    {
      hide ByKey, Distinct, AppendEvent, TrimSpace;
      ghost var s := Abs();
      if req.merchant == 0 || TrimSpace(req.toAddress) == "" || req.amount <= 0 {
        return Err(InvalidArgument);
      }
      if req.merchant !in merchants {
        return Err(NotFound);
      }
      if req.invoice != 0 {
        if req.invoice !in invoices {
          return Err(NotFound);
        }
        if invoices[req.invoice].merchant != req.merchant {
          return Err(Forbidden);
        }
      }
      refundSeq := refundSeq + 1;
      var refund := Refund(refundSeq, req.merchant, req.invoice, TrimSpace(req.externalId), TrimSpace(req.toAddress),
                           req.amount, TrimSpace(req.sentTxid), TrimSpace(req.notes), now);
      refunds := refunds + [refund];
      assert Abs() == s.(refunds := s.refunds + [refund]);
      hide Valid, Abs;
      AppendInvoiceEvent(req.invoice, if refund.sentTxid == "" then RefundRequested
          else RefundSent, now, OfRefund(refund));
      r := Ok(refund);
    }

    method CloseReview(id: ReviewId, verdict: ReviewStatus, notes: string, now: Time) returns (r: Result<()>)
      requires Valid()
      modifies this`reviewCases
      ensures Valid() && (Abs(), r) == Ledger.CloseReview(old(Abs()), id, verdict, notes, now)
    {
      hide ByKey, Distinct;
      if id == 0 || TrimSpace(notes) == "" {
        return Err(InvalidArgument);
      }
      if id !in reviewCases {
        return Err(NotFound);
      }
      reviewCases := reviewCases[id := reviewCases[id].(status := verdict, notes := TrimSpace(notes),
          updatedAt := now)];
      r := Ok(());
    }

    method CreateEventSink(m: MerchantId, kind: Option<SinkKind>, config: Option<string>, now: Time)
        returns (r: Result<SinkId>)
      requires Valid()
      modifies this`sinkSeq, this`eventSinks
      ensures Valid() && (Abs(), r) == Ledger.CreateEventSink(old(Abs()), m, kind, config, now)
    {
      hide ByKey, Distinct;
      if m == 0 || kind.None? || config.None? {
        return Err(InvalidArgument);
      }
      if m !in merchants {
        return Err(NotFound);
      }
      sinkSeq := sinkSeq + 1;
      eventSinks := eventSinks[sinkSeq := Sink(m, kind.value, true, config.value, now)];
      r := Ok(sinkSeq);
    }

    /**
     A delivery is found by its own number; what changes is the delivery of its event to
     its sink, and nothing else.
    */
    method UpdateEventDelivery(id: nat, state: Delivery) returns (r: Result<()>)
      requires Valid()
      modifies this`deliveries
      ensures Valid()
      ensures id !in old(deliveries) ==> r == Err(NotFound) && deliveries == old(deliveries)
      ensures id in old(deliveries) ==>
                && deliveries == old(deliveries)[id := old(deliveries)[id].(state := state)]
                && (Abs(), r) == UpdateDelivery(old(Abs()), KeyOf(old(deliveries)[id]), state)
    {
      hide ByKey, Distinct;
      if id !in deliveries {
        return Err(NotFound);
      }
      ChangeRow(deliveries, id, state);
      deliveries := deliveries[id := deliveries[id].(state := state)];
      r := Ok(());
    }

    // ----- reading what is due -----

    predicate IsDue(id: nat, now: Time)
      reads this
    {
      && id in deliveries
      && deliveries[id].state.status == DeliveryPending
      && !(deliveries[id].state.nextRetryAt.Some? && deliveries[id].state.nextRetryAt.value > now)
      && deliveries[id].sink in eventSinks && eventSinks[deliveries[id].sink].active
      && (exists n :: 0 <= n < |outbox| && outbox[n].id == deliveries[id].event)
    }

    method FindEvent(event: EventId) returns (found: bool)
      ensures found <==> exists n :: 0 <= n < |outbox| && outbox[n].id == event
    {
      for n := |outbox| downto 0
        invariant forall m :: n <= m < |outbox| ==> outbox[m].id != event
      {
        if outbox[n].id == event {
          return true;
        }
      }
      found := false;
    }

    /**
     Up to `limit` due deliveries, each once, in whatever order the map yields them; all
     of them if they are fewer.
    */
    method ListDueDeliveries(at: Time, limit: int, clock: Time) returns (due: seq<nat>)
      ensures |due| <= if limit <= 0 || limit > 1000 then 100 else limit
      ensures forall n :: 0 <= n < |due| ==> IsDue(due[n], TimeOr(at, clock))
      ensures forall m, n :: 0 <= m < n < |due| ==> due[m] != due[n]
      ensures |due| < (if limit <= 0 || limit > 1000 then 100 else limit) ==>
              forall id :: IsDue(id, TimeOr(at, clock)) ==> id in due
    {
      var now := TimeOr(at, clock);
      var most := if limit <= 0 || limit > 1000 then 100 else limit;
      due := [];
      var todo := deliveries.Keys;
      while todo != {}
        invariant todo <= deliveries.Keys && |due| < most
        invariant forall n :: 0 <= n < |due| ==> IsDue(due[n], now) && due[n] !in todo
        invariant forall m, n :: 0 <= m < n < |due| ==> due[m] != due[n]
        invariant forall id :: IsDue(id, now) ==> id in todo || id in due
        decreases todo
      {
        var id :| id in todo;
        todo := todo - {id};
        var row := deliveries[id];
        if row.state.status == DeliveryPending
           && !(row.state.nextRetryAt.Some? && row.state.nextRetryAt.value > now)
           && row.sink in eventSinks && eventSinks[row.sink].active {
          var found := FindEvent(row.event);
          if found {
            due := due + [id];
            if |due| >= most {
              return;
            }
          }
        }
      }
    }
  }

  /** One more value added in 64 bits. */
  lemma AddWrapped(m: map<DepKey, int>, k: DepKey, v: int, acc: int)
    requires k !in m && acc == Wrap64(Sum(m))
    ensures Wrap64(acc + v) == Wrap64(Sum(m[k := v])) && (v == 0 ==> acc == Wrap64(Sum(m[k := v])))
  {
    hide Wrap64, Sum;
    SumUpdate(m, k, v);
    WrapAdd(Sum(m), v);
  }

  /** The zero time stands for the present. */
  function TimeOr(at: Time, clock: Time): (r: Time) {
    if at == ZERO_TIME then clock else at
  }

  lemma NothingWraps()
    ensures Wrap64(0) == 0 && Sum<DepKey>(map[]) == 0
  {
  }

  // ----- the iteration orders of a pass -----

  /** Invoices of the deposits among `keys` that the pass confirms. */
  ghost function AffectedBy(s: State, best: int, keys: set<DepKey>): (r: set<InvoiceId>) {
    set k | k in keys && k in s.deposits && ConfirmsAt(s, s.deposits[k], best) :: s.deposits[k].invoice
  }

  lemma AffectedByAll(s: State, best: int)
    ensures AffectedBy(s, best, s.deposits.Keys) == Affected(s, best)
  {
  }

  lemma AffectedByMore(s: State, best: int, keys: set<DepKey>, k: DepKey)
    requires k in s.deposits
    ensures AffectedBy(s, best, keys + {k})
         == AffectedBy(s, best, keys) + if ConfirmsAt(s, s.deposits[k], best) then {s.deposits[k].invoice} else {}
  {
  }

  lemma NothingListed(s: State, best: int)
    ensures Lists<DepKey>([], {}) && AffectedBy(s, best, {}) == {}
  {
  }

  lemma NoneListed<T(!new)>()
    ensures Lists<T>([], {})
  {
  }

  lemma ListsMore<T(!new)>(order: seq<T>, elems: set<T>, x: T)
    requires Lists(order, elems) && x !in elems
    ensures Lists(order + [x], elems + {x})
  {
  }

  lemma ConfirmAllMore(s: State, order: seq<DepKey>, best: int, now: Time, k: DepKey)
    ensures ConfirmAll(s, order + [k], best, now) == ConfirmOne(ConfirmAll(s, order, best, now), k, best, now)
  {
    hide ConfirmOne;
    assert (order + [k])[..|order|] == order;
  }

  lemma RecomputeAllMore(s: State, order: seq<InvoiceId>, now: Time, i: InvoiceId)
    ensures RecomputeAll(s, order + [i], now) == Recompute(RecomputeAll(s, order, now), i, now)
  {
    hide Recompute;
    assert (order + [i])[..|order|] == order;
  }

  /** A deposit the pass has not come to yet is as it was, and so is what decides about it. */
  lemma ConfirmAllUntouched(s: State, order: seq<DepKey>, done: set<DepKey>, best: int, now: Time, k: DepKey)
    requires k in s.deposits && k !in done && Lists(order, done)
    ensures var s1 := ConfirmAll(s, order, best, now);
            && s1.deposits.Keys == s.deposits.Keys && s1.deposits[k] == s.deposits[k]
            && (ConfirmsAt(s1, s1.deposits[k], best) <==> ConfirmsAt(s, s.deposits[k], best))
  {
    hide ConfirmAll;
    Confirmation.ConfirmAllDeposits(s, order, best, now);
    Confirmation.ConfirmAllFrame(s, order, best, now);
  }

  lemma SomeOwner(s: State, wallet: string)
    requires 0 !in s.wallets
    ensures exists owner :: OwnerChoice(s, wallet, owner)
  {
    if m :| m in s.wallets && OwnsWallet(s, wallet, m) {
      assert OwnerChoice(s, wallet, m);
    } else {
      assert OwnerChoice(s, wallet, 0);
    }
  }
}
