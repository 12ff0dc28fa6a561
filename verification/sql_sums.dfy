/**
 The sums of the SQL store over whole runs of its database, whatever the clock
 reads: exactly when they are right.
*/
module SqlSums {
  import opened Domain
  import opened Sums
  import opened Text
  import opened Ledger
  import opened Accounts
  import opened SqlLedger
  import opened SqlDatabase

  // ----- sums and what an event is worth -----

  /** Every invoice holds the exact sums of its deposits. */
  ghost predicate SqlExact(t: Tables, i: InvoiceId)
    requires i in t.invoices
  {
    t.invoices[i].received == Received(PendingOf(t.deposits, i), ConfirmedOf(t.deposits, i))
  }

  ghost predicate SqlAgrees(t: Tables) {
    && 0 !in t.invoices
    && (forall k :: k in t.deposits && t.deposits[k].invoice != 0 ==> t.deposits[k].invoice in t.invoices)
    && (forall i :: i in t.invoices ==> SqlExact(t, i))
  }

  /** The invoice the deposit of an event already has, or zero. */
  function Attributed(t: Tables, p: Payload): (r: InvoiceId) {
    if EventKey(p) in t.deposits then t.deposits[EventKey(p)].invoice else 0
  }

  /** The event leaves what the deposit is worth to its invoice as it was. */
  ghost predicate SameWorth(t: Tables, ev: ScanEvent, p: Payload, now: Time)
    requires EventKey(p) in t.deposits
  {
    var d, d' := t.deposits[EventKey(p)], RowAfter(t, ev, p, now);
    PendingShare(d', d.invoice) == PendingShare(d, d.invoice)
        && ConfirmedShare(d', d.invoice) == ConfirmedShare(d, d.invoice)
  }

  /** The event matches the invoice the deposit has, or changes nothing for that invoice. */
  ghost predicate SumsStay(t: Tables, ev: ScanEvent, p: Payload, now: Time) {
    Attributed(t, p) == 0 || Attributed(t, p) == Matched(t, p) || SameWorth(t, ev, p, now)
  }

  lemma RowKeepsSums(t: Tables, ev: ScanEvent, p: Payload, now: Time)
    requires SqlAgrees(t) && SqlDeposit(t, ev, p, now).Ok?
    ensures SqlAgrees(SqlDeposit(t, ev, p, now).value) <==> SumsStay(t, ev, p, now)
  {
    hide MatchRow, Ambiguous, TrimSpace, SqlRefreshed, SqlExact, SameWorth, RowAfter, Matched, Attributed, EventKey,
      SumsFit;
    var key, d := EventKey(p), RowAfter(t, ev, p, now);
    var t' := SqlDeposit(t, ev, p, now).value;
    var j, m := Attributed(t, p), Matched(t, p);
    RowInvoice(t, ev, p, now);
    forall i | i in t.invoices && i != j ensures SqlExact(t', i) {
      OtherInvoice(t, ev, p, now, i);
    }
    if j != 0 {
      AttributedInvoice(t, ev, p, now);
    }
  }

  /** The row keeps its invoice, or takes the matched one. */
  lemma RowInvoice(t: Tables, ev: ScanEvent, p: Payload, now: Time)
    ensures RowAfter(t, ev, p, now).invoice == if Attributed(t, p) != 0 then Attributed(t, p) else Matched(t, p)
    ensures Matched(t, p) != 0 ==> Matched(t, p) in t.invoices
    ensures Attributed(t, p) != 0 ==> EventKey(p) in t.deposits && t.deposits[EventKey(p)].invoice == Attributed(t, p)
  {
    hide MatchRow, TrimSpace;
  }

  /** What the step writes. */
  lemma SqlWrites(t: Tables, ev: ScanEvent, p: Payload, now: Time)
    requires SqlDeposit(t, ev, p, now).Ok?
    ensures var t', m := SqlDeposit(t, ev, p, now).value, Matched(t, p);
            && t'.deposits == t.deposits[EventKey(p) := RowAfter(t, ev, p, now)]
            && t'.invoices.Keys == t.invoices.Keys
            && (forall i :: i in t.invoices && i != m ==> t'.invoices[i] == t.invoices[i])
            && (m in t.invoices && m != 0 ==> SqlExact(t', m))
  {
    hide MatchRow, Ambiguous, TrimSpace, RowAfter, Matched, EventKey, SumsFit;
    RowInvoice(t, ev, p, now);
    var t1, m := PutRow(t, EventKey(p), RowAfter(t, ev, p, now)), Matched(t, p);
    if m != 0 {
      SqlRefreshedExact(t1.invoices[m], PendingOf(t1.deposits, m), ConfirmedOf(t1.deposits, m), now);
    }
  }

  /** An invoice the deposit did not have before is right afterwards. */
  lemma OtherInvoice(t: Tables, ev: ScanEvent, p: Payload, now: Time, i: InvoiceId)
    requires SqlAgrees(t) && SqlDeposit(t, ev, p, now).Ok? && i in t.invoices && i != Attributed(t, p)
    ensures i in SqlDeposit(t, ev, p, now).value.invoices && SqlExact(SqlDeposit(t, ev, p, now).value, i)
  {
    hide SqlDeposit, RowAfter, Matched, PendingOf, ConfirmedOf;
    SqlWrites(t, ev, p, now);
    RowInvoice(t, ev, p, now);
    if i != Matched(t, p) {
      assert SqlExact(t, i);
      OtherInvoices(t, EventKey(p), RowAfter(t, ev, p, now), i);
    }
  }

  /** The invoice the deposit has is right afterwards when it is the matched one or keeps its worth. */
  lemma AttributedInvoice(t: Tables, ev: ScanEvent, p: Payload, now: Time)
    requires SqlAgrees(t) && SqlDeposit(t, ev, p, now).Ok? && Attributed(t, p) != 0
    ensures Attributed(t, p) in SqlDeposit(t, ev, p, now).value.invoices && EventKey(p) in t.deposits
    ensures SqlExact(SqlDeposit(t, ev, p, now).value, Attributed(t, p)) <==>
            Attributed(t, p) == Matched(t, p) || SameWorth(t, ev, p, now)
  {
    hide SqlDeposit, RowAfter, Matched, PendingOf, ConfirmedOf;
    SqlWrites(t, ev, p, now);
    RowInvoice(t, ev, p, now);
    assert SqlExact(t, Attributed(t, p));
    SharesAfterPut(t.deposits, EventKey(p), RowAfter(t, ev, p, now), Attributed(t, p));
  }

  lemma SqlRefreshedExact(inv: Invoice, pending: int, confirmed: int, now: Time)
    ensures SqlRefreshed(inv, pending, confirmed, now).received == Received(pending, confirmed)
  {
  }

  lemma OtherInvoices(t: Tables, key: DepKey, d: Deposit, i: InvoiceId)
    requires d.invoice != i && (key in t.deposits ==> t.deposits[key].invoice != i)
    ensures PendingOf(t.deposits[key := d], i) == PendingOf(t.deposits, i)
    ensures ConfirmedOf(t.deposits[key := d], i) == ConfirmedOf(t.deposits, i)
  {
    SharesAfterPut(t.deposits, key, d, i);
  }

  // ----- scan events -----

  /** The event is new to the database, and its whole step is committed. */
  ghost predicate Commits(db: Database, ev: ScanEvent, now: Time) {
    && ScanTx(db, ev, now).Ok? && ev.cursor > StoredCursor(db.tables, TrimSpace(ev.wallet)) && ev.kind != OtherKind
    && ev.payload.Some?
  }

  ghost predicate ScanKeepsSums(db: Database, ev: ScanEvent, now: Time) {
    Commits(db, ev, now) ==> SumsStay(db.tables, ev, ev.payload.value, now)
  }

  /** A scan event leaves the sums right exactly when it is not committed, or meets the condition. */
  lemma SqlStepKeepsSums(db: Database, ev: ScanEvent, now: Time)
    requires SqlAgrees(db.tables)
    ensures SqlAgrees(Committed(db, ScanTx(db, ev, now)).tables) <==> ScanKeepsSums(db, ev, now)
  {
    hide DepositTx, SqlDeposit, SumsStay, TrimSpace, PendingOf, ConfirmedOf;
    if Commits(db, ev, now) {
      DepositTxTables(db, ev, ev.payload.value, now);
      RowKeepsSums(db.tables, ev, ev.payload.value, now);
      var t := SqlDeposit(db.tables, ev, ev.payload.value, now).value;
      SameTablesAgree(t, t.(cursors := t.cursors[TrimSpace(ev.wallet) := ev.cursor]));
    } else if ScanTx(db, ev, now).Ok? {
      SameTablesAgree(db.tables, Committed(db, ScanTx(db, ev, now)).tables);
    }
  }

  lemma SameTablesAgree(t: Tables, t': Tables)
    requires t.invoices == t'.invoices && t.deposits == t'.deposits
    ensures SqlAgrees(t) <==> SqlAgrees(t')
  {
    hide PendingOf, ConfirmedOf;
    if SqlAgrees(t) {
      assert forall i :: i in t.invoices ==> SqlExact(t, i) && (SqlExact(t, i) <==> SqlExact(t', i));
    }
    if SqlAgrees(t') {
      assert forall i :: i in t.invoices ==> SqlExact(t', i) && (SqlExact(t, i) <==> SqlExact(t', i));
    }
  }

  // ----- confirmation passes -----

  ghost predicate SqlAgreesExcept(t: Tables, dirty: set<InvoiceId>) {
    && 0 !in t.invoices
    && (forall k :: k in t.deposits && t.deposits[k].invoice != 0 ==> t.deposits[k].invoice in t.invoices)
    && (forall i :: i in t.invoices && i !in dirty ==> SqlExact(t, i))
  }

  /** Rows that are not confirmed are worth to their invoices what they were. */
  lemma UntouchedSums(t: Tables, best: int, now: Time, i: InvoiceId)
    requires i !in InvoicesTouched(t, best)
    ensures PendingOf(RowsConfirmed(t, best, now), i) == PendingOf(t.deposits, i)
    ensures ConfirmedOf(RowsConfirmed(t, best, now), i) == ConfirmedOf(t.deposits, i)
  {
    var rows := RowsConfirmed(t, best, now);
    forall k | k in t.deposits
      ensures PendingShare(rows[k], i) == PendingShare(t.deposits[k], i)
              && ConfirmedShare(rows[k], i) == ConfirmedShare(t.deposits[k], i)
    {
    }
    assert (map k | k in rows :: PendingShare(rows[k], i)) == map k | k in t.deposits :: PendingShare(t.deposits[k], i);
    assert (map k | k in rows :: ConfirmedShare(rows[k], i)) == map k | k in t.deposits ::
        ConfirmedShare(t.deposits[k], i);
  }

  /** The rows a pass confirms are the detected ones that are deep enough for their invoice. */
  lemma SqlPassConfirmsExactly(t: Tables, best: int, now: Time, k: DepKey)
    requires k in t.deposits
    ensures var d, i, rows := t.deposits[k], t.deposits[k].invoice, RowsConfirmed(t, best, now);
            && rows.Keys == t.deposits.Keys
            && if i != 0 && i in t.invoices && d.status == Detected
                  && best - d.height + 1 >= t.invoices[i].requiredConfirmations && best >= d.height
               then var n := t.invoices[i].requiredConfirmations;
                    rows[k] == d.(status := DepositConfirmed, updatedAt := Whole(now),
                                  confirmedHeight := Some(d.height + (if n <= 0 then 1 else n) - 1))
               else rows[k] == d
  {
  }

  lemma RowsConfirmedAgree(t: Tables, best: int, now: Time)
    requires SqlAgrees(t)
    ensures SqlAgreesExcept(t.(deposits := RowsConfirmed(t, best, now)), InvoicesTouched(t, best))
  {
    var t1 := t.(deposits := RowsConfirmed(t, best, now));
    forall k | k in t1.deposits ensures t1.deposits[k].invoice == t.deposits[k].invoice {
    }
    hide PendingOf, ConfirmedOf, RowsConfirmed, InvoicesTouched;
    forall i | i in t1.invoices && i !in InvoicesTouched(t, best) ensures SqlExact(t1, i) {
      assert SqlExact(t, i);
      UntouchedSums(t, best, now, i);
    }
  }

  lemma RecomputeCleans(db: Database, i: InvoiceId, now: Time, dirty: set<InvoiceId>)
    requires SqlAgreesExcept(db.tables, dirty) && Recomputed(db, i, now).Ok?
    ensures SqlAgreesExcept(Recomputed(db, i, now).value.tables, dirty - {i})
    ensures Recomputed(db, i, now).value.tables.invoices.Keys == db.tables.invoices.Keys
    ensures Recomputed(db, i, now).value.invoiceSeq == db.invoiceSeq
  {
    hide PendingOf, ConfirmedOf, SqlRefreshed, Recomputed, SumsFit;
    var t, t' := db.tables, Recomputed(db, i, now).value.tables;
    SqlRefreshedExact(t.invoices[i], PendingOf(t.deposits, i), ConfirmedOf(t.deposits, i), now);
    forall j | j in t'.invoices && j !in dirty - {i} ensures SqlExact(t', j) {
      if j != i {
        assert SqlExact(t, j);
      }
    }
  }

  /** The invoices still to be recomputed. */
  function Left(dirty: set<InvoiceId>, done: seq<InvoiceId>): (r: set<InvoiceId>)
    ensures forall i :: i in r <==> i in dirty && i !in done
  {
    if done == [] then dirty else
    assert done == done[..|done| - 1] + [done[|done| - 1]];
    Left(dirty, done[..|done| - 1]) - {done[|done| - 1]}
  }

  lemma {:induction false} RecomputeAllCleans(db: Database, touched: seq<InvoiceId>, now: Time, dirty: set<InvoiceId>)
    requires SqlAgreesExcept(db.tables, dirty) && RecomputedAll(db, touched, now).Ok?
    ensures var db' := RecomputedAll(db, touched, now).value;
            && SqlAgreesExcept(db'.tables, Left(dirty, touched))
            && db'.tables.invoices.Keys == db.tables.invoices.Keys && db'.invoiceSeq == db.invoiceSeq
  {
    hide Recomputed, SqlAgreesExcept;
    if touched != [] {
      var rest, i := touched[..|touched| - 1], touched[|touched| - 1];
      RecomputeAllCleans(db, rest, now, dirty);
      RecomputeCleans(RecomputedAll(db, rest, now).value, i, now, Left(dirty, rest));
    }
  }

  /** A pass leaves the sums right, in any order. */
  lemma PassKeepsSums(db: Database, best: int, now: Time, keys: seq<DepKey>, touched: seq<InvoiceId>)
    requires SqlAgrees(db.tables) && PassRows(db.tables, best, keys, touched)
            && PassTx(db, best, now, keys, touched).Ok?
    ensures var db' := PassTx(db, best, now, keys, touched).value;
            && SqlAgrees(db'.tables)
            && db'.tables.invoices.Keys == db.tables.invoices.Keys && db'.invoiceSeq == db.invoiceSeq
  {
    assert forall k :: k in keys ==> k in SelectedKeys(db.tables, best);
    assert forall k :: k in keys ==> k in db.tables.deposits;
    hide RowsConfirmed, InvoicesTouched, SelectedKeys, RecomputedAll, InsertEvents, SqlExact;
    var dirty := InvoicesTouched(db.tables, best);
    RowsConfirmedAgree(db.tables, best, now);
    var db1 := db.(tables := db.tables.(deposits := RowsConfirmed(db.tables, best, now)),
                   log := InsertEvents(db.log, ConfirmedNews(db.tables, keys, now)));
    RecomputeAllCleans(db1, touched, now, dirty);
    assert Left(dirty, touched) == {};
  }

  // ----- whole runs -----

  ghost predicate Numbered(db: Database) {
    forall i :: i in db.tables.invoices ==> i <= db.invoiceSeq
  }

  lemma NewInvoiceAgrees(t: Tables, i: InvoiceId, inv: Invoice)
    requires SqlAgrees(t) && i !in t.invoices && i != 0 && inv.received == Received(0, 0)
    ensures SqlAgrees(t.(invoices := t.invoices[i := inv]))
  {
    var t' := t.(invoices := t.invoices[i := inv]);
    SumZero(map k | k in t.deposits :: PendingShare(t.deposits[k], i));
    SumZero(map k | k in t.deposits :: ConfirmedShare(t.deposits[k], i));
    hide Sum;
    forall j | j in t'.invoices ensures SqlExact(t', j) {
      if j != i {
        assert SqlExact(t, j);
      }
    }
  }

  lemma CreationKeepsSums(db: Database, req: InvoiceCreate, now: Time)
    requires Numbered(db)
    ensures Numbered(CreateInvoiceTx(db, req, now).0)
    ensures SqlAgrees(db.tables) ==> SqlAgrees(CreateInvoiceTx(db, req, now).0.tables)
  {
    hide SqlAgrees, TrimSpace, ToLower, Violates, InsertEvent, Replayed, InvoiceCreate.Normal, InvoiceCreate.Usable;
    var r := req.Normal();
    if SqlAgrees(db.tables) {
      NewInvoiceAgrees(db.tables, db.invoiceSeq + 1, InvoiceRow(r, now));
    }
  }

  lemma ScanKeepsNumbers(db: Database, ev: ScanEvent, now: Time)
    requires Numbered(db)
    ensures Numbered(Committed(db, ScanTx(db, ev, now)))
  {
    hide TrimSpace, DepositTx, SqlDeposit;
    if ev.payload.Some? {
      DepositTxTables(db, ev, ev.payload.value, now);
      DepositKeepsKeys(db.tables, ev, ev.payload.value, now);
    }
  }

  lemma DepositKeepsKeys(t: Tables, ev: ScanEvent, p: Payload, now: Time)
    ensures var r := SqlDeposit(t, ev, p, now); r.Ok? ==> r.value.invoices.Keys == t.invoices.Keys
  {
    hide RowAfter, Matched, Ambiguous, SqlRefreshed, SumsFit;
  }

  lemma {:induction false} RecomputedAllKeepsNumbers(db: Database, touched: seq<InvoiceId>, now: Time)
    requires RecomputedAll(db, touched, now).Ok?
    ensures var db' := RecomputedAll(db, touched, now).value;
            db'.tables.invoices.Keys == db.tables.invoices.Keys && db'.invoiceSeq == db.invoiceSeq
  {
    hide InsertEvents, InsertCases, SumsFit, SqlRefreshed;
    if touched != [] {
      RecomputedAllKeepsNumbers(db, touched[..|touched| - 1], now);
    }
  }

  lemma PassStep(db: Database, best: int, now: Time, keys: seq<DepKey>, touched: seq<InvoiceId>)
    requires Numbered(db) && PassRows(db.tables, best, keys, touched)
    ensures var db' := Committed(db, PassTx(db, best, now, keys, touched));
            Numbered(db') && (SqlAgrees(db.tables) ==> SqlAgrees(db'.tables))
  {
    hide PassRows, RowsConfirmed, RecomputedAll, SqlAgrees, InsertEvents;
    if PassTx(db, best, now, keys, touched).Ok? {
      PassKeepsNumbers(db, best, now, keys, touched);
      if SqlAgrees(db.tables) {
        PassKeepsSums(db, best, now, keys, touched);
      }
    }
  }

  lemma PassKeepsNumbers(db: Database, best: int, now: Time, keys: seq<DepKey>, touched: seq<InvoiceId>)
    requires PassRows(db.tables, best, keys, touched) && PassTx(db, best, now, keys, touched).Ok?
    ensures var db' := PassTx(db, best, now, keys, touched).value;
            db'.tables.invoices.Keys == db.tables.invoices.Keys && db'.invoiceSeq == db.invoiceSeq
  {
    assert forall k :: k in keys ==> k in SelectedKeys(db.tables, best);
    assert forall k :: k in keys ==> k in db.tables.deposits;
    hide RowsConfirmed, InvoicesTouched, SelectedKeys, RecomputedAll, InsertEvents;
    RecomputedAllKeepsNumbers(db.(tables := db.tables.(deposits := RowsConfirmed(db.tables, best, now)),
                                  log := InsertEvents(db.log, ConfirmedNews(db.tables, keys, now))), touched, now);
  }

  /** What a call may not break the sums by. */
  ghost predicate KeepsSums(db: Database, a: Action) {
    a.DoScan? ==> ScanKeepsSums(db, a.ev, a.now)
  }

  lemma OtherCallsKeepSums(db: Database, a: Action)
    requires Numbered(db) && !a.DoScan? && !a.DoConfirm? && !a.DoCreateInvoice?
    ensures Numbered(DatabaseStep(db, a)) && (SqlAgrees(db.tables) ==> SqlAgrees(DatabaseStep(db, a).tables))
  {
    hide TrimSpace, InsertEvent, CloseBlocked, SqlAgrees;
    var t' := DatabaseStep(db, a).tables;
    assert t'.invoices == db.tables.invoices && t'.deposits == db.tables.deposits;
    SameTablesAgree(db.tables, t');
  }

  lemma DatabaseStepKeepsSums(db: Database, a: Action)
    requires Numbered(db)
    ensures Numbered(DatabaseStep(db, a))
    ensures SqlAgrees(db.tables) ==> (SqlAgrees(DatabaseStep(db, a).tables) <==> KeepsSums(db, a))
  {
    hide Numbered, SqlAgrees, ScanTx, ScanKeepsSums, PassTx, PassRows, CreateInvoiceTx, SelectedOf;
    if a.DoScan? {
      ScanKeepsNumbers(db, a.ev, a.now);
      if SqlAgrees(db.tables) {
        SqlStepKeepsSums(db, a.ev, a.now);
      }
    } else if a.DoConfirm? {
      var keys := SelectedOf(db.tables, a.order, a.best);
      if PassRows(db.tables, a.best, keys, a.invOrder) {
        PassStep(db, a.best, a.now, keys, a.invOrder);
      }
    } else if a.DoCreateInvoice? {
      CreationKeepsSums(db, a.req, a.now);
    } else {
      hide DatabaseStep;
      OtherCallsKeepSums(db, a);
    }
  }

  ghost predicate AllKeepSums(acts: seq<Action>) {
    forall n :: 0 <= n < |acts| ==> KeepsSums(DatabaseRun(EMPTY_DATABASE, acts[..n]), acts[n])
  }

  ghost predicate AlwaysAgrees(acts: seq<Action>) {
    forall n :: 0 <= n <= |acts| ==> SqlAgrees(DatabaseRun(EMPTY_DATABASE, acts[..n]).tables)
  }

  lemma {:induction false} AlwaysNumbered(acts: seq<Action>)
    ensures Numbered(DatabaseRun(EMPTY_DATABASE, acts))
  {
    if acts != [] {
      hide Numbered, DatabaseStep;
      AlwaysNumbered(acts[..|acts| - 1]);
      DatabaseStepKeepsSums(DatabaseRun(EMPTY_DATABASE, acts[..|acts| - 1]), acts[|acts| - 1]);
    }
  }

  /**
   Over any run of any calls at any times, the sums are right throughout exactly when
   each committed deposit event met the condition.
  */
  lemma {:induction false} SqlSumsOverRun(acts: seq<Action>)
    ensures AlwaysAgrees(acts) <==> AllKeepSums(acts)
  {
    hide SqlAgrees, KeepsSums, DatabaseStep, Numbered;
    if acts == [] {
      NothingAgrees();
      assert acts[..0] == acts;
    } else {
      var before, a := acts[..|acts| - 1], acts[|acts| - 1];
      SqlSumsOverRun(before);
      AlwaysNumbered(before);
      DatabaseStepKeepsSums(DatabaseRun(EMPTY_DATABASE, before), a);
      OneCallMore(acts);
    }
  }

  lemma NothingAgrees()
    ensures SqlAgrees(DatabaseRun(EMPTY_DATABASE, []).tables)
  {
  }

  lemma OneCallMore(acts: seq<Action>)
    requires acts != []
    ensures var before := acts[..|acts| - 1];
            && (AlwaysAgrees(acts) <==> AlwaysAgrees(before) && SqlAgrees(DatabaseRun(EMPTY_DATABASE, acts).tables))
            && (AllKeepSums(acts) <==>
                AllKeepSums(before) && KeepsSums(DatabaseRun(EMPTY_DATABASE, before), acts[|acts| - 1]))
            && (AlwaysAgrees(before) ==> SqlAgrees(DatabaseRun(EMPTY_DATABASE, before).tables))
  {
    hide SqlAgrees, KeepsSums, DatabaseRun;
    var before := acts[..|acts| - 1];
    assert acts[..|acts|] == acts && before[..|before|] == before;
    assert forall n :: 0 <= n <= |before| ==> before[..n] == acts[..n];
  }
}
