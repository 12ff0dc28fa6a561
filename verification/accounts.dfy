/**
 The sums kept on invoices agree with the deposits in every reachable state,
 attribution of a deposit is written once, and no amount is lost.
*/
module Accounts {
  import opened Domain
  import opened Sums
  import opened Ledger

  // ----- the agreement invariant -----

  /** An invoice holds the (64-bit) sums of its deposits. */
  ghost predicate Exact(inv: Invoice, deposits: map<DepKey, Deposit>, i: InvoiceId) {
    inv.received == ReceivedOf(deposits, i)
  }

  /** Attributed deposits name invoices, zero names none, and every invoice outside `dirty` is exact. */
  ghost predicate AgreesExcept(invoices: map<InvoiceId, Invoice>, deposits: map<DepKey, Deposit>,
                               dirty: set<InvoiceId>) {
    && 0 !in invoices
    && (forall k :: k in deposits && deposits[k].invoice != 0 ==> deposits[k].invoice in invoices)
    && (forall i :: i in invoices && i !in dirty ==> Exact(invoices[i], deposits, i))
  }

  ghost predicate Agrees(s: State) {
    && AgreesExcept(s.invoices, s.deposits, {})
    && (forall i :: i in s.invoices ==> i <= s.invoiceSeq)
  }

  // ----- how the sums move -----

  lemma SharesAfterPut(deposits: map<DepKey, Deposit>, k: DepKey, d: Deposit, i: InvoiceId)
    ensures PendingOf(deposits[k := d], i)
         == PendingOf(deposits, i) - (if k in deposits then PendingShare(deposits[k], i) else 0) + PendingShare(d, i)
    ensures ConfirmedOf(deposits[k := d], i)
         == ConfirmedOf(deposits, i) - (if k in deposits then ConfirmedShare(deposits[k], i) else 0)
             + ConfirmedShare(d, i)
  {
    hide PendingOf, ConfirmedOf, PendingShare, ConfirmedShare;
    PendingAfterPut(deposits, k, d, i);
    ConfirmedAfterPut(deposits, k, d, i);
  }

  lemma PendingAfterPut(deposits: map<DepKey, Deposit>, k: DepKey, d: Deposit, i: InvoiceId)
    ensures PendingOf(deposits[k := d], i)
         == PendingOf(deposits, i) - (if k in deposits then PendingShare(deposits[k], i) else 0) + PendingShare(d, i)
  {
    hide PendingShare, Sum;
    var deposits', p := deposits[k := d], map j | j in deposits :: PendingShare(deposits[j], i);
    SumUpdate(p, k, PendingShare(d, i));
    assert p[k := PendingShare(d, i)] == map j | j in deposits' :: PendingShare(deposits'[j], i);
  }

  lemma ConfirmedAfterPut(deposits: map<DepKey, Deposit>, k: DepKey, d: Deposit, i: InvoiceId)
    ensures ConfirmedOf(deposits[k := d], i)
         == ConfirmedOf(deposits, i) - (if k in deposits then ConfirmedShare(deposits[k], i) else 0)
             + ConfirmedShare(d, i)
  {
    hide ConfirmedShare, Sum;
    var deposits', c := deposits[k := d], map j | j in deposits :: ConfirmedShare(deposits[j], i);
    SumUpdate(c, k, ConfirmedShare(d, i));
    assert c[k := ConfirmedShare(d, i)] == map j | j in deposits' :: ConfirmedShare(deposits'[j], i);
  }

  /**
   Only its own invoice counts a deposit: a confirmed one in the confirmed sum, a detected
   or unconfirmed one in the pending sum, and an orphaned one in neither.
  */
  lemma SumsTell(deposits: map<DepKey, Deposit>, k: DepKey, i: InvoiceId)
    requires k in deposits
    ensures var d, rest := deposits[k], deposits - {k};
            && (ConfirmedOf(deposits, i)
                == ConfirmedOf(rest, i) + if d.invoice == i && d.status == DepositConfirmed then d.amount else 0)
            && (PendingOf(deposits, i)
                == PendingOf(rest, i) + if d.invoice == i && d.status != DepositConfirmed
                    && d.status != Orphaned then d.amount else 0)
  {
    hide PendingOf, ConfirmedOf;
    var rest := deposits - {k};
    assert deposits == rest[k := deposits[k]];
    SharesAfterPut(rest, k, deposits[k], i);
  }

  /** A deposit counts for its own invoice only. */
  lemma OtherSumsUnmoved(deposits: map<DepKey, Deposit>, k: DepKey, d: Deposit, i: InvoiceId)
    requires i != d.invoice
    requires k in deposits ==> deposits[k].invoice == 0 || deposits[k].invoice == d.invoice
    requires i != 0
    ensures ReceivedOf(deposits[k := d], i) == ReceivedOf(deposits, i)
  {
    SharesAfterPut(deposits, k, d, i);
  }

  lemma OneDeposit(k: DepKey, d: Deposit, i: InvoiceId)
    ensures PendingOf(map[k := d], i) == PendingShare(d, i) && ConfirmedOf(map[k := d], i) == ConfirmedShare(d, i)
  {
    SumAtMostOne(map j | j in map[k := d] :: PendingShare(map[k := d][j], i), k);
    SumAtMostOne(map j | j in map[k := d] :: ConfirmedShare(map[k := d][j], i), k);
  }

  lemma NoDepositsNoSums(deposits: map<DepKey, Deposit>, i: InvoiceId)
    requires forall k :: k in deposits ==> deposits[k].invoice != i
    ensures PendingOf(deposits, i) == 0 && ConfirmedOf(deposits, i) == 0
  {
    SumZero(map k | k in deposits :: PendingShare(deposits[k], i));
    SumZero(map k | k in deposits :: ConfirmedShare(deposits[k], i));
  }

  // ----- every step keeps the agreement -----

  lemma PutKeepsAgreement(invoices: map<InvoiceId, Invoice>, deposits: map<DepKey, Deposit>,
                          k: DepKey, d: Deposit, dirty: set<InvoiceId>)
    requires AgreesExcept(invoices, deposits, dirty)
    requires k in deposits ==> deposits[k].invoice == 0 || deposits[k].invoice == d.invoice
    requires d.invoice == 0 || d.invoice in invoices
    requires d.invoice == 0 || d.invoice in dirty
    ensures AgreesExcept(invoices, deposits[k := d], dirty)
  {
    forall i | i in invoices && i !in dirty ensures Exact(invoices[i], deposits[k := d], i) {
      assert Exact(invoices[i], deposits, i);
      OtherSumsUnmoved(deposits, k, d, i);
    }
  }

  lemma RefreshKeepsAgreement(invoices: map<InvoiceId, Invoice>, deposits: map<DepKey, Deposit>,
                              i: InvoiceId, now: Time, dirty: set<InvoiceId>)
    requires AgreesExcept(invoices, deposits, dirty) && i in invoices
    ensures AgreesExcept(invoices[i := Refreshed(invoices[i], ReceivedOf(deposits, i), now)], deposits, dirty - {i})
  {
  }

  lemma ApplyDepositKeepsAgreement(s: State, ev: ScanEvent, p: Payload, owner: MerchantId, now: Time)
    requires Agrees(s)
    ensures Agrees(ApplyDeposit(s, ev, p, owner, now))
  {
    hide ReceivedOf, ApplyDeposit, Refreshed;
    if Acceptable(p) {
      var k := PayloadKey(ev, p);
      var d := DepositAfter(s, ev, p, now);
      var dirty := if d.invoice == 0 then {} else {d.invoice};
      PutKeepsAgreement(s.invoices, s.deposits, k, d, dirty);
      if d.invoice != 0 {
        RefreshKeepsAgreement(s.invoices, s.deposits[k := d], d.invoice, now, dirty);
        assert dirty - {d.invoice} == {};
      }
    }
  }

  lemma CreateInvoiceKeepsAgreement(s: State, req: InvoiceCreate, now: Time)
    requires Agrees(s)
    ensures Agrees(CreateInvoice(s, req, now).0)
  {
    hide CreateInvoice, InsertInvoice, InvoiceCreate.Normal, PendingOf, ConfirmedOf;
    var id := s.invoiceSeq + 1;
    var s' := CreateInvoice(s, req, now).0;
    if s'.invoices != s.invoices {
      NoDepositsNoSums(s.deposits, id);
      forall i | i in s'.invoices ensures Exact(s'.invoices[i], s.deposits, i) {
        assert i != id ==> Exact(s.invoices[i], s.deposits, i);
      }
    }
  }

  // ----- the confirmation pass -----

  /** While deposits are being confirmed, only the affected invoices lag behind. */
  lemma {:induction false} ConfirmAllKeepsAgreement(s: State, order: seq<DepKey>, best: int, now: Time)
    requires Agrees(s)
    ensures var s' := ConfirmAll(s, order, best, now);
            && AgreesExcept(s.invoices, s'.deposits, Affected(s, best))
            && s'.invoices == s.invoices && s'.invoiceSeq == s.invoiceSeq
            && s'.deposits.Keys == s.deposits.Keys
            && forall k :: k in s.deposits && s'.deposits[k] != s.deposits[k]
                 ==> ConfirmsAt(s, s.deposits[k], best) && s'.deposits[k].status == DepositConfirmed
  {
    hide ReceivedOf, ComputeStatus;
    if order == [] {
    } else {
      var rest, k := order[..|order| - 1], order[|order| - 1];
      ConfirmAllKeepsAgreement(s, rest, best, now);
      var s1 := ConfirmAll(s, rest, best, now);
      if k in s1.deposits && ConfirmsAt(s1, s1.deposits[k], best) {
        assert s1.deposits[k] == s.deposits[k];
        assert ConfirmsAt(s, s.deposits[k], best);
        PutKeepsAgreement(s.invoices, s1.deposits, k, ConfirmedDeposit(s1, s1.deposits[k], now), Affected(s, best));
      }
    }
  }

  lemma {:induction false} RecomputeAllKeepsAgreement(s: State, order: seq<InvoiceId>, now: Time, dirty: set<InvoiceId>)
    requires AgreesExcept(s.invoices, s.deposits, dirty)
    requires forall i :: i in order ==> i in s.invoices
    ensures var s' := RecomputeAll(s, order, now);
            && AgreesExcept(s'.invoices, s'.deposits, dirty - (set i | i in order))
            && s'.invoices.Keys == s.invoices.Keys && s'.invoiceSeq == s.invoiceSeq && s'.deposits == s.deposits
  {
    hide ReceivedOf, ComputeStatus;
    if order == [] {
      assert dirty - (set i | i in order) == dirty;
    } else {
      var rest, i := order[..|order| - 1], order[|order| - 1];
      RecomputeAllKeepsAgreement(s, rest, now, dirty);
      var s1 := RecomputeAll(s, rest, now);
      assert order == rest + [i];
      RefreshKeepsAgreement(s1.invoices, s1.deposits, i, now, dirty - (set j | j in rest));
      assert dirty - (set j | j in order) == dirty - (set j | j in rest) - {i};
    }
  }

  lemma ConfirmPassKeepsAgreement(s: State, best: int, now: Time, order: seq<DepKey>, invOrder: seq<InvoiceId>)
    requires Agrees(s) && PassOrders(s, best, order, invOrder)
    ensures Agrees(ConfirmPass(s, best, now, order, invOrder))
  {
    ConfirmAllKeepsAgreement(s, order, best, now);
    RecomputeAllKeepsAgreement(ConfirmAll(s, order, best, now), invOrder, now, Affected(s, best));
    assert Affected(s, best) - (set i | i in invOrder) == {};
  }

  lemma ScanKeepsAgreement(s: State, ev: ScanEvent, owner: MerchantId, now: Time)
    requires Agrees(s)
    ensures Agrees(ApplyScanEvent(s, ev, owner, now))
  {
    hide ReceivedOf, ApplyDeposit;
    if Effective(s, ev) && ev.kind != OtherKind {
      ApplyDepositKeepsAgreement(s, ev, ev.payload.value, owner, now);
    }
  }

  lemma StepKeepsAgreement(s: State, a: Action)
    requires Agrees(s) && Enabled(s, a)
    ensures Agrees(Step(s, a))
  {
    hide ReceivedOf, ApplyScanEvent, ConfirmPass, CreateInvoice;
    if Minor(a) {
      hide Step;
      MinorFrame(s, a);
    } else {
      match a
      case DoScan(ev, owner, now) => ScanKeepsAgreement(s, ev, owner, now);
      case DoConfirm(best, order, invOrder, now) => ConfirmPassKeepsAgreement(s, best, now, order, invOrder);
      case DoCreateInvoice(req, now) => CreateInvoiceKeepsAgreement(s, req, now);
    }
  }

  /** In every reachable state the sums of every invoice are the (64-bit) sums of its deposits. */
  lemma {:induction false} LedgerAgreement(acts: seq<Action>)
    requires Legal(acts)
    ensures Agrees(Run(acts))
  {
    if acts != [] {
      LegalPrefix(acts);
      LedgerAgreement(acts[..|acts| - 1]);
      StepKeepsAgreement(Run(acts[..|acts| - 1]), acts[|acts| - 1]);
    }
  }
}
