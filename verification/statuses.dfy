/**
 What a status says: about the deposits an invoice has, and, since an invoice
 is only recomputed when a payment moves, about its expiry when it is read.
*/
module Statuses {
  import opened Domain
  import opened Ledger
  import opened Accounts
  import opened Attribution
  import opened Conservation
  import opened Sums
  import Confirmation

  /** The status the API shows. */
  function Shown(inv: Invoice, now: Time): (r: InvoiceStatus) {
    if inv.expiresAt.Some? && now > inv.expiresAt.value && inv.received == Received(0, 0) && inv.status == Open
    then Expired else inv.status
  }

  // ----- stored statuses -----

  /** The stored status was right at the last update, or the invoice has never been updated. */
  predicate FreshStatus(inv: Invoice) {
    || inv.status == ComputeStatus(inv, inv.updatedAt)
    || (inv.status == Open && inv.received == Received(0, 0) && inv.updatedAt == inv.createdAt)
  }

  ghost predicate AllFresh(invoices: map<InvoiceId, Invoice>) {
    forall i :: i in invoices ==> FreshStatus(invoices[i])
  }

  lemma RefreshedIsFresh(inv: Invoice, received: Received, now: Time)
    ensures FreshStatus(Refreshed(inv, received, now))
  {
  }

  lemma StepKeepsFresh(s: State, a: Action)
    requires AllFresh(s.invoices) && Enabled(s, a)
    ensures AllFresh(Step(s, a).invoices)
  {
    if Minor(a) {
      MinorFrame(s, a);
      hide Step;
    } else {
      hide FreshStatus, ConfirmPass, ApplyScanEvent, CreateInvoice, PassOrders;
      match a
      case DoConfirm(best, order, invOrder, now) => PassKeepsFresh(s, best, now, order, invOrder);
      case DoScan(ev, owner, now) => ScanKeepsFresh(s, ev, owner, now);
      case DoCreateInvoice(req, now) => CreationKeepsFresh(s, req, now);
    }
  }

  lemma PassKeepsFresh(s: State, best: int, now: Time, order: seq<DepKey>, invOrder: seq<InvoiceId>)
    requires AllFresh(s.invoices) && PassOrders(s, best, order, invOrder)
    ensures AllFresh(ConfirmPass(s, best, now, order, invOrder).invoices)
  {
    hide ConfirmPass, FreshStatus, Refreshed, ReceivedOf, PassOrders;
    Confirmation.PassIsOneUpdate(s, best, now, order, invOrder);
    forall i, received | i in s.invoices ensures FreshStatus(Refreshed(s.invoices[i], received, now)) {
      RefreshedIsFresh(s.invoices[i], received, now);
    }
  }

  lemma ScanKeepsFresh(s: State, ev: ScanEvent, owner: MerchantId, now: Time)
    requires AllFresh(s.invoices)
    ensures AllFresh(ApplyScanEvent(s, ev, owner, now).invoices)
  {
    hide ApplyDeposit, FreshStatus, Refreshed, ReceivedOf, DepositAfter;
    forall i, received | i in s.invoices ensures FreshStatus(Refreshed(s.invoices[i], received, now)) {
      RefreshedIsFresh(s.invoices[i], received, now);
    }
  }

  lemma CreationKeepsFresh(s: State, req: InvoiceCreate, now: Time)
    requires AllFresh(s.invoices)
    ensures AllFresh(CreateInvoice(s, req, now).0.invoices)
  {
    hide CreateInvoice, InsertInvoice, ComputeStatus;
  }

  /** In every reachable state stored statuses are those of the last update. */
  lemma {:induction false} StatusesFresh(acts: seq<Action>)
    requires Legal(acts)
    ensures AllFresh(Run(acts).invoices)
  {
    if acts != [] {
      hide Step, Enabled, AllFresh;
      LegalPrefix(acts);
      StatusesFresh(acts[..|acts| - 1]);
      StepKeepsFresh(Run(acts[..|acts| - 1]), acts[|acts| - 1]);
    }
  }

  // ----- what a status says about the deposits -----

  /** Sums that have not overflowed. */
  predicate SoundSums(received: Received) {
    0 <= received.pending && 0 <= received.confirmed && received.pending + received.confirmed <= MAX_INT64
  }

  ghost predicate AmountsPositive(invoices: map<InvoiceId, Invoice>) {
    forall i :: i in invoices ==> invoices[i].amount > 0
  }

  lemma StepKeepsPositive(s: State, a: Action)
    requires Agrees(s) && Enabled(s, a) && AmountsPositive(s.invoices)
    ensures AmountsPositive(Step(s, a).invoices)
  {
    TermsStep(s, a);
    forall i | i in Step(s, a).invoices ensures Step(s, a).invoices[i].amount > 0 {
      if i in s.invoices {
        hide Step, Enabled, Agrees;
        assert SameTerms(s.invoices[i], Step(s, a).invoices[i]);
      } else {
        NewAmount(s, a.req, a.now, i);
      }
    }
  }

  lemma NewAmount(s: State, req: InvoiceCreate, now: Time, i: InvoiceId)
    requires i !in s.invoices && i in CreateInvoice(s, req, now).0.invoices
    ensures CreateInvoice(s, req, now).0.invoices[i].amount > 0
  {
    hide InsertInvoice;
  }

  lemma {:induction false} AmountsAlwaysPositive(acts: seq<Action>)
    requires Legal(acts)
    ensures AmountsPositive(Run(acts).invoices)
  {
    if acts != [] {
      hide Step, Enabled, AmountsPositive;
      LegalPrefix(acts);
      LedgerAgreement(acts[..|acts| - 1]);
      AmountsAlwaysPositive(acts[..|acts| - 1]);
      StepKeepsPositive(Run(acts[..|acts| - 1]), acts[|acts| - 1]);
    }
  }

  lemma HeldWithinTotal(deposits: map<DepKey, Deposit>, i: InvoiceId)
    requires forall k :: k in deposits ==> 0 <= deposits[k].amount
    ensures HeldBy(deposits, i) <= Total(deposits)
  {
    hide Sum;
    var p := map k | k in deposits :: PendingShare(deposits[k], i);
    var c := map k | k in deposits :: ConfirmedShare(deposits[k], i);
    var held := map k | k in deposits :: Share(deposits[k], i);
    SumAdd(p, c, held);
    ShareWithin(held, map k | k in deposits :: deposits[k].amount);
  }

  /** The status an invoice has when it is up to date, by what its deposits add up to. */
  predicate StatusTells(status: InvoiceStatus, amount: int, pending: int, confirmed: int) {
    && (status == Open || status == Expired <==> pending + confirmed == 0)
    && (status == Confirmed || status == PaidLate <==> confirmed == amount)
    && (status == Overpaid <==> confirmed > amount)
    && (status == Pending <==> confirmed < amount <= pending + confirmed)
    && (status == PartialConfirmed <==> 0 < confirmed && pending + confirmed < amount)
    && (status == PartialPending <==> confirmed == 0 && 0 < pending < amount)
  }

  lemma ComputedTells(inv: Invoice, now: Time)
    requires SoundSums(inv.received) && inv.amount > 0
    ensures StatusTells(ComputeStatus(inv, now), inv.amount, inv.received.pending, inv.received.confirmed)
  {
    assert Wrap64(inv.received.pending + inv.received.confirmed) == inv.received.pending + inv.received.confirmed;
  }

  lemma FreshTells(inv: Invoice, deposits: map<DepKey, Deposit>, i: InvoiceId)
    requires Exact(inv, deposits, i) && FreshStatus(inv) && inv.amount > 0
    requires Total(deposits) <= MAX_INT64 && forall k :: k in deposits ==> 0 <= deposits[k].amount
    ensures StatusTells(inv.status, inv.amount, PendingOf(deposits, i), ConfirmedOf(deposits, i))
  {
    hide Total, PendingOf, ConfirmedOf, ComputeStatus, StatusTells;
    SumsWithinTotal(deposits, i);
    HeldWithinTotal(deposits, i);
    assert inv.received == Received(PendingOf(deposits, i), ConfirmedOf(deposits, i));
    ComputedTells(inv, inv.updatedAt);
    NothingTells(inv.amount);
  }

  lemma NothingTells(amount: int)
    requires amount > 0
    ensures StatusTells(Open, amount, 0, 0)
  {
  }

  /**
   In every reachable state, while the amounts fit in 64 bits, each status says exactly
   how the deposits compare with the amount.
  */
  lemma StatusTellsDeposits(acts: seq<Action>, i: InvoiceId)
    requires Legal(acts) && i in Run(acts).invoices && Total(Run(acts).deposits) <= MAX_INT64
    ensures var s := Run(acts);
            StatusTells(s.invoices[i].status, s.invoices[i].amount, PendingOf(s.deposits, i),
                ConfirmedOf(s.deposits, i))
  {
    hide Run, Total, FreshStatus, Exact, StatusTells;
    LedgerAgreement(acts);
    AmountsAlwaysFit(acts);
    StatusesFresh(acts);
    AmountsAlwaysPositive(acts);
    FreshTells(Run(acts).invoices[i], Run(acts).deposits, i);
  }

  // ----- shown statuses -----

  /** Paid in time, and read after expiry under a policy that marks late payments. */
  predicate TurnsLate(inv: Invoice, now: Time) {
    inv.status == Confirmed && inv.policies.late == MarkPaidLate && inv.ExpiredAt(now)
  }

  /** Stored as expired or as paid late, and read by a clock that stands before the expiry. */
  predicate ReadEarly(inv: Invoice, now: Time) {
    (inv.status == Expired || inv.status == PaidLate) && !inv.ExpiredAt(now)
  }

  /** Open because its sums have wrapped around to nothing, and read after expiry. */
  predicate WrappedAway(inv: Invoice, now: Time) {
    inv.status == Open && inv.received != Received(0, 0) && inv.ExpiredAt(now)
  }

  /**
   Exactly when the shown status is the recomputed one, whatever the clock
   says and the sums are: an invoice paid in time does not turn into a late
   one by being read, one that is expired or late does not turn back, and
   sums that have wrapped around to nothing keep an invoice open.
  */
  lemma ShownIsRecomputed(inv: Invoice, now: Time)
    requires FreshStatus(inv)
    ensures Shown(inv, now) == ComputeStatus(inv, now) <==>
            !TurnsLate(inv, now) && !ReadEarly(inv, now) && !WrappedAway(inv, now)
  {
  }

  /** Sums that have not overflowed never wrap around to nothing. */
  lemma SoundIsNotWrapped(inv: Invoice, now: Time)
    requires FreshStatus(inv) && SoundSums(inv.received)
    ensures !WrappedAway(inv, now)
  {
    assert Wrap64(inv.received.pending + inv.received.confirmed) == inv.received.pending + inv.received.confirmed;
  }

  /** From the last update on nothing is read early. */
  lemma LaterIsNotEarly(inv: Invoice, now: Time)
    requires FreshStatus(inv) && inv.updatedAt <= now
    ensures !ReadEarly(inv, now)
  {
  }

  /** Nothing received: at any time the API shows what recomputing would give, unless the invoice is read early. */
  lemma LazyExpirySound(acts: seq<Action>, i: InvoiceId, now: Time)
    requires Legal(acts) && i in Run(acts).invoices && Run(acts).invoices[i].received == Received(0, 0)
    ensures var inv := Run(acts).invoices[i];
            && (Shown(inv, now) == ComputeStatus(inv, now) <==> !ReadEarly(inv, now))
            && ComputeStatus(inv, now) == (if inv.ExpiredAt(now) then Expired else Open)
            && (inv.updatedAt <= now ==> !ReadEarly(inv, now))
  {
    StatusesFresh(acts);
    var inv := Run(acts).invoices[i];
    hide Run;
    assert FreshStatus(inv);
    ShownIsRecomputed(inv, now);
    if inv.updatedAt <= now {
      LaterIsNotEarly(inv, now);
    }
  }

  /**
   While the amounts fit in 64 bits, what is shown from the last update on is what
   recomputing would give, late payments aside.
  */
  lemma ShownOverRun(acts: seq<Action>, i: InvoiceId, now: Time)
    requires Legal(acts) && i in Run(acts).invoices && Total(Run(acts).deposits) <= MAX_INT64
    ensures var inv := Run(acts).invoices[i];
            && (Shown(inv, now) == ComputeStatus(inv, now) <==> !TurnsLate(inv, now) && !ReadEarly(inv, now))
            && (inv.updatedAt <= now ==> (Shown(inv, now) == ComputeStatus(inv, now) <==> !TurnsLate(inv, now)))
  {
    hide Run, Total, FreshStatus, Exact, Shown, TurnsLate, ReadEarly;
    StatusesFresh(acts);
    LedgerAgreement(acts);
    AmountsAlwaysFit(acts);
    ShownWithin(Run(acts).invoices[i], Run(acts).deposits, i, now);
  }

  lemma ShownWithin(inv: Invoice, deposits: map<DepKey, Deposit>, i: InvoiceId, now: Time)
    requires Exact(inv, deposits, i) && FreshStatus(inv)
    requires Total(deposits) <= MAX_INT64 && forall k :: k in deposits ==> 0 <= deposits[k].amount
    ensures Shown(inv, now) == ComputeStatus(inv, now) <==> !TurnsLate(inv, now) && !ReadEarly(inv, now)
    ensures inv.updatedAt <= now ==> !ReadEarly(inv, now)
  {
    hide Total, PendingOf, ConfirmedOf, ComputeStatus, Shown, TurnsLate, ReadEarly, WrappedAway, FreshStatus;
    SumsWithinTotal(deposits, i);
    HeldWithinTotal(deposits, i);
    ShownIsRecomputed(inv, now);
    SoundIsNotWrapped(inv, now);
    if inv.updatedAt <= now {
      LaterIsNotEarly(inv, now);
    }
  }

  // ----- invoices that show the conditions can fail -----

  const EXPIRED_EMPTY := Invoice(1, "order", "w", 0, "a", 0, "", 5, 1,
      Policies(MarkPaidLate, AcceptPartial, MarkOverpaid),
                                 Received(0, 0), Expired, Some(10), 0, 20)
  const PAID_IN_TIME := EXPIRED_EMPTY.(received := Received(0, 5), status := Confirmed, updatedAt := 8)

  const WRAPPED_OPEN := EXPIRED_EMPTY.(received := Received(-1, 1), status := Open, updatedAt := 8)

  /** Read by a clock that went back, an expired invoice still shows as expired. */
  lemma ClockMustNotGoBack()
    ensures FreshStatus(EXPIRED_EMPTY) && SoundSums(EXPIRED_EMPTY.received) && ReadEarly(EXPIRED_EMPTY, 5)
    ensures Shown(EXPIRED_EMPTY, 5) == Expired && ComputeStatus(EXPIRED_EMPTY, 5) == Open
  {
  }

  /** Paid at 8, expired at 10, read at 20: shown as confirmed, where recomputing would call it paid late. */
  lemma ReadingDoesNotMarkLate()
    ensures FreshStatus(PAID_IN_TIME) && SoundSums(PAID_IN_TIME.received) && TurnsLate(PAID_IN_TIME, 20)
    ensures Shown(PAID_IN_TIME, 20) == Confirmed && ComputeStatus(PAID_IN_TIME, 20) == PaidLate
  {
  }

  /**
   Sums that have wrapped around to nothing, and an expiry that has passed: shown as
   open, where recomputing would call it expired.
  */
  lemma WrappedStaysOpen()
    ensures FreshStatus(WRAPPED_OPEN) && WrappedAway(WRAPPED_OPEN, 20)
    ensures Shown(WRAPPED_OPEN, 20) == Open && ComputeStatus(WRAPPED_OPEN, 20) == Expired
  {
  }
}
