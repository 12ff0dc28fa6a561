/** No amount is lost or counted twice between the deposits and the invoices. */
module Conservation {
  import opened Domain
  import opened Sums
  import opened Ledger
  import opened Accounts
  import Confirmation

  ghost function Total(deposits: map<DepKey, Deposit>): (r: int) {
    Sum(map k | k in deposits :: deposits[k].amount)
  }

  function UnclaimedShare(d: Deposit): (r: int) {
    if d.invoice == 0 && d.status != Orphaned then d.amount else 0
  }

  function OrphanedShare(d: Deposit): (r: int) {
    if d.status == Orphaned then d.amount else 0
  }

  ghost function Unclaimed(deposits: map<DepKey, Deposit>): (r: int) {
    Sum(map k | k in deposits :: UnclaimedShare(deposits[k]))
  }

  ghost function OrphanedTotal(deposits: map<DepKey, Deposit>): (r: int) {
    Sum(map k | k in deposits :: OrphanedShare(deposits[k]))
  }

  /** What the deposits of one invoice are worth. */
  ghost function HeldBy(deposits: map<DepKey, Deposit>, i: InvoiceId): (r: int) {
    PendingOf(deposits, i) + ConfirmedOf(deposits, i)
  }

  ghost function HeldMap(deposits: map<DepKey, Deposit>, owners: set<InvoiceId>): (r: map<InvoiceId, int>) {
    map i | i in owners :: HeldBy(deposits, i)
  }

  ghost function Held(deposits: map<DepKey, Deposit>, owners: set<InvoiceId>): (r: int) {
    Sum(HeldMap(deposits, owners))
  }

  function BookedMap(invoices: map<InvoiceId, Invoice>): (r: map<InvoiceId, int>) {
    map i | i in invoices :: invoices[i].received.pending + invoices[i].received.confirmed
  }

  /** What the invoices say they have received. */
  ghost function Booked(invoices: map<InvoiceId, Invoice>): (r: int) {
    Sum(BookedMap(invoices))
  }

  ghost predicate AmountsFit(s: State) {
    forall k :: k in s.deposits ==> 0 <= s.deposits[k].amount <= MAX_INT64
  }

  // ----- every amount is in exactly one place -----

  /** What one deposit is worth to an invoice. */
  function Share(d: Deposit, i: InvoiceId): (r: int) {
    PendingShare(d, i) + ConfirmedShare(d, i)
  }

  lemma HeldByAfterPut(deposits: map<DepKey, Deposit>, k: DepKey, d: Deposit, i: InvoiceId)
    requires k !in deposits
    ensures HeldBy(deposits[k := d], i) == HeldBy(deposits, i) + Share(d, i)
  {
    SharesAfterPut(deposits, k, d, i);
  }

  lemma HeldAfterPut(deposits: map<DepKey, Deposit>, owners: set<InvoiceId>, k: DepKey, d: Deposit)
    requires k !in deposits && (d.invoice == 0 || d.invoice in owners) && 0 !in owners
    ensures Held(deposits[k := d], owners)
         == Held(deposits, owners) + (if d.invoice != 0 && d.status != Orphaned then d.amount else 0)
  {
    hide HeldBy;
    var share := map i | i in owners :: Share(d, i);
    forall i | i in owners ensures HeldMap(deposits[k := d], owners)[i] == HeldMap(deposits, owners)[i] + share[i] {
      HeldByAfterPut(deposits, k, d, i);
    }
    SumAdd(HeldMap(deposits, owners), share, HeldMap(deposits[k := d], owners));
    SumAtMostOne(share, d.invoice);
  }

  lemma TotalsAfterPut(deposits: map<DepKey, Deposit>, k: DepKey, d: Deposit)
    requires k !in deposits
    ensures Total(deposits[k := d]) == Total(deposits) + d.amount
    ensures Unclaimed(deposits[k := d]) == Unclaimed(deposits) + UnclaimedShare(d)
    ensures OrphanedTotal(deposits[k := d]) == OrphanedTotal(deposits) + OrphanedShare(d)
  {
    hide Sum;
    var deposits' := deposits[k := d];
    SumUpdate(map j | j in deposits :: deposits[j].amount, k, d.amount);
    SumUpdate(map j | j in deposits :: UnclaimedShare(deposits[j]), k, UnclaimedShare(d));
    SumUpdate(map j | j in deposits :: OrphanedShare(deposits[j]), k, OrphanedShare(d));
    assert (map j | j in deposits :: deposits[j].amount)[k := d.amount] == map j | j in deposits' ::
        deposits'[j].amount;
    assert (map j | j in deposits :: UnclaimedShare(deposits[j]))[k := UnclaimedShare(d)]
        == map j | j in deposits' :: UnclaimedShare(deposits'[j]);
    assert (map j | j in deposits :: OrphanedShare(deposits[j]))[k := OrphanedShare(d)]
        == map j | j in deposits' :: OrphanedShare(deposits'[j]);
  }

  lemma NothingHeld(owners: set<InvoiceId>)
    ensures Held(map[], owners) == 0 && Unclaimed(map[]) == 0 && OrphanedTotal(map[]) == 0 && Total(map[]) == 0
  {
    forall i | i in owners ensures HeldBy(map[], i) == 0 {
      NoDepositsNoSums(map[], i);
    }
    SumZero(HeldMap(map[], owners));
  }

  /** Attributed, unclaimed and orphaned amounts partition the total. */
  lemma {:induction false} EveryAmountOnce(deposits: map<DepKey, Deposit>, owners: set<InvoiceId>)
    requires 0 !in owners
    requires forall k :: k in deposits ==> deposits[k].invoice == 0 || deposits[k].invoice in owners
    ensures Held(deposits, owners) + Unclaimed(deposits) + OrphanedTotal(deposits) == Total(deposits)
    decreases |deposits|
  {
    hide Held, Unclaimed, OrphanedTotal, Total;
    if deposits == map[] {
      NothingHeld(owners);
    } else {
      var k :| k in deposits;
      var rest := deposits - {k};
      EveryAmountOnce(rest, owners);
      assert deposits == rest[k := deposits[k]];
      HeldAfterPut(rest, owners, k, deposits[k]);
      TotalsAfterPut(rest, k, deposits[k]);
    }
  }

  // ----- stored sums against true sums -----

  lemma SumsWithinTotal(deposits: map<DepKey, Deposit>, i: InvoiceId)
    requires forall k :: k in deposits ==> 0 <= deposits[k].amount
    ensures 0 <= PendingOf(deposits, i) <= Total(deposits)
    ensures 0 <= ConfirmedOf(deposits, i) <= Total(deposits)
  {
    var amounts := map k | k in deposits :: deposits[k].amount;
    ShareWithin(map k | k in deposits :: PendingShare(deposits[k], i), amounts);
    ShareWithin(map k | k in deposits :: ConfirmedShare(deposits[k], i), amounts);
  }

  lemma ShareWithin(part: map<DepKey, int>, whole: map<DepKey, int>)
    requires part.Keys == whole.Keys
    requires forall k :: k in part ==> 0 <= part[k] <= whole[k]
    ensures 0 <= Sum(part) <= Sum(whole)
  {
    var rest := map k | k in part :: whole[k] - part[k];
    SumAdd(part, rest, whole);
    SumNonNegative(part);
    SumNonNegative(rest);
  }

  lemma StepKeepsAmounts(s: State, a: Action)
    requires AmountsFit(s)
    ensures AmountsFit(Step(s, a))
  {
    hide ApplyDeposit, ConfirmPass, CreateInvoice;
    if a.DoConfirm? {
      AmountsFitConfirm(s, a.best, a.now, a.order, a.invOrder);
    } else if Minor(a) {
      hide Step;
      MinorFrame(s, a);
    }
  }

  lemma AmountsFitConfirm(s: State, best: int, now: Time, order: seq<DepKey>, invOrder: seq<InvoiceId>)
    requires AmountsFit(s)
    ensures AmountsFit(ConfirmPass(s, best, now, order, invOrder))
  {
    hide ConfirmAll, RecomputeAll;
    Confirmation.ConfirmAllDeposits(s, order, best, now);
    Confirmation.RecomputeAllFrame(ConfirmAll(s, order, best, now), invOrder, now);
  }

  lemma {:induction false} AmountsAlwaysFit(acts: seq<Action>)
    ensures AmountsFit(Run(acts))
  {
    if acts != [] {
      AmountsAlwaysFit(acts[..|acts| - 1]);
      StepKeepsAmounts(Run(acts[..|acts| - 1]), acts[|acts| - 1]);
    }
  }

  /** A stored sum is the true sum exactly when the true sum fits in 64 bits. */
  lemma StoredSumsExact(acts: seq<Action>, i: InvoiceId)
    requires Legal(acts) && i in Run(acts).invoices
    ensures var s := Run(acts);
            && (s.invoices[i].received.pending == PendingOf(s.deposits, i) <==> PendingOf(s.deposits, i) <= MAX_INT64)
            && (s.invoices[i].received.confirmed == ConfirmedOf(s.deposits, i) <==>
                ConfirmedOf(s.deposits, i) <= MAX_INT64)
  {
    LedgerAgreement(acts);
    AmountsAlwaysFit(acts);
    var s := Run(acts);
    SumsWithinTotal(s.deposits, i);
    assert Exact(s.invoices[i], s.deposits, i);
    WrapExact(PendingOf(s.deposits, i));
    WrapExact(ConfirmedOf(s.deposits, i));
  }

  /** Wrapped, both sums of an invoice are never above the true ones, and equal them when those fit. */
  lemma BookedWithin(inv: Invoice, deposits: map<DepKey, Deposit>, i: InvoiceId)
    requires Exact(inv, deposits, i)
    requires forall k :: k in deposits ==> 0 <= deposits[k].amount
    ensures inv.received.pending + inv.received.confirmed <= HeldBy(deposits, i)
    ensures inv.received.pending + inv.received.confirmed == HeldBy(deposits, i) <==> BothFit(deposits, i)
    ensures Wrap64(inv.received.pending + inv.received.confirmed) == Wrap64(HeldBy(deposits, i))
  {
    hide Wrap64, PendingOf, ConfirmedOf;
    SumsWithinTotal(deposits, i);
    WrapBelow(PendingOf(deposits, i));
    WrapBelow(ConfirmedOf(deposits, i));
    WrapTwice(PendingOf(deposits, i));
    WrapTwice(ConfirmedOf(deposits, i));
    WrapBoth(inv.received.pending, PendingOf(deposits, i), inv.received.confirmed, ConfirmedOf(deposits, i));
  }

  ghost predicate BothFit(deposits: map<DepKey, Deposit>, i: InvoiceId) {
    PendingOf(deposits, i) <= MAX_INT64 && ConfirmedOf(deposits, i) <= MAX_INT64
  }

  lemma WrapBelow(x: nat)
    ensures Wrap64(x) <= x && (Wrap64(x) == x <==> x <= MAX_INT64)
  {
  }

  lemma WrapTwice(x: int)
    ensures Wrap64(Wrap64(x)) == Wrap64(x)
  {
  }

  /** Wrapped sums depend on the wrapped parts alone. */
  lemma WrapBoth(x: int, x': int, y: int, y': int)
    requires Wrap64(x) == Wrap64(x') && Wrap64(y) == Wrap64(y')
    ensures Wrap64(x + y) == Wrap64(x' + y')
  {
    hide Wrap64;
    WrapAdd(x, y);
    WrapAdd(x', y);
    WrapAdd(y, x');
    WrapAdd(y', x');
  }

  lemma {:induction false} SumWrapped<K>(f: map<K, int>, g: map<K, int>)
    requires f.Keys == g.Keys && forall k :: k in f ==> Wrap64(f[k]) == Wrap64(g[k])
    ensures Wrap64(Sum(f)) == Wrap64(Sum(g))
    decreases |f|
  {
    hide Wrap64;
    if f == map[] {
      assert g == map[];
    } else {
      var k :| k in f;
      SumRemove(f, k);
      SumRemove(g, k);
      SumWrapped(f - {k}, g - {k});
      WrapBoth(f[k], g[k], Sum(f - {k}), Sum(g - {k}));
    }
  }

  lemma BookedAndHeld(invoices: map<InvoiceId, Invoice>, deposits: map<DepKey, Deposit>)
    requires AgreesExcept(invoices, deposits, {})
    requires forall k :: k in deposits ==> 0 <= deposits[k].amount
    ensures Wrap64(Booked(invoices)) == Wrap64(Held(deposits, invoices.Keys))
    ensures Booked(invoices) == Held(deposits, invoices.Keys) <==> forall i :: i in invoices ==> BothFit(deposits, i)
  {
    hide HeldBy, Exact, BothFit, Wrap64, Sum;
    var booked, held := BookedMap(invoices), HeldMap(deposits, invoices.Keys);
    forall i | i in invoices
      ensures booked[i] <= held[i] && (booked[i] == held[i] <==> BothFit(deposits, i))
              && Wrap64(booked[i]) == Wrap64(held[i])
    {
      BookedWithin(invoices[i], deposits, i);
    }
    SumWrapped(booked, held);
    SumBelow(booked, held);
  }

  /** In 64 bits, the invoices, the unclaimed and the orphaned deposits account for all amounts, always. */
  lemma ConservationInWords(acts: seq<Action>)
    requires Legal(acts)
    ensures var s := Run(acts);
            Wrap64(Booked(s.invoices) + Unclaimed(s.deposits) + OrphanedTotal(s.deposits)) == Wrap64(Total(s.deposits))
  {
    hide Run, Total, Booked, Unclaimed, OrphanedTotal, Held, Wrap64, Exact;
    var s := Run(acts);
    LedgerAgreement(acts);
    AmountsAlwaysFit(acts);
    BookedAndHeld(s.invoices, s.deposits);
    EveryAmountOnce(s.deposits, s.invoices.Keys);
    var rest := Unclaimed(s.deposits) + OrphanedTotal(s.deposits);
    WrapBoth(Booked(s.invoices), Held(s.deposits, s.invoices.Keys), rest, rest);
  }

  /** They account for them exactly when both sums of every invoice fit in 64 bits. */
  lemma BooksBalance(acts: seq<Action>)
    requires Legal(acts)
    ensures var s := Run(acts);
            Booked(s.invoices) + Unclaimed(s.deposits) + OrphanedTotal(s.deposits) == Total(s.deposits)
            <==> forall i :: i in s.invoices ==> BothFit(s.deposits, i)
  {
    hide Run, Total, Booked, Unclaimed, OrphanedTotal, Held, Exact, BothFit;
    var s := Run(acts);
    LedgerAgreement(acts);
    AmountsAlwaysFit(acts);
    BookedAndHeld(s.invoices, s.deposits);
    EveryAmountOnce(s.deposits, s.invoices.Keys);
  }

  /** In particular while all amounts together fit. */
  lemma ConservationOfAmounts(acts: seq<Action>)
    requires Legal(acts) && Total(Run(acts).deposits) <= MAX_INT64
    ensures var s := Run(acts);
            Booked(s.invoices) + Unclaimed(s.deposits) + OrphanedTotal(s.deposits) == Total(s.deposits)
  {
    hide Run, Total, Booked, Unclaimed, OrphanedTotal, PendingOf, ConfirmedOf;
    AmountsAlwaysFit(acts);
    forall i | i in Run(acts).invoices ensures BothFit(Run(acts).deposits, i) {
      SumsWithinTotal(Run(acts).deposits, i);
    }
    BooksBalance(acts);
  }
}
