/**
 The confirmation pass: whatever order the maps are iterated in, it is one
 map update; it leaves nothing to confirm, and repeating it changes nothing.
*/
module Confirmation {
  import opened Domain
  import opened Text
  import opened Ledger

  // ----- the pass as one map update -----

  /** All deposits that are deep enough, confirmed at once. */
  function DepositsConfirmed(s: State, best: int, now: Time): (r: map<DepKey, Deposit>) {
    map k | k in s.deposits ::
      if ConfirmsAt(s, s.deposits[k], best) then ConfirmedDeposit(s, s.deposits[k], now) else s.deposits[k]
  }

  /** All affected invoices brought up to date at once. */
  ghost function InvoicesRefreshed(s: State, best: int, now: Time): (r: map<InvoiceId, Invoice>) {
    map i | i in s.invoices ::
      if i in Affected(s, best)
      then Refreshed(s.invoices[i], ReceivedOf(DepositsConfirmed(s, best, now), i), now)
      else s.invoices[i]
  }

  /** The first loop writes no table but the deposits and the event tables. */
  ghost predicate SameBesideConfirms(s: State, s': State) {
    s'.(events := s.events, deposits := s.deposits) == s
  }

  lemma {:induction false} ConfirmAllFrame(s: State, order: seq<DepKey>, best: int, now: Time)
    ensures SameBesideConfirms(s, ConfirmAll(s, order, best, now))
  {
    hide ConfirmOne;
    if order != [] {
      ConfirmAllFrame(s, order[..|order| - 1], best, now);
    }
  }

  lemma {:induction false} ConfirmAllDeposits(s: State, order: seq<DepKey>, best: int, now: Time)
    ensures ConfirmAll(s, order, best, now).deposits ==
              map k | k in s.deposits ::
                if k in order && ConfirmsAt(s, s.deposits[k], best) then ConfirmedDeposit(s, s.deposits[k], now)
                    else s.deposits[k]
  {
    hide ConfirmOne;
    if order == [] {
    } else {
      var rest, k := order[..|order| - 1], order[|order| - 1];
      assert order == rest + [k];
      ConfirmAllDeposits(s, rest, best, now);
      ConfirmAllFrame(s, rest, best, now);
      var s1 := ConfirmAll(s, rest, best, now);
      assert s1.invoices == s.invoices;
    }
  }

  /** The second loop writes no table but the invoices, the event tables and the review cases. */
  ghost predicate SameBesideRecomputes(s: State, s': State) {
    s'.(events := s.events, reviews := s.reviews, invoices := s.invoices) == s
  }

  lemma {:induction false} RecomputeAllFrame(s: State, order: seq<InvoiceId>, now: Time)
    ensures SameBesideRecomputes(s, RecomputeAll(s, order, now))
  {
    hide Recompute, ReceivedOf;
    if order != [] {
      RecomputeAllFrame(s, order[..|order| - 1], now);
    }
  }

  lemma {:induction false} RecomputeAllInvoices(s: State, order: seq<InvoiceId>, now: Time)
    requires forall i :: i in order ==> i in s.invoices
    requires forall i, j :: 0 <= i < j < |order| ==> order[i] != order[j]
    ensures RecomputeAll(s, order, now).invoices ==
              map i | i in s.invoices ::
                if i in order then Refreshed(s.invoices[i], ReceivedOf(s.deposits, i), now) else s.invoices[i]
  {
    hide Recompute, Refreshed, ReceivedOf;
    if order == [] {
    } else {
      var rest, i := order[..|order| - 1], order[|order| - 1];
      assert order == rest + [i];
      RecomputeAllInvoices(s, rest, now);
      RecomputeAllFrame(s, rest, now);
      assert RecomputeAll(s, rest, now).deposits == s.deposits;
      assert i !in rest;
    }
  }

  /**
   For every iteration order the pass is the same update of deposits and invoices, and
   touches no other table but the event tables.
  */
  lemma PassIsOneUpdate(s: State, best: int, now: Time, order: seq<DepKey>, invOrder: seq<InvoiceId>)
    requires PassOrders(s, best, order, invOrder)
    ensures var s' := ConfirmPass(s, best, now, order, invOrder);
            && s'.deposits == DepositsConfirmed(s, best, now)
            && s'.invoices == InvoicesRefreshed(s, best, now)
            && SameBesideRecomputes(s, s'.(deposits := s.deposits))
  {
    hide Refreshed, ReceivedOf, ConfirmAll, RecomputeAll;
    ConfirmAllDeposits(s, order, best, now);
    ConfirmAllFrame(s, order, best, now);
    var s1 := ConfirmAll(s, order, best, now);
    assert s1.deposits == DepositsConfirmed(s, best, now);
    RecomputeAllInvoices(s1, invOrder, now);
    RecomputeAllFrame(s1, invOrder, now);
  }

  // ----- nothing is left, and repetition is harmless -----

  /** Confirmations a chain of this height gives to a deposit, and those its invoice asks for. */
  predicate Deep(inv: Invoice, d: Deposit, best: int) {
    best - d.height + 1 >= inv.requiredConfirmations && best >= d.height
  }

  /** After a pass no attributed detected deposit meets the confirmations its invoice asks for. */
  lemma PassIsComplete(s: State, best: int, now: Time, order: seq<DepKey>, invOrder: seq<InvoiceId>)
    requires PassOrders(s, best, order, invOrder)
    ensures var s' := ConfirmPass(s, best, now, order, invOrder);
            forall k, h :: k in s'.deposits && h <= best ==>
              && !ConfirmsAt(s', s'.deposits[k], h)
              && var d := s'.deposits[k];
                 d.status == Detected && d.invoice != 0 && d.invoice in s'.invoices ==>
                     !Deep(s'.invoices[d.invoice], d, h)
  {
    hide ReceivedOf, ConfirmAll, RecomputeAll, ConfirmPass, ComputeStatus;
    PassIsOneUpdate(s, best, now, order, invOrder);
    var s' := ConfirmPass(s, best, now, order, invOrder);
    forall k, h | k in s'.deposits && h <= best
      ensures !ConfirmsAt(s', s'.deposits[k], h)
      ensures var d := s'.deposits[k];
              d.status == Detected && d.invoice != 0 && d.invoice in s'.invoices ==> !Deep(s'.invoices[d.invoice], d, h)
    {
      var d := s.deposits[k];
      if d.invoice in s.invoices {
        assert s'.invoices[d.invoice].Required() == s.invoices[d.invoice].Required();
      }
    }
  }

  /**
   What a pass makes of a deposit: confirmed exactly when it is attributed, detected and
   deep enough, and else as it was.
  */
  lemma PassConfirmsExactly(s: State, best: int, now: Time, order: seq<DepKey>, invOrder: seq<InvoiceId>, k: DepKey)
    requires PassOrders(s, best, order, invOrder) && k in s.deposits
    ensures var s' := ConfirmPass(s, best, now, order, invOrder);
            var d, i := s.deposits[k], s.deposits[k].invoice;
            && s'.deposits.Keys == s.deposits.Keys
            && if i != 0 && i in s.invoices && d.status == Detected && Deep(s.invoices[i], d, best)
               then var n := s.invoices[i].requiredConfirmations;
                    s'.deposits[k] == d.(status := DepositConfirmed, updatedAt := now,
                                         confirmedHeight := Some(d.height + (if n <= 0 then 1 else n) - 1))
               else s'.deposits[k] == d
  {
    hide ConfirmPass, Refreshed, ReceivedOf;
    PassIsOneUpdate(s, best, now, order, invOrder);
  }

  lemma {:induction false} NothingToConfirm(s: State, order: seq<DepKey>, best: int, now: Time)
    requires forall k :: k in s.deposits ==> !ConfirmsAt(s, s.deposits[k], best)
    ensures ConfirmAll(s, order, best, now) == s
  {
    if order != [] {
      NothingToConfirm(s, order[..|order| - 1], best, now);
    }
  }

  /** A second pass at the same or a lower height, at any time and in any order, is the identity on the whole store. */
  lemma SecondPassIsIdentity(s: State, best: int, now: Time, order: seq<DepKey>, invOrder: seq<InvoiceId>,
                             best': int, now': Time, order': seq<DepKey>, invOrder': seq<InvoiceId>)
    requires PassOrders(s, best, order, invOrder) && best' <= best
    requires PassOrders(ConfirmPass(s, best, now, order, invOrder), best', order', invOrder')
    ensures var s' := ConfirmPass(s, best, now, order, invOrder);
            ConfirmPass(s', best', now', order', invOrder') == s'
  {
    var s' := ConfirmPass(s, best, now, order, invOrder);
    PassIsComplete(s, best, now, order, invOrder);
    NothingToConfirm(s', order', best', now');
    assert Affected(s', best') == {};
    ListsLength(invOrder', {});
  }

  // ----- confirmation safety over runs -----

  /** Some confirmation pass of the run reached this height. */
  ghost predicate ReachedBy(acts: seq<Action>, height: int) {
    exists n :: 0 <= n < |acts| && acts[n].DoConfirm? && height <= acts[n].best
  }

  /**
   The pass at `n` found the deposit deep enough for an invoice that asks for `required`
   confirmations, and gave it this confirmed height.
  */
  ghost predicate ConfirmedAt(acts: seq<Action>, n: nat, k: DepKey, confirmedHeight: int, required: int) {
    && n < |acts| && acts[n].DoConfirm? && k in Run(acts[..n]).deposits
    && var d := Run(acts[..n]).deposits[k];
       && d.status == Detected && acts[n].best - d.height + 1 >= required && acts[n].best >= d.height
       && confirmedHeight == d.height + (if required <= 0 then 1 else required) - 1
  }

  ghost predicate PassFound(acts: seq<Action>, k: DepKey, confirmedHeight: int, required: int) {
    exists n: nat :: ConfirmedAt(acts, n, k, confirmedHeight, required)
  }

  /** Confirmed means attributed, and confirmed by a pass that saw the confirmations the invoice asks for. */
  ghost predicate SafeDeposit(acts: seq<Action>, s: State, k: DepKey)
    requires k in s.deposits
  {
    var d := s.deposits[k];
    && (d.status == DepositConfirmed <==> d.confirmedHeight.Some?)
    && (d.status == DepositConfirmed ==>
          && d.invoice != 0 && d.invoice in s.invoices && ReachedBy(acts, d.confirmedHeight.value)
          && PassFound(acts, k, d.confirmedHeight.value, s.invoices[d.invoice].requiredConfirmations))
  }

  ghost predicate Safe(acts: seq<Action>, s: State) {
    forall k :: k in s.deposits ==> SafeDeposit(acts, s, k)
  }

  lemma ReachedByMore(acts: seq<Action>, a: Action, height: int)
    requires ReachedBy(acts, height)
    ensures ReachedBy(acts + [a], height)
  {
    var n :| 0 <= n < |acts| && acts[n].DoConfirm? && height <= acts[n].best;
    assert (acts + [a])[n] == acts[n];
  }

  lemma PassFoundLater(acts: seq<Action>, a: Action, k: DepKey, confirmedHeight: int, required: int)
    requires PassFound(acts, k, confirmedHeight, required)
    ensures PassFound(acts + [a], k, confirmedHeight, required)
  {
    hide Run;
    var n: nat :| ConfirmedAt(acts, n, k, confirmedHeight, required);
    assert (acts + [a])[..n] == acts[..n] && (acts + [a])[n] == acts[n];
    assert ConfirmedAt(acts + [a], n, k, confirmedHeight, required);
  }

  /** Calls keep what an invoice asks for. */
  ghost predicate SameRequired(before: map<InvoiceId, Invoice>, after: map<InvoiceId, Invoice>) {
    forall i :: i in before ==> i in after && after[i].requiredConfirmations == before[i].requiredConfirmations
  }

  /** A confirmed deposit that stays confirmed, at its confirmed height and with its invoice. */
  lemma SafeLater(acts: seq<Action>, a: Action, s: State, s': State, k: DepKey)
    requires k in s.deposits && k in s'.deposits && SafeDeposit(acts, s, k) && SameRequired(s.invoices, s'.invoices)
    requires s'.deposits[k].status == s.deposits[k].status == DepositConfirmed
    requires s'.deposits[k].confirmedHeight == s.deposits[k].confirmedHeight
            && s'.deposits[k].invoice == s.deposits[k].invoice
    ensures SafeDeposit(acts + [a], s', k)
  {
    hide ReachedBy, PassFound;
    var d := s.deposits[k];
    ReachedByMore(acts, a, d.confirmedHeight.value);
    PassFoundLater(acts, a, k, d.confirmedHeight.value, s.invoices[d.invoice].requiredConfirmations);
  }

  lemma ScanKeepsRequired(s: State, ev: ScanEvent, owner: MerchantId, now: Time)
    ensures SameRequired(s.invoices, ApplyScanEvent(s, ev, owner, now).invoices)
  {
    hide ApplyDeposit, DepositAfter, ReceivedOf, ComputeStatus;
  }

  lemma ScannedRow(s: State, ev: ScanEvent, owner: MerchantId, now: Time, k: DepKey)
    requires k in ApplyScanEvent(s, ev, owner, now).deposits
    ensures var d := ApplyScanEvent(s, ev, owner, now).deposits[k];
            if d.status == DepositConfirmed && k in s.deposits
            then s.deposits[k].status == DepositConfirmed && d.confirmedHeight == s.deposits[k].confirmedHeight
                 && (s.deposits[k].invoice != 0 ==> d.invoice == s.deposits[k].invoice)
            else d.status != DepositConfirmed && (d.confirmedHeight == None || (k in s.deposits && d == s.deposits[k]))
  {
    hide ApplyDeposit, ReceivedOf, MatchInvoice, TrimSpace, ToLower;
  }

  lemma ScanKeepsSafe(acts: seq<Action>, s: State, ev: ScanEvent, owner: MerchantId, now: Time)
    requires Safe(acts, s)
    ensures Safe(acts + [DoScan(ev, owner, now)], ApplyScanEvent(s, ev, owner, now))
  {
    hide ApplyScanEvent, ReachedBy, PassFound, SameRequired;
    var s' := ApplyScanEvent(s, ev, owner, now);
    ScanKeepsRequired(s, ev, owner, now);
    forall k | k in s'.deposits ensures SafeDeposit(acts + [DoScan(ev, owner, now)], s', k) {
      ScannedRow(s, ev, owner, now, k);
      if s'.deposits[k].status == DepositConfirmed {
        assert SafeDeposit(acts, s, k);
        SafeLater(acts, DoScan(ev, owner, now), s, s', k);
      } else {
        assert k in s.deposits ==> SafeDeposit(acts, s, k);
      }
    }
  }

  lemma PassKeepsRequired(s: State, a: Action)
    requires a.DoConfirm? && Enabled(s, a)
    ensures SameRequired(s.invoices, Step(s, a).invoices)
  {
    hide ConfirmPass, ReceivedOf, ComputeStatus;
    PassIsOneUpdate(s, a.best, a.now, a.order, a.invOrder);
  }

  lemma PassKeepsSafe(acts: seq<Action>, a: Action)
    requires var s := Run(acts); Safe(acts, s) && a.DoConfirm? && Enabled(s, a)
    ensures Safe(acts + [a], Step(Run(acts), a))
  {
    hide Run, ConfirmPass, ReachedBy, PassFound, PassOrders, SameRequired, Deep;
    var s := Run(acts);
    var s' := Step(s, a);
    PassKeepsRequired(s, a);
    PassIsOneUpdate(s, a.best, a.now, a.order, a.invOrder);
    forall k | k in s'.deposits ensures SafeDeposit(acts + [a], s', k) {
      PassConfirmsExactly(s, a.best, a.now, a.order, a.invOrder, k);
      assert SafeDeposit(acts, s, k);
      if s'.deposits[k].status == DepositConfirmed {
        if s.deposits[k].status == DepositConfirmed {
          SafeLater(acts, a, s, s', k);
        } else {
          JustConfirmed(acts, a, s', k);
        }
      }
    }
  }

  /** The pass just made is the one that found the deposit deep enough. */
  lemma JustConfirmed(acts: seq<Action>, a: Action, s': State, k: DepKey)
    requires var s := Run(acts);
             && a.DoConfirm? && k in s.deposits && s.deposits[k].status == Detected
             && s.deposits[k].invoice != 0 && s.deposits[k].invoice in s.invoices
             && Deep(s.invoices[s.deposits[k].invoice], s.deposits[k], a.best) && SameRequired(s.invoices, s'.invoices)
             && var n := s.invoices[s.deposits[k].invoice].requiredConfirmations;
                k in s'.deposits
                && s'.deposits[k] == s.deposits[k].(
                     status := DepositConfirmed, updatedAt := a.now,
                     confirmedHeight := Some(s.deposits[k].height + (if n <= 0 then 1 else n) - 1))
    ensures SafeDeposit(acts + [a], s', k)
  {
    hide Run;
    var all, d := acts + [a], Run(acts).deposits[k];
    var n := Run(acts).invoices[d.invoice].requiredConfirmations;
    assert all[|acts|] == a && all[..|acts|] == acts;
    assert ConfirmedAt(all, |acts|, k, s'.deposits[k].confirmedHeight.value, n);
    assert s'.deposits[k].confirmedHeight.value <= a.best;
  }

  lemma OtherCallsKeepRequired(s: State, a: Action)
    requires !a.DoScan? && !a.DoConfirm? && forall i :: i in s.invoices ==> i <= s.invoiceSeq
    ensures SameRequired(s.invoices, Step(s, a).invoices) && Step(s, a).deposits == s.deposits
  {
    if a.DoCreateInvoice? {
      hide CreateInvoice, InsertInvoice;
    } else {
      hide Step;
      MinorFrame(s, a);
    }
  }

  lemma StepKeepsSafe(acts: seq<Action>, a: Action)
    requires Safe(acts, Run(acts)) && Enabled(Run(acts), a)
    requires forall i :: i in Run(acts).invoices ==> i <= Run(acts).invoiceSeq
    ensures Safe(acts + [a], Step(Run(acts), a))
  {
    hide Run, ApplyScanEvent, ConfirmPass, CreateInvoice, Enabled, ReachedBy, PassFound, SameRequired;
    var s := Run(acts);
    if a.DoScan? {
      ScanKeepsSafe(acts, s, a.ev, a.owner, a.now);
    } else if a.DoConfirm? {
      PassKeepsSafe(acts, a);
    } else {
      OtherCallsKeepRequired(s, a);
      hide Step;
      forall k | k in s.deposits ensures SafeDeposit(acts + [a], Step(s, a), k) {
        assert SafeDeposit(acts, s, k);
        if s.deposits[k].status == DepositConfirmed {
          SafeLater(acts, a, s, Step(s, a), k);
        }
      }
    }
  }

  lemma {:induction false} NumbersCount(acts: seq<Action>)
    requires Legal(acts)
    ensures forall i :: i in Run(acts).invoices ==> i <= Run(acts).invoiceSeq
  {
    if acts != [] {
      LegalPrefix(acts);
      NumbersCount(acts[..|acts| - 1]);
      hide Run;
      StepCounts(Run(acts[..|acts| - 1]), acts[|acts| - 1]);
    }
  }

  lemma StepCounts(s: State, a: Action)
    requires Enabled(s, a) && forall i :: i in s.invoices ==> i <= s.invoiceSeq
    ensures forall i :: i in Step(s, a).invoices ==> i <= Step(s, a).invoiceSeq
  {
    if a.DoConfirm? {
      hide ConfirmPass, Refreshed, ReceivedOf;
      PassIsOneUpdate(s, a.best, a.now, a.order, a.invOrder);
    } else if a.DoScan? {
      hide ApplyDeposit, Refreshed, ReceivedOf;
    } else if a.DoCreateInvoice? {
      hide CreateInvoice, InsertInvoice;
    } else {
      hide Step;
      MinorFrame(s, a);
    }
  }

  /**
   Redeliveries and reorganisations included, a deposit is only confirmed for an invoice,
   by a pass that saw as many confirmations as the invoice asks for, and its confirmed
   height tells at which height that was.
  */
  lemma {:induction false} ConfirmationSafety(acts: seq<Action>)
    requires Legal(acts)
    ensures Safe(acts, Run(acts))
  {
    hide Step, Enabled;
    if acts != [] {
      LegalPrefix(acts);
      var before := acts[..|acts| - 1];
      ConfirmationSafety(before);
      NumbersCount(before);
      StepKeepsSafe(before, acts[|acts| - 1]);
      assert before + [acts[|acts| - 1]] == acts;
    }
  }
}
