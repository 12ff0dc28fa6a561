/**
 Why a review case was opened: what every new case says about the call that
 opened it, and that a call which gives reason for one leaves it open.
*/
module ReviewSources {
  import opened Domain
  import opened Text
  import opened Ledger
  import opened Accounts
  import opened ReviewCases
  import opened Reports
  import Confirmation
  import InvoiceLogs

  /** The state of an invoice that is put up for review, by reason. */
  predicate CallsFor(inv: Invoice, reason: ReviewReason, now: Time) {
    match reason
    case PartialPayment => inv.status == PartialConfirmed && inv.policies.partial == RejectPartial
    case Overpayment => inv.status == Overpaid && inv.policies.over == OverManualReview
    case LatePayment =>
      && (inv.status == Confirmed || inv.status == PaidLate) && inv.received.confirmed == inv.amount
      && inv.expiresAt.Some? && now > inv.expiresAt.value && inv.policies.late == LateManualReview
    case UnknownAddress => false
  }

  /** The call moved the invoice into a status under review. */
  predicate CaseOfInvoice(s: State, s': State, c: ReviewCase, now: Time) {
    && c.invoice in s.invoices && c.invoice in s'.invoices
        && s'.invoices[c.invoice].status != s.invoices[c.invoice].status
    && CallsFor(s'.invoices[c.invoice], c.reason, now)
    && c.merchant == s'.invoices[c.invoice].merchant && c.deposit == NO_DEPOSIT
  }

  /** The call reported a deposit of one of the merchant's wallets that no invoice has. */
  predicate CaseOfDeposit(s: State, s': State, a: Action, c: ReviewCase) {
    && a.DoScan? && Taken(s, a.ev, c.deposit) && c.reason == UnknownAddress
    && c.deposit in s'.deposits && s'.deposits[c.deposit].invoice == 0
    && c.merchant in s.wallets && s.wallets[c.merchant].walletId == c.deposit.wallet
  }

  predicate CaseSource(s: State, s': State, a: Action, c: ReviewCase, now: Time) {
    && c.status == ReviewOpen && c.notes == "" && c.createdAt == c.updatedAt == now
    && if c.invoice == 0 then CaseOfDeposit(s, s', a, c) else CaseOfInvoice(s, s', c, now)
  }

  // ----- cases come from asks -----

  /** The case is one of those asked for. */
  ghost predicate Asked(asks: seq<Ask>, c: ReviewCase) {
    exists a :: a in asks && a.merchant != 0
        && c == ReviewCase(a.merchant, a.inv, a.reason, ReviewOpen, a.dep, "", a.now, a.now)
  }

  lemma {:induction false} OpenAllOnlyAdds(r: Reviews, asks: seq<Ask>, id: ReviewId)
    requires OneOpen(r) && id in OpenAll(r, asks).cases && id !in r.cases
    ensures Asked(asks, OpenAll(r, asks).cases[id])
  {
    hide OneOpen, Reviews.Covered;
    var rest, a := asks[..|asks| - 1], asks[|asks| - 1];
    assert asks == rest + [a];
    if id in OpenAll(r, rest).cases {
      OpenAllOnlyAdds(r, rest, id);
      OpenAllKeepsOneOpen(r, rest);
      StillThere(OpenAll(r, rest), a, id);
    }
  }

  lemma StillThere(r: Reviews, a: Ask, id: ReviewId)
    requires OneOpen(r) && id in r.cases
    ensures var r' := r.Open(a.merchant, a.inv, a.reason, a.dep, a.now); id in r'.cases && r'.cases[id] == r.cases[id]
  {
  }

  lemma StatusAskMeans(i: InvoiceId, before: Invoice, after: Invoice, now: Time, a: Ask)
    requires a in StatusAsks(i, before, after, now)
    ensures after.status != before.status && CallsFor(after, a.reason, now)
    ensures a.merchant == after.merchant && a.inv == i && a.dep == NO_DEPOSIT && a.now == now
  {
  }

  lemma RefreshAskMeans(s: State, s': State, i: InvoiceId, deposits: map<DepKey, Deposit>, now: Time, a: Ask,
                        act: Action)
    requires a in RefreshAsks(s, i, deposits, now) && i != 0
    requires i in s.invoices ==>
            i in s'.invoices && s'.invoices[i] == Refreshed(s.invoices[i], ReceivedOf(deposits, i), now)
    ensures CaseSource(s, s', act, ReviewCase(a.merchant, a.inv, a.reason, ReviewOpen, a.dep, "", a.now, a.now), now)
  {
    hide Refreshed, ReceivedOf, StatusAsks, CallsFor, Taken;
    StatusAskMeans(i, s.invoices[i], Refreshed(s.invoices[i], ReceivedOf(deposits, i), now), now, a);
  }

  lemma ScanAskMeans(s: State, act: Action, a: Ask)
    requires act.DoScan? && Enabled(s, act) && Agrees(s) && a in Asks(s, act) && a.merchant != 0
    ensures CaseSource(s, Step(s, act), act,
            ReviewCase(a.merchant, a.inv, a.reason, ReviewOpen, a.dep, "", a.now, a.now), act.now)
  {
    hide RefreshAsks, Refreshed, ReceivedOf, DepositAfter, ApplyDeposit, TrimSpace, Taken, CallsFor, AgreesExcept,
      ToInt32;
    var p := act.ev.payload.value;
    var k, d := PayloadKey(act.ev, p), DepositAfter(s, act.ev, p, act.now);
    TakenIsEffective(s, act.ev, k);
    if d.invoice != 0 {
      RefreshAskMeans(s, Step(s, act), d.invoice, s.deposits[k := d], act.now, a, act);
    }
  }

  lemma {:induction false} RefreshAllAskMeans(s: State, invOrder: seq<InvoiceId>, deposits: map<DepKey, Deposit>,
                                              now: Time, a: Ask)
    requires a in RefreshAllAsks(s, invOrder, deposits, now)
    ensures exists i :: i in invOrder && a in RefreshAsks(s, i, deposits, now)
  {
    hide RefreshAsks;
    var rest, i := invOrder[..|invOrder| - 1], invOrder[|invOrder| - 1];
    assert invOrder == rest + [i];
    if a in RefreshAllAsks(s, rest, deposits, now) {
      RefreshAllAskMeans(s, rest, deposits, now, a);
    }
  }

  lemma PassAskMeans(s: State, act: Action, a: Ask)
    requires act.DoConfirm? && Enabled(s, act) && Agrees(s) && a in Asks(s, act)
    ensures CaseSource(s, Step(s, act), act,
            ReviewCase(a.merchant, a.inv, a.reason, ReviewOpen, a.dep, "", a.now, a.now), act.now)
  {
    hide RefreshAsks, RefreshAllAsks, Refreshed, ReceivedOf, ConfirmPass, CaseSource, Exact;
    var deposits := Confirmation.DepositsConfirmed(s, act.best, act.now);
    Confirmation.PassIsOneUpdate(s, act.best, act.now, act.order, act.invOrder);
    RefreshAllAskMeans(s, act.invOrder, deposits, act.now, a);
    var i :| i in act.invOrder && a in RefreshAsks(s, i, deposits, act.now);
    RefreshAskMeans(s, Step(s, act), i, deposits, act.now, a, act);
  }

  /** Every new case has its reason in the call that opened it. */
  lemma CaseHasSource(s: State, a: Action, id: ReviewId)
    requires Enabled(s, a) && Agrees(s) && OneOpen(s.reviews)
    requires id in Step(s, a).reviews.cases && id !in s.reviews.cases
    ensures (a.DoScan? || a.DoConfirm?) && CaseSource(s, Step(s, a), a, Step(s, a).reviews.cases[id], a.now)
  {
    hide Step, Enabled, OpenAll, CaseSource, Agrees, OneOpen;
    if a.DoCloseReview? {
      ClosingAddsNothing(s, a);
    } else {
      StepOpens(s, a);
      OpenAllOnlyAdds(s.reviews, Asks(s, a), id);
      var k :| k in Asks(s, a) && k.merchant != 0
        && Step(s, a).reviews.cases[id] == ReviewCase(k.merchant, k.inv, k.reason, ReviewOpen, k.dep, "", k.now, k.now);
      if a.DoScan? {
        ScanAskMeans(s, a, k);
      } else {
        PassAskMeans(s, a, k);
      }
    }
  }

  lemma ClosingAddsNothing(s: State, a: Action)
    requires a.DoCloseReview?
    ensures Step(s, a).reviews.cases.Keys == s.reviews.cases.Keys
  {
    hide CloseReview;
  }

  // ----- reasons leave open cases -----

  /** An open case about an invoice. */
  ghost predicate OpenCase(r: Reviews, merchant: MerchantId, i: InvoiceId, reason: ReviewReason) {
    exists id :: id in r.cases && r.cases[id].status == ReviewOpen && r.cases[id].merchant == merchant
                 && r.cases[id].invoice == i && r.cases[id].reason == reason
  }

  /** An open case about a deposit without an invoice. */
  ghost predicate OpenDepositCase(r: Reviews, merchant: MerchantId, k: DepKey) {
    exists id :: id in r.cases && r.cases[id].status == ReviewOpen && r.cases[id].merchant == merchant
                 && r.cases[id].reason == UnknownAddress && r.cases[id].deposit == k
  }

  lemma OpenLeavesOpen(r: Reviews, a: Ask)
    requires a.merchant != 0
    ensures var r' := r.Open(a.merchant, a.inv, a.reason, a.dep, a.now);
            && (a.inv != 0 ==> OpenCase(r', a.merchant, a.inv, a.reason))
            && (a.inv == 0 && a.reason == UnknownAddress ==> OpenDepositCase(r', a.merchant, a.dep))
  {
    var r' := r.Open(a.merchant, a.inv, a.reason, a.dep, a.now);
    if r.Covered(a.merchant, a.inv, a.reason, a.dep) {
      var id :| id in r.cases && Covers(r.cases[id], a.merchant, a.inv, a.reason, a.dep);
    } else {
      assert r.lastId + 1 in r'.cases;
    }
  }

  lemma OpenStaysOpen(r: Reviews, a: Ask, merchant: MerchantId, i: InvoiceId, reason: ReviewReason)
    requires OneOpen(r) && OpenCase(r, merchant, i, reason)
    ensures OpenCase(r.Open(a.merchant, a.inv, a.reason, a.dep, a.now), merchant, i, reason)
  {
    hide OneOpen;
    var id :| id in r.cases && r.cases[id].status == ReviewOpen && r.cases[id].merchant == merchant
              && r.cases[id].invoice == i && r.cases[id].reason == reason;
    StillThere(r, a, id);
  }

  lemma {:induction false} OpenAllLeavesOpen(r: Reviews, asks: seq<Ask>, a: Ask)
    requires a in asks && a.merchant != 0 && a.inv != 0 && OneOpen(r)
    ensures OpenCase(OpenAll(r, asks), a.merchant, a.inv, a.reason)
  {
    hide Reviews.Open, OpenCase, OneOpen;
    var rest, last := asks[..|asks| - 1], asks[|asks| - 1];
    if a == last {
      OpenLeavesOpen(OpenAll(r, rest), a);
    } else {
      assert asks == rest + [last];
      OpenAllLeavesOpen(r, rest, a);
      OpenAllKeepsOneOpen(r, rest);
      OpenStaysOpen(OpenAll(r, rest), last, a.merchant, a.inv, a.reason);
    }
  }

  /** A call that moves an invoice into a status under review leaves an open case for that reason. */
  lemma ReasonLeavesCase(acts: seq<Action>, a: Action, i: InvoiceId, reason: ReviewReason)
    requires Legal(acts) && Enabled(Run(acts), a) && i in Run(acts).invoices && i in Step(Run(acts), a).invoices
    requires var inv := Step(Run(acts), a).invoices[i];
             inv.status != Run(acts).invoices[i].status && CallsFor(inv, reason, inv.updatedAt)
    ensures OpenCase(Step(Run(acts), a).reviews, Step(Run(acts), a).invoices[i].merchant, i, reason)
  {
    hide Run, Step, Enabled, OpenAll, Asks, OneOpen, Exact, OpenCase, CallsFor, HasCase, StatusReview, Legal;
    LedgerAgreement(acts);
    OneOpenCase(acts);
    CasesAlwaysThere(acts, i);
    var s, inv := Run(acts), Step(Run(acts), a).invoices[i];
    StepChangeIsAsked(s, a, i);
    ReasonIsEntry(inv, reason);
    var ask :| ask in Asks(s, a) && ask.merchant == inv.merchant && ask.inv == i && ask.reason == reason;
    AskingIsNotClosing(s, a, ask);
    StepOpens(s, a);
    OpenAllLeavesOpen(s.reviews, Asks(s, a), ask);
  }

  lemma ReasonIsEntry(inv: Invoice, reason: ReviewReason)
    requires CallsFor(inv, reason, inv.updatedAt)
    ensures CaseOnEntry(inv) == Some(reason)
  {
  }

  lemma AskingIsNotClosing(s: State, a: Action, ask: Ask)
    requires ask in Asks(s, a)
    ensures !a.DoCloseReview?
  {
  }

  /** A report of a deposit that no invoice has leaves an open case for a merchant of its wallet, if there is one. */
  lemma UnclaimedLeavesCase(s: State, a: Action, k: DepKey)
    requires Enabled(s, a) && a.DoScan? && Taken(s, a.ev, k) && 0 !in s.wallets
    requires k in Step(s, a).deposits && Step(s, a).deposits[k].invoice == 0
    requires exists m :: m in s.wallets && s.wallets[m].walletId == k.wallet
    ensures exists m :: m in s.wallets && s.wallets[m].walletId == k.wallet && OpenDepositCase(Step(s, a).reviews, m, k)
  {
    hide OpenDepositCase, OpenAll, DepositAfter, TrimSpace, Taken, Reviews.Open, ApplyDeposit, RefreshAsks, ToInt32;
    TakenIsEffective(s, a.ev, k);
    var m :| m in s.wallets && s.wallets[m].walletId == k.wallet;
    assert OwnsWallet(s, k.wallet, m);
    var ask := Ask(a.owner, 0, UnknownAddress, k, a.now);
    assert Asks(s, a) == [ask];
    StepOpens(s, a);
    OneAsk(s.reviews, ask);
    OpenLeavesOpen(s.reviews, ask);
  }

  lemma OneAsk(r: Reviews, a: Ask)
    ensures OpenAll(r, [a]) == r.Open(a.merchant, a.inv, a.reason, a.dep, a.now)
  {
    hide Reviews.Open;
    assert [a][..0] == [] && OpenAll(r, []) == r;
  }
}
