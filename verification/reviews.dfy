/**
 Manual review cases over whole runs: at most one open case per subject, and
 invoices in a status that needs review have one.
*/
module ReviewCases {
  import opened Domain
  import opened Ledger
  import opened Accounts
  import opened InvoiceLogs
  import Confirmation

  // ----- what each call asks for -----

  datatype Ask = Ask(merchant: MerchantId, inv: InvoiceId, reason: ReviewReason, dep: DepKey, now: Time)

  function OpenAll(r: Reviews, asks: seq<Ask>): (res: Reviews) {
    if asks == [] then r else
    var a := asks[|asks| - 1];
    OpenAll(r, asks[..|asks| - 1]).Open(a.merchant, a.inv, a.reason, a.dep, a.now)
  }

  function StatusAsks(i: InvoiceId, before: Invoice, after: Invoice, now: Time): (r: seq<Ask>) {
    if after.status == before.status || StatusReview(after, now).None? then []
    else [Ask(after.merchant, i, StatusReview(after, now).value, NO_DEPOSIT, now)]
  }

  ghost function RefreshAsks(s: State, i: InvoiceId, deposits: map<DepKey, Deposit>, now: Time): (r: seq<Ask>) {
    if i !in s.invoices then []
    else StatusAsks(i, s.invoices[i], Refreshed(s.invoices[i], ReceivedOf(deposits, i), now), now)
  }

  ghost function DepositAsks(s: State, ev: ScanEvent, p: Payload, owner: MerchantId, now: Time): (r: seq<Ask>) {
    if !Acceptable(p) then [] else
    var d := DepositAfter(s, ev, p, now);
    if d.invoice == 0 then [Ask(owner, 0, UnknownAddress, PayloadKey(ev, p), now)]
    else RefreshAsks(s, d.invoice, s.deposits[PayloadKey(ev, p) := d], now)
  }

  ghost function ScanAsks(s: State, ev: ScanEvent, owner: MerchantId, now: Time): (r: seq<Ask>) {
    if Effective(s, ev) && ev.kind != OtherKind then DepositAsks(s, ev, ev.payload.value, owner, now) else []
  }

  ghost function RefreshAllAsks(s: State, invOrder: seq<InvoiceId>, deposits: map<DepKey, Deposit>,
                                now: Time): (r: seq<Ask>) {
    if invOrder == [] then []
    else RefreshAllAsks(s, invOrder[..|invOrder| - 1], deposits, now)
          + RefreshAsks(s, invOrder[|invOrder| - 1], deposits, now)
  }

  /** The review cases a call asks for, in order. */
  ghost function Asks(s: State, a: Action): (r: seq<Ask>) {
    match a
    case DoScan(ev, owner, now) => ScanAsks(s, ev, owner, now)
    case DoConfirm(best, _, invOrder, now) => RefreshAllAsks(s, invOrder,
        Confirmation.DepositsConfirmed(s, best, now), now)
    case _ => []
  }

  // ----- the proof that it opens exactly those -----

  lemma OpenAllShort(r: Reviews, asks: seq<Ask>, more: seq<Ask>)
    requires |more| <= 1
    ensures OpenAll(r, asks + more) ==
              if more == [] then OpenAll(r, asks)
              else OpenAll(r, asks).Open(more[0].merchant, more[0].inv, more[0].reason, more[0].dep, more[0].now)
  {
    hide Reviews.Open;
    if more == [] {
      assert asks + more == asks;
    } else {
      assert (asks + more)[..|asks|] == asks;
    }
  }

  lemma AnnounceAsks(s: State, i: InvoiceId, now: Time)
    requires i in s.invoices
    ensures Announce(s, i, now).reviews ==
              if StatusReview(s.invoices[i], now).None? then s.reviews
              else s.reviews.Open(s.invoices[i].merchant, i, StatusReview(s.invoices[i], now).value, NO_DEPOSIT, now)
  {
    hide AppendEvent, StatusEvent, StatusReview, Reviews.Open;
  }

  lemma RecomputeAsks(s: State, i: InvoiceId, now: Time)
    ensures Recompute(s, i, now).reviews ==
              var asks := RefreshAsks(s, i, s.deposits, now);
              if asks == [] then s.reviews
              else s.reviews.Open(asks[0].merchant, asks[0].inv, asks[0].reason, asks[0].dep, asks[0].now)
  {
    hide Announce, StatusReview, Reviews.Open, ReceivedOf, ComputeStatus;
    if i in s.invoices {
      AnnounceAsks(s.(invoices := s.invoices[i := Refreshed(s.invoices[i], ReceivedOf(s.deposits, i), now)]), i, now);
    }
  }

  lemma DepositOpens(s: State, ev: ScanEvent, p: Payload, owner: MerchantId, now: Time)
    ensures ApplyDeposit(s, ev, p, owner, now).reviews ==
              var asks := DepositAsks(s, ev, p, owner, now);
              if asks == [] then s.reviews
              else s.reviews.Open(asks[0].merchant, asks[0].inv, asks[0].reason, asks[0].dep, asks[0].now)
  {
    hide Recompute, RefreshAsks, Reviews.Open, DepositAfter, AfterDetection, ReceivedOf, Refreshed, Acceptable;
    var d := DepositAfter(s, ev, p, now);
    var s2 := AfterDetection(s, ev, p, now);
    RecomputeAsks(s2, d.invoice, now);
    SameAsks(s, s2, d.invoice, s2.deposits, now);
    assert s2.deposits == s.deposits[PayloadKey(ev, p) := d] && s2.reviews == s.reviews;
  }

  lemma SameAsks(s: State, s1: State, i: InvoiceId, deposits: map<DepKey, Deposit>, now: Time)
    requires s.invoices == s1.invoices
    ensures RefreshAsks(s, i, deposits, now) == RefreshAsks(s1, i, deposits, now)
  {
  }

  lemma DepositAsksOnce(s: State, ev: ScanEvent, p: Payload, owner: MerchantId, now: Time)
    ensures |DepositAsks(s, ev, p, owner, now)| <= 1
  {
    hide DepositAfter, ReceivedOf, Refreshed;
  }

  lemma ScanOpens(s: State, ev: ScanEvent, owner: MerchantId, now: Time)
    ensures ApplyScanEvent(s, ev, owner, now).reviews == OpenAll(s.reviews, ScanAsks(s, ev, owner, now))
  {
    hide Reviews.Open, ApplyDeposit, DepositAsks;
    if Effective(s, ev) && ev.kind != OtherKind {
      var asks := DepositAsks(s, ev, ev.payload.value, owner, now);
      DepositAsksOnce(s, ev, ev.payload.value, owner, now);
      DepositOpens(s, ev, ev.payload.value, owner, now);
      OpenAllShort(s.reviews, [], asks);
      assert [] + asks == asks;
    }
  }

  lemma {:induction false} RecomputeAllOpens(s: State, invOrder: seq<InvoiceId>, now: Time)
    requires forall i :: i in invOrder ==> i in s.invoices
    requires forall i, j :: 0 <= i < j < |invOrder| ==> invOrder[i] != invOrder[j]
    ensures RecomputeAll(s, invOrder, now).reviews == OpenAll(s.reviews, RefreshAllAsks(s, invOrder, s.deposits, now))
  {
    hide ReceivedOf, Recompute, Refreshed, Reviews.Open, StatusReview;
    if invOrder != [] {
      var rest, i := invOrder[..|invOrder| - 1], invOrder[|invOrder| - 1];
      assert invOrder == rest + [i];
      RecomputeAllOpens(s, rest, now);
      Confirmation.RecomputeAllInvoices(s, rest, now);
      Confirmation.RecomputeAllFrame(s, rest, now);
      var s1 := RecomputeAll(s, rest, now);
      assert s1.deposits == s.deposits && s1.invoices[i] == s.invoices[i];
      RecomputeAsks(s1, i, now);
      OpenAllShort(s.reviews, RefreshAllAsks(s, rest, s.deposits, now), RefreshAsks(s, i, s.deposits, now));
    }
  }

  lemma {:induction false} SameRefreshAsks(s: State, s1: State, invOrder: seq<InvoiceId>,
                                           deposits: map<DepKey, Deposit>, now: Time)
    requires s.invoices == s1.invoices
    ensures RefreshAllAsks(s, invOrder, deposits, now) == RefreshAllAsks(s1, invOrder, deposits, now)
  {
    if invOrder != [] {
      SameRefreshAsks(s, s1, invOrder[..|invOrder| - 1], deposits, now);
    }
  }

  lemma PassOpens(s: State, a: Action)
    requires a.DoConfirm? && Enabled(s, a)
    ensures Step(s, a).reviews == OpenAll(s.reviews, Asks(s, a))
  {
    hide ReceivedOf, ConfirmAll, RecomputeAll, OpenAll, RefreshAllAsks;
    var s1 := ConfirmAll(s, a.order, a.best, a.now);
    Confirmation.ConfirmAllDeposits(s, a.order, a.best, a.now);
    Confirmation.ConfirmAllFrame(s, a.order, a.best, a.now);
    assert s1.deposits == Confirmation.DepositsConfirmed(s, a.best, a.now);
    RecomputeAllOpens(s1, a.invOrder, a.now);
    SameRefreshAsks(s, s1, a.invOrder, s1.deposits, a.now);
  }

  /** Every call but the closing of a case opens exactly the cases it asks for. */
  lemma StepOpens(s: State, a: Action)
    requires Enabled(s, a) && !a.DoCloseReview?
    ensures Step(s, a).reviews == OpenAll(s.reviews, Asks(s, a))
  {
    hide ApplyScanEvent, ScanAsks, ConfirmPass;
    if a.DoScan? {
      ScanOpens(s, a.ev, a.owner, a.now);
    } else if a.DoConfirm? {
      PassOpens(s, a);
    } else {
      hide CreateMerchant, UpdateMerchantSettings, SetMerchantWallet, NextAddressIndex, PutInvoiceToken, CreateRefund,
        CreateInvoice, CreateEventSink, UpdateDelivery;
    }
  }

  // ----- at most one open case -----

  /** Two cases about the same thing. */
  predicate SameMatter(c: ReviewCase, c': ReviewCase) {
    && c.merchant == c'.merchant && c.reason == c'.reason && c.invoice == c'.invoice
    && (c.invoice == 0 ==> c.deposit == c'.deposit && c.deposit.wallet != "" && c.deposit.txid != "")
  }

  ghost predicate OneOpen(r: Reviews) {
    && (forall id :: id in r.cases ==> 1 <= id <= r.lastId)
    && (forall x, y :: x in r.cases && y in r.cases && x != y
                       && r.cases[x].status == ReviewOpen && r.cases[y].status == ReviewOpen
                       ==> !SameMatter(r.cases[x], r.cases[y]))
  }

  lemma OpenKeepsOneOpen(r: Reviews, merchant: MerchantId, inv: InvoiceId, reason: ReviewReason, dep: DepKey, now: Time)
    requires OneOpen(r)
    ensures OneOpen(r.Open(merchant, inv, reason, dep, now))
  {
    var r' := r.Open(merchant, inv, reason, dep, now);
    if r' != r {
      var id := r.lastId + 1;
      forall x | x in r.cases && r.cases[x].status == ReviewOpen
        ensures !SameMatter(r.cases[x], r'.cases[id]) && !SameMatter(r'.cases[id], r.cases[x])
      {
        assert !Covers(r.cases[x], merchant, inv, reason, dep);
      }
    }
  }

  lemma {:induction false} OpenAllKeepsOneOpen(r: Reviews, asks: seq<Ask>)
    requires OneOpen(r)
    ensures OneOpen(OpenAll(r, asks))
  {
    hide Reviews.Open, OneOpen;
    if asks != [] {
      var a := asks[|asks| - 1];
      OpenAllKeepsOneOpen(r, asks[..|asks| - 1]);
      OpenKeepsOneOpen(OpenAll(r, asks[..|asks| - 1]), a.merchant, a.inv, a.reason, a.dep, a.now);
    }
  }

  lemma CloseKeepsOneOpen(s: State, id: ReviewId, verdict: ReviewStatus, notes: string, now: Time)
    requires OneOpen(s.reviews) && verdict != ReviewOpen
    ensures OneOpen(CloseReview(s, id, verdict, notes, now).0.reviews)
  {
    hide CloseReview;
  }

  /**
   In every reachable state there is at most one open case per merchant, reason and
   invoice, and one per unclaimed deposit.
  */
  lemma {:induction false} OneOpenCase(acts: seq<Action>)
    requires Legal(acts)
    ensures OneOpen(Run(acts).reviews)
  {
    if acts != [] {
      LegalPrefix(acts);
      var before, a := acts[..|acts| - 1], acts[|acts| - 1];
      OneOpenCase(before);
      if a.DoCloseReview? {
        CloseKeepsOneOpen(Run(before), a.review, a.verdict, a.notes, a.now);
        hide CloseReview;
      } else {
        StepOpens(Run(before), a);
        hide Step;
        OpenAllKeepsOneOpen(Run(before).reviews, Asks(Run(before), a));
      }
    }
  }

  // ----- statuses that need review have a case -----

  ghost predicate HasCase(r: Reviews, inv: InvoiceId, reason: ReviewReason) {
    exists id :: id in r.cases && r.cases[id].invoice == inv && r.cases[id].reason == reason
  }

  lemma OpenMakesCase(r: Reviews, merchant: MerchantId, inv: InvoiceId, reason: ReviewReason, dep: DepKey, now: Time)
    requires merchant != 0 && inv != 0
    ensures HasCase(r.Open(merchant, inv, reason, dep, now), inv, reason)
  {
    if r.Covered(merchant, inv, reason, dep) {
      var id :| id in r.cases && Covers(r.cases[id], merchant, inv, reason, dep);
    } else {
      var r' := r.Open(merchant, inv, reason, dep, now);
      assert r'.cases[r.lastId + 1].invoice == inv;
    }
  }

  lemma OpenKeepsCase(r: Reviews, a: Ask, inv: InvoiceId, reason: ReviewReason)
    requires HasCase(r, inv, reason) && OneOpen(r)
    ensures HasCase(r.Open(a.merchant, a.inv, a.reason, a.dep, a.now), inv, reason)
  {
    var id :| id in r.cases && r.cases[id].invoice == inv && r.cases[id].reason == reason;
    var r' := r.Open(a.merchant, a.inv, a.reason, a.dep, a.now);
    assert id in r'.cases && r'.cases[id] == r.cases[id];
  }

  lemma {:induction false} OpenAllKeepsCase(r: Reviews, asks: seq<Ask>, inv: InvoiceId, reason: ReviewReason)
    requires HasCase(r, inv, reason) && OneOpen(r)
    ensures HasCase(OpenAll(r, asks), inv, reason)
  {
    hide Reviews.Open, HasCase, OneOpen;
    if asks != [] {
      OpenAllKeepsCase(r, asks[..|asks| - 1], inv, reason);
      OpenAllKeepsOneOpen(r, asks[..|asks| - 1]);
      OpenKeepsCase(OpenAll(r, asks[..|asks| - 1]), asks[|asks| - 1], inv, reason);
    }
  }

  lemma {:induction false} OpenAllMakesCase(r: Reviews, asks: seq<Ask>, a: Ask)
    requires a in asks && a.merchant != 0 && a.inv != 0 && OneOpen(r)
    ensures HasCase(OpenAll(r, asks), a.inv, a.reason)
  {
    hide Reviews.Open, HasCase, OneOpen;
    var rest, last := asks[..|asks| - 1], asks[|asks| - 1];
    if a == last {
      OpenMakesCase(OpenAll(r, rest), a.merchant, a.inv, a.reason, a.dep, a.now);
    } else {
      assert asks == rest + [last];
      OpenAllMakesCase(r, rest, a);
      OpenAllKeepsOneOpen(r, rest);
      OpenKeepsCase(OpenAll(r, rest), last, a.inv, a.reason);
    }
  }

  /** Case that a status needs, whenever it was entered. */
  function NeededCase(inv: Invoice): (r: Option<ReviewReason>) {
    if inv.status == PartialConfirmed && inv.policies.partial == RejectPartial then Some(PartialPayment)
    else if inv.status == Overpaid && inv.policies.over == OverManualReview then Some(Overpayment)
    else None
  }

  ghost predicate CaseThere(s: State, i: InvoiceId) {
    i in s.invoices ==>
      && s.invoices[i].merchant != 0
      && (NeededCase(s.invoices[i]).Some? ==> HasCase(s.reviews, i, NeededCase(s.invoices[i]).value))
  }

  /** A change of invoice i into a status that asks for review is among the asks of the call. */
  ghost predicate ChangeIsAsked(before: map<InvoiceId, Invoice>, after: map<InvoiceId, Invoice>, asks: seq<Ask>,
                                i: InvoiceId) {
    i in before && i in after ==>
      && after[i].merchant == before[i].merchant && after[i].policies == before[i].policies
      && (after[i].status != before[i].status && CaseOnEntry(after[i]).Some? ==>
            exists a :: a in asks && a.merchant == after[i].merchant && a.inv == i
                && a.reason == CaseOnEntry(after[i]).value)
  }

  /** Case asked for when the present status was entered by the last update of the invoice. */
  function CaseOnEntry(inv: Invoice): (r: Option<ReviewReason>)
    ensures NeededCase(inv).Some? ==> r == NeededCase(inv)
  {
    StatusReview(inv, inv.updatedAt)
  }

  lemma RefreshIsAsked(s: State, i: InvoiceId, deposits: map<DepKey, Deposit>, now: Time)
    requires i in s.invoices
    ensures ChangeIsAsked(s.invoices, s.invoices[i := Refreshed(s.invoices[i], ReceivedOf(deposits, i), now)],
                          RefreshAsks(s, i, deposits, now), i)
  {
    hide ReceivedOf, ComputeStatus;
    var after := Refreshed(s.invoices[i], ReceivedOf(deposits, i), now);
    if after.status != s.invoices[i].status && CaseOnEntry(after).Some? {
      assert Ask(after.merchant, i, CaseOnEntry(after).value, NO_DEPOSIT, now) in RefreshAsks(s, i, deposits, now);
    }
  }

  lemma ScanChangeIsAsked(s: State, ev: ScanEvent, owner: MerchantId, now: Time, i: InvoiceId)
    ensures ChangeIsAsked(s.invoices, ApplyScanEvent(s, ev, owner, now).invoices, ScanAsks(s, ev, owner, now), i)
  {
    ScanWrites(s, ev, owner, now);
    hide ReceivedOf, Refreshed, ApplyDeposit, DepositAfter, RefreshAsks, CaseOnEntry, NeededCase;
    if Effective(s, ev) && ev.kind != OtherKind && Acceptable(ev.payload.value) {
      var p := ev.payload.value;
      var d := DepositAfter(s, ev, p, now);
      if d.invoice in s.invoices && d.invoice != 0 && i == d.invoice {
        RefreshIsAsked(s, i, s.deposits[PayloadKey(ev, p) := d], now);
      }
    }
  }

  lemma {:induction false} RefreshAsksIncluded(s: State, invOrder: seq<InvoiceId>, deposits: map<DepKey, Deposit>,
                                               now: Time, i: InvoiceId)
    requires i in invOrder
    ensures forall a :: a in RefreshAsks(s, i, deposits, now) ==> a in RefreshAllAsks(s, invOrder, deposits, now)
  {
    hide RefreshAsks;
    var rest, last := invOrder[..|invOrder| - 1], invOrder[|invOrder| - 1];
    if i != last {
      assert invOrder == rest + [last];
      RefreshAsksIncluded(s, rest, deposits, now, i);
    }
  }

  lemma PassChangeIsAsked(s: State, a: Action, i: InvoiceId)
    requires a.DoConfirm? && Enabled(s, a)
    ensures ChangeIsAsked(s.invoices, Step(s, a).invoices, Asks(s, a), i)
  {
    hide ReceivedOf, Refreshed, ConfirmPass, RefreshAsks, RefreshAllAsks, CaseOnEntry, NeededCase;
    Confirmation.PassIsOneUpdate(s, a.best, a.now, a.order, a.invOrder);
    if i in s.invoices && i in Affected(s, a.best) {
      var deposits := Confirmation.DepositsConfirmed(s, a.best, a.now);
      RefreshIsAsked(s, i, deposits, a.now);
      RefreshAsksIncluded(s, a.invOrder, deposits, a.now, i);
    }
  }

  lemma StepChangeIsAsked(s: State, a: Action, i: InvoiceId)
    requires Enabled(s, a) && Agrees(s)
    ensures ChangeIsAsked(s.invoices, Step(s, a).invoices, Asks(s, a), i)
  {
    hide CaseOnEntry, NeededCase, ScanAsks, ApplyScanEvent, ConfirmPass, ChangeIsAsked, PassOrders, OwnerChoice,
      RefreshAllAsks, StatusAsks;
    if a.DoScan? {
      hide Agrees;
      ScanChangeIsAsked(s, a.ev, a.owner, a.now, i);
    } else if a.DoConfirm? {
      hide Agrees;
      PassChangeIsAsked(s, a, i);
    } else if a.DoCreateInvoice? {
      hide CreateInvoice, InsertInvoice, AgreesExcept;
      assert s.invoiceSeq + 1 !in s.invoices;
      NoChangeAsksNothing(s.invoices, Step(s, a).invoices, Asks(s, a), i);
    } else {
      hide Step, Agrees;
      MinorFrame(s, a);
      NoChangeAsksNothing(s.invoices, Step(s, a).invoices, Asks(s, a), i);
    }
  }

  lemma NoChangeAsksNothing(before: map<InvoiceId, Invoice>, after: map<InvoiceId, Invoice>, asks: seq<Ask>,
                            i: InvoiceId)
    requires i in before && i in after ==> after[i] == before[i]
    ensures ChangeIsAsked(before, after, asks, i)
  {
  }

  lemma CasesStay(s: State, a: Action, i: InvoiceId, reason: ReviewReason)
    requires Enabled(s, a) && OneOpen(s.reviews) && HasCase(s.reviews, i, reason)
    ensures HasCase(Step(s, a).reviews, i, reason)
  {
    if a.DoCloseReview? {
      ClosedCaseStays(s, a.review, a.verdict, a.notes, a.now, i, reason);
      hide CloseReview, OneOpen;
    } else {
      StepOpens(s, a);
      hide Step, HasCase, OneOpen, Enabled, Asks, OpenAll;
      OpenAllKeepsCase(s.reviews, Asks(s, a), i, reason);
    }
  }

  lemma ClosedCaseStays(s: State, id: ReviewId, verdict: ReviewStatus, notes: string, now: Time, i: InvoiceId,
                        reason: ReviewReason)
    requires HasCase(s.reviews, i, reason)
    ensures HasCase(CloseReview(s, id, verdict, notes, now).0.reviews, i, reason)
  {
    hide CloseReview;
    var x :| x in s.reviews.cases && s.reviews.cases[x].invoice == i && s.reviews.cases[x].reason == reason;
    var s' := CloseReview(s, id, verdict, notes, now).0;
    assert x in s'.reviews.cases && s'.reviews.cases[x].invoice == i && s'.reviews.cases[x].reason == reason;
  }

  lemma StepKeepsCase(s: State, a: Action, i: InvoiceId)
    requires Enabled(s, a) && Agrees(s) && OneOpen(s.reviews) && CaseThere(s, i)
    ensures CaseThere(Step(s, a), i)
  {
    hide Step, Enabled, HasCase, Exact, OneOpen, Asks, ChangeIsAsked;
    if i in Step(s, a).invoices {
      if i !in s.invoices {
        NewStatus(s, a, i);
        NewInvoiceNamed(s, a, i);
      } else {
        StepChangeIsAsked(s, a, i);
        OldCaseThere(s, a, i);
      }
    }
  }

  lemma NewInvoiceNamed(s: State, a: Action, i: InvoiceId)
    requires Enabled(s, a) && i !in s.invoices && i in Step(s, a).invoices
    ensures Step(s, a).invoices[i].merchant != 0
  {
    hide InsertInvoice, ApplyScanEvent, ConfirmPass;
    InvoicesStep(s, a);
  }

  lemma OldCaseThere(s: State, a: Action, i: InvoiceId)
    requires Enabled(s, a) && OneOpen(s.reviews) && CaseThere(s, i) && i in s.invoices && i != 0
            && i in Step(s, a).invoices
    requires ChangeIsAsked(s.invoices, Step(s, a).invoices, Asks(s, a), i)
    ensures CaseThere(Step(s, a), i)
  {
    var inv := Step(s, a).invoices[i];
    if NeededCase(inv).Some? {
      hide Enabled, HasCase, Asks, OneOpen, Step, StatusReview;
      if inv.status == s.invoices[i].status {
        CasesStay(s, a, i, NeededCase(inv).value);
      } else {
        ChangeOpensCase(s, a, i);
      }
    }
  }

  /** A call that moves an invoice into a status asking for review, late payment included, leaves a case for it. */
  lemma ChangeOpensCase(s: State, a: Action, i: InvoiceId)
    requires Enabled(s, a) && OneOpen(s.reviews) && i in s.invoices && i != 0 && i in Step(s, a).invoices
    requires s.invoices[i].merchant != 0 && ChangeIsAsked(s.invoices, Step(s, a).invoices, Asks(s, a), i)
    requires Step(s, a).invoices[i].status != s.invoices[i].status && CaseOnEntry(Step(s, a).invoices[i]).Some?
    ensures HasCase(Step(s, a).reviews, i, CaseOnEntry(Step(s, a).invoices[i]).value)
  {
    hide Enabled, HasCase, OneOpen, CaseOnEntry;
    var inv := Step(s, a).invoices[i];
    var ask :| ask in Asks(s, a) && ask.merchant == inv.merchant && ask.inv == i
        && ask.reason == CaseOnEntry(inv).value;
    assert !a.DoCloseReview?;
    StepOpens(s, a);
    hide Step, OpenAll, Asks;
    OpenAllMakesCase(s.reviews, Asks(s, a), ask);
  }

  lemma {:induction false} CasesAlwaysThere(acts: seq<Action>, i: InvoiceId)
    requires Legal(acts)
    ensures CaseThere(Run(acts), i)
  {
    if acts == [] {
      assert Run(acts) == EMPTY;
    } else {
      LegalPrefix(acts);
      var before := acts[..|acts| - 1];
      CasesAlwaysThere(before, i);
      LedgerAgreement(before);
      OneOpenCase(before);
      hide Step;
      StepKeepsCase(Run(before), acts[|acts| - 1], i);
    }
  }

  /** An overpaid invoice under manual review, and a partly confirmed one under rejection, have a review case. */
  lemma ReviewIsWitnessed(acts: seq<Action>, i: InvoiceId)
    requires Legal(acts) && i in Run(acts).invoices
    ensures var s := Run(acts);
            var inv := s.invoices[i];
            && (inv.status == Overpaid && inv.policies.over == OverManualReview ==> HasCase(s.reviews, i, Overpayment))
            && (inv.status == PartialConfirmed && inv.policies.partial == RejectPartial ==>
                HasCase(s.reviews, i, PartialPayment))
  {
    CasesAlwaysThere(acts, i);
    hide Run;
    assert CaseThere(Run(acts), i);
  }

  /**
   In particular, a payment completed after expiry under manual review is brought to
   attention by the call that completes it.
  */
  lemma LatePaymentIsReviewed(acts: seq<Action>, a: Action, i: InvoiceId)
    requires Legal(acts) && Enabled(Run(acts), a)
    requires i in Run(acts).invoices && i in Step(Run(acts), a).invoices
    requires var before, after := Run(acts).invoices[i], Step(Run(acts), a).invoices[i];
             && after.status != before.status
             && (after.status == Confirmed || after.status == PaidLate)
             && after.received.confirmed == after.amount
             && after.ExpiredAt(after.updatedAt) && after.policies.late == LateManualReview
    ensures HasCase(Step(Run(acts), a).reviews, i, LatePayment)
  {
    CasesAlwaysThere(acts, i);
    LedgerAgreement(acts);
    OneOpenCase(acts);
    hide Run, HasCase, OneOpen, AgreesExcept, Enabled, Step, StatusReview;
    LateStep(Run(acts), a, i);
  }

  lemma LateStep(s: State, a: Action, i: InvoiceId)
    requires Enabled(s, a) && Agrees(s) && OneOpen(s.reviews)
    requires i in s.invoices && i != 0 && s.invoices[i].merchant != 0
    requires i in Step(s, a).invoices && Step(s, a).invoices[i].status != s.invoices[i].status
    requires var inv := Step(s, a).invoices[i];
             && (inv.status == Confirmed || inv.status == PaidLate) && inv.received.confirmed == inv.amount
             && inv.ExpiredAt(inv.updatedAt) && inv.policies.late == LateManualReview
    ensures HasCase(Step(s, a).reviews, i, LatePayment)
  {
    hide HasCase, OneOpen, Agrees, Enabled, Step, Asks, ChangeIsAsked, NeededCase;
    StepChangeIsAsked(s, a, i);
    assert CaseOnEntry(Step(s, a).invoices[i]) == Some(LatePayment);
    ChangeOpensCase(s, a, i);
  }
}
