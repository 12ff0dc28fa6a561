/**
 Which invoice a payment belongs to: both lookup indexes agree with a search
 through all invoices, and a deposit is attributed at most once, to an
 invoice whose wallet, address and starting height it meets at that moment.
*/
module Attribution {
  import opened Domain
  import opened Ledger
  import opened Accounts
  import Confirmation

  // ----- the indexes are searches -----

  function OrderKey(inv: Invoice): (r: (MerchantId, string)) {
    (inv.merchant, inv.externalOrder)
  }

  function PayKey(inv: Invoice): (r: (string, string)) {
    (inv.wallet, inv.address)
  }

  /** The index finds every invoice under its own key, and nothing else. */
  ghost predicate Indexes<K(!new)>(index: map<K, InvoiceId>, invoices: map<InvoiceId, Invoice>, keyOf: Invoice -> K) {
    && (forall key :: key in index ==> index[key] in invoices && keyOf(invoices[index[key]]) == key)
    && (forall i :: i in invoices ==> keyOf(invoices[i]) in index && index[keyOf(invoices[i])] == i)
  }

  ghost predicate Indexed(s: State) {
    && Indexes(s.byExternal, s.invoices, OrderKey)
    && Indexes(s.byAddress, s.invoices, PayKey)
  }

  /** A lookup gives the one invoice with that key, and fails when there is none. */
  lemma LookupIsSearch<K(!new)>(index: map<K, InvoiceId>, invoices: map<InvoiceId, Invoice>, keyOf: Invoice -> K,
                         key: K)
    requires Indexes(index, invoices, keyOf)
    ensures key in index <==> exists i :: i in invoices && keyOf(invoices[i]) == key
    ensures forall i :: i in invoices && keyOf(invoices[i]) == key ==> key in index && index[key] == i
    ensures forall i, j :: i in invoices && j in invoices && keyOf(invoices[i]) == keyOf(invoices[j]) ==> i == j
  {
  }

  /** Everything of an invoice but its sums, its status and the time of its last change. */
  predicate SameTerms(inv: Invoice, inv': Invoice) {
    inv'.(received := inv.received, status := inv.status, updatedAt := inv.updatedAt) == inv
  }

  ghost predicate TermsKept(before: map<InvoiceId, Invoice>, after: map<InvoiceId, Invoice>) {
    forall i :: i in before ==> i in after && SameTerms(before[i], after[i])
  }

  /** What a merchant agreed to with a buyer never changes, and only a creation adds invoices. */
  lemma TermsStep(s: State, a: Action)
    requires Enabled(s, a) && Agrees(s)
    ensures TermsKept(s.invoices, Step(s, a).invoices)
    ensures a.DoCreateInvoice? || Step(s, a).invoices.Keys == s.invoices.Keys
  {
    if Minor(a) {
      MinorFrame(s, a);
      hide Step, Agrees;
    } else {
      hide ConfirmPass, ApplyScanEvent, CreateInvoice, TermsKept, AgreesExcept, PassOrders;
      match a
      case DoConfirm(best, order, invOrder, now) => PassKeepsTerms(s, best, now, order, invOrder);
      case DoScan(ev, owner, now) => ScanKeepsTerms(s, ev, owner, now);
      case DoCreateInvoice(req, now) => CreationKeepsTerms(s, req, now);
    }
  }

  lemma PassKeepsTerms(s: State, best: int, now: Time, order: seq<DepKey>, invOrder: seq<InvoiceId>)
    requires PassOrders(s, best, order, invOrder)
    ensures var s' := ConfirmPass(s, best, now, order, invOrder);
            TermsKept(s.invoices, s'.invoices) && s'.invoices.Keys == s.invoices.Keys
  {
    hide ConfirmPass, ComputeStatus, ReceivedOf, PassOrders;
    Confirmation.PassIsOneUpdate(s, best, now, order, invOrder);
  }

  lemma ScanKeepsTerms(s: State, ev: ScanEvent, owner: MerchantId, now: Time)
    ensures var s' := ApplyScanEvent(s, ev, owner, now);
            TermsKept(s.invoices, s'.invoices) && s'.invoices.Keys == s.invoices.Keys
  {
    hide ApplyDeposit, ReceivedOf, ComputeStatus, DepositAfter;
  }

  lemma CreationKeepsTerms(s: State, req: InvoiceCreate, now: Time)
    requires Agrees(s)
    ensures TermsKept(s.invoices, CreateInvoice(s, req, now).0.invoices)
  {
    hide CreateInvoice, InsertInvoice, AgreesExcept;
    assert s.invoiceSeq + 1 !in s.invoices;
  }

  lemma SameTermsSameIndexes(s: State, s': State)
    requires Indexed(s) && TermsKept(s.invoices, s'.invoices) && s'.invoices.Keys == s.invoices.Keys
    requires s'.byExternal == s.byExternal && s'.byAddress == s.byAddress
    ensures Indexed(s')
  {
    forall i | i in s.invoices
      ensures OrderKey(s'.invoices[i]) == OrderKey(s.invoices[i]) && PayKey(s'.invoices[i]) == PayKey(s.invoices[i])
    {
      assert SameTerms(s.invoices[i], s'.invoices[i]);
    }
  }

  lemma CreationKeepsIndexes(s: State, req: InvoiceCreate, now: Time)
    requires Indexed(s) && Agrees(s)
    ensures Indexed(CreateInvoice(s, req, now).0)
  {
    hide Agrees, Indexed, Indexes, Owners, Events.Append;
    if CreateInvoice(s, req, now).0 != s {
      InsertionKeepsIndexes(s, req.Normal(), now);
    }
  }

  lemma InsertionKeepsIndexes(s: State, r: InvoiceCreate, now: Time)
    requires Indexed(s) && Agrees(s)
    requires (r.merchant, r.externalOrder) !in s.byExternal && (r.wallet, r.address) !in s.byAddress
    ensures Indexed(InsertInvoice(s, r, now))
  {
    hide AgreesExcept, Indexes, Owners, Events.Append;
    var id := s.invoiceSeq + 1;
    assert id !in s.invoices;
    AddToIndex(s.byExternal, s.invoices, OrderKey, id, r.NewInvoice(now));
    AddToIndex(s.byAddress, s.invoices, PayKey, id, r.NewInvoice(now));
  }

  lemma AddToIndex<K(!new)>(index: map<K, InvoiceId>, invoices: map<InvoiceId, Invoice>, keyOf: Invoice -> K,
                     id: InvoiceId, inv: Invoice)
    requires Indexes(index, invoices, keyOf) && id !in invoices && keyOf(inv) !in index
    ensures Indexes(index[keyOf(inv) := id], invoices[id := inv], keyOf)
  {
  }

  lemma StepKeepsIndexes(s: State, a: Action)
    requires Indexed(s) && Agrees(s) && Enabled(s, a)
    ensures Indexed(Step(s, a))
  {
    hide Agrees, Indexed, CreateInvoice, ApplyScanEvent, TermsKept;
    if a.DoCreateInvoice? {
      CreationKeepsIndexes(s, a.req, a.now);
    } else {
      TermsStep(s, a);
      IndexesUntouched(s, a);
      SameTermsSameIndexes(s, Step(s, a));
    }
  }

  lemma IndexesUntouched(s: State, a: Action)
    requires Enabled(s, a) && !a.DoCreateInvoice?
    ensures Step(s, a).byExternal == s.byExternal && Step(s, a).byAddress == s.byAddress
  {
    hide ConfirmPass, ApplyScanEvent;
    if a.DoConfirm? {
      Confirmation.PassIsOneUpdate(s, a.best, a.now, a.order, a.invOrder);
    } else if Minor(a) {
      MinorFrame(s, a);
      hide Step;
    }
  }

  /** In every reachable state both indexes are exact. */
  lemma {:induction false} IndexesAreSearches(acts: seq<Action>)
    requires Legal(acts)
    ensures Indexed(Run(acts))
  {
    hide Indexed, Agrees, Step, Enabled;
    if acts == [] {
      NothingIndexed();
    } else {
      LegalPrefix(acts);
      var before := acts[..|acts| - 1];
      IndexesAreSearches(before);
      LedgerAgreement(before);
      StepKeepsIndexes(Run(before), acts[|acts| - 1]);
    }
  }

  lemma NothingIndexed()
    ensures Indexed(EMPTY)
  {
  }

  // ----- attribution is written once -----

  /** No deposit is lost, and none changes its invoice once it has one. */
  ghost predicate AttributionKept(before: map<DepKey, Deposit>, after: map<DepKey, Deposit>) {
    forall k :: k in before ==>
      k in after && (before[k].invoice != 0 ==> after[k].invoice == before[k].invoice)
  }

  lemma AttributionStep(s: State, a: Action)
    requires Enabled(s, a)
    ensures AttributionKept(s.deposits, Step(s, a).deposits)
  {
    if a.DoConfirm? {
      hide ConfirmPass;
      Confirmation.PassIsOneUpdate(s, a.best, a.now, a.order, a.invOrder);
    } else if a.DoScan? {
      hide ApplyDeposit, ReceivedOf;
    } else if a.DoCreateInvoice? {
      hide CreateInvoice;
    } else {
      MinorFrame(s, a);
      hide Step;
    }
  }

  /** From any point of a run to any later one. */
  lemma {:induction false} AttributedOnce(acts: seq<Action>, n: nat)
    requires Legal(acts) && n <= |acts|
    ensures AttributionKept(Run(acts[..n]).deposits, Run(acts).deposits)
    decreases |acts|
  {
    hide Step, Enabled;
    if n == |acts| {
      assert acts[..n] == acts;
    } else {
      LegalPrefix(acts);
      var before := acts[..|acts| - 1];
      AttributedOnce(before, n);
      assert before[..n] == acts[..n];
      AttributionStep(Run(before), acts[|acts| - 1]);
    }
  }

  // ----- attribution is justified -----

  /** The payment reached the address of this invoice, above the height at which the invoice was made. */
  predicate PaysFor(key: DepKey, d: Deposit, inv: Invoice) {
    Payable(inv, key.wallet, d.address, d.height)
  }

  predicate Payable(inv: Invoice, wallet: string, address: string, height: int) {
    inv.wallet == wallet && inv.address == address && height > inv.createdAfterHeight
  }

  ghost predicate HasInvoice(s: State, k: DepKey) {
    k in s.deposits && s.deposits[k].invoice != 0
  }

  /** The call at which a deposit gets its invoice is a scan event, and the deposit then pays for that invoice. */
  lemma AttributingStep(s: State, a: Action, k: DepKey)
    requires Enabled(s, a) && Indexed(s)
    requires !HasInvoice(s, k) && HasInvoice(Step(s, a), k)
    ensures a.DoScan?
    ensures var d := Step(s, a).deposits[k]; d.invoice in s.invoices && PaysFor(k, d, s.invoices[d.invoice])
  {
    hide Indexed;
    if a.DoScan? {
      hide ApplyDeposit, ReceivedOf;
      MatchPays(s, PayloadKey(a.ev, a.ev.payload.value).wallet, Step(s, a).deposits[k].address,
          Step(s, a).deposits[k].height);
    } else if a.DoConfirm? {
      hide ConfirmPass;
      Confirmation.PassIsOneUpdate(s, a.best, a.now, a.order, a.invOrder);
    } else if a.DoCreateInvoice? {
      hide CreateInvoice;
    } else {
      MinorFrame(s, a);
      hide Step;
    }
  }

  /** Matching through the index finds an invoice exactly when one is payable by this payment. */
  lemma MatchPays(s: State, wallet: string, address: string, height: int)
    requires Indexed(s)
    ensures var i := MatchInvoice(s, wallet, address, height);
            i != 0 ==> i in s.invoices && Payable(s.invoices[i], wallet, address, height)
    ensures forall i | i in s.invoices && Payable(s.invoices[i], wallet, address, height) ::
              MatchInvoice(s, wallet, address, height) == i
  {
    forall i | i in s.invoices && Payable(s.invoices[i], wallet, address, height)
      ensures MatchInvoice(s, wallet, address, height) == i
    {
      assert PayKey(s.invoices[i]) == (wallet, address);
    }
    var key := (wallet, address);
    if key in s.byAddress {
      assert PayKey(s.invoices[s.byAddress[key]]) == key;
    }
  }

  /** A readable new event attributes its deposit to an invoice exactly when it had it already or pays for it now. */
  lemma PaymentFindsItsInvoice(s: State, ev: ScanEvent, owner: MerchantId, now: Time, i: InvoiceId)
    requires Indexed(s) && i in s.invoices && i != 0
    requires Effective(s, ev) && ev.kind != OtherKind && Acceptable(ev.payload.value)
    ensures var k, s' := PayloadKey(ev, ev.payload.value), ApplyScanEvent(s, ev, owner, now);
            && k in s'.deposits
            && (s'.deposits[k].invoice == i <==>
                  if HasInvoice(s, k) then s.deposits[k].invoice == i else PaysFor(k, s'.deposits[k], s.invoices[i]))
  {
    hide ApplyDeposit, Indexed, ReceivedOf;
    var k, s' := PayloadKey(ev, ev.payload.value), ApplyScanEvent(s, ev, owner, now);
    MatchPays(s, k.wallet, s'.deposits[k].address, s'.deposits[k].height);
  }

  /** The moment of a run at which a deposit was attributed. */
  ghost predicate AttributedAt(acts: seq<Action>, n: nat, k: DepKey, i: InvoiceId)
    requires n < |acts|
  {
    var before, after := Run(acts[..n]), Run(acts[..n + 1]);
    && !HasInvoice(before, k) && HasInvoice(after, k) && after.deposits[k].invoice == i
    && i in before.invoices && PaysFor(k, after.deposits[k], before.invoices[i])
  }

  /** Every attributed deposit of a reachable state got its invoice from a payment that met it. */
  lemma {:induction false} AttributionHasCause(acts: seq<Action>, k: DepKey)
    requires Legal(acts) && HasInvoice(Run(acts), k)
    ensures exists n: nat :: n < |acts| && AttributedAt(acts, n, k, Run(acts).deposits[k].invoice)
  {
    hide Step, Enabled, Indexed;
    if acts != [] {
      LegalPrefix(acts);
      var before := acts[..|acts| - 1];
      if HasInvoice(Run(before), k) {
        AttributionHasCause(before, k);
        var n: nat :| n < |before| && AttributedAt(before, n, k, Run(before).deposits[k].invoice);
        CauseStays(acts, n, k);
      } else {
        CauseIsNow(acts, k);
      }
    }
  }

  lemma CauseStays(acts: seq<Action>, n: nat, k: DepKey)
    requires Legal(acts) && acts != []
    requires var before := acts[..|acts| - 1];
             && HasInvoice(Run(before), k)
             && n < |before| && AttributedAt(before, n, k, Run(before).deposits[k].invoice)
    ensures HasInvoice(Run(acts), k) && AttributedAt(acts, n, k, Run(acts).deposits[k].invoice)
  {
    hide Step, Enabled, Legal, PaysFor;
    var before := acts[..|acts| - 1];
    AttributedOnce(acts, |acts| - 1);
    assert before[..n] == acts[..n] && before[..n + 1] == acts[..n + 1];
  }

  lemma CauseIsNow(acts: seq<Action>, k: DepKey)
    requires Legal(acts) && acts != []
    requires HasInvoice(Run(acts), k) && !HasInvoice(Run(acts[..|acts| - 1]), k)
    ensures AttributedAt(acts, |acts| - 1, k, Run(acts).deposits[k].invoice)
  {
    hide Step, Enabled, Indexed, PaysFor;
    LegalPrefix(acts);
    IndexesAreSearches(acts[..|acts| - 1]);
    AttributingStep(Run(acts[..|acts| - 1]), acts[|acts| - 1], k);
    assert acts[..|acts|] == acts;
  }
}
