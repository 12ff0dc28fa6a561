/**
 Address indexes are handed out once, so a derived address is never taken
 already, however the handlers of the API interleave.
*/
module AddressUse {
  import opened Domain
  import opened Text
  import opened Ledger
  import opened Runs
  import opened Accounts
  import opened Attribution
  import opened Wallets
  import InvoiceApi
  import Frames

  // ----- indexes grow -----

  function NextOf(s: State, m: MerchantId): (r: nat) {
    if m in s.nextIndex then s.nextIndex[m] else 0
  }

  /** How often an index was asked for. */
  function CountNext(acts: seq<Action>, m: MerchantId): (r: nat) {
    if acts == [] then 0 else CountNext(acts[..|acts| - 1], m) + if acts[|acts| - 1] == DoNextIndex(m) then 1 else 0
  }

  /** The index counter of a merchant with a wallet only moves when an index is handed out. */
  lemma StepNext(s: State, a: Action, m: MerchantId)
    ensures a == DoNextIndex(m) ==>
              NextOf(Step(s, a), m) == if NextAddressIndex(s, m).1.Ok? then (NextOf(s, m) + 1) % TWO_32
                  else NextOf(s, m)
    ensures a != DoNextIndex(m) ==>
              NextOf(Step(s, a), m) == NextOf(s, m) || (NextOf(Step(s, a), m) == 0 && m !in s.wallets)
  {
    if a.DoSetWallet? {
      hide SetMerchantWallet, NextOf;
      NewWalletNext(s, a.m, a.w, a.now, m);
    } else if a.DoNextIndex? {
      hide NextAddressIndex, NextOf;
      HandOut(s, a.m, m);
    } else {
      hide Step;
      Frames.StepUntouched(s, a);
    }
  }

  lemma HandOut(s: State, m: MerchantId, m': MerchantId)
    ensures var (s', r) := NextAddressIndex(s, m);
            NextOf(s', m') == if m == m' && r.Ok? then (NextOf(s, m') + 1) % TWO_32 else NextOf(s, m')
  {
  }

  lemma NewWalletNext(s: State, m: MerchantId, w: Wallet, now: Time, m': MerchantId)
    ensures var s' := SetMerchantWallet(s, m, w, now).0;
            NextOf(s', m') == NextOf(s, m') || (NextOf(s', m') == 0 && m' !in s.wallets)
  {
    hide TrimSpace;
  }

  lemma {:induction false} NextBounded(acts: seq<Action>, m: MerchantId)
    requires CountNext(acts, m) < TWO_32
    ensures NextOf(Run(acts), m) <= CountNext(acts, m)
  {
    if acts != [] {
      hide Step, NextOf;
      NextBounded(acts[..|acts| - 1], m);
      StepNext(Run(acts[..|acts| - 1]), acts[|acts| - 1], m);
    } else {
      assert EMPTY.nextIndex == map[];
    }
  }

  /** Once a merchant has a wallet its counter never falls. */
  lemma {:induction false} NextGrows(acts: seq<Action>, j: nat, m: MerchantId)
    requires j <= |acts| && CountNext(acts, m) < TWO_32 && m in Run(acts[..j]).wallets
    ensures NextOf(Run(acts[..j]), m) <= NextOf(Run(acts), m)
    decreases |acts|
  {
    hide Step, NextOf;
    if j == |acts| {
      assert acts[..j] == acts;
    } else {
      var before := acts[..|acts| - 1];
      assert before[..j] == acts[..j];
      NextGrows(before, j, m);
      InvoiceApi.WalletsStay(before, j);
      NextBounded(before, m);
      StepNext(Run(before), acts[|acts| - 1], m);
    }
  }

  /** An index was handed out to a merchant at this moment of a run. */
  ghost predicate HandedOut(acts: seq<Action>, j: nat, m: MerchantId, index: nat) {
    j < |acts| && acts[j] == DoNextIndex(m) && NextAddressIndex(Run(acts[..j]), m).1 == Ok(index)
  }

  lemma {:induction false} CountOfPrefix(acts: seq<Action>, j: nat, m: MerchantId)
    requires j <= |acts|
    ensures CountNext(acts[..j], m) <= CountNext(acts, m)
    decreases |acts|
  {
    if j == |acts| {
      assert acts[..j] == acts;
    } else {
      CountOfPrefix(acts[..|acts| - 1], j, m);
      assert acts[..|acts| - 1][..j] == acts[..j];
    }
  }

  /** What a handed-out index says about the counter before and after. */
  lemma HandingOut(acts: seq<Action>, j: nat, m: MerchantId, index: nat)
    requires HandedOut(acts, j, m, index)
    ensures j < |acts| && m in Run(acts[..j]).wallets && NextOf(Run(acts[..j]), m) == index
    ensures m in Run(acts[..j + 1]).wallets && NextOf(Run(acts[..j + 1]), m) == (index + 1) % TWO_32
    ensures CountNext(acts[..j + 1], m) == CountNext(acts[..j], m) + 1
  {
    hide Step;
    assert acts[..j + 1][..j] == acts[..j];
    StepNext(Run(acts[..j]), acts[j], m);
    InvoiceApi.WalletsStay(acts[..j + 1], j);
  }

  /** Later indexes are higher, as long as the 32 bits last. */
  lemma LaterIndexHigher(acts: seq<Action>, j: nat, k: nat, m: MerchantId, index: nat, index': nat)
    requires HandedOut(acts, j, m, index) && HandedOut(acts, k, m, index') && j < k
    requires CountNext(acts, m) <= TWO_32
    ensures index < index'
  {
    hide HandedOut, NextOf, CountNext, Run;
    HandingOut(acts, j, m, index);
    HandingOut(acts, k, m, index');
    assert acts[..k][..j + 1] == acts[..j + 1] && acts[..k][..j] == acts[..j];
    CountOfPrefix(acts, k + 1, m);
    CountOfPrefix(acts[..k], j + 1, m);
    NextBounded(acts[..j], m);
    NextGrows(acts[..k], j + 1, m);
  }

  // ----- where invoices come from -----

  /** The invoice has the address of the creation call at this moment. */
  ghost predicate CreatedBy(acts: seq<Action>, n: nat, inv: Invoice) {
    && n < |acts| && acts[n].DoCreateInvoice?
    && var r := acts[n].req.Normal(); inv.merchant == r.merchant && PayKey(inv) == (r.wallet, r.address)
  }

  lemma {:induction false} InvoiceHasOrigin(acts: seq<Action>, i: InvoiceId)
    requires Legal(acts) && i in Run(acts).invoices
    ensures exists n: nat :: CreatedBy(acts, n, Run(acts).invoices[i])
  {
    hide Step, Enabled, CreatedBy;
    if acts != [] {
      LegalPrefix(acts);
      var before, a := acts[..|acts| - 1], acts[|acts| - 1];
      LedgerAgreement(before);
      if i in Run(before).invoices {
        InvoiceHasOrigin(before, i);
        var n: nat :| CreatedBy(before, n, Run(before).invoices[i]);
        TermsStep(Run(before), a);
        OriginStays(acts, n, Run(before).invoices[i], Run(acts).invoices[i]);
      } else {
        NewOrigin(Run(before), a, i);
        assert CreatedBy(acts, |acts| - 1, Run(acts).invoices[i]) by { OriginNow(acts, Run(acts).invoices[i]); }
      }
    }
  }

  lemma OriginStays(acts: seq<Action>, n: nat, inv: Invoice, inv': Invoice)
    requires acts != [] && CreatedBy(acts[..|acts| - 1], n, inv) && SameTerms(inv, inv')
    ensures CreatedBy(acts, n, inv')
  {
  }

  lemma OriginNow(acts: seq<Action>, inv: Invoice)
    requires acts != [] && acts[|acts| - 1].DoCreateInvoice?
    requires var r := acts[|acts| - 1].req.Normal(); inv.merchant == r.merchant && PayKey(inv) == (r.wallet, r.address)
    ensures CreatedBy(acts, |acts| - 1, inv)
  {
  }

  lemma NewOrigin(s: State, a: Action, i: InvoiceId)
    requires Agrees(s) && Enabled(s, a) && i !in s.invoices && i in Step(s, a).invoices
    ensures a.DoCreateInvoice?
    ensures var r, inv := a.req.Normal(), Step(s, a).invoices[i];
            inv.merchant == r.merchant && PayKey(inv) == (r.wallet, r.address)
  {
    hide Agrees, CreateInvoice, InsertInvoice, ConfirmPass, ApplyScanEvent, InvoiceCreate.Normal;
    TermsStep(s, a);
  }

  // ----- handlers -----

  type Deriver = (string, string, nat) -> Option<string>

  /** Different indexes of a wallet have different addresses, in the form in which the store compares them. */
  ghost predicate Injective(derive: Deriver) {
    forall ufvk, hrp, i: nat, j: nat ::
      var a, b := derive(ufvk, hrp, i), derive(ufvk, hrp, j);
      a.Some? && b.Some? && ToLower(TrimSpace(a.value)) == ToLower(TrimSpace(b.value)) ==> i == j
  }

  ghost predicate OneOwner(s: State) {
    forall m, m' | m in s.wallets && m' in s.wallets :: s.wallets[m].walletId == s.wallets[m'].walletId ==> m == m'
  }

  /** The creation call at `n` uses the index handed out at `j`. */
  ghost predicate Uses(acts: seq<Action>, n: nat, j: nat, derive: Deriver)
    requires n < |acts| && acts[n].DoCreateInvoice?
  {
    var req := acts[n].req;
    && j < n && HandedOut(acts, j, req.merchant, req.addressIndex)
    && var s := Run(acts[..j]);
       && req.merchant in s.wallets && req.wallet == s.wallets[req.merchant].walletId
       && derive(s.wallets[req.merchant].ufvk, s.wallets[req.merchant].uaHrp, req.addressIndex) == Some(req.address)
  }

  /** Every creation call comes from a handler that took an index of its own before, with any other calls in between. */
  ghost predicate HandlerRun(acts: seq<Action>, ticket: nat -> nat, derive: Deriver) {
    && (forall n: nat :: n < |acts| && acts[n].DoCreateInvoice? ==> Uses(acts, n, ticket(n), derive))
    && (forall n: nat, k: nat :: n < k < |acts| && acts[n].DoCreateInvoice? && acts[k].DoCreateInvoice? ==>
        ticket(n) != ticket(k))
  }

  /** The wallet a creation call uses is that of its merchant, now as then. */
  lemma UsesItsWallet(acts: seq<Action>, n: nat, j: nat, derive: Deriver)
    requires n < |acts| && acts[n].DoCreateInvoice? && Uses(acts, n, j, derive)
    ensures var req, s := acts[n].req, Run(acts);
            && req.merchant in s.wallets && req.wallet == s.wallets[req.merchant].walletId
                && TrimSpace(req.wallet) == req.wallet
            && derive(s.wallets[req.merchant].ufvk, s.wallets[req.merchant].uaHrp, req.addressIndex)
                == Some(req.address)
  {
    hide Run, HandedOut, TrimSpace;
    InvoiceApi.WalletsStay(acts, j);
    WalletsAlwaysTidy(acts);
  }

  /** Two creation calls never use the same wallet and address. */
  lemma AddressesDiffer(acts: seq<Action>, ticket: nat -> nat, derive: Deriver, n: nat, k: nat)
    requires HandlerRun(acts, ticket, derive) && Injective(derive) && OneOwner(Run(acts))
    requires n < k < |acts| && acts[n].DoCreateInvoice? && acts[k].DoCreateInvoice?
    requires CountNext(acts, acts[n].req.merchant) <= TWO_32
    ensures var r, r' := acts[n].req.Normal(), acts[k].req.Normal(); (r.wallet, r.address) != (r'.wallet, r'.address)
  {
    hide Run, HandedOut, TrimSpace, ToLower;
    var req, req' := acts[n].req, acts[k].req;
    UsesItsWallet(acts, n, ticket(n), derive);
    UsesItsWallet(acts, k, ticket(k), derive);
    if req.merchant == req'.merchant {
      assert ticket(n) != ticket(k);
      if ticket(n) < ticket(k) {
        LaterIndexHigher(acts, ticket(n), ticket(k), req.merchant, req.addressIndex, req'.addressIndex);
      } else {
        LaterIndexHigher(acts, ticket(k), ticket(n), req.merchant, req'.addressIndex, req.addressIndex);
      }
    }
  }

  /** A handler never finds its address taken: a new order of a known merchant is always created. */
  lemma NewOrderIsCreated(acts: seq<Action>, ticket: nat -> nat, derive: Deriver, n: nat)
    requires Legal(acts) && HandlerRun(acts, ticket, derive) && Injective(derive) && OneOwner(Run(acts))
    requires forall m :: CountNext(acts, m) <= TWO_32
    requires n < |acts| && acts[n].DoCreateInvoice?
    requires var r, s := acts[n].req.Normal(), Run(acts[..n]);
             r.Usable() && r.merchant in s.merchants && (r.merchant, r.externalOrder) !in s.byExternal
    ensures var r, s := acts[n].req.Normal(), Run(acts[..n]);
            && (r.wallet, r.address) !in s.byAddress
            && CreateInvoice(s, acts[n].req, acts[n].now).1
                == Ok(Created(s.invoiceSeq + 1, r.NewInvoice(acts[n].now), true))
  {
    hide Run, HandlerRun, Legal, CreateInvoice, InvoiceCreate.Normal, InvoiceCreate.Usable, Injective, OneOwner,
      CountNext;
    AddressIsFree(acts, ticket, derive, n);
    FreeIsCreated(Run(acts[..n]), acts[n].req, acts[n].now);
  }

  lemma FreeIsCreated(s: State, req: InvoiceCreate, now: Time)
    requires var r := req.Normal();
             && r.Usable() && r.merchant in s.merchants && (r.merchant, r.externalOrder) !in s.byExternal
             && (r.wallet, r.address) !in s.byAddress
    ensures CreateInvoice(s, req, now).1 == Ok(Created(s.invoiceSeq + 1, req.Normal().NewInvoice(now), true))
  {
    hide InvoiceCreate.Normal, InsertInvoice;
  }

  lemma AddressIsFree(acts: seq<Action>, ticket: nat -> nat, derive: Deriver, n: nat)
    requires Legal(acts) && HandlerRun(acts, ticket, derive) && Injective(derive) && OneOwner(Run(acts))
    requires forall m :: CountNext(acts, m) <= TWO_32
    requires n < |acts| && acts[n].DoCreateInvoice?
    ensures var r := acts[n].req.Normal(); (r.wallet, r.address) !in Run(acts[..n]).byAddress
  {
    hide Run, HandlerRun, Injective, OneOwner, InvoiceCreate.Normal, CountNext, Enabled, Legal;
    var before, r := acts[..n], acts[n].req.Normal();
    var key := (r.wallet, r.address);
    LegalUntil(acts, n);
    IndexesAreSearches(before);
    if key in Run(before).byAddress {
      var i := Run(before).byAddress[key];
      assert PayKey(Run(before).invoices[i]) == key;
      InvoiceHasOrigin(before, i);
      var k: nat :| CreatedBy(before, k, Run(before).invoices[i]);
      assert acts[k] == before[k];
      AddressesDiffer(acts, ticket, derive, k, n);
      assert false;
    }
  }
}
