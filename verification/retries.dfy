/**
 Retries of invoice creation when the store calls of all handlers interleave
 with each other and with any other calls.
*/
module Retries {
  import opened Domain
  import opened Text
  import opened Ledger
  import opened Runs
  import opened Accounts
  import opened Attribution
  import opened InvoiceApi
  import Frames

  /** The call at `n` creates invoice `i`. */
  ghost predicate Creates(acts: seq<Action>, n: nat, i: InvoiceId) {
    && n < |acts| && acts[n].DoCreateInvoice?
    && var r := CreateInvoice(Run(acts[..n]), acts[n].req, acts[n].now).1;
       r.Ok? && r.value.isNew && r.value.id == i
  }

  /** The only token call for invoice `i` is the one at `k`, if the run gets that far. */
  predicate OneTokenCall(acts: seq<Action>, k: nat, i: InvoiceId, token: string) {
    && (forall j: nat :: j < |acts| && acts[j].DoPutToken? && acts[j].inv == i ==> j == k)
    && (k < |acts| ==> acts[k] == DoPutToken(i, token))
    && TrimSpace(token) != ""
  }

  // ----- invoices and tokens along a run -----

  lemma {:induction false} TermsOverRun(acts: seq<Action>, n: nat)
    requires Legal(acts) && n <= |acts|
    ensures TermsKept(Run(acts[..n]).invoices, Run(acts).invoices)
    decreases |acts|
  {
    hide Step, Enabled;
    if n == |acts| {
      assert acts[..n] == acts;
    } else {
      LegalPrefix(acts);
      var before := acts[..|acts| - 1];
      TermsOverRun(before, n);
      assert before[..n] == acts[..n];
      LedgerAgreement(before);
      TermsStep(Run(before), acts[|acts| - 1]);
      TermsTransitive(Run(acts[..n]).invoices, Run(before).invoices, Run(acts).invoices);
    }
  }

  lemma TermsTransitive(a: map<InvoiceId, Invoice>, b: map<InvoiceId, Invoice>, c: map<InvoiceId, Invoice>)
    requires TermsKept(a, b) && TermsKept(b, c)
    ensures TermsKept(a, c)
  {
    forall i | i in a ensures i in c && SameTerms(a[i], c[i]) {
      assert SameTerms(a[i], b[i]) && SameTerms(b[i], c[i]);
    }
  }

  lemma PutToken(s: State, inv: InvoiceId, token: string)
    ensures Step(s, DoPutToken(inv, token)) ==
              if inv != 0 && TrimSpace(token) != ""
                  && inv in s.invoices then s.(tokens := s.tokens[inv := TrimSpace(token)]) else s
  {
    hide TrimSpace;
  }

  lemma StepToken(s: State, a: Action)
    ensures Step(s, a).tokens ==
              if a.DoPutToken? && a.inv != 0 && TrimSpace(a.token) != "" && a.inv in s.invoices
              then s.tokens[a.inv := TrimSpace(a.token)] else s.tokens
  {
    hide TrimSpace, Step;
    if a.DoPutToken? {
      PutToken(s, a.inv, a.token);
    } else {
      OthersPutNothing(s, a);
    }
  }

  lemma OthersPutNothing(s: State, a: Action)
    requires !a.DoPutToken?
    ensures Step(s, a).tokens == s.tokens
  {
    hide Step;
    Frames.StepUntouched(s, a);
  }

  /** Only invoices have tokens. */
  lemma {:induction false} TokensNamed(acts: seq<Action>)
    requires Legal(acts)
    ensures Run(acts).tokens.Keys <= Run(acts).invoices.Keys
  {
    if acts != [] {
      LegalPrefix(acts);
      var before, a := acts[..|acts| - 1], acts[|acts| - 1];
      TokensNamed(before);
      LedgerAgreement(before);
      TermsStep(Run(before), a);
      if a.DoPutToken? {
        hide Run, TrimSpace, Agrees, TermsKept;
        NewTokenNamed(Run(before), a.inv, a.token);
      } else {
        hide Step, Enabled, Agrees, SameTerms;
        Frames.StepUntouched(Run(before), a);
      }
    }
  }

  lemma NewTokenNamed(s: State, inv: InvoiceId, token: string)
    requires s.tokens.Keys <= s.invoices.Keys
    ensures PutInvoiceToken(s, inv, token).0.tokens.Keys <= s.invoices.Keys
  {
    hide TrimSpace;
  }

  /** The store right after the creation. */
  lemma JustCreated(acts: seq<Action>, n: nat, i: InvoiceId)
    requires Legal(acts) && Creates(acts, n, i)
    ensures var s := Run(acts[..n + 1]);
            && i != 0 && i in s.invoices && i !in s.tokens
            && s.invoices[i] == acts[n].req.Normal().NewInvoice(acts[n].now)
  {
    hide InvoiceCreate.Normal, InsertInvoice, CreateInvoice, AgreesExcept, Enabled, Legal;
    LegalUntil(acts, n);
    LedgerAgreement(acts[..n]);
    TokensNamed(acts[..n]);
    assert acts[..n + 1][..n] == acts[..n];
  }

  /** From its creation on an invoice is there on its terms, and it has its token exactly from the token call on. */
  lemma {:induction false} TokenFrom(acts: seq<Action>, n: nat, k: nat, i: InvoiceId, token: string, p: nat)
    requires Legal(acts) && Creates(acts, n, i) && OneTokenCall(acts, k, i, token) && n < k && n < p <= |acts|
    ensures var s := Run(acts[..p]);
            && i in s.invoices && SameTerms(acts[n].req.Normal().NewInvoice(acts[n].now), s.invoices[i])
            && (i in s.tokens <==> k < p) && (k < p ==> s.tokens[i] == TrimSpace(token))
    decreases p
  {
    hide Run, TrimSpace, InvoiceCreate.Normal, InvoiceCreate.NewInvoice, Creates, SameTerms, Legal;
    JustCreated(acts, n, i);
    LegalUntil(acts, p);
    TermsOverRun(acts[..p], n + 1);
    assert acts[..p][..n + 1] == acts[..n + 1];
    if p > n + 1 {
      TokenFrom(acts, n, k, i, token, p - 1);
      hide Step;
      RunStep(acts, p - 1);
      StepToken(Run(acts[..p - 1]), acts[p - 1]);
    }
  }

  lemma RunStep(acts: seq<Action>, n: nat)
    requires n < |acts|
    ensures Run(acts[..n + 1]) == Step(Run(acts[..n]), acts[n])
  {
    hide Step;
    assert acts[..n + 1][..n] == acts[..n];
  }

  // ----- retries -----

  /** The creation call at `q` is for the same order of the same merchant as the one at `n`. */
  predicate SameOrder(acts: seq<Action>, n: nat, q: nat) {
    && n < |acts| && acts[n].DoCreateInvoice? && q < |acts| && acts[q].DoCreateInvoice?
    && acts[q].req.merchant == acts[n].req.merchant
    && TrimSpace(acts[q].req.externalOrder) == TrimSpace(acts[n].req.externalOrder)
  }

  lemma KnownToStore(s: State, req: InvoiceCreate, now: Time, i: InvoiceId)
    requires Indexed(s) && i in s.invoices && req.Normal().Usable() && req.merchant in s.merchants
    requires OrderKey(s.invoices[i]) == (req.merchant, TrimSpace(req.externalOrder))
    ensures CreateInvoice(s, req, now).1
         == if s.invoices[i].amount == req.amount then Ok(Created(i, s.invoices[i], false)) else Err(Conflict)
  {
    hide TrimSpace, ToLower, InsertInvoice;
    LookupIsSearch(s.byExternal, s.invoices, OrderKey, OrderKey(s.invoices[i]));
  }

  lemma CreatedFor(acts: seq<Action>, n: nat, i: InvoiceId)
    requires Creates(acts, n, i)
    ensures acts[n].req.merchant in Run(acts[..n]).merchants
  {
    hide InvoiceCreate.Normal, InsertInvoice, Run;
    NormalMerchant(acts[n].req);
  }

  lemma NormalMerchant(req: InvoiceCreate)
    ensures req.Normal().merchant == req.merchant && req.Normal().externalOrder == TrimSpace(req.externalOrder)
         && req.Normal().amount == req.amount
  {
  }

  /**
   A retry, whatever happens before, between and after its calls. Its creation
   call at `q` finds the invoice made at `n`, on the same terms, exactly when
   the amount is the same. Reading the token at `p` then gives the token
   stored at `k`, exactly when that is past; until then the retry is refused.
  */
  lemma RetryOverRun(acts: seq<Action>, n: nat, k: nat, i: InvoiceId, token: string, q: nat, p: nat)
    requires Legal(acts) && Creates(acts, n, i) && OneTokenCall(acts, k, i, token) && n < k
    requires n < q < p <= |acts| && SameOrder(acts, n, q) && acts[q].req.Normal().Usable()
    ensures var s := Run(acts[..q]);
            && i in s.invoices && SameTerms(acts[n].req.Normal().NewInvoice(acts[n].now), s.invoices[i])
            && CreateInvoice(s, acts[q].req, acts[q].now).1
            == (if acts[q].req.amount == acts[n].req.amount then Ok(Created(i, s.invoices[i], false))
                else Err(Conflict))
            && Reread(Run(acts[..p]), Created(i, s.invoices[i], false))
            == if k < p then Answer(i, s.invoices[i], TrimSpace(token), false) else Refused(InternalFailure)
  {
    hide Run, CreateInvoice, InvoiceCreate.Normal, InvoiceCreate.Usable, TrimSpace, OneTokenCall, Creates, Enabled,
      Indexed;
    TokenFrom(acts, n, k, i, token, q);
    TokenFrom(acts, n, k, i, token, p);
    LegalUntil(acts, q);
    IndexesAreSearches(acts[..q]);
    CreatedFor(acts, n, i);
    WalletsStay(acts[..q], n);
    assert acts[..q][..n] == acts[..n];
    NormalMerchant(acts[n].req);
    SameTermsFields(acts[n].req.Normal().NewInvoice(acts[n].now), Run(acts[..q]).invoices[i]);
    KnownToStore(Run(acts[..q]), acts[q].req, acts[q].now, i);
  }
}
