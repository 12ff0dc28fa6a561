/** Retries of invoice creation on the SQL store, which compares the address of a known order. */
module SqlRetries {
  import opened Domain
  import opened Text
  import opened Ledger
  import opened Runs
  import opened Attribution
  import opened AddressUse
  import opened InvoiceApi
  import opened Retries
  import opened SqlLedger
  import opened SqlDatabase
  import SqlRuns

  /** The database refuses a known order at another address. */
  lemma OtherAddressConflicts(s: State, req: InvoiceCreate, now: Time, i: InvoiceId)
    requires Indexed(s) && SqlRuns.Dense(s.reviews) && i in s.invoices && req.Normal().Usable()
    requires OrderKey(s.invoices[i]) == (req.merchant, TrimSpace(req.externalOrder))
    requires PayKey(s.invoices[i]) != (req.Normal().wallet, req.Normal().address)
    ensures CreateInvoiceTx(SqlRuns.DatabaseOf(s), req, now).1 == Err(Conflict)
  {
    NormalMerchant(req);
    var r := req.Normal();
    hide InvoiceCreate.Normal, InvoiceCreate.Usable, TrimSpace, Replayed, SqlRuns.Dense;
    SqlRuns.ReplayedAlike(s, r);
    LookupIsSearch(s.byExternal, s.invoices, OrderKey, OrderKey(s.invoices[i]));
    RowKeys(r, now);
    hide Indexed, InvoiceRow;
  }

  lemma RowKeys(r: InvoiceCreate, now: Time)
    ensures InvoiceRow(r, now).merchant == r.merchant && InvoiceRow(r, now).externalOrder == r.externalOrder
  {
    hide TrimSpace;
  }

  /**
   However the handlers interleave, each later creation call for an order that
   was created is refused by the SQL store: a handler never derives the same
   address twice.
  */
  lemma RetriesConflict(acts: seq<Action>, ticket: nat -> nat, derive: Deriver, n: nat, q: nat, i: InvoiceId)
    requires Legal(acts) && HandlerRun(acts, ticket, derive) && Injective(derive) && OneOwner(Run(acts))
    requires Creates(acts, n, i) && n < q && SameOrder(acts, n, q) && acts[q].req.Normal().Usable()
    requires CountNext(acts, acts[n].req.merchant) <= TWO_32
    requires SqlRuns.TameRun(EMPTY, acts[..q])
    ensures CreateInvoiceTx(DatabaseRun(EMPTY_DATABASE, acts[..q]), acts[q].req, acts[q].now).1 == Err(Conflict)
  {
    hide Run, HandlerRun, Injective, OneOwner, CountNext, Creates, InvoiceCreate.Normal, InvoiceCreate.Usable,
      TrimSpace, Indexed, CreateInvoiceTx, DatabaseRun, SqlRuns.TameRun, SqlRuns.DatabaseOf, SqlRuns.Dense, TermsKept;
    var s := Run(acts[..q]);
    LegalUntil(acts, q);
    IndexesAreSearches(acts[..q]);
    SqlRuns.SqlStoreIsMemStore(acts[..q]);
    CreatedKept(acts, n, q, i);
    AddressesDiffer(acts, ticket, derive, n, q);
    NormalMerchant(acts[n].req);
    OtherAddressConflicts(s, acts[q].req, acts[q].now, i);
  }

  lemma CreatedKept(acts: seq<Action>, n: nat, q: nat, i: InvoiceId)
    requires Legal(acts) && Creates(acts, n, i) && n < q <= |acts|
    ensures var s, r := Run(acts[..q]), acts[n].req.Normal();
            && i in s.invoices && OrderKey(s.invoices[i]) == (r.merchant, r.externalOrder)
                && PayKey(s.invoices[i]) == (r.wallet, r.address)
  {
    hide Run, InvoiceCreate.Normal, Creates, Legal;
    JustCreated(acts, n, i);
    LegalUntil(acts, q);
    TermsOverRun(acts[..q], n + 1);
    assert acts[..q][..n + 1] == acts[..n + 1];
    assert SameTerms(Run(acts[..n + 1]).invoices[i], Run(acts[..q]).invoices[i]);
  }
}
