/** Runs that really lead where a law stops holding. */
module Witnesses {
  import opened Domain
  import opened Text
  import opened Ledger
  import opened Accounts
  import opened Attribution
  import opened Conservation
  import opened InvoiceApi
  import opened Runs
  import opened SqlLedger
  import opened SqlDatabase
  import opened SqlRefinement
  import SqlRuns
  import Frames
  import SqlRetries

  const POLICIES := Policies(MarkPaidLate, AcceptPartial, MarkOverpaid)
  const MERCHANT := DoCreateMerchant("m", Settings(0, 1, POLICIES), 0)
  const WALLET := DoSetWallet(1, Wallet("w", "u", "c", "h", 0, 0), 0)
  const ORDER := InvoiceCreate(1, "order", "w", 0, "a", 0, "", 5, 1, POLICIES, None)
  const INVOICE := DoCreateInvoice(ORDER, 0)

  function Paying(txid: string, amount: nat, cursor: int): (r: Action) {
    DoScan(ScanEvent("w", cursor, DepositEvent, Some(Payload("w", txid, 0, "a", amount, 1)), Some(0)), 1, 0)
  }

  /** A store with one merchant, its wallet and an invoice nobody has paid or has a token for. */
  ghost predicate OneOrder(s: State) {
    && 1 in s.merchants && s.wallets.Keys == {1} && s.wallets[1].walletId == "w"
    && s.invoices == map[1 := ORDER.NewInvoice(0)] && s.byAddress == map[("w", "a") := 1]
    && s.deposits == map[] && s.tokens == map[] && s.cursors == map[]
  }

  lemma OrderIsNormal()
    ensures ORDER.Normal() == ORDER && ORDER.Usable()
  {
    assert TrimSpace("order") == "order" && TrimSpace("w") == "w" && TrimSpace("a") == "a" && ToLower("a") == "a";
  }

  lemma WalletIsNormal()
    ensures NormalWallet(WALLET.w, 0) == WALLET.w && TrimSpace("m") == "m"
  {
    assert TrimSpace("w") == "w" && TrimSpace("u") == "u" && TrimSpace("c") == "c" && TrimSpace("h") == "h";
  }

  lemma InvoiceMade(s: State)
    requires 1 in s.merchants && s.wallets.Keys == {1} && s.wallets[1].walletId == "w"
    requires s.(merchants := map[], wallets := map[], nextIndex := map[], merchantSeq := 0) == EMPTY
    ensures OneOrder(Step(s, INVOICE))
  {
    hide Events.Append, InvoiceCreate.Normal, InvoiceCreate.Usable, Owners;
    OrderIsNormal();
  }

  lemma MerchantAndWallet()
    ensures var s := Step(Step(EMPTY, MERCHANT), WALLET);
            && 1 in s.merchants && s.wallets.Keys == {1} && s.wallets[1].walletId == "w"
            && s.(merchants := map[], wallets := map[], nextIndex := map[], merchantSeq := 0) == EMPTY
  {
    hide TrimSpace, NormalWallet;
    WalletIsNormal();
  }

  // ----- sums that leave 64 bits -----

  const OVERPAYMENTS := [MERCHANT, WALLET, INVOICE, Paying("t", MAX_INT64, 1), Paying("u", 1, 2)]

  function KeyOf(txid: string): (r: DepKey) {
    DepKey("w", txid, 0)
  }

  /** A store in which the next payment to the address goes to the invoice. */
  ghost predicate NextPays(s: State, cursor: int) {
    && 1 in s.wallets && s.wallets[1].walletId == "w"
    && 1 in s.invoices && s.invoices[1].createdAfterHeight == 0 && ("w", "a") in s.byAddress
        && s.byAddress[("w", "a")] == 1
    && CursorOf(s, "w") == cursor
  }

  lemma PaymentArrives(s: State, txid: string, amount: nat, cursor: int)
    requires NextPays(s, cursor) && cursor >= 0 && amount <= MAX_INT64 && KeyOf(txid) !in s.deposits
    ensures Enabled(s, Paying(txid, amount, cursor + 1))
    ensures var s' := Step(s, Paying(txid, amount, cursor + 1));
            && NextPays(s', cursor + 1)
            && exists d :: s'.deposits == s.deposits[KeyOf(txid) := d] && d.invoice == 1 && d.amount == amount
                && d.status == Detected
  {
    hide ApplyDeposit, ReceivedOf, ComputeStatus;
    assert TrimSpace("w") == "w" && TrimSpace("a") == "a" && ToLower("a") == "a";
    var ev := Paying(txid, amount, cursor + 1).ev;
    assert PayloadKey(ev, ev.payload.value) == KeyOf(txid);
    var d := DepositAfter(s, ev, ev.payload.value, 0);
    assert d.invoice == 1;
  }

  lemma {:induction false} RunOfOneMore(acts: seq<Action>, a: Action)
    ensures Run(acts + [a]) == Step(Run(acts), a)
  {
    hide Step;
    assert (acts + [a])[..|acts|] == acts;
  }

  lemma LegalOneMore(acts: seq<Action>, a: Action)
    requires Legal(acts) && Enabled(Run(acts), a)
    ensures Legal(acts + [a]) && Run(acts + [a]) == Step(Run(acts), a)
  {
    hide Step, Enabled;
    RunOfOneMore(acts, a);
    hide Run;
    var all := acts + [a];
    assert all[..|acts|] == acts;
    assert forall n :: 0 <= n < |acts| ==> all[n] == acts[n] && all[..n] == acts[..n];
  }

  lemma ReadyRun()
    ensures Legal([MERCHANT, WALLET, INVOICE]) && OneOrder(Run([MERCHANT, WALLET, INVOICE]))
  {
    hide Step, Run;
    NothingRun();
    LegalOneMore([], MERCHANT);
    LegalOneMore([MERCHANT], WALLET);
    LegalOneMore([MERCHANT, WALLET], INVOICE);
    assert [] + [MERCHANT] == [MERCHANT] && [MERCHANT] + [WALLET] == [MERCHANT, WALLET];
    assert [MERCHANT, WALLET] + [INVOICE] == [MERCHANT, WALLET, INVOICE];
    MerchantAndWallet();
    InvoiceMade(Step(Step(EMPTY, MERCHANT), WALLET));
  }

  lemma NothingRun()
    ensures Run([]) == EMPTY && Legal([])
  {
  }

  lemma TwoDeposits(k: DepKey, d: Deposit, k': DepKey, d': Deposit)
    requires k != k' && d.invoice == 1 && d'.invoice == 1 && d.status == Detected && d'.status == Detected
    ensures PendingOf(map[k := d, k' := d'], 1) == d.amount + d'.amount
  {
    var none: map<DepKey, Deposit> := map[];
    NoDepositsNoSums(none, 1);
    SharesAfterPut(none, k, d, 1);
    SharesAfterPut(none[k := d], k', d', 1);
    assert map[k := d, k' := d'] == none[k := d][k' := d'];
  }

  /**
   Two payments, of the largest amount and of one, take the sums of an invoice out of 64
   bits: the stored sum is negative.
  */
  lemma SumsCanOverflow()
    ensures Legal(OVERPAYMENTS)
    ensures var s := Run(OVERPAYMENTS);
            && 1 in s.invoices && PendingOf(s.deposits, 1) == MAX_INT64 + 1
            && s.invoices[1].received.pending == -MAX_INT64 - 1
  {
    hide Step, Run, Enabled, NextPays, PendingOf, ConfirmedOf;
    var acts := [MERCHANT, WALLET, INVOICE];
    ReadyRun();
    ReadyIsPayable(Run(acts));
    PaymentArrives(Run(acts), "t", MAX_INT64, 0);
    LegalOneMore(acts, Paying("t", MAX_INT64, 1));
    var acts1 := acts + [Paying("t", MAX_INT64, 1)];
    PaymentArrives(Run(acts1), "u", 1, 1);
    LegalOneMore(acts1, Paying("u", 1, 2));
    assert acts1 + [Paying("u", 1, 2)] == OVERPAYMENTS;
    var s := Run(OVERPAYMENTS);
    TwoDeposits(KeyOf("t"), s.deposits[KeyOf("t")], KeyOf("u"), s.deposits[KeyOf("u")]);
    assert s.deposits == map[KeyOf("t") := s.deposits[KeyOf("t")], KeyOf("u") := s.deposits[KeyOf("u")]];
    LedgerAgreement(OVERPAYMENTS);
    PayableInvoice(s);
    assert Exact(s.invoices[1], s.deposits, 1);
  }

  lemma ReadyIsPayable(s: State)
    requires OneOrder(s)
    ensures NextPays(s, 0) && s.deposits == map[]
  {
  }

  lemma PayableInvoice(s: State)
    requires NextPays(s, 2)
    ensures 1 in s.invoices
  {
  }

  // ----- an invoice without its token -----

  const NO_TOKEN := [MERCHANT, WALLET, DoNextIndex(1), INVOICE]

  function Anywhere(ufvk: string, hrp: string, index: nat): (r: Option<string>) {
    Some("b")
  }

  const OUTSIDE := Outside(Anywhere, Some((0, "")), 0, Some("token"))

  lemma IndexTaken(s: State)
    requires 1 in s.merchants && s.wallets.Keys == {1} && s.wallets[1].walletId == "w"
    requires s.(merchants := map[], wallets := map[], nextIndex := map[], merchantSeq := 0) == EMPTY
    ensures var s' := Step(s, DoNextIndex(1));
            && 1 in s'.merchants && s'.wallets.Keys == {1} && s'.wallets[1].walletId == "w"
            && s'.(merchants := map[], wallets := map[], nextIndex := map[], merchantSeq := 0) == EMPTY
  {
  }

  lemma NoTokenRun()
    ensures Legal(NO_TOKEN) && OneOrder(Run(NO_TOKEN))
  {
    hide Step, Run;
    NothingRun();
    LegalOneMore([], MERCHANT);
    LegalOneMore([MERCHANT], WALLET);
    LegalOneMore([MERCHANT, WALLET], DoNextIndex(1));
    LegalOneMore([MERCHANT, WALLET, DoNextIndex(1)], INVOICE);
    assert [] + [MERCHANT] == [MERCHANT] && [MERCHANT] + [WALLET] == [MERCHANT, WALLET];
    assert [MERCHANT, WALLET] + [DoNextIndex(1)] == [MERCHANT, WALLET, DoNextIndex(1)];
    assert [MERCHANT, WALLET, DoNextIndex(1)] + [INVOICE] == NO_TOKEN;
    MerchantAndWallet();
    IndexTaken(Step(Step(EMPTY, MERCHANT), WALLET));
    InvoiceMade(Step(Step(Step(EMPTY, MERCHANT), WALLET), DoNextIndex(1)));
  }

  /** A handler that stopped between its creation call and its token call leaves an order whose retries are refused. */
  lemma RetryCanBeRefused(now: Time)
    ensures Legal(NO_TOKEN)
    ensures var s := Run(NO_TOKEN);
            && 1 in s.invoices && OrderKey(s.invoices[1]) == (1, "order") && s.invoices[1].amount == 5
            && HandleCreate(s, 1, "order", 5, OUTSIDE, now).1 == Refused(InternalFailure)
  {
    hide Run, HandleCreate, ApiSound, Legal, NextAddressIndex;
    NoTokenRun();
    AlwaysSound(NO_TOKEN);
    assert TrimSpace("order") == "order" && TrimSpace("b") == "b" && ToLower("b") == "b";
    KnownOrder(Run(NO_TOKEN), 1, "order", 5, OUTSIDE, now, 1);
  }

  // ----- an orphaned payment the SQL store goes on counting -----

  const PAYMENT := Paying("t", 5, 1)
  const PAID := [MERCHANT, WALLET, INVOICE, PAYMENT]

  /** The payment again, orphaned, at a height its invoice does not reach back to. */
  const DROPPED := Payload("w", "t", 0, "a", 5, 0)
  const DROP := DoScan(ScanEvent("w", 2, DepositOrphanedKind, Some(DROPPED), Some(0)), 1, 0)

  lemma OneMoreTame(acts: seq<Action>, a: Action)
    requires SqlRuns.TameRun(EMPTY, acts) && Enabled(Run(acts), a) && SqlRuns.TameStep(Run(acts), a)
    ensures SqlRuns.TameRun(EMPTY, acts + [a])
  {
    hide Run, RunFrom, Enabled, SqlRuns.TameStep;
    var all := acts + [a];
    RunIsRunFrom(acts);
    assert all[..|acts|] == acts;
    assert forall n :: 0 <= n < |acts| ==> all[n] == acts[n] && all[..n] == acts[..n];
  }

  lemma OrderIsTame(s: State)
    requires 1 in s.merchants
    ensures SqlRuns.TameStep(s, INVOICE)
  {
    assert TrimSpace("") == "";
  }

  lemma PaymentMatches(s: State)
    requires OneOrder(s)
    ensures TrimSpace("w") == "w" && ToLower(TrimSpace("a")) == "a"
    ensures Matched(TablesOf(s), PAYMENT.ev.payload.value) == 1 && !Ambiguous(TablesOf(s), "w")
  {
    assert TrimSpace("w") == "w" && TrimSpace("a") == "a" && ToLower("a") == "a";
    assert IsRow(TablesOf(s), 1, "w", "a");
  }

  lemma PaymentIsTame(s: State)
    requires OneOrder(s)
    ensures SqlRuns.TameStep(s, PAYMENT)
  {
    PaymentMatches(s);
    hide ToLower, TrimSpace, PendingOf, ConfirmedOf, Matched, Ambiguous;
    var ev := PAYMENT.ev;
    assert PayloadKey(ev, ev.payload.value) == KeyOf("t");
    var d := DepositAfter(s, ev, ev.payload.value, 0);
    OneDeposit(KeyOf("t"), d, d.invoice);
    assert s.deposits[KeyOf("t") := d] == map[KeyOf("t") := d];
    assert SqlRuns.TameSums(s, ev, ev.payload.value, 0);
  }

  lemma TameUntilInvoice()
    ensures SqlRuns.TameRun(EMPTY, [MERCHANT, WALLET, INVOICE])
  {
    hide Run, Step, Enabled, SqlRuns.TameStep, SqlRuns.TameRun;
    SetupIsTame();
    NothingRun();
    LegalOneMore([], MERCHANT);
    LegalOneMore([MERCHANT], WALLET);
    assert [] + [MERCHANT] == [MERCHANT] && [MERCHANT] + [WALLET] == [MERCHANT, WALLET];
    assert [MERCHANT, WALLET] + [INVOICE] == [MERCHANT, WALLET, INVOICE];
    MerchantAndWallet();
    OneMoreTame([], MERCHANT);
    OneMoreTame([MERCHANT], WALLET);
    OrderIsTame(Run([MERCHANT, WALLET]));
    OneMoreTame([MERCHANT, WALLET], INVOICE);
  }

  lemma SetupIsTame()
    ensures SqlRuns.TameRun(EMPTY, [])
    ensures SqlRuns.TameStep(EMPTY, MERCHANT) && Enabled(EMPTY, MERCHANT)
    ensures forall s :: SqlRuns.TameStep(s, WALLET) && Enabled(s, WALLET) && Enabled(s, INVOICE)
  {
  }

  /** A store whose one invoice has been paid by one deposit. */
  ghost predicate Paid(s: State) {
    && s.wallets.Keys == {1} && s.wallets[1].walletId == "w"
    && s.invoices.Keys == {1} && s.invoices[1].createdAfterHeight == 0 && s.invoices[1].received == Received(5, 0)
    && CursorOf(s, "w") == 1
    && s.deposits.Keys == {KeyOf("t")} && s.deposits[KeyOf("t")].invoice == 1
  }

  lemma PaidRun()
    ensures SqlRuns.TameRun(EMPTY, PAID) && Legal(PAID) && Paid(Run(PAID))
  {
    hide Run, Step, Enabled, SqlRuns.TameStep, SqlRuns.TameRun, PendingOf, ConfirmedOf, CursorOf;
    var acts := [MERCHANT, WALLET, INVOICE];
    TameUntilInvoice();
    ReadyRun();
    ReadyIsPayable(Run(acts));
    PaymentIsTame(Run(acts));
    PaymentArrives(Run(acts), "t", 5, 0);
    OneMoreTame(acts, PAYMENT);
    LegalOneMore(acts, PAYMENT);
    assert acts + [PAYMENT] == PAID;
    Frames.StepUntouched(Run(acts), PAYMENT);
    LedgerAgreement(acts);
    TermsStep(Run(acts), PAYMENT);
    LedgerAgreement(PAID);
    var s := Run(PAID);
    var k, d := KeyOf("t"), s.deposits[KeyOf("t")];
    assert s.deposits == map[k := d];
    OneDeposit(k, d, 1);
    assert Exact(s.invoices[1], s.deposits, 1);
  }

  /** Dropping the payment, in the SQL store: the deposit is orphaned and the invoice stays as it was. */
  lemma DropIsMissed(db: Database, s: State)
    requires Paid(s) && db.tables == TablesOf(s)
    ensures var t := DatabaseStep(db, DROP).tables;
            && t.invoices == db.tables.invoices
            && t.deposits.Keys == {KeyOf("t")} && t.deposits[KeyOf("t")].status == Orphaned
  {
    hide InsertCase, Matched;
    DropMatchesNothing(s);
    hide ToLower, TrimSpace;
  }

  lemma DropMatchesNothing(s: State)
    requires Paid(s)
    ensures TrimSpace("w") == "w" && EventKey(DROPPED) == KeyOf("t") && Matched(TablesOf(s), DROPPED) == 0
  {
    hide ToLower;
    assert TrimSpace("w") == "w";
  }

  /** A payment orphaned at a height below its invoice's start is still counted by the SQL store. */
  lemma OrphanMissed()
    ensures Legal(PAID + [DROP])
    ensures var t := DatabaseRun(EMPTY_DATABASE, PAID + [DROP]).tables;
            1 in t.invoices && t.invoices[1].received.pending == 5 && PendingOf(t.deposits, 1) == 0
  {
    hide Run, Step, Enabled, DatabaseStep, SqlRuns.DatabaseOf, SqlRuns.Ready, SqlRuns.TameRun, PendingOf, ConfirmedOf;
    PaidRun();
    DropIsPossible(Run(PAID));
    LegalOneMore(PAID, DROP);
    SqlRuns.SqlStoreIsMemStore(PAID);
    var all := PAID + [DROP];
    assert all[..|all| - 1] == PAID;
    var db := DatabaseRun(EMPTY_DATABASE, PAID);
    SameTables(Run(PAID));
    DropIsMissed(db, Run(PAID));
    var t := DatabaseStep(db, DROP).tables;
    assert t.deposits == map[KeyOf("t") := t.deposits[KeyOf("t")]];
    OneDeposit(KeyOf("t"), t.deposits[KeyOf("t")], 1);
  }

  lemma SameTables(s: State)
    requires SqlRuns.Ready(s)
    ensures SqlRuns.DatabaseOf(s).tables == TablesOf(s)
  {
  }

  lemma DropIsPossible(s: State)
    requires Paid(s)
    ensures Enabled(s, DROP)
  {
  }

  // ----- a repeated order that the SQL store answers differently -----

  const AGAIN := ORDER.(address := "b")

  lemma NoTokenIsTame()
    ensures SqlRuns.TameRun(EMPTY, NO_TOKEN)
  {
    hide Run, Step, Enabled, SqlRuns.TameStep, SqlRuns.TameRun;
    SetupIsTame();
    NothingRun();
    LegalOneMore([], MERCHANT);
    LegalOneMore([MERCHANT], WALLET);
    IndexIsTame();
    LegalOneMore([MERCHANT, WALLET], DoNextIndex(1));
    assert [] + [MERCHANT] == [MERCHANT] && [MERCHANT] + [WALLET] == [MERCHANT, WALLET];
    assert [MERCHANT, WALLET] + [DoNextIndex(1)] == [MERCHANT, WALLET, DoNextIndex(1)];
    assert [MERCHANT, WALLET, DoNextIndex(1)] + [INVOICE] == NO_TOKEN;
    MerchantAndWallet();
    IndexTaken(Run([MERCHANT, WALLET]));
    OneMoreTame([], MERCHANT);
    OneMoreTame([MERCHANT], WALLET);
    OneMoreTame([MERCHANT, WALLET], DoNextIndex(1));
    OrderIsTame(Run([MERCHANT, WALLET, DoNextIndex(1)]));
    OneMoreTame([MERCHANT, WALLET, DoNextIndex(1)], INVOICE);
  }

  lemma IndexIsTame()
    ensures forall s :: SqlRuns.TameStep(s, DoNextIndex(1)) && Enabled(s, DoNextIndex(1))
  {
  }

  lemma AgainIsNormal()
    ensures AGAIN.Normal() == AGAIN && AGAIN.Usable() && TrimSpace(AGAIN.externalOrder) == "order"
  {
    assert TrimSpace("order") == "order" && TrimSpace("w") == "w" && TrimSpace("b") == "b" && ToLower("b") == "b";
  }

  /** The same order for another address: answered with its invoice by one store, and refused by the other. */
  lemma AnswersDiffer()
    ensures Legal(NO_TOKEN) && SqlRuns.OtherAddress(Run(NO_TOKEN), AGAIN)
    ensures CreateInvoice(Run(NO_TOKEN), AGAIN, 0).1 == Ok(Created(1, ORDER.NewInvoice(0), false))
    ensures CreateInvoiceTx(DatabaseRun(EMPTY_DATABASE, NO_TOKEN), AGAIN, 0).1 == Err(Conflict)
  {
    hide Run, Step, SqlRuns.TameRun, SqlRuns.DatabaseOf, SqlRuns.Ready, DatabaseRun, CreateInvoiceTx,
      InvoiceCreate.Normal, InvoiceCreate.Usable, TrimSpace, Indexed, SqlRuns.Dense;
    var s := Run(NO_TOKEN);
    NoTokenRun();
    NoTokenIsTame();
    IndexesAreSearches(NO_TOKEN);
    AgainIsNormal();
    SqlRuns.SqlStoreIsMemStore(NO_TOKEN);
    ReadyIsDense(s);
    SqlRetries.OtherAddressConflicts(s, AGAIN, 0, 1);
    IndexedByOrder(s);
  }

  lemma ReadyIsDense(s: State)
    requires SqlRuns.Ready(s)
    ensures SqlRuns.Dense(s.reviews)
  {
  }

  lemma IndexedByOrder(s: State)
    requires OneOrder(s) && Indexed(s)
    ensures (1, "order") in s.byExternal && s.byExternal[(1, "order")] == 1
  {
    assert OrderKey(s.invoices[1]) == (1, "order");
  }
}
