/**
 What a store holds of a wallet after its scan events, whatever was told of
 other wallets in between: up to the numbering of deposits it depends on the
 events of that wallet alone.
*/
module SyncStore {
  import opened Domain
  import opened Sums
  import opened Text
  import opened Ledger
  import opened Runs
  import opened Accounts
  import opened Attribution
  import opened Cursors
  import opened Ingest
  import opened IngestSync
  import Confirmation

  // ----- what belongs to a wallet -----

  datatype View = View(deposits: map<DepKey, Deposit>, invoices: map<InvoiceId, Invoice>, cursor: int)

  function Unnumbered(d: Deposit): (r: Deposit) {
    d.(seqNo := 0)
  }

  function WalletDeposits(deposits: map<DepKey, Deposit>, wallet: string): (r: map<DepKey, Deposit>) {
    map k | k in deposits && k.wallet == wallet :: Unnumbered(deposits[k])
  }

  function WalletInvoices(invoices: map<InvoiceId, Invoice>, wallet: string): (r: map<InvoiceId, Invoice>) {
    map i | i in invoices && invoices[i].wallet == wallet :: invoices[i]
  }

  /** The deposits of a wallet without their numbers, its invoices and its cursor. */
  function ViewOf(s: State, wallet: string): (r: View) {
    View(WalletDeposits(s.deposits, wallet), WalletInvoices(s.invoices, wallet), CursorOf(s, wallet))
  }

  /** A deposit and its invoice have the same wallet. */
  predicate Home(k: DepKey, d: Deposit, invoices: map<InvoiceId, Invoice>) {
    d.invoice != 0 ==> d.invoice in invoices && invoices[d.invoice].wallet == k.wallet
  }

  ghost predicate AtHome(s: State) {
    && Indexed(s) && 0 !in s.invoices
    && forall k :: k in s.deposits ==> Home(k, s.deposits[k], s.invoices)
  }

  // ----- sums -----

  lemma SumsOfWallet(deposits: map<DepKey, Deposit>, i: InvoiceId, wallet: string)
    requires forall k :: k in deposits && deposits[k].invoice == i ==> k.wallet == wallet
    ensures PendingOf(deposits, i) == PendingOf(WalletDeposits(deposits, wallet), i)
    ensures ConfirmedOf(deposits, i) == ConfirmedOf(WalletDeposits(deposits, wallet), i)
  {
    var own := WalletDeposits(deposits, wallet);
    SumSupport(map k | k in deposits :: PendingShare(deposits[k], i), map k | k in own :: PendingShare(own[k], i));
    SumSupport(map k | k in deposits :: ConfirmedShare(deposits[k], i), map k | k in own :: ConfirmedShare(own[k], i));
  }

  // ----- one deposit event -----

  /** The event is about its own wallet. */
  predicate OwnEvent(ev: ScanEvent) {
    ev.payload.Some? ==> PayloadWallet(ev, ev.payload.value) == TrimSpace(ev.wallet)
  }

  lemma MatchIsHome(s: State, wallet: string, address: string, height: int)
    requires Indexed(s)
    ensures var i := MatchInvoice(s, wallet, address, height);
            i != 0 ==> i in s.invoices && s.invoices[i].wallet == wallet
  {
    MatchPays(s, wallet, address, height);
  }

  /** Matching depends on the invoices of the wallet alone. */
  lemma MatchByView(s: State, t: State, wallet: string, address: string, height: int)
    requires Indexed(s) && Indexed(t) && 0 !in s.invoices && 0 !in t.invoices
    requires WalletInvoices(s.invoices, wallet) == WalletInvoices(t.invoices, wallet)
    ensures MatchInvoice(s, wallet, address, height) == MatchInvoice(t, wallet, address, height)
  {
    MatchPays(s, wallet, address, height);
    MatchPays(t, wallet, address, height);
    hide MatchInvoice, Indexed;
    var i, j := MatchInvoice(s, wallet, address, height), MatchInvoice(t, wallet, address, height);
    if i != 0 {
      SameInvoice(s.invoices, t.invoices, wallet, i);
    }
    if j != 0 {
      SameInvoice(t.invoices, s.invoices, wallet, j);
    }
  }

  lemma SameInvoice(invoices: map<InvoiceId, Invoice>, invoices': map<InvoiceId, Invoice>, wallet: string, i: InvoiceId)
    requires WalletInvoices(invoices, wallet) == WalletInvoices(invoices', wallet) && i in invoices
            && invoices[i].wallet == wallet
    ensures i in invoices' && invoices'[i] == invoices[i]
  {
    assert WalletInvoices(invoices', wallet)[i] == invoices[i];
  }

  lemma SameDeposit(deposits: map<DepKey, Deposit>, deposits': map<DepKey, Deposit>, k: DepKey)
    requires WalletDeposits(deposits, k.wallet) == WalletDeposits(deposits', k.wallet)
    ensures k in deposits <==> k in deposits'
    ensures k in deposits ==> Unnumbered(deposits[k]) == Unnumbered(deposits'[k])
  {
    assert k in deposits <==> k in WalletDeposits(deposits, k.wallet);
    assert k in deposits' <==> k in WalletDeposits(deposits', k.wallet);
  }

  lemma RowByView(s: State, t: State, ev: ScanEvent, p: Payload, now: Time)
    requires AtHome(s) && AtHome(t)
    requires var w := PayloadWallet(ev, p);
             WalletDeposits(s.deposits, w) == WalletDeposits(t.deposits, w)
                 && WalletInvoices(s.invoices, w) == WalletInvoices(t.invoices, w)
    ensures Unnumbered(DepositAfter(s, ev, p, now)) == Unnumbered(DepositAfter(t, ev, p, now))
  {
    var w := PayloadWallet(ev, p);
    MatchByView(s, t, w, ToLower(TrimSpace(p.address)), p.height);
    SameDeposit(s.deposits, t.deposits, PayloadKey(ev, p));
    hide MatchInvoice, AtHome, WalletDeposits, WalletInvoices;
  }

  lemma RowIsHome(s: State, ev: ScanEvent, p: Payload, now: Time)
    requires AtHome(s)
    ensures Home(PayloadKey(ev, p), DepositAfter(s, ev, p, now), s.invoices)
  {
    MatchIsHome(s, PayloadWallet(ev, p), ToLower(TrimSpace(p.address)), p.height);
    hide MatchInvoice, Indexed;
  }

  /** What a deposit event leaves of its wallet depends on the wallet alone. */
  lemma DepositByView(s: State, t: State, ev: ScanEvent, p: Payload, o: MerchantId, o': MerchantId, now: Time)
    requires AtHome(s) && AtHome(t)
    requires var w := PayloadWallet(ev, p);
             WalletDeposits(s.deposits, w) == WalletDeposits(t.deposits, w)
                 && WalletInvoices(s.invoices, w) == WalletInvoices(t.invoices, w)
    ensures var w, s', t' := PayloadWallet(ev, p), ApplyDeposit(s, ev, p, o, now), ApplyDeposit(t, ev, p, o', now);
            WalletDeposits(s'.deposits, w) == WalletDeposits(t'.deposits, w)
                && WalletInvoices(s'.invoices, w) == WalletInvoices(t'.invoices, w)
  {
    var w, key := PayloadWallet(ev, p), PayloadKey(ev, p);
    if Acceptable(p) {
      var d, d' := DepositAfter(s, ev, p, now), DepositAfter(t, ev, p, now);
      var deposits, deposits' := s.deposits[key := d], t.deposits[key := d'];
      RowByView(s, t, ev, p, now);
      RowIsHome(s, ev, p, now);
      RowIsHome(t, ev, p, now);
      PutView(s.deposits, t.deposits, key, d, d');
      if d.invoice != 0 {
        SameInvoice(s.invoices, t.invoices, w, d.invoice);
        SumsByView(s, t, key, d, d');
        PutInvoiceView(s.invoices, t.invoices, w, d.invoice,
            Refreshed(s.invoices[d.invoice], ReceivedOf(deposits, d.invoice), now));
      }
      hide DepositAfter, Refreshed, ReceivedOf, ApplyDeposit, AtHome, WalletDeposits, WalletInvoices, PayloadKey,
        PayloadWallet;
    }
  }

  lemma PutView(deposits: map<DepKey, Deposit>, deposits': map<DepKey, Deposit>, k: DepKey, d: Deposit, d': Deposit)
    requires WalletDeposits(deposits, k.wallet) == WalletDeposits(deposits', k.wallet)
            && Unnumbered(d) == Unnumbered(d')
    ensures WalletDeposits(deposits[k := d], k.wallet) == WalletDeposits(deposits'[k := d'], k.wallet)
  {
    assert WalletDeposits(deposits[k := d], k.wallet) == WalletDeposits(deposits, k.wallet)[k := Unnumbered(d)];
    assert WalletDeposits(deposits'[k := d'], k.wallet) == WalletDeposits(deposits', k.wallet)[k := Unnumbered(d')];
  }

  lemma PutInvoiceView(invoices: map<InvoiceId, Invoice>, invoices': map<InvoiceId, Invoice>, wallet: string,
                       i: InvoiceId, inv: Invoice)
    requires WalletInvoices(invoices, wallet) == WalletInvoices(invoices', wallet) && inv.wallet == wallet
    ensures WalletInvoices(invoices[i := inv], wallet) == WalletInvoices(invoices'[i := inv], wallet)
  {
    assert WalletInvoices(invoices[i := inv], wallet) == WalletInvoices(invoices, wallet)[i := inv];
    assert WalletInvoices(invoices'[i := inv], wallet) == WalletInvoices(invoices', wallet)[i := inv];
  }

  lemma SumsByView(s: State, t: State, k: DepKey, d: Deposit, d': Deposit)
    requires AtHome(s) && AtHome(t) && WalletDeposits(s.deposits, k.wallet) == WalletDeposits(t.deposits, k.wallet)
    requires Unnumbered(d) == Unnumbered(d') && d.invoice != 0
    requires Home(k, d, s.invoices) && Home(k, d', t.invoices)
    ensures ReceivedOf(s.deposits[k := d], d.invoice) == ReceivedOf(t.deposits[k := d'], d.invoice)
  {
    hide PendingOf, ConfirmedOf, Indexed, WalletDeposits;
    PutView(s.deposits, t.deposits, k, d, d');
    SumsOfWallet(s.deposits[k := d], d.invoice, k.wallet);
    SumsOfWallet(t.deposits[k := d'], d.invoice, k.wallet);
  }

  lemma PutElsewhere(deposits: map<DepKey, Deposit>, k: DepKey, d: Deposit, wallet: string)
    requires k.wallet != wallet
    ensures WalletDeposits(deposits[k := d], wallet) == WalletDeposits(deposits, wallet)
  {
  }

  lemma PutInvoiceElsewhere(invoices: map<InvoiceId, Invoice>, i: InvoiceId, inv: Invoice, wallet: string)
    requires i in invoices && invoices[i].wallet == inv.wallet != wallet
    ensures WalletInvoices(invoices[i := inv], wallet) == WalletInvoices(invoices, wallet)
  {
  }

  lemma RefreshedTerms(inv: Invoice, received: Received, now: Time)
    ensures SameTerms(inv, Refreshed(inv, received, now)) && Refreshed(inv, received, now).wallet == inv.wallet
  {
    hide ComputeStatus;
  }

  /** And it leaves the other wallets alone. */
  lemma DepositElsewhere(s: State, ev: ScanEvent, p: Payload, o: MerchantId, now: Time, wallet: string)
    requires AtHome(s) && PayloadWallet(ev, p) != wallet
    ensures var s' := ApplyDeposit(s, ev, p, o, now);
            WalletDeposits(s'.deposits, wallet) == WalletDeposits(s.deposits, wallet)
                && WalletInvoices(s'.invoices, wallet) == WalletInvoices(s.invoices, wallet)
  {
    var key, d := PayloadKey(ev, p), DepositAfter(s, ev, p, now);
    RowIsHome(s, ev, p, now);
    PutElsewhere(s.deposits, key, d, wallet);
    if d.invoice != 0 {
      var inv := Refreshed(s.invoices[d.invoice], ReceivedOf(s.deposits[key := d], d.invoice), now);
      RefreshedTerms(s.invoices[d.invoice], ReceivedOf(s.deposits[key := d], d.invoice), now);
      PutInvoiceElsewhere(s.invoices, d.invoice, inv, wallet);
    }
    hide ApplyDeposit, DepositAfter, Refreshed, ReceivedOf, AtHome, WalletDeposits, WalletInvoices, PayloadWallet;
  }

  lemma HomesStay(deposits: map<DepKey, Deposit>, k: DepKey, d: Deposit, invoices: map<InvoiceId, Invoice>,
                  invoices': map<InvoiceId, Invoice>)
    requires Home(k, d, invoices) && forall j :: j in deposits ==> Home(j, deposits[j], invoices)
    requires TermsKept(invoices, invoices')
    ensures var deposits' := deposits[k := d]; forall j :: j in deposits' ==> Home(j, deposits'[j], invoices')
  {
    forall i | i in invoices ensures i in invoices' && invoices'[i].wallet == invoices[i].wallet {
      assert SameTerms(invoices[i], invoices'[i]);
    }
    hide TermsKept;
  }

  lemma OneRefreshed(invoices: map<InvoiceId, Invoice>, i: InvoiceId, received: Received, now: Time)
    requires i in invoices
    ensures TermsKept(invoices, invoices[i := Refreshed(invoices[i], received, now)])
  {
    RefreshedTerms(invoices[i], received, now);
    hide Refreshed;
  }

  lemma DepositTerms(s: State, ev: ScanEvent, p: Payload, o: MerchantId, now: Time)
    requires Acceptable(p) && Home(PayloadKey(ev, p), DepositAfter(s, ev, p, now), s.invoices)
    ensures var s' := ApplyDeposit(s, ev, p, o, now);
            TermsKept(s.invoices, s'.invoices) && s'.invoices.Keys == s.invoices.Keys
  {
    var d, s' := DepositAfter(s, ev, p, now), ApplyDeposit(s, ev, p, o, now);
    SameTermsItself(s.invoices);
    if d.invoice != 0 {
      OneRefreshed(s.invoices, d.invoice, ReceivedOf(s'.deposits, d.invoice), now);
    }
    hide ApplyDeposit, DepositAfter, Refreshed, ReceivedOf, TermsKept, PayloadKey;
  }

  lemma SameTermsItself(invoices: map<InvoiceId, Invoice>)
    ensures TermsKept(invoices, invoices)
  {
  }

  lemma DepositKeepsHome(s: State, ev: ScanEvent, p: Payload, o: MerchantId, now: Time)
    requires AtHome(s)
    ensures AtHome(ApplyDeposit(s, ev, p, o, now))
  {
    hide ApplyDeposit, DepositAfter, ReceivedOf, Indexed, TermsKept, PayloadKey, Home;
    if Acceptable(p) {
      var s' := ApplyDeposit(s, ev, p, o, now);
      RowIsHome(s, ev, p, now);
      DepositTerms(s, ev, p, o, now);
      HomesStay(s.deposits, PayloadKey(ev, p), DepositAfter(s, ev, p, now), s.invoices, s'.invoices);
      SameTermsSameIndexes(s, s');
    }
  }

  // ----- scan events and other calls -----

  /** What an event leaves of its wallet depends on that wallet alone. */
  lemma EventByView(s: State, t: State, ev: ScanEvent, o: MerchantId, o': MerchantId, now: Time)
    requires AtHome(s) && AtHome(t) && OwnEvent(ev)
            && ViewOf(s, TrimSpace(ev.wallet)) == ViewOf(t, TrimSpace(ev.wallet))
    ensures ViewOf(ApplyScanEvent(s, ev, o, now), TrimSpace(ev.wallet))
            == ViewOf(ApplyScanEvent(t, ev, o', now), TrimSpace(ev.wallet))
  {
    hide AtHome, TrimSpace, WalletDeposits, WalletInvoices, ApplyDeposit, PayloadWallet;
    if ev.payload.Some? {
      DepositByView(s, t, ev, ev.payload.value, o, o', now);
    }
  }

  lemma EventElsewhere(s: State, ev: ScanEvent, o: MerchantId, now: Time, wallet: string)
    requires AtHome(s) && OwnEvent(ev) && TrimSpace(ev.wallet) != wallet
    ensures ViewOf(ApplyScanEvent(s, ev, o, now), wallet) == ViewOf(s, wallet)
  {
    hide AtHome, TrimSpace, WalletDeposits, WalletInvoices, ApplyDeposit, PayloadWallet;
    if ev.payload.Some? {
      DepositElsewhere(s, ev, ev.payload.value, o, now, wallet);
    }
  }

  lemma EventKeepsHome(s: State, ev: ScanEvent, o: MerchantId, now: Time)
    requires AtHome(s)
    ensures AtHome(ApplyScanEvent(s, ev, o, now))
  {
    hide Home, TrimSpace, ApplyDeposit, Indexes;
    if ev.payload.Some? {
      DepositKeepsHome(s, ev, ev.payload.value, o, now);
    }
  }

  lemma MinorIsNothing(s: State, a: Action, wallet: string)
    requires Minor(a)
    ensures ViewOf(Step(s, a), wallet) == ViewOf(s, wallet)
    ensures AtHome(s) ==> AtHome(Step(s, a))
  {
    hide Step, Home, Indexes;
    MinorFrame(s, a);
  }

  // ----- runs -----

  /**
   Events of their own wallets, each read at its own time, and other calls that touch
   neither invoices nor deposits.
  */
  ghost predicate Telling(acts: seq<Action>, now: ScanEvent -> Time) {
    forall n :: 0 <= n < |acts| ==>
        Minor(acts[n]) || (acts[n].DoScan? && OwnEvent(acts[n].ev) && acts[n].now == now(acts[n].ev))
  }

  lemma {:induction false} TellingKeepsHome(s: State, acts: seq<Action>, now: ScanEvent -> Time)
    requires AtHome(s) && Telling(acts, now)
    ensures AtHome(RunFrom(s, acts))
  {
    hide AtHome, Step;
    if acts != [] {
      var before, a := acts[..|acts| - 1], acts[|acts| - 1];
      TellingKeepsHome(s, before, now);
      StepKeepsHome(RunFrom(s, before), a);
    }
  }

  lemma StepKeepsHome(s: State, a: Action)
    requires AtHome(s) && (Minor(a) || a.DoScan?)
    ensures AtHome(Step(s, a))
  {
    hide AtHome;
    if Minor(a) {
      hide Step;
      MinorIsNothing(s, a, "");
    } else {
      EventKeepsHome(s, a.ev, a.owner, a.now);
    }
  }

  /** A wallet is as if its own events alone had been told. */
  lemma {:induction false} ViewIsOwnEvents(s: State, acts: seq<Action>, wallet: string,
                                           owner: ScanEvent -> MerchantId, now: ScanEvent -> Time)
    requires AtHome(s) && Telling(acts, now)
    ensures AtHome(RunFrom(s, Stamped(EventsOf(acts, wallet), owner, now)))
    ensures ViewOf(RunFrom(s, acts), wallet) == ViewOf(RunFrom(s, Stamped(EventsOf(acts, wallet), owner, now)), wallet)
  {
    hide AtHome, Step, ViewOf, OwnEvent, TrimSpace;
    if acts != [] {
      var before, a := acts[..|acts| - 1], acts[|acts| - 1];
      ViewIsOwnEvents(s, before, wallet, owner, now);
      TellingKeepsHome(s, before, now);
      var told := Stamped(EventsOf(before, wallet), owner, now);
      if a.DoScan? && TrimSpace(a.ev.wallet) == wallet {
        assert Stamped(EventsOf(acts, wallet), owner, now) == told + [DoScan(a.ev, owner(a.ev), now(a.ev))];
        RunFromOneMore(s, told, DoScan(a.ev, owner(a.ev), now(a.ev)));
        EventInBoth(RunFrom(s, before), RunFrom(s, told), a.ev, a.owner, owner(a.ev), a.now);
      } else {
        assert EventsOf(acts, wallet) == EventsOf(before, wallet);
        NotThisWallet(RunFrom(s, before), a, wallet);
      }
    }
  }

  lemma EventInBoth(s: State, t: State, ev: ScanEvent, o: MerchantId, o': MerchantId, now: Time)
    requires AtHome(s) && AtHome(t) && OwnEvent(ev)
            && ViewOf(s, TrimSpace(ev.wallet)) == ViewOf(t, TrimSpace(ev.wallet))
    ensures ViewOf(Step(s, DoScan(ev, o, now)), TrimSpace(ev.wallet))
            == ViewOf(Step(t, DoScan(ev, o', now)), TrimSpace(ev.wallet))
    ensures AtHome(Step(t, DoScan(ev, o', now)))
  {
    hide AtHome, ViewOf, ApplyScanEvent, TrimSpace, OwnEvent;
    EventByView(s, t, ev, o, o', now);
    EventKeepsHome(t, ev, o', now);
  }

  lemma NotThisWallet(s: State, a: Action, wallet: string)
    requires AtHome(s) && (Minor(a) || (a.DoScan? && OwnEvent(a.ev) && TrimSpace(a.ev.wallet) != wallet))
    ensures ViewOf(Step(s, a), wallet) == ViewOf(s, wallet)
  {
    hide AtHome, ViewOf, ApplyScanEvent, TrimSpace, OwnEvent;
    if Minor(a) {
      hide Step;
      MinorIsNothing(s, a, wallet);
    } else {
      EventElsewhere(s, a.ev, a.owner, a.now, wallet);
    }
  }

  function Unnumbering(deposits: map<DepKey, Deposit>): (r: map<DepKey, Deposit>) {
    map k | k in deposits :: Unnumbered(deposits[k])
  }

  /** The same deposits but for their numbers, the same invoices and the same cursors. */
  ghost predicate SameButNumbers(s: State, t: State) {
    && Unnumbering(s.deposits) == Unnumbering(t.deposits) && s.invoices == t.invoices
    && forall w :: CursorOf(s, w) == CursorOf(t, w)
  }

  lemma SameViewsSameStore(s: State, t: State)
    requires forall w :: ViewOf(s, w) == ViewOf(t, w)
    ensures SameButNumbers(s, t)
  {
    forall k ensures k in s.deposits <==> k in t.deposits
             ensures k in s.deposits ==> Unnumbered(s.deposits[k]) == Unnumbered(t.deposits[k]) {
      assert ViewOf(s, k.wallet) == ViewOf(t, k.wallet);
      SameDeposit(s.deposits, t.deposits, k);
    }
    forall i | i in s.invoices ensures i in t.invoices && t.invoices[i] == s.invoices[i] {
      assert ViewOf(s, s.invoices[i].wallet) == ViewOf(t, s.invoices[i].wallet);
      SameInvoice(s.invoices, t.invoices, s.invoices[i].wallet, i);
    }
    forall i | i in t.invoices ensures i in s.invoices {
      assert ViewOf(s, t.invoices[i].wallet) == ViewOf(t, t.invoices[i].wallet);
      SameInvoice(t.invoices, s.invoices, t.invoices[i].wallet, i);
    }
    forall w ensures CursorOf(s, w) == CursorOf(t, w) {
      assert ViewOf(s, w) == ViewOf(t, w);
    }
  }

  /**
   Stores that were told the same of every wallet are the same but for the numbers of
   deposits, however the wallets took turns.
  */
  lemma SameEventsSameStore(s: State, acts: seq<Action>, acts': seq<Action>, now: ScanEvent -> Time)
    requires AtHome(s) && Telling(acts, now) && Telling(acts', now)
    requires forall w :: EventsOf(acts, w) == EventsOf(acts', w)
    ensures SameButNumbers(RunFrom(s, acts), RunFrom(s, acts'))
  {
    hide AtHome, RunFrom, ViewOf, EventsOf, Telling, Stamped, SameButNumbers;
    var nobody := (ev: ScanEvent) => 0;
    forall w ensures ViewOf(RunFrom(s, acts), w) == ViewOf(RunFrom(s, acts'), w) {
      ViewIsOwnEvents(s, acts, w, nobody, now);
      ViewIsOwnEvents(s, acts', w, nobody, now);
      assert EventsOf(acts, w) == EventsOf(acts', w);
    }
    SameViewsSameStore(RunFrom(s, acts), RunFrom(s, acts'));
  }

  // ----- many passes -----

  lemma {:induction false} ReadableHaveWallets(acts: seq<Action>)
    requires OnlyReadable(acts)
    ensures EventsOf(acts, "") == []
  {
    hide TrimSpace;
    if acts != [] {
      ReadableHaveWallets(acts[..|acts| - 1]);
    }
  }

  /**
   However the passes were cut and the wallets took turns, the store is the one after a
   whole pass, but for the numbers of deposits.
  */
  lemma InterruptedStoreLikeWhole(s: State, syncs: seq<SyncPass>, whole: SyncPass, now: ScanEvent -> Time)
    requires AtHome(s) && Telling(SyncCalls(syncs), now) && Telling(SyncCalls([whole]), now)
    requires Syncs(s, syncs) && syncs != [] && Syncs(s, [whole]) && whole.feed == syncs[|syncs| - 1].feed
    requires forall w :: w != "" && w in whole.feed ==> LastCompletes(s, syncs, w) && LastCompletes(s, [whole], w)
    ensures SameButNumbers(RunFrom(s, SyncCalls(syncs)), RunFrom(s, SyncCalls([whole])))
  {
    hide AtHome, RunFrom, EventsOf, Telling, SameButNumbers, LastCompletes, Syncs, SyncCalls, CursorOf, OnlyReadable;
    SyncsReadable(s, syncs);
    SyncsReadable(s, [whole]);
    forall w ensures EventsOf(SyncCalls(syncs), w) == EventsOf(SyncCalls([whole]), w) {
      if w == "" {
        ReadableHaveWallets(SyncCalls(syncs));
        ReadableHaveWallets(SyncCalls([whole]));
      } else {
        if w !in whole.feed {
          NoLogIsComplete(s, syncs, w);
          NoLogIsComplete(s, [whole], w);
        }
        InterruptedLikeWhole(s, syncs, whole, w);
      }
    }
    SameEventsSameStore(s, SyncCalls(syncs), SyncCalls([whole]), now);
  }

  /** There is nothing to tell of a wallet without a log. */
  lemma NoLogIsComplete(s: State, syncs: seq<SyncPass>, wallet: string)
    requires Syncs(s, syncs) && syncs != [] && wallet != "" && wallet !in syncs[|syncs| - 1].feed
    ensures LastCompletes(s, syncs, wallet)
  {
    hide RunFrom, CursorOf, EventsOf, SyncCalls, Readable, FeedOrdered, LegalFrom;
    assert SyncedFrom(RunFrom(s, SyncCalls(syncs[..|syncs| - 1])), syncs[|syncs| - 1]);
  }

  lemma SyncsReadable(s: State, syncs: seq<SyncPass>)
    requires Syncs(s, syncs)
    ensures OnlyReadable(SyncCalls(syncs))
  {
    hide RunFrom, Readable, Passes, OnlyReadable, Syncs;
    SyncsArePasses(s, syncs, "w");
    SameCalls(syncs, "w");
    AllReadable(s, PassesOf(syncs, "w"), "w");
  }

  lemma AllReadable(s: State, passes: seq<Pass>, wallet: string)
    requires Passes(s, passes, wallet)
    ensures OnlyReadable(CallsOf(passes))
  {
    hide OnlyReadable, RunFrom, CursorOf, After, EventsOf;
    CallsReadable(passes);
  }

  // ----- where this starts -----

  lemma {:induction false} AlwaysAtHome(acts: seq<Action>)
    requires Legal(acts)
    ensures AtHome(Run(acts))
  {
    hide AtHome, Step, Enabled;
    if acts == [] {
      NothingAtHome();
    } else {
      LegalPrefix(acts);
      AlwaysAtHome(acts[..|acts| - 1]);
      LedgerAgreement(acts);
      LedgerAgreement(acts[..|acts| - 1]);
      IndexesAreSearches(acts);
      AnyStepKeepsHome(Run(acts[..|acts| - 1]), acts[|acts| - 1]);
    }
  }

  lemma NothingAtHome()
    ensures AtHome(EMPTY)
  {
  }

  lemma AnyStepKeepsHome(s: State, a: Action)
    requires AtHome(s) && Agrees(s) && Enabled(s, a) && Agrees(Step(s, a)) && Indexed(Step(s, a))
    ensures AtHome(Step(s, a))
  {
    hide Indexed, AtHome, AgreesExcept;
    if Minor(a) || a.DoScan? {
      hide Step, Agrees, Enabled;
      StepKeepsHome(s, a);
    } else {
      TermsStep(s, a);
      SameInvoicesOfDeposits(s, a);
      hide Step, Enabled, TermsKept;
      HomesKept(s, Step(s, a));
    }
  }

  lemma SameInvoicesOfDeposits(s: State, a: Action)
    requires Enabled(s, a) && (a.DoConfirm? || a.DoCreateInvoice?)
    ensures forall k :: k in Step(s, a).deposits ==>
            k in s.deposits && Step(s, a).deposits[k].invoice == s.deposits[k].invoice
  {
    if a.DoConfirm? {
      hide ConfirmPass;
      Confirmation.PassIsOneUpdate(s, a.best, a.now, a.order, a.invOrder);
    } else {
      hide CreateInvoice;
    }
  }

  lemma HomesKept(s: State, s': State)
    requires AtHome(s) && TermsKept(s.invoices, s'.invoices) && Indexed(s') && Agrees(s')
    requires forall k :: k in s'.deposits ==> k in s.deposits && s'.deposits[k].invoice == s.deposits[k].invoice
    ensures AtHome(s')
  {
    hide Indexed, Exact;
    forall k | k in s'.deposits ensures Home(k, s'.deposits[k], s'.invoices) {
      assert Home(k, s.deposits[k], s.invoices);
      var i := s.deposits[k].invoice;
      assert i != 0 ==> SameTerms(s.invoices[i], s'.invoices[i]);
    }
  }
}
