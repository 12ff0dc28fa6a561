/**
 Creating invoices through the API: a sequence of store calls that may be
 interleaved with others. A retry gives the first invoice back, and a new
 order never meets an address that is taken.
*/
module InvoiceApi {
  import opened Domain
  import opened Text
  import opened Ledger
  import opened Runs
  import opened Accounts
  import opened Attribution
  import opened Wallets
  import Frames

  // ----- the handler -----

  /** What the handler gets from outside the store: derived addresses, the chain tip, the clock and fresh tokens. */
  datatype Outside = Outside(
    derive: (string, string, nat) -> Option<string>,
    tip: Option<(int, string)>,
    clock: Time,
    token: Option<string>)

  datatype Failure =
    Unauthorized | BadRequest | WalletNotSet | ConflictFailure | NotFoundFailure | InternalFailure

  datatype Response = Answer(id: InvoiceId, invoice: Invoice, token: string, isNew: bool) | Refused(failure: Failure)

  /** Time to live in nanoseconds, multiplied in 64 bits. */
  function Ttl(settings: Settings): (r: int) {
    Wrap64(settings.ttlSeconds * 1_000_000_000)
  }

  function ExpiryFrom(settings: Settings, clock: Time): (r: Option<Time>) {
    if Ttl(settings) > 0 then Some(clock + Ttl(settings)) else None
  }

  function FailureOf(error: Error): (r: Failure) {
    match error
    case Conflict => ConflictFailure
    case NotFound => NotFoundFailure
    case InvalidArgument => BadRequest
    case _ => InternalFailure
  }

  /** The request to the store for an order, once an address has been derived. */
  function RequestFor(s: State, m: MerchantId, order: string, amount: int, index: nat, address: string,
                      tip: (int, string), clock: Time)
    : (r: InvoiceCreate)
    requires m in s.merchants && m in s.wallets
  {
    var settings := s.merchants[m].settings;
    InvoiceCreate(m, TrimSpace(order), s.wallets[m].walletId, index, address, tip.0, tip.1, amount,
                  settings.requiredConfirmations, settings.policies, ExpiryFrom(settings, clock))
  }

  /** The answer for an invoice that was there already: its token is read from the store as it is by then. */
  function Reread(s: State, c: Created): (r: Response) {
    if c.id in s.tokens then Answer(c.id, c.invoice, s.tokens[c.id], false) else Refused(InternalFailure)
  }

  /** The last part of the handler: a new invoice gets a token, an old one has one. */
  function Tokened(s: State, created: Result<Created>, out: Outside): (r: (State, Response)) {
    if created.Err? then (s, Refused(FailureOf(created.error)))
    else
      var c := created.value;
      if c.isNew then
        if out.token.None? then (s, Refused(InternalFailure))
        else
          var r := PutInvoiceToken(s, c.id, out.token.value);
          if r.1.Err? then (r.0, Refused(InternalFailure)) else (r.0, Answer(c.id, c.invoice, out.token.value, true))
      else (s, Reread(s, c))
  }

  /** The handler for an authenticated merchant. An index is used up even when nothing comes of it. */
  function HandleCreate(s: State, m: MerchantId, order: string, amount: int, out: Outside,
                        now: Time): (r: (State, Response)) {
    if TrimSpace(order) == "" || amount <= 0 then (s, Refused(BadRequest))
    else if m !in s.merchants then (s, Refused(Unauthorized))
    else if !s.merchants[m].settings.Validate() then (s, Refused(InternalFailure))
    else if m !in s.wallets then (s, Refused(WalletNotSet))
    else
      var next := NextAddressIndex(s, m);
      if next.1.Err? then (next.0, Refused(if next.1.error == NotFound then WalletNotSet else InternalFailure))
      else
        var w := s.wallets[m];
        var address := out.derive(w.ufvk, w.uaHrp, next.1.value);
        if address.None? || out.tip.None? then (next.0, Refused(InternalFailure))
        else
          var req := RequestFor(s, m, order, amount, next.1.value, address.value, out.tip.value, out.clock);
          var created := CreateInvoice(next.0, req, now);
          Tokened(created.0, created.1, out)
  }

  // ----- what stays -----

  /** Settings in the store have been validated, and zero is no merchant. */
  predicate SettingsSound(s: State) {
    && 0 !in s.merchants
    && forall m :: m in s.merchants ==>
         var settings := s.merchants[m].settings; settings.ttlSeconds >= 0 && settings.requiredConfirmations >= 0
  }

  /** Merchants and wallets are never removed, and wallets never change. */
  ghost predicate MerchantsKept(s: State, s': State) {
    && s.merchants.Keys <= s'.merchants.Keys
    && (forall m :: m in s.wallets ==> m in s'.wallets && s'.wallets[m] == s.wallets[m])
  }

  lemma StepKeepsMerchants(s: State, a: Action)
    requires SettingsSound(s)
    ensures SettingsSound(Step(s, a)) && MerchantsKept(s, Step(s, a))
  {
    if a.DoCreateMerchant? {
      hide CreateMerchant, SettingsSound;
      NewMerchantKept(s, a.name, a.settings, a.now);
    } else if a.DoUpdateSettings? {
      hide UpdateMerchantSettings, SettingsSound;
      NewSettingsKept(s, a.m, a.settings, a.now);
    } else if a.DoSetWallet? {
      hide SetMerchantWallet, SettingsSound;
      NewWalletKept(s, a.m, a.w, a.now);
    } else {
      hide Step;
      Frames.StepUntouched(s, a);
    }
  }

  lemma NewMerchantKept(s: State, name: string, settings: Settings, now: Time)
    requires SettingsSound(s)
    ensures var s' := CreateMerchant(s, name, settings, now).0; SettingsSound(s') && MerchantsKept(s, s')
  {
    hide TrimSpace;
  }

  lemma NewWalletKept(s: State, m: MerchantId, w: Wallet, now: Time)
    requires SettingsSound(s)
    ensures var s' := SetMerchantWallet(s, m, w, now).0; SettingsSound(s') && MerchantsKept(s, s')
  {
    hide NormalWallet;
  }

  lemma NewSettingsKept(s: State, m: MerchantId, settings: Settings, now: Time)
    requires SettingsSound(s)
    ensures var s' := UpdateMerchantSettings(s, m, settings, now).0; SettingsSound(s') && MerchantsKept(s, s')
  {
    if settings.Validate() && m in s.merchants {
      var updated := s.merchants[m].(settings := settings, updatedAt := now);
      assert UpdateMerchantSettings(s, m, settings, now).0.merchants == s.merchants[m := updated];
    }
  }

  /** From any moment of a run on, merchants and wallets stay. */
  lemma {:induction false} WalletsStay(acts: seq<Action>, j: nat)
    requires j <= |acts|
    ensures SettingsSound(Run(acts))
    ensures MerchantsKept(Run(acts[..j]), Run(acts))
    decreases |acts|
  {
    hide Step, SettingsSound, Agrees, Indexed, WalletsTidy;
    if acts == [] {
      NothingUnsound();
      assert acts[..j] == acts;
    } else {
      var before := acts[..|acts| - 1];
      if j == |acts| {
        WalletsStay(before, 0);
        assert acts[..j] == acts;
      } else {
        WalletsStay(before, j);
        assert before[..j] == acts[..j];
      }
      StepKeepsMerchants(Run(before), acts[|acts| - 1]);
    }
  }

  /** The calls put no token on this invoice. */
  predicate NoTokenFor(acts: seq<Action>, i: InvoiceId) {
    forall n :: 0 <= n < |acts| && acts[n].DoPutToken? ==> acts[n].inv != i
  }

  lemma StepKeepsToken(s: State, a: Action, i: InvoiceId)
    requires !(a.DoPutToken? && a.inv == i)
    ensures var s' := Step(s, a); (i in s'.tokens <==> i in s.tokens) && (i in s.tokens ==> s'.tokens[i] == s.tokens[i])
  {
    if a.DoPutToken? {
      hide TrimSpace;
    } else {
      hide Step;
      Frames.StepUntouched(s, a);
    }
  }

  /** What the idempotency of creation rests on. */
  ghost predicate ApiSound(s: State) {
    Agrees(s) && Indexed(s) && SettingsSound(s) && WalletsTidy(s)
  }

  lemma StepKeepsSound(s: State, a: Action)
    requires ApiSound(s) && Enabled(s, a)
    ensures ApiSound(Step(s, a)) && MerchantsKept(s, Step(s, a))
  {
    hide Step, Enabled, Agrees, Indexed, SettingsSound, MerchantsKept, WalletsTidy;
    StepKeepsAgreement(s, a);
    StepKeepsIndexes(s, a);
    StepKeepsMerchants(s, a);
    StepKeepsTidy(s, a);
  }

  /** Every reachable store is sound in this sense. */
  lemma {:induction false} AlwaysSound(acts: seq<Action>)
    requires Legal(acts)
    ensures ApiSound(Run(acts))
  {
    hide Step, Enabled, ApiSound;
    if acts == [] {
      NothingUnsound();
    } else {
      LegalPrefix(acts);
      AlwaysSound(acts[..|acts| - 1]);
      StepKeepsSound(Run(acts[..|acts| - 1]), acts[|acts| - 1]);
    }
  }

  lemma NothingUnsound()
    ensures ApiSound(EMPTY)
  {
  }

  /** An invoice with its terms, wherever the calls lead. */
  ghost predicate Keeps(s: State, s': State, i: InvoiceId) {
    && i in s.invoices && i in s'.invoices && SameTerms(s.invoices[i], s'.invoices[i])
    && (i in s'.tokens <==> i in s.tokens) && (i in s.tokens ==> s'.tokens[i] == s.tokens[i])
    && MerchantsKept(s, s')
  }

  lemma StepKeeps(s: State, a: Action, i: InvoiceId)
    requires ApiSound(s) && Enabled(s, a) && i in s.invoices && !(a.DoPutToken? && a.inv == i)
    ensures ApiSound(Step(s, a)) && Keeps(s, Step(s, a), i)
  {
    hide Step, Enabled, Agrees, Indexed, SettingsSound, WalletsTidy, MerchantsKept, SameTerms;
    StepKeepsSound(s, a);
    TermsStep(s, a);
    StepKeepsToken(s, a, i);
  }

  lemma {:induction false} RunKeeps(s: State, acts: seq<Action>, i: InvoiceId)
    requires ApiSound(s) && LegalFrom(s, acts) && i in s.invoices && NoTokenFor(acts, i)
    ensures ApiSound(RunFrom(s, acts)) && Keeps(s, RunFrom(s, acts), i)
  {
    hide Step, Enabled, ApiSound;
    if acts != [] {
      var before := acts[..|acts| - 1];
      assert forall n :: 0 <= n < |before| ==> before[..n] == acts[..n] && before[n] == acts[n];
      RunKeeps(s, before, i);
      hide LegalFrom;
      StepKeeps(RunFrom(s, before), acts[|acts| - 1], i);
    }
  }

  // ----- retries -----

  /**
   What a retry needs from outside: the derivation and the tip must work again, or the
   handler fails before it looks.
  */
  predicate Works(s: State, m: MerchantId, out: Outside)
    requires m in s.wallets
  {
    && out.tip.Some?
    && var next := NextAddressIndex(s, m).1;
       next.Ok? ==>
         var address := out.derive(s.wallets[m].ufvk, s.wallets[m].uaHrp, next.value);
         address.Some? && ToLower(TrimSpace(address.value)) != ""
  }

  /**
   An order that is known is answered with its invoice and token exactly when the amount
   is the same and the token was stored.
  */
  lemma KnownOrder(s: State, m: MerchantId, order: string, amount: int, out: Outside, now: Time, i: InvoiceId)
    requires ApiSound(s) && i in s.invoices && OrderKey(s.invoices[i]) == (m, TrimSpace(order))
            && TrimSpace(order) != ""
    requires m in s.merchants && m in s.wallets && amount > 0
    requires Works(s, m, out)
    ensures var r := HandleCreate(s, m, order, amount, out, now);
            && r.0 == NextAddressIndex(s, m).0
            && r.1 == if s.invoices[i].amount != amount then Refused(ConflictFailure)
                      else if i in s.tokens then Answer(i, s.invoices[i], s.tokens[i], false)
                      else Refused(InternalFailure)
  {
    hide Agrees, InsertInvoice, ExpiryFrom, TrimSpace;
    TrimTwice(order);
    LookupIsSearch(s.byExternal, s.invoices, OrderKey, (m, TrimSpace(order)));
    hide Indexed, Indexes;
  }

  /** Requests that never get to an order. */
  lemma RefusedEarly(s: State, m: MerchantId, order: string, amount: int, out: Outside, now: Time)
    requires ApiSound(s)
    ensures var r := HandleCreate(s, m, order, amount, out, now).1;
            if TrimSpace(order) == "" || amount <= 0 then r == Refused(BadRequest)
            else if m !in s.merchants then r == Refused(Unauthorized)
            else if m !in s.wallets then r == Refused(WalletNotSet)
            else (out.tip.None? ==> r == Refused(InternalFailure))
  {
    hide Agrees, Indexed, TrimSpace, RequestFor, CreateInvoice, Tokened, ExpiryFrom;
  }

  /**
   An order that is not known is answered with a new invoice exactly when its address is
   free and there is a token for it.
  */
  lemma UnknownOrder(s: State, m: MerchantId, order: string, amount: int, out: Outside, now: Time)
    requires ApiSound(s) && (m, TrimSpace(order)) !in s.byExternal && TrimSpace(order) != "" && amount > 0
    requires m in s.merchants && m in s.wallets && Works(s, m, out)
    ensures var r, index := HandleCreate(s, m, order, amount, out, now).1, if m in s.nextIndex then s.nextIndex[m]
            else 0;
            var derived := out.derive(s.wallets[m].ufvk, s.wallets[m].uaHrp, index);
            && derived.Some?
            && if (s.wallets[m].walletId, ToLower(TrimSpace(derived.value))) in s.byAddress then r
                == Refused(ConflictFailure)
               else if out.token.None? || TrimSpace(out.token.value) == "" then r == Refused(InternalFailure)
               else r.Answer? && r.isNew
  {
    hide Agrees, Indexed, Works, TrimSpace, ToLower, RequestFor, CreateInvoice, Tokened;
    WorkingIndex(s, m, out);
    var index := if m in s.nextIndex then s.nextIndex[m] else 0;
    var address := out.derive(s.wallets[m].ufvk, s.wallets[m].uaHrp, index).value;
    var req := RequestFor(s, m, order, amount, index, address, out.tip.value, out.clock);
    var s1 := NextAddressIndex(s, m).0;
    hide NextAddressIndex;
    UnknownToStore(s1, m, order, amount, out, now, req, address);
    assert TidyWallet(s.wallets[m]);
  }

  lemma WorkingIndex(s: State, m: MerchantId, out: Outside)
    requires ApiSound(s) && m in s.merchants && m in s.wallets && Works(s, m, out)
    ensures var next, index := NextAddressIndex(s, m), if m in s.nextIndex then s.nextIndex[m] else 0;
            && next.1 == Ok(index) && out.tip.Some?
            && out.derive(s.wallets[m].ufvk, s.wallets[m].uaHrp, index).Some?
            && ToLower(TrimSpace(out.derive(s.wallets[m].ufvk, s.wallets[m].uaHrp, index).value)) != ""
    ensures s.merchants[m].settings.Validate()
  {
    hide Agrees, Indexed, TrimSpace, ToLower;
  }

  lemma UnknownToStore(s: State, m: MerchantId, order: string, amount: int, out: Outside, now: Time,
                       req: InvoiceCreate, address: string)
    requires (m, TrimSpace(order)) !in s.byExternal && TrimSpace(order) != "" && amount > 0 && m in s.merchants
            && m != 0
    requires m in s.wallets && TidyWallet(s.wallets[m]) && out.tip.Some? && ToLower(TrimSpace(address)) != ""
    requires exists s0: State, index: nat ::
               && m in s0.merchants && m in s0.wallets && s0.wallets[m] == s.wallets[m]
               && req == RequestFor(s0, m, order, amount, index, address, out.tip.value, out.clock)
    ensures var created := CreateInvoice(s, req, now);
            var r := Tokened(created.0, created.1, out).1;
            if (s.wallets[m].walletId, ToLower(TrimSpace(address))) in s.byAddress then r == Refused(ConflictFailure)
            else if out.token.None? || TrimSpace(out.token.value) == "" then r == Refused(InternalFailure)
            else r.Answer? && r.isNew
  {
    hide TrimSpace, ToLower, ExpiryFrom, AppendEvent;
    TrimTwice(order);
  }

  lemma TrimTwice(order: string)
    ensures TrimSpace(TrimSpace(order)) == TrimSpace(order)
  {
    TrimTidies(order);
  }

  // ----- the handler as calls on the store -----

  /** The index, address and request of a handler that gets as far as the store's creation, if it does. */
  function Creation(s: State, m: MerchantId, order: string, amount: int, out: Outside): (r: Option<InvoiceCreate>) {
    if TrimSpace(order) == "" || amount <= 0 || m !in s.merchants || !s.merchants[m].settings.Validate()
        || m !in s.wallets then None
    else
      var next := NextAddressIndex(s, m).1;
      if next.Err? then None else
      var address := out.derive(s.wallets[m].ufvk, s.wallets[m].uaHrp, next.value);
      if address.None? || out.tip.None? then None
      else Some(RequestFor(s, m, order, amount, next.value, address.value, out.tip.value, out.clock))
  }

  /** A handler that answers has made a creation call after taking an index, and for a new invoice a token call. */
  lemma HandlerIsCalls(s: State, m: MerchantId, order: string, amount: int, out: Outside, now: Time)
    requires HandleCreate(s, m, order, amount, out, now).1.Answer?
    ensures Creation(s, m, order, amount, out).Some?
    ensures var (s', r) := HandleCreate(s, m, order, amount, out, now);
            var req := Creation(s, m, order, amount, out).value;
            var created := Step(Step(s, DoNextIndex(m)), DoCreateInvoice(req, now));
            && (r.isNew ==> s' == Step(created, DoPutToken(r.id, r.token)))
            && (!r.isNew ==> s' == created)
  {
    hide TrimSpace, CreateInvoice, RequestFor, Tokened, PutInvoiceToken, NextAddressIndex;
    var next := NextAddressIndex(s, m);
    var created := CreateInvoice(next.0, Creation(s, m, order, amount, out).value, now);
    TokenedIsCall(created.0, created.1, out);
  }

  lemma TokenedIsCall(s: State, created: Result<Created>, out: Outside)
    requires Tokened(s, created, out).1.Answer?
    ensures var (s', r) := Tokened(s, created, out);
            if r.isNew then s' == PutInvoiceToken(s, r.id, r.token).0 else s' == s
  {
    hide PutInvoiceToken;
  }

  lemma CreatedIsStored(s: State, req: InvoiceCreate, now: Time)
    requires CreateInvoice(s, req, now).1.Ok?
    ensures var (s', r) := CreateInvoice(s, req, now);
            r.value.id in s'.invoices && s'.invoices[r.value.id] == r.value.invoice
  {
    hide InsertInvoice, TrimSpace, ToLower;
  }

  lemma PutTokenStores(s: State, inv: InvoiceId, token: string)
    requires PutInvoiceToken(s, inv, token).1.Ok?
    ensures PutInvoiceToken(s, inv, token).0 == s.(tokens := s.tokens[inv := TrimSpace(token)])
  {
    hide TrimSpace;
  }

  lemma TokenIsStored(s: State, created: Result<Created>, out: Outside)
    requires Tokened(s, created, out).1.Answer?
    ensures created.Ok?
    ensures var (s', r) := Tokened(s, created, out);
            && s'.invoices == s.invoices && r.id == created.value.id && r.invoice == created.value.invoice
            && r.id in s'.tokens && s'.tokens[r.id] == (if r.isNew then TrimSpace(r.token) else r.token)
  {
    hide TrimSpace, PutInvoiceToken;
    if created.value.isNew {
      PutTokenStores(s, created.value.id, out.token.value);
    }
  }

  /** What the store holds after an answer. */
  lemma AnswerIsStored(s: State, m: MerchantId, order: string, amount: int, out: Outside, now: Time)
    requires HandleCreate(s, m, order, amount, out, now).1.Answer?
    ensures var (s', r) := HandleCreate(s, m, order, amount, out, now);
            && r.id in s'.invoices && s'.invoices[r.id] == r.invoice
            && r.id in s'.tokens && s'.tokens[r.id] == (if r.isNew then TrimSpace(r.token) else r.token)
  {
    hide TrimSpace, RequestFor, NextAddressIndex, CreateInvoice, Tokened;
    var next := NextAddressIndex(s, m);
    var address := out.derive(s.wallets[m].ufvk, s.wallets[m].uaHrp, next.1.value);
    var req := RequestFor(s, m, order, amount, next.1.value, address.value, out.tip.value, out.clock);
    var created := CreateInvoice(next.0, req, now);
    TokenIsStored(created.0, created.1, out);
    CreatedIsStored(next.0, req, now);
  }

  lemma HandlerSound(s: State, m: MerchantId, order: string, amount: int, out: Outside, now: Time)
    requires ApiSound(s) && HandleCreate(s, m, order, amount, out, now).1.Answer?
    ensures ApiSound(HandleCreate(s, m, order, amount, out, now).0)
    ensures MerchantsKept(s, HandleCreate(s, m, order, amount, out, now).0)
  {
    hide HandleCreate, Creation, ApiSound, Step;
    HandlerIsCalls(s, m, order, amount, out, now);
    var req := Creation(s, m, order, amount, out).value;
    var r := HandleCreate(s, m, order, amount, out, now).1;
    var s1 := Step(s, DoNextIndex(m));
    StepKeepsSound(s, DoNextIndex(m));
    var s2 := Step(s1, DoCreateInvoice(req, now));
    StepKeepsSound(s1, DoCreateInvoice(req, now));
    if r.isNew {
      StepKeepsSound(s2, DoPutToken(r.id, r.token));
    }
  }

  /** The answered invoice is for the order and the amount that were asked for. */
  lemma AnswerIsForOrder(s: State, m: MerchantId, order: string, amount: int, out: Outside, now: Time)
    requires ApiSound(s) && HandleCreate(s, m, order, amount, out, now).1.Answer?
    ensures var r := HandleCreate(s, m, order, amount, out, now).1;
            && OrderKey(r.invoice) == (m, TrimSpace(order)) && r.invoice.amount == amount
            && TrimSpace(order) != "" && amount > 0 && m in s.merchants && m in s.wallets
  {
    hide Agrees, InsertInvoice, ExpiryFrom, TrimSpace;
    TrimTwice(order);
    var next := NextAddressIndex(s, m);
    assert next.0.invoices == s.invoices && next.0.byExternal == s.byExternal;
    if (m, TrimSpace(order)) in s.byExternal {
      assert OrderKey(s.invoices[s.byExternal[(m, TrimSpace(order))]]) == (m, TrimSpace(order));
    }
  }

  /** How an invoice has to look that the handler makes for an order. */
  ghost predicate MadeFor(s: State, m: MerchantId, order: string, amount: int, out: Outside, now: Time, inv: Invoice)
    requires m in s.merchants && m in s.wallets && out.tip.Some?
  {
    var settings, wallet := s.merchants[m].settings, s.wallets[m];
    var index := if m in s.nextIndex then s.nextIndex[m] else 0;
    var derived := out.derive(wallet.ufvk, wallet.uaHrp, index);
    && inv.merchant == m && inv.externalOrder == TrimSpace(order) && inv.amount == amount
    && inv.wallet == wallet.walletId && inv.addressIndex == index
    && derived.Some? && inv.address == ToLower(TrimSpace(derived.value))
    && inv.createdAfterHeight == out.tip.value.0 && inv.createdAfterHash == out.tip.value.1
    && inv.requiredConfirmations == settings.requiredConfirmations && inv.policies == settings.policies
    && inv.received == Received(0, 0) && inv.status == Open && inv.createdAt == inv.updatedAt == now
  }

  /**
   The expiry of an invoice: the time to live in seconds after the clock, while that fits
   in 64 bits of nanoseconds.
  */
  predicate ExpiresAfter(expiresAt: Option<Time>, clock: Time, ttlSeconds: int) {
    && (ttlSeconds == 0 ==> expiresAt == None)
    && (expiresAt == Some(clock + ttlSeconds * 1_000_000_000) <==>
        0 < ttlSeconds * 1_000_000_000 <= 0x7fff_ffff_ffff_ffff)
  }

  lemma ExpiryInSeconds(settings: Settings, clock: Time)
    requires settings.ttlSeconds >= 0
    ensures ExpiresAfter(ExpiryFrom(settings, clock), clock, settings.ttlSeconds)
  {
  }

  lemma RequestIsMadeFor(s: State, m: MerchantId, order: string, amount: int, out: Outside, now: Time, index: nat,
                         address: string)
    requires ApiSound(s) && m in s.merchants && m in s.wallets && out.tip.Some?
    requires index == (if m in s.nextIndex then s.nextIndex[m] else 0)
    requires out.derive(s.wallets[m].ufvk, s.wallets[m].uaHrp, index) == Some(address)
    ensures var inv := RequestFor(s, m, order, amount, index, address, out.tip.value,
            out.clock).Normal().NewInvoice(now);
            && MadeFor(s, m, order, amount, out, now, inv)
            && ExpiresAfter(inv.expiresAt, out.clock, s.merchants[m].settings.ttlSeconds)
  {
    hide Agrees, Indexed, TrimSpace, ToLower, ExpiryFrom, ExpiresAfter;
    TrimTwice(order);
    ExpiryInSeconds(s.merchants[m].settings, out.clock);
    assert TidyWallet(s.wallets[m]);
  }

  /** A new invoice is made for the order, on the settings of the merchant and at the next address of its wallet. */
  lemma NewInvoiceTerms(s: State, m: MerchantId, order: string, amount: int, out: Outside, now: Time)
    requires ApiSound(s) && HandleCreate(s, m, order, amount, out, now).1.Answer?
    requires HandleCreate(s, m, order, amount, out, now).1.isNew
    ensures m in s.merchants && m in s.wallets && out.tip.Some?
    ensures var r := HandleCreate(s, m, order, amount, out, now).1;
            && MadeFor(s, m, order, amount, out, now, r.invoice)
            && ExpiresAfter(r.invoice.expiresAt, out.clock, s.merchants[m].settings.ttlSeconds)
            && out.token == Some(r.token)
  {
    hide ApiSound, RequestFor, TrimSpace, MadeFor, ExpiresAfter, CreateInvoice, PutInvoiceToken, InvoiceCreate.Normal;
    IndexIsNext(s, m);
    var index := if m in s.nextIndex then s.nextIndex[m] else 0;
    var address := out.derive(s.wallets[m].ufvk, s.wallets[m].uaHrp, index).value;
    RequestIsMadeFor(s, m, order, amount, out, now, index, address);
    NewIsRequested(NextAddressIndex(s, m).0,
        RequestFor(s, m, order, amount, index, address, out.tip.value, out.clock), now);
    hide NextAddressIndex;
  }

  lemma IndexIsNext(s: State, m: MerchantId)
    ensures NextAddressIndex(s, m).1.Ok? ==>
            NextAddressIndex(s, m).1.value == if m in s.nextIndex then s.nextIndex[m] else 0
  {
  }

  lemma NewIsRequested(s: State, req: InvoiceCreate, now: Time)
    ensures var r := CreateInvoice(s, req, now).1;
            r.Ok? && r.value.isNew ==> r.value.invoice == req.Normal().NewInvoice(now)
  {
    hide InvoiceCreate.Normal, InsertInvoice;
  }

  /** The answer to a retry: the invoice as it is now, on the same terms, and the token stored then. */
  predicate SameAnswer(first: Response, again: Response, s: State)
    requires first.Answer?
  {
    && first.id in s.invoices && SameTerms(first.invoice, s.invoices[first.id])
    && again == Answer(first.id, s.invoices[first.id], if first.isNew then TrimSpace(first.token)
        else first.token, false)
  }

  /** A retry of an answered request, any calls later, is answered with the same invoice and the token stored then. */
  lemma RetryReturnsFirst(s: State, m: MerchantId, order: string, amount: int, out: Outside, now: Time,
                          acts: seq<Action>, order': string, out': Outside, now': Time)
    requires ApiSound(s) && HandleCreate(s, m, order, amount, out, now).1.Answer?
            && TrimSpace(order') == TrimSpace(order)
    requires var (s1, r) := HandleCreate(s, m, order, amount, out, now);
             && LegalFrom(s1, acts) && NoTokenFor(acts, r.id)
             && m in RunFrom(s1, acts).wallets && Works(RunFrom(s1, acts), m, out')
    ensures var (s1, r) := HandleCreate(s, m, order, amount, out, now);
            var s2 := RunFrom(s1, acts);
            SameAnswer(r, HandleCreate(s2, m, order', amount, out', now').1, s2)
  {
    hide HandleCreate, ApiSound, RunFrom, LegalFrom, NoTokenFor, Works, TrimSpace, SameTerms;
    var (s1, r) := HandleCreate(s, m, order, amount, out, now);
    AnswerIsStored(s, m, order, amount, out, now);
    AnswerIsForOrder(s, m, order, amount, out, now);
    HandlerSound(s, m, order, amount, out, now);
    RunKeeps(s1, acts, r.id);
    var s2 := RunFrom(s1, acts);
    assert OrderKey(s2.invoices[r.id]) == OrderKey(r.invoice) && s2.invoices[r.id].amount == r.invoice.amount by {
      SameTermsFields(r.invoice, s2.invoices[r.id]);
    }
    KnownOrder(s2, m, order', amount, out', now', r.id);
  }

  lemma SameTermsFields(inv: Invoice, inv': Invoice)
    requires SameTerms(inv, inv')
    ensures OrderKey(inv') == OrderKey(inv) && inv'.amount == inv.amount
  {
  }
}
