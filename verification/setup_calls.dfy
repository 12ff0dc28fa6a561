/**
 What the calls that set up merchants, wallets, sinks and refunds leave in the
 store, and over whole runs: settings and wallets are those of the call that
 last set them.
*/
module SetupCalls {
  import opened Domain
  import opened Text
  import opened Ledger
  import opened InvoiceApi
  import Frames

  // ----- settings -----

  /** Settings a merchant may have. */
  predicate Allowed(settings: Settings) {
    settings.ttlSeconds >= 0 && settings.requiredConfirmations >= 0
  }

  /** The call sets the settings of the merchant. */
  predicate Sets(s: State, a: Action, m: MerchantId) {
    || (a.DoCreateMerchant? && Allowed(a.settings) && TrimSpace(a.name) != "" && m == s.merchantSeq + 1)
    || (a.DoUpdateSettings? && Allowed(a.settings) && m == a.m && m in s.merchants)
  }

  lemma NewMerchant(s: State, name: string, settings: Settings, now: Time)
    ensures var (s', r) := CreateMerchant(s, name, settings, now);
            && (r.Ok? <==> Allowed(settings) && TrimSpace(name) != "")
            && (r.Ok? ==>
                  && r.value == s.merchantSeq + 1
                  && s'.merchants == s.merchants[r.value := Merchant(TrimSpace(name), settings, now, now)])
            && (r.Err? ==> s' == s)
  {
    hide TrimSpace;
  }

  lemma NewSettings(s: State, m: MerchantId, settings: Settings, now: Time)
    ensures var (s', r) := UpdateMerchantSettings(s, m, settings, now);
            && (r.Ok? <==> Allowed(settings) && m in s.merchants)
            && (r.Ok? ==> s'.merchants == s.merchants[m := s.merchants[m].(settings := settings, updatedAt := now)])
            && (r.Err? ==> s' == s)
  {
  }

  lemma SettingsStep(s: State, a: Action, m: MerchantId)
    ensures var merchants := Step(s, a).merchants;
            && (Sets(s, a, m) ==> m in merchants && merchants[m].settings == a.settings)
            && (!Sets(s, a, m) ==> (m in merchants <==> m in s.merchants)
                                   && (m in s.merchants ==> merchants[m].settings == s.merchants[m].settings))
  {
    hide TrimSpace, Allowed, CreateMerchant, UpdateMerchantSettings;
    if a.DoCreateMerchant? {
      NewMerchant(s, a.name, a.settings, a.now);
    } else if a.DoUpdateSettings? {
      NewSettings(s, a.m, a.settings, a.now);
    } else {
      hide Step;
      Frames.StepUntouched(s, a);
    }
  }

  ghost predicate SetAt(acts: seq<Action>, n: nat, m: MerchantId) {
    n < |acts| && Sets(Run(acts[..n]), acts[n], m)
  }

  /** The last call that set the settings of the merchant, and the settings it set. */
  ghost predicate LastSet(acts: seq<Action>, n: nat, m: MerchantId, settings: Settings) {
    && SetAt(acts, n, m) && (forall j: nat :: n < j < |acts| ==> !SetAt(acts, j, m))
    && (acts[n].DoCreateMerchant? || acts[n].DoUpdateSettings?) && settings == acts[n].settings
  }

  lemma LastSetLater(acts: seq<Action>, n: nat, m: MerchantId, settings: Settings)
    requires acts != [] && LastSet(acts[..|acts| - 1], n, m, settings) && !SetAt(acts, |acts| - 1, m)
    ensures LastSet(acts, n, m, settings)
  {
    hide Run, Sets;
    var before := acts[..|acts| - 1];
    assert forall j: nat :: j < |before| ==> before[..j] == acts[..j] && before[j] == acts[j];
    assert forall j: nat :: j < |before| ==> (SetAt(before, j, m) <==> SetAt(acts, j, m));
  }

  lemma SetNow(acts: seq<Action>, m: MerchantId)
    requires acts != [] && SetAt(acts, |acts| - 1, m)
    ensures acts[|acts| - 1].DoCreateMerchant? || acts[|acts| - 1].DoUpdateSettings?
    ensures LastSet(acts, |acts| - 1, m, acts[|acts| - 1].settings)
  {
    hide Run, Allowed, TrimSpace;
  }

  /** In every reachable state a merchant has the settings of the last call that set them. */
  lemma {:induction false} SettingsAreLast(acts: seq<Action>, m: MerchantId)
    requires m in Run(acts).merchants
    ensures exists n: nat :: LastSet(acts, n, m, Run(acts).merchants[m].settings)
  {
    if acts != [] {
      var before, a := acts[..|acts| - 1], acts[|acts| - 1];
      hide Step, Sets, LastSet;
      SettingsStep(Run(before), a, m);
      if Sets(Run(before), a, m) {
        SetNow(acts, m);
      } else {
        SettingsAreLast(before, m);
        var n: nat :| LastSet(before, n, m, Run(before).merchants[m].settings);
        LastSetLater(acts, n, m, Run(before).merchants[m].settings);
      }
    }
  }

  // ----- wallets -----

  /** The wallet as stored for a call that set it. */
  predicate StoredWallet(stored: Wallet, w: Wallet, now: Time) {
    && stored.walletId == TrimSpace(w.walletId) && stored.ufvk == TrimSpace(w.ufvk)
        && stored.chain == TrimSpace(w.chain)
    && stored.uaHrp == TrimSpace(w.uaHrp) && stored.coinType == w.coinType && stored.createdAt == now
  }

  /** A merchant gets a wallet once, with nothing missing, and it is stored trimmed. */
  lemma WalletStep(s: State, m: MerchantId, w: Wallet, now: Time)
    ensures var (s', r) := SetMerchantWallet(s, m, w, now);
            && (r.Ok? <==> m in s.merchants && m !in s.wallets && TrimSpace(w.walletId) != "" && TrimSpace(w.ufvk) != ""
                           && TrimSpace(w.chain) != "" && TrimSpace(w.uaHrp) != "")
            && (r.Ok? ==>
                  && m in s'.wallets && StoredWallet(s'.wallets[m], w, now)
                  && s'.wallets == s.wallets[m := s'.wallets[m]])
            && (r.Err? ==> s' == s)
  {
    hide TrimSpace;
  }

  /** In every reachable state a wallet is as the one call that set it made it. */
  lemma {:induction false} WalletsAreAsSet(acts: seq<Action>, m: MerchantId)
    requires m in Run(acts).wallets
    ensures exists n: nat :: n < |acts| && acts[n].DoSetWallet? && acts[n].m == m
                             && StoredWallet(Run(acts).wallets[m], acts[n].w, acts[n].now)
  {
    if acts != [] {
      var before, a := acts[..|acts| - 1], acts[|acts| - 1];
      hide Step, StoredWallet;
      if m in Run(before).wallets {
        WalletsAreAsSet(before, m);
        WalletKept(Run(before), a, m);
        var n: nat :| n < |before| && before[n].DoSetWallet? && before[n].m == m
                      && StoredWallet(Run(before).wallets[m], before[n].w, before[n].now);
        assert acts[n] == before[n];
      } else {
        NewWallet(Run(before), a, m);
      }
    }
  }

  lemma WalletKept(s: State, a: Action, m: MerchantId)
    requires m in s.wallets
    ensures m in Step(s, a).wallets && Step(s, a).wallets[m] == s.wallets[m]
  {
    if a.DoSetWallet? {
      hide SetMerchantWallet, TrimSpace, StoredWallet;
      WalletStep(s, a.m, a.w, a.now);
    } else {
      hide Step;
      Frames.StepUntouched(s, a);
    }
  }

  lemma NewWallet(s: State, a: Action, m: MerchantId)
    requires m !in s.wallets && m in Step(s, a).wallets
    ensures a.DoSetWallet? && a.m == m && StoredWallet(Step(s, a).wallets[m], a.w, a.now)
  {
    if a.DoSetWallet? {
      hide SetMerchantWallet, TrimSpace, StoredWallet;
      WalletStep(s, a.m, a.w, a.now);
    } else {
      hide Step;
      Frames.StepUntouched(s, a);
    }
  }

  // ----- refunds -----

  /**
   A refund is made for a merchant that exists, and an invoice of that merchant if it is
   for one; it is stored trimmed.
  */
  lemma RefundStep(s: State, req: RefundCreate, now: Time)
    ensures var (s', r) := CreateRefund(s, req, now);
            && (r.Ok? <==>
                  && req.merchant != 0 && req.merchant in s.merchants
                  && TrimSpace(req.toAddress) != "" && req.amount > 0
                  && (req.invoice != 0 ==>
                        req.invoice in s.invoices && s.invoices[req.invoice].merchant == req.merchant))
            && (r.Ok? ==>
                  && s'.refunds == s.refunds + [r.value] && r.value.id == |s'.refunds|
                  && r.value.merchant == req.merchant && r.value.invoice == req.invoice
                  && r.value.amount == req.amount && r.value.createdAt == now
                  && r.value.toAddress == TrimSpace(req.toAddress) && r.value.externalId == TrimSpace(req.externalId)
                  && r.value.sentTxid == TrimSpace(req.sentTxid) && r.value.notes == TrimSpace(req.notes))
            && (r.Err? ==> s' == s)
  {
    hide TrimSpace, AppendEvent;
  }

  // ----- review cases and sinks -----

  /** A case is closed with a verdict and notes, which may not be blank, and keeps what it is about. */
  lemma CloseStep(s: State, id: ReviewId, verdict: ReviewStatus, notes: string, now: Time)
    ensures var (s', r) := CloseReview(s, id, verdict, notes, now);
            && (r.Ok? <==> id != 0 && TrimSpace(notes) != "" && id in s.reviews.cases)
            && (r.Ok? ==>
                  && id in s'.reviews.cases
                  && var c, c' := s.reviews.cases[id], s'.reviews.cases[id];
                     && c'.status == verdict && c'.notes == TrimSpace(notes) && c'.updatedAt == now
                     && c'.merchant == c.merchant && c'.invoice == c.invoice && c'.reason == c.reason
                     && c'.deposit == c.deposit && c'.createdAt == c.createdAt
                     && s'.reviews.cases == s.reviews.cases[id := c'])
            && (r.Err? ==> s' == s)
  {
    hide TrimSpace;
  }

  /** A new sink is active, and of the kind and configuration asked for. */
  lemma SinkStep(s: State, m: MerchantId, kind: Option<SinkKind>, config: Option<string>, now: Time)
    ensures var (s', r) := CreateEventSink(s, m, kind, config, now);
            && (r.Ok? <==> m != 0 && m in s.merchants && kind.Some? && config.Some?)
            && (r.Ok? ==>
                  && r.value in s'.sinks && s'.sinks == s.sinks[r.value := s'.sinks[r.value]]
                  && var k := s'.sinks[r.value];
                     && k.merchant == m && k.kind == kind.value && k.config == config.value
                     && k.active && k.createdAt == now)
            && (r.Err? ==> s' == s)
  {
  }
}
