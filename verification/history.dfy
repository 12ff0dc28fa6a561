/**
 What holds of the event tables in every reachable state: logs, outbox and
 deliveries agree, logs are ordered and free of repetition, and the status of
 every invoice is witnessed in its log.
*/
module History {
  import opened Domain
  import opened Ledger
  import opened EventTables
  import opened Emissions
  import opened Accounts
  import Confirmation
  import Frames

  // ----- the outbox is the merge of the logs -----

  ghost predicate OwnersGrow(owners: map<InvoiceId, MerchantId>, owners': map<InvoiceId, MerchantId>) {
    forall i :: i in owners ==> i in owners' && owners'[i] == owners[i]
  }

  lemma MergedWithMoreOwners(e: Events, owners: map<InvoiceId, MerchantId>, owners': map<InvoiceId, MerchantId>)
    requires Merged(e, owners) && OwnersGrow(owners, owners')
    ensures Merged(e, owners')
  {
    forall i ensures e.Log(i) == Project(e.outbox, i) {
    }
  }

  /** News is about invoices that exist once the call is over. */
  lemma NewsIsAboutInvoices(s: State, a: Action)
    requires Agrees(s) && Enabled(s, a)
    ensures forall em :: em in News(s, a) ==> em.inv == 0 || em.inv in Step(s, a).invoices
    ensures OwnersGrow(Owners(s.invoices), Owners(Step(s, a).invoices))
  {
    hide Agrees, ApplyScanEvent, ScanNews, ConfirmPass, ConfirmNews, RefreshAllNews, CreateInvoice, Owners;
    OwnersKeys(s.invoices);
    OwnersKeys(Step(s, a).invoices);
    if a.DoConfirm? {
      PassSays(s, a);
      PassNewsInvoices(s, a);
    } else if a.DoScan? {
      ScanNewsInvoices(s, a.ev, a.now);
      ScanSays(s, a.ev, a.owner, a.now);
    } else if a.DoCreateInvoice? {
      CreateOwners(s, a.req, a.now);
    } else {
      MinorFrame(s, a);
      MinorNewsInvoices(s, a);
      hide Step, News;
    }
  }

  lemma CreateOwners(s: State, req: InvoiceCreate, now: Time)
    requires Agrees(s)
    ensures OwnersGrow(Owners(s.invoices), Owners(CreateInvoice(s, req, now).0.invoices))
  {
    hide CreateInvoice, InsertInvoice, AgreesExcept;
  }

  lemma MinorNewsInvoices(s: State, a: Action)
    requires Minor(a)
    ensures forall em :: em in News(s, a) ==> em.inv == 0 || em.inv in s.invoices
  {
  }

  lemma PassNewsInvoices(s: State, a: Action)
    requires a.DoConfirm?
    ensures forall em :: em in News(s, a) ==> em.inv in s.invoices
  {
    ConfirmNewsInvoices(s, a.order, a.best, a.now);
    RefreshAllNewsInvoices(s, a.invOrder, Confirmation.DepositsConfirmed(s, a.best, a.now), a.now);
    hide ConfirmNews, RefreshAllNews;
  }

  lemma ScanNewsInvoices(s: State, ev: ScanEvent, now: Time)
    requires Agrees(s)
    ensures forall em :: em in ScanNews(s, ev, now) ==> em.inv in s.invoices
  {
    hide Refreshed, ReceivedOf, StatusEvent, Exact;
  }

  lemma {:induction false} ConfirmNewsInvoices(s: State, order: seq<DepKey>, best: int, now: Time)
    ensures forall em :: em in ConfirmNews(s, order, best, now) ==> em.inv in s.invoices
  {
    if order != [] {
      ConfirmNewsInvoices(s, order[..|order| - 1], best, now);
    }
  }

  lemma {:induction false} RefreshAllNewsInvoices(s: State, invOrder: seq<InvoiceId>, deposits: map<DepKey, Deposit>,
                                                  now: Time)
    ensures forall em :: em in RefreshAllNews(s, invOrder, deposits, now) ==> em.inv in s.invoices
  {
    hide Refreshed, ReceivedOf, StatusEvent;
    if invOrder != [] {
      RefreshAllNewsInvoices(s, invOrder[..|invOrder| - 1], deposits, now);
    }
  }

  lemma StepKeepsMerged(s: State, a: Action)
    requires Agrees(s) && Enabled(s, a)
    requires Merged(s.events, Owners(s.invoices))
    ensures Merged(Step(s, a).events, Owners(Step(s, a).invoices))
  {
    hide News, Owners, Agrees;
    var s' := Step(s, a);
    if a.DoUpdateDelivery? {
      UpdateKeepsMerged(s, a.delivery, a.next);
    } else {
      NewsIsAboutInvoices(s, a);
      OwnersKeys(s'.invoices);
      StepSays(s, a);
      hide Step, Merged;
      MergedWithMoreOwners(s.events, Owners(s.invoices), Owners(s'.invoices));
      AppendAllKeepsMerged(s.events, News(s, a), Owners(s'.invoices), s.sinks);
    }
  }

  lemma OwnersKeys(invoices: map<InvoiceId, Invoice>)
    ensures Owners(invoices).Keys == invoices.Keys
  {
  }

  lemma UpdateKeepsMerged(s: State, k: DeliveryKey, d: Delivery)
    requires Merged(s.events, Owners(s.invoices))
    ensures Merged(UpdateDelivery(s, k, d).0.events, Owners(s.invoices))
  {
    hide Merged, Owners, UpdateDelivery;
    SameTablesMerged(s.events, UpdateDelivery(s, k, d).0.events, Owners(s.invoices));
  }

  lemma SameTablesMerged(e: Events, e': Events, owners: map<InvoiceId, MerchantId>)
    requires Merged(e, owners) && e'.logs == e.logs && e'.outbox == e.outbox && e'.lastId == e.lastId
    ensures Merged(e', owners)
  {
    forall i ensures e'.Log(i) == Project(e'.outbox, i) {
      assert e.Log(i) == Project(e.outbox, i);
    }
  }

  /**
   In every reachable state the outbox is the merge of the invoice logs in event order:
   entry n has id n + 1, and each log is its share of the outbox.
  */
  lemma {:induction false} OutboxIsMerge(acts: seq<Action>)
    requires Legal(acts)
    ensures Merged(Run(acts).events, Owners(Run(acts).invoices))
  {
    if acts != [] {
      LegalPrefix(acts);
      var before := acts[..|acts| - 1];
      LedgerAgreement(before);
      OutboxIsMerge(before);
      StepKeepsMerged(Run(before), acts[|acts| - 1]);
    }
  }

  // ----- every sink gets every event once -----

  /** Sinks are only added, and stay active. */
  ghost predicate SinksGrow(sinks: map<SinkId, Sink>, sinks': map<SinkId, Sink>) {
    forall k :: k in sinks ==> k in sinks' && sinks'[k] == sinks[k]
  }

  ghost predicate SinksSound(s: State) {
    forall k :: k in s.sinks ==> s.sinks[k].active && k <= s.sinkSeq
  }

  lemma SinksStep(s: State, a: Action)
    requires SinksSound(s)
    ensures SinksSound(Step(s, a)) && SinksGrow(s.sinks, Step(s, a).sinks)
  {
    if a.DoCreateSink? {
      NewSinkSound(s, a.m, a.kind, a.config, a.now);
      hide CreateEventSink;
    } else {
      hide Step;
      Frames.StepUntouched(s, a);
    }
  }

  lemma NewSinkSound(s: State, m: MerchantId, kind: Option<SinkKind>, config: Option<string>, now: Time)
    requires SinksSound(s)
    ensures var s' := CreateEventSink(s, m, kind, config, now).0;
            SinksSound(s') && SinksGrow(s.sinks, s'.sinks)
  {
    var s' := CreateEventSink(s, m, kind, config, now).0;
    assert s' == s || s'.sinks == s.sinks[s.sinkSeq + 1 := s'.sinks[s.sinkSeq + 1]];
  }

  /** A step fans out exactly the events it puts in the outbox, to the sinks there are. */
  lemma StepFans(s: State, a: Action)
    requires Enabled(s, a)
    ensures FannedKeys(s.events, Step(s, a).events, s.sinks)
  {
    if a.DoUpdateDelivery? {
      assert s.events.outbox[..|s.events.outbox|] == s.events.outbox;
    } else {
      hide Step, Enabled, News, Owners, Events.AppendAll;
      StepSays(s, a);
      AppendAllFans(s.events, News(s, a), Owners(Step(s, a).invoices), s.sinks);
    }
  }

  ghost predicate FannedKeys(e: Events, e': Events, sinks: map<SinkId, Sink>) {
    && |e.outbox| <= |e'.outbox| && e'.outbox[..|e.outbox|] == e.outbox
    && (forall n: nat, k: nat :: (n, k) in e'.deliveries <==>
          || (n, k) in e.deliveries
          || (|e.outbox| < n <= |e'.outbox|
              && k in sinks && sinks[k].merchant == e'.outbox[n - 1].merchant && sinks[k].active))
  }

  /** A sink of the event's merchant that was there while the outbox was still shorter than the event's number. */
  ghost predicate SinkWasThere(acts: seq<Action>, m: nat, n: nat, k: nat, merchant: MerchantId)
    requires m <= |acts|
  {
    var s := Run(acts[..m]);
    |s.events.outbox| < n && k in s.sinks && s.sinks[k].merchant == merchant
  }

  /** The run's deliveries so far, characterised. */
  ghost predicate DeliveryDue(acts: seq<Action>, n: nat, k: nat) {
    && 1 <= n <= |Run(acts).events.outbox|
    && SinkInTime(acts, n, k, Run(acts).events.outbox[n - 1].merchant)
  }

  ghost predicate SinkInTime(acts: seq<Action>, n: nat, k: nat, merchant: MerchantId) {
    exists m :: 0 <= m <= |acts| && SinkWasThere(acts, m, n, k, merchant)
  }

  lemma {:induction false} SinksAlwaysSound(acts: seq<Action>)
    ensures SinksSound(Run(acts))
  {
    if acts != [] {
      SinksAlwaysSound(acts[..|acts| - 1]);
      hide Step;
      SinksStep(Run(acts[..|acts| - 1]), acts[|acts| - 1]);
    }
  }

  lemma {:induction false} SinksOnlyGrow(acts: seq<Action>, m: nat)
    requires m <= |acts|
    ensures SinksGrow(Run(acts[..m]).sinks, Run(acts).sinks)
  {
    if m == |acts| {
      assert acts[..m] == acts;
    } else {
      var before := acts[..|acts| - 1];
      SinksOnlyGrow(before, m);
      assert before[..m] == acts[..m];
      SinksAlwaysSound(before);
      hide Step;
      SinksStep(Run(before), acts[|acts| - 1]);
    }
  }

  /**
   A delivery of event n to sink k exists if and only if their merchants match and the
   sink was there before the event.
  */
  lemma {:induction false} DeliveriesComplete(acts: seq<Action>)
    requires Legal(acts)
    ensures forall n: nat, k: nat :: (n, k) in Run(acts).events.deliveries <==> DeliveryDue(acts, n, k)
  {
    if acts == [] {
      assert Run(acts) == EMPTY;
    } else {
      LegalPrefix(acts);
      var before := acts[..|acts| - 1];
      DeliveriesComplete(before);
      StepFans(Run(before), acts[|acts| - 1]);
      forall n: nat, k: nat ensures (n, k) in Run(acts).events.deliveries <==> DeliveryDue(acts, n, k) {
        DeliveryStep(acts, n, k);
      }
    }
  }

  lemma DeliveryStep(acts: seq<Action>, n: nat, k: nat)
    requires acts != []
    requires var before := acts[..|acts| - 1];
             && ((n, k) in Run(before).events.deliveries <==> DeliveryDue(before, n, k))
             && FannedKeys(Run(before).events, Run(acts).events, Run(before).sinks)
    ensures (n, k) in Run(acts).events.deliveries <==> DeliveryDue(acts, n, k)
  {
    hide Run;
    var before := acts[..|acts| - 1];
    var s, s' := Run(before), Run(acts);
    if 1 <= n <= |s.events.outbox| {
      assert s'.events.outbox[n - 1] == s'.events.outbox[..|s.events.outbox|][n - 1];
      OldSinksInTime(acts, n, k, s.events.outbox[n - 1].merchant);
    } else if 1 <= n <= |s'.events.outbox| {
      NewSinksInTime(acts, n, k, s'.events.outbox[n - 1].merchant);
    }
  }

  lemma SinkWasThereEarlier(acts: seq<Action>, m: nat, n: nat, k: nat, merchant: MerchantId)
    requires acts != [] && m < |acts|
    ensures SinkWasThere(acts, m, n, k, merchant) <==> SinkWasThere(acts[..|acts| - 1], m, n, k, merchant)
  {
    hide Run;
    assert acts[..|acts| - 1][..m] == acts[..m];
  }

  /** Nothing new is in time for an event that was there before the last call. */
  lemma OldSinksInTime(acts: seq<Action>, n: nat, k: nat, merchant: MerchantId)
    requires acts != [] && n <= |Run(acts).events.outbox|
    ensures SinkInTime(acts, n, k, merchant) <==> SinkInTime(acts[..|acts| - 1], n, k, merchant)
  {
    assert acts[..|acts|] == acts;
    assert !SinkWasThere(acts, |acts|, n, k, merchant);
    hide Run;
    var before := acts[..|acts| - 1];
    forall m: nat | m < |acts| ensures SinkWasThere(acts, m, n, k, merchant) <==>
        SinkWasThere(before, m, n, k, merchant) {
      SinkWasThereEarlier(acts, m, n, k, merchant);
    }
  }

  /** For an event of the last call, the sinks in time are those listening before it. */
  lemma NewSinksInTime(acts: seq<Action>, n: nat, k: nat, merchant: MerchantId)
    requires acts != [] && |Run(acts[..|acts| - 1]).events.outbox| < n <= |Run(acts).events.outbox|
    ensures SinkInTime(acts, n, k, merchant) <==> Listens(Run(acts[..|acts| - 1]).sinks, k, merchant)
  {
    var before := acts[..|acts| - 1];
    assert acts[..|acts|] == acts;
    SinksAlwaysSound(before);
    hide Run;
    if Listens(Run(before).sinks, k, merchant) {
      assert SinkWasThere(acts, |before|, n, k, merchant);
    }
    if SinkInTime(acts, n, k, merchant) {
      var m :| 0 <= m <= |acts| && SinkWasThere(acts, m, n, k, merchant);
      assert before[..m] == acts[..m];
      SinksOnlyGrow(before, m);
    }
  }
}
