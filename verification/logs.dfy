/**
 The log of every invoice, over whole runs: it starts with the creation of the
 invoice, repeats nothing, confirms only what was detected, and witnesses the
 status of the invoice.
*/
module InvoiceLogs {
  import opened Domain
  import opened Ledger
  import opened EventTables
  import opened Emissions
  import opened Accounts
  import opened History
  import Confirmation

  // ----- recording many events -----

  /** Emissions that fit a log: right subjects, and confirmations of deposits already detected. */
  ghost predicate AllAdmissible(e: Events, es: seq<Emission>) {
    forall em :: em in es ==> Admissible(e, em)
  }

  lemma {:induction false} AppendAllKeepsWellKept(e: Events, es: seq<Emission>, owners: map<InvoiceId, MerchantId>,
                                                  sinks: map<SinkId, Sink>)
    requires forall i :: WellKept(e.Log(i))
    requires AllAdmissible(e, es)
    ensures forall i :: WellKept(e.AppendAll(es, owners, sinks).Log(i))
  {
    hide Events.Append, HasEvent, WellKept;
    if es != [] {
      var rest, em := es[..|es| - 1], es[|es| - 1];
      assert AllAdmissible(e, rest);
      AppendAllKeepsWellKept(e, rest, owners, sinks);
      assert Admissible(e, em);
      if em.typ == DepositConfirmedEvent {
        AppendAllKeepsHistory(e, rest, owners, sinks, em.inv, DepositDetectedEvent, em.subject);
      }
      AppendKeepsWellKept(e.AppendAll(rest, owners, sinks), em, owners, sinks);
    }
  }

  lemma {:induction false} AppendAllKeepsBorn(e: Events, es: seq<Emission>, owners: map<InvoiceId, MerchantId>,
                                              sinks: map<SinkId, Sink>, i: InvoiceId)
    requires Born(e.Log(i))
    ensures Born(e.AppendAll(es, owners, sinks).Log(i))
  {
    hide Events.Append;
    if es != [] {
      AppendAllKeepsBorn(e, es[..|es| - 1], owners, sinks, i);
      AppendExtends(e.AppendAll(es[..|es| - 1], owners, sinks), es[|es| - 1], owners, sinks);
    }
  }

  lemma {:induction false} AppendAllRecords(e: Events, es: seq<Emission>, owners: map<InvoiceId, MerchantId>,
                                            sinks: map<SinkId, Sink>, em: Emission)
    requires em in es && em.inv != 0
    ensures HasEvent(e.AppendAll(es, owners, sinks).Log(em.inv), em.typ, em.subject)
  {
    hide Events.Append, HasEvent;
    var rest, last := es[..|es| - 1], es[|es| - 1];
    if em == last {
      AppendRecords(e.AppendAll(rest, owners, sinks), em, owners, sinks);
    } else {
      assert es == rest + [last];
      AppendAllRecords(e, rest, owners, sinks, em);
      AppendKeepsHistory(e.AppendAll(rest, owners, sinks), last, owners, sinks, em.inv, em.typ, em.subject);
    }
  }

  // ----- the invariant -----

  /** Detected deposits that are attributed are in the log of their invoice. */
  ghost predicate DetectionLogged(s: State, k: DepKey) {
    k in s.deposits && s.deposits[k].invoice != 0 && s.deposits[k].status == Detected ==>
      HasEvent(s.events.Log(s.deposits[k].invoice), DepositDetectedEvent, OfDeposit(k, 0, 0))
  }

  /** The status of an invoice that calls for an event has that event in the log. */
  ghost predicate StatusLogged(s: State, i: InvoiceId) {
    i in s.invoices && StatusEvent(s.invoices[i].status).Some? ==>
      HasEvent(s.events.Log(i), StatusEvent(s.invoices[i].status).value, NoSubject)
  }

  ghost predicate LogsKept(s: State) {
    && (forall i :: WellKept(s.events.Log(i)))
    && (forall i :: i in s.invoices ==> Born(s.events.Log(i)))
    && (forall k :: DetectionLogged(s, k))
    && (forall i :: StatusLogged(s, i))
  }

  lemma HistoryStays(s: State, a: Action, i: InvoiceId, typ: EventType, subject: Subject)
    requires Enabled(s, a) && HasEvent(s.events.Log(i), typ, subject)
    ensures HasEvent(Step(s, a).events.Log(i), typ, subject)
  {
    hide HasEvent, News, Owners;
    if a.DoUpdateDelivery? {
      assert Step(s, a).events.logs == s.events.logs;
    } else {
      StepSays(s, a);
      hide Step, Events.AppendAll;
      AppendAllKeepsHistory(s.events, News(s, a), Owners(Step(s, a).invoices), s.sinks, i, typ, subject);
    }
  }

  lemma NewsIsRecorded(s: State, a: Action, em: Emission)
    requires Enabled(s, a) && em in News(s, a) && em.inv != 0
    ensures HasEvent(Step(s, a).events.Log(em.inv), em.typ, em.subject)
  {
    StepSays(s, a);
    hide HasEvent, News, Owners, Step, Events.AppendAll;
    AppendAllRecords(s.events, News(s, a), Owners(Step(s, a).invoices), s.sinks, em);
  }

  // ----- news fits the logs -----

  lemma NewsAdmissible(s: State, a: Action)
    requires LogsKept(s)
    ensures AllAdmissible(s.events, News(s, a))
  {
    hide HasEvent, WellKept, Born;
    if a.DoConfirm? {
      ConfirmNewsAdmissible(s, a.order, a.best, a.now);
      RefreshAllNewsAdmissible(s, a.invOrder, Confirmation.DepositsConfirmed(s, a.best, a.now), a.now);
      hide ConfirmNews, RefreshAllNews;
    } else if a.DoScan? {
      ScanNewsAdmissible(s, a.ev, a.now);
      hide ScanNews;
    } else {
      hide CreateInvoice, ScanNews;
    }
  }

  lemma ScanNewsAdmissible(s: State, ev: ScanEvent, now: Time)
    ensures AllAdmissible(s.events, ScanNews(s, ev, now))
  {
    hide Refreshed, ReceivedOf, DepositAfter;
  }

  lemma {:induction false} ConfirmNewsAdmissible(s: State, order: seq<DepKey>, best: int, now: Time)
    requires forall k :: DetectionLogged(s, k)
    ensures AllAdmissible(s.events, ConfirmNews(s, order, best, now))
  {
    if order != [] {
      ConfirmNewsAdmissible(s, order[..|order| - 1], best, now);
      var k := order[|order| - 1];
      if k in s.deposits && ConfirmsAt(s, s.deposits[k], best) {
        assert DetectionLogged(s, k);
        SameSubject(s.events.Log(s.deposits[k].invoice), DepositDetectedEvent,
                    OfDeposit(k, 0, 0), OfDeposit(k, s.deposits[k].amount, s.deposits[k].height));
      }
    }
  }

  lemma SameSubject(log: seq<InvoiceEvent>, typ: EventType, subject: Subject, subject': Subject)
    requires HasEvent(log, typ, subject) && subject.SameAs(subject')
    ensures HasEvent(log, typ, subject')
  {
  }

  lemma {:induction false} RefreshAllNewsAdmissible(s: State, invOrder: seq<InvoiceId>,
                                                    deposits: map<DepKey, Deposit>, now: Time)
    ensures AllAdmissible(s.events, RefreshAllNews(s, invOrder, deposits, now))
  {
    hide Refreshed, ReceivedOf;
    if invOrder != [] {
      RefreshAllNewsAdmissible(s, invOrder[..|invOrder| - 1], deposits, now);
    }
  }

  // ----- every step keeps the logs -----

  lemma StepKeepsWellKept(s: State, a: Action)
    requires LogsKept(s) && Enabled(s, a)
    ensures forall i :: WellKept(Step(s, a).events.Log(i))
  {
    hide HasEvent, WellKept, Born, News, Owners;
    if a.DoUpdateDelivery? {
      forall i ensures WellKept(Step(s, a).events.Log(i)) {
        assert Step(s, a).events.Log(i) == s.events.Log(i);
      }
    } else {
      NewsAdmissible(s, a);
      StepSays(s, a);
      hide Step, Events.AppendAll;
      AppendAllKeepsWellKept(s.events, News(s, a), Owners(Step(s, a).invoices), s.sinks);
    }
  }

  lemma StepKeepsBorn(s: State, a: Action, i: InvoiceId)
    requires LogsKept(s) && Enabled(s, a) && Agrees(s) && Merged(s.events, Owners(s.invoices))
    requires i in Step(s, a).invoices
    ensures Born(Step(s, a).events.Log(i))
  {
    InvoicesStep(s, a);
    if i in s.invoices {
      hide Owners, Merged, Agrees, Step, Enabled, WellKept, DetectionLogged, StatusLogged;
      OldInvoiceBorn(s, a, i);
    } else {
      hide Owners, Merged, Agrees, LogsKept, Step, Enabled;
      NewInvoiceBorn(s, a, i);
    }
  }

  lemma OldInvoiceBorn(s: State, a: Action, i: InvoiceId)
    requires Enabled(s, a) && Born(s.events.Log(i))
    ensures Born(Step(s, a).events.Log(i))
  {
    hide News, Owners;
    if a.DoUpdateDelivery? {
      assert Step(s, a).events.Log(i) == s.events.Log(i);
    } else {
      StepSays(s, a);
      hide Step, Events.AppendAll;
      AppendAllKeepsBorn(s.events, News(s, a), Owners(Step(s, a).invoices), s.sinks, i);
    }
  }

  /** Only a new invoice adds a row, and no row is lost. */
  lemma InvoicesStep(s: State, a: Action)
    requires Enabled(s, a)
    ensures s.invoices.Keys <= Step(s, a).invoices.Keys
    ensures !a.DoCreateInvoice? ==> Step(s, a).invoices.Keys == s.invoices.Keys
  {
    if a.DoConfirm? {
      hide ConfirmPass;
      Confirmation.PassIsOneUpdate(s, a.best, a.now, a.order, a.invOrder);
    } else if a.DoScan? {
      hide ApplyDeposit, Refreshed, ReceivedOf;
    } else if a.DoCreateInvoice? {
      hide CreateInvoice;
    } else {
      MinorFrame(s, a);
      hide Step;
    }
  }

  lemma NewInvoiceBorn(s: State, a: Action, i: InvoiceId)
    requires Agrees(s) && Merged(s.events, Owners(s.invoices)) && a.DoCreateInvoice?
    requires i !in s.invoices && i in Step(s, a).invoices
    ensures Born(Step(s, a).events.Log(i))
  {
    hide CreateInvoice, Owners, Events.Append, AgreesExcept;
    OwnersKeys(s.invoices);
    NothingLogged(s.events, Owners(s.invoices), i);
    hide Merged;
    var s' := Step(s, a);
    FirstEventBorn(s.events, Emission(i, InvoiceCreated, a.now, NoSubject), Owners(s'.invoices), s.sinks);
  }

  lemma NothingLogged(e: Events, owners: map<InvoiceId, MerchantId>, i: InvoiceId)
    requires Merged(e, owners) && i !in owners
    ensures e.Log(i) == []
  {
    NoEventsYet(e.outbox, i);
  }

  lemma FirstEventBorn(e: Events, em: Emission, owners: map<InvoiceId, MerchantId>, sinks: map<SinkId, Sink>)
    requires e.Log(em.inv) == [] && em.typ == InvoiceCreated && em.inv != 0
    ensures Born(e.Append(em, owners, sinks).Log(em.inv))
  {
  }

  lemma {:induction false} NoEventsYet(outbox: seq<OutboxEvent>, i: InvoiceId)
    requires forall n :: 0 <= n < |outbox| ==> outbox[n].invoice != i
    ensures Project(outbox, i) == []
  {
    if outbox != [] {
      NoEventsYet(outbox[..|outbox| - 1], i);
    }
  }

  /** The only deposit row a scan event writes. */
  lemma ScanWrites(s: State, ev: ScanEvent, owner: MerchantId, now: Time)
    ensures var s' := ApplyScanEvent(s, ev, owner, now);
            if Effective(s, ev) && ev.kind != OtherKind && Acceptable(ev.payload.value)
            then s'.deposits == s.deposits[PayloadKey(ev, ev.payload.value) := DepositAfter(s, ev, ev.payload.value,
                now)]
            else s'.deposits == s.deposits && s'.invoices == s.invoices
  {
    hide ApplyDeposit, DepositAfter, Refreshed, ReceivedOf;
  }

  lemma ScanKeepsDetection(s: State, a: Action, k: DepKey)
    requires a.DoScan? && Enabled(s, a) && DetectionLogged(s, k)
    ensures DetectionLogged(Step(s, a), k)
  {
    ScanWrites(s, a.ev, a.owner, a.now);
    hide HasEvent, ApplyScanEvent, RefreshNews, CreateInvoice, CreateRefund, ConfirmNews, RefreshAllNews;
    var s' := Step(s, a);
    if k in s'.deposits && s'.deposits[k].invoice != 0 && s'.deposits[k].status == Detected {
      if k in s.deposits && s'.deposits[k] == s.deposits[k] {
        HistoryStays(s, a, s.deposits[k].invoice, DepositDetectedEvent, OfDeposit(k, 0, 0));
      } else {
        var p := a.ev.payload.value;
        var em := DetectionNews(s, a.ev, p, a.now)[0];
        assert em in DepositNews(s, a.ev, p, a.now);
        NewsIsRecorded(s, a, em);
        SameSubject(s'.events.Log(em.inv), DepositDetectedEvent, em.subject, OfDeposit(k, 0, 0));
      }
    }
  }

  lemma StepKeepsDetection(s: State, a: Action, k: DepKey)
    requires Enabled(s, a) && DetectionLogged(s, k)
    ensures DetectionLogged(Step(s, a), k)
  {
    hide HasEvent;
    if a.DoScan? {
      ScanKeepsDetection(s, a, k);
    } else {
      DetectedDepositsStay(s, a, k);
      hide Step, Enabled;
      if k in s.deposits && s.deposits[k].invoice != 0 && s.deposits[k].status == Detected {
        HistoryStays(s, a, s.deposits[k].invoice, DepositDetectedEvent, OfDeposit(k, 0, 0));
      }
    }
  }

  lemma DetectedDepositsStay(s: State, a: Action, k: DepKey)
    requires Enabled(s, a) && !a.DoScan?
    ensures k in Step(s, a).deposits && Step(s, a).deposits[k].status == Detected ==>
              k in s.deposits && Step(s, a).deposits[k] == s.deposits[k]
  {
    if a.DoConfirm? {
      hide ConfirmPass;
      Confirmation.PassIsOneUpdate(s, a.best, a.now, a.order, a.invOrder);
    } else if a.DoCreateInvoice? {
      hide CreateInvoice;
    } else {
      MinorFrame(s, a);
      hide Step;
    }
  }

  // ----- a change of status is news -----

  /** If a call leaves invoice i in another status, and that status has an event, the event is among the news. */
  ghost predicate ChangeIsNews(before: map<InvoiceId, Invoice>, after: map<InvoiceId, Invoice>, news: seq<Emission>,
                               i: InvoiceId) {
    i in before && i in after && after[i].status != before[i].status && StatusEvent(after[i].status).Some? ==>
      exists em :: em in news && em.inv == i && em.typ == StatusEvent(after[i].status).value && em.subject == NoSubject
  }

  lemma RefreshIsNews(s: State, i: InvoiceId, deposits: map<DepKey, Deposit>, now: Time)
    requires i in s.invoices
    ensures ChangeIsNews(s.invoices, s.invoices[i := Refreshed(s.invoices[i], ReceivedOf(deposits, i), now)],
                         RefreshNews(s, i, deposits, now), i)
  {
    hide ReceivedOf, ComputeStatus;
    var after := Refreshed(s.invoices[i], ReceivedOf(deposits, i), now);
    if after.status != s.invoices[i].status && StatusEvent(after.status).Some? {
      assert Emission(i, StatusEvent(after.status).value, now, NoSubject) in RefreshNews(s, i, deposits, now);
    }
  }

  lemma ScanChangeIsNews(s: State, ev: ScanEvent, owner: MerchantId, now: Time, i: InvoiceId)
    ensures ChangeIsNews(s.invoices, ApplyScanEvent(s, ev, owner, now).invoices, ScanNews(s, ev, now), i)
  {
    ScanWrites(s, ev, owner, now);
    hide ReceivedOf, Refreshed, ApplyDeposit, DepositAfter, RefreshNews, DetectionNews;
    if Effective(s, ev) && ev.kind != OtherKind && Acceptable(ev.payload.value) {
      var p := ev.payload.value;
      var d := DepositAfter(s, ev, p, now);
      if d.invoice in s.invoices && d.invoice != 0 && i == d.invoice {
        RefreshIsNews(s, i, s.deposits[PayloadKey(ev, p) := d], now);
      }
    }
  }

  lemma {:induction false} RefreshNewsIncluded(s: State, invOrder: seq<InvoiceId>, deposits: map<DepKey, Deposit>,
                                               now: Time, i: InvoiceId)
    requires i in invOrder
    ensures forall em :: em in RefreshNews(s, i, deposits, now) ==> em in RefreshAllNews(s, invOrder, deposits, now)
  {
    hide RefreshNews;
    var rest, last := invOrder[..|invOrder| - 1], invOrder[|invOrder| - 1];
    if i != last {
      assert invOrder == rest + [last];
      RefreshNewsIncluded(s, rest, deposits, now, i);
    }
  }

  lemma PassChangeIsNews(s: State, a: Action, i: InvoiceId)
    requires a.DoConfirm? && Enabled(s, a)
    ensures ChangeIsNews(s.invoices, Step(s, a).invoices, News(s, a), i)
  {
    hide ReceivedOf, Refreshed, ConfirmPass, RefreshNews, RefreshAllNews, ConfirmNews, StatusEvent;
    Confirmation.PassIsOneUpdate(s, a.best, a.now, a.order, a.invOrder);
    if i in s.invoices && i in Affected(s, a.best) {
      var deposits := Confirmation.DepositsConfirmed(s, a.best, a.now);
      RefreshIsNews(s, i, deposits, a.now);
      RefreshNewsIncluded(s, a.invOrder, deposits, a.now, i);
    }
  }

  lemma StepChangeIsNews(s: State, a: Action, i: InvoiceId)
    requires Enabled(s, a) && Agrees(s)
    ensures ChangeIsNews(s.invoices, Step(s, a).invoices, News(s, a), i)
  {
    hide StatusEvent, ScanNews, ApplyScanEvent, ConfirmPass;
    if a.DoScan? {
      hide Agrees, OwnerChoice, ChangeIsNews;
      ScanChangeIsNews(s, a.ev, a.owner, a.now, i);
    } else if a.DoConfirm? {
      hide Agrees, ChangeIsNews;
      PassChangeIsNews(s, a, i);
    } else if a.DoCreateInvoice? {
      hide CreateInvoice, InsertInvoice, AgreesExcept;
    } else {
      hide Step, News, Agrees;
      MinorFrame(s, a);
    }
  }

  /** A new invoice is open, which calls for no event. */
  lemma NewStatus(s: State, a: Action, i: InvoiceId)
    requires Enabled(s, a) && i !in s.invoices && i in Step(s, a).invoices
    ensures Step(s, a).invoices[i].status == Open
  {
    InvoicesStep(s, a);
    hide CreateInvoice, InsertInvoice, ApplyScanEvent, ConfirmPass;
  }

  lemma StepKeepsStatus(s: State, a: Action, i: InvoiceId)
    requires Enabled(s, a) && Agrees(s) && StatusLogged(s, i)
    ensures StatusLogged(Step(s, a), i)
  {
    InvoicesStep(s, a);
    if i in Step(s, a).invoices {
      if i !in s.invoices {
        NewStatus(s, a, i);
        hide Step, Enabled, Agrees, HasEvent;
      } else {
        StepChangeIsNews(s, a, i);
        hide Step, Enabled, HasEvent, News, AgreesExcept;
        OldStatusLogged(s, a, i);
      }
    }
  }

  lemma OldStatusLogged(s: State, a: Action, i: InvoiceId)
    requires Enabled(s, a) && StatusLogged(s, i) && i in s.invoices && i != 0 && i in Step(s, a).invoices
    requires ChangeIsNews(s.invoices, Step(s, a).invoices, News(s, a), i)
    ensures StatusLogged(Step(s, a), i)
  {
    hide Step, Enabled, HasEvent, News, StatusEvent;
    var s' := Step(s, a);
    var typ := StatusEvent(s'.invoices[i].status);
    if typ.Some? {
      if s'.invoices[i].status == s.invoices[i].status {
        HistoryStays(s, a, i, typ.value, NoSubject);
      } else {
        var em :| em in News(s, a) && em.inv == i && em.typ == typ.value && em.subject == NoSubject;
        NewsIsRecorded(s, a, em);
      }
    }
  }

  // ----- over whole runs -----

  lemma StepKeepsLogs(s: State, a: Action)
    requires LogsKept(s) && Enabled(s, a) && Agrees(s) && Merged(s.events, Owners(s.invoices))
    ensures LogsKept(Step(s, a))
  {
    hide Step, Enabled, Agrees, Merged, Born, WellKept, DetectionLogged, StatusLogged;
    StepKeepsWellKept(s, a);
    forall i | i in Step(s, a).invoices ensures Born(Step(s, a).events.Log(i)) {
      StepKeepsBorn(s, a, i);
    }
    forall k ensures DetectionLogged(Step(s, a), k) {
      StepKeepsDetection(s, a, k);
    }
    forall i ensures StatusLogged(Step(s, a), i) {
      StepKeepsStatus(s, a, i);
    }
  }

  /** In every reachable state all logs are well kept, and detections and statuses are logged. */
  lemma {:induction false} LogsAlwaysKept(acts: seq<Action>)
    requires Legal(acts)
    ensures LogsKept(Run(acts))
  {
    if acts == [] {
      assert Run(acts) == EMPTY;
    } else {
      LegalPrefix(acts);
      var before := acts[..|acts| - 1];
      LogsAlwaysKept(before);
      LedgerAgreement(before);
      OutboxIsMerge(before);
      hide Step;
      StepKeepsLogs(Run(before), acts[|acts| - 1]);
    }
  }

  /** The log of an invoice begins with its only creation event, and event ids increase along it. */
  lemma CreationFirstAndOnce(acts: seq<Action>, i: InvoiceId)
    requires Legal(acts) && i in Run(acts).invoices
    ensures var log := Run(acts).events.Log(i);
            && Born(log)
            && (forall p :: 0 < p < |log| ==> log[p].typ != InvoiceCreated)
            && (forall p, q :: 0 <= p < q < |log| ==> log[p].id < log[q].id)
  {
    LogsAlwaysKept(acts);
    OutboxIsMerge(acts);
    var s := Run(acts);
    hide Run;
    assert WellKept(s.events.Log(i)) && Born(s.events.Log(i));
    assert s.events.Log(i) == Project(s.events.outbox, i);
    ProjectIncreases(s.events.outbox, i);
  }

  /** About different deposits, or about different refunds. */
  predicate Differ(x: Subject, y: Subject) {
    match (x, y)
    case (OfDeposit(k, _, _), OfDeposit(k', _, _)) => k != k'
    case (OfRefund(r), OfRefund(r')) => r.id != r'.id
    case _ => false
  }

  /**
   No event is recorded twice: one per type and deposit, per type and refund, and per
   plain type; a confirmation comes after its detection.
  */
  lemma NothingTwice(acts: seq<Action>, i: InvoiceId, p: nat, q: nat)
    requires Legal(acts)
    requires p < q < |Run(acts).events.Log(i)|
    ensures var log := Run(acts).events.Log(i);
            log[p].typ == log[q].typ ==>
                !log[p].subject.SameAs(log[q].subject) && Differ(log[p].subject, log[q].subject)
    ensures var log := Run(acts).events.Log(i);
            log[q].typ == DepositConfirmedEvent ==> HasEvent(log[..q], DepositDetectedEvent, log[q].subject)
  {
    LogsAlwaysKept(acts);
    assert WellKept(Run(acts).events.Log(i));
  }

  /** Paid, overpaid and expired invoices have the event that says so. */
  lemma StatusIsWitnessed(acts: seq<Action>, i: InvoiceId)
    requires Legal(acts) && i in Run(acts).invoices
    ensures var s := Run(acts);
            var status := s.invoices[i].status;
            && (status == Confirmed || status == PaidLate ==> HasEvent(s.events.Log(i), InvoicePaid, NoSubject))
            && (status == Overpaid ==> HasEvent(s.events.Log(i), InvoiceOverpaid, NoSubject))
            && (status == Expired ==> HasEvent(s.events.Log(i), InvoiceExpired, NoSubject))
  {
    hide Run, Legal, HasEvent, WellKept, Born, DetectionLogged;
    LogsAlwaysKept(acts);
    assert StatusLogged(Run(acts), i);
  }
}
