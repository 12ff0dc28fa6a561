/**
 What an entry of a log means: where it came from, and what was so at that
 moment. With the laws about logs it follows that nothing is announced that
 did not happen, and nothing that happened is left out.
*/
module Announcements {
  import opened Domain
  import opened Text
  import opened Ledger
  import opened Accounts
  import opened EventTables
  import opened Emissions
  import opened InvoiceLogs
  import opened Reports
  import opened Confirmation
  import Attribution
  import History

  // ----- where entries come from -----

  /** The entry is one of the events to be recorded. */
  ghost predicate Brought(es: seq<Emission>, i: InvoiceId, x: InvoiceEvent) {
    exists em :: em in es && em.inv == i && em.typ == x.typ && em.at == x.at && em.subject == x.subject
  }

  lemma {:induction false} AppendAllOnlyAdds(e: Events, es: seq<Emission>, owners: map<InvoiceId, MerchantId>,
                                             sinks: map<SinkId, Sink>, i: InvoiceId, x: InvoiceEvent)
    requires x in e.AppendAll(es, owners, sinks).Log(i)
    ensures x in e.Log(i) || Brought(es, i, x)
  {
    hide Events.Append;
    if es != [] {
      var rest, em := es[..|es| - 1], es[|es| - 1];
      assert es == rest + [em];
      AppendExtends(e.AppendAll(rest, owners, sinks), em, owners, sinks);
      if x in e.AppendAll(rest, owners, sinks).Log(i) {
        AppendAllOnlyAdds(e, rest, owners, sinks, i, x);
      }
    }
  }

  /** An event that tells of this status. */
  predicate TellsOf(typ: EventType, status: InvoiceStatus) {
    || (typ == InvoicePaid && (status == Confirmed || status == PaidLate))
    || (typ == InvoiceOverpaid && status == Overpaid)
    || (typ == InvoiceExpired && status == Expired)
  }

  /** The call moved the invoice into the status the entry tells of. */
  predicate StatusMoved(s: State, s': State, i: InvoiceId, x: InvoiceEvent, now: Time) {
    && i in s.invoices && i in s'.invoices && s'.invoices[i].status != s.invoices[i].status
    && TellsOf(x.typ, s'.invoices[i].status) && x.subject == NoSubject && x.at == now
  }

  /** The call reported the deposit the entry names, and it belongs to the invoice. */
  predicate DepositReported(s: State, s': State, a: Action, i: InvoiceId, x: InvoiceEvent)
    requires a.DoScan?
  {
    && x.typ == DepositDetectedEvent && x.subject.OfDeposit? && Taken(s, a.ev, x.subject.key)
    && (a.ev.kind == DepositEvent || a.ev.kind == DepositConfirmedKind)
    && a.ev.payload.Some? && x.subject.amount == a.ev.payload.value.amount
        && x.subject.height == a.ev.payload.value.height
    && x.subject.key in s'.deposits && s'.deposits[x.subject.key].invoice == i
    && x.at == if a.ev.occurredAt.Some? then a.ev.occurredAt.value else -62135596800 * 1_000_000_000
  }

  /** The pass confirmed the deposit the entry names. */
  predicate DepositPassed(s: State, s': State, i: InvoiceId, x: InvoiceEvent, now: Time) {
    && x.typ == DepositConfirmedEvent && x.subject.OfDeposit? && x.at == now
    && var k := x.subject.key;
       && k in s.deposits && k in s'.deposits && s.deposits[k].invoice == i
       && s.deposits[k].status == Detected && s'.deposits[k].status == DepositConfirmed
       && x.subject.amount == s.deposits[k].amount && x.subject.height == s.deposits[k].height
  }

  /** The call made the refund the entry names. */
  predicate RefundMade(s: State, s': State, i: InvoiceId, x: InvoiceEvent, now: Time) {
    && x.subject.OfRefund? && x.at == now && s'.refunds == s.refunds + [x.subject.refund]
    && x.subject.refund.invoice == i
    && x.typ == if x.subject.refund.sentTxid == "" then RefundRequested else RefundSent
  }

  /** What a new entry of a log says about the call that made it. */
  ghost predicate Source(s: State, a: Action, i: InvoiceId, x: InvoiceEvent) {
    var s' := Step(s, a);
    match a
    case DoCreateInvoice(_, now) =>
      x.typ == InvoiceCreated && x.subject == NoSubject && x.at == now && i !in s.invoices && i in s'.invoices
    case DoScan(_, _, now) => StatusMoved(s, s', i, x, now) || DepositReported(s, s', a, i, x)
    case DoConfirm(_, _, _, now) => StatusMoved(s, s', i, x, now) || DepositPassed(s, s', i, x, now)
    case DoRefund(_, now) => RefundMade(s, s', i, x, now)
    case _ => false
  }

  lemma StatusNewsTells(i: InvoiceId, before: Invoice, after: Invoice, now: Time, em: Emission)
    requires em in StatusNews(i, before, after, now)
    ensures em.inv == i && after.status != before.status && TellsOf(em.typ, after.status)
    ensures em.subject == NoSubject && em.at == now
  {
  }

  lemma RefreshNewsTells(s: State, s': State, i: InvoiceId, deposits: map<DepKey, Deposit>, now: Time, em: Emission)
    requires em in RefreshNews(s, i, deposits, now)
    requires i in s.invoices ==>
            i in s'.invoices && s'.invoices[i] == Refreshed(s.invoices[i], ReceivedOf(deposits, i), now)
    ensures em.inv == i
    ensures forall x: InvoiceEvent :: x.typ == em.typ && x.at == em.at && x.subject == em.subject ==>
            StatusMoved(s, s', i, x, now)
  {
    hide Refreshed, ReceivedOf, StatusNews, TellsOf;
    StatusNewsTells(i, s.invoices[i], Refreshed(s.invoices[i], ReceivedOf(deposits, i), now), now, em);
  }

  lemma DetectionTells(s: State, a: Action, x: InvoiceEvent, em: Emission, p: Payload)
    requires a.DoScan? && Effective(s, a.ev) && a.ev.kind != OtherKind && a.ev.payload == Some(p) && Acceptable(p)
    requires em in DetectionNews(s, a.ev, p, a.now) && x.typ == em.typ && x.at == em.at && x.subject == em.subject
    ensures DepositReported(s, Step(s, a), a, em.inv, x)
  {
    hide ApplyDeposit, DepositAfter, TrimSpace, ToInt32;
    TakenIsEffective(s, a.ev, PayloadKey(a.ev, p));
  }

  lemma ScanSource(s: State, a: Action, i: InvoiceId, x: InvoiceEvent)
    requires a.DoScan? && Brought(ScanNews(s, a.ev, a.now), i, x)
    ensures Source(s, a, i, x)
  {
    hide StatusMoved, DepositReported, RefreshNews, DetectionNews, Refreshed, ReceivedOf, DepositAfter, ApplyDeposit,
      TrimSpace, PayloadKey;
    var em :| em in ScanNews(s, a.ev, a.now) && em.inv == i && em.typ == x.typ && em.at == x.at
        && em.subject == x.subject;
    var p := a.ev.payload.value;
    var d := DepositAfter(s, a.ev, p, a.now);
    if em in DetectionNews(s, a.ev, p, a.now) {
      DetectionTells(s, a, x, em, p);
    } else {
      RefreshNewsTells(s, Step(s, a), d.invoice, s.deposits[PayloadKey(a.ev, p) := d], a.now, em);
    }
  }

  lemma {:induction false} ConfirmNewsTells(s: State, order: seq<DepKey>, best: int, now: Time, em: Emission)
    requires em in ConfirmNews(s, order, best, now)
    ensures em.typ == DepositConfirmedEvent && em.at == now && em.subject.OfDeposit?
    ensures var k := em.subject.key;
            && k in s.deposits && ConfirmsAt(s, s.deposits[k], best) && s.deposits[k].invoice == em.inv
            && em.subject.amount == s.deposits[k].amount && em.subject.height == s.deposits[k].height
  {
    hide ConfirmsAt;
    if em in ConfirmNews(s, order[..|order| - 1], best, now) {
      ConfirmNewsTells(s, order[..|order| - 1], best, now, em);
    }
  }

  lemma {:induction false} RefreshAllNewsTells(s: State, invOrder: seq<InvoiceId>, deposits: map<DepKey, Deposit>,
                                               now: Time, em: Emission)
    requires em in RefreshAllNews(s, invOrder, deposits, now)
    ensures exists i :: i in invOrder && em in RefreshNews(s, i, deposits, now)
  {
    hide RefreshNews;
    var rest, i := invOrder[..|invOrder| - 1], invOrder[|invOrder| - 1];
    assert invOrder == rest + [i];
    if em in RefreshAllNews(s, rest, deposits, now) {
      RefreshAllNewsTells(s, rest, deposits, now, em);
    }
  }

  lemma PassSource(s: State, a: Action, i: InvoiceId, x: InvoiceEvent)
    requires a.DoConfirm? && Enabled(s, a) && Brought(News(s, a), i, x)
    ensures Source(s, a, i, x)
  {
    hide StatusMoved, RefreshNews, RefreshAllNews, ConfirmNews, Refreshed, ReceivedOf, ConfirmPass;
    var deposits := DepositsConfirmed(s, a.best, a.now);
    var em :| em in News(s, a) && em.inv == i && em.typ == x.typ && em.at == x.at && em.subject == x.subject;
    PassIsOneUpdate(s, a.best, a.now, a.order, a.invOrder);
    if em in ConfirmNews(s, a.order, a.best, a.now) {
      ConfirmNewsTells(s, a.order, a.best, a.now, em);
      PassConfirmsExactly(s, a.best, a.now, a.order, a.invOrder, em.subject.key);
    } else {
      RefreshAllNewsTells(s, a.invOrder, deposits, a.now, em);
      var j :| j in a.invOrder && em in RefreshNews(s, j, deposits, a.now);
      RefreshNewsTells(s, Step(s, a), j, deposits, a.now, em);
    }
  }

  lemma MinorSource(s: State, a: Action, i: InvoiceId, x: InvoiceEvent)
    requires (Minor(a) || a.DoCreateInvoice?) && Agrees(s) && i != 0 && Brought(News(s, a), i, x)
    ensures Source(s, a, i, x)
  {
    hide TrimSpace, AgreesExcept, InsertInvoice, InvoiceCreate.Normal, AppendEvent;
  }

  /** Every new entry of a log has its source in the call that made it. */
  lemma EntryHasSource(s: State, a: Action, i: InvoiceId, x: InvoiceEvent)
    requires Enabled(s, a) && Agrees(s) && i != 0
    requires x in Step(s, a).events.Log(i) && x !in s.events.Log(i)
    ensures Source(s, a, i, x)
  {
    hide Step, Enabled, Source, Brought, Agrees, Owners;
    if a.DoUpdateDelivery? {
      UpdateLogsNothing(s, a, i);
    } else {
      StepSays(s, a);
      AppendAllOnlyAdds(s.events, News(s, a), Owners(Step(s, a).invoices), s.sinks, i, x);
      if a.DoScan? {
        ScanSource(s, a, i, x);
      } else if a.DoConfirm? {
        PassSource(s, a, i, x);
      } else {
        MinorSource(s, a, i, x);
      }
    }
  }

  lemma UpdateLogsNothing(s: State, a: Action, i: InvoiceId)
    requires a.DoUpdateDelivery?
    ensures Step(s, a).events.Log(i) == s.events.Log(i)
  {
  }

  // ----- over runs -----

  /** The call at `n` is the source of the entry. */
  ghost predicate SourceAt(acts: seq<Action>, n: nat, i: InvoiceId, x: InvoiceEvent) {
    n < |acts| && Source(Run(acts[..n]), acts[n], i, x)
  }

  /** Every entry of every log has a call of the run as its source. */
  lemma {:induction false} EntryHadSource(acts: seq<Action>, i: InvoiceId, x: InvoiceEvent)
    requires Legal(acts) && i != 0 && x in Run(acts).events.Log(i)
    ensures exists n: nat :: SourceAt(acts, n, i, x)
  {
    hide Step, Enabled, Source, Agrees;
    if acts != [] {
      LegalPrefix(acts);
      var before, a := acts[..|acts| - 1], acts[|acts| - 1];
      LedgerAgreement(before);
      if x in Run(before).events.Log(i) {
        EntryHadSource(before, i, x);
        var n: nat :| SourceAt(before, n, i, x);
        hide Run;
        assert before[..n] == acts[..n] && before[n] == acts[n];
        assert SourceAt(acts, n, i, x);
      } else {
        EntryHasSource(Run(before), a, i, x);
        assert SourceAt(acts, |before|, i, x);
      }
    }
  }

  /** At some moment of the run the invoice had a status the event tells of. */
  ghost predicate OnceHad(acts: seq<Action>, i: InvoiceId, typ: EventType) {
    exists m: nat :: m <= |acts| && i in Run(acts[..m]).invoices && TellsOf(typ, Run(acts[..m]).invoices[i].status)
  }

  /** Nothing is announced that was not so: a paid, overpaid or expired event had its moment. */
  lemma AnnouncedWasSo(acts: seq<Action>, i: InvoiceId, x: InvoiceEvent)
    requires Legal(acts) && i != 0 && x in Run(acts).events.Log(i)
    requires x.typ == InvoicePaid || x.typ == InvoiceOverpaid || x.typ == InvoiceExpired
    ensures OnceHad(acts, i, x.typ)
  {
    hide Run, TellsOf, Step, DepositReported, DepositPassed, RefundMade;
    EntryHadSource(acts, i, x);
    var n: nat :| SourceAt(acts, n, i, x);
    MovedAt(Run(acts[..n]), acts[n], i, x);
    RunOneMore(acts, n);
    assert TellsOf(x.typ, Run(acts[..n + 1]).invoices[i].status);
  }

  lemma MovedAt(s: State, a: Action, i: InvoiceId, x: InvoiceEvent)
    requires Source(s, a, i, x) && (x.typ == InvoicePaid || x.typ == InvoiceOverpaid || x.typ == InvoiceExpired)
    ensures i in Step(s, a).invoices && TellsOf(x.typ, Step(s, a).invoices[i].status)
  {
    hide Step, TellsOf, Taken;
  }

  lemma RunOneMore(acts: seq<Action>, n: nat)
    requires n < |acts|
    ensures Run(acts[..n + 1]) == Step(Run(acts[..n]), acts[n])
  {
    hide Step;
    assert acts[..n + 1][..n] == acts[..n];
  }

  // ----- nothing is left out -----

  /** An entry that names this very deposit. */
  ghost predicate Names(log: seq<InvoiceEvent>, typ: EventType, k: DepKey) {
    exists p :: 0 <= p < |log| && log[p].typ == typ && log[p].subject.OfDeposit? && log[p].subject.key == k
  }

  lemma EventNames(log: seq<InvoiceEvent>, typ: EventType, k: DepKey)
    requires HasEvent(log, typ, OfDeposit(k, 0, 0))
    ensures Names(log, typ, k)
  {
  }

  /** Confirmed deposits are in the log of their invoice. */
  ghost predicate ConfirmationLogged(s: State, k: DepKey) {
    k in s.deposits && s.deposits[k].invoice != 0 && s.deposits[k].status == DepositConfirmed ==>
      HasEvent(s.events.Log(s.deposits[k].invoice), DepositConfirmedEvent, OfDeposit(k, 0, 0))
  }

  lemma {:induction false} ConfirmNewsNames(s: State, order: seq<DepKey>, best: int, now: Time, k: DepKey)
    requires k in order && k in s.deposits && ConfirmsAt(s, s.deposits[k], best)
    ensures Emission(s.deposits[k].invoice, DepositConfirmedEvent, now,
            OfDeposit(k, s.deposits[k].amount, s.deposits[k].height))
            in ConfirmNews(s, order, best, now)
  {
    hide ConfirmsAt;
    var rest, last := order[..|order| - 1], order[|order| - 1];
    assert order == rest + [last];
    if k in rest {
      ConfirmNewsNames(s, rest, best, now, k);
    }
  }

  lemma PassLogs(s: State, a: Action, k: DepKey)
    requires a.DoConfirm? && Enabled(s, a) && k in s.deposits && ConfirmsAt(s, s.deposits[k], a.best)
    ensures HasEvent(Step(s, a).events.Log(s.deposits[k].invoice), DepositConfirmedEvent, OfDeposit(k, 0, 0))
  {
    hide Step, HasEvent, ConfirmNews, RefreshAllNews;
    var d := s.deposits[k];
    var em := Emission(d.invoice, DepositConfirmedEvent, a.now, OfDeposit(k, d.amount, d.height));
    ConfirmNewsNames(s, a.order, a.best, a.now, k);
    assert em in News(s, a);
    NewsIsRecorded(s, a, em);
    SameSubject(Step(s, a).events.Log(d.invoice), DepositConfirmedEvent, em.subject, OfDeposit(k, 0, 0));
  }

  lemma StepKeepsConfirmations(s: State, a: Action, k: DepKey)
    requires Enabled(s, a) && ConfirmationLogged(s, k)
    requires k in s.deposits && s.deposits[k].status == DepositConfirmed ==> s.deposits[k].invoice != 0
    ensures ConfirmationLogged(Step(s, a), k)
  {
    hide HasEvent, Taken;
    if k in s.deposits && s.deposits[k].invoice != 0 && s.deposits[k].status == DepositConfirmed {
      HistoryStays(s, a, s.deposits[k].invoice, DepositConfirmedEvent, OfDeposit(k, 0, 0));
    }
    if a.DoScan? {
      hide ApplyScanEvent;
      if k in Step(s, a).deposits {
        ScannedRow(s, a.ev, a.owner, a.now, k);
      }
    } else if a.DoConfirm? {
      hide ConfirmPass, ConfirmsAt;
      PassIsOneUpdate(s, a.best, a.now, a.order, a.invOrder);
      if k in s.deposits && ConfirmsAt(s, s.deposits[k], a.best) {
        PassLogs(s, a, k);
      }
    } else if a.DoCreateInvoice? {
      hide CreateInvoice;
    } else {
      hide Step;
      MinorFrame(s, a);
    }
  }

  lemma {:induction false} ConfirmationsAlwaysLogged(acts: seq<Action>, k: DepKey)
    requires Legal(acts)
    ensures ConfirmationLogged(Run(acts), k)
  {
    if acts != [] {
      hide Step, Enabled, ConfirmationLogged, ReachedBy, PassFound;
      LegalPrefix(acts);
      var before := acts[..|acts| - 1];
      ConfirmationsAlwaysLogged(before, k);
      ConfirmationSafety(before);
      assert k in Run(before).deposits ==> SafeDeposit(before, Run(before), k);
      StepKeepsConfirmations(Run(before), acts[|acts| - 1], k);
    }
  }

  /** Every deposit of an invoice that is detected is announced by name, and so is every confirmed one. */
  lemma EveryDepositIsNamed(acts: seq<Action>, k: DepKey)
    requires Legal(acts) && k in Run(acts).deposits && Run(acts).deposits[k].invoice != 0
    ensures var d := Run(acts).deposits[k];
            var log := Run(acts).events.Log(d.invoice);
            && (d.status == Detected ==> Names(log, DepositDetectedEvent, k))
            && (d.status == DepositConfirmed ==>
                Names(log, DepositConfirmedEvent, k) && Names(log, DepositDetectedEvent, k))
  {
    hide Run, HasEvent, Names;
    LogsAlwaysKept(acts);
    ConfirmationsAlwaysLogged(acts, k);
    var s := Run(acts);
    var d := s.deposits[k];
    var log := s.events.Log(d.invoice);
    assert DetectionLogged(s, k);
    if d.status == Detected {
      EventNames(log, DepositDetectedEvent, k);
    }
    if d.status == DepositConfirmed {
      EventNames(log, DepositConfirmedEvent, k);
      assert WellKept(log);
      DetectedFirst(log, k);
    }
  }

  lemma DetectedFirst(log: seq<InvoiceEvent>, k: DepKey)
    requires WellKept(log) && Names(log, DepositConfirmedEvent, k)
    ensures Names(log, DepositDetectedEvent, k)
  {
    var q :| 0 <= q < |log| && log[q].typ == DepositConfirmedEvent && log[q].subject.OfDeposit?
        && log[q].subject.key == k;
    var p :| 0 <= p < q && log[..q][p].typ == DepositDetectedEvent && log[..q][p].subject.SameAs(log[q].subject);
    assert log[p] == log[..q][p];
  }

  // ----- refunds -----

  /** A refund of an invoice is in its log, as requested or as sent. */
  ghost predicate RefundLogged(s: State, n: nat) {
    n < |s.refunds| && s.refunds[n].invoice != 0 ==>
      HasEvent(s.events.Log(s.refunds[n].invoice), if s.refunds[n].sentTxid == "" then RefundRequested else RefundSent,
               OfRefund(s.refunds[n]))
  }

  lemma RefundsStep(s: State, a: Action)
    requires Enabled(s, a)
    ensures (a.DoRefund? && CreateRefund(s, a.refund, a.now).1.Ok?) || Step(s, a).refunds == s.refunds
  {
    if a.DoConfirm? {
      hide ConfirmPass;
      PassIsOneUpdate(s, a.best, a.now, a.order, a.invOrder);
    } else {
      hide ApplyScanEvent, CreateInvoice, CreateMerchant, UpdateMerchantSettings, SetMerchantWallet, NextAddressIndex,
        PutInvoiceToken, CloseReview, CreateEventSink, UpdateDelivery;
    }
  }

  lemma NewRefundLogged(s: State, a: Action)
    requires a.DoRefund? && CreateRefund(s, a.refund, a.now).1.Ok?
    ensures var s' := Step(s, a);
            && |s'.refunds| == |s.refunds| + 1 && s'.refunds[..|s.refunds|] == s.refunds
            && RefundLogged(s', |s.refunds|)
  {
    hide HasEvent, TrimSpace, Events.Append;
    var r := CreateRefund(s, a.refund, a.now).1.value;
    if r.invoice != 0 {
      var em := Emission(r.invoice, if r.sentTxid == "" then RefundRequested else RefundSent, a.now, OfRefund(r));
      AppendRecords(s.events, em, Owners(s.invoices), s.sinks);
    }
  }

  lemma StepKeepsRefunds(s: State, a: Action, n: nat)
    requires Enabled(s, a) && RefundLogged(s, n)
    ensures RefundLogged(Step(s, a), n)
  {
    hide Step, Enabled, HasEvent, CreateRefund;
    RefundsStep(s, a);
    if n < |s.refunds| && s.refunds[n].invoice != 0 {
      HistoryStays(s, a, s.refunds[n].invoice, if s.refunds[n].sentTxid == "" then RefundRequested else RefundSent,
                   OfRefund(s.refunds[n]));
    }
    if a.DoRefund? && CreateRefund(s, a.refund, a.now).1.Ok? {
      NewRefundLogged(s, a);
      if n < |s.refunds| {
        assert Step(s, a).refunds[n] == Step(s, a).refunds[..|s.refunds|][n];
      }
    }
  }

  /** Every refund of an invoice is in its log under its own number, as requested or as sent. */
  lemma {:induction false} EveryRefundIsNamed(acts: seq<Action>, n: nat)
    requires Legal(acts)
    ensures RefundLogged(Run(acts), n)
    ensures n < |Run(acts).refunds| && Run(acts).refunds[n].invoice != 0 ==>
              var r := Run(acts).refunds[n];
              exists x :: x in Run(acts).events.Log(r.invoice) && x.subject.OfRefund? && x.subject.refund.id == r.id
                     && x.typ == if r.sentTxid == "" then RefundRequested else RefundSent
  {
    if acts != [] {
      hide Step, Enabled, RefundLogged;
      LegalPrefix(acts);
      EveryRefundIsNamed(acts[..|acts| - 1], n);
      StepKeepsRefunds(Run(acts[..|acts| - 1]), acts[|acts| - 1], n);
    }
    hide Run;
    if n < |Run(acts).refunds| && Run(acts).refunds[n].invoice != 0 {
      RefundIsNamed(Run(acts), n);
    }
  }

  lemma RefundIsNamed(s: State, n: nat)
    requires RefundLogged(s, n) && n < |s.refunds| && s.refunds[n].invoice != 0
    ensures var r := s.refunds[n];
            exists x :: x in s.events.Log(r.invoice) && x.subject.OfRefund? && x.subject.refund.id == r.id
                   && x.typ == if r.sentTxid == "" then RefundRequested else RefundSent
  {
    var r, log := s.refunds[n], s.events.Log(s.refunds[n].invoice);
    var p :| 0 <= p < |log| && log[p].typ == (if r.sentTxid == "" then RefundRequested else RefundSent)
             && log[p].subject.SameAs(OfRefund(r));
    assert log[p] in log;
  }
}
