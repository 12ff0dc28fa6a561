/** What each call says: the events it asks to record, in order, and the proof that it records exactly those. */
module Emissions {
  import opened Domain
  import opened Ledger
  import opened EventTables
  import opened Confirmation
  import Sums

  /** A change of status is announced by at most one event. */
  function StatusNews(i: InvoiceId, before: Invoice, after: Invoice, now: Time): (r: seq<Emission>) {
    if after.status == before.status then [] else Headline(StatusEvent(after.status), i, now)
  }

  function Headline(typ: Option<EventType>, i: InvoiceId, now: Time): (r: seq<Emission>) {
    if typ.Some? then [Emission(i, typ.value, now, NoSubject)] else []
  }

  ghost function RefreshNews(s: State, i: InvoiceId, deposits: map<DepKey, Deposit>, now: Time): (r: seq<Emission>) {
    if i !in s.invoices then []
    else StatusNews(i, s.invoices[i], Refreshed(s.invoices[i], ReceivedOf(deposits, i), now), now)
  }

  function DetectionNews(s: State, ev: ScanEvent, p: Payload, now: Time): (r: seq<Emission>) {
    if Incoming(ev.kind) != Detected then []
    else [Emission(DepositAfter(s, ev, p, now).invoice, DepositDetectedEvent, OccurredOr(ev.occurredAt, ZERO_TIME),
                   OfDeposit(PayloadKey(ev, p), p.amount, p.height))]
  }

  ghost function DepositNews(s: State, ev: ScanEvent, p: Payload, now: Time): (r: seq<Emission>) {
    if !Acceptable(p) then [] else
    var d := DepositAfter(s, ev, p, now);
    if d.invoice == 0 then []
    else DetectionNews(s, ev, p, now) + RefreshNews(s, d.invoice, s.deposits[PayloadKey(ev, p) := d], now)
  }

  ghost function ScanNews(s: State, ev: ScanEvent, now: Time): (r: seq<Emission>) {
    if Effective(s, ev) && ev.kind != OtherKind then DepositNews(s, ev, ev.payload.value, now) else []
  }

  function ConfirmNews(s: State, order: seq<DepKey>, best: int, now: Time): (r: seq<Emission>) {
    if order == [] then [] else
    var k := order[|order| - 1];
    ConfirmNews(s, order[..|order| - 1], best, now) +
      if k in s.deposits && ConfirmsAt(s, s.deposits[k], best)
      then [Emission(s.deposits[k].invoice, DepositConfirmedEvent, now,
          OfDeposit(k, s.deposits[k].amount, s.deposits[k].height))]
      else []
  }

  ghost function RefreshAllNews(s: State, invOrder: seq<InvoiceId>, deposits: map<DepKey, Deposit>,
                                now: Time): (r: seq<Emission>) {
    if invOrder == [] then []
    else RefreshAllNews(s, invOrder[..|invOrder| - 1], deposits, now)
          + RefreshNews(s, invOrder[|invOrder| - 1], deposits, now)
  }

  /** Everything a call asks to record. */
  ghost function News(s: State, a: Action): (r: seq<Emission>) {
    match a
    case DoCreateInvoice(req, now) =>
      var r := CreateInvoice(s, req, now).1;
      if r.Ok? && r.value.isNew then [Emission(r.value.id, InvoiceCreated, now, NoSubject)] else []
    case DoScan(ev, _, now) => ScanNews(s, ev, now)
    case DoConfirm(best, order, invOrder, now) =>
      ConfirmNews(s, order, best, now) + RefreshAllNews(s, invOrder, DepositsConfirmed(s, best, now), now)
    case DoRefund(req, now) =>
      var r := CreateRefund(s, req, now).1;
      if r.Ok? then [Emission(req.invoice, if r.value.sentTxid == "" then RefundRequested
          else RefundSent, now, OfRefund(r.value))] else []
    case _ => []
  }

  // ----- the proof -----

  /** Merchants of invoices do not change when invoices are refreshed. */
  lemma OwnersKept(invoices: map<InvoiceId, Invoice>, i: InvoiceId, received: Received, now: Time)
    requires i in invoices
    ensures Owners(invoices[i := Refreshed(invoices[i], received, now)]) == Owners(invoices)
  {
  }

  lemma AnnounceLoud(s: State, i: InvoiceId, typ: EventType, now: Time)
    requires i in s.invoices && StatusEvent(s.invoices[i].status) == Some(typ)
    ensures Announce(s, i, now).events
            == s.events.AppendAll([Emission(i, typ, now, NoSubject)], Owners(s.invoices), s.sinks)
  {
    hide Events.Append, StatusReview, CreateReview, Owners;
    AppendOne(s.events, Emission(i, typ, now, NoSubject), Owners(s.invoices), s.sinks);
  }

  lemma AnnounceQuiet(s: State, i: InvoiceId, now: Time)
    requires i in s.invoices && StatusEvent(s.invoices[i].status) == None
    ensures Announce(s, i, now).events == s.events
  {
    hide StatusReview, CreateReview, AppendEvent;
  }

  lemma AnnounceSays(s: State, i: InvoiceId, now: Time)
    requires i in s.invoices
    ensures Announce(s, i, now).events
         == s.events.AppendAll(Headline(StatusEvent(s.invoices[i].status), i, now), Owners(s.invoices), s.sinks)
  {
    hide Announce, StatusEvent, Events.AppendAll, Owners;
    var typ := StatusEvent(s.invoices[i].status);
    if typ.Some? {
      AnnounceLoud(s, i, typ.value, now);
    } else {
      AnnounceQuiet(s, i, now);
      AppendNone(s.events, Owners(s.invoices), s.sinks);
    }
  }

  lemma RecomputeSays(s: State, i: InvoiceId, now: Time)
    ensures Recompute(s, i, now).events
            == s.events.AppendAll(RefreshNews(s, i, s.deposits, now), Owners(s.invoices), s.sinks)
    ensures Owners(Recompute(s, i, now).invoices) == Owners(s.invoices)
  {
    hide ReceivedOf, Events.Append, ComputeStatus, Announce, StatusEvent, Owners;
    if i in s.invoices {
      var inv := Refreshed(s.invoices[i], ReceivedOf(s.deposits, i), now);
      OwnersKept(s.invoices, i, ReceivedOf(s.deposits, i), now);
      AnnounceSays(s.(invoices := s.invoices[i := inv]), i, now);
    }
  }

  lemma DetectionSays(s: State, ev: ScanEvent, p: Payload, now: Time)
    ensures AfterDetection(s, ev, p, now).events
         == s.events.AppendAll(DetectionNews(s, ev, p, now), Owners(s.invoices), s.sinks)
  {
    hide Events.Append, DepositAfter, Owners;
    if Incoming(ev.kind) == Detected {
      AppendOne(s.events, DetectionNews(s, ev, p, now)[0], Owners(s.invoices), s.sinks);
    }
  }

  lemma ApplyDepositSays(s: State, ev: ScanEvent, p: Payload, owner: MerchantId, now: Time)
    ensures ApplyDeposit(s, ev, p, owner, now).events
         == s.events.AppendAll(DepositNews(s, ev, p, now), Owners(s.invoices), s.sinks)
    ensures Owners(ApplyDeposit(s, ev, p, owner, now).invoices) == Owners(s.invoices)
  {
    hide ReceivedOf, Recompute, Refreshed, DepositAfter, AfterDetection, DetectionNews, RefreshNews, Owners, Incoming,
      Events.AppendAll, Sums.Sum;
    var d := DepositAfter(s, ev, p, now);
    if !Acceptable(p) || d.invoice == 0 {
      AppendNone(s.events, Owners(s.invoices), s.sinks);
    } else {
      var s2 := AfterDetection(s, ev, p, now);
      DetectionSays(s, ev, p, now);
      RecomputeSays(s2, d.invoice, now);
      SameNews(s, s2, d.invoice, s2.deposits, now);
      AppendAllConcat(s.events, DetectionNews(s, ev, p, now), RefreshNews(s, d.invoice, s2.deposits, now),
          Owners(s.invoices), s.sinks);
    }
  }

  lemma SameNews(s: State, s1: State, i: InvoiceId, deposits: map<DepKey, Deposit>, now: Time)
    requires s.invoices == s1.invoices
    ensures RefreshNews(s, i, deposits, now) == RefreshNews(s1, i, deposits, now)
  {
  }

  lemma {:induction false} ConfirmAllSays(s: State, order: seq<DepKey>, best: int, now: Time)
    requires forall i, j :: 0 <= i < j < |order| ==> order[i] != order[j]
    ensures ConfirmAll(s, order, best, now).events
         == s.events.AppendAll(ConfirmNews(s, order, best, now), Owners(s.invoices), s.sinks)
  {
    if order != [] {
      var rest, k := order[..|order| - 1], order[|order| - 1];
      ConfirmAllSays(s, rest, best, now);
      ConfirmAllDeposits(s, rest, best, now);
      ConfirmAllFrame(s, rest, best, now);
      ConfirmOneSays(s, ConfirmAll(s, rest, best, now), k, ConfirmNews(s, rest, best, now), best, now);
    }
  }

  lemma ConfirmOneSays(s: State, s1: State, k: DepKey, said: seq<Emission>, best: int, now: Time)
    requires SameBesideConfirms(s, s1)
    requires k in s1.deposits <==> k in s.deposits
    requires k in s.deposits ==> s1.deposits[k] == s.deposits[k]
    requires s1.events == s.events.AppendAll(said, Owners(s.invoices), s.sinks)
    ensures ConfirmOne(s1, k, best, now).events == s.events.AppendAll(
      said + (if k in s.deposits && ConfirmsAt(s, s.deposits[k], best)
              then [Emission(s.deposits[k].invoice, DepositConfirmedEvent, now,
                  OfDeposit(k, s.deposits[k].amount, s.deposits[k].height))]
              else []), Owners(s.invoices), s.sinks)
  {
    hide Events.Append;
    if k in s.deposits && ConfirmsAt(s, s.deposits[k], best) {
      var em := Emission(s.deposits[k].invoice, DepositConfirmedEvent, now,
          OfDeposit(k, s.deposits[k].amount, s.deposits[k].height));
      AppendAllConcat(s.events, said, [em], Owners(s.invoices), s.sinks);
      AppendOne(s1.events, em, Owners(s.invoices), s.sinks);
    } else {
      assert said + [] == said;
    }
  }

  lemma {:induction false} RecomputeAllSays(s: State, invOrder: seq<InvoiceId>, now: Time)
    requires forall i :: i in invOrder ==> i in s.invoices
    requires forall i, j :: 0 <= i < j < |invOrder| ==> invOrder[i] != invOrder[j]
    ensures RecomputeAll(s, invOrder, now).events
         == s.events.AppendAll(RefreshAllNews(s, invOrder, s.deposits, now), Owners(s.invoices), s.sinks)
    ensures Owners(RecomputeAll(s, invOrder, now).invoices) == Owners(s.invoices)
  {
    hide ReceivedOf, Recompute, Refreshed, Owners, StatusNews;
    if invOrder != [] {
      var rest, i := invOrder[..|invOrder| - 1], invOrder[|invOrder| - 1];
      assert invOrder == rest + [i];
      RecomputeAllSays(s, rest, now);
      RecomputeAllInvoices(s, rest, now);
      RecomputeAllFrame(s, rest, now);
      var s1 := RecomputeAll(s, rest, now);
      assert s1.deposits == s.deposits && s1.sinks == s.sinks && s1.invoices[i] == s.invoices[i];
      RecomputeSays(s1, i, now);
      assert RefreshNews(s1, i, s1.deposits, now) == RefreshNews(s, i, s.deposits, now);
      AppendAllConcat(s.events, RefreshAllNews(s, rest, s.deposits, now), RefreshNews(s, i, s.deposits, now),
          Owners(s.invoices), s.sinks);
    }
  }

  lemma PassSays(s: State, a: Action)
    requires a.DoConfirm? && Enabled(s, a)
    ensures Step(s, a).events == s.events.AppendAll(News(s, a), Owners(s.invoices), s.sinks)
    ensures Owners(Step(s, a).invoices) == Owners(s.invoices)
  {
    hide ReceivedOf, ConfirmAll, RecomputeAll, ConfirmNews, RefreshAllNews, Owners;
    var s1 := ConfirmAll(s, a.order, a.best, a.now);
    ConfirmAllSays(s, a.order, a.best, a.now);
    ConfirmAllDeposits(s, a.order, a.best, a.now);
    ConfirmAllFrame(s, a.order, a.best, a.now);
    assert s1.deposits == DepositsConfirmed(s, a.best, a.now);
    RecomputeAllSays(s1, a.invOrder, a.now);
    SameRefreshNews(s, s1, a.invOrder, s1.deposits, a.now);
    AppendAllConcat(s.events, ConfirmNews(s, a.order, a.best, a.now), RefreshAllNews(s, a.invOrder, s1.deposits, a.now),
                    Owners(s.invoices), s.sinks);
  }

  lemma {:induction false} SameRefreshNews(s: State, s1: State, invOrder: seq<InvoiceId>,
                                           deposits: map<DepKey, Deposit>, now: Time)
    requires s.invoices == s1.invoices
    ensures RefreshAllNews(s, invOrder, deposits, now) == RefreshAllNews(s1, invOrder, deposits, now)
  {
    if invOrder != [] {
      SameRefreshNews(s, s1, invOrder[..|invOrder| - 1], deposits, now);
    }
  }

  /** Every call but an update of a delivery records exactly its news. */
  lemma StepSays(s: State, a: Action)
    requires Enabled(s, a) && !a.DoUpdateDelivery?
    ensures Step(s, a).events == s.events.AppendAll(News(s, a), Owners(Step(s, a).invoices), s.sinks)
    ensures !a.DoCreateInvoice? ==> Owners(Step(s, a).invoices) == Owners(s.invoices)
  {
    hide ApplyScanEvent, ScanNews, Owners, CreateInvoice, ConfirmPass, Events.AppendAll;
    if a.DoScan? {
      ScanSays(s, a.ev, a.owner, a.now);
    } else if a.DoConfirm? {
      PassSays(s, a);
    } else if a.DoCreateInvoice? {
      CreateInvoiceSays(s, a);
    } else {
      MinorSays(s, a);
    }
  }

  lemma ScanSays(s: State, ev: ScanEvent, owner: MerchantId, now: Time)
    ensures ApplyScanEvent(s, ev, owner, now).events
            == s.events.AppendAll(ScanNews(s, ev, now), Owners(s.invoices), s.sinks)
    ensures Owners(ApplyScanEvent(s, ev, owner, now).invoices) == Owners(s.invoices)
  {
    hide ApplyDeposit, DepositNews, Owners, Events.Append;
    if Effective(s, ev) && ev.kind != OtherKind {
      ApplyDepositSays(s, ev, ev.payload.value, owner, now);
    }
  }

  lemma CreateInvoiceSays(s: State, a: Action)
    requires a.DoCreateInvoice?
    ensures Step(s, a).events == s.events.AppendAll(News(s, a), Owners(Step(s, a).invoices), s.sinks)
  {
    hide CreateInvoice, Events.Append, Owners;
    var r := CreateInvoice(s, a.req, a.now);
    if r.1.Ok? && r.1.value.isNew {
      AppendOne(s.events, Emission(r.1.value.id, InvoiceCreated, a.now, NoSubject), Owners(r.0.invoices), s.sinks);
    }
  }

  lemma MinorSays(s: State, a: Action)
    requires Minor(a) && !a.DoUpdateDelivery?
    ensures Step(s, a).events == s.events.AppendAll(News(s, a), Owners(s.invoices), s.sinks)
    ensures Step(s, a).invoices == s.invoices
  {
    MinorFrame(s, a);
    hide CreateMerchant, UpdateMerchantSettings, SetMerchantWallet, NextAddressIndex, PutInvoiceToken, CloseReview,
      CreateEventSink, Events.Append, Owners;
    if a.DoRefund? {
      var r := CreateRefund(s, a.refund, a.now);
      if r.1.Ok? {
        AppendOne(s.events, News(s, a)[0], Owners(s.invoices), s.sinks);
      }
    }
  }
}
