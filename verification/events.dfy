/**
 The event tables: what each call emits, and what recording events does to
 logs, outbox and deliveries.
*/
module EventTables {
  import opened Domain
  import opened Ledger

  // ----- recording in order -----

  lemma {:induction false} AppendAllConcat(e: Events, es: seq<Emission>, fs: seq<Emission>,
                                           owners: map<InvoiceId, MerchantId>, sinks: map<SinkId, Sink>)
    ensures e.AppendAll(es + fs, owners, sinks) == e.AppendAll(es, owners, sinks).AppendAll(fs, owners, sinks)
  {
    hide Events.Append;
    if fs == [] {
      assert es + fs == es;
    } else {
      var rest := fs[..|fs| - 1];
      assert (es + fs)[..|es + fs| - 1] == es + rest;
      AppendAllConcat(e, es, rest, owners, sinks);
    }
  }

  lemma AppendNone(e: Events, owners: map<InvoiceId, MerchantId>, sinks: map<SinkId, Sink>)
    ensures e.AppendAll([], owners, sinks) == e
  {
  }

  lemma AppendOne(e: Events, em: Emission, owners: map<InvoiceId, MerchantId>, sinks: map<SinkId, Sink>)
    ensures e.AppendAll([em], owners, sinks) == e.Append(em, owners, sinks)
  {
    hide Events.Append;
    assert [em][..0] == [];
    assert e.AppendAll([em][..0], owners, sinks) == e;
  }

  // ----- the logs are the outbox, invoice by invoice -----

  /** The events of one invoice, in outbox order. */
  function Project(outbox: seq<OutboxEvent>, inv: InvoiceId): (r: seq<InvoiceEvent>) {
    if outbox == [] then [] else
    var o := outbox[|outbox| - 1];
    Project(outbox[..|outbox| - 1], inv) + if o.invoice == inv then [InvoiceEvent(o.id, o.typ, o.at, o.subject)] else []
  }

  /** The outbox numbers its events from one and knows their merchants, and every log is its share of the outbox. */
  ghost predicate Merged(e: Events, owners: map<InvoiceId, MerchantId>) {
    && e.lastId == |e.outbox|
    && (forall n :: 0 <= n < |e.outbox| ==>
          e.outbox[n].id == n + 1 && e.outbox[n].invoice in owners
              && e.outbox[n].merchant == owners[e.outbox[n].invoice])
    && (forall i :: e.Log(i) == Project(e.outbox, i))
  }

  lemma AppendKeepsMerged(e: Events, em: Emission, owners: map<InvoiceId, MerchantId>, sinks: map<SinkId, Sink>)
    requires Merged(e, owners) && (em.inv == 0 || em.inv in owners)
    ensures Merged(e.Append(em, owners, sinks), owners)
  {
    var e' := e.Append(em, owners, sinks);
    if e' != e {
      assert e'.outbox[..|e.outbox|] == e.outbox;
      forall i ensures e'.Log(i) == Project(e'.outbox, i) {
        assert e.Log(i) == Project(e.outbox, i);
      }
    }
  }

  lemma {:induction false} AppendAllKeepsMerged(e: Events, es: seq<Emission>, owners: map<InvoiceId, MerchantId>,
                                                sinks: map<SinkId, Sink>)
    requires Merged(e, owners)
    requires forall n :: 0 <= n < |es| ==> es[n].inv == 0 || es[n].inv in owners
    ensures Merged(e.AppendAll(es, owners, sinks), owners)
  {
    hide Events.Append, Merged;
    if es != [] {
      AppendAllKeepsMerged(e, es[..|es| - 1], owners, sinks);
      AppendKeepsMerged(e.AppendAll(es[..|es| - 1], owners, sinks), es[|es| - 1], owners, sinks);
    }
  }

  /** Ids increase from one up to a bound. */
  predicate Increases(log: seq<InvoiceEvent>, bound: nat) {
    && (forall p :: 0 <= p < |log| ==> 1 <= log[p].id <= bound)
    && (forall p, q :: 0 <= p < q < |log| ==> log[p].id < log[q].id)
  }

  /** Ids in a log strictly increase, and stay within the outbox. */
  lemma {:induction false} ProjectIncreases(outbox: seq<OutboxEvent>, inv: InvoiceId)
    requires forall n :: 0 <= n < |outbox| ==> outbox[n].id == n + 1
    ensures Increases(Project(outbox, inv), |outbox|)
  {
    if outbox == [] {
      assert Project(outbox, inv) == [];
    } else {
      var rest, o := outbox[..|outbox| - 1], outbox[|outbox| - 1];
      ProjectIncreases(rest, inv);
      assert o.id == |outbox|;
      assert Project(outbox, inv) == Project(rest, inv) + if o.invoice == inv
          then [InvoiceEvent(o.id, o.typ, o.at, o.subject)] else [];
    }
  }

  /** The entry of an invoice's log for an event of the outbox. */
  function Entry(o: OutboxEvent): (r: InvoiceEvent) {
    InvoiceEvent(o.id, o.typ, o.at, o.subject)
  }

  ghost predicate ComesFrom(outbox: seq<OutboxEvent>, inv: InvoiceId, e: InvoiceEvent) {
    exists n :: 0 <= n < |outbox| && outbox[n].invoice == inv && Entry(outbox[n]) == e
  }

  lemma ComesFromLast(rest: seq<OutboxEvent>, o: OutboxEvent, inv: InvoiceId, e: InvoiceEvent)
    ensures ComesFrom(rest + [o], inv, e) <==> ComesFrom(rest, inv, e) || (o.invoice == inv && Entry(o) == e)
  {
    var all := rest + [o];
    assert all[|rest|] == o;
    if ComesFrom(rest, inv, e) {
      var n :| 0 <= n < |rest| && rest[n].invoice == inv && Entry(rest[n]) == e;
      assert all[n] == rest[n];
    }
  }

  /** A log holds the events of its invoice that are in the outbox, and no others. */
  lemma {:induction false} ProjectMembers(outbox: seq<OutboxEvent>, inv: InvoiceId, e: InvoiceEvent)
    ensures e in Project(outbox, inv) <==> ComesFrom(outbox, inv, e)
  {
    if outbox != [] {
      hide ComesFrom;
      var rest, o := outbox[..|outbox| - 1], outbox[|outbox| - 1];
      assert outbox == rest + [o];
      ProjectMembers(rest, inv, e);
      ComesFromLast(rest, o, inv, e);
      assert Project(outbox, inv) == Project(rest, inv) + if o.invoice == inv then [Entry(o)] else [];
    }
  }

  // ----- deliveries -----

  /**
   Exactly the events after `from` got a fresh delivery for each listening sink, and
   earlier deliveries are as they were.
  */
  ghost predicate Fanned(e: Events, e': Events, sinks: map<SinkId, Sink>) {
    && |e.outbox| <= |e'.outbox| && e'.outbox[..|e.outbox|] == e.outbox
    && (forall n: nat, k: nat :: (n, k) in e'.deliveries <==>
          || (n, k) in e.deliveries
          || (|e.outbox| < n <= |e'.outbox|
              && k in sinks && sinks[k].merchant == e'.outbox[n - 1].merchant && sinks[k].active))
    && (forall n: nat, k: nat :: (n, k) in e.deliveries && n <= |e.outbox| ==>
        e'.deliveries[(n, k)] == e.deliveries[(n, k)])
    && (forall n: nat, k: nat :: (n, k) in e'.deliveries && n > |e.outbox| && (n, k) !in e.deliveries ==>
        e'.deliveries[(n, k)] == NEW_DELIVERY)
  }

  lemma AppendFans(e: Events, em: Emission, owners: map<InvoiceId, MerchantId>, sinks: map<SinkId, Sink>)
    ensures Fanned(e, e.Append(em, owners, sinks), sinks)
  {
    var e' := e.Append(em, owners, sinks);
    if |e'.outbox| > |e.outbox| {
      var id, merchant := |e.outbox| + 1, owners[em.inv];
      assert e'.deliveries == e.deliveries + Fanout(sinks, id, merchant);
      assert forall n: nat, k: nat :: (n, k) in Fanout(sinks, id, merchant) <==> n == id && Listens(sinks, k, merchant);
    }
  }

  lemma FanTransitive(e: Events, e1: Events, e2: Events, sinks: map<SinkId, Sink>)
    requires Fanned(e, e1, sinks) && Fanned(e1, e2, sinks)
    ensures Fanned(e, e2, sinks)
  {
    assert forall n :: 0 <= n < |e1.outbox| ==> e2.outbox[n] == e2.outbox[..|e1.outbox|][n] == e1.outbox[n];
    assert e2.outbox[..|e.outbox|] == e2.outbox[..|e1.outbox|][..|e.outbox|];
  }

  lemma {:induction false} AppendAllFans(e: Events, es: seq<Emission>, owners: map<InvoiceId, MerchantId>,
                                         sinks: map<SinkId, Sink>)
    ensures Fanned(e, e.AppendAll(es, owners, sinks), sinks)
  {
    if es == [] {
      assert e.outbox[..|e.outbox|] == e.outbox;
    } else {
      hide Events.Append, Fanned;
      AppendAllFans(e, es[..|es| - 1], owners, sinks);
      var e1 := e.AppendAll(es[..|es| - 1], owners, sinks);
      AppendFans(e1, es[|es| - 1], owners, sinks);
      FanTransitive(e, e1, e.AppendAll(es, owners, sinks), sinks);
    }
  }

  // ----- what is in a log -----

  /** Events about the invoice itself carry no subject, the others carry theirs. */
  predicate RightSubject(typ: EventType, subject: Subject) {
    match typ
    case DepositDetectedEvent => subject.OfDeposit?
    case DepositConfirmedEvent => subject.OfDeposit?
    case RefundRequested => subject.OfRefund?
    case RefundSent => subject.OfRefund?
    case _ => subject.NoSubject?
  }

  /** No event is recorded twice, and a deposit is confirmed only after it was detected. */
  ghost predicate WellKept(log: seq<InvoiceEvent>) {
    && (forall p :: 0 <= p < |log| ==> RightSubject(log[p].typ, log[p].subject))
    && (forall p, q :: 0 <= p < q < |log| && log[p].typ == log[q].typ ==> !log[p].subject.SameAs(log[q].subject))
    && (forall q :: 0 <= q < |log| && log[q].typ == DepositConfirmedEvent ==>
          HasEvent(log[..q], DepositDetectedEvent, log[q].subject))
  }

  /** The first event of an invoice is its creation. */
  predicate Born(log: seq<InvoiceEvent>) {
    log != [] && log[0].typ == InvoiceCreated
  }

  lemma HasEventLater(log: seq<InvoiceEvent>, more: seq<InvoiceEvent>, typ: EventType, subject: Subject)
    requires HasEvent(log, typ, subject)
    ensures HasEvent(log + more, typ, subject)
  {
    var p :| 0 <= p < |log| && log[p].typ == typ && log[p].subject.SameAs(subject);
    assert (log + more)[p] == log[p];
  }

  /** A log only grows, by at most the event appended. */
  lemma AppendExtends(e: Events, em: Emission, owners: map<InvoiceId, MerchantId>, sinks: map<SinkId, Sink>)
    ensures var e' := e.Append(em, owners, sinks);
            forall i :: e'.Log(i) == e.Log(i) + (
              if i == em.inv && em.inv != 0 && !HasEvent(e.Log(i), em.typ, em.subject)
              then [InvoiceEvent(e.lastId + 1, em.typ, em.at, em.subject)] else [])
  {
  }

  /** After an event has been appended it is in its log. */
  lemma AppendRecords(e: Events, em: Emission, owners: map<InvoiceId, MerchantId>, sinks: map<SinkId, Sink>)
    requires em.inv != 0
    ensures HasEvent(e.Append(em, owners, sinks).Log(em.inv), em.typ, em.subject)
  {
    var log := e.Append(em, owners, sinks).Log(em.inv);
    if !HasEvent(e.Log(em.inv), em.typ, em.subject) {
      assert log[|log| - 1].subject.SameAs(em.subject);
    }
  }

  lemma AppendKeepsHistory(e: Events, em: Emission, owners: map<InvoiceId, MerchantId>, sinks: map<SinkId, Sink>,
                           i: InvoiceId, typ: EventType, subject: Subject)
    requires HasEvent(e.Log(i), typ, subject)
    ensures HasEvent(e.Append(em, owners, sinks).Log(i), typ, subject)
  {
    hide Events.Append;
    AppendExtends(e, em, owners, sinks);
    HasEventLater(e.Log(i), e.Append(em, owners, sinks).Log(i)[|e.Log(i)|..], typ, subject);
  }

  lemma {:induction false} AppendAllKeepsHistory(e: Events, es: seq<Emission>, owners: map<InvoiceId, MerchantId>,
                                                 sinks: map<SinkId, Sink>,
                                                 i: InvoiceId, typ: EventType, subject: Subject)
    requires HasEvent(e.Log(i), typ, subject)
    ensures HasEvent(e.AppendAll(es, owners, sinks).Log(i), typ, subject)
  {
    hide Events.Append, HasEvent;
    if es != [] {
      AppendAllKeepsHistory(e, es[..|es| - 1], owners, sinks, i, typ, subject);
      AppendKeepsHistory(e.AppendAll(es[..|es| - 1], owners, sinks), es[|es| - 1], owners, sinks, i, typ, subject);
    }
  }

  /** An emission may be recorded: its subject fits, and a confirmation follows a detection. */
  ghost predicate Admissible(e: Events, em: Emission) {
    && RightSubject(em.typ, em.subject)
    && (em.typ == DepositConfirmedEvent ==> HasEvent(e.Log(em.inv), DepositDetectedEvent, em.subject))
  }

  lemma AppendKeepsWellKept(e: Events, em: Emission, owners: map<InvoiceId, MerchantId>, sinks: map<SinkId, Sink>)
    requires Admissible(e, em)
    requires forall i :: WellKept(e.Log(i))
    ensures forall i :: WellKept(e.Append(em, owners, sinks).Log(i))
  {
    var e' := e.Append(em, owners, sinks);
    AppendExtends(e, em, owners, sinks);
    hide Events.Append, HasEvent;
    forall i ensures WellKept(e'.Log(i)) {
      assert WellKept(e.Log(i));
      if e'.Log(i) != e.Log(i) {
        GrowWellKept(e.Log(i), InvoiceEvent(e.lastId + 1, em.typ, em.at, em.subject));
      }
    }
  }

  lemma GrowWellKept(log: seq<InvoiceEvent>, ev: InvoiceEvent)
    requires WellKept(log) && RightSubject(ev.typ, ev.subject)
    requires !HasEvent(log, ev.typ, ev.subject)
    requires ev.typ == DepositConfirmedEvent ==> HasEvent(log, DepositDetectedEvent, ev.subject)
    ensures WellKept(log + [ev])
  {
    var log' := log + [ev];
    assert log'[..|log|] == log;
    forall q | 0 <= q < |log'| && log'[q].typ == DepositConfirmedEvent
      ensures HasEvent(log'[..q], DepositDetectedEvent, log'[q].subject)
    {
      if q < |log| {
        assert log'[..q] == log[..q];
      }
    }
  }
}
