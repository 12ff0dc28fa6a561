/**
 The SQL database over whole runs: call for call it goes through the states of
 the in-memory ledger, as long as the calls are tame. The logs, the outbox
 order and the review cases are included.
*/
module SqlRuns {
  import opened Domain
  import opened Text
  import opened Ledger
  import opened Runs
  import opened Accounts
  import opened Attribution
  import opened EventTables
  import opened Emissions
  import opened ReviewCases
  import opened SqlLedger
  import opened SqlDatabase
  import opened SqlRefinement
  import Confirmation
  import Frames
  import History

  // ----- the same contents in both stores -----

  function RowsOf(outbox: seq<OutboxEvent>): (r: seq<Emission>)
    ensures |r| == |outbox|
    ensures forall n :: 0 <= n < |r| ==>
            r[n] == Emission(outbox[n].invoice, outbox[n].typ, outbox[n].at, outbox[n].subject)
  {
    seq(|outbox|, n requires 0 <= n < |outbox| => Emission(outbox[n].invoice, outbox[n].typ, outbox[n].at,
        outbox[n].subject))
  }

  /** Cases are numbered from one. */
  ghost predicate Dense(r: Reviews) {
    forall id: ReviewId :: id in r.cases <==> 1 <= id <= r.lastId
  }

  /** Cases about invoices name no deposit. */
  ghost predicate CasesApart(r: Reviews) {
    forall id :: id in r.cases && r.cases[id].invoice != 0 ==> r.cases[id].deposit == NO_DEPOSIT
  }

  ghost function CasesOf(r: Reviews): (cases: seq<ReviewCase>)
    requires Dense(r)
    ensures |cases| == r.lastId && forall n :: 0 <= n < |cases| ==> cases[n] == r.cases[n + 1]
  {
    seq(r.lastId, n requires 0 <= n < r.lastId => r.cases[n + 1])
  }

  /** The database with the same contents. */
  ghost function DatabaseOf(s: State): (db: Database)
    requires Dense(s.reviews)
  {
    Database(TablesOf(s), s.merchants.Keys, s.merchantSeq, s.invoiceSeq, s.refunds, RowsOf(s.events.outbox),
        CasesOf(s.reviews))
  }

  /** What holds of the other tables between and inside calls. */
  ghost predicate Logged(s: State) {
    && Merged(s.events, Owners(s.invoices)) && Dense(s.reviews) && CasesApart(s.reviews)
    && WholeExpiry(s.invoices) && 0 !in s.invoices && 0 !in s.merchants
  }

  // ----- events -----

  /** Both stores take the same events for repetitions. */
  lemma SaidIsRecorded(e: Events, owners: map<InvoiceId, MerchantId>, em: Emission)
    requires Merged(e, owners)
    ensures Said(RowsOf(e.outbox), em) <==> HasEvent(e.Log(em.inv), em.typ, em.subject)
  {
    var log := e.Log(em.inv);
    assert log == Project(e.outbox, em.inv);
    if Said(RowsOf(e.outbox), em) {
      var n :| 0 <= n < |e.outbox| && RowsOf(e.outbox)[n].inv == em.inv && RowsOf(e.outbox)[n].typ == em.typ
               && RowsOf(e.outbox)[n].subject.SameAs(em.subject);
      ProjectMembers(e.outbox, em.inv, Entry(e.outbox[n]));
      var p :| 0 <= p < |log| && log[p] == Entry(e.outbox[n]);
    }
    if HasEvent(log, em.typ, em.subject) {
      var p :| 0 <= p < |log| && log[p].typ == em.typ && log[p].subject.SameAs(em.subject);
      ProjectMembers(e.outbox, em.inv, log[p]);
      var n :| 0 <= n < |e.outbox| && e.outbox[n].invoice == em.inv && Entry(e.outbox[n]) == log[p];
      assert RowsOf(e.outbox)[n].inv == em.inv;
    }
  }

  ghost predicate Sayable(em: Emission, owners: map<InvoiceId, MerchantId>) {
    em.inv != 0 && em.inv in owners && WholeSecond(em.at)
  }

  lemma InsertAlike(e: Events, em: Emission, owners: map<InvoiceId, MerchantId>, sinks: map<SinkId, Sink>)
    requires Merged(e, owners) && Sayable(em, owners)
    ensures InsertEvent(RowsOf(e.outbox), em) == RowsOf(e.Append(em, owners, sinks).outbox)
  {
    SaidIsRecorded(e, owners, em);
    WholeTimes(em.at, em.at);
    hide Said, HasEvent, Merged;
  }

  /** Inserting events in order is recording them in order. */
  lemma {:induction false} InsertAllAlike(e: Events, es: seq<Emission>, owners: map<InvoiceId, MerchantId>,
                                          sinks: map<SinkId, Sink>)
    requires Merged(e, owners) && forall em :: em in es ==> Sayable(em, owners)
    ensures InsertEvents(RowsOf(e.outbox), es) == RowsOf(e.AppendAll(es, owners, sinks).outbox)
  {
    hide InsertEvent, Events.Append, Merged, RowsOf;
    if es != [] {
      var rest := es[..|es| - 1];
      assert es == rest + [es[|es| - 1]];
      InsertAllAlike(e, rest, owners, sinks);
      assert forall n :: 0 <= n < |rest| ==> rest[n] in es;
      AppendAllKeepsMerged(e, rest, owners, sinks);
      InsertAlike(e.AppendAll(rest, owners, sinks), es[|es| - 1], owners, sinks);
    }
  }

  // ----- review cases -----

  /** The deposit of an ask has a transaction, and no case but an open one of the same merchant. */
  ghost predicate AskFits(r: Reviews, a: Ask) {
    a.inv == 0 && a.merchant != 0 ==>
      && a.dep.wallet != "" && a.dep.txid != ""
      && forall id :: id in r.cases && SameDepositCase(r.cases[id], a.dep, a.reason) ==>
           r.cases[id].status == ReviewOpen && r.cases[id].merchant == a.merchant
  }

  lemma BlockedIsCovered(r: Reviews, a: Ask)
    requires Dense(r) && CasesApart(r) && AskFits(r, a) && a.merchant != 0
    ensures Blocked(CasesOf(r), a) <==> r.Covered(a.merchant, a.inv, a.reason, a.dep)
  {
    var cases := CasesOf(r);
    forall id | id in r.cases
      ensures Covers(r.cases[id], a.merchant, a.inv, a.reason, a.dep) <==>
                if a.inv != 0 then SameInvoiceCase(cases[id - 1], a.merchant, a.inv, a.reason, ReviewOpen)
                else SameDepositCase(cases[id - 1], a.dep, a.reason)
    {
      assert cases[id - 1] == r.cases[id];
    }
    if Blocked(cases, a) {
      var n :| 0 <= n < |cases| &&
        if a.inv != 0 then SameInvoiceCase(cases[n], a.merchant, a.inv, a.reason, ReviewOpen)
        else SameDepositCase(cases[n], a.dep, a.reason);
      assert n + 1 in r.cases;
    }
  }

  /** Both stores open the same cases. */
  lemma OpenAlike(r: Reviews, a: Ask)
    requires Dense(r) && CasesApart(r) && AskFits(r, a) && WholeSecond(a.now) && (a.inv != 0 ==> a.dep == NO_DEPOSIT)
    ensures var r' := r.Open(a.merchant, a.inv, a.reason, a.dep, a.now);
            Dense(r') && CasesApart(r') && InsertCase(CasesOf(r), a) == CasesOf(r')
  {
    WholeTimes(a.now, a.now);
    if a.merchant != 0 {
      BlockedIsCovered(r, a);
    }
    hide Blocked, Reviews.Covered, AskFits;
  }

  // ----- recomputing an invoice -----

  lemma ReviewAlike(inv: Invoice, now: Time)
    requires WholeSecond(now) && (inv.expiresAt.Some? ==> WholeSecond(inv.expiresAt.value))
    ensures SqlReview(inv, now) == StatusReview(inv, now)
  {
    hide Whole;
    WholeTimes(now, if inv.expiresAt.Some? then inv.expiresAt.value else 0);
  }

  /** The invoice, its event and its case, in both stores. */
  lemma RecomputeAlike(s: State, i: InvoiceId, now: Time)
    requires Logged(s) && i in s.invoices && SumsFit(s.deposits, i) && WholeSecond(now)
    ensures Logged(Recompute(s, i, now))
    ensures Recomputed(DatabaseOf(s), i, now) == Ok(DatabaseOf(Recompute(s, i, now)))
  {
    hide Recompute, PendingOf, ConfirmedOf, SqlRefreshed, Refreshed, SqlReview, StatusReview, InsertEvents,
      InsertCases, Merged, Dense, CasesApart, WholeExpiry, Events.AppendAll, RowsOf, CasesOf;
    var before, after := s.invoices[i], Refreshed(s.invoices[i], ReceivedOf(s.deposits, i), now);
    ExpiryOf(s.invoices, i);
    RefreshedAlike(before, PendingOf(s.deposits, i), ConfirmedOf(s.deposits, i), now);
    RefreshKeepsExpiry(s.invoices, i, ReceivedOf(s.deposits, i), now);
    RecomputeSays(s, i, now);
    RefreshNewsAlike(s, i, now);
    ReviewAlike(after, now);
    RecomputeAsks(s, i, now);
    RefreshAsksAlike(s, i, now);
  }

  lemma ExpiryOf(invoices: map<InvoiceId, Invoice>, i: InvoiceId)
    requires WholeExpiry(invoices) && i in invoices
    ensures invoices[i].expiresAt.Some? ==> WholeSecond(invoices[i].expiresAt.value)
  {
  }

  lemma RefreshKeepsExpiry(invoices: map<InvoiceId, Invoice>, i: InvoiceId, received: Received, now: Time)
    requires WholeExpiry(invoices) && i in invoices
    ensures Refreshed(invoices[i], received, now).expiresAt == invoices[i].expiresAt
    ensures WholeExpiry(invoices[i := Refreshed(invoices[i], received, now)])
  {
    hide ComputeStatus;
  }

  lemma RefreshNewsAlike(s: State, i: InvoiceId, now: Time)
    requires Logged(s) && i in s.invoices && WholeSecond(now)
    ensures var owners, news := Owners(s.invoices), RefreshNews(s, i, s.deposits, now);
            && InsertEvents(RowsOf(s.events.outbox), news) == RowsOf(s.events.AppendAll(news, owners, s.sinks).outbox)
            && Merged(s.events.AppendAll(news, owners, s.sinks), owners)
  {
    hide Merged, Dense, CasesApart, WholeExpiry, Refreshed, ReceivedOf, InsertEvents, Events.AppendAll, RowsOf,
      StatusEvent;
    var owners, news := Owners(s.invoices), RefreshNews(s, i, s.deposits, now);
    assert forall em :: em in news ==> Sayable(em, owners);
    InsertAllAlike(s.events, news, owners, s.sinks);
    AppendAllKeepsMerged(s.events, news, owners, s.sinks);
  }

  lemma RefreshAsksAlike(s: State, i: InvoiceId, now: Time)
    requires Logged(s) && i in s.invoices && WholeSecond(now)
    ensures var asks, r := RefreshAsks(s, i, s.deposits, now), Recompute(s, i, now).reviews;
            Dense(r) && CasesApart(r) && InsertCases(CasesOf(s.reviews), asks) == CasesOf(r)
  {
    hide Merged, Dense, CasesApart, WholeExpiry, Refreshed, ReceivedOf, InsertCases, InsertCase, Reviews.Open,
      StatusReview, Recompute, CasesOf;
    var asks := RefreshAsks(s, i, s.deposits, now);
    RecomputeAsks(s, i, now);
    AtMostOneCase(CasesOf(s.reviews), asks);
    if asks != [] {
      OpenAlike(s.reviews, asks[0]);
    }
  }

  // ----- one deposit event -----

  /** The states compared, between calls. */
  ghost predicate Ready(s: State) {
    Comparable(s) && Logged(s)
  }

  /** The review case for a deposit without an invoice is one both stores open. */
  ghost predicate TameAsk(s: State, p: Payload, owner: MerchantId) {
    Matched(TablesOf(s), p) == 0 ==> AskFits(s.reviews, Ask(owner, 0, UnknownAddress, EventKey(p), 0))
  }

  /** The sums of the invoice paid fit in 64 bits. */
  ghost predicate TameSums(s: State, ev: ScanEvent, p: Payload, now: Time) {
    var d := DepositAfter(s, ev, p, now);
    d.invoice != 0 ==> SumsFit(s.deposits[PayloadKey(ev, p) := d], d.invoice)
  }

  lemma OwnerAlike(s: State, wallet: string, owner: MerchantId)
    requires OwnerChoice(s, wallet, owner) && !Ambiguous(TablesOf(s), wallet)
    ensures WalletOwner(TablesOf(s), wallet) == owner
  {
  }

  /** A deposit written without an invoice. */
  lemma UnclaimedAlike(s: State, s1: State, owner: MerchantId, key: DepKey, now: Time)
    requires Logged(s) && WholeSecond(now) && AskFits(s.reviews, Ask(owner, 0, UnknownAddress, key, 0))
    requires s1.(deposits := s.deposits, depositSeq := s.depositSeq) == s
    ensures var s2, a := CreateReview(s1, owner, 0, UnknownAddress, key, now), Ask(owner, 0, UnknownAddress, key, now);
            Logged(s2) && DatabaseOf(s2)
                == DatabaseOf(s).(tables := TablesOf(s1), cases := InsertCase(CasesOf(s.reviews), a))
  {
    hide Merged, Dense, CasesApart, WholeExpiry, Reviews.Open, InsertCase, RowsOf, CasesOf;
    OpenAlike(s.reviews, Ask(owner, 0, UnknownAddress, key, now));
  }

  lemma WholeDetection(ev: ScanEvent)
    requires ev.occurredAt.Some? ==> WholeSecond(ev.occurredAt.value)
    ensures WholeSecond(OccurredOr(ev.occurredAt, ZERO_TIME))
  {
  }

  lemma DetectionNewsAlike(s: State, ev: ScanEvent, p: Payload, now: Time)
    requires Comparable(s) && Tame(s, ev, p, now) && DepositAfter(s, ev, p, now).invoice in s.invoices
            && 0 !in s.invoices
    ensures DetectionNews(s, ev, p, now) == Detection(TablesOf(s), ev, p)
    ensures forall em :: em in DetectionNews(s, ev, p, now) ==> Sayable(em, Owners(s.invoices))
  {
    hide Wrap64, OccurredOr, Comparable, DepositAfter, RowAfter, Matched, PayloadKey, EventKey, Faithful, Ambiguous,
      WholeSecond, WholeExpiry, AgreesExcept;
    RowsAlike(s, ev, p, now);
    Fits64(p.amount);
    WholeDetection(ev);
  }

  /** A deposit written, and its detection recorded. */
  lemma DetectionAlike(s: State, ev: ScanEvent, p: Payload, now: Time)
    requires Logged(s) && Comparable(s) && Tame(s, ev, p, now) && DepositAfter(s, ev, p, now).invoice in s.invoices
    ensures var s2 := AfterDetection(s, ev, p, now);
            && Logged(s2)
            && DatabaseOf(s2) == DatabaseOf(s).(
                 tables := PutRow(TablesOf(s), EventKey(p), RowAfter(TablesOf(s), ev, p, now)),
                 log := InsertEvents(RowsOf(s.events.outbox), Detection(TablesOf(s), ev, p)))
  {
    hide Merged, Dense, CasesApart, WholeExpiry, InsertEvents, RowsOf, CasesOf, Comparable, DepositAfter, RowAfter,
      Matched, AfterDetection, PayloadKey, EventKey, Events.AppendAll, DetectionNews, Detection, Tame, Sayable, Owners;
    var owners, news := Owners(s.invoices), DetectionNews(s, ev, p, now);
    RowsAlike(s, ev, p, now);
    DetectionNewsAlike(s, ev, p, now);
    DetectionSays(s, ev, p, now);
    InsertAllAlike(s.events, news, owners, s.sinks);
    SayableAppends(s.events, news, owners, s.sinks);
  }

  lemma SayableAppends(e: Events, es: seq<Emission>, owners: map<InvoiceId, MerchantId>, sinks: map<SinkId, Sink>)
    requires Merged(e, owners) && forall em :: em in es ==> Sayable(em, owners)
    ensures Merged(e.AppendAll(es, owners, sinks), owners)
  {
    hide Merged;
    assert forall n :: 0 <= n < |es| ==> es[n] in es;
    AppendAllKeepsMerged(e, es, owners, sinks);
  }

  /** On tame events both stores write the same deposit, sums, status, events and review cases. */
  lemma SqlDepositIsMemDeposit(s: State, ev: ScanEvent, p: Payload, owner: MerchantId, now: Time)
    requires Ready(s) && Tame(s, ev, p, now) && TameSums(s, ev, p, now) && TameAsk(s, p, owner)
            && OwnerChoice(s, p.wallet, owner)
    ensures Logged(ApplyDeposit(s, ev, p, owner, now))
    ensures DepositTx(DatabaseOf(s), ev, p, now) == Ok(DatabaseOf(ApplyDeposit(s, ev, p, owner, now)))
  {
    hide ApplyDeposit, RowAfter, DepositAfter, Matched, Ambiguous, WalletOwner, Recomputed, Recompute, AfterDetection,
      Detection, PayloadKey, EventKey, SumsFit, Acceptable, Comparable, Tame, Merged, Dense, CasesApart, WholeExpiry,
          InsertEvents, InsertCase, AskFits, OwnerChoice, RowsOf, CasesOf;
    RowsAlike(s, ev, p, now);
    var d := DepositAfter(s, ev, p, now);
    ApplyDepositParts(s, ev, p, owner, now);
    if d.invoice == 0 {
      OwnerAlike(s, p.wallet, owner);
      UnclaimedAlike(s, PutDeposit(s, PayloadKey(ev, p), d), owner, PayloadKey(ev, p), now);
    } else {
      MatchedExists(s, p);
      DetectionAlike(s, ev, p, now);
      RecomputeAlike(AfterDetection(s, ev, p, now), d.invoice, now);
    }
  }

  lemma ApplyDepositParts(s: State, ev: ScanEvent, p: Payload, owner: MerchantId, now: Time)
    requires Acceptable(p)
    ensures var key, d := PayloadKey(ev, p), DepositAfter(s, ev, p, now);
            ApplyDeposit(s, ev, p, owner, now) ==
              if d.invoice == 0 then CreateReview(PutDeposit(s, key, d), owner, 0, UnknownAddress, key, now)
              else Recompute(AfterDetection(s, ev, p, now), d.invoice, now)
    ensures AfterDetection(s, ev, p, now).deposits == s.deposits[PayloadKey(ev, p) := DepositAfter(s, ev, p, now)]
  {
    hide DepositAfter, AfterDetection, PayloadKey, Recompute;
  }

  lemma MatchedExists(s: State, p: Payload)
    ensures Matched(TablesOf(s), p) != 0 ==> Matched(TablesOf(s), p) in s.invoices
  {
    hide MatchRow;
  }

  // ----- a confirmation pass -----

  lemma SelectedAlike(s: State, best: int, now: Time)
    requires WholeSecond(now)
    ensures RowsConfirmed(TablesOf(s), best, now) == Confirmation.DepositsConfirmed(s, best, now)
    ensures InvoicesTouched(TablesOf(s), best) == Affected(s, best)
  {
    hide Whole, WholeSecond;
    WholeTimes(now, now);
    assert forall d: Deposit :: Selected(TablesOf(s), d, best) <==> ConfirmsAt(s, d, best);
    hide Selected, ConfirmsAt;
  }

  /** The rows selected are the deposits the other pass confirms, and give the same events in the same order. */
  lemma {:induction false} ConfirmNewsAlike(s: State, order: seq<DepKey>, best: int, now: Time)
    requires 0 !in s.invoices && WholeSecond(now)
    ensures ConfirmNews(s, order, best, now) == ConfirmedNews(TablesOf(s), SelectedOf(TablesOf(s), order, best), now)
    ensures forall em :: em in ConfirmNews(s, order, best, now) ==> Sayable(em, Owners(s.invoices))
  {
    if order != [] {
      var k := order[|order| - 1];
      ConfirmNewsAlike(s, order[..|order| - 1], best, now);
      assert k in s.deposits ==> (Selected(TablesOf(s), s.deposits[k], best) <==> ConfirmsAt(s, s.deposits[k], best));
      var rest := SelectedOf(TablesOf(s), order[..|order| - 1], best);
      assert (rest + [k])[..|rest|] == rest && rest + [] == rest;
    }
  }

  predicate Once(keys: seq<DepKey>) {
    forall i, j :: 0 <= i < j < |keys| ==> keys[i] != keys[j]
  }

  lemma {:induction false} SelectedOnce(t: Tables, order: seq<DepKey>, best: int)
    requires Once(order)
    ensures Once(SelectedOf(t, order, best))
  {
    hide Selected;
    if order != [] {
      var before, k := order[..|order| - 1], order[|order| - 1];
      assert forall i :: 0 <= i < |before| ==> before[i] == order[i];
      SelectedOnce(t, before, best);
      var rest := SelectedOf(t, before, best);
      assert k !in before && k !in rest;
      assert SelectedOf(t, order, best) == rest + [k] || SelectedOf(t, order, best) == rest;
    }
  }

  lemma RowsInOrder(s: State, best: int, order: seq<DepKey>, invOrder: seq<InvoiceId>, now: Time)
    requires PassOrders(s, best, order, invOrder) && WholeSecond(now)
    ensures PassRows(TablesOf(s), best, SelectedOf(TablesOf(s), order, best), invOrder)
  {
    hide Selected, ConfirmsAt;
    SelectedAlike(s, best, now);
    SelectedOnce(TablesOf(s), order, best);
  }

  lemma ConfirmAllWrites(s: State, best: int, now: Time, order: seq<DepKey>)
    requires Lists(order, s.deposits.Keys)
    ensures ConfirmAll(s, order, best, now).deposits == Confirmation.DepositsConfirmed(s, best, now)
    ensures Confirmation.SameBesideConfirms(s, ConfirmAll(s, order, best, now))
  {
    hide ConfirmAll;
    Confirmation.ConfirmAllDeposits(s, order, best, now);
    Confirmation.ConfirmAllFrame(s, order, best, now);
  }

  /** The first loop of a pass in both stores. */
  lemma ConfirmAllAlike(s: State, best: int, now: Time, order: seq<DepKey>)
    requires Logged(s) && Lists(order, s.deposits.Keys) && WholeSecond(now)
    ensures var s1 := ConfirmAll(s, order, best, now);
            && Logged(s1) && s1.invoices == s.invoices && s1.deposits == Confirmation.DepositsConfirmed(s, best, now)
            && DatabaseOf(s1) == DatabaseOf(s).(
                 tables := TablesOf(s).(deposits := RowsConfirmed(TablesOf(s), best, now)),
                 log := InsertEvents(RowsOf(s.events.outbox),
                     ConfirmedNews(TablesOf(s), SelectedOf(TablesOf(s), order, best), now)))
  {
    hide Merged, Dense, CasesApart, WholeExpiry, InsertEvents, RowsOf, CasesOf, ConfirmAll,
      Confirmation.DepositsConfirmed, RowsConfirmed, SelectedOf, ConfirmNews, Events.AppendAll, Sayable, Owners,
          InvoicesTouched;
    var news := ConfirmNews(s, order, best, now);
    SelectedAlike(s, best, now);
    ConfirmNewsAlike(s, order, best, now);
    ConfirmAllWrites(s, best, now, order);
    ConfirmAllSays(s, order, best, now);
    InsertAllAlike(s.events, news, Owners(s.invoices), s.sinks);
    SayableAppends(s.events, news, Owners(s.invoices), s.sinks);
  }

  /** The second loop. */
  lemma {:induction false} RecomputeAllAlike(s: State, touched: seq<InvoiceId>, now: Time)
    requires Logged(s) && WholeSecond(now)
    requires forall i :: i in touched ==> i in s.invoices && SumsFit(s.deposits, i)
    ensures var s' := RecomputeAll(s, touched, now);
            && Logged(s') && s'.deposits == s.deposits && s'.invoices.Keys == s.invoices.Keys
            && RecomputedAll(DatabaseOf(s), touched, now) == Ok(DatabaseOf(s'))
  {
    hide Logged, Recompute, Recomputed, SumsFit, DatabaseOf;
    if touched != [] {
      var rest, i := touched[..|touched| - 1], touched[|touched| - 1];
      assert touched == rest + [i];
      RecomputeAllAlike(s, rest, now);
      RecomputeAlike(RecomputeAll(s, rest, now), i, now);
    }
  }

  /** The SQL pass, with its extra condition on heights, is the in-memory pass, events and review cases included. */
  lemma SqlPassIsMemPass(s: State, best: int, now: Time, order: seq<DepKey>, invOrder: seq<InvoiceId>)
    requires Logged(s) && PassOrders(s, best, order, invOrder) && WholeSecond(now)
    requires forall i :: i in Affected(s, best) ==> SumsFit(Confirmation.DepositsConfirmed(s, best, now), i)
    ensures var keys := SelectedOf(TablesOf(s), order, best);
            && PassRows(TablesOf(s), best, keys, invOrder)
            && Logged(ConfirmPass(s, best, now, order, invOrder))
            && PassTx(DatabaseOf(s), best, now, keys, invOrder)
                == Ok(DatabaseOf(ConfirmPass(s, best, now, order, invOrder)))
  {
    AffectedExist(s, best);
    hide Logged, ConfirmAll, RecomputeAll, SumsFit, Affected, ConfirmedNews, InsertEvents, RowsConfirmed,
      Confirmation.DepositsConfirmed, SelectedOf, PassRows;
    RowsInOrder(s, best, order, invOrder, now);
    ConfirmAllAlike(s, best, now, order);
    RecomputeAllAlike(ConfirmAll(s, order, best, now), invOrder, now);
  }

  lemma AffectedExist(s: State, best: int)
    ensures Affected(s, best) <= s.invoices.Keys
  {
  }

  // ----- calls of the API -----

  /**
   What an invoice request has to be for both stores to do the same: its times whole, its
   block hash trimmed, its merchant known.
  */
  predicate TameOrder(s: State, req: InvoiceCreate, now: Time) {
    && WholeSecond(now) && (req.expiresAt.Some? ==> WholeSecond(req.expiresAt.value))
    && TrimSpace(req.createdAfterHash) == req.createdAfterHash
    && (req.Normal().Usable() ==> req.merchant in s.merchants)
  }

  lemma ViolatesAlike(s: State, inv: Invoice)
    requires Indexed(s)
    ensures Violates(s.invoices, inv) <==> OrderKey(inv) in s.byExternal || PayKey(inv) in s.byAddress
  {
    LookupIsSearch(s.byExternal, s.invoices, OrderKey, OrderKey(inv));
    LookupIsSearch(s.byAddress, s.invoices, PayKey, PayKey(inv));
  }

  lemma InvoiceRowAlike(r: InvoiceCreate, now: Time)
    requires WholeSecond(now) && (r.expiresAt.Some? ==> WholeSecond(r.expiresAt.value))
    requires TrimSpace(r.createdAfterHash) == r.createdAfterHash
    ensures InvoiceRow(r, now) == r.NewInvoice(now)
  {
    hide TrimSpace;
    WholeTimes(now, if r.expiresAt.Some? then r.expiresAt.value else 0);
    if r.expiresAt.Some? {
      WholeTimes(r.expiresAt.value, now);
    }
  }

  /** A new invoice, in both stores. */
  lemma InsertionAlike(s: State, r: InvoiceCreate, now: Time)
    requires Logged(s) && Agrees(s) && WholeSecond(now)
    ensures var id, s' := s.invoiceSeq + 1, InsertInvoice(s, r, now);
            && Dense(s'.reviews)
            && DatabaseOf(s') == DatabaseOf(s).(
                 invoiceSeq := id, tables := TablesOf(s).(invoices := s.invoices[id := r.NewInvoice(now)]),
                 log := InsertEvent(RowsOf(s.events.outbox), Emission(id, InvoiceCreated, now, NoSubject)))
  {
    hide InsertEvent, Merged, Dense, CasesApart, WholeExpiry, RowsOf, CasesOf, Events.Append, AgreesExcept;
    FreshInvoiceAlike(s, r, now);
  }

  lemma CreationAlike(s: State, req: InvoiceCreate, now: Time)
    requires Ready(s) && TameOrder(s, req, now)
    ensures Dense(CreateInvoice(s, req, now).0.reviews)
    ensures CreateInvoiceTx(DatabaseOf(s), req, now).0 == DatabaseOf(CreateInvoice(s, req, now).0)
  {
    hide TrimSpace, ToLower, Indexed, Violates, InvoiceRow, InsertEvent, Merged, CasesApart, WholeExpiry, RowsOf,
      CasesOf, HeightsSet, AgreesExcept, InsertInvoice, Replayed;
    var r := req.Normal();
    InvoiceRowAlike(r, now);
    ViolatesAlike(s, r.NewInvoice(now));
    InsertionAlike(s, r, now);
    hide DatabaseOf, Dense;
  }

  lemma FreshInvoiceAlike(s: State, r: InvoiceCreate, now: Time)
    requires Logged(s) && Agrees(s) && WholeSecond(now)
    ensures RowsOf(InsertInvoice(s, r, now).events.outbox)
         == InsertEvent(RowsOf(s.events.outbox), Emission(s.invoiceSeq + 1, InvoiceCreated, now, NoSubject))
  {
    hide InsertEvent, Merged, Dense, CasesApart, WholeExpiry, RowsOf, Events.Append, AgreesExcept;
    var id := s.invoiceSeq + 1;
    var owners := Owners(s.invoices[id := r.NewInvoice(now)]);
    MoreOwners(s, r.NewInvoice(now));
    InsertAlike(s.events, Emission(id, InvoiceCreated, now, NoSubject), owners, s.sinks);
  }

  lemma MoreOwners(s: State, inv: Invoice)
    requires Merged(s.events, Owners(s.invoices)) && Agrees(s)
    ensures var owners := Owners(s.invoices[s.invoiceSeq + 1 := inv]);
            s.invoiceSeq + 1 in owners && Merged(s.events, owners)
  {
    hide Merged, AgreesExcept;
    History.MergedWithMoreOwners(s.events, Owners(s.invoices), Owners(s.invoices[s.invoiceSeq + 1 := inv]));
  }

  lemma MaybeInsertAlike(e: Events, em: Emission, owners: map<InvoiceId, MerchantId>, sinks: map<SinkId, Sink>)
    requires Merged(e, owners) && (em.inv == 0 || Sayable(em, owners))
    ensures RowsOf(e.Append(em, owners, sinks).outbox) == if em.inv == 0 then RowsOf(e.outbox)
            else InsertEvent(RowsOf(e.outbox), em)
  {
    if em.inv != 0 {
      hide Events.Append, InsertEvent, Merged;
      InsertAlike(e, em, owners, sinks);
    }
  }

  /** An accepted refund, in both stores. */
  lemma RecordedRefundAlike(s: State, refund: Refund, em: Emission)
    requires Logged(s) && (em.inv == 0 || Sayable(em, Owners(s.invoices)))
    ensures var s' := AppendEvent(s.(refunds := s.refunds + [refund]), em.inv, em.typ, em.at, em.subject);
            && Dense(s'.reviews)
            && DatabaseOf(s') == DatabaseOf(s).(
                 refunds := s.refunds + [refund],
                 log := if em.inv == 0 then RowsOf(s.events.outbox) else InsertEvent(RowsOf(s.events.outbox), em))
  {
    hide InsertEvent, Merged, Dense, CasesApart, WholeExpiry, RowsOf, CasesOf, Events.Append;
    MaybeInsertAlike(s.events, em, Owners(s.invoices), s.sinks);
  }

  lemma RefundAlike(s: State, req: RefundCreate, now: Time)
    requires Logged(s) && WholeSecond(now)
    ensures Dense(CreateRefund(s, req, now).0.reviews)
    ensures Committed(DatabaseOf(s), RefundTx(DatabaseOf(s), req, now)) == DatabaseOf(CreateRefund(s, req, now).0)
  {
    hide TrimSpace, InsertEvent, Merged, CasesApart, WholeExpiry, RowsOf, CasesOf, AppendEvent, Whole, WholeSecond;
    WholeTimes(now, now);
    var r := CreateRefund(s, req, now).1;
    if r.Ok? {
      var typ := if r.value.sentTxid == "" then RefundRequested else RefundSent;
      RecordedRefundAlike(s, r.value, Emission(req.invoice, typ, now, OfRefund(r.value)));
      hide Dense;
    }
  }

  lemma WalletAlike(s: State, m: MerchantId, w: Wallet, now: Time)
    requires Dense(s.reviews) && WholeSecond(now) && 0 !in s.merchants
    ensures Committed(DatabaseOf(s), SetWalletTx(DatabaseOf(s), m, w, now))
            == DatabaseOf(SetMerchantWallet(s, m, w, now).0)
  {
    hide TrimSpace, Dense, RowsOf, CasesOf;
    WholeTimes(now, now);
  }

  /** A known order for the same amount but another wallet or address is refused by the SQL store alone. */
  predicate OtherAddress(s: State, r: InvoiceCreate) {
    var key := (r.merchant, r.externalOrder);
    && r.Usable() && key in s.byExternal && s.byExternal[key] in s.invoices
    && var inv := s.invoices[s.byExternal[key]];
       inv.amount == r.amount && (inv.wallet != r.wallet || inv.address != r.address)
  }

  lemma ReplayedAlike(s: State, r: InvoiceCreate)
    requires Indexed(s)
    ensures Replayed(TablesOf(s), r) ==
              var key := (r.merchant, r.externalOrder);
              if key !in s.byExternal || s.byExternal[key] !in s.invoices then Err(Conflict) else
              var inv := s.invoices[s.byExternal[key]];
              if inv.amount != r.amount || inv.wallet != r.wallet || inv.address != r.address then Err(Conflict)
              else Ok(Created(s.byExternal[key], inv, false))
  {
    var key := (r.merchant, r.externalOrder);
    LookupIsSearch(s.byExternal, s.invoices, OrderKey, key);
    assert forall i: InvoiceId :: IsOrder(TablesOf(s), i, r.merchant, r.externalOrder) <==>
        i in s.invoices && OrderKey(s.invoices[i]) == key;
    if key in s.byExternal {
      var i :| i in s.invoices && OrderKey(s.invoices[i]) == key;
      assert IsOrder(TablesOf(s), s.byExternal[key], r.merchant, r.externalOrder);
    }
  }

  /** Both stores answer a tame request alike, except in exactly that case. */
  lemma CreationAnswers(s: State, req: InvoiceCreate, now: Time)
    requires Ready(s) && TameOrder(s, req, now)
    ensures CreateInvoiceTx(DatabaseOf(s), req, now).1 == CreateInvoice(s, req, now).1 <==>
            !OtherAddress(s, req.Normal())
  {
    hide TrimSpace, ToLower, Indexed, Violates, InvoiceRow, InsertEvent, Merged, CasesApart, WholeExpiry, RowsOf,
      CasesOf, HeightsSet, Dense, AgreesExcept, InsertInvoice, Replayed;
    var r := req.Normal();
    InvoiceRowAlike(r, now);
    ViolatesAlike(s, r.NewInvoice(now));
    ReplayedAlike(s, r);
    hide DatabaseOf;
  }

  /** No other case of the invoice has been closed in the same way. */
  ghost predicate TameClose(r: Reviews, id: ReviewId, verdict: ReviewStatus) {
    id in r.cases ==>
      forall x :: x in r.cases && x != id ==>
        !SameInvoiceCase(r.cases[x], r.cases[id].merchant, r.cases[id].invoice, r.cases[id].reason, verdict)
  }

  lemma CloseFree(r: Reviews, id: ReviewId, verdict: ReviewStatus)
    requires Dense(r) && TameClose(r, id, verdict) && 1 <= id <= r.lastId
    ensures !CloseBlocked(CasesOf(r), id - 1, verdict)
  {
  }

  lemma CloseAlike(s: State, id: ReviewId, verdict: ReviewStatus, notes: string, now: Time)
    requires Logged(s) && WholeSecond(now) && TameClose(s.reviews, id, verdict)
    ensures Logged(CloseReview(s, id, verdict, notes, now).0)
    ensures Committed(DatabaseOf(s), CloseReviewTx(DatabaseOf(s), id, verdict, notes, now))
         == DatabaseOf(CloseReview(s, id, verdict, notes, now).0)
  {
    if 1 <= id <= s.reviews.lastId {
      CloseFree(s.reviews, id, verdict);
    }
    hide TrimSpace, CloseBlocked, Merged, WholeExpiry, RowsOf, TameClose;
    WholeTimes(now, now);
  }

  lemma MerchantAlike(s: State, name: string, settings: Settings, now: Time)
    requires Dense(s.reviews)
    ensures Committed(DatabaseOf(s), CreateMerchantTx(DatabaseOf(s), name, settings))
            == DatabaseOf(CreateMerchant(s, name, settings, now).0)
  {
    hide TrimSpace, Dense, RowsOf, CasesOf;
  }

  // ----- scan events -----

  ghost predicate TameScan(s: State, ev: ScanEvent, owner: MerchantId, now: Time) {
    Effective(s, ev) && ev.kind != OtherKind ==>
      var p := ev.payload.value;
      Tame(s, ev, p, now) && TameSums(s, ev, p, now) && TameAsk(s, p, owner)
  }

  lemma ScanAlike(s: State, ev: ScanEvent, owner: MerchantId, now: Time)
    requires Ready(s) && TameScan(s, ev, owner, now)
    requires ev.payload.Some? ==> OwnerChoice(s, PayloadWallet(ev, ev.payload.value), owner)
    ensures Logged(ApplyScanEvent(s, ev, owner, now))
    ensures Committed(DatabaseOf(s), ScanTx(DatabaseOf(s), ev, now)) == DatabaseOf(ApplyScanEvent(s, ev, owner, now))
  {
    hide Comparable, Tame, TameSums, TameAsk, OwnerChoice, DepositTx, ApplyDeposit, Merged, CasesApart, WholeExpiry,
      RowsOf, CasesOf, TrimSpace, Dense;
    if Effective(s, ev) && ev.kind != OtherKind {
      TamePayload(s, ev, ev.payload.value, now);
      SqlDepositIsMemDeposit(s, ev, ev.payload.value, owner, now);
    }
  }

  lemma TamePayload(s: State, ev: ScanEvent, p: Payload, now: Time)
    requires Tame(s, ev, p, now)
    ensures PayloadWallet(ev, p) == p.wallet
  {
  }

  // ----- whole runs -----

  /** What a call has to satisfy for both stores to do the same. */
  ghost predicate TameStep(s: State, a: Action) {
    match a
    case DoScan(ev, owner, now) => TameScan(s, ev, owner, now)
    case DoConfirm(best, _, _, now) =>
      WholeSecond(now) && forall i :: i in Affected(s, best) ==>
          SumsFit(Confirmation.DepositsConfirmed(s, best, now), i)
    case DoCreateInvoice(req, now) => TameOrder(s, req, now)
    case DoSetWallet(_, _, now) => WholeSecond(now)
    case DoRefund(_, now) => WholeSecond(now)
    case DoCloseReview(id, verdict, _, now) => WholeSecond(now) && TameClose(s.reviews, id, verdict)
    case _ => true
  }

  /** Calls on tables the database model does not hold. */
  predicate Elsewhere(a: Action) {
    a.DoUpdateSettings? || a.DoNextIndex? || a.DoPutToken? || a.DoCreateSink? || a.DoUpdateDelivery?
  }

  lemma ElsewhereAlike(s: State, a: Action)
    requires Elsewhere(a) && Dense(s.reviews)
    ensures Step(s, a).reviews == s.reviews
    ensures DatabaseOf(Step(s, a)) == DatabaseOf(s) && DatabaseStep(DatabaseOf(s), a) == DatabaseOf(s)
  {
    hide NextAddressIndex, PutInvoiceToken, CreateEventSink, UpdateDelivery, Dense, RowsOf, CasesOf;
  }

  lemma MajorStepAlike(s: State, a: Action)
    requires Ready(s) && Enabled(s, a) && TameStep(s, a) && !Minor(a)
    ensures Dense(Step(s, a).reviews) && CasesApart(Step(s, a).reviews)
    ensures DatabaseStep(DatabaseOf(s), a) == DatabaseOf(Step(s, a))
  {
    hide Comparable, Merged, Dense, CasesApart, WholeExpiry, TameScan, TameOrder, ScanTx, PassTx, PassRows,
      CreateInvoiceTx, CreateInvoice, ApplyScanEvent, ConfirmPass, SumsFit, Affected, Confirmation.DepositsConfirmed,
          OwnerChoice, Lists, SelectedOf;
    if a.DoScan? {
      ScanAlike(s, a.ev, a.owner, a.now);
    } else if a.DoConfirm? {
      SqlPassIsMemPass(s, a.best, a.now, a.order, a.invOrder);
    } else {
      CreationAlike(s, a.req, a.now);
    }
  }

  lemma MinorStepAlike(s: State, a: Action)
    requires Ready(s) && Enabled(s, a) && TameStep(s, a) && Minor(a)
    ensures Dense(Step(s, a).reviews) && CasesApart(Step(s, a).reviews)
    ensures DatabaseStep(DatabaseOf(s), a) == DatabaseOf(Step(s, a))
  {
    hide Comparable, Merged, Dense, CasesApart, WholeExpiry, TameClose, CreateMerchantTx, SetWalletTx, RefundTx,
      CloseReviewTx, CreateMerchant, SetMerchantWallet, CreateRefund, CloseReview, DatabaseOf;
    if a.DoCreateMerchant? {
      MerchantAlike(s, a.name, a.settings, a.now);
    } else if a.DoSetWallet? {
      WalletAlike(s, a.m, a.w, a.now);
    } else if a.DoRefund? {
      RefundAlike(s, a.refund, a.now);
    } else if a.DoCloseReview? {
      CloseAlike(s, a.review, a.verdict, a.notes, a.now);
    } else {
      hide Step, DatabaseStep;
      ElsewhereAlike(s, a);
    }
  }

  lemma StepAlike(s: State, a: Action)
    requires Ready(s) && Enabled(s, a) && TameStep(s, a)
    ensures Dense(Step(s, a).reviews) && CasesApart(Step(s, a).reviews)
    ensures DatabaseStep(DatabaseOf(s), a) == DatabaseOf(Step(s, a))
  {
    hide Ready, Enabled, TameStep, Step, DatabaseStep;
    if Minor(a) {
      MinorStepAlike(s, a);
    } else {
      MajorStepAlike(s, a);
    }
  }

  lemma PassKeepsHeights(s: State, a: Action)
    requires HeightsSet(s.deposits) && a.DoConfirm? && Enabled(s, a)
    ensures HeightsSet(Step(s, a).deposits)
  {
    hide ConfirmPass, Affected, ReceivedOf, Refreshed;
    Confirmation.PassIsOneUpdate(s, a.best, a.now, a.order, a.invOrder);
  }

  lemma ScanKeepsHeights(s: State, ev: ScanEvent, owner: MerchantId, now: Time)
    requires HeightsSet(s.deposits)
    ensures HeightsSet(ApplyScanEvent(s, ev, owner, now).deposits)
  {
    hide ApplyDeposit, ReceivedOf, MatchInvoice, TrimSpace, ToLower;
  }

  lemma StepKeepsHeights(s: State, a: Action)
    requires HeightsSet(s.deposits) && Enabled(s, a)
    ensures HeightsSet(Step(s, a).deposits)
  {
    if a.DoConfirm? {
      PassKeepsHeights(s, a);
    } else if a.DoScan? {
      hide ApplyScanEvent;
      ScanKeepsHeights(s, a.ev, a.owner, a.now);
    } else if a.DoCreateInvoice? {
      hide CreateInvoice;
    } else {
      hide Step;
      MinorFrame(s, a);
    }
  }

  lemma CreationKeepsWholeExpiry(s: State, req: InvoiceCreate, now: Time)
    requires WholeExpiry(s.invoices) && TameOrder(s, req, now)
    ensures WholeExpiry(CreateInvoice(s, req, now).0.invoices)
  {
    hide CreateInvoice, InsertInvoice, TrimSpace, ToLower, WholeSecond;
  }

  lemma StepKeepsWholeExpiry(s: State, a: Action)
    requires WholeExpiry(s.invoices) && Agrees(s) && Enabled(s, a) && TameStep(s, a)
    ensures WholeExpiry(Step(s, a).invoices)
  {
    if a.DoCreateInvoice? {
      hide Agrees;
      CreationKeepsWholeExpiry(s, a.req, a.now);
    } else {
      hide Step, Enabled, TameStep, Agrees;
      TermsStep(s, a);
      forall i | i in Step(s, a).invoices ensures Step(s, a).invoices[i].expiresAt == s.invoices[i].expiresAt {
        assert SameTerms(s.invoices[i], Step(s, a).invoices[i]);
      }
    }
  }

  lemma StepKeepsMerchants(s: State, a: Action)
    requires 0 !in s.merchants
    ensures 0 !in Step(s, a).merchants
  {
    if a.DoCreateMerchant? {
      hide TrimSpace;
    } else if a.DoUpdateSettings? {
    } else {
      hide Step;
      Frames.StepUntouched(s, a);
    }
  }

  lemma NoInvoiceZero(s: State)
    ensures Agrees(s) ==> 0 !in s.invoices
  {
  }

  lemma StepKeepsReady(s: State, a: Action)
    requires Ready(s) && Enabled(s, a) && TameStep(s, a)
    ensures Ready(Step(s, a))
  {
    hide Indexed, Agrees, HeightsSet, WholeExpiry, Merged, Dense, CasesApart, Step, Enabled, TameStep;
    StepKeepsIndexes(s, a);
    NoInvoiceZero(Step(s, a));
    StepKeepsAgreement(s, a);
    StepKeepsHeights(s, a);
    StepKeepsWholeExpiry(s, a);
    StepKeepsMerchants(s, a);
    StepAlike(s, a);
    History.StepKeepsMerged(s, a);
  }

  ghost predicate TameRun(s: State, acts: seq<Action>) {
    forall n :: 0 <= n < |acts| ==>
      var s1 := RunFrom(s, acts[..n]);
      Enabled(s1, acts[n]) && TameStep(s1, acts[n])
  }

  lemma TamePrefix(s: State, acts: seq<Action>)
    requires TameRun(s, acts) && acts != []
    ensures TameRun(s, acts[..|acts| - 1])
    ensures var s1 := RunFrom(s, acts[..|acts| - 1]); Enabled(s1, acts[|acts| - 1]) && TameStep(s1, acts[|acts| - 1])
  {
    hide RunFrom, Enabled, TameStep;
    var before := acts[..|acts| - 1];
    assert forall n :: 0 <= n < |before| ==> before[..n] == acts[..n] && before[n] == acts[n];
  }

  /** Over any tame run of any calls the database goes through the states of the ledger. */
  lemma {:induction false} SqlRunIsMemRun(s: State, acts: seq<Action>)
    requires Ready(s) && TameRun(s, acts)
    ensures Ready(RunFrom(s, acts))
    ensures DatabaseRun(DatabaseOf(s), acts) == DatabaseOf(RunFrom(s, acts))
  {
    hide Ready, Enabled, Step, DatabaseStep, TameStep, DatabaseOf;
    if acts != [] {
      TamePrefix(s, acts);
      var before := acts[..|acts| - 1];
      SqlRunIsMemRun(s, before);
      hide TameRun;
      StepAlike(RunFrom(s, before), acts[|acts| - 1]);
      StepKeepsReady(RunFrom(s, before), acts[|acts| - 1]);
    }
  }

  lemma NewStoreIsReady()
    ensures Ready(EMPTY) && DatabaseOf(EMPTY) == EMPTY_DATABASE
  {
  }

  /** From a new store and an empty database on, the database has the contents of the store after every tame run. */
  lemma SqlStoreIsMemStore(acts: seq<Action>)
    requires TameRun(EMPTY, acts)
    ensures Ready(Run(acts)) && DatabaseRun(EMPTY_DATABASE, acts) == DatabaseOf(Run(acts))
  {
    hide Ready, TameRun, DatabaseOf;
    NewStoreIsReady();
    SqlRunIsMemRun(EMPTY, acts);
    RunIsRunFrom(acts);
  }

  // ----- where runs can start -----

  ghost predicate Apart(asks: seq<Ask>) {
    forall a :: a in asks && a.inv != 0 ==> a.dep == NO_DEPOSIT
  }

  lemma {:induction false} OpenAllKeepsCases(r: Reviews, asks: seq<Ask>)
    requires Dense(r) && CasesApart(r) && Apart(asks)
    ensures Dense(OpenAll(r, asks)) && CasesApart(OpenAll(r, asks))
  {
    if asks != [] {
      assert forall a :: a in asks[..|asks| - 1] ==> a in asks;
      OpenAllKeepsCases(r, asks[..|asks| - 1]);
      hide OpenAll;
    }
  }

  lemma {:induction false} PassAsksApart(s: State, invOrder: seq<InvoiceId>, deposits: map<DepKey, Deposit>, now: Time)
    ensures Apart(RefreshAllAsks(s, invOrder, deposits, now))
  {
    hide Refreshed, ReceivedOf, StatusReview;
    if invOrder != [] {
      PassAsksApart(s, invOrder[..|invOrder| - 1], deposits, now);
    }
  }

  lemma AsksApart(s: State, a: Action)
    ensures Apart(Asks(s, a))
  {
    hide DepositAfter, Refreshed, ReceivedOf, StatusReview, RefreshAllAsks;
    if a.DoConfirm? {
      PassAsksApart(s, a.invOrder, Confirmation.DepositsConfirmed(s, a.best, a.now), a.now);
    }
  }

  lemma StepKeepsCases(s: State, a: Action)
    requires Dense(s.reviews) && CasesApart(s.reviews) && Enabled(s, a)
    ensures Dense(Step(s, a).reviews) && CasesApart(Step(s, a).reviews)
  {
    if a.DoCloseReview? {
      hide TrimSpace;
    } else {
      StepOpens(s, a);
      AsksApart(s, a);
      hide Step, Asks, Enabled, Apart;
      OpenAllKeepsCases(s.reviews, Asks(s, a));
    }
  }

  lemma {:induction false} CasesAlwaysDense(acts: seq<Action>)
    requires Legal(acts)
    ensures Dense(Run(acts).reviews) && CasesApart(Run(acts).reviews) && 0 !in Run(acts).merchants
            && HeightsSet(Run(acts).deposits)
  {
    if acts != [] {
      LegalPrefix(acts);
      var before, a := acts[..|acts| - 1], acts[|acts| - 1];
      CasesAlwaysDense(before);
      hide Step, Enabled, Dense, CasesApart, HeightsSet;
      StepKeepsCases(Run(before), a);
      StepKeepsMerchants(Run(before), a);
      StepKeepsHeights(Run(before), a);
    }
  }

  /** Every reachable store whose expiries are whole seconds is one to start from. */
  lemma ReachableIsReady(acts: seq<Action>)
    requires Legal(acts) && WholeExpiry(Run(acts).invoices)
    ensures Ready(Run(acts))
  {
    hide Run, Indexed, Agrees, HeightsSet, WholeExpiry, Merged, Dense, CasesApart;
    IndexesAreSearches(acts);
    LedgerAgreement(acts);
    NoInvoiceZero(Run(acts));
    CasesAlwaysDense(acts);
    History.OutboxIsMerge(acts);
  }
}
