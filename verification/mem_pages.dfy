/** The lists of the in-memory store, and what its growing logs mean for a live tail. */
module MemPages {
  import opened Domain
  import opened Ledger
  import opened Runs
  import opened Cursors
  import opened Paging
  import opened MemStore
  import Emissions
  import EventTables
  import History

  // ----- events of an invoice -----

  method ListInvoiceEvents(st: Store, inv: InvoiceId, afterId: int, limit: int) returns (r: Result<Page<InvoiceEvent>>)
    requires inv in st.invoiceEvents ==> Ascending(st.invoiceEvents[inv], EventNumber)
    ensures r == if inv == 0 then Err(InvalidArgument)
                 else Ok(PageOf(if inv in st.invoiceEvents then st.invoiceEvents[inv]
                       else [], EventNumber, afterId, limit))
  {
    hide PageOf, After;
    if inv == 0 {
      return Err(InvalidArgument);
    }
    var most := Limit(limit);
    var evs := if inv in st.invoiceEvents then st.invoiceEvents[inv] else [];
    ghost var first, rest := Passed(evs, EventNumber, afterId), After(evs, EventNumber, afterId);
    AfterStarts(evs, afterId);
    var out: seq<InvoiceEvent>, next := [], 0;
    var i := 0;
    while i < |evs|
      invariant i <= |evs| && |out| < most && out <= rest
      invariant |out| == if i <= first then 0 else i - first
      invariant next == if out == [] then 0 else out[|out| - 1].id
    {
      if evs[i].id > afterId {
        assert rest[|out|] == evs[i];
        out := out + [evs[i]];
        next := evs[i].id;
        if |out| >= most {
          break;
        }
      }
      i := i + 1;
    }
    PageIs(evs, EventNumber, afterId, limit, out);
    r := Ok(Page(out, next));
  }

  lemma AfterStarts(evs: seq<InvoiceEvent>, afterId: int)
    requires Ascending(evs, EventNumber)
    ensures var first, rest := Passed(evs, EventNumber, afterId), After(evs, EventNumber, afterId);
            && first + |rest| == |evs|
            && forall i :: 0 <= i < |evs| ==>
                if evs[i].id > afterId then i >= first && rest[i - first] == evs[i] else i < first
  {
    hide Passed;
    PassedSplits(evs, EventNumber, afterId);
  }

  // ----- invoices -----

  /** `merchant` zero, no status and an empty order match every invoice. */
  datatype InvoiceFilter = InvoiceFilter(merchant: MerchantId, status: Option<InvoiceStatus>, externalOrder: string) {
    predicate Matches(inv: Invoice) {
      && (merchant == 0 || inv.merchant == merchant)
      && (status.None? || inv.status == status.value)
      && (externalOrder == "" || inv.externalOrder == externalOrder)
    }
  }

  ghost predicate IsMatch(invoices: map<InvoiceId, Invoice>, f: InvoiceFilter, id: InvoiceId) {
    id in invoices && f.Matches(invoices[id])
  }

  /** The ids of the matching invoices, in the order of creation. */
  ghost predicate MatchList(invoices: map<InvoiceId, Invoice>, f: InvoiceFilter, ids: seq<InvoiceId>) {
    Ascending(ids, Itself) && forall id: InvoiceId :: id in ids <==> IsMatch(invoices, f, id)
  }

  ghost function AllMatches(invoices: map<InvoiceId, Invoice>, f: InvoiceFilter): (all: seq<InvoiceId>)
    ensures MatchList(invoices, f, all)
  {
    assert exists all :: MatchList(invoices, f, all) by {
      var all := MatchListExists(invoices, f);
    }
    var all :| MatchList(invoices, f, all);
    all
  }

  /** A page of the list of all matching invoices. */
  method ListInvoices(st: Store, f: InvoiceFilter, after: int, limit: int) returns (page: Page<InvoiceId>)
    ensures page == PageOf(AllMatches(st.invoices, f), Itself, if after < 0 then 0 else after, limit)
  {
    hide MatchList, SortedList, PageOf, After;
    ghost var all := AllMatches(st.invoices, f);
    var afterId := if after < 0 then 0 else after;
    var found := Collect(st.invoices, f, afterId);
    var recs := Sort(found);
    SortedIsAfter(st.invoices, f, all, afterId, found, recs);
    var out: seq<InvoiceId>, next := [], 0;
    while |out| < |recs|
      invariant out <= recs && |out| < Limit(limit)
      invariant next == if out == [] then 0 else out[|out| - 1]
      decreases |recs| - |out|
    {
      next := recs[|out|];
      out := out + [recs[|out|]];
      if |out| >= Limit(limit) {
        break;
      }
    }
    PageIs(all, Itself, afterId, limit, out);
    page := Page(out, next);
  }

  method Collect(invoices: map<InvoiceId, Invoice>, f: InvoiceFilter, afterId: int) returns (found: set<InvoiceId>)
    ensures forall id: InvoiceId :: id in found <==> IsMatch(invoices, f, id) && id > afterId
  {
    found := {};
    var todo := invoices.Keys;
    while todo != {}
      invariant todo <= invoices.Keys
      invariant forall id: InvoiceId :: id in found <==> id !in todo && IsMatch(invoices, f, id) && id > afterId
      decreases todo
    {
      var id :| id in todo;
      todo := todo - {id};
      if f.Matches(invoices[id]) && id > afterId {
        found := found + {id};
      }
    }
  }

  lemma SortedIsAfter(invoices: map<InvoiceId, Invoice>, f: InvoiceFilter, all: seq<InvoiceId>, afterId: int,
                      found: set<InvoiceId>, recs: seq<InvoiceId>)
    requires MatchList(invoices, f, all) && SortedList(recs, found)
    requires forall id: InvoiceId :: id in found <==> IsMatch(invoices, f, id) && id > afterId
    ensures recs == After(all, Itself, afterId)
  {
    hide Passed, After, IsMatch;
    AfterIsFilter(all, Itself, afterId);
    assert SortedList(After(all, Itself, afterId), found);
    SortedOnce(recs, After(all, Itself, afterId), found);
  }

  /** There always is one list of the matching invoices, so the pages of different calls are pages of the same list. */
  lemma MatchListExists(invoices: map<InvoiceId, Invoice>, f: InvoiceFilter) returns (all: seq<InvoiceId>)
    ensures MatchList(invoices, f, all)
    ensures forall other :: MatchList(invoices, f, other) ==> other == all
  {
    var ids := set id | id in invoices && f.Matches(invoices[id]);
    all := SortedExists(ids);
    assert forall id: InvoiceId :: id in ids <==> IsMatch(invoices, f, id);
    forall other | MatchList(invoices, f, other) ensures other == all {
      assert SortedList(other, ids);
      SortedOnce(other, all, ids);
    }
  }

  lemma {:induction false} SortedExists(elems: set<nat>) returns (ids: seq<nat>)
    ensures SortedList(ids, elems)
    decreases elems
  {
    if elems == {} {
      ids := [];
    } else {
      var top := Greatest(elems);
      var rest := SortedExists(elems - {top});
      SortedBelow(rest, elems - {top}, top);
      InsertSorted(rest, elems - {top}, top, |rest|);
      assert rest[..|rest|] + [top] + rest[|rest|..] == rest + [top];
      assert elems - {top} + {top} == elems;
      ids := rest + [top];
    }
  }

  lemma SortedBelow(ids: seq<nat>, elems: set<nat>, top: nat)
    requires SortedList(ids, elems) && forall n :: n in elems ==> n < top
    ensures forall i :: 0 <= i < |ids| ==> ids[i] < top
  {
    forall i | 0 <= i < |ids| ensures ids[i] < top {
      assert ids[i] in ids;
    }
  }

  lemma {:induction false} Greatest(elems: set<nat>) returns (top: nat)
    requires elems != {}
    ensures top in elems && forall n :: n in elems && n != top ==> n < top
    decreases elems
  {
    top :| top in elems;
    var rest := elems - {top};
    assert elems == rest + {top};
    if rest != {} {
      var other := Greatest(rest);
      if other > top {
        top := other;
      }
    }
  }

  // ----- logs over a run -----

  /** The log of every invoice only grows. */
  lemma {:induction false} LogsOnlyGrow(acts: seq<Action>, m: nat, i: InvoiceId)
    requires Legal(acts) && m <= |acts|
    ensures Run(acts[..m]).events.Log(i) <= Run(acts).events.Log(i)
    decreases |acts|
  {
    hide Step, Enabled;
    if m == |acts| {
      assert acts[..m] == acts;
    } else {
      LegalPrefix(acts);
      var before := acts[..|acts| - 1];
      LogsOnlyGrow(before, m, i);
      assert before[..m] == acts[..m];
      StepGrowsLog(Run(before), acts[|acts| - 1], i);
    }
  }

  lemma StepGrowsLog(s: State, a: Action, i: InvoiceId)
    requires Enabled(s, a)
    ensures s.events.Log(i) <= Step(s, a).events.Log(i)
  {
    if a.DoUpdateDelivery? {
      assert Step(s, a).events.Log(i) == s.events.Log(i);
    } else {
      hide Step, Enabled, Owners, Emissions.News, Events.AppendAll;
      Emissions.StepSays(s, a);
      AppendAllGrows(s.events, Emissions.News(s, a), Owners(Step(s, a).invoices), s.sinks, i);
    }
  }

  lemma {:induction false} AppendAllGrows(e: Events, es: seq<Emission>, owners: map<InvoiceId, MerchantId>,
                                          sinks: map<SinkId, Sink>, i: InvoiceId)
    ensures e.Log(i) <= e.AppendAll(es, owners, sinks).Log(i)
  {
    if es != [] {
      hide Events.Append;
      AppendAllGrows(e, es[..|es| - 1], owners, sinks, i);
      EventTables.AppendExtends(e.AppendAll(es[..|es| - 1], owners, sinks), es[|es| - 1], owners, sinks);
    }
  }

  /** The log of an invoice as a stream reads it at successive moments of a run. */
  ghost function Readings(acts: seq<Action>, moments: seq<nat>, i: InvoiceId): (r: seq<seq<InvoiceEvent>>)
    requires forall n :: 0 <= n < |moments| ==> moments[n] <= |acts|
  {
    seq(|moments|, n requires 0 <= n < |moments| => Run(acts[..moments[n]]).events.Log(i))
  }

  lemma LogsAscend(acts: seq<Action>, i: InvoiceId)
    requires Legal(acts)
    ensures Ascending(Run(acts).events.Log(i), EventNumber)
  {
    hide Run, Legal, EventTables.Merged, Ascending, Owners;
    History.OutboxIsMerge(acts);
    MergedAscends(Run(acts).events, Owners(Run(acts).invoices), i);
  }

  lemma MergedAscends(e: Events, owners: map<InvoiceId, MerchantId>, i: InvoiceId)
    requires EventTables.Merged(e, owners)
    ensures Ascending(e.Log(i), EventNumber)
  {
    EventTables.ProjectIncreases(e.outbox, i);
    IncreasingAscends(EventTables.Project(e.outbox, i), |e.outbox|);
    hide Ascending, EventTables.Increases, EventTables.Project;
    assert e.Log(i) == EventTables.Project(e.outbox, i);
  }

  lemma IncreasingAscends(log: seq<InvoiceEvent>, bound: nat)
    requires EventTables.Increases(log, bound)
    ensures Ascending(log, EventNumber)
  {
  }

  lemma GrowsBetween(acts: seq<Action>, m: nat, n: nat, i: InvoiceId)
    requires Legal(acts) && m <= n <= |acts|
    ensures Run(acts[..m]).events.Log(i) <= Run(acts[..n]).events.Log(i)
  {
    hide Run, Enabled, Legal;
    LegalUntil(acts, n);
    LogsOnlyGrow(acts[..n], m, i);
    assert acts[..n][..m] == acts[..m];
  }

  lemma AscendsAt(acts: seq<Action>, n: nat, i: InvoiceId)
    requires Legal(acts) && n <= |acts|
    ensures Ascending(Run(acts[..n]).events.Log(i), EventNumber)
  {
    hide Run, Legal, Ascending;
    LegalUntil(acts, n);
    LogsAscend(acts[..n], i);
  }

  /**
   A stream over any run, ticking at any moments of it, sends the events of its invoice
   after its cursor, in order and each once.
  */
  lemma StreamOfRun(acts: seq<Action>, moments: seq<nat>, i: InvoiceId, cursor: int)
    requires Legal(acts) && moments != []
    requires forall n :: 0 <= n < |moments| ==> moments[n] <= |acts|
    requires forall m, n :: 0 <= m < n < |moments| ==> moments[m] <= moments[n]
    ensures var polls := Readings(acts, moments, i);
            Sends(PollAll(cursor, polls), Run(acts[..moments[|moments| - 1]]).events.Log(i), cursor)
  {
    hide Run, Enabled, Sends, Legal, Ascending;
    var polls := Readings(acts, moments, i);
    forall n | 0 <= n < |polls| ensures Ascending(polls[n], EventNumber) {
      AscendsAt(acts, moments[n], i);
    }
    forall m, n | 0 <= m < n < |polls| ensures polls[m] <= polls[n] {
      GrowsBetween(acts, moments[m], moments[n], i);
    }
    TailSendsOnce(cursor, polls);
  }
}
