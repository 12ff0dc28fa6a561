/**
 The polling pass of the ingestor: for each merchant wallet, pages of the
 scanner's log from the stored cursor on, applied one event at a time. A pass
 can be cut short before any of its calls, and stops at an unreadable event.
*/
module IngestSync {
  import opened Domain
  import opened Text
  import opened Ledger
  import opened Runs
  import opened Cursors
  import opened Ingest
  import opened MemStore
  import opened Wallets

  const PAGE := 200

  /** A page of the scanner's list, and the cursor to ask for the next one with. */
  function Page(log: seq<ScanEvent>, cursor: int, limit: nat): (r: (seq<ScanEvent>, int))
    ensures r.0 <= After(log, Position, cursor)
            && |r.0| == if |After(log, Position, cursor)| <= limit then |After(log, Position, cursor)| else limit
    ensures r.0 != [] ==> r.1 == r.0[|r.0| - 1].cursor
  {
    var rest := After(log, Position, cursor);
    var page := rest[..if |rest| <= limit then |rest| else limit];
    (page, if page == [] then cursor else page[|page| - 1].cursor)
  }

  // ----- what a pass hands to the ledger -----

  /** Calls that apply scan events of one wallet only. */
  ghost predicate ScansOf(acts: seq<Action>, wallet: string) {
    forall n :: 0 <= n < |acts| ==> acts[n].DoScan? && TrimSpace(acts[n].ev.wallet) == wallet && Readable(acts[n].ev)
  }

  lemma {:induction false} EventsOfConcat(acts: seq<Action>, more: seq<Action>, wallet: string)
    ensures EventsOf(acts + more, wallet) == EventsOf(acts, wallet) + EventsOf(more, wallet)
  {
    if more == [] {
      assert acts + more == acts;
    } else {
      assert (acts + more)[..|acts + more| - 1] == acts + more[..|more| - 1];
      EventsOfConcat(acts, more[..|more| - 1], wallet);
    }
  }

  lemma {:induction false} ScansOfOthers(acts: seq<Action>, wallet: string, other: string)
    requires ScansOf(acts, wallet) && wallet != other
    ensures EventsOf(acts, other) == []
  {
    if acts != [] {
      ScansOfOthers(acts[..|acts| - 1], wallet, other);
    }
  }

  /** After events from the log in order the stored cursor is that of the last one. */
  lemma {:induction false} CursorFollows(s: State, acts: seq<Action>, log: seq<ScanEvent>, wallet: string)
    requires Ordered(log, wallet) && wallet != ""
    requires EventsOf(acts, wallet) <= After(log, Position, CursorOf(s, wallet))
    requires forall n :: 0 <= n < |acts| && acts[n].DoScan? && TrimSpace(acts[n].ev.wallet) == wallet ==>
            Readable(acts[n].ev)
    ensures CursorOf(RunFrom(s, acts), wallet) == CursorAfter(Position, CursorOf(s, wallet), EventsOf(acts, wallet))
  {
    hide CursorOf, Step, Readable, Passed;
    if acts != [] {
      var rest, a := acts[..|acts| - 1], acts[|acts| - 1];
      assert forall n :: 0 <= n < |rest| ==> rest[n] == acts[n];
      CursorFollows(s, rest, log, wallet);
      StepCursor(RunFrom(s, rest), a, wallet);
      if a.DoScan? && TrimSpace(a.ev.wallet) == wallet {
        var done := EventsOf(rest, wallet);
        AfterPrefix(log, Position, CursorOf(s, wallet), done);
        assert After(log, Position, CursorOf(s, wallet))[|done|] == a.ev;
        FirstAfter(log, Position, CursorAfter(Position, CursorOf(s, wallet), done));
      }
    }
  }

  /** A store some calls away from an earlier one, having applied the next events of a log. */
  ghost predicate Progress(s: State, acts: seq<Action>, s': State, log: seq<ScanEvent>, wallet: string) {
    && s' == RunFrom(s, acts) && LegalFrom(s, acts) && ScansOf(acts, wallet)
    && EventsOf(acts, wallet) <= After(log, Position, CursorOf(s, wallet))
  }

  lemma NoProgress(s: State, log: seq<ScanEvent>, wallet: string)
    ensures Progress(s, [], s, log, wallet) && EventsOf([], wallet) == []
  {
  }

  lemma ProgressCursor(s: State, acts: seq<Action>, s': State, log: seq<ScanEvent>, wallet: string)
    requires wallet != "" && Ordered(log, wallet) && Progress(s, acts, s', log, wallet)
    ensures CursorOf(s', wallet) == CursorAfter(Position, CursorOf(s, wallet), EventsOf(acts, wallet))
    ensures EventsOf(acts, wallet) <= After(log, Position, CursorOf(s, wallet))
    ensures After(log, Position, CursorOf(s', wallet))
            == After(log, Position, CursorOf(s, wallet))[|EventsOf(acts, wallet)|..]
  {
    hide RunFrom, CursorOf, After, EventsOf;
    CursorFollows(s, acts, log, wallet);
    AfterPrefix(log, Position, CursorOf(s, wallet), EventsOf(acts, wallet));
  }

  lemma ProgressStep(s: State, acts: seq<Action>, s': State, log: seq<ScanEvent>, wallet: string, a: Action)
    requires wallet != "" && Ordered(log, wallet) && Progress(s, acts, s', log, wallet)
    requires a.DoScan? && Enabled(s', a) && Readable(a.ev) && TrimSpace(a.ev.wallet) == wallet
    requires |EventsOf(acts, wallet)| < |After(log, Position, CursorOf(s, wallet))|
    requires a.ev == After(log, Position, CursorOf(s, wallet))[|EventsOf(acts, wallet)|]
    ensures Progress(s, acts + [a], Step(s', a), log, wallet)
    ensures EventsOf(acts + [a], wallet) == EventsOf(acts, wallet) + [a.ev]
  {
    hide Enabled, Step, CursorOf, After, Readable, Ordered, RunFrom, LegalFrom, EventsOf;
    RunFromOneMore(s, acts, a);
    LegalFromOneMore(s, acts, a);
    EventsOfOneMore(acts, a, wallet);
  }

  lemma EventsOfOneMore(acts: seq<Action>, a: Action, wallet: string)
    ensures EventsOf(acts + [a], wallet)
         == EventsOf(acts, wallet) + if a.DoScan? && TrimSpace(a.ev.wallet) == wallet then [a.ev] else []
  {
    assert (acts + [a])[..|acts|] == acts;
  }

  /** The next event is refused exactly when it cannot be read. */
  lemma NextEventResult(s: State, log: seq<ScanEvent>, wallet: string)
    requires wallet != "" && Ordered(log, wallet) && After(log, Position, CursorOf(s, wallet)) != []
    ensures var ev := After(log, Position, CursorOf(s, wallet))[0];
            TrimSpace(ev.wallet) == wallet && (ScanEventResult(s, ev).Ok? <==> Readable(ev))
  {
    hide CursorOf, Passed;
    FirstAfter(log, Position, CursorOf(s, wallet));
  }

  lemma UnreadableIgnored(s: State, ev: ScanEvent, owner: MerchantId, now: Time)
    requires !Readable(ev)
    ensures ApplyScanEvent(s, ev, owner, now) == s
  {
  }

  lemma ScanEnabled(s: State, ev: ScanEvent, owner: MerchantId, now: Time)
    requires ev.payload.Some? ==> OwnerChoice(s, PayloadWallet(ev, ev.payload.value), owner)
    ensures Enabled(s, DoScan(ev, owner, now)) && Step(s, DoScan(ev, owner, now)) == ApplyScanEvent(s, ev, owner, now)
  {
    hide ApplyScanEvent;
  }

  /** A pass that goes on after other events have been applied: both together are one stretch of the log. */
  lemma ProgressAgain(s: State, acts: seq<Action>, s': State, more: seq<Action>, log: seq<ScanEvent>, wallet: string)
    requires wallet != "" && Ordered(log, wallet) && s' == RunFrom(s, acts)
    requires EventsOf(acts, wallet) <= After(log, Position, CursorOf(s, wallet))
    requires forall n :: 0 <= n < |acts| && acts[n].DoScan? ==> Readable(acts[n].ev)
    requires EventsOf(more, wallet) <= After(log, Position, CursorOf(s', wallet))
    ensures EventsOf(acts + more, wallet) <= After(log, Position, CursorOf(s, wallet))
    ensures EventsOf(more, wallet) == After(log, Position, CursorOf(s', wallet)) ==>
            EventsOf(acts + more, wallet) == After(log, Position, CursorOf(s, wallet))
  {
    hide RunFrom, CursorOf, After, EventsOf, Readable;
    CursorFollows(s, acts, log, wallet);
    AfterPrefix(log, Position, CursorOf(s, wallet), EventsOf(acts, wallet));
    EventsOfConcat(acts, more, wallet);
  }

  // ----- one pass -----

  function LogOf(feed: map<string, seq<ScanEvent>>, wallet: string): (r: seq<ScanEvent>) {
    if wallet in feed then feed[wallet] else []
  }

  /** The first entry of a log the store has not taken yet cannot be read. */
  predicate StuckAt(log: seq<ScanEvent>, cursor: int) {
    After(log, Position, cursor) != [] && !Readable(After(log, Position, cursor)[0])
  }

  predicate StuckIn(s: State, feed: map<string, seq<ScanEvent>>, wallet: string) {
    StuckAt(LogOf(feed, wallet), CursorOf(s, wallet))
  }

  /** Applies the next event of the log, unless it cannot be read. */
  method ApplyNext(st: Store, log: seq<ScanEvent>, wallet: string, ev: ScanEvent, ghost s: State,
                   ghost acts: seq<Action>)
    returns (ok: bool, ghost acts': seq<Action>)
    requires st.Valid() && wallet != "" && Ordered(log, wallet) && Progress(s, acts, st.Abs(), log, wallet)
    requires After(log, Position, CursorOf(st.Abs(), wallet)) != []
            && After(log, Position, CursorOf(st.Abs(), wallet))[0] == ev
    modifies st
    ensures st.Valid() && Progress(s, acts', st.Abs(), log, wallet)
    ensures ok ==> |EventsOf(acts', wallet)| == |EventsOf(acts, wallet)| + 1 && CursorOf(st.Abs(), wallet) == ev.cursor
    ensures !ok ==> StuckAt(log, CursorOf(st.Abs(), wallet))
  {
    hide Progress, Store.Valid, Store.Abs, CursorOf, After, Ordered, Readable, ScanEventResult, Ledger.ApplyScanEvent,
      EventsOf, LegalFrom, RunFrom, ScansOf, Enabled, Step, OwnerChoice, TrimSpace;
    var now: Time := *;
    ghost var s1 := st.Abs();
    ProgressCursor(s, acts, s1, log, wallet);
    NextEventResult(s1, log, wallet);
    var r, owner := st.ApplyScanEvent(ev, now);
    if r.Err? {
      UnreadableIgnored(s1, ev, owner, now);
      return false, acts;
    }
    ScanEnabled(s1, ev, owner, now);
    ProgressStep(s, acts, s1, log, wallet, DoScan(ev, owner, now));
    acts' := acts + [DoScan(ev, owner, now)];
    ProgressCursor(s, acts', st.Abs(), log, wallet);
    ok := true;
  }

  /** Applies a page of events. */
  method SyncPage(st: Store, log: seq<ScanEvent>, wallet: string, page: seq<ScanEvent>, budget: nat, ghost s: State,
                  ghost acts: seq<Action>)
    returns (ok: bool, left: nat, ghost acts': seq<Action>)
    requires st.Valid() && wallet != "" && Ordered(log, wallet) && Progress(s, acts, st.Abs(), log, wallet)
    requires page <= After(log, Position, CursorOf(st.Abs(), wallet))
    modifies st
    ensures st.Valid() && left <= budget && Progress(s, acts', st.Abs(), log, wallet)
    ensures ok ==> |EventsOf(acts', wallet)| == |EventsOf(acts, wallet)| + |page|
    ensures ok && page != [] ==> CursorOf(st.Abs(), wallet) == page[|page| - 1].cursor
    ensures !ok ==> left == 0 || StuckAt(log, CursorOf(st.Abs(), wallet))
  {
    hide Progress, Store.Valid, Store.Abs, CursorOf, After, Ordered, EventsOf, StuckAt;
    ghost var all := After(log, Position, CursorOf(s, wallet));
    ghost var k := |EventsOf(acts, wallet)|;
    ProgressCursor(s, acts, st.Abs(), log, wallet);
    acts', left, ok := acts, budget, false;
    for n := 0 to |page|
      invariant st.Valid() && left <= budget && !ok && Progress(s, acts', st.Abs(), log, wallet)
      invariant |EventsOf(acts', wallet)| == k + n
      invariant n > 0 ==> CursorOf(st.Abs(), wallet) == page[n - 1].cursor
    {
      if left == 0 {
        return;
      }
      left := left - 1;
      ProgressCursor(s, acts', st.Abs(), log, wallet);
      assert all[k + n] == page[n];
      var applied;
      applied, acts' := ApplyNext(st, log, wallet, page[n], s, acts');
      if !applied {
        return;
      }
    }
    ok := true;
  }

  /**
   The events of one wallet. `budget` is the number of calls that succeed
   before the pass is cut short.
  */
  method SyncWallet(st: Store, log: seq<ScanEvent>, wallet: string, budget: nat)
      returns (done: bool, left: nat, ghost acts: seq<Action>)
    requires st.Valid() && wallet != "" && TrimSpace(wallet) == wallet && Ordered(log, wallet)
    modifies st
    ensures st.Valid() && left <= budget
    ensures Progress(old(st.Abs()), acts, st.Abs(), log, wallet)
    ensures done ==> EventsOf(acts, wallet) == After(log, Position, CursorOf(old(st.Abs()), wallet))
    ensures !done ==> left == 0 || StuckAt(log, CursorOf(st.Abs(), wallet))
  {
    hide Progress, Store.Valid, Store.Abs, CursorOf, After, Ordered, EventsOf, StuckAt, Page, TrimSpace;
    ghost var s := st.Abs();
    acts, left, done := [], budget, false;
    NoProgress(s, log, wallet);
    if left == 0 {
      return;
    }
    left := left - 1;
    var stored := st.ScanCursor(wallet);
    var cursor := stored.value;
    while true
      invariant st.Valid() && left <= budget && !done
      invariant Progress(s, acts, st.Abs(), log, wallet)
      invariant cursor == CursorOf(st.Abs(), wallet)
      decreases |After(log, Position, CursorOf(s, wallet))| - |EventsOf(acts, wallet)|
    {
      if left == 0 {
        return;
      }
      left := left - 1;
      var (page, next) := Page(log, cursor, PAGE);
      ProgressCursor(s, acts, st.Abs(), log, wallet);
      if page == [] {
        done := true;
        return;
      }
      var ok;
      ok, left, acts := SyncPage(st, log, wallet, page, left, s, acts);
      if !ok {
        return;
      }
      ProgressCursor(s, acts, st.Abs(), log, wallet);
      cursor := next;
    }
  }

  // ----- all wallets -----

  predicate FeedOrdered(feed: map<string, seq<ScanEvent>>) {
    forall w :: w in feed ==> Ordered(feed[w], w)
  }

  ghost predicate Complete(s: State, acts: seq<Action>, feed: map<string, seq<ScanEvent>>, wallet: string) {
    EventsOf(acts, wallet) == After(LogOf(feed, wallet), Position, CursorOf(s, wallet))
  }

  /** For every wallet, the calls apply the next entries of its log. */
  ghost predicate AllProgress(s: State, acts: seq<Action>, s': State, feed: map<string, seq<ScanEvent>>) {
    && s' == RunFrom(s, acts) && LegalFrom(s, acts)
    && (forall n :: 0 <= n < |acts| ==> acts[n].DoScan? && Readable(acts[n].ev))
    && (forall w :: w != "" ==> EventsOf(acts, w) <= After(LogOf(feed, w), Position, CursorOf(s, w)))
  }

  lemma NoEventsNoProgress(s: State, feed: map<string, seq<ScanEvent>>)
    ensures AllProgress(s, [], s, feed)
  {
  }

  lemma {:induction false} EventsReadable(acts: seq<Action>, wallet: string)
    requires OnlyReadable(acts)
    ensures forall i :: 0 <= i < |EventsOf(acts, wallet)| ==> Readable(EventsOf(acts, wallet)[i])
  {
    hide Readable;
    if acts != [] {
      EventsReadable(acts[..|acts| - 1], wallet);
    }
  }

  lemma NothingFromStuck(log: seq<ScanEvent>, cursor: int, taken: seq<ScanEvent>)
    requires StuckAt(log, cursor) && taken <= After(log, Position, cursor)
    requires forall i :: 0 <= i < |taken| ==> Readable(taken[i])
    ensures taken == []
  {
    hide Readable, After;
  }

  /**
   A pass that starts at an unreadable event takes nothing from that log: the cursor
   stays where it is, and the log is not finished.
  */
  lemma StuckPass(s: State, acts: seq<Action>, s': State, feed: map<string, seq<ScanEvent>>, wallet: string)
    requires FeedOrdered(feed) && wallet != "" && AllProgress(s, acts, s', feed)
    requires StuckAt(LogOf(feed, wallet), CursorOf(s, wallet))
    ensures EventsOf(acts, wallet) == [] && CursorOf(s', wallet) == CursorOf(s, wallet)
    ensures !Complete(s, acts, feed, wallet)
  {
    hide RunFrom, CursorOf, Readable, LegalFrom, Ordered, EventsOf, After;
    EventsReadable(acts, wallet);
    NothingFromStuck(LogOf(feed, wallet), CursorOf(s, wallet), EventsOf(acts, wallet));
    OrderedLog(feed, wallet);
    CursorFollows(s, acts, LogOf(feed, wallet), wallet);
  }

  /** One more wallet. */
  lemma MoreProgress(s: State, acts: seq<Action>, s': State, more: seq<Action>, s'': State,
                     feed: map<string, seq<ScanEvent>>, wallet: string)
    requires FeedOrdered(feed) && wallet != ""
    requires AllProgress(s, acts, s', feed) && Progress(s', more, s'', LogOf(feed, wallet), wallet)
    ensures AllProgress(s, acts + more, s'', feed)
    ensures Complete(s', more, feed, wallet) ==> Complete(s, acts + more, feed, wallet)
    ensures forall w :: w != "" && w != wallet && Complete(s, acts, feed, w) ==> Complete(s, acts + more, feed, w)
  {
    hide RunFrom, CursorOf, After, EventsOf, Readable, LegalFrom, Ordered;
    RunFromConcat(s, acts, more);
    LegalFromConcat(s, acts, more);
    OrderedLog(feed, wallet);
    ProgressAgain(s, acts, s', more, LogOf(feed, wallet), wallet);
    forall w | w != "" && w != wallet ensures EventsOf(acts + more, w) == EventsOf(acts, w) {
      ScansOfOthers(more, wallet, w);
      EventsOfConcat(acts, more, w);
    }
  }

  lemma OrderedLog(feed: map<string, seq<ScanEvent>>, wallet: string)
    requires FeedOrdered(feed)
    ensures Ordered(LogOf(feed, wallet), wallet)
  {
  }

  /** The first `reached` wallets are done with, the next one was begun, and nothing was told of the others. */
  ghost predicate Reached(s: State, acts: seq<Action>, feed: map<string, seq<ScanEvent>>, ws: seq<Wallet>,
                          reached: nat) {
    && reached <= |ws|
    && (forall i :: 0 <= i < reached ==> Complete(s, acts, feed, ws[i].walletId))
    && (forall w :: w != "" && (forall i :: 0 <= i <= reached && i < |ws| ==> ws[i].walletId != w) ==>
        EventsOf(acts, w) == [])
  }

  /** The same before the next one is begun. */
  ghost predicate Began(s: State, acts: seq<Action>, feed: map<string, seq<ScanEvent>>, ws: seq<Wallet>, n: nat) {
    && n <= |ws|
    && (forall i :: 0 <= i < n ==> Complete(s, acts, feed, ws[i].walletId))
    && (forall w :: w != "" && (forall i :: 0 <= i < n ==> ws[i].walletId != w) ==> EventsOf(acts, w) == [])
  }

  lemma NothingBegan(s: State, feed: map<string, seq<ScanEvent>>, ws: seq<Wallet>)
    ensures Began(s, [], feed, ws, 0)
  {
  }

  lemma BeganIsReached(s: State, acts: seq<Action>, feed: map<string, seq<ScanEvent>>, ws: seq<Wallet>)
    requires Began(s, acts, feed, ws, |ws|)
    ensures Reached(s, acts, feed, ws, |ws|)
  {
    hide Complete, EventsOf;
  }

  lemma OthersUntold(s: State, acts: seq<Action>, s': State, log: seq<ScanEvent>, wallet: string, other: string)
    requires Progress(s, acts, s', log, wallet) && wallet != other
    ensures EventsOf(acts, other) == []
  {
    ScansOfOthers(acts, wallet, other);
  }

  /** A wallet that is complete stays so when another one, or the same again, is told more. */
  lemma CompleteAgain(s: State, acts: seq<Action>, s': State, more: seq<Action>, s'': State,
                      feed: map<string, seq<ScanEvent>>, wallet: string, w: string)
    requires FeedOrdered(feed) && wallet != "" && w != ""
    requires AllProgress(s, acts, s', feed) && Progress(s', more, s'', LogOf(feed, wallet), wallet)
    requires Complete(s, acts, feed, w)
    ensures Complete(s, acts + more, feed, w)
  {
    hide RunFrom, CursorOf, After, EventsOf, Readable, LegalFrom, Ordered;
    if w == wallet {
      OrderedLog(feed, wallet);
      ProgressAgain(s, acts, s', more, LogOf(feed, wallet), wallet);
      EventsOfConcat(acts, more, w);
    } else {
      MoreProgress(s, acts, s', more, s'', feed, wallet);
    }
  }

  lemma MoreReached(s: State, acts: seq<Action>, s': State, more: seq<Action>, s'': State,
                    feed: map<string, seq<ScanEvent>>, ws: seq<Wallet>, n: nat)
    requires FeedOrdered(feed) && n < |ws| && forall i :: 0 <= i < |ws| ==> TidyWallet(ws[i])
    requires Began(s, acts, feed, ws, n) && AllProgress(s, acts, s', feed)
    requires Progress(s', more, s'', LogOf(feed, ws[n].walletId), ws[n].walletId)
    ensures Reached(s, acts + more, feed, ws, n)
    ensures Complete(s', more, feed, ws[n].walletId) ==> Began(s, acts + more, feed, ws, n + 1)
  {
    hide Complete, EventsOf, AllProgress, FeedOrdered, LogOf, Progress;
    var wallet := ws[n].walletId;
    MoreProgress(s, acts, s', more, s'', feed, wallet);
    forall w | w != "" && w != wallet ensures EventsOf(acts + more, w) == EventsOf(acts, w) {
      OthersUntold(s', more, s'', LogOf(feed, wallet), wallet, w);
      EventsOfConcat(acts, more, w);
    }
    forall i | 0 <= i < n ensures Complete(s, acts + more, feed, ws[i].walletId) {
      CompleteAgain(s, acts, s', more, s'', feed, wallet, ws[i].walletId);
    }
  }

  /** A pass does not get past a wallet that is stuck when it begins. */
  lemma StuckAhead(s: State, acts: seq<Action>, s': State, feed: map<string, seq<ScanEvent>>, ws: seq<Wallet>,
                   reached: nat)
    requires FeedOrdered(feed) && AllProgress(s, acts, s', feed) && Reached(s, acts, feed, ws, reached)
    requires forall i :: 0 <= i < |ws| ==> TidyWallet(ws[i])
    ensures forall i :: 0 <= i < |ws| && StuckIn(s, feed, ws[i].walletId) ==>
              reached <= i && CursorOf(s', ws[i].walletId) == CursorOf(s, ws[i].walletId)
  {
    hide FeedOrdered, AllProgress, StuckAt, Complete, CursorOf, LogOf, EventsOf;
    forall i | 0 <= i < |ws| && StuckIn(s, feed, ws[i].walletId)
      ensures reached <= i && CursorOf(s', ws[i].walletId) == CursorOf(s, ws[i].walletId)
    {
      StuckPass(s, acts, s', feed, ws[i].walletId);
    }
  }

  /**
   One pass over all wallets, `ws` being the order in which they are listed.
   It hands every log on in order and without gaps, to its end unless it is
   cut short or comes to an unreadable event; the wallets listed after the one
   where it ends get nothing.
  */
  method Sync(st: Store, feed: map<string, seq<ScanEvent>>, budget: nat)
      returns (done: bool, left: nat, ghost acts: seq<Action>, ghost ws: seq<Wallet>, ghost reached: nat)
    requires st.Valid() && FeedOrdered(feed)
    requires forall m :: m in st.merchantWallet ==> TidyWallet(st.merchantWallet[m])
    modifies st
    ensures st.Valid() && left <= budget
    ensures AllProgress(old(st.Abs()), acts, st.Abs(), feed)
    ensures forall w :: w in ws <==> exists m :: m in old(st.merchantWallet) && old(st.merchantWallet)[m] == w
    ensures Reached(old(st.Abs()), acts, feed, ws, reached) && (done <==> reached == |ws|)
    ensures forall i :: 0 <= i < |ws| && StuckIn(old(st.Abs()), feed, ws[i].walletId) ==>
              reached <= i && CursorOf(st.Abs(), ws[i].walletId) == CursorOf(old(st.Abs()), ws[i].walletId)
    ensures !done && left > 0 ==> StuckIn(st.Abs(), feed, ws[reached].walletId)
  {
    hide AllProgress, Progress, Complete, Store.Valid, Store.Abs, CursorOf, StuckAt, FeedOrdered, LogOf, After,
      EventsOf, Reached, Began;
    ghost var s := st.Abs();
    acts, left, done, reached := [], budget, false, 0;
    NoEventsNoProgress(s, feed);
    var listed := st.ListMerchantWallets();
    ws := listed;
    forall i | 0 <= i < |ws| ensures TidyWallet(ws[i]) {
      assert ws[i] in ws;
    }
    NothingBegan(s, feed, ws);
    for n := 0 to |listed|
      invariant st.Valid() && left <= budget && !done
      invariant AllProgress(s, acts, st.Abs(), feed) && Began(s, acts, feed, ws, n)
    {
      var w := listed[n].walletId;
      OrderedLog(feed, w);
      ghost var s1 := st.Abs();
      var finished, rest, more := SyncWallet(st, LogOf(feed, w), w, left);
      left := rest;
      MoreProgress(s, acts, s1, more, st.Abs(), feed, w);
      MoreReached(s, acts, s1, more, st.Abs(), feed, ws, n);
      acts := acts + more;
      if !finished {
        reached := n;
        StuckAhead(s, acts, st.Abs(), feed, ws, reached);
        return;
      }
      CompleteIs(s1, more, feed, w);
    }
    reached := |ws|;
    BeganIsReached(s, acts, feed, ws);
    StuckAhead(s, acts, st.Abs(), feed, ws, reached);
    done := true;
  }

  lemma CompleteIs(s: State, acts: seq<Action>, feed: map<string, seq<ScanEvent>>, wallet: string)
    ensures Complete(s, acts, feed, wallet) <==>
            EventsOf(acts, wallet) == After(LogOf(feed, wallet), Position, CursorOf(s, wallet))
  {
    hide EventsOf, After, CursorOf, LogOf;
  }

  // ----- many passes -----

  /**
   The log of a wallet as a pass sees it, and all calls on the store up to the end of
   that pass, of the ingestor or not.
  */
  datatype Pass = Pass(log: seq<ScanEvent>, acts: seq<Action>)

  function CallsOf(passes: seq<Pass>): (r: seq<Action>) {
    if passes == [] then [] else CallsOf(passes[..|passes| - 1]) + passes[|passes| - 1].acts
  }

  predicate OnlyReadable(acts: seq<Action>) {
    forall n :: 0 <= n < |acts| && acts[n].DoScan? ==> Readable(acts[n].ev)
  }

  /** Each pass takes up the log where the store's cursor stands; the log only grows. */
  ghost predicate Passes(s: State, passes: seq<Pass>, wallet: string) {
    && (forall n :: 0 <= n < |passes| ==>
          && Ordered(passes[n].log, wallet) && OnlyReadable(passes[n].acts)
          && EventsOf(passes[n].acts, wallet) <= After(passes[n].log, Position,
              CursorOf(RunFrom(s, CallsOf(passes[..n])), wallet)))
    && (forall m, n :: 0 <= m < n < |passes| ==> passes[m].log <= passes[n].log)
  }

  /** Passes before the last of them. */
  lemma PassesPrefix(s: State, passes: seq<Pass>, wallet: string)
    requires Passes(s, passes, wallet) && passes != []
    ensures Passes(s, passes[..|passes| - 1], wallet)
    ensures var p := passes[|passes| - 1];
            && Ordered(p.log, wallet) && OnlyReadable(p.acts)
            && EventsOf(p.acts, wallet) <= After(p.log, Position,
                CursorOf(RunFrom(s, CallsOf(passes[..|passes| - 1])), wallet))
  {
    hide Ordered, OnlyReadable, EventsOf, After, CursorOf, RunFrom, CallsOf;
    var rest := passes[..|passes| - 1];
    assert forall n :: 0 <= n < |rest| ==> rest[n] == passes[n] && rest[..n] == passes[..n];
  }

  lemma {:induction false} CallsReadable(passes: seq<Pass>)
    requires forall n :: 0 <= n < |passes| ==> OnlyReadable(passes[n].acts)
    ensures OnlyReadable(CallsOf(passes))
  {
    hide Readable;
    if passes != [] {
      CallsReadable(passes[..|passes| - 1]);
    }
  }

  /**
   However often passes are cut short, and whatever else is called between
   and during them: together they apply one stretch of the log, each event
   once and in order, and all of it if the last pass finishes.
  */
  lemma {:induction false} InterruptedPassesAreOne(s: State, passes: seq<Pass>, wallet: string)
    requires wallet != "" && passes != [] && Passes(s, passes, wallet)
    ensures var log, acts := passes[|passes| - 1].log, CallsOf(passes);
            var before := RunFrom(s, CallsOf(passes[..|passes| - 1]));
            && EventsOf(acts, wallet) <= After(log, Position, CursorOf(s, wallet))
            && (EventsOf(passes[|passes| - 1].acts, wallet) == After(log, Position, CursorOf(before, wallet)) ==>
                  EventsOf(acts, wallet) == After(log, Position, CursorOf(s, wallet)))
  {
    hide EventsOf, After, CursorOf, Step, Ascending, OnlyReadable;
    PassesPrefix(s, passes, wallet);
    var rest, p := passes[..|passes| - 1], passes[|passes| - 1];
    var acts := CallsOf(rest);
    CallsReadable(rest);
    if rest == [] {
      NoEventsYet(s, p.log, wallet);
    } else {
      InterruptedPassesAreOne(s, rest, wallet);
      assert rest[|rest| - 1].log <= p.log;
      AfterGrows(rest[|rest| - 1].log, p.log, Position, CursorOf(s, wallet), EventsOf(acts, wallet));
    }
    LastPass(s, acts, p, wallet);
  }

  lemma NoEventsYet(s: State, log: seq<ScanEvent>, wallet: string)
    ensures EventsOf([], wallet) <= After(log, Position, CursorOf(s, wallet))
  {
  }

  lemma LastPass(s: State, acts: seq<Action>, p: Pass, wallet: string)
    requires wallet != "" && Ordered(p.log, wallet) && OnlyReadable(acts)
    requires EventsOf(acts, wallet) <= After(p.log, Position, CursorOf(s, wallet))
    requires EventsOf(p.acts, wallet) <= After(p.log, Position, CursorOf(RunFrom(s, acts), wallet))
    ensures EventsOf(acts + p.acts, wallet) <= After(p.log, Position, CursorOf(s, wallet))
    ensures EventsOf(p.acts, wallet) == After(p.log, Position, CursorOf(RunFrom(s, acts), wallet)) ==>
              EventsOf(acts + p.acts, wallet) == After(p.log, Position, CursorOf(s, wallet))
  {
    hide RunFrom, CursorOf, After, EventsOf;
    ProgressAgain(s, acts, RunFrom(s, acts), p.acts, p.log, wallet);
  }

  /** The scan call for an event under a given clock and choice of owners. */
  function Stamped(evs: seq<ScanEvent>, owner: ScanEvent -> MerchantId, now: ScanEvent -> Time): (r: seq<Action>) {
    seq(|evs|, i requires 0 <= i < |evs| => DoScan(evs[i], owner(evs[i]), now(evs[i])))
  }

  /** Calls of the ingestor alone, with an event's clock and owner depending on the event only. */
  ghost predicate StampedScans(acts: seq<Action>, wallet: string, owner: ScanEvent -> MerchantId,
                               now: ScanEvent -> Time) {
    forall n :: 0 <= n < |acts| ==>
      && acts[n].DoScan? && TrimSpace(acts[n].ev.wallet) == wallet
      && acts[n] == DoScan(acts[n].ev, owner(acts[n].ev), now(acts[n].ev))
  }

  lemma {:induction false} StampedByEvents(acts: seq<Action>, wallet: string, owner: ScanEvent -> MerchantId,
                                           now: ScanEvent -> Time)
    requires StampedScans(acts, wallet, owner, now)
    ensures acts == Stamped(EventsOf(acts, wallet), owner, now)
  {
    if acts != [] {
      StampedByEvents(acts[..|acts| - 1], wallet, owner, now);
    }
  }

  /** The store after any interrupted passes and a finished one is the store after a single uninterrupted pass. */
  lemma ManyPassesOneStore(s: State, passes: seq<Pass>, wallet: string, owner: ScanEvent -> MerchantId,
                           now: ScanEvent -> Time)
    requires wallet != "" && passes != [] && Passes(s, passes, wallet)
    requires EventsOf(passes[|passes| - 1].acts, wallet)
          == After(passes[|passes| - 1].log, Position, CursorOf(RunFrom(s, CallsOf(passes[..|passes| - 1])), wallet))
    requires StampedScans(CallsOf(passes), wallet, owner, now)
    ensures RunFrom(s, CallsOf(passes))
            == RunFrom(s, Stamped(After(passes[|passes| - 1].log, Position, CursorOf(s, wallet)), owner, now))
  {
    hide EventsOf, After, CursorOf, RunFrom, Passes, CallsOf, StampedScans, Stamped;
    InterruptedPassesAreOne(s, passes, wallet);
    StampedByEvents(CallsOf(passes), wallet, owner, now);
  }

  /** And so with every later pass, whatever the log has by then: nothing more of it is ever applied. */
  lemma StuckForever(s: State, passes: seq<Pass>, wallet: string)
    requires wallet != "" && passes != [] && Passes(s, passes, wallet)
    requires StuckAt(passes[0].log, CursorOf(s, wallet))
    ensures EventsOf(CallsOf(passes), wallet) == []
    ensures CursorOf(RunFrom(s, CallsOf(passes)), wallet) == CursorOf(s, wallet)
  {
    hide EventsOf, CursorOf, RunFrom, Readable, CallsOf, Passed;
    InterruptedPassesAreOne(s, passes, wallet);
    CallsReadable(passes);
    var log := passes[|passes| - 1].log;
    EventsReadable(CallsOf(passes), wallet);
    var first := After(passes[0].log, Position, CursorOf(s, wallet));
    assert passes[0].log <= log;
    AfterGrows(passes[0].log, log, Position, CursorOf(s, wallet), first);
    assert first[0] == After(log, Position, CursorOf(s, wallet))[0];
    NothingFromStuck(log, CursorOf(s, wallet), EventsOf(CallsOf(passes), wallet));
    CursorFollows(s, CallsOf(passes), log, wallet);
  }

  // ----- many passes over all wallets -----

  /** A pass of `Sync` with the logs it saw, and the calls of others since the pass before. */
  datatype SyncPass = SyncPass(feed: map<string, seq<ScanEvent>>, others: seq<Action>, acts: seq<Action>)

  function SyncCalls(syncs: seq<SyncPass>): (r: seq<Action>) {
    if syncs == [] then [] else SyncCalls(syncs[..|syncs| - 1]) + (syncs[|syncs| - 1].others + syncs[|syncs| - 1].acts)
  }

  predicate NoScans(acts: seq<Action>) {
    forall n :: 0 <= n < |acts| ==> !acts[n].DoScan?
  }

  /** What `Sync` promises of a pass that begins after the others' calls. */
  ghost predicate SyncedFrom(s: State, p: SyncPass) {
    && NoScans(p.others) && FeedOrdered(p.feed)
    && AllProgress(RunFrom(s, p.others), p.acts, RunFrom(s, p.others + p.acts), p.feed)
  }

  predicate FeedGrows(feed: map<string, seq<ScanEvent>>, feed': map<string, seq<ScanEvent>>) {
    forall w :: w in feed ==> w in feed' && feed[w] <= feed'[w]
  }

  /** Passes one after another, each as `Sync` leaves it, over logs that only grow. */
  ghost predicate Syncs(s: State, syncs: seq<SyncPass>) {
    && (forall n :: 0 <= n < |syncs| ==> SyncedFrom(RunFrom(s, SyncCalls(syncs[..n])), syncs[n]))
    && (forall m, n :: 0 <= m < n < |syncs| ==> FeedGrows(syncs[m].feed, syncs[n].feed))
  }

  /** The passes as one wallet sees them. */
  function PassesOf(syncs: seq<SyncPass>, wallet: string): (r: seq<Pass>) {
    seq(|syncs|, n requires 0 <= n < |syncs| => Pass(LogOf(syncs[n].feed, wallet), syncs[n].others + syncs[n].acts))
  }

  lemma {:induction false} SameCalls(syncs: seq<SyncPass>, wallet: string)
    ensures CallsOf(PassesOf(syncs, wallet)) == SyncCalls(syncs)
  {
    if syncs != [] {
      SameCalls(syncs[..|syncs| - 1], wallet);
      assert PassesOf(syncs, wallet)[..|syncs| - 1] == PassesOf(syncs[..|syncs| - 1], wallet);
    }
  }

  lemma {:induction false} OthersTellNothing(s: State, acts: seq<Action>, wallet: string)
    requires NoScans(acts)
    ensures EventsOf(acts, wallet) == [] && CursorOf(RunFrom(s, acts), wallet) == CursorOf(s, wallet)
  {
    hide CursorOf, Step;
    if acts != [] {
      OthersTellNothing(s, acts[..|acts| - 1], wallet);
      StepCursor(RunFrom(s, acts[..|acts| - 1]), acts[|acts| - 1], wallet);
    }
  }

  lemma SyncIsPass(s: State, p: SyncPass, wallet: string)
    requires SyncedFrom(s, p) && wallet != ""
    ensures Ordered(LogOf(p.feed, wallet), wallet) && OnlyReadable(p.others + p.acts)
    ensures EventsOf(p.others + p.acts, wallet) == EventsOf(p.acts, wallet)
    ensures CursorOf(RunFrom(s, p.others), wallet) == CursorOf(s, wallet)
    ensures EventsOf(p.others + p.acts, wallet) <= After(LogOf(p.feed, wallet), Position, CursorOf(s, wallet))
  {
    hide RunFrom, CursorOf, After, Readable, LegalFrom, EventsOf, Ordered;
    OrderedLog(p.feed, wallet);
    OthersTellNothing(s, p.others, wallet);
    EventsOfConcat(p.others, p.acts, wallet);
  }

  /** What `Sync` promises is what the passes of a wallet are made of. */
  lemma SyncsArePasses(s: State, syncs: seq<SyncPass>, wallet: string)
    requires Syncs(s, syncs) && wallet != ""
    ensures Passes(s, PassesOf(syncs, wallet), wallet)
  {
    hide RunFrom, CursorOf, After, EventsOf, Ordered, OnlyReadable, SyncedFrom, CallsOf, SyncCalls;
    var passes := PassesOf(syncs, wallet);
    forall n | 0 <= n < |passes|
      ensures Ordered(passes[n].log, wallet) && OnlyReadable(passes[n].acts)
      ensures EventsOf(passes[n].acts, wallet) <= After(passes[n].log, Position,
              CursorOf(RunFrom(s, CallsOf(passes[..n])), wallet))
    {
      assert passes[..n] == PassesOf(syncs[..n], wallet);
      SameCalls(syncs[..n], wallet);
      SyncIsPass(RunFrom(s, SyncCalls(syncs[..n])), syncs[n], wallet);
    }
    forall m, n | 0 <= m < n < |passes| ensures passes[m].log <= passes[n].log {
      assert FeedGrows(syncs[m].feed, syncs[n].feed);
    }
  }

  /** The last pass finished the log of this wallet. */
  ghost predicate LastCompletes(s: State, syncs: seq<SyncPass>, wallet: string)
    requires syncs != []
  {
    var last := syncs[|syncs| - 1];
    Complete(RunFrom(RunFrom(s, SyncCalls(syncs[..|syncs| - 1])), last.others), last.acts, last.feed, wallet)
  }

  /**
   For every wallet at once: passes cut short anywhere apply one stretch of its log, and
   all of it if the last one finishes it.
  */
  lemma SyncsAreOne(s: State, syncs: seq<SyncPass>, wallet: string)
    requires Syncs(s, syncs) && syncs != [] && wallet != ""
    ensures var log, acts := LogOf(syncs[|syncs| - 1].feed, wallet), SyncCalls(syncs);
            && EventsOf(acts, wallet) <= After(log, Position, CursorOf(s, wallet))
            && CursorOf(RunFrom(s, acts), wallet) == CursorAfter(Position, CursorOf(s, wallet), EventsOf(acts, wallet))
            && (LastCompletes(s, syncs, wallet) ==> EventsOf(acts, wallet) == After(log, Position, CursorOf(s, wallet)))
  {
    hide RunFrom, CursorOf, After, EventsOf, Ordered, Readable, SyncedFrom, CallsOf, SyncCalls, CursorAfter;
    var passes, last := PassesOf(syncs, wallet), syncs[|syncs| - 1];
    SyncsArePasses(s, syncs, wallet);
    InterruptedPassesAreOne(s, passes, wallet);
    SameCalls(syncs, wallet);
    var before := RunFrom(s, SyncCalls(syncs[..|syncs| - 1]));
    assert passes[..|passes| - 1] == PassesOf(syncs[..|syncs| - 1], wallet);
    SameCalls(syncs[..|syncs| - 1], wallet);
    SyncIsPass(before, last, wallet);
    CallsReadable(passes);
    CursorFollows(s, SyncCalls(syncs), passes[|passes| - 1].log, wallet);
  }

  /** However the passes were cut, every wallet has been told the same as by one whole pass over the same logs. */
  lemma InterruptedLikeWhole(s: State, syncs: seq<SyncPass>, whole: SyncPass, wallet: string)
    requires Syncs(s, syncs) && syncs != [] && LastCompletes(s, syncs, wallet)
    requires Syncs(s, [whole]) && LastCompletes(s, [whole], wallet) && whole.feed == syncs[|syncs| - 1].feed
    requires wallet != ""
    ensures EventsOf(SyncCalls(syncs), wallet) == EventsOf(SyncCalls([whole]), wallet)
    ensures CursorOf(RunFrom(s, SyncCalls(syncs)), wallet) == CursorOf(RunFrom(s, SyncCalls([whole])), wallet)
  {
    hide RunFrom, CursorOf, After, EventsOf, SyncCalls, CursorAfter, LastCompletes, Syncs;
    SyncsAreOne(s, syncs, wallet);
    SyncsAreOne(s, [whole], wallet);
  }
}
