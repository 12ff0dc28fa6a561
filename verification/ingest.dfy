/**
 Ingesting scanner events: delivery at least once, effect exactly once. Only
 the events that raise the cursor of their wallet matter, and passes over an
 ordered log that are interrupted anywhere end where one whole pass ends.
*/
module Ingest {
  import opened Domain
  import opened Text
  import opened Ledger
  import opened Runs
  import opened Cursors
  import Frames

  // ----- cursors -----

  /** Events that can be applied at all: they name a wallet and a position, and their payload parses. */
  predicate Readable(ev: ScanEvent) {
    TrimSpace(ev.wallet) != "" && ev.cursor > 0 && (ev.kind == OtherKind || ev.payload.Some?)
  }

  /** A readable event of a wallet. */
  predicate Tells(a: Action, wallet: string) {
    a.DoScan? && Readable(a.ev) && TrimSpace(a.ev.wallet) == wallet
  }

  lemma ScanCursorTable(s: State, ev: ScanEvent, owner: MerchantId, now: Time)
    ensures ApplyScanEvent(s, ev, owner, now).cursors
         == if Effective(s, ev) then s.cursors[TrimSpace(ev.wallet) := ev.cursor] else s.cursors
  {
    hide ApplyDeposit, Effective, TrimSpace;
    if Effective(s, ev) && ev.kind != OtherKind {
      EffectivePayload(s, ev);
      DepositKeepsCursors(s, ev, ev.payload.value, owner, now);
    }
  }

  lemma EffectivePayload(s: State, ev: ScanEvent)
    requires Effective(s, ev) && ev.kind != OtherKind
    ensures ev.payload.Some?
  {
  }

  lemma DepositKeepsCursors(s: State, ev: ScanEvent, p: Payload, owner: MerchantId, now: Time)
    ensures ApplyDeposit(s, ev, p, owner, now).cursors == s.cursors
  {
    hide ApplyDeposit, Acceptable;
  }

  lemma ScanCursorMoves(s: State, ev: ScanEvent, owner: MerchantId, now: Time, wallet: string)
    ensures CursorOf(ApplyScanEvent(s, ev, owner, now), wallet)
         == if Readable(ev) && TrimSpace(ev.wallet) == wallet && ev.cursor > CursorOf(s, wallet) then ev.cursor
             else CursorOf(s, wallet)
  {
    hide ApplyScanEvent, TrimSpace;
    ScanCursorTable(s, ev, owner, now);
  }

  lemma StepCursor(s: State, a: Action, wallet: string)
    ensures CursorOf(Step(s, a), wallet)
         == if Tells(a, wallet) && a.ev.cursor > CursorOf(s, wallet) then a.ev.cursor else CursorOf(s, wallet)
  {
    if a.DoScan? {
      hide ApplyScanEvent, CursorOf, Readable;
      ScanCursorMoves(s, a.ev, a.owner, a.now, wallet);
    } else {
      hide Step;
      Frames.StepUntouched(s, a);
    }
  }

  /** The cursor of a wallet is the highest position told of it so far. */
  lemma {:induction false} CursorIsMaximum(s: State, acts: seq<Action>, wallet: string)
    ensures var c := CursorOf(RunFrom(s, acts), wallet);
            && c >= CursorOf(s, wallet)
            && (forall n :: 0 <= n < |acts| && Tells(acts[n], wallet) ==> acts[n].ev.cursor <= c)
            && (c == CursorOf(s, wallet)
                || exists n :: 0 <= n < |acts| && Tells(acts[n], wallet) && acts[n].ev.cursor == c)
  {
    hide Step, Readable, CursorOf;
    if acts != [] {
      var rest := acts[..|acts| - 1];
      CursorIsMaximum(s, rest, wallet);
      StepCursor(RunFrom(s, rest), acts[|acts| - 1], wallet);
      assert forall n :: 0 <= n < |rest| ==> rest[n] == acts[n];
      var c := CursorOf(RunFrom(s, rest), wallet);
      if c != CursorOf(s, wallet) {
        var n :| 0 <= n < |rest| && Tells(rest[n], wallet) && rest[n].ev.cursor == c;
        assert Tells(acts[n], wallet) && acts[n].ev.cursor == c;
      }
    }
  }

  // ----- only record highs count -----

  /** Readable, and above everything its wallet has told before. */
  ghost predicate RecordHigh(s: State, before: seq<Action>, ev: ScanEvent) {
    var wallet := TrimSpace(ev.wallet);
    && Readable(ev) && ev.cursor > CursorOf(s, wallet)
    && forall n :: 0 <= n < |before| && Tells(before[n], wallet) ==> before[n].ev.cursor < ev.cursor
  }

  lemma EffectiveIsRecordHigh(s: State, before: seq<Action>, ev: ScanEvent)
    ensures Effective(RunFrom(s, before), ev) <==> RecordHigh(s, before, ev)
  {
    hide RunFrom, Tells, CursorOf;
    CursorIsMaximum(s, before, TrimSpace(ev.wallet));
  }

  /** The calls without the scan events that are no record highs. */
  ghost function Heard(s: State, acts: seq<Action>): (r: seq<Action>) {
    if acts == [] then [] else
    var before, a := acts[..|acts| - 1], acts[|acts| - 1];
    Heard(s, before) + if a.DoScan? && !RecordHigh(s, before, a.ev) then [] else [a]
  }

  /** Malformed, repeated and stale scan events leave no trace, among whatever other calls. */
  lemma {:induction false} OnlyRecordHighsCount(s: State, acts: seq<Action>)
    ensures RunFrom(s, acts) == RunFrom(s, Heard(s, acts))
  {
    if acts != [] {
      var before, a := acts[..|acts| - 1], acts[|acts| - 1];
      OnlyRecordHighsCount(s, before);
      if a.DoScan? && !RecordHigh(s, before, a.ev) {
        EffectiveIsRecordHigh(s, before, a.ev);
        hide Effective, RecordHigh;
        assert Step(RunFrom(s, before), a) == RunFrom(s, before);
        assert Heard(s, acts) == Heard(s, before);
      } else {
        hide Step, RecordHigh;
        RunFromOneMore(s, Heard(s, before), a);
      }
    }
  }

  // ----- an ordered log -----

  /** The scan events of a wallet, in the order they are applied. */
  function EventsOf(acts: seq<Action>, wallet: string): (r: seq<ScanEvent>) {
    if acts == [] then [] else
    var a := acts[|acts| - 1];
    EventsOf(acts[..|acts| - 1], wallet) + if a.DoScan? && TrimSpace(a.ev.wallet) == wallet then [a.ev] else []
  }

  /** The scanner's log of a wallet: positions increase. */
  predicate Ordered(log: seq<ScanEvent>, wallet: string) {
    && (forall i :: 0 <= i < |log| ==> TrimSpace(log[i].wallet) == wallet && log[i].cursor > 0)
    && Ascending(log, Position)
  }

  function Position(ev: ScanEvent): (r: int) {
    ev.cursor
  }

  ghost predicate Handed(acts: seq<Action>, ev: ScanEvent) {
    exists n :: 0 <= n < |acts| && acts[n].DoScan? && acts[n].ev == ev
  }

  /** Events come from the log, and none before everything below it has come. */
  ghost predicate GapFree(s: State, acts: seq<Action>, log: seq<ScanEvent>, wallet: string) {
    forall n :: 0 <= n < |acts| && acts[n].DoScan? && TrimSpace(acts[n].ev.wallet) == wallet ==>
      && acts[n].ev in log
      && forall e :: e in log && CursorOf(s, wallet) < e.cursor < acts[n].ev.cursor ==> Handed(acts[..n], e)
  }

  lemma GapFreePrefix(s: State, acts: seq<Action>, log: seq<ScanEvent>, wallet: string)
    requires GapFree(s, acts, log, wallet) && acts != []
    ensures GapFree(s, acts[..|acts| - 1], log, wallet)
  {
    var rest := acts[..|acts| - 1];
    assert forall n :: 0 <= n < |rest| ==> rest[n] == acts[n] && rest[..n] == acts[..n];
  }

  /** Whatever is delivered again, late or in pieces: what takes effect is the log, in order, each event once. */
  lemma {:induction false} ExactlyOnce(s: State, acts: seq<Action>, log: seq<ScanEvent>, wallet: string)
    requires wallet != "" && Ordered(log, wallet) && GapFree(s, acts, log, wallet)
    requires forall e :: e in log ==> Readable(e)
    ensures Passed(log, Position, CursorOf(s, wallet)) <= Passed(log, Position, CursorOf(RunFrom(s, acts), wallet))
    ensures EventsOf(Heard(s, acts), wallet)
         == log[Passed(log, Position, CursorOf(s, wallet))..Passed(log, Position, CursorOf(RunFrom(s, acts), wallet))]
  {
    hide Step, CursorOf, RecordHigh, GapFree, Passed, Heard, EventsOf;
    if acts == [] {
      NothingHeard(s, wallet);
    } else {
      GapFreePrefix(s, acts, log, wallet);
      var rest, a := acts[..|acts| - 1], acts[|acts| - 1];
      ExactlyOnce(s, rest, log, wallet);
      StepCursor(RunFrom(s, rest), a, wallet);
      HeardNext(s, rest, a, wallet);
      if a.DoScan? && TrimSpace(a.ev.wallet) == wallet {
        EventIsNext(s, acts, log, wallet);
      }
      assert acts == rest + [a];
    }
  }

  lemma NothingHeard(s: State, wallet: string)
    ensures EventsOf(Heard(s, []), wallet) == []
  {
  }

  lemma HeardNext(s: State, rest: seq<Action>, a: Action, wallet: string)
    ensures EventsOf(Heard(s, rest + [a]), wallet) == EventsOf(Heard(s, rest), wallet) +
              if a.DoScan? && TrimSpace(a.ev.wallet) == wallet && RecordHigh(s, rest, a.ev) then [a.ev] else []
  {
    hide RecordHigh;
    assert (rest + [a])[..|rest|] == rest;
    var h := Heard(s, rest);
    assert h + [] == h && (h + [a])[..|h|] == h;
  }

  /** Whatever the log has before the last event of the calls has been told by the others, or before them. */
  lemma EarlierWasTold(s: State, acts: seq<Action>, log: seq<ScanEvent>, wallet: string)
    requires acts != [] && acts[|acts| - 1].DoScan? && TrimSpace(acts[|acts| - 1].ev.wallet) == wallet
    requires Ordered(log, wallet) && GapFree(s, acts, log, wallet)
    requires forall e :: e in log ==> Readable(e)
    ensures forall i :: 0 <= i < |log| && log[i].cursor < acts[|acts| - 1].ev.cursor ==>
              log[i].cursor <= CursorOf(RunFrom(s, acts[..|acts| - 1]), wallet)
  {
    hide CursorOf, RunFrom;
    var rest, ev := acts[..|acts| - 1], acts[|acts| - 1].ev;
    CursorIsMaximum(s, rest, wallet);
    forall i | 0 <= i < |log| && log[i].cursor < ev.cursor ensures log[i].cursor <= CursorOf(RunFrom(s, rest), wallet) {
      if CursorOf(s, wallet) < log[i].cursor {
        assert Handed(rest, log[i]);
        var n :| 0 <= n < |rest| && rest[n].DoScan? && rest[n].ev == log[i];
        assert Tells(rest[n], wallet);
      }
    }
  }

  /** A new event of the log comes right after all that has been heard. */
  lemma EventIsNext(s: State, acts: seq<Action>, log: seq<ScanEvent>, wallet: string)
    requires acts != [] && acts[|acts| - 1].DoScan? && TrimSpace(acts[|acts| - 1].ev.wallet) == wallet
    requires Ordered(log, wallet) && GapFree(s, acts, log, wallet)
    requires forall e :: e in log ==> Readable(e)
    ensures var rest, ev := acts[..|acts| - 1], acts[|acts| - 1].ev;
            var high := CursorOf(RunFrom(s, rest), wallet);
            && Readable(ev)
            && (RecordHigh(s, rest, ev) <==> ev.cursor > high)
            && (ev.cursor > high ==>
                  var n := Passed(log, Position, high);
                  n < |log| && log[n] == ev && Passed(log, Position, ev.cursor) == n + 1)
  {
    hide CursorOf, Passed;
    var rest, ev := acts[..|acts| - 1], acts[|acts| - 1].ev;
    var high := CursorOf(RunFrom(s, rest), wallet);
    EffectiveIsRecordHigh(s, rest, ev);
    EarlierWasTold(s, acts, log, wallet);
    hide RunFrom, RecordHigh, Handed;
    if ev.cursor > high {
      var n :| 0 <= n < |log| && log[n] == ev;
      PassedIs(log, Position, high, n);
      PassedIs(log, Position, ev.cursor, n + 1);
    }
  }
}
