/**
 The outbox worker: bounded retries of pending deliveries. It never touches a
 delivery that is settled, and without new events it stops after a number of
 attempts known beforehand.
*/
module OutboxWorker {
  import opened Domain
  import opened Sums
  import opened Ledger
  import opened Runs
  import opened BackoffDelay
  import opened MemStore
  import Emissions
  import EventTables
  import History

  const MAX_INT32 := 0x7fff_ffff

  /** Attempts are counted in 32 bits, starting at one. */
  function NextAttempt(attempt: int): (r: int) {
    var n := if attempt >= MAX_INT32 then attempt + 1 - 0x1_0000_0000 else attempt + 1;
    if n < 1 then 1 else n
  }

  /** What one attempt makes of a delivery; `failure` is None when the sink took the event. */
  function Attempted(d: Delivery, failure: Option<string>, now: Time, maxAttempts: int): (r: Delivery) {
    var attempt := NextAttempt(d.attempt);
    match failure
    case None => Delivery(Delivered, attempt, None, None)
    case Some(error) =>
      if attempt >= maxAttempts then Delivery(DeliveryFailed, attempt, None, Some(error))
      else Delivery(DeliveryPending, attempt, Some(now + Backoff(attempt)), Some(error))
  }

  /**
   A delivery after one attempt: delivered exactly when the sink took the event, failed
   exactly when it refused and no attempt is left, and else pending until its retry time.
  */
  predicate Tried(d: Delivery, next: Delivery, failure: Option<string>, now: Time, maxAttempts: int) {
    && (0 <= d.attempt < 0x7fff_ffff ==> next.attempt == d.attempt + 1)
    && (next.status == Delivered <==> failure == None)
    && (next.status == DeliveryFailed <==> failure.Some? && next.attempt >= maxAttempts)
    && next.nextRetryAt == (if failure.Some? && next.attempt < maxAttempts then Some(now + Backoff(next.attempt))
        else None)
    && next.lastError == failure
  }

  lemma AttemptedIsTried(d: Delivery, failure: Option<string>, now: Time, maxAttempts: int)
    ensures Tried(d, Attempted(d, failure, now, maxAttempts), failure, now, maxAttempts)
  {
    hide Backoff;
  }

  // ----- the worker's part in a run -----

  /** A call of the worker: a pending delivery after one attempt. */
  ghost predicate WorkerUpdate(s: State, a: Action, maxAttempts: int) {
    && a.DoUpdateDelivery? && a.delivery in s.events.deliveries
    && s.events.deliveries[a.delivery].status == DeliveryPending
    && exists failure, now :: a.next == Attempted(s.events.deliveries[a.delivery], failure, now, maxAttempts)
  }

  /** Only the worker updates deliveries. */
  ghost predicate WorkerRun(acts: seq<Action>, maxAttempts: int) {
    forall n :: 0 <= n < |acts| && acts[n].DoUpdateDelivery? ==> WorkerUpdate(Run(acts[..n]), acts[n], maxAttempts)
  }

  ghost predicate BoundedDelivery(d: Delivery, maxAttempts: int) {
    d.status == DeliveryPending ==> 0 <= d.attempt < maxAttempts
  }

  /** Deliveries are for events of the outbox, and the pending ones have attempts left. */
  ghost predicate Bounded(e: Events, maxAttempts: int) {
    forall n: nat, k: nat | (n, k) in e.deliveries :: n <= |e.outbox|
        && BoundedDelivery(e.deliveries[(n, k)], maxAttempts)
  }

  /** A delivery that was taken or given up. */
  predicate Settled(d: Delivery) {
    d.status != DeliveryPending
  }

  ghost predicate SettledStay(before: map<DeliveryKey, Delivery>, after: map<DeliveryKey, Delivery>) {
    forall n: nat, k: nat | (n, k) in before :: (n, k) in after
        && (Settled(before[(n, k)]) ==> after[(n, k)] == before[(n, k)])
  }

  lemma FannedKeeps(e: Events, e': Events, sinks: map<SinkId, Sink>, maxAttempts: int)
    requires EventTables.Fanned(e, e', sinks) && Bounded(e, maxAttempts) && maxAttempts > 0
    ensures Bounded(e', maxAttempts) && SettledStay(e.deliveries, e'.deliveries)
  {
    forall n: nat, k: nat | (n, k) in e'.deliveries
      ensures n <= |e'.outbox| && BoundedDelivery(e'.deliveries[(n, k)], maxAttempts)
    {
      if (n, k) in e.deliveries {
        assert n <= |e.outbox|;
      }
    }
  }

  lemma UpdateKeeps(s: State, a: Action, maxAttempts: int)
    requires WorkerUpdate(s, a, maxAttempts) && Bounded(s.events, maxAttempts) && 0 < maxAttempts <= 1000
    ensures Bounded(Step(s, a).events, maxAttempts) && SettledStay(s.events.deliveries, Step(s, a).events.deliveries)
  {
    hide Backoff;
    assert a.delivery == (a.delivery.0, a.delivery.1);
  }

  lemma StepKeepsBounds(s: State, a: Action, maxAttempts: int)
    requires Enabled(s, a) && (a.DoUpdateDelivery? ==> WorkerUpdate(s, a, maxAttempts))
    requires Bounded(s.events, maxAttempts) && 0 < maxAttempts <= 1000
    ensures Bounded(Step(s, a).events, maxAttempts) && SettledStay(s.events.deliveries, Step(s, a).events.deliveries)
  {
    hide Bounded, SettledStay, Step, Enabled, WorkerUpdate, Owners, Emissions.News;
    if a.DoUpdateDelivery? {
      UpdateKeeps(s, a, maxAttempts);
    } else {
      Emissions.StepSays(s, a);
      hide EventTables.Fanned;
      EventTables.AppendAllFans(s.events, Emissions.News(s, a), Owners(Step(s, a).invoices), s.sinks);
      FannedKeeps(s.events, Step(s, a).events, s.sinks, maxAttempts);
    }
  }

  lemma WorkerPrefix(acts: seq<Action>, maxAttempts: int)
    requires WorkerRun(acts, maxAttempts) && acts != []
    ensures WorkerRun(acts[..|acts| - 1], maxAttempts)
    ensures acts[|acts| - 1].DoUpdateDelivery? ==> WorkerUpdate(Run(acts[..|acts| - 1]), acts[|acts| - 1], maxAttempts)
  {
    hide Run, WorkerUpdate;
    var before := acts[..|acts| - 1];
    assert forall n :: 0 <= n < |before| ==> before[..n] == acts[..n] && before[n] == acts[n];
  }

  /** In every reachable state each pending delivery has made fewer attempts than allowed. */
  lemma {:induction false} PendingHasAttemptsLeft(acts: seq<Action>, maxAttempts: int)
    requires Legal(acts) && WorkerRun(acts, maxAttempts) && 0 < maxAttempts <= 1000
    ensures Bounded(Run(acts).events, maxAttempts)
  {
    hide Step, Enabled, WorkerUpdate;
    if acts != [] {
      hide Bounded;
      LegalPrefix(acts);
      WorkerPrefix(acts, maxAttempts);
      PendingHasAttemptsLeft(acts[..|acts| - 1], maxAttempts);
      StepKeepsBounds(Run(acts[..|acts| - 1]), acts[|acts| - 1], maxAttempts);
    }
  }

  /** From any moment of a run on, delivered and failed deliveries stay as they are, and none disappears. */
  lemma {:induction false} SettledForever(acts: seq<Action>, maxAttempts: int, m: nat)
    requires Legal(acts) && WorkerRun(acts, maxAttempts) && 0 < maxAttempts <= 1000 && m <= |acts|
    ensures SettledStay(Run(acts[..m]).events.deliveries, Run(acts).events.deliveries)
    decreases |acts|
  {
    hide Step, Enabled, WorkerUpdate, Bounded;
    if m == |acts| {
      assert acts[..m] == acts;
    } else {
      LegalPrefix(acts);
      WorkerPrefix(acts, maxAttempts);
      var before := acts[..|acts| - 1];
      SettledForever(before, maxAttempts, m);
      assert before[..m] == acts[..m];
      PendingHasAttemptsLeft(before, maxAttempts);
      StepKeepsBounds(Run(before), acts[|acts| - 1], maxAttempts);
    }
  }

  // ----- the attempts that are left -----

  function AttemptsLeft(d: Delivery, maxAttempts: int): (r: int) {
    if d.status == DeliveryPending then maxAttempts - d.attempt else 0
  }

  ghost function LeftMap(deliveries: map<DeliveryKey, Delivery>, maxAttempts: int): (r: map<DeliveryKey, int>) {
    map key | key in deliveries :: AttemptsLeft(deliveries[key], maxAttempts)
  }

  /** How many attempts the worker can still make. */
  ghost function Remaining(deliveries: map<DeliveryKey, Delivery>, maxAttempts: int): (r: int) {
    Sum(LeftMap(deliveries, maxAttempts))
  }

  lemma RemainingAfterPut(deliveries: map<DeliveryKey, Delivery>, key: DeliveryKey, d: Delivery, maxAttempts: int)
    requires key in deliveries
    ensures Remaining(deliveries[key := d], maxAttempts)
         == Remaining(deliveries, maxAttempts) - AttemptsLeft(deliveries[key], maxAttempts)
             + AttemptsLeft(d, maxAttempts)
  {
    var left := LeftMap(deliveries, maxAttempts);
    SumUpdate(left, key, AttemptsLeft(d, maxAttempts));
    var after := deliveries[key := d];
    assert left[key := AttemptsLeft(d, maxAttempts)] == LeftMap(after, maxAttempts);
  }

  lemma RemainingNotNegative(e: Events, maxAttempts: int)
    requires Bounded(e, maxAttempts)
    ensures Remaining(e.deliveries, maxAttempts) >= 0
  {
    forall key | key in e.deliveries ensures AttemptsLeft(e.deliveries[key], maxAttempts) >= 0 {
      assert key == (key.0, key.1);
    }
    SumNonNegative(LeftMap(e.deliveries, maxAttempts));
  }

  /** Every attempt uses up at least one of the attempts left. */
  lemma AttemptCosts(s: State, a: Action, maxAttempts: int)
    requires WorkerUpdate(s, a, maxAttempts) && Bounded(s.events, maxAttempts) && 0 < maxAttempts <= 1000
    ensures Remaining(Step(s, a).events.deliveries, maxAttempts) <= Remaining(s.events.deliveries, maxAttempts) - 1
  {
    hide Remaining, Backoff;
    assert a.delivery == (a.delivery.0, a.delivery.1);
    RemainingAfterPut(s.events.deliveries, a.delivery, a.next, maxAttempts);
  }

  /** Calls of the worker alone. */
  ghost predicate WorkerOnly(s: State, acts: seq<Action>, maxAttempts: int) {
    forall n :: 0 <= n < |acts| ==> WorkerUpdate(RunFrom(s, acts[..n]), acts[n], maxAttempts)
  }

  lemma WorkerOnlyPrefix(s: State, acts: seq<Action>, maxAttempts: int)
    requires WorkerOnly(s, acts, maxAttempts) && acts != []
    ensures WorkerOnly(s, acts[..|acts| - 1], maxAttempts)
    ensures WorkerUpdate(RunFrom(s, acts[..|acts| - 1]), acts[|acts| - 1], maxAttempts)
  {
    hide RunFrom, WorkerUpdate;
    var before := acts[..|acts| - 1];
    assert forall n :: 0 <= n < |before| ==> before[..n] == acts[..n] && before[n] == acts[n];
  }

  /** Without new events the worker makes at most as many attempts as are left. */
  lemma {:induction false} AttemptsEnd(s: State, acts: seq<Action>, maxAttempts: int)
    requires Bounded(s.events, maxAttempts) && 0 < maxAttempts <= 1000 && WorkerOnly(s, acts, maxAttempts)
    ensures Bounded(RunFrom(s, acts).events, maxAttempts)
    ensures |acts| <= Remaining(s.events.deliveries, maxAttempts) - Remaining(RunFrom(s, acts).events.deliveries,
            maxAttempts)
    ensures |acts| <= Remaining(s.events.deliveries, maxAttempts)
  {
    hide Bounded, Remaining, Step, WorkerUpdate;
    if acts != [] {
      var before := acts[..|acts| - 1];
      WorkerOnlyPrefix(s, acts, maxAttempts);
      AttemptsEnd(s, before, maxAttempts);
      AttemptCosts(RunFrom(s, before), acts[|acts| - 1], maxAttempts);
      UpdateKeeps(RunFrom(s, before), acts[|acts| - 1], maxAttempts);
    }
    RemainingNotNegative(RunFrom(s, acts).events, maxAttempts);
  }

  // ----- the attempts of a whole run -----

  /** How many attempts a run makes. */
  function AttemptsIn(acts: seq<Action>): (r: nat) {
    if acts == [] then 0 else AttemptsIn(acts[..|acts| - 1]) + if acts[|acts| - 1].DoUpdateDelivery? then 1 else 0
  }

  /** Old deliveries are as they were, and new ones have all their attempts left. */
  lemma FannedDeliveries(e: Events, e': Events, sinks: map<SinkId, Sink>, maxAttempts: int)
    requires EventTables.Fanned(e, e', sinks) && Bounded(e, maxAttempts)
    ensures e.deliveries.Keys <= e'.deliveries.Keys
    ensures forall key :: key in e.deliveries ==> e'.deliveries[key] == e.deliveries[key]
    ensures forall key :: key in e'.deliveries.Keys - e.deliveries.Keys ==> e'.deliveries[key] == NEW_DELIVERY
  {
    forall key | key in e.deliveries ensures key in e'.deliveries && e'.deliveries[key] == e.deliveries[key] {
      assert key == (key.0, key.1);
    }
    forall key | key in e'.deliveries && key !in e.deliveries ensures e'.deliveries[key] == NEW_DELIVERY {
      assert key == (key.0, key.1);
    }
  }

  lemma FannedRemaining(e: Events, e': Events, sinks: map<SinkId, Sink>, maxAttempts: int)
    requires EventTables.Fanned(e, e', sinks) && Bounded(e, maxAttempts)
    ensures |e'.deliveries| >= |e.deliveries|
    ensures Remaining(e'.deliveries, maxAttempts)
         == Remaining(e.deliveries, maxAttempts) + (|e'.deliveries| - |e.deliveries|) * maxAttempts
  {
    hide EventTables.Fanned, Bounded;
    FannedDeliveries(e, e', sinks, maxAttempts);
    var left, left' := LeftMap(e.deliveries, maxAttempts), LeftMap(e'.deliveries, maxAttempts);
    assert left.Keys == e.deliveries.Keys && left'.Keys == e'.deliveries.Keys;
    KeysGrow(e.deliveries.Keys, e'.deliveries.Keys);
    SumExtended(left, left', maxAttempts, |e'.deliveries.Keys| - |e.deliveries.Keys|);
  }

  lemma KeysGrow(before: set<DeliveryKey>, after: set<DeliveryKey>)
    requires before <= after
    ensures |before| <= |after|
  {
    assert after == before + (after - before);
  }

  lemma StepAttempts(s: State, a: Action, maxAttempts: int)
    requires Enabled(s, a) && (a.DoUpdateDelivery? ==> WorkerUpdate(s, a, maxAttempts))
    requires Bounded(s.events, maxAttempts) && 0 < maxAttempts <= 1000
    ensures var e, e' := s.events, Step(s, a).events;
            Remaining(e'.deliveries, maxAttempts) + (if a.DoUpdateDelivery? then 1 else 0)
              <= Remaining(e.deliveries, maxAttempts) + (|e'.deliveries| - |e.deliveries|) * maxAttempts
  {
    hide Bounded, Remaining, Step, Enabled, WorkerUpdate, Owners, Emissions.News;
    if a.DoUpdateDelivery? {
      AttemptCosts(s, a, maxAttempts);
      SameDeliveries(s, a, maxAttempts);
    } else {
      Emissions.StepSays(s, a);
      hide EventTables.Fanned;
      EventTables.AppendAllFans(s.events, Emissions.News(s, a), Owners(Step(s, a).invoices), s.sinks);
      FannedRemaining(s.events, Step(s, a).events, s.sinks, maxAttempts);
    }
  }

  lemma SameDeliveries(s: State, a: Action, maxAttempts: int)
    requires WorkerUpdate(s, a, maxAttempts)
    ensures |Step(s, a).events.deliveries| == |s.events.deliveries|
  {
    assert Step(s, a).events.deliveries.Keys == s.events.deliveries.Keys;
    assert |Step(s, a).events.deliveries.Keys| == |s.events.deliveries.Keys|;
  }

  lemma TimesDifference(m: nat, n: nat, c: int)
    ensures (m - n) * c == m * c - n * c
  {
  }

  /** A whole run makes at most `maxAttempts` attempts per delivery ever created; what is left is accounted for. */
  lemma {:induction false} AttemptsOfRunBounded(acts: seq<Action>, maxAttempts: int)
    requires Legal(acts) && WorkerRun(acts, maxAttempts) && 0 < maxAttempts <= 1000
    ensures var deliveries := Run(acts).events.deliveries;
            AttemptsIn(acts) + Remaining(deliveries, maxAttempts) <= |deliveries| * maxAttempts
    ensures AttemptsIn(acts) <= |Run(acts).events.deliveries| * maxAttempts
  {
    hide Step, Enabled, WorkerUpdate;
    if acts == [] {
      assert LeftMap(EMPTY.events.deliveries, maxAttempts) == map[];
    } else {
      hide Bounded, Remaining;
      LegalPrefix(acts);
      WorkerPrefix(acts, maxAttempts);
      var before := acts[..|acts| - 1];
      AttemptsOfRunBounded(before, maxAttempts);
      PendingHasAttemptsLeft(before, maxAttempts);
      StepAttempts(Run(before), acts[|acts| - 1], maxAttempts);
      TimesDifference(|Run(acts).events.deliveries|, |Run(before).events.deliveries|, maxAttempts);
    }
    PendingHasAttemptsLeft(acts, maxAttempts);
    RemainingNotNegative(Run(acts).events, maxAttempts);
  }

  // ----- what the sinks answered -----

  /** Deliveries are updated by attempts alone, the one at call `n` being answered with `answers(n)`. */
  ghost predicate Answered(acts: seq<Action>, answers: nat -> Option<string>, maxAttempts: int) {
    forall n: nat :: n < |acts| && acts[n].DoUpdateDelivery? ==>
        AnsweredCall(Run(acts[..n]), acts[n], answers(n), maxAttempts)
  }

  ghost predicate AnsweredCall(s: State, a: Action, failure: Option<string>, maxAttempts: int)
    requires a.DoUpdateDelivery?
  {
    && a.delivery in s.events.deliveries && s.events.deliveries[a.delivery].status == DeliveryPending
    && exists now :: Tried(s.events.deliveries[a.delivery], a.next, failure, now, maxAttempts)
  }

  /** How often an event was refused by a sink. */
  function Refusals(acts: seq<Action>, answers: nat -> Option<string>, key: DeliveryKey): (r: nat) {
    if acts == [] then 0 else
    var n := |acts| - 1;
    Refusals(acts[..n], answers, key)
      + if acts[n].DoUpdateDelivery? && acts[n].delivery == key && answers(n).Some? then 1 else 0
  }

  /** How often an event was taken by a sink. */
  function Takings(acts: seq<Action>, answers: nat -> Option<string>, key: DeliveryKey): (r: nat) {
    if acts == [] then 0 else
    var n := |acts| - 1;
    Takings(acts[..n], answers, key)
      + if acts[n].DoUpdateDelivery? && acts[n].delivery == key && answers(n).None? then 1 else 0
  }

  /**
   Pending: refused each time so far, and not as often as allowed. Delivered: taken once, by
   the last attempt. Failed: refused as often as attempts are allowed, and never taken.
  */
  predicate Counted(d: Delivery, refused: nat, taken: nat, maxAttempts: int) {
    match d.status
    case DeliveryPending =>
      && taken == 0 && d.attempt == refused < maxAttempts
      && (refused == 0 <==> d.nextRetryAt == None) && (refused == 0 <==> d.lastError == None)
    case Delivered => taken == 1 && d.attempt == refused + 1 && refused < maxAttempts
    case DeliveryFailed => taken == 0 && d.attempt == refused == maxAttempts
  }

  lemma AnsweredPrefix(acts: seq<Action>, answers: nat -> Option<string>, maxAttempts: int)
    requires Answered(acts, answers, maxAttempts) && acts != []
    ensures var n := |acts| - 1;
            && Answered(acts[..n], answers, maxAttempts)
            && (acts[n].DoUpdateDelivery? ==> AnsweredCall(Run(acts[..n]), acts[n], answers(n), maxAttempts))
  {
    hide Run, AnsweredCall;
    var before := acts[..|acts| - 1];
    assert forall n: nat :: n < |before| ==> before[..n] == acts[..n] && before[n] == acts[n];
  }

  lemma UpdateCounts(s: State, a: Action, failure: Option<string>, key: DeliveryKey, refused: nat, taken: nat,
                     maxAttempts: int)
    requires a.DoUpdateDelivery? && AnsweredCall(s, a, failure, maxAttempts) && 0 < maxAttempts <= 1000
    requires key in s.events.deliveries ==> Counted(s.events.deliveries[key], refused, taken, maxAttempts)
    requires key !in s.events.deliveries ==> refused == taken == 0
    ensures var deliveries := Step(s, a).events.deliveries;
            var r := if a.delivery == key && failure.Some? then refused + 1 else refused;
            var t := if a.delivery == key && failure.None? then taken + 1 else taken;
            && (key in deliveries ==> Counted(deliveries[key], r, t, maxAttempts))
            && (key !in deliveries ==> r == t == 0)
  {
    hide Backoff;
    assert Step(s, a).events.deliveries == s.events.deliveries[a.delivery := a.next];
  }

  lemma FanCounts(s: State, a: Action, n: nat, k: nat, refused: nat, taken: nat, maxAttempts: int)
    requires Enabled(s, a) && !a.DoUpdateDelivery? && maxAttempts > 0
    requires (n, k) in s.events.deliveries ==>
               n <= |s.events.outbox| && Counted(s.events.deliveries[(n, k)], refused, taken, maxAttempts)
    requires (n, k) !in s.events.deliveries ==> refused == taken == 0
    ensures var deliveries := Step(s, a).events.deliveries;
            && ((n, k) in deliveries ==> Counted(deliveries[(n, k)], refused, taken, maxAttempts))
            && ((n, k) !in deliveries ==> refused == taken == 0)
  {
    hide Step, Enabled, Owners, Emissions.News, Events.AppendAll;
    Emissions.StepSays(s, a);
    EventTables.AppendAllFans(s.events, Emissions.News(s, a), Owners(Step(s, a).invoices), s.sinks);
  }

  /** In every reachable state each delivery is as the answers of its sink make it. */
  lemma {:induction false} AttemptsAreCounted(acts: seq<Action>, answers: nat -> Option<string>, maxAttempts: int,
                                              n: nat, k: nat)
    requires Legal(acts) && Answered(acts, answers, maxAttempts) && 0 < maxAttempts <= 1000
    ensures var refused, taken := Refusals(acts, answers, (n, k)), Takings(acts, answers, (n, k));
            && ((n, k) in Run(acts).events.deliveries ==>
                  Counted(Run(acts).events.deliveries[(n, k)], refused, taken, maxAttempts))
            && ((n, k) !in Run(acts).events.deliveries ==> refused == taken == 0)
  {
    if acts != [] {
      hide Step, Enabled, AnsweredCall, Counted;
      LegalPrefix(acts);
      var before, a := acts[..|acts| - 1], acts[|acts| - 1];
      AnsweredPrefix(acts, answers, maxAttempts);
      AttemptsAreCounted(before, answers, maxAttempts, n, k);
      var refused, taken := Refusals(before, answers, (n, k)), Takings(before, answers, (n, k));
      if a.DoUpdateDelivery? {
        UpdateCounts(Run(before), a, answers(|before|), (n, k), refused, taken, maxAttempts);
      } else {
        History.DeliveriesComplete(before);
        assert (n, k) in Run(before).events.deliveries ==> History.DeliveryDue(before, n, k);
        FanCounts(Run(before), a, n, k, refused, taken, maxAttempts);
      }
    }
  }

  // ----- the worker -----

  /** Accepted limits on attempts and batches. */
  predicate Limit(n: int) {
    0 < n <= 1000
  }

  class Worker {
    const st: Store
    var batchSize: int
    var maxAttempts: int

    ghost predicate Valid()
      reads this
    {
      Limit(batchSize) && Limit(maxAttempts)
    }

    constructor (st: Store)
      ensures Valid() && this.st == st && batchSize == 100 && maxAttempts == 25
    {
      this.st, batchSize, maxAttempts := st, 100, 25;
    }

    method WithBatchSize(n: int) returns (ok: bool)
      requires Valid()
      modifies this`batchSize
      ensures Valid() && ok == Limit(n) && batchSize == if ok then n else old(batchSize)
    {
      if n <= 0 || n > 1000 {
        return false;
      }
      batchSize := n;
      ok := true;
    }

    method WithMaxAttempts(n: int) returns (ok: bool)
      requires Valid()
      modifies this`maxAttempts
      ensures Valid() && ok == Limit(n) && maxAttempts == if ok then n else old(maxAttempts)
    {
      if n <= 0 || n > 1000 {
        return false;
      }
      maxAttempts := n;
      ok := true;
    }

    /** The delivery after an attempt that ended like this. */
    method Outcome(d: Delivery, failure: Option<string>, now: Time) returns (next: Delivery)
      ensures next == Attempted(d, failure, now, maxAttempts) && Tried(d, next, failure, now, maxAttempts)
    {
      hide Backoff;
      var attempt := NextAttempt(d.attempt);
      match failure {
        case Some(lastError) =>
          if attempt >= maxAttempts {
            next := Delivery(DeliveryFailed, attempt, None, Some(lastError));
          } else {
            next := Delivery(DeliveryPending, attempt, Some(now + Backoff(attempt)), Some(lastError));
          }
        case None =>
          next := Delivery(Delivered, attempt, None, None);
      }
    }

    /** One attempt at a pending delivery; the sink takes or refuses it as it pleases. */
    method Try(id: nat, now: Time, ghost s: State, ghost acts: seq<Action>)
        returns (ghost failure: Option<string>, ghost acts': seq<Action>)
      requires Valid() && st.Valid() && id in st.deliveries && st.deliveries[id].state.status == DeliveryPending
      requires st.Abs() == RunFrom(s, acts) && WorkerOnly(s, acts, maxAttempts)
      modifies st`deliveries
      ensures st.Valid() && id in st.deliveries
      ensures st.deliveries == old(st.deliveries)[id := st.deliveries[id]]
      ensures |acts'| == |acts| + 1 && acts'[..|acts|] == acts
      ensures TriedRow(old(st.deliveries), st.deliveries, id, acts'[|acts|], failure, now, maxAttempts)
      ensures st.Abs() == RunFrom(s, acts') && WorkerOnly(s, acts', maxAttempts)
    {
      hide Store.Valid, Store.Abs, WorkerOnly, Attempted, Tried, RunFrom, Step, WorkerUpdate;
      var row := st.deliveries[id];
      RowIsThere(st, id);
      var answer: Option<string> := *;
      var next := Outcome(row.state, answer, now);
      ghost var before := st.Abs();
      var r := st.UpdateEventDelivery(id, next);
      ghost var a := DoUpdateDelivery(KeyOf(row), next);
      UpdateIsCall(before, a, row.state, answer, now, maxAttempts);
      OneMoreCall(s, acts, a, maxAttempts);
      failure, acts' := answer, acts + [a];
    }

    /**
     One attempt at every delivery of a batch, none before its retry time; `answers` is what
     the sinks do.
    */
    method Sync(now: Time) returns (tasks: seq<nat>, ghost acts: seq<Action>, ghost answers: seq<Option<string>>)
      requires Valid() && st.Valid()
      modifies st`deliveries
      ensures st.Valid() && |tasks| == |acts| == |answers| <= batchSize
      ensures forall m, n :: 0 <= m < n < |tasks| ==> tasks[m] != tasks[n]
      ensures forall n :: 0 <= n < |tasks| ==> old(st.IsDue(tasks[n], now))
      ensures |tasks| < batchSize ==> forall id :: old(st.IsDue(id, now)) ==> id in tasks
      ensures forall n :: 0 <= n < |tasks| ==>
                TriedRow(old(st.deliveries), st.deliveries, tasks[n], acts[n], answers[n], now, maxAttempts)
      ensures forall id :: id in old(st.deliveries) && id !in tasks ==>
                id in st.deliveries && st.deliveries[id] == old(st.deliveries)[id]
      ensures st.Abs() == RunFrom(old(st.Abs()), acts) && WorkerOnly(old(st.Abs()), acts, maxAttempts)
    {
      hide Store.Valid, Store.Abs, WorkerOnly, Attempted, TriedRow, RunFrom, Step, WorkerUpdate;
      ghost var s, rows := st.Abs(), st.deliveries;
      tasks := st.ListDueDeliveries(now, batchSize, now);
      acts, answers := [], [];
      NoCalls(s, maxAttempts);
      for n := 0 to |tasks|
        invariant st.Valid() && |acts| == |answers| == n && st.deliveries.Keys == rows.Keys
        invariant st.Abs() == RunFrom(s, acts) && WorkerOnly(s, acts, maxAttempts)
        invariant forall m :: n <= m < |tasks| ==>
                    tasks[m] in rows && rows[tasks[m]].state.status == DeliveryPending
        invariant forall m :: 0 <= m < n ==>
                    TriedRow(rows, st.deliveries, tasks[m], acts[m], answers[m], now, maxAttempts)
        invariant forall id :: id in rows && (forall m :: 0 <= m < n ==> tasks[m] != id) ==>
                st.deliveries[id] == rows[id]
      {
        ghost var before, failure, more := st.deliveries, None, acts;
        failure, more := Try(tasks[n], now, s, acts);
        assert forall m :: 0 <= m < n ==> more[m] == more[..n][m] == acts[m];
        acts, answers := more, answers + [failure];
        TriedMore(rows, before, st.deliveries, tasks, acts, answers, n, now, maxAttempts);
      }
    }
  }

  /** The delivery with this number was pending, and is as one attempt with this answer leaves it. */
  ghost predicate TriedRow(before: map<nat, DeliveryRow>, after: map<nat, DeliveryRow>, id: nat, a: Action,
                           failure: Option<string>, now: Time, maxAttempts: int) {
    && id in before && id in after && before[id].state.status == DeliveryPending
    && after[id] == before[id].(state := after[id].state)
    && a == DoUpdateDelivery(KeyOf(before[id]), after[id].state)
    && Tried(before[id].state, after[id].state, failure, now, maxAttempts)
  }

  /** Trying another delivery does not touch those tried before. */
  lemma TriedMore(rows: map<nat, DeliveryRow>, before: map<nat, DeliveryRow>, after: map<nat, DeliveryRow>,
                  tasks: seq<nat>, acts: seq<Action>, answers: seq<Option<string>>, n: nat, now: Time, maxAttempts: int)
    requires n < |tasks| && |acts| == |answers| == n + 1
    requires forall l, m :: 0 <= l < m < |tasks| ==> tasks[l] != tasks[m]
    requires tasks[n] in before && tasks[n] in after && after == before[tasks[n] := after[tasks[n]]]
    requires forall m :: 0 <= m < n ==> TriedRow(rows, before, tasks[m], acts[m], answers[m], now, maxAttempts)
    requires TriedRow(before, after, tasks[n], acts[n], answers[n], now, maxAttempts)
    requires tasks[n] in rows && rows[tasks[n]] == before[tasks[n]]
    ensures forall m :: 0 <= m < n + 1 ==> TriedRow(rows, after, tasks[m], acts[m], answers[m], now, maxAttempts)
  {
    hide Tried;
  }

  lemma RowIsThere(st: Store, id: nat)
    requires st.Valid() && id in st.deliveries
    ensures KeyOf(st.deliveries[id]) in st.Abs().events.deliveries
    ensures st.Abs().events.deliveries[KeyOf(st.deliveries[id])] == st.deliveries[id].state
  {
    hide ByKey, Distinct;
    ByKeyRows(st.deliveries);
  }

  lemma NoCalls(s: State, maxAttempts: int)
    ensures RunFrom(s, []) == s && WorkerOnly(s, [], maxAttempts)
  {
  }

  lemma UpdateIsCall(s: State, a: Action, d: Delivery, failure: Option<string>, now: Time, maxAttempts: int)
    requires a.DoUpdateDelivery? && a.delivery in s.events.deliveries && s.events.deliveries[a.delivery] == d
    requires d.status == DeliveryPending && a.next == Attempted(d, failure, now, maxAttempts)
    ensures WorkerUpdate(s, a, maxAttempts) && Step(s, a) == UpdateDelivery(s, a.delivery, a.next).0
  {
    hide Attempted;
  }

  lemma OneMoreCall(s: State, acts: seq<Action>, a: Action, maxAttempts: int)
    requires WorkerOnly(s, acts, maxAttempts) && WorkerUpdate(RunFrom(s, acts), a, maxAttempts)
    ensures WorkerOnly(s, acts + [a], maxAttempts)
    ensures RunFrom(s, acts + [a]) == Step(RunFrom(s, acts), a)
  {
    hide WorkerUpdate, RunFrom;
    RunFromOneMore(s, acts, a);
    var all := acts + [a];
    assert all[..|acts|] == acts;
    assert forall n :: 0 <= n < |acts| ==> all[..n] == acts[..n] && all[n] == acts[n];
  }
}
