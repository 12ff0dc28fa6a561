/**
 What the reports of the scanner make of a deposit, one by one and over whole
 runs: which report leaves which status, and what a deposit that was taken
 back is still worth.
*/
module Reports {
  import opened Domain
  import opened Sums
  import opened Text
  import opened Ledger
  import opened Accounts
  import opened Attribution
  import opened SqlLedger
  import Confirmation

  // ----- deposits and their indexes -----

  /** An unsigned word read as a signed one: the same 32 bits, so different words are different indexes. */
  lemma IndexIsWord(u: nat, v: nat)
    requires u < 0x1_0000_0000 && v < 0x1_0000_0000
    ensures ToInt32(u) == if u < 0x8000_0000 then u else u - 0x1_0000_0000
    ensures ToInt32(u) == ToInt32(v) <==> u == v
  {
  }

  /** The deposit a payload is about. */
  predicate About(ev: ScanEvent, p: Payload, k: DepKey) {
    && k.wallet == (if p.wallet == "" then TrimSpace(ev.wallet) else p.wallet) && k.txid == p.txid
    && k.index == ToInt32(p.actionIndex)
  }

  /**
   An event the store takes a deposit from: new to its wallet, with an address, an amount
   of 63 bits and a readable payload.
  */
  predicate Taken(s: State, ev: ScanEvent, k: DepKey) {
    && TrimSpace(ev.wallet) != "" && ev.cursor > 0
    && (TrimSpace(ev.wallet) in s.cursors ==> ev.cursor > s.cursors[TrimSpace(ev.wallet)])
    && ev.kind != OtherKind && ev.payload.Some? && About(ev, ev.payload.value, k)
    && ev.payload.value.address != "" && ev.payload.value.amount < 0x8000_0000_0000_0000
  }

  // ----- one report -----

  /** What a report writes over a row, or as a new one. */
  predicate Written(before: Option<Deposit>, d: Deposit, ev: ScanEvent, p: Payload, now: Time) {
    && d.amount == p.amount && d.height == p.height && d.address == ToLower(TrimSpace(p.address)) && d.updatedAt == now
    && (ev.kind == DepositUnconfirmedKind ==> d.status == Unconfirmed && d.confirmedHeight == None)
    && (ev.kind == DepositOrphanedKind ==> d.status == Orphaned && d.confirmedHeight == None)
    && (ev.kind == DepositEvent || ev.kind == DepositConfirmedKind ==>
          if before.Some? && before.value.status == DepositConfirmed
          then d.status == DepositConfirmed && d.confirmedHeight == before.value.confirmedHeight
          else d.status == Detected && d.confirmedHeight == None)
    && (if before.Some? then d.seqNo == before.value.seqNo && d.detectedAt == before.value.detectedAt
        else d.detectedAt == if ev.occurredAt.Some? then ev.occurredAt.value else now)
  }

  /** The row of a deposit, if there is one. */
  function RowOf(deposits: map<DepKey, Deposit>, k: DepKey): (r: Option<Deposit>) {
    if k in deposits then Some(deposits[k]) else None
  }

  lemma RowReported(s: State, ev: ScanEvent, p: Payload, k: DepKey, now: Time)
    requires ev.kind != OtherKind && About(ev, p, k)
    ensures PayloadKey(ev, p) == k && Written(RowOf(s.deposits, k), DepositAfter(s, ev, p, now), ev, p, now)
  {
    hide MatchInvoice, TrimSpace, ToLower, ToInt32;
  }

  /** The row of the SQL store after a report, its times in whole seconds. */
  lemma SqlRowReported(t: Tables, ev: ScanEvent, p: Payload, now: Time)
    requires ev.kind != OtherKind && p.amount < 0x8000_0000_0000_0000
    requires EventKey(p) in t.deposits ==>
               (t.deposits[EventKey(p)].status == DepositConfirmed <==> t.deposits[EventKey(p)].confirmedHeight.Some?)
    ensures var whole := ev.(occurredAt := if ev.occurredAt.Some? then Some(Whole(ev.occurredAt.value)) else None);
            Written(RowOf(t.deposits, EventKey(p)), RowAfter(t, ev, p, now), whole, p, Whole(now))
    ensures EventKey(p) == DepKey(p.wallet, p.txid, ToInt32(p.actionIndex))
  {
    hide MatchRow, TrimSpace, ToLower, ToInt32, Whole;
  }

  lemma TakenIsEffective(s: State, ev: ScanEvent, k: DepKey)
    ensures Taken(s, ev, k) <==>
              Effective(s, ev) && ev.kind != OtherKind && Acceptable(ev.payload.value)
                  && PayloadKey(ev, ev.payload.value) == k
  {
    hide TrimSpace, ToInt32;
  }

  /** A report writes the row of its deposit as it says, and no other row. */
  lemma ReportWritten(s: State, ev: ScanEvent, owner: MerchantId, now: Time, k: DepKey)
    ensures var deposits := ApplyScanEvent(s, ev, owner, now).deposits;
            && (Taken(s, ev, k) ==>
                  k in deposits && Written(RowOf(s.deposits, k), deposits[k], ev, ev.payload.value, now))
            && (!Taken(s, ev, k) ==> RowOf(deposits, k) == RowOf(s.deposits, k))
  {
    hide ApplyDeposit, DepositAfter, TrimSpace, Taken, Written, About, Acceptable, Effective, PayloadKey;
    TakenIsEffective(s, ev, k);
    if Effective(s, ev) && ev.kind != OtherKind {
      EffectivePayload(s, ev);
      var p := ev.payload.value;
      if PayloadKey(ev, p) == k {
        KeyIsAbout(ev, p);
        RowReported(s, ev, p, k, now);
      }
    }
  }

  lemma EffectivePayload(s: State, ev: ScanEvent)
    requires Effective(s, ev) && ev.kind != OtherKind
    ensures ev.payload.Some?
  {
  }

  lemma KeyIsAbout(ev: ScanEvent, p: Payload)
    ensures About(ev, p, PayloadKey(ev, p))
  {
    hide TrimSpace, ToInt32;
  }

  // ----- other calls -----

  /** A pass may confirm a detected deposit; nothing else but a report changes a row. */
  lemma StepRow(s: State, a: Action, k: DepKey)
    requires Enabled(s, a) && k in s.deposits && !(a.DoScan? && Taken(s, a.ev, k))
    ensures var deposits := Step(s, a).deposits;
            && k in deposits && deposits[k].amount == s.deposits[k].amount && deposits[k].height == s.deposits[k].height
            && (deposits[k].status == s.deposits[k].status
                || (a.DoConfirm? && s.deposits[k].status == Detected && deposits[k].status == DepositConfirmed))
  {
    if a.DoScan? {
      hide ApplyScanEvent, Taken;
      ReportWritten(s, a.ev, a.owner, a.now, k);
    } else if a.DoConfirm? {
      hide ConfirmPass, ReceivedOf, Refreshed;
      Confirmation.PassIsOneUpdate(s, a.best, a.now, a.order, a.invOrder);
    } else if a.DoCreateInvoice? {
      hide CreateInvoice;
    } else {
      hide Step;
      MinorFrame(s, a);
    }
  }

  // ----- over runs -----

  /** The call at `n` reports the deposit. */
  ghost predicate ReportedAt(acts: seq<Action>, n: nat, k: DepKey) {
    n < |acts| && acts[n].DoScan? && Taken(Run(acts[..n]), acts[n].ev, k)
  }

  /** The last report of the deposit. */
  ghost predicate LastReport(acts: seq<Action>, n: nat, k: DepKey) {
    ReportedAt(acts, n, k) && forall m: nat :: n < m < |acts| ==> !ReportedAt(acts, m, k)
  }

  /** A deposit is as its last report says, but that a pass may have confirmed it. */
  ghost predicate AsReported(acts: seq<Action>, n: nat, k: DepKey)
    requires n < |acts| && acts[n].DoScan? && acts[n].ev.payload.Some?
  {
    var deposits, ev, p := Run(acts).deposits, acts[n].ev, acts[n].ev.payload.value;
    && k in deposits && deposits[k].amount == p.amount && deposits[k].height == p.height
    && (ev.kind == DepositUnconfirmedKind ==> deposits[k].status == Unconfirmed)
    && (ev.kind == DepositOrphanedKind ==> deposits[k].status == Orphaned)
    && (ev.kind == DepositEvent || ev.kind == DepositConfirmedKind ==>
          deposits[k].status == Detected || deposits[k].status == DepositConfirmed)
  }

  lemma {:induction false} DepositIsAsReported(acts: seq<Action>, n: nat, k: DepKey)
    requires Legal(acts) && LastReport(acts, n, k)
    ensures n < |acts| && acts[n].DoScan? && acts[n].ev.payload.Some? && AsReported(acts, n, k)
    decreases |acts|
  {
    hide Step, Enabled, Taken, TrimSpace;
    TakenHasPayload(Run(acts[..n]), acts[n].ev, k);
    LegalPrefix(acts);
    var before, a := acts[..|acts| - 1], acts[|acts| - 1];
    if n == |acts| - 1 {
      assert acts[..n] == before;
      JustReported(Run(before), a, k);
    } else {
      ReportsBefore(acts, n, k);
      DepositIsAsReported(before, n, k);
      StepRow(Run(before), a, k);
    }
  }

  lemma TakenHasPayload(s: State, ev: ScanEvent, k: DepKey)
    requires Taken(s, ev, k)
    ensures ev.payload.Some? && ev.kind != OtherKind
  {
  }

  lemma JustReported(s: State, a: Action, k: DepKey)
    requires a.DoScan? && Taken(s, a.ev, k)
    ensures a.ev.payload.Some?
    ensures k in Step(s, a).deposits
            && Written(RowOf(s.deposits, k), Step(s, a).deposits[k], a.ev, a.ev.payload.value, a.now)
  {
    hide ApplyScanEvent, Written;
    ReportWritten(s, a.ev, a.owner, a.now, k);
  }

  lemma ReportsBefore(acts: seq<Action>, n: nat, k: DepKey)
    requires LastReport(acts, n, k) && n < |acts| - 1
    ensures LastReport(acts[..|acts| - 1], n, k)
    ensures !(acts[|acts| - 1].DoScan? && Taken(Run(acts[..|acts| - 1]), acts[|acts| - 1].ev, k))
  {
    hide Run, Taken;
    var before := acts[..|acts| - 1];
    assert forall m: nat :: m < |before| ==> before[..m] == acts[..m] && before[m] == acts[m];
    assert !ReportedAt(acts, |acts| - 1, k);
    assert forall m: nat :: m < |before| ==> (ReportedAt(before, m, k) <==> ReportedAt(acts, m, k));
  }

  /**
   A deposit that was last reported unconfirmed or orphaned adds nothing to any confirmed
   sum, and an orphaned one nothing to any pending sum either.
  */
  lemma TakenBackIsWorthless(acts: seq<Action>, n: nat, k: DepKey, i: InvoiceId)
    requires Legal(acts) && LastReport(acts, n, k) && n < |acts| && acts[n].DoScan?
    requires acts[n].ev.kind == DepositUnconfirmedKind || acts[n].ev.kind == DepositOrphanedKind
    ensures var deposits := Run(acts).deposits;
            && ConfirmedOf(deposits, i) == ConfirmedOf(deposits - {k}, i)
            && (acts[n].ev.kind == DepositOrphanedKind ==> PendingOf(deposits, i) == PendingOf(deposits - {k}, i))
  {
    hide Run, PendingOf, ConfirmedOf, LastReport, Legal;
    DepositIsAsReported(acts, n, k);
    SumsTell(Run(acts).deposits, k, i);
  }
}
