/** When one deposit row and one invoice come out alike in both stores. */
module SqlRefinement {
  import opened Domain
  import opened Sums
  import opened Text
  import opened Ledger
  import opened Accounts
  import opened Attribution
  import opened SqlLedger

  // ----- whole seconds, statuses -----

  predicate WholeSecond(t: Time) {
    t % SECOND == 0
  }

  predicate WholeExpiry(invoices: map<InvoiceId, Invoice>) {
    forall i :: i in invoices && invoices[i].expiresAt.Some? ==> WholeSecond(invoices[i].expiresAt.value)
  }

  lemma WholeTimes(now: Time, t: Time)
    requires WholeSecond(now) && WholeSecond(t)
    ensures Whole(now) == now && (now / SECOND > t / SECOND <==> now > t)
  {
    assert now == now / SECOND * SECOND && t == t / SECOND * SECOND;
  }

  /** Stored times are the latest whole seconds not after the moment. */
  lemma StoredTime(t: Time)
    ensures WholeSecond(Whole(t)) && Whole(t) <= t < Whole(t) + 1_000_000_000
  {
  }

  /**
   The SQL store calls an invoice expired when a whole second has begun after the stored
   expiry, at most a second late.
  */
  lemma SqlExpiresByTheSecond(inv: Invoice, now: Time)
    ensures SqlExpired(inv, now) <==> inv.expiresAt.Some? && now >= Whole(inv.expiresAt.value) + 1_000_000_000
    ensures SqlExpired(inv, now) ==> inv.ExpiredAt(now)
    ensures inv.ExpiredAt(now) && now >= inv.expiresAt.value + 1_000_000_000 ==> SqlExpired(inv, now)
  {
  }

  /** In whole seconds both stores bring an invoice up to date alike. */
  lemma RefreshedAlike(inv: Invoice, pending: int, confirmed: int, now: Time)
    requires WholeSecond(now) && (inv.expiresAt.Some? ==> WholeSecond(inv.expiresAt.value))
    requires Int64(pending) && Int64(confirmed)
    ensures SqlRefreshed(inv, pending, confirmed, now)
            == Refreshed(inv, Received(Wrap64(pending), Wrap64(confirmed)), now)
  {
    hide Wrap64, Whole;
    WholeTimes(now, if inv.expiresAt.Some? then inv.expiresAt.value else 0);
    Fits64(pending);
    Fits64(confirmed);
  }

  lemma Fits64(x: int)
    requires Int64(x)
    ensures Wrap64(x) == x
  {
  }

  // ----- one deposit event -----

  /** Confirmed deposits, and only they, have a confirmed height. */
  predicate HeightsSet(deposits: map<DepKey, Deposit>) {
    forall k :: k in deposits ==> (deposits[k].status == DepositConfirmed <==> deposits[k].confirmedHeight.Some?)
  }

  ghost predicate Comparable(s: State) {
    Indexed(s) && Agrees(s) && HeightsSet(s.deposits) && WholeExpiry(s.invoices)
  }

  /** A deposit that has an invoice is matched with that invoice again. */
  predicate Faithful(s: State, ev: ScanEvent, p: Payload) {
    var key := PayloadKey(ev, p);
    key in s.deposits && s.deposits[key].invoice != 0 ==>
      MatchInvoice(s, key.wallet, ToLower(TrimSpace(p.address)), p.height) == s.deposits[key].invoice
  }

  /** What the scanner has to send, and when, for both stores to do the same. */
  ghost predicate Tame(s: State, ev: ScanEvent, p: Payload, now: Time) {
    && p.wallet != "" && Acceptable(p) && Faithful(s, ev, p)
    && WholeSecond(now) && (ev.occurredAt.Some? ==> WholeSecond(ev.occurredAt.value))
    && !Ambiguous(TablesOf(s), p.wallet)
  }

  /** The search through the rows finds what the index of the in-memory store finds. */
  lemma MatchedAlike(s: State, wallet: string, address: string, height: int)
    requires Indexed(s) && 0 !in s.invoices
    ensures MatchRow(TablesOf(s), wallet, address, height) == MatchInvoice(s, wallet, address, height)
  {
    var t := TablesOf(s);
    var i := AnyRow(t, wallet, address);
    var key := (wallet, address);
    if IsRow(t, i, wallet, address) {
      assert PayKey(s.invoices[i]) == key;
    } else {
      forall j | j in s.invoices ensures PayKey(s.invoices[j]) != key {
        assert !IsRow(t, j, wallet, address);
      }
      assert key !in s.byAddress;
    }
  }

  lemma RowsAlike(s: State, ev: ScanEvent, p: Payload, now: Time)
    requires Comparable(s) && Tame(s, ev, p, now)
    ensures RowAfter(TablesOf(s), ev, p, now) == DepositAfter(s, ev, p, now)
    ensures Matched(TablesOf(s), p) == DepositAfter(s, ev, p, now).invoice
    ensures EventKey(p) == PayloadKey(ev, p) && Acceptable(p) && !Ambiguous(TablesOf(s), p.wallet)
    ensures Agrees(s) && WholeExpiry(s.invoices) && WholeSecond(now)
  {
    hide MatchInvoice, MatchRow, TrimSpace, Indexed, Ambiguous, Exact;
    MatchedAlike(s, p.wallet, ToLower(TrimSpace(p.address)), p.height);
    WholeTimes(now, now);
    WholeTimes(OccurredOr(ev.occurredAt, now), now);
  }
}
