/**
 The accounting of the SQL store, on its tables. It recomputes the invoice an
 event matches, where the in-memory ledger recomputes the invoice stored on
 the deposit; this module says when the two agree.
*/
module SqlLedger {
  import opened Domain
  import opened Text
  import opened Ledger

  /** The tables the accounting reads and writes; a transaction maps tables to tables or fails and changes nothing. */
  datatype Tables = Tables(
    invoices: map<InvoiceId, Invoice>,
    deposits: map<DepKey, Deposit>,
    cursors: map<string, int>,
    wallets: map<MerchantId, Wallet>,
    depositSeq: nat)

  /** The same tables of the in-memory store. */
  function TablesOf(s: State): (r: Tables) {
    Tables(s.invoices, s.deposits, s.cursors, s.wallets, s.depositSeq)
  }

  /** Times are stored in whole seconds. */
  function Whole(t: Time): (r: Time) {
    t / SECOND * SECOND
  }

  // ----- recomputing an invoice -----

  function SqlStatus(amount: int, pending: int, confirmed: int, expired: bool, late: LatePolicy): (r: InvoiceStatus) {
    var total := Wrap64(pending + confirmed);
    if total == 0 && expired then Expired
    else if total == 0 then Open
    else if confirmed > amount then Overpaid
    else if confirmed == amount then if expired && late == MarkPaidLate then PaidLate else Confirmed
    else if total >= amount then Pending
    else if confirmed > 0 then PartialConfirmed
    else PartialPending
  }

  function SqlExpired(inv: Invoice, now: Time): (r: bool) {
    inv.expiresAt.Some? && now / SECOND > inv.expiresAt.value / SECOND
  }

  function SqlRefreshed(inv: Invoice, pending: int, confirmed: int, now: Time): (r: Invoice) {
    inv.(received := Received(pending, confirmed),
         status := SqlStatus(inv.amount, pending, confirmed, SqlExpired(inv, now), inv.policies.late),
         updatedAt := Whole(now))
  }

  predicate Int64(x: int) {
    -MAX_INT64 - 1 <= x <= MAX_INT64
  }

  /** The sums of an invoice can be read back as 64-bit numbers. */
  ghost predicate SumsFit(deposits: map<DepKey, Deposit>, i: InvoiceId) {
    Int64(PendingOf(deposits, i)) && Int64(ConfirmedOf(deposits, i))
  }

  ghost function SqlRecompute(t: Tables, i: InvoiceId, now: Time): (r: Result<Tables>) {
    if i !in t.invoices || !SumsFit(t.deposits, i) then Err(Internal) else
    Ok(t.(invoices := t.invoices[i := SqlRefreshed(t.invoices[i], PendingOf(t.deposits, i),
        ConfirmedOf(t.deposits, i), now)]))
  }

  // ----- scan events -----

  ghost predicate IsRow(t: Tables, i: InvoiceId, wallet: string, address: string) {
    i in t.invoices && t.invoices[i].wallet == wallet && t.invoices[i].address == address
  }

  /** Wallet and address are unique among invoices. */
  ghost predicate UniqueRows(t: Tables) {
    forall i, j | i in t.invoices && j in t.invoices ::
      t.invoices[i].wallet == t.invoices[j].wallet && t.invoices[i].address == t.invoices[j].address ==> i == j
  }

  /** Some row of that wallet and address, or zero. */
  ghost function AnyRow(t: Tables, wallet: string, address: string): (i: InvoiceId)
    ensures IsRow(t, i, wallet, address) || (i == 0 && forall j: InvoiceId :: !IsRow(t, j, wallet, address))
  {
    if exists i: InvoiceId :: IsRow(t, i, wallet, address) then var i: InvoiceId :| IsRow(t, i, wallet, address);
            i else 0
  }

  /** The invoice an event matches. */
  ghost function MatchRow(t: Tables, wallet: string, address: string, height: int): (r: InvoiceId)
    ensures r != 0 ==> r in t.invoices
  {
    var i := AnyRow(t, wallet, address);
    if i in t.invoices && height > t.invoices[i].createdAfterHeight then i else 0
  }

  function EventKey(p: Payload): (r: DepKey) {
    DepKey(p.wallet, p.txid, ToInt32(p.actionIndex))
  }

  /**
   A row updated: its status and confirmed height are computed column by column, its
   invoice is kept if it has one.
  */
  function RowUpdated(d: Deposit, address: string, amount: int, height: int, status: DepositStatus,
                      matched: InvoiceId, now: Time): (r: Deposit) {
    d.(address := address, amount := amount, height := height,
       status := if d.status == DepositConfirmed && status == Detected then d.status else status,
       confirmedHeight := if status == Unconfirmed || status == Orphaned then None else d.confirmedHeight,
       invoice := if d.invoice != 0 then d.invoice else matched,
       updatedAt := Whole(now))
  }

  ghost function RowAfter(t: Tables, ev: ScanEvent, p: Payload, now: Time): (r: Deposit) {
    var address, amount, key := ToLower(TrimSpace(p.address)), Wrap64(p.amount), EventKey(p);
    var matched := MatchRow(t, p.wallet, address, p.height);
    if key in t.deposits
    then RowUpdated(t.deposits[key], address, amount, p.height, Incoming(ev.kind), matched, now)
    else NewDeposit(t.depositSeq + 1, address, amount, p.height, Incoming(ev.kind), matched,
                    Whole(OccurredOr(ev.occurredAt, now)), Whole(now))
  }

  /** Two merchants with the same wallet. */
  ghost predicate Ambiguous(t: Tables, wallet: string) {
    exists m, n :: m in t.wallets && n in t.wallets && m != n && t.wallets[m].walletId == wallet
        && t.wallets[n].walletId == wallet
  }

  ghost function PutRow(t: Tables, key: DepKey, d: Deposit): (r: Tables) {
    t.(deposits := t.deposits[key := d], depositSeq := if key in t.deposits then t.depositSeq else t.depositSeq + 1)
  }

  ghost function Matched(t: Tables, p: Payload): (r: InvoiceId) {
    MatchRow(t, p.wallet, ToLower(TrimSpace(p.address)), p.height)
  }

  ghost function SqlDeposit(t: Tables, ev: ScanEvent, p: Payload, now: Time): (r: Result<Tables>) {
    var t1 := PutRow(t, EventKey(p), RowAfter(t, ev, p, now));
    var matched := Matched(t, p);
    if matched != 0 then SqlRecompute(t1, matched, now)
    else if Ambiguous(t, p.wallet) then Err(Internal)
    else Ok(t1)
  }

  function StoredCursor(t: Tables, wallet: string): (r: int) {
    if wallet in t.cursors then t.cursors[wallet] else 0
  }

  // ----- confirmation pass -----

  /** The rows a pass selects: among other things their height is not above the chain's. */
  predicate Selected(t: Tables, d: Deposit, best: int) {
    && d.status == Detected && d.invoice != 0 && d.invoice in t.invoices && d.height <= best
    && best - d.height + 1 >= t.invoices[d.invoice].Required()
  }

  function RowConfirmed(t: Tables, d: Deposit, now: Time): (r: Deposit)
    requires d.invoice in t.invoices
  {
    d.(status := DepositConfirmed, confirmedHeight := Some(d.height + t.invoices[d.invoice].Required() - 1),
        updatedAt := Whole(now))
  }

  function RowsConfirmed(t: Tables, best: int, now: Time): (r: map<DepKey, Deposit>) {
    map k | k in t.deposits :: if Selected(t, t.deposits[k], best) then RowConfirmed(t, t.deposits[k], now)
        else t.deposits[k]
  }

  ghost function InvoicesTouched(t: Tables, best: int): (r: set<InvoiceId>) {
    set k | k in t.deposits && Selected(t, t.deposits[k], best) :: t.deposits[k].invoice
  }
}
