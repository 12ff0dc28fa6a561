/** Table prefixes: which are accepted, and the identifiers they make. */
module SqlPrefix {
  import opened Domain
  import opened Text
  import opened SqlText
  import SqlRebind

  const MAX_IDENT := 63
  const MAX_PREFIX := 20

  const PAYMENT_TABLES: seq<string> := [
    "merchants", "merchant_wallets", "api_keys", "invoices", "invoice_tokens", "scan_cursors", "deposits"]

  const EVENT_TABLES: seq<string> := [
    "refunds", "review_cases", "invoice_events", "event_sinks", "outbox_events", "event_deliveries"]

  /** Indexes are named after their table and what they order or make unique. */
  function Index(table: string, columns: string): (r: string) {
    "idx_" + table + "_" + columns
  }

  const DEPOSIT_INDEXES: seq<string> := [
    Index("api_keys", "token_hash"),
    Index("deposits", "invoice_status"),
    Index("deposits", "wallet_recipient_hash")]

  const INVOICE_INDEXES: seq<string> := [
    Index("invoices", "merchant_seq"),
    Index("invoices", "merchant_status_seq"),
    Index("refunds", "merchant_id"),
    Index("refunds", "invoice_id")]

  const REVIEW_INDEXES: seq<string> := [
    Index("review_cases", "merchant_status"),
    Index("review_cases", "invoice_unique"),
    Index("review_cases", "deposit_unique")]

  const LOG_INDEXES: seq<string> := [
    Index("invoice_events", "invoice_id"),
    Index("invoice_events", "deposit_unique"),
    Index("invoice_events", "refund_unique")]

  const OUTBOX_INDEXES: seq<string> := [
    Index("event_sinks", "merchant_id"),
    Index("outbox_events", "merchant_id")]

  const DELIVERY_INDEXES: seq<string> := [
    Index("event_deliveries", "merchant_status_retry"),
    Index("event_deliveries", "sink_id")]

  const BASE_IDENTS :=
    PAYMENT_TABLES + EVENT_TABLES
    + DEPOSIT_INDEXES + INVOICE_INDEXES + REVIEW_INDEXES + LOG_INDEXES + OUTBOX_INDEXES + DELIVERY_INDEXES

  method ValidateIdent(ident: string) returns (ok: bool)
    ensures ok <==> IsIdent(TrimSpace(ident)) && |TrimSpace(ident)| <= MAX_IDENT
    ensures ok <==> |TrimSpace(ident)| <= 63 && TrimSpace(ident) != "" && !('0' <= TrimSpace(ident)[0] <= '9')
                    && forall k :: 0 <= k < |TrimSpace(ident)| ==>
                         var c := TrimSpace(ident)[k];
                         'a' <= c <= 'z' || 'A' <= c <= 'Z' || '0' <= c <= '9' || c == '_'
  {
    var id := TrimSpace(ident);
    if id == "" || |id| > MAX_IDENT || !IsIdentStart(id[0]) {
      return false;
    }
    for i := 1 to |id|
      invariant forall k :: 0 < k < i ==> IsIdentContinue(id[k])
    {
      if !IsIdentContinue(id[i]) {
        return false;
      }
    }
    ok := true;
  }

  function Prefixed(prefix: string, ident: string): (r: string) {
    prefix + "_" + ident
  }

  /** The renaming a prefix stands for. */
  function PrefixMap(prefix: string): (r: map<string, string>) {
    map ident | ident in BASE_IDENTS :: Prefixed(prefix, ident)
  }

  /** No renaming for an empty prefix, none at all for a bad or long one. */
  method WithTablePrefix(prefix: string) returns (r: Result<map<string, string>>)
    ensures r == (var p := TrimSpace(prefix);
                  if p == "" then Ok(map[])
                  else if IsIdent(p) && |p| <= MAX_PREFIX then Ok(PrefixMap(p))
                  else Err(InvalidArgument))
  {
    hide TrimSpace, BASE_IDENTS, IsIdent;
    var p := TrimSpace(prefix);
    if p == "" {
      return Ok(map[]);
    }
    TrimTidies(prefix);
    var ok := ValidateIdent(p);
    if !ok || |p| > MAX_PREFIX {
      return Err(InvalidArgument);
    }
    var m: map<string, string> := map[];
    for i := 0 to |BASE_IDENTS|
      invariant m == map ident | ident in BASE_IDENTS[..i] :: Prefixed(p, ident)
    {
      assert BASE_IDENTS[..i + 1] == BASE_IDENTS[..i] + [BASE_IDENTS[i]];
      m := m[BASE_IDENTS[i] := p + "_" + BASE_IDENTS[i]];
    }
    assert BASE_IDENTS[..|BASE_IDENTS|] == BASE_IDENTS;
    r := Ok(m);
  }

  /** Identifiers that leave room for the longest prefix and a bar. */
  predicate Fits(ident: string) {
    IsIdent(ident) && |ident| <= MAX_IDENT - MAX_PREFIX - 1
  }

  lemma PaymentTablesSpelled()
    ensures IsIdent("merchants") && |"merchants"| == 9
    ensures IsIdent("merchant_wallets") && |"merchant_wallets"| == 16
    ensures IsIdent("api_keys") && |"api_keys"| == 8
    ensures IsIdent("invoices") && |"invoices"| == 8
  {
  }

  lemma MoreTablesSpelled()
    ensures IsIdent("invoice_tokens") && |"invoice_tokens"| == 14
    ensures IsIdent("scan_cursors") && |"scan_cursors"| == 12
    ensures IsIdent("deposits") && |"deposits"| == 8
  {
  }

  lemma EventTablesSpelled()
    ensures IsIdent("refunds") && |"refunds"| == 7
    ensures IsIdent("review_cases") && |"review_cases"| == 12
    ensures IsIdent("invoice_events") && |"invoice_events"| == 14
  {
  }

  lemma OutboxTablesSpelled()
    ensures IsIdent("event_sinks") && |"event_sinks"| == 11
    ensures IsIdent("outbox_events") && |"outbox_events"| == 13
    ensures IsIdent("event_deliveries") && |"event_deliveries"| == 16
  {
  }

  lemma DepositColumnsSpelled()
    ensures IsIdent("deposit_unique") && |"deposit_unique"| == 14
    ensures IsIdent("invoice_id") && |"invoice_id"| == 10
    ensures IsIdent("invoice_status") && |"invoice_status"| == 14
  {
  }

  lemma MerchantColumnsSpelled()
    ensures IsIdent("invoice_unique") && |"invoice_unique"| == 14
    ensures IsIdent("merchant_id") && |"merchant_id"| == 11
    ensures IsIdent("merchant_seq") && |"merchant_seq"| == 12
  {
  }

  lemma StatusColumnsSpelled()
    ensures IsIdent("merchant_status") && |"merchant_status"| == 15
    ensures IsIdent("merchant_status_retry") && |"merchant_status_retry"| == 21
    ensures IsIdent("merchant_status_seq") && |"merchant_status_seq"| == 19
  {
  }

  lemma SinkColumnsSpelled()
    ensures IsIdent("refund_unique") && |"refund_unique"| == 13
    ensures IsIdent("sink_id") && |"sink_id"| == 7
    ensures IsIdent("token_hash") && |"token_hash"| == 10
  {
  }

  lemma WalletColumnsSpelled()
    ensures IsIdent("wallet_recipient_hash") && |"wallet_recipient_hash"| == 21
  {
  }

  lemma IndexFits(table: string, columns: string)
    requires IsIdent(table) && IsIdent(columns) && |table| + |columns| <= MAX_IDENT - MAX_PREFIX - 6
    ensures Fits(Index(table, columns))
  {
    assert IsIdent("idx_");
    JoinedIsIdent("idx_", table);
    JoinedIsIdent("idx_" + table, "_");
    JoinedIsIdent("idx_" + table + "_", columns);
  }

  lemma JoinedIsIdent(a: string, b: string)
    requires IsIdent(a) && IsIdent(b)
    ensures IsIdent(a + b)
  {
  }

  lemma PaymentTablesFit()
    ensures forall i :: 0 <= i < |PAYMENT_TABLES| ==> Fits(PAYMENT_TABLES[i])
  {
    hide IsIdent;
    PaymentTablesSpelled();
    MoreTablesSpelled();
  }

  lemma EventTablesFit()
    ensures forall i :: 0 <= i < |EVENT_TABLES| ==> Fits(EVENT_TABLES[i])
  {
    hide IsIdent;
    EventTablesSpelled();
    OutboxTablesSpelled();
  }

  lemma DepositIndexesFit()
    ensures forall i :: 0 <= i < |DEPOSIT_INDEXES| ==> Fits(DEPOSIT_INDEXES[i])
  {
    hide IsIdent, Fits, Index;
    PaymentTablesSpelled();
    SinkColumnsSpelled();
    MoreTablesSpelled();
    DepositColumnsSpelled();
    WalletColumnsSpelled();
    IndexFits("api_keys", "token_hash");
    IndexFits("deposits", "invoice_status");
    IndexFits("deposits", "wallet_recipient_hash");
  }

  lemma InvoiceIndexesFit()
    ensures forall i :: 0 <= i < |INVOICE_INDEXES| ==> Fits(INVOICE_INDEXES[i])
  {
    hide IsIdent, Fits, Index;
    PaymentTablesSpelled();
    MerchantColumnsSpelled();
    StatusColumnsSpelled();
    EventTablesSpelled();
    DepositColumnsSpelled();
    IndexFits("invoices", "merchant_seq");
    IndexFits("invoices", "merchant_status_seq");
    IndexFits("refunds", "merchant_id");
    IndexFits("refunds", "invoice_id");
  }

  lemma ReviewIndexesFit()
    ensures forall i :: 0 <= i < |REVIEW_INDEXES| ==> Fits(REVIEW_INDEXES[i])
  {
    hide IsIdent, Fits, Index;
    EventTablesSpelled();
    StatusColumnsSpelled();
    MerchantColumnsSpelled();
    DepositColumnsSpelled();
    IndexFits("review_cases", "merchant_status");
    IndexFits("review_cases", "invoice_unique");
    IndexFits("review_cases", "deposit_unique");
  }

  lemma LogIndexesFit()
    ensures forall i :: 0 <= i < |LOG_INDEXES| ==> Fits(LOG_INDEXES[i])
  {
    hide IsIdent, Fits, Index;
    EventTablesSpelled();
    DepositColumnsSpelled();
    SinkColumnsSpelled();
    IndexFits("invoice_events", "invoice_id");
    IndexFits("invoice_events", "deposit_unique");
    IndexFits("invoice_events", "refund_unique");
  }

  lemma OutboxIndexesFit()
    ensures forall i :: 0 <= i < |OUTBOX_INDEXES| ==> Fits(OUTBOX_INDEXES[i])
  {
    hide IsIdent, Fits, Index;
    OutboxTablesSpelled();
    MerchantColumnsSpelled();
    IndexFits("event_sinks", "merchant_id");
    IndexFits("outbox_events", "merchant_id");
  }

  lemma DeliveryIndexesFit()
    ensures forall i :: 0 <= i < |DELIVERY_INDEXES| ==> Fits(DELIVERY_INDEXES[i])
  {
    hide IsIdent, Fits, Index;
    OutboxTablesSpelled();
    StatusColumnsSpelled();
    SinkColumnsSpelled();
    IndexFits("event_deliveries", "merchant_status_retry");
    IndexFits("event_deliveries", "sink_id");
  }

  const LONGEST := Index("event_deliveries", "merchant_status_retry")

  /** All names fit, the longest with nothing to spare. */
  lemma BaseIdentsFit()
    ensures forall w :: w in BASE_IDENTS ==> Fits(w)
    ensures LONGEST in BASE_IDENTS && |LONGEST| == MAX_IDENT - MAX_PREFIX - 1
  {
    hide Fits;
    PaymentTablesFit();
    EventTablesFit();
    DepositIndexesFit();
    InvoiceIndexesFit();
    ReviewIndexesFit();
    LogIndexesFit();
    OutboxIndexesFit();
    DeliveryIndexesFit();
    assert DELIVERY_INDEXES[0] == LONGEST;
    assert LONGEST in DELIVERY_INDEXES;
  }

  lemma PrefixedIsIdent(prefix: string, ident: string)
    requires IsIdent(prefix) && IsIdent(ident)
    ensures IsIdent(Prefixed(prefix, ident))
  {
  }

  /**
   Twenty characters is exactly the longest prefix under which every renamed identifier
   stays within the database's limit.
  */
  lemma PrefixLimitIsExact(prefix: string)
    requires IsIdent(prefix)
    ensures Replaces(PrefixMap(prefix))
    ensures |prefix| <= MAX_PREFIX <==> forall w :: w in PrefixMap(prefix) ==> |PrefixMap(prefix)[w]| <= MAX_IDENT
  {
    hide BASE_IDENTS;
    BaseIdentsFit();
    forall w | w in BASE_IDENTS ensures IsIdent(Prefixed(prefix, w))
        && |Prefixed(prefix, w)| <= |prefix| + 1 + MAX_IDENT - MAX_PREFIX - 1 {
      assert Fits(w);
      PrefixedIsIdent(prefix, w);
    }
    assert LONGEST in PrefixMap(prefix) && |PrefixMap(prefix)[LONGEST]| == |prefix| + 1 + |LONGEST|;
  }

  /** The text a query is sent as, with an accepted prefix and numbered placeholders. */
  function Sent(prefix: string, q: string): (r: string) {
    SqlRebind.Rebound(Rewritten(q, PrefixMap(prefix)))
  }

  /**
   An accepted prefix changes the names and nothing else: prefixing before or after
   numbering gives the same query.
  */
  lemma PrefixOnlyRenames(prefix: string, q: string)
    requires IsIdent(prefix)
    ensures Sent(prefix, q) == Rewritten(SqlRebind.Rebound(q), PrefixMap(prefix))
    ensures Lex(Sent(prefix, q), Plain) == RenameAll(Lex(SqlRebind.Rebound(q), Plain), PrefixMap(prefix))
  {
    hide PrefixMap, Replaces;
    PrefixLimitIsExact(prefix);
    SqlRebind.RenamingCommutesWithRebinding(q, PrefixMap(prefix));
    RewriterIsHomomorphism(SqlRebind.Rebound(q), PrefixMap(prefix));
  }
}
