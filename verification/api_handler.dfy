/** The handler that creates invoices, on the in-memory store. */
module ApiHandler {
  import opened Domain
  import opened Text
  import opened Ledger
  import opened InvoiceApi
  import opened MemStore

  method HandleCreateInvoice(st: Store, m: MerchantId, order: string, amount: int, out: Outside, now: Time)
      returns (r: Response)
    requires st.Valid()
    modifies st
    ensures st.Valid() && (st.Abs(), r) == HandleCreate(old(st.Abs()), m, order, amount, out, now)
  {
    hide ByKey, Distinct, Ledger.CreateInvoice, Ledger.NextAddressIndex, Ledger.PutInvoiceToken, TrimSpace, Tokened,
      Ttl, Settings.Validate;
    var orderId := TrimSpace(order);
    if orderId == "" || amount <= 0 {
      return Refused(BadRequest);
    }
    if m !in st.merchants {
      return Refused(Unauthorized);
    }
    var settings := st.merchants[m].settings;
    if !settings.Validate() {
      return Refused(InternalFailure);
    }
    if m !in st.merchantWallet {
      return Refused(WalletNotSet);
    }
    var wallet := st.merchantWallet[m];
    var index := st.NextAddressIndex(m);
    if index.Err? {
      return Refused(if index.error == NotFound then WalletNotSet else InternalFailure);
    }
    var address := out.derive(wallet.ufvk, wallet.uaHrp, index.value);
    if address.None? {
      return Refused(InternalFailure);
    }
    if out.tip.None? {
      return Refused(InternalFailure);
    }
    var expiresAt: Option<Time> := None;
    if Ttl(settings) > 0 {
      expiresAt := Some(out.clock + Ttl(settings));
    }
    var req := InvoiceCreate(m, orderId, wallet.walletId, index.value, address.value, out.tip.value.0,
        out.tip.value.1, amount,
                             settings.requiredConfirmations, settings.policies, expiresAt);
    r := CreateWithToken(st, req, out, now);
  }

  method CreateWithToken(st: Store, req: InvoiceCreate, out: Outside, now: Time) returns (r: Response)
    requires st.Valid()
    modifies st
    ensures st.Valid()
    ensures var created := Ledger.CreateInvoice(old(st.Abs()), req, now);
            (st.Abs(), r) == Tokened(created.0, created.1, out)
  {
    hide ByKey, Distinct, Ledger.CreateInvoice, Ledger.PutInvoiceToken;
    var created := st.CreateInvoice(req, now);
    if created.Err? {
      return Refused(FailureOf(created.error));
    }
    var c := created.value;
    if c.isNew {
      if out.token.None? {
        return Refused(InternalFailure);
      }
      var put := st.PutInvoiceToken(c.id, out.token.value);
      if put.Err? {
        return Refused(InternalFailure);
      }
      return Answer(c.id, c.invoice, out.token.value, true);
    }
    if c.id !in st.invoiceToken {
      return Refused(InternalFailure);
    }
    r := Answer(c.id, c.invoice, st.invoiceToken[c.id], false);
  }
}
