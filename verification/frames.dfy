/** Which calls touch which tables. */
module Frames {
  import opened Ledger
  import Confirmation

  /** Tables that have a call of their own. */
  ghost predicate Untouched(s: State, s': State, a: Action) {
    && (!a.DoScan? ==> s'.cursors == s.cursors)
    && (!a.DoCreateMerchant? && !a.DoUpdateSettings? ==> s'.merchants == s.merchants)
    && (!a.DoSetWallet? ==> s'.wallets == s.wallets)
    && (!a.DoSetWallet? && !a.DoNextIndex? ==> s'.nextIndex == s.nextIndex)
    && (!a.DoPutToken? ==> s'.tokens == s.tokens)
    && (!a.DoCreateSink? ==> s'.sinks == s.sinks && s'.sinkSeq == s.sinkSeq)
  }

  lemma MajorUntouched(s: State, a: Action)
    requires !Minor(a)
    ensures Untouched(s, Step(s, a), a)
  {
    if a.DoConfirm? {
      hide ConfirmAll, RecomputeAll;
      Confirmation.ConfirmAllFrame(s, a.order, a.best, a.now);
      Confirmation.RecomputeAllFrame(ConfirmAll(s, a.order, a.best, a.now), a.invOrder, a.now);
    } else {
      hide ApplyScanEvent, CreateInvoice, ConfirmPass;
    }
  }

  lemma SetupUntouched(s: State, a: Action)
    requires a.DoCreateMerchant? || a.DoUpdateSettings? || a.DoSetWallet? || a.DoNextIndex?
    ensures Untouched(s, Step(s, a), a)
  {
    hide CreateMerchant, UpdateMerchantSettings, SetMerchantWallet, NextAddressIndex;
  }

  /** Every call leaves the tables of the other calls alone. */
  lemma StepUntouched(s: State, a: Action)
    ensures Untouched(s, Step(s, a), a)
  {
    if !Minor(a) {
      hide Step, Untouched;
      MajorUntouched(s, a);
    } else if a.DoCreateMerchant? || a.DoUpdateSettings? || a.DoSetWallet? || a.DoNextIndex? {
      hide Step, Untouched;
      SetupUntouched(s, a);
    } else {
      hide PutInvoiceToken, CreateRefund, CloseReview, CreateEventSink, UpdateDelivery;
    }
  }
}
