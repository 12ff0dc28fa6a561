/** Wallet ids are trimmed before they are stored. */
module Wallets {
  import opened Domain
  import opened Text
  import opened Ledger
  import Frames

  /** Wallets as the store keeps them. */
  predicate TidyWallet(w: Wallet) {
    w.walletId != "" && TrimSpace(w.walletId) == w.walletId
  }

  predicate WalletsTidy(s: State) {
    forall m :: m in s.wallets ==> TidyWallet(s.wallets[m])
  }

  /** The wallets of every reachable store are tidy, so a pass never fails on a wallet id. */
  lemma {:induction false} WalletsAlwaysTidy(acts: seq<Action>)
    ensures WalletsTidy(Run(acts))
  {
    if acts != [] {
      var rest, a := acts[..|acts| - 1], acts[|acts| - 1];
      WalletsAlwaysTidy(rest);
      StepKeepsTidy(Run(rest), a);
    }
  }

  lemma StepKeepsTidy(s: State, a: Action)
    requires WalletsTidy(s)
    ensures WalletsTidy(Step(s, a))
  {
    if a.DoSetWallet? {
      hide TrimSpace;
      TrimTidies(a.w.walletId);
    } else {
      hide Step;
      Frames.StepUntouched(s, a);
    }
  }
}
