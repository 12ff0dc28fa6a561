/** Runs that begin at a given store instead of a new one. */
module Runs {
  import opened Ledger

  /** State after a sequence of calls on a given store. */
  ghost function RunFrom(s: State, acts: seq<Action>): (r: State) {
    if acts == [] then s else Step(RunFrom(s, acts[..|acts| - 1]), acts[|acts| - 1])
  }

  lemma {:induction false} RunIsRunFrom(acts: seq<Action>)
    ensures Run(acts) == RunFrom(EMPTY, acts)
  {
    if acts != [] {
      RunIsRunFrom(acts[..|acts| - 1]);
    }
  }

  lemma RunFromOneMore(s: State, acts: seq<Action>, a: Action)
    ensures RunFrom(s, acts + [a]) == Step(RunFrom(s, acts), a)
  {
    hide Step;
    assert (acts + [a])[..|acts|] == acts;
  }

  lemma {:induction false} RunFromConcat(s: State, acts: seq<Action>, more: seq<Action>)
    ensures RunFrom(s, acts + more) == RunFrom(RunFrom(s, acts), more)
  {
    hide Step;
    if more == [] {
      assert acts + more == acts;
    } else {
      var rest := more[..|more| - 1];
      assert (acts + more)[..|acts + more| - 1] == acts + rest;
      RunFromConcat(s, acts, rest);
    }
  }

  /** The choices recorded in a run from a given store are ones the store could make. */
  ghost predicate LegalFrom(s: State, acts: seq<Action>) {
    forall n :: 0 <= n < |acts| ==> Enabled(RunFrom(s, acts[..n]), acts[n])
  }

  lemma LegalFromOneMore(s: State, acts: seq<Action>, a: Action)
    requires LegalFrom(s, acts) && Enabled(RunFrom(s, acts), a)
    ensures LegalFrom(s, acts + [a])
  {
    hide Enabled, RunFrom;
    var all := acts + [a];
    assert all[..|acts|] == acts;
    assert forall n :: 0 <= n < |acts| ==> all[n] == acts[n] && all[..n] == acts[..n];
  }

  lemma LegalFromConcat(s: State, acts: seq<Action>, more: seq<Action>)
    requires LegalFrom(s, acts) && LegalFrom(RunFrom(s, acts), more)
    ensures LegalFrom(s, acts + more)
  {
    hide Enabled, RunFrom;
    var all := acts + more;
    forall n | 0 <= n < |all| ensures Enabled(RunFrom(s, all[..n]), all[n]) {
      if n < |acts| {
        assert all[..n] == acts[..n] && all[n] == acts[n];
      } else {
        LaterCall(s, acts, more, n - |acts|);
      }
    }
  }

  lemma LaterCall(s: State, acts: seq<Action>, more: seq<Action>, n: nat)
    requires LegalFrom(RunFrom(s, acts), more) && n < |more|
    ensures Enabled(RunFrom(s, (acts + more)[..|acts| + n]), (acts + more)[|acts| + n])
  {
    hide Enabled, RunFrom;
    assert (acts + more)[..|acts| + n] == acts + more[..n];
    RunFromConcat(s, acts, more[..n]);
    assert Enabled(RunFrom(RunFrom(s, acts), more[..n]), more[n]);
  }

  lemma LegalUntil(acts: seq<Action>, n: nat)
    requires Legal(acts) && n <= |acts|
    ensures Legal(acts[..n])
  {
    hide Run, Enabled;
    assert forall k :: 0 <= k < n ==> acts[..n][..k] == acts[..k];
  }
}
