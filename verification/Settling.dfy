/** Batched settlement: an exact fold of withdrawals, with partial success and exact money flow. */
module Settling {
  import opened Base
  import opened Ledger
  import opened Settlement

  /** The state after the first `k` withdrawals, each on its own. */
  function StateAfter(s: State, inputs: seq<SettleInput>, k: nat): State
    requires k <= |inputs|
  {
    if k == 0 then s
    else
      var before := StateAfter(s, inputs, k - 1);
      WithdrawInput(before, inputs[k - 1]).StateOr(before)
  }

  /** Withdrawal `k`, tried in the state its predecessors left. */
  function Verdict(s: State, inputs: seq<SettleInput>, k: nat): Outcome
    requires k < |inputs|
  {
    WithdrawInput(StateAfter(s, inputs, k), inputs[k])
  }

  lemma {:induction false} StateAfterShift(s: State, inputs: seq<SettleInput>, k: nat)
    requires 0 < k <= |inputs|
    ensures StateAfter(s, inputs, k) == StateAfter(WithdrawInput(s, inputs[0]).StateOr(s), inputs[1..], k - 1)
  {
    if k > 1 { StateAfterShift(s, inputs, k - 1); }
  }

  /** The verdicts after the first entry are those of the rest, from the state the first entry left. */
  lemma VerdictShift(s: State, inputs: seq<SettleInput>)
    requires inputs != []
    ensures var s1 := WithdrawInput(s, inputs[0]).StateOr(s);
            && Verdict(s, inputs, 0) == WithdrawInput(s, inputs[0])
            && (forall k :: 0 < k < |inputs| ==> Verdict(s, inputs, k) == Verdict(s1, inputs[1..], k - 1))
            && StateAfter(s, inputs, |inputs|) == StateAfter(s1, inputs[1..], |inputs| - 1)
  {
    forall k | 0 < k <= |inputs|
      ensures StateAfter(s, inputs, k) == StateAfter(WithdrawInput(s, inputs[0]).StateOr(s), inputs[1..], k - 1)
    {
      StateAfterShift(s, inputs, k);
    }
  }

  ghost predicate SomePanic(s: State, inputs: seq<SettleInput>) {
    exists k :: 0 <= k < |inputs| && Verdict(s, inputs, k).Panic?
  }

  lemma {:induction false} PanicExact(s: State, inputs: seq<SettleInput>)
    ensures SettleEach(s, inputs).SettlePanic? <==> SomePanic(s, inputs)
    decreases |inputs|
  {
    if inputs != [] {
      VerdictShift(s, inputs);
      var s1 := WithdrawInput(s, inputs[0]).StateOr(s);
      PanicExact(s1, inputs[1..]);
      if SomePanic(s1, inputs[1..]) {
        var k :| 0 <= k < |inputs| - 1 && Verdict(s1, inputs[1..], k).Panic?;
        assert Verdict(s, inputs, k + 1).Panic?;
      }
    }
  }

  lemma {:induction false} FoldExact(s: State, inputs: seq<SettleInput>)
    requires SettleEach(s, inputs).Settled?
    ensures var r := SettleEach(s, inputs);
            && |r.outcomes| == |inputs| && r.st == StateAfter(s, inputs, |inputs|)
            && forall k :: 0 <= k < |inputs| ==> !Verdict(s, inputs, k).Panic? && r.outcomes[k] == OutcomeOf(Verdict(s, inputs, k))
    decreases |inputs|
  {
    if inputs != [] {
      VerdictShift(s, inputs);
      var s1 := WithdrawInput(s, inputs[0]).StateOr(s);
      FoldExact(s1, inputs[1..]);
      var whole, rest := SettleEach(s, inputs), SettleEach(s1, inputs[1..]);
      assert whole == Prepend([OutcomeOf(Verdict(s, inputs, 0))], rest);
      forall k | 0 < k < |inputs| ensures whole.outcomes[k] == OutcomeOf(Verdict(s1, inputs[1..], k - 1)) {
        assert whole.outcomes[k] == rest.outcomes[k - 1];
      }
    }
  }

  /** A withdrawal that is not a success leaves the state as it was. */
  lemma NoTrace(s: State, inputs: seq<SettleInput>, k: nat)
    requires k < |inputs| && !Verdict(s, inputs, k).Panic? && OutcomeOf(Verdict(s, inputs, k)) != Success
    ensures StateAfter(s, inputs, k + 1) == StateAfter(s, inputs, k)
  {
    assert Verdict(s, inputs, k).Err?;
  }

  /** A batch of at most 64: it panics exactly when some withdrawal in the fold panics; otherwise there is one
      outcome per input, in order, the state is that of the fold, and an unsuccessful entry left no trace. */
  lemma SettleIsFold(s: State, inputs: seq<SettleInput>)
    requires |inputs| <= 64
    ensures var r := BatchSettle(s, inputs);
            && (r.SettlePanic? <==> SomePanic(s, inputs))
            && (r.Settled? ==>
                 && |r.outcomes| == |inputs| && r.st == StateAfter(s, inputs, |inputs|)
                 && (forall k :: 0 <= k < |inputs| ==>
                       !Verdict(s, inputs, k).Panic? && r.outcomes[k] == OutcomeOf(Verdict(s, inputs, k)))
                 && (forall k :: 0 <= k < |inputs| && r.outcomes[k] != Success ==>
                       StateAfter(s, inputs, k + 1) == StateAfter(s, inputs, k)))
  {
    PanicExact(s, inputs);
    if SettleEach(s, inputs).Settled? {
      FoldExact(s, inputs);
      forall k | 0 <= k < |inputs| && OutcomeOf(Verdict(s, inputs, k)) != Success
        ensures StateAfter(s, inputs, k + 1) == StateAfter(s, inputs, k)
      {
        NoTrace(s, inputs, k);
      }
    }
  }

  lemma OversizedBatch(s: State, inputs: seq<SettleInput>)
    requires |inputs| > 64
    ensures var r := BatchSettle(s, inputs);
            r.Settled? && r.st == s && |r.outcomes| == |inputs| && forall o :: o in r.outcomes ==> o == OtherError
  {
  }

  /** One withdrawal pays the recipient from the contract's holding and shrinks the developer's claim by as much. */
  lemma WithdrawFlow(s: State, dev: Address, amount: i128, to: Option<Address>)
    requires Withdraw(s, dev, amount, to).Done?
    ensures var t, u := Withdraw(s, dev, amount, to).st, s.usdc.value;
            && t.usdc == s.usdc && t.self == s.self
            && t.OnLedger(u) == s.OnLedger(u) - amount
            && TokenSum(t.balances, u) == TokenSum(s.balances, u) - amount
            && Held(t.tokens[u], to.GetOr(dev)) == Held(Read(s.tokens, u, map[]), to.GetOr(dev)) + amount
            && Sum(t.tokens[u]) == Sum(Read(s.tokens, u, map[]))
            && t.Balance(dev, u) == s.Balance(dev, u) - amount >= 0
  {
    var u := s.usdc.value;
    TransferFacts(Read(s.tokens, u, map[]), s.self, to.GetOr(dev), amount);
    TokenSumUpdate(s.balances, (dev, u), s.Balance(dev, u) - amount, u);
  }

  /** The sum of the amounts of the successful entries. */
  ghost function Paid(inputs: seq<SettleInput>, outcomes: seq<SettleOutcome>): int
    requires |inputs| == |outcomes|
  {
    if inputs == [] then 0
    else (if outcomes[0] == Success then inputs[0].amount else 0) + Paid(inputs[1..], outcomes[1..])
  }

  lemma {:induction false} FoldFlow(s: State, inputs: seq<SettleInput>)
    requires SettleEach(s, inputs).Settled? && s.usdc.Some?
    ensures var r, u := SettleEach(s, inputs), s.usdc.value;
            && |r.outcomes| == |inputs| && r.st.usdc == s.usdc
            && r.st.OnLedger(u) == s.OnLedger(u) - Paid(inputs, r.outcomes)
            && TokenSum(r.st.balances, u) == TokenSum(s.balances, u) - Paid(inputs, r.outcomes)
    decreases |inputs|
  {
    if inputs != [] {
      var i, r := inputs[0], WithdrawInput(s, inputs[0]);
      EntryFlow(s, i);
      FoldFlow(r.StateOr(s), inputs[1..]);
      var rest := SettleEach(r.StateOr(s), inputs[1..]);
      assert ([OutcomeOf(r)] + rest.outcomes)[1..] == rest.outcomes;
    }
  }

  lemma EntryFlow(s: State, i: SettleInput)
    requires s.usdc.Some? && !WithdrawInput(s, i).Panic?
    ensures var r, u := WithdrawInput(s, i), s.usdc.value;
            var t, paid := r.StateOr(s), if OutcomeOf(r) == Success then i.amount else 0;
            && t.usdc == s.usdc && t.OnLedger(u) == s.OnLedger(u) - paid
            && TokenSum(t.balances, u) == TokenSum(s.balances, u) - paid
  {
    if WithdrawInput(s, i).Done? { WithdrawFlow(s, i.developer, i.amount, i.to); }
  }

  /** The contract's USDC falls by exactly the successful amounts, and so does what it owes developers:
      the difference between the two is untouched. */
  lemma SettleFlow(s: State, inputs: seq<SettleInput>)
    requires BatchSettle(s, inputs).Settled? && s.usdc.Some?
    ensures var r, u := BatchSettle(s, inputs), s.usdc.value;
            && |r.outcomes| == |inputs|
            && r.st.OnLedger(u) == s.OnLedger(u) - Paid(inputs, r.outcomes)
            && r.st.OnLedger(u) - TokenSum(r.st.balances, u) == s.OnLedger(u) - TokenSum(s.balances, u)
  {
    if |inputs| > 64 { NothingPaid(inputs, BatchSettle(s, inputs).outcomes); } else { FoldFlow(s, inputs); }
  }

  lemma {:induction false} NothingPaid(inputs: seq<SettleInput>, outcomes: seq<SettleOutcome>)
    requires |inputs| == |outcomes| && forall k :: 0 <= k < |outcomes| ==> outcomes[k] != Success
    ensures Paid(inputs, outcomes) == 0
  {
    if inputs != [] { NothingPaid(inputs[1..], outcomes[1..]); }
  }
}
