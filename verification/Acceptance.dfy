/** Exactly which payments and withdrawals the settlement contract accepts. */
module Acceptance {
  import opened Base
  import opened Ledger
  import opened Settlement

  lemma PoolPayment(s: State, p: Payment)
    requires p.toPool && p.amount > 0 && (p.caller == s.vault || p.caller == s.admin)
    ensures ReceivePayment(s, p).Done? <==>
            p.developer.None? && p.seqno > s.poolMark && s.pool.total + p.amount <= I128_MAX
  {
  }

  lemma DeveloperPayment(s: State, p: Payment)
    requires !p.toPool && p.amount > 0 && (p.caller == s.vault || p.caller == s.admin)
    ensures ReceivePayment(s, p).Done? <==>
            p.developer.Some? && p.seqno > s.Mark(p.developer.value)
            && s.Balance(p.developer.value, p.token) + p.amount <= I128_MAX
  {
  }

  /** A payment is accepted exactly for an authorized caller, a positive amount, a destination named as the flag
      demands, a sequence number above the destination's mark, and a sum that fits. */
  lemma PaymentAcceptance(s: State, p: Payment)
    ensures !ReceivePayment(s, p).Err?
    ensures ReceivePayment(s, p).Done? <==>
            && (p.caller == s.vault || p.caller == s.admin) && p.amount > 0
            && if p.toPool then p.developer.None? && p.seqno > s.poolMark && s.pool.total + p.amount <= I128_MAX
               else p.developer.Some? && p.seqno > s.Mark(p.developer.value)
                    && s.Balance(p.developer.value, p.token) + p.amount <= I128_MAX
  {
    if (p.caller == s.vault || p.caller == s.admin) && p.amount > 0 {
      if p.toPool { PoolPayment(s, p); } else { DeveloperPayment(s, p); }
    }
  }

  /** The recipient of a withdrawal can take the amount. */
  ghost predicate CanTake(s: State, who: Address, amount: i128)
    requires s.usdc.Some?
  {
    Held(Read(s.tokens, s.usdc.value, map[]), who) + amount <= I128_MAX
  }

  /** The ledger time lies within the developer's claim window, both ends included, if there is one. */
  ghost predicate InWindow(s: State, dev: Address) {
    dev in s.windows ==> s.windows[dev].startTs <= s.now <= s.windows[dev].endTs
  }

  /** What was counted for the developer on the current epoch day. */
  ghost function Counted(s: State, dev: Address): int {
    if dev in s.today && s.today[dev].day == s.now / 86400 then s.today[dev].amount else 0
  }

  /** A withdrawal is accepted exactly inside the claim window, within balance, minimum and cap, from a contract that
      holds enough, to another party that can take it. */
  lemma WithdrawAcceptance(s: State, dev: Address, amount: i128, to: Option<Address>)
    ensures Withdraw(s, dev, amount, to).Done? <==>
            && amount > 0 && to.GetOr(dev) != s.self && InWindow(s, dev) && s.usdc.Some?
            && var balance, minimum, cap := s.Balance(dev, s.usdc.value), Read(s.minimums, dev, 0), Read(s.caps, dev, 0);
               && amount <= balance
               && (minimum > 0 ==> minimum <= balance - amount)
               && (cap > 0 ==> Counted(s, dev) + amount <= cap)
               && amount <= s.OnLedger(s.usdc.value) && CanTake(s, to.GetOr(dev), amount)
  {
    if s.usdc.Some? && amount > 0 && amount <= s.Balance(dev, s.usdc.value) {
      assert FitsI128(s.Balance(dev, s.usdc.value) - amount);
    }
  }

  /** An overdraft is reported against the developer's minimum when there is one, and as an insufficient balance
      otherwise. */
  lemma OverdraftVerdict(s: State, dev: Address, amount: i128, to: Option<Address>)
    requires amount > 0 && to.GetOr(dev) != s.self && InWindow(s, dev) && s.usdc.Some?
    requires 0 <= s.Balance(dev, s.usdc.value) < amount
    ensures Withdraw(s, dev, amount, to)
            == if Read(s.minimums, dev, 0) > 0 then Err(MinBalanceViolation) else Err(InsufficientDeveloperBalance)
  {
  }

  /** A balance migration executes exactly when its proposal has matured and both balances can take the move. */
  lemma ExecutionAcceptance(s: State, caller: Address, from: Address)
    ensures ExecuteMigration(s, caller, from).Done? <==>
            && caller == s.admin && from in s.pending && s.usdc.Some?
            && var m := s.pending[from];
               && m.executeAfter <= s.now
               && 0 <= s.Balance(from, s.usdc.value) - m.amount <= I128_MAX
               && FitsI128(s.Balance(m.to, s.usdc.value) + m.amount)
  {
  }
}
