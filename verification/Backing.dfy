/** What the settlement contract holds of a token, against what it owes developers in it, over every run. */
module Backing {
  import opened Base
  import opened Ledger
  import opened Settlement
  import opened Conservation
  import opened Runs

  ghost function PaidOf(r: Record, token: Address): int {
    if r.Withdrawal? && r.token == token then r.amount else 0
  }

  ghost function CreditedOf(r: Record, token: Address): int {
    if r.Credit? && r.token == token then r.amount else 0
  }

  /** What withdrawals paid out in a token. */
  ghost function PaidOut(j: seq<Record>, token: Address): int {
    if j == [] then 0 else PaidOut(j[..|j| - 1], token) + PaidOf(j[|j| - 1], token)
  }

  /** What developers were credited in a token. */
  ghost function CreditedIn(j: seq<Record>, token: Address): int {
    if j == [] then 0 else CreditedIn(j[..|j| - 1], token) + CreditedOf(j[|j| - 1], token)
  }

  lemma LoggedFlows(s: State, r: Record, token: Address)
    ensures PaidOut(s.Log(r).journal, token) == PaidOut(s.journal, token) + PaidOf(r, token)
    ensures CreditedIn(s.Log(r).journal, token) == CreditedIn(s.journal, token) + CreditedOf(r, token)
  {
    assert s.Log(r).journal[..|s.journal|] == s.journal;
  }

  // ---------------------------------------------------------------- holding

  /** The part of the holding that the journal does not explain. */
  ghost function Unpaid(s: State, token: Address): int {
    s.OnLedger(token) + PaidOut(s.journal, token)
  }

  /** What a call transfers to the contract from outside. */
  ghost function Inflow(s: State, c: Call, token: Address): int {
    if c.Single? && c.e.ETransfer? && c.e.token == token && c.e.target == s.self && Enter(s, c.e).Done? then c.e.amount
    else 0
  }

  ghost function InflowSum(s: State, calls: seq<Call>, token: Address): int
    decreases |calls|
  {
    if calls == [] then 0 else Inflow(s, calls[0], token) + InflowSum(Step(s, calls[0]), calls[1..], token)
  }

  ghost predicate SameUnpaid(s: State, t: State, token: Address) {
    t.self == s.self && Unpaid(t, token) == Unpaid(s, token)
  }

  /** A transfer from the contract to someone else, logged as a withdrawal. */
  lemma PaidUnpaid(s: State, t: State, u: Address, to: Address, amount: i128, r: Record, token: Address)
    requires r.Withdrawal? && r.token == u && r.amount == amount && t.journal == s.journal + [r]
    requires Transfer(Read(s.tokens, u, map[]), s.self, to, amount).Some? && t.self == s.self != to
    requires t.tokens == s.tokens[u := Transfer(Read(s.tokens, u, map[]), s.self, to, amount).value]
    ensures SameUnpaid(s, t, token)
  {
    TransferFacts(Read(s.tokens, u, map[]), s.self, to, amount);
    LoggedFlows(s, r, token);
    assert t.journal == s.Log(r).journal;
  }

  lemma WithdrawUnpaid(s: State, dev: Address, amount: i128, to: Option<Address>, token: Address)
    requires Withdraw(s, dev, amount, to).Done?
    ensures SameUnpaid(s, Withdraw(s, dev, amount, to).st, token)
  {
    var t, u := Withdraw(s, dev, amount, to).st, s.usdc.value;
    var r := Withdrawal(dev, u, amount, s.now / SECONDS_PER_DAY, Read(s.caps, dev, 0));
    assert t.tokens == s.tokens[u := Transfer(Read(s.tokens, u, map[]), s.self, to.GetOr(dev), amount).value];
    assert t.self == s.self != to.GetOr(dev) && t.journal == s.journal + [r];
    PaidUnpaid(s, t, u, to.GetOr(dev), amount, r, token);
  }

  /** Logging anything but a withdrawal, with all tokens left alone. */
  lemma BookUnpaid(s: State, t: State, r: Record, token: Address)
    requires !r.Withdrawal? && t.tokens == s.tokens && t.self == s.self && t.journal == s.journal + [r]
    ensures SameUnpaid(s, t, token)
  {
    LoggedFlows(s, r, token);
    assert t.journal == s.Log(r).journal;
  }

  lemma ReceiveUnpaid(s: State, p: Payment, token: Address)
    requires ReceivePayment(s, p).Done?
    ensures SameUnpaid(s, ReceivePayment(s, p).st, token)
  {
    var t := ReceivePayment(s, p).st;
    BookUnpaid(s, t, t.journal[|s.journal|], token);
  }

  lemma OtherUnpaid(s: State, e: Entry, token: Address)
    requires Enter(s, e).Done? && (e.EForce? || e.EPropose? || e.EExecute?)
    ensures SameUnpaid(s, Enter(s, e).st, token)
  {
    var t := Enter(s, e).st;
    BookUnpaid(s, t, t.journal[|s.journal|], token);
  }

  lemma SetterUnpaid(s: State, e: Entry, token: Address)
    requires IsSetter(e) && !e.ETransfer? && Enter(s, e).Done?
    ensures SameUnpaid(s, Enter(s, e).st, token)
  {
    SetterKeepsBooks(s, e);
    assert Enter(s, e).st.tokens == s.tokens;
  }

  lemma AtomUnpaid(s: State, a: Atom, token: Address)
    requires !(a.Entered? && a.e.ETransfer?)
    ensures SameUnpaid(s, AtomStep(s, a), token)
  {
    if !a.Entered? {
      MergeKeepsRest(s, a);
    } else if Enter(s, a.e).Done? {
      if IsSetter(a.e) {
        SetterUnpaid(s, a.e, token);
      } else if a.e.EReceive? {
        ReceiveUnpaid(s, a.e.p, token);
      } else if a.e.EWithdraw? {
        WithdrawUnpaid(s, a.e.dev, a.e.amount, a.e.to, token);
      } else {
        OtherUnpaid(s, a.e, token);
      }
    }
  }

  lemma CallUnpaid(s: State, c: Call, token: Address)
    ensures var t := Step(s, c); t.self == s.self && Unpaid(t, token) == Unpaid(s, token) + Inflow(s, c, token)
  {
    if c.Single? && c.e.ETransfer? {
      if Enter(s, c.e).Done? {
        SetterKeepsBooks(s, c.e);
        TransferFacts(Read(s.tokens, c.e.token, map[]), c.e.from, c.e.target, c.e.amount);
      }
    } else {
      var atoms := CallAtoms(s, c);
      var P := (t: State) => SameUnpaid(s, t, token);
      var allowed := (a: Atom) => !(a.Entered? && a.e.ETransfer?);
      forall t: State, a: Atom | P(t) && allowed(a) ensures P(AtomStep(t, a)) { AtomUnpaid(t, a, token); }
      KeptByAtoms(P, allowed, s, atoms);
    }
  }

  /** In every run, the contract's holding of a token falls only by its journalled withdrawals in that token, and rises
      only by the transfers made to it. */
  lemma {:induction false} HoldingOverRuns(s: State, calls: seq<Call>, token: Address)
    ensures var t := Run(s, calls);
            && t.self == s.self
            && t.OnLedger(token) == s.OnLedger(token) + InflowSum(s, calls, token)
                                    - (PaidOut(t.journal, token) - PaidOut(s.journal, token))
    decreases |calls|
  {
    if calls != [] {
      CallUnpaid(s, calls[0], token);
      HoldingOverRuns(Step(s, calls[0]), calls[1..], token);
    }
  }

  // ------------------------------------------------------------------ owing

  /** What developers are owed in a token, V1 slots included when they are to be merged into it. */
  ghost function Owed(s: State, token: Address): int {
    TokenSum(s.balances, token) + if s.usdc == Some(token) then Sum(s.legacy) else 0
  }

  ghost predicate SameOwed(s: State, t: State, token: Address) {
    && PendingShape(t) && t.usdc == s.usdc
    && Owed(t, token) - CreditedIn(t.journal, token) + PaidOut(t.journal, token)
       == Owed(s, token) - CreditedIn(s.journal, token) + PaidOut(s.journal, token)
  }

  /** A step that logs `r` and moves what is owed by as much. */
  lemma LoggedOwed(s: State, t: State, r: Record, token: Address)
    requires PendingShape(t) && t.usdc == s.usdc && t.legacy == s.legacy && t.journal == s.journal + [r]
    requires TokenSum(t.balances, token) == TokenSum(s.balances, token) + CreditedOf(r, token) - PaidOf(r, token)
    ensures SameOwed(s, t, token)
  {
    LoggedFlows(s, r, token);
    assert t.journal == s.Log(r).journal;
  }

  lemma CreditOwed(s: State, dev: Address, u: Address, amount: i128, seqno: Option<u32>, token: Address)
    requires PendingShape(s) && AddCredit(s, dev, u, amount, seqno).Done?
    ensures SameOwed(s, AddCredit(s, dev, u, amount, seqno).st, token)
  {
    TokenSumUpdate(s.balances, (dev, u), s.Balance(dev, u) + amount, token);
    LoggedOwed(s, AddCredit(s, dev, u, amount, seqno).st, Credit(dev, u, amount, seqno), token);
  }

  lemma ReceiveOwed(s: State, p: Payment, token: Address)
    requires PendingShape(s) && ReceivePayment(s, p).Done?
    ensures SameOwed(s, ReceivePayment(s, p).st, token)
  {
    if p.toPool {
      LoggedOwed(s, ReceivePayment(s, p).st, PoolCredit(p.amount, p.seqno), token);
    } else {
      var s1 := CheckDeveloper(s, p.developer.value, p.seqno).st;
      CreditOwed(s1, p.developer.value, p.token, p.amount, Some(p.seqno), token);
    }
  }

  lemma WithdrawOwed(s: State, dev: Address, amount: i128, to: Option<Address>, token: Address)
    requires PendingShape(s) && Withdraw(s, dev, amount, to).Done?
    ensures SameOwed(s, Withdraw(s, dev, amount, to).st, token)
  {
    var t, u := Withdraw(s, dev, amount, to).st, s.usdc.value;
    assert t.balances == s.balances[(dev, u) := s.Balance(dev, u) - amount];
    TokenSumUpdate(s.balances, (dev, u), s.Balance(dev, u) - amount, token);
    LoggedOwed(s, t, Withdrawal(dev, u, amount, s.now / SECONDS_PER_DAY, Read(s.caps, dev, 0)), token);
  }

  lemma ExecuteOwed(s: State, caller: Address, from: Address, token: Address)
    requires PendingShape(s) && ExecuteMigration(s, caller, from).Done?
    ensures SameOwed(s, ExecuteMigration(s, caller, from).st, token)
  {
    var m := s.pending[from];
    ExecutionKeepsTotals(s, caller, from, token);
    LoggedOwed(s, ExecuteMigration(s, caller, from).st, Migration(from, m.to, s.usdc.value, m.amount, s.now), token);
  }

  lemma ProposeOwed(s: State, caller: Address, from: Address, to: Address, token: Address)
    requires PendingShape(s) && ProposeMigration(s, caller, from, to).Done?
    ensures SameOwed(s, ProposeMigration(s, caller, from, to).st, token)
  {
    var r := Proposal(from, to, s.Balance(from, s.usdc.value), s.now);
    LoggedOwed(s, ProposeMigration(s, caller, from, to).st, r, token);
  }

  lemma MergeOwed(s: State, dev: Address, token: Address)
    requires PendingShape(s) && s.usdc.Some? && MergeSlot(s, dev, s.usdc.value).Done?
    ensures SameOwed(s, MergeSlot(s, dev, s.usdc.value).st, token)
  {
    if dev in s.legacy {
      TokenSumUpdate(s.balances, (dev, s.usdc.value), s.legacy[dev] + s.Balance(dev, s.usdc.value), token);
      SumRemove(s.legacy, dev);
    }
  }

  lemma AtomOwed(s: State, a: Atom, token: Address)
    requires PendingShape(s) && FixedAtom(a)
    ensures SameOwed(s, AtomStep(s, a), token)
  {
    match a {
      case Merged(dev) =>
        if s.usdc.Some? && MergeSlot(s, dev, s.usdc.value).Done? { MergeOwed(s, dev, token); }
      case Completed =>
      case Entered(e) =>
        if Enter(s, e).Done? {
          if IsSetter(e) {
            SetterKeepsBooks(s, e);
          } else {
            match e {
              case EReceive(p) => ReceiveOwed(s, p, token);
              case EForce(_, dev, amount, u) => CreditOwed(s, dev, u, amount, None, token);
              case EWithdraw(dev, amount, to) => WithdrawOwed(s, dev, amount, to, token);
              case EPropose(caller, from, to) => ProposeOwed(s, caller, from, to, token);
              case EExecute(caller, from) => ExecuteOwed(s, caller, from, token);
            }
          }
        }
    }
  }

  /** While the USDC token is fixed, what is held of a token less what is owed in it changes over every run by exactly
      the transfers made to the contract less the credits to developers: withdrawals, balance migrations and storage
      migrations never touch it. */
  lemma BackingOverRuns(s: State, calls: seq<Call>, token: Address)
    requires PendingShape(s) && FixedRun(calls)
    ensures var t := Run(s, calls);
            t.OnLedger(token) - Owed(t, token) ==
            s.OnLedger(token) - Owed(s, token) + InflowSum(s, calls, token)
            - (CreditedIn(t.journal, token) - CreditedIn(s.journal, token))
  {
    HoldingOverRuns(s, calls, token);
    var P := (t: State) => SameOwed(s, t, token);
    forall t: State, a: Atom | P(t) && FixedAtom(a) ensures P(AtomStep(t, a)) { AtomOwed(t, a, token); }
    KeptByRun(P, FixedAtom, s, calls);
  }
}
