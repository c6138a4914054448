/** Conservation of value, the range of every balance and the shape of the index, over every run. */
module Conservation {
  import opened Base
  import opened SortedIndex
  import opened Ledger
  import opened Settlement
  import opened Runs

  /** Everything the contract owes: V2 balances, legacy V1 slots and the pool. */
  ghost function Holdings(s: State): int {
    Sum(s.balances) + Sum(s.legacy) + s.pool.total
  }

  ghost function CreditOf(r: Record): int {
    if r.Credit? || r.PoolCredit? then r.amount else 0
  }

  ghost function WithdrawalOf(r: Record): int {
    if r.Withdrawal? then r.amount else 0
  }

  /** The sum of all accepted credits: payments, batch items, pool payments and manual credits. */
  ghost function Credited(j: seq<Record>): int {
    if j == [] then 0 else Credited(j[..|j| - 1]) + CreditOf(j[|j| - 1])
  }

  ghost function Withdrawn(j: seq<Record>): int {
    if j == [] then 0 else Withdrawn(j[..|j| - 1]) + WithdrawalOf(j[|j| - 1])
  }

  /** What stays the same: holdings, less what came in, plus what went out. */
  ghost function Equity(s: State): int {
    Holdings(s) - Credited(s.journal) + Withdrawn(s.journal)
  }

  ghost predicate NonNegative(s: State) {
    && (forall k :: k in s.balances ==> 0 <= s.balances[k])
    && (forall k :: k in s.legacy ==> 0 <= s.legacy[k])
    && 0 <= s.pool.total
  }

  ghost predicate PendingShape(s: State) {
    forall f :: f in s.pending ==>
      var m := s.pending[f]; m.from == f && m.from != m.to && m.amount > 0
  }

  /** Whoever a record credits or migrates value to. */
  ghost predicate Names(r: Record, dev: Address) {
    (r.Credit? && r.dev == dev) || (r.Migration? && r.to == dev)
  }

  ghost predicate Covered(s: State) {
    forall k, dev :: 0 <= k < |s.journal| && Names(s.journal[k], dev) ==> dev in s.index
  }

  ghost predicate Sound(s: State) {
    NonNegative(s) && PendingShape(s) && Sorted(s.index) && Covered(s)
  }

  lemma LoggedTotals(s: State, r: Record)
    ensures Credited(s.Log(r).journal) == Credited(s.journal) + CreditOf(r)
    ensures Withdrawn(s.Log(r).journal) == Withdrawn(s.journal) + WithdrawalOf(r)
  {
    assert s.Log(r).journal[..|s.journal|] == s.journal;
  }

  lemma CreditSound(s: State, dev: Address, token: Address, amount: i128, seqno: Option<u32>)
    requires Sound(s) && amount > 0 && AddCredit(s, dev, token, amount, seqno).Done?
    ensures var t := AddCredit(s, dev, token, amount, seqno).st; Sound(t) && Equity(t) == Equity(s)
  {
    SumUpdate(s.balances, (dev, token), s.Balance(dev, token) + amount);
    LoggedTotals(s, Credit(dev, token, amount, seqno));
    InsertShifts(s.index, dev);
    InsertSorted(s.index, dev);
  }

  lemma WithdrawSound(s: State, dev: Address, amount: i128, to: Option<Address>)
    requires Sound(s) && Withdraw(s, dev, amount, to).Done?
    ensures var t := Withdraw(s, dev, amount, to).st; Sound(t) && Equity(t) == Equity(s)
  {
    var t, token := Withdraw(s, dev, amount, to).st, s.usdc.value;
    assert t.balances == s.balances[(dev, token) := s.Balance(dev, token) - amount];
    assert t.legacy == s.legacy && t.pool == s.pool && t.pending == s.pending && t.index == s.index;
    SumUpdate(s.balances, (dev, token), s.Balance(dev, token) - amount);
    LoggedTotals(s, t.journal[|s.journal|]);
  }

  /** A balance migration moves value between developers, never in or out of a token's total. */
  lemma ExecutionKeepsTotals(s: State, caller: Address, from: Address, token: Address)
    requires ExecuteMigration(s, caller, from).Done? && s.pending[from].to != from
    ensures TokenSum(ExecuteMigration(s, caller, from).st.balances, token) == TokenSum(s.balances, token)
  {
    var m, usdc := s.pending[from], s.usdc.value;
    var debited := s.balances[(from, usdc) := s.Balance(from, usdc) - m.amount];
    assert ExecuteMigration(s, caller, from).st.balances == debited[(m.to, usdc) := s.Balance(m.to, usdc) + m.amount];
    assert Read(debited, (m.to, usdc), 0) == s.Balance(m.to, usdc);
    TokenSumUpdate(s.balances, (from, usdc), s.Balance(from, usdc) - m.amount, token);
    TokenSumUpdate(debited, (m.to, usdc), s.Balance(m.to, usdc) + m.amount, token);
  }

  lemma ExecuteSound(s: State, caller: Address, from: Address)
    requires Sound(s) && ExecuteMigration(s, caller, from).Done?
    ensures var t := ExecuteMigration(s, caller, from).st; Sound(t) && Equity(t) == Equity(s)
  {
    var t, m, token := ExecuteMigration(s, caller, from).st, s.pending[from], s.usdc.value;
    var debited := s.balances[(from, token) := s.Balance(from, token) - m.amount];
    SumUpdate(s.balances, (from, token), s.Balance(from, token) - m.amount);
    SumUpdate(debited, (m.to, token), s.Balance(m.to, token) + m.amount);
    LoggedTotals(s, t.journal[|s.journal|]);
    InsertShifts(s.index, m.to);
    InsertSorted(s.index, m.to);
  }

  lemma MergeSound(s: State, dev: Address, token: Address)
    requires Sound(s) && MergeSlot(s, dev, token).Done?
    ensures var t := MergeSlot(s, dev, token).st; Sound(t) && Equity(t) == Equity(s)
  {
    if dev in s.legacy {
      SumUpdate(s.balances, (dev, token), s.legacy[dev] + s.Balance(dev, token));
      SumRemove(s.legacy, dev);
    }
  }

  lemma ReceiveSound(s: State, p: Payment)
    requires Sound(s) && ReceivePayment(s, p).Done?
    ensures var t := ReceivePayment(s, p).st; Sound(t) && Equity(t) == Equity(s)
  {
    if p.toPool {
      LoggedTotals(s, PoolCredit(p.amount, p.seqno));
    } else {
      CreditSound(CheckDeveloper(s, p.developer.value, p.seqno).st, p.developer.value, p.token, p.amount, Some(p.seqno));
    }
  }

  lemma ProposeSound(s: State, caller: Address, from: Address, to: Address)
    requires Sound(s) && ProposeMigration(s, caller, from, to).Done?
    ensures var t := ProposeMigration(s, caller, from, to).st; Sound(t) && Equity(t) == Equity(s)
  {
    var t := ProposeMigration(s, caller, from, to).st;
    LoggedTotals(s, t.journal[|s.journal|]);
  }

  lemma EntrySound(s: State, e: Entry)
    requires Sound(s) && Enter(s, e).Done?
    ensures Sound(Enter(s, e).st) && Equity(Enter(s, e).st) == Equity(s)
  {
    if IsSetter(e) {
      SetterKeepsBooks(s, e);
    } else {
      match e {
        case EReceive(p) => ReceiveSound(s, p);
        case EForce(_, dev, amount, token) => CreditSound(s, dev, token, amount, None);
        case EWithdraw(dev, amount, to) => WithdrawSound(s, dev, amount, to);
        case EPropose(caller, from, to) => ProposeSound(s, caller, from, to);
        case EExecute(caller, from) => ExecuteSound(s, caller, from);
      }
    }
  }

  lemma AtomSound(s: State, a: Atom)
    requires Sound(s)
    ensures Sound(AtomStep(s, a)) && Equity(AtomStep(s, a)) == Equity(s)
  {
    match a {
      case Merged(dev) =>
        if s.usdc.Some? && MergeSlot(s, dev, s.usdc.value).Done? { MergeSound(s, dev, s.usdc.value); }
      case Completed =>
      case Entered(e) => if Enter(s, e).Done? { EntrySound(s, e); }
    }
  }

  /** Over every run, holdings are the initial holdings plus all accepted credits minus all withdrawals;
      no balance is negative, and the index stays strictly sorted and names everyone credited or migrated to. */
  lemma ConservationOverRuns(s: State, calls: seq<Call>)
    requires Genesis(s) && Sound(s)
    ensures var t := Run(s, calls);
            && Holdings(t) == Holdings(s) + Credited(t.journal) - Withdrawn(t.journal)
            && Sound(t)
  {
    var P := (t: State) => Sound(t) && Equity(t) == Equity(s);
    forall t: State, a: Atom | P(t) ensures P(AtomStep(t, a)) { AtomSound(t, a); }
    KeptByRun(P, AnyAtom, s, calls);
  }

  /** Every V1 and V2 holder is indexed. */
  ghost predicate Indexed(s: State) {
    && (forall d :: d in s.legacy ==> d in s.index)
    && (forall k :: k in s.balances ==> k.0 in s.index)
  }

  lemma CreditIndexed(s: State, dev: Address, token: Address, amount: i128, seqno: Option<u32>)
    requires Indexed(s)
    ensures Indexed(AddCredit(s, dev, token, amount, seqno).StateOr(s))
  {
    InsertShifts(s.index, dev);
  }

  lemma ReceiveIndexed(s: State, p: Payment)
    requires Indexed(s) && ReceivePayment(s, p).Done?
    ensures Indexed(ReceivePayment(s, p).st)
  {
    if !p.toPool {
      CreditIndexed(CheckDeveloper(s, p.developer.value, p.seqno).st, p.developer.value, p.token, p.amount, Some(p.seqno));
    }
  }

  lemma ProposeIndexed(s: State, caller: Address, from: Address, to: Address)
    requires Indexed(s) && ProposeMigration(s, caller, from, to).Done?
    ensures Indexed(ProposeMigration(s, caller, from, to).st)
  {
  }

  lemma WithdrawIndexed(s: State, dev: Address, amount: i128, to: Option<Address>)
    requires NonNegative(s) && Indexed(s) && Withdraw(s, dev, amount, to).Done?
    ensures Indexed(Withdraw(s, dev, amount, to).st)
  {
    assert (dev, s.usdc.value) in s.balances;
  }

  lemma ExecuteIndexed(s: State, caller: Address, from: Address)
    requires Sound(s) && Indexed(s) && ExecuteMigration(s, caller, from).Done?
    ensures Indexed(ExecuteMigration(s, caller, from).st)
  {
    InsertShifts(s.index, s.pending[from].to);
    assert (from, s.usdc.value) in s.balances;
  }

  lemma EntryIndexed(s: State, e: Entry)
    requires Sound(s) && Indexed(s) && Enter(s, e).Done?
    ensures Indexed(Enter(s, e).st)
  {
    if IsSetter(e) {
      SetterKeepsBooks(s, e);
    } else {
      match e {
        case EReceive(p) => ReceiveIndexed(s, p);
        case EForce(_, dev, amount, token) => CreditIndexed(s, dev, token, amount, None);
        case EWithdraw(dev, amount, to) => WithdrawIndexed(s, dev, amount, to);
        case EPropose(caller, from, to) => ProposeIndexed(s, caller, from, to);
        case EExecute(caller, from) => ExecuteIndexed(s, caller, from);
      }
    }
  }

  lemma AtomIndexed(s: State, a: Atom)
    requires Sound(s) && Indexed(s)
    ensures Indexed(AtomStep(s, a))
  {
    if a.Entered? && Enter(s, a.e).Done? { EntryIndexed(s, a.e); }
  }

  /** If every holder starts in the index, no run ever leaves a holder outside it. */
  lemma IndexCoversHolders(s: State, calls: seq<Call>)
    requires Sound(s) && Indexed(s)
    ensures Indexed(Run(s, calls))
  {
    var P := (t: State) => Sound(t) && Indexed(t);
    forall t: State, a: Atom | P(t) ensures P(AtomStep(t, a)) { AtomSound(t, a); AtomIndexed(t, a); }
    KeptByRun(P, AnyAtom, s, calls);
  }
}
