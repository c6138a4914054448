/** The vault over whole runs: its surplus, and its three time locks. */
module VaultRuns {
  import opened Base
  import opened Ledger
  import opened Vault

  // ---------------------------------------------------------------- surplus

  /** What the vault holds beyond what it tracks. */
  ghost function Surplus(s: State): int {
    s.OnLedger() - s.balance
  }

  /** How a record moves the surplus: transfers in add to it, executed sweeps take from it. Deposits and deductions
      do neither, unless the vault pays itself. */
  ghost function Drift(r: Record, self: Address): int {
    match r
    case Received(amount) => amount
    case Executed(Sweep(to, amount), _) => if to == self then 0 else 0 - amount
    case Deposited(from, amount) => if from == self then 0 - amount else 0
    case Deducted(to, amount) => if to == self then amount else 0
    case _ => 0
  }

  ghost function DriftSum(j: seq<Record>, self: Address): int {
    if j == [] then 0 else DriftSum(j[..|j| - 1], self) + Drift(j[|j| - 1], self)
  }

  ghost predicate Explained(s: State, t: State) {
    && t.self == s.self && (s.balance >= 0 ==> t.balance >= 0)
    && Surplus(t) - DriftSum(t.journal, s.self) == Surplus(s) - DriftSum(s.journal, s.self)
  }

  lemma LoggedDrift(s: State, r: Record)
    ensures DriftSum(s.Log(r).journal, s.self) == DriftSum(s.journal, s.self) + Drift(r, s.self)
  {
    assert s.Log(r).journal[..|s.journal|] == s.journal;
  }

  /** A step that logs `r` is explained when the surplus moves by the drift of `r`. */
  lemma LoggedExplained(s: State, t: State, r: Record)
    requires t.self == s.self && t.journal == s.journal + [r] && (s.balance >= 0 ==> t.balance >= 0)
    requires Surplus(t) == Surplus(s) + Drift(r, s.self)
    ensures Explained(s, t)
  {
    LoggedDrift(s, r);
    assert t.journal == s.Log(r).journal;
  }

  lemma DepositExplained(s: State, caller: Address, amount: i128)
    requires Deposit(s, caller, amount).Done?
    ensures Explained(s, Deposit(s, caller, amount).st)
  {
    var t := Deposit(s, caller, amount).st;
    TransferFacts(s.ledger, caller, s.self, amount);
    assert t.OnLedger() == s.OnLedger() + Delta(caller, s.self, amount, s.self);
    assert t.journal == s.journal + [Deposited(caller, amount)];
    LoggedExplained(s, t, Deposited(caller, amount));
  }

  lemma SettleExplained(s: State, amount: i128)
    requires 0 <= amount && Settle(s, amount).Done?
    ensures Explained(s, Settle(s, amount).st)
  {
    var t := Settle(s, amount).st;
    TransferFacts(s.ledger, s.self, s.settlement, amount);
    assert t.OnLedger() == s.OnLedger() + Delta(s.self, s.settlement, amount, s.self);
    assert t.journal == s.journal + [Deducted(s.settlement, amount)];
    LoggedExplained(s, t, Deducted(s.settlement, amount));
  }

  lemma TransferExplained(s: State, from: Address, to: Address, amount: i128)
    requires ForeignTransfer(s, from, to, amount).Done?
    ensures Explained(s, ForeignTransfer(s, from, to, amount).st)
  {
    var t := ForeignTransfer(s, from, to, amount).st;
    TransferFacts(s.ledger, from, to, amount);
    assert t.OnLedger() == s.OnLedger() + Delta(from, to, amount, s.self);
    if to == s.self {
      assert t.journal == s.journal + [Received(amount)];
      LoggedExplained(s, t, Received(amount));
    }
  }

  /** Writing a slot leaves everything else alone. */
  lemma PutKeeps(s: State, slot: Slot, p: Option<Proposal>)
    ensures var t := s.Put(slot, p);
            && t.self == s.self && t.ledger == s.ledger && t.balance == s.balance && t.journal == s.journal
            && t.window == s.window && t.now == s.now && t.Pending(slot) == p
            && forall other :: other != slot ==> t.Pending(other) == s.Pending(other)
  {
  }

  lemma PerformFacts(s: State, a: Action)
    requires Perform(s, a).Done?
    ensures var t := Perform(s, a).st;
            && t.self == s.self && t.balance == s.balance && t.journal == s.journal && t.now == s.now
            && t.window == s.window && (forall slot :: t.Pending(slot) == s.Pending(slot))
            && t.OnLedger() == s.OnLedger() + Drift(Executed(a, s.now), s.self)
  {
    if a.Sweep? { TransferFacts(s.ledger, s.self, a.to, a.amount); }
  }

  lemma ExecuteExplained(s: State, caller: Address, slot: Slot)
    requires Execute(s, caller, slot).Done?
    ensures Explained(s, Execute(s, caller, slot).st)
  {
    var a := s.Pending(slot).value.action;
    PerformFacts(s, a);
    PutKeeps(Perform(s, a).st, slot, None);
    LoggedExplained(s, Execute(s, caller, slot).st, Executed(a, s.now));
  }

  lemma ProposeExplained(s: State, caller: Address, a: Action)
    requires Propose(s, caller, a).Done?
    ensures Explained(s, Propose(s, caller, a).st)
  {
    PutKeeps(s, SlotOf(a), Some(Proposal(a, s.now, Deadline(s.now, s.Window()).value)));
    LoggedExplained(s, Propose(s, caller, a).st, Proposed(a, s.now, s.Window()));
  }

  lemma CancelExplained(s: State, caller: Address, slot: Slot)
    requires Cancel(s, caller, slot).Done?
    ensures Explained(s, Cancel(s, caller, slot).st)
  {
    PutKeeps(s, slot, None);
    LoggedExplained(s, Cancel(s, caller, slot).st, Cancelled(slot));
  }

  lemma CallExplained(s: State, c: Call)
    ensures Explained(s, Enter(s, c).StateOr(s))
  {
    if Enter(s, c).Done? {
      match c {
        case CDeposit(caller, amount) => DepositExplained(s, caller, amount);
        case CDeduct(_, amount) => SettleExplained(s, amount);
        case CBatch(_, items) => SettleExplained(s, Tally(s, items, 0).value);
        case CPropose(caller, action) => ProposeExplained(s, caller, action);
        case CExecute(caller, slot) => ExecuteExplained(s, caller, slot);
        case CCancel(caller, slot) => CancelExplained(s, caller, slot);
        case CTransfer(from, to, amount) => TransferExplained(s, from, to, amount);
        case CWindow(_, _) =>
        case CPaused(_, _) =>
        case CMaxDeduct(_, _) =>
        case CSettlement(_, _) =>
        case CAuthorize(_) =>
        case CAdvance(_) =>
      }
    }
  }

  /** Over every run, on-ledger minus tracked balance changes by exactly the journalled drift, and a non-negative
      tracked balance stays non-negative. */
  lemma {:induction false} SurplusOverRuns(s: State, calls: seq<Call>)
    ensures var t := Run(s, calls);
            && Surplus(t) == Surplus(s) + DriftSum(t.journal, s.self) - DriftSum(s.journal, s.self)
            && t.self == s.self && (s.balance >= 0 ==> t.balance >= 0)
    decreases |calls|
  {
    if calls != [] {
      CallExplained(s, calls[0]);
      SurplusOverRuns(Enter(s, calls[0]).StateOr(s), calls[1..]);
    }
  }

  /** The tracked balance is never negative in any run exactly when the vault starts with a non-negative one. */
  lemma NeverNegativeExact(s: State)
    ensures (forall calls :: Run(s, calls).balance >= 0) <==> s.balance >= 0
  {
    if s.balance >= 0 {
      forall calls ensures Run(s, calls).balance >= 0 { SurplusOverRuns(s, calls); }
    } else {
      assert Run(s, []) == s;
    }
  }

  /** `init` accepts a negative balance, and an accepted deposit leaves it negative. */
  lemma NegativeFromInit()
    ensures var s := Initial(0, 1, map[1 := 3], -10, 2, 1, 5, 4, 0);
            Deposit(s, 1, 3).Done? && Run(s, [CDeposit(1, 3)]).balance == -7
  {
    var s := Initial(0, 1, map[1 := 3], -10, 2, 1, 5, 4, 0);
    assert [CDeposit(1, 3)][1..] == [];
    assert Run(s, [CDeposit(1, 3)]) == Run(Deposit(s, 1, 3).st, []);
  }

  // --------------------------------------------------------------- timelock

  ghost predicate Touches(r: Record, slot: Slot) {
    match r
    case Proposed(a, _, _) => SlotOf(a) == slot
    case Executed(a, _) => SlotOf(a) == slot
    case Cancelled(c) => c == slot
    case _ => false
  }

  /** The proposal of a slot that is still open after the journal. */
  ghost function Open(j: seq<Record>, slot: Slot): Option<Record> {
    if j == [] then None
    else
      var r := j[|j| - 1];
      if !Touches(r, slot) then Open(j[..|j| - 1], slot)
      else if r.Proposed? then Some(r)
      else None
  }

  ghost predicate InBounds(window: int) {
    MIN_WINDOW <= window <= MAX_WINDOW
  }

  /** A pending slot is the open proposal, with the deadline fixed when it was made. */
  ghost predicate Tracks(s: State, slot: Slot) {
    match Open(s.journal, slot)
    case None => s.Pending(slot).None?
    case Some(r) =>
      && r.Proposed? && InBounds(r.window) && SlotOf(r.action) == slot && r.at + r.window <= U64_MAX
      && s.Pending(slot) == Some(Proposal(r.action, r.at, r.at + r.window))
  }

  ghost predicate JustifiedAt(j: seq<Record>, k: nat)
    requires k < |j|
  {
    j[k].Executed? ==>
      match Open(j[..k], SlotOf(j[k].action))
      case None => false
      case Some(r) => r.Proposed? && r.action == j[k].action && InBounds(r.window) && r.at + r.window <= j[k].at
  }

  ghost predicate Locked(s: State) {
    && (s.window.Some? ==> InBounds(s.window.value))
    && (forall slot :: Tracks(s, slot))
    && forall k :: 0 <= k < |s.journal| ==> JustifiedAt(s.journal, k)
  }

  lemma OpenAfter(j: seq<Record>, r: Record)
    ensures forall slot :: !Touches(r, slot) ==> Open(j + [r], slot) == Open(j, slot)
    ensures forall slot :: Touches(r, slot) ==> Open(j + [r], slot) == if r.Proposed? then Some(r) else None
  {
    assert (j + [r])[..|j|] == j;
  }

  lemma LoggedLocked(s: State, t: State, r: Record)
    requires Locked(s) && t.journal == s.journal + [r] && t.window == s.window
    requires forall slot :: if Touches(r, slot) then Tracks(t, slot) else t.Pending(slot) == s.Pending(slot)
    requires r.Executed? ==> JustifiedAt(t.journal, |s.journal|)
    ensures Locked(t)
  {
    OpenAfter(s.journal, r);
    forall slot ensures Tracks(t, slot) { assert Tracks(s, slot); }
    forall k | 0 <= k < |t.journal| ensures JustifiedAt(t.journal, k) {
      if k < |s.journal| { assert JustifiedAt(s.journal, k) && t.journal[..k] == s.journal[..k]; }
    }
  }

  /** A proposal's deadline is the sum of its time and the window, when that still is a time. */
  lemma DeadlineIsSum(at: u64, window: u64)
    ensures Deadline(at, window) == CheckedU64(at + window)
  {
  }

  lemma ProposeLocked(s: State, caller: Address, a: Action)
    requires Locked(s) && Propose(s, caller, a).Done?
    ensures Locked(Propose(s, caller, a).st)
  {
    var t, r := Propose(s, caller, a).st, Proposed(a, s.now, s.Window());
    DeadlineIsSum(s.now, s.Window());
    OpenAfter(s.journal, r);
    LoggedLocked(s, t, r);
  }

  lemma ExecuteLocked(s: State, caller: Address, slot: Slot)
    requires Locked(s) && Execute(s, caller, slot).Done?
    ensures Locked(Execute(s, caller, slot).st)
  {
    var t, r := Execute(s, caller, slot).st, Executed(s.Pending(slot).value.action, s.now);
    assert Tracks(s, slot);
    assert t.journal == s.journal + [r] && t.journal[..|s.journal|] == s.journal;
    OpenAfter(s.journal, r);
    LoggedLocked(s, t, r);
  }

  lemma CancelLocked(s: State, caller: Address, slot: Slot)
    requires Locked(s) && Cancel(s, caller, slot).Done?
    ensures Locked(Cancel(s, caller, slot).st)
  {
    OpenAfter(s.journal, Cancelled(slot));
    LoggedLocked(s, Cancel(s, caller, slot).st, Cancelled(slot));
  }

  /** The calls that leave every slot alone. */
  predicate IsPlain(c: Call) {
    !c.CPropose? && !c.CExecute? && !c.CCancel?
  }

  ghost predicate SameSlots(s: State, t: State) {
    s.pause == t.pause && s.upgrade == t.upgrade && s.sweep == t.sweep
  }

  ghost predicate LogsMoney(s: State, t: State) {
    t.journal == s.journal || exists r :: t.journal == s.journal + [r] && (r.Deposited? || r.Deducted? || r.Received?)
  }

  lemma DepositPlain(s: State, caller: Address, amount: i128)
    requires Deposit(s, caller, amount).Done?
    ensures var t := Deposit(s, caller, amount).st; SameSlots(s, t) && LogsMoney(s, t) && t.window == s.window
  {
    assert Deposit(s, caller, amount).st.journal == s.journal + [Deposited(caller, amount)];
  }

  lemma SettlePlain(s: State, amount: i128)
    requires 0 <= amount && Settle(s, amount).Done?
    ensures var t := Settle(s, amount).st; SameSlots(s, t) && LogsMoney(s, t) && t.window == s.window
  {
    assert Settle(s, amount).st.journal == s.journal + [Deducted(s.settlement, amount)];
  }

  lemma TransferPlain(s: State, from: Address, to: Address, amount: i128)
    requires ForeignTransfer(s, from, to, amount).Done?
    ensures var t := ForeignTransfer(s, from, to, amount).st; SameSlots(s, t) && LogsMoney(s, t) && t.window == s.window
  {
    if to == s.self { assert ForeignTransfer(s, from, to, amount).st.journal == s.journal + [Received(amount)]; }
  }

  lemma PlainCall(s: State, c: Call)
    requires IsPlain(c) && Enter(s, c).Done?
    ensures var t := Enter(s, c).st;
            SameSlots(s, t) && LogsMoney(s, t) && (if c.CWindow? then t.window == Some(c.window) else t.window == s.window)
  {
    match c {
      case CDeposit(caller, amount) => DepositPlain(s, caller, amount);
      case CDeduct(_, amount) => SettlePlain(s, amount);
      case CBatch(_, items) => SettlePlain(s, Tally(s, items, 0).value);
      case CTransfer(from, to, amount) => TransferPlain(s, from, to, amount);
      case CWindow(_, _) =>
      case CPaused(_, _) =>
      case CMaxDeduct(_, _) =>
      case CSettlement(_, _) =>
      case CAuthorize(_) =>
      case CAdvance(_) =>
    }
  }

  lemma PlainLocked(s: State, c: Call)
    requires Locked(s) && IsPlain(c) && Enter(s, c).Done?
    ensures Locked(Enter(s, c).st)
  {
    PlainCall(s, c);
    var t := Enter(s, c).st;
    if t.journal == s.journal {
      forall slot ensures Tracks(t, slot) { assert Tracks(s, slot); }
    } else {
      var r :| t.journal == s.journal + [r] && (r.Deposited? || r.Deducted? || r.Received?);
      LoggedLocked(s, t, r);
    }
  }

  lemma {:induction false} RunLocked(s: State, calls: seq<Call>)
    requires Locked(s)
    ensures Locked(Run(s, calls))
    decreases |calls|
  {
    if calls != [] {
      var c := calls[0];
      if Enter(s, c).Done? {
        match c {
          case CPropose(caller, action) => ProposeLocked(s, caller, action);
          case CExecute(caller, slot) => ExecuteLocked(s, caller, slot);
          case CCancel(caller, slot) => CancelLocked(s, caller, slot);
          case _ => PlainLocked(s, c);
        }
      }
      RunLocked(Enter(s, c).StateOr(s), calls[1..]);
    }
  }

  /** A vault whose journal begins here. */
  ghost predicate Genesis(s: State) {
    s.journal == [] && s.pause.None? && s.upgrade.None? && s.sweep.None? && (s.window.Some? ==> InBounds(s.window.value))
  }

  lemma {:induction false} OpenWitness(j: seq<Record>, slot: Slot) returns (i: nat)
    requires Open(j, slot).Some?
    ensures i < |j| && j[i].Proposed? && SlotOf(j[i].action) == slot && Open(j, slot) == Some(j[i])
    ensures forall m :: i < m < |j| ==> !Touches(j[m], slot)
    decreases |j|
  {
    if Touches(j[|j| - 1], slot) { i := |j| - 1; } else { i := OpenWitness(j[..|j| - 1], slot); }
  }

  /** In every run, each executed action was proposed exactly as executed; since then nothing was proposed, executed or
      cancelled in its slot, and at least the window in force at the proposal, never under an hour, has passed. */
  lemma ExecutionMatchesProposal(s: State, calls: seq<Call>, k: nat) returns (i: nat)
    requires Genesis(s) && k < |Run(s, calls).journal| && Run(s, calls).journal[k].Executed?
    ensures var j := Run(s, calls).journal;
            && i < k && j[i].Proposed? && j[i].action == j[k].action
            && (forall m :: i < m < k ==> !Touches(j[m], SlotOf(j[k].action)))
            && j[i].at + j[i].window <= j[k].at && j[i].window >= MIN_WINDOW
  {
    RunLocked(s, calls);
    var j := Run(s, calls).journal;
    assert JustifiedAt(j, k);
    i := OpenWitness(j[..k], SlotOf(j[k].action));
    assert forall m :: 0 <= m < k ==> j[..k][m] == j[m];
  }

  /** A call changes a slot's proposal only by proposing, executing or cancelling in that very slot; in particular a new
      window leaves every pending deadline as it was. */
  lemma SlotsAreIndependent(s: State, c: Call, slot: Slot)
    requires c.CPropose? ==> SlotOf(c.action) != slot
    requires c.CExecute? || c.CCancel? ==> c.slot != slot
    ensures Enter(s, c).StateOr(s).Pending(slot) == s.Pending(slot)
  {
    if Enter(s, c).Done? && IsPlain(c) { PlainCall(s, c); }
  }
}
