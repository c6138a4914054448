/** The vault: tracked balance, deductions, and the three time-locked admin actions. */
module Vault {
  import opened Base
  import opened Ledger

  const DEFAULT_WINDOW := 172800
  const MIN_WINDOW := 3600
  const MAX_WINDOW := 2592000

  datatype Error = Unauthorized | AmountNotPositive | InsufficientBalance | ProposalNotFound
                 | TimelockNotExpired | TimelockOverflow | InvalidTimelockWindow | Untyped

  datatype Slot = PauseSlot | UpgradeSlot | SweepSlot
  datatype Action = Pause | Upgrade(hash: nat) | Sweep(to: Address, amount: i128)
  datatype Proposal = Proposal(action: Action, proposedAt: u64, executeAfter: u64)

  /** One accepted fact. */
  datatype Record =
    | Deposited(from: Address, amount: i128)
    | Deducted(recipient: Address, amount: i128)
    | Received(amount: i128)                       // a transfer in, made by someone else
    | Proposed(action: Action, at: u64, window: u64)
    | Cancelled(slot: Slot)
    | Executed(action: Action, at: u64)

  datatype State = State(
    self: Address, owner: Address, admin: Address, authorizedCaller: Address,
    now: u64, ledger: Token, balance: i128, minDeposit: i128, maxDeduct: i128, settlement: Address,
    depositors: set<Address>, paused: bool, window: Option<u64>, installed: Option<nat>,
    pause: Option<Proposal>, upgrade: Option<Proposal>, sweep: Option<Proposal>,
    journal: seq<Record>)
  {
    function OnLedger(): i128 { Held(ledger, self) }

    function Window(): u64 { window.GetOr(DEFAULT_WINDOW) }

    function Pending(slot: Slot): Option<Proposal> {
      match slot
      case PauseSlot => pause
      case UpgradeSlot => upgrade
      case SweepSlot => sweep
    }

    function Put(slot: Slot, p: Option<Proposal>): State {
      match slot
      case PauseSlot => this.(pause := p)
      case UpgradeSlot => this.(upgrade := p)
      case SweepSlot => this.(sweep := p)
    }

    function Log(r: Record): State { this.(journal := journal + [r]) }
  }

  /** The storage that `init` writes: the owner is also the admin, and the initial balance is taken as given. */
  function Initial(self: Address, owner: Address, token: Token, balance: i128, caller: Address,
                   minDeposit: i128, maxDeduct: i128, settlement: Address, time: u64): State {
    State(self, owner, owner, caller, time, token, balance, minDeposit, maxDeduct, settlement,
          {}, false, None, None, None, None, None, [])
  }

  function SlotOf(a: Action): Slot {
    match a
    case Pause => PauseSlot
    case Upgrade(_) => UpgradeSlot
    case Sweep(_, _) => SweepSlot
  }

  datatype Outcome = Done(st: State) | Err(error: Error) | Panic(error: Error) {
    predicate IsFailure() { !Done? }
    function PropagateFailure(): Outcome requires IsFailure() { this }
    function Extract(): State requires !IsFailure() { st }
    function StateOr(prior: State): State { if Done? then st else prior }
  }

  datatype Status = Ok | Failed(error: Error) | Panicked(error: Error)

  ghost predicate Matches(o: Outcome, before: State, status: Status, after: State) {
    match o
    case Done(st) => status == Ok && after == st
    case Err(e) => status == Failed(e) && after == before
    case Panic(e) => status == Panicked(e) && after == before
  }

  // ------------------------------------------------------ tracked balance

  function Deposit(s: State, caller: Address, amount: i128): Outcome {
    if s.paused || amount <= 0 || amount < s.minDeposit then Panic(Untyped)
    else if caller != s.owner && caller !in s.depositors then Panic(Untyped)
    else if !FitsI128(s.balance + amount) then Panic(Untyped)
    else
      match Transfer(s.ledger, caller, s.self, amount)
      case None => Panic(Untyped)
      case Some(l) => Done(s.(balance := s.balance + amount, ledger := l).Log(Deposited(caller, amount)))
  }

  predicate ValidDeduct(s: State, amount: i128) {
    amount > 0 && s.minDeposit <= amount <= s.maxDeduct
  }

  /** Debits the tracked balance and pays the settlement contract. */
  function Settle(s: State, amount: i128): Outcome
    requires 0 <= amount
  {
    if s.balance < amount then Panic(Untyped)
    else
      match Transfer(s.ledger, s.self, s.settlement, amount)
      case None => Panic(Untyped)
      case Some(l) => Done(s.(balance := s.balance - amount, ledger := l).Log(Deducted(s.settlement, amount)))
  }

  function Deduct(s: State, caller: Address, amount: i128): Outcome {
    if caller != s.authorizedCaller || s.paused || !ValidDeduct(s, amount) then Panic(Untyped)
    else Settle(s, amount)
  }

  /** Amount and request id; the id is only forwarded to the settlement contract. */
  type Items = seq<(i128, u64)>

  function Total(items: Items): int
    decreases |items|
  {
    if items == [] then 0 else items[0].0 + Total(items[1..])
  }

  /** The running total, or None as soon as an amount is invalid or the total overflows. */
  function Tally(s: State, items: Items, total: i128): (r: Option<i128>)
    ensures r.Some? ==> r.value >= total
    decreases |items|
  {
    if items == [] then Some(total)
    else if !ValidDeduct(s, items[0].0) || !FitsI128(total + items[0].0) then None
    else Tally(s, items[1..], total + items[0].0)
  }

  function BatchDeduct(s: State, caller: Address, items: Items): Outcome {
    if caller != s.authorizedCaller || s.paused then Panic(Untyped)
    else
      match Tally(s, items, 0)
      case None => Panic(Untyped)
      case Some(total) => Settle(s, total)
  }

  // ------------------------------------------------------------- timelock

  /** `proposed_at + window`, or None past the end of time. */
  function Deadline(proposedAt: u64, window: u64): Option<u64> {
    if window == 0 then Some(proposedAt)
    else if window > U64_MAX - proposedAt then None
    else CheckedU64(proposedAt + window)
  }

  function Propose(s: State, caller: Address, a: Action): Outcome {
    if caller != s.admin then Err(Unauthorized)
    else if a.Sweep? && a.amount <= 0 then Err(AmountNotPositive)
    else
      match Deadline(s.now, s.Window())
      case None => Err(TimelockOverflow)
      case Some(deadline) =>
        Done(s.Put(SlotOf(a), Some(Proposal(a, s.now, deadline))).Log(Proposed(a, s.now, s.Window())))
  }

  /** The action's effect, before its slot is cleared. */
  function Perform(s: State, a: Action): Outcome {
    match a
    case Pause => Done(s.(paused := true))
    case Upgrade(hash) => Done(s.(installed := Some(hash)))
    case Sweep(to, amount) =>
      if s.OnLedger() < amount then Err(InsufficientBalance)
      else
        match Transfer(s.ledger, s.self, to, amount)
        case None => Panic(Untyped)
        case Some(l) => Done(s.(ledger := l))
  }

  function Execute(s: State, caller: Address, slot: Slot): Outcome {
    if caller != s.admin then Err(Unauthorized)
    else
      match s.Pending(slot)
      case None => Err(ProposalNotFound)
      case Some(p) =>
        if s.now < p.executeAfter then Err(TimelockNotExpired)
        else
          var t :- Perform(s, p.action);
          Done(t.Put(slot, None).Log(Executed(p.action, s.now)))
  }

  function Cancel(s: State, caller: Address, slot: Slot): Outcome {
    if caller != s.admin then Err(Unauthorized)
    else Done(s.Put(slot, None).Log(Cancelled(slot)))
  }

  function SetWindow(s: State, caller: Address, window: u64): Outcome {
    if caller != s.admin then Err(Unauthorized)
    else if window < MIN_WINDOW || window > MAX_WINDOW then Err(InvalidTimelockWindow)
    else Done(s.(window := Some(window)))
  }

  // ------------------------------------------------- owner and surroundings

  function SetPaused(s: State, caller: Address, paused: bool): Outcome {
    if caller != s.owner then Panic(Untyped) else Done(s.(paused := paused))
  }

  function SetMaxDeduct(s: State, caller: Address, maximum: i128): Outcome {
    if caller != s.owner || maximum <= 0 then Panic(Untyped) else Done(s.(maxDeduct := maximum))
  }

  function SetSettlement(s: State, caller: Address, settlement: Address): Outcome {
    if caller != s.owner then Panic(Untyped) else Done(s.(settlement := settlement))
  }

  /** The owner makes itself the authorized caller. */
  function SetAuthorizedCaller(s: State, caller: Address): Outcome {
    if caller != s.owner then Panic(Untyped) else Done(s.(authorizedCaller := caller))
  }

  /** A transfer between other parties, or from one of them into the vault. */
  function ForeignTransfer(s: State, from: Address, to: Address, amount: i128): Outcome {
    if from == s.self then Panic(Untyped)
    else
      match Transfer(s.ledger, from, to, amount)
      case None => Panic(Untyped)
      case Some(l) =>
        if to == s.self then Done(s.(ledger := l).Log(Received(amount))) else Done(s.(ledger := l))
  }

  function Advance(s: State, time: u64): Outcome {
    if time < s.now then Panic(Untyped) else Done(s.(now := time))
  }

  datatype Call =
    | CDeposit(caller: Address, amount: i128)
    | CDeduct(caller: Address, amount: i128)
    | CBatch(caller: Address, items: Items)
    | CPropose(caller: Address, action: Action)
    | CExecute(caller: Address, slot: Slot)
    | CCancel(caller: Address, slot: Slot)
    | CWindow(caller: Address, window: u64)
    | CPaused(caller: Address, paused: bool)
    | CMaxDeduct(caller: Address, maximum: i128)
    | CSettlement(caller: Address, settlement: Address)
    | CAuthorize(caller: Address)
    | CTransfer(from: Address, to: Address, amount: i128)
    | CAdvance(time: u64)

  function Enter(s: State, c: Call): Outcome {
    match c
    case CDeposit(caller, amount) => Deposit(s, caller, amount)
    case CDeduct(caller, amount) => Deduct(s, caller, amount)
    case CBatch(caller, items) => BatchDeduct(s, caller, items)
    case CPropose(caller, action) => Propose(s, caller, action)
    case CExecute(caller, slot) => Execute(s, caller, slot)
    case CCancel(caller, slot) => Cancel(s, caller, slot)
    case CWindow(caller, window) => SetWindow(s, caller, window)
    case CPaused(caller, paused) => SetPaused(s, caller, paused)
    case CMaxDeduct(caller, maximum) => SetMaxDeduct(s, caller, maximum)
    case CSettlement(caller, settlement) => SetSettlement(s, caller, settlement)
    case CAuthorize(caller) => SetAuthorizedCaller(s, caller)
    case CTransfer(from, to, amount) => ForeignTransfer(s, from, to, amount)
    case CAdvance(time) => Advance(s, time)
  }

  function Run(s: State, calls: seq<Call>): State
    decreases |calls|
  {
    if calls == [] then s else Run(Enter(s, calls[0]).StateOr(s), calls[1..])
  }

  // ------------------------------------- batched against single deductions

  function DeductEach(s: State, caller: Address, items: Items): Outcome
    decreases |items|
  {
    if items == [] then Done(s)
    else
      var t :- Deduct(s, caller, items[0].0);
      DeductEach(t, caller, items[1..])
  }

  ghost predicate AllValid(s: State, items: Items) {
    forall i :: 0 <= i < |items| ==> items[i].0 > 0 && s.minDeposit <= items[i].0 <= s.maxDeduct
  }

  lemma {:induction false} TallyExact(s: State, items: Items, total: i128)
    requires 0 <= total
    ensures Tally(s, items, total) ==
            if AllValid(s, items) && total + Total(items) <= I128_MAX then Some(total + Total(items)) else None
    ensures AllValid(s, items) ==> Total(items) >= |items|
    decreases |items|
  {
    if items != [] {
      assert forall i :: 1 <= i < |items| ==> items[i] == items[1..][i - 1];
      assert forall i :: 0 <= i < |items| - 1 ==> items[1..][i] == items[i + 1];
      if FitsI128(total + items[0].0) && items[0].0 > 0 {
        TallyExact(s, items[1..], total + items[0].0);
      } else {
        TallyExact(s, items[1..], total);
      }
    }
  }

  /** A ledger after moving `total` in one go. */
  function Moved(l: map<Address, int>, from: Address, to: Address, total: int): map<Address, int> {
    var debited := l[from := Read(l, from, 0) - total];
    debited[to := Read(debited, to, 0) + total]
  }

  /** What every deduction demands of the caller, the vault and the amounts, and the tracked balance of them all. */
  ghost predicate Payable(s: State, caller: Address, items: Items) {
    caller == s.authorizedCaller && !s.paused && AllValid(s, items) && Total(items) <= s.balance
  }

  ghost predicate EachAtMost(items: Items, limit: int) {
    forall i :: 0 <= i < |items| ==> items[i].0 <= limit
  }

  /** Whether the vault's holding carries the deductions one by one: paid to another contract they add up, while a vault
      that settles with itself gets every amount back. */
  ghost predicate Carries(s: State, items: Items) {
    if s.settlement == s.self then EachAtMost(items, s.OnLedger())
    else Total(items) <= s.OnLedger() && Held(s.ledger, s.settlement) + Total(items) <= I128_MAX
  }

  ghost predicate PaidInFull(s: State, t: State, items: Items) {
    && t.balance == s.balance - Total(items)
    && t.ledger == Moved(s.ledger, s.self, s.settlement, Total(items))
  }

  /** The conditions on a list are those on its head and on its rest, in any state with the same limits. */
  lemma HeadAndRest(s: State, t: State, items: Items, limit: int)
    requires items != [] && t.minDeposit == s.minDeposit && t.maxDeduct == s.maxDeduct
    ensures AllValid(s, items) <==> ValidDeduct(s, items[0].0) && AllValid(t, items[1..])
    ensures EachAtMost(items, limit) <==> items[0].0 <= limit && EachAtMost(items[1..], limit)
    ensures AllValid(t, items[1..]) ==> Total(items[1..]) >= |items| - 1
  {
    TallyExact(t, items[1..], 0);
    assert forall i :: 1 <= i < |items| ==> items[i] == items[1..][i - 1];
    assert forall i :: 0 <= i < |items| - 1 ==> items[1..][i] == items[i + 1];
  }

  lemma {:induction false} PaidAwayExact(s: State, caller: Address, items: Items)
    requires items != [] && s.settlement != s.self
    ensures var r := DeductEach(s, caller, items);
            && (r.Done? <==> Payable(s, caller, items) && Carries(s, items))
            && (r.Done? ==> PaidInFull(s, r.st, items))
    decreases |items|
  {
    var r := Deduct(s, caller, items[0].0);
    HeadAndRest(s, s, items, 0);
    if r.Done? {
      var t := r.st;
      HeadAndRest(s, t, items, 0);
      if |items| > 1 {
        PaidAwayExact(t, caller, items[1..]);
        assert Moved(t.ledger, s.self, s.settlement, Total(items[1..]))
            == Moved(s.ledger, s.self, s.settlement, Total(items));
      } else {
        assert items[1..] == [];
        assert t.ledger == Moved(s.ledger, s.self, s.settlement, Total(items));
      }
    }
  }

  lemma {:induction false} SelfSettledExact(s: State, caller: Address, items: Items)
    requires items != [] && s.settlement == s.self
    ensures var r := DeductEach(s, caller, items);
            && (r.Done? <==> Payable(s, caller, items) && Carries(s, items))
            && (r.Done? ==> PaidInFull(s, r.st, items))
    decreases |items|
  {
    var r := Deduct(s, caller, items[0].0);
    HeadAndRest(s, s, items, s.OnLedger());
    if r.Done? {
      var t := r.st;
      assert t.ledger == s.ledger[s.self := s.OnLedger()];
      HeadAndRest(s, t, items, s.OnLedger());
      if |items| > 1 { SelfSettledExact(t, caller, items[1..]); } else { assert items[1..] == []; }
    }
  }

  /** Exactly when a non-empty sequence of single deductions succeeds, and what it leaves. */
  lemma DeductEachExact(s: State, caller: Address, items: Items)
    requires items != []
    ensures var r := DeductEach(s, caller, items);
            && (r.Done? <==> Payable(s, caller, items) && Carries(s, items))
            && (r.Done? ==> PaidInFull(s, r.st, items))
  {
    if s.settlement == s.self { SelfSettledExact(s, caller, items); } else { PaidAwayExact(s, caller, items); }
  }

  ghost predicate SameBooks(s: State, t: State) {
    s.balance == t.balance && s.ledger == t.ledger
  }

  /** A non-empty batch never does more than the single deductions in order, and reaches the same books. It does less
      exactly when the vault settles with itself and holds each amount but not the total. */
  lemma BatchAgreement(s: State, caller: Address, items: Items)
    requires items != []
    ensures var batch, each := BatchDeduct(s, caller, items), DeductEach(s, caller, items);
            && (batch.Done? ==> each.Done? && SameBooks(batch.st, each.st))
            && (each.Done? && !batch.Done? <==>
                  && Payable(s, caller, items) && s.settlement == s.self
                  && EachAtMost(items, s.OnLedger()) && s.OnLedger() < Total(items))
  {
    TallyExact(s, items, 0);
    DeductEachExact(s, caller, items);
    if AllValid(s, items) { TotalBoundsEach(s, items); }
  }

  lemma {:induction false} TotalBoundsEach(s: State, items: Items)
    requires AllValid(s, items)
    ensures EachAtMost(items, Total(items)) && Total(items) >= 0
    decreases |items|
  {
    if items != [] {
      assert forall i :: 1 <= i < |items| ==> items[i] == items[1..][i - 1];
      assert forall i :: 0 <= i < |items| - 1 ==> items[1..][i] == items[i + 1];
      assert ValidDeduct(s, items[0].0);
      TotalBoundsEach(s, items[1..]);
    }
  }

  /** A vault that settles with itself, holds 5 and tracks 10. */
  ghost function SelfSettled(): State {
    State(0, 1, 1, 1, 0, map[0 := 5], 10, 1, 5, 0, {}, false, None, None, None, None, None, [])
  }

  lemma TotalOfTwo(a: (i128, u64), b: (i128, u64))
    ensures Total([a, b]) == a.0 + b.0
  {
    assert [a, b][1..] == [b] && [b][1..] == [];
    assert Total([b]) == b.0 + Total([b][1..]);
  }

  /** The two forms do differ for a vault that settles with itself and holds less than it tracks. */
  lemma SelfSettlementDiffers()
    ensures DeductEach(SelfSettled(), 1, [(5, 0), (5, 1)]).Done?
    ensures !BatchDeduct(SelfSettled(), 1, [(5, 0), (5, 1)]).Done?
  {
    TotalOfTwo((5, 0), (5, 1));
    BatchAgreement(SelfSettled(), 1, [(5, 0), (5, 1)]);
  }

  /** An empty batch still demands the caller, an open vault and a non-negative balance; it changes no amount. */
  lemma EmptyBatch(s: State, caller: Address)
    ensures var batch := BatchDeduct(s, caller, []);
            && (batch.Done? <==> caller == s.authorizedCaller && !s.paused && s.balance >= 0 && s.OnLedger() >= 0)
            && (batch.Done? ==> batch.st.balance == s.balance
                                && forall who :: Held(batch.st.ledger, who) == Held(s.ledger, who))
  {
  }
}
