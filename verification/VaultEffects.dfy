/**
 What every vault call does to the storage it touches, when it is refused, and when it happens.

 Everything here is said with the storage fields, the call's own arguments and literal constants, never with
 the functions that compute the result, so it does not depend on how the entrypoints are written.
 */
module VaultEffects {
  import opened Base
  import opened Ledger
  import opened Vault
  import opened VaultRuns

  /** A transfer of `amount`, seen by every holder. */
  ghost predicate Moves(l: Token, after: Token, from: Address, to: Address, amount: int) {
    forall who :: Held(after, who) == Held(l, who)
      + (if who == to then amount else 0) - (if who == from then amount else 0)
  }

  /** What a holder has after paying `amount` away, possibly to itself. */
  ghost predicate CanTake(l: Token, from: Address, to: Address, amount: int) {
    (if to == from then Held(l, to) else Held(l, to) + amount) <= I128_MAX
  }

  // -------------------------------------------------------------- deposits

  /** A deposit is accepted exactly while the vault is open, from the owner or an allowed depositor who holds it,
      for a positive amount of at least the minimum that fits; it moves the amount to the vault and tracks it. */
  lemma DepositEffect(s: State, caller: Address, amount: i128)
    ensures var r := Deposit(s, caller, amount);
            && !r.Err?
            && (r.Done? <==>
                  && !s.paused && amount > 0 && amount >= s.minDeposit
                  && (caller == s.owner || caller in s.depositors)
                  && s.balance + amount <= I128_MAX
                  && amount <= Held(s.ledger, caller) && CanTake(s.ledger, caller, s.self, amount))
            && (r.Done? ==>
                  && Moves(s.ledger, r.st.ledger, caller, s.self, amount)
                  && r.st == s.(balance := s.balance + amount, ledger := r.st.ledger,
                                journal := s.journal + [Deposited(caller, amount)]))
  {
    if Deposit(s, caller, amount).Done? { TransferFacts(s.ledger, caller, s.self, amount); }
  }

  // ------------------------------------------------------------ deductions

  lemma SettleEffect(s: State, amount: i128)
    requires 0 <= amount
    ensures var r := Settle(s, amount);
            && !r.Err?
            && (r.Done? <==>
                  && amount <= s.balance && amount <= Held(s.ledger, s.self)
                  && CanTake(s.ledger, s.self, s.settlement, amount))
            && (r.Done? ==>
                  && Moves(s.ledger, r.st.ledger, s.self, s.settlement, amount)
                  && r.st == s.(balance := s.balance - amount, ledger := r.st.ledger,
                                journal := s.journal + [Deducted(s.settlement, amount)]))
  {
    if Settle(s, amount).Done? { TransferFacts(s.ledger, s.self, s.settlement, amount); }
  }

  /** A deduction is accepted exactly from the authorized caller of an open vault, for a positive amount between the
      limits, within what is tracked and what is held; it pays the settlement contract and lowers what is tracked. */
  lemma DeductEffect(s: State, caller: Address, amount: i128)
    ensures var r := Deduct(s, caller, amount);
            && !r.Err?
            && (r.Done? <==>
                  && caller == s.authorizedCaller && !s.paused
                  && amount > 0 && s.minDeposit <= amount <= s.maxDeduct
                  && amount <= s.balance && amount <= Held(s.ledger, s.self)
                  && CanTake(s.ledger, s.self, s.settlement, amount))
            && (r.Done? ==>
                  && Moves(s.ledger, r.st.ledger, s.self, s.settlement, amount)
                  && r.st == s.(balance := s.balance - amount, ledger := r.st.ledger,
                                journal := s.journal + [Deducted(s.settlement, amount)]))
  {
    if amount > 0 { SettleEffect(s, amount); }
  }

  lemma BatchIsOnePayment(s: State, caller: Address, items: Items)
    ensures AllValid(s, items) ==> Total(items) >= 0
    ensures BatchDeduct(s, caller, items) ==
            if caller == s.authorizedCaller && !s.paused && AllValid(s, items) && Total(items) <= I128_MAX
            then Settle(s, Total(items)) else Panic(Untyped)
  {
    TallyExact(s, items, 0);
  }

  /** A batch is accepted exactly from the authorized caller of an open vault, when every amount is positive and
      between the limits and their total is tracked and held; it makes one payment of the total. */
  lemma BatchDeductEffect(s: State, caller: Address, items: Items)
    ensures var r, total := BatchDeduct(s, caller, items), Total(items);
            && !r.Err?
            && (r.Done? <==>
                  && caller == s.authorizedCaller && !s.paused
                  && (forall i :: 0 <= i < |items| ==> items[i].0 > 0 && s.minDeposit <= items[i].0 <= s.maxDeduct)
                  && total <= s.balance && total <= Held(s.ledger, s.self)
                  && CanTake(s.ledger, s.self, s.settlement, total))
            && (r.Done? ==>
                  && 0 <= total <= I128_MAX && Moves(s.ledger, r.st.ledger, s.self, s.settlement, total)
                  && r.st == s.(balance := s.balance - total, ledger := r.st.ledger,
                                journal := s.journal + [Deducted(s.settlement, total)]))
  {
    BatchIsOnePayment(s, caller, items);
    if AllValid(s, items) && Total(items) <= I128_MAX { SettleEffect(s, Total(items)); }
  }

  // ------------------------------------------------------------ time locks

  /** The configured window, or two days. */
  ghost function WindowOf(window: Option<u64>): int {
    if window.Some? then window.value else 172800
  }

  ghost function SlotNeeded(a: Action): Slot {
    match a
    case Pause => PauseSlot
    case Upgrade(_) => UpgradeSlot
    case Sweep(_, _) => SweepSlot
  }

  ghost function SlotValue(s: State, slot: Slot): Option<Proposal> {
    match slot
    case PauseSlot => s.pause
    case UpgradeSlot => s.upgrade
    case SweepSlot => s.sweep
  }

  /** Each slot holds proposals of its own kind only, as its storage type demands. */
  ghost predicate OwnKinds(s: State) {
    && (s.pause.Some? ==> s.pause.value.action.Pause?)
    && (s.upgrade.Some? ==> s.upgrade.value.action.Upgrade?)
    && (s.sweep.Some? ==> s.sweep.value.action.Sweep?)
  }

  /** A slot's proposal is now `p`, and nothing but that slot and the journal has changed. */
  ghost predicate SlotBecomes(s: State, t: State, slot: Slot, p: Option<Proposal>) {
    match slot
    case PauseSlot => t == s.(pause := p, journal := t.journal)
    case UpgradeSlot => t == s.(upgrade := p, journal := t.journal)
    case SweepSlot => t == s.(sweep := p, journal := t.journal)
  }

  /** A proposal is accepted exactly from the admin, with a positive amount when it sweeps, and a deadline that
      fits. It may be executed from the time of now plus the configured window on, or two days when none is
      configured. */
  lemma ProposeEffect(s: State, caller: Address, a: Action)
    ensures var r, w := Propose(s, caller, a), WindowOf(s.window);
            && !r.Panic?
            && (r.Done? <==> caller == s.admin && (a.Sweep? ==> a.amount > 0) && s.now + w <= U64_MAX)
            && (r.Done? ==>
                  && SlotBecomes(s, r.st, SlotNeeded(a), Some(Proposal(a, s.now, s.now + w)))
                  && r.st.journal == s.journal + [Proposed(a, s.now, w)])
  {
  }

  /** Executing needs the admin, a proposal, its deadline passed and, for a sweep, the tokens. It clears the slot
      and does what was proposed: pauses the vault, records the hash, or pays the amount. */
  lemma ExecuteEffect(s: State, caller: Address, slot: Slot)
    requires OwnKinds(s)
    ensures var r, p := Execute(s, caller, slot), SlotValue(s, slot);
            && (r.Done? <==>
                  && caller == s.admin && p.Some? && s.now >= p.value.executeAfter
                  && match p.value.action
                     case Sweep(to, amount) =>
                       0 <= amount <= Held(s.ledger, s.self) && CanTake(s.ledger, s.self, to, amount)
                     case _ => true)
            && (r.Done? ==>
                  && r.st.journal == s.journal + [Executed(p.value.action, s.now)]
                  && match p.value.action
                     case Pause => r.st == s.(paused := true, pause := None, journal := r.st.journal)
                     case Upgrade(hash) => r.st == s.(installed := Some(hash), upgrade := None, journal := r.st.journal)
                     case Sweep(to, amount) =>
                       && Moves(s.ledger, r.st.ledger, s.self, to, amount)
                       && r.st == s.(ledger := r.st.ledger, sweep := None, journal := r.st.journal))
  {
    if slot == SweepSlot && Execute(s, caller, slot).Done? {
      TransferFacts(s.ledger, s.self, s.sweep.value.action.to, s.sweep.value.action.amount);
    }
  }

  /** Cancelling needs the admin only, and clears that slot. */
  lemma CancelEffect(s: State, caller: Address, slot: Slot)
    ensures var r := Cancel(s, caller, slot);
            && !r.Panic? && (r.Done? <==> caller == s.admin)
            && (r.Done? ==> SlotBecomes(s, r.st, slot, None) && r.st.journal == s.journal + [Cancelled(slot)])
  {
  }

  /** A new window is accepted exactly from the admin, between one hour and thirty days. */
  lemma WindowEffect(s: State, caller: Address, window: u64)
    ensures var r := SetWindow(s, caller, window);
            && !r.Panic? && (r.Done? <==> caller == s.admin && 3600 <= window <= 2592000)
            && (r.Done? ==> r.st == s.(window := Some(window)))
  {
  }

  /** The owner's settings take effect exactly as given. */
  lemma OwnerEffect(s: State, caller: Address, paused: bool, maximum: i128, settlement: Address)
    ensures SetPaused(s, caller, paused) == if caller == s.owner then Done(s.(paused := paused)) else Panic(Untyped)
    ensures SetMaxDeduct(s, caller, maximum) ==
            if caller == s.owner && maximum > 0 then Done(s.(maxDeduct := maximum)) else Panic(Untyped)
    ensures SetSettlement(s, caller, settlement) ==
            if caller == s.owner then Done(s.(settlement := settlement)) else Panic(Untyped)
    ensures SetAuthorizedCaller(s, caller) ==
            if caller == s.owner then Done(s.(authorizedCaller := caller)) else Panic(Untyped)
  {
  }

  /** Other parties' transfers go through exactly when the payer is not the vault, holds the amount, and the payee can
      take it, and are journalled when the vault is the payee; time takes any value that is not in the past. */
  lemma SurroundingsEffect(s: State, from: Address, to: Address, amount: i128, time: u64)
    ensures var r := ForeignTransfer(s, from, to, amount);
            && (r.Done? <==>
                  from != s.self && 0 <= amount <= Held(s.ledger, from) && CanTake(s.ledger, from, to, amount))
            && (r.Done? ==>
                  && Moves(s.ledger, r.st.ledger, from, to, amount)
                  && r.st == s.(ledger := r.st.ledger,
                                journal := s.journal + if to == s.self then [Received(amount)] else []))
    ensures Advance(s, time) == if time >= s.now then Done(s.(now := time)) else Panic(Untyped)
  {
    if ForeignTransfer(s, from, to, amount).Done? {
      TransferFacts(s.ledger, from, to, amount);
      assert s.journal + [] == s.journal;
    }
  }

  /** Whoever the vault lets in. */
  ghost predicate LetIn(s: State, c: Call) {
    match c
    case CDeposit(caller, _) => caller == s.owner || caller in s.depositors
    case CDeduct(caller, _) => caller == s.authorizedCaller
    case CBatch(caller, _) => caller == s.authorizedCaller
    case CPropose(caller, _) => caller == s.admin
    case CExecute(caller, _) => caller == s.admin
    case CCancel(caller, _) => caller == s.admin
    case CWindow(caller, _) => caller == s.admin
    case CPaused(caller, _) => caller == s.owner
    case CMaxDeduct(caller, _) => caller == s.owner
    case CSettlement(caller, _) => caller == s.owner
    case CAuthorize(caller) => caller == s.owner
    case _ => true
  }

  /** A call by anyone else changes nothing at all. */
  lemma OutsidersChangeNothing(s: State, c: Call)
    requires !LetIn(s, c)
    ensures Enter(s, c).StateOr(s) == s
  {
  }

  // ------------------------------------------------------------------ runs

  /** The window configured after some calls: the argument of the last one that the admin made within the bounds. */
  ghost function LastWindow(admin: Address, calls: seq<Call>, start: Option<u64>): Option<u64>
    decreases |calls|
  {
    if calls == [] then start
    else
      var c := calls[0];
      LastWindow(admin, calls[1..],
                 if c.CWindow? && c.caller == admin && 3600 <= c.window <= 2592000 then Some(c.window) else start)
  }

  lemma CallWindow(s: State, c: Call)
    ensures var t := Enter(s, c).StateOr(s);
            && t.admin == s.admin && t.self == s.self && t.now >= s.now
            && t.window == if c.CWindow? && c.caller == s.admin && 3600 <= c.window <= 2592000 then Some(c.window)
                           else s.window
  {
    if Enter(s, c).Done? {
      match c {
        case CPropose(caller, action) => ProposeEffect(s, caller, action);
        case CCancel(caller, slot) => CancelEffect(s, caller, slot);
        case CExecute(caller, slot) => PerformFacts(s, s.Pending(slot).value.action);
        case CBatch(_, items) => SettleEffect(s, Tally(s, items, 0).value);
        case CDeduct(_, amount) => SettleEffect(s, amount);
        case _ =>
      }
    }
  }

  /** The window in force is the last one set, in every run. */
  lemma {:induction false} WindowOverRuns(s: State, calls: seq<Call>)
    ensures var t := Run(s, calls);
            t.admin == s.admin && t.now >= s.now && t.window == LastWindow(s.admin, calls, s.window)
    decreases |calls|
  {
    if calls != [] {
      CallWindow(s, calls[0]);
      WindowOverRuns(Enter(s, calls[0]).StateOr(s), calls[1..]);
    }
  }

  /** Whatever runs between a proposal and the execution of that very proposal, the clock advances by at least the
      window that was last set when it was made, or two days when none ever was. */
  lemma ExecutionWaitsItsWindow(s: State, before: seq<Call>, caller: Address, a: Action, after: seq<Call>,
                                executor: Address)
    requires Propose(Run(s, before), caller, a).Done?
    ensures var made := Run(s, before);
            var p := Propose(made, caller, a).st;
            var r := Run(p, after);
            Execute(r, executor, SlotNeeded(a)).Done? && SlotValue(r, SlotNeeded(a)) == SlotValue(p, SlotNeeded(a)) ==>
              r.now >= made.now + WindowOf(LastWindow(s.admin, before, s.window))
  {
    WindowOverRuns(s, before);
    ProposeEffect(Run(s, before), caller, a);
  }

  // --------------------------------------------------- journal and calls

  /** What a call has to journal when it is accepted in `s`. */
  ghost function CallRecords(s: State, c: Call): seq<Record> {
    if !Enter(s, c).Done? then []
    else
      match c
      case CDeposit(caller, amount) => [Deposited(caller, amount)]
      case CDeduct(_, amount) => [Deducted(s.settlement, amount)]
      case CBatch(_, items) => if FitsI128(Total(items)) then [Deducted(s.settlement, Total(items))] else []
      case CPropose(_, a) => if 0 <= WindowOf(s.window) <= U64_MAX then [Proposed(a, s.now, WindowOf(s.window))] else []
      case CExecute(_, slot) =>
        if SlotValue(s, slot).Some? then [Executed(SlotValue(s, slot).value.action, s.now)] else []
      case CCancel(_, slot) => [Cancelled(slot)]
      case CTransfer(_, to, amount) => if to == s.self then [Received(amount)] else []
      case _ => []
  }

  ghost function RunRecords(s: State, calls: seq<Call>): seq<Record>
    decreases |calls|
  {
    if calls == [] then []
    else CallRecords(s, calls[0]) + RunRecords(Enter(s, calls[0]).StateOr(s), calls[1..])
  }

  lemma CallLogs(s: State, c: Call)
    ensures Enter(s, c).StateOr(s).journal == s.journal + CallRecords(s, c)
  {
    assert s.journal + [] == s.journal;
    if Enter(s, c).Done? {
      match c {
        case CDeposit(caller, amount) => DepositEffect(s, caller, amount);
        case CDeduct(caller, amount) => DeductEffect(s, caller, amount);
        case CBatch(caller, items) => BatchDeductEffect(s, caller, items);
        case CPropose(caller, a) => ProposeEffect(s, caller, a);
        case CExecute(caller, slot) =>
          PerformFacts(s, s.Pending(slot).value.action);
          PutKeeps(Perform(s, s.Pending(slot).value.action).st, slot, None);
        case CCancel(caller, slot) => CancelEffect(s, caller, slot);
        case _ =>
      }
    }
  }

  /** The journal of a run is exactly what its accepted calls say, in order. */
  lemma {:induction false} RunLogs(s: State, calls: seq<Call>)
    ensures Run(s, calls).journal == s.journal + RunRecords(s, calls)
    decreases |calls|
  {
    if calls == [] {
      assert s.journal + RunRecords(s, calls) == s.journal;
    } else {
      var s1 := Enter(s, calls[0]).StateOr(s);
      CallLogs(s, calls[0]);
      RunLogs(s1, calls[1..]);
      ConcatThree(s.journal, CallRecords(s, calls[0]), RunRecords(s1, calls[1..]));
    }
  }

  /** A record made in `s` bears the ledger time of `s`, and a proposal the window then configured. */
  ghost predicate Stamped(s: State, r: Record) {
    && (r.Proposed? ==> r.at == s.now && r.window == WindowOf(s.window))
    && (r.Executed? ==> r.at == s.now)
  }

  /** The first call of a run writes the first stretch of what the run adds to the journal. */
  lemma FirstStretch(s: State, calls: seq<Call>)
    requires calls != []
    ensures var s1 := Enter(s, calls[0]).StateOr(s);
            && s1.journal == s.journal + CallRecords(s, calls[0])
            && Run(s, calls).journal == Run(s1, calls[1..]).journal == s1.journal + RunRecords(s1, calls[1..])
  {
    CallLogs(s, calls[0]);
    RunLogs(Enter(s, calls[0]).StateOr(s), calls[1..]);
  }

  /** Call `m` of the run made the record, which bears the time of the state it was made in. */
  ghost predicate MadeBy(s: State, calls: seq<Call>, m: nat, r: Record) {
    && m < |calls|
    && r in CallRecords(Run(s, calls[..m]), calls[m]) && Stamped(Run(s, calls[..m]), r)
  }

  lemma MadeByTail(s: State, calls: seq<Call>, m: nat, r: Record)
    requires calls != [] && MadeBy(Enter(s, calls[0]).StateOr(s), calls[1..], m, r)
    ensures MadeBy(s, calls, m + 1, r)
  {
    assert calls[..m + 1][1..] == calls[1..][..m] && calls[..m + 1][0] == calls[0];
    assert Run(s, calls[..m + 1]) == Run(Enter(s, calls[0]).StateOr(s), calls[1..][..m]);
  }

  lemma MadeByHead(s: State, calls: seq<Call>, k: nat)
    requires calls != [] && |s.journal| <= k < |Enter(s, calls[0]).StateOr(s).journal|
    ensures MadeBy(s, calls, 0, Enter(s, calls[0]).StateOr(s).journal[k])
  {
    FirstStretch(s, calls);
    assert Enter(s, calls[0]).StateOr(s).journal[k] == CallRecords(s, calls[0])[k - |s.journal|];
    assert calls[..0] == [];
  }

  /** Every record that a run journals was made by one of its calls. */
  lemma {:induction false} RecordsStamped(s: State, calls: seq<Call>, k: nat) returns (m: nat)
    requires |s.journal| <= k < |Run(s, calls).journal|
    ensures MadeBy(s, calls, m, Run(s, calls).journal[k])
    decreases |calls|
  {
    assert calls != [];
    FirstStretch(s, calls);
    var s1 := Enter(s, calls[0]).StateOr(s);
    if k < |s1.journal| {
      m := 0;
      MadeByHead(s, calls, k);
    } else {
      var rest := RecordsStamped(s1, calls[1..], k);
      m := rest + 1;
      MadeByTail(s, calls, rest, Run(s1, calls[1..]).journal[k]);
    }
  }

  /** In every run from a fresh journal: whatever is executed was proposed in the same form, with nothing proposed,
      executed or cancelled in its slot since, by a call made when the ledger clock was earlier by at least the window
      then last set, or two days when none was. */
  lemma ExecutedAfterItsWindow(s: State, calls: seq<Call>, k: nat) returns (i: nat, proposing: nat, executing: nat)
    requires Genesis(s) && k < |Run(s, calls).journal| && Run(s, calls).journal[k].Executed?
    ensures proposing < |calls| && executing < |calls| && i < k
    ensures var j := Run(s, calls).journal;
            && j[i].Proposed? && j[i].action == j[k].action
            && (forall m :: i < m < k ==> !Touches(j[m], SlotOf(j[k].action)))
            && j[i] in CallRecords(Run(s, calls[..proposing]), calls[proposing])
            && j[k] in CallRecords(Run(s, calls[..executing]), calls[executing])
    ensures Run(s, calls[..executing]).now >=
            Run(s, calls[..proposing]).now + WindowOf(LastWindow(s.admin, calls[..proposing], s.window))
  {
    i := ExecutionMatchesProposal(s, calls, k);
    proposing := RecordsStamped(s, calls, i);
    executing := RecordsStamped(s, calls, k);
    WindowOverRuns(s, calls[..proposing]);
  }
}
