/** The vault's entrypoints, step by step over its storage, each proved against the state machine. */
module VaultContract {
  import opened Base
  import opened Ledger
  import opened Vault

  class CalloraVault {
    const self: Address
    const owner: Address
    const admin: Address
    var authorizedCaller: Address
    var now: u64
    var ledger: Token
    var balance: i128
    var minDeposit: i128
    var maxDeduct: i128
    var settlement: Address
    var depositors: set<Address>
    var paused: bool
    var window: Option<u64>
    var installed: Option<nat>
    var pendingPause: Option<Proposal>
    var pendingUpgrade: Option<Proposal>
    var pendingSweep: Option<Proposal>
    var journal: seq<Record>

    function View(): State
      reads this
    {
      State(self, owner, admin, authorizedCaller, now, ledger, balance, minDeposit, maxDeduct, settlement,
            depositors, paused, window, installed, pendingPause, pendingUpgrade, pendingSweep, journal)
    }

    /** Each slot only ever holds a proposal of its own kind. */
    ghost predicate Valid()
      reads this`pendingPause, this`pendingUpgrade, this`pendingSweep
    {
      && (pendingPause.Some? ==> pendingPause.value.action.Pause?)
      && (pendingUpgrade.Some? ==> pendingUpgrade.value.action.Upgrade?)
      && (pendingSweep.Some? ==> pendingSweep.value.action.Sweep?)
    }

    /** `init`: the admin starts as the owner. */
    constructor Init(contractAddress: Address, ownerAddress: Address, token: Token, initialBalance: i128,
                     caller: Address, minimumDeposit: i128, maximumDeduct: i128, settlementAddress: Address, time: u64)
      requires 0 < minimumDeposit <= maximumDeduct
      ensures Valid()
      ensures View() == Initial(contractAddress, ownerAddress, token, initialBalance, caller,
                                minimumDeposit, maximumDeduct, settlementAddress, time)
    {
      self, owner, admin := contractAddress, ownerAddress, ownerAddress;
      authorizedCaller, now, ledger, balance := caller, time, token, initialBalance;
      minDeposit, maxDeduct, settlement := minimumDeposit, maximumDeduct, settlementAddress;
      depositors, paused, window, installed := {}, false, None, None;
      pendingPause, pendingUpgrade, pendingSweep, journal := None, None, None, [];
    }

    method DepositFunds(caller: Address, amount: i128) returns (r: Status)
      modifies this`balance, this`ledger, this`journal
      ensures Matches(Deposit(old(View()), caller, amount), old(View()), r, View())
    {
      if paused { return Panicked(Untyped); }
      if amount <= 0 { return Panicked(Untyped); }
      if amount < minDeposit { return Panicked(Untyped); }
      if caller != owner {
        if caller !in depositors { return Panicked(Untyped); }
      }
      var newBalance := CheckedI128(balance + amount);
      if newBalance.None? { return Panicked(Untyped); }
      var paid := Transfer(ledger, caller, self, amount);
      if paid.None? { return Panicked(Untyped); }
      balance, ledger := newBalance.value, paid.value;
      journal := journal + [Deposited(caller, amount)];
      r := Ok;
    }

    method DeductAmount(caller: Address, amount: i128, requestId: u64) returns (r: Status)
      modifies this`balance, this`ledger, this`journal
      ensures Matches(Deduct(old(View()), caller, amount), old(View()), r, View())
    {
      if caller != authorizedCaller { return Panicked(Untyped); }
      if paused { return Panicked(Untyped); }
      if amount <= 0 || amount < minDeposit || amount > maxDeduct { return Panicked(Untyped); }
      if balance < amount { return Panicked(Untyped); }
      r := PaySettlement(amount);
    }

    /** The writes shared by both forms of deduction. */
    method PaySettlement(amount: i128) returns (r: Status)
      requires 0 <= amount <= balance
      modifies this`balance, this`ledger, this`journal
      ensures Matches(Settle(old(View()), amount), old(View()), r, View())
    {
      var paid := Transfer(ledger, self, settlement, amount);
      if paid.None? { return Panicked(Untyped); }
      balance, ledger := balance - amount, paid.value;
      journal := journal + [Deducted(settlement, amount)];
      r := Ok;
    }

    method DeductBatch(caller: Address, items: Items) returns (r: Status)
      modifies this`balance, this`ledger, this`journal
      ensures Matches(BatchDeduct(old(View()), caller, items), old(View()), r, View())
    {
      if caller != authorizedCaller { return Panicked(Untyped); }
      if paused { return Panicked(Untyped); }
      var total: i128, i := 0, 0;
      assert items[i..] == items;
      while i < |items|
        invariant 0 <= i <= |items| && 0 <= total
        invariant Tally(View(), items[i..], total) == Tally(View(), items, 0)
      {
        var (amount, _) := items[i];
        assert items[i..][1..] == items[i + 1..];
        if amount <= 0 || amount < minDeposit || amount > maxDeduct { return Panicked(Untyped); }
        var sum := CheckedI128(total + amount);
        if sum.None? { return Panicked(Untyped); }
        total := sum.value;
        i := i + 1;
      }
      if balance < total { return Panicked(Untyped); }
      r := PaySettlement(total);
    }

    method SetTimelockWindow(caller: Address, seconds: u64) returns (r: Status)
      modifies this`window
      ensures Matches(SetWindow(old(View()), caller, seconds), old(View()), r, View())
    {
      if caller != admin { return Failed(Unauthorized); }
      if seconds < MIN_WINDOW || seconds > MAX_WINDOW { return Failed(InvalidTimelockWindow); }
      window := Some(seconds);
      r := Ok;
    }

    method ProposePause(caller: Address) returns (r: Status)
      requires Valid()
      modifies this`pendingPause, this`journal
      ensures Valid()
      ensures Matches(Propose(old(View()), caller, Pause), old(View()), r, View())
    {
      if caller != admin { return Failed(Unauthorized); }
      var seconds := window.GetOr(DEFAULT_WINDOW);
      match Deadline(now, seconds) {
        case None => return Failed(TimelockOverflow);
        case Some(deadline) => pendingPause := Some(Proposal(Pause, now, deadline));
      }
      journal := journal + [Proposed(Pause, now, seconds)];
      r := Ok;
    }

    method ExecutePause(caller: Address) returns (r: Status)
      requires Valid()
      modifies this`paused, this`pendingPause, this`journal
      ensures Valid()
      ensures Matches(Execute(old(View()), caller, PauseSlot), old(View()), r, View())
    {
      if caller != admin { return Failed(Unauthorized); }
      if pendingPause.None? { return Failed(ProposalNotFound); }
      if now < pendingPause.value.executeAfter { return Failed(TimelockNotExpired); }
      paused := true;
      pendingPause := None;
      journal := journal + [Executed(Pause, now)];
      r := Ok;
    }

    method CancelPause(caller: Address) returns (r: Status)
      requires Valid()
      modifies this`pendingPause, this`journal
      ensures Valid()
      ensures Matches(Cancel(old(View()), caller, PauseSlot), old(View()), r, View())
    {
      if caller != admin { return Failed(Unauthorized); }
      pendingPause := None;
      journal := journal + [Cancelled(PauseSlot)];
      r := Ok;
    }

    method ProposeUpgrade(caller: Address, hash: nat) returns (r: Status)
      requires Valid()
      modifies this`pendingUpgrade, this`journal
      ensures Valid()
      ensures Matches(Propose(old(View()), caller, Upgrade(hash)), old(View()), r, View())
    {
      if caller != admin { return Failed(Unauthorized); }
      var seconds := window.GetOr(DEFAULT_WINDOW);
      match Deadline(now, seconds) {
        case None => return Failed(TimelockOverflow);
        case Some(deadline) => pendingUpgrade := Some(Proposal(Upgrade(hash), now, deadline));
      }
      journal := journal + [Proposed(Upgrade(hash), now, seconds)];
      r := Ok;
    }

    method ExecuteUpgrade(caller: Address) returns (r: Status)
      requires Valid()
      modifies this`installed, this`pendingUpgrade, this`journal
      ensures Valid()
      ensures Matches(Execute(old(View()), caller, UpgradeSlot), old(View()), r, View())
    {
      if caller != admin { return Failed(Unauthorized); }
      if pendingUpgrade.None? { return Failed(ProposalNotFound); }
      var proposal := pendingUpgrade.value;
      if now < proposal.executeAfter { return Failed(TimelockNotExpired); }
      installed := Some(proposal.action.hash);
      pendingUpgrade := None;
      journal := journal + [Executed(proposal.action, now)];
      r := Ok;
    }

    method CancelUpgrade(caller: Address) returns (r: Status)
      requires Valid()
      modifies this`pendingUpgrade, this`journal
      ensures Valid()
      ensures Matches(Cancel(old(View()), caller, UpgradeSlot), old(View()), r, View())
    {
      if caller != admin { return Failed(Unauthorized); }
      pendingUpgrade := None;
      journal := journal + [Cancelled(UpgradeSlot)];
      r := Ok;
    }

    method ProposeSweep(caller: Address, to: Address, amount: i128) returns (r: Status)
      requires Valid()
      modifies this`pendingSweep, this`journal
      ensures Valid()
      ensures Matches(Propose(old(View()), caller, Sweep(to, amount)), old(View()), r, View())
    {
      if caller != admin { return Failed(Unauthorized); }
      if amount <= 0 { return Failed(AmountNotPositive); }
      var seconds := window.GetOr(DEFAULT_WINDOW);
      match Deadline(now, seconds) {
        case None => return Failed(TimelockOverflow);
        case Some(deadline) => pendingSweep := Some(Proposal(Sweep(to, amount), now, deadline));
      }
      journal := journal + [Proposed(Sweep(to, amount), now, seconds)];
      r := Ok;
    }

    method ExecuteSweep(caller: Address) returns (r: Status)
      requires Valid()
      modifies this`ledger, this`pendingSweep, this`journal
      ensures Valid()
      ensures Matches(Execute(old(View()), caller, SweepSlot), old(View()), r, View())
    {
      if caller != admin { return Failed(Unauthorized); }
      if pendingSweep.None? { return Failed(ProposalNotFound); }
      var proposal := pendingSweep.value;
      if now < proposal.executeAfter { return Failed(TimelockNotExpired); }
      if Held(ledger, self) < proposal.action.amount { return Failed(InsufficientBalance); }
      var paid := Transfer(ledger, self, proposal.action.to, proposal.action.amount);
      if paid.None? { return Panicked(Untyped); }
      ledger := paid.value;
      journal := journal + [Executed(proposal.action, now)];
      pendingSweep := None;
      r := Ok;
    }

    method CancelSweep(caller: Address) returns (r: Status)
      requires Valid()
      modifies this`pendingSweep, this`journal
      ensures Valid()
      ensures Matches(Cancel(old(View()), caller, SweepSlot), old(View()), r, View())
    {
      if caller != admin { return Failed(Unauthorized); }
      pendingSweep := None;
      journal := journal + [Cancelled(SweepSlot)];
      r := Ok;
    }

    method PauseNow(caller: Address) returns (r: Status)
      modifies this`paused
      ensures Matches(SetPaused(old(View()), caller, true), old(View()), r, View())
    {
      if caller != owner { return Panicked(Untyped); }
      paused := true;
      r := Ok;
    }

    method Unpause(caller: Address) returns (r: Status)
      modifies this`paused
      ensures Matches(SetPaused(old(View()), caller, false), old(View()), r, View())
    {
      if caller != owner { return Panicked(Untyped); }
      paused := false;
      r := Ok;
    }
  }
}
