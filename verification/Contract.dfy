/** The settlement contract's entrypoints, step by step over its storage, each proved against the state machine. */
module Contract {
  import opened Base
  import opened SortedIndex
  import opened Ledger
  import opened Settlement
  import opened Pagination
  import Conservation

  datatype DeveloperBalance = DeveloperBalance(address: Address, token: Address, balance: i128)

  /** The records of these developers, each with its balance. */
  function Records(balances: map<(Address, Address), i128>, devs: seq<Address>, token: Address):
      (r: seq<DeveloperBalance>)
    ensures |r| == |devs|
  {
    seq(|devs|, k requires 0 <= k < |devs| => DeveloperBalance(devs[k], token, Read(balances, (devs[k], token), 0)))
  }

  lemma RecordsGrow(balances: map<(Address, Address), i128>, ix: seq<Address>, start: nat, i: nat, token: Address)
    requires start <= i < |ix|
    ensures Records(balances, ix[start..i + 1], token) ==
            Records(balances, ix[start..i], token) + [DeveloperBalance(ix[i], token, Read(balances, (ix[i], token), 0))]
  {
  }

  class CalloraSettlement {
    const self: Address
    const admin: Address
    const vault: Address
    var now: u64
    var tokens: map<Address, Token>
    var usdc: Option<Address>
    var balances: map<(Address, Address), i128>
    var legacy: map<Address, i128>
    var pool: GlobalPool
    var marks: Marks
    var poolMark: u32
    var index: seq<Address>
    var minimums: map<Address, i128>
    var caps: map<Address, i128>
    var windows: map<Address, ClaimWindow>
    var today: map<Address, DailyWithdraw>
    var pending: map<Address, PendingMigration>
    var version: int
    var journal: seq<Record>

    function View(): State
      reads this
    {
      State(self, admin, vault, now, tokens, usdc, balances, legacy, pool, marks, poolMark, index,
            minimums, caps, windows, today, pending, version, journal)
    }

    /** `init`: the two roles must differ from each other and from the contract. */
    constructor Init(contractAddress: Address, adminAddress: Address, vaultAddress: Address, time: u64)
      requires adminAddress != vaultAddress && adminAddress != contractAddress && vaultAddress != contractAddress
      ensures self == contractAddress && admin == adminAddress && vault == vaultAddress
      ensures Genesis(View()) && Conservation.Sound(View()) && Conservation.Indexed(View())
      ensures Conservation.Holdings(View()) == 0 && View().version == VERSION_V1
    {
      self, admin, vault := contractAddress, adminAddress, vaultAddress;
      now, tokens, usdc := time, map[], None;
      balances, legacy, pool := map[], map[], GlobalPool(0, time);
      marks, poolMark, index := map[], 0, [];
      minimums, caps, windows, today := map[], map[], map[], map[];
      pending, version, journal := map[], VERSION_V1, [];
    }

    /** The host undoes every write of a panicking call. */
    method RollBack(saved: State)
      requires saved.self == self && saved.admin == admin && saved.vault == vault
      modifies this
      ensures View() == saved
    {
      RollBackSettings(saved);
      RollBackBooks(saved);
      now, tokens, usdc, version, journal := saved.now, saved.tokens, saved.usdc, saved.version, saved.journal;
    }

    method RollBackSettings(saved: State)
      modifies this`minimums, this`caps, this`windows, this`marks, this`poolMark, this`pending
      ensures minimums == saved.minimums && caps == saved.caps && windows == saved.windows
      ensures marks == saved.marks && poolMark == saved.poolMark && pending == saved.pending
    {
      minimums, caps, windows := saved.minimums, saved.caps, saved.windows;
      marks, poolMark, pending := saved.marks, saved.poolMark, saved.pending;
    }

    method RollBackBooks(saved: State)
      modifies this`balances, this`legacy, this`pool, this`index, this`today
      ensures balances == saved.balances && legacy == saved.legacy && pool == saved.pool
      ensures index == saved.index && today == saved.today
    {
      balances, legacy, pool, index, today := saved.balances, saved.legacy, saved.pool, saved.index, saved.today;
    }

    method CheckDeveloper(dev: Address, seqno: u32) returns (r: Status)
      modifies this`marks
      ensures Matches(Settlement.CheckDeveloper(old(View()), dev, seqno), old(View()), r, View())
    {
      var stored := Read(marks, dev, 0);
      if seqno <= stored { return Failed(ReplayDetected); }
      marks := marks[dev := seqno];
      r := Ok;
    }

    method CheckPool(seqno: u32) returns (r: Status)
      modifies this`poolMark
      ensures Matches(Settlement.CheckPool(old(View()), seqno), old(View()), r, View())
    {
      if seqno <= poolMark { return Failed(ReplayDetected); }
      poolMark := seqno;
      r := Ok;
    }

    method AddCredit(dev: Address, token: Address, amount: i128, seqno: Option<u32>) returns (r: Status)
      modifies this`balances, this`index, this`journal
      ensures Matches(Settlement.AddCredit(old(View()), dev, token, amount, seqno), old(View()), r, View())
    {
      var credited := CheckedI128(Read(balances, (dev, token), 0) + amount);
      if credited.None? { return Panicked(DeveloperOverflow); }
      WriteCredit(dev, token, credited.value, Credit(dev, token, amount, seqno));
      r := Ok;
    }

    /** The balance, the index and the journal entry of a credit. */
    method WriteCredit(dev: Address, token: Address, credited: i128, entry: Record)
      modifies this`balances, this`index, this`journal
      ensures View() == old(View()).(balances := old(balances)[(dev, token) := credited],
                                     index := Insert(old(index), dev), journal := old(journal) + [entry])
    {
      balances := balances[(dev, token) := credited];
      index := SortedInsert(index, dev);
      journal := journal + [entry];
    }

    method ReceivePayment(caller: Address, amount: i128, toPool: bool, developer: Option<Address>,
                          token: Address, seqno: u32) returns (r: Status)
      modifies this
      ensures Matches(Settlement.ReceivePayment(old(View()), Payment(caller, amount, toPool, developer, token, seqno)),
                      old(View()), r, View())
    {
      var saved := View();
      if caller != vault && caller != admin { return Panicked(Unauthorized); }
      if amount <= 0 { return Panicked(AmountNotPositive); }
      if toPool {
        r := CheckPool(seqno);
        if r.Failed? { return Panicked(r.error); }
        if developer.Some? {
          RollBack(saved);
          return Panicked(DeveloperMustBeNone);
        }
        match CheckedI128(pool.total + amount) {
          case None =>
            RollBack(saved);
            return Panicked(PoolOverflow);
          case Some(total) =>
            pool := GlobalPool(total, now);
            journal := journal + [PoolCredit(amount, seqno)];
        }
      } else {
        if developer.None? { return Panicked(DeveloperRequired); }
        r := CheckDeveloper(developer.value, seqno);
        if r.Failed? { return Panicked(r.error); }
        r := AddCredit(developer.value, token, amount, Some(seqno));
        if r.Panicked? { RollBack(saved); }
      }
    }

    /** The replay loop of a batch; on failure some marks may already be raised. */
    method CheckItems(items: Items, seqno: u32) returns (r: Status)
      modifies this`marks
      ensures match RaiseEach(old(marks), items, seqno)
              case Some(raised) => r == Ok && marks == raised
              case None => r == Failed(ReplayDetected)
    {
      var i := 0;
      assert items[i..] == items;
      while i < |items|
        invariant 0 <= i <= |items|
        invariant RaiseEach(marks, items[i..], seqno) == RaiseEach(old(marks), items, seqno)
      {
        assert items[i..][1..] == items[i + 1..];
        r := CheckDeveloper(items[i].0, seqno);
        if r.Failed? { return; }
        i := i + 1;
      }
      r := Ok;
    }

    /** The credit loop of a batch; on a panic some credits may already be written. */
    method CreditItems(items: Items, token: Address, seqno: u32) returns (r: Status)
      modifies this`balances, this`index, this`journal
      ensures match CreditEach(old(View()), items, token, seqno)
              case Done(st) => r == Ok && View() == st
              case Err(_) => false
              case Panic(e) => r == Panicked(e)
    {
      ghost var goal := CreditEach(View(), items, token, seqno);
      var i := 0;
      assert items[i..] == items;
      while i < |items|
        invariant 0 <= i <= |items|
        invariant CreditEach(View(), items[i..], token, seqno) == goal
      {
        assert items[i..][1..] == items[i + 1..];
        r := AddCredit(items[i].0, token, items[i].1, Some(seqno));
        if r.Panicked? { return; }
        i := i + 1;
      }
      r := Ok;
    }

    method AmountsPositive(items: Items) returns (ok: bool)
      ensures ok == AllPositive(items)
    {
      var i := 0;
      while i < |items|
        invariant 0 <= i <= |items| && forall k :: 0 <= k < i ==> items[k].1 > 0
      {
        if items[i].1 <= 0 { return false; }
        i := i + 1;
      }
      return true;
    }

    /** The replay loop, then the credit loop; on a failure the writes so far are still there. */
    method ApplyItems(items: Items, token: Address, seqno: u32) returns (r: Status)
      modifies this`marks, this`balances, this`index, this`journal
      ensures match CheckThenCredit(old(View()), items, token, seqno)
              case Done(st) => r == Ok && View() == st
              case Err(_) => false
              case Panic(e) => r == Panicked(e)
    {
      r := CheckItems(items, seqno);
      if r.Failed? { return Panicked(r.error); }
      assert View() == old(View()).(marks := marks);
      r := CreditItems(items, token, seqno);
    }

    /** Three loops: amounts, replay marks, then credits. */
    method BatchReceivePayment(caller: Address, items: Items, token: Address, seqno: u32) returns (r: Status)
      modifies this
      ensures Matches(ReceiveBatch(old(View()), caller, items, token, seqno), old(View()), r, View())
    {
      if caller != vault && caller != admin { return Panicked(Unauthorized); }
      if |items| == 0 || |items| > MAX_BATCH_SIZE { return Panicked(Untyped); }
      var ok := AmountsPositive(items);
      if !ok { return Panicked(Untyped); }
      var saved := View();
      r := ApplyItems(items, token, seqno);
      if r.Panicked? { RollBack(saved); }
    }

    method ForceCreditDeveloper(caller: Address, dev: Address, amount: i128, token: Address) returns (r: Status)
      modifies this
      ensures Matches(ForceCredit(old(View()), caller, dev, amount, token), old(View()), r, View())
    {
      if caller != admin { return Panicked(Unauthorized); }
      if amount <= 0 { return Panicked(AmountNotPositive); }
      r := AddCredit(dev, token, amount, None);
    }

    method RequireClaimWindowOpen(dev: Address) returns (r: Status)
      ensures r == if dev in windows && (now < windows[dev].startTs || now > windows[dev].endTs)
                   then Failed(ClaimWindowClosed) else Ok
    {
      if dev in windows {
        var window := windows[dev];
        if now < window.startTs || now > window.endTs { return Failed(ClaimWindowClosed); }
      }
      r := Ok;
    }

    /** `check_min_balance`: no minimum means no restriction. */
    method CheckMinBalance(dev: Address, remaining: i128) returns (r: Status)
      ensures var minimum := Read(minimums, dev, 0);
              r == if minimum > 0 && remaining < minimum then Failed(MinBalanceViolation) else Ok
    {
      var minimum := Read(minimums, dev, 0);
      if minimum > 0 && remaining < minimum { return Failed(MinBalanceViolation); }
      r := Ok;
    }

    /** The daily counter, reset when the stored day is not the current one. */
    method CurrentDaily(dev: Address) returns (daily: DailyWithdraw)
      ensures daily.day == now / 86400
      ensures daily.amount == if dev in today && today[dev].day == now / 86400 then today[dev].amount else 0
    {
      var day := now / SECONDS_PER_DAY;
      daily := Read(today, dev, DailyWithdraw(day, 0));
      if daily.day != day { daily := DailyWithdraw(day, 0); }
    }

    /** The checks of a withdrawal; nothing is written. */
    method CheckWithdrawal(dev: Address, amount: i128, recipient: Address) returns (r: Status)
      ensures r == WithdrawGuard(View(), dev, amount, Some(recipient))
    {
      if amount <= 0 { return Failed(AmountNotPositive); }
      if recipient == self { return Panicked(Untyped); }
      r := RequireClaimWindowOpen(dev);
      if r.Failed? { return; }
      if usdc.None? { return Failed(UsdcTokenNotConfigured); }
      var current := Read(balances, (dev, usdc.value), 0);
      var remaining := CheckedI128(current - amount);
      if remaining.None? { return Failed(InsufficientDeveloperBalance); }
      r := CheckMinBalance(dev, remaining.value);
      if r.Failed? { return; }
      if amount > current { return Failed(InsufficientDeveloperBalance); }
      var daily := CurrentDaily(dev);
      var cap := Read(caps, dev, 0);
      if cap > 0 {
        var projected := CheckedI128(daily.amount + amount);
        if projected.None? || projected.value > cap { return Failed(DailyWithdrawCapExceeded); }
      }
      var newBalance := CheckedI128(current - amount);
      if newBalance.None? { return Failed(DeveloperBalanceUnderflow); }
      if Held(Read(tokens, usdc.value, map[]), self) < amount { return Failed(InsufficientContractBalance); }
      r := Ok;
    }

    /** Every check comes before every write, so an error needs no rollback. */
    method WithdrawDeveloperBalance(dev: Address, amount: i128, to: Option<Address>) returns (r: Status)
      modifies this`tokens, this`balances, this`today, this`journal
      ensures Matches(Withdraw(old(View()), dev, amount, to), old(View()), r, View())
    {
      var recipient := to.GetOr(dev);
      r := CheckWithdrawal(dev, amount, recipient);
      assert r == WithdrawGuard(View(), dev, amount, to);
      if r != Ok { return; }
      r := Disburse(dev, amount, recipient);
    }

    /** The token transfer, then the writes. */
    method Disburse(dev: Address, amount: i128, recipient: Address) returns (r: Status)
      requires usdc.Some? && 0 < amount <= View().Balance(dev, usdc.value)
      modifies this`tokens, this`balances, this`today, this`journal
      ensures Matches(PayOut(old(View()), dev, amount, recipient), old(View()), r, View())
    {
      var token := usdc.value;
      var daily := CurrentDaily(dev);
      var paid := Transfer(Read(tokens, token, map[]), self, recipient, amount);
      if paid.None? { return Panicked(Untyped); }
      tokens := tokens[token := paid.value];
      WriteDebit(dev, token, Read(balances, (dev, token), 0) - amount,
                 DailyWithdraw(daily.day, SaturatingI128(daily.amount + amount)),
                 Withdrawal(dev, token, amount, daily.day, Read(caps, dev, 0)));
      r := Ok;
    }

    /** The balance, the daily counter and the journal entry of a withdrawal. */
    method WriteDebit(dev: Address, token: Address, left: i128, daily: DailyWithdraw, entry: Record)
      modifies this`balances, this`today, this`journal
      ensures View() == old(View()).(balances := old(balances)[(dev, token) := left],
                                     today := old(today)[dev := daily], journal := old(journal) + [entry])
    {
      balances := balances[(dev, token) := left];
      today := today[dev := daily];
      journal := journal + [entry];
    }

    /** Partial success: errors are recorded and skipped; only a panic undoes the whole batch. */
    method BatchSettle(inputs: seq<SettleInput>) returns (outcomes: seq<SettleOutcome>, panicked: Option<Error>)
      modifies this
      ensures match Settlement.BatchSettle(old(View()), inputs)
              case Settled(st, expected) => panicked.None? && outcomes == expected && View() == st
              case SettlePanic(e) => panicked == Some(e) && View() == old(View())
    {
      outcomes, panicked := [], None;
      if |inputs| > MAX_SETTLE_SIZE {
        var k := 0;
        while k < |inputs|
          invariant 0 <= k <= |inputs| && outcomes == seq(k, _ => OtherError)
        {
          outcomes := outcomes + [OtherError];
          k := k + 1;
        }
        return;
      }
      var saved, i := View(), 0;
      while i < |inputs|
        invariant 0 <= i <= |inputs| && panicked.None?
        invariant Prepend(outcomes, SettleEach(View(), inputs[i..])) == SettleEach(saved, inputs)
      {
        ghost var before, soFar := View(), outcomes;
        SettleHead(before, inputs, i);
        var r := WithdrawDeveloperBalance(inputs[i].developer, inputs[i].amount, inputs[i].to);
        if r.Panicked? {
          RollBack(saved);
          return outcomes, Some(r.error);
        }
        var outcome := if r == Ok then Success else FromError(r.error);
        outcomes := outcomes + [outcome];
        PrependTwice(soFar, [outcome], SettleEach(View(), inputs[i + 1..]));
        i := i + 1;
      }
    }

    method ProposeBalanceMigration(caller: Address, from: Address, to: Address) returns (r: Status)
      modifies this`pending, this`journal
      ensures Matches(ProposeMigration(old(View()), caller, from, to), old(View()), r, View())
    {
      if caller != admin { return Panicked(Unauthorized); }
      if from == to { return Panicked(MigrationSameAddress); }
      if to == self { return Panicked(InvalidMigrationTarget); }
      if usdc.None? { return Panicked(UsdcTokenNotConfigured); }
      var amount := Read(balances, (from, usdc.value), 0);
      if amount <= 0 { return Panicked(NoDeveloperBalance); }
      match CheckedU64(now + MIGRATION_DELAY) {
        case None => return Panicked(TimelockOverflow);
        case Some(executeAfter) =>
          pending := pending[from := PendingMigration(from, to, amount, now, executeAfter)];
          journal := journal + [Proposal(from, to, amount, now)];
      }
      r := Ok;
    }

    method ExecuteBalanceMigration(caller: Address, from: Address) returns (r: Status)
      modifies this`balances, this`index, this`pending, this`journal
      ensures Matches(ExecuteMigration(old(View()), caller, from), old(View()), r, View())
    {
      if caller != admin { return Panicked(Unauthorized); }
      if from !in pending { return Panicked(MigrationNotFound); }
      var m := pending[from];
      if now < m.executeAfter { return Panicked(TimelockNotExpired); }
      if usdc.None? { return Panicked(UsdcTokenNotConfigured); }
      r := MoveDeveloperBalance(m, from, usdc.value);
    }

    method MoveDeveloperBalance(m: PendingMigration, from: Address, token: Address) returns (r: Status)
      modifies this`balances, this`index, this`pending, this`journal
      ensures Matches(MoveBalance(old(View()), m, from, token), old(View()), r, View())
    {
      var newSource := CheckedI128(Read(balances, (from, token), 0) - m.amount);
      if newSource.None? || newSource.value < 0 { return Panicked(MigrationBalanceChanged); }
      var newTarget := CheckedI128(Read(balances, (m.to, token), 0) + m.amount);
      if newTarget.None? { return Panicked(DeveloperOverflow); }
      balances := balances[(from, token) := newSource.value];
      balances := balances[(m.to, token) := newTarget.value];
      CloseMigration(m, from, token);
      r := Ok;
    }

    /** Indexes the target and consumes the proposal. */
    method CloseMigration(m: PendingMigration, from: Address, token: Address)
      modifies this`index, this`pending, this`journal
      ensures View() == old(View()).(index := Insert(old(index), m.to), pending := old(pending) - {from},
                                     journal := old(journal) + [Migration(from, m.to, token, m.amount, now)])
    {
      index := SortedInsert(index, m.to);
      pending := pending - {from};
      journal := journal + [Migration(from, m.to, token, m.amount, now)];
    }

    method MigrateDeveloperSlot(dev: Address, token: Address) returns (r: Status)
      modifies this`balances, this`legacy
      ensures Matches(MergeSlot(old(View()), dev, token), old(View()), r, View())
    {
      if dev in legacy {
        match CheckedI128(legacy[dev] as int + Read(balances, (dev, token), 0)) {
          case None => return Panicked(DeveloperOverflow);
          case Some(merged) =>
            balances := balances[(dev, token) := merged];
            legacy := legacy - {dev};
        }
      }
      r := Ok;
    }

    method MigrateV1ToV2(caller: Address) returns (r: Status)
      modifies this
      ensures Matches(MigrateAll(old(View()), caller), old(View()), r, View())
    {
      if caller != admin { return Panicked(Unauthorized); }
      if version >= VERSION_V2 { return Ok; }
      if usdc.None? { return Panicked(UsdcTokenNotConfigured); }
      var saved, token, i := View(), usdc.value, 0;
      assert Slice(index, i, |index|) == index;
      while i < |index|
        invariant 0 <= i <= |index| && index == saved.index
        invariant MergeEach(View(), Slice(index, i, |index|), token) == MergeEach(saved, saved.index, token)
      {
        MergeHead(View(), index, i, |index|, token);
        r := MigrateDeveloperSlot(index[i], token);
        if r.Panicked? {
          RollBack(saved);
          return;
        }
        i := i + 1;
      }
      version := VERSION_V2;
      r := Ok;
    }

    /** What is left to merge of the positions from `i` up to `end`. */
    ghost function Rest(i: nat, end: nat, token: Address): Outcome
      requires end <= |index|
      reads this
    {
      MergeEach(View(), Slice(index, i, end), token)
    }

    /** One position of the walk. */
    method MigrateAt(i: nat, ghost end: nat, token: Address) returns (r: Status)
      requires i < end <= |index|
      modifies this`balances, this`legacy
      ensures if r.Panicked? then old(Rest(i, end, token)) == Panic(r.error)
              else r == Ok && Rest(i + 1, end, token) == old(Rest(i, end, token))
    {
      MergeHead(View(), index, i, end, token);
      r := MigrateDeveloperSlot(index[i], token);
    }

    /** Walks the index with a counter, merging the positions from `offset` up to `end`. */
    method MigrateSlots(offset: u32, end: nat, token: Address) returns (r: Status)
      requires end <= |index|
      modifies this`balances, this`legacy
      ensures match MergeEach(old(View()), Slice(index, offset, end), token)
              case Done(st) => r == Ok && View() == st
              case Err(e) => false
              case Panic(e) => r == Panicked(e)
    {
      var i := 0;
      while i < |index|
        invariant 0 <= i <= |index| && i <= end
        invariant i < offset ==> View() == old(View())
        invariant i >= offset ==> Rest(i, end, token) == old(Rest(offset, end, token))
      {
        if i >= end { break; }
        if i >= offset {
          r := MigrateAt(i, end, token);
          if r.Panicked? { return; }
        }
        i := i + 1;
      }
      assert Slice(index, if i < offset then offset else i, end) == [];
      r := Ok;
    }

    method MigrateV1ToV2Page(caller: Address, offset: u32, size: u32) returns (r: Status, next: u32, done: bool)
      modifies this
      ensures match MigratePage(old(View()), caller, offset, size)
              case Paged(st, n, d) => r == Ok && View() == st && next == n && done == d
              case PagePanic(e) => r == Panicked(e) && View() == old(View())
    {
      next, done := 0, false;
      if caller != admin { return Panicked(Unauthorized), next, done; }
      if version >= VERSION_V2 { return Ok, 0, true; }
      if usdc.None? { return Panicked(UsdcTokenNotConfigured), next, done; }
      var saved, total := View(), |index|;
      var effective := if size == 0 then 1 else Min(size, MAX_BATCH_SIZE);
      var end := Min(SaturatingU32(offset + effective), total);
      r := MigrateSlots(offset, end, usdc.value);
      if r.Panicked? {
        RollBack(saved);
        return;
      }
      done := end >= total;
      if done { version := VERSION_V2; }
      r, next := Ok, end;
    }

    method MigrateSingleDeveloper(caller: Address, dev: Address) returns (r: Status)
      modifies this`balances, this`legacy
      ensures Matches(MigrateSingle(old(View()), caller, dev), old(View()), r, View())
    {
      if caller != admin { return Panicked(Unauthorized); }
      if usdc.None? { return Failed(UsdcTokenNotConfigured); }
      r := MigrateDeveloperSlot(dev, usdc.value);
    }

    /** One pass over the index: skip up to the cursor, then collect until the page is full. */
    method GetDeveloperBalancesCursor(cursor: Option<Address>, limit: u32, token: Address)
        returns (page: seq<DeveloperBalance>, next: Option<Address>)
      ensures var expected := GetPage(index, cursor, limit);
              next == expected.next && page == Records(balances, expected.addresses, token)
    {
      if limit == 0 { return [], None; }
      var effective := Min(limit, MAX_PAGE_SIZE);
      ghost var start := PageStart(index, cursor, limit);
      var pastCursor, last, i := cursor.None?, None, 0;
      page := [];
      while i < |index|
        invariant 0 <= i <= |index|
        invariant pastCursor <==> cursor.None? || (cursor.value in index && start <= i)
        invariant pastCursor ==> i - start < effective && page == Records(balances, index[start..i], token)
        invariant !pastCursor ==> page == []
      {
        var address := index[i];
        if !pastCursor {
          if cursor == Some(address) { pastCursor := true; }
        } else {
          page := page + [DeveloperBalance(address, token, Read(balances, (address, token), 0))];
          last := Some(address);
          RecordsGrow(balances, index, start, i, token);
          if |page| >= effective { return page, last; }
        }
        i := i + 1;
      }
      assert pastCursor ==> index[start..i] == index[start..];
      next := None;
    }

    method SetUsdcToken(caller: Address, token: Address) returns (r: Status)
      modifies this`usdc
      ensures Matches(Settlement.SetUsdcToken(old(View()), caller, token), old(View()), r, View())
    {
      if caller != admin { return Panicked(Untyped); }
      if token == self { return Panicked(Untyped); }
      usdc := Some(token);
      r := Ok;
    }

    method SetDailyWithdrawCap(caller: Address, dev: Address, cap: i128) returns (r: Status)
      modifies this`caps
      ensures Matches(SetDailyCap(old(View()), caller, dev, cap), old(View()), r, View())
    {
      if caller != admin { return Panicked(Unauthorized); }
      caps := caps[dev := cap];
      r := Ok;
    }

    method SetDeveloperMinBalance(caller: Address, dev: Address, minimum: i128) returns (r: Status)
      modifies this`minimums
      ensures Matches(SetMinimum(old(View()), caller, dev, minimum), old(View()), r, View())
    {
      if caller != admin { return Panicked(Unauthorized); }
      if minimum < 0 { return Panicked(Untyped); }
      minimums := minimums[dev := minimum];
      r := Ok;
    }

    method SetDeveloperClaimWindow(caller: Address, dev: Address, start: u64, end: u64) returns (r: Status)
      modifies this`windows
      ensures Matches(SetClaimWindow(old(View()), caller, dev, start, end), old(View()), r, View())
    {
      if caller != admin { return Failed(Unauthorized); }
      if end < start { return Failed(InvalidClaimWindow); }
      windows := windows[dev := ClaimWindow(start, end)];
      r := Ok;
    }

    method ClearDeveloperClaimWindow(caller: Address, dev: Address) returns (r: Status)
      modifies this`windows
      ensures Matches(ClearClaimWindow(old(View()), caller, dev), old(View()), r, View())
    {
      if caller != admin { return Failed(Unauthorized); }
      windows := windows - {dev};
      r := Ok;
    }
  }

  /** The fold from position `i`: one withdrawal, then the rest. */
  lemma SettleHead(s: State, inputs: seq<SettleInput>, i: nat)
    requires i < |inputs|
    ensures var r := Withdraw(s, inputs[i].developer, inputs[i].amount, inputs[i].to);
            SettleEach(s, inputs[i..]) ==
            if r.Panic? then SettlePanic(r.error)
            else Prepend([OutcomeOf(r)], SettleEach(r.StateOr(s), inputs[i + 1..]))
  {
    assert inputs[i..][1..] == inputs[i + 1..];
  }

  lemma PrependTwice(a: seq<SettleOutcome>, b: seq<SettleOutcome>, r: Settled)
    ensures Prepend(a, Prepend(b, r)) == Prepend(a + b, r)
  {
    if r.Settled? { assert a + (b + r.outcomes) == (a + b) + r.outcomes; }
  }

  lemma MergeHead(s: State, ix: seq<Address>, i: nat, end: nat, token: Address)
    requires i < end <= |ix|
    ensures var head := MergeSlot(s, ix[i], token);
            MergeEach(s, Slice(ix, i, end), token)
            == if head.Done? then MergeEach(head.st, Slice(ix, i + 1, end), token) else head
  {
    assert Slice(ix, i, end)[1..] == Slice(ix, i + 1, end);
  }
}
