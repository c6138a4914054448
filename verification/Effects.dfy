/**
 What every settlement call does to the storage it touches, and when it is refused.

 Everything here is said with the storage fields, the call's own arguments and literal constants, never with
 the functions that compute the result, so it does not depend on how the entrypoints are written.
 */
module Effects {
  import opened Base
  import opened Ledger
  import opened Settlement
  import opened Acceptance
  import opened BatchCredit
  import opened Runs

  /** A stored balance, and a stored V1 slot; absent entries count as 0. */
  ghost function Bal(s: State, dev: Address, token: Address): int {
    if (dev, token) in s.balances then s.balances[(dev, token)] else 0
  }

  ghost function V1(s: State, dev: Address): int {
    if dev in s.legacy then s.legacy[dev] else 0
  }

  // ---------------------------------------------------------------- credits

  /** `amount` is added to one balance and to no other. */
  ghost predicate Adds(s: State, t: State, dev: Address, token: Address, amount: int) {
    forall d: Address, u: Address ::
      Bal(t, d, u) == Bal(s, d, u) + if d == dev && u == token then amount else 0
  }

  /** One mark becomes `seqno`, and no other changes. */
  ghost predicate Marked(s: State, t: State, dev: Address, seqno: u32) {
    forall d: Address :: Read(t.marks, d, 0) == if d == dev then seqno else Read(s.marks, d, 0)
  }

  /** A credit touches balances, marks, the index and the journal only. */
  ghost predicate CreditFrame(s: State, t: State) {
    t == s.(balances := t.balances, marks := t.marks, index := t.index, journal := t.journal)
  }

  lemma AddCreditEffect(s: State, dev: Address, token: Address, amount: i128, seqno: Option<u32>)
    requires AddCredit(s, dev, token, amount, seqno).Done?
    ensures var t := AddCredit(s, dev, token, amount, seqno).st;
            && Adds(s, t, dev, token, amount) && t.marks == s.marks && CreditFrame(s, t)
            && t.journal == s.journal + [Credit(dev, token, amount, seqno)]
  {
  }

  /** An accepted payment to a developer adds exactly its amount to the developer's balance in the payment's token,
      and to nothing else, raises that developer's mark to its sequence number, and is journalled once. */
  lemma DeveloperPaymentEffect(s: State, p: Payment)
    requires ReceivePayment(s, p).Done? && !p.toPool
    ensures var t := ReceivePayment(s, p).st;
            && p.developer.Some?
            && Adds(s, t, p.developer.value, p.token, p.amount) && Marked(s, t, p.developer.value, p.seqno)
            && CreditFrame(s, t)
            && t.journal == s.journal + [Credit(p.developer.value, p.token, p.amount, Some(p.seqno))]
  {
    var dev := p.developer.value;
    AddCreditEffect(CheckDeveloper(s, dev, p.seqno).st, dev, p.token, p.amount, Some(p.seqno));
  }

  /** An accepted payment to the pool adds exactly its amount there, and raises the pool's mark. */
  lemma PoolPaymentEffect(s: State, p: Payment)
    requires ReceivePayment(s, p).Done? && p.toPool
    ensures ReceivePayment(s, p).st ==
            s.(pool := GlobalPool(s.pool.total + p.amount, s.now), poolMark := p.seqno,
               journal := s.journal + [PoolCredit(p.amount, p.seqno)])
  {
  }

  /** A manual credit is accepted exactly from the admin, for a positive amount that fits; it adds that amount and
      touches no mark. */
  lemma ForceCreditEffect(s: State, caller: Address, dev: Address, amount: i128, token: Address)
    ensures var r := ForceCredit(s, caller, dev, amount, token);
            && !r.Err?
            && (r.Done? <==> caller == s.admin && amount > 0 && Bal(s, dev, token) + amount <= I128_MAX)
            && (r.Done? ==>
                  && Adds(s, r.st, dev, token, amount) && r.st.marks == s.marks && CreditFrame(s, r.st)
                  && r.st.journal == s.journal + [Credit(dev, token, amount, None)])
  {
    if ForceCredit(s, caller, dev, amount, token).Done? { AddCreditEffect(s, dev, token, amount, None); }
  }

  /** What a batch brings one developer. */
  ghost function ItemSum(items: Items, dev: Address): int {
    if items == [] then 0 else (if items[0].0 == dev then items[0].1 else 0) + ItemSum(items[1..], dev)
  }

  ghost predicate Listed(items: Items, dev: Address) {
    exists i :: 0 <= i < |items| && items[i].0 == dev
  }

  /** The journal entries of a batch, in order. */
  ghost function ItemRecords(items: Items, token: Address, seqno: u32): seq<Record> {
    if items == [] then []
    else [Credit(items[0].0, token, items[0].1, Some(seqno))] + ItemRecords(items[1..], token, seqno)
  }

  ghost predicate BatchBooked(s: State, t: State, items: Items, token: Address, seqno: u32) {
    && (forall d: Address, u: Address ::
          Bal(t, d, u) == Bal(s, d, u) + if u == token then ItemSum(items, d) else 0)
    && (forall d: Address :: Read(t.marks, d, 0) == if Listed(items, d) then seqno else Read(s.marks, d, 0))
    && CreditFrame(s, t)
    && t.journal == s.journal + ItemRecords(items, token, seqno)
  }

  lemma {:induction false} EachBooked(s: State, caller: Address, items: Items, token: Address, seqno: u32)
    requires ReceiveEach(s, caller, items, token, seqno).Done?
    ensures BatchBooked(s, ReceiveEach(s, caller, items, token, seqno).st, items, token, seqno)
    decreases |items|
  {
    if items != [] {
      var p := ItemPayment(caller, items[0], token, seqno);
      var s1 := ReceivePayment(s, p).st;
      DeveloperPaymentEffect(s, p);
      EachBooked(s1, caller, items[1..], token, seqno);
      BookedHead(s, s1, ReceiveEach(s1, caller, items[1..], token, seqno).st, items, token, seqno);
    } else {
      assert ReceiveEach(s, caller, items, token, seqno).st == s;
      assert s.journal + ItemRecords(items, token, seqno) == s.journal;
      forall d: Address ensures !Listed(items, d) { }
    }
  }

  lemma BookedHead(s: State, s1: State, t: State, items: Items, token: Address, seqno: u32)
    requires items != [] && BatchBooked(s1, t, items[1..], token, seqno)
    requires Adds(s, s1, items[0].0, token, items[0].1) && Marked(s, s1, items[0].0, seqno) && CreditFrame(s, s1)
    requires s1.journal == s.journal + [Credit(items[0].0, token, items[0].1, Some(seqno))]
    ensures BatchBooked(s, t, items, token, seqno)
  {
    forall d: Address ensures Listed(items, d) <==> d == items[0].0 || Listed(items[1..], d) {
      if Listed(items[1..], d) {
        var i :| 0 <= i < |items| - 1 && items[1..][i].0 == d;
        assert items[i + 1].0 == d;
      }
      if Listed(items, d) && d != items[0].0 {
        var i :| 0 <= i < |items| && items[i].0 == d;
        assert items[1..][i - 1].0 == d;
      }
    }
  }

  /** An accepted batch adds to each developer exactly what its items bring, in the batch's token, raises exactly the
      marks of the developers it names, leaves the pool alone, and journals one credit per item in order. */
  lemma BatchEffect(s: State, caller: Address, items: Items, token: Address, seqno: u32)
    requires ReceiveBatch(s, caller, items, token, seqno).Done?
    ensures BatchBooked(s, ReceiveBatch(s, caller, items, token, seqno).st, items, token, seqno)
  {
    BatchIsSequence(s, caller, items, token, seqno);
    EachBooked(s, caller, items, token, seqno);
  }

  // ------------------------------------------------------------ withdrawals

  /** The first check a withdrawal fails, in the order of the checks; None when all pass. A positive minimum comes
      before the balance, a positive cap before the contract's own holding. */
  ghost function Refusal(s: State, dev: Address, amount: int, recipient: Address): Option<Error> {
    if amount <= 0 then Some(AmountNotPositive)
    else if recipient == s.self then Some(Untyped)
    else if !InWindow(s, dev) then Some(ClaimWindowClosed)
    else if s.usdc.None? then Some(UsdcTokenNotConfigured)
    else
      var left, minimum := Bal(s, dev, s.usdc.value) - amount, Read(s.minimums, dev, 0);
      var cap := Read(s.caps, dev, 0);
      if left < I128_MIN then Some(InsufficientDeveloperBalance)
      else if minimum > 0 && left < minimum then Some(MinBalanceViolation)
      else if left < 0 then Some(InsufficientDeveloperBalance)
      else if cap > 0 && Counted(s, dev) + amount > cap then Some(DailyWithdrawCapExceeded)
      else if Held(Read(s.tokens, s.usdc.value, map[]), s.self) < amount then Some(InsufficientContractBalance)
      else None
  }

  lemma GuardIsRefusal(s: State, dev: Address, amount: i128, to: Option<Address>)
    ensures WithdrawGuard(s, dev, amount, to) ==
            match Refusal(s, dev, amount, if to.Some? then to.value else dev)
            case None => Ok
            case Some(e) => if e == Untyped then Panicked(Untyped) else Failed(e)
  {
    assert SpentToday(s, dev) == Counted(s, dev);
    assert WindowOpen(s, dev) == InWindow(s, dev);
  }

  /** Exactly what every withdrawal is answered. Only the contract as recipient, and a recipient that cannot take the
      amount, panic; everything else is a returned error, which a batch survives. */
  lemma WithdrawVerdict(s: State, dev: Address, amount: i128, to: Option<Address>)
    ensures var r, recipient := Withdraw(s, dev, amount, to), if to.Some? then to.value else dev;
            match Refusal(s, dev, amount, recipient)
            case Some(e) => r == if e == Untyped then Panic(Untyped) else Err(e)
            case None => if Held(Read(s.tokens, s.usdc.value, map[]), recipient) + amount <= I128_MAX then r.Done?
                         else r == Panic(Untyped)
  {
    GuardIsRefusal(s, dev, amount, to);
  }

  /** A withdrawal that passes the amount and recipient checks is refused for its claim window exactly when the
      developer has one and the current time lies before its start or after its end. */
  lemma WindowRefusalExact(s: State, dev: Address, amount: i128, to: Option<Address>)
    ensures Withdraw(s, dev, amount, to) == Err(ClaimWindowClosed) <==>
            && amount > 0 && (if to.Some? then to.value else dev) != s.self
            && dev in s.windows && (s.now < s.windows[dev].startTs || s.now > s.windows[dev].endTs)
  {
    GuardIsRefusal(s, dev, amount, to);
  }

  /** A transfer of `amount` from the contract, seen by every holder of the token. */
  ghost predicate PaidFrom(s: State, t: State, token: Address, recipient: Address, amount: int) {
    && (forall u :: u != token ==> (u in t.tokens <==> u in s.tokens) && (u in s.tokens ==> t.tokens[u] == s.tokens[u]))
    && forall who :: Held(Read(t.tokens, token, map[]), who) == Held(Read(s.tokens, token, map[]), who)
         + (if who == recipient then amount else 0) - (if who == s.self then amount else 0)
  }

  /** An accepted withdrawal pays the recipient from the contract, takes the amount from the developer's balance in
      the USDC token and from nothing else, counts it against the current day, and is journalled with that day and
      cap. */
  lemma WithdrawEffect(s: State, dev: Address, amount: i128, to: Option<Address>)
    requires Withdraw(s, dev, amount, to).Done?
    ensures var t := Withdraw(s, dev, amount, to).st;
            && s.usdc.Some? && Adds(s, t, dev, s.usdc.value, -amount)
            && PaidFrom(s, t, s.usdc.value, if to.Some? then to.value else dev, amount)
            && t == s.(tokens := t.tokens, balances := t.balances, today := t.today, journal := t.journal)
            && t.today == s.today[dev := DailyWithdraw(s.now / 86400, Min(Counted(s, dev) + amount, I128_MAX))]
            && t.journal == s.journal
                 + [Withdrawal(dev, s.usdc.value, amount, s.now / 86400, Read(s.caps, dev, 0))]
  {
    GuardIsRefusal(s, dev, amount, to);
    assert Counted(s, dev) == SpentToday(s, dev);
    PayOutEffect(s, dev, amount, to.GetOr(dev));
  }

  lemma PayOutEffect(s: State, dev: Address, amount: i128, recipient: Address)
    requires s.usdc.Some? && 0 < amount <= s.Balance(dev, s.usdc.value) && PayOut(s, dev, amount, recipient).Done?
    ensures var t := PayOut(s, dev, amount, recipient).st;
            && Adds(s, t, dev, s.usdc.value, -amount) && PaidFrom(s, t, s.usdc.value, recipient, amount)
  {
    var t, token := PayOut(s, dev, amount, recipient).st, s.usdc.value;
    TransferFacts(Read(s.tokens, token, map[]), s.self, recipient, amount);
    assert t.tokens == s.tokens[token := Transfer(Read(s.tokens, token, map[]), s.self, recipient, amount).value];
  }

  /** How a batch reports one entry that does not panic. */
  lemma OutcomeExact(s: State, i: SettleInput)
    requires !WithdrawInput(s, i).Panic?
    ensures var why := Refusal(s, i.developer, i.amount, if i.to.Some? then i.to.value else i.developer);
            var o := OutcomeOf(WithdrawInput(s, i));
            && (o == Success <==> why == None)
            && (o == NotPositive <==> i.amount <= 0)
            && (o == WindowClosed <==> why == Some(ClaimWindowClosed))
            && (o == InsufficientBalance <==> why == Some(InsufficientDeveloperBalance))
            && (o == CapExceeded <==> why == Some(DailyWithdrawCapExceeded))
            && o != BalanceUnderflow
            && (o == OtherError <==> why == Some(UsdcTokenNotConfigured) || why == Some(MinBalanceViolation)
                                     || why == Some(InsufficientContractBalance))
  {
    WithdrawVerdict(s, i.developer, i.amount, i.to);
  }

  // ------------------------------------------------------ claim windows

  predicate KeepsWindow(a: Atom, dev: Address) {
    !(a.Entered? && (a.e.ESetWindow? || a.e.EClearWindow?) && a.e.dev == dev)
  }

  ghost predicate WindowUntouched(calls: seq<Call>, dev: Address) {
    forall i :: 0 <= i < |calls| ==>
      !(calls[i].Single? && (calls[i].e.ESetWindow? || calls[i].e.EClearWindow?) && calls[i].e.dev == dev)
  }

  ghost predicate SameWindow(s: State, t: State, dev: Address) {
    && t.self == s.self && (dev in t.windows <==> dev in s.windows)
    && (dev in s.windows ==> t.windows[dev] == s.windows[dev])
  }

  lemma AtomKeepsWindow(s: State, a: Atom, dev: Address)
    requires KeepsWindow(a, dev)
    ensures SameWindow(s, AtomStep(s, a), dev)
  {
    if !a.Entered? { MergeKeepsRest(s, a); } else if Enter(s, a.e).Done? { EntryKeepsWindow(s, a.e, dev); }
  }

  lemma EntryKeepsWindow(s: State, e: Entry, dev: Address)
    requires KeepsWindow(Entered(e), dev) && Enter(s, e).Done?
    ensures SameWindow(s, Enter(s, e).st, dev)
  {
    if IsSetter(e) {
      SetterKeepsBooks(s, e);
    } else if e.EReceive? {
      if e.p.toPool { PoolPaymentEffect(s, e.p); } else { DeveloperPaymentEffect(s, e.p); }
    } else if e.EWithdraw? {
      WithdrawEffect(s, e.dev, e.amount, e.to);
    }
  }

  lemma WindowKept(s: State, calls: seq<Call>, dev: Address)
    requires WindowUntouched(calls, dev)
    ensures SameWindow(s, Run(s, calls), dev)
  {
    var P := (t: State) => SameWindow(s, t, dev);
    var allowed := (a: Atom) => KeepsWindow(a, dev);
    forall t: State, a: Atom | P(t) && allowed(a) ensures P(AtomStep(t, a)) { AtomKeepsWindow(t, a, dev); }
    KeptByRun(P, allowed, s, calls);
  }

  /** After an accepted setting of a window, and until the next change of it, a withdrawal is refused for the window
      exactly at the times outside it, both ends being inside; after a clearing, never. */
  lemma WindowHoldsOverRuns(s: State, caller: Address, dev: Address, start: u64, end: u64, later: seq<Call>,
                            amount: i128, to: Option<Address>)
    requires WindowUntouched(later, dev)
    ensures var limited := SetClaimWindow(s, caller, dev, start, end);
            && (limited.Done? <==> caller == s.admin && start <= end)
            && (limited.Done? ==>
                  var r := Run(limited.st, later);
                  Withdraw(r, dev, amount, to) == Err(ClaimWindowClosed) <==>
                  amount > 0 && (if to.Some? then to.value else dev) != s.self && !(start <= r.now <= end))
    ensures var clear := ClearClaimWindow(s, caller, dev);
            && (clear.Done? <==> caller == s.admin)
            && (clear.Done? ==> Withdraw(Run(clear.st, later), dev, amount, to) != Err(ClaimWindowClosed))
  {
    if caller == s.admin {
      var clear := ClearClaimWindow(s, caller, dev).st;
      WindowKept(clear, later, dev);
      WindowRefusalExact(Run(clear, later), dev, amount, to);
      if start <= end {
        var limited := SetClaimWindow(s, caller, dev, start, end).st;
        WindowKept(limited, later, dev);
        WindowRefusalExact(Run(limited, later), dev, amount, to);
      }
    }
  }

  // -------------------------------------------------- balance migrations

  /** A proposal is accepted exactly from the admin, for another developer than the source and not the contract,
      with the token configured, something to move, and a deadline that fits. It stores the source's balance of now,
      and a deadline one day after the ledger time of now. */
  lemma ProposalEffect(s: State, caller: Address, from: Address, to: Address)
    ensures var r := ProposeMigration(s, caller, from, to);
            && !r.Err?
            && (r.Done? <==>
                  && caller == s.admin && from != to && to != s.self && s.usdc.Some?
                  && Bal(s, from, s.usdc.value) > 0 && s.now + 86400 <= U64_MAX)
            && (r.Done? ==>
                  var amount := Bal(s, from, s.usdc.value);
                  r.st == s.(pending := s.pending[from := PendingMigration(from, to, amount, s.now, s.now + 86400)],
                             journal := s.journal + [Proposal(from, to, amount, s.now)]))
  {
  }

  /** An accepted execution happens no earlier than the stored deadline; it moves the stored amount between the two
      balances in the configured token, consumes the proposal, and is journalled with the current time. */
  lemma ExecutionEffect(s: State, caller: Address, from: Address)
    requires ExecuteMigration(s, caller, from).Done?
    ensures var t, m, u := ExecuteMigration(s, caller, from).st, s.pending[from], s.usdc.value;
            var moved: int := m.amount;
            && caller == s.admin && s.now >= m.executeAfter
            && (m.to != from ==> forall d: Address, v: Address ::
                  Bal(t, d, v) == Bal(s, d, v)
                    + if v != u then 0 else if d == from then -moved else if d == m.to then moved else 0)
            && t == s.(balances := t.balances, index := t.index, pending := s.pending - {from}, journal := t.journal)
            && t.journal == s.journal + [Migration(from, m.to, u, m.amount, s.now)]
  {
  }

  /** Nobody executes a proposal in less than a day after the state in which it was made, whatever runs in between. */
  lemma ExecutionWaitsADay(s: State, caller: Address, from: Address, to: Address, calls: seq<Call>, executor: Address)
    requires ProposeMigration(s, caller, from, to).Done?
    ensures var p := ProposeMigration(s, caller, from, to).st;
            var r := Run(p, calls);
            ExecuteMigration(r, executor, from).Done? && r.pending[from] == p.pending[from] ==> r.now >= s.now + 86400
  {
    ProposalEffect(s, caller, from, to);
  }

  // ---------------------------------------------------- storage migration

  /** What merging a list of developers does: their V1 slots become part of their balances in `token`. */
  ghost predicate Merges(s: State, t: State, devs: seq<Address>, token: Address) {
    && (forall d :: d in t.legacy <==> d in s.legacy && d !in devs)
    && (forall d :: d in t.legacy ==> t.legacy[d] == s.legacy[d])
    && (forall d: Address, u: Address ::
          Bal(t, d, u) == Bal(s, d, u)
            + if u == token && d in devs then V1(s, d) else 0)
    && t == s.(balances := t.balances, legacy := t.legacy)
  }

  /** The V1 slot of a developer fits on top of its balance in `token`. */
  ghost predicate CanMerge(s: State, dev: Address, token: Address) {
    dev in s.legacy ==> FitsI128(V1(s, dev) + Bal(s, dev, token))
  }

  lemma MergeSlotEffect(s: State, dev: Address, token: Address)
    ensures var r := MergeSlot(s, dev, token);
            (r.Done? <==> CanMerge(s, dev, token)) && (r.Done? ==> Merges(s, r.st, [dev], token)) && !r.Err?
  {
    var r := MergeSlot(s, dev, token);
    if r.Done? && dev in s.legacy {
      var t := r.st;
      assert t == s.(balances := s.balances[(dev, token) := s.legacy[dev] + s.Balance(dev, token)],
                     legacy := s.legacy - {dev});
      forall d: Address, u: Address
        ensures Bal(t, d, u) == Bal(s, d, u) + if u == token && d in [dev] then V1(s, d) else 0
      {
      }
    }
  }

  lemma {:induction false} MergeEachEffect(s: State, devs: seq<Address>, token: Address)
    ensures var r := MergeEach(s, devs, token);
            && !r.Err?
            && (r.Done? <==> forall d :: d in devs ==> CanMerge(s, d, token))
            && (r.Done? ==> Merges(s, r.st, devs, token))
    decreases |devs|
  {
    if devs != [] {
      var head := MergeSlot(s, devs[0], token);
      MergeSlotEffect(s, devs[0], token);
      assert forall d :: d in devs <==> d == devs[0] || d in devs[1..];
      if head.Done? {
        MergeEachEffect(head.st, devs[1..], token);
        forall d ensures d in devs[1..] ==> (CanMerge(head.st, d, token) <==> d == devs[0] || CanMerge(s, d, token)) {
          assert Bal(head.st, d, token) ==
                 Bal(s, d, token) + if d in [devs[0]] then V1(s, d) else 0;
        }
        var rest := MergeEach(head.st, devs[1..], token);
        if rest.Done? { MergesTwice(s, head.st, rest.st, devs, token); }
      }
    }
  }

  lemma MergesTwice(s: State, mid: State, t: State, devs: seq<Address>, token: Address)
    requires devs != [] && Merges(s, mid, [devs[0]], token) && Merges(mid, t, devs[1..], token)
    ensures Merges(s, t, devs, token)
  {
    assert forall d :: d in devs <==> d in [devs[0]] || d in devs[1..];
  }

  /** The one-shot migration is open to the admin, once, with the token configured and every slot of the index
      fitting; it merges exactly the indexed developers and ends at version 2. */
  lemma OneShotEffect(s: State, caller: Address)
    ensures var r := MigrateAll(s, caller);
            && !r.Err?
            && (r.Done? <==>
                  && caller == s.admin
                  && (s.version < 2 ==> s.usdc.Some? && forall d :: d in s.index ==> CanMerge(s, d, s.usdc.value)))
            && (r.Done? && s.version >= 2 ==> r.st == s)
            && (r.Done? && s.version < 2 ==>
                  r.st.version == 2 && Merges(s, r.st.(version := s.version), s.index, s.usdc.value))
  {
    if s.usdc.Some? { MergeEachEffect(s, s.index, s.usdc.value); }
  }

  /** The index positions from `from` up to `end`. */
  ghost function Positions(ix: seq<Address>, from: int, end: nat): seq<Address>
    requires 0 <= from && end <= |ix|
  {
    if from <= end then ix[from..end] else []
  }

  /** Where a page stops: after `size` positions, 0 counting as 1 and more than 50 as 50, or at the end of the
      index. */
  ghost function PageStop(offset: u32, size: u32, total: nat): int {
    var stop := offset + if size == 0 then 1 else if size > 50 then 50 else size;
    var reached := if stop > 0xffff_ffff then 0xffff_ffff else stop;
    if reached > total then total else reached
  }

  /** A page is open like the one-shot form, for the slots it covers; it merges exactly the developers at its
      positions, reports where it stopped, and closes the migration exactly at the end of the index. */
  lemma PageEffect(s: State, caller: Address, offset: u32, size: u32)
    ensures var r, stop := MigratePage(s, caller, offset, size), PageStop(offset, size, |s.index|);
            && (r.Paged? <==>
                  && caller == s.admin
                  && (s.version < 2 ==>
                        && s.usdc.Some?
                        && forall d :: d in Positions(s.index, offset, stop) ==> CanMerge(s, d, s.usdc.value)))
            && (r.Paged? && s.version >= 2 ==> r == Paged(s, 0, true))
            && (r.Paged? && s.version < 2 ==>
                  && r.next == stop && (r.done <==> stop == |s.index|)
                  && r.st.version == (if r.done then 2 else s.version)
                  && Merges(s, r.st.(version := s.version), Positions(s.index, offset, stop), s.usdc.value))
  {
    if s.usdc.Some? { MergeEachEffect(s, Positions(s.index, offset, PageStop(offset, size, |s.index|)), s.usdc.value); }
  }

  /** A single migration is open to the admin and merges exactly that developer; only the missing token is a returned
      error. */
  lemma SingleEffect(s: State, caller: Address, dev: Address)
    ensures var r := MigrateSingle(s, caller, dev);
            && (r.Err? <==> caller == s.admin && s.usdc.None?)
            && (r.Done? <==> caller == s.admin && s.usdc.Some? && CanMerge(s, dev, s.usdc.value))
            && (r.Done? ==> Merges(s, r.st, [dev], s.usdc.value))
  {
    if s.usdc.Some? { MergeSlotEffect(s, dev, s.usdc.value); }
  }

  // ----------------------------------------------------- roles and setters

  /** Whoever the contract lets in: the vault or the admin for payments, the admin for everything else that names a
      caller. */
  ghost predicate LetIn(s: State, c: Call) {
    match c
    case Single(EReceive(p)) => p.caller == s.vault || p.caller == s.admin
    case Batch(caller, _, _, _) => caller == s.vault || caller == s.admin
    case Single(EForce(caller, _, _, _)) => caller == s.admin
    case Single(EPropose(caller, _, _)) => caller == s.admin
    case Single(EExecute(caller, _)) => caller == s.admin
    case Single(ESetUsdc(caller, _)) => caller == s.admin
    case Single(ESetCap(caller, _, _)) => caller == s.admin
    case Single(ESetMinimum(caller, _, _)) => caller == s.admin
    case Single(ESetWindow(caller, _, _, _)) => caller == s.admin
    case Single(EClearWindow(caller, _)) => caller == s.admin
    case MigrateDeveloper(caller, _) => caller == s.admin
    case MigrateEveryone(caller) => caller == s.admin
    case MigrateSlice(caller, _, _) => caller == s.admin
    case _ => true
  }

  /** A call by anyone else changes nothing at all. */
  lemma OutsidersChangeNothing(s: State, c: Call)
    requires !LetIn(s, c)
    ensures Step(s, c) == s
  {
  }

  /** The admin's settings take effect exactly as given, and only there. */
  lemma SettingsEffect(s: State, dev: Address, amount: i128, token: Address)
    ensures SetDailyCap(s, s.admin, dev, amount) == Done(s.(caps := s.caps[dev := amount]))
    ensures SetMinimum(s, s.admin, dev, amount) ==
            if amount < 0 then Panic(Untyped) else Done(s.(minimums := s.minimums[dev := amount]))
    ensures SetUsdcToken(s, s.admin, token) ==
            if token == s.self then Panic(Untyped) else Done(s.(usdc := Some(token)))
  {
  }

  /** Other parties' transfers go through exactly when the payer is not the contract, holds the amount, and the
      payee can take it; ledger time takes any value that is not in the past. */
  lemma SurroundingsEffect(s: State, token: Address, from: Address, to: Address, amount: i128, time: u64)
    ensures var r, l := ForeignTransfer(s, token, from, to, amount), Read(s.tokens, token, map[]);
            && (r.Done? <==>
                  && from != s.self && 0 <= amount <= Held(l, from)
                  && (if to == from then Held(l, to) else Held(l, to) + amount) <= I128_MAX)
            && (r.Done? ==>
                  && r.st == s.(tokens := s.tokens[token := Read(r.st.tokens, token, map[])])
                  && forall who :: Held(Read(r.st.tokens, token, map[]), who) == Held(l, who)
                       + (if who == to then amount else 0) - (if who == from then amount else 0))
    ensures Advance(s, time) == if time >= s.now then Done(s.(now := time)) else Panic(Untyped)
  {
    if ForeignTransfer(s, token, from, to, amount).Done? {
      TransferFacts(Read(s.tokens, token, map[]), from, to, amount);
    }
  }
}
