/**
 The journal against the calls: what a run has journalled is what its accepted calls say, stamped with the
 ledger time at which each was made. So everything proved about the journal is proved about the calls.
 */
module History {
  import opened Base
  import opened Settlement
  import opened Conservation
  import opened Effects
  import opened MigrationTimelock
  import opened Runs
  import opened Settling
  import opened BatchCredit

  /** What one entrypoint has to journal when it is accepted in `s`. */
  ghost function EntryRecords(s: State, e: Entry): seq<Record>
    requires Enter(s, e).Done?
  {
    match e
    case EReceive(p) =>
      if p.toPool then [PoolCredit(p.amount, p.seqno)]
      else if p.developer.Some? then [Credit(p.developer.value, p.token, p.amount, Some(p.seqno))]
      else []
    case EForce(_, dev, amount, token) => [Credit(dev, token, amount, None)]
    case EWithdraw(dev, amount, _) =>
      if s.usdc.Some? then [Withdrawal(dev, s.usdc.value, amount, s.now / 86400, Read(s.caps, dev, 0))] else []
    case EPropose(_, from, to) =>
      if s.usdc.Some? then [Proposal(from, to, Read(s.balances, (from, s.usdc.value), 0), s.now)] else []
    case EExecute(_, from) =>
      if from in s.pending && s.usdc.Some? then
        [Migration(from, s.pending[from].to, s.usdc.value, s.pending[from].amount, s.now)]
      else []
    case _ => []
  }

  /** The records of a batch of withdrawals, each tried in the state its predecessors left. */
  ghost function SettleRecords(s: State, inputs: seq<SettleInput>): seq<Record>
    decreases |inputs|
  {
    if inputs == [] then []
    else
      var e := EWithdraw(inputs[0].developer, inputs[0].amount, inputs[0].to);
      (if Enter(s, e).Done? then EntryRecords(s, e) else []) + SettleRecords(Enter(s, e).StateOr(s), inputs[1..])
  }

  /** What one call has to journal. */
  ghost function CallRecords(s: State, c: Call): seq<Record> {
    match c
    case Single(e) => if Enter(s, e).Done? then EntryRecords(s, e) else []
    case Batch(caller, items, token, seqno) =>
      if ReceiveBatch(s, caller, items, token, seqno).Done? then ItemRecords(items, token, seqno) else []
    case Settle(inputs) => if BatchSettle(s, inputs).Settled? && |inputs| <= 64 then SettleRecords(s, inputs) else []
    case _ => []
  }

  ghost function RunRecords(s: State, calls: seq<Call>): seq<Record>
    decreases |calls|
  {
    if calls == [] then [] else CallRecords(s, calls[0]) + RunRecords(Step(s, calls[0]), calls[1..])
  }

  lemma EntryLogs(s: State, e: Entry)
    requires Enter(s, e).Done?
    ensures Enter(s, e).st.journal == s.journal + EntryRecords(s, e)
  {
    if IsSetter(e) {
      SetterKeepsBooks(s, e);
    } else {
      match e {
        case EReceive(p) => if p.toPool { PoolPaymentEffect(s, p); } else { DeveloperPaymentEffect(s, p); }
        case EForce(caller, dev, amount, token) => ForceCreditEffect(s, caller, dev, amount, token);
        case EWithdraw(dev, amount, to) => WithdrawEffect(s, dev, amount, to);
        case EPropose(caller, from, to) => ProposalEffect(s, caller, from, to);
        case EExecute(caller, from) => ExecutionEffect(s, caller, from);
      }
    }
  }

  /** The first withdrawal of a batch: what it leaves and what it has to journal. */
  lemma SettleHead(s: State, inputs: seq<SettleInput>)
    requires inputs != [] && SettleEach(s, inputs).Settled?
    ensures var e := EWithdraw(inputs[0].developer, inputs[0].amount, inputs[0].to);
            var s1, head := Enter(s, e).StateOr(s), if Enter(s, e).Done? then EntryRecords(s, e) else [];
            && SettleEach(s1, inputs[1..]).Settled? && SettleEach(s, inputs).st == SettleEach(s1, inputs[1..]).st
            && s1.journal == s.journal + head
            && SettleRecords(s, inputs) == head + SettleRecords(s1, inputs[1..])
  {
    var e := EWithdraw(inputs[0].developer, inputs[0].amount, inputs[0].to);
    if Enter(s, e).Done? { EntryLogs(s, e); } else { assert s.journal + [] == s.journal; }
  }

  lemma {:induction false} SettleLogs(s: State, inputs: seq<SettleInput>)
    requires SettleEach(s, inputs).Settled?
    ensures SettleEach(s, inputs).st.journal == s.journal + SettleRecords(s, inputs)
    decreases |inputs|
  {
    if inputs == [] {
      assert s.journal + SettleRecords(s, inputs) == s.journal;
    } else {
      var e := EWithdraw(inputs[0].developer, inputs[0].amount, inputs[0].to);
      var s1 := Enter(s, e).StateOr(s);
      SettleHead(s, inputs);
      SettleLogs(s1, inputs[1..]);
      ConcatThree(s.journal, if Enter(s, e).Done? then EntryRecords(s, e) else [], SettleRecords(s1, inputs[1..]));
    }
  }

  /** Storage migrations journal nothing. */
  lemma MigrationsLogNothing(s: State, c: Call)
    requires c.MigrateDeveloper? || c.MigrateEveryone? || c.MigrateSlice?
    ensures Step(s, c).journal == s.journal
  {
    match c {
      case MigrateDeveloper(caller, dev) => SingleEffect(s, caller, dev);
      case MigrateEveryone(caller) => OneShotEffect(s, caller);
      case MigrateSlice(caller, offset, size) => PageEffect(s, caller, offset, size);
    }
  }

  lemma StepLogs(s: State, c: Call)
    ensures Step(s, c).journal == s.journal + CallRecords(s, c)
  {
    assert s.journal + [] == s.journal;
    match c {
      case Single(e) => if Enter(s, e).Done? { EntryLogs(s, e); }
      case Batch(caller, items, token, seqno) =>
        if ReceiveBatch(s, caller, items, token, seqno).Done? { BatchEffect(s, caller, items, token, seqno); }
      case Settle(inputs) =>
        if |inputs| <= 64 && BatchSettle(s, inputs).Settled? {
          SettleLogs(s, inputs);
        } else if |inputs| > 64 {
          OversizedBatch(s, inputs);
        }
      case _ => MigrationsLogNothing(s, c);
    }
  }

  /** The journal of a run is exactly what its accepted calls say, in order. */
  lemma {:induction false} RunLogs(s: State, calls: seq<Call>)
    ensures Run(s, calls).journal == s.journal + RunRecords(s, calls)
    decreases |calls|
  {
    if calls == [] {
      assert s.journal + RunRecords(s, calls) == s.journal;
    } else {
      StepLogs(s, calls[0]);
      RunLogs(Step(s, calls[0]), calls[1..]);
      ConcatThree(s.journal, CallRecords(s, calls[0]), RunRecords(Step(s, calls[0]), calls[1..]));
    }
  }

  // ---------------------------------------------------------- time stamps

  /** A record made in `s` bears the ledger time, or the epoch day, of `s`, and the cap then in force. */
  ghost predicate Stamped(s: State, r: Record) {
    && (r.Proposal? || r.Migration? ==> r.at == s.now)
    && (r.Withdrawal? ==> r.day == s.now / 86400 && r.cap == Read(s.caps, r.dev, 0))
  }

  lemma {:induction false} BatchStamped(s: State, items: Items, token: Address, seqno: u32)
    ensures forall r :: r in ItemRecords(items, token, seqno) ==> r.Credit?
  {
    if items != [] { BatchStamped(s, items[1..], token, seqno); }
  }

  lemma {:induction false} SettleStamped(s: State, inputs: seq<SettleInput>)
    ensures forall r :: r in SettleRecords(s, inputs) ==> Stamped(s, r)
    decreases |inputs|
  {
    if inputs != [] {
      var e := EWithdraw(inputs[0].developer, inputs[0].amount, inputs[0].to);
      var s1 := Enter(s, e).StateOr(s);
      if Enter(s, e).Done? { WithdrawEffect(s, inputs[0].developer, inputs[0].amount, inputs[0].to); }
      SettleStamped(s1, inputs[1..]);
      forall r | r in SettleRecords(s1, inputs[1..]) ensures Stamped(s, r) { assert Stamped(s1, r); }
    }
  }

  lemma CallStamped(s: State, c: Call)
    ensures forall r :: r in CallRecords(s, c) ==> Stamped(s, r)
  {
    match c {
      case Batch(_, items, token, seqno) => BatchStamped(s, items, token, seqno);
      case Settle(inputs) => SettleStamped(s, inputs);
      case _ =>
    }
  }

  /** The first call of a run writes the first stretch of what the run adds to the journal. */
  lemma FirstStretch(s: State, calls: seq<Call>)
    requires calls != []
    ensures var s1 := Step(s, calls[0]);
            && s1.journal == s.journal + CallRecords(s, calls[0])
            && Run(s, calls).journal == Run(s1, calls[1..]).journal == s1.journal + RunRecords(s1, calls[1..])
  {
    StepLogs(s, calls[0]);
    RunLogs(Step(s, calls[0]), calls[1..]);
  }

  /** Call `m` of the run made the record, which bears the time of the state it was made in. */
  ghost predicate MadeBy(s: State, calls: seq<Call>, m: nat, r: Record) {
    && m < |calls|
    && r in CallRecords(Run(s, calls[..m]), calls[m]) && Stamped(Run(s, calls[..m]), r)
  }

  lemma MadeByTail(s: State, calls: seq<Call>, m: nat, r: Record)
    requires calls != [] && MadeBy(Step(s, calls[0]), calls[1..], m, r)
    ensures MadeBy(s, calls, m + 1, r)
  {
    assert calls[..m + 1][1..] == calls[1..][..m] && calls[..m + 1][0] == calls[0];
    assert Run(s, calls[..m + 1]) == Run(Step(s, calls[0]), calls[1..][..m]);
  }

  lemma MadeByHead(s: State, calls: seq<Call>, k: nat)
    requires calls != [] && |s.journal| <= k < |Step(s, calls[0]).journal|
    ensures MadeBy(s, calls, 0, Step(s, calls[0]).journal[k])
  {
    FirstStretch(s, calls);
    assert Step(s, calls[0]).journal[k] == CallRecords(s, calls[0])[k - |s.journal|];
    assert calls[..0] == [];
    CallStamped(s, calls[0]);
  }

  /** Every record that a run journals was made by one of its calls. */
  lemma {:induction false} RecordsStamped(s: State, calls: seq<Call>, k: nat) returns (m: nat)
    requires |s.journal| <= k < |Run(s, calls).journal|
    ensures MadeBy(s, calls, m, Run(s, calls).journal[k])
    decreases |calls|
  {
    assert calls != [];
    FirstStretch(s, calls);
    var s1 := Step(s, calls[0]);
    if k < |s1.journal| {
      m := 0;
      MadeByHead(s, calls, k);
    } else {
      var rest := RecordsStamped(s1, calls[1..], k);
      m := rest + 1;
      MadeByTail(s, calls, rest, Run(s1, calls[1..]).journal[k]);
    }
  }

  /** In every run from a fresh journal: whatever is executed was proposed, for the same source, target and amount,
      by a call made when the ledger clock was at least a day earlier. */
  lemma ExecutedADayAfter(s: State, calls: seq<Call>, k: nat) returns (i: nat, proposing: nat, executing: nat)
    requires Genesis(s) && k < |Run(s, calls).journal| && Run(s, calls).journal[k].Migration?
    ensures proposing < |calls| && executing < |calls| && i < k
    ensures var j := Run(s, calls).journal;
            && j[i].Proposal? && j[i].from == j[k].from && j[i].to == j[k].to && j[i].amount == j[k].amount
            && j[i] in CallRecords(Run(s, calls[..proposing]), calls[proposing])
            && j[k] in CallRecords(Run(s, calls[..executing]), calls[executing])
    ensures Run(s, calls[..executing]).now >= Run(s, calls[..proposing]).now + 86400
  {
    i := ExecutionMatchesProposal(s, calls, k);
    proposing := RecordsStamped(s, calls, i);
    executing := RecordsStamped(s, calls, k);
  }

  // ---------------------------------------------------------------- money

  ghost function ItemTotal(items: Items): int {
    if items == [] then 0 else items[0].1 + ItemTotal(items[1..])
  }

  /** What an accepted call brings in. */
  ghost function BroughtBy(s: State, c: Call): int {
    match c
    case Single(EReceive(p)) => if ReceivePayment(s, p).Done? then p.amount else 0
    case Single(EForce(caller, dev, amount, token)) =>
      if ForceCredit(s, caller, dev, amount, token).Done? then amount else 0
    case Batch(caller, items, token, seqno) =>
      if ReceiveBatch(s, caller, items, token, seqno).Done? then ItemTotal(items) else 0
    case _ => 0
  }

  /** What an accepted call pays out. */
  ghost function PaidBy(s: State, c: Call): int {
    match c
    case Single(EWithdraw(dev, amount, to)) => if Withdraw(s, dev, amount, to).Done? then amount else 0
    case Settle(inputs) =>
      var r := BatchSettle(s, inputs);
      if r.Settled? && |r.outcomes| == |inputs| then Paid(inputs, r.outcomes) else 0
    case _ => 0
  }

  ghost function Brought(s: State, calls: seq<Call>): int
    decreases |calls|
  {
    if calls == [] then 0 else BroughtBy(s, calls[0]) + Brought(Step(s, calls[0]), calls[1..])
  }

  ghost function PaidOver(s: State, calls: seq<Call>): int
    decreases |calls|
  {
    if calls == [] then 0 else PaidBy(s, calls[0]) + PaidOver(Step(s, calls[0]), calls[1..])
  }

  lemma {:induction false} CreditedConcat(a: seq<Record>, b: seq<Record>)
    ensures Credited(a + b) == Credited(a) + Credited(b)
    ensures Withdrawn(a + b) == Withdrawn(a) + Withdrawn(b)
    decreases |b|
  {
    if b == [] {
      assert a + b == a;
    } else {
      assert (a + b)[..|a + b| - 1] == a + b[..|b| - 1];
      CreditedConcat(a, b[..|b| - 1]);
    }
  }

  lemma OneRecord(r: Record)
    ensures Credited([r]) == CreditOf(r) && Withdrawn([r]) == WithdrawalOf(r)
  {
    assert [r][..0] == [];
  }

  lemma {:induction false} ItemsCredited(items: Items, token: Address, seqno: u32)
    ensures Credited(ItemRecords(items, token, seqno)) == ItemTotal(items)
    ensures Withdrawn(ItemRecords(items, token, seqno)) == 0
  {
    if items != [] {
      var head := Credit(items[0].0, token, items[0].1, Some(seqno));
      OneRecord(head);
      CreditedConcat([head], ItemRecords(items[1..], token, seqno));
      ItemsCredited(items[1..], token, seqno);
    }
  }

  lemma {:induction false} SettleWithdrawn(s: State, inputs: seq<SettleInput>)
    requires SettleEach(s, inputs).Settled?
    ensures var r := SettleEach(s, inputs);
            && |r.outcomes| == |inputs|
            && Withdrawn(SettleRecords(s, inputs)) == Paid(inputs, r.outcomes)
            && Credited(SettleRecords(s, inputs)) == 0
    decreases |inputs|
  {
    if inputs != [] {
      var i := inputs[0];
      var e := EWithdraw(i.developer, i.amount, i.to);
      var s1 := Enter(s, e).StateOr(s);
      var head := if Enter(s, e).Done? then EntryRecords(s, e) else [];
      SettleWithdrawn(s1, inputs[1..]);
      OutcomeExact(s, i);
      WithdrawVerdict(s, i.developer, i.amount, i.to);
      if Enter(s, e).Done? { OneRecord(head[0]); }
      CreditedConcat(head, SettleRecords(s1, inputs[1..]));
      var rest := SettleEach(s1, inputs[1..]);
      assert SettleEach(s, inputs).outcomes == [OutcomeOf(WithdrawInput(s, i))] + rest.outcomes;
      assert ([OutcomeOf(WithdrawInput(s, i))] + rest.outcomes)[1..] == rest.outcomes;
    }
  }

  /** A single withdrawal is journalled as withdrawn, a payment as credited, each with its whole amount. */
  lemma CallCredited(s: State, c: Call)
    ensures Credited(CallRecords(s, c)) == BroughtBy(s, c) && Withdrawn(CallRecords(s, c)) == PaidBy(s, c)
  {
    match c {
      case Single(e) =>
        if Enter(s, e).Done? {
          EntryLogs(s, e);
          if e.EReceive? && !e.p.toPool { DeveloperPaymentEffect(s, e.p); }
          if e.EWithdraw? { WithdrawEffect(s, e.dev, e.amount, e.to); }
          if EntryRecords(s, e) != [] { OneRecord(EntryRecords(s, e)[0]); }
        }
      case Batch(_, items, token, seqno) => ItemsCredited(items, token, seqno);
      case Settle(inputs) =>
        if |inputs| <= 64 {
          if SettleEach(s, inputs).Settled? { SettleWithdrawn(s, inputs); }
        } else {
          OversizedBatch(s, inputs);
          NothingPaid(inputs, BatchSettle(s, inputs).outcomes);
        }
      case _ =>
    }
  }

  lemma {:induction false} RunCredited(s: State, calls: seq<Call>)
    ensures Credited(RunRecords(s, calls)) == Brought(s, calls) && Withdrawn(RunRecords(s, calls)) == PaidOver(s, calls)
    decreases |calls|
  {
    if calls != [] {
      CallCredited(s, calls[0]);
      RunCredited(Step(s, calls[0]), calls[1..]);
      CreditedConcat(CallRecords(s, calls[0]), RunRecords(Step(s, calls[0]), calls[1..]));
    }
  }

  /** Conservation without the journal: over every run the holdings grow by exactly the amounts of the accepted
      payments, batch items and manual credits, and shrink by exactly the amounts of the successful withdrawals. */
  lemma HoldingsFollowCalls(s: State, calls: seq<Call>)
    requires Sound(s)
    ensures Holdings(Run(s, calls)) == Holdings(s) + Brought(s, calls) - PaidOver(s, calls)
  {
    var t := Run(s, calls);
    var P := (t: State) => Sound(t) && Equity(t) == Equity(s);
    forall t: State, a: Atom | P(t) ensures P(AtomStep(t, a)) { AtomSound(t, a); }
    KeptByRun(P, AnyAtom, s, calls);
    RunLogs(s, calls);
    CreditedConcat(s.journal, RunRecords(s, calls));
    RunCredited(s, calls);
  }
}
