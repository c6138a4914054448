/** Time-locked balance migrations: every execution consumes the latest proposal, a day after it was made. */
module MigrationTimelock {
  import opened Base
  import opened Ledger
  import opened Settlement
  import opened Conservation
  import opened Accounts
  import opened Runs

  /** Records that replace or consume the proposal of `from`. */
  ghost predicate Touches(r: Record, from: Address) {
    (r.Proposal? || r.Migration?) && r.from == from
  }

  /** The proposal of `from` that is still open after the journal. */
  ghost function Open(j: seq<Record>, from: Address): Option<Record> {
    if j == [] then None
    else
      var r := j[|j| - 1];
      if !Touches(r, from) then Open(j[..|j| - 1], from)
      else if r.Proposal? then Some(r)
      else None
  }

  ghost predicate Tracks(s: State, from: Address) {
    match Open(s.journal, from)
    case None => from !in s.pending
    case Some(r) =>
      && r.Proposal? && from in s.pending
      && var m := s.pending[from];
         m.from == from && m.to == r.to && m.amount == r.amount
         && m.proposedAt == r.at && m.executeAfter == r.at + MIGRATION_DELAY
  }

  /** The migration at position `k` matches the open proposal of its source, at least a day old. */
  ghost predicate JustifiedAt(j: seq<Record>, k: nat)
    requires k < |j|
  {
    j[k].Migration? ==>
      match Open(j[..k], j[k].from)
      case None => false
      case Some(r) => r.Proposal? && r.to == j[k].to && r.amount == j[k].amount && r.at + MIGRATION_DELAY <= j[k].at
  }

  ghost predicate Locked(s: State) {
    && (forall from :: Tracks(s, from))
    && forall k :: 0 <= k < |s.journal| ==> JustifiedAt(s.journal, k)
  }

  ghost predicate SamePending(s: State, t: State, from: Address) {
    (from in t.pending <==> from in s.pending) && (from in s.pending ==> t.pending[from] == s.pending[from])
  }

  lemma LoggedLocked(s: State, t: State, r: Record)
    requires Locked(s) && t.journal == s.journal + [r]
    requires forall from :: !Touches(r, from) ==> SamePending(s, t, from)
    requires forall from :: Touches(r, from) ==> Tracks(t, from)
    requires r.Migration? ==>
      var o := Open(s.journal, r.from);
      o.Some? && o.value.Proposal? && o.value.to == r.to && o.value.amount == r.amount
      && o.value.at + MIGRATION_DELAY <= r.at
    ensures Locked(t)
  {
    assert t.journal[..|s.journal|] == s.journal;
    forall from ensures Tracks(t, from) { assert Tracks(s, from); }
    forall k | 0 <= k < |t.journal| ensures JustifiedAt(t.journal, k) {
      if k < |s.journal| {
        assert JustifiedAt(s.journal, k) && t.journal[..k] == s.journal[..k];
      }
    }
  }

  lemma OpenAfter(j: seq<Record>, r: Record, from: Address)
    ensures Open(j + [r], from) ==
            if !Touches(r, from) then Open(j, from) else if r.Proposal? then Some(r) else None
  {
    assert (j + [r])[..|j|] == j;
  }

  lemma ProposeLocked(s: State, caller: Address, from: Address, to: Address)
    requires Locked(s) && ProposeMigration(s, caller, from, to).Done?
    ensures Locked(ProposeMigration(s, caller, from, to).st)
  {
    var t, r := ProposeMigration(s, caller, from, to).st, Proposal(from, to, s.Balance(from, s.usdc.value), s.now);
    OpenAfter(s.journal, r, from);
    LoggedLocked(s, t, r);
  }

  lemma ExecuteLocked(s: State, caller: Address, from: Address)
    requires Locked(s) && ExecuteMigration(s, caller, from).Done?
    ensures Locked(ExecuteMigration(s, caller, from).st)
  {
    var t, m := ExecuteMigration(s, caller, from).st, s.pending[from];
    var r := Migration(from, m.to, s.usdc.value, m.amount, s.now);
    assert Tracks(s, from);
    OpenAfter(s.journal, r, from);
    LoggedLocked(s, t, r);
  }

  lemma ReceiveLocked(s: State, p: Payment)
    requires Locked(s) && ReceivePayment(s, p).Done?
    ensures Locked(ReceivePayment(s, p).st)
  {
    var t := ReceivePayment(s, p).st;
    LoggedLocked(s, t, t.journal[|s.journal|]);
  }

  lemma OtherLocked(s: State, e: Entry)
    requires Locked(s) && Enter(s, e).Done? && (e.EForce? || e.EWithdraw?)
    ensures Locked(Enter(s, e).st)
  {
    var t := Enter(s, e).st;
    LoggedLocked(s, t, t.journal[|s.journal|]);
  }

  lemma AtomLocked(s: State, a: Atom)
    requires Locked(s)
    ensures Locked(AtomStep(s, a))
  {
    if a.Entered? && Enter(s, a.e).Done? {
      if IsSetter(a.e) {
        SetterKeepsBooks(s, a.e);
        forall from ensures Tracks(AtomStep(s, a), from) { assert Tracks(s, from); }
      } else {
        match a.e {
          case EReceive(p) => ReceiveLocked(s, p);
          case EForce(_, _, _, _) => OtherLocked(s, a.e);
          case EWithdraw(_, _, _) => OtherLocked(s, a.e);
          case EPropose(caller, from, to) => ProposeLocked(s, caller, from, to);
          case EExecute(caller, from) => ExecuteLocked(s, caller, from);
        }
      }
    } else {
      if !a.Entered? { MergeKeepsRest(s, a); }
      forall from ensures Tracks(AtomStep(s, a), from) { assert Tracks(s, from); }
    }
  }

  lemma RunLocked(s: State, calls: seq<Call>)
    requires Genesis(s)
    ensures Locked(Run(s, calls))
  {
    var P := (t: State) => Locked(t);
    forall t: State, a: Atom | P(t) ensures P(AtomStep(t, a)) { AtomLocked(t, a); }
    KeptByRun(P, AnyAtom, s, calls);
  }

  lemma {:induction false} OpenWitness(j: seq<Record>, from: Address) returns (i: nat)
    requires Open(j, from).Some?
    ensures i < |j| && j[i].Proposal? && j[i].from == from && Open(j, from) == Some(j[i])
    ensures forall m :: i < m < |j| ==> !Touches(j[m], from)
    decreases |j|
  {
    if Touches(j[|j| - 1], from) { i := |j| - 1; } else { i := OpenWitness(j[..|j| - 1], from); }
  }

  /** In every run, each executed migration has a proposal `i` for the same source, target and amount,
      made at least a day before, with no other proposal or execution for that source in between:
      so no proposal is ever executed twice, and a replaced proposal is never executed. */
  lemma ExecutionMatchesProposal(s: State, calls: seq<Call>, k: nat) returns (i: nat)
    requires Genesis(s) && k < |Run(s, calls).journal| && Run(s, calls).journal[k].Migration?
    ensures var j := Run(s, calls).journal;
            && i < k && j[i].Proposal?
            && j[i].from == j[k].from && j[i].to == j[k].to && j[i].amount == j[k].amount
            && j[i].at + MIGRATION_DELAY <= j[k].at
            && forall m :: i < m < k ==> !Touches(j[m], j[k].from)
  {
    RunLocked(s, calls);
    var j := Run(s, calls).journal;
    assert JustifiedAt(j, k);
    i := OpenWitness(j[..k], j[k].from);
    assert forall m :: 0 <= m < k ==> j[..k][m] == j[m];
  }

  /** An execution moves exactly the snapshot amount, in the token configured now, and preserves every token's total. */
  lemma ExecutionMovesSnapshot(s: State, caller: Address, from: Address)
    requires ExecuteMigration(s, caller, from).Done? && s.pending[from].to != from
    ensures var t, m, usdc := ExecuteMigration(s, caller, from).st, s.pending[from], s.usdc.value;
            && (forall dev, token :: t.Balance(dev, token) == s.Balance(dev, token)
                 + if token == usdc then Delta(from, m.to, m.amount, dev) else 0)
            && (forall token :: TokenSum(t.balances, token) == TokenSum(s.balances, token))
            && from !in t.pending && ExecuteMigration(t, caller, from) == Panic(MigrationNotFound)
  {
    forall token { ExecutionKeepsTotals(s, caller, from, token); }
  }

  /** The proposal made by a call, still pending after further calls and then executed. */
  ghost predicate Executes(p: State, calls: seq<Call>, from: Address, executor: Address) {
    && from in p.pending && ExecuteMigration(Run(p, calls), executor, from).Done?
    && Run(p, calls).pending[from] == p.pending[from]
  }

  /** While the USDC token is fixed, an execution leaves the source with its V1 slot, plus what came in after the
      proposal, less what went out. So later credits all stay exactly when nothing went out in between. */
  lemma LaterCreditsStay(s: State, caller: Address, from: Address, to: Address, calls: seq<Call>, executor: Address)
    requires PendingShape(s) && ProposeMigration(s, caller, from, to).Done? && FixedRun(calls)
    requires Executes(ProposeMigration(s, caller, from, to).st, calls, from, executor)
    ensures var p := ProposeMigration(s, caller, from, to).st;
            var r, t, usdc := Run(p, calls), ExecuteMigration(Run(p, calls), executor, from).st, s.usdc.value;
            var gained := Incoming(r.journal, from, usdc) - Incoming(p.journal, from, usdc);
            var spent := Outgoing(r.journal, from, usdc) - Outgoing(p.journal, from, usdc);
            && Claim(t, from, usdc) == s.Legacy(from) + gained - spent
            && (Claim(t, from, usdc) == s.Legacy(from) + gained <==> spent == 0)
  {
    var p := ProposeMigration(s, caller, from, to).st;
    ClaimsFollowJournal(p, calls, from, s.usdc.value);
    ExecutionMovesSnapshot(Run(p, calls), executor, from);
    MovesSplit(p.journal, from, s.usdc.value);
    MovesSplit(Run(p, calls).journal, from, s.usdc.value);
  }

  /** In every run, token changes included, the approved amount leaves the source in the token it was approved in
      exactly when that token is configured at the execution. A source without a V1 slot is then left with precisely
      what came in after the proposal exactly when nothing went out; otherwise, when the approved amount went out. */
  lemma ApprovedTokenExact(s: State, caller: Address, from: Address, to: Address, calls: seq<Call>, executor: Address)
    requires PendingShape(s) && ProposeMigration(s, caller, from, to).Done?
    requires Executes(ProposeMigration(s, caller, from, to).st, calls, from, executor)
    ensures var p := ProposeMigration(s, caller, from, to).st;
            var r, t, approved := Run(p, calls), ExecuteMigration(Run(p, calls), executor, from).st, s.usdc.value;
            var amount := p.pending[from].amount;
            var gained := Incoming(r.journal, from, approved) - Incoming(p.journal, from, approved);
            var spent := Outgoing(r.journal, from, approved) - Outgoing(p.journal, from, approved);
            && (t.Balance(from, approved) == r.Balance(from, approved) - amount <==> r.usdc == Some(approved))
            && (from !in s.legacy ==>
                  && (t.Balance(from, approved) == gained - spent <==> r.usdc == Some(approved))
                  && (t.Balance(from, approved) == gained <==>
                        spent == if r.usdc == Some(approved) then 0 else amount))
  {
    var p := ProposeMigration(s, caller, from, to).st;
    if from !in s.legacy { BalancesFollowJournal(p, calls, from, s.usdc.value); }
    ExecutionMovesSnapshot(Run(p, calls), executor, from);
    MovesSplit(p.journal, from, s.usdc.value);
    MovesSplit(Run(p, calls).journal, from, s.usdc.value);
  }

  /** A matured proposal, executed by the admin in the token it was approved in, is refused as changed exactly when more
      went out of the source than came in since; what was merged from its V1 slot counts as coming in. */
  lemma SpendingRefusalExact(s: State, caller: Address, from: Address, to: Address, calls: seq<Call>)
    requires PendingShape(s) && ProposeMigration(s, caller, from, to).Done? && (FixedRun(calls) || from !in s.legacy)
    requires var p := ProposeMigration(s, caller, from, to).st;
             var r := Run(p, calls);
             && from in r.pending && r.pending[from] == p.pending[from]
             && r.now >= p.pending[from].executeAfter && r.usdc == s.usdc
    ensures var p := ProposeMigration(s, caller, from, to).st;
            var r, usdc := Run(p, calls), s.usdc.value;
            var gained := Incoming(r.journal, from, usdc) - Incoming(p.journal, from, usdc);
            var spent := Outgoing(r.journal, from, usdc) - Outgoing(p.journal, from, usdc);
            ExecuteMigration(r, r.admin, from) == Panic(MigrationBalanceChanged)
            <==> spent > gained + s.Legacy(from) - r.Legacy(from)
  {
    var p := ProposeMigration(s, caller, from, to).st;
    if from !in s.legacy {
      BalancesFollowJournal(p, calls, from, s.usdc.value);
    } else {
      ClaimsFollowJournal(p, calls, from, s.usdc.value);
    }
    MovesSplit(p.journal, from, s.usdc.value);
    MovesSplit(Run(p, calls).journal, from, s.usdc.value);
  }

  /** A contract with admin 1 and USDC token 100 that holds 10, all credited to developer 7. */
  ghost function OneDeveloper(): State {
    State(0, 1, 2, 0, map[100 := map[0 := 10]], Some(100), map[(7, 100) := 10], map[], GlobalPool(0, 0), map[], 0, [7],
          map[], map[], map[], map[], map[], VERSION_V2, [])
  }

  /** When the source holds the snapshot again, in whatever token is configured, a matured execution takes it all. */
  lemma ExecutionTakesAll(r: State, from: Address)
    requires from in r.pending && r.usdc.Some? && r.now >= r.pending[from].executeAfter && r.pending[from].to != from
    requires r.Balance(from, r.usdc.value) == r.pending[from].amount && r.Balance(r.pending[from].to, r.usdc.value) == 0
    ensures var t := ExecuteMigration(r, r.admin, from);
            && t.Done? && t.st.Balance(from, r.usdc.value) == 0
            && t.st.Balance(r.pending[from].to, r.usdc.value) == r.pending[from].amount
            && forall token :: token != r.usdc.value ==> t.st.Balance(from, token) == r.Balance(from, token)
  {
  }

  /** The proposal of 10 by developer 7, withdrawn by it while pending, and a credit of 10 later. */
  ghost function SpendingRun(): seq<Call> {
    [Single(EWithdraw(7, 10, None)), Single(EForce(1, 7, 10, 100)), Single(EAdvance(MIGRATION_DELAY))]
  }

  /** The token is reconfigured while the proposal is pending, and 10 credited in the new one. */
  ghost function TokenChangeRun(): seq<Call> {
    [Single(ESetUsdc(1, 101)), Single(EForce(1, 7, 10, 101)), Single(EAdvance(MIGRATION_DELAY))]
  }

  /** A manual credit of 10 to developer 7, and a day's wait. */
  lemma CreditThenWait(s: State, token: Address)
    requires s.admin == 1 && s.now == 0 && s.Balance(7, token) == 0
    ensures var r := Step(Step(s, Single(EForce(1, 7, 10, token))), Single(EAdvance(MIGRATION_DELAY)));
            && r.Balance(7, token) == 10
            && (forall dev: Address, other: Address :: (dev, other) != (7, token) ==>
                  r.Balance(dev, other) == s.Balance(dev, other))
            && r.pending == s.pending && r.usdc == s.usdc && r.admin == 1 && r.now == MIGRATION_DELAY
  {
  }

  lemma SpentWhilePending(p: State)
    requires p == ProposeMigration(OneDeveloper(), 1, 7, 8).StateOr(OneDeveloper())
    ensures p.pending == map[7 := PendingMigration(7, 8, 10, 0, MIGRATION_DELAY)]
    ensures var t := Step(p, Single(EWithdraw(7, 10, None)));
            && t.Balance(7, 100) == 0 && t.Balance(8, 100) == 0 && t.pending == p.pending
            && t.usdc == Some(100) && t.admin == 1 && t.now == 0
  {
    assert p.Balance(7, 100) == 10 && p.OnLedger(100) == 10;
    assert WithdrawGuard(p, 7, 10, None).Ok?;
  }

  lemma SpendingRunEnds(p: State)
    requires p == ProposeMigration(OneDeveloper(), 1, 7, 8).StateOr(OneDeveloper())
    ensures p.pending == map[7 := PendingMigration(7, 8, 10, 0, MIGRATION_DELAY)]
    ensures var r := Run(p, SpendingRun());
            && r.Balance(7, 100) == 10 && r.Balance(8, 100) == 0 && r.pending == p.pending
            && r.usdc == Some(100) && r.admin == 1 && r.now == MIGRATION_DELAY
  {
    SpentWhilePending(p);
    CreditThenWait(Step(p, Single(EWithdraw(7, 10, None))), 100);
    RunThree(p, Single(EWithdraw(7, 10, None)), Single(EForce(1, 7, 10, 100)), Single(EAdvance(MIGRATION_DELAY)));
  }

  /** The approved amount is withdrawn while the migration is pending, and the token stays as it was: the execution
      succeeds and takes the later credit. */
  lemma SpendingTakesLaterCredit()
    ensures var p := ProposeMigration(OneDeveloper(), 1, 7, 8);
            && p.Done? && FixedRun(SpendingRun()) && Executes(p.st, SpendingRun(), 7, 1)
            && var t := ExecuteMigration(Run(p.st, SpendingRun()), 1, 7).st;
               t.Balance(7, 100) == 0 && t.Balance(8, 100) == 10
  {
    var p := ProposeMigration(OneDeveloper(), 1, 7, 8).st;
    SpendingRunEnds(p);
    ExecutionTakesAll(Run(p, SpendingRun()), 7);
  }

  lemma TokenChangeRunEnds(p: State)
    requires p == ProposeMigration(OneDeveloper(), 1, 7, 8).StateOr(OneDeveloper())
    ensures p.pending == map[7 := PendingMigration(7, 8, 10, 0, MIGRATION_DELAY)]
    ensures var r := Run(p, TokenChangeRun());
            && r.Balance(7, 101) == 10 && r.Balance(8, 101) == 0 && r.Balance(7, 100) == 10
            && r.pending == p.pending && r.usdc == Some(101) && r.admin == 1 && r.now == MIGRATION_DELAY
  {
    CreditThenWait(Step(p, Single(ESetUsdc(1, 101))), 101);
    RunThree(p, Single(ESetUsdc(1, 101)), Single(EForce(1, 7, 10, 101)), Single(EAdvance(MIGRATION_DELAY)));
  }

  /** The token is reconfigured while a migration is pending: the later credit leaves, and the approved amount stays. */
  lemma TokenChangeTakesLaterCredit()
    ensures var p := ProposeMigration(OneDeveloper(), 1, 7, 8);
            && p.Done? && Executes(p.st, TokenChangeRun(), 7, 1)
            && var r, t := Run(p.st, TokenChangeRun()), ExecuteMigration(Run(p.st, TokenChangeRun()), 1, 7).st;
               r.Balance(7, 101) == 10 && t.Balance(7, 101) == 0 && t.Balance(7, 100) == 10
  {
    var p := ProposeMigration(OneDeveloper(), 1, 7, 8).st;
    TokenChangeRunEnds(p);
    ExecutionTakesAll(Run(p, TokenChangeRun()), 7);
  }
}
