/** Each developer's account: what the journal says moved is exactly what the balance gained or lost. */
module Accounts {
  import opened Base
  import opened Ledger
  import opened Settlement
  import opened Conservation
  import opened Runs

  /** What a record adds to a developer's account in a token: a credit, or a balance migrated to it. */
  ghost function InOf(r: Record, dev: Address, token: Address): int {
    match r
    case Credit(d, t, amount, _) => if d == dev && t == token then amount else 0
    case Migration(_, to, t, amount, _) => if to == dev && t == token then amount else 0
    case _ => 0
  }

  /** What it takes from the account: a withdrawal, or a balance migrated away. */
  ghost function OutOf(r: Record, dev: Address, token: Address): int {
    match r
    case Withdrawal(d, t, amount, _, _) => if d == dev && t == token then amount else 0
    case Migration(from, _, t, amount, _) => if from == dev && t == token then amount else 0
    case _ => 0
  }

  ghost function Incoming(j: seq<Record>, dev: Address, token: Address): int {
    if j == [] then 0 else Incoming(j[..|j| - 1], dev, token) + InOf(j[|j| - 1], dev, token)
  }

  ghost function Outgoing(j: seq<Record>, dev: Address, token: Address): int {
    if j == [] then 0 else Outgoing(j[..|j| - 1], dev, token) + OutOf(j[|j| - 1], dev, token)
  }

  ghost function Move(r: Record, dev: Address, token: Address): int {
    InOf(r, dev, token) - OutOf(r, dev, token)
  }

  /** Credits, minus withdrawals, plus and minus balance migrations. */
  ghost function Moves(j: seq<Record>, dev: Address, token: Address): int {
    if j == [] then 0 else Moves(j[..|j| - 1], dev, token) + Move(j[|j| - 1], dev, token)
  }

  lemma {:induction false} MovesSplit(j: seq<Record>, dev: Address, token: Address)
    ensures Moves(j, dev, token) == Incoming(j, dev, token) - Outgoing(j, dev, token)
  {
    if j != [] { MovesSplit(j[..|j| - 1], dev, token); }
  }

  /** A developer's claim in a token: the V2 balance, and the V1 slot when it is to be merged into that token. */
  ghost function Claim(s: State, dev: Address, token: Address): int {
    s.Balance(dev, token) + if s.usdc == Some(token) then s.Legacy(dev) else 0
  }

  /** The part of a claim that the journal does not explain. */
  ghost function Opening(s: State, dev: Address, token: Address): int {
    Claim(s, dev, token) - Moves(s.journal, dev, token)
  }

  ghost predicate SameOpening(s: State, t: State) {
    && PendingShape(t) && t.usdc == s.usdc && t.legacy.Keys <= s.legacy.Keys
    && forall dev, token :: Opening(t, dev, token) == Opening(s, dev, token)
  }

  lemma LoggedMoves(s: State, r: Record)
    ensures forall dev, token ::
      Moves(s.Log(r).journal, dev, token) == Moves(s.journal, dev, token) + Move(r, dev, token)
  {
    assert s.Log(r).journal[..|s.journal|] == s.journal;
  }

  lemma CreditOpening(s: State, dev: Address, token: Address, amount: i128, seqno: Option<u32>)
    requires PendingShape(s) && AddCredit(s, dev, token, amount, seqno).Done?
    ensures SameOpening(s, AddCredit(s, dev, token, amount, seqno).st)
  {
    LoggedMoves(s, Credit(dev, token, amount, seqno));
  }

  lemma ReceiveOpening(s: State, p: Payment)
    requires PendingShape(s) && ReceivePayment(s, p).Done?
    ensures SameOpening(s, ReceivePayment(s, p).st)
  {
    if p.toPool {
      LoggedMoves(s, PoolCredit(p.amount, p.seqno));
    } else {
      CreditOpening(CheckDeveloper(s, p.developer.value, p.seqno).st, p.developer.value, p.token, p.amount, Some(p.seqno));
    }
  }

  lemma WithdrawOpening(s: State, dev: Address, amount: i128, to: Option<Address>)
    requires PendingShape(s) && Withdraw(s, dev, amount, to).Done?
    ensures SameOpening(s, Withdraw(s, dev, amount, to).st)
  {
    var t := Withdraw(s, dev, amount, to).st;
    assert t.pending == s.pending && t.usdc == s.usdc && t.legacy == s.legacy;
    assert t.balances == s.balances[(dev, s.usdc.value) := s.Balance(dev, s.usdc.value) - amount];
    LoggedMoves(s, t.journal[|s.journal|]);
  }

  lemma ProposeOpening(s: State, caller: Address, from: Address, to: Address)
    requires PendingShape(s) && ProposeMigration(s, caller, from, to).Done?
    ensures SameOpening(s, ProposeMigration(s, caller, from, to).st)
  {
    LoggedMoves(s, Proposal(from, to, s.Balance(from, s.usdc.value), s.now));
  }

  lemma ExecuteOpening(s: State, caller: Address, from: Address)
    requires PendingShape(s) && ExecuteMigration(s, caller, from).Done?
    ensures SameOpening(s, ExecuteMigration(s, caller, from).st)
  {
    var m := s.pending[from];
    LoggedMoves(s, Migration(from, m.to, s.usdc.value, m.amount, s.now));
  }

  lemma MergeClaim(s: State, dev: Address, who: Address, token: Address)
    requires s.usdc.Some? && MergeSlot(s, dev, s.usdc.value).Done?
    ensures Claim(MergeSlot(s, dev, s.usdc.value).st, who, token) == Claim(s, who, token)
  {
  }

  lemma MergeOpening(s: State, dev: Address)
    requires PendingShape(s) && s.usdc.Some? && MergeSlot(s, dev, s.usdc.value).Done?
    ensures SameOpening(s, MergeSlot(s, dev, s.usdc.value).st)
  {
    var t := MergeSlot(s, dev, s.usdc.value).st;
    assert t == s.(balances := t.balances, legacy := s.legacy - if dev in s.legacy then {dev} else {});
    forall who, token ensures Opening(t, who, token) == Opening(s, who, token) { MergeClaim(s, dev, who, token); }
  }

  lemma AtomOpening(s: State, a: Atom)
    requires PendingShape(s) && FixedAtom(a)
    ensures SameOpening(s, AtomStep(s, a))
  {
    match a {
      case Merged(dev) =>
        if s.usdc.Some? && MergeSlot(s, dev, s.usdc.value).Done? { MergeOpening(s, dev); }
      case Completed =>
      case Entered(e) =>
        if Enter(s, e).Done? {
          if IsSetter(e) {
            SetterKeepsBooks(s, e);
          } else {
            match e {
              case EReceive(p) => ReceiveOpening(s, p);
              case EForce(_, dev, amount, token) => CreditOpening(s, dev, token, amount, None);
              case EWithdraw(dev, amount, to) => WithdrawOpening(s, dev, amount, to);
              case EPropose(caller, from, to) => ProposeOpening(s, caller, from, to);
              case EExecute(caller, from) => ExecuteOpening(s, caller, from);
            }
          }
        }
    }
  }

  /** While the USDC token is fixed, every developer's claim in every token changes by exactly its journalled moves,
      whatever storage migrations run meanwhile. */
  lemma ClaimsFollowJournal(s: State, calls: seq<Call>, dev: Address, token: Address)
    requires PendingShape(s) && FixedRun(calls)
    ensures var t := Run(s, calls);
            && SameOpening(s, t)
            && Claim(t, dev, token) == Claim(s, dev, token) + Moves(t.journal, dev, token) - Moves(s.journal, dev, token)
  {
    var P := (t: State) => SameOpening(s, t);
    forall t: State, a: Atom | P(t) && FixedAtom(a) ensures P(AtomStep(t, a)) { AtomOpening(t, a); }
    KeptByRun(P, FixedAtom, s, calls);
    assert Opening(Run(s, calls), dev, token) == Opening(s, dev, token);
  }

  /** A developer without a V1 slot, and the part of its balance that the journal does not explain. */
  ghost predicate SameStart(s: State, t: State, dev: Address, token: Address) {
    && PendingShape(t) && dev !in t.legacy
    && t.Balance(dev, token) - Moves(t.journal, dev, token) == s.Balance(dev, token) - Moves(s.journal, dev, token)
  }

  lemma AtomStart(s: State, a: Atom, dev: Address, token: Address)
    requires PendingShape(s) && dev !in s.legacy
    ensures SameStart(s, AtomStep(s, a), dev, token)
  {
    var t := AtomStep(s, a);
    if FixedAtom(a) {
      AtomOpening(s, a);
      assert Opening(t, dev, token) == Opening(s, dev, token);
      assert dev !in t.legacy.Keys;
    } else if Enter(s, a.e).Done? {
      SetterKeepsBooks(s, a.e);
    }
  }

  /** Without a V1 slot, a developer's balance in every token follows the journal in every run, however often the USDC
      token is reconfigured. */
  lemma BalancesFollowJournal(s: State, calls: seq<Call>, dev: Address, token: Address)
    requires PendingShape(s) && dev !in s.legacy
    ensures var t := Run(s, calls);
            && dev !in t.legacy
            && t.Balance(dev, token) == s.Balance(dev, token) + Moves(t.journal, dev, token) - Moves(s.journal, dev, token)
  {
    var P := (t: State) => SameStart(s, t, dev, token);
    forall t: State, a: Atom | P(t) ensures P(AtomStep(t, a)) { AtomStart(t, a, dev, token); }
    KeptByRun(P, AnyAtom, s, calls);
  }

  // ------------------------------------------------------- over all tokens

  /** The sum of a developer's balances in all tokens. */
  ghost function Owned(m: map<(Address, Address), i128>, dev: Address): int {
    Sum(map k | k in m && k.0 == dev :: m[k])
  }

  lemma OwnedUpdate(m: map<(Address, Address), i128>, k: (Address, Address), v: i128, dev: Address)
    ensures Owned(m[k := v], dev) == Owned(m, dev) + if k.0 == dev then v - Read(m, k, 0) else 0
  {
    var part := map i | i in m && i.0 == dev :: m[i];
    var after := map i | i in m[k := v] && i.0 == dev :: m[k := v][i];
    if k.0 == dev {
      assert after == part[k := v];
      SumUpdate(part, k, v);
    } else {
      assert after == part;
    }
  }

  /** Everything a developer has: the V1 slot and its balances in all tokens. */
  ghost function Wealth(s: State, dev: Address): int {
    s.Legacy(dev) + Owned(s.balances, dev)
  }

  ghost function NetOf(r: Record, dev: Address): int {
    match r
    case Credit(d, _, amount, _) => if d == dev then amount else 0
    case Withdrawal(d, _, amount, _, _) => if d == dev then 0 - amount else 0
    case Migration(from, to, _, amount, _) => (if to == dev then amount else 0) - (if from == dev then amount else 0)
    case _ => 0
  }

  /** A developer's credits, withdrawals and balance migrations in all tokens. */
  ghost function Net(j: seq<Record>, dev: Address): int {
    if j == [] then 0 else Net(j[..|j| - 1], dev) + NetOf(j[|j| - 1], dev)
  }

  ghost predicate SameWealth(s: State, t: State, dev: Address) {
    Wealth(t, dev) - Net(t.journal, dev) == Wealth(s, dev) - Net(s.journal, dev)
  }

  lemma LoggedNet(s: State, r: Record, dev: Address)
    ensures Net(s.Log(r).journal, dev) == Net(s.journal, dev) + NetOf(r, dev)
  {
    assert s.Log(r).journal[..|s.journal|] == s.journal;
  }

  /** A step that logs `r` and moves a developer's balances by as much. */
  lemma LoggedWealth(s: State, t: State, r: Record, dev: Address)
    requires t.legacy == s.legacy && t.journal == s.journal + [r]
    requires Owned(t.balances, dev) == Owned(s.balances, dev) + NetOf(r, dev)
    ensures SameWealth(s, t, dev)
  {
    LoggedNet(s, r, dev);
    assert t.journal == s.Log(r).journal;
  }

  lemma CreditWealth(s: State, who: Address, token: Address, amount: i128, seqno: Option<u32>, dev: Address)
    requires AddCredit(s, who, token, amount, seqno).Done?
    ensures SameWealth(s, AddCredit(s, who, token, amount, seqno).st, dev)
  {
    OwnedUpdate(s.balances, (who, token), s.Balance(who, token) + amount, dev);
    LoggedWealth(s, AddCredit(s, who, token, amount, seqno).st, Credit(who, token, amount, seqno), dev);
  }

  lemma ReceiveWealth(s: State, p: Payment, dev: Address)
    requires ReceivePayment(s, p).Done?
    ensures SameWealth(s, ReceivePayment(s, p).st, dev)
  {
    if p.toPool {
      LoggedWealth(s, ReceivePayment(s, p).st, PoolCredit(p.amount, p.seqno), dev);
    } else {
      var s1 := CheckDeveloper(s, p.developer.value, p.seqno).st;
      CreditWealth(s1, p.developer.value, p.token, p.amount, Some(p.seqno), dev);
    }
  }

  lemma WithdrawWealth(s: State, who: Address, amount: i128, to: Option<Address>, dev: Address)
    requires Withdraw(s, who, amount, to).Done?
    ensures SameWealth(s, Withdraw(s, who, amount, to).st, dev)
  {
    var t, u := Withdraw(s, who, amount, to).st, s.usdc.value;
    assert t.balances == s.balances[(who, u) := s.Balance(who, u) - amount];
    OwnedUpdate(s.balances, (who, u), s.Balance(who, u) - amount, dev);
    LoggedWealth(s, t, Withdrawal(who, u, amount, s.now / SECONDS_PER_DAY, Read(s.caps, who, 0)), dev);
  }

  lemma ExecuteWealth(s: State, caller: Address, from: Address, dev: Address)
    requires PendingShape(s) && ExecuteMigration(s, caller, from).Done?
    ensures SameWealth(s, ExecuteMigration(s, caller, from).st, dev)
  {
    var t, m, u := ExecuteMigration(s, caller, from).st, s.pending[from], s.usdc.value;
    var debited := s.balances[(from, u) := s.Balance(from, u) - m.amount];
    assert t.balances == debited[(m.to, u) := s.Balance(m.to, u) + m.amount];
    assert Read(debited, (m.to, u), 0) == s.Balance(m.to, u);
    OwnedUpdate(s.balances, (from, u), s.Balance(from, u) - m.amount, dev);
    OwnedUpdate(debited, (m.to, u), s.Balance(m.to, u) + m.amount, dev);
    LoggedWealth(s, t, Migration(from, m.to, u, m.amount, s.now), dev);
  }

  lemma EntryWealth(s: State, e: Entry, dev: Address)
    requires PendingShape(s) && Enter(s, e).Done?
    ensures SameWealth(s, Enter(s, e).st, dev)
  {
    if IsSetter(e) {
      SetterKeepsBooks(s, e);
    } else {
      match e {
        case EReceive(p) => ReceiveWealth(s, p, dev);
        case EForce(_, who, amount, token) => CreditWealth(s, who, token, amount, None, dev);
        case EWithdraw(who, amount, to) => WithdrawWealth(s, who, amount, to, dev);
        case EPropose(caller, from, to) =>
          LoggedWealth(s, Enter(s, e).st, Proposal(from, to, s.Balance(from, s.usdc.value), s.now), dev);
        case EExecute(caller, from) => ExecuteWealth(s, caller, from, dev);
      }
    }
  }

  lemma MergeWealth(s: State, who: Address, dev: Address)
    requires s.usdc.Some? && MergeSlot(s, who, s.usdc.value).Done?
    ensures SameWealth(s, MergeSlot(s, who, s.usdc.value).st, dev)
  {
    if who in s.legacy {
      OwnedUpdate(s.balances, (who, s.usdc.value), s.legacy[who] + s.Balance(who, s.usdc.value), dev);
    }
  }

  lemma AtomPending(s: State, a: Atom)
    requires PendingShape(s)
    ensures PendingShape(AtomStep(s, a))
  {
    if FixedAtom(a) { AtomOpening(s, a); } else if Enter(s, a.e).Done? { SetterKeepsBooks(s, a.e); }
  }

  lemma AtomWealth(s: State, a: Atom, dev: Address)
    requires PendingShape(s)
    ensures SameWealth(s, AtomStep(s, a), dev)
  {
    match a {
      case Merged(who) =>
        if s.usdc.Some? && MergeSlot(s, who, s.usdc.value).Done? { MergeWealth(s, who, dev); }
      case Completed =>
      case Entered(e) => if Enter(s, e).Done? { EntryWealth(s, e, dev); }
    }
  }

  /** In every run, however often the USDC token is reconfigured, a developer's V1 slot and balances in all tokens
      together change by exactly its journalled credits, withdrawals and migrations. */
  lemma WealthFollowsJournal(s: State, calls: seq<Call>, dev: Address)
    requires PendingShape(s)
    ensures var t := Run(s, calls); Wealth(t, dev) == Wealth(s, dev) + Net(t.journal, dev) - Net(s.journal, dev)
  {
    var P := (t: State) => PendingShape(t) && SameWealth(s, t, dev);
    forall t: State, a: Atom | P(t) ensures P(AtomStep(t, a)) { AtomPending(t, a); AtomWealth(t, a, dev); }
    KeptByRun(P, AnyAtom, s, calls);
  }
}
