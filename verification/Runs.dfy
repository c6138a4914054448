/** Whole runs: every call is a sequence of small steps, so a property kept by each small step is kept by every run. */
module Runs {
  import opened Base
  import opened Settlement
  import opened BatchCredit

  /** The small steps: an entrypoint, the merge of one legacy slot, the end of the storage migration. */
  datatype Atom = Entered(e: Entry) | Merged(dev: Address) | Completed

  function AtomStep(s: State, a: Atom): State {
    match a
    case Entered(e) => Enter(s, e).StateOr(s)
    case Merged(dev) => if s.usdc.None? then s else MergeSlot(s, dev, s.usdc.value).StateOr(s)
    case Completed => s.(version := VERSION_V2)
  }

  function RunAtoms(s: State, atoms: seq<Atom>): State
    decreases |atoms|
  {
    if atoms == [] then s else RunAtoms(AtomStep(s, atoms[0]), atoms[1..])
  }

  /** The small steps that a call can consist of. */
  predicate Uses(c: Call, a: Atom) {
    match c
    case Single(e) => a == Entered(e)
    case Batch(_, _, _, _) => a.Entered? && a.e.EReceive?
    case Settle(_) => a.Entered? && a.e.EWithdraw?
    case MigrateDeveloper(_, dev) => a == Merged(dev)
    case MigrateEveryone(_) => !a.Entered?
    case MigrateSlice(_, _, _) => !a.Entered?
  }

  ghost predicate AllUsed(c: Call, atoms: seq<Atom>) {
    forall i :: 0 <= i < |atoms| ==> Uses(c, atoms[i])
  }

  ghost predicate AllMerges(atoms: seq<Atom>) {
    forall i :: 0 <= i < |atoms| ==> atoms[i].Merged?
  }

  predicate AnyAtom(a: Atom) {
    true
  }

  /** Steps that leave the USDC token as it is configured. */
  predicate FixedAtom(a: Atom) {
    !(a.Entered? && a.e.ESetUsdc?)
  }

  /** No call reconfigures the USDC token. */
  ghost predicate FixedRun(calls: seq<Call>) {
    forall i :: 0 <= i < |calls| ==> !(calls[i].Single? && calls[i].e.ESetUsdc?)
  }

  /** Entrypoints that only configure the contract or move the surrounding ledger. */
  predicate IsSetter(e: Entry) {
    e.ESetUsdc? || e.ESetCap? || e.ESetMinimum? || e.ESetWindow? || e.EClearWindow? || e.ETransfer? || e.EAdvance?
  }

  /** The parts of the state that only payments, withdrawals and migrations write. */
  ghost predicate SameBooks(s: State, t: State) {
    && t.self == s.self && t.admin == s.admin && t.vault == s.vault
    && t.balances == s.balances && t.legacy == s.legacy && t.pool == s.pool && t.index == s.index
    && t.marks == s.marks && t.poolMark == s.poolMark && t.today == s.today
    && t.pending == s.pending && t.version == s.version && t.journal == s.journal
    && t.now >= s.now
  }

  lemma SetterKeepsBooks(s: State, e: Entry)
    requires IsSetter(e) && Enter(s, e).Done?
    ensures SameBooks(s, Enter(s, e).st)
    ensures !e.ESetUsdc? ==> Enter(s, e).st.usdc == s.usdc
  {
  }

  /** Merging a slot, or closing the storage migration, touches balances, legacy slots and the version only. */
  lemma MergeKeepsRest(s: State, a: Atom)
    requires !a.Entered?
    ensures var t := AtomStep(s, a); t == s.(balances := t.balances, legacy := t.legacy, version := t.version)
  {
    if a.Merged? && s.usdc.Some? && MergeSlot(s, a.dev, s.usdc.value).Done? {
    } else if a.Merged? {
      assert AtomStep(s, a) == s;
    }
  }

  lemma {:induction false} RunAtomsConcat(s: State, a: seq<Atom>, b: seq<Atom>)
    ensures RunAtoms(s, a + b) == RunAtoms(RunAtoms(s, a), b)
    decreases |a|
  {
    if a == [] {
      assert a + b == b;
    } else {
      assert (a + b)[1..] == a[1..] + b;
      RunAtomsConcat(AtomStep(s, a[0]), a[1..], b);
    }
  }

  lemma {:induction false} PaymentAtoms(s: State, caller: Address, items: Items, token: Address, seqno: u32)
      returns (atoms: seq<Atom>)
    requires ReceiveEach(s, caller, items, token, seqno).Done?
    ensures forall i :: 0 <= i < |atoms| ==> atoms[i].Entered? && atoms[i].e.EReceive?
    ensures RunAtoms(s, atoms) == ReceiveEach(s, caller, items, token, seqno).st
    decreases |items|
  {
    atoms := [];
    if items != [] {
      var p := ItemPayment(caller, items[0], token, seqno);
      var rest := PaymentAtoms(ReceivePayment(s, p).st, caller, items[1..], token, seqno);
      atoms := [Entered(EReceive(p))] + rest;
      assert AtomStep(s, atoms[0]) == ReceivePayment(s, p).st && atoms[1..] == rest;
    }
  }

  lemma {:induction false} SettleAtoms(s: State, inputs: seq<SettleInput>) returns (atoms: seq<Atom>)
    requires SettleEach(s, inputs).Settled?
    ensures forall i :: 0 <= i < |atoms| ==> atoms[i].Entered? && atoms[i].e.EWithdraw?
    ensures RunAtoms(s, atoms) == SettleEach(s, inputs).st
    decreases |inputs|
  {
    atoms := [];
    if inputs != [] {
      var i := inputs[0];
      var s1 := WithdrawInput(s, i).StateOr(s);
      var rest := SettleAtoms(s1, inputs[1..]);
      atoms := [Entered(EWithdraw(i.developer, i.amount, i.to))] + rest;
      assert AtomStep(s, atoms[0]) == s1 && atoms[1..] == rest;
    }
  }

  lemma {:induction false} MergeAtoms(s: State, devs: seq<Address>) returns (atoms: seq<Atom>)
    requires s.usdc.Some? && MergeEach(s, devs, s.usdc.value).Done?
    ensures AllMerges(atoms) && RunAtoms(s, atoms) == MergeEach(s, devs, s.usdc.value).st
    decreases |devs|
  {
    atoms := [];
    if devs != [] {
      var s1 := MergeSlot(s, devs[0], s.usdc.value).st;
      var rest := MergeAtoms(s1, devs[1..]);
      atoms := [Merged(devs[0])] + rest;
      assert AtomStep(s, atoms[0]) == s1 && atoms[1..] == rest;
    }
  }

  /** Every call, batched or not, is a sequence of small steps of its own kind. */
  lemma CallAtoms(s: State, c: Call) returns (atoms: seq<Atom>)
    ensures RunAtoms(s, atoms) == Step(s, c) && AllUsed(c, atoms)
  {
    atoms := [];
    match c {
      case Single(e) =>
        atoms := [Entered(e)];
        assert RunAtoms(s, atoms) == RunAtoms(AtomStep(s, atoms[0]), []);
      case Batch(caller, items, token, seqno) =>
        BatchIsSequence(s, caller, items, token, seqno);
        if ReceiveBatch(s, caller, items, token, seqno).Done? {
          atoms := PaymentAtoms(s, caller, items, token, seqno);
        }
      case Settle(inputs) =>
        if |inputs| <= MAX_SETTLE_SIZE && SettleEach(s, inputs).Settled? { atoms := SettleAtoms(s, inputs); }
      case MigrateDeveloper(caller, dev) =>
        if MigrateSingle(s, caller, dev).Done? {
          atoms := [Merged(dev)];
          assert RunAtoms(s, atoms) == RunAtoms(AtomStep(s, atoms[0]), []);
        }
      case MigrateEveryone(caller) =>
        if s.version < VERSION_V2 && MigrateAll(s, caller).Done? { atoms := FinishedAtoms(s, s.index); }
      case MigrateSlice(caller, offset, size) =>
        var r := MigratePage(s, caller, offset, size);
        if s.version < VERSION_V2 && r.Paged? {
          var end := PageEnd(offset, size, |s.index|);
          var slice := Slice(s.index, offset, end);
          if end >= |s.index| { atoms := FinishedAtoms(s, slice); } else { atoms := MergeAtoms(s, slice); }
        }
    }
  }

  lemma FinishedAtoms(s: State, devs: seq<Address>) returns (atoms: seq<Atom>)
    requires s.usdc.Some? && MergeEach(s, devs, s.usdc.value).Done?
    ensures forall i :: 0 <= i < |atoms| ==> !atoms[i].Entered?
    ensures RunAtoms(s, atoms) == MergeEach(s, devs, s.usdc.value).st.(version := VERSION_V2)
  {
    var merges := MergeAtoms(s, devs);
    atoms := merges + [Completed];
    RunAtomsConcat(s, merges, [Completed]);
    var t := RunAtoms(s, merges);
    assert RunAtoms(t, [Completed]) == RunAtoms(AtomStep(t, Completed), []);
  }

  lemma RunHead(s: State, c: Call, rest: seq<Call>)
    ensures Run(s, [c] + rest) == Run(Step(s, c), rest)
  {
    assert ([c] + rest)[1..] == rest;
  }

  lemma RunThree(s: State, a: Call, b: Call, c: Call)
    ensures Run(s, [a, b, c]) == Step(Step(Step(s, a), b), c)
  {
    assert [a, b, c] == [a] + ([b] + ([c] + []));
    RunHead(s, a, [b] + ([c] + []));
    RunHead(Step(s, a), b, [c] + []);
    RunHead(Step(Step(s, a), b), c, []);
  }

  /** `P` is kept by every allowed small step. */
  ghost predicate Kept(P: State -> bool, allowed: Atom -> bool) {
    forall s: State, a: Atom :: P(s) && allowed(a) ==> P(AtomStep(s, a))
  }

  lemma {:induction false} KeptByAtoms(P: State -> bool, allowed: Atom -> bool, s: State, atoms: seq<Atom>)
    requires P(s) && Kept(P, allowed) && forall i :: 0 <= i < |atoms| ==> allowed(atoms[i])
    ensures P(RunAtoms(s, atoms))
    decreases |atoms|
  {
    if atoms != [] {
      assert P(AtomStep(s, atoms[0]));
      KeptByAtoms(P, allowed, AtomStep(s, atoms[0]), atoms[1..]);
    }
  }

  /** The calls consist of allowed small steps only. */
  ghost predicate Within(calls: seq<Call>, allowed: Atom -> bool) {
    forall i, a :: 0 <= i < |calls| && Uses(calls[i], a) ==> allowed(a)
  }

  /** Invariant principle: what every allowed small step keeps, every run of such steps keeps. */
  lemma {:induction false} KeptByRun(P: State -> bool, allowed: Atom -> bool, s: State, calls: seq<Call>)
    requires P(s) && Kept(P, allowed) && Within(calls, allowed)
    ensures P(Run(s, calls))
    decreases |calls|
  {
    if calls != [] {
      var atoms := CallAtoms(s, calls[0]);
      KeptByAtoms(P, allowed, s, atoms);
      KeptByRun(P, allowed, Step(s, calls[0]), calls[1..]);
    }
  }
}
