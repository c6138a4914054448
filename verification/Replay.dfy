/** Replay protection: every sequence number credits a developer, or the pool, at most once. */
module Replay {
  import opened Base
  import opened Settlement
  import opened Runs

  /** The sequence numbers credited to `dev`, in order of acceptance. */
  ghost function PaidSeqs(j: seq<Record>, dev: Address): seq<u32> {
    if j == [] then []
    else PaidSeqs(j[..|j| - 1], dev) + PaidBy(j[|j| - 1], dev)
  }

  ghost function PaidBy(r: Record, dev: Address): seq<u32> {
    if r.Credit? && r.dev == dev && r.seqno.Some? then [r.seqno.value] else []
  }

  ghost function PoolSeqs(j: seq<Record>): seq<u32> {
    if j == [] then []
    else PoolSeqs(j[..|j| - 1]) + PooledBy(j[|j| - 1])
  }

  ghost function PooledBy(r: Record): seq<u32> {
    if r.PoolCredit? then [r.poolSeqno] else []
  }

  ghost predicate Ascending(q: seq<u32>) {
    forall i, j :: 0 <= i < j < |q| ==> q[i] < q[j]
  }

  ghost predicate BelowMark(q: seq<u32>, mark: u32) {
    Ascending(q) && forall i :: 0 <= i < |q| ==> q[i] <= mark
  }

  ghost predicate Guarded(s: State) {
    && (forall dev :: BelowMark(PaidSeqs(s.journal, dev), s.Mark(dev)))
    && BelowMark(PoolSeqs(s.journal), s.poolMark)
  }

  lemma LoggedSeqs(s: State, r: Record)
    ensures forall dev :: PaidSeqs(s.Log(r).journal, dev) == PaidSeqs(s.journal, dev) + PaidBy(r, dev)
    ensures PoolSeqs(s.Log(r).journal) == PoolSeqs(s.journal) + PooledBy(r)
  {
    assert s.Log(r).journal[..|s.journal|] == s.journal;
  }

  lemma CreditGuarded(s: State, t: State, dev: Address, token: Address, amount: i128, seqno: Option<u32>)
    requires Guarded(s) && (seqno.Some? ==> s.Mark(dev) < seqno.value)
    requires t == if seqno.Some? then s.(marks := s.marks[dev := seqno.value]) else s
    requires AddCredit(t, dev, token, amount, seqno).Done?
    ensures Guarded(AddCredit(t, dev, token, amount, seqno).st)
  {
    var u, r := AddCredit(t, dev, token, amount, seqno).st, Credit(dev, token, amount, seqno);
    assert u.journal == s.Log(r).journal && u.marks == t.marks && u.poolMark == s.poolMark;
    LoggedSeqs(s, r);
    assert PoolSeqs(u.journal) == PoolSeqs(s.journal) + [];
    forall d ensures BelowMark(PaidSeqs(u.journal, d), u.Mark(d)) {
      RaisedMark(PaidSeqs(s.journal, d), s.Mark(d), PaidBy(r, d), u.Mark(d));
    }
  }

  /** A sequence below its mark stays so when at most the new, higher mark is appended. */
  lemma RaisedMark(q: seq<u32>, mark: u32, more: seq<u32>, raised: u32)
    requires BelowMark(q, mark) && mark <= raised
    requires more == [] || (more == [raised] && mark < raised)
    ensures BelowMark(q + more, raised)
  {
  }

  /** A step that leaves the marks alone and logs at most a record carrying no sequence number. */
  lemma SilentGuarded(s: State, t: State, r: Record)
    requires Guarded(s) && t.marks == s.marks && t.poolMark == s.poolMark
    requires t.journal == s.journal + [r] && !r.Credit? && !r.PoolCredit?
    ensures Guarded(t)
  {
    LoggedSeqs(s, r);
    assert PoolSeqs(t.journal) == PoolSeqs(s.journal) + [];
    forall d ensures BelowMark(PaidSeqs(t.journal, d), t.Mark(d)) {
      assert PaidSeqs(t.journal, d) == PaidSeqs(s.journal, d) + [];
      assert BelowMark(PaidSeqs(s.journal, d), s.Mark(d));
    }
  }

  lemma ReceiveGuarded(s: State, p: Payment)
    requires Guarded(s) && ReceivePayment(s, p).Done?
    ensures Guarded(ReceivePayment(s, p).st)
  {
    if p.toPool {
      var t, r := ReceivePayment(s, p).st, PoolCredit(p.amount, p.seqno);
      LoggedSeqs(s, r);
      forall d ensures BelowMark(PaidSeqs(t.journal, d), t.Mark(d)) {
        assert PaidSeqs(t.journal, d) == PaidSeqs(s.journal, d) + [];
        assert BelowMark(PaidSeqs(s.journal, d), s.Mark(d));
      }
    } else {
      CreditGuarded(s, CheckDeveloper(s, p.developer.value, p.seqno).st,
                    p.developer.value, p.token, p.amount, Some(p.seqno));
    }
  }

  lemma WithdrawGuarded(s: State, dev: Address, amount: i128, to: Option<Address>)
    requires Guarded(s) && Withdraw(s, dev, amount, to).Done?
    ensures Guarded(Withdraw(s, dev, amount, to).st)
  {
    var t := Withdraw(s, dev, amount, to).st;
    SilentGuarded(s, t, t.journal[|s.journal|]);
  }

  lemma MigrationGuarded(s: State, caller: Address, from: Address, to: Address)
    requires Guarded(s)
    ensures ProposeMigration(s, caller, from, to).Done? ==> Guarded(ProposeMigration(s, caller, from, to).st)
    ensures ExecuteMigration(s, caller, from).Done? ==> Guarded(ExecuteMigration(s, caller, from).st)
  {
    if ProposeMigration(s, caller, from, to).Done? {
      var t := ProposeMigration(s, caller, from, to).st;
      SilentGuarded(s, t, t.journal[|s.journal|]);
    }
    if ExecuteMigration(s, caller, from).Done? {
      var t := ExecuteMigration(s, caller, from).st;
      SilentGuarded(s, t, t.journal[|s.journal|]);
    }
  }

  lemma AtomGuarded(s: State, a: Atom)
    requires Guarded(s)
    ensures Guarded(AtomStep(s, a))
  {
    if a.Entered? && Enter(s, a.e).Done? {
      if IsSetter(a.e) {
        SetterKeepsBooks(s, a.e);
      } else {
        match a.e {
          case EReceive(p) => ReceiveGuarded(s, p);
          case EForce(_, dev, amount, token) => CreditGuarded(s, s, dev, token, amount, None);
          case EWithdraw(dev, amount, to) => WithdrawGuarded(s, dev, amount, to);
          case EPropose(caller, from, to) => MigrationGuarded(s, caller, from, to);
          case EExecute(caller, from) => MigrationGuarded(s, caller, from, from);
        }
      }
    }
  }

  /** In every run, the sequence numbers accepted for a developer, and those accepted for the pool,
      strictly increase and never pass the stored mark. */
  lemma SequenceNumbersIncrease(s: State, calls: seq<Call>, dev: Address)
    requires Genesis(s)
    ensures var t := Run(s, calls);
            && Ascending(PaidSeqs(t.journal, dev)) && Ascending(PoolSeqs(t.journal))
            && BelowMark(PaidSeqs(t.journal, dev), t.Mark(dev)) && BelowMark(PoolSeqs(t.journal), t.poolMark)
  {
    var P := (t: State) => Guarded(t);
    forall t: State, a: Atom | P(t) ensures P(AtomStep(t, a)) { AtomGuarded(t, a); }
    KeptByRun(P, AnyAtom, s, calls);
  }

  ghost predicate Grown(s: State, t: State) {
    && t.admin == s.admin && t.vault == s.vault
    && s.poolMark <= t.poolMark && forall dev :: s.Mark(dev) <= t.Mark(dev)
  }

  lemma ReceiveGrows(s: State, p: Payment)
    requires ReceivePayment(s, p).Done?
    ensures Grown(s, ReceivePayment(s, p).st)
  {
  }

  lemma OthersKeepMarks(s: State, e: Entry)
    requires Enter(s, e).Done? && (e.EForce? || e.EWithdraw? || e.EPropose? || e.EExecute?)
    ensures var t := Enter(s, e).st;
            t.admin == s.admin && t.vault == s.vault && t.marks == s.marks && t.poolMark == s.poolMark
  {
  }

  lemma AtomGrows(s: State, a: Atom)
    ensures Grown(s, AtomStep(s, a))
  {
    if a.Entered? && Enter(s, a.e).Done? {
      if IsSetter(a.e) {
        SetterKeepsBooks(s, a.e);
      } else if a.e.EReceive? {
        ReceiveGrows(s, a.e.p);
      } else {
        OthersKeepMarks(s, a.e);
      }
    } else if !a.Entered? {
      MergeKeepsRest(s, a);
    }
  }

  /** Marks never fall, in any run. */
  lemma RunGrows(s: State, calls: seq<Call>)
    ensures Grown(s, Run(s, calls))
  {
    var P := (t: State) => Grown(s, t);
    forall t: State, a: Atom | P(t) ensures P(AtomStep(t, a)) { AtomGrows(t, a); }
    KeptByRun(P, AnyAtom, s, calls);
  }

  /** An accepted payment, submitted again after any further calls, is rejected as a replay. */
  lemma PaymentNeverReplayed(s: State, p: Payment, later: seq<Call>)
    requires ReceivePayment(s, p).Done?
    ensures var t := Run(ReceivePayment(s, p).st, later);
            ReceivePayment(t, p) == Panic(ReplayDetected) && Step(t, Single(EReceive(p))) == t
  {
    RunGrows(ReceivePayment(s, p).st, later);
    assert !p.toPool ==> ReceivePayment(s, p).st.Mark(p.developer.value) == p.seqno;
  }

  lemma {:induction false} CreditEachKeepsMarks(s: State, items: Items, token: Address, seqno: u32)
    requires CreditEach(s, items, token, seqno).Done?
    ensures var t := CreditEach(s, items, token, seqno).st;
            t.marks == s.marks && t.admin == s.admin && t.vault == s.vault
    decreases |items|
  {
    if items != [] {
      CreditEachKeepsMarks(AddCredit(s, items[0].0, token, items[0].1, Some(seqno)).st, items[1..], token, seqno);
    }
  }

  lemma {:induction false} RaiseEachMarks(marks: Marks, items: Items, seqno: u32)
    requires RaiseEach(marks, items, seqno).Some?
    ensures var m := RaiseEach(marks, items, seqno).value;
            && (forall dev :: Read(marks, dev, 0) <= Read(m, dev, 0))
            && forall i :: 0 <= i < |items| ==> Read(m, items[i].0, 0) >= seqno
    decreases |items|
  {
    if items != [] {
      RaiseEachMarks(marks[items[0].0 := seqno], items[1..], seqno);
      assert forall i :: 1 <= i < |items| ==> items[i] == items[1..][i - 1];
      assert Read(marks[items[0].0 := seqno], items[0].0, 0) == seqno;
    }
  }

  /** After an accepted batch and any further calls, its developers' marks are at least its number. */
  lemma BatchLeavesMarks(s: State, caller: Address, items: Items, token: Address, seqno: u32, later: seq<Call>)
    requires ReceiveBatch(s, caller, items, token, seqno).Done?
    ensures var t := Run(ReceiveBatch(s, caller, items, token, seqno).st, later);
            && t.admin == s.admin && t.vault == s.vault
            && forall i :: 0 <= i < |items| ==> t.Mark(items[i].0) >= seqno
  {
    var raised := RaiseEach(s.marks, items, seqno).value;
    var s1 := ReceiveBatch(s, caller, items, token, seqno).st;
    RaiseEachMarks(s.marks, items, seqno);
    CreditEachKeepsMarks(s.(marks := raised), items, token, seqno);
    assert s1.marks == raised;
    RunGrows(s1, later);
    forall i | 0 <= i < |items| ensures Run(s1, later).Mark(items[i].0) >= seqno {
      assert s1.Mark(items[i].0) >= seqno;
    }
  }

  /** An accepted batch, submitted again after any further calls, is rejected as a replay; so is any
      single payment to one of its developers at or below its sequence number. */
  lemma BatchNeverReplayed(s: State, caller: Address, items: Items, token: Address, seqno: u32, later: seq<Call>)
    requires ReceiveBatch(s, caller, items, token, seqno).Done?
    ensures var t := Run(ReceiveBatch(s, caller, items, token, seqno).st, later);
            && ReceiveBatch(t, caller, items, token, seqno) == Panic(ReplayDetected)
            && Step(t, Batch(caller, items, token, seqno)) == t
            && (forall i, p: Payment ::
                  0 <= i < |items| && !p.toPool && p.developer == Some(items[i].0) && p.seqno <= seqno ==>
                  !ReceivePayment(t, p).Done?)
  {
    BatchLeavesMarks(s, caller, items, token, seqno, later);
    var t := Run(ReceiveBatch(s, caller, items, token, seqno).st, later);
    assert RaiseEach(t.marks, items, seqno).None?;
    forall i, p: Payment | 0 <= i < |items| && !p.toPool && p.developer == Some(items[i].0) && p.seqno <= seqno
      ensures !ReceivePayment(t, p).Done?
    {
      assert t.Mark(items[i].0) >= seqno;
    }
  }
}
