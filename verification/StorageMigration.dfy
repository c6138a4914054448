/** The V1 to V2 storage migration: sound page by page among other calls, and equal to the one-shot form. */
module StorageMigration {
  import opened Base
  import opened SortedIndex
  import opened Settlement
  import opened Conservation
  import opened Accounts
  import opened Runs

  /** Merging a list of developers removes exactly their V1 slots. */
  lemma {:induction false} MergeEachRemoves(s: State, devs: seq<Address>, token: Address)
    requires MergeEach(s, devs, token).Done?
    ensures var t := MergeEach(s, devs, token).st;
            forall d :: d in t.legacy <==> d in s.legacy && d !in devs
    decreases |devs|
  {
    if devs != [] { MergeEachRemoves(MergeSlot(s, devs[0], token).st, devs[1..], token); }
  }

  lemma {:induction false} MergeEachConcat(s: State, a: seq<Address>, b: seq<Address>, token: Address)
    ensures MergeEach(s, a + b, token) ==
            if MergeEach(s, a, token).Done? then MergeEach(MergeEach(s, a, token).st, b, token)
            else MergeEach(s, a, token)
    decreases |a|
  {
    if a == [] {
      assert a + b == b;
    } else {
      assert (a + b)[1..] == a[1..] + b;
      var r := MergeSlot(s, a[0], token);
      if r.Done? { MergeEachConcat(r.st, a[1..], b, token); }
    }
  }

  lemma {:induction false} MergeEachOpening(s: State, devs: seq<Address>)
    requires PendingShape(s) && s.usdc.Some? && MergeEach(s, devs, s.usdc.value).Done?
    ensures SameOpening(s, MergeEach(s, devs, s.usdc.value).st)
    decreases |devs|
  {
    if devs != [] {
      MergeOpening(s, devs[0]);
      MergeEachOpening(MergeSlot(s, devs[0], s.usdc.value).st, devs[1..]);
    }
  }

  // ------------------------------------------- paging among other calls

  /** An operator paging through the migration, following the offsets it is given. */
  datatype Operator = Operator(st: State, offset: u32, done: bool)

  /** Between pages, any admitted calls may happen; a page call that panics is simply repeated later. */
  datatype Turn = Others(calls: seq<Call>) | Page(caller: Address, size: u32)

  function TakeTurn(o: Operator, t: Turn): Operator {
    if o.done then o
    else
      match t
      case Others(calls) => o.(st := Run(o.st, calls))
      case Page(caller, size) =>
        match MigratePage(o.st, caller, o.offset, size)
        case PagePanic(_) => o
        case Paged(st, next, done) => Operator(st, next, done)
  }

  function Operate(o: Operator, turns: seq<Turn>): Operator
    decreases |turns|
  {
    if turns == [] then o else Operate(TakeTurn(o, turns[0]), turns[1..])
  }

  /** A page that starts past `offset` and closes the migration. */
  predicate ClosesAhead(s: State, c: Call, offset: u32) {
    && c.MigrateSlice? && c.offset > offset && s.version < VERSION_V2
    && var r := MigratePage(s, c.caller, c.offset, c.size); r.Paged? && r.done
  }

  ghost predicate NoneClosesAhead(s: State, calls: seq<Call>, offset: u32)
    decreases |calls|
  {
    calls == [] || (!ClosesAhead(s, calls[0], offset) && NoneClosesAhead(Step(s, calls[0]), calls[1..], offset))
  }

  /** No foreign page that starts ahead of the operator closes the migration. */
  ghost predicate InLead(o: Operator, turns: seq<Turn>)
    decreases |turns|
  {
    turns == [] ||
    (&& (turns[0].Others? && !o.done ==> NoneClosesAhead(o.st, turns[0].calls, o.offset))
     && InLead(TakeTurn(o, turns[0]), turns[1..]))
  }

  /** No call between the pages reconfigures the USDC token. */
  ghost predicate FixedTurns(turns: seq<Turn>) {
    forall i :: 0 <= i < |turns| ==> turns[i].Others? ==> FixedRun(turns[i].calls)
  }

  ghost predicate AtOrAfter(ix: seq<Address>, offset: nat, dev: Address) {
    exists p :: offset <= p < |ix| && ix[p] == dev
  }

  /** Every remaining V1 holder sits at or after the offset, and there is none once the migration is closed. */
  ghost predicate Ahead(s: State, offset: nat) {
    && s.version <= VERSION_V2 && (s.version == VERSION_V2 ==> s.legacy == map[])
    && forall d :: d in s.legacy ==> AtOrAfter(s.index, offset, d)
  }

  lemma InsertKeepsAhead(ix: seq<Address>, a: Address, offset: nat)
    ensures forall d :: AtOrAfter(ix, offset, d) ==> AtOrAfter(Insert(ix, a), offset, d)
  {
    InsertShifts(ix, a);
    forall d | AtOrAfter(ix, offset, d) ensures AtOrAfter(Insert(ix, a), offset, d) {
      var p :| offset <= p < |ix| && ix[p] == d;
      assert InsertedAt(ix, a, p);
      if Insert(ix, a)[p] != d { assert Insert(ix, a)[p + 1] == d; }
    }
  }

  ghost predicate OnlyInserts(s: State, t: State) {
    && t.legacy == s.legacy && t.version == s.version
    && (t.index == s.index || exists a :: t.index == Insert(s.index, a))
  }

  lemma ReceiveInserts(s: State, p: Payment)
    requires ReceivePayment(s, p).Done?
    ensures OnlyInserts(s, ReceivePayment(s, p).st)
  {
    if !p.toPool { assert ReceivePayment(s, p).st.index == Insert(s.index, p.developer.value); }
  }

  lemma ExecuteInserts(s: State, caller: Address, from: Address)
    requires ExecuteMigration(s, caller, from).Done?
    ensures OnlyInserts(s, ExecuteMigration(s, caller, from).st)
  {
    assert ExecuteMigration(s, caller, from).st.index == Insert(s.index, s.pending[from].to);
  }

  lemma WithdrawInserts(s: State, dev: Address, amount: i128, to: Option<Address>)
    requires Withdraw(s, dev, amount, to).Done?
    ensures OnlyInserts(s, Withdraw(s, dev, amount, to).st)
  {
  }

  lemma ForceInserts(s: State, caller: Address, dev: Address, amount: i128, token: Address)
    requires ForceCredit(s, caller, dev, amount, token).Done?
    ensures OnlyInserts(s, ForceCredit(s, caller, dev, amount, token).st)
  {
    assert ForceCredit(s, caller, dev, amount, token).st.index == Insert(s.index, dev);
  }

  lemma ProposeInserts(s: State, caller: Address, from: Address, to: Address)
    requires ProposeMigration(s, caller, from, to).Done?
    ensures OnlyInserts(s, ProposeMigration(s, caller, from, to).st)
  {
  }

  /** Payments, credits, withdrawals and balance migrations only ever insert into the index. */
  lemma EntryInserts(s: State, e: Entry)
    requires Enter(s, e).Done? && !IsSetter(e)
    ensures OnlyInserts(s, Enter(s, e).st)
  {
    match e {
      case EReceive(p) => ReceiveInserts(s, p);
      case EForce(caller, dev, amount, token) => ForceInserts(s, caller, dev, amount, token);
      case EWithdraw(dev, amount, to) => WithdrawInserts(s, dev, amount, to);
      case EPropose(caller, from, to) => ProposeInserts(s, caller, from, to);
      case EExecute(caller, from) => ExecuteInserts(s, caller, from);
    }
  }

  lemma AtomAhead(s: State, a: Atom, offset: nat)
    requires Ahead(s, offset) && !a.Completed?
    ensures Ahead(AtomStep(s, a), offset)
  {
    var t := AtomStep(s, a);
    if a.Merged? {
      MergeKeepsRest(s, a);
      assert forall d :: d in t.legacy ==> d in s.legacy;
      assert t.version == s.version;
    } else if Enter(s, a.e).Done? {
      if IsSetter(a.e) {
        SetterKeepsBooks(s, a.e);
      } else {
        EntryInserts(s, a.e);
        if t.index != s.index {
          var x :| t.index == Insert(s.index, x);
          InsertKeepsAhead(s.index, x, offset);
        }
      }
    }
  }

  /** A one-shot migration between the pages finishes the work at hand. */
  lemma EveryoneAhead(s: State, caller: Address, offset: nat)
    requires Ahead(s, offset)
    ensures Ahead(MigrateAll(s, caller).StateOr(s), offset)
  {
    if s.version < VERSION_V2 && MigrateAll(s, caller).Done? {
      MergeEachRemoves(s, s.index, s.usdc.value);
      var t := MigrateAll(s, caller).st;
      assert t.legacy == map[] by {
        forall d ensures d !in t.legacy { assert d in s.legacy ==> AtOrAfter(s.index, offset, d); }
      }
    }
  }

  /** Merging the slice from `offset` to `end` leaves every remaining V1 holder at or after `end`. */
  lemma SliceAhead(s: State, offset: nat, end: nat)
    requires end <= |s.index| && s.usdc.Some? && Ahead(s, offset)
    requires MergeEach(s, Slice(s.index, offset, end), s.usdc.value).Done?
    ensures var t := MergeEach(s, Slice(s.index, offset, end), s.usdc.value).st;
            Ahead(t, end) && (end == |s.index| ==> t.legacy == map[])
  {
    var slice := Slice(s.index, offset, end);
    MergeEachRemoves(s, slice, s.usdc.value);
    var t := MergeEach(s, slice, s.usdc.value).st;
    forall p | offset <= p < end ensures s.index[p] in slice { assert slice[p - offset] == s.index[p]; }
    forall d | d in t.legacy ensures AtOrAfter(s.index, end, d) {
      var p :| offset <= p < |s.index| && s.index[p] == d;
    }
    if s.legacy == map[] || end == |s.index| {
      assert t.legacy == map[] by {
        forall d ensures d !in t.legacy { assert d in t.legacy ==> AtOrAfter(s.index, end, d); }
      }
    }
  }

  /** A foreign page leaves the remaining V1 holders where they are, or nobody, unless it closes the migration ahead. */
  lemma ForeignPageAhead(s: State, c: Call, offset: u32)
    requires Ahead(s, offset) && c.MigrateSlice? && !ClosesAhead(s, c, offset)
    ensures Ahead(Step(s, c), offset)
  {
    if s.version < VERSION_V2 && MigratePage(s, c.caller, c.offset, c.size).Paged? {
      var end := PageEnd(c.offset, c.size, |s.index|);
      MergeEachRemoves(s, Slice(s.index, c.offset, end), s.usdc.value);
      if c.offset <= offset {
        assert Ahead(s, c.offset);
        SliceAhead(s, c.offset, end);
      }
    }
  }

  lemma {:induction false} OthersAhead(s: State, calls: seq<Call>, offset: u32)
    requires Ahead(s, offset) && NoneClosesAhead(s, calls, offset)
    ensures Ahead(Run(s, calls), offset)
    decreases |calls|
  {
    if calls != [] {
      var c := calls[0];
      if c.MigrateEveryone? {
        EveryoneAhead(s, c.caller, offset);
      } else if c.MigrateSlice? {
        ForeignPageAhead(s, c, offset);
      } else {
        var atoms := CallAtoms(s, c);
        var P := (t: State) => Ahead(t, offset);
        forall t: State, a: Atom | P(t) && !a.Completed? ensures P(AtomStep(t, a)) { AtomAhead(t, a, offset); }
        KeptByAtoms(P, (a: Atom) => !a.Completed?, s, atoms);
      }
      OthersAhead(Step(s, c), calls[1..], offset);
    }
  }

  lemma PageAhead(s: State, caller: Address, offset: u32, size: u32)
    requires Ahead(s, offset) && MigratePage(s, caller, offset, size).Paged?
    ensures var r := MigratePage(s, caller, offset, size);
            && (r.done ==> r.st.legacy == map[] && r.st.version == VERSION_V2)
            && (!r.done ==> Ahead(r.st, r.next))
  {
    if s.version < VERSION_V2 { SliceAhead(s, offset, PageEnd(offset, size, |s.index|)); }
  }

  ghost predicate OnTrack(o: Operator) {
    if o.done then o.st.legacy == map[] && o.st.version == VERSION_V2 else Ahead(o.st, o.offset)
  }

  lemma {:induction false} OperateOnTrack(o: Operator, turns: seq<Turn>)
    requires OnTrack(o) && InLead(o, turns)
    ensures OnTrack(Operate(o, turns))
    decreases |turns|
  {
    if turns != [] {
      if !o.done {
        match turns[0] {
          case Others(calls) => OthersAhead(o.st, calls, o.offset);
          case Page(caller, size) =>
            if MigratePage(o.st, caller, o.offset, size).Paged? { PageAhead(o.st, caller, o.offset, size); }
        }
      }
      OperateOnTrack(TakeTurn(o, turns[0]), turns[1..]);
    }
  }

  /** Driven from offset 0 by its own offsets, among any other calls, token changes included, a migration that reports
      completion has left no V1 slot; only a foreign page that closes the migration ahead of it is excluded. */
  lemma PagedMigrationComplete(s: State, turns: seq<Turn>)
    requires s.version < VERSION_V2 && InLead(Operator(s, 0, false), turns)
    requires forall d :: d in s.legacy ==> d in s.index
    ensures var o := Operate(Operator(s, 0, false), turns);
            o.done ==> o.st.legacy == map[] && o.st.version == VERSION_V2
  {
    forall d | d in s.legacy ensures AtOrAfter(s.index, 0, d) {
      var p :| 0 <= p < |s.index| && s.index[p] == d;
    }
    OperateOnTrack(Operator(s, 0, false), turns);
  }

  lemma PageOpening(s: State, caller: Address, offset: u32, size: u32)
    requires PendingShape(s) && MigratePage(s, caller, offset, size).Paged?
    ensures SameOpening(s, MigratePage(s, caller, offset, size).st)
  {
    if s.version < VERSION_V2 {
      var end := PageEnd(offset, size, |s.index|);
      MergeEachOpening(s, Slice(s.index, offset, end));
      var t := MergeEach(s, Slice(s.index, offset, end), s.usdc.value).st;
      forall dev, token ensures Opening(t.(version := VERSION_V2), dev, token) == Opening(t, dev, token) { }
    }
  }

  lemma {:induction false} OperateOpening(s: State, o: Operator, turns: seq<Turn>)
    requires SameOpening(s, o.st) && FixedTurns(turns)
    ensures SameOpening(s, Operate(o, turns).st)
    decreases |turns|
  {
    if turns != [] {
      if !o.done {
        match turns[0] {
          case Others(calls) => ClaimsFollowJournal(o.st, calls, 0, 0);
          case Page(caller, size) =>
            if MigratePage(o.st, caller, o.offset, size).Paged? { PageOpening(o.st, caller, o.offset, size); }
        }
      }
      OperateOpening(s, TakeTurn(o, turns[0]), turns[1..]);
    }
  }

  /** While no call changes the token, every developer then holds its starting V1 plus V2 balance plus what the journal
      moved meanwhile; other tokens changed by their journalled moves only. */
  lemma PagedMigrationSound(s: State, turns: seq<Turn>, dev: Address, token: Address)
    requires PendingShape(s) && s.version < VERSION_V2 && InLead(Operator(s, 0, false), turns) && FixedTurns(turns)
    requires forall d :: d in s.legacy ==> d in s.index
    ensures var o := Operate(Operator(s, 0, false), turns);
            o.done ==>
              && o.st.legacy == map[] && o.st.version == VERSION_V2 && o.st.usdc == s.usdc
              && o.st.Balance(dev, token) ==
                 s.Balance(dev, token) + (if s.usdc == Some(token) then s.Legacy(dev) else 0)
                 + Moves(o.st.journal, dev, token) - Moves(s.journal, dev, token)
  {
    PagedMigrationComplete(s, turns);
    OperateOpening(s, Operator(s, 0, false), turns);
    var o := Operate(Operator(s, 0, false), turns);
    assert Opening(o.st, dev, token) == Opening(s, dev, token);
  }

  /** From any offset: a page that closes the migration leaves no V1 slot exactly when every V1 holder sits at or after
      its offset. Past the end of the index it merges nobody; once closed, a page changes nothing. */
  lemma ClosingPageExact(s: State, caller: Address, offset: u32, size: u32)
    requires MigratePage(s, caller, offset, size).Paged? && MigratePage(s, caller, offset, size).done
    ensures var t := MigratePage(s, caller, offset, size).st;
            && (s.version >= VERSION_V2 ==> t == s)
            && (s.version < VERSION_V2 ==>
                  (t.legacy == map[] <==> forall d :: d in s.legacy ==> AtOrAfter(s.index, offset, d)))
            && (offset >= |s.index| ==> t.legacy == s.legacy)
  {
    if s.version < VERSION_V2 {
      var t, slice := MigratePage(s, caller, offset, size).st, Slice(s.index, offset, |s.index|);
      MergeEachRemoves(s, slice, s.usdc.value);
      forall d ensures d in slice <==> AtOrAfter(s.index, offset, d) {
        if AtOrAfter(s.index, offset, d) {
          var p :| offset <= p < |s.index| && s.index[p] == d;
          assert slice[p - offset] == d;
        }
      }
      if forall d :: d in s.legacy ==> d in slice {
        assert t.legacy == map[] by { forall d ensures d !in t.legacy { } }
      }
    }
  }

  // ------------------------------------------------- paged against one-shot

  /** Page calls from `offset` with batch sizes `sizes(k)`, `sizes(k + 1)`, ... until one reports completion. */
  function PageToEnd(s: State, caller: Address, offset: u32, sizes: nat -> u32, k: nat): Outcome
    requires offset <= |s.index| <= U32_MAX
    decreases |s.index| - offset
  {
    match MigratePage(s, caller, offset, sizes(k))
    case PagePanic(e) => Panic(e)
    case Paged(t, next, done) => if done then Done(t) else PageToEnd(t, caller, next, sizes, k + 1)
  }

  lemma {:induction false} PagesMergeRest(s: State, caller: Address, offset: u32, sizes: nat -> u32, k: nat)
    requires offset <= |s.index| <= U32_MAX
    requires caller == s.admin && s.version < VERSION_V2 && s.usdc.Some?
    ensures var rest := MergeEach(s, s.index[offset..], s.usdc.value);
            PageToEnd(s, caller, offset, sizes, k) ==
            if rest.Done? then Done(rest.st.(version := VERSION_V2)) else Panic(rest.error)
    decreases |s.index| - offset
  {
    var end, u := PageEnd(offset, sizes(k), |s.index|), s.usdc.value;
    assert s.index[offset..] == s.index[offset..end] + s.index[end..];
    MergeEachConcat(s, s.index[offset..end], s.index[end..], u);
    if end < |s.index| && MergeEach(s, s.index[offset..end], u).Done? {
      PagesMergeRest(MergeEach(s, s.index[offset..end], u).st, caller, end, sizes, k + 1);
    }
  }

  /** Whatever the batch sizes, paging from offset 0 to completion is the one-shot migration: it fails
      when that fails, and otherwise ends in the same state. */
  lemma SchedulesAgree(s: State, caller: Address, sizes: nat -> u32)
    requires |s.index| <= U32_MAX  // a host vector's length is a u32
    ensures PageToEnd(s, caller, 0, sizes, 0) == MigrateAll(s, caller)
  {
    if caller == s.admin && s.version < VERSION_V2 && s.usdc.Some? {
      PagesMergeRest(s, caller, 0, sizes, 0);
      assert s.index[0..] == s.index;
      MergeNeverErrs(s, s.index, s.usdc.value);
    }
  }

  lemma {:induction false} MergeNeverErrs(s: State, devs: seq<Address>, token: Address)
    ensures !MergeEach(s, devs, token).Err?
    decreases |devs|
  {
    if devs != [] && MergeSlot(s, devs[0], token).Done? {
      MergeNeverErrs(MergeSlot(s, devs[0], token).st, devs[1..], token);
    }
  }
}
