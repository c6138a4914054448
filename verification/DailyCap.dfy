/** Daily withdrawal caps, measured against what a developer truly withdrew on an epoch day. */
module DailyCap {
  import opened Base
  import opened Settlement
  import opened Runs

  ghost function DayPart(r: Record, dev: Address, day: int): int {
    if r.Withdrawal? && r.dev == dev && r.day == day then r.amount else 0
  }

  /** The true sum of `dev`'s withdrawals on `day`. */
  ghost function DaySum(j: seq<Record>, dev: Address, day: int): int {
    if j == [] then 0 else DaySum(j[..|j| - 1], dev, day) + DayPart(j[|j| - 1], dev, day)
  }

  /** The stored counter is the true sum of the last active day, up to saturation. */
  ghost predicate CountedFor(s: State, dev: Address) {
    if dev in s.today then
      var c := s.today[dev];
      && c.day <= s.now / SECONDS_PER_DAY
      && 0 <= DaySum(s.journal, dev, c.day)
      && c.amount == Min(DaySum(s.journal, dev, c.day), I128_MAX)
      && forall day :: day > c.day ==> DaySum(s.journal, dev, day) == 0
    else
      forall day :: DaySum(s.journal, dev, day) == 0
  }

  ghost predicate Counted(s: State) {
    forall dev :: CountedFor(s, dev)
  }

  ghost predicate CappedAt(j: seq<Record>, k: nat)
    requires k < |j|
  {
    j[k].Withdrawal? && j[k].cap > 0 ==> DaySum(j[..k + 1], j[k].dev, j[k].day) <= j[k].cap
  }

  /** Every withdrawal made under a positive cap left the day's true sum within that cap. */
  ghost predicate Capped(j: seq<Record>) {
    forall k :: 0 <= k < |j| ==> CappedAt(j, k)
  }

  lemma LoggedDay(s: State, r: Record)
    ensures forall dev, day :: DaySum(s.Log(r).journal, dev, day) == DaySum(s.journal, dev, day) + DayPart(r, dev, day)
  {
    assert s.Log(r).journal[..|s.journal|] == s.journal;
  }

  lemma LoggedCapped(j: seq<Record>, r: Record)
    requires Capped(j)
    requires r.Withdrawal? && r.cap > 0 ==> DaySum(j + [r], r.dev, r.day) <= r.cap
    ensures Capped(j + [r])
  {
    forall k | 0 <= k < |j| + 1 ensures CappedAt(j + [r], k) {
      if k < |j| {
        assert CappedAt(j, k) && (j + [r])[..k + 1] == j[..k + 1];
      } else {
        assert (j + [r])[..k + 1] == j + [r];
      }
    }
  }

  ghost predicate Capping(s: State) {
    Counted(s) && Capped(s.journal)
  }

  /** Logging anything but a withdrawal changes no counter and no sum. */
  lemma SilentCapping(s: State, t: State, r: Record)
    requires Capping(s) && !r.Withdrawal?
    requires t.today == s.today && t.now == s.now && t.journal == s.Log(r).journal
    ensures Capping(t)
  {
    LoggedDay(s, r);
    LoggedCapped(s.journal, r);
    forall dev ensures CountedFor(t, dev) { assert CountedFor(s, dev); }
  }

  lemma SpentIsTrueSum(s: State, dev: Address)
    requires Counted(s)
    ensures SpentToday(s, dev) == Min(DaySum(s.journal, dev, s.now / SECONDS_PER_DAY), I128_MAX)
    ensures 0 <= DaySum(s.journal, dev, s.now / SECONDS_PER_DAY)
  {
    assert CountedFor(s, dev);
  }

  lemma WithdrawCapping(s: State, dev: Address, amount: i128, to: Option<Address>)
    requires Capping(s) && Withdraw(s, dev, amount, to).Done?
    ensures Capping(Withdraw(s, dev, amount, to).st)
  {
    var t, day := Withdraw(s, dev, amount, to).st, s.now / SECONDS_PER_DAY;
    var r := Withdrawal(dev, s.usdc.value, amount, day, Read(s.caps, dev, 0));
    assert t.journal == s.journal + [r] && t.now == s.now;
    assert t.today == s.today[dev := DailyWithdraw(day, SaturatingI128(SpentToday(s, dev) + amount))];
    assert r.cap > 0 ==> SpentToday(s, dev) + amount <= r.cap;
    PaidCapping(s, t, r);
  }

  /** Counting a withdrawal that keeps to a positive cap. */
  lemma PaidCapping(s: State, t: State, r: Record)
    requires Capping(s) && r.Withdrawal? && r.amount > 0 && r.day == s.now / SECONDS_PER_DAY
    requires r.cap > 0 ==> SpentToday(s, r.dev) + r.amount <= r.cap
    requires t.journal == s.journal + [r] && t.now == s.now
    requires t.today == s.today[r.dev := DailyWithdraw(r.day, SaturatingI128(SpentToday(s, r.dev) + r.amount))]
    ensures Capping(t)
  {
    SpentIsTrueSum(s, r.dev);
    LoggedDay(s, r);
    assert t.journal == s.Log(r).journal;
    LoggedCapped(s.journal, r);
    forall d ensures CountedFor(t, d) { assert CountedFor(s, d); }
  }

  lemma ReceiveCapping(s: State, p: Payment)
    requires Capping(s) && ReceivePayment(s, p).Done?
    ensures Capping(ReceivePayment(s, p).st)
  {
    var t := ReceivePayment(s, p).st;
    SilentCapping(s, t, t.journal[|s.journal|]);
  }

  lemma OtherCapping(s: State, e: Entry)
    requires Capping(s) && Enter(s, e).Done? && (e.EForce? || e.EPropose? || e.EExecute?)
    ensures Capping(Enter(s, e).st)
  {
    var t := Enter(s, e).st;
    SilentCapping(s, t, t.journal[|s.journal|]);
  }

  lemma AtomCapping(s: State, a: Atom)
    requires Capping(s)
    ensures Capping(AtomStep(s, a))
  {
    if a.Entered? && Enter(s, a.e).Done? {
      if IsSetter(a.e) {
        SetterKeepsBooks(s, a.e);
        var t := AtomStep(s, a);
        forall d ensures CountedFor(t, d) { assert CountedFor(s, d); }
      } else if a.e.EReceive? {
        ReceiveCapping(s, a.e.p);
      } else if a.e.EWithdraw? {
        WithdrawCapping(s, a.e.dev, a.e.amount, a.e.to);
      } else {
        OtherCapping(s, a.e);
      }
    } else {
      if !a.Entered? { MergeKeepsRest(s, a); }
      var t := AtomStep(s, a);
      forall d ensures CountedFor(t, d) { assert CountedFor(s, d); }
    }
  }

  lemma RunCapping(s: State, calls: seq<Call>)
    requires Genesis(s)
    ensures Capping(Run(s, calls))
  {
    var P := (t: State) => Capping(t);
    forall t: State, a: Atom | P(t) ensures P(AtomStep(t, a)) { AtomCapping(t, a); }
    KeptByRun(P, AnyAtom, s, calls);
  }

  /** In every run, at every withdrawal accepted under a positive cap, the day's true total was within it. */
  lemma CapHoldsOverRuns(s: State, calls: seq<Call>, k: nat)
    requires Genesis(s) && k < |Run(s, calls).journal|
    ensures var j := Run(s, calls).journal;
            j[k].Withdrawal? && j[k].cap > 0 ==> DaySum(j[..k + 1], j[k].dev, j[k].day) <= j[k].cap
  {
    RunCapping(s, calls);
    assert CappedAt(Run(s, calls).journal, k);
  }

  /** In every reachable state, a withdrawal that passes all earlier checks is refused for its cap
      exactly when the day's true total would go past it. */
  lemma CapRefusalExact(s: State, calls: seq<Call>, dev: Address, amount: i128, to: Option<Address>)
    requires Genesis(s)
    requires var t := Run(s, calls);
             && amount > 0 && to.GetOr(dev) != t.self && t.usdc.Some?
             && (dev in t.windows ==> t.windows[dev].startTs <= t.now <= t.windows[dev].endTs)
             && amount <= t.Balance(dev, t.usdc.value)
             && t.Balance(dev, t.usdc.value) - amount >= Read(t.minimums, dev, 0)
             && Read(t.caps, dev, 0) > 0
    ensures var t := Run(s, calls);
            Withdraw(t, dev, amount, to) == Err(DailyWithdrawCapExceeded) <==>
            DaySum(t.journal, dev, t.now / 86400) + amount > Read(t.caps, dev, 0)
  {
    RunCapping(s, calls);
    SpentIsTrueSum(Run(s, calls), dev);
  }

  // ------------------------------------------------- the documented reading

  /** The documented invariant: unless the cap is 0, what was withdrawn today is at most the cap. */
  ghost predicate WithinCap(s: State, dev: Address) {
    Read(s.caps, dev, 0) == 0 || DaySum(s.journal, dev, s.now / SECONDS_PER_DAY) <= Read(s.caps, dev, 0)
  }

  predicate KeepsCap(a: Atom, dev: Address) {
    !(a.Entered? && a.e.ESetCap? && a.e.dev == dev)
  }

  ghost predicate CapUntouched(calls: seq<Call>, dev: Address) {
    forall i :: 0 <= i < |calls| ==> !(calls[i].Single? && calls[i].e.ESetCap? && calls[i].e.dev == dev)
  }

  /** A counted state with a non-negative cap that today's withdrawals respect. */
  ghost predicate Respected(s: State, dev: Address, cap: i128) {
    Capping(s) && Read(s.caps, dev, 0) == cap && cap >= 0 && WithinCap(s, dev)
  }

  lemma WithdrawRespects(s: State, dev: Address, cap: i128, who: Address, amount: i128, to: Option<Address>)
    requires Respected(s, dev, cap) && Withdraw(s, who, amount, to).Done?
    ensures var t := Withdraw(s, who, amount, to).st; Read(t.caps, dev, 0) == cap && WithinCap(t, dev)
  {
    var t, day := Withdraw(s, who, amount, to).st, s.now / SECONDS_PER_DAY;
    var r := Withdrawal(who, s.usdc.value, amount, day, Read(s.caps, who, 0));
    assert t.journal == s.Log(r).journal && t.now == s.now && t.caps == s.caps;
    SpentIsTrueSum(s, dev);
    LoggedDay(s, r);
  }

  lemma SetterRespects(s: State, dev: Address, cap: i128, e: Entry)
    requires Respected(s, dev, cap) && IsSetter(e) && Enter(s, e).Done? && KeepsCap(Entered(e), dev)
    ensures var t := Enter(s, e).st; Read(t.caps, dev, 0) == cap && WithinCap(t, dev)
  {
    SetterKeepsBooks(s, e);
    assert CountedFor(s, dev);
  }

  /** Logging anything but a withdrawal changes no sum. */
  lemma SilentRespects(s: State, t: State, r: Record, dev: Address, cap: i128)
    requires Respected(s, dev, cap) && !r.Withdrawal?
    requires t.caps == s.caps && t.now == s.now && t.journal == s.Log(r).journal
    ensures Read(t.caps, dev, 0) == cap && WithinCap(t, dev)
  {
    LoggedDay(s, r);
  }

  lemma ReceiveRespects(s: State, dev: Address, cap: i128, p: Payment)
    requires Respected(s, dev, cap) && ReceivePayment(s, p).Done?
    ensures var t := ReceivePayment(s, p).st; Read(t.caps, dev, 0) == cap && WithinCap(t, dev)
  {
    var t := ReceivePayment(s, p).st;
    SilentRespects(s, t, t.journal[|s.journal|], dev, cap);
  }

  lemma OtherRespects(s: State, dev: Address, cap: i128, e: Entry)
    requires Respected(s, dev, cap) && Enter(s, e).Done? && (e.EForce? || e.EPropose? || e.EExecute?)
    ensures var t := Enter(s, e).st; Read(t.caps, dev, 0) == cap && WithinCap(t, dev)
  {
    var t := Enter(s, e).st;
    SilentRespects(s, t, t.journal[|s.journal|], dev, cap);
  }

  lemma AtomRespects(s: State, a: Atom, dev: Address, cap: i128)
    requires Respected(s, dev, cap) && KeepsCap(a, dev)
    ensures Respected(AtomStep(s, a), dev, cap)
  {
    AtomCapping(s, a);
    if !a.Entered? {
      MergeKeepsRest(s, a);
    } else if Enter(s, a.e).Done? {
      if IsSetter(a.e) {
        SetterRespects(s, dev, cap, a.e);
      } else if a.e.EWithdraw? {
        WithdrawRespects(s, dev, cap, a.e.dev, a.e.amount, a.e.to);
      } else if a.e.EReceive? {
        ReceiveRespects(s, dev, cap, a.e.p);
      } else {
        OtherRespects(s, dev, cap, a.e);
      }
    }
  }

  lemma RespectedStays(s: State, calls: seq<Call>, dev: Address, cap: i128)
    requires Respected(s, dev, cap) && CapUntouched(calls, dev)
    ensures WithinCap(Run(s, calls), dev)
  {
    var P := (t: State) => Respected(t, dev, cap);
    var allowed := (a: Atom) => KeepsCap(a, dev);
    forall t: State, a: Atom | P(t) && allowed(a) ensures P(AtomStep(t, a)) { AtomRespects(t, a, dev, cap); }
    KeptByRun(P, allowed, s, calls);
  }

  /** The documented invariant holds from a cap setting until the next one exactly when the new cap is 0, or positive
      and not below what was already withdrawn that day. Below the largest cap, the contract's counter tells. */
  lemma CapSettingExact(g: State, before: seq<Call>, caller: Address, dev: Address, cap: i128)
    requires Genesis(g) && SetDailyCap(Run(g, before), caller, dev, cap).Done?
    ensures var s := Run(g, before);
            var t := SetDailyCap(s, caller, dev, cap).st;
            && ((forall later :: CapUntouched(later, dev) ==> WithinCap(Run(t, later), dev))
                <==> cap == 0 || (cap > 0 && DaySum(s.journal, dev, s.now / SECONDS_PER_DAY) <= cap))
            && (cap < I128_MAX ==>
                  (DaySum(s.journal, dev, s.now / SECONDS_PER_DAY) <= cap <==> SpentToday(s, dev) <= cap))
  {
    RunCapping(g, before);
    var s := Run(g, before);
    var t := SetDailyCap(s, caller, dev, cap).st;
    AtomCapping(s, Entered(ESetCap(caller, dev, cap)));
    SpentIsTrueSum(s, dev);
    if cap == 0 || (cap > 0 && WithinCap(t, dev)) {
      forall later | CapUntouched(later, dev) ensures WithinCap(Run(t, later), dev) {
        RespectedStays(t, later, dev, cap);
      }
    } else {
      assert CapUntouched([], dev) && Run(t, []) == t;
    }
  }

  /** A contract with admin 1 that holds 10 for developer 7, whose daily cap is 20. */
  ghost function OneDeveloper(): State {
    State(0, 1, 2, 0, map[100 := map[0 := 10]], Some(100), map[(7, 100) := 10], map[], GlobalPool(0, 0), map[], 0, [7],
          map[], map[7 := 20], map[], map[], map[], VERSION_V2, [])
  }

  lemma TenWithdrawn()
    ensures var t := Withdraw(OneDeveloper(), 7, 10, None);
            t.Done? && t.st.admin == 1 && t.st.now == 0 && t.st.journal == [Withdrawal(7, 100, 10, 0, 20)]
  {
    assert WithdrawGuard(OneDeveloper(), 7, 10, None).Ok?;
  }

  /** Lowering the cap after a withdrawal breaks the documented invariant. */
  lemma LoweredCapBreaks()
    ensures var s, withdraw, lower := OneDeveloper(), Single(EWithdraw(7, 10, None)), Single(ESetCap(1, 7, 5));
            Genesis(s) && WithinCap(s, 7) && !WithinCap(Run(s, [withdraw] + [lower]), 7)
  {
    TenWithdrawn();
    var s := OneDeveloper();
    var s1 := Withdraw(s, 7, 10, None).st;
    RunHead(s, Single(EWithdraw(7, 10, None)), [Single(ESetCap(1, 7, 5))]);
    RunHead(s1, Single(ESetCap(1, 7, 5)), []);
    assert [Single(ESetCap(1, 7, 5))] + [] == [Single(ESetCap(1, 7, 5))];
    LoggedDay(s, Withdrawal(7, 100, 10, 0, 20));
    assert s1.journal == s.Log(Withdrawal(7, 100, 10, 0, 20)).journal;
  }

  /** So does a negative cap, which is accepted and, by the withdrawal's check, treated as none. */
  lemma NegativeCapBreaks()
    ensures var s := OneDeveloper();
            var t := SetDailyCap(s, 1, 7, -1);
            t.Done? && !WithinCap(t.st, 7) && Withdraw(t.st, 7, 10, None).Done?
  {
  }
}
