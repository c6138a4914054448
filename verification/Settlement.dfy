/**
 The settlement contract as a state machine.

 A call either commits a new state, returns an error after writing nothing, or panics and is
 rolled back by the host. The journal is the history of what the contract accepted, in order;
 no entrypoint reads it.
 */
module Settlement {
  import opened Base
  import opened SortedIndex
  import opened Ledger

  const SECONDS_PER_DAY := 86400
  const MIGRATION_DELAY := 86400
  const MAX_BATCH_SIZE := 50
  const MAX_SETTLE_SIZE := 64
  const VERSION_V1 := 1
  const VERSION_V2 := 2

  datatype Error =
    | Unauthorized | AmountNotPositive | DeveloperRequired | DeveloperMustBeNone
    | PoolOverflow | DeveloperOverflow | UsdcTokenNotConfigured
    | InsufficientDeveloperBalance | DeveloperBalanceUnderflow | InsufficientContractBalance
    | DailyWithdrawCapExceeded | MigrationSameAddress | InvalidMigrationTarget
    | NoDeveloperBalance | TimelockOverflow | MigrationNotFound | TimelockNotExpired
    | MigrationBalanceChanged | InvalidClaimWindow | ClaimWindowClosed | MinBalanceViolation
    | ReplayDetected
    | Untyped  // a bare `panic!` or `assert!`, or a failure inside the token contract

  datatype GlobalPool = GlobalPool(total: i128, lastUpdated: u64)
  datatype ClaimWindow = ClaimWindow(startTs: u64, endTs: u64)
  datatype DailyWithdraw = DailyWithdraw(day: int, amount: i128)
  datatype PendingMigration =
    PendingMigration(from: Address, to: Address, amount: i128, proposedAt: u64, executeAfter: u64)

  /** One accepted fact. `seqno` is absent for a manual credit by the admin. */
  datatype Record =
    | Credit(dev: Address, token: Address, amount: i128, seqno: Option<u32>)
    | PoolCredit(amount: i128, poolSeqno: u32)
    | Withdrawal(dev: Address, token: Address, amount: i128, day: int, cap: i128)
    | Proposal(from: Address, to: Address, amount: i128, at: u64)
    | Migration(from: Address, to: Address, token: Address, amount: i128, at: u64)

  datatype State = State(
    self: Address, admin: Address, vault: Address,
    now: u64,                                    // the ledger clock
    tokens: map<Address, Token>,                 // every token contract's holdings
    usdc: Option<Address>,
    balances: map<(Address, Address), i128>,     // (developer, token)
    legacy: map<Address, i128>,                  // V1 slots
    pool: GlobalPool,
    marks: Marks, poolMark: u32,     // replay high-water marks
    index: seq<Address>,
    minimums: map<Address, i128>, caps: map<Address, i128>,
    windows: map<Address, ClaimWindow>, today: map<Address, DailyWithdraw>,
    pending: map<Address, PendingMigration>,
    version: int,
    journal: seq<Record>)
  {
    function Balance(dev: Address, token: Address): i128 { Read(balances, (dev, token), 0) }

    function Legacy(dev: Address): i128 { Read(legacy, dev, 0) }

    function OnLedger(token: Address): i128 { Held(Read(tokens, token, map[]), self) }

    function Mark(dev: Address): u32 { Read(marks, dev, 0) }

    function Log(r: Record): State { this.(journal := journal + [r]) }
  }

  datatype Outcome = Done(st: State) | Err(error: Error) | Panic(error: Error) {
    predicate IsFailure() { !Done? }
    function PropagateFailure(): Outcome requires IsFailure() { this }
    function Extract(): State requires !IsFailure() { st }
    function OrPanic(): Outcome { if Err? then Panic(error) else this }
    /** The state the host keeps. */
    function StateOr(prior: State): State { if Done? then st else prior }
  }

  /** What the caller of an entrypoint sees. */
  datatype Status = Ok | Failed(error: Error) | Panicked(error: Error)

  /** A call that ended in `status` and `after` did what `o` says; a panic or an error changed nothing. */
  ghost predicate Matches(o: Outcome, before: State, status: Status, after: State) {
    match o
    case Done(st) => status == Ok && after == st
    case Err(e) => status == Failed(e) && after == before
    case Panic(e) => status == Panicked(e) && after == before
  }

  // ---------------------------------------------------------------- credits

  datatype Payment = Payment(caller: Address, amount: i128, toPool: bool,
                             developer: Option<Address>, token: Address, seqno: u32)

  type Marks = map<Address, u32>

  function RaiseMark(marks: Marks, dev: Address, seqno: u32): Option<Marks> {
    if seqno <= Read(marks, dev, 0) then None else Some(marks[dev := seqno])
  }

  function CheckDeveloper(s: State, dev: Address, seqno: u32): Outcome {
    match RaiseMark(s.marks, dev, seqno)
    case None => Err(ReplayDetected)
    case Some(marks) => Done(s.(marks := marks))
  }

  function CheckPool(s: State, seqno: u32): Outcome {
    if seqno <= s.poolMark then Err(ReplayDetected) else Done(s.(poolMark := seqno))
  }

  function AddCredit(s: State, dev: Address, token: Address, amount: i128, seqno: Option<u32>): Outcome {
    if !FitsI128(s.Balance(dev, token) + amount) then Panic(DeveloperOverflow)
    else
      Done(s.(balances := s.balances[(dev, token) := s.Balance(dev, token) + amount],
              index := Insert(s.index, dev))
           .Log(Credit(dev, token, amount, seqno)))
  }

  function AddToPool(s: State, amount: i128, seqno: u32): Outcome {
    if !FitsI128(s.pool.total + amount) then Panic(PoolOverflow)
    else Done(s.(pool := GlobalPool(s.pool.total + amount, s.now)).Log(PoolCredit(amount, seqno)))
  }

  function ReceivePayment(s: State, p: Payment): Outcome {
    if p.caller != s.vault && p.caller != s.admin then Panic(Unauthorized)
    else if p.amount <= 0 then Panic(AmountNotPositive)
    else if p.toPool then
      var s1 :- CheckPool(s, p.seqno).OrPanic();
      if p.developer.Some? then Panic(DeveloperMustBeNone) else AddToPool(s1, p.amount, p.seqno)
    else if p.developer.None? then Panic(DeveloperRequired)
    else
      var s1 :- CheckDeveloper(s, p.developer.value, p.seqno).OrPanic();
      AddCredit(s1, p.developer.value, p.token, p.amount, Some(p.seqno))
  }

  type Items = seq<(Address, i128)>

  function RaiseEach(marks: Marks, items: Items, seqno: u32): Option<Marks>
    decreases |items|
  {
    if items == [] then Some(marks)
    else
      match RaiseMark(marks, items[0].0, seqno)
      case None => None
      case Some(raised) => RaiseEach(raised, items[1..], seqno)
  }

  function CreditEach(s: State, items: Items, token: Address, seqno: u32): Outcome
    decreases |items|
  {
    if items == [] then Done(s)
    else
      var s1 :- AddCredit(s, items[0].0, token, items[0].1, Some(seqno));
      CreditEach(s1, items[1..], token, seqno)
  }

  /** All marks are raised first; credits follow. */
  function CheckThenCredit(s: State, items: Items, token: Address, seqno: u32): Outcome {
    match RaiseEach(s.marks, items, seqno)
    case None => Panic(ReplayDetected)
    case Some(marks) => CreditEach(s.(marks := marks), items, token, seqno)
  }

  predicate AllPositive(items: Items) {
    forall i :: 0 <= i < |items| ==> items[i].1 > 0
  }

  /** All checks run before all credits. */
  function ReceiveBatch(s: State, caller: Address, items: Items, token: Address, seqno: u32): Outcome {
    if caller != s.vault && caller != s.admin then Panic(Unauthorized)
    else if |items| == 0 || |items| > MAX_BATCH_SIZE || !AllPositive(items) then Panic(Untyped)
    else CheckThenCredit(s, items, token, seqno)
  }

  function ForceCredit(s: State, caller: Address, dev: Address, amount: i128, token: Address): Outcome {
    if caller != s.admin then Panic(Unauthorized)
    else if amount <= 0 then Panic(AmountNotPositive)
    else AddCredit(s, dev, token, amount, None)
  }

  // ------------------------------------------------------------ withdrawals

  predicate WindowOpen(s: State, dev: Address) {
    dev in s.windows ==> s.windows[dev].startTs <= s.now <= s.windows[dev].endTs
  }

  /** What the contract believes `dev` has withdrawn on the current epoch day. */
  function SpentToday(s: State, dev: Address): i128 {
    if dev in s.today && s.today[dev].day == s.now / SECONDS_PER_DAY then s.today[dev].amount else 0
  }

  /** The checks of a withdrawal, in order; all of them come before any write. */
  function WithdrawGuard(s: State, dev: Address, amount: i128, to: Option<Address>): Status {
    if amount <= 0 then Failed(AmountNotPositive)
    else if to.GetOr(dev) == s.self then Panicked(Untyped)
    else if !WindowOpen(s, dev) then Failed(ClaimWindowClosed)
    else if s.usdc.None? then Failed(UsdcTokenNotConfigured)
    else
      var balance, minimum := s.Balance(dev, s.usdc.value), Read(s.minimums, dev, 0);
      var cap := Read(s.caps, dev, 0);
      if !FitsI128(balance - amount) then Failed(InsufficientDeveloperBalance)
      else if minimum > 0 && balance - amount < minimum then Failed(MinBalanceViolation)
      else if amount > balance then Failed(InsufficientDeveloperBalance)
      else if cap > 0 && SpentToday(s, dev) + amount > cap then Failed(DailyWithdrawCapExceeded)
      else if s.OnLedger(s.usdc.value) < amount then Failed(InsufficientContractBalance)
      else Ok
  }

  /** Transfers the tokens, debits the developer and counts the amount against the day. */
  function PayOut(s: State, dev: Address, amount: i128, recipient: Address): Outcome
    requires s.usdc.Some? && 0 < amount <= s.Balance(dev, s.usdc.value)
  {
    var token, day := s.usdc.value, s.now / SECONDS_PER_DAY;
    match Transfer(Read(s.tokens, token, map[]), s.self, recipient, amount)
    case None => Panic(Untyped)
    case Some(ledger) =>
      Done(s.(tokens := s.tokens[token := ledger],
              balances := s.balances[(dev, token) := s.Balance(dev, token) - amount],
              today := s.today[dev := DailyWithdraw(day, SaturatingI128(SpentToday(s, dev) + amount))])
           .Log(Withdrawal(dev, token, amount, day, Read(s.caps, dev, 0))))
  }

  function Withdraw(s: State, dev: Address, amount: i128, to: Option<Address>): Outcome {
    match WithdrawGuard(s, dev, amount, to)
    case Failed(e) => Err(e)
    case Panicked(e) => Panic(e)
    case Ok => PayOut(s, dev, amount, to.GetOr(dev))
  }

  datatype SettleInput = SettleInput(developer: Address, amount: i128, to: Option<Address>)
  datatype SettleOutcome = Success | NotPositive | WindowClosed | InsufficientBalance
                         | CapExceeded | BalanceUnderflow | OtherError
  datatype Settled = Settled(st: State, outcomes: seq<SettleOutcome>) | SettlePanic(error: Error)

  function FromError(e: Error): SettleOutcome {
    match e
    case AmountNotPositive => NotPositive
    case ClaimWindowClosed => WindowClosed
    case InsufficientDeveloperBalance => InsufficientBalance
    case DailyWithdrawCapExceeded => CapExceeded
    case DeveloperBalanceUnderflow => BalanceUnderflow
    case _ => OtherError
  }

  function OutcomeOf(r: Outcome): SettleOutcome
    requires !r.Panic?
  {
    if r.Done? then Success else FromError(r.error)
  }

  function WithdrawInput(s: State, i: SettleInput): Outcome {
    Withdraw(s, i.developer, i.amount, i.to)
  }

  /** Withdrawals in order; an error is reported and skipped, a panic undoes everything. */
  function SettleEach(s: State, inputs: seq<SettleInput>): Settled
    decreases |inputs|
  {
    if inputs == [] then Settled(s, [])
    else
      var r := WithdrawInput(s, inputs[0]);
      if r.Panic? then SettlePanic(r.error)
      else Prepend([OutcomeOf(r)], SettleEach(r.StateOr(s), inputs[1..]))
  }

  function Prepend(before: seq<SettleOutcome>, r: Settled): Settled {
    if r.SettlePanic? then r else Settled(r.st, before + r.outcomes)
  }

  function BatchSettle(s: State, inputs: seq<SettleInput>): Settled {
    if |inputs| > MAX_SETTLE_SIZE then Settled(s, seq(|inputs|, _ => OtherError))
    else SettleEach(s, inputs)
  }

  // ------------------------------------------------------ balance migration

  function ProposeMigration(s: State, caller: Address, from: Address, to: Address): Outcome {
    if caller != s.admin then Panic(Unauthorized)
    else if from == to then Panic(MigrationSameAddress)
    else if to == s.self then Panic(InvalidMigrationTarget)
    else if s.usdc.None? then Panic(UsdcTokenNotConfigured)
    else
      var amount := s.Balance(from, s.usdc.value);
      if amount <= 0 then Panic(NoDeveloperBalance)
      else if s.now + MIGRATION_DELAY > U64_MAX then Panic(TimelockOverflow)
      else
        Done(s.(pending := s.pending[from := PendingMigration(from, to, amount, s.now, s.now + MIGRATION_DELAY)])
             .Log(Proposal(from, to, amount, s.now)))
  }

  function ExecuteMigration(s: State, caller: Address, from: Address): Outcome {
    if caller != s.admin then Panic(Unauthorized)
    else if from !in s.pending then Panic(MigrationNotFound)
    else
      var m := s.pending[from];
      if s.now < m.executeAfter then Panic(TimelockNotExpired)
      else if s.usdc.None? then Panic(UsdcTokenNotConfigured)
      else MoveBalance(s, m, from, s.usdc.value)
  }

  /** Moves the snapshot amount and consumes the proposal. */
  function MoveBalance(s: State, m: PendingMigration, from: Address, token: Address): Outcome {
    var source, target := s.Balance(from, token), s.Balance(m.to, token);
    if !FitsI128(source - m.amount) || source - m.amount < 0 then Panic(MigrationBalanceChanged)
    else if !FitsI128(target + m.amount) then Panic(DeveloperOverflow)
    else
      Done(s.(balances := s.balances[(from, token) := source - m.amount][(m.to, token) := target + m.amount],
              index := Insert(s.index, m.to),
              pending := s.pending - {from})
           .Log(Migration(from, m.to, token, m.amount, s.now)))
  }

  // ------------------------------------------------------ storage migration

  function MergeSlot(s: State, dev: Address, token: Address): Outcome {
    if dev !in s.legacy then Done(s)
    else if !FitsI128(s.legacy[dev] + s.Balance(dev, token)) then Panic(DeveloperOverflow)
    else
      Done(s.(balances := s.balances[(dev, token) := s.legacy[dev] + s.Balance(dev, token)],
              legacy := s.legacy - {dev}))
  }

  function MergeEach(s: State, devs: seq<Address>, token: Address): (r: Outcome)
    ensures r.Done? ==> r.st == s.(balances := r.st.balances, legacy := r.st.legacy)
    decreases |devs|
  {
    if devs == [] then Done(s)
    else
      var s1 :- MergeSlot(s, devs[0], token);
      MergeEach(s1, devs[1..], token)
  }

  function MigrateAll(s: State, caller: Address): Outcome {
    if caller != s.admin then Panic(Unauthorized)
    else if s.version >= VERSION_V2 then Done(s)
    else if s.usdc.None? then Panic(UsdcTokenNotConfigured)
    else
      var s1 :- MergeEach(s, s.index, s.usdc.value);
      Done(s1.(version := VERSION_V2))
  }

  datatype PageResult = Paged(st: State, next: u32, done: bool) | PagePanic(error: Error)

  function PageEnd(offset: u32, size: u32, total: nat): u32 {
    Min(SaturatingU32(offset + if size == 0 then 1 else Min(size, MAX_BATCH_SIZE)), total)
  }

  function Slice(ix: seq<Address>, from: nat, end: nat): seq<Address>
    requires end <= |ix|
  {
    if from <= end then ix[from..end] else []
  }

  /** Merges the index slice from `offset` up to the page end. */
  function MigratePage(s: State, caller: Address, offset: u32, size: u32): PageResult {
    if caller != s.admin then PagePanic(Unauthorized)
    else if s.version >= VERSION_V2 then Paged(s, 0, true)
    else if s.usdc.None? then PagePanic(UsdcTokenNotConfigured)
    else
      var end := PageEnd(offset, size, |s.index|);
      match MergeEach(s, Slice(s.index, offset, end), s.usdc.value)
      case Done(s1) =>
        var done := end >= |s.index|;
        Paged(if done then s1.(version := VERSION_V2) else s1, end, done)
      case Err(e) => PagePanic(e)
      case Panic(e) => PagePanic(e)
  }

  function MigrateSingle(s: State, caller: Address, dev: Address): Outcome {
    if caller != s.admin then Panic(Unauthorized)
    else if s.usdc.None? then Err(UsdcTokenNotConfigured)
    else MergeSlot(s, dev, s.usdc.value)
  }

  // ---------------------------------------------------------------- setters

  function SetUsdcToken(s: State, caller: Address, token: Address): Outcome {
    if caller != s.admin || token == s.self then Panic(Untyped) else Done(s.(usdc := Some(token)))
  }

  function SetDailyCap(s: State, caller: Address, dev: Address, cap: i128): Outcome {
    if caller != s.admin then Panic(Unauthorized) else Done(s.(caps := s.caps[dev := cap]))
  }

  function SetMinimum(s: State, caller: Address, dev: Address, minimum: i128): Outcome {
    if caller != s.admin then Panic(Unauthorized)
    else if minimum < 0 then Panic(Untyped)
    else Done(s.(minimums := s.minimums[dev := minimum]))
  }

  function SetClaimWindow(s: State, caller: Address, dev: Address, start: u64, end: u64): Outcome {
    if caller != s.admin then Err(Unauthorized)
    else if end < start then Err(InvalidClaimWindow)
    else Done(s.(windows := s.windows[dev := ClaimWindow(start, end)]))
  }

  function ClearClaimWindow(s: State, caller: Address, dev: Address): Outcome {
    if caller != s.admin then Err(Unauthorized) else Done(s.(windows := s.windows - {dev}))
  }

  // ------------------------------------------------- the surrounding ledger

  /** A token transfer between other parties; only the contract itself can spend its own holding. */
  function ForeignTransfer(s: State, token: Address, from: Address, to: Address, amount: i128): Outcome {
    if from == s.self then Panic(Untyped)
    else
      match Transfer(Read(s.tokens, token, map[]), from, to, amount)
      case None => Panic(Untyped)
      case Some(ledger) => Done(s.(tokens := s.tokens[token := ledger]))
  }

  /** Ledger time only moves forward. */
  function Advance(s: State, time: u64): Outcome {
    if time < s.now then Panic(Untyped) else Done(s.(now := time))
  }

  // ------------------------------------------------------------------- runs

  /** Entrypoints that make one indivisible change. */
  datatype Entry =
    | EReceive(p: Payment)
    | EForce(caller: Address, dev: Address, amount: i128, token: Address)
    | EWithdraw(dev: Address, amount: i128, to: Option<Address>)
    | EPropose(caller: Address, from: Address, target: Address)
    | EExecute(caller: Address, from: Address)
    | ESetUsdc(caller: Address, token: Address)
    | ESetCap(caller: Address, dev: Address, cap: i128)
    | ESetMinimum(caller: Address, dev: Address, minimum: i128)
    | ESetWindow(caller: Address, dev: Address, start: u64, end: u64)
    | EClearWindow(caller: Address, dev: Address)
    | ETransfer(token: Address, from: Address, target: Address, amount: i128)
    | EAdvance(time: u64)

  datatype Call =
    | Single(e: Entry)
    | Batch(caller: Address, items: Items, token: Address, seqno: u32)
    | Settle(inputs: seq<SettleInput>)
    | MigrateDeveloper(caller: Address, dev: Address)
    | MigrateEveryone(caller: Address)
    | MigrateSlice(caller: Address, offset: u32, size: u32)

  function Enter(s: State, e: Entry): Outcome {
    match e
    case EReceive(p) => ReceivePayment(s, p)
    case EForce(caller, dev, amount, token) => ForceCredit(s, caller, dev, amount, token)
    case EWithdraw(dev, amount, to) => Withdraw(s, dev, amount, to)
    case EPropose(caller, from, to) => ProposeMigration(s, caller, from, to)
    case EExecute(caller, from) => ExecuteMigration(s, caller, from)
    case ESetUsdc(caller, token) => SetUsdcToken(s, caller, token)
    case ESetCap(caller, dev, cap) => SetDailyCap(s, caller, dev, cap)
    case ESetMinimum(caller, dev, minimum) => SetMinimum(s, caller, dev, minimum)
    case ESetWindow(caller, dev, start, end) => SetClaimWindow(s, caller, dev, start, end)
    case EClearWindow(caller, dev) => ClearClaimWindow(s, caller, dev)
    case ETransfer(token, from, to, amount) => ForeignTransfer(s, token, from, to, amount)
    case EAdvance(time) => Advance(s, time)
  }

  /** The state after a call; every failed call leaves the state as it was. */
  function Step(s: State, c: Call): State {
    match c
    case Single(e) => Enter(s, e).StateOr(s)
    case Batch(caller, items, token, seqno) => ReceiveBatch(s, caller, items, token, seqno).StateOr(s)
    case Settle(inputs) => var r := BatchSettle(s, inputs); if r.Settled? then r.st else s
    case MigrateDeveloper(caller, dev) => MigrateSingle(s, caller, dev).StateOr(s)
    case MigrateEveryone(caller) => MigrateAll(s, caller).StateOr(s)
    case MigrateSlice(caller, offset, size) =>
      var r := MigratePage(s, caller, offset, size); if r.Paged? then r.st else s
  }

  function Run(s: State, calls: seq<Call>): State
    decreases |calls|
  {
    if calls == [] then s else Run(Step(s, calls[0]), calls[1..])
  }

  /** A freshly deployed, or freshly upgraded, contract: legacy slots and balances may already exist. */
  ghost predicate Genesis(s: State) {
    s.journal == [] && s.pending == map[] && s.today == map[]
  }
}
