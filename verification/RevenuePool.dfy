/** The revenue pool: single, batched and chunked payouts over one token ledger. */
module RevenuePool {
  import opened Base
  import opened Ledger

  const MAX_BATCH_SIZE := 50

  datatype Error = Unauthorized | Paused | AmountNotPositive | AmountExceedsMax | InvalidRecipient
                 | InsufficientBalance | DuplicateRecipient | TotalOverflow | TransferFailed
                 | BatchEmpty | BatchTooLarge

  datatype Outcome = Done(ledger: Token) | Err(error: Error) | Panic(error: Error) {
    predicate IsFailure() { !Done? }
    function PropagateFailure(): Outcome requires IsFailure() { this }
    function Extract(): Token requires !IsFailure() { ledger }
  }

  /** What an entrypoint reports, and the ledger it leaves. */
  datatype Status = Ok | Failed(error: Error) | Panicked(error: Error)

  ghost predicate Matches(o: Outcome, before: Token, status: Status, after: Token) {
    match o
    case Done(l) => status == Ok && after == l
    case Err(e) => status == Failed(e) && after == before
    case Panic(e) => status == Panicked(e) && after == before
  }

  datatype Pool = Pool(self: Address, admin: Address, paused: bool, maxDistribute: i128)

  type Payments = seq<(Address, i128)>

  function Gate(p: Pool, caller: Address): Option<Error> {
    if p.paused then Some(Paused) else if caller != p.admin then Some(Unauthorized) else None
  }

  function Distribute(p: Pool, l: Token, caller: Address, to: Address, amount: i128): Outcome {
    if Gate(p, caller).Some? then Panic(Gate(p, caller).value)
    else if amount <= 0 then Panic(AmountNotPositive)
    else if amount > p.maxDistribute then Panic(AmountExceedsMax)
    else if to == p.self then Panic(InvalidRecipient)
    else if Held(l, p.self) < amount then Panic(InsufficientBalance)
    else Pay(l, p.self, to, amount)
  }

  function Pay(l: Token, from: Address, to: Address, amount: i128): Outcome {
    match Transfer(l, from, to, amount)
    case None => Panic(TransferFailed)
    case Some(after) => Done(after)
  }

  /** The validation pass: recipients not seen before, amounts in range, and a running total. */
  function Scan(p: Pool, payments: Payments, seen: set<Address>, total: i128): (r: Option<Error>)
    decreases |payments|
  {
    if payments == [] then None
    else
      var (to, amount) := payments[0];
      if to in seen then Some(DuplicateRecipient)
      else if amount <= 0 then Some(AmountNotPositive)
      else if amount > p.maxDistribute then Some(AmountExceedsMax)
      else if !FitsI128(total + amount) then Some(TotalOverflow)
      else Scan(p, payments[1..], seen + {to}, total + amount)
  }

  /** A single payout is made exactly for the admin of a pool that is not paused, with a positive amount within the
      limit, to another party that can take it, from a pool that holds it; it moves exactly the amount. */
  lemma PayoutAcceptance(p: Pool, l: Token, caller: Address, to: Address, amount: i128)
    ensures var r := Distribute(p, l, caller, to, amount);
            && !r.Err?
            && (r.Done? <==>
                  && !p.paused && caller == p.admin && 0 < amount <= p.maxDistribute && to != p.self
                  && amount <= Held(l, p.self) && Held(l, to) + amount <= I128_MAX)
            && (r.Done? ==> forall who ::
                  Held(r.ledger, who) == Held(l, who)
                    + (if who == to then amount else 0) - (if who == p.self then amount else 0))
  {
    if Distribute(p, l, caller, to, amount).Done? { TransferFacts(l, p.self, to, amount); }
  }

  function Total(payments: Payments): int
    decreases |payments|
  {
    if payments == [] then 0 else payments[0].1 + Total(payments[1..])
  }

  /** The transfer pass. */
  function PayEach(p: Pool, l: Token, payments: Payments): Outcome
    decreases |payments|
  {
    if payments == [] then Done(l)
    else if payments[0].0 == p.self then Panic(InvalidRecipient)
    else
      var after :- Pay(l, p.self, payments[0].0, payments[0].1);
      PayEach(p, after, payments[1..])
  }

  function BatchDistribute(p: Pool, l: Token, caller: Address, payments: Payments): Outcome {
    if Gate(p, caller).Some? then Panic(Gate(p, caller).value)
    else if |payments| == 0 then Err(BatchEmpty)
    else if |payments| > MAX_BATCH_SIZE then Err(BatchTooLarge)
    else
      match Scan(p, payments, {}, 0)
      case Some(e) => Panic(e)
      case None =>
        if Held(l, p.self) < Total(payments) then Panic(InsufficientBalance) else PayEach(p, l, payments)
  }

  // ------------------------------------------------------------ entrypoints

  class RevenuePoolContract {
    const self: Address
    var admin: Address
    var paused: bool
    var maxDistribute: i128
    var ledger: Token

    constructor (contractAddress: Address, adminAddress: Address, token: Token)
      ensures self == contractAddress && ledger == token
      ensures View() == Pool(contractAddress, adminAddress, false, I128_MAX)
    {
      self, admin, paused, maxDistribute, ledger := contractAddress, adminAddress, false, I128_MAX, token;
    }

    function View(): Pool
      reads this
    {
      Pool(self, admin, paused, maxDistribute)
    }

    method DistributeOne(caller: Address, to: Address, amount: i128) returns (r: Status)
      modifies this`ledger
      ensures Matches(Distribute(View(), old(ledger), caller, to, amount), old(ledger), r, ledger)
    {
      if paused { return Panicked(Paused); }
      if caller != admin { return Panicked(Unauthorized); }
      if amount <= 0 { return Panicked(AmountNotPositive); }
      if amount > maxDistribute { return Panicked(AmountExceedsMax); }
      if to == self { return Panicked(InvalidRecipient); }
      if Held(ledger, self) < amount { return Panicked(InsufficientBalance); }
      match Transfer(ledger, self, to, amount) {
        case None => return Panicked(TransferFailed);
        case Some(after) => ledger := after;
      }
      r := Ok;
    }

    /** Validates everything, then transfers; a panic between transfers rolls all of them back. */
    method DistributeBatch(caller: Address, payments: Payments) returns (r: Status)
      modifies this`ledger
      ensures Matches(BatchDistribute(View(), old(ledger), caller, payments), old(ledger), r, ledger)
    {
      if paused { return Panicked(Paused); }
      if caller != admin { return Panicked(Unauthorized); }
      if |payments| == 0 { return Failed(BatchEmpty); }
      if |payments| > MAX_BATCH_SIZE { return Failed(BatchTooLarge); }
      var seen: map<Address, bool>, total: i128, i := map[], 0, 0;
      assert payments[i..] == payments && seen.Keys == {};
      while i < |payments|
        invariant 0 <= i <= |payments| && total + Total(payments[i..]) == Total(payments)
        invariant Scan(View(), payments[i..], seen.Keys, total) == Scan(View(), payments, {}, 0)
      {
        var (to, amount) := payments[i];
        assert payments[i..][1..] == payments[i + 1..];
        if to in seen { return Panicked(DuplicateRecipient); }
        if amount <= 0 { return Panicked(AmountNotPositive); }
        if amount > maxDistribute { return Panicked(AmountExceedsMax); }
        var sum := CheckedI128(total + amount);
        if sum.None? { return Panicked(TotalOverflow); }
        assert seen[to := true].Keys == seen.Keys + {to};
        seen, total := seen[to := true], sum.value;
        i := i + 1;
      }
      if Held(ledger, self) < total { return Panicked(InsufficientBalance); }
      var saved := ledger;
      i := 0;
      while i < |payments|
        invariant 0 <= i <= |payments|
        invariant PayEach(View(), ledger, payments[i..]) == PayEach(View(), saved, payments)
      {
        var (to, amount) := payments[i];
        assert payments[i..][1..] == payments[i + 1..];
        if to == self {
          ledger := saved;
          return Panicked(InvalidRecipient);
        }
        match Transfer(ledger, self, to, amount) {
          case None =>
            ledger := saved;
            return Panicked(TransferFailed);
          case Some(after) => ledger := after;
        }
        i := i + 1;
      }
      r := Ok;
    }
  }

  function Chunks(payments: Payments, size: nat): seq<Payments>
    decreases |payments|
  {
    if size == 0 || payments == [] then []
    else if |payments| <= size then [payments]
    else [payments[..size]] + Chunks(payments[size..], size)
  }

  /** A full chunk, and what is chunked after it. */
  lemma FullChunk(chunk: Payments, rest: Payments, size: nat)
    requires 0 < |chunk| == size
    ensures Chunks(chunk + rest, size) == [chunk] + Chunks(rest, size)
  {
    var all := chunk + rest;
    assert all[..size] == chunk && all[size..] == rest;
    if rest == [] { assert all == chunk; }
  }

  /** `chunk_iter`: fills a chunk and starts a new one whenever it is full. */
  method ChunkIter(payments: Payments, size: u32) returns (chunks: seq<Payments>)
    ensures chunks == Chunks(payments, size)
  {
    chunks := [];
    if size == 0 { return; }
    var current: Payments, i := [], 0;
    ghost var left := payments;
    while i < |payments|
      invariant 0 <= i <= |payments| && |current| < size && left == current + payments[i..]
      invariant chunks + Chunks(left, size) == Chunks(payments, size)
    {
      ghost var rest := payments[i + 1..];
      current := current + [payments[i]];
      assert left == current + rest;
      if |current| == size {
        FullChunk(current, rest, size);
        assert chunks + ([current] + Chunks(rest, size)) == (chunks + [current]) + Chunks(rest, size);
        chunks := chunks + [current];
        current, left := [], rest;
      }
      i := i + 1;
    }
    assert left == current;
    if |current| != 0 { chunks := chunks + [current]; }
  }

  // ------------------------------------------------------------- properties

  ghost predicate Distinct(payments: Payments) {
    forall i, j :: 0 <= i < j < |payments| ==> payments[i].0 != payments[j].0
  }

  ghost predicate InRange(p: Pool, payments: Payments) {
    forall i :: 0 <= i < |payments| ==> 0 < payments[i].1 <= p.maxDistribute
  }

  lemma {:induction false} ScanExact(p: Pool, payments: Payments, seen: set<Address>, total: i128)
    requires 0 <= total
    ensures Scan(p, payments, seen, total).None? <==>
            && Distinct(payments) && InRange(p, payments) && total + Total(payments) <= I128_MAX
            && (forall i :: 0 <= i < |payments| ==> payments[i].0 !in seen)
    ensures InRange(p, payments) ==> Total(payments) >= 0
    decreases |payments|
  {
    if payments != [] {
      var (to, amount) := payments[0];
      assert forall i :: 1 <= i < |payments| ==> payments[i] == payments[1..][i - 1];
      assert forall i :: 0 <= i < |payments| - 1 ==> payments[1..][i] == payments[i + 1];
      if FitsI128(total + amount) && amount > 0 {
        ScanExact(p, payments[1..], seen + {to}, total + amount);
      } else if amount > 0 {
        ScanExact(p, payments[1..], seen + {to}, total);
      }
    }
  }

  /** Single payouts one after the other. */
  function DistributeEach(p: Pool, l: Token, caller: Address, payments: Payments): Outcome
    decreases |payments|
  {
    if payments == [] then Done(l)
    else
      var after :- Distribute(p, l, caller, payments[0].0, payments[0].1);
      DistributeEach(p, after, caller, payments[1..])
  }

  lemma {:induction false} EachIsPay(p: Pool, l: Token, caller: Address, payments: Payments)
    requires Gate(p, caller).None?
    ensures var each, pay := DistributeEach(p, l, caller, payments), PayEach(p, l, payments);
            && (each.Done? <==> InRange(p, payments) && pay.Done?)
            && (each.Done? ==> each == pay)
    decreases |payments|
  {
    if payments != [] {
      assert forall i :: 1 <= i < |payments| ==> payments[i] == payments[1..][i - 1];
      assert forall i :: 0 <= i < |payments| - 1 ==> payments[1..][i] == payments[i + 1];
      var paid := Pay(l, p.self, payments[0].0, payments[0].1);
      if paid.Done? { EachIsPay(p, paid.ledger, caller, payments[1..]); }
    }
  }

  /** What a recipient is owed in a list. */
  function Owed(payments: Payments, who: Address): int
    decreases |payments|
  {
    if payments == [] then 0
    else (if payments[0].0 == who then payments[0].1 else 0) + Owed(payments[1..], who)
  }

  /** The transfer pass pays everyone what the list owes them, out of the pool, and conserves the supply. */
  lemma {:induction false} PayEachFlow(p: Pool, l: Token, payments: Payments)
    requires PayEach(p, l, payments).Done?
    ensures var after := PayEach(p, l, payments).ledger;
            && Sum(after) == Sum(l)
            && Held(after, p.self) == Held(l, p.self) - Total(payments)
            && forall who :: who != p.self ==> Held(after, who) == Held(l, who) + Owed(payments, who)
    ensures Total(payments) == 0 || Total(payments) <= Held(l, p.self)
    decreases |payments|
  {
    if payments != [] {
      var (to, amount) := payments[0];
      TransferFacts(l, p.self, to, amount);
      var l1 := Transfer(l, p.self, to, amount).value;
      PayEachFlow(p, l1, payments[1..]);
    }
  }

  /** A batch pays out exactly when it has 1 to 50 distinct recipients and the single payouts all succeed, and
      then it leaves the same ledger. */
  lemma BatchIsSequence(p: Pool, l: Token, caller: Address, payments: Payments)
    ensures var batch, each := BatchDistribute(p, l, caller, payments), DistributeEach(p, l, caller, payments);
            && (batch.Done? <==> 1 <= |payments| <= 50 && Distinct(payments) && each.Done?)
            && (batch.Done? ==> batch == each)
  {
    if payments != [] && Gate(p, caller).None? {
      ScanExact(p, payments, {}, 0);
      EachIsPay(p, l, caller, payments);
      if PayEach(p, l, payments).Done? { PayEachFlow(p, l, payments); }
    }
  }

  function Flatten(chunks: seq<Payments>): Payments {
    if chunks == [] then [] else chunks[0] + Flatten(chunks[1..])
  }

  /** Chunks put back together are the list, in order; all but the last are full, and none is empty. */
  lemma {:induction false} ChunksPartition(payments: Payments, size: nat)
    requires size > 0
    ensures var cs := Chunks(payments, size);
            && Flatten(cs) == payments
            && (forall i :: 0 <= i < |cs| ==> 1 <= |cs[i]| <= size)
            && (forall i :: 0 <= i < |cs| - 1 ==> |cs[i]| == size)
    decreases |payments|
  {
    if payments != [] && |payments| > size {
      ChunksPartition(payments[size..], size);
      var rest := Chunks(payments[size..], size);
      assert Chunks(payments, size)[1..] == rest;
      assert payments == payments[..size] + payments[size..];
    } else if payments != [] {
      assert [payments][1..] == [];
    }
  }

  /** `chunk_iter` loses payments exactly when asked for chunks of size zero. */
  lemma ChunksComplete(payments: Payments, size: nat)
    ensures Flatten(Chunks(payments, size)) == payments <==> size > 0 || payments == []
  {
    if size > 0 { ChunksPartition(payments, size); }
  }

  /** One batch per chunk, stopping at the first that fails. */
  function DistributeChunks(p: Pool, l: Token, caller: Address, chunks: seq<Payments>): Outcome
    decreases |chunks|
  {
    if chunks == [] then Done(l)
    else
      var after :- BatchDistribute(p, l, caller, chunks[0]);
      DistributeChunks(p, after, caller, chunks[1..])
  }

  lemma {:induction false} EachConcat(p: Pool, l: Token, caller: Address, a: Payments, b: Payments)
    ensures var first := DistributeEach(p, l, caller, a);
            DistributeEach(p, l, caller, a + b)
            == if first.Done? then DistributeEach(p, first.ledger, caller, b) else first
    decreases |a|
  {
    if a == [] {
      assert a + b == b;
    } else {
      assert (a + b)[1..] == a[1..] + b;
      var r := Distribute(p, l, caller, a[0].0, a[0].1);
      if r.Done? { EachConcat(p, r.ledger, caller, a[1..], b); }
    }
  }

  /** Chunk by chunk is payment by payment, as long as no chunk is oversized or names a recipient twice. */
  lemma {:induction false} ChunksAreSequence(p: Pool, l: Token, caller: Address, chunks: seq<Payments>)
    ensures var batched, each := DistributeChunks(p, l, caller, chunks), DistributeEach(p, l, caller, Flatten(chunks));
            && (batched.Done? <==>
                 each.Done? && forall i :: 0 <= i < |chunks| ==> 1 <= |chunks[i]| <= 50 && Distinct(chunks[i]))
            && (batched.Done? ==> batched == each)
    decreases |chunks|
  {
    if chunks != [] {
      BatchIsSequence(p, l, caller, chunks[0]);
      EachConcat(p, l, caller, chunks[0], Flatten(chunks[1..]));
      assert forall i :: 1 <= i < |chunks| ==> chunks[i] == chunks[1..][i - 1];
      assert forall i :: 0 <= i < |chunks| - 1 ==> chunks[1..][i] == chunks[i + 1];
      var r := BatchDistribute(p, l, caller, chunks[0]);
      if r.Done? {
        ChunksAreSequence(p, r.ledger, caller, chunks[1..]);
      } else if DistributeEach(p, l, caller, chunks[0]).Done? {
        assert !(1 <= |chunks[0]| <= 50 && Distinct(chunks[0]));
      }
    }
  }

  /** A full chunked payout: every recipient, however often and in whatever chunks it occurs, gains exactly its
      summed amount, the pool pays exactly the total, and the supply is conserved. */
  lemma ChunkedPayout(p: Pool, l: Token, caller: Address, payments: Payments, size: nat)
    requires size > 0 && DistributeChunks(p, l, caller, Chunks(payments, size)).Done?
    ensures var after := DistributeChunks(p, l, caller, Chunks(payments, size)).ledger;
            && Sum(after) == Sum(l)
            && Held(after, p.self) == Held(l, p.self) - Total(payments)
            && forall who :: who != p.self ==> Held(after, who) == Held(l, who) + Owed(payments, who)
  {
    ChunksPartition(payments, size);
    ChunksAreSequence(p, l, caller, Chunks(payments, size));
    if payments != [] {
      if Gate(p, caller).None? {
        EachIsPay(p, l, caller, payments);
        PayEachFlow(p, l, payments);
      }
    }
  }
}
