/** The per-developer token bucket with lazy refill. */
module RateLimit {
  import opened Base

  datatype Config = Config(capacity: i128, refillRate: i128)
  datatype Bucket = Bucket(tokens: i128, last: u32)
  datatype Verdict = Admitted | RateLimited | Overflow
  datatype Served = Served(verdict: Verdict, bucket: Option<Bucket>)

  /** Credits the ledgers that passed since the bucket was last stored, all at once. */
  function Refill(c: Config, b: Bucket, ledger: u32): Bucket {
    if ledger <= b.last then b
    else
      var added := c.refillRate * (ledger - b.last);
      if !FitsI128(added) then Bucket(b.tokens, ledger)
      else Bucket(Min(SaturatingI128(b.tokens + added), c.capacity), ledger)
  }

  /** One request: an unlimited developer always passes, and a rejected request stores nothing. */
  function Consume(config: Option<Config>, stored: Option<Bucket>, ledger: u32, amount: i128): Served {
    match config
    case None => Served(Admitted, stored)
    case Some(c) =>
      var b := Refill(c, stored.GetOr(Bucket(c.capacity, ledger)), ledger);
      if b.tokens < amount then Served(RateLimited, stored)
      else if !FitsI128(b.tokens - amount) then Served(Overflow, stored)
      else Served(Admitted, Some(Bucket(b.tokens - amount, b.last)))
  }

  /** What a configured bucket holds at a ledger: the capacity at first; later the stored tokens, plus the refill
      rate for every ledger passed unless that product does not fit, and never more than the capacity. */
  ghost function FilledTo(c: Config, stored: Option<Bucket>, ledger: u32): int {
    match stored
    case None => c.capacity
    case Some(b) =>
      var added := c.refillRate * (ledger - b.last);
      if ledger <= b.last || added > I128_MAX || added < I128_MIN then b.tokens
      else if b.tokens + added > c.capacity then c.capacity
      else if b.tokens + added < I128_MIN then I128_MIN
      else b.tokens + added
  }

  /** How any request is served: without a configuration always, and otherwise from what the bucket holds. */
  lemma ServiceExact(config: Option<Config>, stored: Option<Bucket>, ledger: u32, amount: i128)
    ensures var s := Consume(config, stored, ledger, amount);
            && (config.None? ==> s == Served(Admitted, stored))
            && (config.Some? ==>
                  var held := FilledTo(config.value, stored, ledger);
                  var last := if stored.Some? && stored.value.last > ledger then stored.value.last else ledger;
                  s == if held < amount then Served(RateLimited, stored)
                       else if held - amount > I128_MAX then Served(Overflow, stored)
                       else Served(Admitted, Some(Bucket(held - amount, last))))
  {
  }

  class RateLimiter {
    var ledger: u32
    var configs: map<Address, Config>
    var buckets: map<Address, Bucket>

    constructor (ledger: u32)
      ensures this.ledger == ledger && configs == map[] && buckets == map[]
    {
      this.ledger, configs, buckets := ledger, map[], map[];
    }

    function Stored(dev: Address): Option<Bucket>
      reads this
    {
      if dev in buckets then Some(buckets[dev]) else None
    }

    function Configured(dev: Address): Option<Config>
      reads this
    {
      if dev in configs then Some(configs[dev]) else None
    }

    method SetConfig(dev: Address, config: Config)
      modifies this`configs
      ensures configs == old(configs)[dev := config]
      ensures Configured(dev) == Some(config)
      ensures forall other :: other != dev ==> Configured(other) == old(Configured(other))
      ensures forall other :: Stored(other) == old(Stored(other))
    {
      configs := configs[dev := config];
    }

    /** `consume_tokens`. */
    method ConsumeTokens(dev: Address, amount: i128) returns (v: Verdict)
      modifies this`buckets
      ensures Served(v, Stored(dev)) == Consume(Configured(dev), old(Stored(dev)), ledger, amount)
      ensures buckets - {dev} == old(buckets) - {dev}
      ensures dev !in configs ==> v == Admitted && buckets == old(buckets)
      ensures dev in configs ==>
                var held := FilledTo(configs[dev], old(Stored(dev)), ledger);
                && (v == RateLimited <==> held < amount)
                && (v == Admitted <==> amount <= held <= I128_MAX + amount)
                && (v == Admitted ==> dev in buckets && buckets[dev].tokens == held - amount)
                && (v != Admitted ==> buckets == old(buckets))
    {
      ServiceExact(Configured(dev), Stored(dev), ledger, amount);
      if dev !in configs { return Admitted; }
      var config := configs[dev];
      var tokens, last := config.capacity, ledger;
      if dev in buckets { tokens, last := buckets[dev].tokens, buckets[dev].last; }
      if ledger > last {
        var refilled := CheckedI128(config.refillRate * (ledger - last));
        if refilled.Some? {
          tokens := SaturatingI128(tokens + refilled.value);
          if tokens > config.capacity { tokens := config.capacity; }
        }
        last := ledger;
      }
      if tokens < amount { return RateLimited; }
      var left := CheckedI128(tokens - amount);
      if left.None? { return Overflow; }
      buckets := buckets[dev := Bucket(left.value, last)];
      v := Admitted;
    }
  }

  // ------------------------------------------------- bound on any window

  datatype Request = Request(ledger: u32, amount: i128)

  ghost predicate InOrder(rs: seq<Request>) {
    forall i, j :: 0 <= i < j < |rs| ==> rs[i].ledger <= rs[j].ledger
  }

  ghost predicate NoneNegative(rs: seq<Request>) {
    forall i :: 0 <= i < |rs| ==> rs[i].amount >= 0
  }

  ghost predicate Sane(c: Config, b: Option<Bucket>, ledger: int) {
    && 0 <= c.capacity && 0 <= c.refillRate
    && (b.Some? ==> 0 <= b.value.tokens <= c.capacity && b.value.last <= ledger)
  }

  function Next(c: Config, b: Option<Bucket>, r: Request): Served {
    Consume(Some(c), b, r.ledger, r.amount)
  }

  /** The total admitted between ledgers `lo` and `hi` in a run of requests. */
  ghost function AdmittedIn(c: Config, b: Option<Bucket>, rs: seq<Request>, lo: int, hi: int): int
    decreases |rs|
  {
    if rs == [] then 0
    else
      var s := Next(c, b, rs[0]);
      (if s.verdict == Admitted && lo <= rs[0].ledger <= hi then rs[0].amount else 0)
      + AdmittedIn(c, s.bucket, rs[1..], lo, hi)
  }

  /** What the bucket can at most hold at a ledger. */
  ghost function Available(c: Config, b: Option<Bucket>, ledger: int): int {
    match b
    case None => c.capacity
    case Some(k) => Min(k.tokens + c.refillRate * (ledger - k.last), c.capacity)
  }

  lemma RefillAtMostAvailable(c: Config, b: Option<Bucket>, r: Request)
    requires Sane(c, b, r.ledger) && r.amount >= 0
    ensures var s := Next(c, b, r);
            && Sane(c, s.bucket, r.ledger)
            && (s.verdict == Admitted ==> r.amount + Available(c, s.bucket, r.ledger) <= Available(c, b, r.ledger))
            && (s.verdict != Admitted ==> s.bucket == b)
  {
    if b.Some? { MulMonotone(c.refillRate, 0, r.ledger - b.value.last); }
    var s := Next(c, b, r);
    if s.verdict == Admitted { assert s.bucket.value.last == r.ledger; }
  }

  /** Availability grows by at most the refill rate per ledger. */
  lemma AvailableGrows(c: Config, b: Option<Bucket>, from: int, to: int)
    requires Sane(c, b, from) && from <= to
    ensures 0 <= Available(c, b, from)
    ensures Available(c, b, to) <= Available(c, b, from) + c.refillRate * (to - from)
  {
    MulMonotone(c.refillRate, 0, to - from);
    if b.Some? {
      MulSplit(c.refillRate, from - b.value.last, to - from);
      MulMonotone(c.refillRate, 0, from - b.value.last);
    }
  }

  lemma {:induction false} NothingAfter(c: Config, b: Option<Bucket>, rs: seq<Request>, lo: int, hi: int)
    requires InOrder(rs) && (rs != [] ==> hi < rs[0].ledger)
    ensures AdmittedIn(c, b, rs, lo, hi) == 0
    decreases |rs|
  {
    if rs != [] { NothingAfter(c, Next(c, b, rs[0]).bucket, rs[1..], lo, hi); }
  }

  lemma {:induction false} BoundFrom(c: Config, b: Option<Bucket>, rs: seq<Request>, lo: int, hi: int, from: int)
    requires InOrder(rs) && NoneNegative(rs) && Sane(c, b, from)
    requires lo <= from <= hi && (rs != [] ==> from <= rs[0].ledger)
    ensures AdmittedIn(c, b, rs, lo, hi) <= Available(c, b, from) + c.refillRate * (hi - from)
    decreases |rs|
  {
    AvailableGrows(c, b, from, hi);
    MulMonotone(c.refillRate, 0, hi - from);
    if rs != [] {
      var r := rs[0];
      if r.ledger > hi {
        NothingAfter(c, b, rs, lo, hi);
      } else {
        RefillAtMostAvailable(c, b, r);
        AvailableGrows(c, b, from, r.ledger);
        BoundFrom(c, Next(c, b, r).bucket, rs[1..], lo, hi, r.ledger);
        MulSplit(c.refillRate, r.ledger - from, hi - r.ledger);
      }
    }
  }

  /** In every run of requests at non-decreasing ledgers, the total admitted in any window of ledgers is at
      most the capacity plus the refill of the window. */
  lemma {:induction false} WindowBound(c: Config, b: Option<Bucket>, rs: seq<Request>, lo: int, hi: int)
    requires InOrder(rs) && NoneNegative(rs) && lo <= hi
    requires Sane(c, b, if rs == [] then lo else rs[0].ledger)
    ensures AdmittedIn(c, b, rs, lo, hi) <= c.capacity + c.refillRate * (hi - lo)
    decreases |rs|
  {
    MulMonotone(c.refillRate, 0, hi - lo);
    if rs != [] {
      if rs[0].ledger < lo {
        RefillAtMostAvailable(c, b, rs[0]);
        WindowBound(c, Next(c, b, rs[0]).bucket, rs[1..], lo, hi);
      } else if rs[0].ledger > hi {
        NothingAfter(c, b, rs, lo, hi);
      } else {
        BoundFrom(c, b, rs, lo, hi, rs[0].ledger);
        MulMonotone(c.refillRate, hi - rs[0].ledger, hi - lo);
      }
    }
  }

  // ------------------------------------------------ lazy against eager

  /** The eager bucket adds the refill rate and clamps at every single ledger. */
  function Ticks(c: Config, tokens: int, n: nat): int {
    if n == 0 then tokens else Min(Ticks(c, tokens, n - 1) + c.refillRate, c.capacity)
  }

  /** `n` single refills, each clamped, are one clamped refill of `n` ledgers. */
  lemma {:induction false} TicksClosed(c: Config, tokens: int, n: nat)
    requires 0 <= c.refillRate && tokens <= c.capacity
    ensures Ticks(c, tokens, n) == Min(tokens + c.refillRate * n, c.capacity)
  {
    if n > 0 {
      TicksClosed(c, tokens, n - 1);
      MulSplit(c.refillRate, n - 1, 1);
    }
  }

  /** The verdicts of the eager bucket, which holds `tokens` at ledger `at`. */
  function EagerVerdicts(c: Config, tokens: int, at: int, rs: seq<Request>): seq<Verdict>
    decreases |rs|
  {
    if rs == [] then []
    else
      var now := Ticks(c, tokens, if rs[0].ledger <= at then 0 else rs[0].ledger - at);
      if now < rs[0].amount then [RateLimited] + EagerVerdicts(c, now, rs[0].ledger, rs[1..])
      else [Admitted] + EagerVerdicts(c, now - rs[0].amount, rs[0].ledger, rs[1..])
  }

  function LazyVerdicts(c: Config, b: Option<Bucket>, rs: seq<Request>): seq<Verdict>
    decreases |rs|
  {
    if rs == [] then []
    else [Next(c, b, rs[0]).verdict] + LazyVerdicts(c, Next(c, b, rs[0]).bucket, rs[1..])
  }

  /** At every request, the refill since the bucket was last stored fits in an i128. */
  ghost predicate RefillsFit(c: Config, b: Option<Bucket>, rs: seq<Request>)
    decreases |rs|
  {
    rs == [] ||
    (&& (b.Some? ==> FitsI128(c.refillRate * (rs[0].ledger - b.value.last)))
     && RefillsFit(c, Next(c, b, rs[0]).bucket, rs[1..]))
  }

  /** Ticking through the ledgers keeps the eager bucket at what is available to the lazy one. */
  lemma TicksAvailable(c: Config, b: Option<Bucket>, at: int, to: int)
    requires Sane(c, b, at) && at <= to
    ensures Ticks(c, Available(c, b, at), to - at) == Available(c, b, to)
  {
    TicksClosed(c, Available(c, b, at), to - at);
    MulMonotone(c.refillRate, 0, to - at);
    if b.Some? { MulSplit(c.refillRate, at - b.value.last, to - at); }
  }

  /** When the refill fits, a request is decided by exactly what is available, and takes exactly its amount. */
  lemma NextExact(c: Config, b: Option<Bucket>, r: Request)
    requires Sane(c, b, r.ledger) && r.amount >= 0
    requires b.Some? ==> FitsI128(c.refillRate * (r.ledger - b.value.last))
    ensures var s := Next(c, b, r);
            if Available(c, b, r.ledger) < r.amount then s == Served(RateLimited, b)
            else s == Served(Admitted, Some(Bucket(Available(c, b, r.ledger) - r.amount, r.ledger)))
    ensures var s := Next(c, b, r);
            && Sane(c, s.bucket, r.ledger)
            && Available(c, s.bucket, r.ledger) == Available(c, b, r.ledger) - if s.verdict == Admitted then r.amount else 0
  {
    if b.Some? { MulMonotone(c.refillRate, 0, r.ledger - b.value.last); }
  }

  lemma {:induction false} LazyTracksEager(c: Config, b: Option<Bucket>, at: int, rs: seq<Request>)
    requires InOrder(rs) && NoneNegative(rs) && RefillsFit(c, b, rs)
    requires Sane(c, b, at) && (rs != [] ==> at <= rs[0].ledger)
    ensures LazyVerdicts(c, b, rs) == EagerVerdicts(c, Available(c, b, at), at, rs)
    decreases |rs|
  {
    if rs != [] {
      var r := rs[0];
      TicksAvailable(c, b, at, r.ledger);
      NextExact(c, b, r);
      LazyTracksEager(c, Next(c, b, r).bucket, r.ledger, rs[1..]);
    }
  }

  /** From a full start, the lazy bucket and the eager one give the same verdict on every request of a run. */
  lemma LazyRefinesEager(c: Config, rs: seq<Request>)
    requires 0 <= c.capacity && 0 <= c.refillRate
    requires InOrder(rs) && NoneNegative(rs) && RefillsFit(c, None, rs)
    ensures LazyVerdicts(c, None, rs) == EagerVerdicts(c, c.capacity, if rs == [] then 0 else rs[0].ledger, rs)
  {
    LazyTracksEager(c, None, if rs == [] then 0 else rs[0].ledger, rs);
  }

  /** When the refill overflows, the code refills nothing. From a bucket on which the two agree, they agree on one
      request if and only if the refill fits, or the stored tokens cover the request anyway, or nothing could. */
  lemma OverflowAgreement(c: Config, b: Bucket, r: Request)
    requires Sane(c, Some(b), r.ledger) && r.amount >= 0
    ensures var elapsed := r.ledger - b.last;
            LazyVerdicts(c, Some(b), [r]) == EagerVerdicts(c, b.tokens, b.last, [r]) <==>
            FitsI128(c.refillRate * elapsed) || r.amount <= b.tokens || r.amount > c.capacity
  {
    var elapsed := r.ledger - b.last;
    TicksClosed(c, b.tokens, elapsed);
    MulMonotone(c.refillRate, 0, elapsed);
    var s := Next(c, Some(b), r);
    assert [r][1..] == [];
    assert LazyVerdicts(c, Some(b), [r]) == [s.verdict];
    var eager := if Ticks(c, b.tokens, elapsed) < r.amount then RateLimited else Admitted;
    assert EagerVerdicts(c, b.tokens, b.last, [r]) == [eager];
  }

  /** A bucket that never refills across a long enough gap: the overflow case does occur. */
  lemma OverflowOccurs()
    ensures var c, b, r := Config(I128_MAX, I128_MAX), Bucket(0, 0), Request(2, 1);
            LazyVerdicts(c, Some(b), [r]) == [RateLimited] && EagerVerdicts(c, b.tokens, b.last, [r]) == [Admitted]
  {
    var c, b, r := Config(I128_MAX, I128_MAX), Bucket(0, 0), Request(2, 1);
    assert [r][1..] == [];
    assert Ticks(c, 0, 1) == I128_MAX && Ticks(c, 0, 2) == I128_MAX;
    assert EagerVerdicts(c, b.tokens, b.last, [r]) == [Admitted] + EagerVerdicts(c, I128_MAX - 1, 2, []);
  }

  /** Requests at or after `from` that end within `n` ledgers of it. */
  ghost predicate Spans(rs: seq<Request>, from: int, n: int) {
    forall i :: 0 <= i < |rs| ==> from <= rs[i].ledger <= from + n
  }

  /** Ordered, non-negative requests that span at most `n` ledgers. */
  ghost predicate ShortRun(rs: seq<Request>, n: int) {
    InOrder(rs) && NoneNegative(rs) && (rs != [] ==> Spans(rs, rs[0].ledger, n))
  }

  /** The lazy and the eager bucket, both full at first, give the same verdicts. */
  ghost predicate Agree(c: Config, rs: seq<Request>) {
    LazyVerdicts(c, None, rs) == EagerVerdicts(c, c.capacity, if rs == [] then 0 else rs[0].ledger, rs)
  }

  lemma {:induction false} ShortRefillsFit(c: Config, b: Option<Bucket>, rs: seq<Request>, from: int, n: nat)
    requires 0 <= c.refillRate && FitsI128(c.refillRate * n)
    requires InOrder(rs) && NoneNegative(rs) && Spans(rs, from, n)
    requires b.Some? ==> from <= b.value.last && (rs != [] ==> b.value.last <= rs[0].ledger)
    ensures RefillsFit(c, b, rs)
    decreases |rs|
  {
    if rs != [] {
      if b.Some? {
        MulMonotone(c.refillRate, rs[0].ledger - b.value.last, n);
        MulMonotone(c.refillRate, 0, rs[0].ledger - b.value.last);
      }
      ShortRefillsFit(c, Next(c, b, rs[0]).bucket, rs[1..], from, n);
    }
  }

  /** A bucket without capacity admits empty requests only, refilled or not. */
  lemma NoCapacityNext(c: Config, b: Option<Bucket>, r: Request)
    requires c.capacity == 0 <= c.refillRate && Sane(c, b, r.ledger) && r.amount >= 0
    ensures Next(c, b, r) ==
            if r.amount > 0 then Served(RateLimited, b) else Served(Admitted, Some(Bucket(0, r.ledger)))
  {
    if b.Some? { MulMonotone(c.refillRate, 0, r.ledger - b.value.last); }
  }

  lemma {:induction false} NoCapacityAgrees(c: Config, b: Option<Bucket>, at: int, rs: seq<Request>)
    requires c.capacity == 0 <= c.refillRate && NoneNegative(rs) && InOrder(rs)
    requires Sane(c, b, at) && (rs != [] ==> at <= rs[0].ledger)
    ensures LazyVerdicts(c, b, rs) == EagerVerdicts(c, 0, at, rs)
    decreases |rs|
  {
    if rs != [] {
      var r := rs[0];
      MulMonotone(c.refillRate, 0, r.ledger - at);
      TicksClosed(c, 0, r.ledger - at);
      NoCapacityNext(c, b, r);
      NoCapacityAgrees(c, Next(c, b, r).bucket, r.ledger, rs[1..]);
      assert Ticks(c, 0, r.ledger - at) == 0;
      assert EagerVerdicts(c, 0, at, rs) == [Next(c, b, r).verdict] + EagerVerdicts(c, 0, r.ledger, rs[1..]);
    }
  }

  /** Draining the bucket at ledger 0 and asking for one token `n` ledgers later, when that refill overflows. */
  lemma OverflowDisagrees(c: Config, n: u32)
    requires 0 < c.capacity && 0 <= c.refillRate && !FitsI128(c.refillRate * n)
    ensures !Agree(c, [Request(0, c.capacity), Request(n, 1)])
  {
    var rs := [Request(0, c.capacity), Request(n, 1)];
    MulMonotone(c.refillRate, 0, n);
    TicksClosed(c, 0, n);
    assert rs[1..] == [Request(n, 1)] && rs[1..][1..] == [];
    var drained := Bucket(0, 0);
    assert Next(c, None, rs[0]) == Served(Admitted, Some(drained));
    assert Next(c, Some(drained), rs[1]).verdict == RateLimited;
    var lazy, eager := LazyVerdicts(c, Some(drained), rs[1..]), EagerVerdicts(c, 0, 0, rs[1..]);
    assert lazy[0] == RateLimited && eager[0] == Admitted;
    assert LazyVerdicts(c, None, rs) == [Admitted] + lazy && EagerVerdicts(c, c.capacity, 0, rs) == [Admitted] + eager;
    assert ([Admitted] + lazy)[1] != ([Admitted] + eager)[1];
  }

  /** From a full start, the lazy and the eager bucket agree on all runs that span at most `n` ledgers if and only if
      the refill of `n` ledgers fits in an i128, or the bucket has no capacity. */
  lemma RunAgreement(c: Config, n: u32)
    requires 0 <= c.capacity && 0 <= c.refillRate
    ensures (forall rs :: ShortRun(rs, n) ==> Agree(c, rs)) <==> FitsI128(c.refillRate * n) || c.capacity == 0
  {
    if FitsI128(c.refillRate * n) || c.capacity == 0 {
      forall rs: seq<Request> | ShortRun(rs, n) ensures Agree(c, rs) {
        if c.capacity == 0 {
          NoCapacityAgrees(c, None, if rs == [] then 0 else rs[0].ledger, rs);
        } else {
          ShortRefillsFit(c, None, rs, if rs == [] then 0 else rs[0].ledger, n);
          LazyRefinesEager(c, rs);
        }
      }
    } else {
      OverflowDisagrees(c, n);
      assert ShortRun([Request(0, c.capacity), Request(n, 1)], n);
    }
  }
}
