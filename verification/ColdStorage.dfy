/** The hot/cold accounting split of the vault balance, in basis points. */
module ColdStorage {
  import opened Base

  const BPS_DENOMINATOR := 10000

  datatype VaultError = Overflow | InvalidHotBps | InvalidRebalanceThreshold | ColdSignersEmpty
                      | InvalidColdThreshold | DuplicateColdSigner
  datatype Result<+T> = Ok(value: T) | Err(error: VaultError) {
    predicate IsFailure() { Err? }
    function PropagateFailure<U>(): Result<U> requires Err? { Err(error) }
    function Extract(): T requires Ok? { value }
  }

  datatype ColdConfig = ColdConfig(hotBps: u32, thresholdBps: u32, signers: seq<Address>, signersNeeded: u32)
  datatype ColdBalances = ColdBalances(hot: i128, cold: i128)

  function Checked(x: int): Result<i128> {
    if FitsI128(x) then Ok(x) else Err(Overflow)
  }

  /** Machine division truncates toward zero. */
  function Quotient(a: int, b: int): int
    requires b != 0
  {
    if (a >= 0) == (b >= 0) then Abs(a) / Abs(b) else -(Abs(a) / Abs(b))
  }

  function Abs(x: int): nat {
    if x < 0 then -x else x
  }

  function CheckedDiv(a: i128, b: i128): Result<i128> {
    if b == 0 then Err(Overflow) else Checked(Quotient(a, b))
  }

  function Total(b: ColdBalances): Result<i128> {
    Checked(b.hot + b.cold)
  }

  /** The hot pool's share of the total, in basis points. */
  function HotShareBps(hot: i128, total: i128): Result<i128> {
    if total == 0 then Ok(0)
    else
      var scaled :- Checked(hot * BPS_DENOMINATOR);
      CheckedDiv(scaled, total)
  }

  function TargetHot(total: i128, hotBps: u32): Result<i128> {
    var scaled :- Checked(total * hotBps);
    CheckedDiv(scaled, BPS_DENOMINATOR)
  }

  /** Moves surplus from hot to cold when the hot share is above its target by more than the tolerance. */
  function MaybeRebalance(b: ColdBalances, c: ColdConfig): Result<ColdBalances> {
    var total :- Total(b);
    if total == 0 then Ok(b)
    else
      var share :- HotShareBps(b.hot, total);
      if Abs(share - c.hotBps) <= c.thresholdBps then Ok(b)
      else if share <= c.hotBps then Ok(b)
      else
        var newHot :- TargetHot(total, c.hotBps);
        var moved :- Checked(b.hot - newHot);
        var newCold :- Checked(b.cold + moved);
        Ok(ColdBalances(newHot, newCold))
  }

  // ------------------------------------------------------------- validation

  ghost predicate InBps(x: u32) {
    1 <= x <= 10000
  }

  ghost predicate DistinctSigners(c: ColdConfig) {
    forall i, j :: 0 <= i < j < |c.signers| ==> c.signers[i] != c.signers[j]
  }

  ghost predicate ValidConfig(c: ColdConfig) {
    && InBps(c.hotBps) && InBps(c.thresholdBps)
    && 1 <= c.signersNeeded <= |c.signers| && DistinctSigners(c)
  }

  /** Accepts exactly the consistent configurations, and names the first inconsistency otherwise. */
  method Validate(c: ColdConfig) returns (r: Result<()>)
    ensures r.Ok? <==> ValidConfig(c)
    ensures r == Err(InvalidHotBps) <==> !InBps(c.hotBps)
    ensures r == Err(InvalidRebalanceThreshold) <==> InBps(c.hotBps) && !InBps(c.thresholdBps)
    ensures r == Err(ColdSignersEmpty) <==> InBps(c.hotBps) && InBps(c.thresholdBps) && c.signers == []
    ensures r == Err(InvalidColdThreshold) <==>
            InBps(c.hotBps) && InBps(c.thresholdBps) && c.signers != [] && !(1 <= c.signersNeeded <= |c.signers|)
    ensures r == Err(DuplicateColdSigner) <==>
            InBps(c.hotBps) && InBps(c.thresholdBps) && 1 <= c.signersNeeded <= |c.signers| && !DistinctSigners(c)
  {
    if c.hotBps == 0 || c.hotBps > BPS_DENOMINATOR { return Err(InvalidHotBps); }
    if c.thresholdBps == 0 || c.thresholdBps > BPS_DENOMINATOR { return Err(InvalidRebalanceThreshold); }
    if |c.signers| == 0 { return Err(ColdSignersEmpty); }
    if c.signersNeeded == 0 || c.signersNeeded > |c.signers| { return Err(InvalidColdThreshold); }
    var i := 0;
    while i < |c.signers|
      invariant 0 <= i <= |c.signers|
      invariant forall p, q :: 0 <= p < i && p < q < |c.signers| ==> c.signers[p] != c.signers[q]
    {
      var j := i + 1;
      while j < |c.signers|
        invariant i + 1 <= j <= |c.signers|
        invariant forall q :: i < q < j ==> c.signers[i] != c.signers[q]
      {
        if c.signers[i] == c.signers[j] { return Err(DuplicateColdSigner); }
        j := j + 1;
      }
      i := i + 1;
    }
    return Ok(());
  }

  // ------------------------------------------------------------- properties

  /** For a floored quotient, comparing with a factor is comparing with the product. */
  lemma FloorAgainst(n: nat, d: nat, q: nat)
    requires d > 0
    ensures n / d >= q <==> n >= q * d
    ensures n / d * d <= n < n / d * d + d
  {
    var r := n / d;
    assert r * d + n % d == n;
    if r >= q { MulMonotone(d, q, r); } else { MulMonotone(d, r + 1, q); }
  }

  ghost predicate Nonnegative(b: ColdBalances) {
    b.hot >= 0 && b.cold >= 0
  }

  /** The hot share is above its target by more than the tolerance. */
  ghost predicate Drifted(b: ColdBalances, c: ColdConfig) {
    b.hot + b.cold > 0 && b.hot * 10000 / (b.hot + b.cold) > c.hotBps + c.thresholdBps
  }

  /** The share is the floored quotient, unless scaling the hot balance overflows. */
  lemma ShareIs(b: ColdBalances)
    requires Nonnegative(b) && b.hot + b.cold > 0 && FitsI128(b.hot + b.cold)
    ensures HotShareBps(b.hot, b.hot + b.cold) ==
            if FitsI128(b.hot * BPS_DENOMINATOR) then Ok(b.hot * BPS_DENOMINATOR / (b.hot + b.cold)) else Err(Overflow)
  {
    var scaled, total := b.hot * BPS_DENOMINATOR, b.hot + b.cold;
    FloorAgainst(scaled, total, 0);
    FloorAgainst(scaled, total, BPS_DENOMINATOR + 1);
    MulMonotone(BPS_DENOMINATOR, b.hot, total);
  }

  /** Exactly when a rebalance reports an overflow; never when the scaled total fits. */
  lemma RebalanceErrors(b: ColdBalances, c: ColdConfig)
    requires Nonnegative(b) && ValidConfig(c)
    ensures MaybeRebalance(b, c).Err? <==>
            !FitsI128(b.hot + b.cold)
            || (b.hot + b.cold > 0 && (!FitsI128(b.hot * BPS_DENOMINATOR)
                || (Drifted(b, c) && !FitsI128((b.hot + b.cold) * c.hotBps))))
    ensures FitsI128((b.hot + b.cold) * BPS_DENOMINATOR) ==> MaybeRebalance(b, c).Ok?
  {
    var total := b.hot + b.cold;
    MulMonotone(total, c.hotBps, BPS_DENOMINATOR);
    MulMonotone(total, 0, c.hotBps);
    if total > 0 && FitsI128(total) {
      ShareIs(b);
      if Drifted(b, c) && FitsI128(b.hot * BPS_DENOMINATOR) && FitsI128(total * c.hotBps) { TargetBelow(b, c); }
    }
  }

  /** A share above `bps` means more than `bps` of the total, in numbers as in shares. */
  lemma AboveShare(hot: nat, total: nat, bps: nat)
    requires total > 0 && hot * BPS_DENOMINATOR / total > bps
    ensures total * bps < hot * BPS_DENOMINATOR && 0 <= total * bps / BPS_DENOMINATOR < hot
  {
    FloorAgainst(hot * BPS_DENOMINATOR, total, bps + 1);
    MulSplit(total, bps, 1);
    MulMonotone(total, 0, bps);
    FloorAgainst(total * bps, BPS_DENOMINATOR, 0);
  }

  /** The target of a drifted split lies below the hot balance. */
  lemma TargetBelow(b: ColdBalances, c: ColdConfig)
    requires Nonnegative(b) && Drifted(b, c) && c.hotBps <= BPS_DENOMINATOR
    requires FitsI128(b.hot + b.cold) && FitsI128((b.hot + b.cold) * c.hotBps)
    ensures TargetHot(b.hot + b.cold, c.hotBps) == Ok((b.hot + b.cold) * c.hotBps / BPS_DENOMINATOR)
    ensures 0 <= (b.hot + b.cold) * c.hotBps / BPS_DENOMINATOR < b.hot
  {
    AboveShare(b.hot, b.hot + b.cold, c.hotBps);
    MulMonotone(b.hot + b.cold, 0, c.hotBps);
  }

  /** A rebalance keeps the total, never takes from cold, leaves a split within tolerance alone, and otherwise
      sets hot to the floored target. */
  lemma RebalanceMoves(b: ColdBalances, c: ColdConfig)
    requires Nonnegative(b) && ValidConfig(c) && MaybeRebalance(b, c).Ok?
    ensures var r := MaybeRebalance(b, c).value;
            && r.hot + r.cold == b.hot + b.cold && Nonnegative(r)
            && r.cold >= b.cold
            && (r != b <==> Drifted(b, c))
            && (Drifted(b, c) ==> r.hot == (b.hot + b.cold) * c.hotBps / BPS_DENOMINATOR && r.cold > b.cold)
  {
    var total := b.hot + b.cold;
    if total > 0 {
      ShareIs(b);
      MulMonotone(total, 0, c.hotBps);
      if Drifted(b, c) { TargetBelow(b, c); }
    }
  }

  lemma ShareAtMost(total: nat, bps: nat, hot: nat)
    requires total > 0 && hot * BPS_DENOMINATOR <= total * bps
    ensures hot * BPS_DENOMINATOR / total <= bps
  {
    FloorAgainst(hot * BPS_DENOMINATOR, total, bps + 1);
    MulSplit(total, bps, 1);
  }

  lemma ShareAtLeast(total: nat, bps: nat, hot: nat)
    requires total >= BPS_DENOMINATOR && bps >= 1 && total * bps < hot * BPS_DENOMINATOR + BPS_DENOMINATOR
    ensures hot * BPS_DENOMINATOR / total >= bps - 1
  {
    FloorAgainst(hot * BPS_DENOMINATOR, total, bps - 1);
    MulSplit(total, bps - 1, 1);
  }

  /** After a move, the floored share is the target or one basis point less, unless the total is tiny. */
  lemma ShareAfterMove(b: ColdBalances, c: ColdConfig)
    requires Nonnegative(b) && ValidConfig(c) && MaybeRebalance(b, c).Ok? && Drifted(b, c)
    ensures var total, r := b.hot + b.cold, MaybeRebalance(b, c).value;
            var share := r.hot * BPS_DENOMINATOR / total;
            share <= c.hotBps && (total >= BPS_DENOMINATOR ==> share >= c.hotBps - 1)
  {
    RebalanceMoves(b, c);
    var total := b.hot + b.cold;
    MulMonotone(total, 0, c.hotBps);
    FloorAgainst(total * c.hotBps, BPS_DENOMINATOR, 0);
    ShareAtMost(total, c.hotBps, MaybeRebalance(b, c).value.hot);
    if total >= BPS_DENOMINATOR { ShareAtLeast(total, c.hotBps, MaybeRebalance(b, c).value.hot); }
  }

  /** Rebalancing a second time changes nothing. */
  lemma RebalanceIdempotent(b: ColdBalances, c: ColdConfig)
    requires Nonnegative(b) && ValidConfig(c) && MaybeRebalance(b, c).Ok?
    ensures MaybeRebalance(MaybeRebalance(b, c).value, c) == MaybeRebalance(b, c)
  {
    RebalanceMoves(b, c);
    var r := MaybeRebalance(b, c).value;
    if Drifted(b, c) {
      ShareAfterMove(b, c);
      assert !Drifted(r, c);
      assert r.hot < b.hot;
      RebalanceErrors(b, c);
      RebalanceErrors(r, c);
      RebalanceMoves(r, c);
    }
  }
}
