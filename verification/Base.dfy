/** Machine integers, addresses and small helpers shared by every contract model. */
module Base {

  const I128_MAX: int := 0x7fff_ffff_ffff_ffff_ffff_ffff_ffff_ffff
  const I128_MIN: int := -I128_MAX - 1
  const U32_MAX: int := 0xffff_ffff
  const U64_MAX: int := 0xffff_ffff_ffff_ffff

  type i128 = x: int | I128_MIN <= x <= I128_MAX
  type u32 = x: int | 0 <= x <= U32_MAX
  type u64 = x: int | 0 <= x <= U64_MAX

  /** Addresses are only ever compared; their byte order is modelled by the order of the naturals. */
  type Address = nat

  datatype Option<+T> = None | Some(value: T) {
    function GetOr(default: T): T {
      match this
      case Some(v) => v
      case None => default
    }
  }

  predicate FitsI128(x: int) {
    I128_MIN <= x <= I128_MAX
  }

  /** Rust's checked arithmetic: the exact result, or None when it leaves the i128 range. */
  function CheckedI128(x: int): Option<i128> {
    if FitsI128(x) then Some(x) else None
  }

  function SaturatingI128(x: int): i128 {
    if x > I128_MAX then I128_MAX else if x < I128_MIN then I128_MIN else x
  }

  function CheckedU64(x: int): Option<u64> {
    if 0 <= x <= U64_MAX then Some(x) else None
  }

  function SaturatingU32(x: nat): u32 {
    if x > U32_MAX then U32_MAX else x
  }

  function Min(a: int, b: int): int {
    if a <= b then a else b
  }

  /** Storage read with a default, as in `get(key).unwrap_or(default)`. */
  function Read<K, V>(m: map<K, V>, k: K, default: V): V {
    if k in m then m[k] else default
  }

  lemma MulMonotone(r: int, x: int, y: int)
    requires 0 <= r && x <= y
    ensures r * x <= r * y
  {
  }

  lemma MulSplit(r: int, x: int, y: int)
    ensures r * (x + y) == r * x + r * y
  {
  }

  lemma ConcatThree<T>(a: seq<T>, b: seq<T>, c: seq<T>)
    ensures (a + b) + c == a + (b + c)
  {
  }
}
