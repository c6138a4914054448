/** Finite balance sheets: sums over maps, and a token's transfer between holders. */
module Ledger {
  import opened Base

  /** The sum of all values of a map. */
  ghost function Sum<K>(m: map<K, int>): int {
    if m == map[] then 0
    else
      var k :| k in m;
      m[k] + Sum(m - {k})
  }

  lemma {:induction false} SumSplit<K>(m: map<K, int>, k: K)
    requires k in m
    ensures Sum(m) == m[k] + Sum(m - {k})
    decreases m.Keys
  {
    var c :| c in m && Sum(m) == m[c] + Sum(m - {c});
    if c != k {
      assert (m - {c}).Keys < m.Keys;
      assert (m - {k}).Keys < m.Keys by { assert k !in (m - {k}).Keys; }
      SumSplit(m - {c}, k);
      SumSplit(m - {k}, c);
      assert m - {c} - {k} == m - {k} - {c};
    }
  }

  /** Writing one entry moves the sum by exactly the change of that entry. */
  lemma SumUpdate<K>(m: map<K, int>, k: K, v: int)
    ensures Sum(m[k := v]) == Sum(m) - Read(m, k, 0) + v
  {
    SumSplit(m[k := v], k);
    if k in m {
      SumSplit(m, k);
      assert m[k := v] - {k} == m - {k};
    } else {
      assert m[k := v] - {k} == m;
    }
  }

  lemma SumRemove<K>(m: map<K, int>, k: K)
    ensures Sum(m - {k}) == Sum(m) - Read(m, k, 0)
  {
    if k in m { SumSplit(m, k); } else { assert m - {k} == m; }
  }

  /** One token's holdings. */
  type Token = map<Address, i128>

  function Held(l: Token, who: Address): i128 {
    Read(l, who, 0)
  }

  /** A token transfer: debit, then credit; None stands for the token contract's panic. */
  function Transfer(l: Token, from: Address, to: Address, amount: i128): Option<Token> {
    if amount < 0 || Held(l, from) < amount then None
    else
      var debited: Token := l[from := Held(l, from) - amount];
      if Held(debited, to) + amount > I128_MAX then None
      else Some(debited[to := Held(debited, to) + amount])
  }

  /** What a transfer does to every holder. */
  function Delta(from: Address, to: Address, amount: int, who: Address): int {
    (if who == to then amount else 0) - (if who == from then amount else 0)
  }

  lemma TransferFacts(l: Token, from: Address, to: Address, amount: i128)
    requires Transfer(l, from, to, amount).Some?
    ensures var r := Transfer(l, from, to, amount).value;
            && Sum(r) == Sum(l)
            && forall who :: Held(r, who) == Held(l, who) + Delta(from, to, amount, who)
  {
    var debited: Token := l[from := Held(l, from) - amount];
    SumUpdate(l, from, Held(l, from) - amount);
    SumUpdate(debited, to, Held(debited, to) + amount);
  }

  /** The sum of all entries of one token in a (holder, token) table. */
  ghost function TokenSum(m: map<(Address, Address), i128>, token: Address): int {
    Sum(map k | k in m && k.1 == token :: m[k])
  }

  lemma TokenSumUpdate(m: map<(Address, Address), i128>, k: (Address, Address), v: i128, token: Address)
    ensures TokenSum(m[k := v], token) ==
            TokenSum(m, token) + if k.1 == token then v - Read(m, k, 0) else 0
  {
    var part := map i | i in m && i.1 == token :: m[i];
    var after := map i | i in m[k := v] && i.1 == token :: m[k := v][i];
    if k.1 == token {
      assert after == part[k := v];
      SumUpdate(part, k, v);
    } else {
      assert after == part;
    }
  }
}
