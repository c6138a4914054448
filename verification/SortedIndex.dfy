/** The developer index: a vector of addresses kept in strictly ascending order. */
module SortedIndex {
  import opened Base

  ghost predicate Sorted(ix: seq<Address>) {
    forall i, j :: 0 <= i < j < |ix| ==> ix[i] < ix[j]
  }

  /** The first position whose address is above `a`, or the length of the index. */
  function FirstAbove(ix: seq<Address>, a: Address): (p: nat)
    ensures p <= |ix|
    ensures forall i :: 0 <= i < p ==> ix[i] <= a
    ensures p < |ix| ==> a < ix[p]
  {
    if ix == [] || a < ix[0] then 0 else 1 + FirstAbove(ix[1..], a)
  }

  function Insert(ix: seq<Address>, a: Address): seq<Address> {
    if a in ix then ix
    else var p := FirstAbove(ix, a); ix[..p] + [a] + ix[p..]
  }

  /** Where everything is after an insertion. */
  lemma InsertLayout(ix: seq<Address>, a: Address)
    requires a !in ix
    ensures var p, r := FirstAbove(ix, a), Insert(ix, a);
            && |r| == |ix| + 1 && r[p] == a
            && (forall q :: 0 <= q < p ==> r[q] == ix[q])
            && (forall q :: p < q < |r| ==> r[q] == ix[q - 1])
  {
  }

  /** After inserting `a`, the address at position `p` is still at `p` or has moved to `p + 1`. */
  ghost predicate InsertedAt(ix: seq<Address>, a: Address, p: nat)
    requires p < |ix|
  {
    var r := Insert(ix, a);
    (p < |r| && r[p] == ix[p]) || (p + 1 < |r| && r[p + 1] == ix[p])
  }

  /** Insertion adds exactly the new address and only shifts addresses to the right. */
  lemma InsertShifts(ix: seq<Address>, a: Address)
    ensures forall b :: b in Insert(ix, a) <==> b in ix || b == a
    ensures |ix| <= |Insert(ix, a)| <= |ix| + 1
    ensures forall p :: 0 <= p < |ix| ==> InsertedAt(ix, a, p)
  {
    if a !in ix {
      InsertLayout(ix, a);
      var p, r := FirstAbove(ix, a), Insert(ix, a);
      forall q | 0 <= q < |ix| ensures InsertedAt(ix, a, q) {
        assert if q < p then r[q] == ix[q] else r[q + 1] == ix[q];
      }
      forall b ensures b in r <==> b in ix || b == a {
        if b in r {
          var q :| 0 <= q < |r| && r[q] == b;
          assert if q < p then b == ix[q] else q == p || b == ix[q - 1];
        }
        if b in ix {
          var q :| 0 <= q < |ix| && ix[q] == b;
          assert InsertedAt(ix, a, q);
        }
      }
    }
  }

  /** Insertion keeps the index strictly ascending. */
  lemma InsertSorted(ix: seq<Address>, a: Address)
    requires Sorted(ix)
    ensures Sorted(Insert(ix, a))
  {
    if a !in ix {
      InsertLayout(ix, a);
      var p, r := FirstAbove(ix, a), Insert(ix, a);
      forall i | 0 <= i < p ensures r[i] < a { assert ix[i] != a; }
      forall j | p < j < |r| ensures a < r[j] { assert ix[p] <= ix[j - 1]; }
    }
  }

  /** `sorted_insert`: a membership scan, then a scan for the first larger entry. */
  method SortedInsert(index: seq<Address>, addr: Address) returns (r: seq<Address>)
    ensures r == Insert(index, addr)
  {
    var k := 0;
    while k < |index|
      invariant 0 <= k <= |index|
      invariant addr !in index[..k]
    {
      if index[k] == addr { return index; }
      k := k + 1;
    }
    assert index[..k] == index;
    var pos, i := |index|, 0;
    while i < |index|
      invariant 0 <= i <= |index| && pos == |index|
      invariant FirstAbove(index, addr) == i + FirstAbove(index[i..], addr)
    {
      if addr < index[i] {
        pos := i;
        break;
      }
      assert index[i..][1..] == index[i + 1..];
      i := i + 1;
    }
    assert pos == FirstAbove(index, addr);
    r := index[..pos] + [addr] + index[pos..];
  }
}
