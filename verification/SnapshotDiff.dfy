/** Comparing two storage snapshots: a two-pointer merge over key-sorted maps. */
module SnapshotDiff {
  import opened Base

  datatype Change<K, V> =
    | Added(key: K, value: V)
    | Modified(key: K, oldValue: V, newValue: V)
    | Removed(key: K, value: V)

  /** The key type's order. */
  ghost predicate TotalOrder<K(!new)>(lt: (K, K) -> bool) {
    && (forall x :: !lt(x, x))
    && (forall x, y :: x == y || lt(x, y) || lt(y, x))
    && (forall x, y, z :: lt(x, y) && lt(y, z) ==> lt(x, z))
  }

  /** What a list of entries says as a map: the last of several entries for a key wins. */
  function Contents<K, V>(entries: seq<(K, V)>): map<K, V> {
    if entries == [] then map[]
    else
      var last := entries[|entries| - 1];
      Contents(entries[..|entries| - 1])[last.0 := last.1]
  }

  /** A B-tree map: entries with strictly ascending keys. */
  ghost predicate Ascending<K, V>(lt: (K, K) -> bool, m: seq<(K, V)>) {
    forall i, j :: 0 <= i < j < |m| ==> lt(m[i].0, m[j].0)
  }

  ghost predicate Has<K, V>(m: seq<(K, V)>, k: K) {
    exists i :: 0 <= i < |m| && m[i].0 == k
  }

  ghost predicate Represents<K, V>(m: seq<(K, V)>, c: map<K, V>) {
    && (forall i :: 0 <= i < |m| ==> m[i].0 in c && c[m[i].0] == m[i].1)
    && (forall k :: k in c ==> Has(m, k))
  }

  /** The change between two maps at one key, if any. */
  ghost function ChangeAt<K, V>(b: map<K, V>, a: map<K, V>, k: K): Option<Change<K, V>> {
    if k in b && k in a then (if b[k] == a[k] then None else Some(Modified(k, b[k], a[k])))
    else if k in b then Some(Removed(k, b[k]))
    else if k in a then Some(Added(k, a[k]))
    else None
  }

  ghost predicate KeysAscend<K, V>(lt: (K, K) -> bool, cs: seq<Change<K, V>>) {
    forall i, j :: 0 <= i < j < |cs| ==> lt(cs[i].key, cs[j].key)
  }

  /** The change list of two maps: strictly ordered by key, and exactly the changes there are. */
  ghost predicate IsDiff<K(!new), V(!new)>(lt: (K, K) -> bool, cs: seq<Change<K, V>>, b: map<K, V>, a: map<K, V>) {
    && KeysAscend(lt, cs)
    && forall c :: c in cs <==> ChangeAt(b, a, c.key) == Some(c)
  }

  // ------------------------------------------------------------- algorithm

  /** Position of the first key not below `k`. */
  method LowerBound<K(!new), V>(lt: (K, K) -> bool, m: seq<(K, V)>, k: K) returns (p: nat)
    requires TotalOrder(lt) && Ascending(lt, m)
    ensures p <= |m|
    ensures forall i :: 0 <= i < p ==> lt(m[i].0, k)
    ensures forall i :: p <= i < |m| ==> !lt(m[i].0, k)
  {
    p := 0;
    while p < |m|
      invariant 0 <= p <= |m| && forall i :: 0 <= i < p ==> lt(m[i].0, k)
    {
      if !lt(m[p].0, k) { return; }
      p := p + 1;
    }
  }

  lemma ReplacedEntry<K(!new), V>(lt: (K, K) -> bool, m: seq<(K, V)>, p: nat, v: V, c: map<K, V>)
    requires TotalOrder(lt) && Ascending(lt, m) && Represents(m, c) && p < |m|
    ensures var k, r := m[p].0, m[p := (m[p].0, v)]; Ascending(lt, r) && Represents(r, c[k := v])
  {
    var k, r := m[p].0, m[p := (m[p].0, v)];
    assert forall i :: 0 <= i < |m| ==> r[i].0 == m[i].0;
    forall i | 0 <= i < |r| ensures r[i].0 in c[k := v] && c[k := v][r[i].0] == r[i].1 {
      if i < p { assert lt(m[i].0, m[p].0); } else if i > p { assert lt(m[p].0, m[i].0); }
    }
  }

  function Place<K, V>(m: seq<(K, V)>, p: nat, k: K, v: V): (r: seq<(K, V)>)
    requires p <= |m|
    ensures |r| == |m| + 1 && r[p] == (k, v)
    ensures forall i :: 0 <= i < p ==> r[i] == m[i]
    ensures forall i :: p < i < |r| ==> r[i] == m[i - 1]
  {
    m[..p] + [(k, v)] + m[p..]
  }

  ghost predicate Fits<K(!new), V>(lt: (K, K) -> bool, m: seq<(K, V)>, p: nat, k: K) {
    && p <= |m|
    && (forall i :: 0 <= i < p ==> lt(m[i].0, k))
    && (forall i :: p <= i < |m| ==> lt(k, m[i].0))
  }

  lemma PlacedAscends<K(!new), V>(lt: (K, K) -> bool, m: seq<(K, V)>, p: nat, k: K, v: V)
    requires Ascending(lt, m) && Fits(lt, m, p, k)
    ensures Ascending(lt, Place(m, p, k, v))
  {
  }

  lemma PlacedEntry<K(!new), V>(lt: (K, K) -> bool, m: seq<(K, V)>, p: nat, k: K, v: V, c: map<K, V>)
    requires TotalOrder(lt) && Represents(m, c) && Fits(lt, m, p, k)
    ensures Represents(Place(m, p, k, v), c[k := v])
  {
    var r := Place(m, p, k, v);
    forall x: K | x in c[k := v] ensures Has(r, x) {
      if x != k {
        var i :| 0 <= i < |m| && m[i].0 == x;
        assert r[if i < p then i else i + 1].0 == x;
      }
    }
    forall i | 0 <= i < |m| ensures m[i].0 != k { assert i < p ==> lt(m[i].0, k); }
  }

  lemma BoundFits<K(!new), V>(lt: (K, K) -> bool, m: seq<(K, V)>, p: nat, k: K)
    requires TotalOrder(lt) && Ascending(lt, m) && p <= |m| && (p < |m| ==> m[p].0 != k && !lt(m[p].0, k))
    requires forall i :: 0 <= i < p ==> lt(m[i].0, k)
    ensures Fits(lt, m, p, k)
  {
    forall i | p <= i < |m| ensures lt(k, m[i].0) {
      assert lt(k, m[p].0);
      if i > p { assert lt(m[p].0, m[i].0); }
    }
  }

  /** `BTreeMap::insert`: a new key goes to its place, a known key gets the new value. */
  method InsertEntry<K(==, !new), V>(lt: (K, K) -> bool, m: seq<(K, V)>, k: K, v: V, ghost c: map<K, V>)
      returns (r: seq<(K, V)>)
    requires TotalOrder(lt) && Ascending(lt, m) && Represents(m, c)
    ensures Ascending(lt, r) && Represents(r, c[k := v])
  {
    var p := LowerBound(lt, m, k);
    if p < |m| && m[p].0 == k {
      ReplacedEntry(lt, m, p, v, c);
      r := m[p := (k, v)];
    } else {
      BoundFits(lt, m, p, k);
      PlacedAscends(lt, m, p, k, v);
      PlacedEntry(lt, m, p, k, v, c);
      r := Place(m, p, k, v);
    }
  }

  method BuildMap<K(==, !new), V>(lt: (K, K) -> bool, entries: seq<(K, V)>) returns (m: seq<(K, V)>)
    requires TotalOrder(lt)
    ensures Ascending(lt, m) && Represents(m, Contents(entries))
  {
    m := [];
    var i := 0;
    while i < |entries|
      invariant 0 <= i <= |entries|
      invariant Ascending(lt, m) && Represents(m, Contents(entries[..i]))
    {
      assert entries[..i + 1][..i] == entries[..i];
      m := InsertEntry(lt, m, entries[i].0, entries[i].1, Contents(entries[..i]));
      i := i + 1;
    }
    assert entries[..i] == entries;
  }

  /** The merge of two key-sorted lists, head by head. */
  function Merge<K, V(==)>(lt: (K, K) -> bool, b: seq<(K, V)>, a: seq<(K, V)>): seq<Change<K, V>>
    decreases |b| + |a|
  {
    if b != [] && (a == [] || lt(b[0].0, a[0].0)) then
      [Removed(b[0].0, b[0].1)] + Merge(lt, b[1..], a)
    else if a != [] && (b == [] || lt(a[0].0, b[0].0)) then
      [Added(a[0].0, a[0].1)] + Merge(lt, b, a[1..])
    else if b != [] then
      (if b[0].1 != a[0].1 then [Modified(b[0].0, b[0].1, a[0].1)] else []) + Merge(lt, b[1..], a[1..])
    else []
  }

  /** Every key of `m` is above `k`. */
  ghost predicate Above<K(!new), V>(lt: (K, K) -> bool, k: K, m: map<K, V>) {
    forall x :: x in m ==> lt(k, x)
  }

  lemma TailRepresents<K(!new), V>(lt: (K, K) -> bool, m: seq<(K, V)>, c: map<K, V>)
    requires TotalOrder(lt) && Ascending(lt, m) && Represents(m, c) && m != []
    ensures Ascending(lt, m[1..]) && Represents(m[1..], c - {m[0].0}) && Above(lt, m[0].0, c - {m[0].0})
    ensures m[0].0 in c && c[m[0].0] == m[0].1
  {
    var t, d := m[1..], c - {m[0].0};
    forall x | x in d ensures Has(t, x) && lt(m[0].0, x) {
      var i :| 0 <= i < |m| && m[i].0 == x;
      assert t[i - 1].0 == x;
    }
    forall i | 0 <= i < |t| ensures t[i].0 in d && d[t[i].0] == t[i].1 { assert lt(m[0].0, m[i + 1].0); }
  }

  /** Keys above `x` stay clear of it: a diff of the maps without `x` extends by the change at `x`. */
  lemma DiffCons<K(!new), V(!new)>(lt: (K, K) -> bool, x: K, tail: seq<Change<K, V>>, b: map<K, V>, a: map<K, V>)
    requires TotalOrder(lt) && Above(lt, x, b - {x}) && Above(lt, x, a - {x})
    requires IsDiff(lt, tail, b - {x}, a - {x})
    ensures IsDiff(lt, (if ChangeAt(b, a, x).Some? then [ChangeAt(b, a, x).value] else []) + tail, b, a)
  {
    var head := if ChangeAt(b, a, x).Some? then [ChangeAt(b, a, x).value] else [];
    var cs := head + tail;
    forall c ensures c in cs <==> ChangeAt(b, a, c.key) == Some(c) {
      assert c in tail <==> ChangeAt(b - {x}, a - {x}, c.key) == Some(c);
      if c.key != x { assert ChangeAt(b - {x}, a - {x}, c.key) == ChangeAt(b, a, c.key); }
    }
    forall i, j | 0 <= i < j < |cs| ensures lt(cs[i].key, cs[j].key) {
      var c := tail[j - |head|];
      assert c in tail;
      if i >= |head| { assert cs[i] == tail[i - |head|]; }
    }
  }

  lemma {:induction false} MergeIsDiff<K(!new), V(!new)>(lt: (K, K) -> bool, b: seq<(K, V)>, a: seq<(K, V)>,
                                                             bm: map<K, V>, am: map<K, V>)
    requires TotalOrder(lt) && Ascending(lt, b) && Ascending(lt, a) && Represents(b, bm) && Represents(a, am)
    ensures IsDiff(lt, Merge(lt, b, a), bm, am)
    decreases |b| + |a|
  {
    if b != [] { TailRepresents(lt, b, bm); }
    if a != [] { TailRepresents(lt, a, am); }
    if b != [] && (a == [] || lt(b[0].0, a[0].0)) {
      var x := b[0].0;
      assert am - {x} == am && Above(lt, x, am) by { ClearOf(lt, x, a, am); }
      MergeIsDiff(lt, b[1..], a, bm - {x}, am);
      DiffCons(lt, x, Merge(lt, b[1..], a), bm, am);
    } else if a != [] && (b == [] || lt(a[0].0, b[0].0)) {
      var x := a[0].0;
      assert bm - {x} == bm && Above(lt, x, bm) by { ClearOf(lt, x, b, bm); }
      MergeIsDiff(lt, b, a[1..], bm, am - {x});
      DiffCons(lt, x, Merge(lt, b, a[1..]), bm, am);
    } else if b != [] {
      var x := b[0].0;
      MergeIsDiff(lt, b[1..], a[1..], bm - {x}, am - {x});
      DiffCons(lt, x, Merge(lt, b[1..], a[1..]), bm, am);
    }
  }

  lemma ClearOf<K(!new), V>(lt: (K, K) -> bool, x: K, m: seq<(K, V)>, c: map<K, V>)
    requires TotalOrder(lt) && Ascending(lt, m) && Represents(m, c)
    requires m != [] ==> lt(x, m[0].0)
    ensures Above(lt, x, c) && x !in c && c - {x} == c
  {
    forall y | y in c ensures lt(x, y) {
      var i :| 0 <= i < |m| && m[i].0 == y;
      if i > 0 { assert lt(m[0].0, m[i].0); }
    }
  }

  /** With the cursors at `i` and `j`, the changes `done` are what the merge lists before its rest. */
  ghost predicate Splits<K, V>(lt: (K, K) -> bool, b: seq<(K, V)>, i: nat, a: seq<(K, V)>, j: nat, done: seq<Change<K, V>>) {
    i <= |b| && j <= |a| && done + Merge(lt, b[i..], a[j..]) == Merge(lt, b, a)
  }

  lemma PassBefore<K, V>(lt: (K, K) -> bool, b: seq<(K, V)>, i: nat, a: seq<(K, V)>, j: nat, done: seq<Change<K, V>>)
    requires Splits(lt, b, i, a, j, done) && i < |b| && (j == |a| || lt(b[i].0, a[j].0))
    ensures Splits(lt, b, i + 1, a, j, done + [Removed(b[i].0, b[i].1)])
  {
    var head := [Removed(b[i].0, b[i].1)];
    assert b[i..][1..] == b[i + 1..];
    assert done + (head + Merge(lt, b[i + 1..], a[j..])) == (done + head) + Merge(lt, b[i + 1..], a[j..]);
  }

  lemma PassAfter<K, V>(lt: (K, K) -> bool, b: seq<(K, V)>, i: nat, a: seq<(K, V)>, j: nat, done: seq<Change<K, V>>)
    requires Splits(lt, b, i, a, j, done) && j < |a| && (i == |b| || (lt(a[j].0, b[i].0) && !lt(b[i].0, a[j].0)))
    ensures Splits(lt, b, i, a, j + 1, done + [Added(a[j].0, a[j].1)])
  {
    var head := [Added(a[j].0, a[j].1)];
    assert a[j..][1..] == a[j + 1..];
    assert done + (head + Merge(lt, b[i..], a[j + 1..])) == (done + head) + Merge(lt, b[i..], a[j + 1..]);
  }

  lemma PassBoth<K, V>(lt: (K, K) -> bool, b: seq<(K, V)>, i: nat, a: seq<(K, V)>, j: nat, done: seq<Change<K, V>>)
    requires Splits(lt, b, i, a, j, done) && i < |b| && j < |a| && !lt(a[j].0, b[i].0) && !lt(b[i].0, a[j].0)
    ensures Splits(lt, b, i + 1, a, j + 1,
                   if b[i].1 != a[j].1 then done + [Modified(b[i].0, b[i].1, a[j].1)] else done)
  {
    var head := if b[i].1 != a[j].1 then [Modified(b[i].0, b[i].1, a[j].1)] else [];
    assert b[i..][1..] == b[i + 1..] && a[j..][1..] == a[j + 1..];
    assert done + (head + Merge(lt, b[i + 1..], a[j + 1..])) == (done + head) + Merge(lt, b[i + 1..], a[j + 1..]);
    assert done + [] == done;
  }

  /** Walks both lists with two cursors, then drains what is left. */
  method MergeSorted<K, V(==)>(lt: (K, K) -> bool, b: seq<(K, V)>, a: seq<(K, V)>) returns (changes: seq<Change<K, V>>)
    ensures changes == Merge(lt, b, a)
  {
    changes := [];
    var i, j := 0, 0;
    while i < |b| && j < |a|
      invariant i <= |b| && j <= |a| && Splits(lt, b, i, a, j, changes)
      decreases |b| - i + |a| - j
    {
      var (bk, bv) := b[i];
      var (ak, av) := a[j];
      if lt(bk, ak) {
        PassBefore(lt, b, i, a, j, changes);
        changes := changes + [Removed(bk, bv)];
        i := i + 1;
      } else if lt(ak, bk) {
        PassAfter(lt, b, i, a, j, changes);
        changes := changes + [Added(ak, av)];
        j := j + 1;
      } else {
        PassBoth(lt, b, i, a, j, changes);
        if bv != av { changes := changes + [Modified(bk, bv, av)]; }
        i, j := i + 1, j + 1;
      }
    }
    while i < |b|
      invariant i <= |b| && j <= |a| && (i == |b| || j == |a|) && Splits(lt, b, i, a, j, changes)
    {
      PassBefore(lt, b, i, a, j, changes);
      changes := changes + [Removed(b[i].0, b[i].1)];
      i := i + 1;
    }
    while j < |a|
      invariant i == |b| && j <= |a| && Splits(lt, b, i, a, j, changes)
    {
      PassAfter(lt, b, i, a, j, changes);
      changes := changes + [Added(a[j].0, a[j].1)];
      j := j + 1;
    }
    assert changes + [] == changes;
  }

  /** `diff_snapshots`: build both maps, merge them, sort the result. */
  method DiffSnapshots<K(==, !new), V(==, !new)>(lt: (K, K) -> bool, before: seq<(K, V)>, after: seq<(K, V)>)
      returns (changes: seq<Change<K, V>>)
    requires TotalOrder(lt)
    ensures IsDiff(lt, changes, Contents(before), Contents(after))
  {
    var b := BuildMap(lt, before);
    var a := BuildMap(lt, after);
    changes := MergeSorted(lt, b, a);
    MergeIsDiff(lt, b, a, Contents(before), Contents(after));
    AscendingIsSorted(lt, changes);
    changes := SortByKey(lt, changes);
  }

  /** A stable sort by key. */
  function SortByKey<K, V>(lt: (K, K) -> bool, cs: seq<Change<K, V>>): seq<Change<K, V>> {
    if cs == [] then [] else InsertChange(lt, cs[0], SortByKey(lt, cs[1..]))
  }

  function InsertChange<K, V>(lt: (K, K) -> bool, c: Change<K, V>, cs: seq<Change<K, V>>): seq<Change<K, V>> {
    if cs == [] || !lt(cs[0].key, c.key) then [c] + cs
    else [cs[0]] + InsertChange(lt, c, cs[1..])
  }

  /** The merge leaves the final sort nothing to do. */
  lemma {:induction false} AscendingIsSorted<K(!new), V>(lt: (K, K) -> bool, cs: seq<Change<K, V>>)
    requires TotalOrder(lt) && KeysAscend(lt, cs)
    ensures SortByKey(lt, cs) == cs
  {
    if |cs| > 1 {
      AscendingIsSorted(lt, cs[1..]);
      assert lt(cs[0].key, cs[1].key);
    } else if cs != [] {
      assert cs[1..] == [];
    }
  }

  // ------------------------------------------------------------ properties

  lemma {:induction false} AscendingUnique<K(!new), V(!new)>(lt: (K, K) -> bool,
                                                             x: seq<Change<K, V>>, y: seq<Change<K, V>>)
    requires TotalOrder(lt) && KeysAscend(lt, x) && KeysAscend(lt, y)
    requires forall c :: c in x <==> c in y
    ensures x == y
  {
    assert (x != [] ==> x[0] in y) && (y != [] ==> y[0] in x);
    if x != [] {
      assert x[0] == y[0];
      forall c ensures c in x[1..] <==> c in y[1..] {
        if c in x[1..] { assert c in x && c != x[0]; }
        if c in y[1..] { assert c in y && c != y[0]; }
      }
      AscendingUnique(lt, x[1..], y[1..]);
    }
  }

  /** Two snapshots have one change list. */
  lemma DiffUnique<K(!new), V(!new)>(lt: (K, K) -> bool, x: seq<Change<K, V>>, y: seq<Change<K, V>>,
                                     b: map<K, V>, a: map<K, V>)
    requires TotalOrder(lt) && IsDiff(lt, x, b, a) && IsDiff(lt, y, b, a)
    ensures x == y
  {
    AscendingUnique(lt, x, y);
  }

  ghost predicate DistinctKeys<K, V>(entries: seq<(K, V)>) {
    forall i, j :: 0 <= i < j < |entries| ==> entries[i].0 != entries[j].0
  }

  /** Entries with distinct keys all stand in the map they say. */
  lemma {:induction false} DistinctContents<K(!new), V(!new)>(entries: seq<(K, V)>, k: K, v: V)
    requires DistinctKeys(entries)
    ensures (k, v) in entries <==> k in Contents(entries) && Contents(entries)[k] == v
    ensures k in Contents(entries) ==> (k, Contents(entries)[k]) in entries
    decreases |entries|
  {
    if entries != [] {
      var n := |entries| - 1;
      DistinctContents(entries[..n], k, v);
      assert forall e :: e in entries <==> e in entries[..n] || e == entries[n];
    }
  }

  /** The same entries, with distinct keys, in any two orders. */
  ghost predicate Reordered<K(!new), V(!new)>(p: seq<(K, V)>, q: seq<(K, V)>) {
    DistinctKeys(p) && DistinctKeys(q) && forall e :: e in p <==> e in q
  }

  lemma ReorderedContents<K(!new), V(!new)>(p: seq<(K, V)>, q: seq<(K, V)>)
    requires Reordered(p, q)
    ensures Contents(p) == Contents(q)
  {
    forall k: K ensures (k in Contents(p) <==> k in Contents(q))
                        && (k in Contents(p) ==> Contents(p)[k] == Contents(q)[k])
    {
      if k in Contents(p) {
        DistinctContents(p, k, Contents(p)[k]);
        DistinctContents(q, k, Contents(p)[k]);
      }
      if k in Contents(q) {
        DistinctContents(q, k, Contents(q)[k]);
        DistinctContents(p, k, Contents(q)[k]);
      }
    }
  }

  /** Reordering the entries of both snapshots leaves the change list as it is. */
  lemma OrderIrrelevant<K(!new), V(!new)>(lt: (K, K) -> bool, x: seq<Change<K, V>>, y: seq<Change<K, V>>,
                                          before: seq<(K, V)>, after: seq<(K, V)>,
                                          before': seq<(K, V)>, after': seq<(K, V)>)
    requires TotalOrder(lt) && Reordered(before, before') && Reordered(after, after')
    requires IsDiff(lt, x, Contents(before), Contents(after)) && IsDiff(lt, y, Contents(before'), Contents(after'))
    ensures x == y
  {
    ReorderedContents(before, before');
    ReorderedContents(after, after');
    DiffUnique(lt, x, y, Contents(before), Contents(after));
  }

  /** Replaying a change list on a snapshot. */
  function ApplyOne<K, V>(m: map<K, V>, c: Change<K, V>): map<K, V> {
    match c
    case Added(k, v) => m[k := v]
    case Modified(k, _, v) => m[k := v]
    case Removed(k, _) => m - {k}
  }

  function Apply<K, V>(m: map<K, V>, cs: seq<Change<K, V>>): map<K, V>
    decreases |cs|
  {
    if cs == [] then m else Apply(ApplyOne(m, cs[0]), cs[1..])
  }

  /** Replaying touches exactly the keys listed. */
  lemma {:induction false} ApplyAt<K(!new), V(!new)>(lt: (K, K) -> bool, m: map<K, V>, cs: seq<Change<K, V>>, k: K)
    requires TotalOrder(lt) && KeysAscend(lt, cs)
    ensures var r := Apply(m, cs);
            && (forall c :: c in cs && c.key == k ==>
                  if c.Removed? then k !in r
                  else k in r && r[k] == if c.Added? then c.value else c.newValue)
            && ((forall c :: c in cs ==> c.key != k) ==> (k in r <==> k in m) && (k in m ==> r[k] == m[k]))
    decreases |cs|
  {
    if cs != [] {
      ApplyAt(lt, ApplyOne(m, cs[0]), cs[1..], k);
      assert forall c :: c in cs[1..] ==> c in cs && lt(cs[0].key, c.key);
      assert forall c :: c in cs ==> c == cs[0] || c in cs[1..];
    }
  }

  /** Round trip: replaying the diff on the earlier snapshot gives the later one. */
  lemma ApplyDiff<K(!new), V(!new)>(lt: (K, K) -> bool, cs: seq<Change<K, V>>, b: map<K, V>, a: map<K, V>)
    requires TotalOrder(lt) && IsDiff(lt, cs, b, a)
    ensures Apply(b, cs) == a
  {
    var r := Apply(b, cs);
    forall k: K ensures (k in r <==> k in a) && (k in a ==> r[k] == a[k]) {
      ApplyAt(lt, b, cs, k);
      var c := ChangeAt(b, a, k);
      if c.Some? { assert c.value in cs; }
      assert forall d :: d in cs && d.key == k ==> c == Some(d);
    }
  }

  function Inverse<K, V>(c: Change<K, V>): Change<K, V> {
    match c
    case Added(k, v) => Removed(k, v)
    case Modified(k, was, now) => Modified(k, now, was)
    case Removed(k, v) => Added(k, v)
  }

  /** Swapping the snapshots inverts every change, in the same order. */
  lemma SwapInverts<K(!new), V(!new)>(lt: (K, K) -> bool, cs: seq<Change<K, V>>, ds: seq<Change<K, V>>,
                                      b: map<K, V>, a: map<K, V>)
    requires TotalOrder(lt) && IsDiff(lt, cs, b, a) && IsDiff(lt, ds, a, b)
    ensures |ds| == |cs| && forall i :: 0 <= i < |cs| ==> ds[i] == Inverse(cs[i])
  {
    var inv := seq(|cs|, i requires 0 <= i < |cs| => Inverse(cs[i]));
    forall c ensures c in inv <==> c in ds {
      assert ChangeAt(a, b, c.key) == Some(c) <==> ChangeAt(b, a, c.key) == Some(Inverse(c));
      if c in inv {
        var i :| 0 <= i < |inv| && inv[i] == c;
        assert cs[i] in cs && cs[i] == Inverse(c);
      }
      if c in ds {
        var i :| 0 <= i < |cs| && cs[i] == Inverse(c);
        assert inv[i] == c;
      }
    }
    AscendingUnique(lt, inv, ds);
  }

  /** A key is listed exactly when the two snapshots differ there, and never twice. */
  lemma ListedOnceIffDifferent<K(!new), V(!new)>(lt: (K, K) -> bool, cs: seq<Change<K, V>>, b: map<K, V>, a: map<K, V>, k: K)
    requires TotalOrder(lt) && IsDiff(lt, cs, b, a)
    ensures (exists i :: 0 <= i < |cs| && cs[i].key == k) <==> !((k in b <==> k in a) && (k in b && k in a ==> b[k] == a[k]))
    ensures forall i, j :: 0 <= i < |cs| && 0 <= j < |cs| && cs[i].key == k == cs[j].key ==> i == j
  {
    var c := ChangeAt(b, a, k);
    if c.Some? {
      assert c.value in cs;
    }
    forall i | 0 <= i < |cs| && cs[i].key == k ensures c.Some? { assert cs[i] in cs; }
  }
}
