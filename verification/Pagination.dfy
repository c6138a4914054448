/** Cursor pagination over the sorted developer index, with calls between the pages. */
module Pagination {
  import opened Base
  import opened SortedIndex
  import opened Settlement
  import opened Conservation
  import opened Runs
  import StorageMigration

  const MAX_PAGE_SIZE := 100

  /** The part of the index after the first occurrence of the cursor; nothing when the cursor is unknown. */
  function After(ix: seq<Address>, cursor: Option<Address>): seq<Address> {
    match cursor
    case None => ix
    case Some(c) => if ix == [] then [] else if ix[0] == c then ix[1..] else After(ix[1..], cursor)
  }

  datatype PageOf = PageOf(addresses: seq<Address>, next: Option<Address>)

  function GetPage(ix: seq<Address>, cursor: Option<Address>, limit: u32): PageOf {
    var rest, size := After(ix, cursor), Min(limit, MAX_PAGE_SIZE);
    if size == 0 then PageOf([], None)
    else if |rest| < size then PageOf(rest, None)
    else PageOf(rest[..size], Some(rest[size - 1]))
  }

  ghost predicate Beyond(cursor: Option<Address>, a: Address) {
    cursor.Some? ==> cursor.value < a
  }

  ghost predicate Known(ix: seq<Address>, cursor: Option<Address>) {
    cursor.Some? ==> cursor.value in ix
  }

  /** In a sorted index, what follows a known cursor is everything beyond it. */
  lemma {:induction false} AfterIsBeyond(ix: seq<Address>, cursor: Option<Address>)
    requires Sorted(ix) && Known(ix, cursor)
    ensures Sorted(After(ix, cursor))
    ensures forall a :: a in After(ix, cursor) <==> a in ix && Beyond(cursor, a)
    decreases |ix|
  {
    if cursor.Some? && ix != [] {
      assert forall i :: 1 <= i < |ix| ==> ix[0] < ix[i] && ix[i] == ix[1..][i - 1];
      if ix[0] != cursor.value {
        assert cursor.value in ix[1..];
        AfterIsBeyond(ix[1..], cursor);
      }
    }
  }

  /** One page: ascending, all beyond the cursor, and nothing skipped up to the next cursor; it is full, at the
      limit or at 100, exactly when there is a next cursor. */
  lemma PageFacts(ix: seq<Address>, cursor: Option<Address>, limit: u32)
    requires Sorted(ix) && Known(ix, cursor) && limit >= 1
    ensures var p := GetPage(ix, cursor, limit);
            && Sorted(p.addresses)
            && (p.next.Some? ==> |p.addresses| == if limit < 100 then limit else 100)
            && (p.next.None? ==> |p.addresses| < if limit < 100 then limit else 100)
            && (forall a :: a in p.addresses <==>
                  a in ix && Beyond(cursor, a) && (p.next.Some? ==> a <= p.next.value))
            && (p.next.Some? ==> p.next.value in ix && Beyond(cursor, p.next.value))
  {
    AfterIsBeyond(ix, cursor);
    var rest, size := After(ix, cursor), Min(limit, MAX_PAGE_SIZE);
    if |rest| >= size { PrefixUpTo(rest, size); }
  }

  lemma PrefixUpTo(ix: seq<Address>, size: nat)
    requires Sorted(ix) && 0 < size <= |ix|
    ensures Sorted(ix[..size]) && ix[size - 1] in ix
    ensures forall a :: a in ix[..size] <==> a in ix && a <= ix[size - 1]
  {
    forall a ensures a in ix[..size] <==> a in ix && a <= ix[size - 1] {
      if a in ix && a <= ix[size - 1] {
        var i :| 0 <= i < |ix| && ix[i] == a;
        assert i < size && ix[..size][i] == a;
      }
    }
  }

  /** A reader asks for a page of `limit` records; `meanwhile` runs before its next request. */
  datatype Request = Request(limit: u32, meanwhile: seq<Call>)

  datatype Reading = Reading(addresses: seq<Address>, finished: bool)

  /** Following `next_cursor` from page to page until it is None, or until the requests run out. */
  function Traverse(s: State, cursor: Option<Address>, requests: seq<Request>): Reading
    decreases |requests|
  {
    if requests == [] then Reading([], false)
    else
      var p := GetPage(s.index, cursor, requests[0].limit);
      if p.next.None? then Reading(p.addresses, true)
      else
        var rest := Traverse(Run(s, requests[0].meanwhile), p.next, requests[1..]);
        Reading(p.addresses + rest.addresses, rest.finished)
  }

  datatype View = View(st: State, cursor: Option<Address>)

  /** What the reader finds when sending request `k`; None when the reading was finished before. */
  function ViewAt(s: State, cursor: Option<Address>, requests: seq<Request>, k: nat): Option<View>
    requires k < |requests|
    decreases k
  {
    if k == 0 then Some(View(s, cursor))
    else
      var next := GetPage(s.index, cursor, requests[0].limit).next;
      if next.None? then None else ViewAt(Run(s, requests[0].meanwhile), next, requests[1..], k - 1)
  }

  ghost predicate Contains(s: State, t: State) {
    forall a :: a in s.index ==> a in t.index
  }

  lemma AtomContains(s: State, a: Atom)
    requires Sound(s)
    ensures Contains(s, AtomStep(s, a))
  {
    if !a.Entered? {
      MergeKeepsRest(s, a);
    } else if Enter(s, a.e).Done? {
      if IsSetter(a.e) { SetterKeepsBooks(s, a.e); } else { EntryContains(s, a.e); }
    }
  }

  lemma EntryContains(s: State, e: Entry)
    requires Enter(s, e).Done? && !IsSetter(e)
    ensures Contains(s, Enter(s, e).st)
  {
    StorageMigration.EntryInserts(s, e);
    var t := Enter(s, e).st;
    if t.index != s.index {
      var a :| t.index == Insert(s.index, a);
      InsertShifts(s.index, a);
    }
  }

  /** Developers are never removed from the index. */
  lemma IndexOnlyGrows(s: State, calls: seq<Call>)
    requires Sound(s)
    ensures Sound(Run(s, calls)) && Contains(s, Run(s, calls))
  {
    var P := (t: State) => Sound(t) && Contains(s, t);
    forall t: State, a: Atom | P(t) ensures P(AtomStep(t, a)) { AtomSound(t, a); AtomContains(t, a); }
    KeptByRun(P, AnyAtom, s, calls);
  }

  /** Whatever happens between the pages, a finished reading is strictly ascending without repeats, stays
      beyond its cursor, and holds every address beyond the cursor that was indexed when it began. */
  lemma {:induction false} TraversalComplete(s: State, cursor: Option<Address>, requests: seq<Request>)
    requires Sound(s) && Known(s.index, cursor)
    requires forall i :: 0 <= i < |requests| ==> requests[i].limit >= 1
    ensures var r := Traverse(s, cursor, requests);
            && Sorted(r.addresses) && (forall a :: a in r.addresses ==> Beyond(cursor, a))
            && (r.finished ==> forall a :: a in s.index && Beyond(cursor, a) ==> a in r.addresses)
    decreases |requests|
  {
    if requests != [] {
      PageFacts(s.index, cursor, requests[0].limit);
      var p := GetPage(s.index, cursor, requests[0].limit);
      if p.next.Some? {
        var t := Run(s, requests[0].meanwhile);
        IndexOnlyGrows(s, requests[0].meanwhile);
        TraversalComplete(t, p.next, requests[1..]);
        SortedConcat(p.addresses, Traverse(t, p.next, requests[1..]).addresses, p.next.value);
      }
    }
  }

  lemma SortedConcat(a: seq<Address>, b: seq<Address>, m: Address)
    requires Sorted(a) && Sorted(b)
    requires forall x :: x in a ==> x <= m
    requires forall x :: x in b ==> m < x
    ensures Sorted(a + b)
  {
    var c := a + b;
    forall i, j | 0 <= i < j < |c| ensures c[i] < c[j] {
      if i < |a| <= j { assert a[i] in a && b[j - |a|] in b; }
    }
  }

  /** An address indexed at the time of page `k`, beyond the cursor of that page, is in the finished reading:
      inserts between pages are picked up whenever they land ahead of the cursor. */
  lemma {:induction false} TraversalCatchesUp(s: State, cursor: Option<Address>, requests: seq<Request>, k: nat, a: Address)
    requires Sound(s) && Known(s.index, cursor) && k < |requests|
    requires forall i :: 0 <= i < |requests| ==> requests[i].limit >= 1
    requires Traverse(s, cursor, requests).finished
    requires var v := ViewAt(s, cursor, requests, k);
             v.Some? && a in v.value.st.index && Beyond(v.value.cursor, a)
    ensures a in Traverse(s, cursor, requests).addresses
    decreases k
  {
    if k == 0 {
      TraversalComplete(s, cursor, requests);
    } else {
      PageFacts(s.index, cursor, requests[0].limit);
      IndexOnlyGrows(s, requests[0].meanwhile);
      TraversalCatchesUp(Run(s, requests[0].meanwhile), GetPage(s.index, cursor, requests[0].limit).next,
                         requests[1..], k - 1, a);
    }
  }

  /** At most `size` addresses from `start`, and the cursor for the rest. */
  function Stretch(ix: seq<Address>, start: nat, size: nat): PageOf
    requires start <= |ix| && 0 < size
  {
    if start + size <= |ix| then PageOf(ix[start..start + size], Some(ix[start + size - 1]))
    else PageOf(ix[start..], None)
  }

  lemma {:induction false} AfterFound(ix: seq<Address>, c: Address, i: nat)
    requires i < |ix| && ix[i] == c && c !in ix[..i]
    ensures After(ix, Some(c)) == ix[i + 1..]
  {
    if i > 0 {
      assert ix[0] == ix[..i][0] && ix[1..][..i - 1] == ix[..i][1..];
      AfterFound(ix[1..], c, i - 1);
    }
  }

  /** A page is the stretch of the index that starts right after the first occurrence of the cursor, if there is
      one. */
  lemma PageStart(ix: seq<Address>, cursor: Option<Address>, limit: u32) returns (start: nat)
    requires limit > 0
    ensures start <= |ix| && GetPage(ix, cursor, limit) == Stretch(ix, start, Min(limit, MAX_PAGE_SIZE))
    ensures cursor.None? ==> start == 0
    ensures cursor.Some? && cursor.value !in ix ==> start == |ix|
    ensures cursor.Some? && cursor.value in ix ==>
              start > 0 && ix[start - 1] == cursor.value && forall i :: 0 <= i < start - 1 ==> ix[i] != cursor.value
  {
    start := 0;
    if cursor.Some? {
      start := FirstAt(ix, cursor.value);
      if start < |ix| {
        AfterFound(ix, cursor.value, start);
        start := start + 1;
      } else {
        UnknownCursor(ix, cursor.value, limit);
      }
    }
    assert After(ix, cursor) == ix[start..];
    var end := start + Min(limit, MAX_PAGE_SIZE);
    if end <= |ix| { assert ix[start..][..end - start] == ix[start..end]; }
  }

  lemma FirstAt(ix: seq<Address>, c: Address) returns (i: nat)
    ensures i <= |ix| && c !in ix[..i] && (i < |ix| ==> ix[i] == c) && (i == |ix| ==> c !in ix)
  {
    i := 0;
    while i < |ix| && ix[i] != c
      invariant i <= |ix| && c !in ix[..i]
    {
      i := i + 1;
    }
    assert i == |ix| ==> ix[..i] == ix;
  }

  /** A cursor that is not in the index ends the reading with an empty page. */
  lemma {:induction false} UnknownCursor(ix: seq<Address>, c: Address, limit: u32)
    requires c !in ix
    ensures After(ix, Some(c)) == [] && GetPage(ix, Some(c), limit) == PageOf([], None)
  {
    if ix != [] { UnknownCursor(ix[1..], c, limit); }
  }
}
