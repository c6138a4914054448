/** The event archive of one developer: a FIFO cursor moving events from the active to the archived store. */
module Archive {
  import opened Base

  type Payload = seq<nat>
  type Events = map<u64, Payload>

  /** `tail` is the oldest unarchived index, `head` the next free one; an absent cursor reads as (0, 0). */
  datatype Queue = Queue(tail: u64, head: u64, active: Events, archived: Events)

  function Waiting(q: Queue): nat {
    if q.tail < q.head then q.head - q.tail else 0
  }

  /** The oldest index moves, with its event if there is one. */
  function MoveOne(q: Queue): Queue
    requires q.tail < q.head
  {
    if q.tail in q.active then
      Queue(q.tail + 1, q.head, q.active - {q.tail}, q.archived[q.tail := q.active[q.tail]])
    else
      q.(tail := q.tail + 1)
  }

  /** The queue after its next `n` indices are archived. */
  function Shift(q: Queue, n: nat): (t: Queue)
    requires n <= Waiting(q)
    ensures t.tail == q.tail + n && t.head == q.head
  {
    if n == 0 then q else MoveOne(Shift(q, n - 1))
  }

  /** The events that leave the active store are those at the indices passed. */
  lemma {:induction false} ShiftTakes(q: Queue, n: nat)
    requires n <= Waiting(q)
    ensures forall i :: i in Shift(q, n).active <==> i in q.active && !(q.tail <= i < q.tail + n)
  {
    if n > 0 { ShiftTakes(q, n - 1); }
  }

  lemma MoveOneCounts(q: Queue)
    requires q.tail < q.head
    ensures |MoveOne(q).active| == |q.active| - if q.tail in q.active then 1 else 0
  {
    if q.tail in q.active {
      var rest := q.active - {q.tail};
      assert q.active.Keys == rest.Keys + {q.tail};
      assert |q.active.Keys| == |q.active| && |rest.Keys| == |rest|;
    }
  }

  /** Every index from `from` on, `n` of them, holds an event. */
  ghost predicate AllHeld(active: Events, from: nat, n: nat) {
    forall i :: from <= i < from + n ==> i in active
  }

  /** At most `n` events left the active store, and exactly `n` when no index is empty. */
  ghost predicate Counted(q: Queue, t: Queue, n: nat) {
    && 0 <= |q.active| - |t.active| <= n
    && (|q.active| - |t.active| == n <==> AllHeld(q.active, q.tail, n))
  }

  /** Passing `n` indices archives at most `n` events, and exactly `n` when no index is empty. */
  lemma {:induction false} CountExact(q: Queue, n: nat)
    requires n <= Waiting(q)
    ensures Counted(q, Shift(q, n), n)
  {
    if n > 0 {
      CountExact(q, n - 1);
      var mid, last := Shift(q, n - 1), q.tail + n - 1;
      assert mid.tail == last;
      assert last in mid.active <==> last in q.active by { ShiftTakes(q, n - 1); }
      MoveOneCounts(mid);
      AllHeldGrows(q.active, q.tail, n);
    }
  }

  lemma AllHeldGrows(active: Events, from: nat, n: nat)
    requires n > 0
    ensures AllHeld(active, from, n) <==> AllHeld(active, from, n - 1) && from + n - 1 in active
  {
  }

  class EventArchive {
    var tail: u64
    var head: u64
    var active: Events
    var archived: Events

    function View(): Queue
      reads this
    {
      Queue(tail, head, active, archived)
    }

    /** `archive_events`: passes as many indices as are waiting, up to the batch size. The number returned is that of
        the indices; it is the number of events archived exactly when none of them is empty. */
    method ArchiveEvents(batchSize: u32) returns (count: u32)
      modifies this
      ensures count == Min(batchSize, Waiting(old(View()))) && View() == Shift(old(View()), count)
      ensures Counted(old(View()), View(), count)
    {
      ghost var before := View();
      count := 0;
      while count < batchSize
        invariant 0 <= count <= Min(batchSize, Waiting(before)) && View() == Shift(before, count)
      {
        if tail >= head { break; }
        ghost var here := View();
        assert Shift(before, count + 1) == MoveOne(here);
        if tail in active {
          archived := archived[tail := active[tail]];
          active := active - {tail};
        }
        tail := tail + 1;
        assert View() == MoveOne(here);
        count := count + 1;
      }
      CountExact(before, count);
    }
  }

  /** No event is in both stores. */
  ghost predicate Separate(q: Queue) {
    forall i :: i in q.active ==> i !in q.archived
  }

  /** Archiving loses, duplicates and alters no event, and exactly the oldest `n` indices move. */
  lemma {:induction false} ArchiveConserves(q: Queue, n: nat)
    requires Separate(q) && n <= Waiting(q)
    ensures var t := Shift(q, n);
            && Separate(t) && t.active.Keys + t.archived.Keys == q.active.Keys + q.archived.Keys
            && (forall i :: i in q.archived ==> i in t.archived && t.archived[i] == q.archived[i])
            && (forall i :: i in q.active ==>
                  if q.tail <= i < q.tail + n then i in t.archived && t.archived[i] == q.active[i]
                  else i in t.active && t.active[i] == q.active[i])
  {
    if n > 0 { ArchiveConserves(q, n - 1); }
  }

  lemma {:induction false} ShiftsAdd(q: Queue, n: nat, m: nat)
    requires n + m <= Waiting(q)
    ensures Shift(Shift(q, n), m) == Shift(q, n + m)
  {
    if m > 0 { ShiftsAdd(q, n, m - 1); }
  }

  /** Batches of the given sizes, one after the other. */
  function Drain(q: Queue, sizes: seq<u32>): Queue
    decreases |sizes|
  {
    if sizes == [] then q else Drain(Shift(q, Min(sizes[0], Waiting(q))), sizes[1..])
  }

  function SizeSum(sizes: seq<u32>): nat {
    if sizes == [] then 0 else sizes[0] + SizeSum(sizes[1..])
  }

  /** Any schedule of batch sizes passes the indices of one batch of the summed size, and ends in the same queue. */
  lemma {:induction false} BatchesCompose(q: Queue, sizes: seq<u32>)
    ensures Drain(q, sizes) == Shift(q, Min(SizeSum(sizes), Waiting(q)))
    decreases |sizes|
  {
    if sizes != [] {
      var n := Min(sizes[0], Waiting(q));
      BatchesCompose(Shift(q, n), sizes[1..]);
      ShiftsAdd(q, n, Min(SizeSum(sizes[1..]), Waiting(Shift(q, n))));
    }
  }
}
