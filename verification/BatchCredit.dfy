/** Batched credits: two loops over the items do what one payment per item would do. */
module BatchCredit {
  import opened Base
  import opened Settlement

  function ItemPayment(caller: Address, item: (Address, i128), token: Address, seqno: u32): Payment {
    Payment(caller, item.1, false, Some(item.0), token, seqno)
  }

  /** One `receive_payment` per item, in order, stopping at the first failure. */
  function ReceiveEach(s: State, caller: Address, items: Items, token: Address, seqno: u32): Outcome
    decreases |items|
  {
    if items == [] then Done(s)
    else
      var s1 :- ReceivePayment(s, ItemPayment(caller, items[0], token, seqno));
      ReceiveEach(s1, caller, items[1..], token, seqno)
  }

  ghost predicate Distinct(items: Items) {
    forall i, j :: 0 <= i < j < |items| ==> items[i].0 != items[j].0
  }

  /** A credit neither reads nor writes the marks. */
  lemma CreditIgnoresMarks(s: State, m: Marks, dev: Address, token: Address, amount: i128, seqno: Option<u32>)
    ensures var r, t := AddCredit(s, dev, token, amount, seqno), AddCredit(s.(marks := m), dev, token, amount, seqno);
            && r.Done? == t.Done?
            && (r.Done? ==> t.st == r.st.(marks := m))
  {
  }

  /** The batch's two loops, one item at a time. */
  lemma CheckThenCreditHead(s: State, items: Items, token: Address, seqno: u32)
    requires items != []
    ensures var (dev, amount) := items[0];
            var raised := RaiseMark(s.marks, dev, seqno);
            var two := CheckThenCredit(s, items, token, seqno);
            if raised.None? || RaiseEach(raised.value, items[1..], seqno).None? then !two.Done?
            else
              var head := AddCredit(s.(marks := raised.value), dev, token, amount, Some(seqno));
              two == if head.Done? then CheckThenCredit(head.st, items[1..], token, seqno) else head
  {
    var (dev, amount) := items[0];
    var raised := RaiseMark(s.marks, dev, seqno);
    if raised.Some? {
      var s1, rest := s.(marks := raised.value), RaiseEach(raised.value, items[1..], seqno);
      if rest.Some? {
        CreditIgnoresMarks(s1, rest.value, dev, token, amount, Some(seqno));
        assert s.(marks := rest.value) == s1.(marks := rest.value);
      }
    }
  }

  /** One payment is one raised mark and one credit. */
  lemma ReceiveEachHead(s: State, caller: Address, items: Items, token: Address, seqno: u32)
    requires items != [] && items[0].1 > 0 && (caller == s.vault || caller == s.admin)
    ensures var (dev, amount) := items[0];
            var raised := RaiseMark(s.marks, dev, seqno);
            var each := ReceiveEach(s, caller, items, token, seqno);
            if raised.None? then !each.Done?
            else
              var head := AddCredit(s.(marks := raised.value), dev, token, amount, Some(seqno));
              each == if head.Done? then ReceiveEach(head.st, caller, items[1..], token, seqno) else head
  {
  }

  /** A credit keeps the marks, the vault and the admin. */
  lemma CreditKeepsRoles(s: State, dev: Address, token: Address, amount: i128, seqno: Option<u32>)
    requires AddCredit(s, dev, token, amount, seqno).Done?
    ensures var t := AddCredit(s, dev, token, amount, seqno).st;
            t.marks == s.marks && t.vault == s.vault && t.admin == s.admin
  {
  }

  /** Check-all-then-credit-all is check-and-credit one by one. */
  lemma {:induction false} LoopsFuse(s: State, caller: Address, items: Items, token: Address, seqno: u32)
    requires caller == s.vault || caller == s.admin
    requires AllPositive(items)
    ensures var two, fused := CheckThenCredit(s, items, token, seqno), ReceiveEach(s, caller, items, token, seqno);
            two.Done? == fused.Done? && (two.Done? ==> two == fused)
    decreases |items|
  {
    if items == [] {
      assert s.(marks := s.marks) == s;
    } else {
      var (dev, amount) := items[0];
      CheckThenCreditHead(s, items, token, seqno);
      ReceiveEachHead(s, caller, items, token, seqno);
      var raised := RaiseMark(s.marks, dev, seqno);
      if raised.Some? {
        var s1 := s.(marks := raised.value);
        var head := AddCredit(s1, dev, token, amount, Some(seqno));
        if head.Done? {
          CreditKeepsRoles(s1, dev, token, amount, Some(seqno));
          LoopsFuse(head.st, caller, items[1..], token, seqno);
        }
      }
    }
  }

  lemma {:induction false} CreditEachNeverErrs(s: State, items: Items, token: Address, seqno: u32)
    ensures !CreditEach(s, items, token, seqno).Err?
    decreases |items|
  {
    if items != [] {
      var r := AddCredit(s, items[0].0, token, items[0].1, Some(seqno));
      if r.Done? { CreditEachNeverErrs(r.st, items[1..], token, seqno); }
    }
  }

  /** The batch commits exactly when it holds 1 to 50 items and the payment-by-payment run commits,
      and then both reach the same state. */
  lemma BatchIsSequence(s: State, caller: Address, items: Items, token: Address, seqno: u32)
    ensures var batch := ReceiveBatch(s, caller, items, token, seqno);
            var fold := ReceiveEach(s, caller, items, token, seqno);
            && (batch.Done? <==> 1 <= |items| <= 50 && fold.Done?) && !batch.Err?
            && (batch.Done? ==> batch.st == fold.st)
  {
    var raised := RaiseEach(s.marks, items, seqno);
    if raised.Some? { CreditEachNeverErrs(s.(marks := raised.value), items, token, seqno); }
    if items != [] {
      if (caller == s.vault || caller == s.admin) && AllPositive(items) {
        LoopsFuse(s, caller, items, token, seqno);
      } else if ReceiveEach(s, caller, items, token, seqno).Done? {
        FoldNeedsPositive(s, caller, items, token, seqno);
      }
    }
  }

  lemma {:induction false} FoldNeedsPositive(s: State, caller: Address, items: Items, token: Address, seqno: u32)
    requires items != [] && ReceiveEach(s, caller, items, token, seqno).Done?
    ensures AllPositive(items) && (caller == s.vault || caller == s.admin)
    decreases |items|
  {
    var s1 := ReceivePayment(s, ItemPayment(caller, items[0], token, seqno)).st;
    if |items| > 1 { FoldNeedsPositive(s1, caller, items[1..], token, seqno); }
    assert forall i :: 1 <= i < |items| ==> items[i] == items[1..][i - 1];
  }

  /** Raising marks one by one succeeds exactly for distinct developers whose marks are all below. */
  lemma {:induction false} RaiseEachExact(marks: Marks, items: Items, seqno: u32)
    ensures RaiseEach(marks, items, seqno).Some? <==>
            Distinct(items) && forall i :: 0 <= i < |items| ==> Read(marks, items[i].0, 0) < seqno
    decreases |items|
  {
    if items != [] {
      assert forall i :: 1 <= i < |items| ==> items[i] == items[1..][i - 1];
      assert forall i :: 0 <= i < |items| - 1 ==> items[1..][i] == items[i + 1];
      var r := RaiseMark(marks, items[0].0, seqno);
      if r.Some? {
        RaiseEachExact(r.value, items[1..], seqno);
        if RaiseEach(r.value, items[1..], seqno).Some? {
          forall i | 1 <= i < |items| ensures items[i].0 != items[0].0 && Read(marks, items[i].0, 0) < seqno {
            assert Read(r.value, items[1..][i - 1].0, 0) < seqno;
          }
        }
      } else {
        assert Read(marks, items[0].0, 0) >= seqno;
      }
    }
  }

  lemma CreditOthers(s: State, dev: Address, token: Address, amount: i128, seqno: Option<u32>)
    requires AddCredit(s, dev, token, amount, seqno).Done?
    ensures var t := AddCredit(s, dev, token, amount, seqno).st;
            forall d: Address :: d != dev ==> t.Balance(d, token) == s.Balance(d, token)
  {
  }

  /** Crediting distinct developers fails only where some single credit overflows. */
  lemma {:induction false} CreditEachExact(s: State, items: Items, token: Address, seqno: u32)
    requires Distinct(items)
    ensures CreditEach(s, items, token, seqno).Done? <==>
            forall i :: 0 <= i < |items| ==> FitsI128(s.Balance(items[i].0, token) + items[i].1)
    decreases |items|
  {
    if items != [] {
      var r := AddCredit(s, items[0].0, token, items[0].1, Some(seqno));
      assert forall i :: 0 <= i < |items| - 1 ==> items[1..][i] == items[i + 1];
      if r.Done? {
        CreditOthers(s, items[0].0, token, items[0].1, Some(seqno));
        CreditEachExact(r.st, items[1..], token, seqno);
        forall i | 1 <= i < |items|
          ensures items[i] == items[1..][i - 1] && r.st.Balance(items[i].0, token) == s.Balance(items[i].0, token)
        { assert items[0].0 != items[i].0; }
      } else {
        assert !FitsI128(s.Balance(items[0].0, token) + items[0].1);
      }
    }
  }

  /** Exactly which batches are accepted: in particular, never one that names a developer twice. */
  lemma BatchAcceptance(s: State, caller: Address, items: Items, token: Address, seqno: u32)
    ensures ReceiveBatch(s, caller, items, token, seqno).Done? <==>
            && (caller == s.vault || caller == s.admin)
            && 1 <= |items| <= 50 && (forall i :: 0 <= i < |items| ==> items[i].1 > 0) && Distinct(items)
            && (forall i :: 0 <= i < |items| ==> s.Mark(items[i].0) < seqno)
            && (forall i :: 0 <= i < |items| ==> FitsI128(s.Balance(items[i].0, token) + items[i].1))
  {
    var raised := RaiseEach(s.marks, items, seqno);
    RaiseEachExact(s.marks, items, seqno);
    if raised.Some? { CreditEachExact(s.(marks := raised.value), items, token, seqno); }
  }
}
