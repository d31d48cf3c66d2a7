/**
 * The caller's side of the `\Iterator` contract: what PHP's `foreach` does
 * with the queue (`rewind`, then `valid`/`current`/body/`next` until `valid`
 * is false).
 */
module Iteration {
  import opened Wrappers
  import opened QueueRecords
  import opened Drain
  import opened PriorityQueueEngine

  /** What a cursor holding `c` over `records` still has to hand out. */
  function Pending(c: Option<string>, records: seq<Record>): seq<string> {
    (if c.Some? then [c.value] else []) + DrainOrder(records)
  }

  /** One claim moves the head of the drain into the cursor. */
  lemma PendingAfterClaim(r: seq<Record>)
    ensures NextIndex(r).None? ==> DrainOrder(r) == []
    ensures NextIndex(r).Some? ==>
      DrainOrder(r) == [r[NextIndex(r).value].value] + DrainOrder(Claim(r, NextIndex(r).value))
  {
  }

  lemma AppendAssoc(a: seq<string>, b: seq<string>, c: seq<string>)
    ensures a + b + c == a + (b + c)
  {
  }

  lemma SameExceptFlagsTrans(s: seq<Record>, r: seq<Record>, t: seq<Record>)
    requires SameExceptFlags(s, r) && SameExceptFlags(r, t)
    ensures SameExceptFlags(s, t)
  {
  }

  /** The measure that one round of `foreach` lowers. */
  function Remaining(q: PriorityQueue): nat
    reads q
  {
    q.Count() + (if q.current.Some? then 1 else 0)
  }

  /**
   * One round of `foreach` once `valid` held: `current` hands the body an
   * element, then `next` moves the cursor on. The element is the first of
   * what was pending, and what is pending afterwards is the rest.
   */
  method Round(q: PriorityQueue) returns (element: string)
    requires q.Consistent() && q.IsValid()
    modifies q
    ensures q.Consistent()
    ensures [element] + Pending(q.current, q.records) == old(Pending(q.current, q.records))
    ensures SameExceptFlags(old(q.records), q.records)
    ensures Remaining(q) < old(Remaining(q))
    ensures q.clock == old(q.clock)
  {
    ghost var c0, r0 := q.current, q.records;
    PendingAfterClaim(r0);
    var e := q.Current();
    element := e.value;
    ghost var r1 := q.records;
    assert Pending(c0, r0) == [element] + DrainOrder(r1);
    PendingAfterClaim(r1);
    var _ := q.Next();
    assert Pending(q.current, q.records) == DrainOrder(r1);
  }

  /**
   * `foreach ($queue as $element)`: returns the elements the body sees, in
   * order. They are the payload the cursor already held, if any, then every
   * unclaimed payload in claim order; afterwards the queue is not `valid`,
   * nothing is left unclaimed and the cursor is null. Only `iterated` flags
   * changed; the clock is untouched.
   */
  method Foreach(q: PriorityQueue) returns (elements: seq<string>)
    requires q.Consistent()
    modifies q
    ensures q.Consistent()
    ensures elements == Pending(old(q.current), old(q.records))
    ensures !q.IsValid() && q.Count() == 0 && q.current == None
    ensures |q.records| == |old(q.records)| && q.clock == old(q.clock)
    ensures forall i :: 0 <= i < |q.records| ==> q.records[i] == old(q.records)[i].(iterated := true)
  {
    q.Rewind();
    elements := [];
    ghost var target := Pending(q.current, q.records);
    while q.IsValid()
      invariant q.Consistent()
      invariant elements + Pending(q.current, q.records) == target
      invariant SameExceptFlags(old(q.records), q.records)
      invariant q.clock == old(q.clock)
      decreases Remaining(q)
    {
      ghost var before := q.records;
      var element := Round(q);
      AppendAssoc(elements, [element], Pending(q.current, q.records));
      SameExceptFlagsTrans(old(q.records), before, q.records);
      elements := elements + [element];
    }
    CountZeroIff(q.records);
    PendingAfterClaim(q.records);
  }
}
