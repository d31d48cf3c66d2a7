/**
 * What repeated claims do to a collection: the order in which successive
 * `extract` calls take the unclaimed documents, and the proof that this order
 * visits each unclaimed document exactly once, highest priority first and,
 * within a priority, oldest first.
 */
module Drain {
  import opened Wrappers
  import opened QueueRecords

  /** Positions of the documents successive claims take, until none is left. */
  function DrainIndices(s: seq<Record>): seq<nat>
    decreases CountUnclaimed(s)
  {
    match NextIndex(s)
    case None => []
    case Some(k) =>
      CountClaim(s, k);
      [k] + DrainIndices(Claim(s, k))
  }

  /** The payloads successive `extract` calls return, until one returns null. */
  function DrainOrder(s: seq<Record>): seq<string>
    decreases CountUnclaimed(s)
  {
    match NextIndex(s)
    case None => []
    case Some(k) =>
      CountClaim(s, k);
      [s[k].value] + DrainOrder(Claim(s, k))
  }

  /** One claim: the drain is the claimed position followed by the drain of what is left. */
  lemma DrainStep(s: seq<Record>, k: nat)
    requires NextIndex(s) == Some(k)
    ensures CountUnclaimed(Claim(s, k)) < CountUnclaimed(s)
    ensures DrainIndices(s) == [k] + DrainIndices(Claim(s, k))
  {
    CountClaim(s, k);
  }

  /** As many claims as unclaimed documents, each of an unclaimed document. */
  lemma {:induction false} DrainMembers(s: seq<Record>)
    ensures |DrainIndices(s)| == CountUnclaimed(s)
    ensures forall p :: 0 <= p < |DrainIndices(s)| ==>
      DrainIndices(s)[p] < |s| && !s[DrainIndices(s)[p]].iterated
    decreases CountUnclaimed(s)
  {
    match NextIndex(s)
    case None =>
      CountZeroIff(s);
    case Some(k) =>
      CountClaim(s, k);
      DrainStep(s, k);
      var t := Claim(s, k);
      DrainMembers(t);
      var ix := DrainIndices(s);
      forall p | 0 < p < |ix|
        ensures ix[p] < |s| && !s[ix[p]].iterated
      {
        assert ix[p] == DrainIndices(t)[p - 1];
      }
  }

  /** Every unclaimed document is claimed at some point. */
  lemma {:induction false} DrainCovers(s: seq<Record>)
    ensures forall i :: 0 <= i < |s| && !s[i].iterated ==> i in DrainIndices(s)
    decreases CountUnclaimed(s)
  {
    match NextIndex(s)
    case None =>
    case Some(k) =>
      DrainStep(s, k);
      var t := Claim(s, k);
      DrainCovers(t);
      forall i | 0 <= i < |s| && !s[i].iterated
        ensures i in DrainIndices(s)
      {
        if i != k {
          assert !t[i].iterated;
        }
      }
  }

  /** Positions `ix` of `s` listed so that each comes before every later one. */
  predicate Ordered(s: seq<Record>, ix: seq<nat>) {
    (forall p :: 0 <= p < |ix| ==> ix[p] < |s|)
    && forall p, q :: 0 <= p < q < |ix| ==> Before(s[ix[p]], ix[p], s[ix[q]], ix[q])
  }

  /** Putting the top in front of an ordered list of the other unclaimed documents keeps it ordered. */
  lemma OrderedCons(s: seq<Record>, k: nat, tail: seq<nat>)
    requires IsTop(s, k)
    requires forall p :: 0 <= p < |tail| ==> tail[p] < |s| && tail[p] != k && !s[tail[p]].iterated
    requires Ordered(Claim(s, k), tail)
    ensures Ordered(s, [k] + tail)
  {
    var t := Claim(s, k);
    var ix := [k] + tail;
    forall p, q | 0 <= p < q < |ix|
      ensures Before(s[ix[p]], ix[p], s[ix[q]], ix[q])
    {
      var j := tail[q - 1];
      assert ix[q] == j && s[j] == t[j];
      if p > 0 {
        var i := tail[p - 1];
        assert ix[p] == i && s[i] == t[i];
        assert Before(t[i], i, t[j], j);
      }
    }
  }

  /** Each claimed document comes before every document claimed after it. */
  lemma {:induction false} DrainOrdered(s: seq<Record>)
    ensures Ordered(s, DrainIndices(s))
    decreases CountUnclaimed(s)
  {
    match NextIndex(s)
    case None =>
    case Some(k) =>
      DrainStep(s, k);
      var t := Claim(s, k);
      DrainOrdered(t);
      DrainMembers(t);
      var tail := DrainIndices(t);
      forall p | 0 <= p < |tail|
        ensures tail[p] < |s| && tail[p] != k && !s[tail[p]].iterated
      {
        assert !t[tail[p]].iterated;
      }
      OrderedCons(s, k, tail);
  }

  /**
   * The claims visit every unclaimed document exactly once (as many claims as
   * the unclaimed count), and each document is taken before every document
   * that follows it in the claim order.
   */
  lemma DrainSorted(s: seq<Record>)
    ensures |DrainIndices(s)| == CountUnclaimed(s)
    ensures forall p :: 0 <= p < |DrainIndices(s)| ==>
      DrainIndices(s)[p] < |s| && !s[DrainIndices(s)[p]].iterated
    ensures forall i :: 0 <= i < |s| && !s[i].iterated ==> i in DrainIndices(s)
    ensures Ordered(s, DrainIndices(s))
  {
    DrainMembers(s);
    DrainCovers(s);
    DrainOrdered(s);
  }

  /** `DrainOrder` is the payloads of the documents at `DrainIndices`, in that order. */
  lemma {:induction false} DrainOrderMatches(s: seq<Record>)
    ensures |DrainOrder(s)| == |DrainIndices(s)|
    ensures forall p :: 0 <= p < |DrainOrder(s)| ==>
      DrainIndices(s)[p] < |s| && DrainOrder(s)[p] == s[DrainIndices(s)[p]].value
    decreases CountUnclaimed(s)
  {
    DrainMembers(s);
    match NextIndex(s)
    case None =>
    case Some(k) =>
      DrainStep(s, k);
      var t := Claim(s, k);
      DrainOrderMatches(t);
      var ix := DrainIndices(s);
      forall p | 0 < p < |DrainOrder(s)|
        ensures DrainOrder(s)[p] == s[ix[p]].value
      {
        assert ix[p] == DrainIndices(t)[p - 1];
        assert DrainOrder(s)[p] == DrainOrder(t)[p - 1];
      }
  }

  /** Payloads come out in non-increasing priority. */
  lemma PriorityNonIncreasing(s: seq<Record>, p: nat, q: nat)
    requires p < q < |DrainIndices(s)|
    ensures DrainIndices(s)[p] < |s| && DrainIndices(s)[q] < |s|
    ensures s[DrainIndices(s)[p]].priority >= s[DrainIndices(s)[q]].priority
  {
    DrainSorted(s);
  }

  /**
   * First in, first out within a priority band: of two unclaimed documents with
   * equal priority, the one created earlier is claimed earlier.
   */
  lemma FifoWithinPriority(s: seq<Record>, i: nat, j: nat, p: nat, q: nat)
    requires i < |s| && j < |s| && !s[i].iterated && !s[j].iterated
    requires s[i].priority == s[j].priority && s[i].created < s[j].created
    requires p < |DrainIndices(s)| && q < |DrainIndices(s)|
    requires DrainIndices(s)[p] == i && DrainIndices(s)[q] == j
    ensures p < q
  {
    DrainSorted(s);
  }
}
