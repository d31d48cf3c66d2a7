/**
 * The MongoDB collection as a sequence of documents, the order in which the
 * atomic claim (`findAndModify` with sort `priority: -1, created: 1`) picks
 * among unclaimed documents, the claim itself, and the unclaimed count.
 */
module QueueRecords {
  import opened Wrappers
  import opened PhpValues

  /**
   * One document: `value` (the payload, stored as binary and read back
   * unchanged), `created` (the insertion stamp), `iterated` (claimed flag),
   * `priority`, and the `description` array, present only when it was non-empty.
   */
  datatype Record = Record(
    value: string,
    created: nat,
    iterated: bool,
    priority: int,
    description: Option<seq<Entry>>)

  /** The description as the document holds it: an absent field reads as []. */
  function DescriptionOf(r: Record): seq<Entry> {
    r.description.GetOr([])
  }

  /**
   * The document an `insert` builds: unclaimed, stamped `created`, and with the
   * description field only when the description is non-empty.
   */
  function NewRecord(value: string, priority: int, description: seq<Entry>, created: nat): (r: Record)
    ensures r.value == value && r.priority == priority && r.created == created
    ensures !r.iterated
    ensures DescriptionOf(r) == description
    ensures r.description != Some([])
  {
    Record(value, created, false, priority, if |description| == 0 then None else Some(description))
  }

  /**
   * `a` (at position `i`) is claimed before `b` (at position `j`): higher
   * priority first, then the earlier `created`. Documents that tie on both are
   * taken in storage order, which is where MongoDB's natural order leaves them.
   */
  predicate Before(a: Record, i: int, b: Record, j: int) {
    a.priority > b.priority
    || (a.priority == b.priority && a.created < b.created)
    || (a.priority == b.priority && a.created == b.created && i < j)
  }

  /** Document `k` is the one the claim picks: unclaimed and ahead of every other unclaimed one. */
  predicate IsTop(s: seq<Record>, k: int) {
    0 <= k < |s| && !s[k].iterated
    && forall j :: 0 <= j < |s| && j != k && !s[j].iterated ==> Before(s[k], k, s[j], j)
  }

  predicate AllClaimed(s: seq<Record>) {
    forall i :: 0 <= i < |s| ==> s[i].iterated
  }

  /** The best unclaimed document among the first `n`, or None when all of them are claimed. */
  function Best(s: seq<Record>, n: nat): (r: Option<nat>)
    requires n <= |s|
    ensures r.None? <==> forall j :: 0 <= j < n ==> s[j].iterated
    ensures r.Some? ==> r.value < n && !s[r.value].iterated
    ensures r.Some? ==> forall j :: 0 <= j < n && j != r.value && !s[j].iterated ==>
      Before(s[r.value], r.value, s[j], j)
  {
    if n == 0 then None
    else
      var b := Best(s, n - 1);
      if s[n - 1].iterated then b
      else if b.None? || Before(s[n - 1], n - 1, s[b.value], b.value) then Some(n - 1)
      else b
  }

  /** The selection half of `findAndModify`: which document the claim takes. */
  function NextIndex(s: seq<Record>): (r: Option<nat>)
    ensures r.None? <==> AllClaimed(s)
    ensures r.Some? ==> IsTop(s, r.value)
  {
    Best(s, |s|)
  }

  /** Whatever document is the top, the selection takes exactly that one. */
  lemma NextIndexIsTop(s: seq<Record>, k: int)
    requires IsTop(s, k)
    ensures NextIndex(s) == Some(k)
  {
    assert !AllClaimed(s) by { assert !s[k].iterated; }
  }

  /** The update half of `findAndModify`: `$set: {iterated: true}` on document `k`. */
  function Claim(s: seq<Record>, k: nat): (t: seq<Record>)
    requires k < |s|
    ensures |t| == |s| && t[k].iterated
    ensures t[k] == s[k].(iterated := true)
    ensures forall i :: 0 <= i < |s| && i != k ==> t[i] == s[i]
  {
    s[k := s[k].(iterated := true)]
  }

  /** `count({iterated: false})`: the number of unclaimed documents. */
  function CountUnclaimed(s: seq<Record>): (n: nat)
    ensures n <= |s|
  {
    if |s| == 0 then 0
    else CountUnclaimed(s[..|s| - 1]) + (if s[|s| - 1].iterated then 0 else 1)
  }

  lemma {:induction false} CountZeroIff(s: seq<Record>)
    ensures CountUnclaimed(s) == 0 <==> AllClaimed(s)
  {
    if |s| > 0 {
      CountZeroIff(s[..|s| - 1]);
      assert forall i :: 0 <= i < |s| - 1 ==> s[i] == s[..|s| - 1][i];
    }
  }

  lemma CountAppend(s: seq<Record>, r: Record)
    ensures CountUnclaimed(s + [r]) == CountUnclaimed(s) + (if r.iterated then 0 else 1)
  {
    assert (s + [r])[..|s|] == s;
  }

  /** Claiming an unclaimed document lowers the count by exactly one. */
  lemma {:induction false} CountClaim(s: seq<Record>, k: nat)
    requires k < |s| && !s[k].iterated
    ensures CountUnclaimed(Claim(s, k)) == CountUnclaimed(s) - 1
  {
    var t := Claim(s, k);
    var n := |s| - 1;
    if k == n {
      assert t[..n] == s[..n];
    } else {
      assert t[..n] == Claim(s[..n], k);
      CountClaim(s[..n], k);
    }
  }

  /** Claiming touches only `iterated`: payload, stamp and priority of every document stay. */
  predicate SameExceptFlags(s: seq<Record>, t: seq<Record>) {
    |s| == |t| && forall i :: 0 <= i < |s| ==> t[i].(iterated := true) == s[i].(iterated := true)
  }
}
