/**
 * The queue engine `PriorityQueueAbstract`: a collection of documents, the
 * cursor `_current`, and the operations over them. The collection is held
 * in memory; the three storage calls (`insert`, `findAndModify`, `count`) act
 * on it directly, each as one atomic step.
 */
module PriorityQueueEngine {
  import opened Wrappers
  import opened PhpValues
  import opened QueueConfig
  import opened QueueRecords
  import opened Drain
  import opened Insertion

  /** The smallest stamp above every `created` in `s`. */
  function StampBound(s: seq<Record>): (b: nat)
    ensures forall i :: 0 <= i < |s| ==> s[i].created < b
  {
    if |s| == 0 then 0
    else
      var b := StampBound(s[..|s| - 1]);
      assert forall i :: 0 <= i < |s| - 1 ==> s[i] == s[..|s| - 1][i];
      if s[|s| - 1].created < b then b else s[|s| - 1].created + 1
  }

  class PriorityQueue {
    /** The MongoDB collection `_collection`, in storage order. */
    var records: seq<Record>
    /** `_current`: the payload last taken by the cursor, or null. */
    var current: Option<string>
    /** The clock `new MongoDate()` reads: above every stamp already in the collection. */
    var clock: nat

    const defaultPriority: int
    const collectionName: string
    const hook: ErrorHook

    /**
     * Every stamp in the collection is older than the next one handed out, and
     * the collection name is one the configuration check lets through.
     */
    ghost predicate Consistent()
      reads this
    {
      && (forall i :: 0 <= i < |records| ==> records[i].created < clock)
      && collectionName != "" && collectionName != "0"
    }

    /**
     * A queue over a collection that already holds `existing`, for a
     * definition that passed the configuration check.
     */
    constructor (defaultPriority: int, collectionName: string, hook: ErrorHook, existing: seq<Record>)
      requires collectionName != "" && collectionName != "0"
      ensures Consistent()
      ensures this.defaultPriority == defaultPriority && this.collectionName == collectionName
      ensures this.hook == hook
      ensures records == existing && current == None
    {
      this.defaultPriority := defaultPriority;
      this.collectionName := collectionName;
      this.hook := hook;
      records := existing;
      current := None;
      clock := StampBound(existing);
    }

    /** `getNameOfCollection`: the configured name, which the construction check made non-empty. */
    function NameOfCollection(): (name: string)
      requires Consistent()
      reads this
      ensures name == collectionName
      ensures name != "" && name != "0"
    {
      collectionName
    }

    /** `getDefaultPriority`: the priority an `insert` without one stores. */
    function DefaultPriority(): (p: int)
      ensures forall s :: Validate(PString(s), PNull, defaultPriority) == Success(Validated(s, p))
    {
      defaultPriority
    }

    /** `count`: the number of documents whose `iterated` is false. */
    function Count(): (n: nat)
      reads this
      ensures n == 0 <==> AllClaimed(records)
    {
      CountZeroIff(records);
      CountUnclaimed(records)
    }

    /** `isEmpty`: every document has been claimed. */
    function IsEmpty(): (b: bool)
      reads this
      ensures b <==> forall i :: 0 <= i < |records| ==> records[i].iterated
    {
      Count() == 0
    }

    /**
     * `valid`: the iteration goes on while an unclaimed document remains or the
     * cursor still holds a payload.
     */
    function IsValid(): (b: bool)
      reads this
      ensures b <==> (exists i :: 0 <= i < |records| && !records[i].iterated) || current.Some?
    {
      !IsEmpty() || current != None
    }

    /**
     * `insert`: validates the arguments, then stores one unclaimed document
     * stamped with the clock and reports the storage call's outcome through the
     * error hook. A rejected argument raises before anything changes.
     */
    method Insert(value: PhpValue, priority: PhpValue, description: seq<Entry>, reply: StorageReply)
      returns (outcome: Outcome)
      requires Consistent()
      modifies this
      ensures Consistent() && current == old(current)
      ensures Validate(value, priority, defaultPriority).Failure? ==>
        outcome == Threw(InvalidArgument(ArgumentMessage(Validate(value, priority, defaultPriority).error)))
        && records == old(records) && clock == old(clock)
      ensures Validate(value, priority, defaultPriority).Success? ==>
        var v := Validate(value, priority, defaultPriority).value;
        outcome == Finish(reply.response, hook)
        && records == old(records) + (if reply.applied then [NewRecord(v.value, v.priority, description, old(clock))] else [])
        && clock == old(clock) + 1
      ensures outcome == Returned(true) && reply.Coherent() ==> Count() == old(Count()) + 1
      ensures |records| > |old(records)| ==>
        forall i :: 0 <= i < |old(records)| ==> old(records)[i].created < records[|records| - 1].created
    {
      match Validate(value, priority, defaultPriority)
      case Failure(e) =>
        outcome := Threw(InvalidArgument(ArgumentMessage(e)));
      case Success(v) =>
        var doc := NewRecord(v.value, v.priority, description, clock);
        clock := clock + 1;
        if reply.applied {
          CountAppend(records, doc);
          records := records + [doc];
        }
        outcome := Finish(reply.response, hook);
    }

    /**
     * `extract`: one atomic claim. The highest-priority, oldest unclaimed
     * document is flagged `iterated` and its payload becomes `_current` and
     * the result; when none is left the result and `_current` are null and
     * the collection is untouched.
     */
    method Extract() returns (v: Option<string>)
      requires Consistent()
      modifies this
      ensures Consistent() && clock == old(clock)
      ensures current == v
      ensures v.None? <==> AllClaimed(old(records))
      ensures v.None? ==> records == old(records)
      ensures NextIndex(old(records)).Some? ==>
        var k := NextIndex(old(records)).value;
        IsTop(old(records), k)
        && v == Some(old(records)[k].value)
        && records == Claim(old(records), k)
        && Count() == old(Count()) - 1
    {
      match NextIndex(records) {
        case None =>
          v := None;
        case Some(k) =>
          CountClaim(records, k);
          v := Some(records[k].value);
          records := Claim(records, k);
      }
      current := v;
    }

    /**
     * `next`: always claims afresh, whatever the cursor holds, and the cursor
     * holds what was claimed.
     */
    method Next() returns (v: Option<string>)
      requires Consistent()
      modifies this
      ensures Consistent() && clock == old(clock)
      ensures current == v
      ensures v.None? <==> AllClaimed(old(records))
      ensures v.None? ==> records == old(records)
      ensures NextIndex(old(records)).Some? ==>
        var k := NextIndex(old(records)).value;
        IsTop(old(records), k)
        && v == Some(old(records)[k].value)
        && records == Claim(old(records), k)
        && Count() == old(Count()) - 1
    {
      v := Extract();
      current := v;
    }

    /**
     * `current`: claims lazily, only when the cursor is null (at the start, or
     * after a claim found nothing); otherwise returns the cursor and changes
     * nothing.
     */
    method Current() returns (v: Option<string>)
      requires Consistent()
      modifies this
      ensures Consistent() && clock == old(clock)
      ensures current == v
      ensures old(current).Some? ==> v == old(current) && records == old(records)
      ensures old(current).None? ==>
        (v.None? <==> AllClaimed(old(records)))
        && (v.None? ==> records == old(records))
        && (NextIndex(old(records)).Some? ==>
              var k := NextIndex(old(records)).value;
              v == Some(old(records)[k].value) && records == Claim(old(records), k)
              && Count() == old(Count()) - 1)
    {
      if current.None? {
        v := Extract();
      } else {
        v := current;
      }
    }

    /** `key`: the queue has no keys; the result is always null. */
    method Key() returns (k: Option<int>)
      ensures k == None
    {
      k := None;
    }

    /** `rewind`: a no-op, so a second pass is impossible; it changes nothing. */
    method Rewind()
      ensures records == old(records) && current == old(current) && clock == old(clock)
    {
    }
  }

  /**
   * Construction: the configuration check, then a queue over the collection's
   * current documents (connecting to the server is not modelled). A
   * definition that fails the check raises its `LogicException`, and no queue exists.
   */
  method Open(def: Definition, hook: ErrorHook, existing: seq<Record>)
    returns (r: Result<PriorityQueue, ConfigError>)
    ensures r.Failure? <==> CheckInheritance(def).Some?
    ensures r.Failure? ==> CheckInheritance(def) == Some(r.error)
    ensures r.Success? ==>
      fresh(r.value) && r.value.Consistent()
      && r.value.records == existing && r.value.current == None
      && r.value.DefaultPriority() == def.defaultPriority.i
      && r.value.NameOfCollection() == def.collectionName.s
      && r.value.hook == hook
  {
    match CheckInheritance(def)
    case Some(e) =>
      r := Failure(e);
    case None =>
      var q := new PriorityQueue(def.defaultPriority.i, def.collectionName.s, hook, existing);
      r := Success(q);
  }
}
