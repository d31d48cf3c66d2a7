/**
 * The test suite's scenarios, restated as methods on a fresh queue with the
 * test configuration (collection "test_queue", default priority 7) and a
 * storage that acknowledges every write with `ok` 1.0.
 */
module Scenarios {
  import opened Wrappers
  import opened PhpValues
  import opened QueueRecords
  import opened Drain
  import opened Insertion
  import opened PriorityQueueEngine
  import opened Iteration

  /** A write the server applied and acknowledged with `ok` 1.0. */
  const Acked := StorageReply(true, Acknowledged(PFloat(1.0)))

  /** A fresh, empty test queue. */
  method NewTestQueue() returns (q: PriorityQueue)
    ensures fresh(q) && q.Consistent()
    ensures q.records == [] && q.current == None
    ensures q.DefaultPriority() == 7 && q.hook == ThrowingHook
  {
    q := new PriorityQueue(7, "test_queue", ThrowingHook, []);
  }

  /** `insert($value)` with the default priority, acknowledged: one unclaimed document more. */
  method Push(q: PriorityQueue, value: string)
    requires q.Consistent()
    modifies q
    ensures q.Consistent() && q.current == old(q.current) && q.clock == old(q.clock) + 1
    ensures q.records == old(q.records) + [Record(value, old(q.clock), false, q.DefaultPriority(), None)]
    ensures q.Count() == old(q.Count()) + 1
  {
    var o := q.Insert(PString(value), PNull, [], Acked);
  }

  /** `insert($value, $priority)`, acknowledged. */
  method PushAt(q: PriorityQueue, value: string, priority: int)
    requires q.Consistent()
    modifies q
    ensures q.Consistent() && q.current == old(q.current) && q.clock == old(q.clock) + 1
    ensures q.records == old(q.records) + [Record(value, old(q.clock), false, priority, None)]
  {
    var o := q.Insert(PString(value), PInt(priority), [], Acked);
  }

  /** The documents "first".."fourth" at priorities 7..10, stamped from `n` on. */
  function FourPriorities(n: nat): seq<Record> {
    [Record("first", n, false, 7, None),
     Record("second", n + 1, false, 8, None),
     Record("third", n + 2, false, 9, None),
     Record("fourth", n + 3, false, 10, None)]
  }

  /** Inserts "first".."fourth" at the default priority 7 and at 8, 9 and 10. */
  method InsertFourPriorities(q: PriorityQueue)
    requires q.Consistent() && q.records == [] && q.DefaultPriority() == 7
    modifies q
    ensures q.Consistent() && q.current == old(q.current) && q.clock == old(q.clock) + 4
    ensures q.records == FourPriorities(old(q.clock))
  {
    var p := q.DefaultPriority();
    PushAt(q, "first", p);
    PushAt(q, "second", p + 1);
    PushAt(q, "third", p + 2);
    PushAt(q, "fourth", p + 3);
  }

  lemma FourthIsTop(n: nat)
    ensures NextIndex(FourPriorities(n)) == Some(3)
  {
    assert IsTop(FourPriorities(n), 3);
    NextIndexIsTop(FourPriorities(n), 3);
  }

  lemma ThirdIsTop(n: nat)
    ensures NextIndex(Claim(FourPriorities(n), 3)) == Some(2)
  {
    var s := Claim(FourPriorities(n), 3);
    assert IsTop(s, 2);
    NextIndexIsTop(s, 2);
  }

  lemma SecondIsTop(n: nat)
    ensures NextIndex(Claim(Claim(FourPriorities(n), 3), 2)) == Some(1)
  {
    var s := Claim(Claim(FourPriorities(n), 3), 2);
    assert IsTop(s, 1);
    NextIndexIsTop(s, 1);
  }

  lemma FirstIsTop(n: nat)
    ensures NextIndex(Claim(Claim(Claim(FourPriorities(n), 3), 2), 1)) == Some(0)
    ensures AllClaimed(Claim(Claim(Claim(Claim(FourPriorities(n), 3), 2), 1), 0))
  {
    var s := Claim(Claim(Claim(FourPriorities(n), 3), 2), 1);
    assert IsTop(s, 0);
    NextIndexIsTop(s, 0);
  }

  /**
   * Four `extract` calls after inserting "first".."fourth" at rising priorities
   * return them highest priority first; a fifth returns null.
   */
  method PriorityLogicByExtract() returns (out: seq<Option<string>>)
    ensures out == [Some("fourth"), Some("third"), Some("second"), Some("first"), None]
  {
    var q := NewTestQueue();
    InsertFourPriorities(q);
    ghost var n := q.clock - 4;
    FourthIsTop(n);
    ThirdIsTop(n);
    SecondIsTop(n);
    FirstIsTop(n);
    var a := q.Extract();
    var b := q.Extract();
    var c := q.Extract();
    var d := q.Extract();
    var e := q.Extract();
    out := [a, b, c, d, e];
  }

  /** The drain of the four-priority collection, one claim at a time. */
  lemma FourPrioritiesDrain(n: nat)
    ensures DrainOrder(FourPriorities(n)) == ["fourth", "third", "second", "first"]
  {
    var s0 := FourPriorities(n);
    var s1 := Claim(s0, 3);
    var s2 := Claim(s1, 2);
    var s3 := Claim(s2, 1);
    var s4 := Claim(s3, 0);
    FourthIsTop(n);
    ThirdIsTop(n);
    SecondIsTop(n);
    FirstIsTop(n);
    assert DrainOrder(s4) == [];
    assert DrainOrder(s3) == ["first"] + DrainOrder(s4);
    assert DrainOrder(s2) == ["second"] + DrainOrder(s3);
    assert DrainOrder(s1) == ["third"] + DrainOrder(s2);
    assert DrainOrder(s0) == ["fourth"] + DrainOrder(s1);
  }

  /**
   * `foreach` over the same queue sees "fourth", "third", "second", "first";
   * afterwards the queue is not valid, and `current` and `next` return null.
   */
  method PriorityLogicByIteration() returns (elements: seq<string>, valid: bool, cur: Option<string>, next: Option<string>)
    ensures elements == ["fourth", "third", "second", "first"]
    ensures !valid && cur == None && next == None
  {
    var q := NewTestQueue();
    InsertFourPriorities(q);
    FourPrioritiesDrain(q.clock - 4);
    elements := Foreach(q);
    valid := q.IsValid();
    CountZeroIff(q.records);
    cur := q.Current();
    next := q.Next();
  }

  /** With equal priorities the older document comes first, through `current` or `next`. */
  method CurrentReturnsFirstInserted() returns (viaCurrent: Option<string>, viaNext: Option<string>)
    ensures viaCurrent == Some("first") && viaNext == Some("first")
  {
    var q := NewTestQueue();
    Push(q, "first");
    Push(q, "second");
    var s := q.records;
    assert IsTop(s, 0);
    NextIndexIsTop(s, 0);
    viaCurrent := q.Current();

    var r := NewTestQueue();
    Push(r, "first");
    Push(r, "second");
    assert IsTop(r.records, 0);
    NextIndexIsTop(r.records, 0);
    viaNext := r.Next();
  }

  /** An empty queue: count 0, empty, not valid, and every read of the cursor is null. */
  method EmptyQueue() returns (count: nat, empty: bool, valid: bool, cur: Option<string>, next: Option<string>)
    ensures count == 0 && empty && !valid
    ensures cur == None && next == None
  {
    var q := NewTestQueue();
    count := q.Count();
    empty := q.IsEmpty();
    valid := q.IsValid();
    cur := q.Current();
    next := q.Next();
  }

  /**
   * Three inserts count 3; after one `extract` the queue is not empty; after
   * three it is, while all three documents stay in the collection.
   */
  method CountsAndEmptiness() returns (afterInserts: nat, emptyAfterOne: bool, emptyAfterAll: bool, stored: nat)
    ensures afterInserts == 3 && !emptyAfterOne && emptyAfterAll && stored == 3
  {
    var q := NewTestQueue();
    Push(q, "1");
    Push(q, "2");
    Push(q, "3");
    afterInserts := q.Count();
    assert afterInserts == 3;
    var a := q.Extract();
    emptyAfterOne := q.IsEmpty();
    assert q.Count() == 2;
    var b := q.Extract();
    assert q.Count() == 1;
    var c := q.Extract();
    assert q.Count() == 0;
    emptyAfterAll := q.IsEmpty();
    stored := |q.records|;
  }

  /**
   * After each `next`, `current` returns the same payload; the fourth `next`
   * finds nothing, and so does the `current` after it, which claims again.
   */
  method NextThenCurrent() returns (nexts: seq<Option<string>>, currents: seq<Option<string>>)
    ensures nexts == currents
    ensures |nexts| == 4 && nexts[3] == None
    ensures nexts[0].Some? && nexts[1].Some? && nexts[2].Some?
  {
    var q := NewTestQueue();
    Push(q, "first");
    Push(q, "second");
    Push(q, "third");
    assert q.Count() == 3;
    var n0 := q.Next();
    var c0 := q.Current();
    var n1 := q.Next();
    var c1 := q.Current();
    var n2 := q.Next();
    var c2 := q.Current();
    assert q.Count() == 0;
    var n3 := q.Next();
    var c3 := q.Current();
    nexts, currents := [n0, n1, n2, n3], [c0, c1, c2, c3];
  }

  /** The same payload twice is two documents: count 2, and two claims each return it. */
  method DuplicatePayloads() returns (count: nat, a: Option<string>, b: Option<string>)
    ensures count == 2 && a == Some("a") && b == Some("a")
  {
    var q := NewTestQueue();
    Push(q, "a");
    Push(q, "a");
    count := q.Count();
    a := q.Extract();
    b := q.Extract();
  }

  /** Rejected arguments raise their `InvalidArgumentException` and store nothing. */
  method InsertRejects() returns (badValue: Outcome, badPriority: Outcome, count: nat)
    ensures badValue == Threw(InvalidArgument("$value must be a string"))
    ensures badPriority == Threw(InvalidArgument("$priority must be an integer"))
    ensures count == 0
  {
    var q := NewTestQueue();
    badValue := q.Insert(PInt(0), PNull, [], Acked);
    badPriority := q.Insert(PString("correct value"), PString("0"), [], Acked);
    count := q.Count();
  }

  /**
   * An accepted insert returns true; its document takes the default priority
   * when none is given, and keeps a description only when it is non-empty.
   */
  method InsertStoresDescription() returns (plain: Outcome, described: Outcome, stored: seq<Record>)
    ensures plain == Returned(true) && described == Returned(true)
    ensures |stored| == 2
    ensures stored[0].value == "value" && stored[0].priority == 7 && stored[0].description == None
    ensures stored[1].value == "string" && stored[1].priority == 1
    ensures stored[1].description == Some([Entry(StrKey("description"), PString("property"))])
  {
    var q := NewTestQueue();
    plain := q.Insert(PString("value"), PNull, [], Acked);
    described := q.Insert(PString("string"), PInt(1), [Entry(StrKey("description"), PString("property"))], Acked);
    stored := q.records;
  }

  /**
   * With the logging hook a write acknowledged with `ok` other than 1.0
   * returns false; with the base hook a `MongoException` raises `ErrorException`.
   */
  method FailedAcknowledgment() returns (logged: Outcome, thrown: Outcome)
    ensures logged == Returned(false) && thrown == Threw(HookError)
  {
    var q := new PriorityQueue(7, "emails", LoggingHook, []);
    logged := q.Insert(PString("mail"), PNull, [], StorageReply(true, Acknowledged(PInt(1))));
    var r := NewTestQueue();
    thrown := r.Insert(PString("mail"), PNull, [], StorageReply(false, MongoThrew));
  }
}
