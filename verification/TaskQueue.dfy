/** The replication engine's durable task queue: LevelDB records, a min-heap cache of pending
    tasks and a persisted sequence counter. */
module TaskQueues {
  import opened Base
  import opened Decimal

  datatype Task = Task(bucket: string, key: string, versionId: string, etag: string, queuedTime: int)

  // The two kinds of record in the queue database.
  datatype Record = TaskRecord(task: Task) | Counter(next: nat)

  type Db = map<string, Record>

  // ---- Keys ----

  const COUNTER_KEY: string := "meta:next_seq"
  const KEY_BUFFER: nat := 32

  // "task:%016llu"
  function TaskKey(sequence: nat): string { "task:" + Pad16(sequence) }

  lemma TaskKeyInjective(a: nat, b: nat)
    ensures TaskKey(a) == TaskKey(b) ==> a == b
  {
    PadRoundTrip(a);
    PadRoundTrip(b);
    assert TaskKey(a)[5..] == Pad16(a) && TaskKey(b)[5..] == Pad16(b);
  }

  lemma TaskKeyIsNotCounter(a: nat)
    ensures TaskKey(a) != COUNTER_KEY
  {
  }

  lemma {:induction false} CommonPrefix(p: string, a: string, b: string)
    ensures LexLess(p + a, p + b) <==> LexLess(a, b)
  {
    if p == "" {
      assert p + a == a && p + b == b;
    } else {
      assert (p + a)[1..] == p[1..] + a && (p + b)[1..] == p[1..] + b;
      CommonPrefix(p[1..], a, b);
    }
  }

  lemma FirstDecides(a: string, b: string)
    requires a != "" && b != "" && a[0] < b[0]
    ensures LexLess(a, b)
  {
  }

  // Below 10^16 the database's key order is the numeric order of the sequences.
  lemma TaskKeyOrder(a: nat, b: nat)
    requires a < Pow10(16) && b < Pow10(16)
    ensures LexLess(TaskKey(a), TaskKey(b)) <==> a < b
  {
    DecimalLength(a, 16);
    DecimalLength(b, 16);
    PadRoundTrip(a);
    PadRoundTrip(b);
    LexIsNumeric(Pad16(a), Pad16(b));
    CommonPrefix("task:", Pad16(a), Pad16(b));
  }

  // The order ends there: from 10^16 on, the first sequence with one more digit sorts before its
  // predecessor.
  lemma TaskKeyOrderEnds(k: nat)
    requires k >= 16
    ensures LexLess(TaskKey(Pow10(k)), TaskKey(Pow10(k) - 1))
  {
    PaddedPower(k);
    FirstDecides(Pad16(Pow10(k)), Pad16(Pow10(k) - 1));
    CommonPrefix("task:", Pad16(Pow10(k)), Pad16(Pow10(k) - 1));
  }

  lemma PaddedPower(k: nat)
    requires k >= 16
    ensures Pad16(Pow10(k))[0] == '1' && Pad16(Pow10(k) - 1)[0] == '9'
  {
    FirstDigits(k);
    assert Pow10(k) == 10 * Pow10(k - 1);
    DecimalLength(Pow10(k), k - 1);
    DecimalLength(Pow10(k) - 1, k - 1);
  }

  // Key order is numeric order on all sequences below n.
  ghost predicate NumericBelow(n: nat) {
    forall a: nat, b: nat {:trigger TaskKey(a), TaskKey(b)} :: a < n && b < n ==>
      (LexLess(TaskKey(a), TaskKey(b)) <==> a < b)
  }

  lemma OrderBreaksPast(n: nat, k: nat)
    requires k >= 16 && n > Pow10(k)
    ensures !NumericBelow(n)
  {
    var big := Pow10(k);
    TaskKeyOrderEnds(k);
    assert big < n && big - 1 < n && LexLess(TaskKey(big), TaskKey(big - 1));
  }

  lemma OrderHoldsUpTo(n: nat)
    requires n <= Pow10(16)
    ensures NumericBelow(n)
  {
    forall a: nat, b: nat | a < n && b < n
      ensures LexLess(TaskKey(a), TaskKey(b)) <==> a < b
    {
      TaskKeyOrder(a, b);
    }
  }

  lemma NumericBelowIff(n: nat)
    ensures NumericBelow(n) <==> n <= Pow10(16)
  {
    if n <= Pow10(16) {
      OrderHoldsUpTo(n);
    } else {
      OrderBreaksPast(n, 16);
    }
  }

  // snprintf never truncates: key and terminator fit the buffer for every 64-bit sequence.
  lemma TaskKeyFits(a: nat)
    requires a < TWO_64
    ensures |TaskKey(a)| + 1 <= KEY_BUFFER
  {
    Pow10Sum(5, 5);
    Pow10Sum(10, 10);
    assert Pow10(5) == 100_000;
    DecimalLength(a, 20);
  }

  // ---- The queue and its operations ----

  datatype Queue = Queue(db: Db, cache: map<nat, Task>, next: nat)

  predicate IsLeast(s: set<nat>, m: nat) {
    m in s && forall k | k in s :: m <= k
  }

  function Least(s: set<nat>): (m: nat)
    requires s != {}
    ensures IsLeast(s, m)
  {
    LeastExists(s);
    var m :| m in s && IsLeast(s, m);
    m
  }

  lemma {:induction false} LeastExists(s: set<nat>)
    requires s != {}
    ensures exists m :: m in s && IsLeast(s, m)
  {
    var x :| x in s;
    var rest := s - {x};
    assert s == rest + {x};
    if rest == {} {
      assert IsLeast(s, x);
    } else {
      LeastExists(rest);
      var m :| m in rest && IsLeast(rest, m);
      assert IsLeast(s, if x < m then x else m);
    }
  }

  // enqueue_task's three writes, in order.
  function RecordPut(q: Queue, task: Task): Queue {
    q.(db := q.db[TaskKey(q.next) := TaskRecord(task)], next := q.next + 1)
  }

  function CounterPut(q: Queue): Queue {
    q.(db := q.db[COUNTER_KEY := Counter(q.next)])
  }

  // enqueue_task: a failed Put still uses up the sequence; the counter's Put status is ignored.
  function Enqueued(q: Queue, task: Task, putOk: bool, counterOk: bool): Queue {
    if !putOk then q.(next := q.next + 1)
    else
      var recorded := RecordPut(q, task);
      var counted := if counterOk then CounterPut(recorded) else recorded;
      counted.(cache := counted.cache[q.next := task])
  }

  function Deleted(q: Queue): Queue
    requires q.cache != map[]
  {
    q.(db := q.db - {TaskKey(Least(q.cache.Keys))})
  }

  // dequeue_task.
  function Dequeued(q: Queue, deleteOk: bool): Queue {
    if q.cache == map[] || !deleteOk then q
    else Deleted(q).(cache := q.cache - {Least(q.cache.Keys)})
  }

  predicate HasCounter(db: Db) { COUNTER_KEY in db && db[COUNTER_KEY].Counter? }

  // The stored counter; a database without one restarts from zero.
  function Persisted(db: Db): nat {
    if HasCounter(db) then db[COUNTER_KEY].next else 0
  }

  // The constructor after a crash or on first start: the cache is empty and is not refilled. A
  // missing counter is written, and the status of that Put is ignored.
  function Restarted(db: Db, counterOk: bool): Queue {
    var q := Queue(db, map[], Persisted(db));
    if HasCounter(db) || !counterOk then q else CounterPut(q)
  }

  datatype Op =
    | Enqueue(task: Task, putOk: bool, counterOk: bool)
    | Dequeue(deleteOk: bool)
    // The process dies and restarts: between operations, or after some of an operation's writes.
    | Crash(restartOk: bool)
    | CrashInEnqueue(task: Task, putReached: bool, counterReached: bool, restartOk: bool)
    | CrashInDequeue(deleteReached: bool, restartOk: bool)

  function Step(q: Queue, op: Op): Queue {
    match op
    case Enqueue(task, putOk, counterOk) => Enqueued(q, task, putOk, counterOk)
    case Dequeue(deleteOk) => Dequeued(q, deleteOk)
    case Crash(restartOk) => Restarted(q.db, restartOk)
    case CrashInEnqueue(task, putReached, counterReached, restartOk) =>
      if !putReached then Restarted(q.db, restartOk)
      else if !counterReached then Restarted(RecordPut(q, task).db, restartOk)
      else Restarted(CounterPut(RecordPut(q, task)).db, restartOk)
    case CrashInDequeue(deleteReached, restartOk) =>
      if q.cache == map[] || !deleteReached then Restarted(q.db, restartOk) else Restarted(Deleted(q).db, restartOk)
  }

  function Run(q: Queue, ops: seq<Op>): Queue
    decreases |ops|
  {
    if ops == [] then q else Run(Step(q, ops[0]), ops[1..])
  }

  predicate CountersWritten(ops: seq<Op>) {
    forall op :: op in ops && op.Enqueue? ==> op.counterOk
  }

  predicate NoCrash(ops: seq<Op>) {
    forall op :: op in ops ==> op.Enqueue? || op.Dequeue?
  }

  // ---- FIFO refinement ----

  // The abstract queue: cached tasks in sequence order.
  ghost function Fifo(cache: map<nat, Task>): (tasks: seq<Task>)
    ensures |tasks| == |cache|
    decreases |cache|
  {
    if cache == map[] then []
    else
      var m := Least(cache.Keys);
      [cache[m]] + Fifo(cache - {m})
  }

  lemma FifoUnfold(cache: map<nat, Task>, m: nat)
    requires IsLeast(cache.Keys, m)
    ensures Fifo(cache) == [cache[m]] + Fifo(cache - {m})
  {
  }

  // A task with a new largest sequence joins at the end.
  lemma {:induction false} FifoAppend(cache: map<nat, Task>, s: nat, task: Task)
    requires forall k :: k in cache ==> k < s
    ensures Fifo(cache[s := task]) == Fifo(cache) + [task]
    decreases |cache|
  {
    var bigger := cache[s := task];
    if cache == map[] {
      FifoUnfold(bigger, s);
      assert bigger - {s} == map[];
    } else {
      var m := Least(cache.Keys);
      var rest := cache - {m};
      assert IsLeast(bigger.Keys, m) && bigger - {m} == rest[s := task];
      FifoUnfold(cache, m);
      FifoUnfold(bigger, m);
      FifoAppend(rest, s, task);
      Reassociate([cache[m]], Fifo(rest), [task]);
    }
  }

  // The tasks whose enqueue returned true, and those handed out by a dequeue that returned true.
  function AcceptedBy(op: Op): seq<Task> {
    if op.Enqueue? && op.putOk then [op.task] else []
  }

  function Accepted(ops: seq<Op>): seq<Task> {
    if ops == [] then [] else AcceptedBy(ops[0]) + Accepted(ops[1..])
  }

  function DeliveredBy(q: Queue, op: Op): seq<Task> {
    if op.Dequeue? && op.deleteOk && q.cache != map[] then [q.cache[Least(q.cache.Keys)]] else []
  }

  function Delivered(q: Queue, ops: seq<Op>): seq<Task>
    decreases |ops|
  {
    if ops == [] then [] else DeliveredBy(q, ops[0]) + Delivered(Step(q, ops[0]), ops[1..])
  }

  ghost predicate CacheBelowNext(q: Queue) {
    forall s :: s in q.cache ==> s < q.next
  }

  lemma StepFifo(q: Queue, op: Op)
    requires CacheBelowNext(q) && (op.Enqueue? || op.Dequeue?)
    ensures CacheBelowNext(Step(q, op))
    ensures DeliveredBy(q, op) + Fifo(Step(q, op).cache) == Fifo(q.cache) + AcceptedBy(op)
  {
    match op {
      case Enqueue(task, putOk, _) =>
        if putOk {
          FifoAppend(q.cache, q.next, task);
        }
      case Dequeue(_) =>
    }
  }

  // Conservation in order: between crashes, what was waiting followed by what was accepted is what
  // was delivered followed by what still waits, under any mix of failing Puts and Deletes.
  lemma {:induction false} FirstInFirstOut(q: Queue, ops: seq<Op>)
    requires CacheBelowNext(q) && NoCrash(ops)
    ensures Delivered(q, ops) + Fifo(Run(q, ops).cache) == Fifo(q.cache) + Accepted(ops)
    decreases |ops|
  {
    if ops == [] {
    } else {
      var op, rest, next := ops[0], ops[1..], Step(q, ops[0]);
      assert op in ops;
      StepFifo(q, op);
      FirstInFirstOut(next, rest);
      Reassociate(DeliveredBy(q, op), Delivered(next, rest), Fifo(Run(next, rest).cache));
      Reassociate(DeliveredBy(q, op), Fifo(next.cache), Accepted(rest));
      Reassociate(Fifo(q.cache), AcceptedBy(op), Accepted(rest));
    }
  }

  lemma Reassociate<T>(a: seq<T>, b: seq<T>, c: seq<T>)
    ensures (a + b) + c == a + (b + c)
  {
  }

  ghost function Ahead(cache: map<nat, Task>, s: nat): set<nat> {
    set k | k in cache && k < s
  }

  // A cached task stands in the abstract queue behind exactly the smaller sequences.
  lemma {:induction false} PlaceInFifo(cache: map<nat, Task>, s: nat)
    requires s in cache
    ensures |Ahead(cache, s)| < |cache| && Fifo(cache)[|Ahead(cache, s)|] == cache[s]
    decreases |cache|
  {
    var m := Least(cache.Keys);
    var rest := cache - {m};
    FifoUnfold(cache, m);
    if m == s {
      assert Ahead(cache, s) == {};
    } else {
      PlaceInFifo(rest, s);
      assert Ahead(cache, s) == Ahead(rest, s) + {m};
      assert Fifo(cache)[|Ahead(rest, s)| + 1] == Fifo(rest)[|Ahead(rest, s)|];
    }
  }

  // No starvation: with k smaller sequences ahead, a task is what the (k+1)-th successful dequeue
  // returns, however many enqueues and failures happen in between.
  lemma NoStarvation(q: Queue, ops: seq<Op>, s: nat)
    requires CacheBelowNext(q) && NoCrash(ops) && s in q.cache
    requires |Delivered(q, ops)| > |Ahead(q.cache, s)|
    ensures Delivered(q, ops)[|Ahead(q.cache, s)|] == q.cache[s]
  {
    FirstInFirstOut(q, ops);
    PlaceInFifo(q.cache, s);
    var k, all := |Ahead(q.cache, s)|, Fifo(q.cache) + Accepted(ops);
    assert all[k] == Fifo(q.cache)[k];
    assert (Delivered(q, ops) + Fifo(Run(q, ops).cache))[k] == Delivered(q, ops)[k];
  }

  // ---- Consistency of database, cache and counter ----

  ghost predicate Consistent(q: Queue) {
    && Persisted(q.db) <= q.next
    && forall s :: s in q.cache ==>
         s < Persisted(q.db) && TaskKey(s) in q.db && q.db[TaskKey(s)] == TaskRecord(q.cache[s])
  }

  lemma EnqueueConsistent(q: Queue, task: Task, putOk: bool)
    requires Consistent(q)
    ensures Consistent(Enqueued(q, task, putOk, true))
  {
    KeysApart(q.next);
  }

  lemma DequeueConsistent(q: Queue, deleteOk: bool)
    requires Consistent(q)
    ensures Consistent(Dequeued(q, deleteOk))
  {
    if q.cache != map[] {
      KeysApart(Least(q.cache.Keys));
    }
  }

  lemma StepConsistent(q: Queue, op: Op)
    requires Consistent(q) && (op.Enqueue? ==> op.counterOk)
    ensures Consistent(Step(q, op))
  {
    match op {
      case Enqueue(task, putOk, _) => EnqueueConsistent(q, task, putOk);
      case Dequeue(deleteOk) => DequeueConsistent(q, deleteOk);
      case Crash(_) =>
      case CrashInEnqueue(_, _, _, _) =>
      case CrashInDequeue(_, _) =>
    }
  }

  // Writing or deleting one task record touches no other task's record and not the counter.
  lemma KeysApart(s: nat)
    ensures TaskKey(s) != COUNTER_KEY
    ensures forall t: nat {:trigger TaskKey(t)} :: t != s ==> TaskKey(t) != TaskKey(s)
  {
    TaskKeyIsNotCounter(s);
    forall t: nat | t != s
      ensures TaskKey(t) != TaskKey(s)
    {
      TaskKeyInjective(t, s);
    }
  }

  lemma {:induction false} AlwaysConsistent(q: Queue, ops: seq<Op>)
    requires Consistent(q) && CountersWritten(ops)
    ensures Consistent(Run(q, ops))
    decreases |ops|
  {
    if ops != [] {
      assert ops[0] in ops;
      StepConsistent(q, ops[0]);
      AlwaysConsistent(Step(q, ops[0]), ops[1..]);
    }
  }

  // What a restart leaves: every task record, the counter, written if it was missing and can be, the
  // next sequence taken from it, and no cached task.
  lemma RestartKeeps(db: Db, counterOk: bool)
    ensures var q := Restarted(db, counterOk);
            && q.cache == map[] && q.next == Persisted(db) == Persisted(q.db)
            && (HasCounter(q.db) <==> HasCounter(db) || counterOk)
            && (forall k :: k != COUNTER_KEY ==> (k in q.db <==> k in db) && (k in db ==> q.db[k] == db[k]))
  {
  }

  // What a crash leaves, wherever it strikes: an empty cache; the task being enqueued if its record was
  // written; not the task being dequeued if its deletion was; the counter as last written; every other
  // record.
  lemma CrashLeaves(q: Queue, op: Op)
    requires !op.Enqueue? && !op.Dequeue?
    ensures var r := Step(q, op);
            var added := op.CrashInEnqueue? && op.putReached;
            && r.cache == map[]
            && (forall s: nat {:trigger TaskKey(s)} ::
                 (TaskKey(s) in r.db <==>
                   || (added && s == q.next)
                   || (TaskKey(s) in q.db && DeletedBy(q, op) != Some(s)))
                 && (TaskKey(s) in r.db ==>
                      r.db[TaskKey(s)] == if added && s == q.next then TaskRecord(op.task) else q.db[TaskKey(s)]))
            && Persisted(r.db) == (if added && op.counterReached then q.next + 1 else Persisted(q.db))
            && r.next == Persisted(r.db)
  {
    KeysApart(q.next);
    if q.cache != map[] {
      KeysApart(Least(q.cache.Keys));
    }
    forall s: nat
      ensures TaskKey(s) != COUNTER_KEY
    {
      TaskKeyIsNotCounter(s);
    }
  }

  function Enqueues(ops: seq<Op>): nat {
    if ops == [] then 0 else (if ops[0].Enqueue? then 1 else 0) + Enqueues(ops[1..])
  }

  // Between crashes every enqueue uses up one sequence, whether or not its task could be recorded.
  lemma {:induction false} SequencesUsedUp(q: Queue, ops: seq<Op>)
    requires NoCrash(ops)
    ensures Run(q, ops).next == q.next + Enqueues(ops)
    decreases |ops|
  {
    if ops != [] {
      assert ops[0] in ops;
      SequencesUsedUp(Step(q, ops[0]), ops[1..]);
    }
  }

  // ---- Crash durability ----

  // The sequence of the record an operation deletes, if it deletes one.
  function DeletedBy(q: Queue, op: Op): Option<nat> {
    if q.cache != map[] && ((op.Dequeue? && op.deleteOk) || (op.CrashInDequeue? && op.deleteReached))
    then Some(Least(q.cache.Keys))
    else None
  }

  predicate EverDeleted(q: Queue, ops: seq<Op>, s: nat)
    decreases |ops|
  {
    ops != [] && (DeletedBy(q, ops[0]) == Some(s) || EverDeleted(Step(q, ops[0]), ops[1..], s))
  }

  // The database holds the task under its sequence, and the counter is already past it.
  predicate Recorded(q: Queue, s: nat, task: Task) {
    && s < Persisted(q.db)
    && TaskKey(s) in q.db && q.db[TaskKey(s)] == TaskRecord(task)
  }

  // An acknowledged task is recorded.
  lemma AcknowledgedIsRecorded(q: Queue, task: Task)
    ensures Recorded(Enqueued(q, task, true, true), q.next, task)
  {
  }

  lemma StepKeepsRecord(q: Queue, op: Op, s: nat, task: Task)
    requires Consistent(q) && Recorded(q, s, task) && (op.Enqueue? ==> op.counterOk)
    requires DeletedBy(q, op) != Some(s)
    ensures Recorded(Step(q, op), s, task)
    ensures s in Step(q, op).cache ==> s in q.cache
  {
    KeysApart(s);
  }

  // Through any operations, crashes inside operations and restarts, a recorded task stays in
  // the database unmodified until a dequeue deletes it.
  lemma {:induction false} RecordSurvives(q: Queue, ops: seq<Op>, s: nat, task: Task)
    requires Consistent(q) && Recorded(q, s, task) && CountersWritten(ops)
    requires !EverDeleted(q, ops, s)
    ensures Recorded(Run(q, ops), s, task)
    decreases |ops|
  {
    if ops != [] {
      assert ops[0] in ops;
      StepKeepsRecord(q, ops[0], s, task);
      StepConsistent(q, ops[0]);
      RecordSurvives(Step(q, ops[0]), ops[1..], s, task);
    }
  }

  // The sequences acknowledged during a run.
  function Issued(q: Queue, ops: seq<Op>): seq<nat>
    decreases |ops|
  {
    if ops == [] then []
    else (if ops[0].Enqueue? && ops[0].putOk then [q.next] else []) + Issued(Step(q, ops[0]), ops[1..])
  }

  lemma CounterGrows(q: Queue, op: Op)
    requires Consistent(q) && (op.Enqueue? ==> op.counterOk)
    ensures Persisted(Step(q, op).db) >= Persisted(q.db)
    ensures op.Enqueue? && op.putOk ==> Persisted(Step(q, op).db) > q.next
  {
  }

  // Acknowledged sequences increase strictly, across crashes too: none is ever reused.
  lemma {:induction false} NeverReissued(q: Queue, ops: seq<Op>)
    requires Consistent(q) && CountersWritten(ops)
    ensures forall i :: 0 <= i < |Issued(q, ops)| ==> Issued(q, ops)[i] >= Persisted(q.db)
    ensures forall i, j :: 0 <= i < j < |Issued(q, ops)| ==> Issued(q, ops)[i] < Issued(q, ops)[j]
    decreases |ops|
  {
    if ops != [] {
      assert ops[0] in ops;
      StepConsistent(q, ops[0]);
      CounterGrows(q, ops[0]);
      NeverReissued(Step(q, ops[0]), ops[1..]);
      var later := Issued(Step(q, ops[0]), ops[1..]);
      assert Issued(q, ops) == later || Issued(q, ops) == [q.next] + later;
    }
  }

  // A record whose task is not cached is never delivered and never removed: the restart path
  // does not reload it.
  lemma {:induction false} UncachedIsStranded(q: Queue, ops: seq<Op>, s: nat, task: Task)
    requires Consistent(q) && Recorded(q, s, task) && s !in q.cache && CountersWritten(ops)
    ensures !EverDeleted(q, ops, s)
    ensures Recorded(Run(q, ops), s, task) && s !in Run(q, ops).cache
    decreases |ops|
  {
    if ops != [] {
      assert ops[0] in ops;
      StepKeepsRecord(q, ops[0], s, task);
      StepConsistent(q, ops[0]);
      UncachedIsStranded(Step(q, ops[0]), ops[1..], s, task);
    }
  }

  function Repeated(task: Task, n: nat): (ops: seq<Op>)
    ensures |ops| == n && CountersWritten(ops)
  {
    if n == 0 then [] else [Enqueue(task, true, true)] + Repeated(task, n - 1)
  }

  lemma {:induction false} RefillReaches(q: Queue, s: nat, task: Task)
    requires q.next <= s
    ensures var end := Run(q, Repeated(task, s - q.next + 1));
            TaskKey(s) in end.db && end.db[TaskKey(s)] == TaskRecord(task)
    decreases s - q.next
  {
    var ops := Repeated(task, s - q.next + 1);
    var next := Step(q, ops[0]);
    KeysApart(s);
    assert ops[1..] == Repeated(task, s - q.next);
    if q.next < s {
      RefillReaches(next, s, task);
    } else {
      assert Run(q, ops) == next by {
        assert Run(next, ops[1..]) == next;
      }
    }
  }

  // Why the counter write matters. After a crash, a record is safe from every continuation if and
  // only if a persisted counter has passed its sequence.
  lemma SafeAfterCrashIff(db: Db, s: nat, task: Task, restartOk: bool)
    requires TaskKey(s) in db && db[TaskKey(s)] == TaskRecord(task)
    ensures HasCounter(db) && s < Persisted(db) <==>
            forall ops: seq<Op> :: CountersWritten(ops) ==>
              && TaskKey(s) in Run(Restarted(db, restartOk), ops).db
              && Run(Restarted(db, restartOk), ops).db[TaskKey(s)] == TaskRecord(task)
  {
    var q := Restarted(db, restartOk);
    TaskKeyIsNotCounter(s);
    if s < Persisted(db) {
      forall ops: seq<Op> | CountersWritten(ops)
        ensures Recorded(Run(q, ops), s, task)
      {
        UncachedIsStranded(q, ops, s, task);
      }
    } else {
      var other := task.(queuedTime := task.queuedTime + 1);
      RefillReaches(q, s, other);
    }
  }

  // ---- When a record is gone, and when it can still be delivered ----

  // A deleted record stays deleted: its sequence is never written again.
  lemma {:induction false} DeletedStaysDeleted(q: Queue, ops: seq<Op>, s: nat)
    requires Consistent(q) && CountersWritten(ops)
    requires s < Persisted(q.db) && s !in q.cache && TaskKey(s) !in q.db
    ensures TaskKey(s) !in Run(q, ops).db
    decreases |ops|
  {
    if ops != [] {
      assert ops[0] in ops;
      KeysApart(s);
      StepConsistent(q, ops[0]);
      CounterGrows(q, ops[0]);
      DeletedStaysDeleted(Step(q, ops[0]), ops[1..], s);
    }
  }

  // Over every run, crashes included, a recorded task's record is in the database if and only if no
  // dequeue, finished or interrupted, has deleted it.
  lemma {:induction false} RecordPresentIff(q: Queue, ops: seq<Op>, s: nat, task: Task)
    requires Consistent(q) && Recorded(q, s, task) && CountersWritten(ops)
    ensures TaskKey(s) in Run(q, ops).db <==> !EverDeleted(q, ops, s)
    decreases |ops|
  {
    if ops != [] {
      assert ops[0] in ops;
      StepConsistent(q, ops[0]);
      if DeletedBy(q, ops[0]) == Some(s) {
        KeysApart(s);
        CounterGrows(q, ops[0]);
        DeletedStaysDeleted(Step(q, ops[0]), ops[1..], s);
      } else {
        StepKeepsRecord(q, ops[0], s, task);
        RecordPresentIff(Step(q, ops[0]), ops[1..], s, task);
      }
    }
  }

  // Some dequeue of the run returns the task with this sequence.
  predicate EverReturned(q: Queue, ops: seq<Op>, s: nat)
    decreases |ops|
  {
    ops != [] &&
    ((ops[0].Dequeue? && DeletedBy(q, ops[0]) == Some(s)) || EverReturned(Step(q, ops[0]), ops[1..], s))
  }

  lemma {:induction false} ReturnedIsDeleted(q: Queue, ops: seq<Op>, s: nat)
    requires EverReturned(q, ops, s)
    ensures EverDeleted(q, ops, s)
    decreases |ops|
  {
    if !(ops[0].Dequeue? && DeletedBy(q, ops[0]) == Some(s)) {
      ReturnedIsDeleted(Step(q, ops[0]), ops[1..], s);
    }
  }

  function Dequeues(n: nat): (ops: seq<Op>)
    ensures CountersWritten(ops)
  {
    if n == 0 then [] else [Dequeue(true)] + Dequeues(n - 1)
  }

  lemma {:induction false} DequeuesReach(q: Queue, s: nat)
    requires s in q.cache
    ensures EverReturned(q, Dequeues(|q.cache|), s)
    decreases |q.cache|
  {
    var least := Least(q.cache.Keys);
    var ops := Dequeues(|q.cache|);
    assert ops[0] == Dequeue(true) && ops[1..] == Dequeues(|q.cache| - 1);
    if least != s {
      var next := Step(q, ops[0]);
      assert next.cache.Keys == q.cache.Keys - {least};
      assert |next.cache| == |q.cache| - 1;
      DequeuesReach(next, s);
    }
  }

  // A recorded task can still be delivered if and only if it is cached.
  lemma DeliverableIff(q: Queue, s: nat, task: Task)
    requires Consistent(q) && Recorded(q, s, task)
    ensures s in q.cache <==> exists ops: seq<Op> :: CountersWritten(ops) && EverReturned(q, ops, s)
  {
    if s in q.cache {
      DequeuesReach(q, s);
    } else {
      forall ops: seq<Op> | CountersWritten(ops)
        ensures !EverReturned(q, ops, s)
      {
        UncachedIsStranded(q, ops, s, task);
        if EverReturned(q, ops, s) {
          ReturnedIsDeleted(q, ops, s);
        }
      }
    }
  }

  ghost predicate IsTaskKey(k: string) { exists s: nat :: k == TaskKey(s) }

  // From an empty database and without a crash, the records are exactly those of the cached tasks.
  ghost predicate Mirrored(q: Queue) {
    && CacheBelowNext(q)
    && (forall s: nat {:trigger TaskKey(s)} :: TaskKey(s) in q.db <==> s in q.cache)
    && (forall s :: s in q.cache ==> q.db[TaskKey(s)] == TaskRecord(q.cache[s]))
    && (forall k :: k in q.db && k != COUNTER_KEY ==> IsTaskKey(k))
  }

  lemma RecordMirrored(q: Queue, task: Task)
    requires Mirrored(q)
    ensures Mirrored(RecordPut(q, task).(cache := q.cache[q.next := task]))
  {
    KeysApart(q.next);
    assert IsTaskKey(TaskKey(q.next));
  }

  lemma CounterMirrored(q: Queue)
    requires Mirrored(q)
    ensures Mirrored(CounterPut(q))
  {
    forall s: nat
      ensures TaskKey(s) != COUNTER_KEY
    {
      TaskKeyIsNotCounter(s);
    }
  }

  lemma EnqueueMirrored(q: Queue, task: Task, putOk: bool, counterOk: bool)
    requires Mirrored(q)
    ensures Mirrored(Enqueued(q, task, putOk, counterOk))
  {
    var recorded := RecordPut(q, task).(cache := q.cache[q.next := task]);
    RecordMirrored(q, task);
    CounterMirrored(recorded);
    assert putOk ==> Enqueued(q, task, putOk, counterOk) == if counterOk then CounterPut(recorded) else recorded;
  }

  lemma DequeueMirrored(q: Queue, deleteOk: bool)
    requires Mirrored(q)
    ensures Mirrored(Dequeued(q, deleteOk))
  {
    if q.cache != map[] {
      KeysApart(Least(q.cache.Keys));
    }
  }

  lemma FreshMirrored(counterOk: bool)
    ensures Mirrored(Restarted(map[], counterOk))
  {
    forall s: nat
      ensures TaskKey(s) != COUNTER_KEY
    {
      TaskKeyIsNotCounter(s);
    }
  }

  // ---- The queue object ----

  class TaskQueue {
    var db: Db
    var taskCache: map<nat, Task>
    var nextSequence: nat

    ghost function State(): Queue
      reads this
    {
      Queue(db, taskCache, nextSequence)
    }

    // Opens an existing or empty database.
    constructor (stored: Db, counterOk: bool)
      ensures State() == Restarted(stored, counterOk) && Consistent(State())
    {
      db, taskCache, nextSequence := stored, map[], 0;
      new;
      var loaded := LoadNextSequence();
      if !loaded {
        nextSequence := 0;
        PersistNextSequence(counterOk);
      }
    }

    method LoadNextSequence() returns (loaded: bool)
      modifies this`nextSequence
      ensures loaded == HasCounter(db)
      ensures nextSequence == if loaded then Persisted(db) else old(nextSequence)
    {
      if COUNTER_KEY in db && db[COUNTER_KEY].Counter? {
        nextSequence := db[COUNTER_KEY].next;
        return true;
      }
      return false;
    }

    method PersistNextSequence(ok: bool)
      modifies this`db
      ensures State() == if ok then CounterPut(old(State())) else old(State())
    {
      if ok {
        db := db[COUNTER_KEY := Counter(nextSequence)];
      }
    }

    method EnqueueTask(task: Task, putOk: bool, counterOk: bool) returns (ok: bool)
      modifies this
      ensures ok == putOk && State() == Enqueued(old(State()), task, putOk, counterOk)
      ensures old(CacheBelowNext(State())) ==>
        && CacheBelowNext(State())
        && Fifo(taskCache) == if ok then old(Fifo(taskCache)) + [task] else old(Fifo(taskCache))
    {
      var s := nextSequence;
      nextSequence := nextSequence + 1;
      if !putOk {
        return false;
      }
      db := db[TaskKey(s) := TaskRecord(task)];
      PersistNextSequence(counterOk);
      taskCache := taskCache[s := task];
      if old(CacheBelowNext(State())) {
        FifoAppend(old(taskCache), s, task);
      }
      return true;
    }

    // None stands for false.
    method DequeueTask(deleteOk: bool) returns (task: Option<Task>)
      modifies this
      ensures State() == Dequeued(old(State()), deleteOk)
      ensures task.Some? <==> deleteOk && old(taskCache) != map[]
      ensures task.Some? ==> task.value == old(taskCache)[Least(old(taskCache).Keys)]
      ensures task.Some? ==> old(Fifo(taskCache)) == [task.value] + Fifo(taskCache)
    {
      if taskCache == map[] {
        return None;
      }
      var s := Least(taskCache.Keys);
      task := Some(taskCache[s]);
      if !deleteOk {
        return None;
      }
      db := db - {TaskKey(s)};
      taskCache := taskCache - {s};
    }
  }
}
