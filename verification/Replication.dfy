/** The replication protocol: local puts enqueue tasks; workers take a task, attempt every endpoint
    and requeue the task unless all of them succeeded. */
module Replication {
  import opened Base
  import opened TaskQueues
  import opened CircuitBreakers

  // replica_endpoints_, and the hash that puts an object's ETag in its metadata.
  datatype Config = Config(endpoints: seq<string>, etagOf: Bytes -> string)

  // Where an attempt at one endpoint stands: before it, after reading the local object, and after a
  // HEAD that did not match. The data read is what will be pushed, whatever happens meanwhile.
  datatype Phase = Ready | HaveRead(data: Bytes) | Pushing(data: Bytes)

  // A task between its dequeue and its completion: endpoints already tried, and whether one failed.
  datatype Flight = Flight(task: Task, tried: nat, failed: bool, phase: Phase) {
    function Key(): ObjectKey { KeyOf(task) }

    function Next(ok: bool): Flight { Flight(task, tried + 1, failed || !ok, Ready) }
  }

  type Remotes = map<string, map<ObjectKey, Bytes>>

  datatype World = World(
    local: map<ObjectKey, Bytes>,
    remotes: Remotes,
    queue: Queue,
    breakers: map<string, Breaker>,
    flights: map<nat, Flight>)

  function KeyOf(task: Task): ObjectKey { ObjectKey(task.bucket, task.key) }

  function Remote(remotes: Remotes, endpoint: string): map<ObjectKey, Bytes> {
    if endpoint in remotes then remotes[endpoint] else map[]
  }

  // A step of the system. Booleans and times are what the disk, the network and the clock did.
  datatype Step =
    | Put(key: ObjectKey, data: Bytes, time: int, putOk: bool, counterOk: bool)
    | Take(worker: nat, deleteOk: bool)
    | ReadLocal(worker: nat, asked: int, failedAt: int, readOk: bool)
    | Head(worker: nat, headOk: bool)
    // A push may reach the remote without its acknowledgement coming back.
    | Push(worker: nat, failedAt: int, applied: bool, acked: bool)
    | Finish(worker: nat, putOk: bool, counterOk: bool)

  function Settle(c: Config, w: World, i: nat, ok: bool, failedAt: int): World
    requires i in w.flights && w.flights[i].tried < |c.endpoints|
  {
    var f := w.flights[i];
    var e := c.endpoints[f.tried];
    var cb := Lookup(w.breakers, e);
    w.(breakers := w.breakers[e := if ok then cb.Succeeded() else cb.Failed(failedAt)],
       flights := w.flights[i := f.Next(ok)])
  }

  // A step that is not enabled changes nothing.
  function Apply(c: Config, w: World, step: Step): World {
    match step
    case Put(key, data, time, putOk, counterOk) =>
      var task := Task(key.bucket, key.key, "", c.etagOf(data), time);
      w.(local := w.local[key := data], queue := Enqueued(w.queue, task, putOk, counterOk))
    case Take(i, deleteOk) =>
      if i in w.flights || w.queue.cache == map[] || !deleteOk then w
      else
        var task := w.queue.cache[Least(w.queue.cache.Keys)];
        w.(queue := Dequeued(w.queue, true), flights := w.flights[i := Flight(task, 0, false, Ready)])
    case ReadLocal(i, asked, failedAt, readOk) =>
      if i !in w.flights || w.flights[i].tried >= |c.endpoints| || !w.flights[i].phase.Ready? then w
      else
        var f := w.flights[i];
        var e := c.endpoints[f.tried];
        var cb := Lookup(w.breakers, e);
        var w1 := w.(breakers := w.breakers[e := cb.Asked(asked)]);
        if !cb.Grants(asked) then w1.(flights := w.flights[i := f.Next(false)])
        else if !readOk || f.Key() !in w.local then Settle(c, w1, i, false, failedAt)
        else w1.(flights := w.flights[i := f.(phase := HaveRead(w.local[f.Key()]))])
    case Head(i, headOk) =>
      if i !in w.flights || w.flights[i].tried >= |c.endpoints| || !w.flights[i].phase.HaveRead? then w
      else
        var f := w.flights[i];
        var remote := Remote(w.remotes, c.endpoints[f.tried]);
        if headOk && f.Key() in remote && c.etagOf(remote[f.Key()]) == c.etagOf(f.phase.data)
        then Settle(c, w, i, true, 0)
        else w.(flights := w.flights[i := f.(phase := Pushing(f.phase.data))])
    case Push(i, failedAt, applied, acked) =>
      if i !in w.flights || w.flights[i].tried >= |c.endpoints| || !w.flights[i].phase.Pushing? then w
      else
        var f := w.flights[i];
        var e := c.endpoints[f.tried];
        var remotes := if applied || acked
                       then w.remotes[e := Remote(w.remotes, e)[f.Key() := f.phase.data]]
                       else w.remotes;
        Settle(c, w.(remotes := remotes), i, acked, failedAt)
    case Finish(i, putOk, counterOk) =>
      if i !in w.flights || w.flights[i].tried < |c.endpoints| then w
      else
        var f := w.flights[i];
        var queue := if f.failed then Enqueued(w.queue, f.task, putOk, counterOk) else w.queue;
        w.(queue := queue, flights := w.flights - {i})
  }

  function ApplyAll(c: Config, w: World, steps: seq<Step>): World
    decreases |steps|
  {
    if steps == [] then w else ApplyAll(c, Apply(c, w, steps[0]), steps[1..])
  }

  // ---- Safety ----

  predicate Agrees(w: World, key: ObjectKey, endpoint: string)
    requires key in w.local
  {
    key in Remote(w.remotes, endpoint) && Remote(w.remotes, endpoint)[key] == w.local[key]
  }

  predicate Waiting(q: Queue, key: ObjectKey) {
    exists s | s in q.cache :: KeyOf(q.cache[s]) == key
  }

  // A flight that will still attempt the endpoint or requeue its task.
  predicate Covers(c: Config, f: Flight, key: ObjectKey, endpoint: string) {
    f.Key() == key && (f.failed || (f.tried <= |c.endpoints| && endpoint in c.endpoints[f.tried..]))
  }

  predicate Covered(c: Config, w: World, key: ObjectKey, endpoint: string) {
    Waiting(w.queue, key) || exists i | i in w.flights :: Covers(c, w.flights[i], key, endpoint)
  }

  // Every difference between local storage and an endpoint is still going to be worked on.
  ghost predicate Safe(c: Config, w: World) {
    forall key, e {:trigger Covered(c, w, key, e)} | key in w.local && e in c.endpoints ::
      Agrees(w, key, e) || Covered(c, w, key, e)
  }

  predicate Idle(w: World) { w.queue.cache == map[] && w.flights == map[] }

  ghost predicate WellFormed(c: Config, w: World) {
    && CacheBelowNext(w.queue)
    && forall i :: i in w.flights ==> w.flights[i].tried <= |c.endpoints|
  }

  // The data a worker is holding is still the local object.
  predicate Fresh(w: World, i: nat)
    requires i in w.flights
  {
    var f := w.flights[i];
    !f.phase.Ready? ==> f.Key() in w.local && f.phase.data == w.local[f.Key()]
  }

  predicate FreshOrWaiting(w: World, i: nat)
    requires i in w.flights
  {
    Fresh(w, i) || Waiting(w.queue, w.flights[i].Key())
  }

  predicate EnqueuesSucceed(step: Step) {
    (step.Put? || step.Finish?) ==> step.putOk
  }

  // ---- The exact condition for one step ----

  // Covered by something other than flight i.
  predicate CoveredElsewhere(c: Config, w: World, i: nat, key: ObjectKey, e: string) {
    Waiting(w.queue, key) || exists j | j in w.flights :: j != i && Covers(c, w.flights[j], key, e)
  }

  predicate Attempting(c: Config, w: World, i: nat) {
    i in w.flights && w.flights[i].tried < |c.endpoints|
  }

  // The step ends an attempt as a success: a HEAD that matches, or an acknowledged push.
  predicate EndsInSuccess(c: Config, w: World, step: Step) {
    match step
    case Head(i, headOk) =>
      && Attempting(c, w, i) && w.flights[i].phase.HaveRead? && headOk
      && var remote := Remote(w.remotes, c.endpoints[w.flights[i].tried]);
         var key := w.flights[i].Key();
         key in remote && c.etagOf(remote[key]) == c.etagOf(w.flights[i].phase.data)
    case Push(i, _, _, acked) => Attempting(c, w, i) && w.flights[i].phase.Pushing? && acked
    case _ => false
  }

  // The object did not change since it was read, or the endpoint will be attempted again for the key.
  predicate SuccessIsSafe(c: Config, w: World, i: nat)
    requires Attempting(c, w, i) && !w.flights[i].phase.Ready?
  {
    var f := w.flights[i];
    var e := c.endpoints[f.tried];
    || f.Key() !in w.local || f.phase.data == w.local[f.Key()]
    || f.failed || e in c.endpoints[f.tried + 1..] || CoveredElsewhere(c, w, i, f.Key(), e)
  }

  // A worker gives up its failed task and the requeue does not succeed.
  predicate RequeueLost(c: Config, w: World, step: Step) {
    step.Finish? && step.worker in w.flights && w.flights[step.worker].tried >= |c.endpoints| &&
    w.flights[step.worker].failed && !step.putOk
  }

  // What a step needs of the state before it.
  predicate KeepsSafe(c: Config, w: World, step: Step) {
    && (step.Put? && !step.putOk ==>
         forall e | e in c.endpoints ::
           || (step.key in Remote(w.remotes, e) && Remote(w.remotes, e)[step.key] == step.data)
           || Covered(c, w, step.key, e))
    && (EndsInSuccess(c, w, step) ==> SuccessIsSafe(c, w, step.worker))
    && (RequeueLost(c, w, step) ==>
         var key := w.flights[step.worker].Key();
         key in w.local ==>
           forall e | e in c.endpoints :: Agrees(w, key, e) || CoveredElsewhere(c, w, step.worker, key, e))
  }

  lemma FreshKeepsSafe(c: Config, w: World, step: Step)
    requires EnqueuesSucceed(step)
    requires (step.Head? || step.Push?) && step.worker in w.flights ==> FreshOrWaiting(w, step.worker)
    ensures KeepsSafe(c, w, step)
  {
  }

  lemma WaitingGrows(q: Queue, task: Task, counterOk: bool, key: ObjectKey)
    requires CacheBelowNext(q)
    ensures CacheBelowNext(Enqueued(q, task, true, counterOk))
    ensures Waiting(Enqueued(q, task, true, counterOk), KeyOf(task))
    ensures Waiting(q, key) ==> Waiting(Enqueued(q, task, true, counterOk), key)
  {
    var r := Enqueued(q, task, true, counterOk);
    assert r.cache[q.next] == task;
    if Waiting(q, key) {
      var s :| s in q.cache && KeyOf(q.cache[s]) == key;
      assert r.cache[s] == q.cache[s];
    }
  }

  // Dequeuing a task leaves its key without a waiting task at most.
  lemma WaitingShrinks(q: Queue, key: ObjectKey)
    requires q.cache != map[] && Waiting(q, key)
    ensures Waiting(Dequeued(q, true), key) || KeyOf(q.cache[Least(q.cache.Keys)]) == key
  {
    var s :| s in q.cache && KeyOf(q.cache[s]) == key;
    if s != Least(q.cache.Keys) {
      assert Dequeued(q, true).cache[s] == q.cache[s];
    }
  }

  lemma StepWellFormed(c: Config, w: World, step: Step)
    requires WellFormed(c, w)
    ensures WellFormed(c, Apply(c, w, step))
  {
  }

  // Flights other than the one that moved keep covering what they covered.
  lemma OtherFlightsCover(c: Config, w: World, r: World, i: nat, key: ObjectKey, e: string)
    requires forall j :: j in w.flights && j != i ==> j in r.flights && r.flights[j] == w.flights[j]
    ensures (exists j | j in w.flights :: j != i && Covers(c, w.flights[j], key, e)) ==> Covered(c, r, key, e)
  {
  }

  // What one step does to one key and endpoint.
  lemma StepSafeFor(c: Config, w: World, step: Step, key: ObjectKey, e: string)
    requires Injective(c.etagOf) && WellFormed(c, w) && KeepsSafe(c, w, step)
    requires e in c.endpoints && key in Apply(c, w, step).local
    requires key in w.local ==> Agrees(w, key, e) || Covered(c, w, key, e)
    ensures Agrees(Apply(c, w, step), key, e) || Covered(c, Apply(c, w, step), key, e)
  {
    var r := Apply(c, w, step);
    if step.Put? {
      PutSafeFor(c, w, step, key, e);
    } else if step.Take? {
      TakeSafeFor(c, w, step, key, e);
    } else if step.worker in w.flights && r != w {
      if step.Finish? {
        FinishSafeFor(c, w, step, key, e);
      } else {
        AttemptSafeFor(c, w, step, key, e);
      }
    }
  }

  lemma PutSafeFor(c: Config, w: World, step: Step, key: ObjectKey, e: string)
    requires WellFormed(c, w) && step.Put? && KeepsSafe(c, w, step) && e in c.endpoints
    requires key in w.local ==> Agrees(w, key, e) || Covered(c, w, key, e)
    requires key in Apply(c, w, step).local
    ensures Agrees(Apply(c, w, step), key, e) || Covered(c, Apply(c, w, step), key, e)
  {
    var r := Apply(c, w, step);
    var task := Task(step.key.bucket, step.key.key, "", c.etagOf(step.data), step.time);
    assert KeyOf(task) == step.key;
    if step.putOk {
      WaitingGrows(w.queue, task, step.counterOk, key);
    } else {
      assert r.queue.cache == w.queue.cache;
    }
    if !Waiting(r.queue, key) && Covered(c, w, key, e) {
      var i :| i in w.flights && Covers(c, w.flights[i], key, e);
      assert i in r.flights && r.flights[i] == w.flights[i];
    }
  }

  lemma TakeSafeFor(c: Config, w: World, step: Step, key: ObjectKey, e: string)
    requires step.Take? && e in c.endpoints && key in w.local && (Agrees(w, key, e) || Covered(c, w, key, e))
    ensures Agrees(Apply(c, w, step), key, e) || Covered(c, Apply(c, w, step), key, e)
  {
    var r := Apply(c, w, step);
    if r != w {
      assert c.endpoints[0..] == c.endpoints && step.worker in r.flights;
      if Waiting(w.queue, key) {
        WaitingShrinks(w.queue, key);
        assert Covers(c, r.flights[step.worker], KeyOf(w.queue.cache[Least(w.queue.cache.Keys)]), e);
      }
      OtherFlightsCover(c, w, r, step.worker, key, e);
    }
  }

  lemma FinishSafeFor(c: Config, w: World, step: Step, key: ObjectKey, e: string)
    requires WellFormed(c, w) && step.Finish? && step.worker in w.flights && Apply(c, w, step) != w
    requires KeepsSafe(c, w, step) && e in c.endpoints
    requires key in w.local && (Agrees(w, key, e) || Covered(c, w, key, e))
    ensures Agrees(Apply(c, w, step), key, e) || Covered(c, Apply(c, w, step), key, e)
  {
    var r, f := Apply(c, w, step), w.flights[step.worker];
    OtherFlightsCover(c, w, r, step.worker, key, e);
    if f.failed && step.putOk {
      WaitingGrows(w.queue, f.task, step.counterOk, key);
    } else {
      assert r.queue.cache == w.queue.cache;
    }
  }

  // What a step of an attempt can change: its own flight, and one endpoint's copy of its key.
  lemma AttemptShape(c: Config, w: World, step: Step)
    requires Injective(c.etagOf) && (step.ReadLocal? || step.Head? || step.Push?)
    requires step.worker in w.flights && Apply(c, w, step) != w
    ensures var r, i := Apply(c, w, step), step.worker;
            var f := w.flights[i];
            && f.tried < |c.endpoints| && r.local == w.local && r.queue == w.queue
            && i in r.flights && r.flights == w.flights[i := r.flights[i]]
            && (r.flights[i] == f.(phase := r.flights[i].phase) || r.flights[i] == f.Next(EndsInSuccess(c, w, step)))
            && (r.flights[i].tried == f.tried ==> r.remotes == w.remotes && !EndsInSuccess(c, w, step))
            && (forall key, e | key in w.local && (key != f.Key() || e != c.endpoints[f.tried]) ::
                  Agrees(r, key, e) == Agrees(w, key, e))
            && (EndsInSuccess(c, w, step) ==> !f.phase.Ready? && (f.Key() in w.local ==>
                  (Agrees(r, f.Key(), c.endpoints[f.tried]) <==> f.phase.data == w.local[f.Key()])))
  {
  }

  lemma AttemptSafeFor(c: Config, w: World, step: Step, key: ObjectKey, e: string)
    requires Injective(c.etagOf) && WellFormed(c, w) && (step.ReadLocal? || step.Head? || step.Push?)
    requires step.worker in w.flights && Apply(c, w, step) != w && KeepsSafe(c, w, step)
    requires key in w.local && (Agrees(w, key, e) || Covered(c, w, key, e))
    ensures Agrees(Apply(c, w, step), key, e) || Covered(c, Apply(c, w, step), key, e)
  {
    AttemptShape(c, w, step);
    var r, i := Apply(c, w, step), step.worker;
    var f := w.flights[i];
    var target := c.endpoints[f.tried];
    OtherFlightsCover(c, w, r, i, key, e);
    assert c.endpoints[f.tried..] == [target] + c.endpoints[f.tried + 1..];
    if Waiting(w.queue, key) {
    } else if f.Key() != key || e != target {
      assert Covers(c, f, key, e) ==> Covers(c, r.flights[i], key, e);
    } else if !EndsInSuccess(c, w, step) || f.failed || e in c.endpoints[f.tried + 1..] {
      assert Covers(c, r.flights[i], key, e);
    }
  }

  lemma StepSafe(c: Config, w: World, step: Step)
    requires Injective(c.etagOf) && WellFormed(c, w) && Safe(c, w) && KeepsSafe(c, w, step)
    ensures WellFormed(c, Apply(c, w, step)) && Safe(c, Apply(c, w, step))
  {
    StepWellFormed(c, w, step);
    var r := Apply(c, w, step);
    forall key, e | key in r.local && e in c.endpoints
      ensures Agrees(r, key, e) || Covered(c, r, key, e)
    {
      if key in w.local {
        assert Agrees(w, key, e) || Covered(c, w, key, e);
      }
      StepSafeFor(c, w, step, key, e);
    }
  }

  // Conversely, what a safe state after the step says about the state before it.
  lemma SafePutKeeps(c: Config, w: World, step: Step)
    requires step.Put? && !step.putOk && Safe(c, Apply(c, w, step))
    ensures KeepsSafe(c, w, step)
  {
    var r := Apply(c, w, step);
    forall e | e in c.endpoints
      ensures Agrees(r, step.key, e) || Covered(c, w, step.key, e)
    {
      assert Agrees(r, step.key, e) || Covered(c, r, step.key, e);
      assert r.queue.cache == w.queue.cache && r.flights == w.flights;
    }
  }

  // A flight that is gone or has moved on covers no more than before by way of the others.
  lemma CoveredByOthers(c: Config, w: World, r: World, i: nat, key: ObjectKey, e: string)
    requires r.queue.cache == w.queue.cache
    requires forall j :: j in r.flights && j != i ==> j in w.flights && r.flights[j] == w.flights[j]
    requires i in r.flights ==> !Covers(c, r.flights[i], key, e)
    ensures Covered(c, r, key, e) ==> CoveredElsewhere(c, w, i, key, e)
  {
    if Covered(c, r, key, e) && !Waiting(r.queue, key) {
      var j :| j in r.flights && Covers(c, r.flights[j], key, e);
      assert j in w.flights && j != i && Covers(c, w.flights[j], key, e);
    }
  }

  lemma SafeSuccessKeeps(c: Config, w: World, step: Step)
    requires Injective(c.etagOf) && EndsInSuccess(c, w, step) && Safe(c, Apply(c, w, step))
    ensures KeepsSafe(c, w, step)
  {
    var r, i := Apply(c, w, step), step.worker;
    var f := w.flights[i];
    var target := c.endpoints[f.tried];
    assert f.Next(true).tried != f.tried && r.flights[i] == f.Next(true);
    AttemptShape(c, w, step);
    if f.Key() in w.local {
      assert target in c.endpoints;
      assert Agrees(r, f.Key(), target) || Covered(c, r, f.Key(), target);
      if !(f.failed || target in c.endpoints[f.tried + 1..]) {
        CoveredByOthers(c, w, r, i, f.Key(), target);
      }
    }
  }

  lemma SafeFinishKeeps(c: Config, w: World, step: Step)
    requires RequeueLost(c, w, step) && Safe(c, Apply(c, w, step))
    ensures KeepsSafe(c, w, step)
  {
    var r, i := Apply(c, w, step), step.worker;
    var key := w.flights[i].Key();
    if key in w.local {
      forall e | e in c.endpoints
        ensures Agrees(w, key, e) || CoveredElsewhere(c, w, i, key, e)
      {
        assert Agrees(r, key, e) || Covered(c, r, key, e);
        CoveredByOthers(c, w, r, i, key, e);
      }
    }
  }

  // For every step, with any number of workers and any failures: a safe state stays safe if and only
  // if the step meets its condition.
  lemma StepSafeIff(c: Config, w: World, step: Step)
    requires Injective(c.etagOf) && WellFormed(c, w) && Safe(c, w)
    ensures WellFormed(c, Apply(c, w, step))
    ensures Safe(c, Apply(c, w, step)) <==> KeepsSafe(c, w, step)
  {
    StepWellFormed(c, w, step);
    if KeepsSafe(c, w, step) {
      StepSafe(c, w, step);
    } else if step.Put? && !step.putOk {
      if Safe(c, Apply(c, w, step)) {
        SafePutKeeps(c, w, step);
      }
    } else if EndsInSuccess(c, w, step) {
      if Safe(c, Apply(c, w, step)) {
        SafeSuccessKeeps(c, w, step);
      }
    } else if Safe(c, Apply(c, w, step)) {
      SafeFinishKeeps(c, w, step);
    }
  }

  // The four steps that can lose an update, each with its condition written out.

  lemma PushSafeIff(c: Config, w: World, i: nat, failedAt: int, applied: bool)
    requires WellFormed(c, w) && Safe(c, w) && Injective(c.etagOf)
    requires Attempting(c, w, i) && w.flights[i].phase.Pushing? && w.flights[i].Key() in w.local
    ensures var f := w.flights[i];
            var e := c.endpoints[f.tried];
            Safe(c, Apply(c, w, Push(i, failedAt, applied, true))) <==>
              || f.phase.data == w.local[f.Key()]
              || f.failed || e in c.endpoints[f.tried + 1..]
              || CoveredElsewhere(c, w, i, f.Key(), e)
  {
    StepSafeIff(c, w, Push(i, failedAt, applied, true));
  }

  // A HEAD that matches ends the attempt like a push; any other HEAD is safe.
  lemma HeadSafeIff(c: Config, w: World, i: nat, headOk: bool)
    requires WellFormed(c, w) && Safe(c, w) && Injective(c.etagOf)
    requires Attempting(c, w, i) && w.flights[i].phase.HaveRead? && w.flights[i].Key() in w.local
    ensures var f := w.flights[i];
            var e := c.endpoints[f.tried];
            Safe(c, Apply(c, w, Head(i, headOk))) <==>
              || !headOk || f.Key() !in Remote(w.remotes, e) || Remote(w.remotes, e)[f.Key()] != f.phase.data
              || f.phase.data == w.local[f.Key()]
              || f.failed || e in c.endpoints[f.tried + 1..]
              || CoveredElsewhere(c, w, i, f.Key(), e)
  {
    StepSafeIff(c, w, Head(i, headOk));
  }

  // A finish is safe if and only if the task need not or could be requeued, or every endpoint agrees
  // or is covered without this worker.
  lemma FinishSafeIff(c: Config, w: World, i: nat, putOk: bool, counterOk: bool)
    requires WellFormed(c, w) && Safe(c, w) && Injective(c.etagOf)
    requires i in w.flights && w.flights[i].tried >= |c.endpoints| && w.flights[i].Key() in w.local
    ensures var f := w.flights[i];
            Safe(c, Apply(c, w, Finish(i, putOk, counterOk))) <==>
              || !f.failed || putOk
              || forall e :: e in c.endpoints ==> Agrees(w, f.Key(), e) || CoveredElsewhere(c, w, i, f.Key(), e)
  {
    StepSafeIff(c, w, Finish(i, putOk, counterOk));
  }

  // A put whose enqueue succeeds puts a task with the new bytes' ETag at the end of the queue.
  lemma PutIsQueued(c: Config, w: World, key: ObjectKey, data: Bytes, time: int, counterOk: bool)
    requires WellFormed(c, w)
    ensures var r := Apply(c, w, Put(key, data, time, true, counterOk));
            && Fifo(r.queue.cache) == Fifo(w.queue.cache) + [Task(key.bucket, key.key, "", c.etagOf(data), time)]
            && r.local == w.local[key := data] && r.remotes == w.remotes
  {
    FifoAppend(w.queue.cache, w.queue.next, Task(key.bucket, key.key, "", c.etagOf(data), time));
  }

  // A put whose enqueue fails still reports nothing to its caller. It is safe if and only if every
  // endpoint already holds the new bytes or is still to be attempted for the key.
  lemma UnqueuedPutSafeIff(c: Config, w: World, key: ObjectKey, data: Bytes, time: int)
    requires WellFormed(c, w) && Safe(c, w) && Injective(c.etagOf)
    ensures Safe(c, Apply(c, w, Put(key, data, time, false, false))) <==>
            forall e :: e in c.endpoints ==>
              (key in Remote(w.remotes, e) && Remote(w.remotes, e)[key] == data) || Covered(c, w, key, e)
  {
    StepSafeIff(c, w, Put(key, data, time, false, false));
  }

  // ---- Whole runs ----

  // The engine before any object exists.
  predicate Initial(w: World) {
    w.local == map[] && w.queue.cache == map[] && w.flights == map[]
  }

  lemma IdleMeansAgreement(c: Config, w: World)
    requires Safe(c, w) && Idle(w)
    ensures forall key, e :: key in w.local && e in c.endpoints ==> Agrees(w, key, e)
  {
    forall key, e | key in w.local && e in c.endpoints
      ensures Agrees(w, key, e)
    {
      assert !Covered(c, w, key, e);
    }
  }

  ghost predicate AlwaysSafe(c: Config, w: World, steps: seq<Step>)
    decreases |steps|
  {
    Safe(c, w) && (steps != [] ==> AlwaysSafe(c, Apply(c, w, steps[0]), steps[1..]))
  }

  ghost predicate AlwaysKeepsSafe(c: Config, w: World, steps: seq<Step>)
    decreases |steps|
  {
    steps != [] ==> KeepsSafe(c, w, steps[0]) && AlwaysKeepsSafe(c, Apply(c, w, steps[0]), steps[1..])
  }

  // Over every run, with any number of workers, failing enqueues and failing requeues: no update is
  // lost after any prefix if and only if every step meets its condition.
  lemma {:induction false} RunSafeIff(c: Config, w: World, steps: seq<Step>)
    requires Injective(c.etagOf) && WellFormed(c, w) && Safe(c, w)
    ensures AlwaysSafe(c, w, steps) <==> AlwaysKeepsSafe(c, w, steps)
    decreases |steps|
  {
    if steps != [] {
      var next := Apply(c, w, steps[0]);
      StepSafeIff(c, w, steps[0]);
      if Safe(c, next) {
        RunSafeIff(c, next, steps[1..]);
      } else {
        assert !AlwaysSafe(c, next, steps[1..]);
      }
    }
  }

  lemma {:induction false} AlwaysSafeEnds(c: Config, w: World, steps: seq<Step>)
    requires AlwaysSafe(c, w, steps)
    ensures Safe(c, ApplyAll(c, w, steps))
    decreases |steps|
  {
    if steps != [] {
      AlwaysSafeEnds(c, Apply(c, w, steps[0]), steps[1..]);
    }
  }

  // So a run whose steps meet their conditions ends, when idle, in agreement everywhere.
  lemma ManyWorkersLoseNothing(c: Config, start: World, steps: seq<Step>)
    requires Injective(c.etagOf) && Initial(start) && AlwaysKeepsSafe(c, start, steps)
    ensures var end := ApplyAll(c, start, steps);
            Idle(end) ==> forall key, e :: key in end.local && e in c.endpoints ==> Agrees(end, key, e)
  {
    RunSafeIff(c, start, steps);
    AlwaysSafeEnds(c, start, steps);
    if Idle(ApplyAll(c, start, steps)) {
      IdleMeansAgreement(c, ApplyAll(c, start, steps));
    }
  }

  // ---- One worker ----

  predicate ByWorkerZero(step: Step) {
    step.Put? || step.worker == 0
  }

  // With a single worker the data it holds can only be out of date if a newer task is waiting.
  ghost predicate OneWorkerInvariant(c: Config, w: World) {
    && WellFormed(c, w) && Safe(c, w)
    && w.flights.Keys <= {0}
    && (0 in w.flights ==> FreshOrWaiting(w, 0))
  }

  lemma OneWorkerStep(c: Config, w: World, step: Step)
    requires Injective(c.etagOf) && OneWorkerInvariant(c, w)
    requires EnqueuesSucceed(step) && ByWorkerZero(step)
    ensures KeepsSafe(c, w, step) && OneWorkerInvariant(c, Apply(c, w, step))
  {
    FreshKeepsSafe(c, w, step);
    StepSafe(c, w, step);
    var r := Apply(c, w, step);
    if 0 in w.flights && step.Put? {
      var task := Task(step.key.bucket, step.key.key, "", c.etagOf(step.data), step.time);
      assert KeyOf(task) == step.key;
      WaitingGrows(w.queue, task, step.counterOk, w.flights[0].Key());
      WaitingGrows(w.queue, task, step.counterOk, step.key);
      assert r.flights[0] == w.flights[0];
    }
  }

  lemma {:induction false} OneWorkerRun(c: Config, w: World, steps: seq<Step>)
    requires Injective(c.etagOf) && OneWorkerInvariant(c, w)
    requires forall step :: step in steps ==> EnqueuesSucceed(step) && ByWorkerZero(step)
    ensures AlwaysKeepsSafe(c, w, steps) && OneWorkerInvariant(c, ApplyAll(c, w, steps))
    decreases |steps|
  {
    if steps != [] {
      assert steps[0] in steps;
      OneWorkerStep(c, w, steps[0]);
      OneWorkerRun(c, Apply(c, w, steps[0]), steps[1..]);
    }
  }

  // No lost update: over every run of puts, failures, skips and requeues with one worker, even with
  // puts between a worker's read and its push, an idle engine agrees with every endpoint.
  lemma OneWorkerLosesNothing(c: Config, start: World, steps: seq<Step>)
    requires Injective(c.etagOf) && Initial(start)
    requires forall step :: step in steps ==> EnqueuesSucceed(step) && ByWorkerZero(step)
    ensures AlwaysSafe(c, start, steps)
    ensures var end := ApplyAll(c, start, steps);
            Idle(end) ==> forall key, e :: key in end.local && e in c.endpoints ==> Agrees(end, key, e)
  {
    OneWorkerRun(c, start, steps);
    RunSafeIff(c, start, steps);
    ManyWorkersLoseNothing(c, start, steps);
  }

  // ---- Two workers lose an update ----

  // Worker 0 reads the old object; worker 1 replicates the new one; worker 0's push lands last.
  function Race(key: ObjectKey, older: Bytes, newer: Bytes): seq<Step> {
    RaceStarts(0, key, older) + RaceStarts(1, key, newer) + RaceEnds()
  }

  function RaceStarts(i: nat, key: ObjectKey, data: Bytes): seq<Step> {
    [Put(key, data, 0, true, true), Take(i, true), ReadLocal(i, 0, 0, true), Head(i, true)]
  }

  function RaceEnds(): seq<Step> {
    [Push(1, 0, true, true), Finish(1, true, true), Push(0, 0, true, true), Finish(0, true, true)]
  }

  lemma {:induction false} ApplyConcat(c: Config, w: World, a: seq<Step>, b: seq<Step>)
    ensures ApplyAll(c, w, a + b) == ApplyAll(c, ApplyAll(c, w, a), b)
    decreases |a|
  {
    if a == [] {
      assert a + b == b;
    } else {
      assert (a + b)[1..] == a[1..] + b;
      ApplyConcat(c, Apply(c, w, a[0]), a[1..], b);
    }
  }

  lemma ApplyFour(c: Config, w: World, a: Step, b: Step, d: Step, e: Step)
    ensures ApplyAll(c, w, [a, b, d, e]) == Apply(c, Apply(c, Apply(c, Apply(c, w, a), b), d), e)
  {
    var w1 := Apply(c, w, a);
    var w2 := Apply(c, w1, b);
    var w3 := Apply(c, w2, d);
    assert [a, b, d, e][1..] == [b, d, e] && [b, d, e][1..] == [d, e] && [d, e][1..] == [e] && [e][1..] == [];
    assert ApplyAll(c, w3, [e]) == Apply(c, w3, e);
    assert ApplyAll(c, w2, [d, e]) == ApplyAll(c, w3, [e]);
    assert ApplyAll(c, w1, [b, d, e]) == ApplyAll(c, w2, [d, e]);
  }

  // The default of four workers is not safe: with no failure anywhere, this run ends idle with the
  // endpoint holding the old bytes.
  lemma TwoWorkersLoseUpdate(endpoint: string, etagOf: Bytes -> string, key: ObjectKey, older: Bytes, newer: Bytes)
    requires older != newer
    ensures var c := Config([endpoint], etagOf);
            var start := World(map[], map[], Restarted(map[], true), map[], map[]);
            var end := ApplyAll(c, start, Race(key, older, newer));
            && Initial(start) && Idle(end)
            && end.local == map[key := newer] && Remote(end.remotes, endpoint) == map[key := older]
  {
    var c := Config([endpoint], etagOf);
    var start := World(map[], map[], Restarted(map[], true), map[], map[]);
    var mid := ApplyAll(c, start, RaceStarts(0, key, older));
    var late := ApplyAll(c, mid, RaceStarts(1, key, newer));
    ApplyConcat(c, start, RaceStarts(0, key, older) + RaceStarts(1, key, newer), RaceEnds());
    ApplyConcat(c, start, RaceStarts(0, key, older), RaceStarts(1, key, newer));
    RaceStart(c, start, 0, key, older);
    RaceStart(c, mid, 1, key, newer);
    RaceEnd(c, late, key, older, newer);
  }

  // A task taken and read, its push to the first endpoint pending.
  function AboutToPush(c: Config, key: ObjectKey, data: Bytes): Flight {
    Flight(Task(key.bucket, key.key, "", c.etagOf(data), 0), 0, false, Pushing(data))
  }

  lemma TakeOnly(q: Queue, task: Task)
    requires q.cache == map[]
    ensures Enqueued(q, task, true, true).cache == map[q.next := task]
    ensures Enqueued(q, task, true, true).cache.Keys == {q.next}
    ensures Dequeued(Enqueued(q, task, true, true), true).cache == map[]
    ensures Least(Enqueued(q, task, true, true).cache.Keys) == q.next
  {
  }

  // Worker i takes the task of a put and reads the object.
  lemma RaceStart(c: Config, w: World, i: nat, key: ObjectKey, data: Bytes)
    requires |c.endpoints| == 1 && w.queue.cache == map[] && w.remotes == map[] && i !in w.flights
    requires Lookup(w.breakers, c.endpoints[0]) == FRESH
    ensures var r := ApplyAll(c, w, RaceStarts(i, key, data));
            && r.local == w.local[key := data] && r.remotes == map[] && r.queue.cache == map[]
            && r.flights == w.flights[i := AboutToPush(c, key, data)]
            && Lookup(r.breakers, c.endpoints[0]) == FRESH
  {
    var steps := RaceStarts(i, key, data);
    ApplyFour(c, w, steps[0], steps[1], steps[2], steps[3]);
    RaceTake(c, w, steps[0], steps[1], i, key, data);
    RaceRead(c, Apply(c, Apply(c, w, steps[0]), steps[1]), steps[2], steps[3], i, key, data);
  }

  lemma RaceTake(c: Config, w: World, s0: Step, s1: Step, i: nat, key: ObjectKey, data: Bytes)
    requires w.queue.cache == map[] && i !in w.flights
    requires s0 == Put(key, data, 0, true, true) && s1 == Take(i, true)
    ensures var r := Apply(c, Apply(c, w, s0), s1);
            && r.local == w.local[key := data] && r.remotes == w.remotes && r.queue.cache == map[]
            && r.flights == w.flights[i := AboutToPush(c, key, data).(phase := Ready)]
            && r.breakers == w.breakers
  {
    TakeOnly(w.queue, Task(key.bucket, key.key, "", c.etagOf(data), 0));
  }

  lemma RaceRead(c: Config, w: World, s2: Step, s3: Step, i: nat, key: ObjectKey, data: Bytes)
    requires |c.endpoints| == 1 && w.remotes == map[] && key in w.local && w.local[key] == data
    requires i in w.flights && w.flights[i] == AboutToPush(c, key, data).(phase := Ready)
    requires Lookup(w.breakers, c.endpoints[0]) == FRESH
    requires s2 == ReadLocal(i, 0, 0, true) && s3 == Head(i, true)
    ensures var r := Apply(c, Apply(c, w, s2), s3);
            && r.local == w.local && r.remotes == map[] && r.queue == w.queue
            && r.flights == w.flights[i := AboutToPush(c, key, data)]
            && Lookup(r.breakers, c.endpoints[0]) == FRESH
  {
  }

  // Both push, the worker with the newer bytes first.
  lemma RaceEnd(c: Config, w: World, key: ObjectKey, older: Bytes, newer: Bytes)
    requires |c.endpoints| == 1 && w.queue.cache == map[] && w.remotes == map[]
    requires w.flights == map[0 := AboutToPush(c, key, older), 1 := AboutToPush(c, key, newer)]
    ensures var r := ApplyAll(c, w, RaceEnds());
            r.local == w.local && Idle(r) && Remote(r.remotes, c.endpoints[0]) == map[key := older]
  {
    var steps := RaceEnds();
    ApplyFour(c, w, steps[0], steps[1], steps[2], steps[3]);
    RacePush(c, w, steps[0], steps[1], 1, key, newer);
    RacePush(c, Apply(c, Apply(c, w, steps[0]), steps[1]), steps[2], steps[3], 0, key, older);
  }

  lemma RacePush(c: Config, w: World, s0: Step, s1: Step, i: nat, key: ObjectKey, data: Bytes)
    requires |c.endpoints| == 1 && i in w.flights && w.flights[i] == AboutToPush(c, key, data)
    requires s0 == Push(i, 0, true, true) && s1 == Finish(i, true, true)
    ensures var r := Apply(c, Apply(c, w, s0), s1);
            && r.local == w.local && r.queue == w.queue && r.flights == w.flights - {i}
            && Remote(r.remotes, c.endpoints[0]) == Remote(w.remotes, c.endpoints[0])[key := data]
  {
  }

  // ---- The engine's own methods ----

  // What the clock, the disk and one endpoint do during one attempt.
  datatype Outcome = Outcome(asked: int, failedAt: int, readOk: bool, headOk: bool, applied: bool, acked: bool)

  function AttemptSteps(o: Outcome): seq<Step> {
    [ReadLocal(0, o.asked, o.failedAt, o.readOk), Head(0, o.headOk), Push(0, o.failedAt, o.applied, o.acked)]
  }

  function AllAttempts(outcomes: seq<Outcome>): seq<Step> {
    if outcomes == [] then []
    else AllAttempts(outcomes[..|outcomes| - 1]) + AttemptSteps(outcomes[|outcomes| - 1])
  }

  function IterationSteps(outcomes: seq<Outcome>, deleteOk: bool, putOk: bool, counterOk: bool): seq<Step> {
    [Take(0, deleteOk)] + AllAttempts(outcomes) + [Finish(0, putOk, counterOk)]
  }

  lemma ApplyOne(c: Config, w: World, step: Step)
    ensures ApplyAll(c, w, [step]) == Apply(c, w, step)
  {
  }

  lemma ApplyAttempt(c: Config, w: World, o: Outcome)
    ensures var s := AttemptSteps(o);
            ApplyAll(c, w, s) == Apply(c, Apply(c, Apply(c, w, s[0]), s[1]), s[2])
  {
    var s := AttemptSteps(o);
    assert s == [s[0]] + ([s[1]] + [s[2]]);
    ApplyConcat(c, w, [s[0]], [s[1]] + [s[2]]);
    ApplyOne(c, w, s[0]);
    ApplyConcat(c, Apply(c, w, s[0]), [s[1]], [s[2]]);
    ApplyOne(c, Apply(c, w, s[0]), s[1]);
    ApplyOne(c, Apply(c, Apply(c, w, s[0]), s[1]), s[2]);
  }

  // Worker 0's flight settles its attempt at the current endpoint.
  function Settled(c: Config, w: World, f: Flight, ok: bool, failedAt: int): World
    requires f.tried < |c.endpoints|
  {
    var e := c.endpoints[f.tried];
    var cb := Lookup(w.breakers, e);
    w.(breakers := w.breakers[e := if ok then cb.Succeeded() else cb.Failed(failedAt)],
       flights := map[0 := f.Next(ok)])
  }

  predicate Matches(c: Config, w: World, f: Flight, o: Outcome)
    requires f.tried < |c.endpoints| && f.Key() in w.local
  {
    var remote := Remote(w.remotes, c.endpoints[f.tried]);
    o.headOk && f.Key() in remote && c.etagOf(remote[f.Key()]) == c.etagOf(w.local[f.Key()])
  }

  function Pushed(c: Config, w: World, f: Flight, o: Outcome): World
    requires f.tried < |c.endpoints| && f.Key() in w.local
  {
    var e := c.endpoints[f.tried];
    if o.applied || o.acked
    then w.(remotes := w.remotes[e := Remote(w.remotes, e)[f.Key() := w.local[f.Key()]]])
    else w
  }

  // An attempt succeeds when it is let through, can read the object, and either finds it already
  // there or has its push acknowledged.
  predicate Succeeds(c: Config, w: World, f: Flight, o: Outcome)
    requires f.tried < |c.endpoints|
  {
    && Lookup(w.breakers, c.endpoints[f.tried]).Grants(o.asked)
    && o.readOk && f.Key() in w.local && (Matches(c, w, f, o) || o.acked)
  }

  // replicate_to_endpoint as one function: skipped, unreadable, unchanged or pushed.
  function Attempted(c: Config, w: World, f: Flight, o: Outcome): (r: World)
    requires f.tried < |c.endpoints|
    ensures r.flights == map[0 := f.Next(Succeeds(c, w, f, o))]
  {
    var e := c.endpoints[f.tried];
    var cb := Lookup(w.breakers, e);
    var asked := w.(breakers := w.breakers[e := cb.Asked(o.asked)]);
    if !cb.Grants(o.asked) then asked.(flights := map[0 := f.Next(false)])
    else if !o.readOk || f.Key() !in w.local then Settled(c, asked, f, false, o.failedAt)
    else if Matches(c, asked, f, o) then Settled(c, asked, f, true, o.failedAt)
    else Settled(c, Pushed(c, asked, f, o), f, o.acked, o.failedAt)
  }

  predicate AtStart(c: Config, w: World, f: Flight) {
    w.flights == map[0 := f] && f.phase == Ready && f.tried < |c.endpoints|
  }

  lemma SettleIsSettled(c: Config, w: World, f: Flight, g: Flight, ok: bool, failedAt: int)
    requires w.flights == map[0 := g] && g == f.(phase := g.phase) && f.tried < |c.endpoints|
    ensures Settle(c, w, 0, ok, failedAt) == Settled(c, w, f, ok, failedAt)
    ensures w.flights[0 := f.Next(ok)] == map[0 := f.Next(ok)]
  {
  }

  // Read, HEAD and push in a row are that function.
  lemma AttemptedIsRun(c: Config, w: World, f: Flight, o: Outcome)
    requires AtStart(c, w, f)
    ensures ApplyAll(c, w, AttemptSteps(o)) == Attempted(c, w, f, o)
  {
    ApplyAttempt(c, w, o);
    var s := AttemptSteps(o);
    var e := c.endpoints[f.tried];
    var asked := w.(breakers := w.breakers[e := Lookup(w.breakers, e).Asked(o.asked)]);
    SettleIsSettled(c, asked, f, f, false, o.failedAt);
    if Lookup(w.breakers, e).Grants(o.asked) && o.readOk && f.Key() in w.local {
      var haveRead := asked.(flights := map[0 := f.(phase := HaveRead(w.local[f.Key()]))]);
      assert Apply(c, w, s[0]) == haveRead by {
        Overwrite(map[], 0, f, f.(phase := HaveRead(w.local[f.Key()])));
      }
      HeadAndPush(c, asked, f, o);
    } else {
      assert Apply(c, w, s[0]) == Attempted(c, w, f, o);
    }
  }

  lemma Overwrite<K, V>(m: map<K, V>, k: K, a: V, b: V)
    ensures m[k := a][k := b] == m[k := b]
  {
  }

  lemma HeadAndPush(c: Config, w: World, f: Flight, o: Outcome)
    requires f.phase == Ready && f.tried < |c.endpoints| && f.Key() in w.local
    ensures var haveRead := w.(flights := map[0 := f.(phase := HaveRead(w.local[f.Key()]))]);
            Apply(c, Apply(c, haveRead, AttemptSteps(o)[1]), AttemptSteps(o)[2]) ==
            if Matches(c, w, f, o) then Settled(c, w, f, true, o.failedAt)
            else Settled(c, Pushed(c, w, f, o), f, o.acked, o.failedAt)
  {
    if Matches(c, w, f, o) {
      HeadMatches(c, w, f, o);
    } else {
      HeadThenPush(c, w, f, o);
    }
  }

  lemma HeadMatches(c: Config, w: World, f: Flight, o: Outcome)
    requires f.phase == Ready && f.tried < |c.endpoints| && f.Key() in w.local && Matches(c, w, f, o)
    ensures var haveRead := w.(flights := map[0 := f.(phase := HaveRead(w.local[f.Key()]))]);
            Apply(c, Apply(c, haveRead, AttemptSteps(o)[1]), AttemptSteps(o)[2]) == Settled(c, w, f, true, o.failedAt)
  {
    var g := f.(phase := HaveRead(w.local[f.Key()]));
    SettleIsSettled(c, w.(flights := map[0 := g]), f, g, true, 0);
  }

  lemma HeadThenPush(c: Config, w: World, f: Flight, o: Outcome)
    requires f.phase == Ready && f.tried < |c.endpoints| && f.Key() in w.local && !Matches(c, w, f, o)
    ensures var haveRead := w.(flights := map[0 := f.(phase := HaveRead(w.local[f.Key()]))]);
            Apply(c, Apply(c, haveRead, AttemptSteps(o)[1]), AttemptSteps(o)[2]) ==
            Settled(c, Pushed(c, w, f, o), f, o.acked, o.failedAt)
  {
    var data := w.local[f.Key()];
    var g, h := f.(phase := HaveRead(data)), f.(phase := Pushing(data));
    var pushing := w.(flights := map[0 := h]);
    Overwrite(map[], 0, g, h);
    assert Apply(c, w.(flights := map[0 := g]), AttemptSteps(o)[1]) == pushing;
    SettleIsSettled(c, Pushed(c, pushing, f, o), f, h, o.acked, o.failedAt);
  }

  // To its breaker, an attempt that fails is one try of a sequential caller, so the breaker's outage
  // bound limits the attempts of a worker.
  lemma FailedAttemptIsTry(c: Config, w: World, f: Flight, o: Outcome)
    requires f.tried < |c.endpoints| && !Succeeds(c, w, f, o)
    ensures var e := c.endpoints[f.tried];
            Lookup(Attempted(c, w, f, o).breakers, e) == AfterTry(Lookup(w.breakers, e), Try(o.asked, o.failedAt))
  {
  }

  // An attempt that reports success leaves the endpoint with the local object, and no attempt
  // undoes an agreement on the key it works on.
  lemma AttemptReachesAgreement(c: Config, w: World, f: Flight, o: Outcome)
    requires f.tried < |c.endpoints| && Injective(c.etagOf)
    ensures var r := Attempted(c, w, f, o);
            && r.local == w.local
            && (!r.flights[0].failed ==> f.Key() in w.local && Agrees(r, f.Key(), c.endpoints[f.tried]))
            && (f.Key() in w.local ==> forall e | Agrees(w, f.Key(), e) :: Agrees(r, f.Key(), e))
  {
  }

  // Exactly when an attempt succeeds, and what it writes: with distinct ETags, it is let through, can
  // read the object, and the endpoint answers that it has it or acknowledges the push. Only a push
  // that is let through, and needed, reaches the endpoint, and it changes that one object there.
  lemma AttemptEffect(c: Config, w: World, f: Flight, o: Outcome)
    requires f.tried < |c.endpoints| && Injective(c.etagOf)
    ensures var r := Attempted(c, w, f, o);
            var e, key := c.endpoints[f.tried], f.Key();
            var runs := Lookup(w.breakers, e).Grants(o.asked) && o.readOk && key in w.local;
            var found := runs && o.headOk && Agrees(w, key, e);
            && r.local == w.local && r.queue == w.queue
            && (r.flights[0].failed <==> f.failed || !(runs && (found || o.acked)))
            && (runs && !found && (o.applied || o.acked) ==> Agrees(r, key, e))
            && (!(runs && !found && (o.applied || o.acked)) ==> r.remotes == w.remotes)
            && (forall other :: other != e ==> Remote(r.remotes, other) == Remote(w.remotes, other))
            && (forall k :: k != key ==>
                 && (k in Remote(r.remotes, e) <==> k in Remote(w.remotes, e))
                 && (k in Remote(w.remotes, e) ==> Remote(r.remotes, e)[k] == Remote(w.remotes, e)[k]))
  {
  }

  // All endpoints in turn, starting a new flight.
  function AttemptedAll(c: Config, w: World, task: Task, outcomes: seq<Outcome>): (r: World)
    requires |outcomes| <= |c.endpoints|
    ensures exists failed :: r.flights == map[0 := Flight(task, |outcomes|, failed, Ready)]
  {
    if outcomes == [] then w.(flights := map[0 := Flight(task, 0, false, Ready)])
    else
      var before := AttemptedAll(c, w, task, outcomes[..|outcomes| - 1]);
      Attempted(c, before, before.flights[0], outcomes[|outcomes| - 1])
  }

  lemma {:induction false} AttemptedAllIsRun(c: Config, w: World, task: Task, outcomes: seq<Outcome>)
    requires |outcomes| <= |c.endpoints|
    ensures AttemptedAll(c, w, task, outcomes) ==
            ApplyAll(c, w.(flights := map[0 := Flight(task, 0, false, Ready)]), AllAttempts(outcomes))
  {
    if outcomes != [] {
      var n := |outcomes| - 1;
      AttemptedAllIsRun(c, w, task, outcomes[..n]);
      var before := AttemptedAll(c, w, task, outcomes[..n]);
      AttemptedIsRun(c, before, before.flights[0], outcomes[n]);
      ApplyConcat(c, w.(flights := map[0 := Flight(task, 0, false, Ready)]), AllAttempts(outcomes[..n]), AttemptSteps(outcomes[n]));
    }
  }

  // A worker that finishes without a failed attempt has brought every endpoint to agreement.
  lemma {:induction false} SuccessMeansAgreement(c: Config, w: World, task: Task, outcomes: seq<Outcome>, j: nat)
    requires Injective(c.etagOf) && |outcomes| <= |c.endpoints| && j < |outcomes|
    requires !AttemptedAll(c, w, task, outcomes).flights[0].failed
    ensures var r := AttemptedAll(c, w, task, outcomes);
            r.local == w.local && KeyOf(task) in r.local && Agrees(r, KeyOf(task), c.endpoints[j])
  {
    var n := |outcomes| - 1;
    var before := AttemptedAll(c, w, task, outcomes[..n]);
    AttemptReachesAgreement(c, before, before.flights[0], outcomes[n]);
    if j < n {
      SuccessMeansAgreement(c, w, task, outcomes[..n], j);
    } else if n > 0 {
      SuccessMeansAgreement(c, w, task, outcomes[..n], 0);
    }
  }

  lemma {:induction false} NothingInFlight(c: Config, w: World, outcomes: seq<Outcome>)
    requires 0 !in w.flights
    ensures ApplyAll(c, w, AllAttempts(outcomes)) == w
  {
    if outcomes != [] {
      var last := |outcomes| - 1;
      NothingInFlight(c, w, outcomes[..last]);
      ApplyConcat(c, w, AllAttempts(outcomes[..last]), AttemptSteps(outcomes[last]));
      ApplyAttempt(c, w, outcomes[last]);
    }
  }

  // A whole iteration of worker 0, as the worker sees it.
  function Iterated(c: Config, w: World, outcomes: seq<Outcome>, deleteOk: bool, putOk: bool, counterOk: bool): World
    requires |outcomes| == |c.endpoints|
  {
    if w.queue.cache == map[] || !deleteOk then w
    else
      var task := w.queue.cache[Least(w.queue.cache.Keys)];
      var tried := AttemptedAll(c, w.(queue := Dequeued(w.queue, true)), task, outcomes);
      tried.(flights := map[], queue :=
        if tried.flights[0].failed then Enqueued(tried.queue, task, putOk, counterOk) else tried.queue)
  }

  // It is the run of the protocol: take, then three steps an endpoint, then finish.
  lemma IterationIsRun(c: Config, w: World, outcomes: seq<Outcome>, deleteOk: bool, putOk: bool, counterOk: bool)
    requires |outcomes| == |c.endpoints| && w.flights == map[]
    ensures ApplyAll(c, w, IterationSteps(outcomes, deleteOk, putOk, counterOk)) ==
            Iterated(c, w, outcomes, deleteOk, putOk, counterOk)
  {
    var take, finish := Take(0, deleteOk), Finish(0, putOk, counterOk);
    var w1 := Apply(c, w, take);
    ApplyConcat(c, w, [take] + AllAttempts(outcomes), [finish]);
    ApplyConcat(c, w, [take], AllAttempts(outcomes));
    ApplyOne(c, w, take);
    ApplyOne(c, ApplyAll(c, w1, AllAttempts(outcomes)), finish);
    if w.queue.cache == map[] || !deleteOk {
      NothingInFlight(c, w, outcomes);
    } else {
      var task := w.queue.cache[Least(w.queue.cache.Keys)];
      AttemptedAllIsRun(c, w.(queue := Dequeued(w.queue, true)), task, outcomes);
      FinishApplies(c, AttemptedAll(c, w.(queue := Dequeued(w.queue, true)), task, outcomes), finish);
    }
  }

  lemma FinishApplies(c: Config, w: World, finish: Step)
    requires finish.Finish? && finish.worker == 0
    requires w.flights.Keys == {0} && w.flights[0].tried == |c.endpoints|
    ensures var f := w.flights[0];
            Apply(c, w, finish) == w.(flights := map[], queue :=
              if f.failed then Enqueued(w.queue, f.task, finish.putOk, finish.counterOk) else w.queue)
  {
  }

  // A processed task without a failed attempt ends with every endpoint agreeing on its key.
  predicate AllAgree(c: Config, w: World, key: ObjectKey) {
    key in w.local && forall e | e in c.endpoints :: Agrees(w, key, e)
  }

  lemma IterationReachesAgreement(c: Config, w: World, task: Task, outcomes: seq<Outcome>, end: World)
    requires Injective(c.etagOf) && |outcomes| == |c.endpoints| > 0
    requires !AttemptedAll(c, w, task, outcomes).flights[0].failed
    requires end.local == AttemptedAll(c, w, task, outcomes).local
    requires end.remotes == AttemptedAll(c, w, task, outcomes).remotes
    ensures AllAgree(c, end, KeyOf(task))
  {
    SuccessMeansAgreement(c, w, task, outcomes, 0);
    forall e | e in c.endpoints
      ensures Agrees(end, KeyOf(task), e)
    {
      var j :| 0 <= j < |c.endpoints| && c.endpoints[j] == e;
      SuccessMeansAgreement(c, w, task, outcomes, j);
    }
  }

  // ---- Outages, seen by a worker ----

  predicate BreakersWellFormed(breakers: map<string, Breaker>) {
    forall e | e in breakers :: breakers[e].WellFormed()
  }

  lemma StepKeepsBreakers(c: Config, w: World, step: Step)
    requires BreakersWellFormed(w.breakers)
    ensures BreakersWellFormed(Apply(c, w, step).breakers)
  {
  }

  lemma {:induction false} RunKeepsBreakers(c: Config, w: World, steps: seq<Step>)
    requires BreakersWellFormed(w.breakers)
    ensures BreakersWellFormed(ApplyAll(c, w, steps).breakers)
    decreases |steps|
  {
    if steps != [] {
      StepKeepsBreakers(c, w, steps[0]);
      RunKeepsBreakers(c, Apply(c, w, steps[0]), steps[1..]);
    }
  }

  // A round's calls to one endpoint, how many its breaker lets through, and whether all of them fail.
  function TriesAt(c: Config, outcomes: seq<Outcome>, e: string): seq<Try>
    requires |outcomes| <= |c.endpoints|
  {
    if outcomes == [] then []
    else
      var n := |outcomes| - 1;
      TriesAt(c, outcomes[..n], e) +
      (if c.endpoints[n] == e then [Try(outcomes[n].asked, outcomes[n].failedAt)] else [])
  }

  function GrantedAt(c: Config, w: World, task: Task, outcomes: seq<Outcome>, e: string): nat
    requires |outcomes| <= |c.endpoints|
  {
    if outcomes == [] then 0
    else
      var n := |outcomes| - 1;
      var before := AttemptedAll(c, w, task, outcomes[..n]);
      GrantedAt(c, w, task, outcomes[..n], e) +
      (if c.endpoints[n] == e && Lookup(before.breakers, e).Grants(outcomes[n].asked) then 1 else 0)
  }

  predicate FailsAt(c: Config, w: World, task: Task, outcomes: seq<Outcome>, e: string)
    requires |outcomes| <= |c.endpoints|
  {
    outcomes != [] ==>
      var n := |outcomes| - 1;
      var before := AttemptedAll(c, w, task, outcomes[..n]);
      && FailsAt(c, w, task, outcomes[..n], e)
      && (c.endpoints[n] == e ==> !Succeeds(c, before, before.flights[0], outcomes[n]))
  }

  lemma {:induction false} RoundIsTries(c: Config, w: World, task: Task, outcomes: seq<Outcome>, e: string)
    requires |outcomes| <= |c.endpoints| && FailsAt(c, w, task, outcomes, e)
    ensures var b, tries := Lookup(w.breakers, e), TriesAt(c, outcomes, e);
            && Lookup(AttemptedAll(c, w, task, outcomes).breakers, e) == AfterTries(b, tries)
            && GrantedAt(c, w, task, outcomes, e) == Attempts(b, tries)
  {
    if outcomes != [] {
      var n := |outcomes| - 1;
      var before := AttemptedAll(c, w, task, outcomes[..n]);
      RoundIsTries(c, w, task, outcomes[..n], e);
      if c.endpoints[n] == e {
        var t := Try(outcomes[n].asked, outcomes[n].failedAt);
        FailedAttemptIsTry(c, before, before.flights[0], outcomes[n]);
        TriesConcat(Lookup(w.breakers, e), TriesAt(c, outcomes[..n], e), [t]);
        OneTry(Lookup(before.breakers, e), t);
      } else {
        OtherBreakersKept(c, before, before.flights[0], outcomes[n], e);
        assert TriesAt(c, outcomes, e) == TriesAt(c, outcomes[..n], e);
      }
    }
  }

  lemma OneTry(b: Breaker, t: Try)
    ensures AfterTries(b, [t]) == AfterTry(b, t)
    ensures Attempts(b, [t]) == if b.Grants(t.ask) then 1 else 0
  {
    assert [t][1..] == [];
    assert AfterTries(AfterTry(b, t), []) == AfterTry(b, t) && Attempts(AfterTry(b, t), []) == 0;
  }

  lemma OtherBreakersKept(c: Config, w: World, f: Flight, o: Outcome, e: string)
    requires f.tried < |c.endpoints| && c.endpoints[f.tried] != e
    ensures Lookup(Attempted(c, w, f, o).breakers, e) == Lookup(w.breakers, e)
  {
  }

  // One worker iteration with what the queue database did.
  datatype Round = Round(outcomes: seq<Outcome>, deleteOk: bool, putOk: bool, counterOk: bool)

  ghost predicate RoundsFit(c: Config, rounds: seq<Round>) {
    forall r :: r in rounds ==> |r.outcomes| == |c.endpoints|
  }

  function AfterRound(c: Config, w: World, r: Round): World
    requires |r.outcomes| == |c.endpoints|
  {
    Iterated(c, w, r.outcomes, r.deleteOk, r.putOk, r.counterOk)
  }

  predicate Taken(w: World, r: Round) { w.queue.cache != map[] && r.deleteOk }

  function TakenTask(w: World): Task
    requires w.queue.cache != map[]
  {
    w.queue.cache[Least(w.queue.cache.Keys)]
  }

  function AfterTake(w: World): World {
    w.(queue := Dequeued(w.queue, true))
  }

  ghost function TriesOver(c: Config, w: World, rounds: seq<Round>, e: string): seq<Try>
    requires RoundsFit(c, rounds)
    decreases |rounds|
  {
    if rounds == [] then []
    else
      var r := rounds[0];
      (if Taken(w, r) then TriesAt(c, r.outcomes, e) else []) + TriesOver(c, AfterRound(c, w, r), rounds[1..], e)
  }

  ghost function GrantedOver(c: Config, w: World, rounds: seq<Round>, e: string): nat
    requires RoundsFit(c, rounds)
    decreases |rounds|
  {
    if rounds == [] then 0
    else
      var r := rounds[0];
      (if Taken(w, r) then GrantedAt(c, AfterTake(w), TakenTask(w), r.outcomes, e) else 0) +
      GrantedOver(c, AfterRound(c, w, r), rounds[1..], e)
  }

  ghost predicate FailsOver(c: Config, w: World, rounds: seq<Round>, e: string)
    requires RoundsFit(c, rounds)
    decreases |rounds|
  {
    rounds != [] ==>
      var r := rounds[0];
      && (Taken(w, r) ==> FailsAt(c, AfterTake(w), TakenTask(w), r.outcomes, e))
      && FailsOver(c, AfterRound(c, w, r), rounds[1..], e)
  }

  lemma {:induction false} RoundsAreTries(c: Config, w: World, rounds: seq<Round>, e: string)
    requires RoundsFit(c, rounds) && FailsOver(c, w, rounds, e)
    ensures GrantedOver(c, w, rounds, e) == Attempts(Lookup(w.breakers, e), TriesOver(c, w, rounds, e))
    decreases |rounds|
  {
    if rounds != [] {
      var r := rounds[0];
      var next := AfterRound(c, w, r);
      RoundsAreTries(c, next, rounds[1..], e);
      var rest := TriesOver(c, next, rounds[1..], e);
      if Taken(w, r) {
        RoundIsTries(c, AfterTake(w), TakenTask(w), r.outcomes, e);
        TriesConcat(Lookup(w.breakers, e), TriesAt(c, r.outcomes, e), rest);
      } else {
        assert [] + rest == rest;
      }
    }
  }

  // After any run, over the iterations of a worker whose attempts at one endpoint all fail within a
  // window W: the endpoint is attempted at most FAILURE_THRESHOLD + W / OPEN_TIMEOUT times.
  lemma WorkerOutageBound(c: Config, start: World, steps: seq<Step>, rounds: seq<Round>, e: string, from: int, window: nat)
    requires start.breakers == map[] && RoundsFit(c, rounds)
    requires FailsOver(c, ApplyAll(c, start, steps), rounds, e)
    requires InWindow(TriesOver(c, ApplyAll(c, start, steps), rounds, e), from, from + window)
    ensures GrantedOver(c, ApplyAll(c, start, steps), rounds, e) <= FAILURE_THRESHOLD + window / OPEN_TIMEOUT
  {
    var w := ApplyAll(c, start, steps);
    RunKeepsBreakers(c, start, steps);
    RoundsAreTries(c, w, rounds, e);
    assert Lookup(w.breakers, e).WellFormed();
    OutageBoundFrom(Lookup(w.breakers, e), TriesOver(c, w, rounds, e), from, window);
  }

  // ---- Crashes ----

  // After a crash only local storage, the endpoints and the queue database remain.
  function Crashed(w: World, restartOk: bool): World {
    World(w.local, w.remotes, Restarted(w.queue.db, restartOk), map[], map[])
  }

  // The database still has a task for the key.
  ghost predicate OnRecord(db: Db, key: ObjectKey) {
    exists s: nat :: TaskKey(s) in db && db[TaskKey(s)].TaskRecord? && KeyOf(db[TaskKey(s)].task) == key
  }

  lemma {:induction false} RunMirrored(c: Config, w: World, steps: seq<Step>)
    requires Mirrored(w.queue)
    ensures Mirrored(ApplyAll(c, w, steps).queue)
    decreases |steps|
  {
    if steps != [] {
      var step := steps[0];
      match step {
        case Put(key, data, time, putOk, counterOk) =>
          EnqueueMirrored(w.queue, Task(key.bucket, key.key, "", c.etagOf(data), time), putOk, counterOk);
        case Take(_, _) => DequeueMirrored(w.queue, true);
        case Finish(i, putOk, counterOk) =>
          if i in w.flights {
            EnqueueMirrored(w.queue, w.flights[i].task, putOk, counterOk);
          }
        case _ =>
      }
      RunMirrored(c, Apply(c, w, step), steps[1..]);
    }
  }

  // Which crashes forget an unfinished update. After any run from an empty database, the restarted
  // database has a task for a key if and only if one was waiting: a task in flight is gone, because
  // its record was deleted when it was taken.
  lemma CrashForgetsIff(c: Config, steps: seq<Step>, firstOk: bool, restartOk: bool, key: ObjectKey)
    ensures var w := ApplyAll(c, World(map[], map[], Restarted(map[], firstOk), map[], map[]), steps);
            OnRecord(Crashed(w, restartOk).queue.db, key) <==> Waiting(w.queue, key)
  {
    var start := World(map[], map[], Restarted(map[], firstOk), map[], map[]);
    var w := ApplyAll(c, start, steps);
    FreshMirrored(firstOk);
    RunMirrored(c, start, steps);
    var db := Crashed(w, restartOk).queue.db;
    forall s: nat
      ensures TaskKey(s) in db <==> s in w.queue.cache
      ensures s in w.queue.cache ==> db[TaskKey(s)] == TaskRecord(w.queue.cache[s])
    {
      TaskKeyIsNotCounter(s);
    }
    if Waiting(w.queue, key) {
      var s :| s in w.queue.cache && KeyOf(w.queue.cache[s]) == key;
      assert TaskKey(s) in db && db[TaskKey(s)] == TaskRecord(w.queue.cache[s]);
    }
    if OnRecord(db, key) {
      var s: nat :| TaskKey(s) in db && db[TaskKey(s)].TaskRecord? && KeyOf(db[TaskKey(s)].task) == key;
      assert s in w.queue.cache;
    }
  }

  // ---- Convergence ----

  // Every queued or in-flight task has a local object: nothing is deleted in this protocol.
  ghost predicate TasksHaveObjects(w: World) {
    && (forall s :: s in w.queue.cache ==> KeyOf(w.queue.cache[s]) in w.local)
    && (forall i :: i in w.flights ==> w.flights[i].Key() in w.local)
  }

  lemma StepKeepsObjects(c: Config, w: World, step: Step)
    requires TasksHaveObjects(w)
    ensures TasksHaveObjects(Apply(c, w, step))
  {
    if step.Put? {
      assert KeyOf(Task(step.key.bucket, step.key.key, "", c.etagOf(step.data), step.time)) == step.key;
    }
  }

  lemma {:induction false} RunKeepsObjects(c: Config, w: World, steps: seq<Step>)
    requires TasksHaveObjects(w)
    ensures TasksHaveObjects(ApplyAll(c, w, steps))
    decreases |steps|
  {
    if steps != [] {
      StepKeepsObjects(c, w, steps[0]);
      RunKeepsObjects(c, Apply(c, w, steps[0]), steps[1..]);
    }
  }

  // The outage is over: reads and pushes succeed, and every breaker's probe is due by time t.
  predicate Calm(outcomes: seq<Outcome>, t: int) {
    forall o | o in outcomes :: o.readOk && o.acked && o.asked >= t
  }

  ghost predicate ProbesDue(w: World, t: int) {
    forall e :: Lookup(w.breakers, e).nextProbe <= t
  }

  lemma {:induction false} CalmAttempts(c: Config, w: World, task: Task, outcomes: seq<Outcome>, t: int)
    requires |outcomes| <= |c.endpoints| && KeyOf(task) in w.local && Calm(outcomes, t) && ProbesDue(w, t)
    ensures var r := AttemptedAll(c, w, task, outcomes);
            !r.flights[0].failed && r.local == w.local && r.queue == w.queue && ProbesDue(r, t)
    ensures forall j :: 0 <= j < |outcomes| ==>
              Lookup(AttemptedAll(c, w, task, outcomes).breakers, c.endpoints[j]).state == Closed
  {
    if outcomes != [] {
      var n := |outcomes| - 1;
      assert outcomes[n] in outcomes;
      CalmAttempts(c, w, task, outcomes[..n], t);
      var before := AttemptedAll(c, w, task, outcomes[..n]);
      CalmAttempt(c, before, before.flights[0], outcomes[n], t);
    }
  }

  predicate AllClosed(c: Config, w: World) {
    forall e | e in c.endpoints :: Lookup(w.breakers, e).state == Closed
  }

  lemma CalmAttempt(c: Config, w: World, f: Flight, o: Outcome, t: int)
    requires f.tried < |c.endpoints| && f.Key() in w.local && !f.failed && ProbesDue(w, t)
    requires o.readOk && o.acked && o.asked >= t
    ensures var r := Attempted(c, w, f, o);
            !r.flights[0].failed && r.local == w.local && r.queue == w.queue && ProbesDue(r, t)
    ensures Lookup(Attempted(c, w, f, o).breakers, c.endpoints[f.tried]).state == Closed
    ensures forall g :: Lookup(w.breakers, g).state == Closed ==>
              Lookup(Attempted(c, w, f, o).breakers, g).state == Closed
  {
    var e := c.endpoints[f.tried];
    assert Lookup(w.breakers, e).nextProbe <= t;
    var r := Attempted(c, w, f, o);
    assert Lookup(r.breakers, e).nextProbe == Lookup(w.breakers, e).nextProbe;
    forall g
      ensures Lookup(r.breakers, g).nextProbe <= t
    {
      assert g != e ==> Lookup(r.breakers, g) == Lookup(w.breakers, g);
    }
  }

  // Consecutive iterations of worker 0 whose queue operations succeed.
  function Drained(c: Config, w: World, rounds: seq<seq<Outcome>>): World
    requires forall r :: r in rounds ==> |r| == |c.endpoints|
    decreases |rounds|
  {
    if rounds == [] then w
    else
      assert rounds[0] in rounds;
      Drained(c, Iterated(c, w, rounds[0], true, true, true), rounds[1..])
  }

  lemma IterationKeepsInvariant(c: Config, w: World, outcomes: seq<Outcome>)
    requires Injective(c.etagOf) && |outcomes| == |c.endpoints| && w.flights == map[] && OneWorkerInvariant(c, w)
    ensures OneWorkerInvariant(c, Iterated(c, w, outcomes, true, true, true))
  {
    var steps := IterationSteps(outcomes, true, true, true);
    AttemptsByZero(outcomes);
    IterationIsRun(c, w, outcomes, true, true, true);
    OneWorkerRun(c, w, steps);
  }

  lemma {:induction false} AttemptsByZero(outcomes: seq<Outcome>)
    ensures forall step :: step in AllAttempts(outcomes) ==> EnqueuesSucceed(step) && ByWorkerZero(step)
  {
    if outcomes != [] {
      AttemptsByZero(outcomes[..|outcomes| - 1]);
    }
  }

  lemma {:induction false} CalmRoundsDrain(c: Config, w: World, rounds: seq<seq<Outcome>>, t: int)
    requires Injective(c.etagOf) && OneWorkerInvariant(c, w) && w.flights == map[]
    requires TasksHaveObjects(w) && ProbesDue(w, t)
    requires forall r :: r in rounds ==> |r| == |c.endpoints| && Calm(r, t)
    requires |rounds| == |w.queue.cache|
    ensures var end := Drained(c, w, rounds);
            Idle(end) && end.local == w.local && Safe(c, end)
    ensures rounds != [] || AllClosed(c, w) ==> AllClosed(c, Drained(c, w, rounds))
    decreases |rounds|
  {
    if rounds != [] {
      assert rounds[0] in rounds;
      CalmRound(c, w, rounds[0], t);
      CalmRoundsDrain(c, Iterated(c, w, rounds[0], true, true, true), rounds[1..], t);
    }
  }

  // One calm iteration: one task less, and every breaker closed.
  lemma CalmRound(c: Config, w: World, outcomes: seq<Outcome>, t: int)
    requires Injective(c.etagOf) && OneWorkerInvariant(c, w) && w.flights == map[]
    requires TasksHaveObjects(w) && ProbesDue(w, t)
    requires |outcomes| == |c.endpoints| && Calm(outcomes, t) && w.queue.cache != map[]
    ensures var next := Iterated(c, w, outcomes, true, true, true);
            && OneWorkerInvariant(c, next) && next.flights == map[] && next.local == w.local
            && TasksHaveObjects(next) && ProbesDue(next, t) && AllClosed(c, next)
            && |next.queue.cache| == |w.queue.cache| - 1
  {
    var least := Least(w.queue.cache.Keys);
    var next := Iterated(c, w, outcomes, true, true, true);
    CalmAttempts(c, w.(queue := Dequeued(w.queue, true)), w.queue.cache[least], outcomes, t);
    IterationKeepsInvariant(c, w, outcomes);
    assert next.queue.cache == w.queue.cache - {least};
    assert next.queue.cache.Keys == w.queue.cache.Keys - {least};
    forall e | e in c.endpoints
      ensures Lookup(next.breakers, e).state == Closed
    {
      var j :| 0 <= j < |c.endpoints| && c.endpoints[j] == e;
    }
  }

  // Eventual consistency: after any one-worker run, whatever failed in it, once endpoints answer
  // and the breakers' timeouts have passed, as many iterations as there are waiting tasks bring
  // every endpoint to agreement with local storage and close every breaker.
  lemma EventualConsistency(c: Config, start: World, steps: seq<Step>, rounds: seq<seq<Outcome>>, t: int)
    requires Injective(c.etagOf) && Initial(start)
    requires forall step :: step in steps ==> EnqueuesSucceed(step) && ByWorkerZero(step)
    requires var w := ApplyAll(c, start, steps);
             w.flights == map[] && ProbesDue(w, t) && |rounds| == |w.queue.cache|
    requires forall r :: r in rounds ==> |r| == |c.endpoints| && Calm(r, t)
    ensures var w := ApplyAll(c, start, steps);
            var end := Drained(c, w, rounds);
            && Idle(end) && end.local == w.local
            && (forall key, e :: key in end.local && e in c.endpoints ==> Agrees(end, key, e))
            && (rounds != [] ==> AllClosed(c, end))
  {
    var w := ApplyAll(c, start, steps);
    OneWorkerRun(c, start, steps);
    RunKeepsObjects(c, start, steps);
    CalmRoundsDrain(c, w, rounds, t);
    IdleMeansAgreement(c, Drained(c, w, rounds));
  }

  class ReplicationEngine {
    const config: Config
    const queue: TaskQueue
    const circuitBreakers: BreakerTable
    var local: map<ObjectKey, Bytes>
    var remotes: Remotes

    ghost function Snapshot(flights: map<nat, Flight>): World
      reads this, queue, circuitBreakers
    {
      World(local, remotes, queue.State(), circuitBreakers.breakers, flights)
    }

    constructor (config: Config, stored: Db, counterOk: bool)
      ensures this.config == config && fresh(queue) && fresh(circuitBreakers)
      ensures Snapshot(map[]) == World(map[], map[], Restarted(stored, counterOk), map[], map[])
      ensures Initial(Snapshot(map[]))
    {
      this.config := config;
      queue := new TaskQueue(stored, counterOk);
      circuitBreakers := new BreakerTable();
      local, remotes := map[], map[];
    }

    // A local put followed by QueueReplication, which only logs a failed enqueue.
    method PutAndQueue(key: ObjectKey, data: Bytes, time: int, putOk: bool, counterOk: bool, ghost flights: map<nat, Flight>)
      modifies this`local, queue
      ensures Snapshot(flights) == Apply(config, old(Snapshot(flights)), Put(key, data, time, putOk, counterOk))
    {
      local := local[key := data];
      var _ := queue.EnqueueTask(Task(key.bucket, key.key, "", config.etagOf(data), time), putOk, counterOk);
    }

    // replicate_to_endpoint. The ghost flight says where the worker stands.
    method ReplicateToEndpoint(task: Task, endpoint: string, o: Outcome, ghost f: Flight) returns (ok: bool)
      requires f.task == task && f.tried < |config.endpoints| && endpoint == config.endpoints[f.tried]
      modifies this`remotes, circuitBreakers
      ensures Snapshot(map[0 := f.Next(ok)]) == Attempted(config, old(Snapshot(map[0 := f])), f, o)
    {
      var granted := circuitBreakers.ShouldAttempt(endpoint, o.asked);
      if !granted {
        return false;
      }
      var key := KeyOf(task);
      if !o.readOk || key !in local {
        circuitBreakers.RecordFailure(endpoint, o.failedAt);
        return false;
      }
      var data := local[key];
      var remote := Remote(remotes, endpoint);
      if o.headOk && key in remote && config.etagOf(remote[key]) == config.etagOf(data) {
        circuitBreakers.RecordSuccess(endpoint);
        return true;
      }
      if o.applied || o.acked {
        remotes := remotes[endpoint := remote[key := data]];
      }
      if o.acked {
        circuitBreakers.RecordSuccess(endpoint);
      } else {
        circuitBreakers.RecordFailure(endpoint, o.failedAt);
      }
      return o.acked;
    }

    // The loop of worker_loop over the endpoints: no break on failure.
    method ReplicateToAll(task: Task, outcomes: seq<Outcome>) returns (allSuccess: bool)
      requires |outcomes| == |config.endpoints|
      modifies this`remotes, circuitBreakers
      ensures Snapshot(map[0 := Flight(task, |config.endpoints|, !allSuccess, Ready)]) ==
              AttemptedAll(config, old(Snapshot(map[])), task, outcomes)
    {
      allSuccess := true;
      ghost var start := Snapshot(map[]);
      for i := 0 to |config.endpoints|
        invariant Snapshot(map[0 := Flight(task, i, !allSuccess, Ready)]) ==
                  AttemptedAll(config, start, task, outcomes[..i])
      {
        assert outcomes[..i + 1][..i] == outcomes[..i];
        ghost var f := Flight(task, i, !allSuccess, Ready);
        var ok := ReplicateToEndpoint(task, config.endpoints[i], outcomes[i], f);
        if !ok {
          allSuccess := false;
        }
      }
      assert outcomes[..|config.endpoints|] == outcomes;
    }

    // One iteration of worker_loop: dequeue, try every endpoint, requeue unless all succeeded.
    method WorkerIteration(outcomes: seq<Outcome>, deleteOk: bool, putOk: bool, counterOk: bool)
      returns (processed: Option<Task>, allSuccess: bool)
      requires |outcomes| == |config.endpoints|
      modifies this`remotes, circuitBreakers, queue
      ensures Snapshot(map[]) == Iterated(config, old(Snapshot(map[])), outcomes, deleteOk, putOk, counterOk)
      ensures processed.Some? && allSuccess && Injective(config.etagOf) && |config.endpoints| > 0 ==>
        AllAgree(config, Snapshot(map[]), KeyOf(processed.value))
    {
      ghost var start := Snapshot(map[]);
      processed := queue.DequeueTask(deleteOk);
      allSuccess := true;
      if processed.None? {
        return;
      }
      ghost var taken := Snapshot(map[]);
      assert taken == start.(queue := Dequeued(start.queue, true));
      allSuccess := ReplicateToAll(processed.value, outcomes);
      ghost var tried := AttemptedAll(config, taken, processed.value, outcomes);
      assert tried.flights[0].failed == !allSuccess && Snapshot(map[]) == tried.(flights := map[]);
      if !allSuccess {
        var _ := queue.EnqueueTask(processed.value, putOk, counterOk);
      } else if Injective(config.etagOf) && |config.endpoints| > 0 {
        IterationReachesAgreement(config, taken, processed.value, outcomes, Snapshot(map[]));
      }
    }
  }
}
