/** Garbage collection of unreferenced chunks: gc_loop, which deletes files one by one and records in
    batches, and the simple gc_unused_chunks. */
module ChunkGc {
  import opened Base
  import opened Sums
  import opened ChunkStores

  // What the file system and the database do during a cycle: whether the removal of a hash's file
  // succeeds, and whether the batch write after the n-th collected record succeeds.
  datatype Env = Env(batchSize: nat, removeOk: Hash -> bool, writeOk: nat -> bool)

  predicate AllOk(env: Env, order: seq<Hash>) {
    forall h | h in order :: env.removeOk(h)
  }

  ghost predicate WritesOk(env: Env) { forall n :: env.writeOk(n) }

  // The local variables of gc_loop with the store they work on.
  datatype Cycle = Cycle(store: Store, batch: seq<Hash>, processed: nat, reclaimed: nat, deleted: nat)

  function Begin(s: Store): Cycle { Cycle(s, [], 0, 0, 0) }

  // The iterator is a snapshot: it shows the values from the start of the cycle.
  predicate IsZero(snapshot: Store, h: Hash) {
    h in snapshot.meta && snapshot.meta[h] == Count(0)
  }

  // The file goes first; a failed removal is only logged and still counted.
  function FileGone(c: Config, env: Env, g: Cycle, h: Hash): Cycle {
    var path := c.Path(h);
    if path !in g.store.files then g
    else g.(store := if env.removeOk(h) then g.store.(files := g.store.files - {path}) else g.store,
            reclaimed := g.reclaimed + |g.store.files[path]|,
            deleted := g.deleted + 1)
  }

  function Flush(env: Env, g: Cycle): Cycle {
    var store := if env.writeOk(g.processed) then g.store.(meta := g.store.meta - SetOf(g.batch)) else g.store;
    g.(store := store, batch := [])
  }

  // Then the record joins the batch, which is written and cleared when it is full.
  function Marked(env: Env, g: Cycle, h: Hash): Cycle
    requires env.batchSize >= 1
  {
    var m := g.(batch := g.batch + [h], processed := g.processed + 1);
    if m.processed % env.batchSize == 0 then Flush(env, m) else m
  }

  function Visited(c: Config, env: Env, snapshot: Store, g: Cycle, h: Hash): Cycle
    requires env.batchSize >= 1
  {
    if IsZero(snapshot, h) then Marked(env, FileGone(c, env, g, h), h) else g
  }

  function VisitedAll(c: Config, env: Env, s: Store, order: seq<Hash>): Cycle
    requires env.batchSize >= 1
  {
    if order == [] then Begin(s)
    else Visited(c, env, s, VisitedAll(c, env, s, order[..|order| - 1]), order[|order| - 1])
  }

  // A whole cycle over the keys in iteration order.
  function Collect(c: Config, env: Env, s: Store, order: seq<Hash>): Cycle
    requires env.batchSize >= 1
  {
    var g := VisitedAll(c, env, s, order);
    if g.batch == [] then g else Flush(env, g)
  }

  // Where a cycle ends: after its last write, or cut after some keys, possibly with the next key's
  // file already gone. The batch in memory is lost with the process.
  datatype Stop = Complete | Cut(visited: nat, fileGone: bool)

  function StoppedAt(c: Config, env: Env, s: Store, order: seq<Hash>, stop: Stop): Store
    requires env.batchSize >= 1
  {
    match stop
    case Complete => Collect(c, env, s, order).store
    case Cut(n, fileGone) =>
      if n >= |order| then VisitedAll(c, env, s, order).store
      else
        var g := VisitedAll(c, env, s, order[..n]);
        if fileGone && IsZero(s, order[n]) then FileGone(c, env, g, order[n]).store else g.store
  }

  // What the file system and the database do during gc_unused_chunks.
  datatype SimpleEnv = SimpleEnv(removeOk: Hash -> bool, deleteOk: Hash -> bool)

  // gc_unused_chunks: file and record of each unreferenced chunk, one by one. A failed removal and a
  // count that does not parse throw out of the loop (false); a failed record deletion is ignored.
  function SimplyVisited(c: Config, env: SimpleEnv, snapshot: Store, t: Store, h: Hash): (Store, bool) {
    if h in snapshot.meta && snapshot.meta[h].Unparsable? then (t, false)
    else if !IsZero(snapshot, h) then (t, true)
    else if c.Path(h) in t.files && !env.removeOk(h) then (t, false)
    else
      (Store(if env.deleteOk(h) then t.meta - {h} else t.meta, t.files - {c.Path(h)}), true)
  }

  function SimplyCollected(c: Config, env: SimpleEnv, s: Store, order: seq<Hash>): (Store, bool) {
    if order == [] then (s, true)
    else
      var (t, going) := SimplyCollected(c, env, s, order[..|order| - 1]);
      if !going then (t, false) else SimplyVisited(c, env, s, t, order[|order| - 1])
  }

  predicate Enumerates(order: seq<Hash>, s: Store) {
    Distinct(order) && SetOf(order) == s.meta.Keys
  }

  // ---- Nothing live is ever removed ----

  predicate GarbageFile(c: Config, s: Store, p: string) {
    exists h | h in s.meta :: IsZero(s, h) && c.Path(h) == p
  }

  // t is s without some records of count zero and some files of such records.
  ghost predicate OnlyGarbageGone(c: Config, s: Store, t: Store) {
    && (forall h: Hash :: h in t.meta ==> h in s.meta && t.meta[h] == s.meta[h])
    && (forall h: Hash :: h in s.meta && h !in t.meta ==> IsZero(s, h))
    && (forall p :: p in t.files ==> p in s.files && t.files[p] == s.files[p])
    && (forall p :: p in s.files && p !in t.files ==> GarbageFile(c, s, p))
  }

  lemma {:induction false} CycleRemovesOnlyGarbage(c: Config, env: Env, s: Store, order: seq<Hash>)
    requires env.batchSize >= 1
    ensures var g := VisitedAll(c, env, s, order);
            OnlyGarbageGone(c, s, g.store) && forall h :: h in g.batch ==> IsZero(s, h)
  {
    if order != [] {
      var n := |order| - 1;
      CycleRemovesOnlyGarbage(c, env, s, order[..n]);
      var g := VisitedAll(c, env, s, order[..n]);
      if IsZero(s, order[n]) {
        FileGoneIsGarbage(c, env, s, g, order[n]);
        var f := FileGone(c, env, g, order[n]);
        FlushIsGarbage(c, env, s, f.(batch := f.batch + [order[n]], processed := f.processed + 1));
      }
    }
  }

  lemma FileGoneIsGarbage(c: Config, env: Env, s: Store, g: Cycle, h: Hash)
    requires OnlyGarbageGone(c, s, g.store) && IsZero(s, h)
    ensures OnlyGarbageGone(c, s, FileGone(c, env, g, h).store)
  {
  }

  lemma FlushIsGarbage(c: Config, env: Env, s: Store, g: Cycle)
    requires OnlyGarbageGone(c, s, g.store) && forall h :: h in g.batch ==> IsZero(s, h)
    ensures OnlyGarbageGone(c, s, Flush(env, g).store)
  {
  }

  // Wherever a cycle stops, whatever removals and writes fail, only garbage is gone.
  lemma StopRemovesOnlyGarbage(c: Config, env: Env, s: Store, order: seq<Hash>, stop: Stop)
    requires env.batchSize >= 1
    ensures OnlyGarbageGone(c, s, StoppedAt(c, env, s, order, stop))
  {
    match stop {
      case Complete =>
        CycleRemovesOnlyGarbage(c, env, s, order);
        FlushIsGarbage(c, env, s, VisitedAll(c, env, s, order));
      case Cut(n, fileGone) =>
        if n >= |order| {
          CycleRemovesOnlyGarbage(c, env, s, order);
        } else {
          CycleRemovesOnlyGarbage(c, env, s, order[..n]);
          if IsZero(s, order[n]) {
            FileGoneIsGarbage(c, env, s, VisitedAll(c, env, s, order[..n]), order[n]);
          }
        }
    }
  }

  // So a cycle, cut anywhere, changes no reference count, keeps every referenced chunk readable and
  // keeps the filter covering.
  lemma CollectionIsSafe(c: Config, env: Env, s: Store, order: seq<Hash>, stop: Stop, filter: Filter)
    requires env.batchSize >= 1 && Sound(c, s) && Covers(c, filter, s)
    ensures var t := StoppedAt(c, env, s, order, stop);
            && (forall h: Hash :: RefCount(t, h) == RefCount(s, h))
            && Sound(c, t) && Covers(c, filter, t) && (Parsable(s) ==> Parsable(t))
  {
    var t := StoppedAt(c, env, s, order, stop);
    StopRemovesOnlyGarbage(c, env, s, order, stop);
    forall h: Hash | RefCount(t, h) > 0
      ensures Readable(c, t, h)
    {
      assert Readable(c, s, h);
      LiveFileKept(c, s, h);
    }
  }

  lemma LiveFileKept(c: Config, s: Store, h: Hash)
    requires RefCount(s, h) > 0
    ensures !GarbageFile(c, s, c.Path(h))
  {
    forall k: Hash | IsZero(s, k)
      ensures c.Path(k) != c.Path(h)
    {
      c.PathInjective(k, h);
    }
  }

  // ---- The complete cycle, and re-running a cut one ----

  function Referenced(s: Store): map<Hash, RefValue> {
    map h | h in s.meta && !IsZero(s, h) :: s.meta[h]
  }

  // What collection is for: no record of count zero, no file of one, everything else as it was.
  ghost predicate IsCollected(c: Config, s: Store, t: Store) {
    && t.meta == Referenced(s)
    && (forall p :: p in t.files <==> p in s.files && !GarbageFile(c, s, p))
    && (forall p :: p in t.files ==> t.files[p] == s.files[p])
  }

  lemma CollectedIsUnique(c: Config, s: Store, t: Store, u: Store)
    requires IsCollected(c, s, t) && IsCollected(c, s, u)
    ensures t == u
  {
  }

  // With every removal and write succeeding, the files of visited garbage are gone and its records
  // are gone or in the batch.
  ghost predicate Progress(c: Config, s: Store, visited: set<Hash>, g: Cycle) {
    && (forall h: Hash :: h in g.store.meta <==> h in s.meta && !(h in visited && IsZero(s, h) && h !in g.batch))
    && (forall h: Hash :: h in g.store.meta ==> g.store.meta[h] == s.meta[h])
    && (forall p :: p in g.store.files <==> p in s.files && !exists h :: h in visited && IsZero(s, h) && c.Path(h) == p)
    && (forall p :: p in g.store.files ==> g.store.files[p] == s.files[p])
    && (forall h :: h in g.batch ==> h in visited && IsZero(s, h))
  }

  lemma FileProgress(c: Config, env: Env, s: Store, visited: set<Hash>, g: Cycle, h: Hash)
    requires Progress(c, s, visited, g) && IsZero(s, h) && h !in visited && env.removeOk(h)
    ensures var f := FileGone(c, env, g, h);
            Progress(c, s, visited + {h}, f.(batch := f.batch + [h], processed := f.processed + 1))
  {
    var f := FileGone(c, env, g, h);
    forall p
      ensures p in f.store.files <==> p in s.files && !exists k :: k in visited + {h} && IsZero(s, k) && c.Path(k) == p
    {
      if p == c.Path(h) {
        assert h in visited + {h} && IsZero(s, h) && c.Path(h) == p;
      } else {
        if k :| k in visited && IsZero(s, k) && c.Path(k) == p {
          assert k in visited + {h};
        }
      }
    }
  }

  lemma FlushProgress(c: Config, env: Env, s: Store, visited: set<Hash>, g: Cycle)
    requires Progress(c, s, visited, g) && env.writeOk(g.processed)
    ensures Progress(c, s, visited, Flush(env, g)) && Flush(env, g).batch == []
  {
  }

  lemma VisitProgress(c: Config, env: Env, s: Store, visited: set<Hash>, g: Cycle, h: Hash)
    requires env.batchSize >= 1 && env.removeOk(h) && WritesOk(env)
    requires Progress(c, s, visited, g) && h !in visited
    ensures Progress(c, s, visited + {h}, Visited(c, env, s, g, h))
  {
    if IsZero(s, h) {
      FileProgress(c, env, s, visited, g, h);
      var f := FileGone(c, env, g, h);
      var m := f.(batch := f.batch + [h], processed := f.processed + 1);
      FlushProgress(c, env, s, visited + {h}, m);
      assert Visited(c, env, s, g, h) == m || Visited(c, env, s, g, h) == Flush(env, m);
    } else {
      NothingVisited(c, s, visited, g, h);
    }
  }

  lemma NothingVisited(c: Config, s: Store, visited: set<Hash>, g: Cycle, h: Hash)
    requires Progress(c, s, visited, g) && !IsZero(s, h)
    ensures Progress(c, s, visited + {h}, g)
  {
  }

  lemma {:induction false} CycleProgress(c: Config, env: Env, s: Store, order: seq<Hash>)
    requires env.batchSize >= 1 && AllOk(env, order) && WritesOk(env) && Distinct(order)
    ensures Progress(c, s, SetOf(order), VisitedAll(c, env, s, order))
  {
    if order != [] {
      var n := |order| - 1;
      assert order[n] in order && order == order[..n] + [order[n]];
      CycleProgress(c, env, s, order[..n]);
      assert SetOf(order) == SetOf(order[..n]) + {order[n]};
      VisitProgress(c, env, s, SetOf(order[..n]), VisitedAll(c, env, s, order[..n]), order[n]);
    }
  }

  // For every batch size the complete cycle collects exactly the garbage.
  lemma BatchedCollects(c: Config, env: Env, s: Store, order: seq<Hash>)
    requires env.batchSize >= 1 && AllOk(env, order) && WritesOk(env) && Enumerates(order, s)
    ensures IsCollected(c, s, Collect(c, env, s, order).store)
  {
    var g := VisitedAll(c, env, s, order);
    CycleProgress(c, env, s, order);
    FlushProgress(c, env, s, SetOf(order), g);
    var t := Collect(c, env, s, order);
    assert Progress(c, s, SetOf(order), t) && t.batch == [];
    forall h: Hash | IsZero(s, h)
      ensures h in SetOf(order)
    {
    }
  }

  predicate SimpleOk(env: SimpleEnv, order: seq<Hash>) {
    forall h | h in order :: env.removeOk(h) && env.deleteOk(h)
  }

  lemma SimpleVisitProgress(c: Config, env: SimpleEnv, s: Store, visited: set<Hash>, t: Store, h: Hash)
    requires Parsable(s) && env.removeOk(h) && env.deleteOk(h)
    requires Progress(c, s, visited, Begin(t)) && h !in visited
    ensures var (r, going) := SimplyVisited(c, env, s, t, h);
            going && Progress(c, s, visited + {h}, Begin(r))
  {
    if IsZero(s, h) {
      var all := Env(1, k => true, n => true);
      FileProgress(c, all, s, visited, Begin(t), h);
      var f := FileGone(c, all, Begin(t), h);
      FlushProgress(c, all, s, visited + {h}, f.(batch := [h], processed := 1));
      assert SetOf([h]) == {h};
      assert f.batch + [h] == [h];
    } else {
      NothingVisited(c, s, visited, Begin(t), h);
    }
  }

  lemma {:induction false} SimpleProgress(c: Config, env: SimpleEnv, s: Store, order: seq<Hash>)
    requires Parsable(s) && SimpleOk(env, order) && Distinct(order)
    ensures var (t, going) := SimplyCollected(c, env, s, order);
            going && Progress(c, s, SetOf(order), Begin(t))
  {
    if order != [] {
      var n := |order| - 1;
      assert order[n] in order && order == order[..n] + [order[n]];
      SimpleProgress(c, env, s, order[..n]);
      assert SetOf(order) == SetOf(order[..n]) + {order[n]};
      SimpleVisitProgress(c, env, s, SetOf(order[..n]), SimplyCollected(c, env, s, order[..n]).0, order[n]);
    }
  }

  // The simple collection too removes only garbage, wherever it throws and whatever fails.
  lemma {:induction false} SimpleRemovesOnlyGarbage(c: Config, env: SimpleEnv, s: Store, order: seq<Hash>)
    ensures OnlyGarbageGone(c, s, SimplyCollected(c, env, s, order).0)
  {
    if order != [] {
      var n := |order| - 1;
      SimpleRemovesOnlyGarbage(c, env, s, order[..n]);
      if IsZero(s, order[n]) {
        assert GarbageFile(c, s, c.Path(order[n]));
      }
    }
  }

  // Exactly when the simple collection reaches its end: no count fails to parse and every file it has
  // to remove can be. It then has removed every such file, and every record whose deletion succeeded.
  lemma {:induction false} SimpleFinishesIff(c: Config, env: SimpleEnv, s: Store, order: seq<Hash>)
    requires Distinct(order)
    ensures var (t, finished) := SimplyCollected(c, env, s, order);
            && (finished <==> forall h :: h in order ==> CanPass(c, env, s, h))
            && (finished ==> forall h :: h in order && IsZero(s, h) ==>
                 c.Path(h) !in t.files && (h in t.meta <==> !env.deleteOk(h)))
            && (forall h: Hash :: h !in order ==>
                 (h in t.meta <==> h in s.meta) && (c.Path(h) in t.files <==> c.Path(h) in s.files))
  {
    if order != [] {
      var n := |order| - 1;
      var front, last := order[..n], order[n];
      assert order == front + [last];
      SimpleFinishesIff(c, env, s, front);
      assert last !in front;
      forall h: Hash
        ensures c.Path(h) == c.Path(last) ==> h == last
      {
        c.PathInjective(h, last);
      }
      assert forall h :: h in order <==> h in front || h == last;
    }
  }

  predicate CanPass(c: Config, env: SimpleEnv, s: Store, h: Hash) {
    && !(h in s.meta && s.meta[h].Unparsable?)
    && (IsZero(s, h) && c.Path(h) in s.files ==> env.removeOk(h))
  }

  // With nothing failing, batched collection ends with the same metadata and files as the simple one.
  lemma BatchedEqualsSimple(c: Config, env: Env, simple: SimpleEnv, s: Store, order: seq<Hash>, other: seq<Hash>)
    requires env.batchSize >= 1 && AllOk(env, order) && WritesOk(env)
    requires Parsable(s) && SimpleOk(simple, other)
    requires Enumerates(order, s) && Enumerates(other, s)
    ensures SimplyCollected(c, simple, s, other) == (Collect(c, env, s, order).store, true)
  {
    BatchedCollects(c, env, s, order);
    SimpleProgress(c, simple, s, other);
    var t := SimplyCollected(c, simple, s, other).0;
    forall h: Hash | IsZero(s, h)
      ensures h in SetOf(other)
    {
    }
    assert IsCollected(c, s, t);
    CollectedIsUnique(c, s, Collect(c, env, s, order).store, t);
  }

  // A second cycle changes nothing.
  lemma {:induction false} NothingToCollect(c: Config, env: Env, s: Store, order: seq<Hash>)
    requires env.batchSize >= 1 && forall h: Hash :: !IsZero(s, h)
    ensures VisitedAll(c, env, s, order) == Begin(s) && Collect(c, env, s, order) == Begin(s)
  {
    if order != [] {
      NothingToCollect(c, env, s, order[..|order| - 1]);
    }
  }

  lemma SecondCycleIdle(c: Config, env: Env, again: Env, s: Store, order: seq<Hash>, other: seq<Hash>)
    requires env.batchSize >= 1 && AllOk(env, order) && WritesOk(env) && Enumerates(order, s)
    requires again.batchSize >= 1
    ensures var t := Collect(c, env, s, order).store; Collect(c, again, t, other) == Begin(t)
  {
    BatchedCollects(c, env, s, order);
    NothingToCollect(c, again, Collect(c, env, s, order).store, other);
  }

  // A file whose record is already gone will never be visited again.
  ghost predicate NoOrphan(c: Config, s: Store, t: Store) {
    forall h: Hash :: IsZero(s, h) && h !in t.meta ==> c.Path(h) !in t.files
  }

  // A later complete cycle finishes an interrupted one, ending as if nothing had happened, if and
  // only if the interrupted one left no orphaned file.
  lemma RerunFinishesIff(c: Config, s: Store, t: Store, u: Store)
    requires OnlyGarbageGone(c, s, t) && IsCollected(c, t, u)
    ensures IsCollected(c, s, u) <==> NoOrphan(c, s, t)
  {
    forall h: Hash | IsZero(s, h) && h !in t.meta && c.Path(h) in t.files
      ensures c.Path(h) in u.files && !IsCollected(c, s, u)
    {
      forall k: Hash | IsZero(t, k)
        ensures c.Path(k) != c.Path(h)
      {
        c.PathInjective(k, h);
      }
      assert GarbageFile(c, s, c.Path(h)) && !GarbageFile(c, t, c.Path(h));
    }
    if NoOrphan(c, s, t) {
      forall p
        ensures p in u.files <==> p in s.files && !GarbageFile(c, s, p)
      {
        if GarbageFile(c, s, p) {
          var h :| h in s.meta && IsZero(s, h) && c.Path(h) == p;
          assert h in t.meta ==> GarbageFile(c, t, p);
        }
        if GarbageFile(c, t, p) {
          var h :| h in t.meta && IsZero(t, h) && c.Path(h) == p;
          assert IsZero(s, h);
        }
      }
      assert u.meta == Referenced(s);
    }
  }

  // Cutting a cycle never orphans a file as long as its removals succeed, whatever happens to its
  // batch writes: the file goes before the record.
  ghost predicate FilesFirst(c: Config, s: Store, g: Cycle) {
    NoOrphan(c, s, g.store) && forall h: Hash :: h in g.batch ==> c.Path(h) !in g.store.files
  }

  lemma {:induction false} CycleFilesFirst(c: Config, env: Env, s: Store, order: seq<Hash>)
    requires env.batchSize >= 1 && AllOk(env, order)
    ensures FilesFirst(c, s, VisitedAll(c, env, s, order))
  {
    if order != [] {
      var n := |order| - 1;
      assert order[n] in order;
      CycleFilesFirst(c, env, s, order[..n]);
    }
  }

  lemma CutLeavesNoOrphan(c: Config, env: Env, s: Store, order: seq<Hash>, stop: Stop)
    requires env.batchSize >= 1 && AllOk(env, order)
    ensures NoOrphan(c, s, StoppedAt(c, env, s, order, stop))
  {
    CycleFilesFirst(c, env, s, order);
    if stop.Cut? && stop.visited < |order| {
      CycleFilesFirst(c, env, s, order[..stop.visited]);
    }
  }

  // A cycle can be cut between the removal of a chunk's file and the deletion of its record: then the
  // file is gone and the record is there to be visited again.
  lemma CutBetween(c: Config, env: Env, s: Store, order: seq<Hash>, n: nat)
    requires env.batchSize >= 1 && Distinct(order) && n < |order| && IsZero(s, order[n]) && env.removeOk(order[n])
    ensures var t := StoppedAt(c, env, s, order, Cut(n, true));
            c.Path(order[n]) !in t.files && order[n] in t.meta && t.meta[order[n]] == Count(0)
  {
    CycleKeepsBatches(c, env, s, order[..n]);
    StopRemovesOnlyGarbage(c, env, s, order, Cut(n, true));
    assert order[n] !in order[..n];
  }

  // Interruption is harmless: cut a cycle anywhere, then run one to its end, and the store is what
  // an undisturbed cycle would have left.
  lemma RerunFinishes(c: Config, cutEnv: Env, env: Env, s: Store, order: seq<Hash>, stop: Stop, rest: seq<Hash>)
    requires cutEnv.batchSize >= 1 && AllOk(cutEnv, order)
    requires env.batchSize >= 1 && AllOk(env, order) && AllOk(env, rest) && WritesOk(env)
    requires Enumerates(order, s) && Enumerates(rest, StoppedAt(c, cutEnv, s, order, stop))
    ensures Collect(c, env, StoppedAt(c, cutEnv, s, order, stop), rest).store == Collect(c, env, s, order).store
  {
    var t := StoppedAt(c, cutEnv, s, order, stop);
    var u := Collect(c, env, t, rest).store;
    StopRemovesOnlyGarbage(c, cutEnv, s, order, stop);
    CutLeavesNoOrphan(c, cutEnv, s, order, stop);
    BatchedCollects(c, env, t, rest);
    RerunFinishesIff(c, s, t, u);
    BatchedCollects(c, env, s, order);
    CollectedIsUnique(c, s, u, Collect(c, env, s, order).store);
  }

  // ---- Which records a cycle has deleted ----

  // The visited keys of count zero, in order.
  function Garbage(s: Store, order: seq<Hash>): (all: seq<Hash>)
    ensures forall h :: h in all <==> h in order && IsZero(s, h)
  {
    if order == [] then []
    else
      var front, last := order[..|order| - 1], order[|order| - 1];
      assert order == front + [last];
      Garbage(s, front) + if IsZero(s, last) then [last] else []
  }

  lemma {:induction false} GarbageDistinct(s: Store, order: seq<Hash>)
    requires Distinct(order)
    ensures Distinct(Garbage(s, order))
  {
    if order != [] {
      GarbageDistinct(s, order[..|order| - 1]);
    }
  }

  // After how many records the batch with the j-th is written: the next multiple of the batch size.
  function WrittenAt(j: nat, size: nat): (n: nat)
    requires size >= 1
    ensures j < n <= j + size
  {
    if j < size then size else size + WrittenAt(j - size, size)
  }

  // q % size == 0, by repeated subtraction.
  predicate IsMultiple(q: nat, size: nat)
    requires size >= 1
    decreases q
  {
    q == 0 || (q >= size && IsMultiple(q - size, size))
  }

  lemma {:induction false} WrittenTogether(q: nat, j: nat, size: nat)
    requires size >= 1 && IsMultiple(q, size) && q <= j < q + size
    ensures WrittenAt(j, size) == q + size
    decreases q
  {
    if q > 0 {
      WrittenTogether(q - size, j - size, size);
    }
  }

  lemma {:induction false} WrittenBefore(q: nat, j: nat, size: nat)
    requires size >= 1 && IsMultiple(q, size) && j < q
    ensures WrittenAt(j, size) <= q
    decreases q
  {
    if j >= size {
      WrittenBefore(q - size, j - size, size);
    }
  }

  // A batch that started at a multiple of its size ends at one again exactly when it is full.
  lemma {:induction false} FullIffMultiple(q: nat, d: nat, size: nat)
    requires size >= 1 && IsMultiple(q, size) && 0 < d <= size
    ensures (q + d) % size == 0 <==> d == size
    ensures IsMultiple(q + size, size)
    decreases q
  {
    if q > 0 {
      FullIffMultiple(q - size, d, size);
      DivisionUnique(q + d, (q - size + d) / size + 1, (q - size + d) % size, size);
    } else {
      DivisionUnique(d, if d == size then 1 else 0, if d == size then 0 else d, size);
    }
  }

  // The first q collected keys have been through a batch write, and their records remain where that
  // failed; the others are in the batch with their records.
  ghost predicate BatchesKept(env: Env, s: Store, all: seq<Hash>, g: Cycle, q: nat)
    requires env.batchSize >= 1
  {
    && q <= |all| && IsMultiple(q, env.batchSize) && g.processed == |all| && g.batch == all[q..]
    && (forall j :: 0 <= j < |all| ==> RecordKept(env, all, g, q, j))
    && (forall h: Hash :: h !in all ==> (h in g.store.meta <==> h in s.meta))
  }

  predicate RecordKept(env: Env, all: seq<Hash>, g: Cycle, q: nat, j: nat)
    requires env.batchSize >= 1 && j < |all|
  {
    all[j] in g.store.meta <==> j >= q || !env.writeOk(WrittenAt(j, env.batchSize))
  }

  lemma JoinKeepsBatches(env: Env, s: Store, all: seq<Hash>, g: Cycle, q: nat, h: Hash)
    requires env.batchSize >= 1 && h !in all && h in s.meta && BatchesKept(env, s, all, g, q)
    ensures BatchesKept(env, s, all + [h], g.(batch := g.batch + [h], processed := g.processed + 1), q)
  {
    var m := g.(batch := g.batch + [h], processed := g.processed + 1);
    assert m.batch == (all + [h])[q..];
    forall j | 0 <= j < |all + [h]|
      ensures RecordKept(env, all + [h], m, q, j)
    {
      assert j < |all| ==> RecordKept(env, all, g, q, j);
    }
    assert forall k: Hash :: k !in all + [h] ==> k !in all;
  }

  lemma FlushKeepsBatches(env: Env, s: Store, all: seq<Hash>, g: Cycle, q: nat)
    requires env.batchSize >= 1 && Distinct(all) && BatchesKept(env, s, all, g, q)
    requires |all| - q == env.batchSize
    ensures BatchesKept(env, s, all, Flush(env, g), |all|)
  {
    FullIffMultiple(q, env.batchSize, env.batchSize);
    forall j | 0 <= j < |all|
      ensures RecordKept(env, all, Flush(env, g), |all|, j)
      ensures all[j] in SetOf(g.batch) <==> j >= q
    {
      assert RecordKept(env, all, g, q, j);
      if j >= q {
        WrittenTogether(q, j, env.batchSize);
        assert g.batch[j - q] == all[j];
      } else {
        assert forall i :: 0 <= i < |g.batch| ==> g.batch[i] == all[q + i];
      }
    }
  }

  // Where the batch in memory starts after some keys were collected.
  function Boundary(collected: nat, size: nat): (q: nat)
    requires size >= 1
    ensures IsMultiple(q, size) && q <= collected < q + size
    decreases collected
  {
    if collected < size then 0 else size + Boundary(collected - size, size)
  }

  lemma {:induction false} BoundaryUnique(n: nat, q: nat, size: nat)
    requires size >= 1 && IsMultiple(q, size) && q <= n < q + size
    ensures Boundary(n, size) == q
    decreases n
  {
    if n >= size {
      BoundaryUnique(n - size, q - size, size);
    }
  }

  lemma NextBoundary(n: nat, size: nat)
    requires size >= 1
    ensures var q := Boundary(n, size);
            && ((n + 1) % size == 0 <==> n + 1 == q + size)
            && Boundary(n + 1, size) == if n + 1 == q + size then n + 1 else q
  {
    var q := Boundary(n, size);
    FullIffMultiple(q, n + 1 - q, size);
    BoundaryUnique(n + 1, if n + 1 == q + size then n + 1 else q, size);
  }

  lemma MarkKeepsBatches(env: Env, s: Store, all: seq<Hash>, g: Cycle, h: Hash)
    requires env.batchSize >= 1 && Distinct(all + [h]) && h !in all && h in s.meta
    requires BatchesKept(env, s, all, g, Boundary(|all|, env.batchSize))
    ensures BatchesKept(env, s, all + [h], Marked(env, g, h), Boundary(|all| + 1, env.batchSize))
  {
    var q := Boundary(|all|, env.batchSize);
    NextBoundary(|all|, env.batchSize);
    JoinKeepsBatches(env, s, all, g, q, h);
    if |all| + 1 == q + env.batchSize {
      FlushKeepsBatches(env, s, all + [h], g.(batch := g.batch + [h], processed := g.processed + 1), q);
    }
  }

  lemma FileKeepsBatches(c: Config, env: Env, s: Store, all: seq<Hash>, g: Cycle, q: nat, h: Hash)
    requires env.batchSize >= 1 && BatchesKept(env, s, all, g, q)
    ensures BatchesKept(env, s, all, FileGone(c, env, g, h), q)
  {
    forall j | 0 <= j < |all|
      ensures RecordKept(env, all, FileGone(c, env, g, h), q, j)
    {
      assert RecordKept(env, all, g, q, j);
    }
  }

  lemma VisitKeepsBatches(c: Config, env: Env, s: Store, all: seq<Hash>, g: Cycle, h: Hash)
    requires env.batchSize >= 1 && IsZero(s, h) && h !in all && Distinct(all + [h])
    requires BatchesKept(env, s, all, g, Boundary(|all|, env.batchSize))
    ensures BatchesKept(env, s, all + [h], Visited(c, env, s, g, h), Boundary(|all| + 1, env.batchSize))
  {
    FileKeepsBatches(c, env, s, all, g, Boundary(|all|, env.batchSize), h);
    MarkKeepsBatches(env, s, all, FileGone(c, env, g, h), h);
  }

  lemma NextKeepsBatches(c: Config, env: Env, s: Store, front: seq<Hash>, g: Cycle, h: Hash)
    requires env.batchSize >= 1 && Distinct(front + [h])
    requires BatchesKept(env, s, Garbage(s, front), g, Boundary(|Garbage(s, front)|, env.batchSize))
    ensures var all := Garbage(s, front + [h]);
            BatchesKept(env, s, all, Visited(c, env, s, g, h), Boundary(|all|, env.batchSize))
  {
    var all := Garbage(s, front);
    assert (front + [h])[..|front|] == front;
    if IsZero(s, h) {
      GarbageDistinct(s, front + [h]);
      assert h !in front by {
        assert (front + [h])[|front|] == h;
        assert forall i :: 0 <= i < |front| ==> (front + [h])[i] == front[i] != h;
      }
      VisitKeepsBatches(c, env, s, all, g, h);
    } else {
      assert Garbage(s, front + [h]) == all;
    }
  }

  lemma {:induction false} CycleKeepsBatches(c: Config, env: Env, s: Store, order: seq<Hash>)
    requires env.batchSize >= 1 && Distinct(order)
    ensures BatchesKept(env, s, Garbage(s, order), VisitedAll(c, env, s, order), Boundary(|Garbage(s, order)|, env.batchSize))
  {
    if order != [] {
      var front, last := order[..|order| - 1], order[|order| - 1];
      assert order == front + [last];
      CycleKeepsBatches(c, env, s, front);
      NextKeepsBatches(c, env, s, front, VisitedAll(c, env, s, front), last);
    }
  }

  function VisitedBy(order: seq<Hash>, stop: Stop): seq<Hash> {
    if stop.Cut? && stop.visited < |order| then order[..stop.visited] else order
  }

  // The write whose success deletes the record of the j-th key collected: that of the next multiple
  // of the batch size, or else, in a complete cycle, the last one. None if it has not come.
  function DeletingWrite(j: nat, collected: nat, size: nat, stop: Stop): Option<nat>
    requires size >= 1
  {
    if WrittenAt(j, size) <= collected then Some(WrittenAt(j, size))
    else if stop.Complete? then Some(collected)
    else None
  }

  // Exactly which records a cycle has deleted wherever it stops, whatever fails. No other record goes.
  lemma RecordGoneIff(c: Config, env: Env, s: Store, order: seq<Hash>, stop: Stop)
    requires env.batchSize >= 1 && Distinct(order)
    ensures var t, all := StoppedAt(c, env, s, order, stop), Garbage(s, VisitedBy(order, stop));
            && (forall j :: 0 <= j < |all| ==>
                 var write := DeletingWrite(j, |all|, env.batchSize, stop);
                 all[j] !in t.meta <==> write.Some? && env.writeOk(write.value))
            && (forall h: Hash :: h !in all ==> (h in t.meta <==> h in s.meta))
  {
    var visited := VisitedBy(order, stop);
    var all, g := Garbage(s, visited), VisitedAll(c, env, s, visited);
    CycleKeepsBatches(c, env, s, visited);
    GarbageDistinct(s, visited);
    forall j | 0 <= j < |all|
      ensures RecordKept(env, all, g, Boundary(|all|, env.batchSize), j)
      ensures j >= Boundary(|all|, env.batchSize) <==> WrittenAt(j, env.batchSize) > |all|
      ensures all[j] in g.batch <==> j >= Boundary(|all|, env.batchSize)
    {
      BatchOf(env, s, all, g, Boundary(|all|, env.batchSize), j);
    }
  }

  lemma BatchOf(env: Env, s: Store, all: seq<Hash>, g: Cycle, q: nat, j: nat)
    requires env.batchSize >= 1 && Distinct(all) && BatchesKept(env, s, all, g, q) && j < |all| < q + env.batchSize
    ensures j >= q <==> WrittenAt(j, env.batchSize) > |all|
    ensures all[j] in g.batch <==> j >= q
  {
    if j < q {
      WrittenBefore(q, j, env.batchSize);
      assert forall i :: 0 <= i < |g.batch| ==> g.batch[i] == all[q + i];
    } else {
      WrittenTogether(q, j, env.batchSize);
      assert g.batch[j - q] == all[j];
    }
  }

  // So when writes succeed fewer records than the batch size lag behind, wherever the cycle stops.
  lemma LagBelowBatch(c: Config, env: Env, s: Store, order: seq<Hash>, stop: Stop)
    requires env.batchSize >= 1 && Distinct(order) && WritesOk(env)
    ensures var t := StoppedAt(c, env, s, order, stop);
            |set h | h in VisitedBy(order, stop) && IsZero(s, h) && h in t.meta| < env.batchSize
  {
    var visited, t := VisitedBy(order, stop), StoppedAt(c, env, s, order, stop);
    var all, g := Garbage(s, visited), VisitedAll(c, env, s, visited);
    CycleKeepsBatches(c, env, s, visited);
    var lagging := set h | h in visited && IsZero(s, h) && h in t.meta;
    forall h | h in lagging
      ensures h in SetOf(g.batch)
    {
      LaggingIsInBatch(env, s, all, g, Boundary(|all|, env.batchSize), h);
    }
    DistinctIffSize(g.batch);
    assert SetOf(g.batch) == lagging + (SetOf(g.batch) - lagging);
  }

  lemma LaggingIsInBatch(env: Env, s: Store, all: seq<Hash>, g: Cycle, q: nat, h: Hash)
    requires env.batchSize >= 1 && WritesOk(env) && BatchesKept(env, s, all, g, q)
    requires h in all && h in g.store.meta
    ensures h in g.batch
  {
    var j :| 0 <= j < |all| && all[j] == h;
    assert RecordKept(env, all, g, q, j);
    assert g.batch[j - q] == h;
  }

  // ---- Accounting ----

  function Size(file: Bytes): nat { |file| }

  ghost function TotalBytes(files: map<string, Bytes>): nat { SumMap(files, Size) }

  // The removals the cycle asks for on files that exist: all succeed, or all those of files with any
  // bytes do.
  predicate RemovalsOk(c: Config, env: Env, s: Store, order: seq<Hash>) {
    forall h | h in order :: IsZero(s, h) && c.Path(h) in s.files ==> env.removeOk(h)
  }

  predicate SizedRemovalsOk(c: Config, env: Env, s: Store, order: seq<Hash>) {
    forall h | h in order :: IsZero(s, h) && c.Path(h) in s.files && s.files[c.Path(h)] != [] ==> env.removeOk(h)
  }

  // One visit keeps files plus count, and bytes plus report, unless it asks for a removal that fails.
  predicate FailsAt(c: Config, env: Env, s: Store, g: Cycle, h: Hash) {
    IsZero(s, h) && c.Path(h) in g.store.files && !env.removeOk(h)
  }

  lemma VisitCounts(c: Config, env: Env, s: Store, g: Cycle, h: Hash)
    requires env.batchSize >= 1
    ensures var v := Visited(c, env, s, g, h);
            |v.store.files| + v.deleted == |g.store.files| + g.deleted + if FailsAt(c, env, s, g, h) then 1 else 0
  {
    var path := c.Path(h);
    if path in g.store.files {
      assert (g.store.files - {path}).Keys == g.store.files.Keys - {path};
    }
  }

  lemma VisitWeighs(c: Config, env: Env, s: Store, g: Cycle, h: Hash)
    requires env.batchSize >= 1
    ensures var v := Visited(c, env, s, g, h);
            TotalBytes(v.store.files) + v.reclaimed == TotalBytes(g.store.files) + g.reclaimed +
              if FailsAt(c, env, s, g, h) then |g.store.files[c.Path(h)]| else 0
  {
    if c.Path(h) in g.store.files {
      SumSplit(g.store.files, Size, c.Path(h));
    }
  }

  // A file that is gone was removed by a removal that succeeded.
  lemma {:induction false} GoneWasRemoved(c: Config, env: Env, s: Store, order: seq<Hash>, h: Hash)
    requires env.batchSize >= 1 && c.Path(h) in s.files && c.Path(h) !in VisitedAll(c, env, s, order).store.files
    ensures env.removeOk(h)
  {
    if order != [] {
      var n := |order| - 1;
      if c.Path(h) in VisitedAll(c, env, s, order[..n]).store.files {
        c.PathInjective(h, order[n]);
      } else {
        GoneWasRemoved(c, env, s, order[..n], h);
      }
    }
  }

  lemma FrontAndLast(c: Config, env: Env, s: Store, order: seq<Hash>)
    requires order != []
    ensures var n := |order| - 1;
            && (RemovalsOk(c, env, s, order) <==> RemovalsOk(c, env, s, order[..n]) && RemovalsOk(c, env, s, [order[n]]))
            && (SizedRemovalsOk(c, env, s, order) <==>
                 SizedRemovalsOk(c, env, s, order[..n]) && SizedRemovalsOk(c, env, s, [order[n]]))
  {
    assert order == order[..|order| - 1] + [order[|order| - 1]];
  }

  // At a visit, a failing removal is a removal not in order: the file is still there unless an
  // earlier removal of the same hash succeeded.
  lemma VisitFailsIff(c: Config, env: Env, s: Store, order: seq<Hash>, h: Hash)
    requires env.batchSize >= 1
    ensures var g := VisitedAll(c, env, s, order);
            && (FailsAt(c, env, s, g, h) <==> !RemovalsOk(c, env, s, [h]))
            && (FailsAt(c, env, s, g, h) && g.store.files[c.Path(h)] != [] <==> !SizedRemovalsOk(c, env, s, [h]))
  {
    var g := VisitedAll(c, env, s, order);
    CycleRemovesOnlyGarbage(c, env, s, order);
    assert h in [h];
    if c.Path(h) in s.files && c.Path(h) !in g.store.files {
      GoneWasRemoved(c, env, s, order, h);
    }
  }

  // The count of deleted chunks is the number of files that disappeared if and only if every removal
  // asked for succeeded; otherwise it is too large.
  lemma {:induction false} DeletedIsGoneIff(c: Config, env: Env, s: Store, order: seq<Hash>)
    requires env.batchSize >= 1
    ensures var g := VisitedAll(c, env, s, order);
            && |g.store.files| + g.deleted >= |s.files|
            && (|g.store.files| + g.deleted == |s.files| <==> RemovalsOk(c, env, s, order))
  {
    if order != [] {
      var n := |order| - 1;
      DeletedIsGoneIff(c, env, s, order[..n]);
      VisitCounts(c, env, s, VisitedAll(c, env, s, order[..n]), order[n]);
      VisitFailsIff(c, env, s, order[..n], order[n]);
      FrontAndLast(c, env, s, order);
    }
  }

  // The reclaimed bytes are the bytes that disappeared if and only if every removal of a non-empty
  // file succeeded; otherwise the report is too large.
  lemma {:induction false} ReclaimedIsFreed(c: Config, env: Env, s: Store, order: seq<Hash>)
    requires env.batchSize >= 1
    ensures var g := VisitedAll(c, env, s, order);
            && TotalBytes(g.store.files) + g.reclaimed >= TotalBytes(s.files)
            && (TotalBytes(g.store.files) + g.reclaimed == TotalBytes(s.files) <==> SizedRemovalsOk(c, env, s, order))
  {
    if order != [] {
      var n := |order| - 1;
      ReclaimedIsFreed(c, env, s, order[..n]);
      VisitWeighs(c, env, s, VisitedAll(c, env, s, order[..n]), order[n]);
      VisitFailsIff(c, env, s, order[..n], order[n]);
      FrontAndLast(c, env, s, order);
    }
  }

  // A whole cycle reports both exactly if and only if no removal it asks for fails, whatever its
  // batch writes do.
  lemma CollectAccounts(c: Config, env: Env, s: Store, order: seq<Hash>)
    requires env.batchSize >= 1
    ensures var g := Collect(c, env, s, order);
            && (|g.store.files| + g.deleted == |s.files| <==> RemovalsOk(c, env, s, order))
            && (TotalBytes(g.store.files) + g.reclaimed == TotalBytes(s.files) <==> SizedRemovalsOk(c, env, s, order))
  {
    DeletedIsGoneIff(c, env, s, order);
    ReclaimedIsFreed(c, env, s, order);
  }

  // The over-report, on any one unreferenced chunk: its removal fails, one deleted chunk and all its
  // bytes are reported, its record goes and its file stays.
  lemma FailedRemovalOverReports(c: Config, h: Hash, file: Bytes)
    ensures var s := Store(map[h := Count(0)], map[c.Path(h) := file]);
            var g := Collect(c, Env(1, k => false, n => true), s, [h]);
            g.deleted == 1 && g.reclaimed == |file| && g.store == Store(map[], s.files)
  {
    var s := Store(map[h := Count(0)], map[c.Path(h) := file]);
    var env := Env(1, k => false, n => true);
    assert [h][..0] == [];
    assert VisitedAll(c, env, s, [h]) == Visited(c, env, s, Begin(s), h);
    assert SetOf([h]) == {h} && s.meta - {h} == map[];
  }
}
