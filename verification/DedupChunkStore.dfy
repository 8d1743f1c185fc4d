/** The chunk store object and whole runs of its operations. */
module DedupChunkStores {
  import opened Base
  import opened Sealing
  import opened BloomFilters
  import opened ChunkGc
  import opened CS = ChunkStores

  class DedupChunkStore {
    const config: Config
    const bloom: BloomFilter?
    var meta: map<Hash, RefValue>
    var files: map<string, Bytes>
    var totalReclaimedBytes: nat
    var totalDeletedChunks: nat

    ghost predicate Valid() {
      bloom != null ==> bloom.Valid() && bloom.hash == config.bloomHash && bloom.numHashes == config.bloomHashes
    }

    ghost function State(): Store
      reads this
    {
      Store(meta, files)
    }

    ghost function FilterBits(): Filter
      requires Valid()
      reads if bloom == null then {} else {bloom.bits}
    {
      if bloom == null then None else Some(bloom.bits[..])
    }

    ghost function Footprint(): set<object> {
      if bloom == null then {this} else {this, bloom.bits}
    }

    // Opens an existing database and chunk directory; the filter, when enabled, is filled from the
    // database.
    constructor (config: Config, stored: Store, enableBloom: bool, size: nat)
      requires (enableBloom ==> Parsable(stored)) && size > 0
      ensures Valid() && fresh(Footprint()) && this.config == config
      ensures State() == stored && totalReclaimedBytes == 0 && totalDeletedChunks == 0
      ensures FilterBits() == if enableBloom then Some(Loaded(config, size, stored)) else None
      ensures Covers(config, FilterBits(), State())
    {
      this.config := config;
      meta, files := stored.meta, stored.files;
      totalReclaimedBytes, totalDeletedChunks := 0, 0;
      if enableBloom {
        bloom := new BloomFilter(config.bloomHash, config.bloomHashes, size);
      } else {
        bloom := null;
      }
      new;
      if enableBloom {
        LoadBloomFromDb();
        assert bloom.bits[..] == Loaded(config, size, stored);
      }
      ReloadCovers(config, FilterBits(), stored);
    }

    // load_bloom_from_db, whatever order the iterator uses.
    method LoadBloomFromDb()
      requires Valid() && Parsable(State())
      modifies if bloom == null then {} else {bloom.bits}
      ensures bloom != null ==> forall p :: 0 <= p < bloom.bits.Length ==>
        bloom.bits[p] == (old(bloom.bits[p]) || Loaded(config, bloom.bits.Length, State())[p])
    {
      if bloom == null {
        return;
      }
      var left := meta.Keys;
      ghost var size := bloom.bits.Length;
      while left != {}
        invariant left <= meta.Keys
        invariant forall p :: 0 <= p < size ==>
          bloom.bits[p] == (old(bloom.bits[p]) || LoadedFrom(config, size, State(), meta.Keys - left, p))
        decreases left
      {
        var h :| h in left;
        ghost var done := meta.Keys - left;
        ghost var before := bloom.bits[..];
        if meta[h].n > 0 {
          bloom.Insert(h);
        }
        left := left - {h};
        forall p | 0 <= p < size
          ensures bloom.bits[p] == (old(bloom.bits[p]) || LoadedFrom(config, size, State(), meta.Keys - left, p))
        {
          assert before[p] == (old(bloom.bits[p]) || LoadedFrom(config, size, State(), done, p));
          assert bloom.bits[p] == bloom.bits[..][p];
          OneMoreLoaded(config, size, State(), done, h, p);
          assert meta.Keys - left == done + {h};
        }
      }
      forall p | 0 <= p < size
        ensures LoadedFrom(config, size, State(), meta.Keys, p) == Loaded(config, size, State())[p]
      {
      }
    }

    method StoreChunk(data: Bytes, iv: Iv, encryptOk: bool, disk: Disk) returns (r: StoreResult)
      requires Valid()
      modifies Footprint()
      ensures (State(), FilterBits(), r) ==
              StoreChunkOn(config, old(State()), old(FilterBits()), data, iv, encryptOk, disk)
      ensures totalReclaimedBytes == old(totalReclaimedBytes) && totalDeletedChunks == old(totalDeletedChunks)
    {
      var h := config.hash(data);
      var passes := true;
      if bloom != null {
        passes := bloom.ProbablyContains(h);
      }
      if passes && h in meta {
        if meta[h].Unparsable? {
          return Thrown;
        }
        if meta[h].n > 0 {
          if disk.putOk {
            meta := meta[h := Count(meta[h].n + 1)];
          }
          return Stored(h, false);
        }
      }
      if bloom != null {
        bloom.Insert(h);
      }
      if !encryptOk {
        return NotEncrypted;
      }
      files := files[config.Path(h) := if disk.fileOk then config.cipher.Seal(iv, data) else disk.torn];
      if disk.putOk {
        meta := meta[h := Count(1)];
      }
      return Stored(h, true);
    }

    method GetChunk(h: Hash) returns (data: Option<Bytes>)
      requires Valid()
      ensures data == CS.GetChunk(config, State(), FilterBits(), h)
    {
      if bloom != null {
        var passes := bloom.ProbablyContains(h);
        if !passes {
          return None;
        }
      }
      if h !in meta || meta[h].Unparsable? || meta[h].n == 0 || config.Path(h) !in files {
        return None;
      }
      return config.cipher.Open(files[config.Path(h)]);
    }

    method DecrementRef(h: Hash)
      modifies this`meta
      ensures State() == Decremented(old(State()), h)
    {
      if h in meta && meta[h].Count? && meta[h].n > 0 {
        meta := meta[h := Count(meta[h].n - 1)];
      }
    }

    method DeleteChunkFile(h: Hash, removeOk: bool)
      modifies this`files
      ensures files == if removeOk then old(files) - {config.Path(h)} else old(files)
    {
      var path := config.Path(h);
      if path in files {
        if removeOk {
          files := files - {path};
        }
      }
    }

    // gc_loop.
    method GcLoop(env: Env, order: seq<Hash>)
      requires env.batchSize >= 1 && Enumerates(order, State())
      modifies this
      ensures var g := Collect(config, env, old(State()), order);
              && State() == g.store
              && totalReclaimedBytes == old(totalReclaimedBytes) + g.reclaimed
              && totalDeletedChunks == old(totalDeletedChunks) + g.deleted
    {
      var snapshot := meta;
      var batch: seq<Hash> := [];
      var processed: nat, reclaimed: nat, deleted: nat := 0, 0, 0;
      ghost var s := State();
      for i := 0 to |order|
        invariant Cycle(State(), batch, processed, reclaimed, deleted) == VisitedAll(config, env, s, order[..i])
        invariant totalReclaimedBytes == old(totalReclaimedBytes) && totalDeletedChunks == old(totalDeletedChunks)
      {
        var h := order[i];
        assert order[..i + 1][..i] == order[..i];
        assert h in SetOf(order) && h in snapshot;
        if snapshot[h].Unparsable? || snapshot[h].n > 0 {
          continue;
        }
        var path := config.Path(h);
        if path in files {
          var chunkSize := |files[path]|;
          DeleteChunkFile(h, env.removeOk(h));
          reclaimed := reclaimed + chunkSize;
          deleted := deleted + 1;
        }
        batch := batch + [h];
        processed := processed + 1;
        if processed % env.batchSize == 0 {
          WriteBatch(batch, env.writeOk(processed));
          batch := [];
        }
      }
      assert order[..|order|] == order;
      if batch != [] {
        WriteBatch(batch, env.writeOk(processed));
      }
      totalReclaimedBytes := totalReclaimedBytes + reclaimed;
      totalDeletedChunks := totalDeletedChunks + deleted;
    }

    // A LevelDB batch of deletions: all of them or none.
    method WriteBatch(batch: seq<Hash>, ok: bool)
      modifies this`meta
      ensures meta == if ok then old(meta) - SetOf(batch) else old(meta)
    {
      if ok {
        meta := meta - SetOf(batch);
      }
    }

    // gc_unused_chunks. A false result is an exception: a count that does not parse, or a file that
    // cannot be removed.
    method GcUnusedChunks(env: SimpleEnv, order: seq<Hash>) returns (finished: bool)
      requires Enumerates(order, State())
      modifies this`meta, this`files
      ensures (State(), finished) == SimplyCollected(config, env, old(State()), order)
    {
      var snapshot := meta;
      ghost var s := State();
      for i := 0 to |order|
        invariant SimplyCollected(config, env, s, order[..i]) == (State(), true)
      {
        var h := order[i];
        assert order[..i + 1][..i] == order[..i];
        assert h in SetOf(order) && h in snapshot;
        if snapshot[h].Unparsable? {
          StoppedStays(config, env, s, order, i + 1);
          return false;
        }
        if snapshot[h].n == 0 {
          var path := config.Path(h);
          if path in files && !env.removeOk(h) {
            StoppedStays(config, env, s, order, i + 1);
            return false;
          }
          files := files - {path};
          if env.deleteOk(h) {
            meta := meta - {h};
          }
        }
      }
      assert order[..|order|] == order;
      return true;
    }
  }

  // Once the simple collection has thrown, the rest of the order is not visited.
  lemma {:induction false} StoppedStays(c: Config, env: SimpleEnv, s: Store, order: seq<Hash>, n: nat)
    requires n <= |order| && !SimplyCollected(c, env, s, order[..n]).1
    ensures SimplyCollected(c, env, s, order) == SimplyCollected(c, env, s, order[..n])
    decreases |order|
  {
    if n < |order| {
      assert order[..|order| - 1][..n] == order[..n];
      StoppedStays(c, env, s, order[..|order| - 1], n);
    } else {
      assert order[..n] == order;
    }
  }

  // Position p of the filter is set by one of these keys.
  predicate LoadedFrom(c: Config, size: nat, s: Store, keys: set<Hash>, p: nat)
    requires size > 0
  {
    exists h | h in keys :: h in s.meta && RefCount(s, h) > 0 && Hits(c.bloomHash, c.bloomHashes, size, h, p)
  }

  lemma OneMoreLoaded(c: Config, size: nat, s: Store, keys: set<Hash>, h: Hash, p: nat)
    requires size > 0
    ensures LoadedFrom(c, size, s, keys + {h}, p) <==>
            || LoadedFrom(c, size, s, keys, p)
            || (h in s.meta && RefCount(s, h) > 0 && Hits(c.bloomHash, c.bloomHashes, size, h, p))
  {
  }

  // ---- Whole runs: the filter against the null filter ----

  datatype Op =
    | Put(data: Bytes, iv: Iv, encryptOk: bool)
    | Get(hash: Hash)
    | Release(hash: Hash)
    | Gc(env: Env, order: seq<Hash>, stop: Stop)
    | Restart

  // What a caller sees.
  datatype Seen = PutResult(r: StoreResult) | GetResult(data: Option<Bytes>) | Nothing

  predicate Enabled(s: Store, op: Op) {
    op.Gc? ==> op.env.batchSize >= 1 && Enumerates(op.order, s)
  }

  function Step(c: Config, s: Store, filter: Filter, op: Op): (Store, Filter, Seen)
    requires Enabled(s, op)
  {
    match op
    case Put(data, iv, encryptOk) =>
      var (t, f, r) := CS.StoreChunk(c, s, filter, data, iv, encryptOk); (t, f, PutResult(r))
    case Get(h) => (s, filter, GetResult(CS.GetChunk(c, s, filter, h)))
    case Release(h) => (Decremented(s, h), filter, Nothing)
    case Gc(env, order, stop) => (StoppedAt(c, env, s, order, stop), filter, Nothing)
    case Restart => (s, Reloaded(c, filter, s), Nothing)
  }

  // Everything a run shows: after each operation, its result and the whole store.
  function Run(c: Config, s: Store, filter: Filter, ops: seq<Op>): seq<(Store, Seen)>
    decreases |ops|
  {
    if ops == [] || !Enabled(s, ops[0]) then []
    else
      var (t, f, seen) := Step(c, s, filter, ops[0]);
      [(t, seen)] + Run(c, t, f, ops[1..])
  }

  lemma StepKeeps(c: Config, s: Store, filter: Filter, op: Op)
    requires c.Valid() && Sound(c, s) && Parsable(s) && Covers(c, filter, s) && Enabled(s, op)
    ensures var (t, f, _) := Step(c, s, filter, op);
            Sound(c, t) && Parsable(t) && Covers(c, f, t)
  {
    match op {
      case Put(data, iv, encryptOk) => StoreChunkEffect(c, s, filter, data, iv, encryptOk);
      case Get(_) =>
      case Release(h) => DecrementEffect(c, s, filter, h);
      case Gc(env, order, stop) => CollectionIsSafe(c, env, s, order, stop, filter);
      case Restart => ReloadCovers(c, filter, s);
    }
  }

  // What each operation shows its caller, and what it does to each reference count.
  lemma StepShows(c: Config, s: Store, filter: Filter, op: Op, h: Hash)
    requires c.Valid() && Sound(c, s) && Parsable(s) && Covers(c, filter, s) && Enabled(s, op)
    ensures var (t, f, seen) := Step(c, s, filter, op);
            var stores := op.Put? && (RefCount(s, c.hash(op.data)) > 0 || op.encryptOk);
            && RefCount(t, h) == (if stores && c.hash(op.data) == h then RefCount(s, h) + 1
                                  else if op == Release(h) && RefCount(s, h) > 0 then RefCount(s, h) - 1
                                  else RefCount(s, h))
            && (op.Put? ==> seen == PutResult(if stores then Stored(c.hash(op.data), RefCount(s, c.hash(op.data)) == 0)
                                              else NotEncrypted))
            && (op.Get? ==> seen.GetResult?)
            && (op.Get? ==> forall d :: seen.data == Some(d) <==> RefCount(s, op.hash) > 0 && c.hash(d) == op.hash)
            && (op.Gc? && op.stop.Complete? && AllOk(op.env, op.order) && WritesOk(op.env) ==> IsCollected(c, s, t))
            && (op.Restart? && filter.Some? ==> f.Some? && |f.value| == |filter.value|)
            && (op.Restart? && filter.Some? ==>
                 (Passes(c, f, h) <==> forall i :: 0 <= i < c.bloomHashes ==>
                   Meets(c.bloomHash, c.bloomHashes, |filter.value|, Counted(s), h, i)))
  {
    match op {
      case Put(data, iv, encryptOk) => StoreChunkEffect(c, s, filter, data, iv, encryptOk);
      case Get(g) => ReadsIff(c, s, filter, g);
      case Release(g) => DecrementEffect(c, s, filter, g);
      case Gc(env, order, stop) =>
        CollectionIsSafe(c, env, s, order, stop, filter);
        if AllOk(env, order) && WritesOk(env) {
          BatchedCollects(c, env, s, order);
        }
      case Restart =>
        if filter.Some? {
          LoadedPassesIff(c, |filter.value|, s, h);
        }
    }
  }

  // Over every run of stores, reads, releases, complete or interrupted collections and restarts, a
  // filter that covers the store at the start changes no result, count or file.
  lemma {:induction false} FilterRefinesRun(c: Config, s: Store, filter: Filter, ops: seq<Op>)
    requires c.Valid() && Sound(c, s) && Parsable(s) && Covers(c, filter, s)
    ensures Run(c, s, filter, ops) == Run(c, s, None, ops)
    decreases |ops|
  {
    if ops != [] && Enabled(s, ops[0]) {
      var op := ops[0];
      StepKeeps(c, s, filter, op);
      var (t, f, seen) := Step(c, s, filter, op);
      var (t', f', seen') := Step(c, s, None, op);
      assert f'.None? && t == t' && seen == seen';
      FilterRefinesRun(c, t, f, ops[1..]);
    }
  }
}
