/** Deduplicated objects: chunked PutObject and GetObject over the chunk store, with puts, removals,
    releases, collections and restarts interleaved. */
module DedupObjects {
  import opened Base
  import opened Sums
  import opened Sealing
  import opened BloomFilters
  import opened ChunkGc
  import opened ChunkStores

  const CHUNK_SIZE: nat := 4 * 1024 * 1024

  // One manifest entry. None is the empty hash StoreChunk returns when encryption fails, which
  // PutObject records without checking.
  datatype ChunkInfo = ChunkInfo(hash: Option<Hash>, offset: nat, length: nat)

  datatype Manifest = Manifest(chunks: seq<ChunkInfo>, originalSize: nat)

  // A PutObject in progress: the bytes before next are chunked.
  datatype Job = Job(key: ObjectKey, data: Bytes, next: nat, chunks: seq<ChunkInfo>)

  // dead is history: the manifest entries of removed, replaced or abandoned manifests that have not
  // been released.
  datatype Cloud = Cloud(
    store: Store,
    filter: Filter,
    objects: map<ObjectKey, Manifest>,
    jobs: map<nat, Job>,
    dead: multiset<Hash>)

  // ---- Splitting ----

  function ChunkEnd(data: Bytes, offset: nat): (end: nat)
    requires offset < |data|
    ensures offset < end <= |data|
  {
    if CHUNK_SIZE <= |data| - offset then offset + CHUNK_SIZE else |data|
  }

  // The entries name the successive chunks of data[..upto].
  ghost predicate Describes(c: Config, chunks: seq<ChunkInfo>, data: Bytes, upto: nat) {
    if chunks == [] then upto == 0
    else
      var last := chunks[|chunks| - 1];
      && last.offset < upto <= |data| && last.length == upto - last.offset
      && upto == ChunkEnd(data, last.offset)
      && (last.hash.Some? ==> last.hash.value == c.hash(data[last.offset..upto]))
      && Describes(c, chunks[..|chunks| - 1], data, last.offset)
  }

  function TotalLength(chunks: seq<ChunkInfo>): nat {
    if chunks == [] then 0 else TotalLength(chunks[..|chunks| - 1]) + chunks[|chunks| - 1].length
  }

  // Offsets are contiguous from zero, lengths sum to the described size, and every entry but the
  // last has the full chunk size.
  lemma {:induction false} SplitShape(c: Config, chunks: seq<ChunkInfo>, data: Bytes, upto: nat)
    requires Describes(c, chunks, data, upto)
    ensures TotalLength(chunks) == upto
    ensures chunks != [] ==> chunks[0].offset == 0
    ensures forall i :: 0 < i < |chunks| ==> chunks[i].offset == chunks[i - 1].offset + chunks[i - 1].length
    ensures forall i :: 0 <= i < |chunks| - 1 ==> chunks[i].length == CHUNK_SIZE
  {
    if chunks != [] {
      SplitShape(c, chunks[..|chunks| - 1], data, chunks[|chunks| - 1].offset);
    }
  }

  // ---- References ----

  function Entries(chunks: seq<ChunkInfo>): multiset<Hash> {
    if chunks == [] then multiset{}
    else
      var last := chunks[|chunks| - 1];
      Entries(chunks[..|chunks| - 1]) + if last.hash.Some? then multiset{last.hash.value} else multiset{}
  }

  function ManifestRefs(h: Hash): Manifest -> nat { (m: Manifest) => Entries(m.chunks)[h] }

  function JobRefs(h: Hash): Job -> nat { (j: Job) => Entries(j.chunks)[h] }

  // Every reference count is the number of entries naming the chunk in live manifests, in puts in
  // progress and in dead manifests not yet released.
  ghost predicate Conserved(w: Cloud) {
    forall h: Hash :: RefCount(w.store, h) ==
      SumMap(w.objects, ManifestRefs(h)) + SumMap(w.jobs, JobRefs(h)) + w.dead[h]
  }

  // ---- Operations ----

  // What the random source and the cipher do for one chunk.
  datatype Outcome = Outcome(iv: Iv, encryptOk: bool)

  // One turn of PutObject's loop. An exception leaves the loop, and None stands for it.
  function ChunkStored(c: Config, s: Store, filter: Filter, j: Job, o: Outcome): (Store, Filter, Option<Job>)
    requires j.next < |j.data|
  {
    var end := ChunkEnd(j.data, j.next);
    var (t, f, r) := StoreChunk(c, s, filter, j.data[j.next..end], o.iv, o.encryptOk);
    if r.Thrown? then (t, f, None)
    else
      var hash := if r.Stored? then Some(r.hash) else None;
      (t, f, Some(j.(next := end, chunks := j.chunks + [ChunkInfo(hash, j.next, end - j.next)])))
  }

  function Removed(w: Cloud, key: ObjectKey): Cloud {
    if key in w.objects
    then w.(objects := w.objects - {key}, dead := w.dead + Entries(w.objects[key].chunks))
    else w
  }

  function Abandoned(w: Cloud, id: nat): Cloud
    requires id in w.jobs
  {
    w.(jobs := w.jobs - {id}, dead := w.dead + Entries(w.jobs[id].chunks))
  }

  // A manifest that cannot be saved leaves the old object in place.
  function Committed(w: Cloud, id: nat, saveOk: bool): Cloud
    requires id in w.jobs
  {
    if !saveOk then Abandoned(w, id)
    else
      var j := w.jobs[id];
      var r := Removed(w, j.key);
      r.(jobs := w.jobs - {id}, objects := r.objects[j.key := Manifest(j.chunks, |j.data|)])
  }

  datatype Op =
    | BeginPut(id: nat, key: ObjectKey, data: Bytes)
    | PutChunk(id: nat, outcome: Outcome)
    | EndPut(id: nat, saveOk: bool)
    | AbandonPut(id: nat)
    | Remove(key: ObjectKey)
    // DecrementRef for one entry of a dead manifest, each at most once.
    | Release(hash: Hash)
    | Gc(env: Env, order: seq<Hash>, stop: Stop)
    // After a crash: puts in progress have been abandoned, the filter is loaded again.
    | Restart

  predicate Enabled(w: Cloud, op: Op) {
    match op
    case BeginPut(id, _, _) => id !in w.jobs
    case PutChunk(id, _) => id in w.jobs && w.jobs[id].next < |w.jobs[id].data|
    case EndPut(id, _) => id in w.jobs && w.jobs[id].next >= |w.jobs[id].data|
    case AbandonPut(id) => id in w.jobs
    case Remove(_) => true
    case Release(h) => h in w.dead
    case Gc(env, order, _) => env.batchSize >= 1 && Enumerates(order, w.store)
    case Restart => w.jobs == map[]
  }

  function Apply(c: Config, w: Cloud, op: Op): Cloud
    requires Enabled(w, op)
  {
    match op
    case BeginPut(id, key, data) => w.(jobs := w.jobs[id := Job(key, data, 0, [])])
    case PutChunk(id, o) =>
      var (t, f, j) := ChunkStored(c, w.store, w.filter, w.jobs[id], o);
      var r := w.(store := t, filter := f);
      if j.None? then Abandoned(r, id) else r.(jobs := w.jobs[id := j.value])
    case EndPut(id, saveOk) => Committed(w, id, saveOk)
    case AbandonPut(id) => Abandoned(w, id)
    case Remove(key) => Removed(w, key)
    case Release(h) => w.(store := Decremented(w.store, h), dead := w.dead - multiset{h})
    case Gc(env, order, stop) => w.(store := StoppedAt(c, env, w.store, order, stop))
    case Restart => w.(filter := Reloaded(c, w.filter, w.store))
  }

  // Operations that are not enabled are skipped.
  function ApplyAll(c: Config, w: Cloud, ops: seq<Op>): Cloud
    decreases |ops|
  {
    if ops == [] then w
    else ApplyAll(c, if Enabled(w, ops[0]) then Apply(c, w, ops[0]) else w, ops[1..])
  }

  // ---- What the list of operations alone says ----

  // A put as its operations show it: how much was sent, and whether every encryption succeeded.
  datatype Sending = Sending(key: ObjectKey, data: Bytes, sent: nat, encrypted: bool)

  // The puts that have begun and not ended, and for each key the put that the latest successful
  // EndPut closed, unless the key has been removed since.
  datatype Ledger = Ledger(open: map<nat, Sending>, saved: map<ObjectKey, Sending>)

  const BLANK: Ledger := Ledger(map[], map[])

  function Noted(l: Ledger, op: Op): Ledger {
    match op
    case BeginPut(id, key, data) =>
      if id in l.open then l else l.(open := l.open[id := Sending(key, data, 0, true)])
    case PutChunk(id, o) =>
      if id !in l.open || l.open[id].sent >= |l.open[id].data| then l
      else
        var p := l.open[id];
        l.(open := l.open[id := p.(sent := ChunkEnd(p.data, p.sent), encrypted := p.encrypted && o.encryptOk)])
    case EndPut(id, saveOk) =>
      if id !in l.open || l.open[id].sent < |l.open[id].data| then l
      else Ledger(l.open - {id}, if saveOk then l.saved[l.open[id].key := l.open[id]] else l.saved)
    case AbandonPut(id) => l.(open := l.open - {id})
    case Remove(key) => l.(saved := l.saved - {key})
    case _ => l
  }

  function NotedAll(l: Ledger, ops: seq<Op>): Ledger
    decreases |ops|
  {
    if ops == [] then l else NotedAll(Noted(l, ops[0]), ops[1..])
  }

  // GetObject's loop: chunk by chunk, failing at the first that is missing.
  function Assembled(c: Config, s: Store, filter: Filter, chunks: seq<ChunkInfo>): Option<Bytes> {
    if chunks == [] then Some([])
    else
      var front := Assembled(c, s, filter, chunks[..|chunks| - 1]);
      var last := chunks[|chunks| - 1];
      if front.None? || last.hash.None? then None
      else
        var chunk := GetChunk(c, s, filter, last.hash.value);
        if chunk.None? then None else Some(front.value + chunk.value)
  }

  function GetObject(c: Config, w: Cloud, key: ObjectKey): Option<Bytes> {
    if key in w.objects then Assembled(c, w.store, w.filter, w.objects[key].chunks) else None
  }

  // ---- The invariant ----

  ghost predicate StoreInvariant(c: Config, w: Cloud) {
    Sound(c, w.store) && Parsable(w.store) && Covers(c, w.filter, w.store)
  }

  // Every chunk of the manifest was stored.
  predicate Complete(chunks: seq<ChunkInfo>) {
    forall e | e in chunks :: e.hash.Some?
  }

  ghost predicate JobMatches(c: Config, j: Job, p: Sending) {
    && j.key == p.key && j.data == p.data && j.next == p.sent
    && Describes(c, j.chunks, j.data, j.next)
    && (p.encrypted ==> Complete(j.chunks))
  }

  ghost predicate ObjectMatches(c: Config, m: Manifest, p: Sending) {
    && Describes(c, m.chunks, p.data, |p.data|) && m.originalSize == |p.data|
    && (p.encrypted ==> Complete(m.chunks))
  }

  // Objects and puts in progress are those of the ledger, and describe its data.
  ghost predicate ManifestsMatch(c: Config, w: Cloud, l: Ledger) {
    && w.jobs.Keys == l.open.Keys && (forall id :: id in w.jobs ==> JobMatches(c, w.jobs[id], l.open[id]))
    && w.objects.Keys == l.saved.Keys && (forall k :: k in w.objects ==> ObjectMatches(c, w.objects[k], l.saved[k]))
  }

  ghost predicate Invariant(c: Config, w: Cloud, l: Ledger) {
    StoreInvariant(c, w) && ManifestsMatch(c, w, l) && Conserved(w)
  }

  lemma ApplyStoreInvariant(c: Config, w: Cloud, op: Op)
    requires c.Valid() && StoreInvariant(c, w) && Enabled(w, op)
    ensures StoreInvariant(c, Apply(c, w, op))
  {
    match op {
      case PutChunk(id, o) =>
        var j := w.jobs[id];
        StoreChunkEffect(c, w.store, w.filter, j.data[j.next..ChunkEnd(j.data, j.next)], o.iv, o.encryptOk);
      case Release(h) => DecrementEffect(c, w.store, w.filter, h);
      case Gc(env, order, stop) => CollectionIsSafe(c, env, w.store, order, stop, w.filter);
      case Restart => ReloadCovers(c, w.filter, w.store);
      case _ =>
    }
  }

  // A chunk is entered with its hash if and only if it is referenced already or could be encrypted.
  lemma NextChunkMatches(c: Config, w: Cloud, j: Job, p: Sending, o: Outcome)
    requires c.Valid() && StoreInvariant(c, w) && j.next < |j.data| && JobMatches(c, j, p)
    ensures var (_, _, r) := ChunkStored(c, w.store, w.filter, j, o);
            var end := ChunkEnd(j.data, j.next);
            && r.Some? && r.value.chunks != []
            && JobMatches(c, r.value, p.(sent := end, encrypted := p.encrypted && o.encryptOk))
            && (r.value.chunks[|r.value.chunks| - 1].hash.Some? <==>
                 RefCount(w.store, c.hash(j.data[j.next..end])) > 0 || o.encryptOk)
  {
    StoreChunkEffect(c, w.store, w.filter, j.data[j.next..ChunkEnd(j.data, j.next)], o.iv, o.encryptOk);
    var k := ChunkStored(c, w.store, w.filter, j, o).2.value;
    assert k.chunks[..|k.chunks| - 1] == j.chunks;
    CompleteSplit(k.chunks);
  }

  lemma CompleteSplit(chunks: seq<ChunkInfo>)
    requires chunks != []
    ensures Complete(chunks) <==> Complete(chunks[..|chunks| - 1]) && chunks[|chunks| - 1].hash.Some?
  {
  }

  lemma CommitManifests(c: Config, w: Cloud, l: Ledger, id: nat, saveOk: bool)
    requires ManifestsMatch(c, w, l) && id in w.jobs && w.jobs[id].next >= |w.jobs[id].data|
    ensures ManifestsMatch(c, Committed(w, id, saveOk), Noted(l, EndPut(id, saveOk)))
  {
    assert JobMatches(c, w.jobs[id], l.open[id]);
    DescribesAtMost(c, w.jobs[id].chunks, w.jobs[id].data, w.jobs[id].next);
  }

  lemma ChunkManifests(c: Config, w: Cloud, l: Ledger, id: nat, o: Outcome)
    requires c.Valid() && StoreInvariant(c, w) && ManifestsMatch(c, w, l)
    requires id in w.jobs && w.jobs[id].next < |w.jobs[id].data|
    ensures ManifestsMatch(c, Apply(c, w, PutChunk(id, o)), Noted(l, PutChunk(id, o)))
  {
    NextChunkMatches(c, w, w.jobs[id], l.open[id], o);
  }

  lemma BeginManifests(c: Config, w: Cloud, l: Ledger, id: nat, key: ObjectKey, data: Bytes)
    requires ManifestsMatch(c, w, l) && id !in w.jobs
    ensures ManifestsMatch(c, Apply(c, w, BeginPut(id, key, data)), Noted(l, BeginPut(id, key, data)))
  {
  }

  lemma RemoveManifests(c: Config, w: Cloud, l: Ledger, key: ObjectKey)
    requires ManifestsMatch(c, w, l)
    ensures ManifestsMatch(c, Removed(w, key), Noted(l, Remove(key)))
  {
  }

  lemma AbandonManifests(c: Config, w: Cloud, l: Ledger, id: nat)
    requires ManifestsMatch(c, w, l) && id in w.jobs
    ensures ManifestsMatch(c, Abandoned(w, id), Noted(l, AbandonPut(id)))
  {
  }

  lemma ApplyManifests(c: Config, w: Cloud, l: Ledger, op: Op)
    requires c.Valid() && StoreInvariant(c, w) && ManifestsMatch(c, w, l)
    ensures ManifestsMatch(c, if Enabled(w, op) then Apply(c, w, op) else w, Noted(l, op))
  {
    if !Enabled(w, op) {
      assert Noted(l, op) == l;
    } else {
      match op {
        case BeginPut(id, key, data) => BeginManifests(c, w, l, id, key, data);
        case PutChunk(id, o) => ChunkManifests(c, w, l, id, o);
        case EndPut(id, saveOk) => CommitManifests(c, w, l, id, saveOk);
        case AbandonPut(id) => AbandonManifests(c, w, l, id);
        case Remove(key) => RemoveManifests(c, w, l, key);
        case _ =>
      }
    }
  }

  lemma DescribesAtMost(c: Config, chunks: seq<ChunkInfo>, data: Bytes, upto: nat)
    requires Describes(c, chunks, data, upto)
    ensures upto <= |data|
  {
  }

  lemma AbandonConserves(w: Cloud, id: nat)
    requires id in w.jobs && Conserved(w)
    ensures Conserved(Abandoned(w, id))
  {
    forall h: Hash {
      SumSplit(w.jobs, JobRefs(h), id);
    }
  }

  lemma RemoveConserves(w: Cloud, key: ObjectKey)
    requires Conserved(w)
    ensures Conserved(Removed(w, key))
  {
    if key in w.objects {
      forall h: Hash {
        SumSplit(w.objects, ManifestRefs(h), key);
      }
    }
  }

  lemma CommitConserves(w: Cloud, id: nat, saveOk: bool)
    requires id in w.jobs && Conserved(w)
    ensures Conserved(Committed(w, id, saveOk))
  {
    if !saveOk {
      AbandonConserves(w, id);
    } else {
      var j := w.jobs[id];
      var r := Removed(w, j.key);
      RemoveConserves(w, j.key);
      var t := Committed(w, id, saveOk);
      forall h: Hash
        ensures RefCount(t.store, h) ==
          SumMap(t.objects, ManifestRefs(h)) + SumMap(t.jobs, JobRefs(h)) + t.dead[h]
      {
        SumSplit(w.jobs, JobRefs(h), id);
        SumUpdate(r.objects, ManifestRefs(h), j.key, Manifest(j.chunks, |j.data|));
      }
    }
  }

  lemma BeginConserves(w: Cloud, id: nat, key: ObjectKey, data: Bytes)
    requires id !in w.jobs && Conserved(w)
    ensures Conserved(w.(jobs := w.jobs[id := Job(key, data, 0, [])]))
  {
    forall h: Hash {
      SumUpdate(w.jobs, JobRefs(h), id, Job(key, data, 0, []));
    }
  }

  lemma ChunkConserves(c: Config, w: Cloud, id: nat, o: Outcome)
    requires c.Valid() && StoreInvariant(c, w) && Conserved(w)
    requires id in w.jobs && w.jobs[id].next < |w.jobs[id].data|
    ensures Conserved(Apply(c, w, PutChunk(id, o)))
  {
    var j := w.jobs[id];
    var piece := j.data[j.next..ChunkEnd(j.data, j.next)];
    StoreChunkEffect(c, w.store, w.filter, piece, o.iv, o.encryptOk);
    var (t, f, r) := ChunkStored(c, w.store, w.filter, j, o);
    forall h: Hash
      ensures RefCount(t, h) ==
        SumMap(w.objects, ManifestRefs(h)) + SumMap(w.jobs[id := r.value], JobRefs(h)) + w.dead[h]
    {
      ChunkConservesFor(c, w, id, o, h);
    }
  }

  lemma ChunkConservesFor(c: Config, w: Cloud, id: nat, o: Outcome, h: Hash)
    requires Conserved(w) && id in w.jobs && w.jobs[id].next < |w.jobs[id].data|
    requires ChunkStored(c, w.store, w.filter, w.jobs[id], o).2.Some?
    ensures var k := ChunkStored(c, w.store, w.filter, w.jobs[id], o).2.value;
            var added := Entries(k.chunks)[h] - Entries(w.jobs[id].chunks)[h];
            var last := k.chunks[|k.chunks| - 1];
            && added == (if last.hash == Some(h) then 1 else 0)
            && RefCount(w.store, h) + added ==
               SumMap(w.objects, ManifestRefs(h)) + SumMap(w.jobs[id := k], JobRefs(h)) + w.dead[h]
  {
    var j, k := w.jobs[id], ChunkStored(c, w.store, w.filter, w.jobs[id], o).2.value;
    assert k.chunks[..|j.chunks|] == j.chunks;
    SumSplit(w.jobs, JobRefs(h), id);
    SumUpdate(w.jobs, JobRefs(h), id, k);
  }

  lemma ReleaseConserves(c: Config, w: Cloud, h: Hash)
    requires StoreInvariant(c, w) && Conserved(w) && h in w.dead
    ensures Conserved(w.(store := Decremented(w.store, h), dead := w.dead - multiset{h}))
  {
    DecrementEffect(c, w.store, w.filter, h);
  }

  lemma GcConserves(c: Config, w: Cloud, env: Env, order: seq<Hash>, stop: Stop)
    requires StoreInvariant(c, w) && Conserved(w) && env.batchSize >= 1
    ensures Conserved(w.(store := StoppedAt(c, env, w.store, order, stop)))
  {
    CollectionIsSafe(c, env, w.store, order, stop, w.filter);
  }

  lemma ApplyConserves(c: Config, w: Cloud, op: Op)
    requires c.Valid() && StoreInvariant(c, w) && Conserved(w) && Enabled(w, op)
    ensures Conserved(Apply(c, w, op))
  {
    match op {
      case BeginPut(id, key, data) => BeginConserves(w, id, key, data);
      case PutChunk(id, o) => ChunkConserves(c, w, id, o);
      case EndPut(id, saveOk) => CommitConserves(w, id, saveOk);
      case AbandonPut(id) => AbandonConserves(w, id);
      case Remove(key) => RemoveConserves(w, key);
      case Release(h) => ReleaseConserves(c, w, h);
      case Gc(env, order, stop) => GcConserves(c, w, env, order, stop);
      case Restart =>
    }
  }

  // References are conserved and the invariant holds after every run.
  lemma {:induction false} RunInvariant(c: Config, w: Cloud, l: Ledger, ops: seq<Op>)
    requires c.Valid() && Invariant(c, w, l)
    ensures Invariant(c, ApplyAll(c, w, ops), NotedAll(l, ops))
    decreases |ops|
  {
    if ops != [] {
      ApplyManifests(c, w, l, ops[0]);
      if Enabled(w, ops[0]) {
        ApplyStoreInvariant(c, w, ops[0]);
        ApplyConserves(c, w, ops[0]);
        RunInvariant(c, Apply(c, w, ops[0]), Noted(l, ops[0]), ops[1..]);
      } else {
        RunInvariant(c, w, Noted(l, ops[0]), ops[1..]);
      }
    }
  }

  // What each operation does to each reference count: a chunk of a put that is referenced already or
  // could be encrypted adds one to its own, a release takes one from its own, and nothing else, not
  // the removal or replacement of an object either, changes any.
  lemma ApplyCounts(c: Config, w: Cloud, op: Op, h: Hash)
    requires c.Valid() && StoreInvariant(c, w) && Enabled(w, op)
    ensures RefCount(Apply(c, w, op).store, h) ==
            if AddsTo(c, w, op, h) then RefCount(w.store, h) + 1
            else if op == Release(h) && RefCount(w.store, h) > 0 then RefCount(w.store, h) - 1
            else RefCount(w.store, h)
    ensures Conserved(w) && op == Release(h) ==> RefCount(w.store, h) > 0
  {
    match op {
      case PutChunk(id, o) =>
        var j := w.jobs[id];
        StoreChunkEffect(c, w.store, w.filter, j.data[j.next..ChunkEnd(j.data, j.next)], o.iv, o.encryptOk);
      case Release(g) => DecrementEffect(c, w.store, w.filter, g);
      case Gc(env, order, stop) => CollectionIsSafe(c, env, w.store, order, stop, w.filter);
      case _ =>
    }
  }

  predicate AddsTo(c: Config, w: Cloud, op: Op, h: Hash)
    requires Enabled(w, op)
  {
    op.PutChunk? &&
    var j := w.jobs[op.id];
    c.hash(j.data[j.next..ChunkEnd(j.data, j.next)]) == h && (RefCount(w.store, h) > 0 || op.outcome.encryptOk)
  }

  // After a restart the filter passes exactly the hashes each of whose positions a hash with positive
  // count has; nothing else changes.
  lemma RestartPassesIff(c: Config, w: Cloud, h: Hash)
    requires Enabled(w, Restart) && w.filter.Some?
    ensures var r := Apply(c, w, Restart);
            && r.filter.Some? && r == w.(filter := r.filter)
            && (Passes(c, r.filter, h) <==>
                 forall i :: 0 <= i < c.bloomHashes ==>
                   Meets(c.bloomHash, c.bloomHashes, |w.filter.value|, Counted(w.store), h, i))
  {
    LoadedPassesIff(c, |w.filter.value|, w.store, h);
  }

  // ---- What is collected, and what never is ----

  // Over every run without releases a chunk once stored keeps its record and its file, through
  // every removal and every collection: no count falls.
  lemma {:induction false} UnreleasedNeverCollected(c: Config, w: Cloud, ops: seq<Op>, h: Hash)
    requires c.Valid() && StoreInvariant(c, w)
    requires forall op :: op in ops ==> !op.Release?
    ensures RefCount(ApplyAll(c, w, ops).store, h) >= RefCount(w.store, h)
    ensures RefCount(w.store, h) > 0 ==> Readable(c, ApplyAll(c, w, ops).store, h)
    decreases |ops|
  {
    if ops != [] {
      assert ops[0] in ops;
      if Enabled(w, ops[0]) {
        ApplyStoreInvariant(c, w, ops[0]);
        ApplyCounts(c, w, ops[0], h);
        UnreleasedNeverCollected(c, Apply(c, w, ops[0]), ops[1..], h);
      } else {
        UnreleasedNeverCollected(c, w, ops[1..], h);
      }
    }
  }

  // A live manifest, a put in progress or an unreleased dead entry names the chunk.
  ghost predicate Named(w: Cloud, h: Hash) {
    || (exists key :: key in w.objects && h in Entries(w.objects[key].chunks))
    || (exists id :: id in w.jobs && h in Entries(w.jobs[id].chunks))
    || h in w.dead
  }

  lemma CountZeroIff(w: Cloud, h: Hash)
    requires Conserved(w)
    ensures RefCount(w.store, h) == 0 <==> !Named(w, h)
  {
    SumZeroIff(w.objects, ManifestRefs(h));
    SumZeroIff(w.jobs, JobRefs(h));
    assert forall key :: key in w.objects ==>
      (h in Entries(w.objects[key].chunks) <==> ManifestRefs(h)(w.objects[key]) > 0);
    assert forall id :: id in w.jobs ==> (h in Entries(w.jobs[id].chunks) <==> JobRefs(h)(w.jobs[id]) > 0);
  }

  // After every run, a complete collection removes a recorded chunk if and only if nothing names it.
  lemma CollectedIffUnnamed(c: Config, filter: Filter, ops: seq<Op>, env: Env, order: seq<Hash>, h: Hash)
    requires c.Valid() && env.batchSize >= 1 && AllOk(env, order) && WritesOk(env)
    requires Enumerates(order, ApplyAll(c, Empty(filter), ops).store)
    requires h in ApplyAll(c, Empty(filter), ops).store.meta
    ensures var w := ApplyAll(c, Empty(filter), ops);
            var t := Apply(c, w, Gc(env, order, Stop.Complete)).store;
            && (h !in t.meta <==> !Named(w, h))
            && (!Named(w, h) ==> c.Path(h) !in t.files && GetChunk(c, t, w.filter, h).None?)
            && (Named(w, h) ==> GetChunk(c, t, w.filter, h).Some? && c.hash(GetChunk(c, t, w.filter, h).value) == h)
  {
    var w := ApplyAll(c, Empty(filter), ops);
    RunInvariant(c, Empty(filter), BLANK, ops);
    CountZeroIff(w, h);
    CollectedReads(c, w.store, w.filter, env, order, h);
  }

  lemma CollectedReads(c: Config, s: Store, filter: Filter, env: Env, order: seq<Hash>, h: Hash)
    requires c.Valid() && env.batchSize >= 1 && AllOk(env, order) && WritesOk(env) && Enumerates(order, s)
    requires Sound(c, s) && Parsable(s) && Covers(c, filter, s) && h in s.meta
    ensures var t := Collect(c, env, s, order).store;
            && (h !in t.meta <==> RefCount(s, h) == 0)
            && (RefCount(s, h) == 0 ==> c.Path(h) !in t.files && GetChunk(c, t, filter, h).None?)
            && (RefCount(s, h) > 0 ==> GetChunk(c, t, filter, h).Some? && c.hash(GetChunk(c, t, filter, h).value) == h)
  {
    BatchedCollects(c, env, s, order);
    CollectionIsSafe(c, env, s, order, Stop.Complete, filter);
    ReadsIff(c, Collect(c, env, s, order).store, filter, h);
    if IsZero(s, h) {
      assert GarbageFile(c, s, c.Path(h));
    }
  }

  // ---- The round trip ----

  // Every chunk a manifest names has a positive count.
  ghost predicate AllReferenced(s: Store, chunks: seq<ChunkInfo>) {
    forall h: Hash :: h in Entries(chunks) ==> RefCount(s, h) > 0
  }

  lemma FrontReferenced(s: Store, chunks: seq<ChunkInfo>)
    requires chunks != [] && AllReferenced(s, chunks)
    ensures AllReferenced(s, chunks[..|chunks| - 1])
    ensures chunks[|chunks| - 1].hash.Some? ==> RefCount(s, chunks[|chunks| - 1].hash.value) > 0
  {
  }

  // Then assembling gives the described bytes exactly when no entry is empty, and fails otherwise.
  lemma {:induction false} AssembledIff(c: Config, s: Store, filter: Filter, chunks: seq<ChunkInfo>, data: Bytes, upto: nat)
    requires c.Valid() && Sound(c, s) && Covers(c, filter, s)
    requires Describes(c, chunks, data, upto) && AllReferenced(s, chunks)
    ensures upto <= |data|
    ensures Assembled(c, s, filter, chunks) == if Complete(chunks) then Some(data[..upto]) else None
  {
    if chunks != [] {
      var front, last := chunks[..|chunks| - 1], chunks[|chunks| - 1];
      FrontReferenced(s, chunks);
      CompleteSplit(chunks);
      AssembledIff(c, s, filter, front, data, last.offset);
      if last.hash.Some? {
        ReadsBack(c, s, filter, data[last.offset..upto]);
        assert data[..last.offset] + data[last.offset..upto] == data[..upto];
      }
    }
  }

  lemma ReadBackIff(c: Config, w: Cloud, l: Ledger, key: ObjectKey)
    requires c.Valid() && Invariant(c, w, l) && key in w.objects
    ensures GetObject(c, w, key) == if Complete(w.objects[key].chunks) then Some(l.saved[key].data) else None
  {
    var chunks, data := w.objects[key].chunks, l.saved[key].data;
    assert ObjectMatches(c, w.objects[key], l.saved[key]);
    forall h: Hash | h in Entries(chunks)
      ensures RefCount(w.store, h) > 0
    {
      SumSplit(w.objects, ManifestRefs(h), key);
    }
    assert AllReferenced(w.store, chunks);
    AssembledIff(c, w.store, w.filter, chunks, data, |data|);
    assert data[..|data|] == data;
  }

  function Empty(filter: Filter): Cloud {
    Cloud(Store(map[], map[]), filter, map[], map[], multiset{})
  }

  // After any interleaving of chunked puts, removals, releases, complete or interrupted collections
  // and restarts: exactly the keys with a put saved and not removed since have an object. It reads back
  // the bytes of the latest such put if all its chunks were encrypted, and, exactly, if and only if every
  // chunk is in its manifest. Otherwise, and for every other key, nothing is read.
  lemma RoundTrip(c: Config, filter: Filter, ops: seq<Op>, key: ObjectKey)
    requires c.Valid()
    ensures var w := ApplyAll(c, Empty(filter), ops);
            var saved := NotedAll(BLANK, ops).saved;
            && w.objects.Keys == saved.Keys
            && (key in saved && saved[key].encrypted ==> GetObject(c, w, key) == Some(saved[key].data))
            && GetObject(c, w, key) ==
               if key in saved && Complete(w.objects[key].chunks) then Some(saved[key].data) else None
  {
    RunInvariant(c, Empty(filter), BLANK, ops);
    var w := ApplyAll(c, Empty(filter), ops);
    if key in w.objects {
      ReadBackIff(c, w, NotedAll(BLANK, ops), key);
    }
  }
}
