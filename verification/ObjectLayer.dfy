/** The object layer's PutObject and GetObject loops, and their place in the runs of DedupObjects. */
module ObjectLayer {
  import opened Base
  import opened ChunkStores
  import opened DedupObjects
  import DedupChunkStores

  // PutObject's loop from a job in progress to its end; None stands for an exception on the way.
  function JobToEnd(c: Config, s: Store, filter: Filter, j: Job, outcomes: nat -> Outcome, i: nat)
    : (Store, Filter, Option<Job>)
    decreases |j.data| - j.next
  {
    if j.next >= |j.data| then (s, filter, Some(j))
    else
      var (t, f, r) := ChunkStored(c, s, filter, j, outcomes(i));
      if r.None? then (t, f, None) else JobToEnd(c, t, f, r.value, outcomes, i + 1)
  }

  function Extended(j: Job, info: ChunkInfo): Job {
    j.(next := info.offset + info.length, chunks := j.chunks + [info])
  }

  class DedupObjectLayer {
    const dedup: DedupChunkStores.DedupChunkStore
    var objects: map<ObjectKey, Manifest>

    ghost predicate Valid() {
      dedup.Valid() && this !in dedup.Footprint()
    }

    constructor (dedup: DedupChunkStores.DedupChunkStore)
      requires dedup.Valid()
      ensures Valid() && this.dedup == dedup && objects == map[]
    {
      this.dedup := dedup;
      objects := map[];
    }

    // One turn of PutObject's loop: the chunk at offset is stored and described. None is an exception.
    method StoreNext(data: Bytes, offset: nat, o: Outcome, ghost j: Job) returns (info: Option<ChunkInfo>)
      requires Valid() && j.data == data && j.next == offset < |data|
      modifies dedup.Footprint()
      ensures (dedup.State(), dedup.FilterBits(), if info.Some? then Some(Extended(j, info.value)) else None) ==
              ChunkStored(dedup.config, old(dedup.State()), old(dedup.FilterBits()), j, o)
      ensures info.Some? ==> info.value.offset == offset && offset + info.value.length == ChunkEnd(data, offset)
    {
      var len := if CHUNK_SIZE <= |data| - offset then CHUNK_SIZE else |data| - offset;
      assert offset + len == ChunkEnd(data, offset);
      var r := dedup.StoreChunk(data[offset..offset + len], o.iv, o.encryptOk, GOOD_DISK);
      if r.Thrown? {
        return None;
      }
      return Some(ChunkInfo(if r.Stored? then Some(r.hash) else None, offset, len));
    }

    // saveOk says whether the manifest itself could be stored. A false result leaves every object as
    // it was, but not the reference counts.
    method PutObject(key: ObjectKey, data: Bytes, outcomes: nat -> Outcome, saveOk: bool) returns (ok: bool)
      requires Valid()
      modifies this, dedup.Footprint()
      ensures var (s, f, j) := JobToEnd(dedup.config, old(dedup.State()), old(dedup.FilterBits()),
                                        Job(key, data, 0, []), outcomes, 0);
              && dedup.State() == s && dedup.FilterBits() == f
              && ok == (j.Some? && saveOk)
              && objects == if ok then old(objects)[key := Manifest(j.value.chunks, |data|)] else old(objects)
    {
      var chunks: seq<ChunkInfo> := [];
      var offset: nat, i: nat, n: nat := 0, 0, 0;
      while i < |data|
        invariant i == offset < |data| || (i >= |data| && offset == |data|)
        invariant objects == old(objects)
        invariant JobToEnd(dedup.config, dedup.State(), dedup.FilterBits(), Job(key, data, offset, chunks), outcomes, n) ==
                  JobToEnd(dedup.config, old(dedup.State()), old(dedup.FilterBits()), Job(key, data, 0, []), outcomes, 0)
        decreases |data| - i
      {
        var info := StoreNext(data, offset, outcomes(n), Job(key, data, offset, chunks));
        if info.None? {
          return false;
        }
        chunks := chunks + [info.value];
        offset := offset + info.value.length;
        i := i + CHUNK_SIZE;
        n := n + 1;
      }
      if saveOk {
        objects := objects[key := Manifest(chunks, |data|)];
      }
      return saveOk;
    }

    method GetObject(key: ObjectKey) returns (data: Option<Bytes>)
      requires Valid()
      ensures data == if key in objects
                      then Assembled(dedup.config, dedup.State(), dedup.FilterBits(), objects[key].chunks)
                      else None
    {
      if key !in objects {
        return None;
      }
      var chunks := objects[key].chunks;
      var full: Bytes := [];
      for i := 0 to |chunks|
        invariant Assembled(dedup.config, dedup.State(), dedup.FilterBits(), chunks[..i]) == Some(full)
      {
        assert chunks[..i + 1][..i] == chunks[..i];
        if chunks[i].hash.None? {
          MissingChunkFails(dedup.config, dedup.State(), dedup.FilterBits(), chunks, i + 1);
          return None;
        }
        var chunk := dedup.GetChunk(chunks[i].hash.value);
        if chunk.None? {
          MissingChunkFails(dedup.config, dedup.State(), dedup.FilterBits(), chunks, i + 1);
          return None;
        }
        full := full + chunk.value;
      }
      assert chunks[..|chunks|] == chunks;
      return Some(full);
    }
  }

  lemma {:induction false} MissingChunkFails(c: Config, s: Store, filter: Filter, chunks: seq<ChunkInfo>, n: nat)
    requires n <= |chunks| && Assembled(c, s, filter, chunks[..n]).None?
    ensures Assembled(c, s, filter, chunks).None?
    decreases |chunks|
  {
    if n < |chunks| {
      assert chunks[..|chunks| - 1][..n] == chunks[..n];
      MissingChunkFails(c, s, filter, chunks[..|chunks| - 1], n);
    } else {
      assert chunks[..n] == chunks;
    }
  }

  // ---- The method is a run ----

  // The steps of a whole put: begin, one step a chunk, end.
  function ChunkOps(id: nat, length: nat, next: nat, outcomes: nat -> Outcome, i: nat, saveOk: bool): seq<Op>
    decreases length - next
  {
    if next >= length then [EndPut(id, saveOk)]
    else
      [PutChunk(id, outcomes(i))] +
      ChunkOps(id, length, if CHUNK_SIZE <= length - next then next + CHUNK_SIZE else length, outcomes, i + 1, saveOk)
  }

  lemma {:induction false} ChunkOpsRun(c: Config, w: Cloud, id: nat, outcomes: nat -> Outcome, i: nat, saveOk: bool)
    requires c.Valid() && StoreInvariant(c, w) && id in w.jobs && w.jobs[id].next <= |w.jobs[id].data|
    ensures var j := w.jobs[id];
            var r := ApplyAll(c, w, ChunkOps(id, |j.data|, j.next, outcomes, i, saveOk));
            var (s, f, end) := JobToEnd(c, w.store, w.filter, j, outcomes, i);
            && r.store == s && r.filter == f && end.Some? && end.value.data == j.data
            && r.objects == if saveOk then w.objects[j.key := Manifest(end.value.chunks, |j.data|)] else w.objects
    decreases |w.jobs[id].data| - w.jobs[id].next
  {
    var j := w.jobs[id];
    var ops := ChunkOps(id, |j.data|, j.next, outcomes, i, saveOk);
    if j.next >= |j.data| {
      var r := Apply(c, w, EndPut(id, saveOk));
      assert ops == [EndPut(id, saveOk)] && ops[1..] == [];
      assert ApplyAll(c, r, ops[1..]) == r;
    } else {
      var op := PutChunk(id, outcomes(i));
      var r := Apply(c, w, op);
      ApplyStoreInvariant(c, w, op);
      StoreChunkEffect(c, w.store, w.filter, j.data[j.next..ChunkEnd(j.data, j.next)], outcomes(i).iv, outcomes(i).encryptOk);
      var k := ChunkStored(c, w.store, w.filter, j, outcomes(i)).2.value;
      assert r.jobs[id] == k && k.key == j.key;
      assert ops[0] == op && ops[1..] == ChunkOps(id, |j.data|, k.next, outcomes, i + 1, saveOk);
      ChunkOpsRun(c, r, id, outcomes, i + 1, saveOk);
    }
  }

  // A PutObject that is not interleaved is a run of DedupObjects' steps, so the round trip holds of
  // the method.
  lemma PutObjectIsRun(c: Config, w: Cloud, id: nat, key: ObjectKey, data: Bytes, outcomes: nat -> Outcome, saveOk: bool)
    requires c.Valid() && StoreInvariant(c, w) && id !in w.jobs
    ensures var r := ApplyAll(c, w, [BeginPut(id, key, data)] + ChunkOps(id, |data|, 0, outcomes, 0, saveOk));
            var (s, f, end) := JobToEnd(c, w.store, w.filter, Job(key, data, 0, []), outcomes, 0);
            && r.store == s && r.filter == f && end.Some?
            && r.objects == if saveOk then w.objects[key := Manifest(end.value.chunks, |data|)] else w.objects
  {
    var ops := [BeginPut(id, key, data)] + ChunkOps(id, |data|, 0, outcomes, 0, saveOk);
    assert ops[1..] == ChunkOps(id, |data|, 0, outcomes, 0, saveOk);
    var r := Apply(c, w, ops[0]);
    assert r.jobs[id] == Job(key, data, 0, []);
    ChunkOpsRun(c, r, id, outcomes, 0, saveOk);
  }
}
