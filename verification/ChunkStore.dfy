/** The deduplicating chunk store: reference counts, content-addressed files and the optional Bloom
    filter in front of the database lookup. */
module ChunkStores {
  import opened Base
  import opened Sealing
  import opened BloomFilters

  // A hex digest; get_chunk_path needs its first two characters.
  type Hash = h: string | |h| >= 2 witness "00"

  datatype Config = Config(
    base: string,
    hash: Bytes -> Hash,
    cipher: Cipher,
    bloomHash: HashFamily,
    bloomHashes: nat)
  {
    ghost predicate Valid() { Injective(hash) && cipher.Valid() }

    // chunk_base_path_/ab/cdef...
    function Path(h: Hash): string { base + "/" + h[..2] + "/" + h[2..] }

    lemma PathInjective(a: Hash, b: Hash)
      ensures Path(a) == Path(b) ==> a == b
    {
      if Path(a) == Path(b) {
        var n := |base| + 1;
        assert Path(a)[n..n + 2] == a[..2] && Path(b)[n..n + 2] == b[..2];
        assert Path(a)[n + 3..] == a[2..] && Path(b)[n + 3..] == b[2..];
        assert a == a[..2] + a[2..] && b == b[..2] + b[2..];
      }
    }
  }

  // A stored reference count, as text that std::stoull accepts or throws on.
  datatype RefValue = Count(n: nat) | Unparsable

  datatype Store = Store(meta: map<Hash, RefValue>, files: map<string, Bytes>)

  // The bits of the filter, or None when it is disabled.
  type Filter = f: Option<seq<bool>> | f.Some? ==> |f.value| > 0 witness None

  function RefCount(s: Store, h: Hash): nat {
    if h in s.meta && s.meta[h].Count? then s.meta[h].n else 0
  }

  predicate Parsable(s: Store) {
    forall h | h in s.meta :: s.meta[h].Count?
  }

  // probably_exists.
  predicate Passes(c: Config, filter: Filter, h: Hash) {
    filter.None? || MightContain(c.bloomHash, c.bloomHashes, filter.value, h)
  }

  function Added(c: Config, filter: Filter, h: Hash): Filter {
    if filter.None? then None else Some(WithItem(c.bloomHash, c.bloomHashes, filter.value, h))
  }

  // Thrown is the exception of std::stoull; NotEncrypted is the empty string.
  datatype StoreResult = Stored(hash: Hash, wasNew: bool) | NotEncrypted | Thrown

  // What happens to the two writes whose status StoreChunk ignores: a file write that fails leaves
  // some other bytes, and a Put that fails leaves the count.
  datatype Disk = Disk(fileOk: bool, torn: Bytes, putOk: bool)

  const GOOD_DISK: Disk := Disk(true, [], true)

  function StoreChunkOn(c: Config, s: Store, filter: Filter, data: Bytes, iv: Iv, encryptOk: bool, disk: Disk)
    : (Store, Filter, StoreResult)
  {
    var h := c.hash(data);
    if Passes(c, filter, h) && h in s.meta && s.meta[h].Unparsable? then (s, filter, Thrown)
    else if Passes(c, filter, h) && RefCount(s, h) > 0 then
      (if disk.putOk then s.(meta := s.meta[h := Count(RefCount(s, h) + 1)]) else s, filter, Stored(h, false))
    else if !encryptOk then (s, Added(c, filter, h), NotEncrypted)
    else
      var files := s.files[c.Path(h) := if disk.fileOk then c.cipher.Seal(iv, data) else disk.torn];
      (Store(if disk.putOk then s.meta[h := Count(1)] else s.meta, files), Added(c, filter, h), Stored(h, true))
  }

  // StoreChunk when both writes succeed.
  function StoreChunk(c: Config, s: Store, filter: Filter, data: Bytes, iv: Iv, encryptOk: bool)
    : (Store, Filter, StoreResult)
  {
    StoreChunkOn(c, s, filter, data, iv, encryptOk, GOOD_DISK)
  }

  function GetChunk(c: Config, s: Store, filter: Filter, h: Hash): Option<Bytes> {
    if !Passes(c, filter, h) || RefCount(s, h) == 0 || c.Path(h) !in s.files then None
    else c.cipher.Open(s.files[c.Path(h)])
  }

  // DecrementRef never goes below zero; a zero is left for the garbage collector.
  function Decremented(s: Store, h: Hash): Store {
    if RefCount(s, h) > 0 then s.(meta := s.meta[h := Count(RefCount(s, h) - 1)]) else s
  }

  // ---- Soundness ----

  // A file holds the chunk with that hash.
  predicate Readable(c: Config, s: Store, h: Hash) {
    && c.Path(h) in s.files
    && c.cipher.Open(s.files[c.Path(h)]).Some?
    && c.hash(c.cipher.Open(s.files[c.Path(h)]).value) == h
  }

  ghost predicate Sound(c: Config, s: Store) {
    forall h: Hash :: RefCount(s, h) > 0 ==> Readable(c, s, h)
  }

  // The filter passes every hash with a positive count.
  ghost predicate Covers(c: Config, filter: Filter, s: Store) {
    forall h: Hash :: RefCount(s, h) > 0 ==> Passes(c, filter, h)
  }

  // In a sound store with a covering filter a referenced chunk reads back as the only bytes with
  // its hash.
  lemma ReadsBack(c: Config, s: Store, filter: Filter, data: Bytes)
    requires c.Valid() && Sound(c, s) && Covers(c, filter, s) && RefCount(s, c.hash(data)) > 0
    ensures GetChunk(c, s, filter, c.hash(data)) == Some(data)
  {
  }

  // Exactly what reads: the bytes with that hash, if and only if the hash is referenced. Every
  // unreferenced hash reads nothing.
  lemma ReadsIff(c: Config, s: Store, filter: Filter, h: Hash)
    requires c.Valid() && Sound(c, s) && Covers(c, filter, s)
    ensures forall d :: GetChunk(c, s, filter, h) == Some(d) <==> RefCount(s, h) > 0 && c.hash(d) == h
    ensures GetChunk(c, s, filter, h).None? <==> RefCount(s, h) == 0
  {
    if RefCount(s, h) > 0 {
      assert Readable(c, s, h);
    }
  }

  lemma AddedPasses(c: Config, filter: Filter, h: Hash)
    ensures Passes(c, Added(c, filter, h), h)
    ensures forall g: Hash :: Passes(c, filter, g) ==> Passes(c, Added(c, filter, h), g)
  {
  }

  // One store adds exactly one reference to exactly its own hash, rewrites the file of a chunk whose
  // count was zero, and keeps every invariant.
  lemma StoreChunkEffect(c: Config, s: Store, filter: Filter, data: Bytes, iv: Iv, encryptOk: bool)
    requires c.Valid() && Sound(c, s) && Parsable(s) && Covers(c, filter, s)
    ensures var (t, f, r) := StoreChunk(c, s, filter, data, iv, encryptOk);
            && Sound(c, t) && Parsable(t) && Covers(c, f, t)
            && (r.NotEncrypted? <==> RefCount(s, c.hash(data)) == 0 && !encryptOk)
            && (r.Stored? <==> !r.NotEncrypted?)
            && (r.Stored? ==> r.hash == c.hash(data) && (r.wasNew <==> RefCount(s, c.hash(data)) == 0))
            && (forall h: Hash :: RefCount(t, h) ==
                  RefCount(s, h) + if r.Stored? && h == c.hash(data) then 1 else 0)
            && (forall h: Hash :: h in t.meta <==> h in s.meta || (r.Stored? && h == c.hash(data)))
            && (forall p :: p in t.files <==> p in s.files || (r.Stored? && r.wasNew && p == c.Path(c.hash(data))))
            && (forall p :: p in s.files && !(r.Stored? && r.wasNew && p == c.Path(c.hash(data))) ==>
                  t.files[p] == s.files[p])
            && f == if RefCount(s, c.hash(data)) > 0 then filter else Added(c, filter, c.hash(data))
  {
    var (t, f, r) := StoreChunk(c, s, filter, data, iv, encryptOk);
    var own := c.hash(data);
    AddedPasses(c, filter, own);
    c.cipher.OpenSeal(iv, data);
    forall h: Hash | RefCount(t, h) > 0
      ensures Readable(c, t, h)
    {
      c.PathInjective(h, own);
      if h != own {
        assert Readable(c, s, h);
      }
    }
  }

  // A store throws exactly when the filter passes the hash and its count does not parse, and then, or
  // when encryption fails, leaves the store as it was. The two writes fail independently: without the
  // Put no count changes, and a new chunk's file is written either way.
  lemma StoreWrites(c: Config, s: Store, filter: Filter, data: Bytes, iv: Iv, encryptOk: bool, disk: Disk)
    ensures var h := c.hash(data);
            var (t, _, r) := StoreChunkOn(c, s, filter, data, iv, encryptOk, disk);
            && (r.Thrown? <==> Passes(c, filter, h) && h in s.meta && s.meta[h] == Unparsable)
            && (!r.Stored? ==> t == s)
            && (r.Stored? && !disk.putOk ==> t.meta == s.meta)
            && (r.Stored? && disk.putOk ==> t.meta == s.meta[h := Count(if r.wasNew then 1 else RefCount(s, h) + 1)])
            && (r.Stored? && !r.wasNew ==> t.files == s.files)
            && (r.Stored? && r.wasNew ==> c.Path(h) in t.files && t.files - {c.Path(h)} == s.files - {c.Path(h)})
            && (r.Stored? && r.wasNew && disk.fileOk && c.Valid() ==> Readable(c, t, h))
  {
    if c.Valid() {
      c.cipher.OpenSeal(iv, data);
    }
  }

  // Exactly when the ignored statuses matter: a stored chunk gains its reference and every referenced
  // chunk stays readable if and only if the Put succeeded and, for a new chunk, the file holds it.
  lemma StoreNeedsWritesIff(c: Config, s: Store, filter: Filter, data: Bytes, iv: Iv, disk: Disk)
    requires c.Valid() && Sound(c, s) && Parsable(s) && Covers(c, filter, s)
    ensures var h := c.hash(data);
            var (t, _, r) := StoreChunkOn(c, s, filter, data, iv, true, disk);
            && r.Stored?
            && (Sound(c, t) && RefCount(t, h) == RefCount(s, h) + 1 <==>
                 disk.putOk && (RefCount(s, h) > 0 || disk.fileOk || HoldsChunk(c, disk.torn, h)))
  {
    var h := c.hash(data);
    var (t, _, r) := StoreChunkOn(c, s, filter, data, iv, true, disk);
    c.cipher.OpenSeal(iv, data);
    forall g: Hash | g != h
      ensures RefCount(t, g) == RefCount(s, g)
      ensures RefCount(s, g) > 0 ==> Readable(c, t, g)
    {
      c.PathInjective(g, h);
      assert RefCount(s, g) > 0 ==> Readable(c, s, g);
    }
    assert RefCount(s, h) > 0 ==> Readable(c, s, h) && Readable(c, t, h);
    if RefCount(s, h) == 0 && disk.putOk {
      assert Readable(c, t, h) <==> disk.fileOk || HoldsChunk(c, disk.torn, h);
    }
  }

  predicate HoldsChunk(c: Config, file: Bytes, h: Hash) {
    c.cipher.Open(file).Some? && c.hash(c.cipher.Open(file).value) == h
  }

  lemma DecrementEffect(c: Config, s: Store, filter: Filter, h: Hash)
    requires Sound(c, s) && Parsable(s) && Covers(c, filter, s)
    ensures var t := Decremented(s, h);
            && Sound(c, t) && Parsable(t) && Covers(c, filter, t) && t.files == s.files && t.meta.Keys == s.meta.Keys
            && forall g: Hash :: RefCount(t, g) ==
                 if g == h && RefCount(s, g) > 0 then RefCount(s, g) - 1 else RefCount(s, g)
  {
    var t := Decremented(s, h);
    forall g: Hash | RefCount(t, g) > 0
      ensures Readable(c, t, g)
    {
      assert Readable(c, s, g);
    }
  }

  // ---- The filter changes nothing but speed ----

  // In a sound store the filter is invisible to readers if and only if it passes every referenced
  // hash.
  lemma FilterInvisibleIff(c: Config, s: Store, filter: Filter)
    requires Sound(c, s)
    ensures (forall h: Hash :: GetChunk(c, s, filter, h) == GetChunk(c, s, None, h)) <==> Covers(c, filter, s)
  {
    if !Covers(c, filter, s) {
      var h: Hash :| RefCount(s, h) > 0 && !Passes(c, filter, h);
      assert Readable(c, s, h);
      assert GetChunk(c, s, None, h).Some?;
    }
  }

  // load_bloom_from_db: the bits of every hash with a positive count, in a filter of the same size.
  function Loaded(c: Config, size: nat, s: Store): (bits: seq<bool>)
    requires size > 0
    ensures |bits| == size
  {
    seq(size, p requires 0 <= p < size =>
      exists h | h in s.meta :: RefCount(s, h) > 0 && Hits(c.bloomHash, c.bloomHashes, size, h, p))
  }

  function Reloaded(c: Config, filter: Filter, s: Store): Filter {
    if filter.None? then None else Some(Loaded(c, |filter.value|, s))
  }

  // The hashes with a positive count.
  ghost function Counted(s: Store): set<string> { set h | h in s.meta && RefCount(s, h) > 0 }

  // A loaded filter passes exactly the hashes each of whose positions a hash with positive count has.
  lemma LoadedPassesIff(c: Config, size: nat, s: Store, h: Hash)
    requires size > 0
    ensures Passes(c, Some(Loaded(c, size, s)), h) <==>
            forall i :: 0 <= i < c.bloomHashes ==> Meets(c.bloomHash, c.bloomHashes, size, Counted(s), h, i)
  {
    var bits := Loaded(c, size, s);
    forall p | 0 <= p < size
      ensures bits[p] <==> exists y :: y in Counted(s) && Chooses(c.bloomHash, c.bloomHashes, size, y, p)
    {
      forall y: string
        ensures Hits(c.bloomHash, c.bloomHashes, size, y, p) <==> Chooses(c.bloomHash, c.bloomHashes, size, y, p)
      {
        HitsIsChosen(c.bloomHash, c.bloomHashes, size, y, p);
      }
      if g :| g in s.meta && RefCount(s, g) > 0 && Hits(c.bloomHash, c.bloomHashes, size, g, p) {
        assert g in Counted(s) && Chooses(c.bloomHash, c.bloomHashes, size, g, p);
      }
    }
    BitsFindIff(c.bloomHash, c.bloomHashes, bits, Counted(s), h);
  }

  lemma ReloadCovers(c: Config, filter: Filter, s: Store)
    ensures Covers(c, Reloaded(c, filter, s), s)
  {
  }
}
