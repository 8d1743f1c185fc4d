/** The insert-only Bloom filter that lets the chunk store skip database lookups. */
module BloomFilters {
  import opened Base

  // murmur_hash3(item, seed): any function of the item and the seed.
  type HashFamily = (string, nat) -> nat

  function Position(hash: HashFamily, size: nat, item: string, seed: nat): (p: nat)
    requires size > 0
    ensures p < size
  {
    hash(item, seed) % size
  }

  // Whether one of the item's hash functions selects position p.
  predicate Hits(hash: HashFamily, numHashes: nat, size: nat, item: string, p: nat)
    requires size > 0
  {
    exists i | 0 <= i < numHashes :: Position(hash, size, item, i) == p
  }

  predicate MightContain(hash: HashFamily, numHashes: nat, bits: seq<bool>, item: string)
    requires |bits| > 0
  {
    forall i | 0 <= i < numHashes :: bits[Position(hash, |bits|, item, i)]
  }

  // The bits after an insertion: the old ones and those the item selects.
  function WithItem(hash: HashFamily, numHashes: nat, bits: seq<bool>, item: string): (r: seq<bool>)
    requires |bits| > 0
    ensures |r| == |bits|
  {
    seq(|bits|, p requires 0 <= p < |bits| => bits[p] || Hits(hash, numHashes, |bits|, item, p))
  }

  function Cleared(size: nat): (bits: seq<bool>)
    ensures |bits| == size
  {
    seq(size, p => false)
  }

  // No false negative: an inserted item is found, and stays found through later insertions.
  lemma InsertionKept(hash: HashFamily, numHashes: nat, bits: seq<bool>, item: string, other: string)
    requires |bits| > 0
    ensures MightContain(hash, numHashes, WithItem(hash, numHashes, bits, item), item)
    ensures MightContain(hash, numHashes, bits, other)
            ==> MightContain(hash, numHashes, WithItem(hash, numHashes, bits, item), other)
  {
  }

  function WithItems(hash: HashFamily, numHashes: nat, bits: seq<bool>, items: seq<string>): (r: seq<bool>)
    requires |bits| > 0
    ensures |r| == |bits|
  {
    if items == [] then bits
    else WithItem(hash, numHashes, WithItems(hash, numHashes, bits, items[..|items| - 1]), items[|items| - 1])
  }

  // One of the item's hash functions, reduced by the size, is p.
  ghost predicate Chooses(hash: HashFamily, numHashes: nat, size: nat, item: string, p: nat)
    requires size > 0
  {
    exists i: nat :: i < numHashes && hash(item, i) % size == p
  }

  lemma {:induction false} BitsOfItems(hash: HashFamily, numHashes: nat, size: nat, items: seq<string>, p: nat)
    requires p < size
    ensures WithItems(hash, numHashes, Cleared(size), items)[p] <==>
            exists y :: y in items && Chooses(hash, numHashes, size, y, p)
  {
    if items != [] {
      var front, last := items[..|items| - 1], items[|items| - 1];
      BitsOfItems(hash, numHashes, size, front, p);
      assert items == front + [last];
      assert Hits(hash, numHashes, size, last, p) <==> Chooses(hash, numHashes, size, last, p) by {
        HitsIsChosen(hash, numHashes, size, last, p);
      }
      assert last in items && forall y :: y in items <==> y in front || y == last;
    }
  }

  lemma HitsIsChosen(hash: HashFamily, numHashes: nat, size: nat, item: string, p: nat)
    requires size > 0
    ensures Hits(hash, numHashes, size, item, p) <==> Chooses(hash, numHashes, size, item, p)
  {
    if Chooses(hash, numHashes, size, item, p) {
      var i: nat :| i < numHashes && hash(item, i) % size == p;
      assert Position(hash, size, item, i) == p;
    }
  }

  // Some item has a hash function that lands where the seed-th one of x does.
  ghost predicate Meets(hash: HashFamily, numHashes: nat, size: nat, items: set<string>, x: string, seed: nat)
    requires size > 0
  {
    exists y, j: nat :: y in items && j < numHashes && hash(y, j) % size == hash(x, seed) % size
  }

  // Exactly which items are found after any insertions into a clear filter: those each of whose
  // positions some inserted item has. The others are not found.
  lemma FoundIff(hash: HashFamily, numHashes: nat, size: nat, items: seq<string>, x: string)
    requires size > 0
    ensures MightContain(hash, numHashes, WithItems(hash, numHashes, Cleared(size), items), x) <==>
            forall i :: 0 <= i < numHashes ==> Meets(hash, numHashes, size, SetOf(items), x, i)
  {
    var bits := WithItems(hash, numHashes, Cleared(size), items);
    forall p | 0 <= p < size
      ensures bits[p] <==> exists y :: y in SetOf(items) && Chooses(hash, numHashes, size, y, p)
    {
      BitsOfItems(hash, numHashes, size, items, p);
    }
    BitsFindIff(hash, numHashes, bits, SetOf(items), x);
  }

  // A filter whose bits are the positions of some items finds x exactly when each position of x is
  // one of theirs.
  lemma BitsFindIff(hash: HashFamily, numHashes: nat, bits: seq<bool>, items: set<string>, x: string)
    requires |bits| > 0
    requires forall p :: 0 <= p < |bits| ==>
               (bits[p] <==> exists y :: y in items && Chooses(hash, numHashes, |bits|, y, p))
    ensures MightContain(hash, numHashes, bits, x) <==>
            forall i :: 0 <= i < numHashes ==> Meets(hash, numHashes, |bits|, items, x, i)
  {
    forall i | 0 <= i < numHashes
      ensures bits[Position(hash, |bits|, x, i)] <==> Meets(hash, numHashes, |bits|, items, x, i)
    {
      var p := hash(x, i) % |bits|;
      assert Position(hash, |bits|, x, i) == p;
      if Meets(hash, numHashes, |bits|, items, x, i) {
        var y, j: nat :| y in items && j < numHashes && hash(y, j) % |bits| == p;
        assert Chooses(hash, numHashes, |bits|, y, p);
      }
    }
  }

  class BloomFilter {
    const hash: HashFamily
    const numHashes: nat
    const bits: array<bool>

    ghost predicate Valid() { bits.Length > 0 }

    constructor (hash: HashFamily, numHashes: nat, size: nat)
      requires size > 0
      ensures Valid() && fresh(bits)
      ensures this.hash == hash && this.numHashes == numHashes && bits[..] == Cleared(size)
    {
      this.hash, this.numHashes := hash, numHashes;
      bits := new bool[size](i => false);
    }

    method Insert(item: string)
      requires Valid()
      modifies bits
      ensures bits[..] == WithItem(hash, numHashes, old(bits[..]), item)
    {
      for i := 0 to numHashes
        invariant forall p :: 0 <= p < bits.Length ==>
          bits[p] == (old(bits[p]) || Hits(hash, i, bits.Length, item, p))
      {
        ghost var before := bits[..];
        var pos := Position(hash, bits.Length, item, i);
        bits[pos] := true;
        forall p | 0 <= p < bits.Length
          ensures bits[p] == (old(bits[p]) || Hits(hash, i + 1, bits.Length, item, p))
        {
          assert before[p] == (old(bits[p]) || Hits(hash, i, bits.Length, item, p));
          if p == pos {
            assert 0 <= i < i + 1 && Position(hash, bits.Length, item, i) == p;
          } else if Hits(hash, i + 1, bits.Length, item, p) {
            assert Hits(hash, i, bits.Length, item, p);
          }
        }
      }
    }

    method ProbablyContains(item: string) returns (found: bool)
      requires Valid()
      ensures found == MightContain(hash, numHashes, bits[..], item)
    {
      for i := 0 to numHashes
        invariant forall j :: 0 <= j < i ==> bits[Position(hash, bits.Length, item, j)]
      {
        if !bits[Position(hash, bits.Length, item, i)] {
          assert 0 <= i < numHashes && !bits[..][Position(hash, |bits[..]|, item, i)];
          return false;
        }
      }
      return true;
    }

    method Clear()
      modifies bits
      ensures bits[..] == Cleared(bits.Length)
    {
      for i := 0 to bits.Length
        invariant forall p :: 0 <= p < i ==> !bits[p]
      {
        bits[i] := false;
      }
    }
  }
}
