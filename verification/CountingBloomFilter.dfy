/** The counting Bloom filter: 8-bit saturating counters updated position by position. */
module CountingBloomFilters {
  import opened Base
  import opened BloomFilters

  const MAX_COUNT: Byte := 255
  const SIZE_MAX: nat := TWO_64 - 1

  // The parameters that never change after construction.
  datatype Shape = Shape(hash: HashFamily, numHashes: nat, size: nat) {
    ghost predicate Valid() { size > 0 }

    function Pos(item: string, i: nat): (p: nat)
      requires Valid()
      ensures p < size
    {
      Position(hash, size, item, i)
    }

    // How many of the item's first n hash functions select position p: one item may hit a
    // position several times.
    function HitCount(item: string, n: nat, p: nat): (c: nat)
      requires Valid()
      ensures c <= n
    {
      if n == 0 then 0
      else HitCount(item, n - 1, p) + (if Pos(item, n - 1) == p then 1 else 0)
    }

    // The hash functions among the first n that select position p.
    ghost function Selecting(item: string, n: nat, p: nat): (s: set<nat>)
      requires Valid()
    {
      set i | 0 <= i < n && hash(item, i) % size == p
    }

    // The count is their number.
    lemma {:induction false} HitCountIsNumber(item: string, n: nat, p: nat)
      requires Valid()
      ensures HitCount(item, n, p) == |Selecting(item, n, p)|
    {
      if n > 0 {
        HitCountIsNumber(item, n - 1, p);
        assert Selecting(item, n, p) ==
          Selecting(item, n - 1, p) + if hash(item, n - 1) % size == p then {n - 1} else {};
      }
    }

    // What a multiset of held items puts on position p.
    ghost function Load(held: multiset<string>, p: nat): nat
      requires Valid()
      decreases |held|
    {
      if held == multiset{} then 0
      else
        var x :| x in held;
        HitCount(x, numHashes, p) + Load(held - multiset{x}, p)
    }

    ghost predicate Bounded(held: multiset<string>)
      requires Valid()
    {
      forall p :: 0 <= p < size ==> Load(held, p) <= MAX_COUNT as nat
    }

    // Every counter is exactly the load of the held items.
    ghost predicate Exact(counters: seq<Byte>, held: multiset<string>)
      requires Valid()
    {
      |counters| == size && forall p :: 0 <= p < size ==> counters[p] as nat == Load(held, p)
    }

    function Raised(counters: seq<Byte>, item: string): (r: seq<Byte>)
      requires Valid() && |counters| == size
      ensures |r| == size
    {
      seq(size, p requires 0 <= p < size =>
        var c := counters[p] as nat + HitCount(item, numHashes, p);
        if c <= MAX_COUNT as nat then c as Byte else MAX_COUNT)
    }

    function Lowered(counters: seq<Byte>, item: string): (r: seq<Byte>)
      requires Valid() && |counters| == size
      ensures |r| == size
    {
      seq(size, p requires 0 <= p < size =>
        var c := counters[p] as int - HitCount(item, numHashes, p);
        if c >= 0 then c as Byte else 0)
    }

    predicate Contains(counters: seq<Byte>, item: string)
      requires Valid() && |counters| == size
    {
      forall i | 0 <= i < numHashes :: counters[Pos(item, i)] != 0
    }

    // A selected position is hit at least once.
    lemma {:induction false} SelectedIsHit(item: string, i: nat, n: nat)
      requires Valid() && i < n
      ensures HitCount(item, n, Pos(item, i)) >= 1
    {
      if i < n - 1 {
        SelectedIsHit(item, i, n - 1);
      }
    }

    // Items may be counted in any order.
    lemma {:induction false} LoadSplit(held: multiset<string>, x: string, p: nat)
      requires Valid() && x in held
      ensures Load(held, p) == HitCount(x, numHashes, p) + Load(held - multiset{x}, p)
      decreases |held|
    {
      var c :| c in held && Load(held, p) == HitCount(c, numHashes, p) + Load(held - multiset{c}, p);
      if c != x {
        LoadSplit(held - multiset{c}, x, p);
        assert held - multiset{c} - multiset{x} == held - multiset{x} - multiset{c};
        LoadSplit(held - multiset{x}, c, p);
      }
    }

    lemma LoadAdd(held: multiset<string>, x: string, p: nat)
      requires Valid()
      ensures Load(held + multiset{x}, p) == HitCount(x, numHashes, p) + Load(held, p)
    {
      LoadSplit(held + multiset{x}, x, p);
      assert held + multiset{x} - multiset{x} == held;
    }

    // An item held m times loads each of its positions at least m times.
    lemma {:induction false} LoadCoversMultiplicity(held: multiset<string>, x: string, i: nat)
      requires Valid() && i < numHashes
      ensures Load(held, Pos(x, i)) >= held[x]
      decreases |held|
    {
      if x in held {
        SelectedIsHit(x, i, numHashes);
        LoadSplit(held, x, Pos(x, i));
        LoadCoversMultiplicity(held - multiset{x}, x, i);
      }
    }

    // One insertion into an exact filter gives an exact filter if and only if no position's load
    // passes 255.
    lemma InsertExactIff(counters: seq<Byte>, held: multiset<string>, x: string)
      requires Valid() && Exact(counters, held)
      ensures Exact(Raised(counters, x), held + multiset{x}) <==> Bounded(held + multiset{x})
    {
      forall p | 0 <= p < size
        ensures Load(held + multiset{x}, p) == counters[p] as nat + HitCount(x, numHashes, p)
      {
        LoadAdd(held, x, p);
      }
    }

    lemma RemoveExact(counters: seq<Byte>, held: multiset<string>, x: string)
      requires Valid() && Exact(counters, held) && x in held
      ensures Exact(Lowered(counters, x), held - multiset{x})
    {
      forall p | 0 <= p < size
        ensures Lowered(counters, x)[p] as nat == Load(held - multiset{x}, p)
      {
        LoadSplit(held, x, p);
      }
    }

    lemma EmptyExact()
      requires Valid()
      ensures Exact(seq(size, i => 0), multiset{})
    {
    }

    ghost function Items(held: multiset<string>): set<string> { set y | y in held }

    // A position carries no load if and only if no held item selects it.
    lemma {:induction false} LoadZeroIff(held: multiset<string>, p: nat)
      requires Valid()
      ensures Load(held, p) == 0 <==> forall y :: y in held ==> Selecting(y, numHashes, p) == {}
      decreases |held|
    {
      if held != multiset{} {
        var x :| x in held;
        var rest := held - multiset{x};
        LoadSplit(held, x, p);
        LoadZeroIff(rest, p);
        HitCountIsNumber(x, numHashes, p);
        assert forall y :: y in held <==> y == x || y in rest;
      }
    }

    // Exactly which items an exact filter finds: those each of whose positions some held item selects.
    lemma ExactFoundIff(counters: seq<Byte>, held: multiset<string>, x: string)
      requires Valid() && Exact(counters, held)
      ensures Contains(counters, x) <==>
              forall i :: 0 <= i < numHashes ==> Meets(hash, numHashes, size, Items(held), x, i)
    {
      var items := Items(held);
      forall i | 0 <= i < numHashes
        ensures counters[Pos(x, i)] != 0 <==> Meets(hash, numHashes, size, items, x, i)
      {
        var p := hash(x, i) % size;
        assert Pos(x, i) == p;
        LoadZeroIff(held, p);
        if Meets(hash, numHashes, size, items, x, i) {
          var y, j: nat :| y in items && j < numHashes && hash(y, j) % size == p;
          assert j in Selecting(y, numHashes, p);
        }
        if y :| y in held && Selecting(y, numHashes, p) != {} {
          var j :| j in Selecting(y, numHashes, p);
          assert y in items && j < numHashes && hash(y, j) % size == hash(x, i) % size;
        }
      }
    }

    // No false negatives.
    lemma ExactFindsHeld(counters: seq<Byte>, held: multiset<string>, x: string)
      requires Valid() && Exact(counters, held) && x in held
      ensures Contains(counters, x)
    {
      forall i | 0 <= i < numHashes
        ensures counters[Pos(x, i)] != 0
      {
        LoadCoversMultiplicity(held, x, i);
      }
    }
  }

  datatype Op = Insert(item: string) | Remove(item: string)

  function Apply(f: Shape, counters: seq<Byte>, op: Op): (r: seq<Byte>)
    requires f.Valid() && |counters| == f.size
    ensures |r| == f.size
  {
    match op
    case Insert(x) => f.Raised(counters, x)
    case Remove(x) => f.Lowered(counters, x)
  }

  function ApplyAll(f: Shape, counters: seq<Byte>, ops: seq<Op>): (r: seq<Byte>)
    requires f.Valid() && |counters| == f.size
    ensures |r| == f.size
    decreases |ops|
  {
    if ops == [] then counters else ApplyAll(f, Apply(f, counters, ops[0]), ops[1..])
  }

  ghost function HeldAfter(held: multiset<string>, op: Op): multiset<string> {
    match op
    case Insert(x) => held + multiset{x}
    case Remove(x) => held - multiset{x}
  }

  ghost function HeldAfterAll(held: multiset<string>, ops: seq<Op>): multiset<string>
    decreases |ops|
  {
    if ops == [] then held else HeldAfterAll(HeldAfter(held, ops[0]), ops[1..])
  }

  // Only held items are removed.
  ghost predicate RemovesHeld(held: multiset<string>, ops: seq<Op>)
    decreases |ops|
  {
    ops != [] ==>
      && (ops[0].Remove? ==> ops[0].item in held)
      && RemovesHeld(HeldAfter(held, ops[0]), ops[1..])
  }

  // No position is ever loaded past 255.
  ghost predicate AlwaysBounded(f: Shape, held: multiset<string>, ops: seq<Op>)
    requires f.Valid()
    decreases |ops|
  {
    f.Bounded(held) && (ops != [] ==> AlwaysBounded(f, HeldAfter(held, ops[0]), ops[1..]))
  }

  // The counters are exact before, between and after the operations.
  ghost predicate AlwaysExact(f: Shape, counters: seq<Byte>, held: multiset<string>, ops: seq<Op>)
    requires f.Valid() && |counters| == f.size
    decreases |ops|
  {
    && f.Exact(counters, held)
    && (ops != [] ==> AlwaysExact(f, Apply(f, counters, ops[0]), HeldAfter(held, ops[0]), ops[1..]))
  }

  // Over any history of insertions and removals of held items, the counters stay exact precisely
  // when the loads stay within the counters' width.
  lemma {:induction false} ExactRunIff(f: Shape, counters: seq<Byte>, held: multiset<string>, ops: seq<Op>)
    requires f.Valid() && f.Exact(counters, held) && RemovesHeld(held, ops)
    ensures AlwaysExact(f, counters, held, ops) <==> AlwaysBounded(f, held, ops)
    decreases |ops|
  {
    if ops != [] {
      var next, now := Apply(f, counters, ops[0]), HeldAfter(held, ops[0]);
      match ops[0] {
        case Insert(x) => f.InsertExactIff(counters, held, x);
        case Remove(x) => f.RemoveExact(counters, held, x);
      }
      if f.Exact(next, now) {
        ExactRunIff(f, next, now, ops[1..]);
      }
    }
  }

  lemma {:induction false} BoundedRunEndsExact(f: Shape, counters: seq<Byte>, held: multiset<string>, ops: seq<Op>)
    requires f.Valid() && f.Exact(counters, held) && RemovesHeld(held, ops) && AlwaysBounded(f, held, ops)
    ensures f.Exact(ApplyAll(f, counters, ops), HeldAfterAll(held, ops))
    decreases |ops|
  {
    if ops != [] {
      match ops[0] {
        case Insert(x) =>
          f.InsertExactIff(counters, held, x);
          assert AlwaysBounded(f, HeldAfter(held, ops[0]), ops[1..]);
        case Remove(x) => f.RemoveExact(counters, held, x);
      }
      BoundedRunEndsExact(f, Apply(f, counters, ops[0]), HeldAfter(held, ops[0]), ops[1..]);
    }
  }

  // Two bounded histories that end holding the same items end with the same array, whatever
  // the order of their operations.
  lemma OrderIrrelevant(f: Shape, ops1: seq<Op>, ops2: seq<Op>)
    requires f.Valid()
    requires RemovesHeld(multiset{}, ops1) && AlwaysBounded(f, multiset{}, ops1)
    requires RemovesHeld(multiset{}, ops2) && AlwaysBounded(f, multiset{}, ops2)
    requires HeldAfterAll(multiset{}, ops1) == HeldAfterAll(multiset{}, ops2)
    ensures ApplyAll(f, seq(f.size, i => 0), ops1) == ApplyAll(f, seq(f.size, i => 0), ops2)
  {
    f.EmptyExact();
    BoundedRunEndsExact(f, seq(f.size, i => 0), multiset{}, ops1);
    BoundedRunEndsExact(f, seq(f.size, i => 0), multiset{}, ops2);
  }

  // What saturation has lost at a position, from the history of its load alone: a load past 255 adds
  // the excess, and a removal cannot leave more lost than is loaded.
  ghost function LostAfter(f: Shape, held: multiset<string>, lost: nat, op: Op, p: nat): nat
    requires f.Valid()
  {
    var load := f.Load(HeldAfter(held, op), p);
    if op.Insert? then (if load >= lost + 255 then load - 255 else lost)
    else (if load < lost then load else lost)
  }

  ghost function Overflow(f: Shape, held: multiset<string>, lost: nat, ops: seq<Op>, p: nat): nat
    requires f.Valid()
    decreases |ops|
  {
    if ops == [] then lost
    else Overflow(f, HeldAfter(held, ops[0]), LostAfter(f, held, lost, ops[0], p), ops[1..], p)
  }

  lemma StepLosesOverflow(f: Shape, counters: seq<Byte>, held: multiset<string>, lost: nat, op: Op, p: nat)
    requires f.Valid() && |counters| == f.size && p < f.size && (op.Remove? ==> op.item in held)
    requires counters[p] as nat + lost == f.Load(held, p)
    ensures Apply(f, counters, op)[p] as nat + LostAfter(f, held, lost, op, p) == f.Load(HeldAfter(held, op), p)
  {
    match op {
      case Insert(x) => f.LoadAdd(held, x, p);
      case Remove(x) => f.LoadSplit(held, x, p);
    }
  }

  lemma {:induction false} CounterIsLoadLessOverflow(f: Shape, counters: seq<Byte>, held: multiset<string>, lost: nat, ops: seq<Op>, p: nat)
    requires f.Valid() && |counters| == f.size && p < f.size && RemovesHeld(held, ops)
    requires counters[p] as nat + lost == f.Load(held, p)
    ensures ApplyAll(f, counters, ops)[p] as nat + Overflow(f, held, lost, ops, p) == f.Load(HeldAfterAll(held, ops), p)
    decreases |ops|
  {
    if ops != [] {
      StepLosesOverflow(f, counters, held, lost, ops[0], p);
      CounterIsLoadLessOverflow(f, Apply(f, counters, ops[0]), HeldAfter(held, ops[0]),
                                LostAfter(f, held, lost, ops[0], p), ops[1..], p);
    }
  }

  // After every history, saturated or not, an item is found if and only if each of its positions is
  // loaded with more than saturation has lost there.
  lemma FoundIff(f: Shape, ops: seq<Op>, x: string)
    requires f.Valid() && RemovesHeld(multiset{}, ops)
    ensures f.Contains(ApplyAll(f, seq(f.size, i => 0), ops), x) <==>
            forall i :: 0 <= i < f.numHashes ==>
              f.Load(HeldAfterAll(multiset{}, ops), f.Pos(x, i)) > Overflow(f, multiset{}, 0, ops, f.Pos(x, i))
  {
    var empty: seq<Byte> := seq(f.size, i => 0);
    forall i | 0 <= i < f.numHashes
      ensures ApplyAll(f, empty, ops)[f.Pos(x, i)] as nat + Overflow(f, multiset{}, 0, ops, f.Pos(x, i))
           == f.Load(HeldAfterAll(multiset{}, ops), f.Pos(x, i))
    {
      CounterIsLoadLessOverflow(f, empty, multiset{}, 0, ops, f.Pos(x, i));
    }
  }

  function Repeat(op: Op, n: nat): (ops: seq<Op>)
    ensures |ops| == n && forall i :: 0 <= i < n ==> ops[i] == op
  {
    if n == 0 then [] else [op] + Repeat(op, n - 1)
  }

  lemma {:induction false} RepeatedInsert(f: Shape, counters: seq<Byte>, x: string, n: nat, i: nat)
    requires f.Valid() && |counters| == f.size && i < f.numHashes
    ensures var p := f.Pos(x, i);
            ApplyAll(f, counters, Repeat(Insert(x), n))[p] as nat
            >= if counters[p] as nat + n <= 255 then counters[p] as nat + n else 255
    decreases n
  {
    if n > 0 {
      f.SelectedIsHit(x, i, f.numHashes);
      RepeatedInsert(f, f.Raised(counters, x), x, n - 1, i);
      assert Repeat(Insert(x), n)[1..] == Repeat(Insert(x), n - 1);
    }
  }

  lemma {:induction false} RepeatedRemove(f: Shape, counters: seq<Byte>, x: string, n: nat, i: nat)
    requires f.Valid() && |counters| == f.size && i < f.numHashes
    ensures var p := f.Pos(x, i);
            ApplyAll(f, counters, Repeat(Remove(x), n))[p] as nat
            <= if counters[p] as nat >= n then counters[p] as nat - n else 0
    decreases n
  {
    if n > 0 {
      f.SelectedIsHit(x, i, f.numHashes);
      RepeatedRemove(f, f.Lowered(counters, x), x, n - 1, i);
      assert Repeat(Remove(x), n)[1..] == Repeat(Remove(x), n - 1);
    }
  }

  lemma {:induction false} ApplyAllConcat(f: Shape, counters: seq<Byte>, a: seq<Op>, b: seq<Op>)
    requires f.Valid() && |counters| == f.size
    ensures ApplyAll(f, counters, a + b) == ApplyAll(f, ApplyAll(f, counters, a), b)
    decreases |a|
  {
    if a == [] {
      assert a + b == b;
    } else {
      assert (a + b)[1..] == a[1..] + b;
      ApplyAllConcat(f, Apply(f, counters, a[0]), a[1..], b);
    }
  }

  lemma {:induction false} HeldAfterRepeat(held: multiset<string>, op: Op, n: nat, y: string)
    requires op.Remove? ==> n <= held[op.item]
    ensures HeldAfterAll(held, Repeat(op, n))[y] ==
            if y != op.item then held[y] else if op.Insert? then held[y] + n else held[y] - n
    decreases n
  {
    if n > 0 {
      assert Repeat(op, n)[1..] == Repeat(op, n - 1);
      HeldAfterRepeat(HeldAfter(held, op), op, n - 1, y);
    }
  }

  // The load bound is needed in every filter and for every item: 256 insertions and 255 removals
  // leave the item held once and not found.
  lemma SaturationLosesItem(f: Shape, x: string)
    requires f.Valid() && f.numHashes >= 1
    ensures var ops := Repeat(Insert(x), 256) + Repeat(Remove(x), 255);
            && !f.Contains(ApplyAll(f, seq(f.size, i => 0), ops), x)
            && HeldAfterAll(HeldAfterAll(multiset{}, Repeat(Insert(x), 256)), Repeat(Remove(x), 255)) == multiset{x}
  {
    var empty: seq<Byte> := seq(f.size, i => 0);
    var full := ApplyAll(f, empty, Repeat(Insert(x), 256));
    ApplyAllConcat(f, empty, Repeat(Insert(x), 256), Repeat(Remove(x), 255));
    RepeatedRemove(f, full, x, 255, 0);
    var most := HeldAfterAll(multiset{}, Repeat(Insert(x), 256));
    forall y
      ensures HeldAfterAll(most, Repeat(Remove(x), 255))[y] == if y == x then 1 else 0
    {
      HeldAfterRepeat(multiset{}, Insert(x), 256, x);
      HeldAfterRepeat(multiset{}, Insert(x), 256, y);
      HeldAfterRepeat(most, Remove(x), 255, y);
    }
    assert ApplyAll(f, full, Repeat(Remove(x), 255))[f.Pos(x, 0)] == 0;
  }

  class CountingBloomFilter {
    const shape: Shape
    const counters: array<Byte>

    ghost predicate Valid() { shape.Valid() && counters.Length == shape.size }

    constructor (shape: Shape)
      requires shape.Valid()
      ensures Valid() && this.shape == shape && fresh(counters)
      ensures shape.Exact(counters[..], multiset{})
    {
      this.shape := shape;
      counters := new Byte[shape.size](i => 0);
    }

    method Insert(item: string)
      requires Valid()
      modifies counters
      ensures counters[..] == shape.Raised(old(counters[..]), item)
    {
      for i := 0 to shape.numHashes
        invariant forall p :: 0 <= p < counters.Length ==>
          var c := old(counters[p]) as nat + shape.HitCount(item, i, p);
          counters[p] == if c <= MAX_COUNT as nat then c as Byte else MAX_COUNT
      {
        var pos := shape.Pos(item, i);
        if counters[pos] < MAX_COUNT {
          counters[pos] := counters[pos] + 1;
        }
      }
    }

    method Remove(item: string)
      requires Valid()
      modifies counters
      ensures counters[..] == shape.Lowered(old(counters[..]), item)
    {
      for i := 0 to shape.numHashes
        invariant forall p :: 0 <= p < counters.Length ==>
          var c := old(counters[p]) as int - shape.HitCount(item, i, p);
          counters[p] == if c >= 0 then c as Byte else 0
      {
        var pos := shape.Pos(item, i);
        if counters[pos] > 0 {
          counters[pos] := counters[pos] - 1;
        }
      }
    }

    method ProbablyContains(item: string) returns (found: bool)
      requires Valid()
      ensures found == shape.Contains(counters[..], item)
    {
      for i := 0 to shape.numHashes
        invariant forall j :: 0 <= j < i ==> counters[shape.Pos(item, j)] != 0
      {
        if counters[shape.Pos(item, i)] == 0 {
          return false;
        }
      }
      return true;
    }

    // The smallest of the item's counters, so never below its multiplicity in an exact filter.
    method EstimatedCount(item: string) returns (count: nat)
      requires Valid()
      ensures shape.numHashes == 0 ==> count == SIZE_MAX
      ensures forall i :: 0 <= i < shape.numHashes ==> count <= counters[shape.Pos(item, i)] as nat
      ensures shape.numHashes > 0 ==>
        exists i :: 0 <= i < shape.numHashes && count == counters[shape.Pos(item, i)] as nat
      ensures forall held: multiset<string> ::
        shape.numHashes > 0 && shape.Exact(counters[..], held) ==> count >= held[item]
    {
      count := SIZE_MAX;
      for i := 0 to shape.numHashes
        invariant i == 0 ==> count == SIZE_MAX
        invariant forall j :: 0 <= j < i ==> count <= counters[shape.Pos(item, j)] as nat
        invariant i > 0 ==> exists j :: 0 <= j < i && count == counters[shape.Pos(item, j)] as nat
      {
        var c := counters[shape.Pos(item, i)] as nat;
        if c < count {
          count := c;
          assert 0 <= i < i + 1 && count == counters[shape.Pos(item, i)] as nat;
        }
      }
      if shape.numHashes > 0 {
        var i :| 0 <= i < shape.numHashes && count == counters[shape.Pos(item, i)] as nat;
        forall held: multiset<string> | shape.Exact(counters[..], held)
          ensures count >= held[item]
        {
          shape.LoadCoversMultiplicity(held, item, i);
        }
      }
    }

    method Clear()
      requires Valid()
      modifies counters
      ensures shape.Exact(counters[..], multiset{})
    {
      for i := 0 to counters.Length
        invariant forall p :: 0 <= p < i ==> counters[p] == 0
      {
        counters[i] := 0;
      }
    }
  }
}
