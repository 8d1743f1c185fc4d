/** Round-robin selection among healthy backends, with the cursor's 64-bit wrap-around. */
module LoadBalancing {
  import opened Base

  datatype Backend = Backend(addr: string, healthy: bool)

  // The values of a size_t.
  type Cursor = c: nat | c < TWO_64

  // Adding to the cursor: rr_index_.fetch_add wraps at 2^64.
  function Wrap(cursor: nat): (c: Cursor)
    requires cursor < 2 * TWO_64
  {
    if cursor < TWO_64 then cursor else cursor - TWO_64
  }

  // x % n by repeated subtraction, which keeps the scan's proofs linear (RemainderIsMod).
  function Remainder(x: nat, n: nat): (r: nat)
    requires n > 0
    ensures r < n
    decreases x
  {
    if x < n then x else Remainder(x - n, n)
  }

  lemma {:induction false} RemainderIsMod(x: nat, n: nat)
    requires n > 0
    ensures Remainder(x, n) == x % n
    decreases x
  {
    if x >= n {
      RemainderIsMod(x - n, n);
      MultiplePlus(1, x - n, n);
    } else {
      DivisionUnique(x, 0, x, n);
    }
  }

  // The loop of GetNextHealthyBackend: each try takes the next cursor value.
  function Scan(backends: seq<Backend>, cursor: Cursor, tries: nat): (Option<nat>, Cursor)
    requires backends != []
    decreases tries
  {
    if tries == 0 then (None, cursor)
    else
      var idx := Remainder(cursor, |backends|);
      if backends[idx].healthy then (Some(idx), Wrap(cursor + 1))
      else Scan(backends, Wrap(cursor + 1), tries - 1)
  }

  // One call: the index of the chosen backend, None for a null pointer, and the new cursor.
  function Call(backends: seq<Backend>, cursor: Cursor): (Option<nat>, Cursor) {
    if backends == [] then (None, cursor) else Scan(backends, cursor, |backends|)
  }

  // The results of consecutive sequential calls.
  function Calls(backends: seq<Backend>, cursor: Cursor, n: nat): (r: seq<Option<nat>>)
    ensures |r| == n
    decreases n
  {
    if n == 0 then []
    else
      var (chosen, next) := Call(backends, cursor);
      [chosen] + Calls(backends, next, n - 1)
  }

  function Healthy(backends: seq<Backend>): set<nat> {
    set i | 0 <= i < |backends| && backends[i].healthy
  }

  // The next |backends| cursor values index as if the cursor never wrapped.
  predicate Aligned(n: nat, cursor: Cursor)
    requires n > 0
  {
    cursor + n <= TWO_64 || TWO_64 % n == 0
  }

  // The index at the j-th position of a round.
  function Index(n: nat, cursor: nat, j: nat): (idx: nat)
    requires n > 0
    ensures idx < n
  {
    (cursor + j) % n
  }

  lemma RemainderUnique(x: nat, q: int, r: nat, n: nat)
    requires n > 0 && x == q * n + r && r < n
    ensures Remainder(x, n) == r
  {
    RemainderIsMod(x, n);
    DivisionUnique(x, q, r, n);
  }

  lemma MultiplePlus(k: nat, y: nat, n: nat)
    requires n > 0
    ensures (k * n + y) % n == y % n
  {
    var q := y / n;
    assert (k + q) * n == k * n + q * n;
    DivisionUnique(k * n + y, k + q, y % n, n);
  }

  lemma WrapKeepsIndex(n: nat, cursor: Cursor, i: nat)
    requires n > 0 && Aligned(n, cursor) && i < n <= TWO_64
    ensures Slot(n, cursor, i) == Index(n, cursor, i)
  {
    var y := cursor + i;
    if y < TWO_64 {
      RemainderIsMod(y, n);
    } else {
      DropMultiple(y, TWO_64, n);
      RemainderIsMod(y - TWO_64, n);
    }
  }

  lemma DropMultiple(y: nat, m: nat, n: nat)
    requires n > 0 && m <= y && m % n == 0
    ensures y % n == (y - m) % n
  {
    assert m == (m / n) * n;
    MultiplePlus(m / n, y - m, n);
  }

  // Within one round no index repeats.
  lemma RoundDistinct(n: nat, cursor: nat, i: nat, j: nat)
    requires i < j < n
    ensures Index(n, cursor, i) != Index(n, cursor, j)
  {
    if Index(n, cursor, i) == Index(n, cursor, j) {
      var d := (cursor + j) / n - (cursor + i) / n;
      assert d * n == j - i;
      SmallMultiple(d, n);
    }
  }

  // Every index comes up in the round.
  lemma RoundCovers(n: nat, cursor: nat, idx: nat) returns (i: nat)
    requires idx < n
    ensures i < n && Index(n, cursor, i) == idx
  {
    var start := cursor % n;
    i := if idx >= start then idx - start else idx + n - start;
    var q := cursor / n;
    if idx >= start {
      DivisionUnique(cursor + i, q, idx, n);
    } else {
      assert (q + 1) * n == q * n + n;
      DivisionUnique(cursor + i, q + 1, idx, n);
    }
  }

  // ---- What consecutive cursor values select ----

  // The index selected by the j-th cursor value from here, wrap included.
  function Slot(n: nat, cursor: Cursor, j: nat): (idx: nat)
    requires 0 < n <= TWO_64 && j <= n
    ensures idx < n
  {
    Remainder(Wrap(cursor + j), n)
  }

  predicate InRange(backends: seq<Backend>) { 0 < |backends| <= TWO_64 }

  // The healthy indices selected from the i-th cursor value up to the t-th.
  ghost function Hits(backends: seq<Backend>, cursor: Cursor, i: nat, t: nat): seq<nat>
    requires InRange(backends) && t <= |backends|
    decreases t - i
  {
    if i >= t then []
    else
      var idx := Slot(|backends|, cursor, i);
      (if backends[idx].healthy then [idx] else []) + Hits(backends, cursor, i + 1, t)
  }

  // Some cursor value from the i-th up to the t-th selects the healthy index x.
  predicate Selected(backends: seq<Backend>, cursor: Cursor, i: nat, t: nat, x: nat)
    requires InRange(backends) && t <= |backends|
  {
    exists j :: i <= j < t && x == Slot(|backends|, cursor, j) && backends[x].healthy
  }

  lemma SelectedStep(backends: seq<Backend>, cursor: Cursor, i: nat, t: nat, x: nat)
    requires InRange(backends) && i < t <= |backends|
    ensures Selected(backends, cursor, i, t, x) <==>
            (x == Slot(|backends|, cursor, i) && backends[x].healthy) || Selected(backends, cursor, i + 1, t, x)
  {
    if x == Slot(|backends|, cursor, i) && backends[x].healthy {
      assert i <= i < t && x == Slot(|backends|, cursor, i) && backends[x].healthy;
    }
  }

  lemma {:induction false} HitsMembers(backends: seq<Backend>, cursor: Cursor, i: nat, t: nat, x: nat)
    requires InRange(backends) && t <= |backends|
    ensures x in Hits(backends, cursor, i, t) <==> Selected(backends, cursor, i, t, x)
    decreases t - i
  {
    if i < t {
      HitsMembers(backends, cursor, i + 1, t, x);
      SelectedStep(backends, cursor, i, t, x);
    }
  }

  predicate SlotsDistinct(n: nat, cursor: Cursor, t: nat)
    requires 0 < n <= TWO_64 && t <= n
  {
    forall i, j | 0 <= i < j < t :: Slot(n, cursor, i) != Slot(n, cursor, j)
  }

  lemma {:induction false} HitsDistinct(backends: seq<Backend>, cursor: Cursor, i: nat, t: nat)
    requires InRange(backends) && t <= |backends| && SlotsDistinct(|backends|, cursor, t)
    ensures Distinct(Hits(backends, cursor, i, t))
    decreases t - i
  {
    if i < t {
      HitsDistinct(backends, cursor, i + 1, t);
      HitsMembers(backends, cursor, i + 1, t, Slot(|backends|, cursor, i));
    }
  }

  // The position after the last hit before the t-th cursor value.
  ghost function Last(backends: seq<Backend>, cursor: Cursor, i: nat, t: nat): (last: nat)
    requires InRange(backends) && i <= t <= |backends|
    ensures i <= last <= t && Hits(backends, cursor, last, t) == []
    decreases t - i
  {
    if i == t || Hits(backends, cursor, i, t) == [] then i else Last(backends, cursor, i + 1, t)
  }

  function Somes(s: seq<nat>): (r: seq<Option<nat>>)
    ensures |r| == |s|
  {
    seq(|s|, i requires 0 <= i < |s| => Some(s[i]))
  }

  // A scan finds the first hit among its tries.
  lemma {:induction false} ScanFinds(backends: seq<Backend>, cursor: Cursor, i: nat, t: nat)
    requires InRange(backends) && i <= t <= |backends|
    ensures var hits := Hits(backends, cursor, i, t);
            Scan(backends, Wrap(cursor + i), t - i).0 == if hits == [] then None else Some(hits[0])
    decreases t - i
  {
    if i < t {
      ScanFinds(backends, cursor, i + 1, t);
    }
  }

  // More tries do not change a scan that succeeds.
  lemma {:induction false} MoreTries(backends: seq<Backend>, cursor: Cursor, tries: nat, more: nat)
    requires backends != [] && tries <= more && Scan(backends, cursor, tries).0.Some?
    ensures Scan(backends, cursor, more) == Scan(backends, cursor, tries)
    decreases tries
  {
    if tries > 0 && !backends[Remainder(cursor, |backends|)].healthy {
      MoreTries(backends, Wrap(cursor + 1), tries - 1, more - 1);
    }
  }

  // A call that will hit anyway may start one unhealthy slot later.
  lemma CallSkips(backends: seq<Backend>, cursor: Cursor, i: nat, t: nat)
    requires InRange(backends) && i < t <= |backends| && Hits(backends, cursor, i + 1, t) != []
    requires !backends[Slot(|backends|, cursor, i)].healthy
    ensures Call(backends, Wrap(cursor + i)) == Call(backends, Wrap(cursor + i + 1))
  {
    var n, next := |backends|, Wrap(cursor + i + 1);
    ScanFinds(backends, cursor, i + 1, t);
    MoreTries(backends, next, t - i - 1, n - 1);
    MoreTries(backends, next, t - i - 1, n);
  }

  // Consecutive calls return the hits in turn, then continue after the last one.
  ghost predicate TakesHits(backends: seq<Backend>, cursor: Cursor, i: nat, t: nat, m: nat)
    requires InRange(backends) && i <= t <= |backends|
  {
    var hits := Hits(backends, cursor, i, t);
    Calls(backends, Wrap(cursor + i), |hits| + m) ==
    Somes(hits) + Calls(backends, Wrap(cursor + Last(backends, cursor, i, t)), m)
  }

  lemma {:induction false} CallsTakeHits(backends: seq<Backend>, cursor: Cursor, i: nat, t: nat, m: nat)
    requires InRange(backends) && i <= t <= |backends|
    ensures TakesHits(backends, cursor, i, t, m)
    decreases t - i
  {
    if Hits(backends, cursor, i, t) == [] {
      assert Last(backends, cursor, i, t) == i;
      assert Somes([]) == [];
    } else {
      CallsTakeHits(backends, cursor, i + 1, t, m);
      if backends[Slot(|backends|, cursor, i)].healthy {
        TakesHere(backends, cursor, i, t, m);
      } else {
        TakesLater(backends, cursor, i, t, m);
      }
    }
  }

  lemma TakesHere(backends: seq<Backend>, cursor: Cursor, i: nat, t: nat, m: nat)
    requires InRange(backends) && i < t <= |backends| && TakesHits(backends, cursor, i + 1, t, m)
    requires backends[Slot(|backends|, cursor, i)].healthy
    ensures TakesHits(backends, cursor, i, t, m)
  {
    HitHere(backends, cursor, i, t);
    var idx, rest := Slot(|backends|, cursor, i), Hits(backends, cursor, i + 1, t);
    CallsGoOn(backends, cursor, i, |rest| + m);
    SomesFirst(idx, rest);
    assert |[idx] + rest| + m == 1 + (|rest| + m);
  }

  lemma TakesLater(backends: seq<Backend>, cursor: Cursor, i: nat, t: nat, m: nat)
    requires InRange(backends) && i < t <= |backends| && TakesHits(backends, cursor, i + 1, t, m)
    requires !backends[Slot(|backends|, cursor, i)].healthy && Hits(backends, cursor, i, t) != []
    ensures TakesHits(backends, cursor, i, t, m)
  {
    MissHere(backends, cursor, i, t);
    CallSkips(backends, cursor, i, t);
    SameCallsFrom(backends, cursor, i, |Hits(backends, cursor, i, t)| + m);
  }

  lemma SameCallsFrom(backends: seq<Backend>, cursor: Cursor, i: nat, m: nat)
    requires InRange(backends) && i < |backends| && m > 0
    requires Call(backends, Wrap(cursor + i)) == Call(backends, Wrap(cursor + i + 1))
    ensures Calls(backends, Wrap(cursor + i), m) == Calls(backends, Wrap(cursor + (i + 1)), m)
  {
    SameCalls(backends, Wrap(cursor + i), Wrap(cursor + i + 1), m);
  }

  lemma MissHere(backends: seq<Backend>, cursor: Cursor, i: nat, t: nat)
    requires InRange(backends) && i < t <= |backends| && !backends[Slot(|backends|, cursor, i)].healthy
    ensures Hits(backends, cursor, i, t) == Hits(backends, cursor, i + 1, t)
    ensures Hits(backends, cursor, i, t) != [] ==> Last(backends, cursor, i, t) == Last(backends, cursor, i + 1, t)
  {
  }

  lemma HitHere(backends: seq<Backend>, cursor: Cursor, i: nat, t: nat)
    requires InRange(backends) && i < t <= |backends| && backends[Slot(|backends|, cursor, i)].healthy
    ensures Hits(backends, cursor, i, t) == [Slot(|backends|, cursor, i)] + Hits(backends, cursor, i + 1, t)
    ensures Last(backends, cursor, i, t) == Last(backends, cursor, i + 1, t)
  {
  }

  lemma CallsGoOn(backends: seq<Backend>, cursor: Cursor, i: nat, m: nat)
    requires InRange(backends) && i < |backends| && backends[Slot(|backends|, cursor, i)].healthy
    ensures Calls(backends, Wrap(cursor + i), 1 + m) ==
            [Some(Slot(|backends|, cursor, i))] + Calls(backends, Wrap(cursor + i + 1), m)
  {
    assert Call(backends, Wrap(cursor + i)) == (Some(Slot(|backends|, cursor, i)), Wrap(cursor + i + 1));
  }

  lemma SomesFirst(x: nat, s: seq<nat>)
    ensures Somes([x] + s) == [Some(x)] + Somes(s)
  {
    forall k | 0 <= k < |s|
      ensures Somes([x] + s)[k + 1] == Somes(s)[k]
    {
    }
  }

  lemma SameCalls(backends: seq<Backend>, a: Cursor, b: Cursor, m: nat)
    requires Call(backends, a) == Call(backends, b)
    ensures m > 0 ==> Calls(backends, a, m) == Calls(backends, b, m)
  {
  }

  lemma {:induction false} CallsPrefix(backends: seq<Backend>, cursor: Cursor, m: nat, k: nat)
    requires m <= k
    ensures Calls(backends, cursor, m) == Calls(backends, cursor, k)[..m]
    decreases m
  {
    if m > 0 {
      CallsPrefix(backends, Call(backends, cursor).1, m - 1, k - 1);
    }
  }

  // ---- One round without a harmful wrap ----

  lemma AlignedSlots(n: nat, cursor: Cursor)
    requires 0 < n <= TWO_64 && Aligned(n, cursor)
    ensures SlotsDistinct(n, cursor, n)
    ensures forall j :: 0 <= j < n ==> Slot(n, cursor, j) == Index(n, cursor, j)
  {
    forall j | 0 <= j < n
      ensures Slot(n, cursor, j) == Index(n, cursor, j)
    {
      WrapKeepsIndex(n, cursor, j);
    }
    forall i, j | 0 <= i < j < n
      ensures Slot(n, cursor, i) != Slot(n, cursor, j)
    {
      RoundDistinct(n, cursor, i, j);
    }
  }

  // The hits of an aligned round are the healthy indices, each once.
  lemma AlignedHits(backends: seq<Backend>, cursor: Cursor)
    requires InRange(backends) && Aligned(|backends|, cursor)
    ensures var hits := Hits(backends, cursor, 0, |backends|);
            Distinct(hits) && SetOf(hits) == Healthy(backends) && |hits| == |Healthy(backends)|
  {
    var n := |backends|;
    var hits := Hits(backends, cursor, 0, n);
    AlignedSlots(n, cursor);
    HitsDistinct(backends, cursor, 0, n);
    forall x
      ensures x in SetOf(hits) <==> x in Healthy(backends)
    {
      if x >= 0 {
        HitsMembers(backends, cursor, 0, n, x);
        if x in Healthy(backends) {
          var j := RoundCovers(n, cursor, x);
          assert 0 <= j < n && x == Slot(n, cursor, j) && backends[x].healthy;
        }
      }
    }
    DistinctIffSize(hits);
  }

  // ---- The wrap, in closed form ----

  // The cursor values left before the wrap, and where the wrap falls in the round.
  function Left(cursor: Cursor): nat { TWO_64 - cursor }

  lemma SlotForm(n: nat, cursor: Cursor, j: nat)
    requires 0 < n <= TWO_64 && j < n && Left(cursor) < n
    ensures var left, rem := Left(cursor), TWO_64 % n;
            Slot(n, cursor, j) ==
              if j >= left then j - left
              else if rem + j >= left then rem + j - left
              else n + rem + j - left
  {
    var left, rem, q := Left(cursor), TWO_64 % n, TWO_64 / n;
    assert TWO_64 == q * n + rem;
    if j >= left {
      RemainderUnique(j - left, 0, j - left, n);
    } else if rem + j >= left {
      RemainderUnique(cursor + j, q, rem + j - left, n);
    } else {
      assert q * n == (q - 1) * n + n;
      RemainderUnique(cursor + j, q - 1, n + rem + j - left, n);
    }
  }

  // No cursor value of the round selects such an index: the ones between what the values before the
  // wrap and those after it select.
  predicate BetweenWraps(n: nat, cursor: Cursor, i: nat)
    requires n > 0
  {
    var left, rem := Left(cursor), TWO_64 % n;
    rem <= i && n - left <= i && (left <= rem || i < n + rem - left)
  }

  // The indices a round misses: none unless it wraps at a residue other than zero, and then one
  // interval.
  function Missed(n: nat, cursor: Cursor): set<nat>
    requires n > 0
  {
    if Aligned(n, cursor) then {} else set i | 0 <= i < n && BetweenWraps(n, cursor, i)
  }

  lemma SlotNotMissed(n: nat, cursor: Cursor, j: nat)
    requires 0 < n <= TWO_64 && j < n
    ensures Slot(n, cursor, j) !in Missed(n, cursor)
  {
    if !Aligned(n, cursor) {
      SlotForm(n, cursor, j);
    }
  }

  lemma SelectedUnlessMissed(n: nat, cursor: Cursor, idx: nat) returns (j: nat)
    requires idx < n <= TWO_64 && idx !in Missed(n, cursor)
    ensures j < n && Slot(n, cursor, j) == idx
  {
    if Aligned(n, cursor) {
      j := RoundCovers(n, cursor, idx);
      WrapKeepsIndex(n, cursor, j);
    } else {
      var left, rem := Left(cursor), TWO_64 % n;
      if idx < n - left {
        j := left + idx;
      } else if left > rem && idx >= n + rem - left {
        j := idx - (n + rem - left);
      } else {
        j := left + idx - rem;
      }
      SlotForm(n, cursor, j);
    }
  }

  // Null is returned exactly when every healthy backend is missed; a backend returned is healthy.
  lemma NullIffAllMissed(backends: seq<Backend>, cursor: Cursor)
    requires |backends| <= TWO_64
    ensures Call(backends, cursor).0.None? <==>
            backends == [] || Healthy(backends) <= Missed(|backends|, cursor)
    ensures Call(backends, cursor).0.Some? ==> Call(backends, cursor).0.value in Healthy(backends)
  {
    if backends != [] {
      var n := |backends|;
      var hits := Hits(backends, cursor, 0, n);
      assert Wrap(cursor + 0) == cursor;
      ScanFinds(backends, cursor, 0, n);
      if hits != [] {
        HitsMembers(backends, cursor, 0, n, hits[0]);
        var j :| 0 <= j < n && hits[0] == Slot(n, cursor, j) && backends[hits[0]].healthy;
        SlotNotMissed(n, cursor, j);
        assert hits[0] in Healthy(backends);
      } else {
        forall x | x in Healthy(backends)
          ensures x in Missed(n, cursor)
        {
          if x !in Missed(n, cursor) {
            var j := SelectedUnlessMissed(n, cursor, x);
            HitsMembers(backends, cursor, 0, n, x);
          }
        }
      }
    }
  }

  // In particular, without a harmful wrap null means that no backend is healthy.
  lemma NullIffNoneHealthy(backends: seq<Backend>, cursor: Cursor)
    requires |backends| <= TWO_64 && (backends != [] ==> Aligned(|backends|, cursor))
    ensures Call(backends, cursor).0.None? <==> Healthy(backends) == {}
  {
    NullIffAllMissed(backends, cursor);
  }

  // At the wrap a healthy backend can be missed altogether.
  lemma WrapMissesHealthy(a: string, b: string, c: string)
    ensures var backends := [Backend(a, false), Backend(b, false), Backend(c, true)];
            Healthy(backends) == {2} && Call(backends, TWO_64 - 1).0.None?
  {
    var backends := [Backend(a, false), Backend(b, false), Backend(c, true)];
    assert TWO_64 % 3 == 1;
    assert Missed(3, TWO_64 - 1) == {2};
    NullIffAllMissed(backends, TWO_64 - 1);
  }

  // ---- Fairness, for every healthy set ----

  // The results name each healthy backend exactly once.
  ghost predicate Fair(backends: seq<Backend>, r: seq<Option<nat>>) {
    && Distinct(r)
    && (forall k :: 0 <= k < |r| ==> r[k].Some? && r[k].value in Healthy(backends))
    && (forall idx :: idx in Healthy(backends) ==> Some(idx) in r)
  }

  // The indices selected before a wrap inside the round.
  predicate BeforeWrap(n: nat, cursor: Cursor, idx: nat)
    requires n > 0
  {
    var left, rem := Left(cursor), TWO_64 % n;
    idx < n && if left <= rem then rem - left <= idx < rem else idx < rem || idx >= n + rem - left
  }

  // How many cursor values before the wrap follow the last hit before it.
  ghost function Gap(backends: seq<Backend>, cursor: Cursor): nat
    requires InRange(backends) && Left(cursor) < |backends|
  {
    Left(cursor) - Last(backends, cursor, 0, Left(cursor))
  }

  // The call that crosses the wrap has tries enough left to reach a healthy backend.
  ghost predicate CanCross(backends: seq<Backend>, cursor: Cursor)
    requires InRange(backends) && Left(cursor) < |backends|
  {
    exists x :: x in Healthy(backends) && x < |backends| - Gap(backends, cursor)
  }

  // The healthy indices selected before the wrap.
  ghost function Early(backends: seq<Backend>, cursor: Cursor): set<nat>
    requires backends != []
  {
    set x | x in Healthy(backends) && BeforeWrap(|backends|, cursor, x)
  }

  ghost predicate AllBelow(a: set<nat>, b: set<nat>) {
    forall x, y :: x in a && y in b ==> x < y
  }

  // A round is fair when it does not wrap harmfully; when all healthy backends come before the wrap;
  // or when those that do not have smaller indices than those that do, and the call that crosses the
  // wrap reaches one.
  ghost predicate FairCursor(backends: seq<Backend>, cursor: Cursor)
    requires InRange(backends)
  {
    var healthy, early := Healthy(backends), Early(backends, cursor);
    Aligned(|backends|, cursor) || early == healthy || (AllBelow(healthy - early, early) && CanCross(backends, cursor))
  }

  // A list of healthy indices without repetition and as long as the healthy set names them all.
  lemma FairList(backends: seq<Backend>, s: seq<nat>)
    requires |s| == |Healthy(backends)| && SetOf(s) <= Healthy(backends)
    ensures Fair(backends, Somes(s)) <==> Distinct(s)
  {
    var r := Somes(s);
    forall k | 0 <= k < |s|
      ensures r[k].value in Healthy(backends)
    {
      assert s[k] in SetOf(s);
    }
    if Distinct(s) {
      DistinctIffSize(s);
      FullSubset(SetOf(s), Healthy(backends));
      forall idx | idx in Healthy(backends)
        ensures Some(idx) in r
      {
        assert idx in SetOf(s);
        var k :| 0 <= k < |s| && s[k] == idx;
        assert r[k] == Some(idx);
      }
    }
    if Distinct(r) {
      forall i, j | 0 <= i < j < |s|
        ensures s[i] != s[j]
      {
        assert r[i] != r[j];
      }
    }
  }

  lemma FullSubset<T>(a: set<T>, b: set<T>)
    requires a <= b && |a| == |b|
    ensures a == b
  {
    assert b == a + (b - a) && |b| == |a| + |b - a|;
  }

  lemma AlignedFair(backends: seq<Backend>, cursor: Cursor)
    requires InRange(backends) && Aligned(|backends|, cursor)
    ensures Fair(backends, Calls(backends, cursor, |Healthy(backends)|))
  {
    var hits := Hits(backends, cursor, 0, |backends|);
    AlignedHits(backends, cursor);
    assert Wrap(cursor + 0) == cursor;
    CallsTakeHits(backends, cursor, 0, |backends|, 0);
    FairList(backends, hits);
    assert Calls(backends, cursor, |hits|) == Somes(hits);
  }

  // Before the wrap exactly these indices are selected.
  lemma SelectedBeforeWrap(n: nat, cursor: Cursor, x: nat) returns (at: nat)
    requires 0 < n <= TWO_64 && Left(cursor) < n && x < n
    ensures BeforeWrap(n, cursor, x) ==> at < Left(cursor) && Slot(n, cursor, at) == x
    ensures !BeforeWrap(n, cursor, x) ==> forall j :: 0 <= j < Left(cursor) ==> Slot(n, cursor, j) != x
  {
    var left, rem := Left(cursor), TWO_64 % n;
    forall j | 0 <= j < left
      ensures Slot(n, cursor, j) == if rem + j >= left then rem + j - left else n + rem + j - left
    {
      SlotForm(n, cursor, j);
    }
    at := 0;
    if BeforeWrap(n, cursor, x) {
      at := if left > rem && x >= n + rem - left then x - (n + rem - left) else left + x - rem;
    }
  }

  // The hits before the wrap are the healthy indices there, each once.
  lemma HitsBeforeWrap(backends: seq<Backend>, cursor: Cursor)
    requires InRange(backends) && Left(cursor) < |backends|
    ensures var pre := Hits(backends, cursor, 0, Left(cursor));
            Distinct(pre) && SetOf(pre) == Early(backends, cursor)
  {
    var n, left := |backends|, Left(cursor);
    SlotsDistinctBeforeWrap(n, cursor);
    HitsDistinct(backends, cursor, 0, left);
    forall x: nat
      ensures x in Hits(backends, cursor, 0, left) <==> x in Early(backends, cursor)
    {
      HitsMembers(backends, cursor, 0, left, x);
      if x < n {
        var at := SelectedBeforeWrap(n, cursor, x);
      }
    }
  }

  lemma SlotsDistinctBeforeWrap(n: nat, cursor: Cursor)
    requires 0 < n <= TWO_64 && Left(cursor) < n
    ensures SlotsDistinct(n, cursor, Left(cursor))
  {
    forall i, j | 0 <= i < j < Left(cursor)
      ensures Slot(n, cursor, i) != Slot(n, cursor, j)
    {
      SlotForm(n, cursor, i);
      SlotForm(n, cursor, j);
    }
  }

  // From cursor zero the hits among the first t tries are the healthy indices below t.
  lemma HitsFromZero(backends: seq<Backend>, i: nat, t: nat)
    requires InRange(backends) && t <= |backends|
    ensures forall x: nat :: x in Hits(backends, 0, i, t) <==> x in Healthy(backends) && i <= x < t
  {
    forall x: nat
      ensures x in Hits(backends, 0, i, t) <==> x in Healthy(backends) && i <= x < t
    {
      HitsMembers(backends, 0, i, t, x);
      if x in Healthy(backends) && i <= x < t {
        assert x == Slot(|backends|, 0, x);
      }
    }
  }

  ghost predicate Increasing(s: seq<nat>) {
    forall a, b :: 0 <= a < b < |s| ==> s[a] < s[b]
  }

  // They come in increasing order.
  lemma {:induction false} HitsIncrease(backends: seq<Backend>, i: nat, t: nat)
    requires InRange(backends) && t <= |backends|
    ensures Increasing(Hits(backends, 0, i, t))
    decreases t - i
  {
    if i < t {
      HitsIncrease(backends, i + 1, t);
      HitsFromZero(backends, i + 1, t);
      var rest := Hits(backends, 0, i + 1, t);
      forall b | 0 <= b < |rest|
        ensures i < rest[b]
      {
        assert rest[b] in rest;
      }
    }
  }

  lemma RoundFromZero(backends: seq<Backend>)
    requires InRange(backends)
    ensures var asc := Hits(backends, 0, 0, |backends|);
            Increasing(asc) && SetOf(asc) == Healthy(backends)
  {
    HitsFromZero(backends, 0, |backends|);
    HitsIncrease(backends, 0, |backends|);
  }

  lemma {:induction false} ScanSkipsGap(backends: seq<Backend>, cursor: Cursor, i: nat, t: nat, tries: nat)
    requires InRange(backends) && i <= t <= |backends| && Hits(backends, cursor, i, t) == [] && t - i <= tries
    ensures Scan(backends, Wrap(cursor + i), tries) == Scan(backends, Wrap(cursor + t), tries - (t - i))
    decreases t - i
  {
    if i < t {
      ScanSkipsGap(backends, cursor, i + 1, t, tries - 1);
    }
  }

  // A scan from index zero succeeds if and only if a healthy index is within its tries.
  lemma ScanFromZero(backends: seq<Backend>, tries: nat)
    requires InRange(backends) && tries <= |backends|
    ensures var result := Scan(backends, 0, tries);
            && (result.0.Some? <==> exists x :: x in Healthy(backends) && x < tries)
            && (result.0.Some? ==> result == Call(backends, 0))
  {
    var hits := Hits(backends, 0, 0, tries);
    ScanFinds(backends, 0, 0, tries);
    HitsFromZero(backends, 0, tries);
    if hits != [] {
      assert hits[0] in hits;
      MoreTries(backends, 0, tries, |backends|);
    }
  }

  // The call that crosses the wrap scans from index zero with the tries it has left.
  lemma CrossingCall(backends: seq<Backend>, cursor: Cursor)
    requires InRange(backends) && Left(cursor) < |backends|
    ensures var crossing := Call(backends, Wrap(cursor + Last(backends, cursor, 0, Left(cursor))));
            && (crossing.0.Some? <==> CanCross(backends, cursor))
            && (crossing.0.Some? ==> crossing == Call(backends, 0))
  {
    CrossingScan(backends, cursor);
    ScanFromZero(backends, |backends| - Gap(backends, cursor));
  }

  lemma CrossingScan(backends: seq<Backend>, cursor: Cursor)
    requires InRange(backends) && Left(cursor) < |backends|
    ensures Call(backends, Wrap(cursor + Last(backends, cursor, 0, Left(cursor)))) ==
            Scan(backends, 0, |backends| - Gap(backends, cursor))
  {
    CallSkipsGap(backends, cursor, Last(backends, cursor, 0, Left(cursor)), Left(cursor), 0);
  }

  lemma CallSkipsGap(backends: seq<Backend>, cursor: Cursor, i: nat, t: nat, next: Cursor)
    requires InRange(backends) && i <= t <= |backends| && Hits(backends, cursor, i, t) == []
    requires next == Wrap(cursor + t)
    ensures Call(backends, Wrap(cursor + i)) == Scan(backends, next, |backends| - (t - i))
  {
    ScanSkipsGap(backends, cursor, i, t, |backends|);
  }

  // Of an increasing list, as many first members as are outside a set avoid that set if and only if
  // those outside it come before those in it.
  lemma FirstAvoidIff(asc: seq<nat>, early: set<nat>, m: nat)
    requires Increasing(asc) && early <= SetOf(asc) && m <= |asc| && m == |SetOf(asc) - early|
    ensures SetOf(asc[..m]) !! early <==> AllBelow(SetOf(asc) - early, early)
  {
    var late, first := SetOf(asc) - early, asc[..m];
    DistinctIffSize(first);
    assert forall k :: 0 <= k < m ==> first[k] in SetOf(first);
    if SetOf(first) !! early {
      FullSubset(SetOf(first), late);
      forall x, y | x in late && y in early
        ensures x < y
      {
        assert x in SetOf(first);
        var i :| 0 <= i < m && first[i] == x;
        assert y in SetOf(asc);
        var j :| 0 <= j < |asc| && asc[j] == y;
      }
    } else if AllBelow(late, early) {
      var y :| y in SetOf(first) && y in early;
      var i :| 0 <= i < m && first[i] == y;
      LaterAreNotBefore(asc, late, i);
      DistinctIffSize(asc[..i]);
      SubsetNoLarger(late, SetOf(asc[..i]));
    }
  }

  lemma LaterAreNotBefore(asc: seq<nat>, late: set<nat>, i: nat)
    requires Increasing(asc) && i < |asc| && late <= SetOf(asc) && forall x :: x in late ==> x < asc[i]
    ensures late <= SetOf(asc[..i])
  {
    forall x | x in late
      ensures x in SetOf(asc[..i])
    {
      var j :| 0 <= j < |asc| && asc[j] == x;
      assert asc[..i][j] == x;
    }
  }

  lemma SubsetNoLarger<T>(a: set<T>, b: set<T>)
    requires a <= b
    ensures |a| <= |b|
  {
    assert b == a + (b - a) && |b| == |a| + |b - a|;
  }

  // The calls before the wrap take its hits; the next call is the one that crosses it.
  lemma CallsUpToWrap(backends: seq<Backend>, cursor: Cursor, m: nat)
    requires InRange(backends) && Left(cursor) < |backends|
    ensures var pre := Hits(backends, cursor, 0, Left(cursor));
            var at := Wrap(cursor + Last(backends, cursor, 0, Left(cursor)));
            Calls(backends, cursor, |pre| + m) == Somes(pre) + Calls(backends, at, m)
  {
    assert Wrap(cursor + 0) == cursor;
    CallsTakeHits(backends, cursor, 0, Left(cursor), m);
  }

  lemma CallsFromZero(backends: seq<Backend>, m: nat)
    requires InRange(backends) && m <= |Hits(backends, 0, 0, |backends|)|
    ensures Calls(backends, 0, m) == Somes(Hits(backends, 0, 0, |backends|)[..m])
  {
    var asc := Hits(backends, 0, 0, |backends|);
    assert Wrap(0) == 0;
    CallsPrefix(backends, 0, m, |asc|);
    CallsTakeHits(backends, 0, 0, |backends|, 0);
    assert Calls(backends, 0, |asc|) == Somes(asc);
    assert Somes(asc)[..m] == Somes(asc[..m]);
  }

  // A call that cannot cross the wrap returns null.
  lemma StoppedAtWrap(backends: seq<Backend>, cursor: Cursor, k: nat)
    requires InRange(backends) && Left(cursor) < |backends| && !CanCross(backends, cursor)
    requires |Hits(backends, cursor, 0, Left(cursor))| < k
    ensures None in Calls(backends, cursor, k)
  {
    var pre := Hits(backends, cursor, 0, Left(cursor));
    CallsUpToWrap(backends, cursor, k - |pre|);
    CrossingCall(backends, cursor);
    assert Calls(backends, cursor, k)[|pre|] == None;
  }

  // A call that can cross it goes on with the healthy indices in increasing order.
  lemma GoesOnAfterWrap(backends: seq<Backend>, cursor: Cursor, m: nat)
    requires InRange(backends) && Left(cursor) < |backends| && CanCross(backends, cursor)
    requires m <= |Hits(backends, 0, 0, |backends|)|
    ensures var pre, asc := Hits(backends, cursor, 0, Left(cursor)), Hits(backends, 0, 0, |backends|);
            Calls(backends, cursor, |pre| + m) == Somes(pre + asc[..m])
  {
    CallsUpToWrap(backends, cursor, m);
    CallsFromCrossing(backends, cursor, m);
    SomesJoin(Hits(backends, cursor, 0, Left(cursor)), Hits(backends, 0, 0, |backends|)[..m]);
  }

  lemma CallsFromCrossing(backends: seq<Backend>, cursor: Cursor, m: nat)
    requires InRange(backends) && Left(cursor) < |backends| && CanCross(backends, cursor)
    requires m <= |Hits(backends, 0, 0, |backends|)|
    ensures Calls(backends, Wrap(cursor + Last(backends, cursor, 0, Left(cursor))), m) ==
            Somes(Hits(backends, 0, 0, |backends|)[..m])
  {
    CrossingCall(backends, cursor);
    CallsFromZero(backends, m);
    if m > 0 {
      SameCalls(backends, Wrap(cursor + Last(backends, cursor, 0, Left(cursor))), 0, m);
    }
  }

  lemma SomesJoin(a: seq<nat>, b: seq<nat>)
    ensures Somes(a) + Somes(b) == Somes(a + b)
  {
  }

  lemma WrappedFairIff(backends: seq<Backend>, cursor: Cursor)
    requires InRange(backends) && !Aligned(|backends|, cursor)
    ensures Fair(backends, Calls(backends, cursor, |Healthy(backends)|)) <==> FairCursor(backends, cursor)
  {
    var pre, healthy := Hits(backends, cursor, 0, Left(cursor)), Healthy(backends);
    HitsBeforeWrap(backends, cursor);
    DistinctIffSize(pre);
    SubsetNoLarger(SetOf(pre), healthy);
    if |pre| == |healthy| {
      AllEarlyFair(backends, cursor);
    } else if CanCross(backends, cursor) {
      AcrossFairIff(backends, cursor);
    } else {
      StoppedAtWrap(backends, cursor, |healthy|);
    }
  }

  lemma AllEarlyFair(backends: seq<Backend>, cursor: Cursor)
    requires InRange(backends) && Left(cursor) < |backends|
    requires |Hits(backends, cursor, 0, Left(cursor))| == |Healthy(backends)|
    ensures Fair(backends, Calls(backends, cursor, |Healthy(backends)|))
    ensures Early(backends, cursor) == Healthy(backends)
  {
    var pre := Hits(backends, cursor, 0, Left(cursor));
    HitsBeforeWrap(backends, cursor);
    DistinctIffSize(pre);
    FullSubset(SetOf(pre), Healthy(backends));
    CallsUpToWrap(backends, cursor, 0);
    assert Calls(backends, cursor, |pre|) == Somes(pre);
    FairList(backends, pre);
  }

  lemma AcrossFairIff(backends: seq<Backend>, cursor: Cursor)
    requires InRange(backends) && Left(cursor) < |backends| && CanCross(backends, cursor)
    ensures var healthy, early := Healthy(backends), Early(backends, cursor);
            Fair(backends, Calls(backends, cursor, |healthy|)) <==> AllBelow(healthy - early, early)
  {
    var pre, asc := Hits(backends, cursor, 0, Left(cursor)), Hits(backends, 0, 0, |backends|);
    HitsBeforeWrap(backends, cursor);
    RoundFromZero(backends);
    JoinedFairIff(backends, pre, asc);
    GoesOnAfterWrap(backends, cursor, |asc| - |pre|);
  }

  // Some of the healthy indices, then as many as are missing counted from the least healthy one:
  // fair if and only if the missing ones are smaller.
  lemma JoinedFairIff(backends: seq<Backend>, pre: seq<nat>, asc: seq<nat>)
    requires Distinct(pre) && Increasing(asc)
    requires SetOf(pre) <= Healthy(backends) == SetOf(asc)
    ensures |pre| <= |asc| == |Healthy(backends)|
    ensures Fair(backends, Somes(pre + asc[..|asc| - |pre|])) <==> AllBelow(SetOf(asc) - SetOf(pre), SetOf(pre))
  {
    DistinctIffSize(asc);
    DistinctIffSize(pre);
    SubsetNoLarger(SetOf(pre), SetOf(asc));
    var m := |asc| - |pre|;
    var first := asc[..m];
    assert SetOf(first) <= SetOf(asc);
    assert SetOf(pre + first) == SetOf(pre) + SetOf(first);
    FirstAvoidIff(asc, SetOf(pre), m);
    JoinDistinctIff(pre, first);
    FairList(backends, pre + first);
  }

  // A joined list repeats nothing if and only if its halves share nothing.
  lemma JoinDistinctIff(a: seq<nat>, b: seq<nat>)
    requires Distinct(a) && Distinct(b)
    ensures Distinct(a + b) <==> SetOf(a) !! SetOf(b)
  {
    DistinctIffSize(a);
    DistinctIffSize(b);
    DistinctIffSize(a + b);
    assert SetOf(a + b) == SetOf(a) + SetOf(b);
  }

  // Round-robin fairness, for every backend list, healthy set and cursor: while the healthy set is
  // fixed, as many consecutive calls as there are healthy backends return each of them exactly once
  // if and only if the cursor is fair.
  lemma RoundRobinFairIff(backends: seq<Backend>, cursor: Cursor)
    requires InRange(backends)
    ensures Fair(backends, Calls(backends, cursor, |Healthy(backends)|)) <==> FairCursor(backends, cursor)
  {
    if Aligned(|backends|, cursor) {
      AlignedFair(backends, cursor);
    } else {
      WrappedFairIff(backends, cursor);
    }
  }

  // ---- All backends healthy ----

  predicate AllHealthy(backends: seq<Backend>) {
    backends != [] && forall i | 0 <= i < |backends| :: backends[i].healthy
  }

  lemma {:induction false} AllHealthyCalls(backends: seq<Backend>, cursor: Cursor, n: nat, i: nat)
    requires AllHealthy(backends) && i < n <= TWO_64
    ensures Calls(backends, cursor, n)[i] == Some(Remainder(Wrap(cursor + i), |backends|))
    decreases n
  {
    HealthyCall(backends, cursor);
    if i > 0 {
      AllHealthyCalls(backends, Wrap(cursor + 1), n - 1, i - 1);
    }
  }

  lemma HealthyCall(backends: seq<Backend>, cursor: Cursor)
    requires AllHealthy(backends)
    ensures Call(backends, cursor) == (Some(Remainder(cursor, |backends|)), Wrap(cursor + 1))
  {
    assert backends[Remainder(cursor, |backends|)].healthy;
  }

  lemma AlignedRoundFair(backends: seq<Backend>, cursor: Cursor, i: nat, j: nat)
    requires AllHealthy(backends) && |backends| <= TWO_64 && Aligned(|backends|, cursor) && i < j < |backends|
    ensures Calls(backends, cursor, |backends|)[i] != Calls(backends, cursor, |backends|)[j]
  {
    var n := |backends|;
    AllHealthyCalls(backends, cursor, n, i);
    AllHealthyCalls(backends, cursor, n, j);
    WrapKeepsIndex(n, cursor, i);
    WrapKeepsIndex(n, cursor, j);
    RoundDistinct(n, cursor, i, j);
  }

  // A wrap inside the round, at a residue other than zero, makes two cursor values of the round
  // select one index: left values remain before the wrap.
  lemma WrapRepeats(n: nat, cursor: Cursor) returns (i: nat, j: nat)
    requires 0 < n <= TWO_64 && !Aligned(n, cursor)
    ensures i < j < n && Slot(n, cursor, i) == Slot(n, cursor, j)
  {
    var left, rem := Left(cursor), TWO_64 % n;
    i, j := if left >= rem then left - rem else 0, if left >= rem then left else rem;
    SlotForm(n, cursor, i);
    SlotForm(n, cursor, j);
  }

  // With all backends healthy, a round of calls is fair if and only if the cursor does not wrap
  // within it or the number of backends divides 2^64.
  lemma {:induction false} AllHealthyFairIff(backends: seq<Backend>, cursor: Cursor)
    requires AllHealthy(backends) && |backends| <= TWO_64
    ensures Distinct(Calls(backends, cursor, |backends|)) <==> Aligned(|backends|, cursor)
  {
    var n := |backends|;
    if Aligned(n, cursor) {
      forall i, j | 0 <= i < j < n
        ensures Calls(backends, cursor, n)[i] != Calls(backends, cursor, n)[j]
      {
        AlignedRoundFair(backends, cursor, i, j);
      }
    } else {
      var i, j := WrapRepeats(n, cursor);
      AllHealthyCalls(backends, cursor, n, i);
      AllHealthyCalls(backends, cursor, n, j);
      assert Calls(backends, cursor, n)[i] == Calls(backends, cursor, n)[j];
    }
  }

  class LoadBalancer {
    var backends: seq<Backend>
    var rrIndex: Cursor

    constructor (addresses: seq<string>)
      ensures rrIndex == 0 && |backends| == |addresses|
      ensures forall i :: 0 <= i < |addresses| ==> backends[i] == Backend(addresses[i], true)
    {
      backends := seq(|addresses|, i requires 0 <= i < |addresses| => Backend(addresses[i], true));
      rrIndex := 0;
    }

    method AddBackend(addr: string)
      modifies this`backends
      ensures backends == old(backends) + [Backend(addr, true)]
    {
      backends := backends + [Backend(addr, true)];
    }

    method GetNextHealthyBackend() returns (chosen: Option<nat>)
      modifies this`rrIndex
      ensures (chosen, rrIndex) == Call(backends, old(rrIndex))
    {
      var size := |backends|;
      if size == 0 {
        return None;
      }
      for i := 0 to size
        invariant Scan(backends, rrIndex, size - i) == Scan(backends, old(rrIndex), size)
      {
        RemainderIsMod(rrIndex, size);
        var idx := rrIndex % size;
        rrIndex := Wrap(rrIndex + 1);
        if backends[idx].healthy {
          return Some(idx);
        }
      }
      return None;
    }
  }
}
