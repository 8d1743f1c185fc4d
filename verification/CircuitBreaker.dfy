/** The per-endpoint circuit breaker of the replication engine. Times are steady-clock nanoseconds. */
module CircuitBreakers {
  const FAILURE_THRESHOLD: nat := 5
  const OPEN_TIMEOUT: nat := 5 * 60 * 1_000_000_000

  datatype CircuitState = Closed | Open | HalfOpen

  datatype Breaker = Breaker(state: CircuitState, failureCount: nat, lastFailure: int, nextProbe: int) {
    // Whether should_attempt_replication lets an attempt through.
    predicate Grants(now: int) {
      state != Open || now >= nextProbe
    }

    // The breaker after should_attempt_replication: an expired Open breaker starts probing.
    function Asked(now: int): Breaker {
      if state == Open && now >= nextProbe then this.(state := HalfOpen, failureCount := 0) else this
    }

    function Succeeded(): Breaker {
      if state != Closed then this.(state := Closed, failureCount := 0) else this
    }

    function Failed(now: int): Breaker {
      var b := this.(failureCount := failureCount + 1, lastFailure := now);
      match state
      case Closed =>
        if b.failureCount >= FAILURE_THRESHOLD
        then b.(state := Open, nextProbe := now + OPEN_TIMEOUT)
        else b
      case HalfOpen => b.(state := Open, nextProbe := now + OPEN_TIMEOUT, failureCount := 0)
      case Open => b
    }

    predicate WellFormed() {
      state == Closed ==> failureCount < FAILURE_THRESHOLD
    }
  }

  const FRESH: Breaker := Breaker(Closed, 0, 0, 0)

  // ---- Histories: any interleaving of the three operations ----

  datatype Event = Ask(now: int) | Success(now: int) | Failure(now: int)

  function Step(b: Breaker, e: Event): Breaker {
    match e
    case Ask(now) => b.Asked(now)
    case Success(_) => b.Succeeded()
    case Failure(now) => b.Failed(now)
  }

  function Run(b: Breaker, events: seq<Event>): Breaker {
    if events == [] then b
    else Step(Run(b, events[..|events| - 1]), events[|events| - 1])
  }

  // ---- What the list of events alone says ----

  // The breaker has tripped and no success has been recorded since.
  predicate Down(events: seq<Event>)
    decreases |events|, 0
  {
    events != [] &&
    var before, e := events[..|events| - 1], events[|events| - 1];
    match e
    case Ask(_) => Down(before)
    case Success(_) => false
    case Failure(_) => Down(before) || Tally(before) + 1 >= FAILURE_THRESHOLD
  }

  // While it is down, an attempt has been let through since its latest failure counted.
  predicate Probing(events: seq<Event>)
    decreases |events|, 0
  {
    events != [] &&
    var before, e := events[..|events| - 1], events[|events| - 1];
    e.Ask? && (Probing(before) || ProbeDue(before, e.now))
  }

  predicate ProbeDue(events: seq<Event>, now: int)
    decreases |events|, 1
  {
    Down(events) && now >= TrippedAt(events) + OPEN_TIMEOUT
  }

  // The time of the failure that last tripped the breaker, or failed its probe (0 if none did).
  function TrippedAt(events: seq<Event>): int
    decreases |events|, 0
  {
    if events == [] then 0
    else
      var before, e := events[..|events| - 1], events[|events| - 1];
      if e.Failure? && (Probing(before) || (!Down(before) && Tally(before) + 1 >= FAILURE_THRESHOLD))
      then e.now
      else TrippedAt(before)
  }

  // The failures counted: since the start, the success that ended an outage, or the latest probe.
  function Tally(events: seq<Event>): nat
    decreases |events|, 0
  {
    if events == [] then 0
    else
      var before, e := events[..|events| - 1], events[|events| - 1];
      match e
      case Ask(now) => if !Probing(before) && ProbeDue(before, now) then 0 else Tally(before)
      case Success(_) => if Down(before) then 0 else Tally(before)
      case Failure(_) => if Probing(before) then 0 else Tally(before) + 1
  }

  function LastFailureAt(events: seq<Event>): int {
    if events == [] then 0
    else
      var e := events[|events| - 1];
      if e.Failure? then e.now else LastFailureAt(events[..|events| - 1])
  }

  // When the breaker is Closed, Open or HalfOpen, and what its fields hold, from the list alone.
  lemma {:induction false} FieldsTellHistory(events: seq<Event>)
    ensures var b := Run(FRESH, events);
            && b.WellFormed()
            && (b.state == Closed <==> !Down(events))
            && (b.state == HalfOpen <==> Probing(events))
            && (b.state == Open <==> Down(events) && !Probing(events))
            && b.failureCount == Tally(events) && b.lastFailure == LastFailureAt(events)
            && (b.state != Closed ==> b.nextProbe == TrippedAt(events) + OPEN_TIMEOUT)
  {
    if events != [] {
      FieldsTellHistory(events[..|events| - 1]);
    }
  }

  // ---- Recovery ----

  function Failures(events: seq<Event>): nat {
    if events == [] then 0
    else Failures(events[..|events| - 1]) + if events[|events| - 1].Failure? then 1 else 0
  }

  lemma {:induction false} RunConcat(b: Breaker, x: seq<Event>, y: seq<Event>)
    ensures Run(b, x + y) == Run(Run(b, x), y)
  {
    if y == [] {
      assert x + y == x;
    } else {
      RunConcat(b, x, y[..|y| - 1]);
      assert (x + y)[..|x + y| - 1] == x + y[..|y| - 1];
    }
  }

  // A closed breaker stays closed exactly until the failures reach the threshold, whatever else is
  // recorded in between.
  lemma {:induction false} StaysClosedIff(b: Breaker, events: seq<Event>)
    requires b.state == Closed && b.WellFormed()
    ensures (forall k :: 0 <= k <= |events| ==> Run(b, events[..k]).state == Closed) <==>
            b.failureCount + Failures(events) < FAILURE_THRESHOLD
    ensures b.failureCount + Failures(events) < FAILURE_THRESHOLD ==>
            Run(b, events).failureCount == b.failureCount + Failures(events)
  {
    assert events[..|events|] == events;
    if events == [] {
      assert forall k :: 0 <= k <= |events| ==> events[..k] == [];
    } else {
      var n := |events| - 1;
      var before := events[..n];
      StaysClosedIff(b, before);
      assert forall k :: 0 <= k <= n ==> before[..k] == events[..k];
      assert before[..n] == before;
    }
  }

  // Recovery, for every history: a success closes the breaker. From then on it lets every attempt
  // through exactly until further failures reach the threshold, those counted before a success that
  // ended no outage included.
  lemma RecoveryIff(history: seq<Event>, t: int, events: seq<Event>)
    ensures var counted := if Down(history) then 0 else Tally(history);
            && Run(FRESH, history + [Success(t)]).state == Closed
            && ((forall k :: 0 <= k <= |events| ==> Run(FRESH, history + [Success(t)] + events[..k]).state == Closed)
                <==> counted + Failures(events) < FAILURE_THRESHOLD)
            && (counted + Failures(events) < FAILURE_THRESHOLD ==>
                 forall now :: Run(FRESH, history + [Success(t)] + events).Grants(now))
  {
    var all := history + [Success(t)];
    assert all[..|history|] == history;
    FieldsTellHistory(history);
    FieldsTellHistory(all);
    StaysClosedIff(Run(FRESH, all), events);
    assert events[..|events|] == events;
    forall k | 0 <= k <= |events|
      ensures Run(FRESH, all + events[..k]) == Run(Run(FRESH, all), events[..k])
    {
      RunConcat(FRESH, all, events[..k]);
    }
  }

  predicate Ordered(events: seq<Event>) {
    forall i, j :: 0 <= i < j < |events| ==> events[i].now <= events[j].now
  }

  // Until a success is recorded, no attempt is granted before the full timeout has passed since
  // the failure that opened the breaker.
  lemma {:induction false} QuietPeriod(b: Breaker, opening: int, events: seq<Event>, now: int)
    requires b.state != Open && b.Failed(opening).state == Open
    requires Ordered([Failure(opening)] + events + [Ask(now)])
    requires forall e :: e in events ==> !e.Success?
    requires Run(b.Failed(opening), events).Grants(now)
    ensures now >= opening + OPEN_TIMEOUT
  {
    StillQuiet(b.Failed(opening), opening + OPEN_TIMEOUT, events);
    var r := Run(b.Failed(opening), events);
    if r.state != Open || r.nextProbe < opening + OPEN_TIMEOUT {
      var i :| 0 <= i < |events| && events[i].now >= opening + OPEN_TIMEOUT;
      var all := [Failure(opening)] + events + [Ask(now)];
      assert all[i + 1] == events[i] && all[|all| - 1] == Ask(now);
    }
  }

  lemma {:induction false} StillQuiet(b: Breaker, limit: int, events: seq<Event>)
    requires b.state == Open && b.nextProbe >= limit
    requires forall e :: e in events ==> !e.Success?
    ensures var r := Run(b, events);
            || (r.state == Open && r.nextProbe >= limit)
            || exists i :: 0 <= i < |events| && events[i].now >= limit
  {
    if events != [] {
      var last := |events| - 1;
      StillQuiet(b, limit, events[..last]);
      if exists i :: 0 <= i < last && events[..last][i].now >= limit {
        var i :| 0 <= i < last && events[..last][i].now >= limit;
        assert events[i].now >= limit;
      } else {
        assert events[last] in events;
      }
    }
  }

  // ---- An outage: every attempt fails ----

  // One pass of a sequential caller: it asks, and if let through its failure is recorded.
  datatype Try = Try(ask: int, fail: int)

  predicate InWindow(tries: seq<Try>, start: int, end: int) {
    tries == [] ||
    (start <= tries[0].ask <= tries[0].fail && tries[0].ask <= end && InWindow(tries[1..], tries[0].fail, end))
  }

  function AfterTry(b: Breaker, t: Try): Breaker {
    if b.Grants(t.ask) then b.Asked(t.ask).Failed(t.fail) else b.Asked(t.ask)
  }

  function Attempts(b: Breaker, tries: seq<Try>): nat
    decreases |tries|
  {
    if tries == [] then 0
    else (if b.Grants(tries[0].ask) then 1 else 0) + Attempts(AfterTry(b, tries[0]), tries[1..])
  }

  function AfterTries(b: Breaker, tries: seq<Try>): Breaker
    decreases |tries|
  {
    if tries == [] then b else AfterTries(AfterTry(b, tries[0]), tries[1..])
  }

  lemma {:induction false} TriesConcat(b: Breaker, x: seq<Try>, y: seq<Try>)
    ensures AfterTries(b, x + y) == AfterTries(AfterTries(b, x), y)
    ensures Attempts(b, x + y) == Attempts(b, x) + Attempts(AfterTries(b, x), y)
    decreases |x|
  {
    if x == [] {
      assert x + y == y;
    } else {
      assert (x + y)[1..] == x[1..] + y;
      TriesConcat(AfterTry(b, x[0]), x[1..], y);
    }
  }

  // How many attempts the breaker can still let through between now and end.
  function Budget(b: Breaker, now: int, end: int): nat
    requires b.WellFormed()
  {
    if now > end then 0
    else match b.state
      case Closed => FAILURE_THRESHOLD - b.failureCount + (end - now) / OPEN_TIMEOUT
      case HalfOpen => 1 + (end - now) / OPEN_TIMEOUT
      case Open =>
        var probe := if now >= b.nextProbe then now else b.nextProbe;
        if probe > end then 0 else 1 + (end - probe) / OPEN_TIMEOUT
  }

  lemma PeriodSteps(d: int)
    requires d >= 0
    ensures d >= OPEN_TIMEOUT ==> d / OPEN_TIMEOUT == 1 + (d - OPEN_TIMEOUT) / OPEN_TIMEOUT
    ensures d < OPEN_TIMEOUT ==> d / OPEN_TIMEOUT == 0
  {
  }

  lemma PeriodMonotone(d: int, e: int)
    requires 0 <= d <= e
    ensures d / OPEN_TIMEOUT <= e / OPEN_TIMEOUT
  {
  }

  // One try spends at least what it is granted.
  lemma TrySpends(b: Breaker, t: Try, now: int, end: int)
    requires b.WellFormed() && now <= t.ask <= t.fail && t.ask <= end
    ensures AfterTry(b, t).WellFormed()
    ensures (if b.Grants(t.ask) then 1 else 0) + Budget(AfterTry(b, t), t.fail, end) <= Budget(b, now, end)
  {
  }

  lemma {:induction false} AttemptsWithinBudget(b: Breaker, tries: seq<Try>, start: int, end: int)
    requires b.WellFormed() && InWindow(tries, start, end)
    ensures Attempts(b, tries) <= Budget(b, start, end)
    decreases |tries|
  {
    if tries != [] {
      TrySpends(b, tries[0], start, end);
      AttemptsWithinBudget(AfterTry(b, tries[0]), tries[1..], tries[0].fail, end);
    }
  }

  // The outage bound, from every reachable breaker and over every window.
  lemma OutageBound(history: seq<Event>, tries: seq<Try>, start: int, window: nat)
    requires InWindow(tries, start, start + window)
    ensures Attempts(Run(FRESH, history), tries) <= FAILURE_THRESHOLD + window / OPEN_TIMEOUT
  {
    FieldsTellHistory(history);
    OutageBoundFrom(Run(FRESH, history), tries, start, window);
  }

  lemma OutageBoundFrom(b: Breaker, tries: seq<Try>, start: int, window: nat)
    requires b.WellFormed() && InWindow(tries, start, start + window)
    ensures Attempts(b, tries) <= FAILURE_THRESHOLD + window / OPEN_TIMEOUT
  {
    AttemptsWithinBudget(b, tries, start, start + window);
    if b.state == Open && start < b.nextProbe <= start + window {
      PeriodMonotone(start + window - b.nextProbe, window);
    }
  }

  // The eager caller: it tries at once while that is allowed and otherwise when the probe is due.
  function Eager(b: Breaker, now: int, end: int): seq<Try>
    requires b.WellFormed()
    decreases Budget(b, now, end)
  {
    var at := if b.state == Open && now < b.nextProbe then b.nextProbe else now;
    if at > end then []
    else
      TrySpends(b, Try(at, at), now, end);
      [Try(at, at)] + Eager(AfterTry(b, Try(at, at)), at, end)
  }

  // The budget is exact: for every breaker and window some outage uses all of it.
  lemma {:induction false} BudgetReached(b: Breaker, now: int, end: int)
    requires b.WellFormed()
    ensures InWindow(Eager(b, now, end), now, end)
    ensures Attempts(b, Eager(b, now, end)) == Budget(b, now, end)
    decreases Budget(b, now, end)
  {
    var at := if b.state == Open && now < b.nextProbe then b.nextProbe else now;
    if at <= end {
      var t := Try(at, at);
      TrySpends(b, t, now, end);
      BudgetReached(AfterTry(b, t), at, end);
      assert Eager(b, now, end)[1..] == Eager(AfterTry(b, t), at, end);
      PeriodSteps(end - at);
    }
  }

  // A healthy breaker meets the outage bound exactly, for every window length.
  lemma OutageBoundTight(start: int, window: nat)
    ensures var tries := Eager(FRESH, start, start + window);
            && InWindow(tries, start, start + window)
            && Attempts(FRESH, tries) == FAILURE_THRESHOLD + window / OPEN_TIMEOUT
  {
    BudgetReached(FRESH, start, start + window);
  }

  // The bound needs a sequential caller: while the breaker is half open, callers that ask before
  // any result is recorded are all let through, however many have asked already.
  lemma {:induction false} ConcurrentProbesUnbounded(b: Breaker, asks: seq<Event>, now: int)
    requires b.state == HalfOpen && forall e :: e in asks ==> e.Ask?
    ensures Run(b, asks) == b && Run(b, asks).Grants(now)
  {
    if asks != [] {
      ConcurrentProbesUnbounded(b, asks[..|asks| - 1], now);
      assert asks[|asks| - 1] in asks;
    }
  }

  // ---- Several callers ----

  // k callers during an outage, each with at most one attempt outstanding: an ask needs a free
  // caller, and a recorded failure ends an outstanding attempt. No attempt succeeds.
  predicate OutageOf(k: nat, b: Breaker, outstanding: nat, events: seq<Event>, start: int, end: int)
    decreases |events|
  {
    outstanding <= k &&
    (events != [] ==>
       var e := events[0];
       && start <= e.now <= end && !e.Success?
       && (e.Ask? ==> outstanding < k) && (e.Failure? ==> outstanding > 0)
       && OutageOf(k, Step(b, e), NowOutstanding(b, outstanding, e), events[1..], e.now, end))
  }

  function NowOutstanding(b: Breaker, outstanding: nat, e: Event): nat {
    match e
    case Ask(now) => if b.Grants(now) then outstanding + 1 else outstanding
    case _ => if outstanding > 0 then outstanding - 1 else 0
  }

  function Granted(b: Breaker, events: seq<Event>): nat
    decreases |events|
  {
    if events == [] then 0
    else (if events[0].Ask? && b.Grants(events[0].now) then 1 else 0) + Granted(Step(b, events[0]), events[1..])
  }

  // What k callers with some attempts outstanding can still be granted.
  function SharedBudget(k: nat, b: Breaker, outstanding: nat, now: int, end: int): nat
    requires b.WellFormed() && outstanding <= k
  {
    if now > end then 0
    else match b.state
      case Closed => FAILURE_THRESHOLD - 1 - b.failureCount + (k - outstanding) + k * ((end - now) / OPEN_TIMEOUT)
      case HalfOpen => (k - outstanding) + k * ((end - now) / OPEN_TIMEOUT)
      case Open =>
        var probe := if now >= b.nextProbe then now else b.nextProbe;
        if probe > end then 0 else k + k * ((end - probe) / OPEN_TIMEOUT)
  }

  lemma SharedPeriods(k: nat, d: int, e: int)
    requires 0 <= d <= e
    ensures k * (d / OPEN_TIMEOUT) <= k * (e / OPEN_TIMEOUT)
  {
    PeriodMonotone(d, e);
    ProductMonotone(k, d / OPEN_TIMEOUT, e / OPEN_TIMEOUT);
  }

  lemma ProductMonotone(k: nat, x: nat, y: nat)
    requires x <= y
    ensures k * x <= k * y
  {
    assert k * y == k * x + k * (y - x);
  }

  lemma SharedReopen(k: nat, d: int)
    requires d >= OPEN_TIMEOUT
    ensures k + k * ((d - OPEN_TIMEOUT) / OPEN_TIMEOUT) == k * (d / OPEN_TIMEOUT)
  {
    PeriodSteps(d);
    var p := (d - OPEN_TIMEOUT) / OPEN_TIMEOUT;
    assert k * (1 + p) == k + k * p;
  }

  lemma SharedLater(k: nat, b: Breaker, outstanding: nat, start: int, now: int, end: int)
    requires b.WellFormed() && outstanding <= k && start <= now
    ensures SharedBudget(k, b, outstanding, now, end) <= SharedBudget(k, b, outstanding, start, end)
  {
    if now <= end {
      SharedPeriods(k, end - now, end - start);
      if b.state == Open && b.nextProbe < now {
        SharedPeriods(k, end - now, end - (if start >= b.nextProbe then start else b.nextProbe));
      }
    }
  }

  lemma SharedSpends(k: nat, b: Breaker, outstanding: nat, e: Event, end: int)
    requires b.WellFormed() && outstanding <= k && e.now <= end && !e.Success?
    requires (e.Ask? ==> outstanding < k) && (e.Failure? ==> outstanding > 0)
    ensures Step(b, e).WellFormed()
    ensures (if e.Ask? && b.Grants(e.now) then 1 else 0)
            + SharedBudget(k, Step(b, e), NowOutstanding(b, outstanding, e), e.now, end)
            <= SharedBudget(k, b, outstanding, e.now, end)
  {
    if e.Failure? && end - e.now >= OPEN_TIMEOUT {
      SharedReopen(k, end - e.now);
    }
  }

  lemma {:induction false} GrantedWithinBudget(k: nat, b: Breaker, outstanding: nat, events: seq<Event>, start: int, end: int)
    requires b.WellFormed() && OutageOf(k, b, outstanding, events, start, end)
    ensures Granted(b, events) <= SharedBudget(k, b, outstanding, start, end)
    decreases |events|
  {
    if events != [] {
      var e := events[0];
      SharedSpends(k, b, outstanding, e, end);
      SharedLater(k, b, outstanding, start, e.now, end);
      GrantedWithinBudget(k, Step(b, e), NowOutstanding(b, outstanding, e), events[1..], e.now, end);
    }
  }

  // With k callers, from every reachable breaker and over every window: at most
  // FAILURE_THRESHOLD - 1 + k * (1 + W / OPEN_TIMEOUT) attempts, which for one caller is the bound above.
  lemma SharedOutageBound(k: nat, history: seq<Event>, outstanding: nat, events: seq<Event>, start: int, window: nat)
    requires OutageOf(k, Run(FRESH, history), outstanding, events, start, start + window)
    ensures Granted(Run(FRESH, history), events) <= FAILURE_THRESHOLD - 1 + k + k * (window / OPEN_TIMEOUT)
  {
    var b := Run(FRESH, history);
    FieldsTellHistory(history);
    GrantedWithinBudget(k, b, outstanding, events, start, start + window);
    if b.state == Open && start < b.nextProbe <= start + window {
      SharedPeriods(k, start + window - b.nextProbe, window);
    }
  }

  // circuit_breakers_[endpoint]: a breaker is created on first use.
  function Lookup(breakers: map<string, Breaker>, endpoint: string): Breaker {
    if endpoint in breakers then breakers[endpoint] else FRESH
  }

  class BreakerTable {
    var breakers: map<string, Breaker>

    constructor ()
      ensures breakers == map[]
    {
      breakers := map[];
    }

    method ShouldAttempt(endpoint: string, now: int) returns (granted: bool)
      modifies this
      ensures granted == old(Lookup(breakers, endpoint)).Grants(now)
      ensures breakers == old(breakers)[endpoint := old(Lookup(breakers, endpoint)).Asked(now)]
    {
      var cb := Lookup(breakers, endpoint);
      breakers := breakers[endpoint := cb];
      if cb.state == Closed {
        return true;
      }
      if cb.state == Open {
        if now >= cb.nextProbe {
          breakers := breakers[endpoint := cb.(state := HalfOpen, failureCount := 0)];
          return true;
        }
        return false;
      }
      return true;
    }

    method RecordSuccess(endpoint: string)
      modifies this
      ensures breakers == old(breakers)[endpoint := old(Lookup(breakers, endpoint)).Succeeded()]
    {
      var cb := Lookup(breakers, endpoint);
      if cb.state != Closed {
        cb := cb.(state := Closed, failureCount := 0);
      }
      breakers := breakers[endpoint := cb];
    }

    method RecordFailure(endpoint: string, now: int)
      modifies this
      ensures breakers == old(breakers)[endpoint := old(Lookup(breakers, endpoint)).Failed(now)]
    {
      var cb := Lookup(breakers, endpoint);
      cb := cb.(failureCount := cb.failureCount + 1, lastFailure := now);
      if cb.state == Closed {
        if cb.failureCount >= FAILURE_THRESHOLD {
          cb := cb.(state := Open, nextProbe := now + OPEN_TIMEOUT);
        }
      } else if cb.state == HalfOpen {
        cb := cb.(state := Open, nextProbe := now + OPEN_TIMEOUT, failureCount := 0);
      }
      breakers := breakers[endpoint := cb];
    }
  }
}
