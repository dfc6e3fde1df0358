/** The throttle under concurrency. Reading the clock, counting and inserting are separate steps, so
    requests interleave; this module bounds by how much a limit can be exceeded.

    A request is in flight from the moment it reads the clock until it is refused, is rolled back or
    has its event inserted. */
module ThrottleRace {
  import opened Clock
  import opened Wrappers
  import opened SlidingWindow
  import opened Throttle

  datatype Phase = ClockRead | Counted

  datatype Flight = Flight(bucket: string, key: string, limit: nat, now: Micros, phase: Phase)

  /** `events` is the table; `log` is every event ever inserted, purged or not. */
  datatype World = World(events: seq<Event>, flights: map<nat, Flight>, log: seq<Event>, purgedAt: Micros)

  datatype Step =
    | Enter(id: nat, bucket: string, key: string, limit: nat, now: Micros)
    | Count(id: nat)
    | Insert(id: nat)
    | RollBack(id: nat)
    | PurgeExpired(now: Micros)

  /** Steps may come in any order. The clocks of different requests are unrelated; only the purge has
      to be in step with them: no request reads an earlier clock after it, and none is caught between
      reading an earlier clock and counting. */
  predicate Enabled(w: World, step: Step) {
    match step
    case Enter(id, _, _, _, now) => id !in w.flights && w.purgedAt <= now
    case Count(id) => id in w.flights && w.flights[id].phase == ClockRead
    case Insert(id) => id in w.flights && w.flights[id].phase == Counted
    case RollBack(id) => id in w.flights
    case PurgeExpired(now) =>
      && w.purgedAt <= now
      && forall id :: id in w.flights && w.flights[id].phase == ClockRead ==> now <= w.flights[id].now
  }

  function Next(w: World, step: Step): World
    requires step.PurgeExpired? || step.Enter? || step.id in w.flights
  {
    match step
    case Enter(id, bucket, key, limit, now) =>
        w.(flights := w.flights[id := Flight(bucket, key, limit, now, ClockRead)])
    case Count(id) =>
      var f := w.flights[id];
      if Refused(Stamps(w.events, f.bucket, f.key), f.limit, f.now)
      then w.(flights := w.flights - {id})
      else w.(flights := w.flights[id := f.(phase := Counted)])
    case Insert(id) =>
      var e := Event(w.flights[id].bucket, w.flights[id].key, w.flights[id].now);
      w.(events := w.events + [e], log := w.log + [e], flights := w.flights - {id})
    case RollBack(id) => w.(flights := w.flights - {id})
    case PurgeExpired(now) => w.(events := Keep(w.events, now - WINDOW), purgedAt := now)
  }

  /** A request that runs its steps without interruption is a `hit`: the same decision, the same table. */
  lemma UninterruptedIsHit(w: World, id: nat, bucket: string, key: string, limit: nat, now: Micros)
    requires id !in w.flights && key != ""
    ensures
      var counted := Next(Next(w, Enter(id, bucket, key, limit, now)), Count(id));
      && (id in counted.flights <==> Decide(w.events, bucket, Some(key), limit, now) == Accepted)
      && (if id in counted.flights then Next(counted, Insert(id)) else counted).events
          == AfterHit(w.events, bucket, Some(key), limit, now)
  {
  }

  // --- what is counted ------------------------------------------------------------------

  /** The weight stamped in the closed hour that starts at `start`. */
  function InHour(stamps: seq<Stamp>, start: Micros): nat {
    Between(stamps, start, start + WINDOW)
  }

  function InFlight(w: World, bucket: string, key: string): set<nat> {
    set id | id in w.flights && w.flights[id].bucket == bucket && w.flights[id].key == key
  }

  /** The requests that have passed their count and will stamp this hour. */
  function Pending(w: World, bucket: string, key: string, start: Micros): set<nat> {
    set id | id in InFlight(w, bucket, key) && w.flights[id].phase == Counted
        && start <= w.flights[id].now <= start + WINDOW
  }

  function LoggedInHour(w: World, bucket: string, key: string, start: Micros): nat {
    InHour(Stamps(w.log, bucket, key), start)
  }

  // --- the invariant --------------------------------------------------------------------

  /** What the purge has taken away can no longer be counted by anyone. */
  ghost predicate PurgedIsPast(w: World) {
    && Keep(w.events, w.purgedAt - WINDOW) == Keep(w.log, w.purgedAt - WINDOW)
    && forall id :: id in w.flights && w.flights[id].phase == ClockRead ==> w.purgedAt <= w.flights[id].now
  }

  ghost predicate LimitOf(w: World, bucket: string, key: string, limit: nat) {
    forall id :: id in InFlight(w, bucket, key) ==> w.flights[id].limit == limit
  }

  ghost predicate Bounded(w: World, bucket: string, key: string, limit: nat, k: nat) {
    forall start: Micros {:trigger LoggedInHour(w, bucket, key, start)} ::
      LoggedInHour(w, bucket, key, start) + |Pending(w, bucket, key, start)| <= limit + k - 1
  }

  ghost predicate Inv(w: World, bucket: string, key: string, limit: nat, k: nat) {
    PurgedIsPast(w) && LimitOf(w, bucket, key, limit) && Bounded(w, bucket, key, limit, k)
  }

  lemma PurgedIsPastStep(w: World, step: Step)
    requires PurgedIsPast(w) && Enabled(w, step)
    ensures PurgedIsPast(Next(w, step))
  {
    var cutoff := w.purgedAt - WINDOW;
    match step
    case Insert(id) =>
      var e := Event(w.flights[id].bucket, w.flights[id].key, w.flights[id].now);
      KeepAppend(w.events, [e], cutoff);
      KeepAppend(w.log, [e], cutoff);
    case PurgeExpired(now) =>
      KeepTwice(w.events, cutoff, now - WINDOW);
      KeepTwice(w.log, cutoff, now - WINDOW);
      KeepTwice(w.events, now - WINDOW, now - WINDOW);
    case _ =>
  }

  /** A request about to count sees every event of its hour that was ever inserted. */
  lemma CountSeesTheWholeLog(w: World, id: nat)
    requires PurgedIsPast(w) && Enabled(w, Count(id))
    ensures var f := w.flights[id];
            WeightSince(Stamps(w.events, f.bucket, f.key), f.now - WINDOW)
                == WeightSince(Stamps(w.log, f.bucket, f.key), f.now - WINDOW)
  {
    var f := w.flights[id];
    PurgedRowsAreUncounted(w.events, w.purgedAt - WINDOW, f.bucket, f.key, f.now - WINDOW);
    PurgedRowsAreUncounted(w.log, w.purgedAt - WINDOW, f.bucket, f.key, f.now - WINDOW);
  }

  lemma SubsetIsNoLarger(a: set<nat>, b: set<nat>)
    requires a <= b
    ensures |a| <= |b|
  {
    assert b == a + (b - a);
  }

  /** The heart of the bound: whoever counts last leaves at most `limit - 1` inserted before it and at
      most `k` in flight beside it. */
  lemma CountKeepsBound(w: World, id: nat, bucket: string, key: string, limit: nat, k: nat, start: Micros)
    requires Inv(w, bucket, key, limit, k) && Enabled(w, Count(id))
    requires |InFlight(w, bucket, key)| <= k
    ensures var v := Next(w, Count(id));
            LoggedInHour(v, bucket, key, start) + |Pending(v, bucket, key, start)| <= limit + k - 1
  {
    var v := Next(w, Count(id));
    var f := w.flights[id];
    assert LoggedInHour(v, bucket, key, start) == LoggedInHour(w, bucket, key, start);
    if id in v.flights && id in Pending(v, bucket, key, start) {
      CountSeesTheWholeLog(w, id);
      IntervalIsInsideWindow(Stamps(w.log, bucket, key), start, start + WINDOW, f.now - WINDOW);
      assert id in InFlight(w, bucket, key);
      SubsetIsNoLarger(Pending(v, bucket, key, start), InFlight(w, bucket, key));
    } else {
      SubsetIsNoLarger(Pending(v, bucket, key, start), Pending(w, bucket, key, start));
    }
  }

  /** The hour of a log with one more row. */
  lemma OneMoreRow(log: seq<Event>, e: Event, bucket: string, key: string, start: Micros)
    ensures InHour(Stamps(log + [e], bucket, key), start) ==
              InHour(Stamps(log, bucket, key), start)
              + if e.bucket == bucket && e.key == key && start <= e.createdAt <= start + WINDOW then 1 else 0
  {
    StampsAppend(log, [e], bucket, key);
    assert Stamps([e][1..], bucket, key) == [];
    BetweenAppend(Stamps(log, bucket, key), Stamps([e], bucket, key), start, start + WINDOW);
    if e.bucket == bucket && e.key == key {
      assert Stamps([e], bucket, key) == [Stamp(e.createdAt, 1)];
      assert InHour([Stamp(e.createdAt, 1)][1..], start) == 0;
    }
  }

  lemma InsertKeepsBound(w: World, id: nat, bucket: string, key: string, limit: nat, k: nat, start: Micros)
    requires Inv(w, bucket, key, limit, k) && Enabled(w, Insert(id))
    ensures var v := Next(w, Insert(id));
            LoggedInHour(v, bucket, key, start) + |Pending(v, bucket, key, start)| <= limit + k - 1
  {
    var v := Next(w, Insert(id));
    var e := Event(w.flights[id].bucket, w.flights[id].key, w.flights[id].now);
    OneMoreRow(w.log, e, bucket, key, start);
    assert LoggedInHour(w, bucket, key, start) + |Pending(w, bucket, key, start)| <= limit + k - 1;
    if id in Pending(w, bucket, key, start) {
      assert Pending(v, bucket, key, start) == Pending(w, bucket, key, start) - {id};
    } else {
      assert Pending(v, bucket, key, start) == Pending(w, bucket, key, start);
    }
  }

  lemma InvStep(w: World, step: Step, bucket: string, key: string, limit: nat, k: nat)
    requires Inv(w, bucket, key, limit, k) && Enabled(w, step)
    requires |InFlight(w, bucket, key)| <= k
    requires step.Enter? && step.bucket == bucket && step.key == key ==> step.limit == limit
    ensures Inv(Next(w, step), bucket, key, limit, k)
  {
    var v := Next(w, step);
    PurgedIsPastStep(w, step);
    forall start: Micros
      ensures LoggedInHour(v, bucket, key, start) + |Pending(v, bucket, key, start)| <= limit + k - 1
    {
      assert LoggedInHour(w, bucket, key, start) + |Pending(w, bucket, key, start)| <= limit + k - 1;
      if step.Count? {
        CountKeepsBound(w, step.id, bucket, key, limit, k, start);
      } else if step.Insert? {
        InsertKeepsBound(w, step.id, bucket, key, limit, k, start);
      } else {
        SubsetIsNoLarger(Pending(v, bucket, key, start), Pending(w, bucket, key, start));
      }
    }
  }

  // --- runs -----------------------------------------------------------------------------

  /** No event yet, nobody in flight; `from` is when the counters start. */
  function Empty(from: Micros): World {
    World([], map[], [], from)
  }

  /** Every step is enabled where it is taken, the key's limit is always `limit`, and at most `k` of its
      requests are in flight at any moment. */
  ghost predicate LegalRun(w: World, steps: seq<Step>, bucket: string, key: string, limit: nat, k: nat)
    decreases |steps|
  {
    && |InFlight(w, bucket, key)| <= k
    && (steps != [] ==>
          && Enabled(w, steps[0])
          && (steps[0].Enter? && steps[0].bucket == bucket && steps[0].key == key ==> steps[0].limit == limit)
          && LegalRun(Next(w, steps[0]), steps[1..], bucket, key, limit, k))
  }

  ghost function Run(w: World, steps: seq<Step>, bucket: string, key: string, limit: nat, k: nat): World
    requires LegalRun(w, steps, bucket, key, limit, k)
    decreases |steps|
  {
    if steps == [] then w else Run(Next(w, steps[0]), steps[1..], bucket, key, limit, k)
  }

  lemma {:induction false} InvRun(w: World, steps: seq<Step>, bucket: string, key: string, limit: nat, k: nat)
    requires LegalRun(w, steps, bucket, key, limit, k)
    requires Inv(w, bucket, key, limit, k)
    ensures Inv(Run(w, steps, bucket, key, limit, k), bucket, key, limit, k)
    decreases |steps|
  {
    if steps != [] {
      InvStep(w, steps[0], bucket, key, limit, k);
      InvRun(Next(w, steps[0]), steps[1..], bucket, key, limit, k);
    }
  }

  /** With at most `k` requests of a key in flight at once, no hour holds more than `limit + k - 1` of
      its accepted events, in any interleaving. One at a time, that is the limit itself. */
  lemma ConcurrentRequestsExceedByAtMostKMinusOne(
      from: Micros, steps: seq<Step>, bucket: string, key: string, limit: nat, k: nat, start: Micros)
    requires k >= 1
    requires LegalRun(Empty(from), steps, bucket, key, limit, k)
    ensures LoggedInHour(Run(Empty(from), steps, bucket, key, limit, k), bucket, key, start) <= limit + k - 1
  {
    assert Inv(Empty(from), bucket, key, limit, k) by {
      forall s: Micros
        ensures LoggedInHour(Empty(from), bucket, key, s) + |Pending(Empty(from), bucket, key, s)| <= limit + k - 1
      {
        assert Pending(Empty(from), bucket, key, s) == {};
      }
    }
    InvRun(Empty(from), steps, bucket, key, limit, k);
    var w := Run(Empty(from), steps, bucket, key, limit, k);
    assert LoggedInHour(w, bucket, key, start) + |Pending(w, bucket, key, start)| <= limit + k - 1;
  }

  // --- the bound is reached -------------------------------------------------------------

  function Copies(n: nat, at: Micros): seq<Event> {
    seq(n, _ => Event("b", "k", at))
  }

  function Ids(n: nat): (ids: set<nat>)
    ensures forall id: nat :: id in ids <==> id < n
    ensures |ids| == n
  {
    if n == 0 then {} else Ids(n - 1) + {n - 1}
  }

  /** `inserted` events in the table, and in flight `counted` requests past their count and `entered`
      before it. */
  function Stage(inserted: nat, counted: nat, entered: nat, limit: nat, at: Micros): World {
    World(Copies(inserted, at), Flights(Ids(counted + entered), counted, limit, at), Copies(inserted, at), at)
  }

  function Flights(ids: set<nat>, counted: nat, limit: nat, at: Micros): map<nat, Flight> {
    map id | id in ids :: Flight("b", "k", limit, at, if id < counted then Counted else ClockRead)
  }

  lemma EnterStage(inserted: nat, entered: nat, limit: nat, at: Micros)
    ensures var step := Enter(entered, "b", "k", limit, at);
            && Enabled(Stage(inserted, 0, entered, limit, at), step)
            && Next(Stage(inserted, 0, entered, limit, at), step) == Stage(inserted, 0, entered + 1, limit, at)
  {
    assert Next(Stage(inserted, 0, entered, limit, at), Enter(entered, "b", "k", limit, at)).flights
        == Flights(Ids(entered + 1), 0, limit, at);
  }

  lemma CountStage(inserted: nat, counted: nat, entered: nat, limit: nat, at: Micros)
    requires inserted < limit && entered > 0
    ensures Enabled(Stage(inserted, counted, entered, limit, at), Count(counted))
    ensures Next(Stage(inserted, counted, entered, limit, at), Count(counted))
        == Stage(inserted, counted + 1, entered - 1, limit, at)
  {
    CopiesWeigh(inserted, at);
    var w := Stage(inserted, counted, entered, limit, at);
    assert Next(w, Count(counted)).flights == Flights(Ids(counted + entered), counted + 1, limit, at);
  }

  lemma InsertStage(inserted: nat, counted: nat, limit: nat, at: Micros)
    requires counted > 0
    ensures Enabled(Stage(inserted, counted, 0, limit, at), Insert(counted - 1))
    ensures Next(Stage(inserted, counted, 0, limit, at), Insert(counted - 1))
        == Stage(inserted + 1, counted - 1, 0, limit, at)
  {
    var w := Stage(inserted, counted, 0, limit, at);
    assert Next(w, Insert(counted - 1)).flights == Flights(Ids(counted - 1), counted - 1, limit, at);
    assert Copies(inserted, at) + [Event("b", "k", at)] == Copies(inserted + 1, at);
  }

  lemma {:induction false} CopiesWeigh(n: nat, at: Micros)
    ensures WeightSince(Stamps(Copies(n, at), "b", "k"), at - WINDOW) == n
    ensures WeightSince(Stamps(Copies(n, at), "b", "k"), at) == n
    ensures InHour(Stamps(Copies(n, at), "b", "k"), at) == n
  {
    if n > 0 {
      assert Copies(n, at)[1..] == Copies(n - 1, at);
      CopiesWeigh(n - 1, at);
    }
  }

  lemma StageFlights(inserted: nat, counted: nat, entered: nat, limit: nat, at: Micros)
    ensures |InFlight(Stage(inserted, counted, entered, limit, at), "b", "k")| == counted + entered
  {
    assert InFlight(Stage(inserted, counted, entered, limit, at), "b", "k") == Ids(counted + entered);
  }

  /** The run leaves exactly the bound in the table and nobody in flight. */
  ghost predicate Reaches(w: World, limit: nat, k: nat, at: Micros, steps: seq<Step>)
    requires limit + k >= 1
  {
    && LegalRun(w, steps, "b", "k", limit, k)
    && Run(w, steps, "b", "k", limit, k) == Stage(limit + k - 1, 0, 0, limit, at)
  }

  /** Put one step in front of a run. */
  lemma Prepend(w: World, step: Step, v: World, rest: seq<Step>, limit: nat, k: nat, at: Micros)
    requires Enabled(w, step) && v == Next(w, step)
    requires |InFlight(w, "b", "k")| <= k
    requires step.Enter? ==> step.limit == limit
    requires limit >= 1 && Reaches(v, limit, k, at, rest)
    ensures Reaches(w, limit, k, at, [step] + rest)
  {
    assert ([step] + rest)[1..] == rest;
  }

  lemma {:induction false} InsertAll(inserted: nat, counted: nat, limit: nat, k: nat, at: Micros)
    returns (steps: seq<Step>)
    requires limit >= 1 && inserted + counted == limit + k - 1 && counted <= k
    ensures Reaches(Stage(inserted, counted, 0, limit, at), limit, k, at, steps)
    decreases counted
  {
    var w := Stage(inserted, counted, 0, limit, at);
    StageFlights(inserted, counted, 0, limit, at);
    if counted == 0 {
      return [];
    }
    var rest := InsertAll(inserted + 1, counted - 1, limit, k, at);
    InsertStage(inserted, counted, limit, at);
    Prepend(w, Insert(counted - 1), Stage(inserted + 1, counted - 1, 0, limit, at), rest, limit, k, at);
    steps := [Insert(counted - 1)] + rest;
  }

  lemma CountFirst(counted: nat, entered: nat, limit: nat, k: nat, at: Micros, rest: seq<Step>)
    returns (steps: seq<Step>)
    requires limit >= 1 && counted + entered == k && entered > 0
    requires Reaches(Stage(limit - 1, counted + 1, entered - 1, limit, at), limit, k, at, rest)
    ensures Reaches(Stage(limit - 1, counted, entered, limit, at), limit, k, at, steps)
  {
    StageFlights(limit - 1, counted, entered, limit, at);
    CountStage(limit - 1, counted, entered, limit, at);
    var w, v := Stage(limit - 1, counted, entered, limit, at), Stage(limit - 1, counted + 1, entered - 1, limit, at);
    Prepend(w, Count(counted), v, rest, limit, k, at);
    steps := [Count(counted)] + rest;
  }

  lemma {:induction false} CountAll(counted: nat, entered: nat, limit: nat, k: nat, at: Micros)
    returns (steps: seq<Step>)
    requires limit >= 1 && counted + entered == k
    ensures Reaches(Stage(limit - 1, counted, entered, limit, at), limit, k, at, steps)
    decreases entered
  {
    if entered > 0 {
      var rest := CountAll(counted + 1, entered - 1, limit, k, at);
      steps := CountFirst(counted, entered, limit, k, at, rest);
      return;
    }
    steps := NobodyEntered(counted, entered, limit, k, at);
  }

  lemma NobodyEntered(counted: nat, entered: nat, limit: nat, k: nat, at: Micros) returns (steps: seq<Step>)
    requires limit >= 1 && counted == k && entered == 0
    ensures Reaches(Stage(limit - 1, counted, entered, limit, at), limit, k, at, steps)
  {
    steps := InsertAll(limit - 1, counted, limit, k, at);
  }

  lemma {:induction false} EnterAll(entered: nat, limit: nat, k: nat, at: Micros) returns (steps: seq<Step>)
    requires limit >= 1 && entered <= k
    ensures Reaches(Stage(limit - 1, 0, entered, limit, at), limit, k, at, steps)
    decreases k - entered
  {
    var w := Stage(limit - 1, 0, entered, limit, at);
    StageFlights(limit - 1, 0, entered, limit, at);
    if entered == k {
      steps := CountAll(0, k, limit, k, at);
      return;
    }
    var rest := EnterAll(entered + 1, limit, k, at);
    var step := Enter(entered, "b", "k", limit, at);
    EnterStage(limit - 1, entered, limit, at);
    Prepend(w, step, Stage(limit - 1, 0, entered + 1, limit, at), rest, limit, k, at);
    steps := [step] + rest;
  }

  lemma {:induction false} FillOneByOne(inserted: nat, limit: nat, k: nat, at: Micros) returns (steps: seq<Step>)
    requires inserted < limit && k >= 1
    ensures Reaches(Stage(inserted, 0, 0, limit, at), limit, k, at, steps)
    decreases limit - inserted
  {
    if inserted == limit - 1 {
      steps := EnterAll(0, limit, k, at);
      return;
    }
    var rest := FillOneByOne(inserted + 1, limit, k, at);
    var w0, w1, w2 := Stage(inserted, 0, 0, limit, at), Stage(inserted, 0, 1, limit, at),
        Stage(inserted, 1, 0, limit, at);
    StageFlights(inserted, 0, 0, limit, at);
    StageFlights(inserted, 0, 1, limit, at);
    StageFlights(inserted, 1, 0, limit, at);
    EnterStage(inserted, 0, limit, at);
    CountStage(inserted, 0, 1, limit, at);
    InsertStage(inserted, 1, limit, at);
    Prepend(w2, Insert(0), Stage(inserted + 1, 0, 0, limit, at), rest, limit, k, at);
    Prepend(w1, Count(0), w2, [Insert(0)] + rest, limit, k, at);
    Prepend(w0, Enter(0, "b", "k", limit, at), w1, [Count(0)] + ([Insert(0)] + rest), limit, k, at);
    steps := [Enter(0, "b", "k", limit, at)] + ([Count(0)] + ([Insert(0)] + rest));
  }

  /** The bound is tight: for every limit and every `k` some legal run inserts exactly
      `limit + k - 1` events in one hour. */
  lemma BoundIsReached(limit: nat, k: nat, at: Micros)
    requires limit >= 1 && k >= 1
    ensures exists steps ::
      && LegalRun(Empty(at), steps, "b", "k", limit, k)
      && LoggedInHour(Run(Empty(at), steps, "b", "k", limit, k), "b", "k", at) == limit + k - 1
  {
    assert Stage(0, 0, 0, limit, at) == Empty(at);
    var steps := FillOneByOne(0, limit, k, at);
    assert Reaches(Empty(at), limit, k, at, steps);
    CopiesWeigh(limit + k - 1, at);
  }

  // --- why the purge has to keep step ----------------------------------------------------

  /** A run of one request at a time that fills the window of a clock exactly. */
  lemma WindowIsFilled(limit: nat, at: Micros)
    requires limit >= 1
    ensures exists steps ::
      LegalRun(Empty(at), steps, "b", "k", limit, 1)
          && Run(Empty(at), steps, "b", "k", limit, 1) == Stage(limit, 0, 0, limit, at)
  {
    assert Stage(0, 0, 0, limit, at) == Empty(at);
    var steps := FillOneByOne(0, limit, 1, at);
    assert Reaches(Empty(at), limit, 1, at, steps);
  }

  lemma {:induction false} OldCopiesArePurged(n: nat, at: Micros, cutoff: Micros)
    requires at < cutoff
    ensures Keep(Copies(n, at), cutoff) == []
  {
    if n > 0 {
      assert Copies(n, at)[1..] == Copies(n - 1, at);
      OldCopiesArePurged(n - 1, at, cutoff);
    }
  }

  /** The purge must not catch a request between its clock and its count, nor may a request read an earlier
      clock after it. For every limit and every purge clock ahead of the request's, a window that is exactly
      full refuses the request without the purge, and with it admits one event more than the limit, although
      only one request is ever in flight. */
  lemma PurgeAheadOfAClockBreaksTheLimit(limit: nat, now: Micros, purge: Micros)
    requires limit >= 1 && now < purge
    ensures
      var enter := Enter(0, "b", "k", limit, now);
      var full := Stage(limit, 0, 0, limit, now - WINDOW);
      var waiting := Next(full, enter);
      var counted := Next(Next(waiting, PurgeExpired(purge)), Count(0));
      && Enabled(full, enter) && Enabled(waiting, Count(0))
      && Next(waiting, Count(0)).flights == map[]
      && !Enabled(waiting, PurgeExpired(purge))
      && Enabled(full, PurgeExpired(purge)) && !Enabled(Next(full, PurgeExpired(purge)), enter)
      && Next(Next(full, PurgeExpired(purge)), enter) == Next(waiting, PurgeExpired(purge))
      && Enabled(counted, Insert(0))
      && LoggedInHour(Next(counted, Insert(0)), "b", "k", now - WINDOW) == limit + 1
  {
    var at := now - WINDOW;
    var full := Stage(limit, 0, 0, limit, at);
    var waiting := Next(full, Enter(0, "b", "k", limit, now));
    CopiesWeigh(limit, at);
    OldCopiesArePurged(limit, at, purge - WINDOW);
    var purged := Next(waiting, PurgeExpired(purge));
    assert Ids(0) == {};
    assert full.flights == map[];
    assert Next(waiting, Count(0)).flights == map[];
    assert purged.events == [];
    var counted := Next(purged, Count(0));
    OneMoreRow(full.log, Event("b", "k", now), "b", "k", at);
  }
}
