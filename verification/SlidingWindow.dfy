/** The one-hour sliding window behind every limit of the sign-in service.

    The request throttle, the per-number request limit and the wrong-code lockout all ask the same
    question of a table: how much weight was stamped inside the last hour, and when was the oldest
    of it. A throttle event and a code request weigh one; a challenge weighs its wrong attempts. */
module SlidingWindow {
  import opened Clock
  import opened Wrappers

  const WINDOW: Micros := HOUR

  datatype Stamp = Stamp(at: Micros, weight: nat)

  function WeightSince(stamps: seq<Stamp>, since: Micros): nat {
    if stamps == [] then 0
    else (if stamps[0].at >= since then stamps[0].weight else 0) + WeightSince(stamps[1..], since)
  }

  /** `min(created_at)` over the rows that weigh something inside the window. */
  function OldestSince(stamps: seq<Stamp>, since: Micros): Option<Micros> {
    if stamps == [] then None
    else
      var rest := OldestSince(stamps[1..], since);
      if stamps[0].at >= since && stamps[0].weight > 0 && (rest.None? || stamps[0].at < rest.value)
      then Some(stamps[0].at)
      else rest
  }

  predicate Refused(stamps: seq<Stamp>, limit: nat, now: Micros) {
    WeightSince(stamps, now - WINDOW) >= limit
  }

  /** Seconds sent in the Retry-After header of a refusal. */
  function RetryAfter(stamps: seq<Stamp>, now: Micros): int {
    match OldestSince(stamps, now - WINDOW)
    case None => WINDOW / SECOND
    case Some(oldest) => Max(1, CeilSeconds(oldest + WINDOW - now))
  }

  lemma {:induction false} WeightSinceAppend(a: seq<Stamp>, b: seq<Stamp>, since: Micros)
    ensures WeightSince(a + b, since) == WeightSince(a, since) + WeightSince(b, since)
  {
    if a == [] {
      assert a + b == b;
    } else {
      assert (a + b)[1..] == a[1..] + b;
      WeightSinceAppend(a[1..], b, since);
    }
  }

  /** The weight stamped in a closed interval. */
  function Between(stamps: seq<Stamp>, from: Micros, to: Micros): nat {
    if stamps == [] then 0
    else (if from <= stamps[0].at <= to then stamps[0].weight else 0) + Between(stamps[1..], from, to)
  }

  lemma {:induction false} BetweenAppend(a: seq<Stamp>, b: seq<Stamp>, from: Micros, to: Micros)
    ensures Between(a + b, from, to) == Between(a, from, to) + Between(b, from, to)
  {
    if a == [] {
      assert a + b == b;
    } else {
      assert (a + b)[1..] == a[1..] + b;
      BetweenAppend(a[1..], b, from, to);
    }
  }

  /** An interval inside the window weighs no more than the window. */
  lemma {:induction false} IntervalIsInsideWindow(stamps: seq<Stamp>, from: Micros, to: Micros, since: Micros)
    requires since <= from
    ensures Between(stamps, from, to) <= WeightSince(stamps, since)
  {
    if stamps != [] {
      IntervalIsInsideWindow(stamps[1..], from, to, since);
    }
  }

  /** Changing one weight changes a sum by the difference, where the stamp is counted at all. */
  lemma {:induction false} WeightAfterUpdate(stamps: seq<Stamp>, i: nat, weight: nat, since: Micros, from: Micros,
                                             to: Micros)
    requires i < |stamps|
    ensures var after := stamps[i := Stamp(stamps[i].at, weight)];
            && WeightSince(after, since) == WeightSince(stamps, since)
                + (if stamps[i].at >= since then weight - stamps[i].weight else 0)
            && Between(after, from, to) == Between(stamps, from, to)
                + (if from <= stamps[i].at <= to then weight - stamps[i].weight else 0)
  {
    var after := stamps[i := Stamp(stamps[i].at, weight)];
    if i == 0 {
      assert after[1..] == stamps[1..];
    } else {
      assert after[1..] == stamps[1..][i - 1 := Stamp(stamps[i].at, weight)];
      WeightAfterUpdate(stamps[1..], i - 1, weight, since, from, to);
    }
  }

  /** A window that starts later never weighs more. */
  lemma {:induction false} WeightSinceAntitone(stamps: seq<Stamp>, early: Micros, late: Micros)
    requires early <= late
    ensures WeightSince(stamps, late) <= WeightSince(stamps, early)
  {
    if stamps != [] {
      WeightSinceAntitone(stamps[1..], early, late);
    }
  }

  /** The oldest weighted stamp is exactly where the window's weight starts to fall:
      up to it nothing is lost, past it at least one unit is. */
  lemma {:induction false} OldestIsWhereWeightFalls(stamps: seq<Stamp>, since: Micros, later: Micros)
    requires since <= later
    ensures OldestSince(stamps, since).None? <==> WeightSince(stamps, since) == 0
    ensures OldestSince(stamps, since).Some? ==>
      var oldest := OldestSince(stamps, since).value;
      && since <= oldest
      && (later <= oldest <==> WeightSince(stamps, later) == WeightSince(stamps, since))
    ensures WeightSince(stamps, later) <= WeightSince(stamps, since)
  {
    if stamps != [] {
      OldestIsWhereWeightFalls(stamps[1..], since, later);
    }
  }

  ghost predicate NotAfter(stamps: seq<Stamp>, now: Micros) {
    forall i :: 0 <= i < |stamps| ==> stamps[i].at <= now
  }

  lemma {:induction false} OldestIsNotAfter(stamps: seq<Stamp>, since: Micros, now: Micros)
    requires NotAfter(stamps, now)
    ensures OldestSince(stamps, since).Some? ==> OldestSince(stamps, since).value <= now
  {
    if stamps != [] {
      OldestIsNotAfter(stamps[1..], since, now);
    }
  }

  /** Retry-After is always between one second and one hour. */
  lemma RetryAfterIsBounded(stamps: seq<Stamp>, now: Micros)
    requires NotAfter(stamps, now)
    ensures 1 <= RetryAfter(stamps, now) <= 3600
  {
    OldestIsNotAfter(stamps, now - WINDOW, now);
  }

  /** When the window holds exactly its limit, the refusal lasts precisely until the oldest counted
      stamp has left it. The window edge is inclusive, so the last refused instant is `oldest + WINDOW`. */
  lemma RefusalLastsUntilTheOldestLeaves(stamps: seq<Stamp>, limit: nat, now: Micros, retry: Micros)
    requires limit >= 1 && now <= retry
    requires WeightSince(stamps, now - WINDOW) == limit
    ensures OldestSince(stamps, now - WINDOW).Some?
    ensures Refused(stamps, limit, retry) <==> retry <= OldestSince(stamps, now - WINDOW).value + WINDOW
  {
    OldestIsWhereWeightFalls(stamps, now - WINDOW, retry - WINDOW);
  }

  /** A retry made strictly later than Retry-After is not refused by the same check. */
  lemma RetryAfterIsSufficient(stamps: seq<Stamp>, limit: nat, now: Micros, retry: Micros)
    requires limit >= 1
    requires WeightSince(stamps, now - WINDOW) == limit
    requires retry > now + RetryAfter(stamps, now) * SECOND
    ensures !Refused(stamps, limit, retry)
  {
    OldestIsWhereWeightFalls(stamps, now - WINDOW, now - WINDOW);
    RefusalLastsUntilTheOldestLeaves(stamps, limit, now, Max(now, retry));
  }

  /** Nor is anybody told to wait longer than that: a second earlier the same check still refuses. */
  lemma RetryAfterIsTight(stamps: seq<Stamp>, limit: nat, now: Micros, retry: Micros)
    requires limit >= 1 && RetryAfter(stamps, now) > 1
    requires WeightSince(stamps, now - WINDOW) == limit
    requires now <= retry <= now + (RetryAfter(stamps, now) - 1) * SECOND
    ensures Refused(stamps, limit, retry)
  {
    RefusalLastsUntilTheOldestLeaves(stamps, limit, now, retry);
  }

  /** "Strictly" is needed: with the oldest stamp a whole number of seconds old, the retry made
      exactly when Retry-After runs out is still refused. */
  lemma RetryAtTheEdgeIsStillRefused(at: Micros, age: nat)
    requires age < 3600
    ensures var stamps := [Stamp(at, 1)];
            var now := at + age * SECOND;
            && Refused(stamps, 1, now)
            && Refused(stamps, 1, now + RetryAfter(stamps, now) * SECOND)
  {
    var stamps := [Stamp(at, 1)];
    var now := at + age * SECOND;
    assert WeightSince(stamps[1..], now - WINDOW) == 0;
    assert OldestSince(stamps[1..], now - WINDOW).None?;
    assert OldestSince(stamps, now - WINDOW) == Some(at);
    assert CeilSeconds(at + WINDOW - now) == 3600 - age;
    RefusalLastsUntilTheOldestLeaves(stamps, 1, now, at + WINDOW);
  }
}
