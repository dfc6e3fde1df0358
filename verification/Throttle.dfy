/** Database-backed request limits: the `auth_throttle_events` table, `hit` and `purge_expired`.

    A key is the keyed hash of an IP address or device id; the hash is taken to be injective, so a
    key is modelled by the value it hides. */
module Throttle {
  import opened Clock
  import opened Wrappers
  import opened SlidingWindow

  datatype Event = Event(bucket: string, key: string, createdAt: Micros)

  datatype Decision =
    | Skipped                       // no value to count by
    | Accepted
    | Refusal(retryAfter: int)      // 429 with Retry-After

  function Stamps(events: seq<Event>, bucket: string, key: string): seq<Stamp> {
    if events == [] then []
    else
      var rest := Stamps(events[1..], bucket, key);
      if events[0].bucket == bucket && events[0].key == key
      then [Stamp(events[0].createdAt, 1)] + rest
      else rest
  }

  function Decide(events: seq<Event>, bucket: string, value: Option<string>, limit: nat, now: Micros): Decision {
    if value.None? || value.value == "" then Skipped
    else
      var stamps := Stamps(events, bucket, value.value);
      if Refused(stamps, limit, now) then Refusal(RetryAfter(stamps, now)) else Accepted
  }

  /** The table after a hit: an accepted one leaves its event behind, any other leaves nothing. */
  function AfterHit(events: seq<Event>, bucket: string, value: Option<string>, limit: nat, now: Micros): seq<Event> {
    if Decide(events, bucket, value, limit, now).Accepted?
    then events + [Event(bucket, value.value, now)]
    else events
  }

  /** The rows created at or after `cutoff`. */
  function Keep(events: seq<Event>, cutoff: Micros): seq<Event> {
    if events == [] then []
    else if events[0].createdAt >= cutoff then [events[0]] + Keep(events[1..], cutoff)
    else Keep(events[1..], cutoff)
  }

  /** The limiter over its table. */
  class RequestThrottle {
    var events: seq<Event>

    constructor ()
      ensures events == []
    {
      events := [];
    }

    method Hit(bucket: string, value: Option<string>, limit: nat, now: Micros) returns (decision: Decision)
      modifies this
      ensures decision == Decide(old(events), bucket, value, limit, now)
      ensures events == AfterHit(old(events), bucket, value, limit, now)
    {
      if value.None? || value.value == "" {
        return Skipped;
      }
      var stamps := Stamps(events, bucket, value.value);
      var since := now - WINDOW;
      var count, oldest := WeightSince(stamps, since), OldestSince(stamps, since);
      if count >= limit {
        var retryAfter := if oldest.Some? then Max(1, CeilSeconds(oldest.value + WINDOW - now)) else WINDOW / SECOND;
        return Refusal(retryAfter);
      }
      events := events + [Event(bucket, value.value, now)];
      return Accepted;
    }

    method PurgeExpired(now: Micros) returns (removed: nat)
      modifies this
      ensures events == Keep(old(events), now - WINDOW)
      ensures removed == |old(events)| - |events|
    {
      KeepIsNoLonger(events, now - WINDOW);
      var kept := Keep(events, now - WINDOW);
      removed := |events| - |kept|;
      events := kept;
    }
  }

  lemma {:induction false} KeepIsNoLonger(events: seq<Event>, cutoff: Micros)
    ensures |Keep(events, cutoff)| <= |events|
  {
    if events != [] {
      KeepIsNoLonger(events[1..], cutoff);
    }
  }

  /** A purge takes away exactly the rows older than the window, and keeps the others in order. */
  lemma {:induction false} PurgeKeepsExactly(events: seq<Event>, cutoff: Micros, e: Event)
    ensures multiset(Keep(events, cutoff))[e] == if e.createdAt >= cutoff then multiset(events)[e] else 0
  {
    if events != [] {
      assert events == [events[0]] + events[1..];
      PurgeKeepsExactly(events[1..], cutoff, e);
    }
  }

  lemma PurgeKeepsOrder(events: seq<Event>, cutoff: Micros, i: nat)
    requires i < |events| && events[i].createdAt >= cutoff
    ensures Keep(events, cutoff) == Keep(events[..i], cutoff) + [events[i]] + Keep(events[i + 1..], cutoff)
  {
    var rest := [events[i]] + events[i + 1..];
    assert events == events[..i] + rest;
    KeepAppend(events[..i], rest, cutoff);
    assert rest[1..] == events[i + 1..];
  }

  // --- counting over a table that grows and is purged -----------------------------------

  lemma {:induction false} StampsAppend(a: seq<Event>, b: seq<Event>, bucket: string, key: string)
    ensures Stamps(a + b, bucket, key) == Stamps(a, bucket, key) + Stamps(b, bucket, key)
  {
    if a == [] {
      assert a + b == b;
    } else {
      assert (a + b)[1..] == a[1..] + b;
      StampsAppend(a[1..], b, bucket, key);
    }
  }

  /** The events of a key that are not older than the window. */
  function Counted(events: seq<Event>, bucket: string, key: string, since: Micros): set<nat> {
    set i: nat | i < |events| && events[i].bucket == bucket && events[i].key == key && events[i].createdAt >= since
  }

  lemma {:induction false} WeightIsNumberOfEvents(events: seq<Event>, bucket: string, key: string, since: Micros)
    ensures WeightSince(Stamps(events, bucket, key), since) == |Counted(events, bucket, key, since)|
  {
    if events == [] {
      assert Counted(events, bucket, key, since) == {};
    } else {
      var n := |events| - 1;
      var front, last := events[..n], [events[n]];
      assert events == front + last;
      WeightIsNumberOfEvents(front, bucket, key, since);
      StampsAppend(front, last, bucket, key);
      WeightSinceAppend(Stamps(front, bucket, key), Stamps(last, bucket, key), since);
      assert Stamps(last[1..], bucket, key) == [];
      LastIsCounted(events, bucket, key, since);
      if events[n].bucket == bucket && events[n].key == key {
        assert Stamps(last, bucket, key) == [Stamp(events[n].createdAt, 1)];
        assert WeightSince([Stamp(events[n].createdAt, 1)][1..], since) == 0;
      }
    }
  }

  lemma LastEvent(events: seq<Event>, bucket: string, key: string, since: Micros)
    requires events != []
    ensures var n := |events| - 1;
            Counted(events, bucket, key, since) == Counted(events[..n], bucket, key, since)
                + if events[n].bucket == bucket && events[n].key == key && events[n].createdAt >= since
                  then {n} else {}
  {
  }

  lemma LastIsCounted(events: seq<Event>, bucket: string, key: string, since: Micros)
    requires events != []
    ensures var n := |events| - 1;
            |Counted(events, bucket, key, since)| == |Counted(events[..n], bucket, key, since)|
                + if events[n].bucket == bucket && events[n].key == key && events[n].createdAt >= since then 1 else 0
  {
    LastEvent(events, bucket, key, since);
    assert |events| - 1 !in Counted(events[..|events| - 1], bucket, key, since);
  }

  /** A hit without a value to count by is let through uncounted. Any other is accepted exactly when fewer events
      of its key than the limit lie in the hour before it, that hour's first instant included, and then leaves
      one event behind; a refusal leaves the table as it was. */
  lemma HitIsAcceptedIff(events: seq<Event>, bucket: string, value: Option<string>, limit: nat, now: Micros)
    ensures var decision := Decide(events, bucket, value, limit, now);
            && (decision == Skipped <==> value.None? || value.value == "")
            && (decision == Accepted <==>
                  && value.Some? && value.value != ""
                  && |Counted(events, bucket, value.value, now - 3600 * SECOND)| < limit)
            && AfterHit(events, bucket, value, limit, now) ==
                 if decision == Accepted then events + [Event(bucket, value.value, now)] else events
  {
    if value.Some? {
      WeightIsNumberOfEvents(events, bucket, value.value, now - WINDOW);
    }
  }

  lemma {:induction false} KeepAppend(a: seq<Event>, b: seq<Event>, cutoff: Micros)
    ensures Keep(a + b, cutoff) == Keep(a, cutoff) + Keep(b, cutoff)
  {
    if a == [] {
      assert a + b == b;
    } else {
      assert (a + b)[1..] == a[1..] + b;
      KeepAppend(a[1..], b, cutoff);
    }
  }

  lemma {:induction false} KeepTwice(events: seq<Event>, first: Micros, second: Micros)
    ensures Keep(Keep(events, first), second) == Keep(events, Max(first, second))
  {
    if events != [] {
      var head := if events[0].createdAt >= first then [events[0]] else [];
      KeepAppend(head, Keep(events[1..], first), second);
      KeepTwice(events[1..], first, second);
    }
  }

  /** Rows older than the window contribute neither weight nor an oldest stamp. */
  lemma {:induction false} PurgedRowsAreUncounted(
      events: seq<Event>, cutoff: Micros, bucket: string, key: string, since: Micros)
    requires cutoff <= since
    ensures WeightSince(Stamps(Keep(events, cutoff), bucket, key), since)
        == WeightSince(Stamps(events, bucket, key), since)
    ensures OldestSince(Stamps(Keep(events, cutoff), bucket, key), since)
        == OldestSince(Stamps(events, bucket, key), since)
  {
    if events != [] {
      PurgedRowsAreUncounted(events[1..], cutoff, bucket, key, since);
      if events[0].createdAt >= cutoff {
        assert Keep(events, cutoff)[1..] == Keep(events[1..], cutoff);
      } else {
        assert Keep(events, cutoff) == Keep(events[1..], cutoff);
      }
    }
  }

  // --- purging is unobservable ----------------------------------------------------------

  datatype Op =
    | Hit(bucket: string, value: Option<string>, limit: nat, now: Micros)
    | Purge(now: Micros)

  function Apply(events: seq<Event>, op: Op): seq<Event> {
    match op
    case Hit(bucket, value, limit, now) => AfterHit(events, bucket, value, limit, now)
    case Purge(now) => Keep(events, now - WINDOW)
  }

  /** What the callers of a run see: one decision per hit, none for a purge. */
  function Decisions(events: seq<Event>, ops: seq<Op>): seq<Decision>
    decreases |ops|
  {
    if ops == [] then []
    else
      var rest := Decisions(Apply(events, ops[0]), ops[1..]);
      match ops[0]
      case Hit(bucket, value, limit, now) => [Decide(events, bucket, value, limit, now)] + rest
      case Purge(_) => rest
  }

  function WithoutPurges(ops: seq<Op>): seq<Op> {
    if ops == [] then []
    else if ops[0].Hit? then [ops[0]] + WithoutPurges(ops[1..])
    else WithoutPurges(ops[1..])
  }

  ghost predicate ClockNeverGoesBack(ops: seq<Op>, from: Micros) {
    ops != [] ==> from <= ops[0].now && ClockNeverGoesBack(ops[1..], ops[0].now)
  }

  /** One hit on a purged table: the same decision, and the tables stay purged copies of each other. */
  lemma HitOnPurgedTable(full: seq<Event>, cutoff: Micros, bucket: string, value: Option<string>, limit: nat,
                         now: Micros)
    requires cutoff <= now - WINDOW
    ensures Decide(Keep(full, cutoff), bucket, value, limit, now) == Decide(full, bucket, value, limit, now)
    ensures AfterHit(Keep(full, cutoff), bucket, value, limit, now)
        == Keep(AfterHit(full, bucket, value, limit, now), cutoff)
  {
    if value.Some? {
      PurgedRowsAreUncounted(full, cutoff, bucket, value.value, now - WINDOW);
      var added := [Event(bucket, value.value, now)];
      KeepAppend(full, added, cutoff);
      assert Keep(added[1..], cutoff) == [];
      assert Keep(added, cutoff) == added;
    }
  }

  /** A purged table and the full table it came from answer every later run alike. */
  lemma {:induction false} PurgedTableDecidesAlike(full: seq<Event>, cutoff: Micros, ops: seq<Op>, from: Micros)
    requires cutoff <= from - WINDOW
    requires ClockNeverGoesBack(ops, from)
    ensures Decisions(Keep(full, cutoff), ops) == Decisions(full, WithoutPurges(ops))
    decreases |ops|
  {
    if ops == [] {
    } else if ops[0].Purge? {
      var now := ops[0].now;
      KeepTwice(full, cutoff, now - WINDOW);
      PurgedTableDecidesAlike(full, now - WINDOW, ops[1..], now);
    } else {
      var op := ops[0];
      HitOnPurgedTable(full, cutoff, op.bucket, op.value, op.limit, op.now);
      PurgedTableDecidesAlike(Apply(full, op), cutoff, ops[1..], op.now);
      assert ([op] + WithoutPurges(ops[1..]))[1..] == WithoutPurges(ops[1..]);
    }
  }

  lemma {:induction false} KeepAll(events: seq<Event>, cutoff: Micros)
    requires forall i :: 0 <= i < |events| ==> events[i].createdAt >= cutoff
    ensures Keep(events, cutoff) == events
  {
    if events != [] {
      KeepAll(events[1..], cutoff);
    }
  }

  /** Purging anywhere in a run changes no decision and no Retry-After, whatever the table held. */
  lemma PurgingIsUnobservable(events: seq<Event>, ops: seq<Op>, from: Micros)
    requires ClockNeverGoesBack(ops, from)
    ensures Decisions(events, ops) == Decisions(events, WithoutPurges(ops))
  {
    var cutoff := OlderThanAll(events, from - WINDOW);
    KeepAll(events, cutoff);
    PurgedTableDecidesAlike(events, cutoff, ops, from);
  }

  ghost function OlderThanAll(events: seq<Event>, bound: Micros): (cutoff: Micros)
    ensures cutoff <= bound
    ensures forall i :: 0 <= i < |events| ==> events[i].createdAt >= cutoff
  {
    if events == [] then bound
    else
      var rest := OlderThanAll(events[1..], bound);
      assert forall i :: 1 <= i < |events| ==> events[i] == events[1..][i - 1];
      if events[0].createdAt < rest then events[0].createdAt else rest
  }

  /** One purge followed by one hit is invisible for every table exactly when the purge's clock is
      not ahead of the hit's: servers whose clocks disagree can see it. */
  lemma PurgeIsInvisibleIffNotAhead(purgeAt: Micros, hitAt: Micros)
    ensures purgeAt <= hitAt <==>
      forall events: seq<Event>, bucket: string, key: string, limit: nat ::
        Decide(Keep(events, purgeAt - WINDOW), bucket, Some(key), limit, hitAt)
            == Decide(events, bucket, Some(key), limit, hitAt)
  {
    if purgeAt <= hitAt {
      forall events: seq<Event>, bucket: string, key: string, limit: nat
        ensures Decide(Keep(events, purgeAt - WINDOW), bucket, Some(key), limit, hitAt)
            == Decide(events, bucket, Some(key), limit, hitAt)
      {
        PurgedRowsAreUncounted(events, purgeAt - WINDOW, bucket, key, hitAt - WINDOW);
      }
    } else {
      var lost := [Event("otp_request:ip", "k", hitAt - WINDOW)];
      assert Stamps(lost[1..], "otp_request:ip", "k") == [];
      assert Stamps(lost, "otp_request:ip", "k") == [Stamp(hitAt - WINDOW, 1)];
      assert WeightSince([Stamp(hitAt - WINDOW, 1)][1..], hitAt - WINDOW) == 0;
      assert WeightSince(Stamps(lost, "otp_request:ip", "k"), hitAt - WINDOW) == 1;
      assert Decide(lost, "otp_request:ip", Some("k"), 1, hitAt).Refusal?;
      assert Keep(lost, purgeAt - WINDOW) == [];
      assert Decide([], "otp_request:ip", Some("k"), 1, hitAt) == Accepted;
    }
  }

  // --- sequential runs ------------------------------------------------------------------

  function Events(events: seq<Event>, ops: seq<Op>): seq<Event>
    decreases |ops|
  {
    if ops == [] then events else Events(Apply(events, ops[0]), ops[1..])
  }

  /** Every hit on this bucket and key passes the same limit. */
  ghost predicate OneLimit(ops: seq<Op>, bucket: string, key: string, limit: nat) {
    forall i :: 0 <= i < |ops| && ops[i].Hit? && ops[i].bucket == bucket && ops[i].value == Some(key) ==>
        ops[i].limit == limit
  }

  /** Run one at a time, the hits of a key never weigh more than their limit in any current window,
      nor does the table hold an event from the future. */
  lemma {:induction false} SequentialWindowNeverOverflows(
      events: seq<Event>, ops: seq<Op>, from: Micros, bucket: string, key: string, limit: nat, now: Micros)
    requires ClockNeverGoesBack(ops + [Purge(now)], from)
    requires OneLimit(ops, bucket, key, limit)
    requires WeightSince(Stamps(events, bucket, key), from - WINDOW) <= limit
    requires NotAfter(Stamps(events, bucket, key), from)
    ensures WeightSince(Stamps(Events(events, ops), bucket, key), now - WINDOW) <= limit
    ensures NotAfter(Stamps(Events(events, ops), bucket, key), now)
    decreases |ops|
  {
    var stamps := Stamps(events, bucket, key);
    if ops == [] {
      assert (ops + [Purge(now)])[0] == Purge(now);
      WeightSinceAntitone(stamps, from - WINDOW, now - WINDOW);
    } else {
      var op := ops[0];
      assert (ops + [Purge(now)])[1..] == ops[1..] + [Purge(now)];
      WeightSinceAntitone(stamps, from - WINDOW, op.now - WINDOW);
      SequentialStep(events, op, bucket, key, limit);
      assert OneLimit(ops[1..], bucket, key, limit) by {
        assert forall i :: 0 <= i < |ops[1..]| ==> ops[1..][i] == ops[i + 1];
      }
      SequentialWindowNeverOverflows(Apply(events, op), ops[1..], op.now, bucket, key, limit, now);
    }
  }

  lemma SequentialStep(events: seq<Event>, op: Op, bucket: string, key: string, limit: nat)
    requires op.Hit? && op.bucket == bucket && op.value == Some(key) ==> op.limit == limit
    requires WeightSince(Stamps(events, bucket, key), op.now - WINDOW) <= limit
    requires NotAfter(Stamps(events, bucket, key), op.now)
    ensures WeightSince(Stamps(Apply(events, op), bucket, key), op.now - WINDOW) <= limit
    ensures NotAfter(Stamps(Apply(events, op), bucket, key), op.now)
  {
    match op
    case Purge(now) =>
      PurgedRowsAreUncounted(events, now - WINDOW, bucket, key, now - WINDOW);
      KeptStampsAreOld(events, now - WINDOW, bucket, key, now);
    case Hit(b, value, l, now) =>
      if Decide(events, b, value, l, now).Accepted? {
        var added := [Event(b, value.value, now)];
        StampsAppend(events, added, bucket, key);
        assert Stamps(added[1..], bucket, key) == [];
        if b == bucket && value.value == key {
          assert Stamps(added, bucket, key) == [Stamp(now, 1)];
          WeightSinceAppend(Stamps(events, bucket, key), [Stamp(now, 1)], now - WINDOW);
          assert WeightSince([Stamp(now, 1)][1..], now - WINDOW) == 0;
        } else {
          assert Stamps(added, bucket, key) == [];
          assert Stamps(events + added, bucket, key) == Stamps(events, bucket, key);
        }
      }
  }

  lemma NotAfterParts(head: Stamp, rest: seq<Stamp>, now: Micros)
    ensures NotAfter([head] + rest, now) <==> head.at <= now && NotAfter(rest, now)
  {
    var all := [head] + rest;
    if NotAfter(all, now) {
      assert all[0] == head;
      forall i | 0 <= i < |rest|
        ensures rest[i].at <= now
      {
        assert all[i + 1] == rest[i];
      }
    }
  }

  lemma {:induction false} KeptStampsAreOld(events: seq<Event>, cutoff: Micros, bucket: string, key: string,
                                            now: Micros)
    requires NotAfter(Stamps(events, bucket, key), now)
    ensures NotAfter(Stamps(Keep(events, cutoff), bucket, key), now)
  {
    if events != [] {
      var stamp := Stamp(events[0].createdAt, 1);
      NotAfterParts(stamp, Stamps(events[1..], bucket, key), now);
      KeptStampsAreOld(events[1..], cutoff, bucket, key, now);
      if events[0].createdAt >= cutoff {
        assert Keep(events, cutoff)[1..] == Keep(events[1..], cutoff);
        NotAfterParts(stamp, Stamps(Keep(events[1..], cutoff), bucket, key), now);
      }
    }
  }

  /** The Retry-After promise of `hit`: in a sequential run from an empty table, a refused request
      is told between 1 and 3600 seconds, and the same request sent strictly later than that, with
      nothing in between, is accepted. */
  lemma {:induction false} RetryAfterIsHonoured(ops: seq<Op>, bucket: string, key: string, limit: nat, now: Micros,
                                                retry: Micros)
    requires limit >= 1 && key != ""
    requires ops != [] ==> ClockNeverGoesBack(ops + [Purge(now)], ops[0].now)
    requires OneLimit(ops, bucket, key, limit)
    requires Decide(Events([], ops), bucket, Some(key), limit, now).Refusal?
    ensures
      var refusal := Decide(Events([], ops), bucket, Some(key), limit, now);
      && 1 <= refusal.retryAfter <= 3600
      && (retry > now + refusal.retryAfter * SECOND ==>
          Decide(Events([], ops), bucket, Some(key), limit, retry) == Accepted)
  {
    var stamps := Stamps(Events([], ops), bucket, key);
    var from := if ops == [] then now else ops[0].now;
    SequentialWindowNeverOverflows([], ops, from, bucket, key, limit, now);
    RetryAfterIsBounded(stamps, now);
    if retry > now + RetryAfter(stamps, now) * SECOND {
      RetryAfterIsSufficient(stamps, limit, now, retry);
    }
  }
}
