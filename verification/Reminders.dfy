/** The credit-reminder job: one state row per customer, one run at a time. */
module Reminders {
  import opened Clock
  import opened Wrappers
  import opened Credit
  import CreditHistory

  datatype Settings = Settings(limitEnabled: bool, remindersEnabled: bool, quietStart: nat, quietEnd: nat,
                               maxCount: int, intervalHours: int, thresholdPercent: int)

  /** `credit_reminder_states`: where the customer is in the current cycle. */
  datatype Cycle = Cycle(startedAt: Micros, lastSentAt: Option<Micros>, count: nat, resolvedAt: Option<Micros>)

  /** `creditDays` is zero when the customer has no term of its own. */
  datatype Customer = Customer(id: CustomerId, terms: Terms, creditDays: int)

  datatype Reminder = Reminder(customer: CustomerId, at: Micros)

  datatype Report = Report(considered: nat, queued: nat, resolved: nat, quiet: nat)

  const IST_OFFSET: Micros := 19_800 * SECOND

  function HourInIndia(now: Micros): nat {
    ((now + IST_OFFSET) / HOUR) % 24
  }

  predicate Quiet(hour: int, start: int, end: int) {
    if start < end then start <= hour < end else hour >= start || hour < end
  }

  predicate ReminderDue(now: Micros, c: Cycle, s: Settings) {
    c.count < s.maxCount && (c.lastSentAt.None? || c.lastSentAt.value + s.intervalHours * HOUR <= now)
  }

  /** Unpaid past the customer's own term, or else past its due date. */
  predicate IsOverdue(invoice: Invoice, c: Customer, now: Micros) {
    && invoice.customer == c.id && invoice.balance > 0
    && (if c.creditDays != 0 then invoice.issuedAt < now - c.creditDays * DAY else invoice.dueAt < now)
  }

  predicate HasOverdue(invoices: seq<Invoice>, c: Customer, now: Micros) {
    exists i :: 0 <= i < |invoices| && IsOverdue(invoices[i], c, now)
  }

  /** Usage at or above the threshold, or an overdue invoice. */
  predicate Due(st: State, s: Settings, c: Customer, now: Micros) {
    var snapshot := SnapshotOf(st, c.terms, c.id, 0, None, false);
    snapshot.used * 100 >= snapshot.limit * s.thresholdPercent || HasOverdue(st.invoices, c, now)
  }

  /** A customer with a limit in force is due for a reminder exactly when what is owed and on order has reached the
      given percentage of the limit, or a bill with a balance is older than the customer's own term, if it has one,
      or else past its due date. */
  lemma DueIff(st: State, s: Settings, c: Customer, now: Micros)
    requires c.terms.platformEnabled && c.terms.customerEnabled && c.terms.limit > 0
    ensures Due(st, s, c, now) <==>
      || (|Owing(st.invoices, c.id)| + |OnOrder(st.orders, c.id, None)|) * 100 >= c.terms.limit * s.thresholdPercent
      || exists i :: 0 <= i < |st.invoices| && st.invoices[i].customer == c.id && st.invoices[i].balance > 0
                     && (if c.creditDays != 0 then st.invoices[i].issuedAt + c.creditDays * DAY < now
                         else st.invoices[i].dueAt < now)
  {
    InvoicedCountsRupees(st.invoices, c.id);
    PendingCountsRupees(st.orders, c.id, None);
    if i :| 0 <= i < |st.invoices| && IsOverdue(st.invoices[i], c, now) {
      assert st.invoices[i].customer == c.id;
    }
    if i :| 0 <= i < |st.invoices| && st.invoices[i].customer == c.id && st.invoices[i].balance > 0
            && (if c.creditDays != 0 then st.invoices[i].issuedAt + c.creditDays * DAY < now
                else st.invoices[i].dueAt < now) {
      assert IsOverdue(st.invoices[i], c, now);
    }
  }

  /** The cycle a due customer is in: a resolved one starts over. */
  function CurrentCycle(cycle: Option<Cycle>, now: Micros): Cycle {
    if cycle.None? || cycle.value.resolvedAt.Some? then Cycle(now, None, 0, None) else cycle.value
  }

  predicate Sends(cycle: Option<Cycle>, due: bool, s: Settings, now: Micros) {
    due && ReminderDue(now, CurrentCycle(cycle, now), s)
  }

  function AfterVisit(cycle: Option<Cycle>, due: bool, s: Settings, now: Micros): Option<Cycle> {
    if !due then
      if cycle.Some? && cycle.value.resolvedAt.None? then Some(cycle.value.(resolvedAt := Some(now))) else cycle
    else
      var current := CurrentCycle(cycle, now);
      if ReminderDue(now, current, s) then Some(current.(lastSentAt := Some(now), count := current.count + 1))
      else Some(current)
  }

  /** An unpaid bill is overdue once the customer's own term is over, or a week for a customer without one. */
  lemma BillIsOverdueIff(id: string, c: Customer, total: nat, issuedAt: Micros, now: Micros)
    requires total > 0
    ensures IsOverdue(CreditHistory.Issued(id, c.id, total, issuedAt), c, now) <==>
              now > issuedAt + (if c.creditDays != 0 then c.creditDays else 7) * DAY
  {
  }

  /** A visit sends a reminder exactly when the customer is due and its current cycle has room: in a new cycle if any
      reminder is allowed at all, in an open one if the maximum is not reached and the interval is over. */
  lemma SendsIff(cycle: Option<Cycle>, due: bool, s: Settings, now: Micros)
    ensures Sends(cycle, due, s, now) <==>
      && due
      && (if cycle.None? || cycle.value.resolvedAt.Some? then s.maxCount > 0
          else && cycle.value.count < s.maxCount
               && (cycle.value.lastSentAt.None? || now >= cycle.value.lastSentAt.value + s.intervalHours * HOUR))
  {
  }

  /** What a visit leaves behind: a customer no longer due has its open cycle closed; one who is due is in a cycle that
      started now, or goes on with the open one; a reminder is recorded with its time. */
  lemma VisitByField(cycle: Option<Cycle>, due: bool, s: Settings, now: Micros)
    ensures var after := AfterVisit(cycle, due, s, now);
            var isOpen := cycle.Some? && cycle.value.resolvedAt.None?;
            if !due then after == if isOpen then Some(cycle.value.(resolvedAt := Some(now))) else cycle
            else
              && after.Some? && after.value.resolvedAt.None?
              && after.value.startedAt == (if isOpen then cycle.value.startedAt else now)
              && after.value.count == (if isOpen then cycle.value.count else 0)
                                      + (if Sends(cycle, due, s, now) then 1 else 0)
              && after.value.lastSentAt == if Sends(cycle, due, s, now) then Some(now)
                                           else if isOpen then cycle.value.lastSentAt else None
  {
  }

  function CycleOf(cycles: map<CustomerId, Cycle>, c: CustomerId): Option<Cycle> {
    if c in cycles then Some(cycles[c]) else None
  }

  function Updated(cycles: map<CustomerId, Cycle>, c: CustomerId, cycle: Option<Cycle>): map<CustomerId, Cycle> {
    if cycle.Some? then cycles[c := cycle.value] else cycles
  }

  /** An open cycle of a customer who is no longer due is closed. */
  predicate Closes(cycle: Option<Cycle>, due: bool) {
    !due && cycle.Some? && cycle.value.resolvedAt.None?
  }

  /** The states after the first customers of a run were visited. */
  function AfterVisits(cycles: map<CustomerId, Cycle>, customers: seq<Customer>, st: State, s: Settings,
                       now: Micros): map<CustomerId, Cycle> {
    if customers == [] then cycles
    else
      var n := |customers| - 1;
      var before := AfterVisits(cycles, customers[..n], st, s, now);
      var due := Due(st, s, customers[n], now);
      Updated(before, customers[n].id, AfterVisit(CycleOf(before, customers[n].id), due, s, now))
  }

  function QueuedBy(cycles: map<CustomerId, Cycle>, customers: seq<Customer>, st: State, s: Settings,
                    now: Micros): seq<Reminder> {
    if customers == [] then []
    else
      var n := |customers| - 1;
      var before := AfterVisits(cycles, customers[..n], st, s, now);
      QueuedBy(cycles, customers[..n], st, s, now)
      + if Sends(CycleOf(before, customers[n].id), Due(st, s, customers[n], now), s, now)
        then [Reminder(customers[n].id, now)] else []
  }

  /** How many open cycles these visits close. */
  function ResolvedBy(cycles: map<CustomerId, Cycle>, customers: seq<Customer>, st: State, s: Settings,
                      now: Micros): nat {
    if customers == [] then 0
    else
      var n := |customers| - 1;
      var cycle := CycleOf(AfterVisits(cycles, customers[..n], st, s, now), customers[n].id);
      ResolvedBy(cycles, customers[..n], st, s, now)
      + if Closes(cycle, Due(st, s, customers[n], now)) then 1 else 0
  }

  /** What the job has written and counted so far. */
  datatype Progress = Progress(cycles: map<CustomerId, Cycle>, outbox: seq<Reminder>, report: Report)

  /** A dry visit opens and closes cycles like a real one, but sends nothing. */
  function AfterDryVisit(cycle: Option<Cycle>, due: bool, s: Settings, now: Micros): Option<Cycle> {
    if due then Some(CurrentCycle(cycle, now)) else AfterVisit(cycle, due, s, now)
  }

  function OneVisit(p: Progress, customer: Customer, st: State, s: Settings, now: Micros, dryRun: bool): Progress {
    var cycle, due := CycleOf(p.cycles, customer.id), Due(st, s, customer, now);
    var after := if dryRun then AfterDryVisit(cycle, due, s, now) else AfterVisit(cycle, due, s, now);
    Progress(Updated(p.cycles, customer.id, after),
             if Sends(cycle, due, s, now) && !dryRun then p.outbox + [Reminder(customer.id, now)] else p.outbox,
             Report(p.report.considered + 1, p.report.queued + (if Sends(cycle, due, s, now) then 1 else 0),
                    p.report.resolved + (if Closes(cycle, due) then 1 else 0), p.report.quiet))
  }

  function AllVisits(p: Progress, customers: seq<Customer>, st: State, s: Settings, now: Micros,
                     dryRun: bool): Progress {
    if customers == [] then p
    else
      var n := |customers| - 1;
      OneVisit(AllVisits(p, customers[..n], st, s, now, dryRun), customers[n], st, s, now, dryRun)
  }

  /** The whole loop, one table at a time. */
  lemma {:induction false} AllVisitsByTable(p: Progress, customers: seq<Customer>, st: State, s: Settings, now: Micros)
    ensures AllVisits(p, customers, st, s, now, false) ==
      Progress(AfterVisits(p.cycles, customers, st, s, now), p.outbox + QueuedBy(p.cycles, customers, st, s, now),
               Report(p.report.considered + |customers|, p.report.queued + |QueuedBy(p.cycles, customers, st, s, now)|,
                      p.report.resolved + ResolvedBy(p.cycles, customers, st, s, now), p.report.quiet))
  {
    if customers != [] {
      AllVisitsByTable(p, customers[..|customers| - 1], st, s, now);
    }
  }

  ghost predicate DistinctCustomers(customers: seq<Customer>) {
    forall i, j :: 0 <= i < j < |customers| ==> customers[i].id != customers[j].id
  }

  lemma {:induction false} VisitsLeaveOthers(p: Progress, customers: seq<Customer>, st: State, s: Settings,
                                             now: Micros, dryRun: bool, c: CustomerId)
    requires forall i :: 0 <= i < |customers| ==> customers[i].id != c
    ensures CycleOf(AllVisits(p, customers, st, s, now, dryRun).cycles, c) == CycleOf(p.cycles, c)
  {
    if customers != [] {
      VisitsLeaveOthers(p, customers[..|customers| - 1], st, s, now, dryRun, c);
    }
  }

  /** A dry run sends nothing and counts what the run would. */
  lemma {:induction false} DryRunForetellsRun(p: Progress, customers: seq<Customer>, st: State, s: Settings,
                                              now: Micros)
    requires DistinctCustomers(customers)
    ensures AllVisits(p, customers, st, s, now, true).outbox == p.outbox
    ensures AllVisits(p, customers, st, s, now, true).report == AllVisits(p, customers, st, s, now, false).report
  {
    if customers != [] {
      var n := |customers| - 1;
      DryRunForetellsRun(p, customers[..n], st, s, now);
      VisitsLeaveOthers(p, customers[..n], st, s, now, true, customers[n].id);
      VisitsLeaveOthers(p, customers[..n], st, s, now, false, customers[n].id);
    }
  }

  predicate Active(s: Settings, now: Micros) {
    s.limitEnabled && s.remindersEnabled && !Quiet(HourInIndia(now), s.quietStart, s.quietEnd)
  }

  class ReminderJob {
    var cycles: map<CustomerId, Cycle>
    var outbox: seq<Reminder>

    constructor ()
      ensures cycles == map[] && outbox == []
    {
      cycles, outbox := map[], [];
    }

    /** One pass of the loop: open, close or advance this customer's cycle. */
    method VisitCustomer(customer: Customer, st: State, s: Settings, now: Micros, dryRun: bool, counted: Report)
      returns (report: Report)
      modifies this
      ensures Progress(cycles, outbox, report) ==
                OneVisit(Progress(old(cycles), old(outbox), counted), customer, st, s, now, dryRun)
    {
      report := counted.(considered := counted.considered + 1);
      var cycle := CycleOf(cycles, customer.id);
      if !Due(st, s, customer, now) {
        if cycle.Some? && cycle.value.resolvedAt.None? {
          cycles := cycles[customer.id := cycle.value.(resolvedAt := Some(now))];
          report := report.(resolved := report.resolved + 1);
        }
        return;
      }
      if cycle.None? || cycle.value.resolvedAt.Some? {
        cycle := Some(Cycle(now, None, 0, None));
        cycles := cycles[customer.id := cycle.value];
      }
      if ReminderDue(now, cycle.value, s) {
        if !dryRun {
          outbox := outbox + [Reminder(customer.id, now)];
          cycles := cycles[customer.id := cycle.value.(lastSentAt := Some(now), count := cycle.value.count + 1)];
        }
        report := report.(queued := report.queued + 1);
      }
    }

    method VisitAll(customers: seq<Customer>, st: State, s: Settings, now: Micros, dryRun: bool)
      returns (report: Report)
      modifies this
      ensures Progress(cycles, outbox, report) ==
                AllVisits(Progress(old(cycles), old(outbox), Report(0, 0, 0, 0)), customers, st, s, now, dryRun)
    {
      report := Report(0, 0, 0, 0);
      ghost var start := Progress(cycles, outbox, report);
      for n := 0 to |customers|
        invariant Progress(cycles, outbox, report) == AllVisits(start, customers[..n], st, s, now, dryRun)
      {
        assert customers[..n + 1][..n] == customers[..n];
        report := VisitCustomer(customers[n], st, s, now, dryRun, report);
      }
      assert customers[..|customers|] == customers;
    }

    method RunOnce(customers: seq<Customer>, st: State, s: Settings, now: Micros, dryRun: bool) returns (report: Report)
      modifies this
      ensures if Active(s, now) && !dryRun
              then cycles == AfterVisits(old(cycles), customers, st, s, now)
                  && outbox == old(outbox) + QueuedBy(old(cycles), customers, st, s, now)
              else cycles == old(cycles) && outbox == old(outbox)
      ensures Active(s, now) && (dryRun ==> DistinctCustomers(customers)) ==>
        report == Report(|customers|, |QueuedBy(old(cycles), customers, st, s, now)|,
                         ResolvedBy(old(cycles), customers, st, s, now), 0)
      ensures !Active(s, now) ==> report == Report(0, 0, 0, if s.limitEnabled && s.remindersEnabled then 1 else 0)
      ensures !s.limitEnabled || !s.remindersEnabled || Quiet(HourInIndia(now), s.quietStart, s.quietEnd) ==>
        cycles == old(cycles) && outbox == old(outbox) && report.considered == report.queued == report.resolved == 0
    {
      if !s.limitEnabled || !s.remindersEnabled {
        return Report(0, 0, 0, 0);
      }
      if Quiet(HourInIndia(now), s.quietStart, s.quietEnd) {
        return Report(0, 0, 0, 1);
      }
      var savedCycles, savedOutbox := cycles, outbox;
      report := VisitAll(customers, st, s, now, dryRun);
      AllVisitsByTable(Progress(savedCycles, savedOutbox, Report(0, 0, 0, 0)), customers, st, s, now);
      if dryRun {
        if DistinctCustomers(customers) {
          DryRunForetellsRun(Progress(savedCycles, savedOutbox, Report(0, 0, 0, 0)), customers, st, s, now);
        }
        cycles, outbox := savedCycles, savedOutbox;
      }
    }
  }

  // --- quiet hours ----------------------------------------------------------------------

  /** The quiet hours are those within a fixed number of hours after the start, counted around the clock,
      so a range that wraps midnight is one interval; equal bounds silence the whole day. */
  lemma QuietIsOneIntervalOfTheClock(hour: nat, start: nat, end: nat)
    requires hour < 24 && start < 24 && end < 24
    ensures Quiet(hour, start, end) <==> (hour - start) % 24 < (if start == end then 24 else (end - start) % 24)
  {
  }

  /** India is five and a half hours ahead. */
  lemma ClockInIndia(day: int, hour: nat, rest: nat)
    requires hour < 24 && rest < HOUR
    ensures HourInIndia(day * DAY + hour * HOUR + rest - (5 * HOUR + 30 * 60 * SECOND)) == hour
  {
    assert (day * DAY + hour * HOUR + rest) / HOUR == day * 24 + hour;
  }

  // --- one customer's cycle over many runs ----------------------------------------------

  /** A visit by the job: when, and whether the customer was due. */
  datatype Visit = Visit(now: Micros, due: bool)

  /** A customer's state, the reminders of the current cycle, and those of each cycle before it. */
  datatype Track = Track(cycle: Option<Cycle>, sends: seq<Micros>, past: seq<seq<Micros>>)

  const NEW_TRACK := Track(None, [], [])

  function Visited(t: Track, v: Visit, s: Settings): Track {
    if !Active(s, v.now) then t
    else
      var restarts := v.due && (t.cycle.None? || t.cycle.value.resolvedAt.Some?);
      var kept := if restarts then [] else t.sends;
      Track(AfterVisit(t.cycle, v.due, s, v.now), if Sends(t.cycle, v.due, s, v.now) then kept + [v.now] else kept,
            if restarts then t.past + [t.sends] else t.past)
  }

  function VisitedAll(t: Track, visits: seq<Visit>, s: Settings): Track {
    if visits == [] then t else Visited(VisitedAll(t, visits[..|visits| - 1], s), visits[|visits| - 1], s)
  }

  /** At most the maximum number of reminders, any n of them spanning n - 1 intervals, none in the quiet
      hours. */
  ghost predicate Paced(sends: seq<Micros>, s: Settings) {
    && (sends != [] ==> |sends| <= s.maxCount)
    && (forall i, j :: 0 <= i <= j < |sends| ==> sends[j] - sends[i] >= (j - i) * (s.intervalHours * HOUR))
    && (forall i :: 0 <= i < |sends| ==> !Quiet(HourInIndia(sends[i]), s.quietStart, s.quietEnd))
  }

  /** Each reminder a whole interval after the one before it. */
  ghost predicate Spaced(sends: seq<Micros>, s: Settings) {
    && (sends != [] ==> |sends| <= s.maxCount)
    && (forall i :: 0 < i < |sends| ==> sends[i - 1] + s.intervalHours * HOUR <= sends[i])
    && (forall i :: 0 <= i < |sends| ==> !Quiet(HourInIndia(sends[i]), s.quietStart, s.quietEnd))
  }

  ghost predicate TrackIsSound(t: Track, s: Settings) {
    && (t.cycle.None? ==> t.sends == [])
    && (t.cycle.Some? ==>
          && t.cycle.value.count == |t.sends|
          && t.cycle.value.lastSentAt == if t.sends == [] then None else Some(t.sends[|t.sends| - 1]))
    && Spaced(t.sends, s)
    && (forall k :: 0 <= k < |t.past| ==> Spaced(t.past[k], s))
  }

  lemma {:induction false} TrackStaysSound(visits: seq<Visit>, s: Settings)
    ensures TrackIsSound(VisitedAll(NEW_TRACK, visits, s), s)
  {
    if visits != [] {
      TrackStaysSound(visits[..|visits| - 1], s);
    }
  }

  lemma {:induction false} SpacingAddsUp(sends: seq<Micros>, gap: Micros, i: nat, j: nat)
    requires i <= j < |sends| && forall k :: 0 < k < |sends| ==> sends[k - 1] + gap <= sends[k]
    ensures sends[j] - sends[i] >= (j - i) * gap
    decreases j - i
  {
    if i < j {
      SpacingAddsUp(sends, gap, i, j - 1);
    }
  }

  lemma SpacedIsPaced(sends: seq<Micros>, s: Settings)
    requires Spaced(sends, s)
    ensures Paced(sends, s)
  {
    forall i, j | 0 <= i <= j < |sends|
      ensures sends[j] - sends[i] >= (j - i) * (s.intervalHours * HOUR)
    {
      SpacingAddsUp(sends, s.intervalHours * HOUR, i, j);
    }
  }

  function CyclesOf(t: Track): seq<seq<Micros>> {
    t.past + [t.sends]
  }

  /** Over any visits with fixed settings every cycle, past or current, is paced. */
  lemma CycleIsPaced(visits: seq<Visit>, s: Settings, k: nat)
    requires k < |CyclesOf(VisitedAll(NEW_TRACK, visits, s))|
    ensures Paced(CyclesOf(VisitedAll(NEW_TRACK, visits, s))[k], s)
  {
    TrackStaysSound(visits, s);
    SpacedIsPaced(CyclesOf(VisitedAll(NEW_TRACK, visits, s))[k], s);
  }

  /** A second visit at the same moment sends again only when the interval is not positive and the first
      one sent without reaching the maximum; with any real interval it queues nothing. */
  lemma SecondVisitSendsIff(cycle: Option<Cycle>, due: bool, s: Settings, now: Micros)
    ensures Sends(AfterVisit(cycle, due, s, now), due, s, now) <==>
      Sends(cycle, due, s, now) && s.intervalHours <= 0 && CurrentCycle(cycle, now).count + 1 < s.maxCount
  {
  }

  // --- the job visits every customer once -----------------------------------------------

  /** When this customer was sent reminders. */
  function SentTo(outbox: seq<Reminder>, c: CustomerId): seq<Micros> {
    if outbox == [] then []
    else if outbox[0].customer == c then [outbox[0].at] + SentTo(outbox[1..], c)
    else SentTo(outbox[1..], c)
  }

  lemma {:induction false} SentToAppend(a: seq<Reminder>, b: seq<Reminder>, c: CustomerId)
    ensures SentTo(a + b, c) == SentTo(a, c) + SentTo(b, c)
  {
    if a == [] {
      assert a + b == b;
    } else {
      assert (a + b)[1..] == a[1..] + b;
      SentToAppend(a[1..], b, c);
    }
  }

  lemma SentToOneMore(a: seq<Reminder>, r: Reminder, c: CustomerId)
    ensures SentTo(a + [r], c) == SentTo(a, c) + if r.customer == c then [r.at] else []
  {
    SentToAppend(a, [r], c);
    assert SentTo([r][1..], c) == [];
  }

  function FindCustomer(customers: seq<Customer>, c: CustomerId): (index: Option<nat>)
    ensures index.Some? ==> index.value < |customers| && customers[index.value].id == c
    ensures index.None? ==> forall i :: 0 <= i < |customers| ==> customers[i].id != c
  {
    if customers == [] then None
    else if customers[|customers| - 1].id == c then Some(|customers| - 1)
    else
      assert forall i :: 0 <= i < |customers| - 1 ==> customers[i] == customers[..|customers| - 1][i];
      FindCustomer(customers[..|customers| - 1], c)
  }

  /** A run moves each listed customer by one visit of its own and leaves every other state alone. */
  lemma {:induction false} RunVisitsEachOnce(cycles: map<CustomerId, Cycle>, customers: seq<Customer>, st: State,
                                             s: Settings, now: Micros, c: CustomerId)
    requires DistinctCustomers(customers)
    ensures var index := FindCustomer(customers, c);
            CycleOf(AfterVisits(cycles, customers, st, s, now), c) ==
              if index.Some? then AfterVisit(CycleOf(cycles, c), Due(st, s, customers[index.value], now), s, now)
              else CycleOf(cycles, c)
  {
    if customers != [] {
      var rest := customers[..|customers| - 1];
      assert forall i :: 0 <= i < |rest| ==> customers[i] == rest[i];
      RunVisitsEachOnce(cycles, rest, st, s, now, c);
    }
  }

  lemma LastVisitSends(cycles: map<CustomerId, Cycle>, customers: seq<Customer>, st: State, s: Settings, now: Micros,
                       c: CustomerId)
    requires customers != []
    ensures var n := |customers| - 1;
            var cycle := CycleOf(AfterVisits(cycles, customers[..n], st, s, now), customers[n].id);
            SentTo(QueuedBy(cycles, customers, st, s, now), c) ==
              if customers[n].id == c && Sends(cycle, Due(st, s, customers[n], now), s, now)
              then SentTo(QueuedBy(cycles, customers[..n], st, s, now), c) + [now]
              else SentTo(QueuedBy(cycles, customers[..n], st, s, now), c)
  {
    var n := |customers| - 1;
    var queued := QueuedBy(cycles, customers[..n], st, s, now);
    SentToOneMore(queued, Reminder(customers[n].id, now), c);
    assert queued + [] == queued;
  }

  /** A run sends a listed customer one reminder when its own visit calls for it, and nobody else any. */
  lemma {:induction false} RunSendsEachOnce(cycles: map<CustomerId, Cycle>, customers: seq<Customer>, st: State,
                                            s: Settings, now: Micros, c: CustomerId)
    requires DistinctCustomers(customers)
    ensures var index := FindCustomer(customers, c);
            SentTo(QueuedBy(cycles, customers, st, s, now), c) ==
              if index.Some? && Sends(CycleOf(cycles, c), Due(st, s, customers[index.value], now), s, now)
              then [now] else []
  {
    if customers != [] {
      var n := |customers| - 1;
      var rest := customers[..n];
      assert forall i :: 0 <= i < n ==> customers[i] == rest[i];
      LastVisitSends(cycles, customers, st, s, now, c);
      if customers[n].id == c {
        assert FindCustomer(rest, c).None?;
      }
      RunSendsEachOnce(cycles, rest, st, s, now, c);
      RunVisitsEachOnce(cycles, rest, st, s, now, c);
    }
  }

  /** The listed customers a run reminds, and those whose open cycle it closes. */
  function Reminded(cycles: map<CustomerId, Cycle>, customers: seq<Customer>, st: State, s: Settings,
                    now: Micros): set<nat> {
    set i: nat | i < |customers| && Sends(CycleOf(cycles, customers[i].id), Due(st, s, customers[i], now), s, now)
  }

  function Released(cycles: map<CustomerId, Cycle>, customers: seq<Customer>, st: State, s: Settings,
                    now: Micros): set<nat> {
    set i: nat | i < |customers| && !Due(st, s, customers[i], now) && customers[i].id in cycles
                 && cycles[customers[i].id].resolvedAt.None?
  }

  lemma LastIsReminded(cycles: map<CustomerId, Cycle>, customers: seq<Customer>, st: State, s: Settings, now: Micros)
    requires customers != []
    ensures var n := |customers| - 1;
            Reminded(cycles, customers, st, s, now) == Reminded(cycles, customers[..n], st, s, now)
                + if Sends(CycleOf(cycles, customers[n].id), Due(st, s, customers[n], now), s, now) then {n} else {}
    ensures var n := |customers| - 1;
            Released(cycles, customers, st, s, now) == Released(cycles, customers[..n], st, s, now)
                + if Closes(CycleOf(cycles, customers[n].id), Due(st, s, customers[n], now)) then {n} else {}
  {
  }

  /** The report counts them: one reminder for each customer reminded, one resolved for each cycle closed. */
  lemma {:induction false} ReportCounts(cycles: map<CustomerId, Cycle>, customers: seq<Customer>, st: State,
                                        s: Settings, now: Micros)
    requires DistinctCustomers(customers)
    ensures |QueuedBy(cycles, customers, st, s, now)| == |Reminded(cycles, customers, st, s, now)|
    ensures ResolvedBy(cycles, customers, st, s, now) == |Released(cycles, customers, st, s, now)|
  {
    if customers == [] {
      assert Reminded(cycles, customers, st, s, now) == {} && Released(cycles, customers, st, s, now) == {};
    } else {
      var n := |customers| - 1;
      var rest := customers[..n];
      assert forall i :: 0 <= i < n ==> customers[i] == rest[i];
      ReportCounts(cycles, rest, st, s, now);
      RunVisitsEachOnce(cycles, rest, st, s, now, customers[n].id);
      LastIsReminded(cycles, customers, st, s, now);
      assert n !in Reminded(cycles, rest, st, s, now) && n !in Released(cycles, rest, st, s, now);
    }
  }

  /** A second run of the job at the same moment queues nothing, as long as the interval is positive. */
  lemma {:induction false} SecondRunQueuesNothing(cycles: map<CustomerId, Cycle>, customers: seq<Customer>, st: State,
                                                  s: Settings, now: Micros, n: nat)
    requires DistinctCustomers(customers) && s.intervalHours > 0 && n <= |customers|
    ensures QueuedBy(AfterVisits(cycles, customers, st, s, now), customers[..n], st, s, now) == []
  {
    if n > 0 {
      var first := AfterVisits(cycles, customers, st, s, now);
      var prefix := customers[..n - 1];
      var customer := customers[n - 1];
      SecondRunQueuesNothing(cycles, customers, st, s, now, n - 1);
      assert customers[..n][..n - 1] == prefix;
      assert DistinctCustomers(prefix);
      RunVisitsEachOnce(cycles, customers, st, s, now, customer.id);
      RunVisitsEachOnce(first, prefix, st, s, now, customer.id);
      SecondVisitSendsIff(CycleOf(cycles, customer.id), Due(st, s, customer, now), s, now);
    }
  }

  // --- many runs of the job -------------------------------------------------------------

  datatype JobRun = JobRun(customers: seq<Customer>, st: State, now: Micros)

  function AfterRun(cycles: map<CustomerId, Cycle>, run: JobRun, s: Settings): map<CustomerId, Cycle> {
    if Active(s, run.now) then AfterVisits(cycles, run.customers, run.st, s, run.now) else cycles
  }

  function AfterRuns(runs: seq<JobRun>, s: Settings): map<CustomerId, Cycle> {
    if runs == [] then map[] else AfterRun(AfterRuns(runs[..|runs| - 1], s), runs[|runs| - 1], s)
  }

  function OutboxAfterRun(cycles: map<CustomerId, Cycle>, outbox: seq<Reminder>, run: JobRun,
                          s: Settings): seq<Reminder> {
    if Active(s, run.now) then outbox + QueuedBy(cycles, run.customers, run.st, s, run.now) else outbox
  }

  function OutboxAfterRuns(runs: seq<JobRun>, s: Settings): seq<Reminder> {
    if runs == [] then []
    else
      var earlier := runs[..|runs| - 1];
      OutboxAfterRun(AfterRuns(earlier, s), OutboxAfterRuns(earlier, s), runs[|runs| - 1], s)
  }

  /** The runs that list this customer, as visits. */
  function VisitsOf(runs: seq<JobRun>, c: CustomerId, s: Settings): seq<Visit> {
    if runs == [] then []
    else
      var last := runs[|runs| - 1];
      var index := FindCustomer(last.customers, c);
      VisitsOf(runs[..|runs| - 1], c, s)
      + if index.Some? then [Visit(last.now, Due(last.st, s, last.customers[index.value], last.now))] else []
  }

  /** All the moments of these cycles, in order. */
  function Flat(cycles: seq<seq<Micros>>): seq<Micros> {
    if cycles == [] then [] else Flat(cycles[..|cycles| - 1]) + cycles[|cycles| - 1]
  }

  lemma FlatOneMore(cycles: seq<seq<Micros>>, last: seq<Micros>)
    ensures Flat(cycles + [last]) == Flat(cycles) + last
  {
    assert (cycles + [last])[..|cycles|] == cycles;
  }

  lemma FlatGrows(past: seq<seq<Micros>>, sends: seq<Micros>, restarts: bool, added: seq<Micros>)
    ensures var earlier, kept := if restarts then past + [sends] else past, if restarts then [] else sends;
            Flat(earlier + [kept + added]) == Flat(past + [sends]) + added
  {
    FlatOneMore(past, sends);
    if restarts {
      FlatOneMore(past + [sends], added);
      assert [] + added == added;
    } else {
      FlatOneMore(past, sends + added);
      assert Flat(past) + (sends + added) == (Flat(past) + sends) + added;
    }
  }

  /** A visit adds its reminder at the end, in the current cycle or a new one. */
  lemma VisitAddsOne(t: Track, v: Visit, s: Settings)
    ensures Flat(CyclesOf(Visited(t, v, s))) ==
              Flat(CyclesOf(t)) + if Active(s, v.now) && Sends(t.cycle, v.due, s, v.now) then [v.now] else []
  {
    if Active(s, v.now) {
      var restarts := v.due && (t.cycle.None? || t.cycle.value.resolvedAt.Some?);
      var added := if Sends(t.cycle, v.due, s, v.now) then [v.now] else [];
      var kept := if restarts then [] else t.sends;
      FlatGrows(t.past, t.sends, restarts, added);
      assert Visited(t, v, s).sends == kept + added;
    }
  }

  lemma {:induction false} MomentsOfCycles(cycles: seq<seq<Micros>>, at: Micros)
    requires at in Flat(cycles)
    ensures exists k :: 0 <= k < |cycles| && at in cycles[k]
  {
    var n := |cycles| - 1;
    if at !in cycles[n] {
      MomentsOfCycles(cycles[..n], at);
      var k :| 0 <= k < n && at in cycles[..n][k];
      assert at in cycles[k];
    }
  }

  function AfterRunOf(t: Track, run: JobRun, s: Settings, c: CustomerId): Track {
    var index := FindCustomer(run.customers, c);
    if index.Some? then Visited(t, Visit(run.now, Due(run.st, s, run.customers[index.value], run.now)), s) else t
  }

  function TrackOf(runs: seq<JobRun>, s: Settings, c: CustomerId): Track {
    if runs == [] then NEW_TRACK else AfterRunOf(TrackOf(runs[..|runs| - 1], s, c), runs[|runs| - 1], s, c)
  }

  /** State and outbox of the job, as far as this customer goes, are those of the track. */
  ghost predicate Follows(cycles: map<CustomerId, Cycle>, outbox: seq<Reminder>, t: Track, c: CustomerId) {
    CycleOf(cycles, c) == t.cycle && SentTo(outbox, c) == Flat(CyclesOf(t))
  }

  /** One more run of the job is at most one more visit to a customer. */
  lemma RunIsOneVisit(cycles: map<CustomerId, Cycle>, outbox: seq<Reminder>, run: JobRun, s: Settings, t: Track,
                      c: CustomerId)
    requires DistinctCustomers(run.customers) && Follows(cycles, outbox, t, c)
    ensures Follows(AfterRun(cycles, run, s), OutboxAfterRun(cycles, outbox, run, s), AfterRunOf(t, run, s, c), c)
  {
    RunVisitsEachOnce(cycles, run.customers, run.st, s, run.now, c);
    RunSendsEachOnce(cycles, run.customers, run.st, s, run.now, c);
    SentToAppend(outbox, QueuedBy(cycles, run.customers, run.st, s, run.now), c);
    var index := FindCustomer(run.customers, c);
    if index.Some? {
      VisitAddsOne(t, Visit(run.now, Due(run.st, s, run.customers[index.value], run.now)), s);
    }
  }

  lemma {:induction false} TrackIsItsVisits(runs: seq<JobRun>, s: Settings, c: CustomerId)
    ensures TrackOf(runs, s, c) == VisitedAll(NEW_TRACK, VisitsOf(runs, c, s), s)
  {
    if runs != [] {
      var earlier, last := runs[..|runs| - 1], runs[|runs| - 1];
      var visits := VisitsOf(earlier, c, s);
      TrackIsItsVisits(earlier, s, c);
      var index := FindCustomer(last.customers, c);
      if index.Some? {
        var v := Visit(last.now, Due(last.st, s, last.customers[index.value], last.now));
        assert (visits + [v])[..|visits|] == visits;
      } else {
        assert VisitsOf(runs, c, s) == visits;
      }
    }
  }

  lemma {:induction false} JobFollowsTrackOf(runs: seq<JobRun>, s: Settings, c: CustomerId)
    requires forall i :: 0 <= i < |runs| ==> DistinctCustomers(runs[i].customers)
    ensures Follows(AfterRuns(runs, s), OutboxAfterRuns(runs, s), TrackOf(runs, s, c), c)
  {
    if runs != [] {
      var earlier, last := runs[..|runs| - 1], runs[|runs| - 1];
      assert forall i :: 0 <= i < |earlier| ==> earlier[i] == runs[i];
      JobFollowsTrackOf(earlier, s, c);
      RunIsOneVisit(AfterRuns(earlier, s), OutboxAfterRuns(earlier, s), last, s, TrackOf(earlier, s, c), c);
    } else {
      assert Flat([[]]) == Flat([[]][..0]) + [];
    }
  }

  /** Whatever else the job handles, a customer's stored state is that of the customer's own visits, and the
      outbox holds for this customer exactly the reminders of the track, so the pacing of a track is the pacing
      of the job. */
  lemma JobFollowsTracks(runs: seq<JobRun>, s: Settings, c: CustomerId)
    requires forall i :: 0 <= i < |runs| ==> DistinctCustomers(runs[i].customers)
    ensures Follows(AfterRuns(runs, s), OutboxAfterRuns(runs, s), VisitedAll(NEW_TRACK, VisitsOf(runs, c, s), s), c)
  {
    JobFollowsTrackOf(runs, s, c);
    TrackIsItsVisits(runs, s, c);
  }

  /** Over any runs of the job with fixed settings, the reminders a customer is sent fall into cycles, one
      after another, each of them paced; so none is ever sent in the quiet hours. */
  lemma RemindersArePaced(runs: seq<JobRun>, s: Settings, c: CustomerId)
    requires forall i :: 0 <= i < |runs| ==> DistinctCustomers(runs[i].customers)
    ensures var cycles := CyclesOf(VisitedAll(NEW_TRACK, VisitsOf(runs, c, s), s));
            && SentTo(OutboxAfterRuns(runs, s), c) == Flat(cycles)
            && forall k :: 0 <= k < |cycles| ==> Paced(cycles[k], s)
    ensures forall at :: at in SentTo(OutboxAfterRuns(runs, s), c) ==> !Quiet(HourInIndia(at), s.quietStart, s.quietEnd)
  {
    var visits := VisitsOf(runs, c, s);
    var cycles := CyclesOf(VisitedAll(NEW_TRACK, visits, s));
    JobFollowsTracks(runs, s, c);
    forall k | 0 <= k < |cycles|
      ensures Paced(cycles[k], s)
    {
      CycleIsPaced(visits, s, k);
    }
    forall at | at in SentTo(OutboxAfterRuns(runs, s), c)
      ensures !Quiet(HourInIndia(at), s.quietStart, s.quietEnd)
    {
      MomentsOfCycles(cycles, at);
    }
  }
}
