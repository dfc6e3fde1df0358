/** A customer's credit over whole runs: orders, bills, payments, rejections and overrides. */
module CreditHistory {
  import opened Clock
  import opened Wrappers
  import opened Credit
  import opened Payments

  /** Deliveries belong to another part of the system and appear by their effect: a bill replaces an
      outstanding order by an invoice for no more than the order, and an order can end without one. */
  datatype Event =
    | PlaceOrder(customer: CustomerId, id: string, amount: nat, now: Micros)
    | AmendOrder(index: nat, amount: nat, now: Micros)
    | GrantOverride(grant: Override)
    | Bill(index: nat, invoiceId: string, total: nat, now: Micros)
    | Collect(index: nat, money: int, cash: bool)
    | Reconcile(payment: nat, found: bool, reason: string)
    | Close(index: nat, delivered: bool)

  const PAYMENT_TERM: Micros := 7 * DAY

  predicate Legal(st: State, e: Event) {
    match e
    case PlaceOrder(_, id, _, _) => forall i :: 0 <= i < |st.orders| ==> st.orders[i].id != id
    case AmendOrder(i, _, _) => i < |st.orders| && st.orders[i].Outstanding()
    case GrantOverride(grant) => grant.consumedAt.None?
    case Bill(i, _, total, _) => i < |st.orders| && st.orders[i].Outstanding() && total <= st.orders[i].amount
    case Collect(i, _, _) => i < |st.invoices|
    case Reconcile(p, _, _) => p < |st.payments| && st.payments[p].invoice < |st.invoices|
    case Close(i, _) => i < |st.orders|
  }

  /** A new bill: nothing is paid yet, and it is due a week from now. */
  function Issued(id: string, c: CustomerId, total: nat, now: Micros): Invoice {
    Invoice(id, c, total, 0, total, now, now + PAYMENT_TERM)
  }

  function BooksOf(st: State): Books {
    Books(st.invoices, st.payments)
  }

  function WithBooks(st: State, b: Books): State {
    st.(invoices := b.invoices, payments := b.payments)
  }

  /** The verdict a placement or amendment gets. */
  function VerdictOn(st: State, terms: CustomerId -> Terms, e: Event): (v: Verdict)
    requires Legal(st, e)
    ensures v.ByOverride? ==> v.index < |st.overrides|
  {
    match e
    case PlaceOrder(c, _, amount, now) => Judge(st, terms(c), c, amount, None, now)
    case AmendOrder(i, amount, now) =>
      var order := st.orders[i];
      Judge(st, terms(order.customer), order.customer, amount, Some(order.id), now)
    case _ => Fits
  }

  function Next(st: State, terms: CustomerId -> Terms, e: Event): State
    requires Legal(st, e)
  {
    var v := VerdictOn(st, terms, e);
    if v.NotAllowed? then st
    else match e
      case PlaceOrder(c, id, amount, now) =>
        var st1 := AfterJudgement(st, v, now);
        st1.(orders := st1.orders + [Order(id, c, amount, false, PLACED)])
      case AmendOrder(i, amount, now) =>
        var st1 := AfterJudgement(st, v, now);
        st1.(orders := st1.orders[i := st1.orders[i].(amount := amount)])
      case GrantOverride(grant) => st.(overrides := st.overrides + [grant])
      case Bill(i, invoiceId, total, now) =>
        st.(orders := st.orders[i := st.orders[i].(invoiced := true)],
            invoices := st.invoices + [Issued(invoiceId, st.orders[i].customer, total, now)])
      case Collect(i, amount, cash) => WithBooks(st, Recorded(BooksOf(st), i, amount, cash))
      case Reconcile(p, found, reason) => WithBooks(st, Settled(BooksOf(st), p, found, reason))
      case Close(i, delivered) =>
        st.(orders := st.orders[i := st.orders[i].(status := if delivered then DELIVERED else CANCELLED)])
  }

  ghost predicate Sound(st: State) {
    DistinctOrders(st.orders) && LedgerIsSound(BooksOf(st))
  }

  // --- the bound ------------------------------------------------------------------------

  /** Exposure beyond the limit is covered by used overrides, up to `extra`. */
  ghost predicate Within(st: State, terms: CustomerId -> Terms, c: CustomerId, extra: nat) {
    Exposure(st, c) <= terms(c).limit + Consumed(st.overrides, c) + extra
  }

  /** The bound the limit itself promises. */
  ghost predicate Covered(st: State, terms: CustomerId -> Terms, c: CustomerId) {
    Within(st, terms, c, 0)
  }

  /** What this event puts back on the customer's invoices. */
  function RejectedAmount(st: State, e: Event, c: CustomerId): nat
    requires Legal(st, e)
  {
    if e.Reconcile? && Rejects(BooksOf(st), e.payment, e.found, e.reason) && st.payments[e.payment].customer == c
    then st.payments[e.payment].amount else 0
  }

  lemma JudgementMovesConsumed(st: State, t: Terms, who: CustomerId, proposed: nat, replacing: Option<string>,
                               now: Micros, c: CustomerId)
    ensures var v := Judge(st, t, who, proposed, replacing, now);
            Consumed(AfterJudgement(st, v, now).overrides, c) ==
              Consumed(st.overrides, c) + if v.ByOverride? && who == c then st.overrides[v.index].amount else 0
  {
    var v := Judge(st, t, who, proposed, replacing, now);
    if v.ByOverride? {
      ConsumedAfterUpdate(st.overrides, v.index, now, c);
    }
  }

  lemma PlacingKeepsBound(st: State, terms: CustomerId -> Terms, e: Event, c: CustomerId, extra: nat)
    requires Legal(st, e) && e.PlaceOrder? && Within(st, terms, c, extra) && terms(c).Enabled()
    ensures Within(Next(st, terms, e), terms, c, extra)
  {
    if !VerdictOn(st, terms, e).NotAllowed? {
      PendingAppend(st.orders, Order(e.id, e.customer, e.amount, false, PLACED), c);
      JudgementMovesConsumed(st, terms(e.customer), e.customer, e.amount, None, e.now, c);
    }
  }

  lemma AmendingKeepsBound(st: State, terms: CustomerId -> Terms, e: Event, c: CustomerId, extra: nat)
    requires Legal(st, e) && e.AmendOrder? && Within(st, terms, c, extra) && terms(c).Enabled()
        && DistinctOrders(st.orders)
    ensures Within(Next(st, terms, e), terms, c, extra)
  {
    if !VerdictOn(st, terms, e).NotAllowed? {
      var o := st.orders[e.index];
      PendingWithoutReplaced(st.orders, e.index, o.customer);
      PendingAfterUpdate(st.orders, e.index, o.(amount := e.amount), c);
      JudgementMovesConsumed(st, terms(o.customer), o.customer, e.amount, Some(o.id), e.now, c);
    }
  }

  lemma BillingKeepsBound(st: State, terms: CustomerId -> Terms, e: Event, c: CustomerId)
    requires Legal(st, e) && e.Bill?
    ensures Exposure(Next(st, terms, e), c) <= Exposure(st, c)
  {
    var order := st.orders[e.index];
    PendingAfterUpdate(st.orders, e.index, order.(invoiced := true), c);
    InvoicedAppend(st.invoices, Issued(e.invoiceId, order.customer, e.total, e.now), c);
  }

  lemma ClosingKeepsBound(st: State, terms: CustomerId -> Terms, e: Event, c: CustomerId)
    requires Legal(st, e) && e.Close?
    ensures Exposure(Next(st, terms, e), c) <= Exposure(st, c)
  {
    var order := st.orders[e.index];
    PendingAfterUpdate(st.orders, e.index, order.(status := if e.delivered then DELIVERED else CANCELLED), c);
  }

  lemma CollectingKeepsBound(st: State, terms: CustomerId -> Terms, e: Event, c: CustomerId)
    requires Legal(st, e) && e.Collect? && Sound(st)
    ensures Exposure(Next(st, terms, e), c) <= Exposure(st, c)
  {
    RecordingKeepsLedger(BooksOf(st), e.index, e.money, e.cash);
    if MayCollect(st.invoices[e.index], e.money) {
      InvoicedAfterUpdate(st.invoices, e.index, Applied(st.invoices[e.index], e.money), c);
    }
  }

  /** Settling a payment moves exposure by exactly what it puts back. */
  lemma SettlingMovesExposure(st: State, terms: CustomerId -> Terms, e: Event, c: CustomerId)
    requires Legal(st, e) && e.Reconcile? && Sound(st)
    ensures Exposure(Next(st, terms, e), c) == Exposure(st, c) + RejectedAmount(st, e, c)
  {
    var b := BooksOf(st);
    SettlingKeepsLedger(b, e.payment, e.found, e.reason);
    if Rejects(b, e.payment, e.found, e.reason) {
      var payment := st.payments[e.payment];
      assert InvoiceBalances(b, payment.invoice);
      InvoicedAfterUpdate(st.invoices, payment.invoice, Applied(st.invoices[payment.invoice], 0 - payment.amount), c);
    }
  }

  /** One event: the excess over limit and overrides grows by no more than what the event puts back. */
  lemma StepMovesBound(st: State, terms: CustomerId -> Terms, e: Event, c: CustomerId, extra: nat)
    requires Legal(st, e) && Sound(st) && terms(c).Enabled() && Within(st, terms, c, extra)
    ensures Within(Next(st, terms, e), terms, c, extra + RejectedAmount(st, e, c))
  {
    match e
    case PlaceOrder(_, _, _, _) => PlacingKeepsBound(st, terms, e, c, extra);
    case AmendOrder(_, _, _) => AmendingKeepsBound(st, terms, e, c, extra);
    case GrantOverride(grant) => ConsumedAppend(st.overrides, grant, c);
    case Bill(_, _, _, _) => BillingKeepsBound(st, terms, e, c);
    case Collect(_, _, _) => CollectingKeepsBound(st, terms, e, c);
    case Reconcile(_, _, _) => SettlingMovesExposure(st, terms, e, c);
    case Close(_, _) => ClosingKeepsBound(st, terms, e, c);
  }

  /** What an event adds to a customer's exposure, or takes off it when negative. */
  function ExposureAdded(st: State, terms: CustomerId -> Terms, e: Event, c: CustomerId): int
    requires Legal(st, e)
  {
    match e
    case PlaceOrder(who, _, amount, _) => if who == c && !VerdictOn(st, terms, e).NotAllowed? then amount else 0
    case AmendOrder(i, amount, _) =>
      if st.orders[i].customer == c && !VerdictOn(st, terms, e).NotAllowed? then amount - st.orders[i].amount else 0
    case GrantOverride(_) => 0
    case Bill(i, _, total, _) => if st.orders[i].customer == c then total - st.orders[i].amount else 0
    case Collect(i, money, _) =>
      var invoice := st.invoices[i];
      if invoice.customer == c && 0 < money <= 10_000_000 && money <= invoice.balance then 0 - money else 0
    case Reconcile(p, found, reason) =>
      var payment := st.payments[p];
      if payment.customer == c && payment.status == PENDING && !found && reason != "" then payment.amount else 0
    case Close(i, _) =>
      var order := st.orders[i];
      if order.customer == c && !order.invoiced && order.status in {PLACED, CONFIRMED, OUT_FOR_DELIVERY, ON_LOCATION}
      then 0 - order.amount else 0
  }

  /** Exposure moves by exactly what was allowed, amended, billed, collected, rejected or closed. */
  lemma ExposureMovesExactly(st: State, terms: CustomerId -> Terms, e: Event, c: CustomerId)
    requires Legal(st, e) && Sound(st)
    ensures Exposure(Next(st, terms, e), c) == Exposure(st, c) + ExposureAdded(st, terms, e, c)
  {
    match e
    case PlaceOrder(who, id, amount, _) => PendingAppend(st.orders, Order(id, who, amount, false, PLACED), c);
    case AmendOrder(i, amount, _) => PendingAfterUpdate(st.orders, i, st.orders[i].(amount := amount), c);
    case GrantOverride(_) =>
    case Bill(_, _, _, _) => EndingMovesExposure(st, terms, e, c);
    case Collect(_, _, _) => CollectingMovesExposure(st, terms, e, c);
    case Reconcile(_, _, _) => SettlingMovesExposure(st, terms, e, c);
    case Close(_, _) => EndingMovesExposure(st, terms, e, c);
  }

  lemma EndingMovesExposure(st: State, terms: CustomerId -> Terms, e: Event, c: CustomerId)
    requires Legal(st, e) && (e.Bill? || e.Close?)
    ensures Exposure(Next(st, terms, e), c) == Exposure(st, c) + ExposureAdded(st, terms, e, c)
  {
    var order := st.orders[e.index];
    if e.Bill? {
      PendingAfterUpdate(st.orders, e.index, order.(invoiced := true), c);
      InvoicedAppend(st.invoices, Issued(e.invoiceId, order.customer, e.total, e.now), c);
    } else {
      PendingAfterUpdate(st.orders, e.index, order.(status := if e.delivered then DELIVERED else CANCELLED), c);
    }
  }

  lemma CollectingMovesExposure(st: State, terms: CustomerId -> Terms, e: Event, c: CustomerId)
    requires Legal(st, e) && Sound(st) && e.Collect?
    ensures Exposure(Next(st, terms, e), c) == Exposure(st, c) + ExposureAdded(st, terms, e, c)
  {
    RecordingKeepsLedger(BooksOf(st), e.index, e.money, e.cash);
    CollectedIff(BooksOf(st), e.index, e.money, e.cash);
    if MayCollect(st.invoices[e.index], e.money) {
      InvoicedAfterUpdate(st.invoices, e.index, Applied(st.invoices[e.index], e.money), c);
    }
  }

  lemma StepMovesPutBack(st: State, terms: CustomerId -> Terms, e: Event, c: CustomerId)
    requires Legal(st, e)
    ensures PutBack(Next(st, terms, e).payments, c) == PutBack(st.payments, c) + RejectedAmount(st, e, c)
  {
    if e.Collect? && MayCollect(st.invoices[e.index], e.money) {
      SumsAppend(st.payments, Next(st, terms, e).payments[|st.payments|], 0, c);
    } else if e.Reconcile? {
      SumsAfterUpdate(st.payments, e.payment, Next(st, terms, e).payments[e.payment], 0, c);
    }
  }

  lemma BillingKeepsLedger(st: State, terms: CustomerId -> Terms, e: Event)
    requires Legal(st, e) && e.Bill? && Sound(st)
    ensures LedgerIsSound(BooksOf(Next(st, terms, e)))
  {
    var b, after := BooksOf(st), BooksOf(Next(st, terms, e));
    forall i | 0 <= i < |after.invoices|
      ensures InvoiceBalances(after, i)
    {
      if i < |b.invoices| {
        assert InvoiceBalances(b, i);
      } else {
        NothingPaidYet(b.payments, i);
      }
    }
  }

  lemma {:induction false} NothingPaidYet(payments: seq<Payment>, i: nat)
    requires forall p :: 0 <= p < |payments| ==> payments[p].invoice != i
    ensures PaidOn(payments, i) == 0
  {
    if payments != [] {
      assert forall p :: 0 <= p < |payments[1..]| ==> payments[1..][p] == payments[p + 1];
      NothingPaidYet(payments[1..], i);
    }
  }

  lemma StepKeepsSound(st: State, terms: CustomerId -> Terms, e: Event)
    requires Legal(st, e) && Sound(st)
    ensures Sound(Next(st, terms, e))
  {
    match e
    case Bill(_, _, _, _) => BillingKeepsLedger(st, terms, e);
    case Collect(i, amount, cash) => RecordingKeepsLedger(BooksOf(st), i, amount, cash);
    case Reconcile(p, found, reason) => SettlingKeepsLedger(BooksOf(st), p, found, reason);
    case _ => assert BooksOf(Next(st, terms, e)) == BooksOf(st);
  }

  // --- runs -----------------------------------------------------------------------------

  ghost predicate LegalRun(st: State, terms: CustomerId -> Terms, events: seq<Event>)
    decreases |events|
  {
    events != [] ==> Legal(st, events[0]) && LegalRun(Next(st, terms, events[0]), terms, events[1..])
  }

  ghost function Run(st: State, terms: CustomerId -> Terms, events: seq<Event>): State
    requires LegalRun(st, terms, events)
    decreases |events|
  {
    if events == [] then st else Run(Next(st, terms, events[0]), terms, events[1..])
  }

  const EMPTY := State([], [], [], [])

  lemma {:induction false} RunKeepsSound(st: State, terms: CustomerId -> Terms, events: seq<Event>)
    requires LegalRun(st, terms, events) && Sound(st)
    ensures Sound(Run(st, terms, events))
    decreases |events|
  {
    if events != [] {
      StepKeepsSound(st, terms, events[0]);
      RunKeepsSound(Next(st, terms, events[0]), terms, events[1..]);
    }
  }

  /** In every reachable state each invoice has received exactly the payments not rejected, owes the rest of
      its total, and never owes less than nothing. */
  lemma MoneyIsConserved(terms: CustomerId -> Terms, events: seq<Event>, i: nat)
    requires LegalRun(EMPTY, terms, events) && i < |Run(EMPTY, terms, events).invoices|
    ensures var st := Run(EMPTY, terms, events);
            && PaidOn(st.payments, i) + st.invoices[i].balance == st.invoices[i].total
            && st.invoices[i].balance >= 0
  {
    RunKeepsSound(EMPTY, terms, events);
    assert InvoiceBalances(BooksOf(Run(EMPTY, terms, events)), i);
  }

  lemma {:induction false} RunStaysWithin(st: State, terms: CustomerId -> Terms, events: seq<Event>, c: CustomerId,
                                          extra: nat)
    requires LegalRun(st, terms, events) && Sound(st) && terms(c).Enabled()
        && Within(st, terms, c, extra + PutBack(st.payments, c))
    ensures var after := Run(st, terms, events); Within(after, terms, c, extra + PutBack(after.payments, c))
    decreases |events|
  {
    if events != [] {
      var e := events[0];
      StepMovesBound(st, terms, e, c, extra + PutBack(st.payments, c));
      StepMovesPutBack(st, terms, e, c);
      StepKeepsSound(st, terms, e);
      RunStaysWithin(Next(st, terms, e), terms, events[1..], c, extra);
    }
  }

  /** With the limit unchanged and no failing check, over any run a customer's exposure never passes the limit
      plus the overrides used up plus the money that rejected payments put back. */
  lemma ExposureStaysCovered(terms: CustomerId -> Terms, events: seq<Event>, c: CustomerId)
    requires LegalRun(EMPTY, terms, events) && terms(c).Enabled()
    ensures var st := Run(EMPTY, terms, events);
            Exposure(st, c) <= terms(c).limit + Consumed(st.overrides, c) + PutBack(st.payments, c)
  {
    RunStaysWithin(EMPTY, terms, events, c, 0);
  }

  /** There is room for what the event puts back. */
  ghost predicate HasRoom(st: State, terms: CustomerId -> Terms, e: Event, c: CustomerId)
    requires Legal(st, e)
  {
    Exposure(st, c) + RejectedAmount(st, e, c) <= terms(c).limit + Consumed(st.overrides, c)
  }

  /** One event keeps the bound of limit and overrides exactly when it puts back no more than there is room
      for; only a rejected payment of this customer puts anything back. */
  lemma StepKeepsCoverIff(st: State, terms: CustomerId -> Terms, e: Event, c: CustomerId)
    requires Legal(st, e) && Sound(st) && terms(c).Enabled() && Covered(st, terms, c)
    ensures Covered(Next(st, terms, e), terms, c) <==> HasRoom(st, terms, e, c)
  {
    if e.Reconcile? {
      SettlingMovesExposure(st, terms, e, c);
    } else {
      StepMovesBound(st, terms, e, c, 0);
    }
  }

  ghost predicate CoveredThroughout(st: State, terms: CustomerId -> Terms, events: seq<Event>, c: CustomerId)
    requires LegalRun(st, terms, events)
    decreases |events|
  {
    Covered(st, terms, c) && (events != [] ==> CoveredThroughout(Next(st, terms, events[0]), terms, events[1..], c))
  }

  /** Every rejection of the run finds room when it happens. */
  ghost predicate RejectionsHaveRoom(st: State, terms: CustomerId -> Terms, events: seq<Event>, c: CustomerId)
    requires LegalRun(st, terms, events)
    decreases |events|
  {
    events != [] ==>
      && (RejectedAmount(st, events[0], c) > 0 ==> HasRoom(st, terms, events[0], c))
      && RejectionsHaveRoom(Next(st, terms, events[0]), terms, events[1..], c)
  }

  /** The bound of limit and overrides holds at every moment of a run exactly when every rejected payment
      finds room for its amount. */
  lemma {:induction false} CoverSurvivesIff(st: State, terms: CustomerId -> Terms, events: seq<Event>, c: CustomerId)
    requires LegalRun(st, terms, events) && Sound(st) && terms(c).Enabled() && Covered(st, terms, c)
    ensures CoveredThroughout(st, terms, events, c) <==> RejectionsHaveRoom(st, terms, events, c)
    decreases |events|
  {
    if events != [] {
      var next := Next(st, terms, events[0]);
      StepKeepsCoverIff(st, terms, events[0], c);
      if Covered(next, terms, c) {
        StepKeepsSound(st, terms, events[0]);
        CoverSurvivesIff(next, terms, events[1..], c);
      }
    }
  }

  /** Place an order for the whole limit, have it billed, pay by transfer, place another; then the bank
      does not find the payment. */
  function BouncedPayment(c: CustomerId, limit: nat): seq<Event> {
    [PlaceOrder(c, "1", limit, 0), Bill(0, "i", limit, 0), Collect(0, limit, false), PlaceOrder(c, "2", limit, 1),
     Reconcile(0, false, "not found")]
  }

  /** The tables while that run goes on. */
  function Bought(c: CustomerId, limit: nat, billed: bool): State {
    State(if billed then [Issued("i", c, limit, 0)] else [], [Order("1", c, limit, billed, PLACED)], [], [])
  }

  function Paid(c: CustomerId, limit: nat, again: bool): State {
    State([Issued("i", c, limit, 0).(paid := limit, balance := 0)],
          [Order("1", c, limit, true, PLACED)] + (if again then [Order("2", c, limit, false, PLACED)] else []),
          [], [Payment(0, c, limit, PENDING)])
  }

  function Bounced(c: CustomerId, limit: nat): State {
    State([Issued("i", c, limit, 0)], Paid(c, limit, true).orders, [], [Payment(0, c, limit, INVALID)])
  }

  lemma BuyingSteps(terms: CustomerId -> Terms, c: CustomerId)
    requires terms(c).Enabled()
    ensures var limit := terms(c).limit;
            var run := BouncedPayment(c, limit);
            && Legal(EMPTY, run[0]) && Next(EMPTY, terms, run[0]) == Bought(c, limit, false)
            && Legal(Bought(c, limit, false), run[1])
            && Next(Bought(c, limit, false), terms, run[1]) == Bought(c, limit, true)
  {
  }

  lemma PayingSteps(terms: CustomerId -> Terms, c: CustomerId)
    requires terms(c).Enabled() && terms(c).limit <= MAX_PAYMENT_AMOUNT
    ensures var limit := terms(c).limit;
            var run := BouncedPayment(c, limit);
            && Legal(Bought(c, limit, true), run[2])
            && Next(Bought(c, limit, true), terms, run[2]) == Paid(c, limit, false)
            && Legal(Paid(c, limit, false), run[3])
            && Next(Paid(c, limit, false), terms, run[3]) == Paid(c, limit, true)
            && Legal(Paid(c, limit, true), run[4]) && Next(Paid(c, limit, true), terms, run[4]) == Bounced(c, limit)
  {
    var limit := terms(c).limit;
    var paid := Paid(c, limit, false);
    assert paid.orders == [Order("1", c, limit, true, PLACED)] && paid.orders[1..] == [] && paid.invoices[1..] == [];
    assert Invoiced(paid.invoices, c) == 0;
    assert Pending(paid.orders, c, None) == 0;
  }

  lemma BouncedExposure(c: CustomerId, limit: nat)
    ensures Exposure(Bounced(c, limit), c) == 2 * limit
  {
    var bounced, second := Bounced(c, limit), Order("2", c, limit, false, PLACED);
    assert bounced.orders[1..] == [second] && [second][1..] == [];
    assert Pending([second], c, None) == limit;
    assert bounced.invoices[1..] == [];
    assert Invoiced(bounced.invoices[1..], c) == 0;
  }

  /** The first event of a run, taken off. */
  lemma Unfold(st: State, terms: CustomerId -> Terms, run: seq<Event>, next: State, c: CustomerId)
    requires run != [] && Legal(st, run[0]) && next == Next(st, terms, run[0]) && LegalRun(next, terms, run[1..])
    ensures LegalRun(st, terms, run) && Run(st, terms, run) == Run(next, terms, run[1..])
    ensures CoveredThroughout(st, terms, run, c) ==> CoveredThroughout(next, terms, run[1..], c)
  {
  }

  lemma PayingRun(terms: CustomerId -> Terms, c: CustomerId, run: seq<Event>)
    requires terms(c).Enabled() && terms(c).limit <= MAX_PAYMENT_AMOUNT && run == BouncedPayment(c, terms(c).limit)[2..]
    ensures var limit := terms(c).limit;
            && LegalRun(Bought(c, limit, true), terms, run)
            && Run(Bought(c, limit, true), terms, run) == Bounced(c, limit)
            && !CoveredThroughout(Bought(c, limit, true), terms, run, c)
  {
    var limit := terms(c).limit;
    PayingSteps(terms, c);
    BouncedExposure(c, limit);
    var end := run[1..][1..][1..];
    assert end == [];
    assert LegalRun(Bounced(c, limit), terms, end) && !CoveredThroughout(Bounced(c, limit), terms, end, c);
    Unfold(Paid(c, limit, true), terms, run[1..][1..], Bounced(c, limit), c);
    Unfold(Paid(c, limit, false), terms, run[1..], Paid(c, limit, true), c);
    Unfold(Bought(c, limit, true), terms, run, Paid(c, limit, false), c);
  }

  /** For every limit that can be paid at once that run passes the limit, without any override. */
  lemma BouncedPaymentPassesTheLimit(terms: CustomerId -> Terms, c: CustomerId)
    requires terms(c).Enabled() && terms(c).limit <= MAX_PAYMENT_AMOUNT
    ensures var run := BouncedPayment(c, terms(c).limit);
            && LegalRun(EMPTY, terms, run)
            && Exposure(Run(EMPTY, terms, run), c) == 2 * terms(c).limit
            && Consumed(Run(EMPTY, terms, run).overrides, c) == 0
            && !CoveredThroughout(EMPTY, terms, run, c)
  {
    var limit := terms(c).limit;
    var run := BouncedPayment(c, limit);
    BuyingSteps(terms, c);
    PayingRun(terms, c, run[2..]);
    BouncedExposure(c, limit);
    assert run[1..][1..] == run[2..];
    Unfold(Bought(c, limit, false), terms, run[1..], Bought(c, limit, true), c);
    Unfold(EMPTY, terms, run, Bought(c, limit, false), c);
  }

  // --- overrides ------------------------------------------------------------------------

  /** The events of a run that use up override `i`. */
  ghost function Uses(st: State, terms: CustomerId -> Terms, events: seq<Event>, i: nat): nat
    requires LegalRun(st, terms, events)
    decreases |events|
  {
    if events == [] then 0
    else
      (if VerdictOn(st, terms, events[0]) == ByOverride(i) then 1 else 0)
      + Uses(Next(st, terms, events[0]), terms, events[1..], i)
  }

  lemma {:induction false} UsedOverrideIsGone(st: State, terms: CustomerId -> Terms, events: seq<Event>, i: nat)
    requires LegalRun(st, terms, events) && i < |st.overrides| && st.overrides[i].consumedAt.Some?
    ensures Uses(st, terms, events, i) == 0
    ensures i < |Run(st, terms, events).overrides| && Run(st, terms, events).overrides[i] == st.overrides[i]
    decreases |events|
  {
    if events != [] {
      var next := Next(st, terms, events[0]);
      assert VerdictOn(st, terms, events[0]) != ByOverride(i);
      assert next.overrides[i] == st.overrides[i];
      UsedOverrideIsGone(next, terms, events[1..], i);
    }
  }

  /** Over any run each override is used at most once. */
  lemma {:induction false} OverrideIsUsedAtMostOnce(st: State, terms: CustomerId -> Terms, events: seq<Event>, i: nat)
    requires LegalRun(st, terms, events)
    ensures Uses(st, terms, events, i) <= 1
    decreases |events|
  {
    if events != [] {
      var next := Next(st, terms, events[0]);
      if VerdictOn(st, terms, events[0]) == ByOverride(i) {
        UsedOverrideIsGone(next, terms, events[1..], i);
      } else {
        OverrideIsUsedAtMostOnce(next, terms, events[1..], i);
      }
    }
  }

  ghost predicate ConsumedBeforeExpiry(overrides: seq<Override>) {
    forall i :: 0 <= i < |overrides| && overrides[i].consumedAt.Some? ==>
        overrides[i].consumedAt.value < overrides[i].expiresAt
  }

  /** No override is ever used at or after its expiry. */
  lemma {:induction false} OverridesAreConsumedInTime(st: State, terms: CustomerId -> Terms, events: seq<Event>)
    requires LegalRun(st, terms, events) && ConsumedBeforeExpiry(st.overrides)
    ensures ConsumedBeforeExpiry(Run(st, terms, events).overrides)
    decreases |events|
  {
    if events != [] {
      OverridesAreConsumedInTime(Next(st, terms, events[0]), terms, events[1..]);
    }
  }
}
