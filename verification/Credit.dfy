/** Trade credit: what a customer has used, and whether the next order fits. */
module Credit {
  import opened Clock
  import opened Counting
  import opened Wrappers

  type CustomerId = string

  /** `balance` is a stored column; `Payments` keeps it in step with the money collected. */
  datatype Invoice = Invoice(id: string, customer: CustomerId, total: nat, paid: int, balance: int, issuedAt: Micros,
                             dueAt: Micros)

  datatype Reconciliation = PENDING | RECONCILED | INVALID

  /** Money collected against the invoice at this index. */
  datatype Payment = Payment(invoice: nat, customer: CustomerId, amount: nat, status: Reconciliation)

  datatype OrderStatus = PLACED | CONFIRMED | OUT_FOR_DELIVERY | ON_LOCATION | DELIVERED | CANCELLED

  datatype Order = Order(id: string, customer: CustomerId, amount: nat, invoiced: bool, status: OrderStatus) {
    /** Counts against the limit: not billed yet and still to be delivered. */
    predicate Outstanding() {
      !invoiced && status != CANCELLED && status != DELIVERED
    }
  }

  datatype Override = Override(customer: CustomerId, amount: nat, createdAt: Micros, expiresAt: Micros,
                               consumedAt: Option<Micros>)

  /** The credit columns of a customer, with the platform switch. */
  datatype Terms = Terms(platformEnabled: bool, customerEnabled: bool, limit: int) {
    predicate Enabled() {
      platformEnabled && customerEnabled && limit > 0
    }
  }

  datatype Snapshot = Snapshot(enabled: bool, limit: int, used: int, available: int, proposed: nat) {
    predicate Exceeds() {
      enabled && used + proposed > limit
    }
  }

  datatype State = State(invoices: seq<Invoice>, orders: seq<Order>, overrides: seq<Override>, payments: seq<Payment>)

  // --- sums -----------------------------------------------------------------------------

  function Invoiced(invoices: seq<Invoice>, c: CustomerId): nat {
    if invoices == [] then 0
    else
      (if invoices[0].customer == c && invoices[0].balance > 0 then invoices[0].balance else 0)
      + Invoiced(invoices[1..], c)
  }

  /** Outstanding orders, leaving out the one that is being replaced. */
  function Pending(orders: seq<Order>, c: CustomerId, replacing: Option<string>): nat {
    if orders == [] then 0
    else (if orders[0].customer == c && orders[0].Outstanding() && replacing != Some(orders[0].id)
          then orders[0].amount else 0)
         + Pending(orders[1..], c, replacing)
  }

  function Exposure(st: State, c: CustomerId): nat {
    Invoiced(st.invoices, c) + Pending(st.orders, c, None)
  }

  /** The amounts of the overrides this customer has used up. */
  function Consumed(overrides: seq<Override>, c: CustomerId): nat {
    if overrides == [] then 0
    else
      (if overrides[0].customer == c && overrides[0].consumedAt.Some? then overrides[0].amount else 0)
      + Consumed(overrides[1..], c)
  }

  function SnapshotOf(st: State, terms: Terms, c: CustomerId, proposed: nat, replacing: Option<string>,
                      includeDisabledUsage: bool): Snapshot {
    if !terms.Enabled() && !includeDisabledUsage then Snapshot(false, terms.limit, 0, terms.limit, proposed)
    else
      var used := Invoiced(st.invoices, c) + Pending(st.orders, c, replacing);
      Snapshot(terms.Enabled(), terms.limit, used, Max(terms.limit - used, 0), proposed)
  }

  predicate Eligible(o: Override, c: CustomerId, proposed: nat, now: Micros) {
    o.customer == c && o.consumedAt.None? && o.expiresAt > now && o.amount >= proposed
  }

  /** The oldest override that covers the amount. */
  function FindOverride(overrides: seq<Override>, c: CustomerId, proposed: nat, now: Micros): (found: Option<nat>)
    ensures found.Some? ==> found.value < |overrides| && Eligible(overrides[found.value], c, proposed, now)
    ensures found.Some? ==> forall i :: 0 <= i < |overrides| && Eligible(overrides[i], c, proposed, now) ==>
              overrides[found.value].createdAt <= overrides[i].createdAt
    ensures found.None? ==> forall i :: 0 <= i < |overrides| ==> !Eligible(overrides[i], c, proposed, now)
  {
    if overrides == [] then None
    else
      var n := |overrides| - 1;
      var rest := FindOverride(overrides[..n], c, proposed, now);
      assert forall i :: 0 <= i < n ==> overrides[i] == overrides[..n][i];
      if Eligible(overrides[n], c, proposed, now)
          && (rest.None? || overrides[n].createdAt < overrides[rest.value].createdAt) then Some(n)
      else rest
  }

  datatype Verdict = Fits | ByOverride(index: nat) | NotAllowed

  function Judge(st: State, terms: Terms, c: CustomerId, proposed: nat, replacing: Option<string>,
                 now: Micros): (v: Verdict)
    ensures v.ByOverride? ==> v.index < |st.overrides| && Eligible(st.overrides[v.index], c, proposed, now)
  {
    if !SnapshotOf(st, terms, c, proposed, replacing, false).Exceeds() then Fits
    else match FindOverride(st.overrides, c, proposed, now)
         case None => NotAllowed
         case Some(i) => ByOverride(i)
  }

  function AfterJudgement(st: State, v: Verdict, now: Micros): State
    requires v.ByOverride? ==> v.index < |st.overrides|
  {
    if v.ByOverride? then st.(overrides := st.overrides[v.index := st.overrides[v.index].(consumedAt := Some(now))])
    else st
  }

  // --- what the check comes to ----------------------------------------------------------

  /** Every rupee the customer still owes: the k-th of invoice i. */
  function Owing(invoices: seq<Invoice>, c: CustomerId): set<(nat, nat)> {
    set i: nat, k: nat | i < |invoices| && invoices[i].customer == c && k < invoices[i].balance :: (i, k)
  }

  /** Every rupee of the customer's orders that are on their way and not billed, but for the one replaced. */
  function OnOrder(orders: seq<Order>, c: CustomerId, replacing: Option<string>): set<(nat, nat)> {
    set i: nat, k: nat | i < |orders| && orders[i].customer == c && !orders[i].invoiced
                         && orders[i].status in {PLACED, CONFIRMED, OUT_FOR_DELIVERY, ON_LOCATION}
                         && replacing != Some(orders[i].id) && k < orders[i].amount :: (i, k)
  }

  lemma LastOwing(invoices: seq<Invoice>, c: CustomerId)
    requires invoices != []
    ensures var n := |invoices| - 1;
            Owing(invoices, c) == Owing(invoices[..n], c) + Units(n, Owed(invoices[n], c))
  {
  }

  lemma {:induction false} InvoicedCountsRupees(invoices: seq<Invoice>, c: CustomerId)
    ensures Invoiced(invoices, c) == |Owing(invoices, c)|
  {
    if invoices == [] {
      assert Owing(invoices, c) == {};
    } else {
      var n := |invoices| - 1;
      assert invoices == invoices[..n] + [invoices[n]];
      InvoicedAppend(invoices[..n], invoices[n], c);
      InvoicedCountsRupees(invoices[..n], c);
      LastOwing(invoices, c);
      OneMoreRow(Owing(invoices[..n], c), Owing(invoices, c), n, Owed(invoices[n], c));
    }
  }

  function WeightBut(o: Order, c: CustomerId, replacing: Option<string>): nat {
    if replacing == Some(o.id) then 0 else Weight(o, c)
  }

  lemma {:induction false} PendingButAppend(a: seq<Order>, o: Order, c: CustomerId, replacing: Option<string>)
    ensures Pending(a + [o], c, replacing) == Pending(a, c, replacing) + WeightBut(o, c, replacing)
  {
    if a == [] {
      assert Pending([o][1..], c, replacing) == 0;
      assert [] + [o] == [o];
    } else {
      assert (a + [o])[1..] == a[1..] + [o];
      PendingButAppend(a[1..], o, c, replacing);
    }
  }

  lemma LastOnOrder(orders: seq<Order>, c: CustomerId, replacing: Option<string>)
    requires orders != []
    ensures var n := |orders| - 1;
            OnOrder(orders, c, replacing) ==
              OnOrder(orders[..n], c, replacing) + Units(n, WeightBut(orders[n], c, replacing))
  {
    var n := |orders| - 1;
    var o, front := orders[n], OnOrder(orders[..n], c, replacing);
    assert o.Outstanding() <==> !o.invoiced && o.status in {PLACED, CONFIRMED, OUT_FOR_DELIVERY, ON_LOCATION};
    if WeightBut(o, c, replacing) == 0 {
      assert OnOrder(orders, c, replacing) == front;
    } else {
      assert OnOrder(orders, c, replacing) == front + Units(n, o.amount);
    }
  }

  lemma {:induction false} PendingCountsRupees(orders: seq<Order>, c: CustomerId, replacing: Option<string>)
    ensures Pending(orders, c, replacing) == |OnOrder(orders, c, replacing)|
  {
    if orders == [] {
      assert OnOrder(orders, c, replacing) == {};
    } else {
      var n := |orders| - 1;
      assert orders == orders[..n] + [orders[n]];
      PendingButAppend(orders[..n], orders[n], c, replacing);
      PendingCountsRupees(orders[..n], c, replacing);
      LastOnOrder(orders, c, replacing);
      OneMoreRow(OnOrder(orders[..n], c, replacing), OnOrder(orders, c, replacing), n,
                 WeightBut(orders[n], c, replacing));
    }
  }

  /** The order fits: no limit is in force, or what is owed, what is on order and this amount stay within it. */
  predicate OrderFits(st: State, terms: Terms, c: CustomerId, proposed: nat, replacing: Option<string>) {
    || !terms.platformEnabled || !terms.customerEnabled || terms.limit <= 0
    || |Owing(st.invoices, c)| + |OnOrder(st.orders, c, replacing)| + proposed <= terms.limit
  }

  /** The overrides that can carry it: this customer's, unused, unexpired and large enough. */
  function Covering(overrides: seq<Override>, c: CustomerId, proposed: nat, now: Micros): set<nat> {
    set i: nat | i < |overrides| && overrides[i].customer == c && overrides[i].consumedAt.None?
                 && now < overrides[i].expiresAt && proposed <= overrides[i].amount
  }

  lemma FitsIff(st: State, terms: Terms, c: CustomerId, proposed: nat, replacing: Option<string>)
    ensures OrderFits(st, terms, c, proposed, replacing) <==>
        !SnapshotOf(st, terms, c, proposed, replacing, false).Exceeds()
  {
    InvoicedCountsRupees(st.invoices, c);
    PendingCountsRupees(st.orders, c, replacing);
  }

  /** The oldest override that can carry the order is the one used up, and the only thing that changes. */
  ghost predicate UsesOldest(a: seq<Override>, b: seq<Override>, covering: set<nat>, now: Micros)
    requires forall i :: i in covering ==> i < |a|
  {
    exists i :: i in covering && (forall j :: j in covering ==> a[i].createdAt <= a[j].createdAt)
                && b == a[i := a[i].(consumedAt := Some(now))]
  }

  /** An order is allowed exactly when it fits or an override can carry it. An order that fits uses up none; one that
      does not uses up the oldest that can carry it; nothing else ever changes. */
  lemma OrderIsAllowedIff(st: State, terms: Terms, c: CustomerId, proposed: nat, replacing: Option<string>,
                          now: Micros)
    ensures var v := Judge(st, terms, c, proposed, replacing, now);
            var after := AfterJudgement(st, v, now);
            var fits := OrderFits(st, terms, c, proposed, replacing);
            var covering := Covering(st.overrides, c, proposed, now);
            && (!v.NotAllowed? <==> fits || covering != {})
            && after.invoices == st.invoices && after.orders == st.orders && after.payments == st.payments
            && (if fits || covering == {} then after.overrides == st.overrides
                else UsesOldest(st.overrides, after.overrides, covering, now))
  {
    var covering := Covering(st.overrides, c, proposed, now);
    FitsIff(st, terms, c, proposed, replacing);
    var found := FindOverride(st.overrides, c, proposed, now);
    assert forall i: nat :: i in covering <==> i < |st.overrides| && Eligible(st.overrides[i], c, proposed, now);
    assert found.Some? ==> found.value in covering;
  }

  /** `enforce` over the override table, with the customer row locked. */
  class CreditLimitService {
    var invoices: seq<Invoice>
    var orders: seq<Order>
    var overrides: seq<Override>
    var payments: seq<Payment>

    constructor ()
      ensures Contents() == State([], [], [], [])
    {
      invoices, orders, overrides, payments := [], [], [], [];
    }

    function Contents(): State
      reads this
    {
      State(invoices, orders, overrides, payments)
    }

    method Enforce(terms: Terms, c: CustomerId, proposed: nat, replacing: Option<string>, now: Micros)
      returns (allowed: bool)
      modifies this`overrides
      ensures var v := Judge(old(Contents()), terms, c, proposed, replacing, now);
              allowed == !v.NotAllowed? && Contents() == AfterJudgement(old(Contents()), v, now)
      ensures var fits := OrderFits(old(Contents()), terms, c, proposed, replacing);
              var covering := Covering(old(overrides), c, proposed, now);
              && (allowed <==> fits || covering != {})
              && (if fits || covering == {} then overrides == old(overrides)
                  else UsesOldest(old(overrides), overrides, covering, now))
    {
      OrderIsAllowedIff(Contents(), terms, c, proposed, replacing, now);
      var snapshot := SnapshotOf(Contents(), terms, c, proposed, replacing, false);
      if !snapshot.Exceeds() {
        return true;
      }
      var found := FindOverride(overrides, c, proposed, now);
      if found.Some? {
        overrides := overrides[found.value := overrides[found.value].(consumedAt := Some(now))];
        return true;
      }
      return false;
    }
  }

  // --- how the sums move ----------------------------------------------------------------

  lemma {:induction false} InvoicedAppend(a: seq<Invoice>, b: Invoice, c: CustomerId)
    ensures Invoiced(a + [b], c) == Invoiced(a, c) + Owed(b, c)
  {
    if a == [] {
      assert Invoiced([b][1..], c) == 0;
      assert [] + [b] == [b];
    } else {
      assert (a + [b])[1..] == a[1..] + [b];
      InvoicedAppend(a[1..], b, c);
    }
  }

  function Owed(invoice: Invoice, c: CustomerId): nat {
    if invoice.customer == c && invoice.balance > 0 then invoice.balance else 0
  }

  lemma {:induction false} InvoicedAfterUpdate(a: seq<Invoice>, i: nat, invoice: Invoice, c: CustomerId)
    requires i < |a|
    ensures Invoiced(a[i := invoice], c) == Invoiced(a, c) - Owed(a[i], c) + Owed(invoice, c)
  {
    if i == 0 {
      assert a[i := invoice][1..] == a[1..];
    } else {
      assert a[i := invoice][1..] == a[1..][i - 1 := invoice];
      InvoicedAfterUpdate(a[1..], i - 1, invoice, c);
    }
  }

  function Weight(o: Order, c: CustomerId): nat {
    if o.customer == c && o.Outstanding() then o.amount else 0
  }

  lemma {:induction false} PendingAppend(a: seq<Order>, o: Order, c: CustomerId)
    ensures Pending(a + [o], c, None) == Pending(a, c, None) + Weight(o, c)
  {
    if a == [] {
      assert Pending([o][1..], c, None) == 0;
      assert [] + [o] == [o];
    } else {
      assert (a + [o])[1..] == a[1..] + [o];
      PendingAppend(a[1..], o, c);
    }
  }

  lemma {:induction false} PendingAfterUpdate(a: seq<Order>, i: nat, o: Order, c: CustomerId)
    requires i < |a|
    ensures Pending(a[i := o], c, None) == Pending(a, c, None) - Weight(a[i], c) + Weight(o, c)
  {
    if i == 0 {
      assert a[i := o][1..] == a[1..];
    } else {
      assert a[i := o][1..] == a[1..][i - 1 := o];
      PendingAfterUpdate(a[1..], i - 1, o, c);
    }
  }

  ghost predicate DistinctOrders(orders: seq<Order>) {
    forall i, j :: 0 <= i < j < |orders| ==> orders[i].id != orders[j].id
  }

  /** Replacing an order leaves out exactly that order. */
  lemma {:induction false} PendingWithoutReplaced(a: seq<Order>, i: nat, c: CustomerId)
    requires i < |a| && DistinctOrders(a)
    ensures Pending(a, c, Some(a[i].id)) == Pending(a, c, None) - Weight(a[i], c)
  {
    var rest := a[1..];
    assert forall j :: 0 <= j < |rest| ==> rest[j] == a[j + 1];
    if i == 0 {
      NothingReplaced(rest, a[0].id, c);
    } else {
      PendingWithoutReplaced(rest, i - 1, c);
    }
  }

  lemma {:induction false} NothingReplaced(a: seq<Order>, id: string, c: CustomerId)
    requires forall i :: 0 <= i < |a| ==> a[i].id != id
    ensures Pending(a, c, Some(id)) == Pending(a, c, None)
  {
    if a != [] {
      NothingReplaced(a[1..], id, c);
    }
  }

  lemma {:induction false} ConsumedAfterUpdate(a: seq<Override>, i: nat, now: Micros, c: CustomerId)
    requires i < |a| && a[i].consumedAt.None?
    ensures Consumed(a[i := a[i].(consumedAt := Some(now))], c) ==
              Consumed(a, c) + if a[i].customer == c then a[i].amount else 0
  {
    var b := a[i := a[i].(consumedAt := Some(now))];
    if i == 0 {
      assert b[1..] == a[1..];
    } else {
      assert b[1..] == a[1..][i - 1 := a[i].(consumedAt := Some(now))];
      ConsumedAfterUpdate(a[1..], i - 1, now, c);
    }
  }

  lemma {:induction false} ConsumedAppend(a: seq<Override>, o: Override, c: CustomerId)
    requires o.consumedAt.None?
    ensures Consumed(a + [o], c) == Consumed(a, c)
  {
    if a == [] {
      assert Consumed([o][1..], c) == 0;
      assert [] + [o] == [o];
    } else {
      assert (a + [o])[1..] == a[1..] + [o];
      ConsumedAppend(a[1..], o, c);
    }
  }
}
