/** The customer list: used and available credit for a whole page from grouped sums. */
module CreditView {
  import opened Clock
  import opened Credit
  import opened CreditHistory
  import Wrappers

  datatype Profile = Profile(id: CustomerId, creditEnabled: bool, creditLimit: int)

  datatype View = View(customer: CustomerId, runningBalance: int, usedCredit: int, availableCredit: int,
                       creditActive: bool)

  /** `sum(balance) ... where customer_id in (ids) group by customer_id`: one entry per customer that has a row. */
  function RunningBalances(invoices: seq<Invoice>, ids: seq<CustomerId>): map<CustomerId, int> {
    if ids == [] || invoices == [] then map[]
    else
      var last := invoices[|invoices| - 1];
      var rest := RunningBalances(invoices[..|invoices| - 1], ids);
      if last.customer !in ids then rest
      else rest[last.customer := Lookup(rest, last.customer) + last.balance]
  }

  function OrderSummaries(orders: seq<Order>, ids: seq<CustomerId>): map<CustomerId, int> {
    if ids == [] || orders == [] then map[]
    else
      var last := orders[|orders| - 1];
      var rest := OrderSummaries(orders[..|orders| - 1], ids);
      if last.customer !in ids || !last.Outstanding() then rest
      else rest[last.customer := Lookup(rest, last.customer) + last.amount]
  }

  /** An absent customer reads as zero. */
  function Lookup(totals: map<CustomerId, int>, c: CustomerId): int {
    if c in totals then totals[c] else 0
  }

  function CustomerView(p: Profile, balances: map<CustomerId, int>, pending: map<CustomerId, int>,
                        platformEnabled: bool): View {
    var used := Lookup(balances, p.id) + Lookup(pending, p.id);
    View(p.id, Lookup(balances, p.id), used, Max(p.creditLimit - used, 0),
         platformEnabled && p.creditEnabled && p.creditLimit != 0)
  }

  function Ids(profiles: seq<Profile>): (ids: seq<CustomerId>)
    ensures |ids| == |profiles|
  {
    seq(|profiles|, i requires 0 <= i < |profiles| => profiles[i].id)
  }

  function CustomerViews(profiles: seq<Profile>, invoices: seq<Invoice>, orders: seq<Order>,
                         platformEnabled: bool): (views: seq<View>)
    ensures |views| == |profiles|
  {
    var balances := RunningBalances(invoices, Ids(profiles));
    var pending := OrderSummaries(orders, Ids(profiles));
    seq(|profiles|, i requires 0 <= i < |profiles| => CustomerView(profiles[i], balances, pending, platformEnabled))
  }

  /** The part of a customer's balances that is below zero. */
  function Overpaid(invoices: seq<Invoice>, c: CustomerId): nat {
    if invoices == [] then 0
    else
      (if invoices[0].customer == c && invoices[0].balance < 0 then -invoices[0].balance else 0)
      + Overpaid(invoices[1..], c)
  }

  lemma {:induction false} OverpaidAppend(a: seq<Invoice>, b: Invoice, c: CustomerId)
    ensures Overpaid(a + [b], c) == Overpaid(a, c) + (if b.customer == c && b.balance < 0 then -b.balance else 0)
  {
    if a == [] {
      assert Overpaid([b][1..], c) == 0;
      assert [] + [b] == [b];
    } else {
      assert (a + [b])[1..] == a[1..] + [b];
      OverpaidAppend(a[1..], b, c);
    }
  }

  lemma {:induction false} NothingOverpaid(invoices: seq<Invoice>, c: CustomerId)
    ensures Overpaid(invoices, c) == 0 <==>
              forall i :: 0 <= i < |invoices| && invoices[i].customer == c ==> invoices[i].balance >= 0
  {
    if invoices != [] {
      NothingOverpaid(invoices[1..], c);
      assert forall i :: 1 <= i < |invoices| ==> invoices[i] == invoices[1..][i - 1];
    }
  }

  /** The grouped sum of a listed customer counts every balance, the filtered sum only those above zero. */
  lemma {:induction false} GroupedBalance(invoices: seq<Invoice>, ids: seq<CustomerId>, c: CustomerId)
    requires c in ids
    ensures Lookup(RunningBalances(invoices, ids), c) == Invoiced(invoices, c) - Overpaid(invoices, c)
  {
    if invoices != [] {
      var n := |invoices| - 1;
      assert invoices == invoices[..n] + [invoices[n]];
      GroupedBalance(invoices[..n], ids, c);
      InvoicedAppend(invoices[..n], invoices[n], c);
      OverpaidAppend(invoices[..n], invoices[n], c);
    }
  }

  lemma {:induction false} GroupedPending(orders: seq<Order>, ids: seq<CustomerId>, c: CustomerId)
    requires c in ids
    ensures Lookup(OrderSummaries(orders, ids), c) == Pending(orders, c, Wrappers.None)
  {
    if orders != [] {
      var n := |orders| - 1;
      assert orders == orders[..n] + [orders[n]];
      GroupedPending(orders[..n], ids, c);
      PendingAppend(orders[..n], orders[n], c);
    }
  }

  /** Only customers on the page with a row get an entry. */
  lemma {:induction false} GroupsAreOnThePage(invoices: seq<Invoice>, ids: seq<CustomerId>, c: CustomerId)
    ensures c in RunningBalances(invoices, ids) <==>
        c in ids && exists i :: 0 <= i < |invoices| && invoices[i].customer == c
  {
    if ids != [] && invoices != [] {
      var n := |invoices| - 1;
      GroupsAreOnThePage(invoices[..n], ids, c);
      assert forall i :: 0 <= i < n ==> invoices[i] == invoices[..n][i];
      if i :| 0 <= i < |invoices| && invoices[i].customer == c {
        assert i == n || invoices[..n][i].customer == c;
      }
    }
  }

  /** For every customer on any page, however often a customer is listed, the batched list shows the used
      credit of the single-customer check exactly when none of the customer's balances is negative, and
      then the available credit agrees too. */
  lemma BatchAgreesIffNothingOverpaid(profiles: seq<Profile>, i: nat, st: State, platformEnabled: bool)
    requires i < |profiles|
    ensures
      var p := profiles[i];
      var view := CustomerViews(profiles, st.invoices, st.orders, platformEnabled)[i];
      var single := SnapshotOf(st, Terms(platformEnabled, p.creditEnabled, p.creditLimit), p.id, 0, Wrappers.None,
                               true);
      && (view.usedCredit == single.used <==>
            forall k :: 0 <= k < |st.invoices| && st.invoices[k].customer == p.id ==> st.invoices[k].balance >= 0)
      && (view.usedCredit == single.used ==> view.availableCredit == single.available)
      && view.usedCredit <= single.used
      && view.customer == p.id && view.runningBalance == Invoiced(st.invoices, p.id) - Overpaid(st.invoices, p.id)
      && single.used == |Owing(st.invoices, p.id)| + |OnOrder(st.orders, p.id, Wrappers.None)|
      && single.available == Max(p.creditLimit - single.used, 0)
      && (single.enabled <==> platformEnabled && p.creditEnabled && p.creditLimit > 0)
      && (p.creditLimit >= 0 ==> view.creditActive == single.enabled)
  {
    var p := profiles[i];
    assert Ids(profiles)[i] == p.id;
    GroupedBalance(st.invoices, Ids(profiles), p.id);
    GroupedPending(st.orders, Ids(profiles), p.id);
    NothingOverpaid(st.invoices, p.id);
    InvoicedCountsRupees(st.invoices, p.id);
    PendingCountsRupees(st.orders, p.id, Wrappers.None);
  }

  /** Balances are never negative in a reachable state, so the list and the single check always agree. */
  lemma BatchAgreesInEveryRun(profiles: seq<Profile>, i: nat, terms: CustomerId -> Terms, events: seq<Event>,
                              platformEnabled: bool)
    requires i < |profiles| && LegalRun(EMPTY, terms, events)
    ensures
      var st, p := Run(EMPTY, terms, events), profiles[i];
      var view := CustomerViews(profiles, st.invoices, st.orders, platformEnabled)[i];
      var single := SnapshotOf(st, Terms(platformEnabled, p.creditEnabled, p.creditLimit), p.id, 0, Wrappers.None,
                               true);
      view.usedCredit == single.used && view.availableCredit == single.available
  {
    var st := Run(EMPTY, terms, events);
    BatchAgreesIffNothingOverpaid(profiles, i, st, platformEnabled);
    forall k | 0 <= k < |st.invoices|
      ensures st.invoices[k].balance >= 0
    {
      MoneyIsConserved(terms, events, k);
    }
  }
}
