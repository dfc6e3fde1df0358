/** Money on invoices: recording a payment and settling it against the bank statement. */
module Payments {
  import opened Credit

  /** The two tables that money is written to. */
  datatype Books = Books(invoices: seq<Invoice>, payments: seq<Payment>)

  const MAX_PAYMENT_AMOUNT := 10_000_000

  function NotBelowZero(n: int): nat {
    if n < 0 then 0 else n
  }

  /** Money moved onto an invoice, or off it when `delta` is negative. */
  function Applied(invoice: Invoice, delta: int): Invoice {
    var paid := NotBelowZero(invoice.paid + delta);
    invoice.(paid := paid, balance := NotBelowZero(invoice.total - paid))
  }

  /** The invoice is open, and the amount positive and no more than what is owed. */
  predicate MayCollect(invoice: Invoice, amount: int) {
    0 < amount <= MAX_PAYMENT_AMOUNT && amount <= invoice.balance
  }

  /** Cash is settled at once; anything else waits for the bank statement. */
  function Recorded(b: Books, i: nat, amount: int, cash: bool): Books
    requires i < |b.invoices|
  {
    if !MayCollect(b.invoices[i], amount) then b
    else
      var payment := Payment(i, b.invoices[i].customer, amount, if cash then RECONCILED else PENDING);
      Books(b.invoices[i := Applied(b.invoices[i], amount)], b.payments + [payment])
  }

  /** A rejected payment puts its money back on the invoice; it must say why (`reason` is the cleaned text). */
  predicate Rejects(b: Books, p: nat, found: bool, reason: string)
    requires p < |b.payments|
  {
    b.payments[p].status == PENDING && !found && reason != ""
  }

  function Settled(b: Books, p: nat, found: bool, reason: string): Books
    requires p < |b.payments| && b.payments[p].invoice < |b.invoices|
  {
    var payment := b.payments[p];
    if payment.status == PENDING && found then b.(payments := b.payments[p := payment.(status := RECONCILED)])
    else if Rejects(b, p, found, reason) then
      var i := payment.invoice;
      Books(b.invoices[i := Applied(b.invoices[i], 0 - payment.amount)], b.payments[p := payment.(status := INVALID)])
    else b
  }

  datatype Outcome = Done | AlreadyPaid | InvalidAmount | ExceedsBalance | AlreadyReconciled | ReasonRequired

  class PaymentService {
    var invoices: seq<Invoice>
    var payments: seq<Payment>

    constructor ()
      ensures Contents() == Books([], [])
    {
      invoices, payments := [], [];
    }

    function Contents(): Books
      reads this
    {
      Books(invoices, payments)
    }

    method ApplyToInvoice(i: nat, delta: int)
      requires i < |invoices|
      modifies this`invoices
      ensures invoices == old(invoices)[i := Applied(old(invoices)[i], delta)]
    {
      var invoice := invoices[i];
      invoice := invoice.(paid := NotBelowZero(invoice.paid + delta));
      invoice := invoice.(balance := NotBelowZero(invoice.total - invoice.paid));
      invoices := invoices[i := invoice];
    }

    method Record(i: nat, amount: int, cash: bool) returns (outcome: Outcome)
      requires i < |invoices|
      modifies this
      ensures Contents() == Recorded(old(Contents()), i, amount, cash)
      ensures outcome.Done? <==> 0 < amount <= 10_000_000 && amount <= old(invoices)[i].balance
      ensures outcome.AlreadyPaid? <==> old(invoices)[i].balance <= 0
    {
      if invoices[i].balance <= 0 {
        return AlreadyPaid;
      }
      if amount <= 0 || amount > MAX_PAYMENT_AMOUNT {
        return InvalidAmount;
      }
      if amount > invoices[i].balance {
        return ExceedsBalance;
      }
      ApplyToInvoice(i, amount);
      payments := payments + [Payment(i, invoices[i].customer, amount, if cash then RECONCILED else PENDING)];
      return Done;
    }

    method Reconcile(p: nat, found: bool, reason: string) returns (outcome: Outcome)
      requires p < |payments| && payments[p].invoice < |invoices|
      modifies this
      ensures Contents() == Settled(old(Contents()), p, found, reason)
      ensures outcome.Done? <==> old(payments)[p].status == PENDING && (found || reason != "")
    {
      var payment := payments[p];
      if payment.status != PENDING {
        return AlreadyReconciled;
      }
      if !found && reason == "" {
        return ReasonRequired;
      }
      if found {
        payments := payments[p := payment.(status := RECONCILED)];
      } else {
        payments := payments[p := payment.(status := INVALID)];
        ApplyToInvoice(payment.invoice, 0 - payment.amount);
      }
      return Done;
    }
  }

  // --- what the ledger keeps ------------------------------------------------------------

  function Standing(payment: Payment, i: nat): nat {
    if payment.invoice == i && payment.status != INVALID then payment.amount else 0
  }

  /** The payments on an invoice that have not been rejected. */
  function PaidOn(payments: seq<Payment>, i: nat): nat {
    if payments == [] then 0 else Standing(payments[0], i) + PaidOn(payments[1..], i)
  }

  function Returned(payment: Payment, c: CustomerId): nat {
    if payment.customer == c && payment.status == INVALID then payment.amount else 0
  }

  /** What rejected payments have put back on this customer's invoices. */
  function PutBack(payments: seq<Payment>, c: CustomerId): nat {
    if payments == [] then 0 else Returned(payments[0], c) + PutBack(payments[1..], c)
  }

  /** Every invoice has received exactly its standing payments, and owes the rest. */
  ghost predicate InvoiceBalances(b: Books, i: nat)
    requires i < |b.invoices|
  {
    var invoice := b.invoices[i];
    && invoice.paid == PaidOn(b.payments, i)
    && invoice.paid + invoice.balance == invoice.total
    && invoice.balance >= 0
  }

  ghost predicate PaymentsPoint(b: Books) {
    forall p :: 0 <= p < |b.payments| ==>
      && b.payments[p].invoice < |b.invoices|
      && b.payments[p].customer == b.invoices[b.payments[p].invoice].customer
  }

  ghost predicate LedgerIsSound(b: Books) {
    PaymentsPoint(b) && forall i :: 0 <= i < |b.invoices| ==> InvoiceBalances(b, i)
  }

  lemma {:induction false} SumsAppend(a: seq<Payment>, added: Payment, i: nat, c: CustomerId)
    ensures PaidOn(a + [added], i) == PaidOn(a, i) + Standing(added, i)
    ensures PutBack(a + [added], c) == PutBack(a, c) + Returned(added, c)
  {
    if a == [] {
      assert PaidOn([added][1..], i) == 0 && PutBack([added][1..], c) == 0;
      assert [] + [added] == [added];
    } else {
      assert (a + [added])[1..] == a[1..] + [added];
      SumsAppend(a[1..], added, i, c);
    }
  }

  lemma {:induction false} SumsAfterUpdate(a: seq<Payment>, p: nat, updated: Payment, i: nat, c: CustomerId)
    requires p < |a|
    ensures PaidOn(a[p := updated], i) == PaidOn(a, i) - Standing(a[p], i) + Standing(updated, i)
    ensures PutBack(a[p := updated], c) == PutBack(a, c) - Returned(a[p], c) + Returned(updated, c)
  {
    if p == 0 {
      assert a[p := updated][1..] == a[1..];
    } else {
      assert a[p := updated][1..] == a[1..][p - 1 := updated];
      SumsAfterUpdate(a[1..], p - 1, updated, i, c);
    }
  }

  lemma {:induction false} StandingIsPartOfTheSum(a: seq<Payment>, p: nat, i: nat)
    requires p < |a|
    ensures Standing(a[p], i) <= PaidOn(a, i)
  {
    if p > 0 {
      StandingIsPartOfTheSum(a[1..], p - 1, i);
    }
  }

  /** Collecting money takes exactly the amount off what is owed. */
  lemma RecordingKeepsLedger(b: Books, i: nat, amount: int, cash: bool)
    requires LedgerIsSound(b) && i < |b.invoices|
    ensures LedgerIsSound(Recorded(b, i, amount, cash))
    ensures MayCollect(b.invoices[i], amount) ==>
      Recorded(b, i, amount, cash).invoices[i].balance == b.invoices[i].balance - amount
  {
    var after := Recorded(b, i, amount, cash);
    assert InvoiceBalances(b, i);
    if MayCollect(b.invoices[i], amount) {
      forall k | 0 <= k < |after.invoices|
        ensures InvoiceBalances(after, k)
      {
        assert InvoiceBalances(b, k);
        SumsAppend(b.payments, after.payments[|b.payments|], k, "");
      }
    }
  }

  /** On sound books money is collected exactly when the amount is positive, at most ten million and no more than
      what is owed; it moves from what is owed to what is paid, and one payment is recorded for it: settled at once
      if it was cash, otherwise waiting for the bank statement. In every other case nothing changes. */
  lemma CollectedIff(b: Books, i: nat, amount: int, cash: bool)
    requires LedgerIsSound(b) && i < |b.invoices|
    ensures var invoice := b.invoices[i];
            Recorded(b, i, amount, cash) ==
              if 0 < amount <= 10_000_000 && amount <= invoice.balance
              then Books(b.invoices[i := invoice.(paid := invoice.paid + amount, balance := invoice.balance - amount)],
                         b.payments + [Payment(i, invoice.customer, amount, if cash then RECONCILED else PENDING)])
              else b
  {
    assert InvoiceBalances(b, i);
  }

  /** On sound books a pending payment that is found in the bank statement is reconciled, one that is rejected with a
      reason becomes invalid and its money is owed again; in every other case nothing changes. */
  lemma SettledIff(b: Books, p: nat, found: bool, reason: string)
    requires LedgerIsSound(b) && p < |b.payments|
    ensures var payment := b.payments[p];
            var i := payment.invoice;
            var invoice := b.invoices[i];
            Settled(b, p, found, reason) ==
              if payment.status != PENDING || (!found && reason == "") then b
              else if found then b.(payments := b.payments[p := payment.(status := RECONCILED)])
              else Books(b.invoices[i := invoice.(paid := invoice.paid - payment.amount,
                                                  balance := invoice.balance + payment.amount)],
                         b.payments[p := payment.(status := INVALID)])
  {
    assert InvoiceBalances(b, b.payments[p].invoice);
    StandingIsPartOfTheSum(b.payments, p, b.payments[p].invoice);
  }

  /** A rejection puts back exactly the amount, once. */
  lemma SettlingKeepsLedger(b: Books, p: nat, found: bool, reason: string)
    requires LedgerIsSound(b) && p < |b.payments|
    ensures LedgerIsSound(Settled(b, p, found, reason))
    ensures Rejects(b, p, found, reason) ==>
      var i := b.payments[p].invoice;
      Settled(b, p, found, reason).invoices[i].balance == b.invoices[i].balance + b.payments[p].amount
  {
    var after := Settled(b, p, found, reason);
    assert InvoiceBalances(b, b.payments[p].invoice);
    StandingIsPartOfTheSum(b.payments, p, b.payments[p].invoice);
    forall k | 0 <= k < |after.invoices|
      ensures InvoiceBalances(after, k)
    {
      assert InvoiceBalances(b, k);
      SumsAfterUpdate(b.payments, p, after.payments[p], k, "");
    }
  }

  // --- reconciliations that overlap -----------------------------------------------------

  /** What `Reconcile` writes once it has found the payment pending, without looking again. The invoice is read
      under its lock. */
  function WrittenLate(b: Books, p: nat, found: bool): Books
    requires p < |b.payments| && b.payments[p].invoice < |b.invoices|
  {
    var payment := b.payments[p];
    if found then b.(payments := b.payments[p := payment.(status := RECONCILED)])
    else
      var i := payment.invoice;
      Books(b.invoices[i := Applied(b.invoices[i], 0 - payment.amount)], b.payments[p := payment.(status := INVALID)])
  }

  /** A payment that is still pending when the write is made is settled as it should be. */
  lemma LateWriteSettles(b: Books, p: nat, found: bool, reason: string)
    requires p < |b.payments| && b.payments[p].invoice < |b.invoices|
    requires b.payments[p].status == PENDING && (found || reason != "")
    ensures WrittenLate(b, p, found) == Settled(b, p, found, reason)
  {
  }

  lemma LateWriteOnStanding(b: Books, p: nat, found: bool)
    requires LedgerIsSound(b) && p < |b.payments| && b.payments[p].status != INVALID
    ensures LedgerIsSound(WrittenLate(b, p, found))
  {
    var after := WrittenLate(b, p, found);
    var i := b.payments[p].invoice;
    StandingIsPartOfTheSum(b.payments, p, i);
    forall k | 0 <= k < |after.invoices|
      ensures InvoiceBalances(after, k)
    {
      assert InvoiceBalances(b, k);
      SumsAfterUpdate(b.payments, p, after.payments[p], k, "");
    }
  }

  lemma LateWriteOnRejected(b: Books, p: nat, found: bool)
    requires LedgerIsSound(b) && p < |b.payments| && b.payments[p].status == INVALID
    ensures var payment := b.payments[p];
            LedgerIsSound(WrittenLate(b, p, found)) <==>
              payment.amount == 0 || (!found && b.invoices[payment.invoice].paid == 0)
  {
    var after := WrittenLate(b, p, found);
    var payment := b.payments[p];
    var i := payment.invoice;
    assert InvoiceBalances(b, i);
    SumsAfterUpdate(b.payments, p, after.payments[p], i, "");
    if payment.amount == 0 || (!found && b.invoices[i].paid == 0) {
      forall k | 0 <= k < |after.invoices|
        ensures InvoiceBalances(after, k)
      {
        assert InvoiceBalances(b, k);
        SumsAfterUpdate(b.payments, p, after.payments[p], k, "");
      }
    } else {
      assert !InvoiceBalances(after, i);
    }
  }

  /** A late write keeps the ledger exactly when the payment has not been rejected meanwhile, unless there is no
      money left to move: a payment of nothing, or a second rejection on an invoice without standing payments. */
  lemma LateWriteKeepsLedgerIff(b: Books, p: nat, found: bool)
    requires LedgerIsSound(b) && p < |b.payments|
    ensures var payment := b.payments[p];
            LedgerIsSound(WrittenLate(b, p, found)) <==>
              || payment.status != INVALID
              || payment.amount == 0
              || (!found && b.invoices[payment.invoice].paid == 0)
  {
    if b.payments[p].status == INVALID {
      LateWriteOnRejected(b, p, found);
    } else {
      LateWriteOnStanding(b, p, found);
    }
  }

  /** Two rejections that both find a payment pending before either writes: whenever other payments on the
      invoice amount to as much, twice the amount is put back. */
  lemma RacingRejectionsPutBackTwice(b: Books, p: nat)
    requires LedgerIsSound(b) && p < |b.payments| && Rejects(b, p, false, "not found")
    requires b.invoices[b.payments[p].invoice].paid >= 2 * b.payments[p].amount > 0
    ensures var i, amount := b.payments[p].invoice, b.payments[p].amount;
            var once := WrittenLate(b, p, false);
            && once == Settled(b, p, false, "not found") && LedgerIsSound(once)
            && once.invoices[i].balance == b.invoices[i].balance + amount
            && WrittenLate(once, p, false).invoices[i].balance == b.invoices[i].balance + 2 * amount
            && !LedgerIsSound(WrittenLate(once, p, false))
  {
    var once := WrittenLate(b, p, false);
    var i := b.payments[p].invoice;
    assert InvoiceBalances(b, i);
    LateWriteSettles(b, p, false, "not found");
    SettlingKeepsLedger(b, p, false, "not found");
    assert InvoiceBalances(once, i);
    LateWriteKeepsLedgerIff(once, p, false);
  }
}
