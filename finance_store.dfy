/** The finance provider: the payment list is a field that each operation
    replaces; the totals are the functions of PaymentLedger applied to it. */
module FinanceContext {
  import opened Collections
  import opened PaymentLedger

  class FinanceStore {
    var payments: seq<Payment>

    /** The store starts from the sample payments. */
    constructor ()
      ensures payments == SamplePayments
      ensures UniqueBy(payments, PaymentKey)
    {
      payments := SamplePayments;
    }

    /** Stamps the new payment with the given id and the two clock readings,
        puts it first and returns it. */
    method AddPayment(fields: PaymentFields, id: string, created: int, updated: int) returns (p: Payment)
      modifies this
      ensures p == NewPayment(fields, id, created, updated)
      ensures payments == PaymentLedger.AddPayment(old(payments), fields, id, created, updated)
      ensures old(UniqueBy(payments, PaymentKey)) && (forall q :: q in old(payments) ==> q.id != id)
              ==> UniqueBy(payments, PaymentKey)
    {
      p := NewPayment(fields, id, created, updated);
      payments := [p] + payments;
    }

    method UpdatePayment(id: string, u: PaymentPatch, now: int)
      modifies this
      ensures payments == PaymentLedger.UpdatePayment(old(payments), id, u, now)
      ensures old(UniqueBy(payments, PaymentKey)) && u.id.None? ==> UniqueBy(payments, PaymentKey)
    {
      ghost var before := payments;
      payments := PaymentLedger.UpdatePayment(payments, id, u, now);
      if UniqueBy(before, PaymentKey) && u.id.None? {
        UniqueAlong(before, PaymentKey, payments, PaymentKey);
      }
    }

    method DeletePayment(id: string)
      modifies this
      ensures payments == PaymentLedger.DeletePayment(old(payments), id)
      ensures old(UniqueBy(payments, PaymentKey)) ==> UniqueBy(payments, PaymentKey)
    {
      ghost var before := payments;
      payments := Filter(payments, PaymentIsNot(id));
      if UniqueBy(before, PaymentKey) {
        FilterUnique(before, PaymentIsNot(id), PaymentKey);
      }
    }
  }
}
