/** The payment ledger: payment records, the operations that add, edit and
    remove them, and the derived totals by status. Amounts are whole currency
    units (the app shows them as US dollars); timestamps are milliseconds given
    by the caller. */
module PaymentLedger {
  import opened Collections

  datatype PaymentStatus = Paid | Pending | Overdue

  datatype ServiceType = PlotBooking | BurialService | Maintenance | OtherService

  datatype Payment = Payment(
    id: string,
    customerName: string,
    amount: int,
    date: string,
    dueDate: Option<string>,
    plotInfo: Option<string>,
    graveInfo: Option<string>,
    serviceType: ServiceType,
    status: PaymentStatus,
    description: Option<string>,
    createdAt: int,
    updatedAt: int)

  /** What addPayment is given: a payment without id and timestamps. */
  datatype PaymentFields = PaymentFields(
    customerName: string,
    amount: int,
    date: string,
    dueDate: Option<string>,
    plotInfo: Option<string>,
    graveInfo: Option<string>,
    serviceType: ServiceType,
    status: PaymentStatus,
    description: Option<string>)

  /** `Partial<Payment>`; for an optional field, `Some(None)` is the key set to
      `undefined`, which clears it (the edit form sends `dueDate || undefined`). */
  datatype PaymentPatch = PaymentPatch(
    id: Option<string>,
    customerName: Option<string>,
    amount: Option<int>,
    date: Option<string>,
    dueDate: Option<Option<string>>,
    plotInfo: Option<Option<string>>,
    graveInfo: Option<Option<string>>,
    serviceType: Option<ServiceType>,
    status: Option<PaymentStatus>,
    description: Option<Option<string>>,
    createdAt: Option<int>,
    updatedAt: Option<int>)

  /** A patch that changes the status and nothing else. */
  function StatusPatch(status: PaymentStatus): PaymentPatch
  {
    PaymentPatch(None, None, None, None, None, None, None, None, Some(status), None, None, None)
  }

  function PaymentKey(p: Payment): string { p.id }

  function HasStatus(status: PaymentStatus): Payment -> bool { (p: Payment) => p.status == status }
  function PaymentIs(id: string): Payment -> bool { (p: Payment) => p.id == id }
  function PaymentIsNot(id: string): Payment -> bool { (p: Payment) => p.id != id }

  // ---------------------------------------------------------------------------
  // Queries

  /** `ps.reduce((sum, p) => sum + p.amount, 0)`; integer addition makes the
      order of the fold irrelevant. */
  function Sum(ps: seq<Payment>): int
  {
    if ps == [] then 0 else ps[0].amount + Sum(ps[1..])
  }

  predicate NoRefunds(ps: seq<Payment>) { forall p :: p in ps ==> p.amount >= 0 }

  /** getTotalRevenue: every amount, whatever its status. Every payment is
      paid, pending or overdue, so the three status totals add up to it. */
  function TotalRevenue(ps: seq<Payment>): (r: int)
    ensures r == PaidAmount(ps) + PendingAmount(ps) + OverdueAmount(ps)
    ensures NoRefunds(ps) ==> r >= 0
  {
    RevenueSplitsByStatus(ps);
    StatusAmountBounds(ps, Paid);
    StatusAmountBounds(ps, Pending);
    StatusAmountBounds(ps, Overdue);
    Sum(ps)
  }

  /** The amount held in one status: the sum over the payments with that status. */
  function StatusAmount(ps: seq<Payment>, status: PaymentStatus): int
  {
    Sum(Filter(ps, HasStatus(status)))
  }

  /** getPaidAmount: part of the total, nothing when no payment is paid, and
      all of it when every payment is. */
  function PaidAmount(ps: seq<Payment>): (r: int)
    ensures NoRefunds(ps) ==> 0 <= r <= Sum(ps)
    ensures (forall p :: p in ps ==> p.status != Paid) ==> r == 0
    ensures (forall p :: p in ps ==> p.status == Paid) ==> r == Sum(ps)
  {
    StatusAmountBounds(ps, Paid);
    StatusAmount(ps, Paid)
  }

  /** getPendingAmount: as getPaidAmount, for the pending payments. */
  function PendingAmount(ps: seq<Payment>): (r: int)
    ensures NoRefunds(ps) ==> 0 <= r <= Sum(ps)
    ensures (forall p :: p in ps ==> p.status != Pending) ==> r == 0
    ensures (forall p :: p in ps ==> p.status == Pending) ==> r == Sum(ps)
  {
    StatusAmountBounds(ps, Pending);
    StatusAmount(ps, Pending)
  }

  /** getOverdueAmount: as getPaidAmount, for the overdue payments. */
  function OverdueAmount(ps: seq<Payment>): (r: int)
    ensures NoRefunds(ps) ==> 0 <= r <= Sum(ps)
    ensures (forall p :: p in ps ==> p.status != Overdue) ==> r == 0
    ensures (forall p :: p in ps ==> p.status == Overdue) ==> r == Sum(ps)
  {
    StatusAmountBounds(ps, Overdue);
    StatusAmount(ps, Overdue)
  }

  /** getOverduePayments: exactly the overdue payments, in ledger order. */
  function OverduePayments(ps: seq<Payment>): (r: seq<Payment>)
    ensures forall p :: p in r <==> p in ps && p.status == Overdue
    ensures Sum(r) == OverdueAmount(ps)
  {
    Filter(ps, HasStatus(Overdue))
  }

  /** getPendingPayments: exactly the pending payments, in ledger order. */
  function PendingPayments(ps: seq<Payment>): (r: seq<Payment>)
    ensures forall p :: p in r <==> p in ps && p.status == Pending
    ensures Sum(r) == PendingAmount(ps)
  {
    Filter(ps, HasStatus(Pending))
  }

  /** getPaymentById: the first payment with that id, if any. */
  function PaymentById(ps: seq<Payment>, id: string): (r: Option<Payment>)
    ensures r.None? <==> forall p :: p in ps ==> p.id != id
    ensures r.Some? ==> exists k :: 0 <= k < |ps| && ps[k] == r.value && r.value.id == id
                                    && forall j :: 0 <= j < k ==> ps[j].id != id
  {
    Find(ps, PaymentIs(id))
  }

  // ---------------------------------------------------------------------------
  // Operations on the ledger

  /** The payment addPayment builds. The source reads the clock once for
      `createdAt` and once more for `updatedAt`, so the two instants are
      separate parameters. */
  function NewPayment(fields: PaymentFields, id: string, created: int, updated: int): Payment
  {
    Payment(id, fields.customerName, fields.amount, fields.date, fields.dueDate, fields.plotInfo,
            fields.graveInfo, fields.serviceType, fields.status, fields.description, created, updated)
  }

  /** The caller-supplied part of a payment: everything but id and timestamps. */
  function PaymentFieldsOf(p: Payment): PaymentFields
  {
    PaymentFields(p.customerName, p.amount, p.date, p.dueDate, p.plotInfo, p.graveInfo, p.serviceType,
                  p.status, p.description)
  }

  /** `{ ...p, ...u, updatedAt: now }`: the update time always wins. */
  function MergePayment(p: Payment, u: PaymentPatch, now: int): Payment
  {
    Payment(Pick(u.id, p.id), Pick(u.customerName, p.customerName), Pick(u.amount, p.amount),
            Pick(u.date, p.date), Pick(u.dueDate, p.dueDate), Pick(u.plotInfo, p.plotInfo),
            Pick(u.graveInfo, p.graveInfo), Pick(u.serviceType, p.serviceType), Pick(u.status, p.status),
            Pick(u.description, p.description), Pick(u.createdAt, p.createdAt), now)
  }

  /** addPayment: the new payment goes first. */
  function AddPayment(ps: seq<Payment>, fields: PaymentFields, id: string, created: int, updated: int)
    : (r: seq<Payment>)
    ensures |r| == |ps| + 1 && r[1..] == ps
    ensures r[0].id == id && r[0].createdAt == created && r[0].updatedAt == updated
    ensures PaymentFieldsOf(r[0]) == fields
  {
    [NewPayment(fields, id, created, updated)] + ps
  }

  /** updatePayment: merge u into the payment(s) with that id and stamp them. */
  function UpdatePayment(ps: seq<Payment>, id: string, u: PaymentPatch, now: int): (r: seq<Payment>)
    ensures |r| == |ps|
    ensures forall i :: 0 <= i < |ps| && ps[i].id != id ==> r[i] == ps[i]
    ensures forall i :: 0 <= i < |ps| && ps[i].id == id ==> r[i] == MergePayment(ps[i], u, now) && r[i].updatedAt == now
    ensures (forall p :: p in ps ==> p.id != id) ==> r == ps
  {
    seq(|ps|, i requires 0 <= i < |ps| => if ps[i].id == id then MergePayment(ps[i], u, now) else ps[i])
  }

  /** deletePayment: drop every payment with that id. */
  function DeletePayment(ps: seq<Payment>, id: string): (r: seq<Payment>)
    ensures forall p :: p in r <==> p in ps && p.id != id
  {
    Filter(ps, PaymentIsNot(id))
  }

  // ---------------------------------------------------------------------------
  // Properties of the totals

  lemma {:induction false} SumAppend(a: seq<Payment>, b: seq<Payment>)
    ensures Sum(a + b) == Sum(a) + Sum(b)
  {
    if a == [] {
      assert a + b == b;
    } else {
      assert (a + b)[1..] == a[1..] + b;
      SumAppend(a[1..], b);
    }
  }

  /** Every payment is paid, pending or overdue, so the three status totals
      add up to the total revenue. */
  lemma {:induction false} RevenueSplitsByStatus(ps: seq<Payment>)
    ensures Sum(ps) == StatusAmount(ps, Paid) + StatusAmount(ps, Pending) + StatusAmount(ps, Overdue)
  {
    if ps != [] {
      StatusAmountCons(ps, Paid);
      StatusAmountCons(ps, Pending);
      StatusAmountCons(ps, Overdue);
      RevenueSplitsByStatus(ps[1..]);
    }
  }

  /** With no negative amounts a status total lies between zero and the whole
      sum; it is zero when no payment has the status and the whole sum when
      every payment has it. */
  lemma {:induction false} StatusAmountBounds(ps: seq<Payment>, status: PaymentStatus)
    ensures NoRefunds(ps) ==> 0 <= StatusAmount(ps, status) <= Sum(ps)
    ensures (forall p :: p in ps ==> p.status != status) ==> StatusAmount(ps, status) == 0
    ensures (forall p :: p in ps ==> p.status == status) ==> StatusAmount(ps, status) == Sum(ps)
  {
    if ps != [] {
      StatusAmountCons(ps, status);
      assert forall p :: p in ps[1..] ==> p in ps;
      StatusAmountBounds(ps[1..], status);
    }
  }

  /** Deleting works element by element, so the payments that stay keep
      their relative order. */
  lemma DeleteKeepsOrder(a: seq<Payment>, b: seq<Payment>, id: string)
    ensures DeletePayment(a + b, id) == DeletePayment(a, id) + DeletePayment(b, id)
  {
    FilterAppend(a, b, PaymentIsNot(id));
  }

  /** A new payment adds its amount to the total and to its own status's total only. */
  lemma AddPaymentAddsAmount(ps: seq<Payment>, fields: PaymentFields, id: string, created: int, updated: int,
                             status: PaymentStatus)
    ensures TotalRevenue(AddPayment(ps, fields, id, created, updated)) == TotalRevenue(ps) + fields.amount
    ensures StatusAmount(AddPayment(ps, fields, id, created, updated), status)
            == StatusAmount(ps, status) + (if fields.status == status then fields.amount else 0)
  {
    var r := AddPayment(ps, fields, id, created, updated);
    assert r[1..] == ps;
  }

  /** Rewriting one position of the ledger, keeping its amount, moves that
      amount from the old status's total to the new one's. */
  lemma {:induction false} RewriteMovesAmount(s: seq<Payment>, t: seq<Payment>, k: nat, status: PaymentStatus)
    requires |s| == |t| && k < |s|
    requires forall i :: 0 <= i < |s| && i != k ==> t[i] == s[i]
    requires t[k].amount == s[k].amount
    ensures StatusAmount(t, status)
            == StatusAmount(s, status) - (if s[k].status == status then s[k].amount else 0)
                                       + (if t[k].status == status then t[k].amount else 0)
  {
    StatusAmountCons(s, status);
    StatusAmountCons(t, status);
    if k == 0 {
      assert t[1..] == s[1..];
    } else {
      assert t[0] == s[0];
      RewriteMovesAmount(s[1..], t[1..], k - 1, status);
    }
  }

  /** The first payment contributes to its own status's amount only. */
  lemma StatusAmountCons(s: seq<Payment>, status: PaymentStatus)
    requires s != []
    ensures StatusAmount(s, status)
            == (if s[0].status == status then s[0].amount else 0) + StatusAmount(s[1..], status)
  {
  }

  /** An edit that leaves amounts alone (a status change, say) leaves the total
      revenue unchanged, whatever the other fields do. */
  lemma UpdateKeepsRevenue(ps: seq<Payment>, id: string, u: PaymentPatch, now: int)
    requires u.amount.None?
    ensures TotalRevenue(UpdatePayment(ps, id, u, now)) == TotalRevenue(ps)
  {
    SumAlong(ps, UpdatePayment(ps, id, u, now));
  }

  /** Ledgers with the same amounts position by position have the same sum. */
  lemma {:induction false} SumAlong(s: seq<Payment>, t: seq<Payment>)
    requires |s| == |t|
    requires forall i :: 0 <= i < |s| ==> s[i].amount == t[i].amount
    ensures Sum(s) == Sum(t)
  {
    if s != [] {
      SumAlong(s[1..], t[1..]);
    }
  }

  /** Changing the status of the payment with a given (unique) id moves exactly
      its amount from the old status's total to the new status's total, and the
      total revenue stays the same. */
  lemma StatusChangeMovesAmount(ps: seq<Payment>, k: nat, newStatus: PaymentStatus, now: int, status: PaymentStatus)
    requires UniqueBy(ps, PaymentKey) && k < |ps|
    ensures TotalRevenue(UpdatePayment(ps, ps[k].id, StatusPatch(newStatus), now)) == TotalRevenue(ps)
    ensures StatusAmount(UpdatePayment(ps, ps[k].id, StatusPatch(newStatus), now), status)
            == StatusAmount(ps, status) - (if ps[k].status == status then ps[k].amount else 0)
                                        + (if newStatus == status then ps[k].amount else 0)
  {
    var r := UpdatePayment(ps, ps[k].id, StatusPatch(newStatus), now);
    forall i | 0 <= i < |ps| && i != k ensures r[i] == ps[i] {
      if i < k {
        assert PaymentKey(ps[i]) != PaymentKey(ps[k]);
      } else {
        assert PaymentKey(ps[k]) != PaymentKey(ps[i]);
      }
    }
    RewriteMovesAmount(ps, r, k, status);
    UpdateKeepsRevenue(ps, ps[k].id, StatusPatch(newStatus), now);
  }

  /** Deleting the payment with a given (unique) id removes exactly its amount
      from the total revenue. */
  lemma DeleteLowersRevenue(ps: seq<Payment>, k: nat)
    requires UniqueBy(ps, PaymentKey) && k < |ps|
    ensures TotalRevenue(DeletePayment(ps, ps[k].id)) == TotalRevenue(ps) - ps[k].amount
  {
    DeleteLowersSum(ps, k);
  }

  lemma {:induction false} DeleteLowersSum(ps: seq<Payment>, k: nat)
    requires UniqueBy(ps, PaymentKey) && k < |ps|
    ensures Sum(Filter(ps, PaymentIsNot(ps[k].id))) == Sum(ps) - ps[k].amount
  {
    UniqueTail(ps, PaymentKey);
    if k == 0 {
      assert Filter(ps[1..], PaymentIsNot(ps[0].id)) == ps[1..];
    } else {
      assert ps[k] == ps[1..][k - 1];
      assert PaymentKey(ps[0]) != PaymentKey(ps[k]);
      DeleteLowersSum(ps[1..], k - 1);
    }
  }

  /** The fixed sample payments a fresh ledger starts with. */
  const SamplePayments: seq<Payment> := [
    Payment("1", "John Smith", 5000, "2024-10-15", None, Some("Plot A1"), Some("Grave 12"), PlotBooking, Paid,
            Some("Plot booking for family member"), 1728950400000, 1728950400000),
    Payment("2", "Mary Johnson", 3500, "2024-11-01", Some("2024-11-15"), Some("Plot B2"), Some("Grave 8"),
            BurialService, Pending, Some("Burial service arrangement"), 1730419200000, 1730419200000),
    Payment("3", "Robert Davis", 2000, "2024-10-20", Some("2024-10-30"), Some("Plot A2"), None, Maintenance,
            Overdue, Some("Annual maintenance fee"), 1729382400000, 1729382400000)
  ]

  /** A ledger of one paid, one pending and one overdue payment, in that order. */
  lemma {:induction false} OneOfEachStatus(a: Payment, b: Payment, c: Payment)
    requires a.status == Paid && b.status == Pending && c.status == Overdue
    ensures TotalRevenue([a, b, c]) == a.amount + b.amount + c.amount
    ensures PaidAmount([a, b, c]) == a.amount
    ensures PendingAmount([a, b, c]) == b.amount
    ensures OverdueAmount([a, b, c]) == c.amount
    ensures OverduePayments([a, b, c]) == [c]
  {
    var ps := [a, b, c];
    assert ps[1..] == [b, c] && ps[1..][1..] == [c] && ps[1..][1..][1..] == [];
    assert Sum(ps[1..][1..]) == c.amount;
    assert Sum(ps[1..]) == b.amount + c.amount;
    forall status: PaymentStatus
      ensures StatusAmount(ps, status)
              == (if status == Paid then a.amount else 0) + (if status == Pending then b.amount else 0)
                 + (if status == Overdue then c.amount else 0)
    {
      StatusAmountCons(ps, status);
      StatusAmountCons(ps[1..], status);
      StatusAmountCons(ps[1..][1..], status);
    }
    assert Filter(ps, HasStatus(Overdue)) == Filter([c], HasStatus(Overdue));
  }

  /** The sample ledger: $10,500 in all, split $5,000 paid, $3,500 pending and
      $2,000 overdue, with only payment "3" overdue. */
  lemma SampleTotals()
    ensures TotalRevenue(SamplePayments) == 10500
    ensures PaidAmount(SamplePayments) == 5000
    ensures PendingAmount(SamplePayments) == 3500
    ensures OverdueAmount(SamplePayments) == 2000
    ensures OverduePayments(SamplePayments) == [SamplePayments[2]]
  {
    var ps := SamplePayments;
    assert ps == [ps[0], ps[1], ps[2]];
    OneOfEachStatus(ps[0], ps[1], ps[2]);
  }
}
