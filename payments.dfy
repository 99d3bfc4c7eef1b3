/**
 * The `payments` table and its CRUD layer: creation with a pending default,
 * the status update that keeps an earlier transaction id unless a new one is
 * given, and the lookups by rental, by user and by id and owner.
 */
module Payments {
  import opened Wrappers
  import opened Query
  import opened PaymentModel

  const DefaultCurrency: string := "CNY"

  /** A row of `payments`; `createdAt` is the insertion time. */
  datatype Payment = Payment(
    id: nat,
    userId: nat,
    rentalId: nat,
    paymentCardId: Option<nat>,
    amount: real,
    currency: string,
    status: PaymentStatus,
    paymentMethod: PaymentMethod,
    transactionId: Option<string>,
    createdAt: int)

  /** A `PaymentCreate` as the CRUD layer reads it. */
  datatype PaymentCreate = PaymentCreate(
    rentalId: nat,
    amount: real,
    currency: string,
    paymentMethod: PaymentMethod,
    paymentCardId: Option<nat>,
    status: Option<PaymentStatus>)

  function PaymentId(p: Payment): nat { p.id }

  /** The row after `update_payment_status`: a missing or empty transaction id keeps the old one. */
  function WithStatus(p: Payment, status: PaymentStatus, transactionId: Option<string>): (q: Payment)
    ensures q.status == status
    ensures q.transactionId == (if transactionId.Some? && transactionId.value != "" then transactionId else p.transactionId)
    ensures q.(status := p.status, transactionId := p.transactionId) == p
  {
    if transactionId.Some? && transactionId.value != "" then p.(status := status, transactionId := transactionId)
    else p.(status := status)
  }

  function ReplaceById(ps: seq<Payment>, id: nat, row: Payment): (r: seq<Payment>)
    ensures |r| == |ps|
    ensures forall j :: 0 <= j < |ps| ==> r[j] == (if ps[j].id == id then row else ps[j])
  {
    seq(|ps|, j requires 0 <= j < |ps| => if ps[j].id == id then row else ps[j])
  }

  class PaymentStore {
    var payments: seq<Payment>
    var nextId: nat

    ghost predicate Valid()
      reads this
    {
      DistinctBy(payments, PaymentId) && forall j :: 0 <= j < |payments| ==> payments[j].id < nextId
    }

    constructor ()
      ensures Valid() && payments == [] && nextId == 1
    {
      payments := [];
      nextId := 1;
    }

    /** `get_by_rental`: exactly the payments of rental `rentalId`, in order. */
    function GetByRental(rentalId: nat): (r: seq<Payment>)
      reads this
      ensures forall k :: 0 <= k < |r| ==> r[k] in payments && r[k].rentalId == rentalId
      ensures forall j :: 0 <= j < |payments| && payments[j].rentalId == rentalId ==> payments[j] in r
    {
      Filter(payments, (p: Payment) => p.rentalId == rentalId)
    }

    /** `get_by_user`: a window of the payments of user `u`. */
    function GetByUser(u: nat, skip: nat, limit: nat): (r: seq<Payment>)
      reads this
      ensures |r| <= limit
      ensures forall k :: 0 <= k < |r| ==> r[k] in payments && r[k].userId == u
      ensures skip == 0 && |Filter(payments, (p: Payment) => p.userId == u)| <= limit ==>
        forall j :: 0 <= j < |payments| && payments[j].userId == u ==> payments[j] in r
      ensures IsWindow(r, Filter(payments, (p: Payment) => p.userId == u), skip, limit)
    {
      Window(Filter(payments, (p: Payment) => p.userId == u), skip, limit)
    }

    /** `get_by_id_and_user`: `None` for an absent payment and for another user's. */
    function GetByIdAndUser(id: nat, u: nat): (r: Option<Payment>)
      reads this
      ensures r.Some? ==> r.value in payments && r.value.id == id && r.value.userId == u
      ensures r.None? <==> forall j :: 0 <= j < |payments| ==> !(payments[j].id == id && payments[j].userId == u)
    {
      First(payments, (p: Payment) => p.id == id && p.userId == u)
    }

    /**
     * `create_with_user_and_rental`: copies the request's rental, card, amount,
     * currency and method, with status pending unless one is given.
     */
    method CreateWithUserAndRental(input: PaymentCreate, u: nat, now: int) returns (payment: Payment)
      requires Valid()
      modifies this
      ensures Valid()
      ensures payment == Payment(old(nextId), u, input.rentalId, input.paymentCardId, input.amount,
                                 input.currency, input.status.GetOr(Pending), input.paymentMethod, None, now)
      ensures payments == old(payments) + [payment] && nextId == old(nextId) + 1
      ensures GetByIdAndUser(payment.id, u) == Some(payment)
    {
      payment := Payment(nextId, u, input.rentalId, input.paymentCardId, input.amount,
                         input.currency, input.status.GetOr(Pending), input.paymentMethod, None, now);
      payments := payments + [payment];
      nextId := nextId + 1;
      FirstIs(payments, (p: Payment) => p.id == payment.id && p.userId == u, |payments| - 1);
    }

    /**
     * `update_payment_status`: always sets the status, and the transaction id
     * only when a non-empty one is given; every other column is kept.
     */
    method UpdatePaymentStatus(payment: Payment, status: PaymentStatus, transactionId: Option<string>)
      returns (updated: Payment)
      requires Valid() && payment in payments
      modifies this
      ensures Valid() && nextId == old(nextId)
      ensures updated == WithStatus(payment, status, transactionId)
      ensures payments == ReplaceById(old(payments), payment.id, updated)
      ensures updated in payments
    {
      var data := payment.(status := status);
      if transactionId.Some? && transactionId.value != "" {
        data := data.(transactionId := transactionId);
      }
      updated := data;
      ghost var k :| 0 <= k < |payments| && payments[k] == payment;
      payments := ReplaceById(payments, payment.id, updated);
      assert payments[k] == updated;
    }
  }
}
