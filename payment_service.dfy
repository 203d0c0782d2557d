/** The payment microservice's `PaymentService`: one payment per booking, created,
    processed by a simulated gateway, refunded or deleted. The gateway's verdict, the
    clock and the random UUID are parameters; the payment-method names of
    `Payment.PaymentMethod` are the caller's `methods`. */
module PaymentService {
  import opened Wrappers
  import opened Text

  /** The payment states the service sets. */
  datatype PaymentStatus = Processing | Completed | Failed | Refunded

  datatype Payment = Payment(
    id: nat,
    bookingId: nat,
    amount: Option<int>,
    status: PaymentStatus,
    paymentMethod: string,
    transactionId: string,
    paymentGateway: Option<string>,
    paymentDate: Option<int>,
    description: Option<string>,
    failureReason: Option<string>)

  /** The fields of the posted `PaymentDto` that `createPayment` reads. */
  datatype PaymentRequest = PaymentRequest(
    bookingId: nat,
    amount: Option<int>,
    paymentMethod: Option<string>,
    paymentGateway: Option<string>,
    description: Option<string>)

  const DeclinedMessage := "Payment gateway declined the transaction"

  type PaymentTable = map<nat, Payment>

  predicate Keyed(t: PaymentTable)
  {
    forall id :: id in t ==> t[id].id == id
  }

  predicate HasPaymentFor(t: PaymentTable, bookingId: nat)
  {
    exists id :: id in t && t[id].bookingId == bookingId
  }

  /** No booking has two payments. */
  predicate OnePaymentPerBooking(t: PaymentTable)
  {
    forall i, j :: i in t && j in t && i != j ==> t[i].bookingId != t[j].bookingId
  }

  /** `generateTransactionId`: "TXN-" and the whole UUID, upper-cased. */
  function TransactionId(uuid: string): (r: string)
    requires IsUuidText(uuid)
    ensures |r| == 40 && r[..4] == "TXN-"
    ensures forall i :: 4 <= i < 40 && i != 12 && i != 17 && i != 22 && i != 27 ==> IsUpperHex(r[i])
    ensures r[12] == '-' && r[17] == '-' && r[22] == '-' && r[27] == '-'
  {
    "TXN-" + ToUpper(uuid)
  }

  /** Distinct UUIDs give distinct transaction ids: upper-casing loses nothing on hex. */
  lemma TransactionIdsDistinguishUuids(u: string, v: string)
    requires IsUuidText(u) && IsUuidText(v)
    ensures TransactionId(u) == TransactionId(v) <==> u == v
  {
    if TransactionId(u) == TransactionId(v) {
      forall i | 0 <= i < 36
        ensures u[i] == v[i]
      {
        assert TransactionId(u)[4 + i] == ToUpperChar(u[i]);
        assert TransactionId(v)[4 + i] == ToUpperChar(v[i]);
      }
    }
  }

  /** `refundPayment` on the loaded record: only a COMPLETED payment, which becomes
      REFUNDED with the reason in its failure-reason column. */
  function Refund(p: Payment, reason: Option<string>): (r: Result<Payment>)
    ensures r.Ok? <==> p.status == Completed
    ensures r.Err? ==> r.failure == Business(NotRefundable)
    ensures r.Ok? ==> r.value == p.(status := Refunded, failureReason := reason)
  {
    if p.status != Completed then Err(Business(NotRefundable))
    else Ok(p.(status := Refunded, failureReason := reason))
  }

  /** A payment is refunded at most once, and a failed one never. */
  lemma RefundIsFinal(p: Payment, first: Option<string>, second: Option<string>)
    ensures Refund(p, first).Ok? ==> Refund(Refund(p, first).value, second) == Err(Business(NotRefundable))
    ensures p.status == Failed ==> Refund(p, first).Err?
  {
  }

  class PaymentStore {
    var payments: PaymentTable
    var nextId: nat

    /** Rows keyed by id, ids below the next one, one payment per booking. */
    ghost predicate Valid()
      reads this
    {
      && Keyed(payments)
      && (forall id :: id in payments ==> id < nextId)
      && OnePaymentPerBooking(payments)
    }

    constructor ()
      ensures Valid() && payments == map[]
    {
      payments := map[];
      nextId := 1;
    }

    /** `createPayment`: refused when the booking already has a payment or the method
        is not a constant name; otherwise a PROCESSING payment is run through the
        gateway and stored COMPLETED (with the payment date) or FAILED (with the
        gateway's reason). */
    method CreatePayment(req: PaymentRequest, uuid: string, methods: set<string>, succeeded: bool, now: int)
      returns (r: Result<Payment>)
      requires Valid() && IsUuidText(uuid)
      modifies this
      ensures Valid()
      ensures HasPaymentFor(old(payments), req.bookingId) <==> r == Err(Business(PaymentExists))
      ensures !HasPaymentFor(old(payments), req.bookingId) && req.paymentMethod.None? ==> r == Err(NullReference)
      ensures (!HasPaymentFor(old(payments), req.bookingId) && req.paymentMethod.Some?
               && req.paymentMethod.value !in methods) ==> r == Err(IllegalArgument)
      ensures r.Ok? <==> !HasPaymentFor(old(payments), req.bookingId) && req.paymentMethod.Some?
                         && req.paymentMethod.value in methods
      ensures r.Ok? ==> r.value.id == old(nextId) && r.value.id !in old(payments)
                        && payments == old(payments)[r.value.id := r.value]
      ensures r.Ok? ==> && r.value.bookingId == req.bookingId && r.value.amount == req.amount
                        && r.value.paymentMethod == req.paymentMethod.value
                        && r.value.transactionId == TransactionId(uuid)
                        && r.value.paymentGateway == req.paymentGateway && r.value.description == req.description
      ensures r.Ok? && succeeded ==> r.value.status == Completed && r.value.paymentDate == Some(now)
                                     && r.value.failureReason.None?
      ensures r.Ok? && !succeeded ==> r.value.status == Failed && r.value.paymentDate.None?
                                      && r.value.failureReason == Some(DeclinedMessage)
      ensures r.Err? ==> payments == old(payments) && nextId == old(nextId)
    {
      if HasPaymentFor(payments, req.bookingId) {
        return Err(Business(PaymentExists));
      }
      var transactionId := TransactionId(uuid);
      if req.paymentMethod.None? {
        return Err(NullReference);
      }
      if req.paymentMethod.value !in methods {
        return Err(IllegalArgument);
      }
      var payment := Payment(0, req.bookingId, req.amount, Processing, req.paymentMethod.value, transactionId,
                             req.paymentGateway, None, req.description, None);
      if succeeded {
        payment := payment.(status := Completed, paymentDate := Some(now));
      } else {
        payment := payment.(status := Failed, failureReason := Some(DeclinedMessage));
      }
      var id := nextId;
      nextId := nextId + 1;
      payment := payment.(id := id);
      payments := payments[id := payment];
      r := Ok(payment);
    }

    /** `refundPayment`. */
    method RefundPayment(id: nat, reason: Option<string>) returns (r: Result<Payment>)
      requires Valid()
      modifies this
      ensures Valid()
      ensures id !in old(payments) ==> r == Err(NotFound(PaymentEntity))
      ensures id in old(payments) ==> r == Refund(old(payments)[id], reason)
      ensures r.Ok? ==> payments == old(payments)[id := r.value]
      ensures r.Err? ==> payments == old(payments)
      ensures nextId == old(nextId)
    {
      if id !in payments {
        return Err(NotFound(PaymentEntity));
      }
      r := Refund(payments[id], reason);
      if r.Ok? {
        payments := payments[id := r.value];
      }
    }

    /** `deletePayment`: exactly that payment goes. */
    method DeletePayment(id: nat) returns (r: Result<()>)
      requires Valid()
      modifies this
      ensures Valid()
      ensures r.Ok? <==> id in old(payments)
      ensures r.Err? ==> r.failure == NotFound(PaymentEntity) && payments == old(payments)
      ensures r.Ok? ==> payments == old(payments) - {id}
      ensures nextId == old(nextId)
    {
      if id !in payments {
        return Err(NotFound(PaymentEntity));
      }
      payments := payments - {id};
      r := Ok(());
    }

    /** `getPaymentById`. */
    method GetPaymentById(id: nat) returns (r: Result<Payment>)
      ensures r.Ok? <==> id in payments
      ensures r.Ok? ==> r.value == payments[id]
      ensures r.Err? ==> r.failure == NotFound(PaymentEntity)
    {
      if id !in payments {
        return Err(NotFound(PaymentEntity));
      }
      r := Ok(payments[id]);
    }

    /** `getPaymentByBookingId`: the booking's one payment. */
    method GetPaymentByBookingId(bookingId: nat) returns (r: Result<Payment>)
      requires Valid()
      ensures r.Ok? <==> HasPaymentFor(payments, bookingId)
      ensures r.Err? ==> r.failure == NotFound(PaymentEntity)
      ensures forall id :: id in payments && payments[id].bookingId == bookingId ==> r == Ok(payments[id])
    {
      if !HasPaymentFor(payments, bookingId) {
        return Err(NotFound(PaymentEntity));
      }
      var id :| id in payments && payments[id].bookingId == bookingId;
      r := Ok(payments[id]);
    }

    /** `getPaymentByTransactionId`. */
    method GetPaymentByTransactionId(transactionId: string) returns (r: Result<Payment>)
      ensures r.Ok? <==> exists id :: id in payments && payments[id].transactionId == transactionId
      ensures r.Ok? ==> r.value in payments.Values && r.value.transactionId == transactionId
      ensures r.Err? ==> r.failure == NotFound(PaymentEntity)
    {
      if id :| id in payments && payments[id].transactionId == transactionId {
        r := Ok(payments[id]);
      } else {
        r := Err(NotFound(PaymentEntity));
      }
    }
  }
}
