/** The Payment entity: the record of one external checkout session for
    one rental.
 */
module Payments {

  datatype Status = PENDING | PAID | CANCELED

  datatype PaymentType = PAYMENT | FINE

  datatype Payment = Payment(
    id: int,
    status: Status,
    paymentType: PaymentType,
    rentalId: int,
    sessionUrl: string,
    /** A unique column: no two rows share a session id. */
    sessionId: string,
    totalPrice: real,
    isDeleted: bool)

  /** A row the soft-delete restriction lets queries see. */
  predicate Live(p: Payment) {
    !p.isDeleted
  }

  /** Sets the status, the only field the payment callbacks change. */
  function WithStatus(p: Payment, s: Status): (r: Payment)
    ensures r.status == s
    ensures r.(status := p.status) == p
  {
    p.(status := s)
  }
}
