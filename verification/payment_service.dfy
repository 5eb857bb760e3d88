/** The payment service: pricing a returned rental, opening a checkout
    session for it, and the provider's success and cancel callbacks.

    The payment provider is a parameter `stripe`, which turns a session
    description into a session or a failure. `isUrl` decides whether the
    provider's session URL parses as a URL. A notification is returned as
    an event rather than sent.
 */
module PaymentService {
  import opened Wrappers
  import opened Cars
  import opened Rentals
  import opened Payments
  import opened Users
  import opened Store
  import opened FeeStrategy
  import Table
  import CarRequest
  import CarService

  datatype PaymentRequest = PaymentRequest(paymentType: PaymentType, rentalId: int)

  /** A checkout session as the provider returns it. */
  datatype Session = Session(id: string, url: string)

  /** The provider's answer to a session request: the session, or the
      reason it refused. */
  datatype ProviderReply = Created(session: Session) | Refused(reason: string)

  /** What the provider is asked to charge for. */
  datatype SessionDescription = SessionDescription(totalAmount: real, name: string, description: string)

  /** A chat message for the user's linked chat. */
  datatype Notification = Notification(chatId: int, text: string)

  const SESSION_DESCRIPTION: string := "This is a session for car rentals payment"

  /** The message of the payment service for a missing user: it names no
      id. */
  const USER_NOT_FOUND: string := "Can`t find a user by id"

  /** The unique column a duplicate session id violates. */
  const SESSION_ID_COLUMN: string := "sessionId"

  function SessionNotFoundMessage(sessionId: string): string {
    "Can`t find a session by id: " + sessionId
  }

  /** The message every provider failure is rethrown with. */
  function SessionCreateMessage(reason: string): string {
    "Can`t create a session: " + reason
  }

  function InvalidUrlMessage(url: string): string {
    "Invalid session URL: " + url
  }

  /** The chat text of a successful payment. The placeholder is part of the
      text: it is concatenated, not formatted. */
  function SuccessText(sessionId: string): string {
    "Payment with session id {} " + " is successful." + sessionId
  }

  /** The chat text of a canceled payment. */
  function CancelText(sessionId: string): string {
    "Payment with session id {} " + " is canceled." + sessionId
  }

  /** `getTotalAmountByRentalDays`: the inline copy of the on-time price. */
  function TotalAmountByRentalDays(dailyFee: real, rental: Rental): real
    requires rental.actualReturnDate.Some?
  {
    var rentalDays := DaysBetween(rental.rentalDate, rental.actualReturnDate.value);
    dailyFee * rentalDays as real
  }

  /** `getTotalAmountByRentalDaysWithOverdue`: the inline copy of the late
      price. */
  function TotalAmountByRentalDaysWithOverdue(dailyFee: real, rental: Rental): real
    requires rental.actualReturnDate.Some?
  {
    var rentalDays := DaysBetween(rental.rentalDate, rental.returnDate);
    var overdueDays := DaysBetween(rental.returnDate, rental.actualReturnDate.value);
    var fine := dailyFee * (overdueDays as real * FINE_MULTIPLIER);
    dailyFee * rentalDays as real + fine
  }

  /** `calculateTotalAmount`: the car is looked up first; a rental that has
      not been returned then fails on its absent date. The price is the one
      the strategy pattern computes. */
  function CalculateTotalAmount(db: Db, rental: Rental): (r: Result<real>)
    ensures r.Ok? <==> FindCar(db, rental.carId).Some? && rental.actualReturnDate.Some?
    ensures FindCar(db, rental.carId).None? ==> r == Err(NotFound(CarNotFoundMessage(rental.carId)))
    ensures FindCar(db, rental.carId).Some? && rental.actualReturnDate.None? ==> r == Err(NullReference)
    ensures r.Ok? ==> r.value == StrategyFee(db.cars.rows[rental.carId].dailyFee, rental)
  {
    var car :- OrError(FindCar(db, rental.carId), NotFound(CarNotFoundMessage(rental.carId)));
    var dailyFee := car.dailyFee;
    if rental.actualReturnDate.None? then Err(NullReference)
    else if rental.returnDate == rental.actualReturnDate.value
         || rental.actualReturnDate.value < rental.returnDate
    then Ok(TotalAmountByRentalDays(dailyFee, rental))
    else Ok(TotalAmountByRentalDaysWithOverdue(dailyFee, rental))
  }

  /** The inline calculation and the strategy pattern agree branch by
      branch, and on every returned rental. */
  lemma InlineAgreesWithStrategy(dailyFee: real, rental: Rental)
    requires rental.actualReturnDate.Some?
    ensures TotalAmountByRentalDays(dailyFee, rental) == OnTimeAmount(dailyFee, rental)
    ensures TotalAmountByRentalDaysWithOverdue(dailyFee, rental) == LateAmount(dailyFee, rental)
    ensures rental.actualReturnDate.value <= rental.returnDate ==>
      TotalAmountByRentalDays(dailyFee, rental) == StrategyFee(dailyFee, rental)
    ensures rental.actualReturnDate.value > rental.returnDate ==>
      TotalAmountByRentalDaysWithOverdue(dailyFee, rental) == StrategyFee(dailyFee, rental)
  {
  }

  /** The two rentals of the payment service test, at 100 a day for ten
      scheduled days: returned on time they cost 1000, returned two days
      late 1300. */
  lemma CalculateTotalAmountExamples(db: Db, today: int)
    requires FindCar(db, 1).Some? && db.cars.rows[1].dailyFee == 100.0
    ensures CalculateTotalAmount(db, Rental(1, today, today + 10, Some(today + 10), 1, 1, false, false)) == Ok(1000.0)
    ensures CalculateTotalAmount(db, Rental(2, today, today + 10, Some(today + 12), 1, 1, false, false)) == Ok(1300.0)
  {
  }

  /** The description of the session for a rental of `car`. */
  function Describe(car: Car, totalAmount: real): (d: SessionDescription)
    ensures d.totalAmount == totalAmount
    ensures d.name == "Rental" + car.model + car.brand
    ensures d.description == SESSION_DESCRIPTION
  {
    SessionDescription(totalAmount, "Rental" + car.model + car.brand, SESSION_DESCRIPTION)
  }

  /** Whether some payment row, deleted or not, already holds this session
      id: the unique constraint covers every row. */
  predicate SessionTaken(payments: map<int, Payment>, sessionId: string) {
    exists k | k in payments :: payments[k].sessionId == sessionId
  }

  /** `savePayment`: a new pending payment for the session. An unparsable
      URL fails before anything is saved, and a session id already in the
      table violates its unique constraint. */
  function SavePayment(db: Db, totalAmount: real, session: Session, rentalId: int,
                       paymentType: PaymentType, isUrl: string -> bool): (r: Result<(Db, Payment)>)
    ensures r.Ok? <==> isUrl(session.url) && !SessionTaken(db.payments.rows, session.id)
    ensures !isUrl(session.url) ==> r == Err(InvalidUrl(InvalidUrlMessage(session.url)))
    ensures isUrl(session.url) && SessionTaken(db.payments.rows, session.id) ==>
      r == Err(ConstraintViolation(SESSION_ID_COLUMN))
    ensures r.Ok? ==>
      var (after, payment) := r.value;
      && payment.status == PENDING && payment.paymentType == paymentType
      && payment.rentalId == rentalId && payment.totalPrice == totalAmount
      && payment.sessionId == session.id && payment.sessionUrl == session.url
      && Payments.Live(payment)
      && after.payments.rows.Keys == db.payments.rows.Keys + {payment.id}
      && after.payments.rows[payment.id] == payment
      && (forall k :: k in db.payments.rows && k != payment.id ==> after.payments.rows[k] == db.payments.rows[k])
      && after.cars == db.cars && after.rentals == db.rentals && after.users == db.users
    ensures r.Ok? && Valid(db) && rentalId in db.rentals.rows ==>
      Valid(r.value.0) && r.value.1.id !in db.payments.rows
  {
    if !isUrl(session.url) then Err(InvalidUrl(InvalidUrlMessage(session.url)))
    else if SessionTaken(db.payments.rows, session.id) then Err(ConstraintViolation(SESSION_ID_COLUMN))
    else
      var payment := Payment(db.payments.nextId, PENDING, paymentType, rentalId, session.url, session.id,
                             totalAmount, false);
      Ok((db.(payments := Table.Insert(db.payments, payment)), payment))
  }

  /** `createPaymentSession`: prices the live rental, asks the provider for
      a session and stores a pending payment for it. Each step's failure
      ends the call with nothing stored. */
  function CreatePaymentSession(db: Db, req: PaymentRequest, stripe: SessionDescription -> ProviderReply,
                                isUrl: string -> bool): (r: Result<(Db, Payment)>)
    ensures FindRental(db, req.rentalId).None? ==> r == Err(NotFound(RentalNotFoundMessage(req.rentalId)))
    ensures FindRental(db, req.rentalId).Some? && CalculateTotalAmount(db, db.rentals.rows[req.rentalId]).Err? ==>
      r == Err(CalculateTotalAmount(db, db.rentals.rows[req.rentalId]).error)
    ensures FindRental(db, req.rentalId).Some? && CalculateTotalAmount(db, db.rentals.rows[req.rentalId]).Ok? ==>
      var rental := db.rentals.rows[req.rentalId];
      var price := CalculateTotalAmount(db, rental).value;
      var reply := stripe(Describe(db.cars.rows[rental.carId], price));
      && (reply.Refused? ==> r == Err(External(SessionCreateMessage(reply.reason))))
      && (reply.Created? ==> r == SavePayment(db, price, reply.session, rental.id, req.paymentType, isUrl))
    ensures r.Ok? ==>
      var (after, payment) := r.value;
      && FindRental(db, req.rentalId).Some?
      && var rental := db.rentals.rows[req.rentalId];
      && FindCar(db, rental.carId).Some?
      && rental.actualReturnDate.Some?
      && var car := db.cars.rows[rental.carId];
      && payment.totalPrice == StrategyFee(car.dailyFee, rental)
      && stripe(Describe(car, payment.totalPrice)) == Created(Session(payment.sessionId, payment.sessionUrl))
      && isUrl(payment.sessionUrl)
      && payment.status == PENDING && payment.paymentType == req.paymentType
      && payment.rentalId == rental.id && Payments.Live(payment)
      && after.payments.rows.Keys == db.payments.rows.Keys + {payment.id}
      && after.payments.rows[payment.id] == payment
      && (forall k :: k in db.payments.rows && k != payment.id ==> after.payments.rows[k] == db.payments.rows[k])
      && (forall k :: k in db.payments.rows ==> db.payments.rows[k].sessionId != payment.sessionId)
      && after.cars == db.cars && after.rentals == db.rentals && after.users == db.users
    ensures r.Ok? && Valid(db) ==> Valid(r.value.0) && r.value.1.rentalId == req.rentalId
  {
    var rental :- OrError(FindRental(db, req.rentalId), NotFound(RentalNotFoundMessage(req.rentalId)));
    var totalPrice :- CalculateTotalAmount(db, rental);
    var car := db.cars.rows[rental.carId];
    match stripe(Describe(car, totalPrice))
    case Refused(reason) => Err(External(SessionCreateMessage(reason)))
    case Created(session) =>
      SavePayment(db, totalPrice, session, rental.id, req.paymentType, isUrl)
  }

  /** Whether a callback for this session id finds everything it reads:
      exactly one live payment with the id, its live rental, and the
      rental's user. */
  predicate CallbackResolves(db: Db, sessionId: string) {
    && FindPaymentBySession(db, sessionId).Ok?
    && FindPaymentBySession(db, sessionId).value.Some?
    && var payment := db.payments.rows[FindPaymentBySession(db, sessionId).value.value];
    && FindRental(db, payment.rentalId).Some?
    && db.rentals.rows[payment.rentalId].userId in db.users.rows
  }

  /** The shared body of the two callbacks: finds the live payment by its
      session id, then its rental, then the rental's user; sets the status;
      and addresses a notification to the user's chat when one is linked.
      The prior status is not checked. */
  function SetStatusBySession(db: Db, sessionId: string, status: Status, text: string)
    : (r: Result<(Db, Option<Notification>)>)
    ensures r.Ok? <==> CallbackResolves(db, sessionId)
    ensures FindPaymentBySession(db, sessionId) == Ok(None) ==>
      r == Err(NotFound(SessionNotFoundMessage(sessionId)))
    ensures FindPaymentBySession(db, sessionId).Err? ==> r == Err(NonUniqueResult)
    ensures FindPaymentBySession(db, sessionId).Ok? && FindPaymentBySession(db, sessionId).value.Some? ==>
      var payment := db.payments.rows[FindPaymentBySession(db, sessionId).value.value];
      && (FindRental(db, payment.rentalId).None? ==>
            r == Err(NotFound(RentalNotFoundMessage(payment.rentalId))))
      && (FindRental(db, payment.rentalId).Some? && db.rentals.rows[payment.rentalId].userId !in db.users.rows ==>
            r == Err(NotFound(USER_NOT_FOUND)))
    ensures r.Ok? ==>
      var (after, note) := r.value;
      var key := FindPaymentBySession(db, sessionId).value.value;
      var user := db.users.rows[db.rentals.rows[db.payments.rows[key].rentalId].userId];
      && after.payments.rows.Keys == db.payments.rows.Keys
      && after.payments.rows[key] == WithStatus(db.payments.rows[key], status)
      && (forall k :: k in db.payments.rows && k != key ==> after.payments.rows[k] == db.payments.rows[k])
      && after.payments.nextId == db.payments.nextId
      && after.cars == db.cars && after.rentals == db.rentals && after.users == db.users
      && (note.Some? <==> user.telegramId.Some?)
      && (note.Some? ==> note.value == Notification(user.telegramId.value, text))
    ensures r.Ok? && Valid(db) ==> Valid(r.value.0)
  {
    var found :- FindPaymentBySession(db, sessionId);
    var key :- OrError(found, NotFound(SessionNotFoundMessage(sessionId)));
    var payment := db.payments.rows[key];
    var rental :- OrError(FindRental(db, payment.rentalId), NotFound(RentalNotFoundMessage(payment.rentalId)));
    var user :- OrError(FindUser(db, rental.userId), NotFound(USER_NOT_FOUND));
    var after := db.(payments := Table.Update(db.payments, key, WithStatus(payment, status)));
    var note := if user.telegramId.Some? then Some(Notification(user.telegramId.value, text)) else None;
    Ok((after, note))
  }

  /** `successPayment`: marks the session's payment PAID. */
  function SuccessPayment(db: Db, sessionId: string): (r: Result<(Db, Option<Notification>)>)
    ensures r.Ok? <==> CallbackResolves(db, sessionId)
    ensures FindPaymentBySession(db, sessionId) == Ok(None) ==>
      r == Err(NotFound(SessionNotFoundMessage(sessionId)))
    ensures r.Err? ==> r == SetStatusBySession(db, sessionId, CANCELED, CancelText(sessionId))
    ensures r.Ok? ==>
      && var key := FindPaymentBySession(db, sessionId).value.value;
      && r.value.0.payments.rows == db.payments.rows[key := db.payments.rows[key].(status := PAID)]
      && r.value.0.payments.nextId == db.payments.nextId
      && r.value.0.cars == db.cars && r.value.0.rentals == db.rentals && r.value.0.users == db.users
      && (r.value.1.Some? ==> r.value.1.value.text == SuccessText(sessionId))
    ensures r.Ok? && Valid(db) ==> Valid(r.value.0)
  {
    SetStatusBySession(db, sessionId, PAID, SuccessText(sessionId))
  }

  /** `cancelPayment`: marks the session's payment CANCELED. */
  function CancelPayment(db: Db, sessionId: string): (r: Result<(Db, Option<Notification>)>)
    ensures r.Ok? <==> CallbackResolves(db, sessionId)
    ensures FindPaymentBySession(db, sessionId) == Ok(None) ==>
      r == Err(NotFound(SessionNotFoundMessage(sessionId)))
    ensures r.Err? ==> r == SetStatusBySession(db, sessionId, PAID, SuccessText(sessionId))
    ensures r.Ok? ==>
      && var key := FindPaymentBySession(db, sessionId).value.value;
      && r.value.0.payments.rows == db.payments.rows[key := db.payments.rows[key].(status := CANCELED)]
      && r.value.0.payments.nextId == db.payments.nextId
      && r.value.0.cars == db.cars && r.value.0.rentals == db.rentals && r.value.0.users == db.users
      && (r.value.1.Some? ==> r.value.1.value.text == CancelText(sessionId))
    ensures r.Ok? && Valid(db) ==> Valid(r.value.0)
  {
    SetStatusBySession(db, sessionId, CANCELED, CancelText(sessionId))
  }

  /** Changing a status keeps every session id and every soft-delete flag,
      so a session is found under the same key before and after. */
  lemma StatusChangeKeepsSessions(db: Db, key: int, status: Status, sessionId: string)
    requires key in db.payments.rows
    ensures var after := db.(payments := Table.Update(db.payments, key, WithStatus(db.payments.rows[key], status)));
            FindPaymentBySession(after, sessionId) == FindPaymentBySession(db, sessionId)
  {
    var after := db.(payments := Table.Update(db.payments, key, WithStatus(db.payments.rows[key], status)));
    assert SessionMatches(after.payments.rows, sessionId) == SessionMatches(db.payments.rows, sessionId);
  }

  /** Nothing orders the callbacks: a paid payment can still be canceled,
      and then it is CANCELED. */
  lemma PaidCanBeCanceled(db: Db, sessionId: string)
    requires SuccessPayment(db, sessionId).Ok?
    ensures var paid := SuccessPayment(db, sessionId).value.0;
            var key := FindPaymentBySession(db, sessionId).value.value;
            && paid.payments.rows[key].status == PAID
            && CancelPayment(paid, sessionId).Ok?
            && CancelPayment(paid, sessionId).value.0.payments.rows[key].status == CANCELED
  {
    var key := FindPaymentBySession(db, sessionId).value.value;
    StatusChangeKeepsSessions(db, key, PAID, sessionId);
  }

  /** A callback repeated changes nothing more. */
  lemma SuccessIdempotent(db: Db, sessionId: string)
    requires SuccessPayment(db, sessionId).Ok?
    ensures var once := SuccessPayment(db, sessionId).value.0;
            && SuccessPayment(once, sessionId).Ok?
            && SuccessPayment(once, sessionId).value.0 == once
  {
    var key := FindPaymentBySession(db, sessionId).value.value;
    StatusChangeKeepsSessions(db, key, PAID, sessionId);
  }

  /** A failed lookup of the session is reported with the session id, and
      the store is left alone. */
  lemma UnknownSessionFails(db: Db, sessionId: string)
    requires FindPaymentBySession(db, sessionId) == Ok(None)
    ensures SuccessPayment(db, sessionId) == Err(NotFound(SessionNotFoundMessage(sessionId)))
    ensures CancelPayment(db, sessionId) == Err(NotFound(SessionNotFoundMessage(sessionId)))
  {
  }

  /** The ids of the live rentals of a user, as `findAllByUserId` lists
      them. */
  function UserRentalIds(db: Db, userId: int): (ids: set<int>)
    ensures forall id :: id in ids <==>
      exists k :: k in db.rentals.rows && Rentals.Live(db.rentals.rows[k])
               && db.rentals.rows[k].userId == userId && db.rentals.rows[k].id == id
  {
    set k | k in db.rentals.rows && Rentals.Live(db.rentals.rows[k]) && db.rentals.rows[k].userId == userId
      :: db.rentals.rows[k].id
  }

  /** `getPayments`: the live payments joined to a live rental whose id is
      among the user's rentals. */
  function GetPayments(db: Db, userId: int): (ps: set<Payment>)
    ensures forall p :: p in ps ==> Payments.Live(p) && p.rentalId in UserRentalIds(db, userId)
  {
    var ids := UserRentalIds(db, userId);
    set k | k in db.payments.rows && Payments.Live(db.payments.rows[k])
            && db.payments.rows[k].rentalId in db.rentals.rows
            && Rentals.Live(db.rentals.rows[db.payments.rows[k].rentalId])
            && db.payments.rows[k].rentalId in ids
      :: db.payments.rows[k]
  }

  /** In a consistent store a user's payments are exactly the live payments
      of the user's live rentals. */
  lemma GetPaymentsAreTheUsers(db: Db, userId: int)
    requires Valid(db)
    ensures forall p :: p in GetPayments(db, userId) <==>
      && (exists k :: k in db.payments.rows && db.payments.rows[k] == p)
      && Payments.Live(p)
      && Rentals.Live(db.rentals.rows[p.rentalId])
      && db.rentals.rows[p.rentalId].userId == userId
  {
    var ids := UserRentalIds(db, userId);
    forall p
      ensures p in GetPayments(db, userId) <==>
        && (exists k :: k in db.payments.rows && db.payments.rows[k] == p)
        && Payments.Live(p)
        && Rentals.Live(db.rentals.rows[p.rentalId])
        && db.rentals.rows[p.rentalId].userId == userId
    {
      if p in GetPayments(db, userId) {
        var k :| k in db.payments.rows && db.payments.rows[k] == p && p.rentalId in ids;
        var j :| j in db.rentals.rows && Rentals.Live(db.rentals.rows[j])
                 && db.rentals.rows[j].userId == userId && db.rentals.rows[j].id == p.rentalId;
        assert j == p.rentalId;
      }
      if && (exists k :: k in db.payments.rows && db.payments.rows[k] == p)
         && Payments.Live(p)
         && Rentals.Live(db.rentals.rows[p.rentalId])
         && db.rentals.rows[p.rentalId].userId == userId {
        var k :| k in db.payments.rows && db.payments.rows[k] == p;
        assert p.rentalId in db.rentals.rows;
        assert db.rentals.rows[p.rentalId].id == p.rentalId;
        assert p.rentalId in ids;
      }
    }
  }

  /** A car created from a request whose fee passes validation has a fee of
      at least zero, so every rental of it returned no earlier than it
      began is priced at zero or more. */
  lemma ValidCarPricesNonNegative(db: Db, req: CarRequest.CreateCarRequest, rental: Rental)
    requires CarRequest.FeeAtLeastZero(req.dailyFee) && req.dailyFee.Some?
    requires rental.actualReturnDate.Some? && rental.actualReturnDate.value >= rental.rentalDate
    ensures CarService.CreateCar(db, req).Ok?
    ensures StrategyFee(CarService.CreateCar(db, req).value.1.dailyFee, rental) >= 0.0
  {
    FeeNonNegative(CarService.CreateCar(db, req).value.1.dailyFee, rental);
  }
}
