/** The persistent state the services share: one table per entity, and the
    repository lookups the services use on them.

    Every lookup by id honours the soft-delete restriction of the entity:
    a deleted car, rental or payment is invisible to it. Users carry no
    deleted flag.
 */
module Store {
  import opened Wrappers
  import opened Cars
  import opened Rentals
  import opened Payments
  import opened Users
  import Table
  import Text

  datatype Db = Db(
    cars: Table.Table<Car>,
    rentals: Table.Table<Rental>,
    payments: Table.Table<Payment>,
    users: Table.Table<User>)

  /** The empty database. */
  function EmptyDb(): (db: Db)
    ensures Valid(db)
  {
    Db(Table.Empty(), Table.Empty(), Table.Empty(), Table.Empty())
  }

  /** Each row is stored under its own id. */
  ghost predicate IdsMatch(db: Db) {
    && (forall k :: k in db.cars.rows ==> db.cars.rows[k].id == k)
    && (forall k :: k in db.rentals.rows ==> db.rentals.rows[k].id == k)
    && (forall k :: k in db.payments.rows ==> db.payments.rows[k].id == k)
    && (forall k :: k in db.users.rows ==> db.users.rows[k].id == k)
  }

  /** The unique constraint on the payment session id, over every row. */
  ghost predicate UniqueSessions(payments: map<int, Payment>) {
    forall a, b :: a in payments && b in payments && a != b ==>
      payments[a].sessionId != payments[b].sessionId
  }

  /** No two users share an e-mail address. */
  ghost predicate UniqueEmails(users: map<int, User>) {
    forall a, b :: a in users && b in users && a != b ==>
      users[a].email != users[b].email
  }

  /** The foreign keys: a rental's car and user rows exist, and so does a
      payment's rental row. */
  ghost predicate ReferencesResolve(db: Db) {
    && (forall k :: k in db.rentals.rows ==>
          db.rentals.rows[k].carId in db.cars.rows && db.rentals.rows[k].userId in db.users.rows)
    && (forall k :: k in db.payments.rows ==> db.payments.rows[k].rentalId in db.rentals.rows)
  }

  /** The invariant the schema maintains and every service call preserves. */
  ghost predicate Valid(db: Db) {
    && Table.Valid(db.cars)
    && Table.Valid(db.rentals)
    && Table.Valid(db.payments)
    && Table.Valid(db.users)
    && IdsMatch(db)
    && UniqueSessions(db.payments.rows)
    && UniqueEmails(db.users.rows)
    && ReferencesResolve(db)
  }

  /** The not-found message for a car id, shared by every service that
      looks a car up by id (with a backtick). */
  function CarNotFoundMessage(id: int): string {
    "Can`t find a car by id: " + Text.LongToString(id)
  }

  /** The not-found message for a rental id, shared by the rental and the
      payment services. */
  function RentalNotFoundMessage(id: int): string {
    "Can`t find a rental by id: " + Text.LongToString(id)
  }

  /** `carRepository.findById`: the live car with this id. */
  function FindCar(db: Db, id: int): (r: Option<Car>)
    ensures r.Some? <==> id in db.cars.rows && Cars.Live(db.cars.rows[id])
    ensures r.Some? ==> r.value == db.cars.rows[id]
  {
    if id in db.cars.rows && Cars.Live(db.cars.rows[id]) then Some(db.cars.rows[id]) else None
  }

  /** `rentalRepository.findById`: the live rental with this id. */
  function FindRental(db: Db, id: int): (r: Option<Rental>)
    ensures r.Some? <==> id in db.rentals.rows && Rentals.Live(db.rentals.rows[id])
    ensures r.Some? ==> r.value == db.rentals.rows[id]
  {
    if id in db.rentals.rows && Rentals.Live(db.rentals.rows[id]) then Some(db.rentals.rows[id]) else None
  }

  /** `userRepository.findById`. */
  function FindUser(db: Db, id: int): (r: Option<User>)
    ensures r.Some? <==> id in db.users.rows
    ensures r.Some? ==> r.value == db.users.rows[id]
  {
    if id in db.users.rows then Some(db.users.rows[id]) else None
  }

  /** The ids of the live payments with this session id. */
  function SessionMatches(payments: map<int, Payment>, sessionId: string): (ids: set<int>)
    ensures forall k :: k in ids <==> k in payments && Payments.Live(payments[k]) && payments[k].sessionId == sessionId
  {
    set k | k in payments && Payments.Live(payments[k]) && payments[k].sessionId == sessionId
  }

  /** `paymentRepository.findBySessionId`: a single-result query, absent when
      nothing matches and a failure when several rows do. The result is the
      key of the matching row. */
  function FindPaymentBySession(db: Db, sessionId: string): (r: Result<Option<int>>)
    ensures r.Ok? && r.value.Some? ==>
      && r.value.value in db.payments.rows
      && Payments.Live(db.payments.rows[r.value.value])
      && db.payments.rows[r.value.value].sessionId == sessionId
    ensures r == Ok(None) <==>
      forall k :: k in db.payments.rows && Payments.Live(db.payments.rows[k]) ==>
        db.payments.rows[k].sessionId != sessionId
    ensures r.Err? ==> r.error == NonUniqueResult
    ensures UniqueSessions(db.payments.rows) ==> r.Ok?
  {
    var ids := SessionMatches(db.payments.rows, sessionId);
    if |ids| == 0 then
      assert forall k :: k !in ids;
      Ok(None)
    else if |ids| == 1 then
      var k := Table.Only(ids);
      Ok(Some(k))
    else
      Table.TwoMembers(ids);
      Err(NonUniqueResult)
  }
}
