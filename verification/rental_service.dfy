/** The rental service: renting a car, returning it, and looking rentals up.

    Renting reserves one unit of the car's inventory and returning it gives
    the unit back. Neither step checks the inventory or the dates: the
    inventory is a Java `int` that can go below zero, and wraps around at
    the ends of its range.
 */
module RentalService {
  import opened Wrappers
  import opened Cars
  import opened Rentals
  import opened Store
  import opened Specification
  import opened RentalSpecification
  import Text
  import Table

  /** The input of `createRental`: no dates are checked against each
      other. */
  datatype RentalRequest = RentalRequest(rentalDate: int, returnDate: int, carId: int)

  /** The message of `createRental` for a missing user. */
  function UserNotFoundMessage(id: int): string {
    "Can`t find a user by id: " + Text.LongToString(id)
  }

  /** The rentals a query sees: every row that is not soft-deleted. */
  function LiveRentals(db: Db): (rentals: set<Rental>)
    ensures forall r :: r in rentals <==> exists k :: k in db.rentals.rows && db.rentals.rows[k] == r && Rentals.Live(r)
  {
    set k | k in db.rentals.rows && Rentals.Live(db.rentals.rows[k]) :: db.rentals.rows[k]
  }

  /** `createRental`: books the car for the user. The user is looked up
      first, then the car; the car's inventory drops by one and a new,
      active, not yet returned rental is stored. */
  function CreateRental(db: Db, req: RentalRequest, userId: int): (r: Result<(Db, Rental)>)
    ensures r.Ok? <==> FindUser(db, userId).Some? && FindCar(db, req.carId).Some?
    ensures FindUser(db, userId).None? ==> r == Err(NotFound(UserNotFoundMessage(userId)))
    ensures FindUser(db, userId).Some? && FindCar(db, req.carId).None? ==>
      r == Err(NotFound(CarNotFoundMessage(req.carId)))
    ensures r.Ok? ==>
      var (after, rental) := r.value;
      && rental.rentalDate == req.rentalDate && rental.returnDate == req.returnDate
      && rental.carId == req.carId && rental.userId == userId
      && rental.isActive && rental.actualReturnDate == None
      && FindRental(after, rental.id) == Some(rental)
      && after.rentals.rows.Keys == db.rentals.rows.Keys + {rental.id}
      && (forall k :: k in db.rentals.rows && k != rental.id ==> after.rentals.rows[k] == db.rentals.rows[k])
    ensures r.Ok? ==>
      var after := r.value.0;
      var car := db.cars.rows[req.carId];
      && after.cars.rows.Keys == db.cars.rows.Keys
      && after.cars.rows[req.carId].inventory == Decrement(car.inventory)
      && after.cars.rows[req.carId].(inventory := car.inventory) == car
      && (forall k :: k in db.cars.rows && k != req.carId ==> after.cars.rows[k] == db.cars.rows[k])
      && after.payments == db.payments && after.users == db.users
    ensures r.Ok? && Valid(db) ==> Valid(r.value.0) && r.value.1.id !in db.rentals.rows
  {
    var user :- OrError(FindUser(db, userId), NotFound(UserNotFoundMessage(userId)));
    var car :- OrError(FindCar(db, req.carId), NotFound(CarNotFoundMessage(req.carId)));
    var reserved := car.(inventory := Decrement(car.inventory));
    var rental := NewRental(db.rentals.nextId, req.rentalDate, req.returnDate, req.carId, userId);
    var after := db.(cars := Table.Update(db.cars, req.carId, reserved),
                     rentals := Table.Insert(db.rentals, rental));
    Ok((after, rental))
  }

  /** `actualReturnDate`: closes a live rental on `today` and gives the unit
      back to its car. The car is the rental's own association, read even
      when it has been soft-deleted since; there is no check that the
      rental is still open. */
  function ActualReturnDate(db: Db, rentalId: int, today: int): (r: Result<(Db, Rental)>)
    ensures r.Ok? <==> FindRental(db, rentalId).Some? && db.rentals.rows[rentalId].carId in db.cars.rows
    ensures FindRental(db, rentalId).None? ==> r == Err(NotFound(RentalNotFoundMessage(rentalId)))
    ensures Valid(db) && FindRental(db, rentalId).Some? ==> r.Ok?
    ensures r.Ok? ==>
      var (after, returned) := r.value;
      var rental := db.rentals.rows[rentalId];
      && returned.actualReturnDate == Some(today) && !returned.isActive
      && returned.(actualReturnDate := rental.actualReturnDate, isActive := rental.isActive) == rental
      && after.rentals.rows.Keys == db.rentals.rows.Keys
      && after.rentals.rows[rentalId] == returned
      && (forall k :: k in db.rentals.rows && k != rentalId ==> after.rentals.rows[k] == db.rentals.rows[k])
    ensures r.Ok? ==>
      var after := r.value.0;
      var carId := db.rentals.rows[rentalId].carId;
      var car := db.cars.rows[carId];
      && after.cars.rows.Keys == db.cars.rows.Keys
      && after.cars.rows[carId].inventory == Increment(car.inventory)
      && after.cars.rows[carId].(inventory := car.inventory) == car
      && (forall k :: k in db.cars.rows && k != carId ==> after.cars.rows[k] == db.cars.rows[k])
      && after.payments == db.payments && after.users == db.users
    ensures r.Ok? && Valid(db) ==> Valid(r.value.0)
  {
    var rental :- OrError(FindRental(db, rentalId), NotFound(RentalNotFoundMessage(rentalId)));
    if rental.carId !in db.cars.rows then Err(NullReference)
    else
      var car := db.cars.rows[rental.carId];
      var returned := rental.(actualReturnDate := Some(today), isActive := false);
      var after := db.(cars := Table.Update(db.cars, rental.carId, car.(inventory := Increment(car.inventory))),
                       rentals := Table.Update(db.rentals, rentalId, returned));
      Ok((after, returned))
  }

  /** `getRental`: the live rental with this id. */
  function GetRental(db: Db, rentalId: int): (r: Result<Rental>)
    ensures r.Ok? <==> rentalId in db.rentals.rows && Rentals.Live(db.rentals.rows[rentalId])
    ensures r.Ok? ==> r.value == db.rentals.rows[rentalId]
    ensures r.Err? ==> r.error == NotFound(RentalNotFoundMessage(rentalId))
  {
    OrError(FindRental(db, rentalId), NotFound(RentalNotFoundMessage(rentalId)))
  }

  /** `search`: the live rentals the built specification accepts, which are
      exactly the live rentals that match the parameters. */
  function Search(db: Db, params: RentalSearchParameters): (r: Result<set<Rental>>)
    ensures r.Ok?
    ensures forall x :: x in r.value <==> x in LiveRentals(db) && Matches(params, x)
  {
    BuildAllMatch(params);
    var spec := Build(RentalProviders, params).value;
    var live := LiveRentals(db);
    Ok(set x | x in live && Satisfies(spec, RentalRow(x)))
  }

  /** Renting a car and returning it leaves the car table exactly as it
      was, whatever the inventory, wrap-around included. */
  lemma CreateThenReturnRestoresCars(db: Db, req: RentalRequest, userId: int, today: int)
    requires CreateRental(db, req, userId).Ok?
    ensures var (created, rental) := CreateRental(db, req, userId).value;
            && ActualReturnDate(created, rental.id, today).Ok?
            && ActualReturnDate(created, rental.id, today).value.0.cars == db.cars
  {
    var (created, rental) := CreateRental(db, req, userId).value;
    var car := db.cars.rows[req.carId];
    var after := ActualReturnDate(created, rental.id, today).value.0;
    IncrementUndoesDecrement(car.inventory);
    assert after.cars.rows[req.carId] == car;
    assert after.cars.rows == db.cars.rows;
  }

  /** Returning a rental twice gives two units back and keeps the later
      date: nothing guards against a repeated return. */
  lemma ReturnTwice(db: Db, rentalId: int, first: int, second: int)
    requires ActualReturnDate(db, rentalId, first).Ok?
    ensures var once := ActualReturnDate(db, rentalId, first).value.0;
            var carId := db.rentals.rows[rentalId].carId;
            && ActualReturnDate(once, rentalId, second).Ok?
            && ActualReturnDate(once, rentalId, second).value.1.actualReturnDate == Some(second)
            && ActualReturnDate(once, rentalId, second).value.0.cars.rows[carId].inventory
               == Increment(Increment(db.cars.rows[carId].inventory))
  {
  }

  /** A booked rental is found by id, and a search on its user lists it. */
  lemma CreatedRentalIsFound(db: Db, req: RentalRequest, userId: int)
    requires CreateRental(db, req, userId).Ok?
    ensures var (created, rental) := CreateRental(db, req, userId).value;
            && GetRental(created, rental.id) == Ok(rental)
            && rental in Search(created, RentalSearchParameters(Some([userId]), None)).value
  {
    var (created, rental) := CreateRental(db, req, userId).value;
    assert created.rentals.rows[rental.id] == rental;
    assert Matches(RentalSearchParameters(Some([userId]), None), rental);
  }
}
