/** The car service: fleet management over the car table.

    Every operation is one transaction over the store: it returns the new
    store inside `Ok`, and an `Err` leaves the store as it was.
 */
module CarService {
  import opened Wrappers
  import opened Cars
  import opened Store
  import opened Specification
  import opened CarSpecification
  import CarRequest
  import Text
  import Table

  /** The message of `updateCarById` for a missing car (with an
      apostrophe). */
  function UpdateNotFoundMessage(id: int): string {
    "Can't find a car by id: " + Text.LongToString(id)
  }

  /** The cars a query sees: every row that is not soft-deleted. */
  function LiveCars(db: Db): (cars: set<Car>)
    ensures forall c :: c in cars <==> exists k :: k in db.cars.rows && db.cars.rows[k] == c && Live(c)
  {
    set k | k in db.cars.rows && Live(db.cars.rows[k]) :: db.cars.rows[k]
  }

  /** The not-null column a car saved without a daily fee violates. */
  const DAILY_FEE_COLUMN: string := "daily_fee"

  /** `createCar`: stores the request as a new, live car under a fresh id
      and returns it. A request without a fee passes validation but fails
      the not-null constraint of the fee column when saved. */
  function CreateCar(db: Db, req: CarRequest.CreateCarRequest): (r: Result<(Db, Car)>)
    ensures r.Ok? <==> req.dailyFee.Some?
    ensures r.Err? ==> r.error == ConstraintViolation(DAILY_FEE_COLUMN)
    ensures r.Ok? ==>
      var (after, car) := r.value;
      && car.model == req.model && car.brand == req.brand && car.carFrame == req.carFrame
      && car.inventory == req.inventory && Some(car.dailyFee) == req.dailyFee
      && Live(car)
      && FindCar(after, car.id) == Some(car)
      && after.cars.rows.Keys == db.cars.rows.Keys + {car.id}
      && (forall k :: k in db.cars.rows && k != car.id ==> after.cars.rows[k] == db.cars.rows[k])
      && after.rentals == db.rentals && after.payments == db.payments && after.users == db.users
    ensures r.Ok? && Valid(db) ==> Valid(r.value.0) && r.value.1.id !in db.cars.rows
  {
    match req.dailyFee
    case None => Err(ConstraintViolation(DAILY_FEE_COLUMN))
    case Some(fee) =>
      var car := Car(db.cars.nextId, req.model, req.brand, req.carFrame, req.inventory, fee, false);
      Ok((db.(cars := Table.Insert(db.cars, car)), car))
  }

  /** `updateCarById`: overwrites every field of a live car with the
      request, keeping its id. The car is looked up first; a request
      without a fee then fails when the car is saved. */
  function UpdateCarById(db: Db, id: int, req: CarRequest.CreateCarRequest): (r: Result<(Db, Car)>)
    ensures r.Ok? <==> FindCar(db, id).Some? && req.dailyFee.Some?
    ensures FindCar(db, id).None? ==> r == Err(NotFound(UpdateNotFoundMessage(id)))
    ensures FindCar(db, id).Some? && req.dailyFee.None? ==> r == Err(ConstraintViolation(DAILY_FEE_COLUMN))
    ensures r.Ok? ==>
      && r.value.1.id == id
      && r.value.1.model == req.model && r.value.1.brand == req.brand
      && r.value.1.carFrame == req.carFrame
      && r.value.1.inventory == req.inventory && Some(r.value.1.dailyFee) == req.dailyFee
      && FindCar(r.value.0, id) == Some(r.value.1)
    ensures r.Ok? ==> r.value.0.cars.rows.Keys == db.cars.rows.Keys
    ensures r.Ok? ==> forall k :: k in db.cars.rows && k != id ==> r.value.0.cars.rows[k] == db.cars.rows[k]
    ensures r.Ok? ==> r.value.0.rentals == db.rentals && r.value.0.payments == db.payments && r.value.0.users == db.users
    ensures r.Ok? && Valid(db) ==> Valid(r.value.0)
  {
    var car :- OrError(FindCar(db, id), NotFound(UpdateNotFoundMessage(id)));
    match req.dailyFee
    case None => Err(ConstraintViolation(DAILY_FEE_COLUMN))
    case Some(fee) =>
      var updated := car.(id := id, model := req.model, brand := req.brand, carFrame := req.carFrame,
                          inventory := req.inventory, dailyFee := fee);
      Ok((db.(cars := Table.Update(db.cars, id, updated)), updated))
  }

  /** `deleteCarById`: soft-deletes a live car; a missing or already
      deleted id changes nothing. */
  function DeleteCarById(db: Db, id: int): (r: Db)
    ensures FindCar(r, id) == None
    ensures forall k :: k != id ==> FindCar(r, k) == FindCar(db, k)
    ensures FindCar(db, id).Some? ==> id in r.cars.rows && r.cars.rows[id] == db.cars.rows[id].(isDeleted := true)
    ensures FindCar(db, id).None? ==> r == db
    ensures r.cars.rows.Keys == db.cars.rows.Keys
    ensures r.rentals == db.rentals && r.payments == db.payments && r.users == db.users
    ensures Valid(db) ==> Valid(r)
  {
    match FindCar(db, id)
    case None => db
    case Some(car) => db.(cars := Table.Update(db.cars, id, car.(isDeleted := true)))
  }

  /** `findCarById`: the live car with this id. */
  function FindCarById(db: Db, id: int): (r: Result<Car>)
    ensures r.Ok? <==> id in db.cars.rows && Live(db.cars.rows[id])
    ensures r.Ok? ==> r.value == db.cars.rows[id]
    ensures r.Err? ==> r.error == NotFound(CarNotFoundMessage(id))
  {
    OrError(FindCar(db, id), NotFound(CarNotFoundMessage(id)))
  }

  /** `search`: the live cars the built specification accepts, which are
      exactly the live cars that match the parameters. */
  function Search(db: Db, params: CarSearchParameters): (r: Result<set<Car>>)
    ensures r.Ok?
    ensures forall c :: c in r.value <==> c in LiveCars(db) && Matches(params, c)
  {
    BuildAllMatch(params);
    var spec := Build(CarProviders, params).value;
    var live := LiveCars(db);
    Ok(set c | c in live && Satisfies(spec, CarRow(c)))
  }

  /** Once deleted, a car is found neither by id nor by any search. */
  lemma DeleteHidesCar(db: Db, id: int, params: CarSearchParameters)
    requires Valid(db)
    ensures FindCarById(DeleteCarById(db, id), id).Err?
    ensures forall c :: c in Search(DeleteCarById(db, id), params).value ==> c.id != id
  {
    var r := DeleteCarById(db, id);
    forall c | c in Search(r, params).value
      ensures c.id != id
    {
      var k :| k in r.cars.rows && r.cars.rows[k] == c && Live(c);
      assert FindCar(r, k) == Some(c);
    }
  }

  /** Deleting twice is deleting once. */
  lemma DeleteIdempotent(db: Db, id: int)
    ensures DeleteCarById(DeleteCarById(db, id), id) == DeleteCarById(db, id)
  {
  }

  /** An update is visible to the next lookup, and repeating it changes
      nothing more. */
  lemma UpdateThenFind(db: Db, id: int, req: CarRequest.CreateCarRequest)
    requires FindCar(db, id).Some? && req.dailyFee.Some?
    ensures FindCarById(UpdateCarById(db, id, req).value.0, id) == Ok(UpdateCarById(db, id, req).value.1)
    ensures UpdateCarById(UpdateCarById(db, id, req).value.0, id, req).value.0 == UpdateCarById(db, id, req).value.0
  {
  }

  /** A request can pass validation and still fail to be saved: without a
      fee, creation fails on every store. */
  lemma ValidRequestWithoutFeeFails(db: Db)
    ensures CarRequest.Valid(CarRequest.CreateCarRequest("Corolla", "Toyota", SEDAN, 50, None))
    ensures CreateCar(db, CarRequest.CreateCarRequest("Corolla", "Toyota", SEDAN, 50, None))
         == Err(ConstraintViolation(DAILY_FEE_COLUMN))
  {
    CarRequest.MissingFeeIsValid();
  }

  /** The cars of the controller test: a sedan of brand "Q7", a sedan of
      brand "3" and a universal of brand "e39". */
  const Q7Car: Car := Car(1, "Mercedes", "Q7", SEDAN, 100, 50.0, false)
  const TeslaCar: Car := Car(2, "Tesla", "3", SEDAN, 150, 40.0, false)
  const BmwCar: Car := Car(3, "BMW", "e39", UNIVERSAL, 50, 60.0, false)
  const ExampleFleet: Db :=
    Db(Table.Table(map[1 := Q7Car, 2 := TeslaCar, 3 := BmwCar], 4), Table.Empty(), Table.Empty(), Table.Empty())

  /** Searching brands "3" and "e39" among sedans and universals selects the
      second and the third car of the example fleet. */
  lemma SearchExample()
    ensures Search(ExampleFleet, CarSearchParameters(Some(["3", "e39"]), Some([SEDAN, UNIVERSAL]))).value
         == {TeslaCar, BmwCar}
  {
    var params := CarSearchParameters(Some(["3", "e39"]), Some([SEDAN, UNIVERSAL]));
    var found := Search(ExampleFleet, params).value;
    var rows := ExampleFleet.cars.rows;
    assert rows[2] == TeslaCar && rows[3] == BmwCar;
    assert "Q7" != "3" && "Q7" != "e39";
    assert Matches(params, TeslaCar) && Matches(params, BmwCar);
    assert !Matches(params, Q7Car);
    assert TeslaCar in found && BmwCar in found;
    forall c | c in found
      ensures c == TeslaCar || c == BmwCar
    {
      var k :| k in rows && rows[k] == c && Live(c);
      assert k == 1 || k == 2 || k == 3;
    }
  }
}
