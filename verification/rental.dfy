/** The Rental entity: one booking of one car by one user over a date range.

    Dates are whole calendar days, written as day numbers. The car and the
    user are referenced by id.
 */
module Rentals {
  import opened Wrappers

  datatype Rental = Rental(
    id: int,
    rentalDate: int,
    returnDate: int,
    /** Absent while the car is still out. */
    actualReturnDate: Option<int>,
    carId: int,
    userId: int,
    isActive: bool,
    isDeleted: bool)

  /** A row the soft-delete restriction lets queries see. */
  predicate Live(r: Rental) {
    !r.isDeleted
  }

  /** A freshly mapped rental: active, not deleted, not yet returned. */
  function NewRental(id: int, rentalDate: int, returnDate: int, carId: int, userId: int): (r: Rental)
    ensures r.isActive && Live(r) && r.actualReturnDate == None
    ensures r.id == id && r.carId == carId && r.userId == userId
    ensures r.rentalDate == rentalDate && r.returnDate == returnDate
  {
    Rental(id, rentalDate, returnDate, None, carId, userId, true, false)
  }
}
