/** The fee calculator: the rule that picks an on-time or a late pricing
    strategy for a returned rental, and the two strategies.

    Dates are day numbers, so the whole-day distance between two dates is
    their difference. Money is exact: the daily fee is a decimal, and the
    fine factor `overdueDays * 1.5` is computed in a double, which is exact
    for every distance between two representable dates (fewer than 2^40
    days), so it is modelled as an exact rational.
 */
module FeeStrategy {
  import opened Wrappers
  import opened Rentals

  datatype Strategy = OnTime | Late

  const FINE_MULTIPLIER: real := 1.5

  /** `ChronoUnit.DAYS.between(from, to)`: negative when `to` is earlier. */
  function DaysBetween(from: int, to: int): int {
    to - from
  }

  /** `getPaymentAmount(rental)`: on time when the car came back on the
      scheduled day or earlier, late otherwise. The rental must have been
      returned: the rule calls a method on the actual return date. */
  function GetPaymentAmount(rental: Rental): (s: Strategy)
    requires rental.actualReturnDate.Some?
    ensures s == OnTime <==> rental.actualReturnDate.value <= rental.returnDate
    ensures s == Late <==> rental.actualReturnDate.value > rental.returnDate
  {
    if rental.returnDate == rental.actualReturnDate.value
       || rental.actualReturnDate.value < rental.returnDate
    then OnTime
    else Late
  }

  /** The on-time strategy: the daily fee for every day from the rental
      date to the actual return date. */
  function OnTimeAmount(dailyFee: real, rental: Rental): (amount: real)
    requires rental.actualReturnDate.Some?
    ensures rental.actualReturnDate.value == rental.rentalDate ==> amount == 0.0
    ensures dailyFee >= 0.0 && rental.actualReturnDate.value >= rental.rentalDate ==> amount >= 0.0
  {
    var rentalDays := DaysBetween(rental.rentalDate, rental.actualReturnDate.value);
    dailyFee * rentalDays as real
  }

  /** The late strategy: the daily fee up to the scheduled return date, plus
      a fine of one and a half daily fees per overdue day. This is the
      on-time amount for the days actually used plus half a daily fee per
      overdue day. */
  function LateAmount(dailyFee: real, rental: Rental): (amount: real)
    requires rental.actualReturnDate.Some?
    ensures amount == OnTimeAmount(dailyFee, rental)
      + dailyFee * DaysBetween(rental.returnDate, rental.actualReturnDate.value) as real / 2.0
  {
    var rentalDays := DaysBetween(rental.rentalDate, rental.returnDate);
    var overdueDays := DaysBetween(rental.returnDate, rental.actualReturnDate.value);
    var fine := dailyFee * (overdueDays as real * FINE_MULTIPLIER);
    dailyFee * rentalDays as real + fine
  }

  /** `calculateTotalAmountByRentalDays` of the chosen strategy. */
  function AmountByStrategy(s: Strategy, dailyFee: real, rental: Rental): real
    requires rental.actualReturnDate.Some?
  {
    match s
    case OnTime => OnTimeAmount(dailyFee, rental)
    case Late => LateAmount(dailyFee, rental)
  }

  /** The fee the strategy pattern computes for a returned rental. */
  function StrategyFee(dailyFee: real, rental: Rental): real
    requires rental.actualReturnDate.Some?
  {
    AmountByStrategy(GetPaymentAmount(rental), dailyFee, rental)
  }

  /** The fee in closed form, as the pricing rules state it: a daily fee for
      every day used, and half a daily fee more for every day past the
      scheduled return date. */
  function ClosedFormFee(dailyFee: real, rentalDate: int, returnDate: int, actual: int): real {
    var overdue := if actual > returnDate then actual - returnDate else 0;
    dailyFee * (actual - rentalDate) as real + dailyFee * overdue as real / 2.0
  }

  /** The strategy pattern computes the closed-form fee. */
  lemma StrategyFeeIsClosedForm(dailyFee: real, rental: Rental)
    requires rental.actualReturnDate.Some?
    ensures StrategyFee(dailyFee, rental)
      == ClosedFormFee(dailyFee, rental.rentalDate, rental.returnDate, rental.actualReturnDate.value)
  {
  }

  /** The on-time amount ignores the scheduled return date: an early return
      is billed for the days actually used. */
  lemma OnTimeIgnoresSchedule(dailyFee: real, rental: Rental, scheduled: int)
    requires rental.actualReturnDate.Some?
    ensures OnTimeAmount(dailyFee, rental.(returnDate := scheduled)) == OnTimeAmount(dailyFee, rental)
  {
  }

  /** The on-time amount is linear in the daily fee. */
  lemma OnTimeLinear(a: real, b: real, k: real, rental: Rental)
    requires rental.actualReturnDate.Some?
    ensures OnTimeAmount(a + b, rental) == OnTimeAmount(a, rental) + OnTimeAmount(b, rental)
    ensures OnTimeAmount(k * a, rental) == k * OnTimeAmount(a, rental)
  {
  }

  /** A late return with a positive daily fee costs strictly more than the
      on-time price for the same dates. */
  lemma LateExceedsOnTime(dailyFee: real, rental: Rental)
    requires rental.actualReturnDate.Some?
    requires rental.actualReturnDate.value > rental.returnDate
    requires dailyFee > 0.0
    ensures LateAmount(dailyFee, rental) > OnTimeAmount(dailyFee, rental)
  {
  }

  /** Returned on the scheduled day, both strategies agree. */
  lemma StrategiesAgreeAtBoundary(dailyFee: real, rental: Rental)
    requires rental.actualReturnDate == Some(rental.returnDate)
    ensures LateAmount(dailyFee, rental) == OnTimeAmount(dailyFee, rental)
  {
  }

  /** With a non-negative daily fee and a return no earlier than the rental
      date, the fee is never negative. */
  lemma FeeNonNegative(dailyFee: real, rental: Rental)
    requires rental.actualReturnDate.Some?
    requires dailyFee >= 0.0
    requires rental.actualReturnDate.value >= rental.rentalDate
    ensures StrategyFee(dailyFee, rental) >= 0.0
  {
    StrategyFeeIsClosedForm(dailyFee, rental);
  }

  /** Scaling by a non-negative factor keeps the order. */
  lemma ScaleMonotone(a: real, x: real, y: real)
    requires a >= 0.0 && x <= y
    ensures a * x <= a * y
  {
    assert a * y - a * x == a * (y - x);
  }

  /** Adding half of a larger amount to a larger amount keeps the order. */
  lemma HalfSumMonotone(a: real, b: real, c: real, d: real)
    requires a <= b && c <= d
    ensures a + c / 2.0 <= b + d / 2.0
  {
  }

  /** Returning later never costs less. */
  lemma FeeMonotoneInReturnDay(dailyFee: real, rental: Rental, earlier: int, later: int)
    requires dailyFee >= 0.0
    requires earlier <= later
    ensures StrategyFee(dailyFee, rental.(actualReturnDate := Some(earlier)))
         <= StrategyFee(dailyFee, rental.(actualReturnDate := Some(later)))
  {
    StrategyFeeIsClosedForm(dailyFee, rental.(actualReturnDate := Some(earlier)));
    StrategyFeeIsClosedForm(dailyFee, rental.(actualReturnDate := Some(later)));
    ClosedFormMonotone(dailyFee, rental.rentalDate, rental.returnDate, earlier, later);
  }

  /** The closed-form fee grows with the actual return day. */
  lemma ClosedFormMonotone(dailyFee: real, rentalDate: int, returnDate: int, earlier: int, later: int)
    requires dailyFee >= 0.0
    requires earlier <= later
    ensures ClosedFormFee(dailyFee, rentalDate, returnDate, earlier)
         <= ClosedFormFee(dailyFee, rentalDate, returnDate, later)
  {
    var daysE: real := (earlier - rentalDate) as real;
    var daysL: real := (later - rentalDate) as real;
    var overE: real := if earlier > returnDate then (earlier - returnDate) as real else 0.0;
    var overL: real := if later > returnDate then (later - returnDate) as real else 0.0;
    ScaleMonotone(dailyFee, daysE, daysL);
    ScaleMonotone(dailyFee, overE, overL);
    HalfSumMonotone(dailyFee * daysE, dailyFee * daysL, dailyFee * overE, dailyFee * overL);
  }

  /** Rented on day 5, due on day 10 and returned on day 10 at 50 a day:
      five days, 250. Returned on day 14 instead: 250 for the five
      scheduled days and a fine of 50 x 4 x 1.5 = 300, 550 in all. */
  lemma FeeExamples()
    ensures StrategyFee(50.0, Rental(1, 5, 10, Some(10), 1, 1, false, false)) == 250.0
    ensures StrategyFee(50.0, Rental(1, 5, 10, Some(14), 1, 1, false, false)) == 550.0
  {
  }
}
