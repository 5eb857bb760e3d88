/** The Car entity: one fleet entry with its available-unit count and daily
    rate, soft-deleted rather than removed.
 */
module Cars {

  /** The body style of a car. */
  datatype CarFrame = SEDAN | SUV | HATCHBACK | UNIVERSAL

  const INT_MIN: int := -0x8000_0000
  const INT_MAX: int := 0x7fff_ffff

  /** The values of a Java `int`. */
  type JavaInt = x: int | INT_MIN <= x <= INT_MAX

  /** Java `int` arithmetic: the exact result reduced into 32 bits,
      wrapping around at both ends. */
  function ToJavaInt(x: int): (r: JavaInt)
    ensures (r - x) % 0x1_0000_0000 == 0
    ensures INT_MIN <= x <= INT_MAX ==> r == x
  {
    (x - INT_MIN) % 0x1_0000_0000 + INT_MIN
  }

  /** `inventory - 1` on a Java `int`. */
  function Decrement(x: JavaInt): (r: JavaInt)
    ensures x > INT_MIN ==> r == x - 1
    ensures x == INT_MIN ==> r == INT_MAX
  {
    ToJavaInt(x - 1)
  }

  /** `inventory + 1` on a Java `int`. */
  function Increment(x: JavaInt): (r: JavaInt)
    ensures x < INT_MAX ==> r == x + 1
    ensures x == INT_MAX ==> r == INT_MIN
  {
    ToJavaInt(x + 1)
  }

  /** Returning a unit undoes reserving it, for every `int`, wrap-around
      included. */
  lemma IncrementUndoesDecrement(x: JavaInt)
    ensures Increment(Decrement(x)) == x
  {
  }

  /** A car row. `inventory` is a plain `int` with no lower bound and
      `dailyFee` an exact decimal. */
  datatype Car = Car(
    id: int,
    model: string,
    brand: string,
    carFrame: CarFrame,
    inventory: JavaInt,
    dailyFee: real,
    isDeleted: bool)

  /** A row the soft-delete restriction lets queries see. */
  predicate Live(c: Car) {
    !c.isDeleted
  }
}
