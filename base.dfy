/** Small value types shared by the account model: an optional value (a Java
    reference that may be null), the outcome of a guarded operation (in place of
    the two exceptions the account throws) and a calendar date. */
module Base {

  datatype Option<+T> = None | Some(value: T)

  /** Ok, or the Java exception the operation would have thrown. */
  datatype Outcome = Ok | IllegalArgument | IllegalState

  /** A calendar date as its year and its day within the year (1 = 1 January).
      Ordering (year, dayOfYear) lexicographically is the order of the dates
      themselves, and the day of the year is what the account's age is
      computed from. */
  datatype Date = Date(year: int, dayOfYear: int)

  /** `a` is strictly later than `b` (Java's LocalDate.isAfter). */
  predicate IsAfter(a: Date, b: Date)
  {
    a.year > b.year || (a.year == b.year && a.dayOfYear > b.dayOfYear)
  }

  function Max(x: real, y: real): real
  {
    if x >= y then x else y
  }
}
