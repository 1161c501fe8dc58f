/** Calendar days as proleptic Gregorian day ordinals, the way Python's
    `date.toordinal` / `date.fromordinal` number them: ordinal 1 is
    0001-01-01 (a Monday) and the last representable day, 9999-12-31,
    is ordinal 3652059 (a Friday). */
module Ordinals {

  const MinOrdinal: int := 1
  const MaxOrdinal: int := 3652059

  /** `ordinal % 7` names the weekday: 1 is Monday ... 6 is Saturday, 0 is Sunday. */
  const Sunday: int := 0
  const Monday: int := 1
  const Saturday: int := 6

  /** True of the ordinals that `date.fromordinal` accepts. */
  predicate IsOrdinal(n: int) {
    MinOrdinal <= n <= MaxOrdinal
  }

  /** The outcome of `date.fromordinal`: a day, or the ValueError it raises
      for an ordinal outside the representable range. */
  datatype DateResult = Ok(ordinal: int) | OutOfRange

  function FromOrdinal(n: int): DateResult {
    if IsOrdinal(n) then Ok(n) else OutOfRange
  }
}
