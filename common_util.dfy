/** Time fields of a request (`CommonUtil`): the timestamp from the one
    shared generator, the day of week and the zone offset in minutes.  The
    calendar and clock readings are inputs. */
module CommonUtil {
  import opened TimeUniques

  /** `java.util.Calendar` day-of-week constants. */
  const SUNDAY: int := 1
  const MONDAY: int := 2
  const TUESDAY: int := 3
  const WEDNESDAY: int := 4
  const THURSDAY: int := 5
  const FRIDAY: int := 6
  const SATURDAY: int := 7

  const MILLIS_PER_MINUTE: int := 60000

  /** Java's `/` on int: the quotient truncated toward zero. */
  function JavaDiv(a: int, b: int): (q: int)
    requires b > 0
    ensures a >= 0 ==> q * b <= a < q * b + b
    ensures a < 0 ==> q * b - b < a <= q * b
  {
    if a >= 0 then a / b else -((-a) / b)
  }

  /** `currentDayOfWeek`: Sunday is 0, Monday 1, .., Saturday 6. */
  function CurrentDayOfWeek(calendarDay: int): (dow: int)
    ensures 0 <= dow <= 6
    ensures SUNDAY <= calendarDay <= SATURDAY ==> dow == calendarDay - SUNDAY
    ensures !(MONDAY <= calendarDay <= SATURDAY) ==> dow == 0
  {
    if calendarDay == MONDAY then 1
    else if calendarDay == TUESDAY then 2
    else if calendarDay == WEDNESDAY then 3
    else if calendarDay == THURSDAY then 4
    else if calendarDay == FRIDAY then 5
    else if calendarDay == SATURDAY then 6
    else 0
  }

  /** `getTimezoneOffset`: the zone offset in whole minutes, truncated toward
      zero as Java's integer division does. */
  function GetTimezoneOffset(offsetMs: int): (minutes: int)
    ensures offsetMs >= 0 ==> 0 <= minutes && minutes * MILLIS_PER_MINUTE <= offsetMs < (minutes + 1) * MILLIS_PER_MINUTE
    ensures offsetMs < 0 ==> minutes <= 0 && (minutes - 1) * MILLIS_PER_MINUTE < offsetMs <= minutes * MILLIS_PER_MINUTE
    ensures offsetMs % MILLIS_PER_MINUTE == 0 ==> minutes * MILLIS_PER_MINUTE == offsetMs
  {
    JavaDiv(offsetMs, MILLIS_PER_MINUTE)
  }

  /** `currentTimestampMs`: one call on the shared generator. */
  method CurrentTimestampMs(timeGenerator: TimeUniquesEnsurer, reading: int) returns (ms: int)
    requires timeGenerator.Valid()
    modifies timeGenerator
    ensures timeGenerator.Valid()
    ensures Issued(ms, timeGenerator.lastTsMs) == Step(old(timeGenerator.lastTsMs), reading)
  {
    ms := timeGenerator.UniqueTimestamp(reading);
  }
}
