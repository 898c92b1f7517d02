/**
 * `TripDAOImpl.isTripOnTime`: a trip is on time when it ends no later than
 * its start plus the route's expected duration. Times are milliseconds since
 * the epoch (`Timestamp.getTime()`, a `long`); the expected duration is an
 * `int` number of minutes.
 */
module TripDao {
  import opened JavaLang
  import opened TransferObjects

  const MILLIS_PER_MINUTE: int := 60 * 1000

  /** The largest duration, in minutes, whose milliseconds fit in an `int`. */
  const MAX_EXACT_MINUTES: int := 35791

  /**
   * As written: `expectedDuration * 60 * 1000` is evaluated in 32-bit `int`
   * arithmetic, and only then widened and added to the `long` start time.
   */
  function IsTripOnTime(trip: Trip, route: Route): bool
    requires IsLong(trip.startTime) && IsLong(trip.endTime) && IsInt(route.expectedDuration)
  {
    var expectedMillis := ToInt(ToInt(route.expectedDuration * 60) * 1000);
    var expectedEnd := ToLong(trip.startTime + expectedMillis);
    trip.endTime <= expectedEnd
  }

  /** Corrected: the duration is widened to `long` before it is multiplied. */
  function IsTripOnTimeLong(trip: Trip, route: Route): bool
    requires IsLong(trip.startTime) && IsLong(trip.endTime) && IsInt(route.expectedDuration)
  {
    trip.endTime <= ToLong(trip.startTime + route.expectedDuration * MILLIS_PER_MINUTE)
  }

  /** The product fits in an `int` exactly for durations of at most 35791 minutes either way. */
  lemma MinutesToMillisExact(d: int)
    requires -MAX_EXACT_MINUTES <= d <= MAX_EXACT_MINUTES
    ensures ToInt(ToInt(d * 60) * 1000) == d * MILLIS_PER_MINUTE
  {
  }

  /**
   * Within the exact range the rule is: on time iff the trip took at most the
   * expected duration; the boundary counts as on time.
   */
  lemma OnTimeIffWithinExpected(trip: Trip, route: Route)
    requires IsLong(trip.startTime) && IsLong(trip.endTime)
    requires -MAX_EXACT_MINUTES <= route.expectedDuration <= MAX_EXACT_MINUTES
    requires IsLong(trip.startTime + route.expectedDuration * MILLIS_PER_MINUTE)
    ensures IsTripOnTime(trip, route)
            <==> trip.endTime - trip.startTime <= route.expectedDuration * MILLIS_PER_MINUTE
  {
    MinutesToMillisExact(route.expectedDuration);
  }

  /** The corrected rule means the same for every `int` duration, with no bound. */
  lemma OnTimeLongIffWithinExpected(trip: Trip, route: Route)
    requires IsLong(trip.startTime) && IsLong(trip.endTime) && IsInt(route.expectedDuration)
    requires IsLong(trip.startTime + route.expectedDuration * MILLIS_PER_MINUTE)
    ensures IsTripOnTimeLong(trip, route)
            <==> trip.endTime - trip.startTime <= route.expectedDuration * MILLIS_PER_MINUTE
  {
  }

  /** The two agree wherever the `int` product does not overflow. */
  lemma AsWrittenAgreesWithinRange(trip: Trip, route: Route)
    requires IsLong(trip.startTime) && IsLong(trip.endTime)
    requires -MAX_EXACT_MINUTES <= route.expectedDuration <= MAX_EXACT_MINUTES
    ensures IsTripOnTime(trip, route) == IsTripOnTimeLong(trip, route)
  {
    MinutesToMillisExact(route.expectedDuration);
  }

  /**
   * The overflow: a route expected to take 35792 minutes makes a trip that
   * took no time at all late, while the corrected rule has it on time.
   */
  lemma OverflowMakesInstantTripLate(trip: Trip, route: Route)
    requires trip.startTime == 0 && trip.endTime == 0 && route.expectedDuration == 35792
    ensures trip.endTime - trip.startTime <= route.expectedDuration * MILLIS_PER_MINUTE
    ensures !IsTripOnTime(trip, route)
    ensures IsTripOnTimeLong(trip, route)
  {
  }

  /** Ending earlier never makes an on-time trip late. */
  lemma OnTimeMonotone(trip: Trip, route: Route, earlierEnd: int)
    requires IsLong(trip.startTime) && IsLong(trip.endTime) && IsInt(route.expectedDuration)
    requires IsLong(earlierEnd) && earlierEnd <= trip.endTime
    ensures IsTripOnTime(trip, route) ==> IsTripOnTime(trip.(endTime := earlierEnd), route)
  {
  }

  /**
   * The unit test: a 30-minute route started at 08:00 is on time when it ends
   * at 08:30 and late when it ends at 08:45. There is no tolerance here.
   */
  lemma OnTimeTestCase(trip: Trip, route: Route)
    requires trip.startTime == 1754640000000 && route.expectedDuration == 30
    ensures IsTripOnTime(trip.(endTime := trip.startTime + 30 * MILLIS_PER_MINUTE), route)
    ensures !IsTripOnTime(trip.(endTime := trip.startTime + 45 * MILLIS_PER_MINUTE), route)
  {
  }
}
