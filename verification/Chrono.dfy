/** Clock readings. A reading is a number of nanoseconds since the clock's epoch. */
module Chrono {

  type Time = int

  const NANOS_PER_SECOND: int := 1_000_000_000

  // duration_cast to seconds: truncation toward zero, also for a clock that went back.
  function SecondsBetween(reference: Time, now: Time): int {
    var elapsed := now - reference;
    if elapsed >= 0 then elapsed / NANOS_PER_SECOND else -((-elapsed) / NANOS_PER_SECOND)
  }

  /** A threshold test on truncated seconds is exact in nanoseconds for a positive
      threshold. A zero threshold also passes up to one second before the reference. */
  lemma ThresholdInNanoseconds(reference: Time, now: Time, seconds: int)
    requires seconds >= 0
    ensures seconds > 0 ==>
              (SecondsBetween(reference, now) >= seconds <==> now - reference >= seconds * NANOS_PER_SECOND)
    ensures seconds == 0 ==>
              (SecondsBetween(reference, now) >= seconds <==> now - reference > -NANOS_PER_SECOND)
  {
    if now < reference {
      assert (reference - now) / NANOS_PER_SECOND >= 0;
    }
  }

  // The readings one tick may take, in the order in which the code takes them.
  datatype Readings = Readings(
    canPlayAt: Time,   // everyoneCanPlayAt
    elapsedAt: Time,   // age of everyoneCanPlayAt
    readyAt: Time,     // readyForInputAt
    pressAt: Time,     // age of the only press
    timeoutAt: Time)   // age of readyForInputAt
  {
    // Successive readings never decrease, starting from an earlier reading.
    predicate Since(last: Time) {
      last <= canPlayAt <= elapsedAt <= readyAt <= pressAt <= timeoutAt
    }
  }
}
