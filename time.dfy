/**
 * Instants as the operator handles them: `putio.Time` and `metav1.Time` both
 * wrap a Go `time.Time`, and the controller only asks whether one is zero.
 */
module Time {
  /** Nanoseconds from Go's zero time, midnight UTC on January 1 of year 1. */
  type Instant = int

  /** `time.Time.IsZero`: the instant is Go's zero time itself. */
  predicate IsZero(t: Instant) {
    t == 0
  }
}
