/** The value types shared by the parsers and validators (internal/models/config.go). */
module Captions {

  /** Go's time.Duration: a signed number of nanoseconds, here unbounded. */
  type Duration = int

  const Millisecond: Duration := 1_000_000
  const Second: Duration := 1000 * Millisecond

  /** One timed caption. Nothing forces startTime <= endTime. */
  datatype CaptionEntry = CaptionEntry(startTime: Duration, endTime: Duration, text: string)
}
