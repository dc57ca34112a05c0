/** Points in time, shared by every service. */
module Time {
  /** A LocalDate, as a day number. */
  type Day = int

  /** An Instant, as a number of ticks. */
  type Instant = int
}
