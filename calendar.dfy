/** Broken-down local time, as the watch face reads it from the platform clock
    (the `struct tm` fields it uses). */
module Calendar {

  /** The `struct tm` fields the face reads: seconds, minutes, hours (24-hour),
      day of the month and day of the week (0 is Sunday). */
  datatype Tm = Tm(sec: int, min: int, hour: int, mday: int, wday: int)
  {
    /** The ranges the platform's `localtime` produces. */
    predicate Valid() {
      0 <= sec < 60 && 0 <= min < 60 && 0 <= hour < 24 &&
      1 <= mday <= 31 && 0 <= wday < 7
    }

  }
}
