/** The two texts of the face: the French three-letter day of the week and
    the two-digit day of the month, each written into a small static buffer
    by a C library formatting call. */
module Format {
  import opened Optional

  /** Day names, indexed by `tm_wday` (0 is Sunday). */
  const DayNames: seq<string> := ["dim", "lun", "mar", "mer", "jeu", "ven", "sam"]

  /** Size of the weekday buffer, terminator included. */
  const WeekdayBufferSize: int := 4

  /** Size of the date buffer, terminator included. */
  const DateBufferSize: int := 3

  /** The C string `snprintf(buf, size, "%s", s)` leaves in `buf`: `s` cut so
      that it and its terminator fit `size` bytes. */
  function SnprintfString(size: int, s: string): (r: string)
    requires size > 0
    ensures |r| < size
    ensures r <= s
    ensures |s| < size ==> r == s
    ensures |s| >= size ==> |r| == size - 1
  {
    if |s| < size then s else s[..size - 1]
  }

  /** What `strftime(buf, size, fmt, t)` leaves in `buf` when the formatted
      text is `s`: the text when it fits with its terminator; otherwise
      strftime returns 0 and the buffer contents are indeterminate. */
  function StrftimeFit(size: int, s: string): (r: Option<string>)
    ensures r.Some? <==> |s| < size
    ensures r.Some? ==> r.value == s
  {
    if |s| < size then Some(s) else None
  }

  predicate IsDigit(c: char) {
    '0' <= c <= '9'
  }

  /** The decimal value of a string of digits. */
  function DecimalValue(s: string): (r: nat)
    requires forall i | 0 <= i < |s| :: IsDigit(s[i])
  {
    if s == [] then 0
    else
      assert IsDigit(s[|s| - 1]);
      DecimalValue(s[..|s| - 1]) * 10 + (s[|s| - 1] as int - '0' as int)
  }

  function Digit(d: int): (c: char)
    requires 0 <= d < 10
    ensures IsDigit(c) && c as int - '0' as int == d
  {
    ('0' as int + d) as char
  }

  /** The `%d` conversion of strftime: the day of the month as two decimal
      digits, zero-padded. */
  function PaddedDay(mday: int): (r: string)
    requires 0 <= mday < 100
    ensures |r| == 2
  {
    [Digit(mday / 10), Digit(mday % 10)]
  }

  /** The weekday text `update_weekday` shows for `tm_wday`. */
  function WeekdayText(wday: int): (r: string)
    requires 0 <= wday < 7
    ensures r == DayNames[wday]
    ensures |r| == 3 && |r| < WeekdayBufferSize
  {
    SnprintfString(WeekdayBufferSize, DayNames[wday])
  }

  /** The date text `update_date` shows for `tm_mday`. */
  function DateText(mday: int): (r: string)
    requires 1 <= mday <= 31
    ensures |r| == 2 && |r| < DateBufferSize
    ensures forall i | 0 <= i < |r| :: IsDigit(r[i])
    ensures DecimalValue(r) == mday
  {
    var formatted := StrftimeFit(DateBufferSize, PaddedDay(mday));
    assert DecimalValue(PaddedDay(mday)) == mday by {
      PaddedDayValue(mday);
    }
    formatted.value
  }

  // ---------------------------------------------------------------------------
  // Properties of the texts.

  /** Reading the two digits back gives the day: the padding is a leading
      zero and nothing is lost. */
  lemma PaddedDayValue(mday: int)
    requires 0 <= mday < 100
    ensures forall i | 0 <= i < 2 :: IsDigit(PaddedDay(mday)[i])
    ensures DecimalValue(PaddedDay(mday)) == mday
  {
    var s := PaddedDay(mday);
    assert s[..1] == [Digit(mday / 10)];
    assert s[..1][..0] == [];
    assert DecimalValue(s[..1]) == mday / 10;
    assert DecimalValue(s) == mday / 10 * 10 + mday % 10;
  }

  /** Days below ten get a leading zero: day 5 is shown as "05". */
  lemma DateTextPadded(mday: int)
    requires 1 <= mday <= 9
    ensures DateText(mday) == ['0', Digit(mday)]
  {
  }

  /** Distinct days of the month are shown as distinct texts. */
  lemma DateTextInjective(d1: int, d2: int)
    requires 1 <= d1 <= 31 && 1 <= d2 <= 31
    ensures DateText(d1) == DateText(d2) <==> d1 == d2
  {
  }

  /** Sunday is "dim", Saturday "sam", and the seven names are distinct. */
  lemma WeekdayNames()
    ensures WeekdayText(0) == "dim" && WeekdayText(6) == "sam"
    ensures forall i, j | 0 <= i < j < 7 :: WeekdayText(i) != WeekdayText(j)
  {
  }
}
