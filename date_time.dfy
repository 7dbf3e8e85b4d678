/** LocalDateTime values, as read from the clock, and the two patterns the
    reports print them with. */
module DateTimes {
  import opened JavaNumbers

  datatype DateTime = DateTime(
    year: nat, month: nat, day: nat,
    hour: nat, minute: nat, second: nat, millis: nat)

  /** The ranges a LocalDateTime keeps its fields in (years up to 9999). */
  predicate Valid(t: DateTime) {
    && t.year <= 9999 && 1 <= t.month <= 12 && 1 <= t.day <= 31
    && t.hour < 24 && t.minute < 60 && t.second < 60 && t.millis < 1000
  }

  /** The pattern "yyyy-MM-dd HH:mm:ss". */
  function FormatSeconds(t: DateTime): string {
    ZeroPad(t.year, 4) + "-" + ZeroPad(t.month, 2) + "-" + ZeroPad(t.day, 2) + " "
    + ZeroPad(t.hour, 2) + ":" + ZeroPad(t.minute, 2) + ":" + ZeroPad(t.second, 2)
  }

  /** The pattern "yyyy-MM-dd HH:mm:ss.SSS". */
  function FormatMillis(t: DateTime): string {
    FormatSeconds(t) + "." + ZeroPad(t.millis, 3)
  }

  /** A field below 10^width is printed in exactly `width` digits. */
  lemma ZeroPadWidth(n: nat, width: nat)
    requires 1 <= width && n < Pow10(width)
    ensures |ZeroPad(n, width)| == width
  {
    NatTextLength(n, width);
  }

  /** A valid date-time prints in fixed columns: 19 characters without the
      milliseconds, 23 with them. */
  lemma FormatWidths(t: DateTime)
    requires Valid(t)
    ensures |FormatSeconds(t)| == 19
    ensures |FormatMillis(t)| == 23
  {
    ZeroPadWidth(t.year, 4);
    ZeroPadWidth(t.month, 2);
    ZeroPadWidth(t.day, 2);
    ZeroPadWidth(t.hour, 2);
    ZeroPadWidth(t.minute, 2);
    ZeroPadWidth(t.second, 2);
    ZeroPadWidth(t.millis, 3);
  }
}
