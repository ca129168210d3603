/**
 * The UTC timestamp that both log streams print, `YYYY-MM-DDTHH:mm:ss`
 * (src/index.js:94 and :130 format the same way).
 */
module Clock {
  import opened Wrappers
  import opened Text

  /** A UTC calendar time, as read from the system clock. */
  datatype DateTime = DateTime(year: nat, month: nat, day: nat, hour: nat, minute: nat, second: nat)

  /** The ranges a clock reading lies in (four-digit years). */
  predicate InRange(t: DateTime) {
    t.year <= 9999 && 1 <= t.month <= 12 && 1 <= t.day <= 31 &&
    t.hour <= 23 && t.minute <= 59 && t.second <= 59
  }

  /** `moment(now).utc().format("YYYY-MM-DDTHH:mm:ss")`: every field zero-padded. */
  function FormatUtc(t: DateTime): string {
    ZeroPad(t.year, 4) + "-" + ZeroPad(t.month, 2) + "-" + ZeroPad(t.day, 2) + "T" +
    ZeroPad(t.hour, 2) + ":" + ZeroPad(t.minute, 2) + ":" + ZeroPad(t.second, 2)
  }

  /** Positions 4, 7, 10, 13 and 16 hold the separators; all others hold digits. */
  predicate IsSeparatorPosition(i: int) {
    i == 4 || i == 7 || i == 10 || i == 13 || i == 16
  }

  /** The shape of a formatted timestamp: 19 characters, `-` `-` `T` `:` `:` in place, digits elsewhere. */
  predicate WellFormed(s: string) {
    |s| == 19 && s[4] == '-' && s[7] == '-' && s[10] == 'T' && s[13] == ':' && s[16] == ':' &&
    forall i :: 0 <= i < 19 && !IsSeparatorPosition(i) ==> IsDigit(s[i])
  }

  /** Reads a timestamp back into its six fields; None for any string of another shape. */
  function ParseUtc(s: string): (r: Option<DateTime>)
    ensures r.Some? <==> WellFormed(s)
  {
    if WellFormed(s) then
      assert forall k :: 0 <= k < 4 ==> s[..4][k] == s[k];
      Some(DateTime(ParseNat(s[..4]), ParseNat(s[5..7]), ParseNat(s[8..10]),
                    ParseNat(s[11..13]), ParseNat(s[14..16]), ParseNat(s[17..19])))
    else None
  }

  lemma PadTwo(n: nat)
    requires n <= 99
    ensures |ZeroPad(n, 2)| == 2
  {
    assert Pow10(2) == 100 by { assert Pow10(1) == 10; }
    NatToStringLength(n, 2);
  }

  lemma PadFour(n: nat)
    requires n <= 9999
    ensures |ZeroPad(n, 4)| == 4
  {
    assert Pow10(4) == 10000 by { assert Pow10(1) == 10 && Pow10(2) == 100 && Pow10(3) == 1000; }
    NatToStringLength(n, 4);
  }

  /** A clock reading in range formats to the fixed 19-character shape. */
  lemma FormatShape(t: DateTime)
    requires InRange(t)
    ensures WellFormed(FormatUtc(t))
  {
    PadFour(t.year);
    PadTwo(t.month); PadTwo(t.day); PadTwo(t.hour); PadTwo(t.minute); PadTwo(t.second);
  }

  /** Formatting loses nothing: the six fields can be read back from the text. */
  lemma ParseFormat(t: DateTime)
    requires InRange(t)
    ensures ParseUtc(FormatUtc(t)) == Some(t)
  {
    FormatShape(t);
    var s := FormatUtc(t);
    assert s[..4] == ZeroPad(t.year, 4);
    assert s[5..7] == ZeroPad(t.month, 2);
    assert s[8..10] == ZeroPad(t.day, 2);
    assert s[11..13] == ZeroPad(t.hour, 2);
    assert s[14..16] == ZeroPad(t.minute, 2);
    assert s[17..19] == ZeroPad(t.second, 2);
    ParseZeroPad(t.year, 4);
    ParseZeroPad(t.month, 2); ParseZeroPad(t.day, 2);
    ParseZeroPad(t.hour, 2); ParseZeroPad(t.minute, 2); ParseZeroPad(t.second, 2);
  }
}
