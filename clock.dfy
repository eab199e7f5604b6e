/**
 * Wall-clock readings, which the system takes from `datetime.now()`, are
 * inputs here. This module formats them the two ways the system does:
 * `isoformat()` for start and end times, and `strftime('%Y%m%d_%H%M%S')`
 * for scan identifiers.
 */
module Clock {
  import opened Text

  datatype DateTime = DateTime(year: nat, month: nat, day: nat,
                               hour: nat, minute: nat, second: nat, microsecond: nat)
  {
    /** A reading `datetime.now()` can return (four-digit years). */
    predicate Valid() {
      1000 <= year <= 9999 && 1 <= month <= 12 && 1 <= day <= 31
      && hour < 24 && minute < 60 && second < 60 && microsecond < 1000000
    }
  }

  function Pow10(w: nat): (p: nat)
    ensures p >= 1
  {
    if w == 0 then 1 else 10 * Pow10(w - 1)
  }

  /** `%0wd`: `n` in decimal, left-padded with zeros to exactly `w` digits. */
  function Pad(n: nat, w: nat): (s: string)
    requires n < Pow10(w)
    ensures |s| == w && AllDigits(s)
  {
    if w == 0 then [] else Pad(n / 10, w - 1) + [DigitChar(n % 10)]
  }

  lemma {:induction false} PadValue(n: nat, w: nat)
    requires n < Pow10(w)
    ensures DigitsValue(Pad(n, w)) == n
  {
    if w > 0 {
      PadValue(n / 10, w - 1);
      var s := Pad(n, w);
      assert s[..|s| - 1] == Pad(n / 10, w - 1);
    }
  }

  /** `t.isoformat()`: the fraction is written only when the microseconds are not zero. */
  function IsoFormat(t: DateTime): (s: string)
    requires t.Valid()
    ensures |s| == if t.microsecond == 0 then 19 else 26
  {
    Pad(t.year, 4) + "-" + Pad(t.month, 2) + "-" + Pad(t.day, 2) + "T"
    + Pad(t.hour, 2) + ":" + Pad(t.minute, 2) + ":" + Pad(t.second, 2)
    + (if t.microsecond == 0 then "" else "." + Pad(t.microsecond, 6))
  }

  /** `t.strftime('%Y%m%d_%H%M%S')`, the identifier a new scan is given. */
  function ScanIdOf(t: DateTime): (s: string)
    requires t.Valid()
    ensures |s| == 15
  {
    Pad(t.year, 4) + Pad(t.month, 2) + Pad(t.day, 2) + "_"
    + Pad(t.hour, 2) + Pad(t.minute, 2) + Pad(t.second, 2)
  }

  /** Two readings within the same second of the same day. */
  predicate SameSecond(t1: DateTime, t2: DateTime) {
    t1.year == t2.year && t1.month == t2.month && t1.day == t2.day
    && t1.hour == t2.hour && t1.minute == t2.minute && t1.second == t2.second
  }

  /**
   * Scan identifiers have one-second resolution: two readings give the same
   * identifier exactly when they fall within the same second.
   */
  lemma ScanIdSameIffSameSecond(t1: DateTime, t2: DateTime)
    requires t1.Valid() && t2.Valid()
    ensures ScanIdOf(t1) == ScanIdOf(t2) <==> SameSecond(t1, t2)
  {
    if ScanIdOf(t1) == ScanIdOf(t2) {
      var y1, mo1, d1, h1, mi1, s1 := Pad(t1.year, 4), Pad(t1.month, 2), Pad(t1.day, 2), Pad(t1.hour, 2), Pad(t1.minute, 2), Pad(t1.second, 2);
      var y2, mo2, d2, h2, mi2, s2 := Pad(t2.year, 4), Pad(t2.month, 2), Pad(t2.day, 2), Pad(t2.hour, 2), Pad(t2.minute, 2), Pad(t2.second, 2);
      ConcatCancelRight(y1 + mo1 + d1 + "_" + h1 + mi1, s1, y2 + mo2 + d2 + "_" + h2 + mi2, s2);
      ConcatCancelRight(y1 + mo1 + d1 + "_" + h1, mi1, y2 + mo2 + d2 + "_" + h2, mi2);
      ConcatCancelRight(y1 + mo1 + d1 + "_", h1, y2 + mo2 + d2 + "_", h2);
      ConcatCancelRight(y1 + mo1 + d1, "_", y2 + mo2 + d2, "_");
      ConcatCancelRight(y1 + mo1, d1, y2 + mo2, d2);
      ConcatCancelRight(y1, mo1, y2, mo2);
      PadInjective(t1.year, t2.year, 4);
      PadInjective(t1.month, t2.month, 2);
      PadInjective(t1.day, t2.day, 2);
      PadInjective(t1.hour, t2.hour, 2);
      PadInjective(t1.minute, t2.minute, 2);
      PadInjective(t1.second, t2.second, 2);
    }
  }

  /** Different numbers have different padded forms. */
  lemma PadInjective(n1: nat, n2: nat, w: nat)
    requires n1 < Pow10(w) && n2 < Pow10(w)
    requires Pad(n1, w) == Pad(n2, w)
    ensures n1 == n2
  {
    PadValue(n1, w);
    PadValue(n2, w);
  }
}
