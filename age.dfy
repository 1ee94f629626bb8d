/**
 * The relative-age label of a note (`getTimeSincePostCreation` in
 * src/app/page.tsx). Timestamps are integer milliseconds, as `getTime()`
 * returns them; `Math.floor(x / k)` with a positive integer `k` is Dafny's
 * Euclidean `/` on `int`.
 */
module Age {
  import opened Wrappers
  import Decimal

  const SecondMs: int := 1000
  const MinuteMs: int := 60 * SecondMs
  const HourMs: int := 60 * MinuteMs
  const DayMs: int := 24 * HourMs
  const WeekMs: int := 7 * DayMs

  /** The one unit a label is written in, with its count. */
  datatype Age = Weeks(count: int) | Days(count: int) | Hours(count: int) | Minutes(count: int) | Seconds(count: int)

  /** The length of an age's unit in milliseconds. */
  function UnitMs(a: Age): (ms: int)
    ensures ms >= SecondMs
  {
    match a
    case Weeks(_) => WeekMs
    case Days(_) => DayMs
    case Hours(_) => HourMs
    case Minutes(_) => MinuteMs
    case Seconds(_) => SecondMs
  }

  /** The cascade of the source: chained floors, then the first positive unit. */
  function AgeOf(diff: int): Age
  {
    var seconds := diff / 1000;
    var minutes := seconds / 60;
    var hours := minutes / 60;
    var days := hours / 24;
    var weeks := days / 7;
    if weeks > 0 then Weeks(weeks)
    else if days > 0 then Days(days)
    else if hours > 0 then Hours(hours)
    else if minutes > 0 then Minutes(minutes)
    else Seconds(seconds)
  }

  /** The unit text after the count: weeks and days carry " ago", the finer units do not. */
  function Suffix(a: Age): string
  {
    match a
    case Weeks(_) => "w ago"
    case Days(_) => "d ago"
    case Hours(_) => "h"
    case Minutes(_) => "m"
    case Seconds(_) => "s"
  }

  /** The label text: the count as `${n}` prints it, then the unit. */
  function AgeText(a: Age): string
  {
    Decimal.ShowInt(a.count) + Suffix(a)
  }

  predicate EndsWith(s: string, suffix: string)
  {
    |suffix| <= |s| && s[|s| - |suffix|..] == suffix
  }

  /** Reads a label back into its unit and count. */
  function ParseAge(s: string): Option<Age>
  {
    if EndsWith(s, "w ago") then ParseCount(s[..|s| - 5], Weeks(0))
    else if EndsWith(s, "d ago") then ParseCount(s[..|s| - 5], Days(0))
    else if EndsWith(s, "h") then ParseCount(s[..|s| - 1], Hours(0))
    else if EndsWith(s, "m") then ParseCount(s[..|s| - 1], Minutes(0))
    else if EndsWith(s, "s") then ParseCount(s[..|s| - 1], Seconds(0))
    else None
  }

  function ParseCount(digits: string, unit: Age): Option<Age>
  {
    match Decimal.ParseInt(digits)
    case None => None
    case Some(n) => Some(unit.(count := n))
  }

  /**
   * `getTimeSincePostCreation(created)` evaluated at time `now`. The label
   * names exactly one unit and count, which can be read back from it.
   */
  function TimeSincePostCreation(createdAt: int, now: int): (text: string)
    ensures ParseAge(text) == Some(AgeOf(now - createdAt))
  {
    AgeTextRoundTrip(AgeOf(now - createdAt));
    AgeText(AgeOf(now - createdAt))
  }

  lemma LastOfSuffix(s: string, suffix: string)
    requires |suffix| > 0 && EndsWith(s, suffix)
    ensures s[|s| - 1] == suffix[|suffix| - 1]
  {
    assert s[|s| - |suffix|..][|suffix| - 1] == s[|s| - 1];
  }

  /** A label is never ambiguous: its text determines the unit and the count. */
  lemma AgeTextRoundTrip(a: Age)
    ensures ParseAge(AgeText(a)) == Some(a)
  {
    var digits := Decimal.ShowInt(a.count);
    Decimal.ShowIntRoundTrip(a.count);
    var suffix := Suffix(a);
    var s := AgeText(a);
    assert s[..|s| - |suffix|] == digits;
    assert EndsWith(s, suffix);
    // the count's text ends in a digit, never in a unit letter
    var last := digits[|digits| - 1];
    assert '0' <= last <= '9' by {
      if digits[0] == '-' {
        assert digits[1..] == Decimal.NatDigits(-a.count);
        assert last == digits[1..][|digits| - 2];
      }
    }
    if |suffix| == 1 {
      assert s[|s| - 1] == suffix[0];
      if EndsWith(s, "w ago") { LastOfSuffix(s, "w ago"); }
      if EndsWith(s, "d ago") { LastOfSuffix(s, "d ago"); }
      if a.Minutes? || a.Seconds? {
        if EndsWith(s, "h") { LastOfSuffix(s, "h"); }
      }
      if a.Seconds? {
        if EndsWith(s, "m") { LastOfSuffix(s, "m"); }
      }
    } else if a.Days? {
      assert s[|s| - 5] == 'd';
    }
  }

  /** `(a / b) / c == a / (b * c)` for Euclidean division by positive divisors. */
  lemma DivDiv(a: int, b: int, c: int)
    requires b > 0 && c > 0
    ensures (a / b) / c == a / (b * c)
  {
    var q1, r1 := a / b, a % b;
    var q2, r2 := q1 / c, q1 % c;
    assert a == b * q1 + r1;
    assert q1 == c * q2 + r2;
    MulDistrib(b, c * q2, r2);
    MulAssoc(b, c, q2);
    MulBelow(b, r2, c);
    DivUnique(a, b * c, q2, b * r2 + r1);
  }

  lemma MulDistrib(b: int, x: int, y: int)
    ensures b * (x + y) == b * x + b * y
  {
  }

  lemma MulAssoc(b: int, c: int, q: int)
    ensures b * (c * q) == (b * c) * q
  {
  }

  /** `0 <= b * r <= b * c - b` when `0 <= r < c`. */
  lemma MulBelow(b: int, r: int, c: int)
    requires b > 0 && 0 <= r < c
    ensures 0 <= b * r && b * r + b <= b * c
  {
    MulDistrib(b, r, 1);
    MulMono(b, r + 1, c);
    MulMono(b, 0, r);
  }

  lemma MulMono(b: int, x: int, y: int)
    requires b > 0 && x <= y
    ensures b * x <= b * y
  {
    MulDistrib(b, x, y - x);
  }

  lemma DivUnique(a: int, d: int, q: int, r: int)
    requires d > 0 && a == d * q + r && 0 <= r < d
    ensures a / d == q
  {
    var q', r' := a / d, a % d;
    assert a == d * q' + r';
    if q' < q {
      MulMono(d, q' + 1, q);
      MulDistrib(d, q', 1);
    } else if q < q' {
      MulMono(d, q + 1, q');
      MulDistrib(d, q, 1);
    }
  }

  /** The chained floors of the source equal direct division by each unit. */
  lemma ChainedFloors(diff: int)
    ensures (diff / 1000) / 60 == diff / MinuteMs
    ensures ((diff / 1000) / 60) / 60 == diff / HourMs
    ensures (((diff / 1000) / 60) / 60) / 24 == diff / DayMs
    ensures ((((diff / 1000) / 60) / 60) / 24) / 7 == diff / WeekMs
  {
    DivDiv(diff, 1000, 60);
    DivDiv(diff, MinuteMs, 60);
    DivDiv(diff, HourMs, 24);
    DivDiv(diff, DayMs, 7);
  }

  /**
   * The unit is the coarsest whose count is positive: each unit is chosen
   * exactly on its millisecond range, and the count is the difference
   * divided by the unit's length.
   */
  lemma AgeCascade(diff: int)
    ensures AgeOf(diff).count == diff / UnitMs(AgeOf(diff))
    ensures AgeOf(diff).Weeks? <==> WeekMs <= diff
    ensures AgeOf(diff).Days? <==> DayMs <= diff < WeekMs
    ensures AgeOf(diff).Hours? <==> HourMs <= diff < DayMs
    ensures AgeOf(diff).Minutes? <==> MinuteMs <= diff < HourMs
    ensures AgeOf(diff).Seconds? <==> diff < MinuteMs
    ensures !AgeOf(diff).Seconds? ==> AgeOf(diff).count > 0
  {
    ChainedFloors(diff);
  }

  /** A creation time at or after `now` falls through to seconds, with a count of at most zero. */
  lemma FutureIsSeconds(createdAt: int, now: int)
    requires now <= createdAt
    ensures AgeOf(now - createdAt).Seconds?
    ensures AgeOf(now - createdAt).count <= 0
  {
    AgeCascade(now - createdAt);
  }

  /** The worked examples: 59 s, 90 s, 25 h and 8 days after creation. */
  lemma LabelExamples(t: int)
    ensures TimeSincePostCreation(t, t + 59 * SecondMs) == "59s"
    ensures TimeSincePostCreation(t, t + 90 * SecondMs) == "1m"
    ensures TimeSincePostCreation(t, t + 25 * HourMs) == "1d ago"
    ensures TimeSincePostCreation(t, t + 8 * DayMs) == "1w ago"
  {
    assert Decimal.ShowInt(1) == "1";
    assert Decimal.ShowInt(59) == "59" by {
      assert Decimal.NatDigits(5) == "5";
      assert Decimal.NatDigits(59) == "5" + "9";
    }
    assert AgeOf(59 * SecondMs) == Seconds(59);
    assert AgeOf(90 * SecondMs) == Minutes(1);
    assert AgeOf(25 * HourMs) == Days(1);
    assert AgeOf(8 * DayMs) == Weeks(1);
    assert (t + 59 * SecondMs) - t == 59 * SecondMs;
    assert (t + 90 * SecondMs) - t == 90 * SecondMs;
    assert (t + 25 * HourMs) - t == 25 * HourMs;
    assert (t + 8 * DayMs) - t == 8 * DayMs;
  }
}
