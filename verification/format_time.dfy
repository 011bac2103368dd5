/** Relative ages of items ("5 minutes ago"). The clock is a parameter:
    `now` is the current time in milliseconds since the epoch, and an item's
    `time` is in seconds. Timestamps are integers and the model divides
    exactly. The code divides in double-precision floating point, whose
    rounding can lower a count by one for some items dated in the future;
    that rounding is not modelled. */
module FormatTime {
  import opened Text

  const MsPerMinute: int := 60000
  const MsPerHour: int := 3600000
  const MsPerDay: int := 86400000

  /** Which of the four phrasings applies, with the count it shows. */
  datatype Age = Minutes(count: int) | OneHour | Hours(count: int) | Days(count: int)

  /** The age of a `timestamp` (seconds) at `now` (milliseconds), with each
      count the whole number of units elapsed, rounded down. */
  function AgeAt(timestamp: int, now: int): (a: Age)
    ensures a.Minutes? <==> now - timestamp * 1000 < MsPerHour
    ensures a.OneHour? <==> MsPerHour <= now - timestamp * 1000 < 2 * MsPerHour
    ensures a.Hours? <==> 2 * MsPerHour <= now - timestamp * 1000 < 24 * MsPerHour
    ensures a.Days? <==> 24 * MsPerHour <= now - timestamp * 1000
    ensures a.Minutes? ==>
      a.count * MsPerMinute <= now - timestamp * 1000 < (a.count + 1) * MsPerMinute && a.count < 60
    ensures a.Hours? ==>
      a.count * MsPerHour <= now - timestamp * 1000 < (a.count + 1) * MsPerHour && 2 <= a.count < 24
    ensures a.Days? ==>
      a.count * MsPerDay <= now - timestamp * 1000 < (a.count + 1) * MsPerDay && 1 <= a.count
  {
    var diff := now - timestamp * 1000;
    if diff < MsPerHour then Minutes(diff / MsPerMinute)
    else if diff < 2 * MsPerHour then OneHour
    else if diff < 24 * MsPerHour then Hours(diff / MsPerHour)
    else Days(diff / MsPerDay)
  }

  /** The phrase: the count followed by the unit word and " ago". The
      singular bucket always reads "1 hour ago". */
  function Render(a: Age): string {
    IntToString(Count(a)) + Suffix(a)
  }

  /** The word after the count, with its leading space and the trailing
      " ago". */
  function Suffix(a: Age): string {
    match a
    case Minutes(_) => " minutes ago"
    case OneHour => " hour ago"
    case Hours(_) => " hours ago"
    case Days(_) => " days ago"
  }

  function Count(a: Age): int {
    if a.OneHour? then 1 else a.count
  }

  /** `formatTime`. */
  function FormatAge(timestamp: int, now: int): (s: string)
    ensures |s| > 0 && (now >= timestamp * 1000 ==> s[0] != '-')
  {
    Render(AgeAt(timestamp, now))
  }

  /** The code's own arithmetic, done exactly: the difference in hours as a
      real number, compared with 1, 2 and 24 and floored. */
  function FormatAgeExact(timestamp: int, now: int): string {
    var diffInHours := ((now - timestamp * 1000) as real) / (1000.0 * 60.0 * 60.0);
    if diffInHours < 1.0 then IntToString((diffInHours * 60.0).Floor) + " minutes ago"
    else if diffInHours < 2.0 then IntToString(diffInHours.Floor) + " hour ago"
    else if diffInHours < 24.0 then IntToString(diffInHours.Floor) + " hours ago"
    else IntToString((diffInHours / 24.0).Floor) + " days ago"
  }

  /** Flooring an exact quotient is integer division. */
  lemma FloorOfQuotient(x: int, d: int)
    requires d > 0
    ensures ((x as real) / (d as real)).Floor == x / d
  {
    var q := x / d;
    var r := x % d;
    assert x == q * d + r;
    assert (x as real) == (q as real) * (d as real) + (r as real);
    assert (x as real) / (d as real) == (q as real) + (r as real) / (d as real);
    assert 0.0 <= (r as real) / (d as real) < 1.0;
  }

  /** The integer bucketing agrees with the exact real-number reading of the
      code, for every timestamp and every clock value. */
  lemma FormatAgeMatchesExact(timestamp: int, now: int)
    ensures FormatAge(timestamp, now) == FormatAgeExact(timestamp, now)
  {
    var diff := now - timestamp * 1000;
    var h := (diff as real) / (1000.0 * 60.0 * 60.0);
    assert h == (diff as real) / (MsPerHour as real);
    assert h < 1.0 <==> diff < MsPerHour;
    assert h < 2.0 <==> diff < 2 * MsPerHour;
    assert h < 24.0 <==> diff < 24 * MsPerHour;
    if diff < MsPerHour {
      assert h * 60.0 == (diff as real) / (MsPerMinute as real);
      FloorOfQuotient(diff, MsPerMinute);
    } else if diff < 2 * MsPerHour {
      FloorOfQuotient(diff, MsPerHour);
      assert diff / MsPerHour == 1;
    } else if diff < 24 * MsPerHour {
      FloorOfQuotient(diff, MsPerHour);
    } else {
      assert h / 24.0 == (diff as real) / (MsPerDay as real);
      FloorOfQuotient(diff, MsPerDay);
    }
  }

  /** The sixth character from the end tells the four suffixes apart. */
  lemma SuffixMarkDistinct(a: Age, b: Age)
    requires Suffix(a)[|Suffix(a)| - 6] == Suffix(b)[|Suffix(b)| - 6]
    ensures Suffix(a) == Suffix(b)
  {
  }

  lemma TailOfConcat(p: string, q: string, k: nat)
    requires 1 <= k <= |q|
    ensures (p + q)[|p + q| - k] == q[|q| - k]
    ensures (p + q)[..|p + q| - |q|] == p
  {
  }

  /** Distinct ages read differently, so the phrase determines the bucket
      and the count. */
  lemma RenderInjective(a: Age, b: Age)
    requires Render(a) == Render(b)
    ensures a == b
  {
    var pa, pb := IntToString(Count(a)), IntToString(Count(b));
    TailOfConcat(pa, Suffix(a), 6);
    TailOfConcat(pb, Suffix(b), 6);
    SuffixMarkDistinct(a, b);
    assert pa == pb;
    IntToStringInjective(Count(a), Count(b));
    SuffixAndCountDetermineAge(a, b);
  }

  lemma SuffixAndCountDetermineAge(a: Age, b: Age)
    requires Suffix(a) == Suffix(b) && Count(a) == Count(b)
    ensures a == b
  {
  }
}
