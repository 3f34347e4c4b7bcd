/** The watch-history page of src/pages/WatchHistory.jsx: the `m:ss`
    duration formatter, the relative-date formatter over a millisecond
    difference, and the page's fetch. */
module WatchHistory {
  import opened Wrappers
  import opened Text

  /** JavaScript's `%` on integers: the remainder takes the dividend's sign. */
  function JsRem60(a: int): (r: int)
    ensures a >= 0 ==> r == a % 60
    ensures -60 < r < 60
    ensures a < 0 ==> r <= 0
  {
    if a >= 0 then a % 60 else -((-a) % 60)
  }

  /** `formatDuration(seconds)`: "0:00" for a missing or zero duration,
      otherwise `Math.floor(s / 60)`, a colon and `s % 60` padded to two
      characters. */
  function FormatDuration(seconds: Option<int>): string
  {
    if seconds.None? || seconds.value == 0 then "0:00"
    else
      var s := seconds.value;
      IntToString(s / 60) + ":" + PadStart2(IntToString(JsRem60(s)))
  }

  /** Reads an `m:ss` clock back into seconds: digits, a colon, two digits
      below 60. */
  function ParseClock(r: string): Option<nat>
  {
    if |r| >= 4 then ClockParts(r[..|r| - 3], r[|r| - 3], r[|r| - 2..]) else None
  }

  /** The minutes, the separator and the seconds of a clock text. */
  function ClockParts(m: string, colon: char, sec: string): Option<nat>
  {
    if colon == ':' && AllDigits(m) && AllDigits(sec) && ParseNat(sec) < 60
    then Some(60 * ParseNat(m) + ParseNat(sec))
    else None
  }

  /** A number below 100, padded to two characters, is two digits that read
      back as the number. */
  lemma PaddedTwoDigits(n: nat)
    requires n < 100
    ensures |PadStart2(NatToString(n))| == 2 && AllDigits(PadStart2(NatToString(n)))
    ensures ParseNat(PadStart2(NatToString(n))) == n
  {
    var s := NatToString(n);
    ParseNatToString(n);
    if n >= 10 {
      assert |NatToString(n / 10)| == 1;
    } else {
      var p := PadStart2(s);
      assert p == ['0'] + s;
      assert p[..1] == "0";
    }
  }

  /** The clock text of a non-negative duration reads back as that
      duration: the minutes are the whole minutes and the two-digit part
      the remaining seconds, so 60 * m + ss == s. */
  lemma DurationRoundTrip(s: nat)
    ensures ParseClock(FormatDuration(Some(s))) == Some(s)
  {
    if s == 0 {
      ZeroDurationReadsBack();
    } else {
      PositiveDurationReadsBack(s);
    }
  }

  lemma PositiveDurationReadsBack(s: nat)
    requires s > 0
    ensures ParseClock(FormatDuration(Some(s))) == Some(s)
  {
    PositiveClockText(s);
    ClockReadBack(s / 60, s % 60);
  }

  lemma PositiveClockText(s: nat)
    requires s > 0
    ensures FormatDuration(Some(s)) == NatToString(s / 60) + ":" + PadStart2(NatToString(s % 60))
  {
  }

  lemma ZeroDurationReadsBack()
    ensures ParseClock(FormatDuration(Some(0))) == Some(0)
  {
    assert FormatDuration(Some(0)) == "0" + ":" + "00";
    assert ParseNat("0") == 0 && ParseNat("00") == 0;
    ClockSplits("0", "00");
  }

  lemma ClockReadBack(q: nat, rem: nat)
    requires rem < 60
    ensures ParseClock(NatToString(q) + ":" + PadStart2(NatToString(rem))) == Some(60 * q + rem)
  {
    PaddedTwoDigits(rem);
    ParseNatToString(q);
    ClockOf(NatToString(q), PadStart2(NatToString(rem)), q, rem);
  }

  /** Minutes and seconds texts that read as `q` and `rem` make a clock
      reading `60 * q + rem`. */
  lemma ClockOf(m: string, sec: string, q: nat, rem: nat)
    requires m != [] && AllDigits(m) && |sec| == 2 && AllDigits(sec)
    requires ParseNat(m) == q && ParseNat(sec) == rem && rem < 60
    ensures ParseClock(m + ":" + sec) == Some(60 * q + rem)
  {
    ClockSplits(m, sec);
  }

  /** Digits, a colon and two digits split back at the colon. */
  lemma ClockSplits(m: string, sec: string)
    requires m != [] && AllDigits(m) && |sec| == 2 && AllDigits(sec) && ParseNat(sec) < 60
    ensures ParseClock(m + ":" + sec) == Some(60 * ParseNat(m) + ParseNat(sec))
  {
    SplitAtColon(m, sec);
  }

  lemma SplitAtColon(m: string, sec: string)
    requires |sec| == 2
    ensures var r := m + ":" + sec;
      |r| == |m| + 3 && r[..|r| - 3] == m && r[|r| - 3] == ':' && r[|r| - 2..] == sec
  {
    var r := m + ":" + sec;
    assert r[..|r| - 3] == m;
    assert r[|r| - 2..] == sec;
  }

  // Relative dates.

  const MinuteMs := 60000
  const HourMs := 3600000
  const DayMs := 86400000

  /** The bucket `formatDate` picks, with its whole count. */
  datatype Ago = DaysAgo(n: nat) | HoursAgo(n: nat) | MinutesAgo(n: nat) | JustNow

  function Abs(x: int): nat
  {
    if x < 0 then -x else x
  }

  /** The first positive whole unit of the absolute difference, days before
      hours before minutes. */
  function Bucket(diffMs: int): (a: Ago)
    ensures a.JustNow? <==> Abs(diffMs) < MinuteMs
    ensures !a.JustNow? ==> a.n >= 1
  {
    var d := Abs(diffMs);
    if d / DayMs > 0 then DaysAgo(d / DayMs)
    else if d / HourMs > 0 then HoursAgo(d / HourMs)
    else if d / MinuteMs > 0 then MinutesAgo(d / MinuteMs)
    else JustNow
  }

  /** The bucket's count is the whole number of its unit in the difference,
      at least one; a smaller unit is chosen only when the larger one has
      no whole count; under a minute is "just now". */
  lemma BucketBounds(diffMs: int)
    ensures var d, b := Abs(diffMs), Bucket(diffMs);
      && (b.DaysAgo? ==> b.n >= 1 && b.n * DayMs <= d < (b.n + 1) * DayMs)
      && (b.HoursAgo? ==> 1 <= b.n < 24 && b.n * HourMs <= d < (b.n + 1) * HourMs)
      && (b.MinutesAgo? ==> 1 <= b.n < 60 && b.n * MinuteMs <= d < (b.n + 1) * MinuteMs)
      && (b == JustNow <==> d < MinuteMs)
  {
  }

  /** Past and future moments at the same distance read the same. */
  lemma BucketSymmetric(diffMs: int)
    ensures Bucket(diffMs) == Bucket(-diffMs)
  {
  }

  function Plural(n: nat): string
  {
    if n > 1 then "s" else ""
  }

  /** The text of a bucket: singular unit word for one, plural above. */
  function Phrase(a: Ago): string
  {
    match a
    case DaysAgo(n) => NatToString(n) + UnitText("day", n)
    case HoursAgo(n) => NatToString(n) + UnitText("hour", n)
    case MinutesAgo(n) => NatToString(n) + UnitText("minute", n)
    case JustNow => "Just now"
  }

  /** What follows the count: " day ago", " days ago", and so on. */
  function UnitText(word: string, n: nat): string
  {
    " " + word + Plural(n) + " ago"
  }

  /** `formatDate`, given the difference between now and the date in
      milliseconds. */
  function FormatDate(diffMs: int): string
  {
    Phrase(Bucket(diffMs))
  }

  /** Reads a phrase back: the leading count, then exactly one of the unit
      texts, singular only for a count of one. */
  function ParsePhrase(s: string): Option<Ago>
  {
    var k := DigitRun(s);
    if k == 0 then (if s == "Just now" then Some(JustNow) else None)
    else ParseUnit(ParseNat(s[..k]), s[k..])
  }

  /** The unit text after a count of `n`. */
  function ParseUnit(n: nat, rest: string): Option<Ago>
  {
    if rest == UnitText("day", n) then Some(DaysAgo(n))
    else if rest == UnitText("hour", n) then Some(HoursAgo(n))
    else if rest == UnitText("minute", n) then Some(MinutesAgo(n))
    else None
  }

  /** The words `formatDate` shows: the count, then the unit in the
      singular for exactly one and in the plural above, then "ago". */
  lemma FormatDateText(diffMs: int)
    ensures var b := Bucket(diffMs);
      && (b.DaysAgo? ==> FormatDate(diffMs) == NatToString(b.n) + (if b.n == 1 then " day ago" else " days ago"))
      && (b.HoursAgo? ==> FormatDate(diffMs) == NatToString(b.n) + (if b.n == 1 then " hour ago" else " hours ago"))
      && (b.MinutesAgo? ==> FormatDate(diffMs) == NatToString(b.n) + (if b.n == 1 then " minute ago" else " minutes ago"))
      && (b == JustNow ==> FormatDate(diffMs) == "Just now")
  {
    BucketBounds(diffMs);
  }

  /** The text `formatDate` shows determines its bucket and count, so two
      differences read the same exactly when they fall in the same bucket. */
  lemma FormatDateRoundTrip(diffMs: int)
    ensures ParsePhrase(FormatDate(diffMs)) == Some(Bucket(diffMs))
  {
    PhraseRoundTrip(Bucket(diffMs));
  }

  /** Every phrase reads back as the bucket it was made from. */
  lemma {:induction false} PhraseRoundTrip(a: Ago)
    ensures ParsePhrase(Phrase(a)) == Some(a)
  {
    match a
    case JustNow =>
      assert !IsDigit(Phrase(a)[0]);
    case DaysAgo(n) =>
      CountedPhrase(n, UnitText("day", n));
    case HoursAgo(n) =>
      CountedPhrase(n, UnitText("hour", n));
      HourUnit(n);
    case MinutesAgo(n) =>
      CountedPhrase(n, UnitText("minute", n));
      MinuteUnit(n);
  }

  /** A count followed by a text starting with a space parses as that text
      after that count. */
  lemma CountedPhrase(n: nat, rest: string)
    requires rest != [] && rest[0] == ' '
    ensures ParsePhrase(NatToString(n) + rest) == ParseUnit(n, rest)
  {
    PhraseSplits(n, rest);
  }

  lemma HourUnit(n: nat)
    ensures ParseUnit(n, UnitText("hour", n)) == Some(HoursAgo(n))
  {
    assert UnitText("hour", n)[1] != UnitText("day", n)[1];
  }

  lemma MinuteUnit(n: nat)
    ensures ParseUnit(n, UnitText("minute", n)) == Some(MinutesAgo(n))
  {
    assert UnitText("minute", n)[1] != UnitText("day", n)[1];
    assert UnitText("minute", n)[1] != UnitText("hour", n)[1];
  }

  /** Hence distinct buckets never show the same text. */
  lemma FormatDateInjective(d1: int, d2: int)
    ensures FormatDate(d1) == FormatDate(d2) <==> Bucket(d1) == Bucket(d2)
  {
    FormatDateRoundTrip(d1);
    FormatDateRoundTrip(d2);
  }

  lemma PhraseSplits(n: nat, rest: string)
    requires rest != [] && rest[0] == ' '
    ensures var s := NatToString(n) + rest; var k := |NatToString(n)|;
      DigitRun(s) == k && k > 0 && s[..k] == NatToString(n) && s[k..] == rest
      && ParseNat(s[..k]) == n
  {
    DigitRunOfNumber(n, rest);
    ParseNatToString(n);
    var s := NatToString(n) + rest;
    assert s[..|NatToString(n)|] == NatToString(n);
  }

  datatype HistoryVideo = HistoryVideo(id: string, title: string, duration: Option<int>)

  class WatchHistoryScreen {
    var watchHistory: seq<HistoryVideo>
    var loading: bool
    var error: string

    constructor ()
      ensures watchHistory == [] && loading && error == ""
    {
      watchHistory, loading, error := [], true, "";
    }

    /** The mount effect: `fetchWatchHistory` runs only when there is a
        user. On success the list is the reply's data or empty; on failure
        the error is the backend's message or the fallback and the list is
        kept; loading ends false. */
    method FetchWatchHistory(hasUser: bool, response: Outcome<Option<seq<HistoryVideo>>>)
      modifies this
      ensures !hasUser ==> watchHistory == old(watchHistory) && loading == old(loading) && error == old(error)
      ensures hasUser ==> !loading
      ensures hasUser && response.Success? ==>
        error == "" && watchHistory == (if response.value.Some? then response.value.value else [])
      ensures hasUser && response.Failure? ==>
        error == MessageOr(response.message, "Failed to load watch history") && watchHistory == old(watchHistory)
    {
      if !hasUser {
        return;
      }
      loading := true;
      error := "";
      match response {
        case Success(data) =>
          watchHistory := if data.Some? then data.value else [];
        case Failure(message) =>
          error := MessageOr(message, "Failed to load watch history");
      }
      loading := false;
    }
  }
}
