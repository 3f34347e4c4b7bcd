/** The video card of src/components/VideoCard.jsx: its duration badge,
    the relative upload time in seconds, the integer branch of the view
    count, and the options-menu and hover flags. */
module VideoCard {
  import opened Wrappers
  import opened Text
  import WatchHistory

  /** The duration badge uses the same `m:ss` rule as the watch-history
      page: "0:00" for a missing or zero duration, and for a positive one a
      text that splits at its colon into whole minutes and two-digit
      seconds adding back up to the duration. */
  lemma DurationBadge(duration: Option<int>)
    ensures duration.None? || duration.value == 0 ==> WatchHistory.FormatDuration(duration) == "0:00"
    ensures duration.Some? && duration.value > 0 ==>
      WatchHistory.ParseClock(WatchHistory.FormatDuration(duration)) == Some(duration.value)
  {
    if duration.Some? && duration.value > 0 {
      WatchHistory.DurationRoundTrip(duration.value);
    }
  }

  /** The units of `formatTimeAgo`, smallest first. */
  datatype TimeUnit = Seconds | Minutes | Hours | Days | Months | Years

  /** How many seconds one of the unit counts. */
  function UnitSeconds(u: TimeUnit): (n: nat)
    ensures n >= 1
  {
    match u
    case Seconds => 1
    case Minutes => 60
    case Hours => 3600
    case Days => 86400
    case Months => 2592000
    case Years => 31536000
  }

  /** The word printed for a unit; every one is plural. */
  function UnitWord(u: TimeUnit): (w: string)
    ensures |w| >= 1 && w[|w| - 1] == 's'
  {
    match u
    case Seconds => "seconds"
    case Minutes => "minutes"
    case Hours => "hours"
    case Days => "days"
    case Months => "months"
    case Years => "years"
  }

  /** The first threshold the seconds stay strictly below picks the unit. */
  function PickUnit(s: int): TimeUnit
  {
    if s < 60 then Seconds
    else if s < 3600 then Minutes
    else if s < 86400 then Hours
    else if s < 2592000 then Days
    else if s < 31536000 then Months
    else Years
  }

  /** `formatTimeAgo`, given `now - created` in milliseconds: the whole
      seconds, then the count of the picked unit, rounded down. */
  function FormatTimeAgo(diffMs: int): string
  {
    var s := diffMs / 1000;
    var u := PickUnit(s);
    IntToString(s / UnitSeconds(u)) + " " + UnitWord(u) + " ago"
  }

  /** The unit and count the text shows: below a minute the plain seconds
      (negative for a future date); above, a count of at least one that
      is the whole number of units in the difference, below the next
      unit's size. */
  lemma TimeAgoBounds(diffMs: int)
    ensures var s, u := diffMs / 1000, PickUnit(diffMs / 1000);
      && (u == Seconds <==> s < 60)
      && (u == Minutes ==> 60 <= s < 3600)
      && (u == Hours ==> 3600 <= s < 86400)
      && (u == Days ==> 86400 <= s < 2592000)
      && (u == Months ==> 2592000 <= s < 31536000)
      && (u == Years ==> 31536000 <= s)
      && (u != Seconds ==> var c := s / UnitSeconds(u);
            1 <= c && c * UnitSeconds(u) <= s < (c + 1) * UnitSeconds(u))
  {
  }

  /** The text is always the count, a space, a plural unit word and " ago":
      there is no singular form. */
  lemma TimeAgoAlwaysPlural(diffMs: int)
    ensures var r := FormatTimeAgo(diffMs);
      |r| >= 6 && r[|r| - 5..] == "s ago"
  {
    var s := diffMs / 1000;
    var u := PickUnit(s);
    var w := UnitWord(u);
    var r := FormatTimeAgo(diffMs);
    assert r == IntToString(s / UnitSeconds(u)) + " " + w + " ago";
    assert r[|r| - 5] == w[|w| - 1];
  }

  /** Exactly at a threshold the larger unit is used: one millisecond
      short of a minute is still seconds, a full minute is "1 minutes". */
  lemma TimeAgoAtMinute()
    ensures FormatTimeAgo(59999) == "59 seconds ago"
    ensures FormatTimeAgo(60000) == "1 minutes ago"
  {
    assert 59999 / 1000 == 59 && 60000 / 1000 == 60;
    assert PickUnit(59) == Seconds && PickUnit(60) == Minutes;
    assert 60 / UnitSeconds(Minutes) == 1;
    assert IntToString(1) == "1";
    assert IntToString(59) == "59" by {
      assert NatToString(5) == "5";
      assert NatToString(59) == NatToString(5) + [DigitChar(9)];
    }
    assert 59 / UnitSeconds(Seconds) == 59;
    assert FormatTimeAgo(59999) == IntToString(59) + " " + "seconds" + " ago";
  }

  /** The integer branch of `formatViews`: `views?.toString() || "0"`
      below a thousand, "0" for a missing count. The thousands and
      millions branches print fractions and are `None` here. */
  function FormatViews(views: Option<int>): (r: Option<string>)
    ensures r.Some? <==> views.None? || views.value < 1000
    ensures views.None? ==> r == Some("0")
    ensures r.Some? ==> r.value != ""
  {
    if views.None? then Some("0")
    else if views.value >= 1000 then None
    else Some(IntToString(views.value))
  }

  /** A count from 0 to 999 is shown as at most three digits that read back
      as the count; a zero count shows "0". */
  lemma FormatViewsReadsBack(views: int)
    requires 0 <= views < 1000
    ensures var r := FormatViews(Some(views)).value;
      |r| <= 3 && AllDigits(r) && ParseNat(r) == views
    ensures views == 0 ==> FormatViews(Some(views)) == Some("0")
  {
    ParseNatToString(views);
    if views >= 10 {
      assert |NatToString(views / 10)| <= 2 by {
        if views / 10 >= 10 {
          assert |NatToString(views / 100)| == 1;
        }
      }
    }
  }

  /** The card's own state: the options menu and the hover flag. */
  class Card {
    var showOptions: bool
    var isHovered: bool

    constructor ()
      ensures !showOptions && !isHovered
    {
      showOptions, isHovered := false, false;
    }

    /** `handleOptionsClick`: flips the menu. */
    method OptionsClick()
      modifies this
      ensures showOptions == !old(showOptions) && isHovered == old(isHovered)
    {
      showOptions := !showOptions;
    }

    /** `handleOptionAction`: whichever action is chosen, the menu closes. */
    method OptionAction(action: string)
      modifies this
      ensures !showOptions && isHovered == old(isHovered)
    {
      showOptions := false;
    }

    method MouseEnter()
      modifies this
      ensures isHovered && showOptions == old(showOptions)
    {
      isHovered := true;
    }

    method MouseLeave()
      modifies this
      ensures !isHovered && showOptions == old(showOptions)
    {
      isHovered := false;
    }
  }
}
