/** The two duration formatters of the app. They return the numbers that are
    shown and which layout shows them; turning numbers into text is not part
    of this model. */
module Formatting {
  import opened Types

  /** What `formatDuration` shows: "Hh Mm", "Mm Ss" or "Ss". */
  datatype DurationText =
    | HoursMinutes(hours: int, minutes: int)
    | MinutesSeconds(minutes: int, seconds: int)
    | SecondsOnly(seconds: int)

  /** What `formatSheetDuration` shows: an optional "Hh " then "Mm". */
  datatype SheetText = SheetText(hours: Option<int>, minutes: int)

  /** JavaScript's `a % b` for `b > 0`: the remainder takes the sign of `a`. */
  function JsRem(a: int, b: int): (r: int)
    requires b > 0
    ensures -b < r < b
    ensures a >= 0 ==> r == a % b
    ensures a < 0 ==> r <= 0 && -r == (-a) % b
  {
    if a >= 0 then a % b else -((-a) % b)
  }

  /** The number of seconds a formatted duration stands for. */
  function ShownSeconds(t: DurationText): int
  {
    match t
    case HoursMinutes(h, m) => h * 3600 + m * 60
    case MinutesSeconds(m, s) => m * 60 + s
    case SecondsOnly(s) => s
  }

  /** `formatDuration`. Hours and minutes are shown from one hour on (the
      seconds are dropped), minutes and seconds from one minute on, seconds
      alone below that. For a non-negative input the shown fields are in
      range and stand for the input exactly, except that "Hh Mm" is up to
      59 seconds short. */
  function FormatDuration(seconds: int): (r: DurationText)
    ensures r.HoursMinutes? <==> seconds >= 3600
    ensures r.MinutesSeconds? <==> 60 <= seconds < 3600
    ensures r.SecondsOnly? <==> seconds < 60
    ensures seconds >= 0 ==> match r
      case HoursMinutes(h, m) => 0 <= m < 60 && ShownSeconds(r) <= seconds < ShownSeconds(r) + 60
      case MinutesSeconds(m, s) => 0 < m < 60 && 0 <= s < 60 && ShownSeconds(r) == seconds
      case SecondsOnly(s) => ShownSeconds(r) == seconds
  {
    var h := seconds / 3600;
    var m := JsRem(seconds, 3600) / 60;
    var s := JsRem(seconds, 60);
    if h > 0 then HoursMinutes(h, m)
    else if m > 0 then MinutesSeconds(m, s)
    else SecondsOnly(s)
  }

  /** `formatSheetDuration`: the hours part only from one hour on; the
      minutes always. For a non-negative input the seconds dropped are fewer
      than 60. */
  function FormatSheetDuration(seconds: int): (r: SheetText)
    ensures r.hours.Some? <==> seconds >= 3600
    ensures seconds >= 0 ==>
      var shown := (if r.hours.Some? then r.hours.value * 3600 else 0) + r.minutes * 60;
      0 <= r.minutes < 60 && shown <= seconds < shown + 60
  {
    var h := seconds / 3600;
    var m := JsRem(seconds, 3600) / 60;
    SheetText(if h > 0 then Some(h) else None, m)
  }

  /** The two formatters agree on hours and minutes from one hour on, and
      below one hour on the minutes. */
  lemma FormattersAgree(seconds: int)
    requires seconds >= 60
    ensures FormatDuration(seconds).minutes == FormatSheetDuration(seconds).minutes
    ensures seconds >= 3600 ==> FormatSheetDuration(seconds).hours == Some(FormatDuration(seconds).hours)
  {
  }
}
