/** The header's "Updated ..." stamp. */
module Header {
  import opened JsValues

  /** What the stamp shows: `just now`, `<n>s ago`, `<n>m ago`, or the clock
      time of the last update. */
  datatype UpdatedLabel = JustNow | SecondsAgo(seconds: int) | MinutesAgo(minutes: int) | ClockTime(ms: int)

  /** `formatTime(lastUpdated)` at instant `nowMs`. Nothing loaded yet, or
      less than ten seconds ago, is `just now`; then whole seconds up to a
      minute, whole minutes up to an hour, and the clock time after that. */
  function FormatTime(lastUpdated: Option<int>, nowMs: int): (r: UpdatedLabel)
    ensures lastUpdated.None? ==> r == JustNow
    ensures lastUpdated.Some? ==>
      var diff := nowMs - lastUpdated.value;
      && (r == JustNow <==> diff < 10000)
      && (r.SecondsAgo? <==> 10000 <= diff < 60000)
      && (r.MinutesAgo? <==> 60000 <= diff < 3600000)
      && (r.ClockTime? <==> 3600000 <= diff)
      && (r.SecondsAgo? ==> 10 <= r.seconds < 60 && r.seconds * 1000 <= diff < (r.seconds + 1) * 1000)
      && (r.MinutesAgo? ==> 1 <= r.minutes < 60 && r.minutes * 60000 <= diff < (r.minutes + 1) * 60000)
      && (r.ClockTime? ==> r.ms == lastUpdated.value)
  {
    match lastUpdated
    case None => JustNow
    case Some(date) =>
      var diffMs := nowMs - date;
      var diffSecs := diffMs / 1000;
      if diffSecs < 10 then JustNow
      else if diffSecs < 60 then SecondsAgo(diffSecs)
      else
        var diffMins := diffMs / 60000;
        if diffMins < 60 then MinutesAgo(diffMins)
        else ClockTime(date)
  }
}
