/** `formatTime`: a duration in milliseconds shown by its two leading units.
    The text itself is presentation; the model keeps the unit shown and the
    two numbers printed. */
module TimeFormat {

  datatype Elapsed =
    | Days(days: int, hours: int)        // "<days>d <hours>h"
    | Hours(hours: int, minutes: int)    // "<hours>h <minutes>m"
    | Minutes(minutes: int, seconds: int) // "<minutes>m <seconds>s"
    | Seconds(seconds: int)              // "<seconds>s"

  /** For a positive divisor Dafny's `/` rounds down, as `Math.floor(ms / d)`
      does, so the nested floors of `formatTime` compose into one. */
  lemma NestedFloors(ms: int)
    ensures (ms / 1000) / 60 == ms / 60000
    ensures (ms / 60000) / 60 == ms / 3600000
    ensures (ms / 3600000) / 24 == ms / 86400000
  {
  }

  /** `formatTime(ms)`. Each result's numbers are the whole units of `ms`:
      the leading unit is the largest one that is at least 1, and the second
      number is what is left of the next smaller unit. */
  function FormatTime(ms: int): (r: Elapsed)
    ensures r.Days? <==> ms >= 86400000
    ensures r.Hours? <==> 3600000 <= ms < 86400000
    ensures r.Minutes? <==> 60000 <= ms < 3600000
    ensures r.Seconds? <==> ms < 60000
    ensures r.Days? ==> r.days * 24 + r.hours == ms / 3600000 && 0 <= r.hours < 24
    ensures r.Hours? ==> r.hours * 60 + r.minutes == ms / 60000 && 0 <= r.minutes < 60
    ensures r.Minutes? ==> r.minutes * 60 + r.seconds == ms / 1000 && 0 <= r.seconds < 60
    ensures r.Seconds? ==> r.seconds == ms / 1000
  {
    var seconds := ms / 1000;
    var minutes := seconds / 60;
    var hours := minutes / 60;
    var days := hours / 24;
    NestedFloors(ms);
    if days > 0 then Days(days, hours % 24)
    else if hours > 0 then Hours(hours, minutes % 60)
    else if minutes > 0 then Minutes(minutes, seconds % 60)
    else Seconds(seconds)
  }

  /** Ninety minutes read "1h 30m"; a whole day and an hour read "1d 1h". */
  lemma FormatTimeExamples()
    ensures FormatTime(5400000) == Hours(1, 30)
    ensures FormatTime(90000000) == Days(1, 1)
    ensures FormatTime(59999) == Seconds(59)
  {
  }
}
