/** `formatTimeAgo(date)` of lib/dateUtils.ts, whose behaviour is pinned
    down by __tests__/dateUtils.test.ts: the age of a timestamp as "Just
    now", minutes, hours or days, and a calendar date from seven days on.
    The clock reading `now` is a parameter, and the calendar text
    (`toLocaleDateString()`, locale and time zone dependent) is passed in
    as `calendarDate`. */
module DateUtils {
  import opened Strings
  import opened Types

  function FormatTimeAgo(now: Ms, date: Ms, calendarDate: string): (r: string)
    ensures now - date < 2 * MS_PER_MINUTE ==> r == "Just now"
    ensures 2 * MS_PER_MINUTE <= now - date < 7 * MS_PER_DAY ==> EndsWith(r, " ago")
    ensures 7 * MS_PER_DAY <= now - date ==> r == calendarDate
  {
    var diff := now - date;
    var minutes := diff / MS_PER_MINUTE;
    if minutes < 2 then "Just now"
    else if minutes < 60 then NatToString(minutes) + " minutes ago"
    else
      var hours := diff / MS_PER_HOUR;
      if hours < 24 then
        if hours == 1 then "1 hour ago" else NatToString(hours) + " hours ago"
      else
        var days := diff / MS_PER_DAY;
        if days < 7 then
          if days == 1 then "1 day ago" else NatToString(days) + " days ago"
        else calendarDate
  }

  /** The buckets: under two minutes (and any future date) "Just now",
      then whole minutes, hours and days, and from seven days on the
      calendar date. */
  lemma TimeAgoBuckets(now: Ms, date: Ms, calendarDate: string)
    ensures now - date < 2 * MS_PER_MINUTE ==> FormatTimeAgo(now, date, calendarDate) == "Just now"
    ensures 2 * MS_PER_MINUTE <= now - date < MS_PER_HOUR ==>
              FormatTimeAgo(now, date, calendarDate) == NatToString((now - date) / MS_PER_MINUTE) + " minutes ago"
    ensures MS_PER_HOUR <= now - date < 2 * MS_PER_HOUR ==> FormatTimeAgo(now, date, calendarDate) == "1 hour ago"
    ensures 2 * MS_PER_HOUR <= now - date < MS_PER_DAY ==>
              FormatTimeAgo(now, date, calendarDate) == NatToString((now - date) / MS_PER_HOUR) + " hours ago"
    ensures MS_PER_DAY <= now - date < 2 * MS_PER_DAY ==> FormatTimeAgo(now, date, calendarDate) == "1 day ago"
    ensures 2 * MS_PER_DAY <= now - date < 7 * MS_PER_DAY ==>
              FormatTimeAgo(now, date, calendarDate) == NatToString((now - date) / MS_PER_DAY) + " days ago"
    ensures 7 * MS_PER_DAY <= now - date ==> FormatTimeAgo(now, date, calendarDate) == calendarDate
  {
  }

  /** The clock of the tests, 2024-01-15T12:00:00Z. */
  const TEST_NOW: Ms := 1_705_320_000_000

  /** The "Just now" and minute cases of the test suite. */
  lemma TimeAgoMinuteExamples(calendarDate: string)
    ensures FormatTimeAgo(TEST_NOW, TEST_NOW - 30_000, calendarDate) == "Just now"
    ensures FormatTimeAgo(TEST_NOW, TEST_NOW - MS_PER_MINUTE, calendarDate) == "Just now"
    ensures FormatTimeAgo(TEST_NOW, TEST_NOW + MS_PER_DAY, calendarDate) == "Just now"
    ensures FormatTimeAgo(TEST_NOW, TEST_NOW - 2 * MS_PER_MINUTE, calendarDate) == "2 minutes ago"
    ensures FormatTimeAgo(TEST_NOW, TEST_NOW - 30 * MS_PER_MINUTE, calendarDate) == "30 minutes ago"
    ensures FormatTimeAgo(TEST_NOW, TEST_NOW - 59 * MS_PER_MINUTE, calendarDate) == "59 minutes ago"
  {
    assert NatToString(2) == "2";
    assert NatToString(30) == "30" by { assert NatToString(3) == "3"; }
    assert NatToString(59) == "59" by { assert NatToString(5) == "5"; }
  }

  /** The hour cases of the test suite. */
  lemma TimeAgoHourExamples(calendarDate: string)
    ensures FormatTimeAgo(TEST_NOW, TEST_NOW - MS_PER_HOUR, calendarDate) == "1 hour ago"
    ensures FormatTimeAgo(TEST_NOW, TEST_NOW - 2 * MS_PER_HOUR, calendarDate) == "2 hours ago"
    ensures FormatTimeAgo(TEST_NOW, TEST_NOW - 12 * MS_PER_HOUR, calendarDate) == "12 hours ago"
    ensures FormatTimeAgo(TEST_NOW, TEST_NOW - 23 * MS_PER_HOUR, calendarDate) == "23 hours ago"
  {
    assert (2 * MS_PER_HOUR) / MS_PER_HOUR == 2 && NatToString(2) == "2";
    assert (12 * MS_PER_HOUR) / MS_PER_HOUR == 12;
    assert NatToString(12) == "12" by { assert NatToString(1) == "1"; }
    assert (23 * MS_PER_HOUR) / MS_PER_HOUR == 23;
    assert NatToString(23) == "23" by { assert NatToString(2) == "2"; }
  }

  /** The day and calendar cases of the test suite. */
  lemma TimeAgoDayExamples(calendarDate: string)
    ensures FormatTimeAgo(TEST_NOW, TEST_NOW - MS_PER_DAY, calendarDate) == "1 day ago"
    ensures FormatTimeAgo(TEST_NOW, TEST_NOW - 2 * MS_PER_DAY, calendarDate) == "2 days ago"
    ensures FormatTimeAgo(TEST_NOW, TEST_NOW - 6 * MS_PER_DAY, calendarDate) == "6 days ago"
    ensures FormatTimeAgo(TEST_NOW, TEST_NOW - 7 * MS_PER_DAY, calendarDate) == calendarDate
  {
    assert NatToString(2) == "2";
    assert NatToString(6) == "6";
  }
}
