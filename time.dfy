/** `LocalDateTime` and `LocalDate` values as plain numbers: an instant is a
    count of seconds and a date a count of days, both from the same origin.
    Sub-second precision and calendars are outside the model. */
module Time {
  import opened Wrappers

  const MINUTE: int := 60
  const DAY: int := 86400

  /** `date.atStartOfDay()`. */
  function StartOfDay(date: int): (t: int)
    ensures t % DAY == 0 && t / DAY == date
  {
    date * DAY
  }

  /** `date.atTime(23, 59, 59)`: the last whole second of the day. */
  function EndOfDay(date: int): (t: int)
    ensures t == StartOfDay(date) + DAY - 1
  {
    date * DAY + 23 * 3600 + 59 * MINUTE + 59
  }

  /** The date an instant falls on. */
  function DateOf(t: int): int {
    t / DAY
  }

  /** An instant falls on `date` exactly when it lies between the first and
      the last second of that day, both included. */
  lemma OnDate(t: int, date: int)
    ensures DateOf(t) == date <==> StartOfDay(date) <= t <= EndOfDay(date)
  {
    if StartOfDay(date) <= t <= EndOfDay(date) {
      assert t - date * DAY < DAY;
    }
  }

  /** `LocalDate.parse` on an optional text, `parse` giving the day of an ISO
      date text or nothing when the text is not a date: null stays null. */
  function ParseDate(text: Option<string>, parse: string -> Option<int>): (r: Result<Option<int>>)
    ensures text.None? ==> r == Ok(None)
    ensures text.Some? && parse(text.value).None? ==> r == Err(InvalidDate(text.value))
    ensures text.Some? && parse(text.value).Some? ==> r == Ok(parse(text.value))
  {
    if text.None? then Ok(None)
    else if parse(text.value).None? then Err(InvalidDate(text.value))
    else Ok(parse(text.value))
  }
}
