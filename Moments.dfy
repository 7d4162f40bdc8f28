/**
 * Points in time as whole minutes since the epoch, in local time, with the day, hour and
 * minute projections the plugin takes from moment.js (`startOf('day')`, `endOf('day')`,
 * `hours()`, `minutes()`, `set({hour, minute})`, `isSame(_, 'day')`).
 */
module Moments {

  type Moment = int

  const MinutesPerDay: nat := 1440

  /** The calendar day a moment falls on (days since the epoch; floor division). */
  function Day(t: Moment): int {
    t / MinutesPerDay
  }

  function MinuteOfDay(t: Moment): (m: nat)
    ensures m < MinutesPerDay
  {
    t % MinutesPerDay
  }

  lemma DayAndMinute(t: Moment)
    ensures t == Day(t) * MinutesPerDay + MinuteOfDay(t)
  {
  }

  function Hours(t: Moment): (h: nat)
    ensures h < 24
  {
    MinuteOfDay(t) / 60
  }

  function Minutes(t: Moment): (m: nat)
    ensures m < 60
  {
    MinuteOfDay(t) % 60
  }

  /** `t.clone().set({hour: h, minute: m})`: same day, the given clock time. */
  function SetTime(t: Moment, h: nat, m: nat): (r: Moment)
    requires h < 24 && m < 60
    ensures Day(r) == Day(t) && Hours(r) == h && Minutes(r) == m
  {
    Day(t) * MinutesPerDay + h * 60 + m
  }

  /** Setting 00:00 on a moment at 00:00 gives the same moment. */
  lemma SetTimeMidnight(t: Moment)
    requires MinuteOfDay(t) == 0
    ensures SetTime(t, 0, 0) == t
  {
    DayAndMinute(t);
  }

  /** `startOf('day')`. */
  function StartOfDay(t: Moment): (r: Moment)
    ensures Day(r) == Day(t) && MinuteOfDay(r) == 0 && r <= t
  {
    Day(t) * MinutesPerDay
  }

  /** `endOf('day')`, to the minute. */
  function EndOfDay(t: Moment): (r: Moment)
    ensures Day(r) == Day(t) && MinuteOfDay(r) == MinutesPerDay - 1 && t <= r
  {
    Day(t) * MinutesPerDay + MinutesPerDay - 1
  }

  lemma DayMonotone(s: Moment, t: Moment)
    requires s <= t
    ensures Day(s) <= Day(t)
  {
  }

  /** Being before the start of a day means falling on an earlier day. */
  lemma {:induction false} BeforeStartOfDay(t: Moment, d: Moment)
    ensures t < StartOfDay(d) <==> Day(t) < Day(d)
  {
    DayAndMinute(t);
  }

  /** Being after the end of a day means falling on a later day. */
  lemma {:induction false} AfterEndOfDay(t: Moment, d: Moment)
    ensures t > EndOfDay(d) <==> Day(t) > Day(d)
  {
    DayAndMinute(t);
  }
}
