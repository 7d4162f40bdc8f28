/**
 * The third-party libraries the core calls, as uninterpreted functions passed in by the
 * caller: moment.js strict parsing and formatting, rrule, chrono and the locale-aware string
 * functions of the JavaScript runtime.
 */
module Libraries {
  import opened Wrappers
  import opened Moments

  /** A moment parsed in strict mode together with the format that matched (`creationData().format`). */
  datatype Parsed = Parsed(moment: Moment, format: string)

  /**
   * moment.js: `parse(text, formats)` is `moment(text, formats, true)` (None when
   * `isValid()` is false); `format(t, Some(f))` is `t.format(f)` and `format(t, None)` is
   * `t.format(undefined)`, the default format.
   */
  datatype MomentLib = MomentLib(
    parse: (string, seq<string>) -> Option<Parsed>,
    format: (Moment, Option<string>) -> string)

  /** A recurrence rule; its options are left uninterpreted. */
  datatype RRule = RRule(options: string)

  /**
   * rrule: `fromText` is `RRule.fromText` (None when it throws), `toText` is
   * `rule.toText()`, and `after(rule, dtstart, t)` is `new RRule({...rule.options, dtstart}).after(t, false)`.
   */
  datatype RRuleLib = RRuleLib(
    fromText: string -> Option<RRule>,
    toText: RRule -> string,
    after: (RRule, Moment, Moment) -> Option<Moment>)

  /** What the rrule documentation promises of `after(t, false)`: an occurrence strictly after `t`. */
  ghost predicate AfterIsStrict(lib: RRuleLib) {
    forall rule, dtstart, t :: lib.after(rule, dtstart, t).Some? ==> lib.after(rule, dtstart, t).value > t
  }

  /** The start of the first result of `chrono.parse`, and whether its hour is certain. */
  datatype ChronoDate = ChronoDate(date: Moment, hourCertain: bool)

  /** chrono: `parse(text)` is `chrono.parse(text)?.[0]?.start`. */
  datatype ChronoLib = ChronoLib(parse: string -> Option<ChronoDate>)

  /**
   * The runtime's string functions: `lowerCase` is `toLowerCase`, `localeLowerCase` is
   * `toLocaleLowerCase`, and `localeCompare` compares the collation keys `collationKey` yields.
   */
  datatype Locale = Locale(
    lowerCase: string -> string,
    localeLowerCase: string -> string,
    collationKey: string -> seq<int>)

  /** Everything the core calls outside itself, passed in together. */
  datatype Runtime = Runtime(moment: MomentLib, rrule: RRuleLib, chrono: ChronoLib, locale: Locale)
}
