/** The arithmetic of `get_time`: from a broken-down local time to the digits and labels
    that one frame shows. The time source itself (`time`, `localtime`) is not modelled; the
    broken-down time is an input. */
module TimeSample {

  /** The fields of `struct tm` that the clock reads. `year` counts from 1900 and `mon`
      from 0, as in the C library. */
  datatype Tm = Tm(sec: int, min: int, hour: int, mday: int, mon: int, year: int)

  /** The ranges `localtime` guarantees (a leap second may give 60). */
  predicate ValidTm(t: Tm) {
    0 <= t.sec <= 60 && 0 <= t.min <= 59 && 0 <= t.hour <= 23 &&
    1 <= t.mday <= 31 && 0 <= t.mon <= 11
  }

  /** One of the two-element arrays `hour`, `minute`, `second` of `date_t`. */
  datatype Pair = Pair(tens: int, units: int)

  /** The global `sdate` of type `date_t`. */
  datatype SDate = SDate(hour: Pair, minute: Pair, second: Pair, monthDay: int, month: int, year: int)

  /** The zero-initialised `sdate` before the first sample. */
  const Zero: SDate := SDate(Pair(0, 0), Pair(0, 0), Pair(0, 0), 0, 0, 0)

  predicate DigitPair(p: Pair) { 0 <= p.tens <= 9 && 0 <= p.units <= 9 }

  /** The value a digit pair shows. */
  function Value(p: Pair): int { p.tens * 10 + p.units }

  /** Every digit of `sdate` that is ever drawn can index the glyph table. */
  predicate Drawable(d: SDate) {
    DigitPair(d.hour) && DigitPair(d.minute) && DigitPair(d.second)
  }

  /** Tens and units of a value below one hundred (`n / 10`, `n % 10`). */
  function Split(n: int): (p: Pair)
    requires 0 <= n <= 99
    ensures DigitPair(p) && Value(p) == n
  {
    Pair(n / 10, n % 10)
  }

  /** The meridiem label: "(PM)" for raw hours above 12 in twelve-hour mode, "(AM)" for the
      others (noon included), and one blank in 24-hour mode. */
  function Meridiem(rawHour: int, twelve: bool): (m: string)
    ensures m == "(PM)" <==> twelve && rawHour > 12
    ensures !twelve <==> m == " "
    ensures twelve && rawHour <= 12 ==> m == "(AM)"
  {
    if twelve then (if rawHour > 12 then "(PM)" else "(AM)") else " "
  }

  /** The hour that is displayed: raw hours above 12 lose 12 in twelve-hour mode, and then
      0 becomes 12; in 24-hour mode the raw hour is shown. */
  function DisplayHour(rawHour: int, twelve: bool): (h: int)
    requires 0 <= rawHour <= 23
    ensures twelve ==> 1 <= h <= 12 && h % 12 == rawHour % 12
    ensures !twelve ==> h == rawHour
  {
    var h1 := if twelve && rawHour > 12 then rawHour - 12 else rawHour;
    if twelve && h1 == 0 then 12 else h1
  }

  /** The new `sdate` after sampling `t`; the `second` pair is only rewritten when seconds
      are shown and otherwise keeps its value from `prev`. */
  function Sample(prev: SDate, t: Tm, twelve: bool, second: bool): (d: SDate)
    requires ValidTm(t)
    ensures Value(d.hour) == DisplayHour(t.hour, twelve) && Value(d.minute) == t.min
    ensures DigitPair(d.hour) && DigitPair(d.minute)
    ensures d.monthDay == t.mday && d.month == t.mon + 1 && d.year == t.year + 1900
    ensures second ==> DigitPair(d.second) && Value(d.second) == t.sec
    ensures !second ==> d.second == prev.second
  {
    var hour := DisplayHour(t.hour, twelve);
    SDate(Split(hour), Split(t.min), if second then Split(t.sec) else prev.second,
          t.mday, t.mon + 1, t.year + 1900)
  }

  /** Sampling keeps every drawable digit drawable, stale seconds included. */
  lemma SampleDrawable(prev: SDate, t: Tm, twelve: bool, second: bool)
    requires ValidTm(t) && Drawable(prev)
    ensures Drawable(Sample(prev, t, twelve, second))
    ensures 1 <= Sample(prev, t, twelve, second).month <= 12
  {
  }

  /** In twelve-hour mode the shown hour and label identify the raw hour, with one
      exception that the `> 12` test causes: midnight and noon both show "12 (AM)". */
  lemma {:induction false} TwelveHourAmbiguity(a: int, b: int)
    requires 0 <= a <= 23 && 0 <= b <= 23 && a < b
    ensures (DisplayHour(a, true) == DisplayHour(b, true) && Meridiem(a, true) == Meridiem(b, true))
            <==> (a == 0 && b == 12)
  {
    if a <= 12 < b {
      assert Meridiem(a, true)[1] == 'A' && Meridiem(b, true)[1] == 'P';
    }
  }

  /** Noon is labelled as a morning hour. */
  lemma NoonShowsAm()
    ensures DisplayHour(12, true) == 12 && Meridiem(12, true) == "(AM)"
    ensures DisplayHour(0, true) == 12 && Meridiem(0, true) == "(AM)"
    ensures DisplayHour(13, true) == 1 && Meridiem(13, true) == "(PM)"
  {
  }
}
