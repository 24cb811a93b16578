/** The booking length shown by the two booking screens. A date is read as
    a count of milliseconds by a function the caller supplies
    (`new Date(s).getTime()`); durations are whole milliseconds. */
module Durations {
  import opened Text
  import opened Arith
  import opened JsNumbers

  const MinuteMs: nat := 60000
  const HourMs: nat := 3600000

  /** The expert bookings screen: `Math.floor(d / 3600000)` hours and
      `Math.floor((d % 3600000) / 60000)` minutes, printed "Hh Mm" when
      the hours are positive and "Mm" otherwise. `Math.floor` of a
      quotient by a positive number is Dafny's `/`. */
  function HoursAndMinutes(d: int): string {
    var hours := d / HourMs;
    var minutes := JsRem(d, HourMs) / MinuteMs;
    if hours > 0 then IntToString(hours) + "h " + IntToString(minutes) + "m"
    else IntToString(minutes) + "m"
  }

  /** The player bookings screen: whole minutes first; from an hour on,
      "Hh Mm", or just "Hh" on the full hour; below it "Mm". */
  function HoursOrMinutes(d: int): string {
    var total := d / MinuteMs;
    if total >= 60 then
      var hours := total / 60;
      var minutes := total % 60;
      if minutes > 0 then IntToString(hours) + "h " + IntToString(minutes) + "m"
      else IntToString(hours) + "h"
    else IntToString(total) + "m"
  }

  /** For a non-negative duration the hours are the whole hours in it and
      the minutes the whole minutes left over, fewer than sixty. */
  lemma SplitDuration(d: int)
    requires d >= 0
    ensures 0 <= JsRem(d, HourMs) / MinuteMs < 60
    ensures (d / HourMs) * HourMs + (JsRem(d, HourMs) / MinuteMs) * MinuteMs <= d
    ensures d < (d / HourMs) * HourMs + (JsRem(d, HourMs) / MinuteMs + 1) * MinuteMs
    ensures d / MinuteMs == (d / HourMs) * 60 + JsRem(d, HourMs) / MinuteMs
  {
    var h := d / HourMs;
    var rest := d % HourMs;
    var m := rest / MinuteMs;
    var s := rest % MinuteMs;
    assert d == h * HourMs + rest;
    assert rest == m * MinuteMs + s;
    assert m < 60 by {
      if m >= 60 {
        MulMonotone(60, m, MinuteMs);
        assert false;
      }
    }
    MulNonNegative(m, MinuteMs);
    assert d == (h * 60 + m) * MinuteMs + s;
    MulNonNegative(h, 60);
    DivWithRemainder(h * 60 + m, MinuteMs, s);
  }

  /** The expert bookings screen's text, by whole hours and the minutes
      left over: "Mm" below an hour, "Hh Mm" from an hour on, where H is
      the number of whole hours and M the whole minutes after them. */
  lemma HoursAndMinutesText(d: int)
    ensures 0 <= d < HourMs ==> HoursAndMinutes(d) == IntToString(d / MinuteMs) + "m"
    ensures d >= HourMs ==>
      HoursAndMinutes(d) == IntToString(d / HourMs) + "h " + IntToString((d / MinuteMs) % 60) + "m"
  {
    if d >= 0 {
      SplitDuration(d);
      var h := d / HourMs;
      var m := JsRem(d, HourMs) / MinuteMs;
      if d < HourMs {
        assert h == 0;
        assert JsRem(d, HourMs) == d;
      } else {
        MulNonNegative(h, 60);
        DivWithRemainder(h, 60, m);
      }
    }
  }

  /** The player bookings screen's text: "Mm" below an hour; from an hour
      on "Hh Mm", or "Hh" when no minutes are left over. */
  lemma HoursOrMinutesText(d: int)
    ensures 0 <= d < HourMs ==> HoursOrMinutes(d) == IntToString(d / MinuteMs) + "m"
    ensures d >= HourMs && (d / MinuteMs) % 60 != 0 ==>
      HoursOrMinutes(d) == IntToString(d / HourMs) + "h " + IntToString((d / MinuteMs) % 60) + "m"
    ensures d >= HourMs && (d / MinuteMs) % 60 == 0 ==>
      HoursOrMinutes(d) == IntToString(d / HourMs) + "h"
  {
    if d >= 0 {
      SplitDuration(d);
      var h := d / HourMs;
      var m := JsRem(d, HourMs) / MinuteMs;
      if d >= HourMs {
        MulNonNegative(h, 60);
        DivWithRemainder(h, 60, m);
      } else {
        assert h == 0;
      }
    }
  }

  /** Both screens show the same hours and minutes for a booking that lasts
      at least an hour, except that on the full hour one prints "0m" and the
      other leaves the minutes out; below an hour both print the minutes. */
  lemma FormatsAgree(d: int)
    requires d >= 0
    ensures d < HourMs ==> HoursAndMinutes(d) == HoursOrMinutes(d)
    ensures d >= HourMs && JsRem(d, HourMs) / MinuteMs > 0 ==> HoursAndMinutes(d) == HoursOrMinutes(d)
    ensures d >= HourMs && JsRem(d, HourMs) / MinuteMs == 0 ==> HoursAndMinutes(d) == HoursOrMinutes(d) + " 0m"
  {
    SplitDuration(d);
    var h := d / HourMs;
    var m := JsRem(d, HourMs) / MinuteMs;
    var total := d / MinuteMs;
    assert total == h * 60 + m;
    if d < HourMs {
      assert h == 0;
    } else {
      assert h >= 1;
      DivWithRemainder(h, 60, m);
      assert total / 60 == h;
      assert total % 60 == m;
    }
  }
}
