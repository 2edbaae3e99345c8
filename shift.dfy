/**
 * Shift resolution (`getTurnoActual`, `getFechaTurno`): which of the two
 * twelve-hour shifts an hour belongs to, and the calendar day the shift is
 * attributed to, written as the ISO date string the records are keyed by.
 * The hour and the calendar date are separate inputs, as in the source,
 * where the hour is the local `getHours()` and the date comes from the UTC
 * `toISOString()`.
 */
module Shift {
  import opened Types
  import opened Text

  type Hour = h: int | 0 <= h < 24

  datatype Date = Date(year: int, month: int, day: int)

  predicate LeapYear(y: int) {
    (y % 4 == 0 && y % 100 != 0) || y % 400 == 0
  }

  function DaysInMonth(y: int, m: int): int
    requires 1 <= m <= 12
  {
    if m == 2 then (if LeapYear(y) then 29 else 28)
    else if m == 4 || m == 6 || m == 9 || m == 11 then 30
    else 31
  }

  predicate ValidDate(d: Date) {
    1 <= d.month <= 12 && 1 <= d.day <= DaysInMonth(d.year, d.month)
  }

  function NextDay(d: Date): (r: Date)
    requires ValidDate(d)
    ensures ValidDate(r) && r != d
  {
    if d.day < DaysInMonth(d.year, d.month) then d.(day := d.day + 1)
    else if d.month < 12 then Date(d.year, d.month + 1, 1)
    else Date(d.year + 1, 1, 1)
  }

  /** `setDate(getDate() - 1)`: the day before, rolling back over month and year ends. */
  function PrevDay(d: Date): (r: Date)
    requires ValidDate(d)
    ensures ValidDate(r) && NextDay(r) == d
  {
    if d.day > 1 then d.(day := d.day - 1)
    else if d.month > 1 then Date(d.year, d.month - 1, DaysInMonth(d.year, d.month - 1))
    else Date(d.year - 1, 12, 31)
  }

  lemma PrevDayOfNextDay(d: Date)
    requires ValidDate(d)
    ensures PrevDay(NextDay(d)) == d
  {
  }

  /** The year as `toISOString` writes it: four digits, or a sign and six digits outside 0..9999. */
  function YearString(y: int): string {
    if 0 <= y <= 9999 then Pad(y, 4)
    else if y < 0 then "-" + Pad(-y, 6)
    else "+" + Pad(y, 6)
  }

  /** `toISOString().split("T")[0]`: the date part `YYYY-MM-DD`. */
  function IsoDate(d: Date): string
    requires ValidDate(d)
  {
    YearString(d.year) + "-" + Pad(d.month, 2) + "-" + Pad(d.day, 2)
  }

  /** `getTurnoActual`: the day shift is the half-open interval of hours [7, 19). */
  function TurnoActual(hora: Hour): (t: Turno)
    ensures t == Dia <==> 7 <= hora < 19
    ensures t == Noche <==> hora < 7 || 19 <= hora
  {
    if hora >= 7 && hora < 19 then Dia else Noche
  }

  /** The calendar day a shift belongs to: before 07:00 the night shift of the previous day is still open. */
  function ShiftDay(hora: Hour, hoy: Date): (r: Date)
    requires ValidDate(hoy)
    ensures ValidDate(r)
    ensures hora < 7 <==> NextDay(r) == hoy
    ensures hora >= 7 <==> r == hoy
  {
    if hora < 7 then PrevDay(hoy) else hoy
  }

  /** `getFechaTurno`: the shift's calendar day as an ISO date string. */
  function FechaTurno(hora: Hour, hoy: Date): string
    requires ValidDate(hoy)
  {
    IsoDate(ShiftDay(hora, hoy))
  }

  lemma TurnoBoundaries()
    ensures TurnoActual(7) == Dia && TurnoActual(18) == Dia
    ensures TurnoActual(19) == Noche && TurnoActual(6) == Noche
    ensures TurnoActual(0) == Noche && TurnoActual(23) == Noche
  {
  }

  lemma {:induction false} DecimalStringShort(n: nat)
    requires n < 100
    ensures |DecimalString(n)| == (if n < 10 then 1 else 2)
  {
    if n >= 10 {
      assert DecimalString(n) == DecimalString(n / 10) + [('0' as int + n % 10) as char];
    }
  }

  lemma PadTwo(n: nat)
    requires n < 100
    ensures |Pad(n, 2)| == 2
  {
    DecimalStringShort(n);
  }

  lemma YearStringInjective(a: int, b: int)
    requires YearString(a) == YearString(b)
    ensures a == b
  {
    var s := YearString(a);
    if 0 <= a <= 9999 {
      PadValue(a, 4);
      assert IsDigit(s[0]);
      assert 0 <= b <= 9999;
      PadValue(b, 4);
    } else {
      var sa := if a < 0 then -a else a;
      var sb := if b < 0 then -b else b;
      assert s[0] == '-' || s[0] == '+';
      assert !(0 <= b <= 9999);
      assert (a < 0) == (b < 0);
      assert s[1..] == Pad(sa, 6) && s[1..] == Pad(sb, 6);
      PadValue(sa, 6);
      PadValue(sb, 6);
    }
  }

  /** The three fields of an ISO date sit at fixed offsets from its end. */
  lemma IsoDateParts(d: Date)
    requires ValidDate(d)
    ensures var s := IsoDate(d); var n := |s|;
      && n >= 6 && s[..n - 6] == YearString(d.year)
      && s[n - 5..n - 3] == Pad(d.month, 2) && s[n - 2..] == Pad(d.day, 2)
  {
    PadTwo(d.month); PadTwo(d.day);
    var s := IsoDate(d);
    assert s == YearString(d.year) + "-" + Pad(d.month, 2) + "-" + Pad(d.day, 2);
  }

  /** Different calendar days have different ISO date strings, so the string identifies the day. */
  lemma IsoDateInjective(a: Date, b: Date)
    requires ValidDate(a) && ValidDate(b)
    requires IsoDate(a) == IsoDate(b)
    ensures a == b
  {
    IsoDateParts(a);
    IsoDateParts(b);
    var s := IsoDate(a);
    var n := |s|;
    assert YearString(a.year) == s[..n - 6] == YearString(b.year);
    assert Pad(a.month, 2) == s[n - 5..n - 3] == Pad(b.month, 2);
    assert Pad(a.day, 2) == s[n - 2..] == Pad(b.day, 2);
    YearStringInjective(a.year, b.year);
    PadValue(a.month, 2); PadValue(b.month, 2);
    PadValue(a.day, 2); PadValue(b.day, 2);
  }

  /** The shift date is today's date exactly from 07:00 on, and yesterday's before. */
  lemma FechaTurnoRule(hora: Hour, hoy: Date)
    requires ValidDate(hoy)
    ensures hora < 7 ==> FechaTurno(hora, hoy) == IsoDate(PrevDay(hoy))
    ensures FechaTurno(hora, hoy) == IsoDate(hoy) <==> hora >= 7
  {
    if hora < 7 && FechaTurno(hora, hoy) == IsoDate(hoy) {
      IsoDateInjective(PrevDay(hoy), hoy);
      assert false;
    }
  }

  /**
   * When hour and date come from the same clock, a night shift started at 19:00 or later
   * on day D and observed before 07:00 on day D+1 resolves to the same shift and shift date.
   */
  lemma NightShiftSameKey(d: Date, horaIngreso: Hour, horaConsulta: Hour)
    requires ValidDate(d)
    requires horaIngreso >= 19 && horaConsulta < 7
    ensures TurnoActual(horaIngreso) == Noche && TurnoActual(horaConsulta) == Noche
    ensures FechaTurno(horaConsulta, NextDay(d)) == FechaTurno(horaIngreso, d)
  {
    PrevDayOfNextDay(d);
  }

  /**
   * The two inputs come from different clocks. When the date input has already turned
   * to the next day at an evening hour (a zone west of UTC after 19:00 local), the
   * night shift's evening hours and its early-morning hours resolve different shift dates.
   */
  lemma DateAheadSplitsNightShift(d: Date, horaIngreso: Hour, horaConsulta: Hour)
    requires ValidDate(d)
    requires horaIngreso >= 19 && horaConsulta < 7
    ensures FechaTurno(horaIngreso, NextDay(d)) != FechaTurno(horaConsulta, NextDay(d))
  {
    FechaTurnoRule(horaConsulta, NextDay(d));
  }
}
