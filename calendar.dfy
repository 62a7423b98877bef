/** Calendar dates as the settlement form reads them, and the elapsed time
    between admission and termination (calcularTempoTrabalho). */
module Calendar {

  /** A calendar date. `month` is 1-based (January is 1), unlike the 0-based
      month index of the JavaScript Date the component works with. */
  datatype Date = Date(year: int, month: int, day: int)

  /** The value of an empty date field; it is not a valid date. */
  const EmptyDate := Date(0, 0, 0)

  /** The Gregorian leap-year rule (proleptic, astronomical year numbering). */
  predicate IsLeapYear(y: int) {
    y % 4 == 0 && (y % 100 != 0 || y % 400 == 0)
  }

  function DaysInMonth(y: int, m: int): (n: int)
    requires 1 <= m <= 12
    ensures 28 <= n <= 31
  {
    if m == 2 then (if IsLeapYear(y) then 29 else 28)
    else if m == 4 || m == 6 || m == 9 || m == 11 then 30
    else 31
  }

  /** A date string that parses: a real day of a real month. */
  predicate ValidDate(d: Date) {
    1 <= d.month <= 12 && 1 <= d.day <= DaysInMonth(d.year, d.month)
  }

  /** The JavaScript `Date(year, monthIndex, day)` constructor reads a year
      from 0 to 99 as 1900 to 1999. */
  function JsYear(y: int): int {
    if 0 <= y <= 99 then 1900 + y else y
  }

  /** `new Date(y, monthIndex, 0).getDate()`: day 0 of the 0-based month
      `monthIndex` is the last day of the month before it, so this is the
      length of the 1-based month `monthIndex`; for index 0 it is December
      of the previous year. */
  function DayZero(y: int, monthIndex: int): (n: int)
    requires 0 <= monthIndex <= 12
    ensures 28 <= n <= 31
    ensures monthIndex == 0 ==> n == 31
    ensures monthIndex > 0 && y != 0 ==> n == DaysInMonth(y, monthIndex)
  {
    if monthIndex == 0 then 31 else DaysInMonth(JsYear(y), monthIndex)
  }

  /** `a` is on or before `b`. */
  predicate NotAfter(a: Date, b: Date) {
    a.year < b.year
    || (a.year == b.year && a.month < b.month)
    || (a.year == b.year && a.month == b.month && a.day <= b.day)
  }

  /** Time worked: whole months and a remainder of days. */
  datatype Tempo = Tempo(meses: int, dias: int)

  /** Calendar subtraction of `admissao` from `demissao`: a negative day
      difference borrows one month and the length of the month before the
      termination month; a negative month difference borrows one year. */
  function TempoTrabalho(admissao: Date, demissao: Date): (t: Tempo)
    requires ValidDate(admissao) && ValidDate(demissao)
    ensures t.meses == 12 * (demissao.year - admissao.year) + (demissao.month - admissao.month)
                       - (if demissao.day < admissao.day then 1 else 0)
    ensures t.dias == demissao.day - admissao.day
                      + (if demissao.day < admissao.day then DayZero(demissao.year, demissao.month - 1) else 0)
    ensures -2 <= t.dias <= 30
    ensures t.dias < 0 ==> demissao.day < admissao.day
    ensures NotAfter(admissao, demissao) ==> t.meses >= 0
  {
    var anos := demissao.year - admissao.year;
    var meses := demissao.month - admissao.month;
    var dias := demissao.day - admissao.day;
    var (meses, dias) :=
      if dias < 0 then (meses - 1, dias + DayZero(demissao.year, demissao.month - 1))
      else (meses, dias);
    var (anos, meses) := if meses < 0 then (anos - 1, meses + 12) else (anos, meses);
    Tempo(anos * 12 + meses, dias)
  }

  /** The day remainder can stay negative after the borrow: from 31 January
      to 1 March of a common year it is 1 - 31 + 28 = -2. */
  lemma DiasPodemSerNegativos()
    ensures exists a: Date, d: Date ::
      ValidDate(a) && ValidDate(d) && NotAfter(a, d) && TempoTrabalho(a, d).dias < 0
  {
    var a, d := Date(2023, 1, 31), Date(2023, 3, 1);
    assert TempoTrabalho(a, d) == Tempo(1, -2);
  }

  /** From 10 January 2023 to 5 March 2024 the borrow takes the 29 days of
      February 2024: 13 months and 24 days. */
  lemma TempoTrabalhoAnoBissexto()
    ensures ValidDate(Date(2023, 1, 10)) && ValidDate(Date(2024, 3, 5))
    ensures TempoTrabalho(Date(2023, 1, 10), Date(2024, 3, 5)) == Tempo(13, 24)
  {
  }
}
