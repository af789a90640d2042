/**
 * The Spanish month abbreviations the dashboard components key their
 * dates by ("Ene 25", "Feb 25", ...) and the Gregorian month lengths that
 * JavaScript's `Date` uses.
 */
module Months {
  import opened Text

  function Abbrevs(): (r: seq<string>)
    ensures |r| == 12
  {
    AbbrevList
  }

  const AbbrevList: seq<string> := ["Ene", "Feb", "Mar", "Abr", "May", "Jun", "Jul", "Ago", "Sep", "Oct", "Nov", "Dic"]

  /**
   * The `ordenMeses` table: 1..12 for a known abbreviation, 0 for anything
   * else (the value `undefined` that `|| default` then replaces).
   */
  function MonthNumber(abbr: string): (n: nat)
    ensures n <= 12
    ensures n == 0 <==> abbr !in Abbrevs()
    ensures n > 0 ==> Abbrevs()[n - 1] == abbr
  {
    if abbr == "Ene" then 1 else if abbr == "Feb" then 2 else if abbr == "Mar" then 3
    else if abbr == "Abr" then 4 else if abbr == "May" then 5 else if abbr == "Jun" then 6
    else if abbr == "Jul" then 7 else if abbr == "Ago" then 8 else if abbr == "Sep" then 9
    else if abbr == "Oct" then 10 else if abbr == "Nov" then 11 else if abbr == "Dic" then 12
    else 0
  }

  /** Every abbreviation is read back as its own month number. */
  lemma MonthNumberOfAbbrev(m: nat)
    requires 1 <= m <= 12
    ensures MonthNumber(Abbrevs()[m - 1]) == m
  {
    var a := Abbrevs()[m - 1];
    assert a in Abbrevs();
  }

  /** The abbreviation that opens a date label such as "Feb 25": the text before the first space. */
  function LabelMonth(fecha: string): string {
    Split(fecha, ' ')[0]
  }

  predicate LeapYear(y: int) {
    (y % 4 == 0 && y % 100 != 0) || y % 400 == 0
  }

  /** The number of days of month `m` (1..12) of year `y` in the Gregorian calendar. */
  function DaysInMonth(y: int, m: nat): (d: nat)
    requires 1 <= m <= 12
    ensures 28 <= d <= 31
    ensures d == 29 <==> m == 2 && LeapYear(y)
  {
    if m == 2 then (if LeapYear(y) then 29 else 28)
    else if m == 4 || m == 6 || m == 9 || m == 11 then 30
    else 31
  }
}
