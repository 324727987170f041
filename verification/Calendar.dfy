/** Days and billed months. */
module Calendar {
  datatype Date = Date(year: nat, month: nat, day: nat)

  predicate Leap(year: nat) {
    year % 4 == 0 && (year % 100 != 0 || year % 400 == 0)
  }

  /** `calendar.monthrange(year, month)[1]`. */
  function DaysIn(year: nat, month: nat): (days: nat)
    ensures 28 <= days <= 31
  {
    if month == 2 then (if Leap(year) then 29 else 28)
    else if month == 4 || month == 6 || month == 9 || month == 11 then 30
    else 31
  }

  predicate ValidDate(d: Date) {
    1 <= d.year <= 9999 && 1 <= d.month <= 12 && 1 <= d.day <= DaysIn(d.year, d.month)
  }

  /** `a <= b`. */
  predicate NotAfter(a: Date, b: Date) {
    a.year < b.year || (a.year == b.year && (a.month < b.month || (a.month == b.month && a.day <= b.day)))
  }

  /** The leap years from year 1 to year `n`. */
  function LeapYears(n: nat): nat {
    if n == 0 then 0 else LeapYears(n - 1) + if DaysIn(n, 2) == 29 then 1 else 0
  }

  /** The Gregorian rule, counted: every fourth year, less every hundredth, plus every four
      hundredth. */
  lemma {:induction false} LeapYearsAre(n: nat)
    ensures LeapYears(n) == n / 4 - n / 100 + n / 400
  {
    if n > 0 {
      LeapYearsAre(n - 1);
      var fours := QuotientStep(n, 4);
      var hundreds := QuotientStep(n, 100);
      var fourHundreds := QuotientStep(n, 400);
      OneYear(n, fours, hundreds, fourHundreds);
    }
  }

  lemma OneYear(n: nat, fours: bool, hundreds: bool, fourHundreds: bool)
    requires (fours <==> n % 4 == 0) && (hundreds <==> n % 100 == 0) && (fourHundreds <==> n % 400 == 0)
    ensures DaysIn(n, 2) == 29 <==> fours && (!hundreds || fourHundreds)
    ensures (fourHundreds ==> hundreds) && (hundreds ==> fours)
  {
    if hundreds {
      EveryHundredth(n);
    }
    if fourHundreds {
      EveryFourHundredth(n);
    }
  }

  lemma EveryHundredth(n: nat)
    requires n % 100 == 0
    ensures n % 4 == 0
  {
    FourTimes(25 * (n / 100));
  }

  lemma FourTimes(k: nat)
    ensures 4 * k % 4 == 0
  {
  }

  lemma EveryFourHundredth(n: nat)
    requires n % 400 == 0
    ensures n % 100 == 0
  {
    var f := n / 400;
    assert n == 100 * (4 * f);
  }

  lemma QuotientStep(n: nat, k: nat) returns (divides: bool)
    requires n > 0 && (k == 4 || k == 100 || k == 400)
    ensures divides <==> n % k == 0
    ensures n / k == (n - 1) / k + if divides then 1 else 0
  {
    divides := n % k == 0;
  }

  function DaysBefore(year: nat, month: nat): nat {
    if month <= 1 then 0 else DaysBefore(year, month - 1) + DaysIn(year, month - 1)
  }

  /** Where each month begins in its year, and how long the year is. */
  lemma MonthsAddUp(year: nat)
    ensures var leap := DaysIn(year, 2) - 28;
            && DaysBefore(year, 2) == 31 && DaysBefore(year, 3) == 59 + leap && DaysBefore(year, 4) == 90 + leap
            && DaysBefore(year, 5) == 120 + leap && DaysBefore(year, 6) == 151 + leap
            && DaysBefore(year, 7) == 181 + leap && DaysBefore(year, 8) == 212 + leap
            && DaysBefore(year, 9) == 243 + leap && DaysBefore(year, 10) == 273 + leap
            && DaysBefore(year, 11) == 304 + leap && DaysBefore(year, 12) == 334 + leap
            && DaysBefore(year, 13) == 365 + leap && 0 <= leap <= 1
  {
  }
}
