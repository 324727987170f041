/** Billed months and the labels they are stored under. */
module Periods {
  import opened Calendar
  import opened Numbering

  /** `f'{month:02d}'`. */
  function TwoDigits(m: nat): string {
    if m < 10 then "0" + Digits(m) else Digits(m)
  }

  /** `f'{year:04d}-{month:02d}'`. */
  function Label(year: nat, month: nat): string {
    Padded(Digits(year)) + "-" + TwoDigits(month)
  }

  /** `month_bounds`. */
  function First(year: nat, month: nat): Date {
    Date(year, month, 1)
  }

  function Last(year: nat, month: nat): Date {
    Date(year, month, DaysIn(year, month))
  }

  /** `YYYY-MM`: four digits that read as the year, a dash, and two that read as the month. */
  lemma LabelReads(year: nat, month: nat)
    requires year <= 9999 && 1 <= month <= 12
    ensures var printed := Label(year, month);
            && |printed| == 7 && printed[4] == '-'
            && (forall i :: 0 <= i < 7 && i != 4 ==> '0' <= printed[i] <= '9')
            && Value(printed[..4]) == year && Value(printed[5..]) == month
  {
    YearReads(year);
    MonthReads(month);
    Joined(Padded(Digits(year)), TwoDigits(month));
  }

  lemma YearReads(year: nat)
    requires year <= 9999
    ensures var y := Padded(Digits(year));
            |y| == 4 && (forall i :: 0 <= i < |y| ==> '0' <= y[i] <= '9') && Value(y) == year
  {
    ValueOfDigits(year);
    ValueOfPadded(Digits(year));
    FourAtLeast(Digits(year));
    DigitsAreFew(year);
  }

  lemma MonthReads(month: nat)
    requires 1 <= month <= 12
    ensures var m := TwoDigits(month);
            |m| == 2 && (forall i :: 0 <= i < |m| ==> '0' <= m[i] <= '9') && Value(m) == month
  {
    ValueOfDigits(month);
    ValueOfZero(Digits(month));
    TwoDigitsAreTwo(month);
  }

  lemma Joined(y: string, m: string)
    requires |y| == 4 && |m| == 2
    ensures var s := y + "-" + m;
            && |s| == 7 && s[4] == '-' && s[..4] == y && s[5..] == m
            && (forall i :: 0 <= i < 4 ==> s[i] == y[i]) && (forall i :: 5 <= i < 7 ==> s[i] == m[i - 5])
  {
  }

  lemma TwoDigitsAreTwo(month: nat)
    requires 1 <= month <= 12
    ensures |TwoDigits(month)| == 2
  {
    if month >= 10 {
      assert |Digits(month / 10)| == 1;
    }
  }
}
