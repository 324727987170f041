/** What a month costs when its days look alike, and what the backup setting changes. */
module BillingShapes {
  import opened Sequences
  import opened Calendar
  import opened Decimals
  import opened Rates
  import opened BillingLaws

  /******* The same shape on every measured day *******/

  function OnDay(shape: seq<Row>, day: Date): (rows: seq<Row>)
    ensures |rows| == |shape|
    ensures forall i :: 0 <= i < |rows| ==> rows[i] == shape[i].(takenOn := day)
  {
    seq(|shape|, i requires 0 <= i < |shape| => shape[i].(takenOn := day))
  }

  /** The rows captured when the projects look like `shape` on each of the days. */
  function EveryDay(shape: seq<Row>, days: seq<Date>): seq<Row> {
    if days == [] then [] else EveryDay(shape, days[..|days| - 1]) + OnDay(shape, days[|days| - 1])
  }

  lemma {:induction false} OnDaySame(shape: seq<Row>, day: Date, off: set<string>, r: Resource)
    ensures UnitDays(OnDay(shape, day), off, r) == UnitDays(shape, off, r)
  {
    if shape != [] {
      assert OnDay(shape, day)[..|shape| - 1] == OnDay(shape[..|shape| - 1], day);
      OnDaySame(shape[..|shape| - 1], day, off, r);
    }
  }

  lemma EveryDayAppend(shape: seq<Row>, days: seq<Date>, off: set<string>, r: Resource)
    requires days != []
    ensures UnitDays(EveryDay(shape, days), off, r)
              == UnitDays(EveryDay(shape, days[..|days| - 1]), off, r) + UnitDays(shape, off, r)
  {
    OnDaySame(shape, days[|days| - 1], off, r);
    UnitDaysAppend(EveryDay(shape, days[..|days| - 1]), OnDay(shape, days[|days| - 1]), off, r);
  }

  lemma {:induction false} EveryDayUnits(shape: seq<Row>, days: seq<Date>, off: set<string>, r: Resource, u: nat)
    requires u == UnitDays(shape, off, r)
    ensures UnitDays(EveryDay(shape, days), off, r) == u * |days|
  {
    if days != [] {
      EveryDayUnits(shape, days[..|days| - 1], off, r, u);
      EveryDayAppend(shape, days, off, r);
      MulSum(u, |days| - 1, 1);
    }
  }

  lemma {:induction false} EveryDayMembers(shape: seq<Row>, days: seq<Date>)
    requires shape != [] && days != []
    ensures Domains(EveryDay(shape, days)) == Domains(shape)
    ensures Days(EveryDay(shape, days)) == set i | 0 <= i < |days| :: days[i]
  {
    var before, last := days[..|days| - 1], days[|days| - 1];
    assert forall i :: 0 <= i < |before| ==> before[i] == days[i];
    OneDayMembers(shape, last);
    MembersAppend(EveryDay(shape, before), OnDay(shape, last));
    if before == [] {
      assert EveryDay(shape, before) == [];
    } else {
      EveryDayMembers(shape, before);
    }
    forall d | d in (set i | 0 <= i < |days| :: days[i])
      ensures d in Days(EveryDay(shape, before)) + {last}
    {
      var i :| 0 <= i < |days| && days[i] == d;
      if i < |before| {
        assert before[i] == d;
      }
    }
  }

  lemma OneDayMembers(shape: seq<Row>, day: Date)
    requires shape != []
    ensures Domains(OnDay(shape, day)) == Domains(shape) && Days(OnDay(shape, day)) == {day}
  {
    var rows := OnDay(shape, day);
    assert rows[0].takenOn == day;
    assert forall i :: 0 <= i < |shape| ==> rows[i].domain == shape[i].domain;
  }

  lemma MembersAppend(a: seq<Row>, b: seq<Row>)
    ensures Domains(a + b) == Domains(a) + Domains(b) && Days(a + b) == Days(a) + Days(b)
  {
    var c := a + b;
    assert forall i :: 0 <= i < |a| ==> c[i] == a[i];
    assert forall i :: 0 <= i < |b| ==> c[|a| + i] == b[i];
    forall i | 0 <= i < |a|
      ensures a[i].domain in Domains(c) && a[i].takenOn in Days(c)
    {
      assert c[i] == a[i];
    }
    forall i | 0 <= i < |b|
      ensures b[i].domain in Domains(c) && b[i].takenOn in Days(c)
    {
      assert c[|a| + i] == b[i];
    }
  }

  lemma {:induction false} DistinctCount(days: seq<Date>)
    requires Distinct(days)
    ensures |set i | 0 <= i < |days| :: days[i]| == |days|
  {
    if days != [] {
      var before, last := days[..|days| - 1], days[|days| - 1];
      DistinctCount(before);
      assert forall i :: 0 <= i < |before| ==> before[i] == days[i];
      var all, some := set i | 0 <= i < |days| :: days[i], set i | 0 <= i < |before| :: before[i];
      assert last !in some;
      assert all == some + {last};
    }
  }

  /** A month is charged in full: when the same shape is held on every measured day, any number
      of days costs what one day does, line by line, and the bill still says how many there were. */
  lemma DaysMeasureAndDoNotDivide(shape: seq<Row>, days: seq<Date>, settings: Settings, rates: Prices)
    requires shape != [] && days != [] && Distinct(days)
    requires forall r :: UnitDays(shape, Uncounted(Domains(shape), settings), r) * |days| < SAFE
    ensures var month, day := BillWith(EveryDay(shape, days), settings, rates),
                              BillWith(OnDay(shape, days[0]), settings, rates);
            && SameCharges(month.lines, day.lines) && month.total == day.total
            && month.days == |days| && day.days == 1
  {
    EveryDayMembers(shape, days);
    OneDayMembers(shape, days[0]);
    DistinctCount(days);
    var off := Uncounted(Domains(shape), settings);
    var month, day := Held(EveryDay(shape, days), off), Held(OnDay(shape, days[0]), off);
    forall r
      ensures (month(r) > 0 <==> day(r) > 0) && Average(month(r), |days|) == Average(day(r), 1)
    {
      SameHeld(shape, days, off, r);
    }
    SameAverages(SORTED, month, |days|, day, 1, rates);
    SameTotal(LinesOf(SORTED, month, |days|, rates), LinesOf(SORTED, day, 1, rates));
  }

  lemma SameHeld(shape: seq<Row>, days: seq<Date>, off: set<string>, r: Resource)
    requires days != [] && UnitDays(shape, off, r) * |days| < SAFE
    ensures var month, day := UnitDays(EveryDay(shape, days), off, r), UnitDays(OnDay(shape, days[0]), off, r);
            (month > 0 <==> day > 0) && Average(month, |days|) == Average(day, 1)
  {
    var u := UnitDays(shape, off, r);
    EveryDayUnits(shape, days, off, r, u);
    OnDaySame(shape, days[0], off, r);
    SameAverage(|days|, u);
  }

  lemma SameAverage(n: nat, u: nat)
    requires n > 0 && u * n < SAFE
    ensures u * n >= u && (u * n > 0 <==> u > 0)
    ensures Average(u * n, n) == Average(u, 1)
  {
    MulLeq(u, 1, n);
    assert u == 0 ==> u * n == 0;
    AverageIsExact(u * n, n);
    AverageIsExact(u, 1);
    SameRounding(n, u);
  }

  lemma SameRounding(n: nat, u: nat)
    requires n > 0
    ensures u * n >= 0 && HalfUp(100 * (u * n), 1024 * n) == HalfUp(100 * u, 1024)
  {
    MulLeq(u, 0, n);
    HalfUpScales(100 * u, 1024, n);
    assert n * (100 * u) == 100 * (u * n) && n * 1024 == 1024 * n;
  }

  /******* The backup setting *******/

  /** The backups of one account's rows, in 1/1024. */
  function BackupDays(rows: seq<Row>, domain: string): nat {
    if rows == [] then 0
    else BackupDays(rows[..|rows| - 1], domain) +
         if rows[|rows| - 1].domain == domain then 1024 * rows[|rows| - 1].backupGib else 0
  }

  lemma {:induction false} OffTakesBackups(rows: seq<Row>, off: set<string>, domain: string, r: Resource)
    requires domain !in off
    ensures UnitDays(rows, off, r) == UnitDays(rows, off + {domain}, r)
              + if r == SnapshotGb then BackupDays(rows, domain) else 0
  {
    if rows != [] {
      OffTakesBackups(rows[..|rows| - 1], off, domain, r);
    }
  }

  /** Switching an account's backups off takes exactly that account's scheduled backups off the
      snapshot line; every other resource, and every other account's share, stays as it was. */
  lemma SwitchTakesBackupsOff(rows: seq<Row>, settings: Settings, domain: string, r: Resource)
    requires domain != "" && (domain in settings ==> settings[domain])
    ensures var on, off := Uncounted(Domains(rows), settings), Uncounted(Domains(rows), settings[domain := false]);
            && UnitDays(rows, on, r) == UnitDays(rows, off, r)
                 + (if r == SnapshotGb then BackupDays(rows, domain) else 0)
            && (domain !in Domains(rows) ==>
                  forall rates :: BillWith(rows, settings[domain := false], rates) == BillWith(rows, settings, rates))
  {
    var on, off := Uncounted(Domains(rows), settings), Uncounted(Domains(rows), settings[domain := false]);
    OffTakesBackups(rows, on, domain, r);
    if domain in Domains(rows) {
      assert off == on + {domain};
    } else {
      assert off == on;
      NoBackups(rows, domain);
    }
  }

  lemma {:induction false} NoBackups(rows: seq<Row>, domain: string)
    requires domain !in Domains(rows)
    ensures BackupDays(rows, domain) == 0
  {
    if rows != [] {
      PartOfTheWhole(rows[..|rows| - 1], rows);
      assert rows[|rows| - 1].domain in Domains(rows);
      NoBackups(rows[..|rows| - 1], domain);
    }
  }
}
