/** The monthly history of an account (apps/platform_admin/billing_views.py and
    apps/billing/views.py): measurements in buckets by label, the last months priced anew. */
module History {
  import opened Sequences
  import opened Calendar
  import opened Numbering
  import opened Periods
  import opened Decimals
  import opened Rates
  import Ledger

  /******* Labels sort as months do *******/

  /** `a < b`, character by character. */
  predicate Less(a: string, b: string) {
    b != "" && (a == "" || a[0] < b[0] || (a[0] == b[0] && Less(a[1..], b[1..])))
  }

  lemma {:induction false} LessByParts(a: string, b: string, c: string, d: string)
    requires |a| == |b|
    ensures Less(a + c, b + d) <==> Less(a, b) || (a == b && Less(c, d))
  {
    if a == "" {
      assert a + c == c && b + d == d;
    } else {
      LessByParts(a[1..], b[1..], c, d);
      assert (a + c)[1..] == a[1..] + c && (b + d)[1..] == b[1..] + d;
      assert a == [a[0]] + a[1..] && b == [b[0]] + b[1..];
    }
  }

  lemma LessOne(x: char, y: char)
    ensures Less([x], [y]) <==> x < y
  {
    assert [x][1..] == "" && [y][1..] == "";
  }

  /** Exactly so many digits. */
  function Fixed(n: nat, width: nat): (s: string)
    ensures |s| == width
  {
    if width == 0 then "" else Fixed(n / 10, width - 1) + ['0' + (n % 10) as char]
  }

  lemma {:induction false} FixedOrder(n: nat, m: nat, width: nat)
    requires n < Pow10(width) && m < Pow10(width)
    ensures Less(Fixed(n, width), Fixed(m, width)) <==> n < m
    ensures Fixed(n, width) == Fixed(m, width) <==> n == m
  {
    if width > 0 {
      var x, y := '0' + (n % 10) as char, '0' + (m % 10) as char;
      var a, b := Fixed(n / 10, width - 1), Fixed(m / 10, width - 1);
      FixedOrder(n / 10, m / 10, width - 1);
      LessByParts(a, b, [x], [y]);
      LessOne(x, y);
      assert (a + [x])[..width - 1] == a && (b + [y])[..width - 1] == b;
      assert (a + [x])[width - 1] == x && (b + [y])[width - 1] == y;
    }
  }

  lemma {:induction false} ZeroInFront(n: nat, width: nat)
    requires n < Pow10(width)
    ensures "0" + Fixed(n, width) == Fixed(n, width + 1)
  {
    if width == 0 {
      assert Fixed(0, 1) == Fixed(0, 0) + "0";
    } else {
      ZeroInFront(n / 10, width - 1);
      assert "0" + Fixed(n, width) == ("0" + Fixed(n / 10, width - 1)) + ['0' + (n % 10) as char];
    }
  }

  /** A number's own digits are the fixed ones of its own width. */
  lemma {:induction false} DigitsAreFixed(n: nat, most: nat) returns (width: nat)
    requires 1 <= most && n < Pow10(most)
    ensures 1 <= width <= most && n < Pow10(width) && Digits(n) == Fixed(n, width)
  {
    if n < 10 {
      width := 1;
      assert Fixed(n, 1) == Fixed(n / 10, 0) + ['0' + n as char];
    } else {
      width := DigitsAreFixed(n / 10, most - 1);
      width := width + 1;
    }
  }

  lemma {:induction false} PaddedToFour(n: nat, width: nat)
    requires width <= 4 && n < Pow10(width)
    ensures Padded(Fixed(n, width)) == Fixed(n, 4)
    decreases 4 - width
  {
    if width < 4 {
      ZeroInFront(n, width);
      PaddedToFour(n, width + 1);
    }
  }

  lemma YearIsFixed(year: nat)
    requires year <= 9999
    ensures Padded(Digits(year)) == Fixed(year, 4)
  {
    Powers();
    var width := DigitsAreFixed(year, 4);
    PaddedToFour(year, width);
  }

  lemma MonthIsFixed(month: nat)
    requires month < 100
    ensures TwoDigits(month) == Fixed(month, 2)
  {
    Powers();
    var width := DigitsAreFixed(month, 2);
    if month < 10 {
      width := DigitsAreFixed(month, 1);
      ZeroInFront(month, 1);
    }
  }

  lemma Powers()
    ensures Pow10(1) == 10 && Pow10(2) == 100 && Pow10(4) == 10000
  {
    assert Pow10(3) == 1000;
  }

  predicate Earlier(year: nat, month: nat, year': nat, month': nat) {
    year < year' || (year == year' && month < month')
  }

  /** The order of the labels, as strings, is the order of the months; and a label names one
      month. */
  lemma LabelsAreChronological(year: nat, month: nat, year': nat, month': nat)
    requires year <= 9999 && year' <= 9999 && month <= 12 && month' <= 12
    ensures Less(Label(year, month), Label(year', month')) <==> Earlier(year, month, year', month')
    ensures Label(year, month) == Label(year', month') <==> year == year' && month == month'
  {
    var a, b := Padded(Digits(year)), Padded(Digits(year'));
    var c, d := TwoDigits(month), TwoDigits(month');
    YearIsFixed(year);
    YearIsFixed(year');
    MonthIsFixed(month);
    MonthIsFixed(month');
    Powers();
    FixedOrder(year, year', 4);
    FixedOrder(month, month', 2);
    LessByParts(a + "-", b + "-", c, d);
    LessByParts(a, b, "-", "-");
    LessOne('-', '-');
    assert (a + "-")[..4] == a && (b + "-")[..4] == b;
    assert Label(year, month)[..5] == a + "-" && Label(year', month')[..5] == b + "-";
    assert Label(year, month)[5..] == c && Label(year', month')[5..] == d;
  }

  /******* Sorting labels *******/

  /** `a <= b`. */
  predicate NotLater(a: string, b: string) {
    a == b || Less(a, b)
  }

  lemma {:induction false} LessTotal(a: string, b: string)
    ensures a == b || Less(a, b) || Less(b, a)
    ensures !(Less(a, b) && Less(b, a)) && (a == b ==> !Less(a, b))
  {
    if a != "" && b != "" {
      LessTotal(a[1..], b[1..]);
      assert a == [a[0]] + a[1..] && b == [b[0]] + b[1..];
    }
  }

  lemma {:induction false} LessTransitive(a: string, b: string, c: string)
    requires Less(a, b) && Less(b, c)
    ensures Less(a, c)
  {
    if a != "" && a[0] == b[0] == c[0] {
      LessTransitive(a[1..], b[1..], c[1..]);
    }
  }

  lemma NotLaterIsAnOrder()
    ensures TotalOrder(NotLater)
  {
    forall a, b
      ensures NotLater(a, b) || NotLater(b, a)
    {
      LessTotal(a, b);
    }
    forall a, b, c | NotLater(a, b) && NotLater(b, c)
      ensures NotLater(a, c)
    {
      if a != b && b != c {
        LessTransitive(a, b, c);
      }
    }
  }

  /** Earliest first, without repetition. */
  ghost predicate Increasing(periods: seq<string>) {
    forall i, j :: 0 <= i < j < |periods| ==> Less(periods[i], periods[j])
  }

  lemma SortIncreases(periods: seq<string>)
    requires Distinct(periods)
    ensures Increasing(Sort(periods, NotLater))
    ensures forall p :: p in Sort(periods, NotLater) <==> p in periods
  {
    var sorted := Sort(periods, NotLater);
    NotLaterIsAnOrder();
    SortIsSorted(periods, NotLater);
    SameDistinct(periods, sorted);
    forall p
      ensures p in sorted <==> p in periods
    {
      SameMembers(sorted, periods, p);
    }
  }

  /******* Buckets *******/

  function PeriodOf(row: Row): string {
    Label(row.takenOn.year, row.takenOn.month)
  }

  function OfPeriod(rows: seq<Row>, period: string): seq<Row> {
    if rows == [] then []
    else
      var row := rows[|rows| - 1];
      OfPeriod(rows[..|rows| - 1], period) + if PeriodOf(row) == period then [row] else []
  }

  /** The labels in order of first appearance. */
  function PeriodsOf(rows: seq<Row>): seq<string> {
    if rows == [] then []
    else
      var before, period := PeriodsOf(rows[..|rows| - 1]), PeriodOf(rows[|rows| - 1]);
      if period in before then before else before + [period]
  }

  /** `sorted(buckets.items())[-months:]` */
  function Recent(rows: seq<Row>, months: nat): seq<string> {
    var sorted := Sort(PeriodsOf(rows), NotLater);
    if |sorted| > months then sorted[|sorted| - months..] else sorted
  }

  datatype Entry = Entry(period: string, total: nat, days: nat)

  function EntryOf(period: string, rows: seq<Row>, settings: Settings, rates: Prices): Entry {
    var bill := BillWith(rows, settings, rates);
    Entry(period, bill.total, bill.days)
  }

  function BucketsOf(rows: seq<Row>): map<string, seq<Row>> {
    if rows == [] then map[]
    else
      var before, row := BucketsOf(rows[..|rows| - 1]), rows[|rows| - 1];
      var period := PeriodOf(row);
      if period in before then before[period := before[period] + [row]] else before[period := [row]]
  }

  /** A bucket holds its month's rows, and there is one for each month that has any. */
  lemma {:induction false} BucketIs(rows: seq<Row>, p: string)
    ensures p in BucketsOf(rows) <==> p in PeriodsOf(rows)
    ensures OfPeriod(rows, p) == if p in BucketsOf(rows) then BucketsOf(rows)[p] else []
  {
    if rows != [] {
      BucketIs(rows[..|rows| - 1], p);
      BucketIs(rows[..|rows| - 1], PeriodOf(rows[|rows| - 1]));
    }
  }

  /** `setdefault(period, []).append(row)`, row by row. */
  method Bucket(rows: seq<Row>) returns (order: seq<string>, buckets: map<string, seq<Row>>)
    ensures order == PeriodsOf(rows) && buckets == BucketsOf(rows)
  {
    order, buckets := [], map[];
    var i := 0;
    while i < |rows|
      invariant 0 <= i <= |rows|
      invariant order == PeriodsOf(rows[..i]) && buckets == BucketsOf(rows[..i])
    {
      assert rows[..i + 1][..i] == rows[..i];
      var period := PeriodOf(rows[i]);
      BucketIs(rows[..i], period);
      if period in buckets {
        buckets := buckets[period := buckets[period] + [rows[i]]];
      } else {
        order := order + [period];
        buckets := buckets[period := [rows[i]]];
      }
      i := i + 1;
    }
    assert rows[..|rows|] == rows;
  }

  /** `_history` */
  method History(rows: seq<Row>, settings: Settings, rates: Prices, months: nat) returns (history: seq<Entry>)
    ensures history == EntriesOf(Recent(rows, months), rows, settings, rates)
  {
    var order, buckets := Bucket(rows);
    LatestMonthsInOrder(rows, months);
    var recent := Recent(rows, months);
    forall p | p in recent
      ensures p in buckets && buckets[p] == OfPeriod(rows, p)
    {
      BucketIs(rows, p);
    }
    history := PriceEach(recent, buckets, rows, settings, rates);
  }

  method PriceEach(periods: seq<string>, buckets: map<string, seq<Row>>, ghost rows: seq<Row>, settings: Settings,
                   rates: Prices)
    returns (history: seq<Entry>)
    requires forall p :: p in periods ==> p in buckets && buckets[p] == OfPeriod(rows, p)
    ensures history == EntriesOf(periods, rows, settings, rates)
  {
    history := [];
    var k := 0;
    while k < |periods|
      invariant 0 <= k <= |periods|
      invariant history == EntriesOf(periods[..k], rows, settings, rates)
    {
      OneMoreEntry(periods, k, rows, settings, rates);
      var entry := Priced(periods[k], buckets[periods[k]], settings, rates);
      history := history + [entry];
      k := k + 1;
    }
    assert periods[..|periods|] == periods;
  }

  method Priced(period: string, rows: seq<Row>, settings: Settings, rates: Prices) returns (entry: Entry)
    ensures entry == EntryOf(period, rows, settings, rates)
  {
    var bill := CostOf(rows, settings, rates);
    entry := Entry(period, bill.total, bill.days);
  }

  lemma OneMoreEntry(periods: seq<string>, k: nat, rows: seq<Row>, settings: Settings, rates: Prices)
    requires k < |periods|
    ensures EntriesOf(periods[..k + 1], rows, settings, rates)
         == EntriesOf(periods[..k], rows, settings, rates)
              + [EntryOf(periods[k], OfPeriod(rows, periods[k]), settings, rates)]
  {
    assert periods[..k + 1][..k] == periods[..k];
  }

  function EntriesOf(periods: seq<string>, rows: seq<Row>, settings: Settings, rates: Prices): seq<Entry> {
    if periods == [] then []
    else
      var last := periods[|periods| - 1];
      EntriesOf(periods[..|periods| - 1], rows, settings, rates) + [EntryOf(last, OfPeriod(rows, last), settings, rates)]
  }

  lemma {:induction false} EntryAt(periods: seq<string>, rows: seq<Row>, settings: Settings, rates: Prices, k: nat)
    requires k < |periods|
    ensures |EntriesOf(periods, rows, settings, rates)| == |periods|
    ensures EntriesOf(periods, rows, settings, rates)[k] == EntryOf(periods[k], OfPeriod(rows, periods[k]), settings, rates)
  {
    EntriesAreAsMany(periods, rows, settings, rates);
    EntriesAreAsMany(periods[..|periods| - 1], rows, settings, rates);
    if k < |periods| - 1 {
      EntryAt(periods[..|periods| - 1], rows, settings, rates, k);
    }
  }

  lemma {:induction false} EntriesAreAsMany(periods: seq<string>, rows: seq<Row>, settings: Settings, rates: Prices)
    ensures |EntriesOf(periods, rows, settings, rates)| == |periods|
  {
    if periods != [] {
      EntriesAreAsMany(periods[..|periods| - 1], rows, settings, rates);
    }
  }

  lemma {:induction false} LabelsDiffer(rows: seq<Row>)
    ensures Distinct(PeriodsOf(rows))
  {
    if rows != [] {
      LabelsDiffer(rows[..|rows| - 1]);
    }
  }

  /** The months shown are the latest ones measured, in order, and as many as were asked for. */
  lemma LatestMonthsInOrder(rows: seq<Row>, months: nat)
    ensures Increasing(Recent(rows, months))
    ensures forall p :: p in Recent(rows, months) ==> p in PeriodsOf(rows)
    ensures forall p, q :: p in PeriodsOf(rows) && p !in Recent(rows, months) && q in Recent(rows, months) ==> Less(p, q)
    ensures |Recent(rows, months)| <= months
    ensures |Recent(rows, months)| < months ==> forall p :: p in PeriodsOf(rows) ==> p in Recent(rows, months)
  {
    LabelsDiffer(rows);
    SortIncreases(PeriodsOf(rows));
    var sorted := Sort(PeriodsOf(rows), NotLater);
    TailOfIncreasing(sorted, if |sorted| > months then |sorted| - months else 0);
  }

  lemma TailOfIncreasing(sorted: seq<string>, cut: nat)
    requires Increasing(sorted) && cut <= |sorted|
    ensures Increasing(sorted[cut..])
    ensures forall p :: p in sorted[cut..] ==> p in sorted
    ensures forall p, q :: p in sorted && p !in sorted[cut..] && q in sorted[cut..] ==> Less(p, q)
  {
    forall i | cut <= i < |sorted|
      ensures sorted[i] in sorted[cut..]
    {
      assert sorted[cut..][i - cut] == sorted[i];
    }
    forall p, q | p in sorted && p !in sorted[cut..] && q in sorted[cut..]
      ensures Less(p, q)
    {
      var i :| 0 <= i < |sorted| && sorted[i] == p;
      var j :| 0 <= j < |sorted[cut..]| && sorted[cut..][j] == q;
      assert q == sorted[cut + j];
    }
  }

  /******* A bucket is a month, and a month is what a bill covers *******/

  /** The rows `_history` asks for. */
  function Scoped(rows: seq<Row>, domain: string): seq<Row> {
    if rows == [] then []
    else
      var row := rows[|rows| - 1];
      Scoped(rows[..|rows| - 1], domain) + if row.domain == domain then [row] else []
  }

  ghost predicate Dated(rows: seq<Row>) {
    forall i :: 0 <= i < |rows| ==> ValidDate(rows[i].takenOn)
  }

  lemma InTheMonth(d: Date, year: nat, month: nat)
    requires ValidDate(d) && 1 <= year <= 9999 && 1 <= month <= 12
    ensures (Label(d.year, d.month) == Label(year, month)) ==
            (NotAfter(First(year, month), d) && NotAfter(d, Last(year, month)))
  {
    LabelsAreChronological(d.year, d.month, year, month);
  }

  lemma {:induction false} BucketIsTheBilledMonth(rows: seq<Row>, domain: string, year: nat, month: nat)
    requires Dated(rows) && 1 <= year <= 9999 && 1 <= month <= 12
    ensures OfPeriod(Scoped(rows, domain), Label(year, month))
         == Ledger.RowsBetween(rows, domain, First(year, month), Last(year, month))
  {
    if rows != [] {
      var before, row := rows[..|rows| - 1], rows[|rows| - 1];
      BucketIsTheBilledMonth(before, domain, year, month);
      InTheMonth(row.takenOn, year, month);
      OneMoreRow(Scoped(before, domain), row, Label(year, month));
    }
  }

  lemma OneMoreRow(rows: seq<Row>, row: Row, period: string)
    ensures OfPeriod(rows + [row], period) == OfPeriod(rows, period) + if PeriodOf(row) == period then [row] else []
    ensures OfPeriod(rows + [], period) == OfPeriod(rows, period)
  {
    assert (rows + [row])[..|rows|] == rows;
    assert rows + [] == rows;
  }

  /** Every entry of the history is the bill of its month: the same rows, from the first day to
      the last, and so the same total and the same number of days as `draft` prices. */
  lemma HistoryIsTheBills(rows: seq<Row>, domain: string, settings: Settings, rates: Prices, months: nat, k: nat)
    returns (year: nat, month: nat)
    requires Dated(rows) && k < |Recent(Scoped(rows, domain), months)|
    ensures 1 <= year <= 9999 && 1 <= month <= 12
    ensures var history := EntriesOf(Recent(Scoped(rows, domain), months), Scoped(rows, domain), settings, rates);
            var bill := BillWith(Ledger.RowsBetween(rows, domain, First(year, month), Last(year, month)), settings, rates);
            k < |history| && history[k] == Entry(Label(year, month), bill.total, bill.days)
  {
    var scoped := Scoped(rows, domain);
    var recent := Recent(scoped, months);
    LatestMonthsInOrder(scoped, months);
    ScopedAreDated(rows, domain);
    var date := MonthOf(scoped, recent[k]);
    year, month := date.year, date.month;
    BucketIsTheBilledMonth(rows, domain, year, month);
    EntryAt(recent, scoped, settings, rates, k);
  }

  lemma {:induction false} ScopedAreDated(rows: seq<Row>, domain: string)
    requires Dated(rows)
    ensures Dated(Scoped(rows, domain))
  {
    if rows != [] {
      ScopedAreDated(rows[..|rows| - 1], domain);
    }
  }

  lemma {:induction false} MonthOf(rows: seq<Row>, period: string) returns (date: Date)
    requires Dated(rows) && period in PeriodsOf(rows)
    ensures ValidDate(date) && period == Label(date.year, date.month)
  {
    var row := rows[|rows| - 1];
    if PeriodOf(row) == period {
      date := row.takenOn;
    } else {
      date := MonthOf(rows[..|rows| - 1], period);
    }
  }

  /******* Nothing is left out of the buckets *******/

  function Gathered(periods: seq<string>, rows: seq<Row>): seq<Row> {
    if periods == [] then [] else OfPeriod(rows, periods[0]) + Gathered(periods[1..], rows)
  }

  lemma {:induction false} GatheredAppend(periods: seq<string>, rows: seq<Row>, row: Row)
    requires Distinct(periods)
    ensures multiset(Gathered(periods, rows + [row]))
         == multiset(Gathered(periods, rows)) + if PeriodOf(row) in periods then multiset{row} else multiset{}
  {
    if periods != [] {
      FirstOrLater(periods, PeriodOf(row));
      GatheredAppend(periods[1..], rows, row);
      OneMoreRow(rows, row, periods[0]);
    }
  }

  lemma {:induction false} NothingGathered(periods: seq<string>)
    ensures Gathered(periods, []) == []
  {
    if periods != [] {
      NothingGathered(periods[1..]);
    }
  }

  /** Every row's month is among these. */
  ghost predicate AllIn(rows: seq<Row>, periods: seq<string>) {
    rows == [] || (PeriodOf(rows[|rows| - 1]) in periods && AllIn(rows[..|rows| - 1], periods))
  }

  lemma {:induction false} Partitioned(periods: seq<string>, rows: seq<Row>)
    requires Distinct(periods) && AllIn(rows, periods)
    ensures multiset(Gathered(periods, rows)) == multiset(rows)
  {
    if rows == [] {
      NothingGathered(periods);
    } else {
      var before, row := rows[..|rows| - 1], rows[|rows| - 1];
      Partitioned(periods, before);
      assert rows == before + [row];
      GatheredAppend(periods, before, row);
    }
  }

  lemma {:induction false} AllInMore(rows: seq<Row>, periods: seq<string>, more: seq<string>)
    requires AllIn(rows, periods) && forall p :: p in periods ==> p in more
    ensures AllIn(rows, more)
  {
    if rows != [] {
      AllInMore(rows[..|rows| - 1], periods, more);
    }
  }

  lemma {:induction false} PeriodsNameAll(rows: seq<Row>)
    ensures AllIn(rows, PeriodsOf(rows))
  {
    if rows != [] {
      var before := rows[..|rows| - 1];
      PeriodsNameAll(before);
      AllInMore(before, PeriodsOf(before), PeriodsOf(rows));
    }
  }

  /** Every measurement is in one of the sorted buckets, once. */
  lemma BucketsPartition(rows: seq<Row>)
    ensures multiset(Gathered(Sort(PeriodsOf(rows), NotLater), rows)) == multiset(rows)
  {
    LabelsDiffer(rows);
    SortIncreases(PeriodsOf(rows));
    PeriodsNameAll(rows);
    AllInMore(rows, PeriodsOf(rows), Sort(PeriodsOf(rows), NotLater));
    IncreasingDistinct(Sort(PeriodsOf(rows), NotLater));
    Partitioned(Sort(PeriodsOf(rows), NotLater), rows);
  }

  lemma IncreasingDistinct(periods: seq<string>)
    requires Increasing(periods)
    ensures Distinct(periods)
  {
    forall i, j | 0 <= i < j < |periods|
      ensures periods[i] != periods[j]
    {
      LessTotal(periods[i], periods[j]);
    }
  }
}
