/** Turning measurements into money: apps/billing/rates.py.

    A price is counted in 1/10000 of the currency, money in cents, a quantity on a line in
    hundredths and an exact quantity in 1/1024 (RAM is measured in MB and billed in GB). */
module Rates {
  import opened Calendar
  import opened Decimals

  /** What can carry a price, in the order of the stored keys. */
  datatype Resource = ElasticIp | HddGb | RamGb | SnapshotGb | SsdGb | Vcpu

  const SORTED: seq<Resource> := [ElasticIp, HddGb, RamGb, SnapshotGb, SsdGb, Vcpu]

  /** What one project held on one day; backups are part of the snapshots. */
  datatype Measured = Measured(
    takenOn: Date, project: string, account: string, domain: string,
    vcpus: nat, ramMb: nat, ssdGib: nat, hddGib: nat, elasticIps: nat, snapshotGib: nat, backupGib: nat)

  type Row = r: Measured | r.backupGib <= r.snapshotGib
    witness Measured(Date(1, 1, 1), "", "", "", 0, 0, 0, 0, 0, 0, 0)

  type Prices = map<Resource, nat>

  datatype Line = Line(resource: Resource, quantity: nat, unitDays: nat, unitPrice: nat, cost: nat, priced: bool)
  datatype Bill = Bill(lines: seq<Line>, total: nat, days: nat)

  /** `rate_map` leaves out a resource whose price is zero. */
  function RateMap(prices: Prices): Prices {
    map r | r in prices && prices[r] > 0 :: prices[r]
  }

  function PriceOf(rates: Prices, r: Resource): nat {
    if r in rates then rates[r] else 0
  }

  /******* apps/accounts/backups.py *******/

  type Settings = map<string, bool>

  /** Which of these accounts have their backups off the bill. */
  function Uncounted(domains: set<string>, countBackups: Settings): set<string> {
    set d | d in domains && d != "" && d in countBackups && !countBackups[d]
  }

  /** `counts_backups` of one account. */
  predicate CountsBackups(domain: string, countBackups: Settings) {
    domain !in Uncounted({domain}, countBackups)
  }

  function Domains(rows: seq<Row>): set<string> {
    set i | 0 <= i < |rows| :: rows[i].domain
  }

  /******* What a bill is *******/

  /** The exact billable quantity of one row, in 1/1024. */
  function Quantity(row: Row, withBackups: bool, r: Resource): nat {
    match r
    case Vcpu => 1024 * row.vcpus
    case RamGb => row.ramMb
    case SsdGb => 1024 * row.ssdGib
    case HddGb => 1024 * row.hddGib
    case ElasticIp => 1024 * row.elasticIps
    case SnapshotGb => 1024 * (if withBackups then row.snapshotGib else row.snapshotGib - row.backupGib)
  }

  /** What the row adds to its account's bill. */
  function Billed(row: Row, off: set<string>, r: Resource): nat {
    Quantity(row, row.domain !in off, r)
  }

  function UnitDays(rows: seq<Row>, off: set<string>, r: Resource): nat {
    if rows == [] then 0
    else UnitDays(rows[..|rows| - 1], off, r) +
         Billed(rows[|rows| - 1], off, r)
  }

  function Days(rows: seq<Row>): set<Date> {
    set i | 0 <= i < |rows| :: rows[i].takenOn
  }

  /** The average held over the measured days, in hundredths. */
  function Average(unitDays: nat, days: nat): nat {
    if days == 0 then 0 else ToCents(Quotient(unitDays, 1024 * days))
  }

  /** Hundredths of a unit at a price in 1/10000, in cents. */
  function Cost(quantity: nat, price: nat): nat {
    HalfUp(quantity * price, 10000)
  }

  function LineOf(unitDays: nat, days: nat, rates: Prices, r: Resource): Line {
    var average := Average(unitDays, days);
    Line(r, average, HalfUp(100 * unitDays, 1024), PriceOf(rates, r), Cost(average, PriceOf(rates, r)), r in rates)
  }

  /** One line for each resource that was held at all, in the order given. */
  function LinesOf(rs: seq<Resource>, held: Resource -> nat, days: nat, rates: Prices): seq<Line> {
    if rs == [] then []
    else
      var r := rs[|rs| - 1];
      LinesOf(rs[..|rs| - 1], held, days, rates) + if held(r) > 0 then [LineOf(held(r), days, rates, r)] else []
  }

  function TotalOf(lines: seq<Line>): nat {
    if lines == [] then 0 else TotalOf(lines[..|lines| - 1]) + lines[|lines| - 1].cost
  }

  function Held(rows: seq<Row>, off: set<string>): Resource -> nat {
    (r: Resource) => UnitDays(rows, off, r)
  }

  function BillOf(rows: seq<Row>, off: set<string>, rates: Prices): Bill {
    var lines := LinesOf(SORTED, Held(rows, off), |Days(rows)|, rates);
    Bill(lines, TotalOf(lines), |Days(rows)|)
  }

  function BillWith(rows: seq<Row>, settings: Settings, rates: Prices): Bill {
    BillOf(rows, Uncounted(Domains(rows), settings), rates)
  }

  /******* cost_of *******/

  function At(unitDays: map<Resource, nat>, r: Resource): nat {
    if r in unitDays then unitDays[r] else 0
  }

  /** The inner loop: what one row adds to the running sums. */
  method AddRow(before: map<Resource, nat>, row: Row, off: set<string>) returns (unitDays: map<Resource, nat>)
    requires forall r :: r in before ==> before[r] > 0
    ensures forall r :: At(unitDays, r) == At(before, r) + Billed(row, off, r)
    ensures forall r :: r in unitDays ==> unitDays[r] > 0
  {
    unitDays := before;
    var k := 0;
    while k < |SORTED|
      invariant 0 <= k <= |SORTED|
      invariant forall r :: At(unitDays, r) == At(before, r) + if r in SORTED[..k] then Billed(row, off, r) else 0
      invariant forall r :: r in unitDays ==> unitDays[r] > 0
    {
      var r := SORTED[k];
      assert SORTED[..k + 1] == SORTED[..k] + [r];
      assert r !in SORTED[..k];
      var quantity := Billed(row, off, r);
      if quantity > 0 {
        unitDays := unitDays[r := At(unitDays, r) + quantity];
      }
      k := k + 1;
    }
    AllSorted();
  }

  /** The second loop: the sums become lines, and the lines a total. */
  method PriceLines(unitDays: map<Resource, nat>, days: nat, rates: Prices) returns (lines: seq<Line>, total: nat)
    requires forall r :: r in unitDays ==> unitDays[r] > 0
    ensures lines == LinesOf(SORTED, (r: Resource) => At(unitDays, r), days, rates)
    ensures total == TotalOf(lines)
  {
    ghost var held := (r: Resource) => At(unitDays, r);
    lines, total := [], 0;
    var k := 0;
    while k < |SORTED|
      invariant 0 <= k <= |SORTED|
      invariant lines == LinesOf(SORTED[..k], held, days, rates)
      invariant total == TotalOf(lines)
    {
      var r := SORTED[k];
      assert SORTED[..k + 1][..k] == SORTED[..k];
      if r in unitDays {
        var line := LineOf(unitDays[r], days, rates, r);
        assert (lines + [line])[..|lines|] == lines;
        lines := lines + [line];
        total := total + line.cost;
      }
      k := k + 1;
    }
    assert SORTED[..|SORTED|] == SORTED;
  }

  /** Adds up the rows, then prices what was accumulated. */
  method CostOf(rows: seq<Row>, settings: Settings, rates: Prices) returns (bill: Bill)
    ensures bill == BillWith(rows, settings, rates)
  {
    var off := Uncounted(Domains(rows), settings);
    var unitDays: map<Resource, nat> := map[];
    var days: set<Date> := {};
    var i := 0;
    while i < |rows|
      invariant 0 <= i <= |rows|
      invariant days == Days(rows[..i])
      invariant forall r :: At(unitDays, r) == UnitDays(rows[..i], off, r)
      invariant forall r :: r in unitDays ==> unitDays[r] > 0
    {
      assert rows[..i + 1][..i] == rows[..i];
      DaysAppend(rows[..i], rows[i]);
      assert rows[..i] + [rows[i]] == rows[..i + 1];
      days := days + {rows[i].takenOn};
      unitDays := AddRow(unitDays, rows[i], off);
      i := i + 1;
    }
    assert rows[..|rows|] == rows;
    var lines, total := PriceLines(unitDays, |days|, rates);
    LinesAgree(SORTED, (r: Resource) => At(unitDays, r), Held(rows, off), |days|, rates);
    bill := Bill(lines, total, |days|);
  }

  lemma DaysAppend(rows: seq<Row>, row: Row)
    ensures Days(rows + [row]) == Days(rows) + {row.takenOn}
  {
    var after := rows + [row];
    assert after[|rows|] == row;
    assert forall i :: 0 <= i < |rows| ==> after[i] == rows[i];
    forall d | d in Days(rows)
      ensures d in Days(after)
    {
      var i :| 0 <= i < |rows| && rows[i].takenOn == d;
      assert after[i].takenOn == d;
    }
  }

  lemma {:induction false} LinesAgree(rs: seq<Resource>, held: Resource -> nat, held': Resource -> nat, days: nat,
                                      rates: Prices)
    requires forall r :: held(r) == held'(r)
    ensures LinesOf(rs, held, days, rates) == LinesOf(rs, held', days, rates)
  {
    if rs != [] {
      LinesAgree(rs[..|rs| - 1], held, held', days, rates);
    }
  }

  lemma AllSorted()
    ensures forall r: Resource :: r in SORTED[..|SORTED|]
  {
    assert SORTED[..|SORTED|] == SORTED;
    forall r: Resource
      ensures r in SORTED
    {
      var i := match r case ElasticIp => 0 case HddGb => 1 case RamGb => 2 case SnapshotGb => 3 case SsdGb => 4 case Vcpu => 5;
      assert SORTED[i] == r;
    }
  }

  /******* estimate_month *******/

  /** An estimate prices a shape that backups were already left out of. */
  function Whole(shape: Row, r: Resource): nat {
    Quantity(shape, true, r)
  }

  function EstimateLine(row: Row, rates: Prices, r: Resource): Line {
    var held := HalfUp(100 * Whole(row, r), 1024);
    Line(r, held, held, PriceOf(rates, r), Cost(held, PriceOf(rates, r)), r in rates)
  }

  function EstimateLines(rs: seq<Resource>, row: Row, rates: Prices): seq<Line> {
    if rs == [] then []
    else
      var r := rs[|rs| - 1];
      EstimateLines(rs[..|rs| - 1], row, rates) + if Whole(row, r) > 0 then [EstimateLine(row, rates, r)] else []
  }

  /** Today's shape for a whole month.  The source's lines carry no unit-days. */
  method EstimateMonth(shape: Row, rates: Prices) returns (bill: Bill)
    ensures bill.lines == EstimateLines(SORTED, shape, rates)
    ensures bill.total == TotalOf(bill.lines) && bill.days == 0
  {
    var lines: seq<Line> := [];
    var total := 0;
    var k := 0;
    while k < |SORTED|
      invariant 0 <= k <= |SORTED|
      invariant lines == EstimateLines(SORTED[..k], shape, rates)
      invariant total == TotalOf(lines)
    {
      var r := SORTED[k];
      assert SORTED[..k + 1][..k] == SORTED[..k];
      var quantity := Whole(shape, r);
      if quantity > 0 {
        var held := HalfUp(100 * quantity, 1024);
        var cost := Cost(held, PriceOf(rates, r));
        var line := Line(r, held, held, PriceOf(rates, r), cost, r in rates);
        assert (lines + [line])[..|lines|] == lines;
        lines := lines + [line];
        total := total + cost;
      }
      k := k + 1;
    }
    assert SORTED[..|SORTED|] == SORTED;
    bill := Bill(lines, total, 0);
  }
}
