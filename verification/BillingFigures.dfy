/** What a bill and an estimate charge, line by line, in terms of the stored measurements: the
    `QUANTITY` table of apps/billing/rates.py read against what it is the table of. */
module BillingFigures {
  import opened Calendar
  import opened Decimals
  import opened Sequences
  import opened Rates
  import opened BillingLaws

  function Vcpus(row: Row): nat { row.vcpus }

  function RamMb(row: Row): nat { row.ramMb }

  function SsdGib(row: Row): nat { row.ssdGib }

  function HddGib(row: Row): nat { row.hddGib }

  function Addresses(row: Row): nat { row.elasticIps }

  function SnapshotGib(row: Row): nat { row.snapshotGib }

  /** The snapshots of the rows, less the scheduled backups of the accounts that do not count them. */
  function ChargedSnapshots(rows: seq<Row>, settings: Settings): nat {
    if rows == [] then 0
    else
      var row := rows[|rows| - 1];
      var uncounted := row.domain != "" && row.domain in settings && !settings[row.domain];
      ChargedSnapshots(rows[..|rows| - 1], settings) + row.snapshotGib - if uncounted then row.backupGib else 0
  }

  /******* One line *******/

  /** The bill has a line for the resource exactly when `sum`, in units of 1/scale, was held at all;
      the line shows that sum averaged over the days, rounded once, at the stored price. */
  ghost predicate Charges(lines: seq<Line>, r: Resource, sum: nat, scale: nat, days: nat, rates: Prices)
    requires scale * days > 0
  {
    && ((exists i :: 0 <= i < |lines| && lines[i].resource == r) <==> sum > 0)
    && forall i :: 0 <= i < |lines| && lines[i].resource == r ==>
         && lines[i].quantity == HalfUp(100 * sum, scale * days)
         && lines[i].unitPrice == (if r in rates then rates[r] else 0)
         && lines[i].cost == HalfUp(lines[i].quantity * lines[i].unitPrice, 10000)
         && (lines[i].priced <==> r in rates)
  }

  /** And shows the exact sum beside it, as unit-days. */
  ghost predicate Accumulates(lines: seq<Line>, r: Resource, sum: nat, scale: nat)
    requires scale > 0
  {
    forall i :: 0 <= i < |lines| && lines[i].resource == r ==> lines[i].unitDays == HalfUp(100 * sum, scale)
  }

  lemma EachOnce()
    ensures Distinct(SORTED) && forall r: Resource :: r in SORTED
  {
    AllSorted();
    assert SORTED[..|SORTED|] == SORTED;
  }

  /** The lines of a resource are one, if it was held, and what LineOf makes of its unit-days. */
  lemma LinesOfResource(rows: seq<Row>, settings: Settings, rates: Prices, r: Resource)
    ensures var off := Uncounted(Domains(rows), settings);
            var lines, unitDays := BillWith(rows, settings, rates).lines, UnitDays(rows, off, r);
            && ((exists i :: 0 <= i < |lines| && lines[i].resource == r) <==> unitDays > 0)
            && forall i :: 0 <= i < |lines| && lines[i].resource == r ==>
                 lines[i] == LineOf(unitDays, |Days(rows)|, rates, r)
  {
    var off := Uncounted(Domains(rows), settings);
    EachOnce();
    LinesAreHeld(SORTED, Held(rows, off), |Days(rows)|, rates);
    if UnitDays(rows, off, r) > 0 {
      assert LineOf(Held(rows, off)(r), |Days(rows)|, rates, r) in BillWith(rows, settings, rates).lines;
    }
  }

  /** From the exact unit-days, in 1/1024, to the line. */
  lemma LineCharges(rows: seq<Row>, settings: Settings, rates: Prices, r: Resource, sum: nat, scale: nat)
    requires rows != [] && (scale == 1 || scale == 1024)
    requires UnitDays(rows, Uncounted(Domains(rows), settings), r) == (if scale == 1 then 1024 * sum else sum)
    requires UnitDays(rows, Uncounted(Domains(rows), settings), r) < SAFE
    ensures scale * |Days(rows)| > 0
    ensures Charges(BillWith(rows, settings, rates).lines, r, sum, scale, |Days(rows)|, rates)
    ensures Accumulates(BillWith(rows, settings, rates).lines, r, sum, scale)
  {
    DaysNonempty(rows);
    Positive(scale, |Days(rows)|);
    LinesOfResource(rows, settings, rates, r);
    LineReads(UnitDays(rows, Uncounted(Domains(rows), settings), r), |Days(rows)|, rates, r, sum, scale,
              scale * |Days(rows)|);
  }

  lemma Positive(scale: nat, days: nat)
    requires days > 0 && (scale == 1 || scale == 1024)
    ensures scale * days > 0
  {
  }

  lemma LineReads(unitDays: nat, days: nat, rates: Prices, r: Resource, sum: nat, scale: nat, divisor: nat)
    requires days > 0 && unitDays < SAFE && (scale == 1 || scale == 1024)
    requires unitDays == if scale == 1 then 1024 * sum else sum
    requires divisor > 0 && divisor == scale * days
    ensures var l := LineOf(unitDays, days, rates, r);
            && l.resource == r && l.quantity == HalfUp(100 * sum, divisor)
            && l.unitPrice == (if r in rates then rates[r] else 0)
            && l.cost == Cost(l.quantity, l.unitPrice)
            && (l.priced <==> r in rates) && l.unitDays == HalfUp(100 * sum, scale)
  {
    AverageIs(unitDays, sum, scale, days);
    if scale == 1 {
      HalfUpScales(100 * sum, 1, 1024);
    }
  }

  lemma AverageIs(unitDays: nat, sum: nat, scale: nat, days: nat)
    requires days > 0 && unitDays < SAFE && (scale == 1 || scale == 1024)
    requires unitDays == if scale == 1 then 1024 * sum else sum
    ensures scale * days > 0 && Average(unitDays, days) == HalfUp(100 * sum, scale * days)
  {
    AverageIsExact(unitDays, days);
    if scale == 1 {
      HalfUpScales(100 * sum, days, 1024);
    }
  }

  /******* Six sums *******/

  lemma {:induction false} UnitDaysAre(rows: seq<Row>, off: set<string>)
    ensures UnitDays(rows, off, Vcpu) == 1024 * Total(rows, Vcpus) && UnitDays(rows, off, RamGb) == Total(rows, RamMb)
    ensures UnitDays(rows, off, SsdGb) == 1024 * Total(rows, SsdGib)
    ensures UnitDays(rows, off, HddGb) == 1024 * Total(rows, HddGib)
    ensures UnitDays(rows, off, ElasticIp) == 1024 * Total(rows, Addresses)
  {
    if rows != [] {
      UnitDaysAre(rows[..|rows| - 1], off);
    }
  }

  lemma {:induction false} SnapshotDaysAre(rows: seq<Row>, off: set<string>, settings: Settings)
    requires forall i :: 0 <= i < |rows| ==>
               (rows[i].domain in off <==>
                rows[i].domain != "" && rows[i].domain in settings && !settings[rows[i].domain])
    ensures UnitDays(rows, off, SnapshotGb) == 1024 * ChargedSnapshots(rows, settings)
  {
    if rows != [] {
      SnapshotDaysAre(rows[..|rows| - 1], off, settings);
    }
  }

  /** Every resource is charged for its own measurement, and for all of it: the sum of that field
      over the rows, RAM in 1/1024, averaged over the days there are measurements of. */
  lemma BillChargesMeasurements(rows: seq<Row>, settings: Settings, rates: Prices)
    requires rows != []
    requires forall r :: UnitDays(rows, Uncounted(Domains(rows), settings), r) < SAFE
    ensures |Days(rows)| > 0 && BillWith(rows, settings, rates).days == |set i | 0 <= i < |rows| :: rows[i].takenOn|
    ensures var lines, days := BillWith(rows, settings, rates).lines, |Days(rows)|;
            && Charges(lines, Vcpu, Total(rows, Vcpus), 1, days, rates)
            && Charges(lines, RamGb, Total(rows, RamMb), 1024, days, rates)
            && Charges(lines, SsdGb, Total(rows, SsdGib), 1, days, rates)
            && Charges(lines, HddGb, Total(rows, HddGib), 1, days, rates)
            && Charges(lines, ElasticIp, Total(rows, Addresses), 1, days, rates)
            && Charges(lines, SnapshotGb, ChargedSnapshots(rows, settings), 1, days, rates)
    ensures var lines := BillWith(rows, settings, rates).lines;
            && Accumulates(lines, Vcpu, Total(rows, Vcpus), 1) && Accumulates(lines, RamGb, Total(rows, RamMb), 1024)
            && Accumulates(lines, SsdGb, Total(rows, SsdGib), 1) && Accumulates(lines, HddGb, Total(rows, HddGib), 1)
            && Accumulates(lines, ElasticIp, Total(rows, Addresses), 1)
            && Accumulates(lines, SnapshotGb, ChargedSnapshots(rows, settings), 1)
    ensures BillWith(rows, settings, rates).total == Total(BillWith(rows, settings, rates).lines, CostOfLine)
  {
    TotalIs(BillWith(rows, settings, rates).lines);
    var off := Uncounted(Domains(rows), settings);
    UnitDaysAre(rows, off);
    SnapshotDaysAre(rows, off, settings);
    LineCharges(rows, settings, rates, Vcpu, Total(rows, Vcpus), 1);
    LineCharges(rows, settings, rates, RamGb, Total(rows, RamMb), 1024);
    LineCharges(rows, settings, rates, SsdGb, Total(rows, SsdGib), 1);
    LineCharges(rows, settings, rates, HddGb, Total(rows, HddGib), 1);
    LineCharges(rows, settings, rates, ElasticIp, Total(rows, Addresses), 1);
    LineCharges(rows, settings, rates, SnapshotGb, ChargedSnapshots(rows, settings), 1);
  }

  function CostOfLine(l: Line): nat { l.cost }

  lemma {:induction false} TotalIs(lines: seq<Line>)
    ensures TotalOf(lines) == Total(lines, CostOfLine)
  {
    if lines != [] {
      TotalIs(lines[..|lines| - 1]);
    }
  }

  /** An account's backups are on its bill unless its setting says otherwise; rows of no account
      always count them. */
  lemma CountsBackupsIs(domain: string, settings: Settings)
    ensures CountsBackups(domain, settings) <==> domain == "" || domain !in settings || settings[domain]
  {
  }

  /** With no rows there is no line, no total and no day. */
  lemma NothingCharged(settings: Settings, rates: Prices)
    ensures BillWith([], settings, rates) == Bill([], 0, 0)
  {
    assert Days([]) == {};
    NoLines(SORTED, Held([], Uncounted(Domains([]), settings)), 0, rates);
  }

  /** A price list charges the resources it gives a price above nought, at that price. */
  lemma RateMapIs(prices: Prices, r: Resource)
    ensures r in RateMap(prices) <==> r in prices && prices[r] > 0
    ensures r in RateMap(prices) ==> RateMap(prices)[r] == prices[r]
  {
  }

  /******* The estimate *******/

  lemma {:induction false} EstimateCharges(rs: seq<Resource>, row: Row, rates: Prices, r: Resource, sum: nat, scale: nat)
    requires Distinct(rs) && (scale == 1 || scale == 1024)
    requires Whole(row, r) == (if scale == 1 then 1024 * sum else sum)
    ensures forall i :: 0 <= i < |EstimateLines(rs, row, rates)| ==> EstimateLines(rs, row, rates)[i].resource in rs
    ensures r in rs ==> Charges(EstimateLines(rs, row, rates), r, sum, scale, 1, rates)
  {
    if rs != [] {
      var before, last := rs[..|rs| - 1], rs[|rs| - 1];
      assert rs == before + [last];
      EstimateCharges(before, row, rates, r, sum, scale);
      if last == r && Whole(row, r) > 0 {
        OneLine(row, rates, r, sum, scale);
        var lines := EstimateLines(rs, row, rates);
        assert lines[|lines| - 1] == EstimateLine(row, rates, r);
      }
      if last != r && r in rs {
        StillCharges(EstimateLines(before, row, rates), EstimateLines(rs, row, rates), r, sum, scale, rates);
      }
    }
  }

  lemma OneLine(row: Row, rates: Prices, r: Resource, sum: nat, scale: nat)
    requires (scale == 1 || scale == 1024) && Whole(row, r) == (if scale == 1 then 1024 * sum else sum)
    ensures EstimateLine(row, rates, r).quantity == HalfUp(100 * sum, scale * 1)
  {
    if scale == 1 {
      HalfUpScales(100 * sum, 1, 1024);
    }
  }

  lemma StillCharges(lines: seq<Line>, more: seq<Line>, r: Resource, sum: nat, scale: nat, rates: Prices)
    requires scale > 0 && Charges(lines, r, sum, scale, 1, rates)
    requires more == lines || (|more| == |lines| + 1 && more[..|lines|] == lines && more[|lines|].resource != r)
    ensures Charges(more, r, sum, scale, 1, rates)
  {
    forall i | 0 <= i < |lines|
      ensures more[i] == lines[i]
    {
      assert more[..|lines|][i] == lines[i];
    }
  }

  /** The estimate charges each resource for its own field of today's shape, as a month of one
      measured day would. */
  lemma EstimateChargesShape(row: Row, rates: Prices)
    ensures var lines := EstimateLines(SORTED, row, rates);
            && Charges(lines, Vcpu, row.vcpus, 1, 1, rates) && Charges(lines, RamGb, row.ramMb, 1024, 1, rates)
            && Charges(lines, SsdGb, row.ssdGib, 1, 1, rates) && Charges(lines, HddGb, row.hddGib, 1, 1, rates)
            && Charges(lines, ElasticIp, row.elasticIps, 1, 1, rates)
            && Charges(lines, SnapshotGb, row.snapshotGib, 1, 1, rates)
            && TotalOf(lines) == Total(lines, CostOfLine)
  {
    TotalIs(EstimateLines(SORTED, row, rates));
    EachOnce();
    EstimateCharges(SORTED, row, rates, Vcpu, row.vcpus, 1);
    EstimateCharges(SORTED, row, rates, RamGb, row.ramMb, 1024);
    EstimateCharges(SORTED, row, rates, SsdGb, row.ssdGib, 1);
    EstimateCharges(SORTED, row, rates, HddGb, row.hddGib, 1);
    EstimateCharges(SORTED, row, rates, ElasticIp, row.elasticIps, 1);
    EstimateCharges(SORTED, row, rates, SnapshotGb, row.snapshotGib, 1);
  }
}
