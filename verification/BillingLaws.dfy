/** What `cost_of` promises about the rows it prices. */
module BillingLaws {
  import opened Sequences
  import opened Calendar
  import opened Decimals
  import opened Rates

  /******* Averages *******/

  /** The average a bill shows is the exact one rounded once, however it was divided. */
  lemma AverageIsExact(unitDays: nat, days: nat)
    requires days > 0 && unitDays < SAFE
    ensures Average(unitDays, days) == HalfUp(100 * unitDays, 1024 * days)
  {
    DoubleRounding(unitDays, 1024 * days);
  }

  /******* Order does not matter *******/

  lemma {:induction false} UnitDaysAppend(a: seq<Row>, b: seq<Row>, off: set<string>, r: Resource)
    ensures UnitDays(a + b, off, r) == UnitDays(a, off, r) + UnitDays(b, off, r)
  {
    if b == [] {
      assert a + b == a;
    } else {
      assert (a + b)[..|a + b| - 1] == a + b[..|b| - 1];
      UnitDaysAppend(a, b[..|b| - 1], off, r);
    }
  }

  lemma UnitDaysOne(row: Row, off: set<string>, r: Resource)
    ensures UnitDays([row], off, r) == Billed(row, off, r)
  {
    assert [row][..0] == [];
  }

  lemma UnitDaysWithout(rows: seq<Row>, j: nat, off: set<string>, r: Resource)
    requires j < |rows|
    ensures UnitDays(rows, off, r) == UnitDays(Without(rows, j), off, r) + Billed(rows[j], off, r)
  {
    assert rows == rows[..j] + [rows[j]] + rows[j + 1..];
    UnitDaysAppend(rows[..j] + [rows[j]], rows[j + 1..], off, r);
    UnitDaysAppend(rows[..j], [rows[j]], off, r);
    UnitDaysAppend(rows[..j], rows[j + 1..], off, r);
    UnitDaysOne(rows[j], off, r);
  }

  lemma {:induction false} UnitDaysPermute(a: seq<Row>, b: seq<Row>, off: set<string>, r: Resource)
    requires multiset(a) == multiset(b)
    ensures UnitDays(a, off, r) == UnitDays(b, off, r)
    decreases |a|
  {
    if a == [] {
      assert |multiset(b)| == 0;
    } else {
      var n := |a| - 1;
      assert a[n] in multiset(b);
      var j :| 0 <= j < |b| && b[j] == a[n];
      WithoutMultiset(a, n);
      WithoutMultiset(b, j);
      assert Without(a, n) == a[..n];
      CancelOne(multiset(a[..n]), multiset(Without(b, j)), a[n]);
      UnitDaysPermute(a[..n], Without(b, j), off, r);
      UnitDaysWithout(b, j, off, r);
    }
  }

  lemma MembersOf(a: seq<Row>, b: seq<Row>)
    requires multiset(a) == multiset(b)
    ensures Days(a) <= Days(b) && Domains(a) <= Domains(b)
  {
    forall i | 0 <= i < |a|
      ensures a[i] in b
    {
      assert a[i] in multiset(b);
    }
    PartOfTheWhole(a, b);
  }

  /** The bill depends on the rows alone, not on the order in which they were stored or read. */
  lemma BillIgnoresOrder(a: seq<Row>, b: seq<Row>, settings: Settings, rates: Prices)
    requires multiset(a) == multiset(b)
    ensures BillWith(a, settings, rates) == BillWith(b, settings, rates)
  {
    MembersOf(a, b);
    MembersOf(b, a);
    assert Days(a) == Days(b) && Domains(a) == Domains(b);
    var off := Uncounted(Domains(a), settings);
    forall r: Resource {
      UnitDaysPermute(a, b, off, r);
    }
    LinesAgree(SORTED, Held(a, off), Held(b, off), |Days(a)|, rates);
  }

  /******* What the lines are *******/

  lemma NoPriceNoCost(quantity: nat)
    ensures Cost(quantity, 0) == 0
  {
    HalfUpIs(0, 10000, 0);
  }

  /** A line multiplies out, at the rate of its resource; with no rate it costs nothing. */
  lemma LineMultipliesOut(unitDays: nat, days: nat, rates: Prices, r: Resource)
    ensures var l := LineOf(unitDays, days, rates, r);
            && l.quantity == Average(unitDays, days) && l.unitPrice == PriceOf(rates, r)
            && l.cost == Cost(l.quantity, l.unitPrice) && (!l.priced ==> l.cost == 0)
  {
    NoPriceNoCost(Average(unitDays, days));
  }

  /** The lines are those of the resources that were held at all, each of them once. */
  lemma {:induction false} LinesAreHeld(rs: seq<Resource>, held: Resource -> nat, days: nat, rates: Prices)
    requires Distinct(rs)
    ensures forall i :: 0 <= i < |LinesOf(rs, held, days, rates)| ==>
              var l := LinesOf(rs, held, days, rates)[i];
              l.resource in rs && held(l.resource) > 0 && l == LineOf(held(l.resource), days, rates, l.resource)
    ensures forall r :: r in rs && held(r) > 0 ==> LineOf(held(r), days, rates, r) in LinesOf(rs, held, days, rates)
    ensures forall i, j :: 0 <= i < j < |LinesOf(rs, held, days, rates)| ==>
              LinesOf(rs, held, days, rates)[i].resource != LinesOf(rs, held, days, rates)[j].resource
  {
    if rs != [] {
      LinesAreHeld(rs[..|rs| - 1], held, days, rates);
      assert rs == rs[..|rs| - 1] + [rs[|rs| - 1]];
    }
  }

  lemma {:induction false} NoLines(rs: seq<Resource>, held: Resource -> nat, days: nat, rates: Prices)
    requires forall r :: held(r) == 0
    ensures LinesOf(rs, held, days, rates) == []
  {
    if rs != [] {
      NoLines(rs[..|rs| - 1], held, days, rates);
    }
  }

  predicate SameCharge(a: Line, b: Line) {
    a.resource == b.resource && a.quantity == b.quantity && a.unitPrice == b.unitPrice && a.cost == b.cost
    && a.priced == b.priced
  }

  predicate SameCharges(a: seq<Line>, b: seq<Line>) {
    |a| == |b| && forall i :: 0 <= i < |a| ==> SameCharge(a[i], b[i])
  }

  lemma {:induction false} SameTotal(a: seq<Line>, b: seq<Line>)
    requires SameCharges(a, b)
    ensures TotalOf(a) == TotalOf(b)
  {
    if a != [] {
      SameTotal(a[..|a| - 1], b[..|b| - 1]);
    }
  }

  lemma {:induction false} SameAverages(rs: seq<Resource>, held: Resource -> nat, days: nat, held': Resource -> nat,
                                        days': nat, rates: Prices)
    requires forall r :: (held(r) > 0 <==> held'(r) > 0)
    requires forall r :: Average(held(r), days) == Average(held'(r), days')
    ensures SameCharges(LinesOf(rs, held, days, rates), LinesOf(rs, held', days', rates))
  {
    if rs != [] {
      SameAverages(rs[..|rs| - 1], held, days, held', days', rates);
    }
  }

  /** A line's cost is within 0.005 times the price, plus half a cent, of the unrounded average
      at the unrounded price: with d = 1024 * days, the cost c (in cents) and the exact cost
      100 u p / (10000 d) differ by at most (p/10000 + 1) / 2 cents. */
  lemma CostIsAccurate(unitDays: nat, days: nat, price: nat)
    requires days > 0 && unitDays < SAFE
    ensures var d, c := 1024 * days, Cost(Average(unitDays, days), price);
            -(d * (price + 10000)) <= 2 * (10000 * (d * c)) - 2 * (100 * unitDays * price) <= d * (price + 10000)
  {
    AverageIsExact(unitDays, days);
    TwoRoundings(100 * unitDays, 1024 * days, price);
  }

  lemma TwoRoundings(n: nat, d: nat, p: nat)
    requires d > 0
    ensures HalfUp(n, d) * p >= 0
    ensures var c := HalfUp(HalfUp(n, d) * p, 10000);
            -(d * (p + 10000)) <= 2 * (10000 * (d * c)) - 2 * (n * p) <= d * (p + 10000)
  {
    var q := HalfUp(n, d);
    var c := HalfUp(q * p, 10000);
    HalfUpIs(n, d, q);
    HalfUpIs(q * p, 10000, c);
    ErrorsAdd(n, d, p, q, q * p, c);
  }

  lemma ErrorsAdd(n: int, d: int, p: int, q: int, qp: int, c: int)
    requires d > 0 && p >= 0 && qp == q * p
    requires d * (2 * q) <= 2 * n + d < d * (2 * q) + 2 * d
    requires 10000 * (2 * c) <= 2 * qp + 10000 < 10000 * (2 * c) + 2 * 10000
    ensures -(d * (p + 10000)) <= 2 * (10000 * (d * c)) - 2 * (n * p) <= d * (p + 10000)
  {
    MulTwice(d, q);
    var x, y := d * q - n, 10000 * c - qp;
    Within(2 * x, d, p);
    Within(2 * y, 10000, d);
    MulSum(p, d * q, -n);
    MulTwice(p, x);
    Exchange(d, q, p);
    Exchange(q, d, p);
    MulSum(d, 10000 * c, -qp);
    MulTwice(d, y);
    Exchange(10000, c, d);
    MulSum(d, p, 10000);
    assert d * (q * p) == d * qp;
    assert p * -n == -(n * p) && d * -qp == -(d * qp);
    assert d * (10000 * c) == 10000 * (d * c);
    assert q * (d * p) == d * (q * p);
    assert p * (d * q) == q * (d * p);
  }

  lemma Within(x: int, bound: int, k: int)
    requires -bound <= x <= bound && k >= 0
    ensures -(bound * k) <= k * x <= bound * k
  {
  }

  /******* Projects and their account *******/

  function RowsOf(rows: seq<Row>, project: string): seq<Row> {
    if rows == [] then []
    else RowsOf(rows[..|rows| - 1], project) +
         if rows[|rows| - 1].project == project then [rows[|rows| - 1]] else []
  }

  lemma RowsOfAppend(rows: seq<Row>, i: nat, project: string)
    requires i < |rows|
    ensures RowsOf(rows[..i + 1], project)
              == RowsOf(rows[..i], project) + if rows[i].project == project then [rows[i]] else []
  {
    assert rows[..i + 1][..i] == rows[..i];
  }

  /** The grouping `AdminBillingView.get` makes before it prices each project. */
  method GroupByProject(rows: seq<Row>) returns (groups: map<string, seq<Row>>)
    ensures forall p :: p in groups <==> RowsOf(rows, p) != []
    ensures forall p :: p in groups ==> groups[p] == RowsOf(rows, p)
  {
    groups := map[];
    var i := 0;
    while i < |rows|
      invariant 0 <= i <= |rows|
      invariant forall p :: p in groups <==> RowsOf(rows[..i], p) != []
      invariant forall p :: p in groups ==> groups[p] == RowsOf(rows[..i], p)
    {
      var p := rows[i].project;
      forall q {
        RowsOfAppend(rows, i, q);
      }
      groups := groups[p := (if p in groups then groups[p] else []) + [rows[i]]];
      i := i + 1;
    }
    assert rows[..|rows|] == rows;
  }

  lemma {:induction false} RowsOfAreRows(rows: seq<Row>, project: string)
    ensures forall row :: row in RowsOf(rows, project) ==> row in rows && row.project == project
  {
    if rows != [] {
      RowsOfAreRows(rows[..|rows| - 1], project);
    }
  }

  lemma PartOfTheWhole(part: seq<Row>, rows: seq<Row>)
    requires forall i :: 0 <= i < |part| ==> part[i] in rows
    ensures Domains(part) <= Domains(rows) && Days(part) <= Days(rows) && |Days(part)| <= |Days(rows)|
  {
    forall i | 0 <= i < |part|
      ensures part[i].domain in Domains(rows) && part[i].takenOn in Days(rows)
    {
      assert part[i] in rows;
    }
    Fewer(Days(part), Days(rows));
  }

  lemma Fewer<T>(a: set<T>, b: set<T>)
    requires a <= b
    ensures |a| <= |b|
  {
    assert b == a + (b - a);
  }

  /** Which backups are off the bill is decided by the rows' own accounts. */
  lemma {:induction false} OffIsLocal(rows: seq<Row>, domains: set<string>, settings: Settings, r: Resource)
    requires Domains(rows) <= domains
    ensures UnitDays(rows, Uncounted(domains, settings), r)
              == UnitDays(rows, Uncounted(Domains(rows), settings), r)
  {
    OffAgrees(rows, Uncounted(domains, settings), Uncounted(Domains(rows), settings), r);
  }

  lemma {:induction false} OffAgrees(rows: seq<Row>, off: set<string>, off': set<string>, r: Resource)
    requires forall i :: 0 <= i < |rows| ==> (rows[i].domain in off <==> rows[i].domain in off')
    ensures UnitDays(rows, off, r) == UnitDays(rows, off', r)
  {
    if rows != [] {
      OffAgrees(rows[..|rows| - 1], off, off', r);
    }
  }

  function SumOfProjects(projects: seq<string>, rows: seq<Row>, off: set<string>, r: Resource): nat {
    if projects == [] then 0
    else SumOfProjects(projects[1..], rows, off, r) + UnitDays(RowsOf(rows, projects[0]), off, r)
  }

  lemma {:induction false} SumOfProjectsAppend(projects: seq<string>, rows: seq<Row>, off: set<string>, r: Resource)
    requires Distinct(projects) && rows != []
    ensures SumOfProjects(projects, rows, off, r) == SumOfProjects(projects, rows[..|rows| - 1], off, r)
              + if rows[|rows| - 1].project in projects then Billed(rows[|rows| - 1], off, r) else 0
  {
    if projects != [] {
      var last := rows[|rows| - 1];
      assert projects == [projects[0]] + projects[1..];
      SumOfProjectsAppend(projects[1..], rows, off, r);
      assert last.project in projects <==> last.project == projects[0] || last.project in projects[1..];
      var before := RowsOf(rows[..|rows| - 1], projects[0]);
      if last.project == projects[0] {
        assert RowsOf(rows, projects[0]) == before + [last];
        UnitDaysAppend(before, [last], off, r);
        UnitDaysOne(last, off, r);
      } else {
        assert RowsOf(rows, projects[0]) == before;
      }
    }
  }

  /** Exactly: the account's unit-days are the sum over its projects. */
  lemma {:induction false} ProjectsPartition(projects: seq<string>, rows: seq<Row>, off: set<string>, r: Resource)
    requires Distinct(projects) && forall row :: row in rows ==> row.project in projects
    ensures UnitDays(rows, off, r) == SumOfProjects(projects, rows, off, r)
  {
    if rows == [] {
      NoRows(projects, off, r);
    } else {
      SumOfProjectsAppend(projects, rows, off, r);
      ProjectsPartition(projects, rows[..|rows| - 1], off, r);
    }
  }

  lemma {:induction false} NoRows(projects: seq<string>, off: set<string>, r: Resource)
    ensures SumOfProjects(projects, [], off, r) == 0
  {
    if projects != [] {
      NoRows(projects[1..], off, r);
    }
  }

  /** The quantity a bill of these rows shows for the resource (nought when there is no line). */
  function Shown(rows: seq<Row>, settings: Settings, r: Resource): nat {
    Average(UnitDays(rows, Uncounted(Domains(rows), settings), r), |Days(rows)|)
  }

  function SumOfShown(projects: seq<string>, rows: seq<Row>, settings: Settings, r: Resource): nat {
    if projects == [] then 0
    else SumOfShown(projects[1..], rows, settings, r) + Shown(RowsOf(rows, projects[0]), settings, r)
  }

  lemma ShareFallsShort(share: nat, own: nat, days: nat, q: nat)
    requires own <= days && 200 * share + 1024 * own < (1024 * own) * (2 * q) + 2 * (1024 * own)
    ensures 200 * share < 1024 * days * (2 * q + 1)
  {
    MulSum(1024 * own, 2 * q, 1);
    MulLeq(2 * q + 1, 1024 * own, 1024 * days);
    assert (2 * q + 1) * (1024 * own) == (1024 * own) * (2 * q + 1);
    assert (2 * q + 1) * (1024 * days) == 1024 * days * (2 * q + 1);
  }

  /** A project's own average is over its own days, of which there are no more than the
      account's: rounded, it falls short of its share of the account by less than half. */
  lemma ProjectShare(project: string, rows: seq<Row>, settings: Settings, r: Resource, d: nat)
    requires rows != [] && d == 1024 * |Days(rows)|
    requires UnitDays(RowsOf(rows, project), Uncounted(Domains(rows), settings), r) < SAFE
    ensures var share := UnitDays(RowsOf(rows, project), Uncounted(Domains(rows), settings), r);
            200 * share < d * (2 * Shown(RowsOf(rows, project), settings, r) + 1)
  {
    var own := RowsOf(rows, project);
    RowsOfAreRows(rows, project);
    PartOfTheWhole(own, rows);
    OffIsLocal(own, Domains(rows), settings, r);
    DaysNonempty(rows);
    var share, q := UnitDays(own, Uncounted(Domains(own), settings), r), Shown(own, settings, r);
    if own == [] {
      MulLess(d, 0, 2 * q + 1);
    } else {
      DaysNonempty(own);
      AverageIsExact(share, |Days(own)|);
      HalfUpIs(100 * share, 1024 * |Days(own)|, q);
      ShareFallsShort(share, |Days(own)|, |Days(rows)|, q);
    }
  }

  lemma DaysNonempty(rows: seq<Row>)
    requires rows != []
    ensures |Days(rows)| > 0
  {
    assert rows[0].takenOn in Days(rows);
  }

  /** Twice the projects' quantities, and one for each: what their shares may come to at most. */
  function Bounds(projects: seq<string>, rows: seq<Row>, settings: Settings, r: Resource): nat {
    if projects == [] then 0
    else Bounds(projects[1..], rows, settings, r) + (2 * Shown(RowsOf(rows, projects[0]), settings, r) + 1)
  }

  lemma {:induction false} BoundsAre(projects: seq<string>, rows: seq<Row>, settings: Settings, r: Resource)
    ensures Bounds(projects, rows, settings, r) == 2 * SumOfShown(projects, rows, settings, r) + |projects|
  {
    if projects != [] {
      BoundsAre(projects[1..], rows, settings, r);
    }
  }

  lemma SharesAdd(d: nat, a: nat, b: nat, u: nat, v: nat, n: nat)
    requires 200 * u + n <= d * a && 200 * v < d * b
    ensures 200 * (u + v) + (n + 1) <= d * (a + b)
  {
    MulSum(d, a, b);
  }

  lemma {:induction false} SharesAddUp(projects: seq<string>, rows: seq<Row>, settings: Settings, r: Resource, d: nat)
    requires rows != [] && d == 1024 * |Days(rows)|
    requires SumOfProjects(projects, rows, Uncounted(Domains(rows), settings), r) < SAFE
    ensures 200 * SumOfProjects(projects, rows, Uncounted(Domains(rows), settings), r) + |projects|
         <= d * Bounds(projects, rows, settings, r)
  {
    if projects != [] {
      var off, rest := Uncounted(Domains(rows), settings), projects[1..];
      SharesAddUp(rest, rows, settings, r, d);
      ProjectShare(projects[0], rows, settings, r, d);
      SharesAdd(d, Bounds(rest, rows, settings, r), 2 * Shown(RowsOf(rows, projects[0]), settings, r) + 1,
                SumOfProjects(rest, rows, off, r), UnitDays(RowsOf(rows, projects[0]), off, r), |rest|);
    }
  }

  lemma HalfUpBelow(u: nat, d: nat)
    requires d > 0
    ensures d * (2 * HalfUp(100 * u, d) - 1) <= 200 * u
  {
    var q: int := HalfUp(100 * u, d);
    HalfUpIs(100 * u, d, q);
    MulSum(d, 2 * q, -1);
  }

  lemma Conclude(u: nat, d: nat, q: nat, bound: nat, n: nat)
    requires d * (2 * q - 1) <= 200 * u && 200 * u + n <= d * bound && n > 0 && d > 0
    ensures 2 * q < bound + 1
  {
    FactorLess(d, 2 * q - 1, bound);
  }

  lemma AccountShare(rows: seq<Row>, settings: Settings, r: Resource, d: nat)
    requires rows != [] && d == 1024 * |Days(rows)|
    requires UnitDays(rows, Uncounted(Domains(rows), settings), r) < SAFE
    ensures d * (2 * Shown(rows, settings, r) - 1) <= 200 * UnitDays(rows, Uncounted(Domains(rows), settings), r)
  {
    DaysNonempty(rows);
    AverageIsExact(UnitDays(rows, Uncounted(Domains(rows), settings), r), |Days(rows)|);
    HalfUpBelow(UnitDays(rows, Uncounted(Domains(rows), settings), r), d);
  }

  lemma FewerThanShares(projects: seq<string>, rows: seq<Row>, settings: Settings, r: Resource, d: nat, q: nat)
    requires rows != [] && projects != [] && d == 1024 * |Days(rows)| && d > 0
    requires SumOfProjects(projects, rows, Uncounted(Domains(rows), settings), r) < SAFE
    requires d * (2 * q - 1) <= 200 * SumOfProjects(projects, rows, Uncounted(Domains(rows), settings), r)
    ensures 2 * q < 2 * SumOfShown(projects, rows, settings, r) + |projects| + 1
  {
    SharesAddUp(projects, rows, settings, r, d);
    Conclude(SumOfProjects(projects, rows, Uncounted(Domains(rows), settings), r), d, q,
             Bounds(projects, rows, settings, r), |projects|);
    BoundsAre(projects, rows, settings, r);
  }

  /** The account's bill against its projects' bills: for each resource the account's quantity,
      in hundredths, is less than the sum of its n projects' quantities plus (n + 1) / 2. */
  lemma AccountAgainstProjects(projects: seq<string>, rows: seq<Row>, settings: Settings, r: Resource)
    requires rows != [] && Distinct(projects) && forall row :: row in rows ==> row.project in projects
    requires UnitDays(rows, Uncounted(Domains(rows), settings), r) < SAFE
    ensures 2 * Shown(rows, settings, r) < 2 * SumOfShown(projects, rows, settings, r) + |projects| + 1
  {
    var off, d, q := Uncounted(Domains(rows), settings), 1024 * |Days(rows)|, Shown(rows, settings, r);
    DaysNonempty(rows);
    SomeProject(projects, rows);
    ProjectsPartition(projects, rows, off, r);
    AccountShare(rows, settings, r, d);
    FewerThanShares(projects, rows, settings, r, d, q);
  }

  lemma SomeProject(projects: seq<string>, rows: seq<Row>)
    requires rows != [] && forall row :: row in rows ==> row.project in projects
    ensures projects != []
  {
    assert rows[0].project in projects;
  }
}
