/** What a draft is of: whose rows it prices, by whose price list, and to whom it is made out
    (apps/billing/invoices.py `buyer` and `draft`, apps/billing/rates.py `resolve_tariff`). */
module Drafts {
  import opened Options
  import opened Sequences
  import opened Text
  import opened Calendar
  import opened Decimals
  import opened Vat
  import opened Periods
  import opened Rates
  import opened BillingLaws
  import opened BillingFigures
  import opened Invoices
  import opened Ledger

  /******* The rows *******/

  ghost predicate Dated(rows: seq<Row>) {
    forall i :: 0 <= i < |rows| ==> ValidDate(rows[i].takenOn)
  }

  /** The domain's measurements of a month. */
  function MonthOf(rows: seq<Row>, domain: string, year: nat, month: nat): seq<Row> {
    if rows == [] then []
    else
      var row := rows[|rows| - 1];
      var before := MonthOf(rows[..|rows| - 1], domain, year, month);
      if row.domain == domain && row.takenOn.year == year && row.takenOn.month == month then before + [row] else before
  }

  /** From the first day to the last is the whole month, and nothing of another. */
  lemma {:induction false} BoundsCoverTheMonth(rows: seq<Row>, domain: string, year: nat, month: nat)
    requires Dated(rows) && 1 <= year <= 9999 && 1 <= month <= 12
    ensures RowsBetween(rows, domain, First(year, month), Last(year, month)) == MonthOf(rows, domain, year, month)
  {
    if rows != [] {
      BoundsCoverTheMonth(rows[..|rows| - 1], domain, year, month);
      InTheMonth(rows[|rows| - 1].takenOn, year, month);
    }
  }

  lemma InTheMonth(d: Date, year: nat, month: nat)
    requires ValidDate(d) && 1 <= year <= 9999 && 1 <= month <= 12
    ensures NotAfter(First(year, month), d) && NotAfter(d, Last(year, month)) <==> d.year == year && d.month == month
  {
  }

  /** The bill a draft is made from. */
  function BillOfMonth(w: World, account: string, domain: string, year: nat, month: nat): Bill {
    var tariff := ResolveTariff(w.tariffs, account);
    var rates := if tariff.Some? then RateMap(tariff.value.prices) else map[];
    BillWith(MonthOf(w.rows, domain, year, month), w.settings, rates)
  }

  /** A draft prices the account's own measurements of the month and no others; it names the
      account's domain, the month's first and last day, the currency of the price list, both
      parties, and how many days were measured. */
  lemma DraftSays(w: World, config: Config, account: string, domain: string, year: nat, month: nat, issuer: string)
    requires Dated(w.rows) && 1 <= year <= 9999 && 1 <= month <= 12
    ensures var c := Draft(w, config, account, domain, year, month, issuer);
            var tariff := ResolveTariff(w.tariffs, account);
            && c.lines == Billable(BillOfMonth(w, account, domain, year, month).lines)
            && c.daysMeasured == |Days(MonthOf(w.rows, domain, year, month))|
            && c.domain == domain && c.first == Date(year, month, 1) && c.last == Date(year, month, DaysIn(year, month))
            && c.daysInPeriod == DaysIn(year, month)
            && c.currency == (if tariff.Some? then tariff.value.currency else "UZS")
            && c.seller == config.seller && c.buyer == Buyer(w.profiles, account)
            && c.vatRate == config.vatRate && c.issuedBy == issuer
  {
    BoundsCoverTheMonth(w.rows, domain, year, month);
  }

  /** What one line of the document is: a priced resource that was held, its quantity the average of
      `sum` over the days measured, its amount that quantity at the list price. */
  ghost predicate Invoiced(lines: seq<InvoiceLine>, r: Resource, sum: nat, scale: nat, days: nat, rates: Prices)
    requires scale * days > 0
  {
    && ((exists i :: 0 <= i < |lines| && lines[i].resource == r) <==> sum > 0 && r in rates)
    && forall i :: 0 <= i < |lines| && lines[i].resource == r ==>
         && r in rates && lines[i].quantity == HalfUp(100 * sum, scale * days) && lines[i].unitPrice == rates[r]
         && lines[i].amount == HalfUp(lines[i].quantity * lines[i].unitPrice, 10000)
  }

  function AmountOf(l: InvoiceLine): nat { l.amount }

  lemma {:induction false} SumIs(lines: seq<InvoiceLine>)
    ensures SumOf(lines) == Total(lines, AmountOf)
  {
    if lines != [] {
      SumIs(lines[..|lines| - 1]);
    }
  }

  /** What is due: the sum of the lines' amounts is the total where prices contain the tax or there is
      none, and the subtotal where they do not. */
  lemma DraftAddsUp(w: World, config: Config, account: string, domain: string, year: nat, month: nat, issuer: string)
    ensures var c := Draft(w, config, account, domain, year, month, issuer);
            && c.subtotal + c.vat == c.total
            && (config.pricesIncludeVat || config.vatRate.coefficient == 0 ==> c.total == Total(c.lines, AmountOf))
            && (!config.pricesIncludeVat || config.vatRate.coefficient == 0 ==> c.subtotal == Total(c.lines, AmountOf))
  {
    DraftCloses(w, config, account, domain, year, month, issuer);
    SumIs(Draft(w, config, account, domain, year, month, issuer).lines);
  }

  lemma {:induction false} BillableAre(lines: seq<Line>)
    ensures forall x :: x in Billable(lines) <==>
              exists l :: l in lines && l.priced && x == InvoiceLine(l.resource, l.quantity, l.unitPrice, l.cost)
  {
    if lines != [] {
      var before, l := lines[..|lines| - 1], lines[|lines| - 1];
      BillableAre(before);
      assert lines == before + [l];
    }
  }

  lemma ChargedIsInvoiced(lines: seq<Line>, r: Resource, sum: nat, scale: nat, days: nat, rates: Prices)
    requires scale * days > 0 && Charges(lines, r, sum, scale, days, rates)
    ensures Invoiced(Billable(lines), r, sum, scale, days, rates)
  {
    var doc := Billable(lines);
    BillableAre(lines);
    forall i | 0 <= i < |doc| && doc[i].resource == r
      ensures r in rates && doc[i].quantity == HalfUp(100 * sum, scale * days) && doc[i].unitPrice == rates[r]
      ensures doc[i].amount == HalfUp(doc[i].quantity * doc[i].unitPrice, 10000) && sum > 0
    {
      assert doc[i] in doc;
      var l :| l in lines && l.priced && doc[i] == InvoiceLine(l.resource, l.quantity, l.unitPrice, l.cost);
      var k :| 0 <= k < |lines| && lines[k] == l;
    }
    if sum > 0 && r in rates {
      var k :| 0 <= k < |lines| && lines[k].resource == r;
      var x := InvoiceLine(lines[k].resource, lines[k].quantity, lines[k].unitPrice, lines[k].cost);
      assert lines[k] in lines && lines[k].priced;
      assert x in doc;
    }
  }

  /** The document's lines, resource by resource, in terms of the month's measurements. */
  lemma DraftInvoicesMeasurements(w: World, config: Config, account: string, domain: string, year: nat, month: nat,
                                  issuer: string)
    requires Dated(w.rows) && 1 <= year <= 9999 && 1 <= month <= 12
    requires MonthOf(w.rows, domain, year, month) != []
    requires var rows := MonthOf(w.rows, domain, year, month);
             forall r :: UnitDays(rows, Uncounted(Domains(rows), w.settings), r) < SAFE
    ensures var rows := MonthOf(w.rows, domain, year, month);
            var tariff := ResolveTariff(w.tariffs, account);
            var rates := if tariff.Some? then RateMap(tariff.value.prices) else map[];
            var lines, days := Draft(w, config, account, domain, year, month, issuer).lines, |Days(rows)|;
            && days > 0
            && Invoiced(lines, Vcpu, Total(rows, Vcpus), 1, days, rates)
            && Invoiced(lines, RamGb, Total(rows, RamMb), 1024, days, rates)
            && Invoiced(lines, SsdGb, Total(rows, SsdGib), 1, days, rates)
            && Invoiced(lines, HddGb, Total(rows, HddGib), 1, days, rates)
            && Invoiced(lines, ElasticIp, Total(rows, Addresses), 1, days, rates)
            && Invoiced(lines, SnapshotGb, ChargedSnapshots(rows, w.settings), 1, days, rates)
  {
    var rows := MonthOf(w.rows, domain, year, month);
    var tariff := ResolveTariff(w.tariffs, account);
    var rates := if tariff.Some? then RateMap(tariff.value.prices) else map[];
    var lines, days := BillOfMonth(w, account, domain, year, month).lines, |Days(rows)|;
    DraftSays(w, config, account, domain, year, month, issuer);
    BillChargesMeasurements(rows, w.settings, rates);
    ChargedIsInvoiced(lines, Vcpu, Total(rows, Vcpus), 1, days, rates);
    ChargedIsInvoiced(lines, RamGb, Total(rows, RamMb), 1024, days, rates);
    ChargedIsInvoiced(lines, SsdGb, Total(rows, SsdGib), 1, days, rates);
    ChargedIsInvoiced(lines, HddGb, Total(rows, HddGib), 1, days, rates);
    ChargedIsInvoiced(lines, ElasticIp, Total(rows, Addresses), 1, days, rates);
    ChargedIsInvoiced(lines, SnapshotGb, ChargedSnapshots(rows, w.settings), 1, days, rates);
  }

  /** A month without measurements is a draft of nothing. */
  lemma DraftOfNothing(w: World, config: Config, account: string, domain: string, year: nat, month: nat, issuer: string)
    requires Dated(w.rows) && 1 <= year <= 9999 && 1 <= month <= 12 && MonthOf(w.rows, domain, year, month) == []
    ensures var c := Draft(w, config, account, domain, year, month, issuer);
            c.lines == [] && c.daysMeasured == 0 && (config.vatRate.coefficient == 0 ==> c.total == 0)
  {
    var tariff := ResolveTariff(w.tariffs, account);
    DraftSays(w, config, account, domain, year, month, issuer);
    NothingCharged(w.settings, if tariff.Some? then RateMap(tariff.value.prices) else map[]);
    WholeCents(0);
    assert Days([]) == {};
  }

  /** Worlds that agree on the account's measurements of the month, in whatever order, and on prices,
      requisites and backup settings, have the same draft, whatever else they hold. */
  lemma DraftDependsOnItsMonth(w: World, w': World, config: Config, account: string, domain: string, year: nat,
                               month: nat, issuer: string)
    requires Dated(w.rows) && Dated(w'.rows) && 1 <= year <= 9999 && 1 <= month <= 12
    requires multiset(MonthOf(w.rows, domain, year, month)) == multiset(MonthOf(w'.rows, domain, year, month))
    requires w.tariffs == w'.tariffs && w.profiles == w'.profiles && w.settings == w'.settings
    ensures Draft(w, config, account, domain, year, month, issuer) == Draft(w', config, account, domain, year, month, issuer)
  {
    var tariff := ResolveTariff(w.tariffs, account);
    var rates := if tariff.Some? then RateMap(tariff.value.prices) else map[];
    BoundsCoverTheMonth(w.rows, domain, year, month);
    BoundsCoverTheMonth(w'.rows, domain, year, month);
    BillIgnoresOrder(MonthOf(w.rows, domain, year, month), MonthOf(w'.rows, domain, year, month), w.settings, rates);
  }

  /******* The price list and the buyer *******/

  lemma {:induction false} FoundTariff(tariffs: seq<Tariff>, account: string, own: bool)
    ensures var found := FindTariff(tariffs, account, own);
            && (found.Some? ==> found.value in tariffs && found.value.active
                                && if own then SameName(found.value.account, account) else found.value.account == "")
            && (found.None? ==> forall t :: t in tariffs && t.active ==>
                                  if own then !SameName(t.account, account) else t.account != "")
  {
    if tariffs != [] {
      FoundTariff(tariffs[1..], account, own);
      assert tariffs == [tariffs[0]] + tariffs[1..];
    }
  }

  /** The account's own active price list, whatever its case; failing that the shared one; failing
      that none. */
  lemma TariffIs(tariffs: seq<Tariff>, account: string)
    ensures var found := ResolveTariff(tariffs, account);
            if exists t :: t in tariffs && t.active && SameName(t.account, account) then
              found.Some? && found.value in tariffs && found.value.active && SameName(found.value.account, account)
            else if exists t :: t in tariffs && t.active && t.account == "" then
              found.Some? && found.value in tariffs && found.value.active && found.value.account == ""
            else found.None?
  {
    FoundTariff(tariffs, account, true);
    FoundTariff(tariffs, account, false);
  }

  lemma {:induction false} FoundProfile(profiles: seq<Profile>, account: string)
    ensures var found := FindProfile(profiles, account);
            && (found.Some? ==> found.value in profiles && SameName(found.value.account, account))
            && (found.None? ==> forall p :: p in profiles ==> !SameName(p.account, account))
  {
    if profiles != [] {
      FoundProfile(profiles[1..], account);
      assert profiles == [profiles[0]] + profiles[1..];
    }
  }

  /** The buyer is the account, under its legal name if its profile, found whatever its case, gives
      one and under its own otherwise, with the profile's requisites or empty ones. */
  lemma BuyerIs(profiles: seq<Profile>, account: string)
    ensures var b := Buyer(profiles, account);
            && b.Keys == {"account", "name", "taxId", "address", "contract", "director", "email", "phone"}
            && b["account"] == account && (b["name"] == "" ==> account == "")
    ensures var b := Buyer(profiles, account);
            if exists p :: p in profiles && SameName(p.account, account) then
              exists p :: p in profiles && SameName(p.account, account) && Names(b, p, account)
            else b["name"] == account && forall k :: k in b && k != "account" && k != "name" ==> b[k] == ""
  {
    FoundProfile(profiles, account);
    var found := FindProfile(profiles, account);
    if found.Some? {
      assert Names(Buyer(profiles, account), found.value, account);
    }
  }

  ghost predicate Names(b: Party, p: Profile, account: string)
    requires b.Keys == {"account", "name", "taxId", "address", "contract", "director", "email", "phone"}
  {
    && b["account"] == account && b["name"] == (if p.legalName != "" then p.legalName else account)
    && b["taxId"] == p.taxId && b["address"] == p.address && b["contract"] == p.contract
    && b["director"] == p.director && b["email"] == p.email && b["phone"] == p.phone
  }
}
