/** Drafting and issuing, and what a ledger keeps while everything else is edited:
    apps/billing/invoices.py (`buyer`, `draft`, `issue`) and apps/billing/rates.py
    (`resolve_tariff`). */
module Ledger {
  import opened Options
  import opened Calendar
  import opened Decimals
  import opened Vat
  import opened Rates
  import opened BillingLaws
  import opened Text
  import opened Numbering
  import opened Periods
  import opened Invoices
  import opened Issuing

  datatype Tariff = Tariff(account: string, active: bool, currency: string, prices: Prices)
  datatype Profile = Profile(
    account: string, legalName: string, taxId: string, address: string, contract: string, director: string,
    email: string, phone: string)

  /** Settings that stay as they are for a whole run. */
  datatype Config = Config(seller: Party, vatRate: Decimal, pricesIncludeVat: bool)

  datatype World = World(
    tariffs: seq<Tariff>, profiles: seq<Profile>, settings: Settings, rows: seq<Row>, invoices: Table)

  const NEW_WORLD := World([], [], map[], [], [])

  /** The first active price list that is the account's own (`own`), or the shared one. */
  function FindTariff(tariffs: seq<Tariff>, account: string, own: bool): Option<Tariff> {
    if tariffs == [] then None
    else
      var t := tariffs[0];
      if t.active && (if own then SameName(t.account, account) else t.account == "") then Some(t)
      else FindTariff(tariffs[1..], account, own)
  }

  function ResolveTariff(tariffs: seq<Tariff>, account: string): Option<Tariff> {
    var mine := FindTariff(tariffs, account, true);
    if mine.Some? then mine else FindTariff(tariffs, account, false)
  }

  function FindProfile(profiles: seq<Profile>, account: string): Option<Profile> {
    if profiles == [] then None
    else if SameName(profiles[0].account, account) then Some(profiles[0])
    else FindProfile(profiles[1..], account)
  }

  function Buyer(profiles: seq<Profile>, account: string): Party {
    match FindProfile(profiles, account)
    case None =>
      map["account" := account, "name" := account, "taxId" := "", "address" := "", "contract" := "", "director" := "",
          "email" := "", "phone" := ""]
    case Some(p) =>
      map["account" := account, "name" := if p.legalName == "" then account else p.legalName, "taxId" := p.taxId,
          "address" := p.address, "contract" := p.contract, "director" := p.director, "email" := p.email,
          "phone" := p.phone]
  }

  /** The account's rows of a period. */
  function RowsBetween(rows: seq<Row>, domain: string, first: Date, last: Date): seq<Row> {
    if rows == [] then []
    else
      var row := rows[|rows| - 1];
      RowsBetween(rows[..|rows| - 1], domain, first, last) +
      if row.domain == domain && NotAfter(first, row.takenOn) && NotAfter(row.takenOn, last) then [row] else []
  }

  /** The document's lines: those that have a price. */
  function Billable(lines: seq<Line>): seq<InvoiceLine> {
    if lines == [] then []
    else
      var l := lines[|lines| - 1];
      Billable(lines[..|lines| - 1]) + if l.priced then [InvoiceLine(l.resource, l.quantity, l.unitPrice, l.cost)] else []
  }

  function SumOf(lines: seq<InvoiceLine>): nat {
    if lines == [] then 0 else SumOf(lines[..|lines| - 1]) + lines[|lines| - 1].amount
  }

  /** `draft`, as it would be frozen today. */
  function Draft(w: World, config: Config, account: string, domain: string, year: nat, month: nat, issuer: string): Content {
    var tariff := ResolveTariff(w.tariffs, account);
    var rates := if tariff.Some? then RateMap(tariff.value.prices) else map[];
    var bill := BillWith(RowsBetween(w.rows, domain, First(year, month), Last(year, month)), w.settings, rates);
    var lines := Billable(bill.lines);
    var split := SplitVat(Cents(SumOf(lines)), config.vatRate, config.pricesIncludeVat);
    Content(domain, First(year, month), Last(year, month), if tariff.Some? then tariff.value.currency else "UZS",
            lines, split.subtotal, config.vatRate, split.vat, split.total, config.seller, Buyer(w.profiles, account),
            bill.days, DaysIn(year, month), issuer)
  }

  /** `issue`, with nobody else issuing meanwhile: the first attempt commits. */
  function Issue(w: World, config: Config, account: string, domain: string, year: nat, month: nat, issuer: string):
    (World, Invoice)
  {
    var period := Label(year, month);
    var found := Existing(w.invoices, account, period);
    if found.Some? then (w, found.value)
    else
      var seqNo := NextSeq(w.invoices, year);
      var content := Draft(w, config, account, domain, year, month, issuer);
      var doc := Invoice(Number(year, seqNo), seqNo, account, period, content);
      (w.(invoices := w.invoices + [doc]), doc)
  }

  /** Anything that edits prices, requisites, backup settings or measurements, and issuing. */
  datatype Event =
    | SetTariffs(tariffs: seq<Tariff>)
    | SetProfiles(profiles: seq<Profile>)
    | SetBackups(settings: Settings)
    | SetRows(rows: seq<Row>)
    | IssueMonth(account: string, domain: string, year: nat, month: nat, issuer: string)

  function Happen(w: World, config: Config, e: Event): World {
    match e
    case SetTariffs(tariffs) => w.(tariffs := tariffs)
    case SetProfiles(profiles) => w.(profiles := profiles)
    case SetBackups(settings) => w.(settings := settings)
    case SetRows(rows) => w.(rows := rows)
    case IssueMonth(account, domain, year, month, issuer) => Issue(w, config, account, domain, year, month, issuer).0
  }

  function Run(w: World, config: Config, events: seq<Event>): World {
    if events == [] then w else Happen(Run(w, config, events[..|events| - 1]), config, events[|events| - 1])
  }

  /******* The document closes *******/

  /** Every amount is the half-up product of its quantity and price, and the lines add up to
      the side of the tax on which prices are quoted. */
  ghost predicate Closes(config: Config, c: Content) {
    && (forall i :: 0 <= i < |c.lines| ==>
          c.lines[i].amount == Cost(c.lines[i].quantity, c.lines[i].unitPrice) && c.lines[i].unitPrice > 0)
    && c.vatRate == config.vatRate && c.subtotal + c.vat == c.total
    && (config.vatRate.coefficient == 0 || config.pricesIncludeVat ==> SumOf(c.lines) == c.total)
    && (config.vatRate.coefficient == 0 || !config.pricesIncludeVat ==> SumOf(c.lines) == c.subtotal)
  }

  lemma {:induction false} BillableLines(lines: seq<Line>, rates: Prices)
    requires forall i :: 0 <= i < |lines| ==>
               lines[i].cost == Cost(lines[i].quantity, lines[i].unitPrice)
               && lines[i].unitPrice == PriceOf(rates, lines[i].resource)
               && lines[i].priced == (lines[i].resource in rates) && (!lines[i].priced ==> lines[i].cost == 0)
    requires forall r :: r in rates ==> rates[r] > 0
    ensures var b := Billable(lines);
            && (forall i :: 0 <= i < |b| ==> b[i].amount == Cost(b[i].quantity, b[i].unitPrice) && b[i].unitPrice > 0)
            && SumOf(b) == TotalOf(lines)
  {
    if lines != [] {
      var before, l := lines[..|lines| - 1], lines[|lines| - 1];
      BillableLines(before, rates);
      if l.priced {
        assert Billable(lines)[..|Billable(lines)| - 1] == Billable(before);
      } else {
        assert Billable(lines) == Billable(before);
      }
    }
  }

  lemma BillLinesAreFine(rows: seq<Row>, settings: Settings, rates: Prices)
    ensures var lines := BillWith(rows, settings, rates).lines;
            forall i :: 0 <= i < |lines| ==>
              lines[i].cost == Cost(lines[i].quantity, lines[i].unitPrice)
              && lines[i].unitPrice == PriceOf(rates, lines[i].resource)
              && lines[i].priced == (lines[i].resource in rates) && (!lines[i].priced ==> lines[i].cost == 0)
  {
    var off := Uncounted(Domains(rows), settings);
    var lines := BillWith(rows, settings, rates).lines;
    LinesAreHeld(SORTED, Held(rows, off), |Days(rows)|, rates);
    forall i | 0 <= i < |lines|
      ensures lines[i].cost == Cost(lines[i].quantity, lines[i].unitPrice)
              && lines[i].unitPrice == PriceOf(rates, lines[i].resource)
              && lines[i].priced == (lines[i].resource in rates) && (!lines[i].priced ==> lines[i].cost == 0)
    {
      LineMultipliesOut(UnitDays(rows, off, lines[i].resource), |Days(rows)|, rates, lines[i].resource);
    }
  }

  /** Dropping the unpriced lines loses nothing: they cost nothing. */
  lemma DraftCloses(w: World, config: Config, account: string, domain: string, year: nat, month: nat, issuer: string)
    ensures Closes(config, Draft(w, config, account, domain, year, month, issuer))
  {
    var tariff := ResolveTariff(w.tariffs, account);
    var rates := if tariff.Some? then RateMap(tariff.value.prices) else map[];
    var rows := RowsBetween(w.rows, domain, First(year, month), Last(year, month));
    var bill := BillWith(rows, w.settings, rates);
    BillLinesAreFine(rows, w.settings, rates);
    BillableLines(bill.lines, rates);
    WholeCents(SumOf(Billable(bill.lines)));
  }

  /******* Whole runs *******/

  ghost predicate Sound(config: Config, table: Table) {
    && Gapless(table) && OncePerName(table)
    && forall i :: 0 <= i < |table| ==> Closes(config, table[i].content)
  }

  lemma IssueSound(w: World, config: Config, account: string, domain: string, year: nat, month: nat, issuer: string)
    requires Sound(config, w.invoices)
    ensures Sound(config, Issue(w, config, account, domain, year, month, issuer).0.invoices)
  {
    var period := Label(year, month);
    ExistingIs(w.invoices, account, period);
    if Existing(w.invoices, account, period).None? {
      var doc := Issue(w, config, account, domain, year, month, issuer).1;
      LastIsCount(w.invoices, year);
      AppendGapless(w.invoices, doc);
      DraftCloses(w, config, account, domain, year, month, issuer);
      AppendNew(config, w.invoices, doc);
    }
  }

  lemma AppendNew(config: Config, table: Table, doc: Invoice)
    requires OncePerName(table) && forall i :: 0 <= i < |table| ==> Closes(config, table[i].content)
    requires Closes(config, doc.content)
    requires forall inv :: inv in table ==> !(SameName(inv.account, doc.account) && inv.period == doc.period)
    ensures OncePerName(table + [doc])
    ensures forall i :: 0 <= i < |table + [doc]| ==> Closes(config, (table + [doc])[i].content)
  {
    forall i | 0 <= i < |table|
      ensures !(SameName(table[i].account, doc.account) && table[i].period == doc.period)
    {
      assert table[i] in table;
    }
  }

  lemma HappenSound(w: World, config: Config, e: Event)
    requires Sound(config, w.invoices)
    ensures Sound(config, Happen(w, config, e).invoices)
  {
    if e.IssueMonth? {
      IssueSound(w, config, e.account, e.domain, e.year, e.month, e.issuer);
    }
  }

  lemma HappenAppends(w: World, config: Config, e: Event)
    ensures w.invoices <= Happen(w, config, e).invoices
  {
  }

  lemma {:induction false} RunSound(w: World, config: Config, events: seq<Event>)
    requires Sound(config, w.invoices)
    ensures Sound(config, Run(w, config, events).invoices) && w.invoices <= Run(w, config, events).invoices
  {
    if events != [] {
      var before, e := events[..|events| - 1], events[|events| - 1];
      RunSound(w, config, before);
      HappenSound(Run(w, config, before), config, e);
      HappenAppends(Run(w, config, before), config, e);
    }
  }

  /** The frozen ledger.  Along any run of price, requisites, backup-setting and measurement
      edits and of issues: what is issued stays first to last as it was, in lines, figures and
      parties; the numbers of every year are gapless; there is at most one invoice per account,
      ignoring case, and period; and every document adds up. */
  lemma LedgerIsFrozen(config: Config, events: seq<Event>, more: seq<Event>, year: nat, k: nat)
    ensures var w := Run(NEW_WORLD, config, events);
            var t := Run(w, config, more).invoices;
            && w.invoices <= t && OncePerName(t)
            && (Given(t, year, k) <==> 1 <= k <= Count(t, year))
            && (forall i :: 0 <= i < |t| ==> Closes(config, t[i].content))
  {
    RunSound(NEW_WORLD, config, events);
    RunSound(Run(NEW_WORLD, config, events), config, more);
    GaplessMeans(Run(Run(NEW_WORLD, config, events), config, more).invoices, year, k);
  }

  /** Issuing an account's month again, in whatever case and after whatever edits, hands back
      the very document that was issued first and changes nothing. */
  lemma ReissueReturnsTheSame(config: Config, events: seq<Event>, more: seq<Event>, account: string, domain: string,
                              year: nat, month: nat, issuer: string, account': string, domain': string, issuer': string)
    requires SameName(account, account')
    ensures var w := Run(NEW_WORLD, config, events);
            var (w1, doc) := Issue(w, config, account, domain, year, month, issuer);
            var w2 := Run(w1, config, more);
            Issue(w2, config, account', domain', year, month, issuer') == (w2, doc)
  {
    var w := Run(NEW_WORLD, config, events);
    var (w1, doc) := Issue(w, config, account, domain, year, month, issuer);
    var w2 := Run(w1, config, more);
    RunSound(NEW_WORLD, config, events);
    IssueSound(w, config, account, domain, year, month, issuer);
    RunSound(w1, config, more);
    ExistingIs(w.invoices, account, Label(year, month));
    assert doc in w1.invoices;
    var i :| 0 <= i < |w1.invoices| && w1.invoices[i] == doc;
    assert w2.invoices[i] == doc;
    OnlyOneExists(w2.invoices, i, account', Label(year, month));
  }

  lemma OnlyOneExists(table: Table, i: nat, account: string, period: string)
    requires OncePerName(table) && i < |table|
    requires SameName(table[i].account, account) && table[i].period == period
    ensures Existing(table, account, period) == Some(table[i])
  {
    ExistingIs(table, account, period);
    var found := Existing(table, account, period);
    assert table[i] in table;
    var j :| 0 <= j < |table| && table[j] == found.value;
    if j < i {
      assert SameName(table[j].account, table[i].account);
    } else if i < j {
      assert SameName(table[i].account, table[j].account);
    }
  }

  /** An issue by an account that has none yet for the month freezes today's draft. */
  lemma FirstIssueFreezesTheDraft(w: World, config: Config, account: string, domain: string, year: nat, month: nat,
                                  issuer: string)
    requires Sound(config, w.invoices)
    requires forall inv :: inv in w.invoices ==> !(SameName(inv.account, account) && inv.period == Label(year, month))
    ensures var doc := Issue(w, config, account, domain, year, month, issuer).1;
            && doc.content == Draft(w, config, account, domain, year, month, issuer)
            && doc.number == Number(year, Count(w.invoices, year) + 1) && doc.account == account
  {
    ExistingIs(w.invoices, account, Label(year, month));
    assert Existing(w.invoices, account, Label(year, month)).None?;
    LastIsCount(w.invoices, year);
  }
}
