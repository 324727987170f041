/** Issued invoices and their numbers: the table of apps/billing/models.py (`Invoice`) and
    `next_number` of apps/billing/invoices.py. */
module Invoices {
  import opened Options
  import opened Calendar
  import opened Decimals
  import opened Rates
  import opened Text
  import opened Numbering

  type Party = map<string, string>

  datatype InvoiceLine = InvoiceLine(resource: Resource, quantity: nat, unitPrice: nat, amount: nat)

  /** All that a document says besides its number, its account and its period. */
  datatype Content = Content(
    domain: string, first: Date, last: Date, currency: string, lines: seq<InvoiceLine>,
    subtotal: nat, vatRate: Decimal, vat: int, total: nat, seller: Party, buyer: Party,
    daysMeasured: nat, daysInPeriod: nat, issuedBy: string)

  datatype Invoice = Invoice(number: string, seqNo: nat, account: string, period: string, content: Content)

  /** The table, in the order in which the invoices were committed. */
  type Table = seq<Invoice>

  function YearOf(inv: Invoice): nat {
    inv.content.first.year
  }

  function Max(a: nat, b: nat): nat {
    if a < b then b else a
  }

  /** The highest sequence number among the invoices whose number starts with the year's prefix. */
  function LastSeq(table: Table, year: nat): nat {
    if table == [] then 0
    else
      var last := table[|table| - 1];
      Max(LastSeq(table[..|table| - 1], year), if Prefix(year) <= last.number then last.seqNo else 0)
  }

  /** `next_number`. */
  function NextSeq(table: Table, year: nat): nat {
    LastSeq(table, year) + 1
  }

  /** The issued invoice of an account, ignoring case, for a period. */
  function Existing(table: Table, account: string, period: string): Option<Invoice> {
    if table == [] then None
    else
      var found := Existing(table[..|table| - 1], account, period);
      var last := table[|table| - 1];
      if found.Some? then found
      else if SameName(last.account, account) && last.period == period then Some(last)
      else None
  }

  /** The unique constraints: a number, and an account (as spelled) with its period. */
  predicate Clashes(table: Table, number: string, account: string, period: string) {
    exists i :: 0 <= i < |table| && (table[i].number == number || Owns(table[i], account, period))
  }

  predicate Owns(inv: Invoice, account: string, period: string) {
    inv.account == account && inv.period == period
  }

  /******* Gapless numbering *******/

  function Count(table: Table, year: nat): nat {
    if table == [] then 0
    else Count(table[..|table| - 1], year) + if YearOf(table[|table| - 1]) == year then 1 else 0
  }

  /** The k-th invoice of a year, in order of commit, carries number k of that year. */
  ghost predicate Gapless(table: Table) {
    forall i :: 0 <= i < |table| ==>
      && table[i].seqNo == Count(table[..i], YearOf(table[i])) + 1
      && table[i].number == Number(YearOf(table[i]), table[i].seqNo)
  }

  lemma {:induction false} CountGrows(table: Table, n: nat, year: nat)
    requires n <= |table|
    ensures Count(table[..n], year) <= Count(table, year)
    ensures n < |table| && YearOf(table[n]) == year ==> Count(table[..n], year) < Count(table, year)
    decreases |table|
  {
    if n == |table| {
      assert table[..n] == table;
    } else {
      var before := table[..|table| - 1];
      assert before[..n] == table[..n];
      CountGrows(before, n, year);
    }
  }

  /** Conversely every number up to the count was given to some invoice of the year. */
  lemma {:induction false} NumberTaken(table: Table, year: nat, k: nat) returns (i: nat)
    requires Gapless(table) && 1 <= k <= Count(table, year)
    ensures i < |table| && YearOf(table[i]) == year && table[i].seqNo == k && table[i].number == Number(year, k)
  {
    var n := |table| - 1;
    if YearOf(table[n]) == year && k == Count(table, year) {
      i := n;
    } else {
      assert forall j :: 0 <= j < n ==> table[..n][..j] == table[..j];
      i := NumberTaken(table[..n], year, k);
    }
  }

  predicate Given(table: Table, year: nat, k: nat) {
    exists i :: 0 <= i < |table| && YearOf(table[i]) == year && table[i].seqNo == k
  }

  /** What gapless means: the numbers given in a year are exactly 1 to n, n being the year's
      invoices, so each of them was given once. */
  lemma GaplessMeans(table: Table, year: nat, k: nat)
    requires Gapless(table)
    ensures Given(table, year, k) <==> 1 <= k <= Count(table, year)
  {
    if 1 <= k <= Count(table, year) {
      var i := NumberTaken(table, year, k);
    }
    if Given(table, year, k) {
      var i :| 0 <= i < |table| && YearOf(table[i]) == year && table[i].seqNo == k;
      CountGrows(table, i, year);
    }
  }

  /** No two invoices, of one year or of two, are printed with the same number. */
  lemma NumbersDiffer(table: Table, i: nat, j: nat)
    requires Gapless(table) && i < j < |table|
    ensures table[i].number != table[j].number
  {
    NumbersAreUnique(YearOf(table[i]), table[i].seqNo, YearOf(table[j]), table[j].seqNo);
    assert table[..j][..i] == table[..i] && table[..j][i] == table[i];
    CountGrows(table[..j], i, YearOf(table[i]));
  }

  /** Reading the maximum is counting. */
  lemma {:induction false} LastIsCount(table: Table, year: nat)
    requires Gapless(table)
    ensures LastSeq(table, year) == Count(table, year)
  {
    if table != [] {
      var n := |table| - 1;
      assert forall j :: 0 <= j < n ==> table[..n][..j] == table[..j];
      LastIsCount(table[..n], year);
      PrefixFindsYear(year, YearOf(table[n]), table[n].seqNo);
    }
  }

  lemma AppendGapless(table: Table, inv: Invoice)
    requires Gapless(table)
    requires inv.seqNo == Count(table, YearOf(inv)) + 1 && inv.number == Number(YearOf(inv), inv.seqNo)
    ensures Gapless(table + [inv])
  {
    var after := table + [inv];
    assert after[..|table|] == table;
    forall i | 0 <= i < |table|
      ensures after[i] == table[i] && after[..i] == table[..i]
    {
    }
  }

  lemma {:induction false} ExistingIs(table: Table, account: string, period: string)
    ensures var found := Existing(table, account, period);
            && (found.Some? ==> found.value in table && SameName(found.value.account, account)
                                && found.value.period == period)
            && (found.None? ==> forall inv :: inv in table ==> !(SameName(inv.account, account) && inv.period == period))
  {
    if table != [] {
      ExistingIs(table[..|table| - 1], account, period);
      assert table == table[..|table| - 1] + [table[|table| - 1]];
    }
  }
}
