/** `issue` as one administrator's request runs it, while others commit invoices in between. */
module LedgerTable {
  import opened Options
  import opened Text
  import opened Numbering
  import opened Invoices
  import opened Issuing

  function Flat(batches: seq<Table>): Table {
    if batches == [] then [] else Flat(batches[..|batches| - 1]) + batches[|batches| - 1]
  }

  /** What others commit, batch by batch, keeps the table gapless and its constraints. */
  ghost predicate Admissible(table: Table, others: seq<Table>) {
    forall k :: 0 <= k <= |others| ==>
      Gapless(table + Flat(others[..k])) && OncePerSpelling(table + Flat(others[..k]))
  }

  /** The document under the next number of its year. */
  function NextDocument(table: Table, account: string, period: string, content: Content): Invoice {
    var seqNo := Count(table, content.first.year) + 1;
    Invoice(Number(content.first.year, seqNo), seqNo, account, period, content)
  }

  class Ledger {
    var table: Table

    constructor ()
      ensures table == []
    {
      table := [];
    }

    /** `others[k]` is what the rest of the world commits between the k-th read of the highest
        number and the insert that follows it.  Either an existing invoice is returned, or the
        document is inserted under the next number of its year after the batches that landed
        first, or all five attempts clashed: then the account's own invoice appeared meanwhile,
        or five others of its year did. */
    method Issue(account: string, period: string, content: Content, others: seq<Table>)
      returns (invoice: Option<Invoice>, attempts: nat)
      requires |others| == MAX_ATTEMPTS && Admissible(table, others)
      modifies this
      ensures attempts <= MAX_ATTEMPTS
      ensures var found := Existing(old(table), account, period);
              found.Some? ==> invoice == found && attempts == 0 && table == old(table)
      ensures Existing(old(table), account, period).None? && invoice.None? ==>
                && attempts == MAX_ATTEMPTS && table == old(table) + Flat(others)
                && Overtook(old(table), table, account, period, content)
      ensures Existing(old(table), account, period).None? && invoice.Some? ==>
                Committed(old(table) + Flat(others[..attempts]), table, account, period, content, invoice.value)
    {
      var found := Existing(table, account, period);
      if found.Some? {
        return found, 0;
      }
      invoice, attempts := Allocate(account, period, content, others);
    }

    /** The loop: at most five attempts, others committing in each. */
    method Allocate(account: string, period: string, content: Content, others: seq<Table>)
      returns (invoice: Option<Invoice>, attempts: nat)
      requires |others| == MAX_ATTEMPTS && Admissible(table, others) && Existing(table, account, period).None?
      modifies this
      ensures attempts <= MAX_ATTEMPTS
      ensures invoice.None? ==>
                && attempts == MAX_ATTEMPTS && table == old(table) + Flat(others)
                && Overtook(old(table), table, account, period, content)
      ensures invoice.Some? ==>
                Committed(old(table) + Flat(others[..attempts]), table, account, period, content, invoice.value)
    {
      ghost var base := Count(table, content.first.year);
      ghost var checked := |table|;
      invoice, attempts := None, 0;
      assert table + Flat(others[..0]) == table;
      NothingTried(table, account, period, content);
      while attempts < MAX_ATTEMPTS
        invariant attempts <= MAX_ATTEMPTS && invoice.None?
        invariant table == old(table) + Flat(others[..attempts])
        invariant JobSound(table, Tried(account, period, content, checked, base, attempts))
      {
        Landing(old(table), others, attempts);
        TriedOn(table, account, period, content, checked, base, attempts);
        invoice := Attempt(account, period, content, others[attempts],
                           Tried(account, period, content, checked, base, attempts));
        attempts := attempts + 1;
        if invoice.Some? {
          return;
        }
      }
      assert others[..attempts] == others;
      AllTried(old(table), table, account, period, content);
    }

    /** One read of the highest number, others' commits, and one insert. */
    method Attempt(account: string, period: string, content: Content, landing: Table, ghost j: Issuer)
      returns (invoice: Option<Invoice>)
      requires j.account == account && j.period == period && j.content == content
      requires JobSound(table, j) && j.stage.Reading? && Gapless(table)
      requires Gapless(table + landing) && OncePerSpelling(table + landing)
      modifies this
      ensures invoice.None? ==> table == old(table) + landing && JobSound(table, Clashed(AtInsert(old(table), j)))
      ensures invoice.Some? ==> Committed(old(table) + landing, table, account, period, content, invoice.value)
    {
      var seqNo := NextSeq(table, content.first.year);
      ghost var inserting := AtInsert(table, j);
      ReadIsSound(table, landing, j);
      table := table + landing;
      var doc := Invoice(Number(content.first.year, seqNo), seqNo, account, period, content);
      assert doc == Document(inserting, seqNo);
      if Clashes(table, doc.number, account, period) {
        ClashMeansOvertaken(table, inserting);
        return None;
      }
      CommitTakesNext(table, inserting);
      CommitIsNext(table, inserting);
      table := table + [doc];
      return Some(doc);
    }
  }

  /** The document is in the table under the next number of its year, and the table still keeps
      its constraints. */
  ghost predicate Committed(landed: Table, after: Table, account: string, period: string, content: Content, doc: Invoice) {
    && after == landed + [doc] && Gapless(after) && OncePerSpelling(after)
    && doc == NextDocument(landed, account, period, content)
  }

  /** The account's own invoice for the period appeared meanwhile, or five of its year did. */
  ghost predicate Overtook(before: Table, after: Table, account: string, period: string, content: Content) {
    || (exists i :: |before| <= i < |after| && Owns(after[i], account, period))
    || Count(after, content.first.year) >= Count(before, content.first.year) + MAX_ATTEMPTS
  }

  /** The issuer after so many clashes. */
  function Tried(account: string, period: string, content: Content, checked: nat, base: nat, clashes: nat): Issuer {
    Issuer(account, period, content, checked,
           if clashes >= MAX_ATTEMPTS then GaveUp(base) else Reading(clashes, if clashes == 0 then 0 else base))
  }

  lemma NothingTried(table: Table, account: string, period: string, content: Content)
    requires Existing(table, account, period).None?
    ensures JobSound(table, Tried(account, period, content, |table|, Count(table, content.first.year), 0))
  {
    ExistingIs(table, account, period);
  }

  lemma TriedOn(table: Table, account: string, period: string, content: Content, checked: nat, base: nat, k: nat)
    requires k < MAX_ATTEMPTS && (k == 0 ==> base == Count(table, content.first.year))
    ensures Clashed(AtInsert(table, Tried(account, period, content, checked, base, k)))
         == Tried(account, period, content, checked, base, k + 1)
  {
  }

  lemma AllTried(before: Table, after: Table, account: string, period: string, content: Content)
    requires JobSound(after, Tried(account, period, content, |before|, Count(before, content.first.year), MAX_ATTEMPTS))
    ensures Overtook(before, after, account, period, content)
  {
  }

  lemma ReadIsSound(table: Table, landing: Table, j: Issuer)
    requires Gapless(table) && JobSound(table, j) && j.stage.Reading?
    ensures NextSeq(table, YearOfJob(j)) == AtInsert(table, j).stage.seqNo
    ensures JobSound(table + landing, AtInsert(table, j))
  {
    LastIsCount(table, YearOfJob(j));
    JobStaysLong(table, landing, AtInsert(table, j));
  }

  /** The issuer between its read and its insert. */
  function AtInsert(table: Table, j: Issuer): Issuer
    requires j.stage.Reading?
  {
    var count := Count(table, YearOfJob(j));
    j.(stage := Inserting(j.stage.failed, if j.stage.failed == 0 then count else j.stage.base, count + 1))
  }

  lemma Landing(start: Table, others: seq<Table>, k: nat)
    requires Admissible(start, others) && k < |others|
    ensures var now := start + Flat(others[..k]);
            && Gapless(now) && Gapless(now + others[k]) && OncePerSpelling(now + others[k])
            && now + others[k] == start + Flat(others[..k + 1])
  {
    assert others[..k + 1][..k] == others[..k];
    assert start + Flat(others[..k]) + others[k] == start + Flat(others[..k + 1]);
    assert Gapless(start + Flat(others[..k])) && Gapless(start + Flat(others[..k + 1]));
  }

  lemma CommitIsNext(table: Table, j: Issuer)
    requires Gapless(table) && JobSound(table, j) && j.stage.Inserting?
    requires !Clashes(table, Document(j, j.stage.seqNo).number, j.account, j.period)
    ensures j.stage.seqNo == Count(table, YearOfJob(j)) + 1
  {
    if j.stage.seqNo <= Count(table, YearOfJob(j)) {
      var i := NumberTaken(table, YearOfJob(j), j.stage.seqNo);
    }
  }
}
