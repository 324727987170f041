/** `issue` of apps/billing/invoices.py run by any number of issuers at once: each checks for
    an existing invoice, drafts, and then reads the highest number and inserts under the
    unique constraints, at most five times.  An insert commits atomically or clashes. */
module Issuing {
  import opened Options
  import opened Text
  import opened Numbering
  import opened Invoices

  const MAX_ATTEMPTS: nat := 5

  /** `failed` counts clashes so far; `base` is the year's count at the first read. */
  datatype Stage =
    | Arrived
    | Reading(failed: nat, base: nat)
    | Inserting(failed: nat, base: nat, seqNo: nat)
    | Returned(invoice: Invoice)
    | GaveUp(base: nat)

  /** `checked` is the length of the table when the issuer looked for an existing invoice. */
  datatype Issuer = Issuer(account: string, period: string, content: Content, checked: nat, stage: Stage)

  datatype State = State(table: Table, issuers: map<nat, Issuer>)

  /** `Check` fixes the content: it is whatever prices, profile and settings made of it then,
      and may differ from what they would make of it at any other step. */
  datatype Step =
    | Arrive(id: nat, account: string, period: string, content: Content)
    | Check(id: nat, content: Content)
    | Read(id: nat)
    | Insert(id: nat)

  const START := State([], map[])

  function YearOfJob(j: Issuer): nat {
    j.content.first.year
  }

  function Document(j: Issuer, seqNo: nat): Invoice {
    Invoice(Number(YearOfJob(j), seqNo), seqNo, j.account, j.period, j.content)
  }

  predicate Enabled(s: State, step: Step) {
    match step
    case Arrive(id, _, _, _) => id !in s.issuers
    case Check(id, _) => id in s.issuers && s.issuers[id].stage.Arrived?
    case Read(id) => id in s.issuers && s.issuers[id].stage.Reading?
    case Insert(id) => id in s.issuers && s.issuers[id].stage.Inserting?
  }

  function Moved(s: State, id: nat, stage: Stage): State
    requires id in s.issuers
  {
    s.(issuers := s.issuers[id := s.issuers[id].(stage := stage)])
  }

  function Next(s: State, step: Step): State
    requires Enabled(s, step)
  {
    match step
    case Arrive(id, account, period, content) =>
      s.(issuers := s.issuers[id := Issuer(account, period, content, 0, Arrived)])
    case Check(id, content) =>
      var j := s.issuers[id];
      var found := Existing(s.table, j.account, j.period);
      if found.Some? then Moved(s, id, Returned(found.value))
      else s.(issuers := s.issuers[id := j.(content := content, checked := |s.table|, stage := Reading(0, 0))])
    case Read(id) =>
      var j := s.issuers[id];
      var last := LastSeq(s.table, YearOfJob(j));
      Moved(s, id, Inserting(j.stage.failed, if j.stage.failed == 0 then last else j.stage.base, last + 1))
    case Insert(id) =>
      var j := s.issuers[id];
      var doc := Document(j, j.stage.seqNo);
      if !Clashes(s.table, doc.number, j.account, j.period) then
        Moved(s.(table := s.table + [doc]), id, Returned(doc))
      else if j.stage.failed + 1 < MAX_ATTEMPTS then Moved(s, id, Reading(j.stage.failed + 1, j.stage.base))
      else Moved(s, id, GaveUp(j.stage.base))
  }

  ghost predicate Steps(s: State, steps: seq<Step>, t: State)
    decreases |steps|
  {
    if steps == [] then s == t
    else Enabled(s, steps[0]) && Steps(Next(s, steps[0]), steps[1..], t)
  }

  /******* The invariant *******/

  /** The issuer's own account (as spelled) and period were issued since it looked. */
  ghost predicate OwnIssued(table: Table, j: Issuer) {
    exists i :: j.checked <= i < |table| && Owns(table[i], j.account, j.period)
  }

  /** Nothing for the account, whatever its case, and period was there when the issuer looked. */
  ghost predicate CheckedClean(table: Table, j: Issuer) {
    j.checked <= |table| &&
    forall i :: 0 <= i < j.checked ==> !(SameName(table[i].account, j.account) && table[i].period == j.period)
  }

  /** So many invoices of the issuer's year were committed since its first read. */
  ghost predicate Overtaken(table: Table, j: Issuer, base: nat, times: nat) {
    OwnIssued(table, j) || Count(table, YearOfJob(j)) >= base + times
  }

  ghost predicate JobSound(table: Table, j: Issuer) {
    match j.stage
    case Arrived => true
    case Returned(inv) => inv in table && SameName(inv.account, j.account) && inv.period == j.period
    case Reading(failed, base) =>
      failed < MAX_ATTEMPTS && CheckedClean(table, j) && (failed > 0 ==> Overtaken(table, j, base, failed))
    case Inserting(failed, base, seqNo) =>
      && failed < MAX_ATTEMPTS && CheckedClean(table, j)
      && 1 <= seqNo <= Count(table, YearOfJob(j)) + 1
      && (OwnIssued(table, j) || seqNo >= base + failed + 1)
    case GaveUp(base) => CheckedClean(table, j) && Overtaken(table, j, base, MAX_ATTEMPTS)
  }

  ghost predicate OncePerSpelling(table: Table) {
    forall i, j :: 0 <= i < j < |table| ==> !Owns(table[j], table[i].account, table[i].period)
  }

  ghost predicate Inv(s: State) {
    && Gapless(s.table) && OncePerSpelling(s.table)
    && forall id :: id in s.issuers ==> JobSound(s.table, s.issuers[id])
  }

  lemma JobStays(table: Table, doc: Invoice, j: Issuer)
    requires JobSound(table, j)
    ensures JobSound(table + [doc], j)
  {
    var after := table + [doc];
    assert after[..|table|] == table;
    assert forall i :: 0 <= i < |table| ==> after[i] == table[i];
    CountGrows(after, |table|, YearOfJob(j));
    if OwnIssued(table, j) {
      var i :| j.checked <= i < |table| && Owns(table[i], j.account, j.period);
      assert Owns(after[i], j.account, j.period);
    }
  }

  lemma {:induction false} JobStaysLong(table: Table, more: Table, j: Issuer)
    requires JobSound(table, j)
    ensures JobSound(table + more, j)
  {
    if more == [] {
      assert table + more == table;
    } else {
      JobStaysLong(table, more[..|more| - 1], j);
      JobStays(table + more[..|more| - 1], more[|more| - 1], j);
      assert table + more == (table + more[..|more| - 1]) + [more[|more| - 1]];
    }
  }

  /** After a clash: another attempt, or none left. */
  function Clashed(j: Issuer): Issuer
    requires j.stage.Inserting?
  {
    if j.stage.failed + 1 < MAX_ATTEMPTS then j.(stage := Reading(j.stage.failed + 1, j.stage.base))
    else j.(stage := GaveUp(j.stage.base))
  }

  /** An insert that clashes was overtaken: its own document exists, or its number was taken. */
  lemma ClashMeansOvertaken(table: Table, j: Issuer)
    requires Gapless(table) && JobSound(table, j) && j.stage.Inserting?
    requires Clashes(table, Document(j, j.stage.seqNo).number, j.account, j.period)
    ensures Overtaken(table, j, j.stage.base, j.stage.failed + 1) && JobSound(table, Clashed(j))
  {
    var number := Document(j, j.stage.seqNo).number;
    var i :| 0 <= i < |table| && (table[i].number == number || Owns(table[i], j.account, j.period));
    if Owns(table[i], j.account, j.period) {
      assert i >= j.checked;
    } else {
      NumbersAreUnique(YearOfJob(j), j.stage.seqNo, YearOf(table[i]), table[i].seqNo);
      CountGrows(table, i, YearOfJob(j));
    }
  }

  /** An insert that commits takes the next number of its year. */
  lemma CommitTakesNext(table: Table, j: Issuer)
    requires Gapless(table) && OncePerSpelling(table) && JobSound(table, j) && j.stage.Inserting?
    requires !Clashes(table, Document(j, j.stage.seqNo).number, j.account, j.period)
    ensures var after := table + [Document(j, j.stage.seqNo)];
            Gapless(after) && OncePerSpelling(after)
  {
    var doc := Document(j, j.stage.seqNo);
    if j.stage.seqNo <= Count(table, YearOfJob(j)) {
      var i := NumberTaken(table, YearOfJob(j), j.stage.seqNo);
    }
    AppendGapless(table, doc);
  }

  lemma CommitKeeps(s: State, id: nat)
    requires Inv(s) && Enabled(s, Insert(id))
    requires var j := s.issuers[id]; !Clashes(s.table, Document(j, j.stage.seqNo).number, j.account, j.period)
    ensures Inv(Next(s, Insert(id)))
  {
    var j := s.issuers[id];
    var doc := Document(j, j.stage.seqNo);
    var t := Next(s, Insert(id));
    CommitTakesNext(s.table, j);
    assert t.table == s.table + [doc] && t.issuers == s.issuers[id := j.(stage := Returned(doc))];
    assert t.table[|s.table|] == doc;
    forall k | k in t.issuers
      ensures JobSound(t.table, t.issuers[k])
    {
      if k != id {
        JobStays(s.table, doc, s.issuers[k]);
      }
    }
  }

  lemma MovedKeeps(s: State, id: nat, j: Issuer)
    requires Inv(s) && JobSound(s.table, j)
    ensures Inv(s.(issuers := s.issuers[id := j]))
  {
  }

  lemma ClashKeeps(s: State, id: nat)
    requires Inv(s) && Enabled(s, Insert(id))
    requires var j := s.issuers[id]; Clashes(s.table, Document(j, j.stage.seqNo).number, j.account, j.period)
    ensures Inv(Next(s, Insert(id)))
  {
    var j := s.issuers[id];
    ClashMeansOvertaken(s.table, j);
    MovedKeeps(s, id, Clashed(j));
  }

  lemma CheckKeeps(s: State, id: nat, content: Content)
    requires Inv(s) && Enabled(s, Check(id, content))
    ensures Inv(Next(s, Check(id, content)))
  {
    var j := s.issuers[id];
    ExistingIs(s.table, j.account, j.period);
    var found := Existing(s.table, j.account, j.period);
    if found.Some? {
      MovedKeeps(s, id, j.(stage := Returned(found.value)));
    } else {
      MovedKeeps(s, id, j.(content := content, checked := |s.table|, stage := Reading(0, 0)));
    }
  }

  lemma ReadKeeps(s: State, id: nat)
    requires Inv(s) && Enabled(s, Read(id))
    ensures Inv(Next(s, Read(id)))
  {
    var j := s.issuers[id];
    LastIsCount(s.table, YearOfJob(j));
    var last := LastSeq(s.table, YearOfJob(j));
    MovedKeeps(s, id, j.(stage := Inserting(j.stage.failed, if j.stage.failed == 0 then last else j.stage.base, last + 1)));
  }

  lemma InsertKeeps(s: State, id: nat)
    requires Inv(s) && Enabled(s, Insert(id))
    ensures Inv(Next(s, Insert(id)))
  {
    var j := s.issuers[id];
    if Clashes(s.table, Document(j, j.stage.seqNo).number, j.account, j.period) {
      ClashKeeps(s, id);
    } else {
      CommitKeeps(s, id);
    }
  }

  lemma StepKeeps(s: State, step: Step)
    requires Inv(s) && Enabled(s, step)
    ensures Inv(Next(s, step))
  {
    match step
    case Arrive(id, account, period, content) => MovedKeeps(s, id, Issuer(account, period, content, 0, Arrived));
    case Check(id, content) => CheckKeeps(s, id, content);
    case Read(id) => ReadKeeps(s, id);
    case Insert(id) => InsertKeeps(s, id);
  }

  lemma TableGrows(s: State, step: Step)
    requires Enabled(s, step)
    ensures s.table <= Next(s, step).table
  {
  }

  lemma {:induction false} RunKeeps(s: State, steps: seq<Step>, t: State)
    requires Inv(s) && Steps(s, steps, t)
    ensures Inv(t) && s.table <= t.table
    decreases |steps|
  {
    if steps != [] {
      StepKeeps(s, steps[0]);
      TableGrows(s, steps[0]);
      RunKeeps(Next(s, steps[0]), steps[1..], t);
    }
  }

  /******* Whole runs *******/

  /** Whatever the interleaving of any number of issuers: the numbers of each year are exactly
      1 to n with no gap and no duplicate, no account (as spelled) and period is invoiced
      twice, and what was issued is never changed or moved. */
  lemma NumbersStayGapless(steps: seq<Step>, more: seq<Step>, s: State, t: State, year: nat, k: nat)
    requires Steps(START, steps, s) && Steps(s, more, t)
    ensures Given(t.table, year, k) <==> 1 <= k <= Count(t.table, year)
    ensures forall i, j :: 0 <= i < j < |t.table| ==>
              t.table[i].number != t.table[j].number && !Owns(t.table[j], t.table[i].account, t.table[i].period)
    ensures s.table <= t.table
  {
    RunKeeps(START, steps, s);
    RunKeeps(s, more, t);
    GaplessMeans(t.table, year, k);
    forall i, j | 0 <= i < j < |t.table|
      ensures t.table[i].number != t.table[j].number
    {
      NumbersDiffer(t.table, i, j);
    }
  }

  /** Progress: an issuer gives up after its five attempts only if its own account and period
      was issued since it looked, or at least five other invoices of the year were committed
      since its first read. */
  lemma GivingUpWasOvertaken(steps: seq<Step>, s: State, id: nat)
    requires Steps(START, steps, s) && id in s.issuers && s.issuers[id].stage.GaveUp?
    ensures var j := s.issuers[id];
            || (exists i :: j.checked <= i < |s.table| && Owns(s.table[i], j.account, j.period))
            || Count(s.table, YearOfJob(j)) >= j.stage.base + 5
  {
    NothingYet();
    RunKeeps(START, steps, s);
    GivenUp(s.table, s.issuers[id]);
  }

  lemma NothingYet()
    ensures Inv(START)
  {
  }

  lemma GivenUp(table: Table, j: Issuer)
    requires JobSound(table, j) && j.stage.GaveUp?
    ensures || (exists i :: j.checked <= i < |table| && Owns(table[i], j.account, j.period))
            || Count(table, YearOfJob(j)) >= j.stage.base + MAX_ATTEMPTS
  {
  }

  /** And whoever is answered with an invoice got one for the account and period asked for,
      whether it issued it or found it. */
  lemma AnswersAreInTheLedger(steps: seq<Step>, s: State, id: nat)
    requires Steps(START, steps, s) && id in s.issuers && s.issuers[id].stage.Returned?
    ensures var j := s.issuers[id];
            && j.stage.invoice in s.table
            && SameName(j.stage.invoice.account, j.account) && j.stage.invoice.period == j.period
  {
    RunKeeps(START, steps, s);
  }

  /******* Spelling *******/

  ghost predicate OncePerName(table: Table) {
    forall i, j :: 0 <= i < j < |table| ==>
      !(SameName(table[i].account, table[j].account) && table[i].period == table[j].period)
  }

  /** A request: an account, as spelled, and a period. */
  type Request = (string, string)

  /** Whoever issues asks for one of these, spelled like this. */
  ghost predicate AskedFrom(steps: seq<Step>, requests: set<Request>) {
    forall i :: 0 <= i < |steps| && steps[i].Arrive? ==> (steps[i].account, steps[i].period) in requests
  }

  /** Issuers and documents come from requests. */
  ghost predicate ComesFrom(s: State, requests: set<Request>) {
    && (forall id :: id in s.issuers ==> (s.issuers[id].account, s.issuers[id].period) in requests)
    && (forall i :: 0 <= i < |s.table| ==> (s.table[i].account, s.table[i].period) in requests)
  }

  lemma StepComesFrom(s: State, step: Step, requests: set<Request>)
    requires Enabled(s, step) && ComesFrom(s, requests)
    requires step.Arrive? ==> (step.account, step.period) in requests
    ensures ComesFrom(Next(s, step), requests)
  {
  }

  lemma {:induction false} RunComesFrom(s: State, steps: seq<Step>, t: State, requests: set<Request>)
    requires ComesFrom(s, requests) && Steps(s, steps, t) && AskedFrom(steps, requests)
    ensures ComesFrom(t, requests)
    decreases |steps|
  {
    if steps != [] {
      StepComesFrom(s, steps[0], requests);
      RunComesFrom(Next(s, steps[0]), steps[1..], t, requests);
    }
  }

  /** Requests for one period spell an account in one way. */
  ghost predicate SpelledAlike(requests: set<Request>) {
    forall p, q :: p in requests && q in requests && p.1 == q.1 && SameName(p.0, q.0) ==> p.0 == q.0
  }

  /** No schedule of any number of these requests makes two invoices for an account, whatever
      its case, and a period. */
  ghost predicate IssuedOnce(requests: set<Request>) {
    forall steps, t :: Steps(START, steps, t) && AskedFrom(steps, requests) ==> OncePerName(t.table)
  }

  /** One invoice per account and month, exactly: whatever is asked for, in any interleaving, a
      second invoice is impossible if and only if no two requests for one period spell an
      account in two ways. */
  lemma OneInvoiceExactly(requests: set<Request>, content: Content)
    ensures IssuedOnce(requests) <==> SpelledAlike(requests)
  {
    if SpelledAlike(requests) {
      forall steps, t | Steps(START, steps, t) && AskedFrom(steps, requests)
        ensures OncePerName(t.table)
      {
        AgreedSpellingsIssueOnce(steps, t, requests);
      }
    } else {
      var p, q :| p in requests && q in requests && p.1 == q.1 && SameName(p.0, q.0) && p.0 != q.0;
      var t := TwoSpellingsIssueTwice(p.0, q.0, p.1, content);
      assert AskedFrom(Race(p.0, q.0, p.1, content), requests);
    }
  }

  /** While every request of a period spells an account in one way, no run makes a second
      invoice for it. */
  lemma AgreedSpellingsIssueOnce(steps: seq<Step>, t: State, requests: set<Request>)
    requires Steps(START, steps, t) && AskedFrom(steps, requests) && SpelledAlike(requests)
    ensures OncePerName(t.table)
  {
    RunKeeps(START, steps, t);
    RunComesFrom(START, steps, t, requests);
    forall i, j | 0 <= i < j < |t.table|
      ensures !(SameName(t.table[i].account, t.table[j].account) && t.table[i].period == t.table[j].period)
    {
      assert !Owns(t.table[j], t.table[i].account, t.table[i].period);
      assert (t.table[i].account, t.table[i].period) in requests;
      assert (t.table[j].account, t.table[j].period) in requests;
    }
  }

  /** Two administrators ask, check, and only then read and insert, one after the other. */
  function Race(account: string, account': string, period: string, content: Content): seq<Step> {
    [Arrive(0, account, period, content), Arrive(1, account', period, content),
     Check(0, content), Check(1, content), Read(0), Insert(0), Read(1), Insert(1)]
  }

  /** The unique constraint does not fold case: the race of two requests that spell one account
      in two ways leaves two invoices for it. */
  lemma TwoSpellingsIssueTwice(account: string, account': string, period: string, content: Content) returns (t: State)
    requires SameName(account, account') && account != account'
    ensures Steps(START, Race(account, account', period, content), t) && !OncePerName(t.table)
  {
    var j, j' := Issuer(account, period, content, 0, Reading(0, 0)), Issuer(account', period, content, 0, Reading(0, 0));
    var race := Race(account, account', period, content);
    var s := State([], map[0 := j, 1 := j']);
    BothChecked(account, account', period, content);
    t := BothInsert(s, j, j');
    StepsOn(START, race[..4], s, race[4..], t);
    assert race[..4] + race[4..] == race;
    assert race[4..] == [Read(0), Insert(0), Read(1), Insert(1)];
  }

  lemma BothInsert(s: State, j: Issuer, j': Issuer) returns (t: State)
    requires s == State([], map[0 := j, 1 := j']) && Inv(s)
    requires j.stage.Reading? && j'.stage.Reading?
    requires SameName(j.account, j'.account) && j.account != j'.account && j.period == j'.period
    ensures Steps(s, [Read(0), Insert(0), Read(1), Insert(1)], t) && !OncePerName(t.table)
  {
    var s1 := ReadThenInsert(s, 0);
    assert 1 in s1.issuers && s1.issuers[1] == j';
    t := ReadThenInsert(s1, 1);
    assert t.table[0].account == j.account && t.table[1].account == j'.account;
    StepsFour(s, 0, 1, s1, t);
  }

  lemma BothChecked(account: string, account': string, period: string, content: Content)
    ensures Steps(START, Race(account, account', period, content)[..4],
                  State([], map[0 := Issuer(account, period, content, 0, Reading(0, 0)),
                                1 := Issuer(account', period, content, 0, Reading(0, 0))]))
    ensures Inv(State([], map[0 := Issuer(account, period, content, 0, Reading(0, 0)),
                              1 := Issuer(account', period, content, 0, Reading(0, 0))]))
  {
    var race := Race(account, account', period, content)[..4];
    var a, b := Issuer(account, period, content, 0, Arrived), Issuer(account', period, content, 0, Arrived);
    var c, d := a.(stage := Reading(0, 0)), b.(stage := Reading(0, 0));
    var s1 := Next(START, race[0]);
    var s2 := Next(s1, race[1]);
    var s3 := Next(s2, race[2]);
    var s4 := Next(s3, race[3]);
    assert s2.issuers == map[0 := a, 1 := b];
    assert s3.issuers == map[0 := c, 1 := b];
    assert s4 == State([], map[0 := c, 1 := d]);
    assert race[1..][0] == race[1] && race[1..][1..][0] == race[2] && race[1..][1..][1..][0] == race[3];
    assert Steps(s3, race[1..][1..][1..], s4);
    assert Steps(s2, race[1..][1..], s4);
    assert Steps(s1, race[1..], s4);
  }

  lemma {:induction false} StepsOn(s: State, steps: seq<Step>, t: State, more: seq<Step>, u: State)
    requires Steps(s, steps, t) && Steps(t, more, u)
    ensures Steps(s, steps + more, u)
    decreases |steps|
  {
    if steps == [] {
      assert steps + more == more;
    } else {
      StepsOn(Next(s, steps[0]), steps[1..], t, more, u);
      assert (steps + more)[1..] == steps[1..] + more;
    }
  }

  /** An issuer left alone from its read to its insert commits at the first attempt. */
  lemma ReadThenInsert(s: State, id: nat) returns (t: State)
    requires Inv(s) && id in s.issuers && s.issuers[id].stage.Reading?
    requires !OwnIssued(s.table, s.issuers[id])
    ensures Enabled(s, Read(id)) && Enabled(Next(s, Read(id)), Insert(id))
    ensures t == Next(Next(s, Read(id)), Insert(id)) && Inv(t)
    ensures exists doc :: t.table == s.table + [doc] && doc.account == s.issuers[id].account
                          && doc.period == s.issuers[id].period
    ensures forall k :: k in s.issuers && k != id ==> k in t.issuers && t.issuers[k] == s.issuers[k]
  {
    var j := s.issuers[id];
    var s1 := Next(s, Read(id));
    StepKeeps(s, Read(id));
    t := Next(s1, Insert(id));
    StepKeeps(s1, Insert(id));
    LastIsCount(s.table, YearOfJob(j));
    forall i | 0 <= i < |s.table|
      ensures s.table[i].number != Number(YearOfJob(j), Count(s.table, YearOfJob(j)) + 1)
      ensures !Owns(s.table[i], j.account, j.period)
    {
      NumbersAreUnique(YearOfJob(j), Count(s.table, YearOfJob(j)) + 1, YearOf(s.table[i]), s.table[i].seqNo);
      CountGrows(s.table, i, YearOfJob(j));
    }
  }

  lemma StepsFour(s: State, a: nat, b: nat, s1: State, s2: State)
    requires Enabled(s, Read(a)) && Enabled(Next(s, Read(a)), Insert(a))
    requires s1 == Next(Next(s, Read(a)), Insert(a))
    requires Enabled(s1, Read(b)) && Enabled(Next(s1, Read(b)), Insert(b))
    requires s2 == Next(Next(s1, Read(b)), Insert(b))
    ensures Steps(s, [Read(a), Insert(a), Read(b), Insert(b)], s2)
  {
    var steps := [Read(a), Insert(a), Read(b), Insert(b)];
    assert steps[1..] == [Insert(a), Read(b), Insert(b)];
    assert steps[1..][1..] == [Read(b), Insert(b)];
    assert steps[1..][1..][1..] == [Insert(b)];
    assert Steps(s1, [Read(b), Insert(b)], s2) by {
      assert Steps(Next(s1, Read(b)), [Insert(b)], s2);
    }
  }
}
