/** Everything at once: any number of administrators issuing, step by step, while prices,
    requisites, backup settings and measurements are edited in between. */
module Office {
  import opened Options
  import opened Text
  import opened Periods
  import opened Invoices
  import opened Issuing
  import opened Ledger

  /** What an administrator asks for. */
  datatype Order = Order(account: string, domain: string, year: nat, month: nat, issuer: string)

  /** `worlds` are all the worlds there have been, the present one last; `looked` says in which
      of them an issuer looked for an existing invoice and drafted. */
  datatype Situation = Situation(ledger: State, worlds: seq<World>, orders: map<nat, Order>, looked: map<nat, nat>)

  datatype Act =
    | Change(world: World)
    | Ask(id: nat, order: Order)
    | Look(id: nat)
    | ReadHighest(id: nat)
    | Commit(id: nat)

  const OPENING := Situation(START, [NEW_WORLD], map[], map[])

  /** What an order comes to in a world. */
  type Drafting = (World, Order) -> Content

  /** `draft`. */
  function DraftUnder(config: Config): Drafting {
    (w: World, o: Order) => Draft(w, config, o.account, o.domain, o.year, o.month, o.issuer)
  }

  /** The step of the allocator that an act is; an edit is none. */
  function StepOf(s: Situation, draw: Drafting, act: Act): Option<Step>
    requires s.worlds != []
  {
    match act
    case Change(_) => None
    case Ask(id, o) =>
      Some(Arrive(id, o.account, Label(o.year, o.month), draw(s.worlds[|s.worlds| - 1], o)))
    case Look(id) =>
      if id in s.orders then Some(Check(id, draw(s.worlds[|s.worlds| - 1], s.orders[id]))) else None
    case ReadHighest(id) => Some(Read(id))
    case Commit(id) => Some(Insert(id))
  }

  predicate Possible(s: Situation, draw: Drafting, act: Act) {
    && s.worlds != []
    && (!act.Change? ==> StepOf(s, draw, act).Some? && Enabled(s.ledger, StepOf(s, draw, act).value))
  }

  function After(s: Situation, draw: Drafting, act: Act): Situation
    requires Possible(s, draw, act)
  {
    var latest := |s.worlds| - 1;
    match act
    case Change(w) => s.(worlds := s.worlds + [w])
    case Ask(id, o) => s.(ledger := Next(s.ledger, StepOf(s, draw, act).value), orders := s.orders[id := o])
    case Look(id) => s.(ledger := Next(s.ledger, StepOf(s, draw, act).value), looked := s.looked[id := latest])
    case ReadHighest(_) => s.(ledger := Next(s.ledger, StepOf(s, draw, act).value))
    case Commit(_) => s.(ledger := Next(s.ledger, StepOf(s, draw, act).value))
  }

  ghost predicate Acts(s: Situation, draw: Drafting, acts: seq<Act>, t: Situation)
    decreases |acts|
  {
    if acts == [] then s == t
    else Possible(s, draw, acts[0]) && Acts(After(s, draw, acts[0]), draw, acts[1..], t)
  }

  /******* Where a document comes from *******/

  /** The content is the draft of issuer `id`'s order in the world it looked at. */
  ghost predicate DraftedBy(s: Situation, draw: Drafting, id: nat, content: Content) {
    && id in s.orders && id in s.looked && s.looked[id] < |s.worlds|
    && content == draw(s.worlds[s.looked[id]], s.orders[id])
  }

  /** Some issuer asked for the document and drafted it. */
  ghost predicate Drafted(s: Situation, draw: Drafting, inv: Invoice) {
    exists id :: id in s.orders && DraftedBy(s, draw, id, inv.content)
                 && inv.account == s.orders[id].account && inv.period == Label(s.orders[id].year, s.orders[id].month)
  }

  ghost predicate Ordered(s: Situation, draw: Drafting, id: nat)
    requires id in s.ledger.issuers
  {
    var j := s.ledger.issuers[id];
    && id in s.orders && j.account == s.orders[id].account
    && j.period == Label(s.orders[id].year, s.orders[id].month)
    && (j.stage.Reading? || j.stage.Inserting? ==> DraftedBy(s, draw, id, j.content))
    && (j.stage.Arrived? ==> id !in s.looked)
  }

  ghost predicate Proper(s: Situation, draw: Drafting) {
    && s.worlds != []
    && s.orders.Keys == s.ledger.issuers.Keys && s.looked.Keys <= s.orders.Keys
    && (forall id :: id in s.ledger.issuers ==> Ordered(s, draw, id))
    && (forall i :: 0 <= i < |s.ledger.table| ==> Drafted(s, draw, s.ledger.table[i]))
  }

  /** What was drafted stays drafted: worlds are only added, orders and looks are not revised. */
  ghost predicate Remembers(s: Situation, t: Situation) {
    && s.worlds <= t.worlds
    && (forall id :: id in s.orders ==> id in t.orders && t.orders[id] == s.orders[id])
    && (forall id :: id in s.looked ==> id in t.looked && t.looked[id] == s.looked[id])
  }

  lemma DraftedStays(s: Situation, t: Situation, draw: Drafting, inv: Invoice)
    requires Remembers(s, t) && Drafted(s, draw, inv)
    ensures Drafted(t, draw, inv)
  {
    var id :| id in s.orders && DraftedBy(s, draw, id, inv.content)
              && inv.account == s.orders[id].account && inv.period == Label(s.orders[id].year, s.orders[id].month);
    assert DraftedBy(t, draw, id, inv.content);
  }

  lemma ActRemembers(s: Situation, draw: Drafting, act: Act)
    requires Proper(s, draw) && Possible(s, draw, act)
    ensures Remembers(s, After(s, draw, act))
  {
    if act.Ask? {
      assert act.id !in s.ledger.issuers.Keys;
    }
    if act.Look? {
      assert s.ledger.issuers[act.id].stage.Arrived? && Ordered(s, draw, act.id);
    }
  }

  lemma StaysOrdered(s: Situation, t: Situation, draw: Drafting, id: nat)
    requires Remembers(s, t) && id in s.ledger.issuers && Ordered(s, draw, id)
    requires id in t.ledger.issuers && t.ledger.issuers[id] == s.ledger.issuers[id]
    requires id in t.looked ==> id in s.looked
    ensures Ordered(t, draw, id)
  {
  }

  /** What a step may make of its issuer. */
  ghost predicate Moves(j: Issuer, step: Step, j': Issuer) {
    && j'.account == j.account && j'.period == j.period && !j'.stage.Arrived?
    && (j'.stage.Reading? || j'.stage.Inserting? ==> j'.content == if step.Check? then step.content else j.content)
    && (step.Check? <==> j.stage.Arrived?) && (!step.Check? ==> j.stage.Reading? || j.stage.Inserting?)
  }

  lemma StepMoves(s: State, step: Step)
    requires Enabled(s, step) && !step.Arrive?
    ensures var t := Next(s, step);
            && t.issuers.Keys == s.issuers.Keys && Moves(s.issuers[step.id], step, t.issuers[step.id])
            && forall id :: id in s.issuers && id != step.id ==> t.issuers[id] == s.issuers[id]
  {
  }

  lemma MovedStaysOrdered(s: Situation, t: Situation, draw: Drafting, id: nat, step: Step)
    requires Remembers(s, t) && id in s.ledger.issuers && Ordered(s, draw, id)
    requires id in t.ledger.issuers && Moves(s.ledger.issuers[id], step, t.ledger.issuers[id])
    requires step.Check? ==> DraftedBy(t, draw, id, step.content)
    ensures Ordered(t, draw, id)
  {
  }

  lemma OthersStayOrdered(s: Situation, draw: Drafting, act: Act, id: nat)
    requires Proper(s, draw) && Possible(s, draw, act)
    requires id in s.ledger.issuers && (act.Change? || act.id != id)
    ensures id in After(s, draw, act).ledger.issuers && Ordered(After(s, draw, act), draw, id)
  {
    ActRemembers(s, draw, act);
    if !act.Change? && !act.Ask? {
      StepMoves(s.ledger, StepOf(s, draw, act).value);
    }
    StaysOrdered(s, After(s, draw, act), draw, id);
  }

  lemma ActorStaysOrdered(s: Situation, draw: Drafting, act: Act)
    requires Proper(s, draw) && Possible(s, draw, act) && !act.Change?
    ensures act.id in After(s, draw, act).ledger.issuers && Ordered(After(s, draw, act), draw, act.id)
  {
    ActRemembers(s, draw, act);
    if act.Ask? {
      assert act.id !in s.orders.Keys && act.id !in s.looked.Keys;
    } else {
      var step := StepOf(s, draw, act).value;
      StepMoves(s.ledger, step);
      MovedStaysOrdered(s, After(s, draw, act), draw, act.id, step);
    }
  }

  /** A step appends nothing, or its own issuer's document. */
  lemma TableGains(s: State, step: Step)
    requires Enabled(s, step)
    ensures var t := Next(s, step);
            || t.table == s.table
            || (step.Insert? && var j := s.issuers[step.id];
                                t.table == s.table + [Document(j, j.stage.seqNo)])
  {
  }

  lemma DocumentIsDrafted(s: Situation, draw: Drafting, id: nat)
    requires Proper(s, draw) && id in s.ledger.issuers && s.ledger.issuers[id].stage.Inserting?
    ensures var j := s.ledger.issuers[id]; Drafted(s, draw, Document(j, j.stage.seqNo))
  {
    assert Ordered(s, draw, id);
  }

  lemma ActKeeps(s: Situation, draw: Drafting, act: Act)
    requires Proper(s, draw) && Possible(s, draw, act)
    ensures Proper(After(s, draw, act), draw)
  {
    KeysStay(s, draw, act);
    TableStaysDrafted(s, draw, act);
    forall id | id in After(s, draw, act).ledger.issuers
      ensures Ordered(After(s, draw, act), draw, id)
    {
      if act.Change? || act.id != id {
        OthersStayOrdered(s, draw, act, id);
      } else {
        ActorStaysOrdered(s, draw, act);
      }
    }
  }

  lemma KeysStay(s: Situation, draw: Drafting, act: Act)
    requires Proper(s, draw) && Possible(s, draw, act)
    ensures var t := After(s, draw, act);
            && t.worlds != [] && t.orders.Keys == t.ledger.issuers.Keys && t.looked.Keys <= t.orders.Keys
            && t.ledger.issuers.Keys == if act.Ask? then s.ledger.issuers.Keys + {act.id} else s.ledger.issuers.Keys
  {
    if !act.Change? && !act.Ask? {
      StepMoves(s.ledger, StepOf(s, draw, act).value);
    }
  }

  lemma TableStaysDrafted(s: Situation, draw: Drafting, act: Act)
    requires Proper(s, draw) && Possible(s, draw, act)
    ensures var t := After(s, draw, act);
            forall i :: 0 <= i < |t.ledger.table| ==> Drafted(t, draw, t.ledger.table[i])
  {
    var t := After(s, draw, act);
    ActRemembers(s, draw, act);
    if !act.Change? {
      TableGains(s.ledger, StepOf(s, draw, act).value);
    }
    forall i | 0 <= i < |t.ledger.table|
      ensures Drafted(t, draw, t.ledger.table[i])
    {
      if i < |s.ledger.table| {
        assert t.ledger.table[i] == s.ledger.table[i];
      } else {
        DocumentIsDrafted(s, draw, act.id);
      }
      DraftedStays(s, t, draw, t.ledger.table[i]);
    }
  }

  /******* Whole runs *******/

  /** Every run is a run of the allocator, with edits in between. */
  lemma {:induction false} RunKeeps(s: Situation, draw: Drafting, acts: seq<Act>, t: Situation) returns (steps: seq<Step>)
    requires Proper(s, draw) && Acts(s, draw, acts, t)
    ensures Proper(t, draw) && Steps(s.ledger, steps, t.ledger)
    decreases |acts|
  {
    if acts == [] {
      steps := [];
    } else {
      var u := After(s, draw, acts[0]);
      ActKeeps(s, draw, acts[0]);
      steps := RunKeeps(u, draw, acts[1..], t);
      if !acts[0].Change? {
        var rest := steps;
        steps := [StepOf(s, draw, acts[0]).value] + rest;
        assert steps[1..] == rest;
      }
    }
  }

  /** The requests of a situation: accounts as they are spelled, with periods. */
  function RequestsOf(s: Situation): set<Request> {
    set id | id in s.orders :: (s.orders[id].account, Label(s.orders[id].year, s.orders[id].month))
  }

  /** If the orders of a period spell each account in one way, there is one document for it. */
  lemma DraftedOnce(s: Situation, draw: Drafting)
    requires forall i :: 0 <= i < |s.ledger.table| ==> Drafted(s, draw, s.ledger.table[i])
    requires OncePerSpelling(s.ledger.table) && SpelledAlike(RequestsOf(s))
    ensures OncePerName(s.ledger.table)
  {
    var table := s.ledger.table;
    forall i | 0 <= i < |table|
      ensures (table[i].account, table[i].period) in RequestsOf(s)
    {
      assert Drafted(s, draw, table[i]);
    }
    forall i, j | 0 <= i < j < |table|
      ensures !(SameName(table[i].account, table[j].account) && table[i].period == table[j].period)
    {
      assert !Owns(table[j], table[i].account, table[i].period);
      assert (table[i].account, table[i].period) in RequestsOf(s) && (table[j].account, table[j].period) in RequestsOf(s);
    }
  }

  /** Whatever is edited while any number of issuers run step by step: every document is the
      draft of some issuer's order in the world that issuer looked at, and adds up; what was
      issued stays as it was; the numbers of every year are exactly 1 to n; and no account, as
      spelled, has two documents for a period, nor in any spelling if the orders agree on it. */
  lemma InterleavedLedgerIsFrozen(config: Config, acts: seq<Act>, more: seq<Act>, s: Situation, t: Situation,
                                  year: nat, k: nat)
    requires Acts(OPENING, DraftUnder(config), acts, s) && Acts(s, DraftUnder(config), more, t)
    ensures s.ledger.table <= t.ledger.table
    ensures Given(t.ledger.table, year, k) <==> 1 <= k <= Count(t.ledger.table, year)
    ensures OncePerSpelling(t.ledger.table) && (SpelledAlike(RequestsOf(t)) ==> OncePerName(t.ledger.table))
    ensures forall i :: 0 <= i < |t.ledger.table| ==>
              Drafted(t, DraftUnder(config), t.ledger.table[i]) && Closes(config, t.ledger.table[i].content)
  {
    var steps := RunKeeps(OPENING, DraftUnder(config), acts, s);
    var steps' := RunKeeps(s, DraftUnder(config), more, t);
    NumbersStayGapless(steps, steps', s.ledger, t.ledger, year, k);
    if SpelledAlike(RequestsOf(t)) {
      DraftedOnce(t, DraftUnder(config));
    }
    forall i | 0 <= i < |t.ledger.table|
      ensures Closes(config, t.ledger.table[i].content)
    {
      DraftedCloses(t, config, t.ledger.table[i]);
    }
  }

  lemma DraftedCloses(s: Situation, config: Config, inv: Invoice)
    requires Drafted(s, DraftUnder(config), inv)
    ensures Closes(config, inv.content)
  {
    var id :| id in s.orders && DraftedBy(s, DraftUnder(config), id, inv.content)
              && inv.account == s.orders[id].account && inv.period == Label(s.orders[id].year, s.orders[id].month);
    var w, o := s.worlds[s.looked[id]], s.orders[id];
    DraftCloses(w, config, o.account, o.domain, o.year, o.month, o.issuer);
  }

  /******* When a draft is made *******/

  /** An edit is in force from then on. */
  lemma ChangeTakesEffect(s: Situation, draw: Drafting, w: World)
    requires s.worlds != []
    ensures Possible(s, draw, Change(w))
    ensures var t := After(s, draw, Change(w));
            t.worlds == s.worlds + [w] && t.worlds[|t.worlds| - 1] == w && t.ledger == s.ledger && t.orders == s.orders
  {
  }

  /** An issuer that looks and finds nothing issued drafts then and there: its order, in the world as
      it is at that moment; one that finds an invoice is answered with it. */
  lemma LookDraftsNow(s: Situation, draw: Drafting, id: nat)
    requires Proper(s, draw) && Possible(s, draw, Look(id))
    ensures id in s.orders
    ensures var t, o := After(s, draw, Look(id)), s.orders[id];
            && t.ledger.table == s.ledger.table && id in t.ledger.issuers && id in t.looked
            && t.looked[id] == |s.worlds| - 1
            && (if exists i :: 0 <= i < |s.ledger.table| && SameName(s.ledger.table[i].account, o.account)
                               && s.ledger.table[i].period == Label(o.year, o.month)
                then t.ledger.issuers[id].stage.Returned? && t.ledger.issuers[id].stage.invoice in s.ledger.table
                else t.ledger.issuers[id].stage.Reading?
                     && t.ledger.issuers[id].content == draw(s.worlds[|s.worlds| - 1], o))
  {
    var o := s.orders[id];
    assert Ordered(s, draw, id);
    ExistingIs(s.ledger.table, o.account, Label(o.year, o.month));
    if i :| 0 <= i < |s.ledger.table| && SameName(s.ledger.table[i].account, o.account)
            && s.ledger.table[i].period == Label(o.year, o.month) {
      assert s.ledger.table[i] in s.ledger.table;
    }
  }

  /** What was drafted then is what is issued: until it commits the issuer keeps it, whatever is
      edited meanwhile, and what its commit adds to the ledger is that. */
  lemma DraftsAreKept(s: Situation, draw: Drafting, act: Act, id: nat)
    requires Proper(s, draw) && Possible(s, draw, act) && act != Look(id)
    requires id in s.ledger.issuers && (s.ledger.issuers[id].stage.Reading? || s.ledger.issuers[id].stage.Inserting?)
    ensures id in After(s, draw, act).ledger.issuers
    ensures var j, j' := s.ledger.issuers[id], After(s, draw, act).ledger.issuers[id];
            j'.stage.Reading? || j'.stage.Inserting? ==> j'.content == j.content
    ensures var before, after := s.ledger.table, After(s, draw, act).ledger.table;
            act == Commit(id) && after != before ==>
              |after| == |before| + 1 && after[|before|].content == s.ledger.issuers[id].content
              && after[|before|].account == s.ledger.issuers[id].account
              && after[|before|].period == s.ledger.issuers[id].period
  {
    if !act.Change? && !act.Ask? {
      StepMoves(s.ledger, StepOf(s, draw, act).value);
      TableGains(s.ledger, StepOf(s, draw, act).value);
    }
  }
}
