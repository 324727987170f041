/** Whose failure a gather raises, and what a finished page has come to. */
module GatherOutcomes {
  import opened Options
  import opened Http
  import opened Gather

  /** `need[j]` is the first of the needed sources that failed. */
  ghost predicate FirstFailure(need: seq<nat>, parts: seq<Fetched>, j: int) {
    && 0 <= j < |need| && need[j] < |parts| && parts[need[j]].Err?
    && forall i :: 0 <= i < j ==> need[i] >= |parts| || parts[need[i]].Ok?
  }

  lemma {:induction false} CombineIs(need: seq<nat>, parts: seq<Fetched>)
    ensures Combine(need, parts).Err? <==> exists k :: k in need && k < |parts| && parts[k].Err?
    ensures Combine(need, parts).Ok? ==> Combine(need, parts) == Ok(Joined(parts))
    ensures forall j :: FirstFailure(need, parts, j) ==> Combine(need, parts) == parts[need[j]]
  {
    if need != [] && !(need[0] < |parts| && parts[need[0]].Err?) {
      CombineIs(need[1..], parts);
      assert need == [need[0]] + need[1..];
      forall j | FirstFailure(need, parts, j)
        ensures Combine(need, parts) == parts[need[j]]
      {
        assert j > 0 && FirstFailure(need[1..], parts, j - 1);
      }
    }
  }

  /** A gather fails exactly when a source that its caller needs fails on its own, and then with the
      error of the first such; otherwise it hands back every source's own outcome, failures of
      the others included. */
  lemma FanOutcome(kids: seq<Task>, need: seq<nat>)
    ensures var outcome := Alone(Fan(kids, need));
            && (outcome.Err? <==> exists k :: k in need && k < |kids| && Alone(kids[k]).Err?)
            && (outcome.Ok? ==> outcome.value.Joined? && |outcome.value.parts| == |kids|
                                && forall i :: 0 <= i < |kids| ==> outcome.value.parts[i] == Alone(kids[i]))
            && forall j :: 0 <= j < |need| && need[j] < |kids| && Alone(kids[need[j]]).Err?
                           && (forall i :: 0 <= i < j ==> need[i] >= |kids| || Alone(kids[need[i]]).Ok?) ==>
                 outcome == Alone(kids[need[j]])
  {
    var parts := AloneEach(kids);
    CombineIs(need, parts);
    forall j | 0 <= j < |need| && need[j] < |kids| && Alone(kids[need[j]]).Err?
               && (forall i :: 0 <= i < j ==> need[i] >= |kids| || Alone(kids[need[i]]).Ok?)
      ensures Alone(Fan(kids, need)) == Alone(kids[need[j]])
    {
      assert FirstFailure(need, parts, j);
    }
    if k :| k in need && k < |kids| && Alone(kids[k]).Err? {
      assert parts[k].Err?;
    }
    if k :| k in need && k < |parts| && parts[k].Err? {
      assert Alone(kids[k]).Err?;
    }
  }

  /** One thing after another stops at the first that fails; a request yields what its retry loop
      makes of the answers. */
  lemma OthersOutcome(first: Task, next: Task, verb: Verb, script: Script)
    ensures Alone(Then(first, next)) == if Alone(first).Err? then Alone(first) else Alone(next)
    ensures Alone(Ask(verb, script)) == RequestAlone(verb, script, 0)
  {
  }

  /** In a run that has finished, whatever the schedule, each page that is one gather has failed
      exactly if a source it needs fails on its own, with the first such error. */
  lemma PageOutcome(pages: seq<Task>, schedule: seq<seq<nat>>, i: nat)
    requires var c := Reached(pages, schedule); c.Some? && c.value.node.Done?
    requires i < |pages| && pages[i].Fan?
    ensures var result := Reached(pages, schedule).value.node.result;
            && result.Ok? && result.value.Joined? && |result.value.parts| == |pages|
            && var kids, need, outcome := pages[i].kids, pages[i].need, result.value.parts[i];
               && (outcome.Err? <==> exists k :: k in need && k < |kids| && Alone(kids[k]).Err?)
               && (outcome.Ok? ==> outcome == Ok(Joined(AloneEach(kids))))
               && forall j :: FirstFailure(need, AloneEach(kids), j) ==> outcome == Alone(kids[need[j]])
  {
    QueueSums(pages);
    RunKeeps(Config(Serve(pages), GATE_PERMITS), schedule);
    FanOutcome(pages[i].kids, pages[i].need);
  }
}
