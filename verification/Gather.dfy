/** The concurrent fetcher of apps/common/concurrency.py over the request gate of
    apps/integrations/zadara/http.py, as a small-step system.

    A task is what one source does: ask the cloud, do one thing after another, or gather
    sources of its own.  A node is the thread that runs a task, or its place in a pool's
    queue.  Every gather owns a fresh pool; the gate is the one thing all threads share. */
module Gather {
  import opened Options
  import opened Http

  const MAX_WORKERS := 8
  const GATE_PERMITS := 12

  /** `Fan(kids, need)` gathers `kids`; `need` lists, in order, the sources whose error the
      caller re-raises (the machine list in `list_vms` and `_fetch`, none in an estimate). */
  datatype Task =
    | Ask(verb: Verb, script: Script)
    | Then(first: Task, next: Task)
    | Fan(kids: seq<Task>, need: seq<nat>)

  datatype Phase = AtGate | InFlight | BackingOff

  datatype Node =
    | Queued(task: Task)
    | Requesting(phase: Phase, verb: Verb, script: Script, attempt: nat, waited: real)
    | Sequenced(now: Node, next: Task)
    | Blocked(sources: seq<Task>, kids: seq<Node>, width: nat, need: seq<nat>)
    | Done(result: Fetched)

  /******* What a task yields when nothing else runs *******/

  function Combine(need: seq<nat>, parts: seq<Fetched>): Fetched {
    if need == [] then Ok(Joined(parts))
    else if need[0] < |parts| && parts[need[0]].Err? then parts[need[0]]
    else Combine(need[1..], parts)
  }

  function Alone(t: Task): Fetched
    decreases t, 1
  {
    match t
    case Ask(verb, script) => RequestAlone(verb, script, 0)
    case Then(first, next) => if Alone(first).Ok? then Alone(next) else Alone(first)
    case Fan(kids, need) => Combine(need, AloneEach(kids))
  }

  function AloneEach(ts: seq<Task>): (parts: seq<Fetched>)
    ensures |parts| == |ts|
    ensures forall i :: 0 <= i < |ts| ==> parts[i] == Alone(ts[i])
    decreases ts, 0
  {
    if ts == [] then [] else [Alone(ts[0])] + AloneEach(ts[1..])
  }

  /******* The small-step system *******/

  function PoolWidth(n: nat): nat {
    if n < MAX_WORKERS then n else MAX_WORKERS
  }

  function Enqueue(ts: seq<Task>): (kids: seq<Node>)
    ensures |kids| == |ts|
    ensures forall i :: 0 <= i < |ts| ==> kids[i] == Queued(ts[i])
  {
    seq(|ts|, i requires 0 <= i < |ts| => Queued(ts[i]))
  }

  /** A thread picks the task up.  A gather of one source runs inline, which is a pool of one. */
  function Start(t: Task): Node {
    match t
    case Ask(verb, script) => Requesting(AtGate, verb, script, 0, 0.0)
    case Then(first, next) => Sequenced(Start(first), next)
    case Fan(kids, need) => Blocked(kids, Enqueue(kids), PoolWidth(|kids|), need)
  }

  /** The process: every page request runs in a thread of its own. */
  function Serve(pages: seq<Task>): Node {
    Blocked(pages, Enqueue(pages), |pages|, [])
  }

  predicate Busy(n: Node) {
    !n.Queued? && !n.Done?
  }

  function Workers(kids: seq<Node>): nat {
    if kids == [] then 0 else (if Busy(kids[0]) then 1 else 0) + Workers(kids[1..])
  }

  function Results(kids: seq<Node>): (parts: seq<Fetched>)
    requires forall i :: 0 <= i < |kids| ==> kids[i].Done?
    ensures |parts| == |kids|
    ensures forall i :: 0 <= i < |kids| ==> parts[i] == kids[i].result
  {
    seq(|kids|, i requires 0 <= i < |kids| => kids[i].result)
  }

  /** A pool takes its queue in order of submission, and never runs more than `width`. */
  predicate MayStart(kids: seq<Node>, width: nat, i: nat)
    requires i < |kids|
  {
    kids[i].Queued? && Workers(kids) < width && forall j :: 0 <= j < i ==> !kids[j].Queued?
  }

  datatype Config = Config(node: Node, free: nat)
  /** The request thread's own step: take a permit, get an answer and give the permit back,
      or wake from a back-off. */
  function FireRequest(n: Node, free: nat): Option<Config>
    requires n.Requesting? && n.attempt <= MAX_RETRIES
  {
    match n.phase
    case AtGate =>
      if free == 0 then None else Some(Config(n.(phase := InFlight), free - 1))
    case InFlight =>
      (match Judge(n.verb, n.attempt, n.script[n.attempt])
       case Deliver(result) => Some(Config(Done(result), free + 1))
       case Retry(delay) =>
         Some(Config(n.(phase := BackingOff, attempt := n.attempt + 1, waited := n.waited + delay), free + 1)))
    case BackingOff => Some(Config(n.(phase := AtGate), free))
  }

  /** The step of the thread found by following `path` from `n`, with `free` permits left;
      None when that thread has to wait. */
  function Fire(n: Node, path: seq<nat>, free: nat): Option<Config>
    requires Valid(n)
    decreases path
  {
    match n
    case Queued(_) => None
    case Done(_) => None
    case Requesting(_, _, _, _, _) => if path == [] then FireRequest(n, free) else None
    case Sequenced(now, next) =>
      if path == [] then
        if !now.Done? then None
        else Some(Config(if now.result.Ok? then Start(next) else now, free))
      else
        (match Fire(now, path[1..], free)
         case None => None
         case Some(c) => Some(Config(Sequenced(c.node, next), c.free)))
    case Blocked(sources, kids, width, need) =>
      if path == [] then
        if forall i :: 0 <= i < |kids| ==> kids[i].Done? then
          Some(Config(Done(Combine(need, Results(kids))), free))
        else None
      else
        var i := path[0];
        if i >= |kids| then None
        else if kids[i].Queued? then
          if path == [i] && MayStart(kids, width, i) then
            Some(Config(Blocked(sources, kids[i := Start(kids[i].task)], width, need), free))
          else None
        else
          match Fire(kids[i], path[1..], free)
          case None => None
          case Some(c) => Some(Config(Blocked(sources, kids[i := c.node], width, need), c.free))
  }

  /** A schedule names, step by step, the thread that moves next. */
  function Exec(c: Config, schedule: seq<seq<nat>>): Option<Config>
    requires Valid(c.node)
    decreases |schedule|
  {
    if schedule == [] then Some(c)
    else
      match Fire(c.node, schedule[0], c.free)
      case None => None
      case Some(d) => StepKeeps(c.node, schedule[0], c.free); Exec(d, schedule[1..])
  }

  /******* What is measured along a run *******/

  /** No pool runs more sources than it has workers, every request stays within its retry
      budget (at most three attempts, and at most five seconds of waiting for each retry), and a
      gather is owed by its workers what its sources would yield. */
  ghost predicate Valid(n: Node) {
    match n
    case Queued(_) => true
    case Requesting(_, _, _, attempt, waited) =>
      attempt <= MAX_RETRIES && 0.0 <= waited <= LONGEST_WAIT * attempt as real
    case Sequenced(now, _) => !now.Queued? && Valid(now)
    case Blocked(sources, kids, width, _) =>
      && (kids == [] || width > 0) && Workers(kids) <= width
      && (forall i :: 0 <= i < |kids| ==> Valid(kids[i]))
      && Promises(kids) == AloneEach(sources)
    case Done(_) => true
  }

  /** Permits held by the threads below `n`: one for each request in flight, and none for a
      thread that is blocked in a gather. */
  function Held(n: Node): nat
    decreases n, 1
  {
    match n
    case Queued(_) => 0
    case Requesting(phase, _, _, _, _) => if phase.InFlight? then 1 else 0
    case Sequenced(now, _) => Held(now)
    case Blocked(_, kids, _, _) => HeldAll(kids)
    case Done(_) => 0
  }

  function HeldAll(kids: seq<Node>): nat
    decreases kids, 0
  {
    if kids == [] then 0 else Held(kids[0]) + HeldAll(kids[1..])
  }

  function Phases(phase: Phase): nat {
    match phase case AtGate => 3 case InFlight => 2 case BackingOff => 4
  }

  function TaskLoad(t: Task): nat
    decreases t, 1
  {
    match t
    case Ask(_, _) => 10
    case Then(first, next) => TaskLoad(first) + TaskLoad(next) + 1
    case Fan(kids, _) => TaskLoads(kids) + 2
  }

  function TaskLoads(ts: seq<Task>): nat
    decreases ts, 0
  {
    if ts == [] then 0 else TaskLoad(ts[0]) + TaskLoads(ts[1..])
  }

  /** An upper bound on the steps still to come. */
  function Load(n: Node): nat
    decreases n, 1
  {
    match n
    case Queued(t) => TaskLoad(t)
    case Requesting(phase, _, _, attempt, _) =>
      if attempt <= MAX_RETRIES then 3 * (MAX_RETRIES - attempt) + Phases(phase) - 1 else 0
    case Sequenced(now, next) => Load(now) + TaskLoad(next) + 1
    case Blocked(_, kids, _, _) => Loads(kids) + 1
    case Done(_) => 0
  }

  function Loads(kids: seq<Node>): nat
    decreases kids, 0
  {
    if kids == [] then 0 else Load(kids[0]) + Loads(kids[1..])
  }

  /** What the thread will have yielded once it is done. */
  function Promise(n: Node): Fetched
    decreases n, 1
  {
    match n
    case Queued(t) => Alone(t)
    case Requesting(_, verb, script, attempt, _) =>
      if attempt <= MAX_RETRIES then RequestAlone(verb, script, attempt) else Err(Timeout)
    case Sequenced(now, next) => if Promise(now).Ok? then Alone(next) else Promise(now)
    case Blocked(_, kids, _, need) => Combine(need, Promises(kids))
    case Done(result) => result
  }

  function Promises(kids: seq<Node>): (parts: seq<Fetched>)
    ensures |parts| == |kids|
    ensures forall i :: 0 <= i < |kids| ==> parts[i] == Promise(kids[i])
    decreases kids, 0
  {
    if kids == [] then [] else [Promise(kids[0])] + Promises(kids[1..])
  }

  /******* Every step *******/

  lemma {:induction false} SumsUpdate(kids: seq<Node>, i: nat, kid: Node)
    requires i < |kids|
    ensures HeldAll(kids[i := kid]) == HeldAll(kids) - Held(kids[i]) + Held(kid)
    ensures Loads(kids[i := kid]) == Loads(kids) - Load(kids[i]) + Load(kid)
    ensures Workers(kids[i := kid]) == Workers(kids)
              - (if Busy(kids[i]) then 1 else 0) + (if Busy(kid) then 1 else 0)
    ensures HeldAll(kids) >= Held(kids[i]) && Loads(kids) >= Load(kids[i])
  {
    var after := kids[i := kid];
    if i == 0 {
      assert after[1..] == kids[1..];
    } else {
      assert after[1..] == kids[1..][i - 1 := kid];
      SumsUpdate(kids[1..], i - 1, kid);
    }
  }

  lemma {:induction false} QueueSums(ts: seq<Task>)
    ensures HeldAll(Enqueue(ts)) == 0 && Workers(Enqueue(ts)) == 0
    ensures Loads(Enqueue(ts)) == TaskLoads(ts)
    ensures Promises(Enqueue(ts)) == AloneEach(ts)
  {
    if ts != [] {
      assert Enqueue(ts)[1..] == Enqueue(ts[1..]);
      QueueSums(ts[1..]);
    }
  }

  lemma {:induction false} StartKeeps(t: Task)
    ensures Valid(Start(t)) && !Start(t).Queued? && !Start(t).Done?
    ensures Held(Start(t)) == 0
    ensures Load(Start(t)) < TaskLoad(t)
    ensures Promise(Start(t)) == Alone(t)
  {
    match t
    case Ask(_, _) =>
    case Then(first, _) => StartKeeps(first);
    case Fan(kids, _) => QueueSums(kids);
  }

  /** One step of any thread gives up exactly the permits it takes, brings the run closer to
      its end, and leaves what every source will yield as it was. */
  lemma {:induction false} StepKeeps(n: Node, path: seq<nat>, free: nat)
    requires Valid(n)
    ensures var c := Fire(n, path, free);
            c.Some? ==>
              && Valid(c.value.node) && !c.value.node.Queued?
              && c.value.free + Held(c.value.node) == free + Held(n)
              && Load(c.value.node) < Load(n)
              && Promise(c.value.node) == Promise(n)
    decreases path
  {
    var c := Fire(n, path, free);
    if c.Some? {
      match n
      case Requesting(_, verb, script, attempt, _) =>
        DelayIsBounded(verb, attempt, script[attempt]);
      case Sequenced(now, next) =>
        if path == [] {
          StartKeeps(next);
        } else {
          StepKeeps(now, path[1..], free);
        }
      case Blocked(sources, kids, width, need) =>
        if path == [] {
          assert Promises(kids) == Results(kids);
          NoneHeldWhenDone(kids);
        } else {
          KidStepKeeps(sources, kids, width, need, path, free);
        }
    }
  }

  lemma {:induction false} NoneHeldWhenDone(kids: seq<Node>)
    requires forall i :: 0 <= i < |kids| ==> kids[i].Done?
    ensures HeldAll(kids) == 0
  {
    if kids != [] {
      NoneHeldWhenDone(kids[1..]);
    }
  }

  lemma {:induction false} KidStepKeeps(sources: seq<Task>, kids: seq<Node>, width: nat, need: seq<nat>, path: seq<nat>,
                                        free: nat)
    requires path != [] && Valid(Blocked(sources, kids, width, need))
    ensures var n := Blocked(sources, kids, width, need);
            var c := Fire(n, path, free);
            c.Some? ==>
              && Valid(c.value.node) && !c.value.node.Queued?
              && c.value.free + Held(c.value.node) == free + Held(n)
              && Load(c.value.node) < Load(n)
              && Promise(c.value.node) == Promise(n)
    decreases path, 0
  {
    var n, i := Blocked(sources, kids, width, need), path[0];
    var c := Fire(n, path, free);
    if c.Some? {
      var kid := kids[i];
      if kid.Queued? {
        StartKeeps(kid.task);
      } else {
        StepKeeps(kid, path[1..], free);
      }
      KidReplaced(sources, kids, width, need, i, c.value.node.kids[i]);
      assert c.value.node.kids == kids[i := c.value.node.kids[i]];
    }
  }

  /** A pool whose worker moved, or was started while there was room, is still what it was. */
  lemma KidReplaced(sources: seq<Task>, kids: seq<Node>, width: nat, need: seq<nat>, i: nat, kid: Node)
    requires i < |kids| && Valid(Blocked(sources, kids, width, need)) && Valid(kid) && !kid.Queued?
    ensures var n, n' := Blocked(sources, kids, width, need), Blocked(sources, kids[i := kid], width, need);
            && ((Busy(kids[i]) || Workers(kids) < width) && Promise(kid) == Promise(kids[i]) ==>
                  Valid(n') && Promise(n') == Promise(n))
            && Held(n') == Held(n) - Held(kids[i]) + Held(kid) && Load(n') == Load(n) - Load(kids[i]) + Load(kid)
  {
    SumsUpdate(kids, i, kid);
    if Promise(kid) == Promise(kids[i]) {
      assert Promises(kids[i := kid]) == Promises(kids);
    }
  }

  /******* Progress *******/

  lemma {:induction false} SomeoneHolds(kids: seq<Node>) returns (i: nat)
    requires HeldAll(kids) > 0
    ensures i < |kids| && Held(kids[i]) > 0
  {
    if Held(kids[0]) > 0 {
      i := 0;
    } else {
      i := SomeoneHolds(kids[1..]);
      i := i + 1;
    }
  }

  /** A thread that holds a permit can always move: it waits for the cloud and nothing else. */
  lemma {:induction false} HolderMoves(n: Node, free: nat) returns (path: seq<nat>)
    requires Valid(n) && Held(n) > 0
    ensures Fire(n, path, free).Some?
    decreases n
  {
    match n
    case Requesting(_, _, _, _, _) => path := [];
    case Sequenced(now, _) =>
      var rest := HolderMoves(now, free);
      path := [0] + rest;
    case Blocked(_, kids, _, _) =>
      var i := SomeoneHolds(kids);
      var rest := HolderMoves(kids[i], free);
      path := [i] + rest;
  }

  lemma {:induction false} IdlePool(kids: seq<Node>)
    requires forall i :: 0 <= i < |kids| ==> !Busy(kids[i])
    ensures Workers(kids) == 0
  {
    if kids != [] {
      IdlePool(kids[1..]);
    }
  }

  lemma {:induction false} FirstQueued(kids: seq<Node>, n: nat) returns (i: nat)
    requires n < |kids| && kids[n].Queued?
    ensures i <= n && kids[i].Queued? && forall j :: 0 <= j < i ==> !kids[j].Queued?
    decreases n
  {
    if k :| 0 <= k < n && kids[k].Queued? {
      i := FirstQueued(kids, k);
    } else {
      i := n;
    }
  }

  /** While a permit is free, an unfinished thread has a step below it. */
  lemma {:induction false} UnfinishedMoves(n: Node, free: nat) returns (path: seq<nat>)
    requires Valid(n) && Busy(n) && free > 0
    ensures Fire(n, path, free).Some?
    decreases n
  {
    match n
    case Requesting(_, _, _, _, _) => path := [];
    case Sequenced(now, _) =>
      if now.Done? {
        path := [];
      } else {
        var rest := UnfinishedMoves(now, free);
        path := [0] + rest;
      }
    case Blocked(_, kids, width, _) =>
      if i: nat :| i < |kids| && Busy(kids[i]) {
        var rest := UnfinishedMoves(kids[i], free);
        path := [i] + rest;
      } else if q: nat :| q < |kids| && kids[q].Queued? {
        IdlePool(kids);
        var i := FirstQueued(kids, q);
        path := [i];
        assert MayStart(kids, width, i);
      } else {
        path := [];
      }
  }

  /** No deadlock: as long as the gate has permits at all, free or held, unfinished work can
      always move, however deep the gathers nest. */
  lemma NoDeadlock(n: Node, free: nat) returns (path: seq<nat>)
    requires Valid(n) && Busy(n) && free + Held(n) > 0
    ensures Fire(n, path, free).Some?
  {
    if free > 0 {
      path := UnfinishedMoves(n, free);
    } else {
      path := HolderMoves(n, free);
    }
  }

  /******* Whole runs *******/

  /** What every reachable configuration keeps: the permits are conserved and the schedule
      so far has used up that much of the load. */
  lemma {:induction false} RunKeeps(c: Config, schedule: seq<seq<nat>>)
    requires Valid(c.node) && !c.node.Queued?
    ensures var d := Exec(c, schedule);
            d.Some? ==>
              && Valid(d.value.node) && !d.value.node.Queued?
              && d.value.free + Held(d.value.node) == c.free + Held(c.node)
              && |schedule| + Load(d.value.node) <= Load(c.node)
              && Promise(d.value.node) == Promise(c.node)
    decreases |schedule|
  {
    if schedule != [] {
      var d := Fire(c.node, schedule[0], c.free);
      StepKeeps(c.node, schedule[0], c.free);
      if d.Some? {
        RunKeeps(d.value, schedule[1..]);
      }
    }
  }

  /** The process after a schedule; None when the schedule names a thread that has to wait. */
  function Reached(pages: seq<Task>, schedule: seq<seq<nat>>): Option<Config> {
    QueueSums(pages);
    Exec(Config(Serve(pages), GATE_PERMITS), schedule)
  }

  /** The thread found by following `path` from `n`. */
  function NodeAt(n: Node, path: seq<nat>): Option<Node>
    decreases path
  {
    if path == [] then Some(n)
    else
      match n
      case Sequenced(now, _) => NodeAt(now, path[1..])
      case Blocked(_, kids, _, _) => if path[0] < |kids| then NodeAt(kids[path[0]], path[1..]) else None
      case _ => None
  }

  lemma {:induction false} ValidBelow(n: Node, path: seq<nat>)
    requires Valid(n) && NodeAt(n, path).Some?
    ensures Valid(NodeAt(n, path).value)
    decreases path
  {
    if path != [] {
      match n
      case Sequenced(now, _) => ValidBelow(now, path[1..]);
      case Blocked(_, kids, _, _) => ValidBelow(kids[path[0]], path[1..]);
    }
  }

  /******* Pools *******/

  /** Every gather from here down has a pool as wide as `gather` makes it. */
  ghost predicate Pooled(n: Node) {
    match n
    case Sequenced(now, _) => Pooled(now)
    case Blocked(sources, kids, width, _) =>
      width == PoolWidth(|sources|) && forall i :: 0 <= i < |kids| ==> Pooled(kids[i])
    case _ => true
  }

  /** The process itself is no pool: there is a thread for every page. */
  ghost predicate RootPooled(n: Node) {
    n.Blocked? ==> forall i :: 0 <= i < |n.kids| ==> Pooled(n.kids[i])
  }

  /** A gather never runs more than eight of its sources at once. */
  ghost predicate WithinPool(n: Node) {
    n.Blocked? ==> n.width == PoolWidth(|n.sources|) <= |n.sources| && Workers(n.kids) <= n.width <= 8
  }

  lemma {:induction false} StartPooled(t: Task)
    ensures Pooled(Start(t))
  {
    if t.Then? {
      StartPooled(t.first);
    }
  }

  lemma {:induction false} StepKeepsPools(n: Node, path: seq<nat>, free: nat)
    requires Valid(n) && Pooled(n) && Fire(n, path, free).Some?
    ensures Pooled(Fire(n, path, free).value.node)
    decreases path
  {
    match n
    case Requesting(_, _, _, _, _) =>
    case Sequenced(now, next) =>
      if path == [] {
        StartPooled(next);
      } else {
        StepKeepsPools(now, path[1..], free);
      }
    case Blocked(_, kids, _, _) =>
      if path != [] {
        if kids[path[0]].Queued? {
          StartPooled(kids[path[0]].task);
        } else {
          StepKeepsPools(kids[path[0]], path[1..], free);
        }
      }
  }

  lemma RootStepKeepsPools(n: Node, path: seq<nat>, free: nat)
    requires Valid(n) && n.Blocked? && RootPooled(n) && Fire(n, path, free).Some?
    ensures RootPooled(Fire(n, path, free).value.node)
    ensures Fire(n, path, free).value.node.Blocked? || Fire(n, path, free).value.node.Done?
  {
    if path != [] {
      var kid := n.kids[path[0]];
      if kid.Queued? {
        StartPooled(kid.task);
      } else {
        StepKeepsPools(kid, path[1..], free);
      }
    }
  }

  lemma {:induction false} RunKeepsPools(c: Config, schedule: seq<seq<nat>>)
    requires Valid(c.node) && (c.node.Blocked? || c.node.Done?) && RootPooled(c.node) && Exec(c, schedule).Some?
    ensures RootPooled(Exec(c, schedule).value.node)
    ensures Exec(c, schedule).value.node.Blocked? || Exec(c, schedule).value.node.Done?
    decreases |schedule|
  {
    if schedule != [] {
      StepKeeps(c.node, schedule[0], c.free);
      RootStepKeepsPools(c.node, schedule[0], c.free);
      RunKeepsPools(Fire(c.node, schedule[0], c.free).value, schedule[1..]);
    }
  }

  lemma PagesPooled(pages: seq<Task>, schedule: seq<seq<nat>>)
    requires Valid(Serve(pages)) && Exec(Config(Serve(pages), GATE_PERMITS), schedule).Some?
    ensures RootPooled(Exec(Config(Serve(pages), GATE_PERMITS), schedule).value.node)
    ensures var n := Exec(Config(Serve(pages), GATE_PERMITS), schedule).value.node; n.Blocked? || n.Done?
  {
    RunKeepsPools(Config(Serve(pages), GATE_PERMITS), schedule);
  }

  lemma {:induction false} PooledBelow(n: Node, path: seq<nat>)
    requires Valid(n) && Pooled(n) && NodeAt(n, path).Some?
    ensures WithinPool(NodeAt(n, path).value)
    decreases path
  {
    if path != [] {
      match n
      case Sequenced(now, _) => PooledBelow(now, path[1..]);
      case Blocked(_, kids, _, _) => PooledBelow(kids[path[0]], path[1..]);
    }
  }

  lemma PooledBelowRoot(n: Node, path: seq<nat>)
    requires Valid(n) && RootPooled(n) && (n.Blocked? || n.Done?)
    requires path != [] && NodeAt(n, path).Some?
    ensures WithinPool(NodeAt(n, path).value)
  {
    PooledBelow(n.kids[path[0]], path[1..]);
  }

  /******* What is promised *******/

  /** Nested gathers never deadlock.  From any pages, along any schedule: the gate is never
      over-subscribed and gets every permit back, the run is finite, it is stuck only when
      every page is done, and then each page has what it would have had on its own; and every
      gather, however deep, has a pool of its own that runs at most eight sources at once. */
  lemma NestedGathersFinish(pages: seq<Task>, schedule: seq<seq<nat>>)
    ensures Valid(Serve(pages))
    ensures |schedule| > Load(Serve(pages)) ==> Exec(Config(Serve(pages), GATE_PERMITS), schedule).None?
    ensures var c := Exec(Config(Serve(pages), GATE_PERMITS), schedule);
            c.Some? ==>
              && c.value.free + Held(c.value.node) == 12
              && Valid(c.value.node)
              && (c.value.node.Done? ==>
                    c.value.free == GATE_PERMITS && c.value.node.result == Ok(Joined(AloneEach(pages))))
              && (!c.value.node.Done? ==> exists path :: Fire(c.value.node, path, c.value.free).Some?)
              && forall path :: path != [] && NodeAt(c.value.node, path).Some? ==>
                   WithinPool(NodeAt(c.value.node, path).value)
  {
    var start := Config(Serve(pages), GATE_PERMITS);
    QueueSums(pages);
    RunKeeps(start, schedule);
    var c := Exec(start, schedule);
    if c.Some? && !c.value.node.Done? {
      var path := NoDeadlock(c.value.node, c.value.free);
    }
    if c.Some? {
      PagesPooled(pages, schedule);
      forall path | path != [] && NodeAt(c.value.node, path).Some?
        ensures WithinPool(NodeAt(c.value.node, path).value)
      {
        PooledBelowRoot(c.value.node, path);
      }
    }
  }

  /** One `Fetched` per name: the dictionary `gather` returns. */
  function Gathered(names: seq<string>, parts: seq<Fetched>): map<string, Fetched>
    requires |names| == |parts|
  {
    if names == [] then map[] else Gathered(names[1..], parts[1..])[names[0] := parts[0]]
  }

  /** A gather that is reached anywhere in a run of any pages, once all its workers are done,
      hands back one `Fetched` for each name and nothing else, equal to running that source
      alone: which other sources and threads fail, and in which order they all move, makes no
      difference. */
  lemma GatherYieldsEachName(pages: seq<Task>, schedule: seq<seq<nat>>, path: seq<nat>, names: seq<string>)
    requires var c := Reached(pages, schedule);
             && c.Some? && var n := NodeAt(c.value.node, path);
                && n.Some? && n.value.Blocked? && |names| == |n.value.sources|
                && forall i :: 0 <= i < |n.value.kids| ==> n.value.kids[i].Done?
    requires forall i, j :: 0 <= i < j < |names| ==> names[i] != names[j]
    ensures var n := NodeAt(Reached(pages, schedule).value.node, path).value;
            var parts := Results(n.kids);
            && |parts| == |names|
            && Gathered(names, parts).Keys == (set name | name in names)
            && forall i :: 0 <= i < |names| ==> Gathered(names, parts)[names[i]] == Alone(n.sources[i])
  {
    QueueSums(pages);
    RunKeeps(Config(Serve(pages), GATE_PERMITS), schedule);
    var c := Reached(pages, schedule).value;
    ValidBelow(c.node, path);
    var n := NodeAt(c.node, path).value;
    assert Promises(n.kids) == Results(n.kids);
    GatheredMaps(names, Results(n.kids));
  }

  lemma {:induction false} GatheredMaps(names: seq<string>, parts: seq<Fetched>)
    requires |names| == |parts|
    requires forall i, j :: 0 <= i < j < |names| ==> names[i] != names[j]
    ensures Gathered(names, parts).Keys == (set name | name in names)
    ensures forall i :: 0 <= i < |names| ==> Gathered(names, parts)[names[i]] == parts[i]
  {
    if names != [] {
      GatheredMaps(names[1..], parts[1..]);
      assert forall name :: name in names <==> name == names[0] || name in names[1..];
    }
  }
}
