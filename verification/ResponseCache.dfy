/** The versioned read-through cache of apps/integrations/zadara/resources.py.

    `_cached_get` is not one step: it reads the scope's version, looks its key up, asks the
    cloud and stores the answer, and other reads and invalidations run in between.  Hashes
    are taken as injective, so a scope stands for its token and a key for its three parts. */
module ResponseCache {
  import opened Options

  const TTL: nat := 45

  type Scope = string
  type Path = string

  /** An answer of the cloud, tagged with what was asked and the event that asked it. */
  datatype Datum = Datum(scope: Scope, path: Path, at: nat)
  datatype Key = Key(scope: Scope, version: nat, path: Path)
  datatype Entry = Entry(data: Datum, stored: nat, expires: nat)

  type Versions = map<Scope, nat>
  type Store = map<Key, Entry>

  function VersionOf(versions: Versions, scope: Scope): nat {
    if scope in versions then versions[scope] else 0
  }

  /** `cache.get`: an entry answers until it expires. */
  function Live(store: Store, key: Key, now: nat): Option<Datum> {
    if key in store && now < store[key].expires then Some(store[key].data) else None
  }

  /** `cache.set`; a body-less answer is not stored. */
  function Stored(store: Store, key: Key, data: Option<Datum>, now: nat): Store {
    if data.Some? then store[key := Entry(data.value, now, now + TTL)] else store
  }

  /******* The protocol *******/

  /** A read in progress.  `since` is the event at which the last invalidation of its scope
      had returned when the read began. */
  datatype Reader = Reader(scope: Scope, path: Path, since: nat, stage: Stage)
  datatype Stage =
    | Called
    | HasVersion(version: nat)
    | Missed(version: nat)
    | Fetched(version: nat, data: Option<Datum>)
    | Answered(answer: Option<Datum>)
    | Raised

  /** An invalidation between its read of the version and its write. */
  datatype Bump = Bump(scope: Scope, read: nat)

  /** `events` counts steps, `now` seconds; `cuts` holds, for each scope, the events at which
      its invalidations returned. */
  datatype State = State(
    events: nat, now: nat, versions: Versions, store: Store,
    readers: map<nat, Reader>, bumps: map<nat, Bump>, cuts: map<Scope, seq<nat>>)

  datatype Step =
    | Call(id: nat, scope: Scope, path: Path)
    | ReadVersion(id: nat)
    | LookUp(id: nat)
    | Fetch(id: nat, hasBody: bool)
    | FailFetch(id: nat)
    | Save(id: nat)
    | BeginInvalidate(id: nat, scope: Scope)
    | EndInvalidate(id: nat)
    | Evict(key: Key)
    | DropCounter(scope: Scope)
    | Pass(seconds: nat)

  const EMPTY := State(1, 0, map[], map[], map[], map[], map[])

  function Cuts(s: State, scope: Scope): seq<nat> {
    if scope in s.cuts then s.cuts[scope] else []
  }

  /** The event at which version `v` of the scope came to be. */
  function Born(s: State, scope: Scope, v: nat): nat
    requires v <= |Cuts(s, scope)|
  {
    if v == 0 then 0 else Cuts(s, scope)[v - 1]
  }

  function Since(s: State, scope: Scope): nat {
    Born(s, scope, |Cuts(s, scope)|)
  }

  predicate Enabled(s: State, step: Step) {
    match step
    case Call(id, _, _) => id !in s.readers
    case ReadVersion(id) => id in s.readers && s.readers[id].stage.Called?
    case LookUp(id) => id in s.readers && s.readers[id].stage.HasVersion?
    case Fetch(id, _) => id in s.readers && s.readers[id].stage.Missed?
    case FailFetch(id) => id in s.readers && s.readers[id].stage.Missed?
    case Save(id) => id in s.readers && s.readers[id].stage.Fetched?
    case BeginInvalidate(id, _) => id !in s.bumps
    case EndInvalidate(id) => id in s.bumps
    case Evict(_) => true
    case DropCounter(_) => true
    case Pass(_) => true
  }

  function Moved(s: State, id: nat, stage: Stage): State
    requires id in s.readers
  {
    s.(readers := s.readers[id := s.readers[id].(stage := stage)])
  }

  function Act(s: State, step: Step): State
    requires Enabled(s, step)
  {
    match step
    case Call(id, scope, path) =>
      s.(readers := s.readers[id := Reader(scope, path, Since(s, scope), Called)])
    case ReadVersion(id) => Moved(s, id, HasVersion(VersionOf(s.versions, s.readers[id].scope)))
    case LookUp(id) =>
      var r := s.readers[id];
      var hit := Live(s.store, Key(r.scope, r.stage.version, r.path), s.now);
      Moved(s, id, if hit.Some? then Answered(hit) else Missed(r.stage.version))
    case Fetch(id, hasBody) =>
      var r := s.readers[id];
      Moved(s, id, Fetched(r.stage.version,
                           if hasBody then Some(Datum(r.scope, r.path, s.events)) else None))
    case FailFetch(id) => Moved(s, id, Raised)
    case Save(id) =>
      var r := s.readers[id];
      var store := Stored(s.store, Key(r.scope, r.stage.version, r.path), r.stage.data, s.now);
      Moved(s.(store := store), id, Answered(r.stage.data))
    case BeginInvalidate(id, scope) =>
      s.(bumps := s.bumps[id := Bump(scope, VersionOf(s.versions, scope))])
    case EndInvalidate(id) =>
      var b := s.bumps[id];
      s.(versions := s.versions[b.scope := b.read + 1], bumps := s.bumps - {id},
         cuts := s.cuts[b.scope := Cuts(s, b.scope) + [s.events]])
    case Evict(key) => s.(store := s.store - {key})
    case DropCounter(scope) => s.(versions := s.versions - {scope})
    case Pass(seconds) => s.(now := s.now + seconds)
  }

  function Next(s: State, step: Step): State
    requires Enabled(s, step)
  {
    Act(s, step).(events := s.events + 1)
  }

  /** Invalidations of the scope do not overlap: each begins after the last one returned.  What
      other scopes do makes no difference. */
  predicate Alone(s: State, step: Step, scope: Scope) {
    step.BeginInvalidate? && step.scope == scope ==> forall id :: id in s.bumps ==> s.bumps[id].scope != scope
  }

  /** The backend does not lose the scope's version counter, which is stored without a timeout. */
  predicate KeepsCounter(steps: seq<Step>, scope: Scope) {
    forall i :: 0 <= i < |steps| ==> steps[i] != DropCounter(scope)
  }

  /** The state after `steps`, which must be enabled one after another. */
  function Run(s: State, steps: seq<Step>): Option<State> {
    if steps == [] then Some(s)
    else
      match Run(s, steps[..|steps| - 1])
      case None => None
      case Some(t) => if Enabled(t, steps[|steps| - 1]) then Some(Next(t, steps[|steps| - 1])) else None
  }

  predicate Exclusive(s: State, steps: seq<Step>, scope: Scope) {
    steps == [] ||
    (Exclusive(s, steps[..|steps| - 1], scope) &&
     match Run(s, steps[..|steps| - 1])
     case None => false
     case Some(t) => Alone(t, steps[|steps| - 1], scope))
  }

  /******* The invariant *******/

  ghost predicate CutsInOrder(s: State) {
    && (forall scope :: scope in s.cuts ==>
          && (forall i :: 0 <= i < |s.cuts[scope]| ==> 0 < s.cuts[scope][i] < s.events)
          && (forall i, j :: 0 <= i < j < |s.cuts[scope]| ==> s.cuts[scope][i] < s.cuts[scope][j]))
  }

  ghost predicate VersionsCount(s: State, scope: Scope) {
    && VersionOf(s.versions, scope) == |Cuts(s, scope)|
    && (forall id :: id in s.bumps && s.bumps[id].scope == scope ==> s.bumps[id].read == VersionOf(s.versions, scope))
    && (forall id, id' :: id in s.bumps && id' in s.bumps && id != id' && s.bumps[id].scope == scope ==>
          s.bumps[id'].scope != scope)
  }

  /** A datum filed under a version of a scope answers the question that is asked of it, and
      was fetched after that version came to be. */
  ghost predicate Filed(s: State, scope: Scope, v: nat, path: Path, d: Datum) {
    v <= |Cuts(s, scope)| && d.scope == scope && d.path == path && Born(s, scope, v) < d.at < s.events
  }

  ghost predicate StoreFiled(s: State, scope: Scope) {
    forall k :: k in s.store && k.scope == scope ==> Filed(s, scope, k.version, k.path, s.store[k].data)
  }

  ghost predicate ReaderSound(s: State, r: Reader) {
    && r.since <= Since(s, r.scope)
    && match r.stage
       case Called => true
       case Raised => true
       case HasVersion(v) => v <= |Cuts(s, r.scope)| && r.since <= Born(s, r.scope, v)
       case Missed(v) => v <= |Cuts(s, r.scope)| && r.since <= Born(s, r.scope, v)
       case Fetched(v, data) =>
         && v <= |Cuts(s, r.scope)| && r.since <= Born(s, r.scope, v)
         && (data.Some? ==> Filed(s, r.scope, v, r.path, data.value))
       case Answered(data) =>
         data.Some? ==> data.value.scope == r.scope && data.value.path == r.path && r.since < data.value.at
  }

  ghost predicate ReadersSound(s: State, scope: Scope) {
    forall id :: id in s.readers && s.readers[id].scope == scope ==> ReaderSound(s, s.readers[id])
  }

  ghost predicate Inv(s: State, scope: Scope) {
    0 < s.events && CutsInOrder(s) && VersionsCount(s, scope) && StoreFiled(s, scope) && ReadersSound(s, scope)
  }

  /** Nothing is filed, held or answered under another scope or path than its own. */
  ghost predicate Own(s: State) {
    && (forall k :: k in s.store ==>
          && s.store[k].data.scope == k.scope && s.store[k].data.path == k.path
          && s.store[k].stored <= s.now && s.store[k].expires == s.store[k].stored + TTL)
    && (forall id :: id in s.readers ==>
          var r := s.readers[id];
          && (r.stage.Fetched? && r.stage.data.Some? ==>
                r.stage.data.value.scope == r.scope && r.stage.data.value.path == r.path)
          && (r.stage.Answered? && r.stage.answer.Some? ==>
                r.stage.answer.value.scope == r.scope && r.stage.answer.value.path == r.path))
  }

  lemma OwnKept(s: State, step: Step)
    requires Own(s) && Enabled(s, step)
    ensures Own(Next(s, step))
  {
  }

  lemma {:induction false} RunIsOwn(steps: seq<Step>)
    requires Run(EMPTY, steps).Some?
    ensures Own(Run(EMPTY, steps).value)
  {
    if steps != [] {
      RunIsOwn(steps[..|steps| - 1]);
      OwnKept(Run(EMPTY, steps[..|steps| - 1]).value, steps[|steps| - 1]);
    }
  }

  /** The cuts of a scope only grow, at their end. */
  ghost predicate Extends(s: State, t: State) {
    && s.events <= t.events
    && forall scope :: |Cuts(s, scope)| <= |Cuts(t, scope)| && Cuts(t, scope)[..|Cuts(s, scope)|] == Cuts(s, scope)
  }

  lemma BornStays(s: State, t: State, scope: Scope, v: nat)
    requires Extends(s, t) && v <= |Cuts(s, scope)|
    ensures v <= |Cuts(t, scope)| && Born(t, scope, v) == Born(s, scope, v)
  {
    assert Cuts(t, scope)[..|Cuts(s, scope)|] == Cuts(s, scope);
  }

  lemma StepExtends(s: State, step: Step)
    requires Enabled(s, step)
    ensures Extends(s, Next(s, step))
  {
  }

  lemma FiledStays(s: State, t: State, scope: Scope, v: nat, path: Path, d: Datum)
    requires Extends(s, t) && Filed(s, scope, v, path, d)
    ensures Filed(t, scope, v, path, d)
  {
    BornStays(s, t, scope, v);
  }

  lemma SinceGrows(s: State, t: State, scope: Scope)
    requires CutsInOrder(t) && Extends(s, t)
    ensures Since(s, scope) <= Since(t, scope)
  {
    BornStays(s, t, scope, |Cuts(s, scope)|);
  }

  lemma ReaderStays(s: State, t: State, r: Reader)
    requires CutsInOrder(t) && Extends(s, t) && ReaderSound(s, r)
    ensures ReaderSound(t, r)
  {
    SinceGrows(s, t, r.scope);
    match r.stage
    case HasVersion(v) => BornStays(s, t, r.scope, v);
    case Missed(v) => BornStays(s, t, r.scope, v);
    case Fetched(v, data) =>
      BornStays(s, t, r.scope, v);
      if data.Some? {
        FiledStays(s, t, r.scope, v, r.path, data.value);
      }
    case _ =>
  }

  lemma CutsKept(s: State, step: Step)
    requires CutsInOrder(s) && 0 < s.events && Enabled(s, step)
    ensures CutsInOrder(Next(s, step))
  {
    if step.EndInvalidate? {
      var scope := s.bumps[step.id].scope;
      assert Next(s, step).cuts == s.cuts[scope := Cuts(s, scope) + [s.events]];
    } else {
      assert Next(s, step).cuts == s.cuts;
    }
  }

  lemma VersionsKept(s: State, step: Step, scope: Scope)
    requires VersionsCount(s, scope) && Enabled(s, step) && Alone(s, step, scope) && step != DropCounter(scope)
    ensures VersionsCount(Next(s, step), scope)
  {
    var t := Next(s, step);
    match step
    case BeginInvalidate(id, other) =>
      assert t.bumps == s.bumps[id := Bump(other, VersionOf(s.versions, other))];
    case EndInvalidate(id) =>
      var b := s.bumps[id];
      assert b.scope == scope ==> Cuts(t, scope) == Cuts(s, scope) + [s.events];
      assert b.scope != scope ==> Cuts(t, scope) == Cuts(s, scope);
    case DropCounter(other) =>
      assert VersionOf(t.versions, scope) == VersionOf(s.versions, scope) && t.cuts == s.cuts && t.bumps == s.bumps;
    case _ =>
      assert t.versions == s.versions && t.cuts == s.cuts && t.bumps == s.bumps;
  }

  lemma StoreKept(s: State, step: Step, scope: Scope)
    requires Inv(s, scope) && Enabled(s, step)
    ensures StoreFiled(Next(s, step), scope)
  {
    var t := Next(s, step);
    StepExtends(s, step);
    if step.Save? && s.readers[step.id].scope == scope {
      SaveFiles(s, step.id, scope);
    } else {
      forall k | k in t.store && k.scope == scope
        ensures Filed(t, scope, k.version, k.path, t.store[k].data)
      {
        assert k in s.store && t.store[k] == s.store[k];
        FiledStays(s, t, scope, k.version, k.path, s.store[k].data);
      }
    }
  }

  lemma SaveFiles(s: State, id: nat, scope: Scope)
    requires Inv(s, scope) && Enabled(s, Save(id)) && s.readers[id].scope == scope
    ensures StoreFiled(Next(s, Save(id)), scope)
  {
    var r, t := s.readers[id], Next(s, Save(id));
    StepExtends(s, Save(id));
    assert ReaderSound(s, r);
    var key := Key(r.scope, r.stage.version, r.path);
    forall k | k in t.store && k.scope == scope
      ensures Filed(t, scope, k.version, k.path, t.store[k].data)
    {
      if r.stage.data.Some? && k == key {
        FiledStays(s, t, scope, r.stage.version, r.path, r.stage.data.value);
      } else {
        FiledStays(s, t, scope, k.version, k.path, s.store[k].data);
      }
    }
  }

  /** A step keeps every reader it does not move. */
  lemma OtherReadersKept(s: State, step: Step, id: nat)
    requires CutsInOrder(s) && 0 < s.events && Enabled(s, step)
    requires id in s.readers && ReaderSound(s, s.readers[id])
    requires Next(s, step).readers[id] == s.readers[id]
    ensures ReaderSound(Next(s, step), s.readers[id])
  {
    StepExtends(s, step);
    CutsKept(s, step);
    ReaderStays(s, Next(s, step), s.readers[id]);
  }

  /** The read that a step moves. */
  predicate Moves(step: Step, id: nat) {
    match step
    case Call(i, _, _) => i == id
    case ReadVersion(i) => i == id
    case LookUp(i) => i == id
    case Fetch(i, _) => i == id
    case FailFetch(i) => i == id
    case Save(i) => i == id
    case _ => false
  }

  lemma LookUpKept(s: State, id: nat, scope: Scope)
    requires Inv(s, scope) && Enabled(s, LookUp(id)) && s.readers[id].scope == scope
    ensures ReaderSound(Next(s, LookUp(id)), Next(s, LookUp(id)).readers[id])
  {
    var r, t := s.readers[id], Next(s, LookUp(id));
    var key := Key(r.scope, r.stage.version, r.path);
    assert t.cuts == s.cuts && ReaderSound(s, r);
    if Live(s.store, key, s.now).Some? {
      assert Filed(s, scope, key.version, key.path, s.store[key].data);
    }
  }

  lemma FetchKept(s: State, id: nat, hasBody: bool, scope: Scope)
    requires Inv(s, scope) && Enabled(s, Fetch(id, hasBody)) && s.readers[id].scope == scope
    ensures ReaderSound(Next(s, Fetch(id, hasBody)), Next(s, Fetch(id, hasBody)).readers[id])
  {
    var r, t := s.readers[id], Next(s, Fetch(id, hasBody));
    assert t.cuts == s.cuts && ReaderSound(s, r);
  }

  lemma MovedReaderKept(s: State, step: Step, scope: Scope, id: nat)
    requires Inv(s, scope) && Enabled(s, step) && Moves(step, id) && id in s.readers && s.readers[id].scope == scope
    ensures var t := Next(s, step);
            id in t.readers && ReaderSound(t, t.readers[id])
  {
    assert ReaderSound(s, s.readers[id]);
    match step
    case LookUp(_) => LookUpKept(s, id, scope);
    case Fetch(_, hasBody) => FetchKept(s, id, hasBody, scope);
    case _ =>
  }

  lemma ReadersKept(s: State, step: Step, scope: Scope)
    requires Inv(s, scope) && Enabled(s, step)
    ensures ReadersSound(Next(s, step), scope)
  {
    var t := Next(s, step);
    forall id | id in t.readers && t.readers[id].scope == scope
      ensures ReaderSound(t, t.readers[id])
    {
      if step.Call? && step.id == id {
        assert t.readers[id] == Reader(step.scope, step.path, Since(s, scope), Called) && t.cuts == s.cuts;
      } else if Moves(step, id) {
        MovedReaderKept(s, step, scope, id);
      } else {
        OtherReadersKept(s, step, id);
      }
    }
  }

  /** Every step of any interleaving keeps the invariant of a scope whose invalidations do not
      overlap. */
  lemma StepKeeps(s: State, step: Step, scope: Scope)
    requires Inv(s, scope) && Enabled(s, step) && Alone(s, step, scope) && step != DropCounter(scope)
    ensures Inv(Next(s, step), scope)
  {
    CutsKept(s, step);
    VersionsKept(s, step, scope);
    StoreKept(s, step, scope);
    ReadersKept(s, step, scope);
  }

  /******* Whole runs *******/

  lemma {:induction false} RunKeeps(s: State, steps: seq<Step>, scope: Scope)
    requires Inv(s, scope) && Run(s, steps).Some? && Exclusive(s, steps, scope) && KeepsCounter(steps, scope)
    ensures Inv(Run(s, steps).value, scope)
    ensures Run(s, steps).value.events == s.events + |steps|
  {
    if steps != [] {
      var before := steps[..|steps| - 1];
      RunKeeps(s, before, scope);
      StepKeeps(Run(s, before).value, steps[|steps| - 1], scope);
    }
  }

  lemma NothingYet(scope: Scope)
    ensures Inv(EMPTY, scope)
  {
  }

  /** Step number `i`, counted from nought, is an invalidation of `scope` that returns there. */
  predicate Invalidates(steps: seq<Step>, i: nat, scope: Scope)
    requires i < |steps|
  {
    steps[i].EndInvalidate? &&
    match Run(EMPTY, steps[..i])
    case None => false
    case Some(s) => steps[i].id in s.bumps && s.bumps[steps[i].id].scope == scope
  }

  /** After an invalidation returned at step `i`, the scope's last cut is no older than it. */
  lemma {:induction false} CutReached(steps: seq<Step>, i: nat, scope: Scope)
    requires Run(EMPTY, steps).Some?
    requires i < |steps| && Invalidates(steps, i, scope)
    ensures Since(Run(EMPTY, steps).value, scope) >= i + 1
  {
    var before, last := steps[..|steps| - 1], steps[|steps| - 1];
    RunCounts(before);
    var s := Run(EMPTY, before).value;
    if i == |steps| - 1 {
      assert steps[..i] == before;
    } else {
      assert before[..i] == steps[..i];
      CutReached(before, i, scope);
      StepExtends(s, last);
      CutsKept(s, last);
      SinceGrows(s, Next(s, last), scope);
    }
  }

  lemma {:induction false} RunCounts(steps: seq<Step>)
    requires Run(EMPTY, steps).Some?
    ensures CutsInOrder(Run(EMPTY, steps).value) && Run(EMPTY, steps).value.events == |steps| + 1
  {
    if steps != [] {
      RunCounts(steps[..|steps| - 1]);
      CutsKept(Run(EMPTY, steps[..|steps| - 1]).value, steps[|steps| - 1]);
    }
  }

  /** A read keeps what it was asked, and when it began, to its end. */
  lemma ReaderKeeps(s: State, step: Step, id: nat)
    requires Enabled(s, step) && id in s.readers
    ensures var t := Next(s, step);
            && id in t.readers && t.readers[id].scope == s.readers[id].scope
            && t.readers[id].path == s.readers[id].path && t.readers[id].since == s.readers[id].since
  {
  }

  lemma {:induction false} ReaderRemembers(steps: seq<Step>, i: nat, j: nat)
    requires Run(EMPTY, steps).Some?
    requires i < j < |steps| && steps[j].Call? && Invalidates(steps, i, steps[j].scope)
    ensures var t, c := Run(EMPTY, steps).value, steps[j];
            c.id in t.readers && t.readers[c.id].scope == c.scope && t.readers[c.id].path == c.path
            && t.readers[c.id].since >= i + 1
  {
    var before := steps[..|steps| - 1];
    assert before[..i] == steps[..i];
    if j == |steps| - 1 {
      CutReached(before, i, steps[j].scope);
    } else {
      assert before[j] == steps[j];
      ReaderRemembers(before, i, j);
      ReaderKeeps(Run(EMPTY, before).value, steps[|steps| - 1], steps[j].id);
    }
  }

  /** Read your writes.  However reads and invalidations interleave, a read that begins (at
      step `j`) after an invalidation of its scope returned (at step `i`) is never answered
      with data fetched before that invalidation, and never with another scope's or another
      path's; a slow read begun earlier may store its answer as late as it likes.  Only the
      invalidations of the read's own scope must not overlap, and its counter must be kept. */
  lemma ReadYourWrites(steps: seq<Step>, i: nat, j: nat)
    requires i < j < |steps| && steps[j].Call? && Invalidates(steps, i, steps[j].scope)
    requires Run(EMPTY, steps).Some? && Exclusive(EMPTY, steps, steps[j].scope) && KeepsCounter(steps, steps[j].scope)
    ensures var t, c := Run(EMPTY, steps).value, steps[j];
            && c.id in t.readers
            && (t.readers[c.id].stage.Answered? && t.readers[c.id].stage.answer.Some? ==>
                  var d := t.readers[c.id].stage.answer.value;
                  d.at > i + 1 && d.scope == c.scope && d.path == c.path)
  {
    var scope := steps[j].scope;
    NothingYet(scope);
    RunKeeps(EMPTY, steps, scope);
    ReaderRemembers(steps, i, j);
    var t := Run(EMPTY, steps).value;
    assert ReaderSound(t, t.readers[steps[j].id]);
  }

  /** Every answer is about the scope and the path that were asked for, and an answer from
      the cache was stored less than the TTL ago.  Overlapping invalidations do no harm here. */
  lemma AnswersAreOnesOwn(steps: seq<Step>, id: nat)
    requires Run(EMPTY, steps).Some?
    ensures var s := Run(EMPTY, steps).value;
            id in s.readers && s.readers[id].stage.Answered? && s.readers[id].stage.answer.Some? ==>
              s.readers[id].stage.answer.value.scope == s.readers[id].scope
              && s.readers[id].stage.answer.value.path == s.readers[id].path
    ensures var s := Run(EMPTY, steps).value;
            Enabled(s, LookUp(id)) && Next(s, LookUp(id)).readers[id].stage.Answered? ==>
              exists k :: k in s.store && k.scope == s.readers[id].scope && k.path == s.readers[id].path
                && s.store[k].stored <= s.now < s.store[k].stored + 45
                && Next(s, LookUp(id)).readers[id].stage.answer == Some(s.store[k].data)
  {
    RunIsOwn(steps);
    var s := Run(EMPTY, steps).value;
    if Enabled(s, LookUp(id)) && Next(s, LookUp(id)).readers[id].stage.Answered? {
      var r := s.readers[id];
      assert Key(r.scope, r.stage.version, r.path) in s.store;
    }
  }

  /******* Why invalidations must not overlap *******/

  /** No read of the scope was answered with data fetched before an invalidation that had
      returned when the read began. */
  ghost predicate AnswersFresh(s: State, scope: Scope) {
    forall id :: id in s.readers && s.readers[id].scope == scope
                 && s.readers[id].stage.Answered? && s.readers[id].stage.answer.Some? ==>
      s.readers[id].since < s.readers[id].stage.answer.value.at
  }

  /** Whatever happens next, short of another overlap or the loss of the counter, answers stay
      fresh. */
  ghost predicate StaysFresh(s: State, scope: Scope) {
    forall more :: Run(s, more).Some? && Exclusive(s, more, scope) && KeepsCounter(more, scope) ==>
      AnswersFresh(Run(s, more).value, scope)
  }

  /** The condition is exact: the first invalidation to begin while another of its scope is
      under way, and nothing else, ends the guarantee. */
  lemma FreshExactlyWhileExclusive(steps: seq<Step>, scope: Scope)
    requires steps != [] && Run(EMPTY, steps).Some? && Exclusive(EMPTY, steps[..|steps| - 1], scope)
    requires KeepsCounter(steps, scope)
    ensures StaysFresh(Run(EMPTY, steps).value, scope) <==> Exclusive(EMPTY, steps, scope)
  {
    var before, last := steps[..|steps| - 1], steps[|steps| - 1];
    var s, t := Run(EMPTY, before).value, Run(EMPTY, steps).value;
    NothingYet(scope);
    RunKeeps(EMPTY, before, scope);
    if Alone(s, last, scope) {
      StepKeeps(s, last, scope);
      forall more | Run(t, more).Some? && Exclusive(t, more, scope) && KeepsCounter(more, scope)
        ensures AnswersFresh(Run(t, more).value, scope)
      {
        RunKeeps(t, more, scope);
        SoundIsFresh(Run(t, more).value, scope);
      }
    } else {
      var first :| first in s.bumps && s.bumps[first].scope == scope;
      assert t.bumps[first] == s.bumps[first] == t.bumps[last.id];
      OverlapLosesAnInvalidation(t, first, last.id);
    }
  }

  lemma SoundIsFresh(s: State, scope: Scope)
    requires Inv(s, scope)
    ensures AnswersFresh(s, scope)
  {
    forall id | id in s.readers && s.readers[id].scope == scope
                && s.readers[id].stage.Answered? && s.readers[id].stage.answer.Some?
      ensures s.readers[id].since < s.readers[id].stage.answer.value.at
    {
      assert ReaderSound(s, s.readers[id]);
    }
  }

  /** The shortest such run: two invalidations of one scope begin, one after the other. */
  lemma OverlapFromTheStart(scope: Scope)
    ensures var steps := [BeginInvalidate(0, scope), BeginInvalidate(1, scope)];
            Run(EMPTY, steps).Some? && !StaysFresh(Run(EMPTY, steps).value, scope)
  {
    var steps := [BeginInvalidate(0, scope), BeginInvalidate(1, scope)];
    assert steps[..1][..0] == [] && steps[..1] == [BeginInvalidate(0, scope)];
    assert Run(EMPTY, []) == Some(EMPTY) && Exclusive(EMPTY, [], scope);
    var s := Next(EMPTY, steps[0]);
    assert Exclusive(EMPTY, steps[..1][..|steps[..1]| - 1], scope) && Alone(EMPTY, steps[0], scope);
    assert Exclusive(EMPTY, steps[..1], scope) && steps[..|steps| - 1] == steps[..1];
    assert Run(EMPTY, steps[..1]) == Some(s) && 0 in s.bumps && s.bumps[0].scope == scope;
    FreshExactlyWhileExclusive(steps, scope);
  }

  /** Some run leads from `s` to `t`, in which no invalidation begins and no counter is lost. */
  ghost predicate LeadsTo(s: State, t: State) {
    exists steps :: Run(s, steps) == Some(t) && Quiet(steps)
  }

  ghost predicate Quiet(steps: seq<Step>) {
    forall i :: 0 <= i < |steps| ==> !steps[i].BeginInvalidate? && !steps[i].DropCounter?
  }

  lemma {:induction false} QuietIsExclusive(s: State, steps: seq<Step>, scope: Scope)
    requires Run(s, steps).Some? && Quiet(steps)
    ensures Exclusive(s, steps, scope)
  {
    if steps != [] {
      assert Quiet(steps[..|steps| - 1]);
      QuietIsExclusive(s, steps[..|steps| - 1], scope);
    }
  }

  lemma LeadsOn(s: State, t: State, step: Step)
    requires LeadsTo(s, t) && Enabled(t, step) && !step.BeginInvalidate? && !step.DropCounter?
    ensures LeadsTo(s, Next(t, step))
  {
    var steps :| Run(s, steps) == Some(t) && Quiet(steps);
    assert (steps + [step])[..|steps + [step]| - 1] == steps;
    assert Run(s, steps + [step]) == Some(Next(t, step));
    assert Quiet(steps + [step]);
  }

  /** One read, from its call to its last step, with nothing else in between: what
      `_cached_get` does when it is alone. */
  function WholeRead(s: State, id: nat, scope: Scope, path: Path): State
    requires id !in s.readers
  {
    var looked := Next(Next(Next(s, Call(id, scope, path)), ReadVersion(id)), LookUp(id));
    if looked.readers[id].stage.Answered? then looked
    else Next(Next(looked, Fetch(id, true)), Save(id))
  }

  lemma WholeReadLeads(s: State, t: State, id: nat, scope: Scope, path: Path)
    requires LeadsTo(s, t) && id !in t.readers
    ensures LeadsTo(s, WholeRead(t, id, scope, path))
  {
    var t1 := Next(t, Call(id, scope, path));
    LeadsOn(s, t, Call(id, scope, path));
    var t2 := Next(t1, ReadVersion(id));
    LeadsOn(s, t1, ReadVersion(id));
    LeadsOn(s, t2, LookUp(id));
    var looked := Next(t2, LookUp(id));
    if !looked.readers[id].stage.Answered? {
      LeadsOn(s, looked, Fetch(id, true));
      LeadsOn(s, Next(looked, Fetch(id, true)), Save(id));
    }
  }

  lemma WholeReadMisses(s: State, id: nat, scope: Scope, path: Path)
    requires id !in s.readers
    requires Live(s.store, Key(scope, VersionOf(s.versions, scope), path), s.now).None?
    ensures var t, key := WholeRead(s, id, scope, path), Key(scope, VersionOf(s.versions, scope), path);
            && t.store == s.store[key := Entry(Datum(scope, path, s.events + 3), s.now, s.now + TTL)]
            && t.versions == s.versions && t.now == s.now && t.bumps == s.bumps && t.events == s.events + 5
            && t.readers.Keys == s.readers.Keys + {id}
            && t.readers[id].stage == Answered(Some(Datum(scope, path, s.events + 3)))
  {
  }

  lemma WholeReadHits(s: State, id: nat, scope: Scope, path: Path)
    requires id !in s.readers
    requires Live(s.store, Key(scope, VersionOf(s.versions, scope), path), s.now).Some?
    ensures var t, key := WholeRead(s, id, scope, path), Key(scope, VersionOf(s.versions, scope), path);
            && id in t.readers && t.readers[id].since == Since(s, scope) && t.readers[id].scope == scope
            && t.readers[id].stage == Answered(Some(s.store[key].data))
            && t.store == s.store && t.versions == s.versions
  {
  }

  lemma ReadAfterMiss(s: State, t: State, id: nat, scope: Scope, path: Path) returns (u: State)
    requires LeadsTo(s, t) && id !in t.readers
    requires Live(t.store, Key(scope, VersionOf(t.versions, scope), path), t.now).None?
    ensures LeadsTo(s, u)
    ensures u.bumps == t.bumps && u.versions == t.versions && u.readers.Keys == t.readers.Keys + {id}
    ensures var d := Datum(scope, path, t.events + 3);
            d.at < u.events && Live(u.store, Key(scope, VersionOf(t.versions, scope), path), u.now) == Some(d)
  {
    u := WholeRead(t, id, scope, path);
    WholeReadLeads(s, t, id, scope, path);
    WholeReadMisses(t, id, scope, path);
  }

  lemma BumpReturns(s: State, t: State, id: nat) returns (u: State)
    requires LeadsTo(s, t) && id in t.bumps
    ensures LeadsTo(s, u)
    ensures u.store == t.store && u.readers == t.readers && u.now == t.now && u.bumps == t.bumps - {id}
    ensures u.versions == t.versions[t.bumps[id].scope := t.bumps[id].read + 1]
    ensures Since(u, t.bumps[id].scope) == t.events
  {
    u := Next(t, EndInvalidate(id));
    LeadsOn(s, t, EndInvalidate(id));
  }

  /** Once two invalidations have read the same version of their scope, one of them can be lost:
      some run in which no other begins answers a read with data fetched before an
      invalidation that had returned when the read began. */
  lemma OverlapLosesAnInvalidation(s: State, first: nat, second: nat)
    requires first in s.bumps && second in s.bumps && first != second && s.bumps[first] == s.bumps[second]
    ensures !StaysFresh(s, s.bumps[first].scope)
  {
    var scope, path := s.bumps[first].scope, "";
    var key := Key(scope, s.bumps[first].read + 1, path);
    var early := Unnamed(s.readers.Keys);
    var late := Unnamed(s.readers.Keys + {early});
    assert Run(s, []) == Some(s) && Quiet([]);
    LeadsOn(s, s, Evict(key));
    var t1 := BumpReturns(s, Next(s, Evict(key)), first);
    assert key !in t1.store && VersionOf(t1.versions, scope) == key.version;
    var t2 := ReadAfterMiss(s, t1, early, scope, path);
    var t, d := LateReadHits(s, t2, second, late, scope, path);
    var more :| Run(s, more) == Some(t) && Quiet(more);
    QuietIsExclusive(s, more, scope);
    assert KeepsCounter(more, scope);
  }

  lemma Unnamed(ids: set<nat>) returns (id: nat)
    ensures id !in ids
  {
    if ids == {} {
      id := 0;
    } else {
      var most :| most in ids && forall i :: i in ids ==> i <= most by {
        MostOf(ids);
      }
      id := most + 1;
    }
  }

  lemma {:induction false} MostOf(ids: set<nat>)
    requires ids != {}
    ensures exists most :: most in ids && forall i :: i in ids ==> i <= most
  {
    var one :| one in ids;
    if ids - {one} == {} {
      assert ids == {one};
    } else {
      MostOf(ids - {one});
      var rest :| rest in ids - {one} && forall i :: i in ids - {one} ==> i <= rest;
      var most := if one <= rest then rest else one;
      assert forall i :: i in ids ==> i == one || i in ids - {one};
      assert most in ids && forall i :: i in ids ==> i <= most;
    }
  }

  /** The second invalidation returns, and the read that follows finds what was filed before. */
  lemma LateReadHits(s: State, t2: State, second: nat, late: nat, scope: Scope, path: Path)
    returns (t: State, d: Datum)
    requires LeadsTo(s, t2) && second in t2.bumps && t2.bumps[second].scope == scope
    requires late !in t2.readers
    requires var found := Live(t2.store, Key(scope, t2.bumps[second].read + 1, path), t2.now);
             found.Some? && found.value.at < t2.events
    ensures LeadsTo(s, t)
    ensures late in t.readers && t.readers[late].stage == Answered(Some(d)) && d.at < t.readers[late].since
    ensures t.readers[late].scope == scope
  {
    var t3 := BumpReturns(s, t2, second);
    t := WholeRead(t3, late, scope, path);
    WholeReadLeads(s, t3, late, scope, path);
    WholeReadHits(t3, late, scope, path);
    d := t.readers[late].stage.answer.value;
  }

  /******* Why the counter must be kept *******/

  lemma {:induction false} RunsOn(s: State, steps: seq<Step>, more: seq<Step>, scope: Scope)
    requires Run(s, steps).Some? && Run(Run(s, steps).value, more).Some?
    requires Exclusive(s, steps, scope) && Exclusive(Run(s, steps).value, more, scope)
    ensures Run(s, steps + more) == Run(Run(s, steps).value, more) && Exclusive(s, steps + more, scope)
  {
    if more == [] {
      assert steps + more == steps;
    } else {
      RunsOn(s, steps, more[..|more| - 1], scope);
      assert (steps + more)[..|steps + more| - 1] == steps + more[..|more| - 1];
    }
  }

  /** One invalidation, with nothing in between, and the loss of the counter. */
  function Losing(id: nat, scope: Scope): seq<Step> {
    [BeginInvalidate(id, scope), EndInvalidate(id), DropCounter(scope)]
  }

  lemma LosingRuns(s: State, id: nat, scope: Scope) returns (t: State)
    requires s.bumps == map[]
    ensures Run(s, Losing(id, scope)) == Some(t) && Exclusive(s, Losing(id, scope), scope)
    ensures t.store == s.store && t.readers == s.readers && t.now == s.now && VersionOf(t.versions, scope) == 0
    ensures Since(t, scope) == s.events + 1
  {
    var steps := Losing(id, scope);
    var s1 := Next(s, steps[0]);
    var s2 := Next(s1, steps[1]);
    t := Next(s2, steps[2]);
    assert steps[..1][..0] == [] && steps[..2][..1] == steps[..1] && steps[..3] == steps;
    assert Run(s, []) == Some(s) && Exclusive(s, [], scope);
    assert Run(s, steps[..1]) == Some(s1) && Exclusive(s, steps[..1], scope);
    assert Run(s, steps[..2]) == Some(s2) && Exclusive(s, steps[..2], scope);
  }

  /** A lost counter starts the scope again at its first version, and what was filed there answers
      again: a read, one invalidation, and a read that is given the first one's data. */
  lemma LostCounterServesOldData(scope: Scope, path: Path) returns (steps: seq<Step>)
    ensures Run(EMPTY, steps).Some? && Exclusive(EMPTY, steps, scope)
    ensures !AnswersFresh(Run(EMPTY, steps).value, scope)
  {
    assert Run(EMPTY, []) == Some(EMPTY) && Quiet([]);
    WholeReadLeads(EMPTY, EMPTY, 0, scope, path);
    WholeReadMisses(EMPTY, 0, scope, path);
    var s := WholeRead(EMPTY, 0, scope, path);
    var first :| Run(EMPTY, first) == Some(s) && Quiet(first);
    QuietIsExclusive(EMPTY, first, scope);
    var t := LosingRuns(s, 0, scope);
    assert Run(t, []) == Some(t) && Quiet([]);
    WholeReadLeads(t, t, 1, scope, path);
    WholeReadHits(t, 1, scope, path);
    var last :| Run(t, last) == Some(WholeRead(t, 1, scope, path)) && Quiet(last);
    QuietIsExclusive(t, last, scope);
    RunsOn(EMPTY, first, Losing(0, scope), scope);
    RunsOn(EMPTY, first + Losing(0, scope), last, scope);
    steps := first + Losing(0, scope) + last;
    AnsweredWith(WholeRead(t, 1, scope, path), 1, scope);
  }

  lemma AnsweredWith(s: State, id: nat, scope: Scope)
    requires id in s.readers && s.readers[id].scope == scope
    requires s.readers[id].stage.Answered? && s.readers[id].stage.answer.Some?
    requires s.readers[id].stage.answer.value.at <= s.readers[id].since
    ensures !AnswersFresh(s, scope)
  {
  }

  /******* The cache itself *******/

  /** The cache backend as the two functions see it, used by one thread. */
  class Backend {
    var versions: Versions
    var store: Store
    var now: nat

    /** Nothing is filed under a version that is still to come. */
    predicate Valid()
      reads this
    {
      forall k :: k in store ==> k.version <= VersionOf(versions, k.scope)
    }

    constructor ()
      ensures Valid() && versions == map[] && store == map[] && now == 0
    {
      versions, store, now := map[], map[], 0;
    }

    /** `invalidate`: whatever was stored for the scope, on any path, no longer answers, and all
        other scopes keep what they have.  It does to the cache what an invalidation of the
        protocol does when nothing runs between its two steps. */
    method Invalidate(scope: Scope)
      requires Valid()
      modifies this`versions
      ensures Valid()
      ensures forall path :: Live(store, Key(scope, VersionOf(versions, scope), path), now).None?
      ensures forall other | other != scope :: VersionOf(versions, other) == VersionOf(old(versions), other)
      ensures forall s: State, id | id !in s.bumps && s.versions == old(versions) && s.store == store ::
                var t := Next(Next(s, BeginInvalidate(id, scope)), EndInvalidate(id));
                t.versions == versions && t.store == store
    {
      var version := VersionOf(versions, scope);
      versions := versions[scope := version + 1];
    }

    /** `_cached_get`, where `reply` is what the cloud would answer.  A read that nothing
        interrupts does to the cache what the protocol's whole read does. */
    method CachedGet(scope: Scope, path: Path, reply: Option<Datum>) returns (answer: Option<Datum>, asked: bool)
      requires Valid()
      modifies this`store
      ensures Valid()
      ensures asked ==> answer == reply
      ensures var key := Key(scope, VersionOf(versions, scope), path);
              && (asked <==> key !in old(store) || old(store)[key].expires <= now)
              && (!asked ==> answer == Some(old(store)[key].data))
              && (!asked || reply.None? ==> store == old(store))
              && (asked && reply.Some? ==> store == old(store)[key := Entry(reply.value, now, now + 45)])
      ensures forall s: State, id | id !in s.readers && s.versions == versions && s.store == old(store)
                && s.now == now && reply == Some(Datum(scope, path, s.events + 3)) ::
                var t := WholeRead(s, id, scope, path);
                t.store == store && t.versions == versions && t.readers[id].stage == Answered(answer)
    {
      var key := Key(scope, VersionOf(versions, scope), path);
      answer := Live(store, key, now);
      asked := answer.None?;
      if asked {
        answer := reply;
        store := Stored(store, key, reply, now);
      }
      forall s: State, id | id !in s.readers && s.versions == versions && s.store == old(store)
          && s.now == now && reply == Some(Datum(scope, path, s.events + 3))
        ensures var t := WholeRead(s, id, scope, path);
                t.store == store && t.versions == versions && t.readers[id].stage == Answered(answer)
      {
        if asked {
          WholeReadMisses(s, id, scope, path);
        } else {
          WholeReadHits(s, id, scope, path);
        }
      }
    }
  }
}
