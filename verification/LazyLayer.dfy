/** First-touch materialization of deferred names against deletes, activations and the fence of
    a plugin operation, critical section by critical section. */
module LazyLayer {
  import opened Forms

  /** Where a binding goes: the root environment, or the view of a plugin operation. */
  datatype Target = Root | View(op: nat)

  datatype Key = Key(plugin: string, version: string)

  /** What a goroutine is between two of its critical sections. */
  datatype Task =
    | Idle
    | Selected(env: Target, key: Key, name: string)
    | Staging(to: Target, key: Key, name: string)   // admitted; counted in flight if through a view
    | Staged(to: Target, key: Key, name: string)
    | Locked(to: Target, key: Key, name: string)    // the name's mutex is held from here
    | Writing(to: Target, name: string)
    | Written(to: Target, name: string)
    | Releasing(to: Target, name: string)           // ... to here
    | Leaving(to: Target)
    | Deleting(name: string)                        // the mutex is held, nothing marked yet
    | Removing(name: string)                        // tombstoned, the cells going

  datatype Op = Op(closed: bool, inflight: nat)

  /** What happened, in order. A delete takes effect when it sets its tombstone. */
  datatype Event =
    | Published(name: string, to: Target)
    | Deleted(name: string)
    | Activated(names: set<string>)
    | Fenced(op: nat)

  datatype State = State(
    installed: set<string>,
    tombstoned: set<string>,
    active: map<string, string>,
    ops: seq<Op>,
    open: bool,                  // the last operation is still the engine's current one
    locks: map<string, nat>,     // the holder of each name's mutex
    tasks: seq<Task>,
    log: seq<Event>)

  datatype Step =
    | BeginOp
    | Close                                  // the first half of fence
    | FenceReturns(op: nat)                  // its wait ends
    | EndOp
    | Activate(plugin: string, version: string, names: set<string>)
    | Deactivate(plugin: string)
    | Touch(task: nat, env: Target, key: Key, name: string)
    | Admit(task: nat)
    | Stage(task: nat, ok: bool)
    | Acquire(task: nat)
    | Delete(task: nat, name: string)
    | Continue(task: nat)

  function Initial(tasks: nat): State {
    State({}, {}, map[], [], false, map[], seq(tasks, _ => Idle), [])
  }

  /** The version that is active, which reads as the empty one where none is. */
  predicate Stale(s: State, key: Key) {
    (if key.plugin in s.active then s.active[key.plugin] else "") != key.version
  }

  /** The operation a materialization through env is admitted to, if it still admits work. */
  function Admits(s: State, env: Target): Target {
    if env.View? && s.open && env.op == |s.ops| - 1 && s.ops != [] && !s.ops[env.op].closed then env else Root
  }

  function Count(s: State, to: Target, d: int): seq<Op> {
    if to.View? && to.op < |s.ops| && s.ops[to.op].inflight + d >= 0
    then s.ops[to.op := s.ops[to.op].(inflight := s.ops[to.op].inflight + d)] else s.ops
  }

  function Put(s: State, i: nat, t: Task): State
    requires i < |s.tasks|
  {
    s.(tasks := s.tasks[i := t])
  }

  function Closed(s: State): seq<Op> {
    if s.ops == [] then s.ops else s.ops[|s.ops| - 1 := s.ops[|s.ops| - 1].(closed := true)]
  }

  function Next(s: State, step: Step): Option<State> {
    match step
    case BeginOp => Some(s.(ops := s.ops + [Op(false, 0)], open := true))
    case Close => if s.open then Some(s.(ops := Closed(s))) else None
    case EndOp => if s.open then Some(s.(ops := Closed(s), open := false)) else None
    case FenceReturns(k) =>
      if k < |s.ops| && s.ops[k].closed && s.ops[k].inflight == 0 then Some(s.(log := s.log + [Fenced(k)])) else None
    case Activate(plugin, version, names) =>
      Some(s.(active := s.active[plugin := version], tombstoned := s.tombstoned - names,
          log := s.log + [Activated(names)]))
    case Deactivate(plugin) => Some(s.(active := s.active - {plugin}))
    case Touch(i, env, key, name) =>
      if i < |s.tasks| && s.tasks[i].Idle? && name !in s.tombstoned && name !in s.installed
      then Some(Put(s, i, Selected(env, key, name))) else None
    case Admit(i) =>
      if !(i < |s.tasks| && s.tasks[i].Selected? && s.tasks[i].name !in s.locks) then None
      else
        var t := s.tasks[i];
        var to := Admits(s, t.env);
        var counted := s.(ops := Count(s, to, 1));
        if t.name in s.installed || Stale(s, t.key) then Some(Put(counted, i, Leaving(to)))
        else Some(Put(counted, i, Staging(to, t.key, t.name)))
    case Stage(i, ok) =>
      if !(i < |s.tasks| && s.tasks[i].Staging?) then None
      else
        var t := s.tasks[i];
        Some(Put(s, i, if ok then Staged(t.to, t.key, t.name) else Leaving(t.to)))
    case Acquire(i) =>
      if i < |s.tasks| && s.tasks[i].Staged? && s.tasks[i].name !in s.locks
      then
        var t := s.tasks[i];
        Some(Put(s, i, Locked(t.to, t.key, t.name)).(locks := s.locks[t.name := i]))
      else None
    case Delete(i, name) =>
      if i < |s.tasks| && s.tasks[i].Idle? && name !in s.locks
      then Some(Put(s, i, Deleting(name)).(locks := s.locks[name := i])) else None
    case Continue(i) => if i < |s.tasks| then Goes(s, i) else None
  }

  function Goes(s: State, i: nat): Option<State>
    requires i < |s.tasks|
  {
    match s.tasks[i]
    case Locked(to, key, name) =>
      if name in s.tombstoned || Stale(s, key) || name in s.installed then Some(Put(s, i, Releasing(to, name)))
      else Some(Put(s, i, Writing(to, name)))
    case Writing(to, name) => Some(Put(s, i, Written(to, name)).(log := s.log + [Published(name, to)]))
    case Written(to, name) => Some(Put(s, i, Releasing(to, name)).(installed := s.installed + {name}))
    case Releasing(to, name) => Some(Put(s, i, Leaving(to)).(locks := s.locks - {name}))
    case Leaving(to) => Some(Put(s, i, Idle).(ops := Count(s, to, -1)))
    case Deleting(name) =>
      Some(Put(s, i, Removing(name)).(tombstoned := s.tombstoned + {name}, installed := s.installed - {name},
          log := s.log + [Deleted(name)]))
    case Removing(name) => Some(Put(s, i, Idle).(locks := s.locks - {name}))
    case _ => None
  }

  function Run(s: State, steps: seq<Step>): Option<State> {
    if steps == [] then Some(s)
    else match Run(s, steps[..|steps| - 1])
      case None => None
      case Some(t) => Next(t, steps[|steps| - 1])
  }

  // ---- what a log says ----

  /** Deleted, and not activated since. */
  predicate Dead(log: seq<Event>, name: string) {
    if log == [] then false
    else match log[|log| - 1]
      case Deleted(n) => n == name || Dead(log[..|log| - 1], name)
      case Activated(names) => name !in names && Dead(log[..|log| - 1], name)
      case _ => Dead(log[..|log| - 1], name)
  }

  /** Published, and not deleted since. */
  predicate Live(log: seq<Event>, name: string) {
    if log == [] then false
    else match log[|log| - 1]
      case Published(n, _) => n == name || Live(log[..|log| - 1], name)
      case Deleted(n) => n != name && Live(log[..|log| - 1], name)
      case _ => Live(log[..|log| - 1], name)
  }

  /** Every publication is of a name neither dead nor live, through no fenced view. */
  ghost predicate Proper(log: seq<Event>) {
    forall j :: 0 <= j < |log| && log[j].Published? ==>
      && !Dead(log[..j], log[j].name) && !Live(log[..j], log[j].name)
      && (log[j].to.View? ==> Fenced(log[j].to.op) !in log[..j])
  }

  lemma {:induction false} StaysDead(log: seq<Event>, i: nat, j: nat, name: string)
    requires i < j <= |log| && log[i] == Deleted(name)
    requires forall k :: i < k < j && log[k].Activated? ==> name !in log[k].names
    ensures Dead(log[..j], name)
    decreases j
  {
    assert log[..j][..j - 1] == log[..j - 1];
    if i < j - 1 { StaysDead(log, i, j - 1, name); }
  }

  lemma {:induction false} StaysLive(log: seq<Event>, i: nat, j: nat, name: string)
    requires i < j <= |log| && log[i].Published? && log[i].name == name
    requires Deleted(name) !in log[i + 1..j]
    ensures Live(log[..j], name)
    decreases j
  {
    assert log[..j][..j - 1] == log[..j - 1];
    if i < j - 1 {
      assert log[i + 1..j - 1] == log[i + 1..j][..j - i - 2];
      assert log[j - 1] == log[i + 1..j][j - i - 2];
      StaysLive(log, i, j - 1, name);
    }
  }

  /** A deleted name is published again only after an activation that names it. */
  ghost predicate NoResurrection(log: seq<Event>) {
    forall i, j :: 0 <= i < j < |log| && log[i].Deleted? && log[j].Published? && log[i].name == log[j].name ==>
      exists k :: i < k < j && log[k].Activated? && log[j].name in log[k].names
  }

  /** Between two publications of a name it was deleted. */
  ghost predicate OnceBetweenDeletes(log: seq<Event>) {
    forall i, j :: 0 <= i < j < |log| && log[i].Published? && log[j].Published? && log[i].name == log[j].name ==>
      Deleted(log[j].name) in log[i + 1..j]
  }

  /** Once a fence has returned nothing is published through its view. */
  ghost predicate FenceHolds(log: seq<Event>) {
    forall i, j :: 0 <= i < j < |log| && log[i].Fenced? && log[j].Published? ==> log[j].to != View(log[i].op)
  }

  lemma {:induction false} ProperMeans(log: seq<Event>)
    requires Proper(log)
    ensures NoResurrection(log) && OnceBetweenDeletes(log) && FenceHolds(log)
  {
    hide Dead, Live;
    forall i, j | 0 <= i < j < |log| && log[i].Deleted? && log[j].Published? && log[i].name == log[j].name
      ensures exists k :: i < k < j && log[k].Activated? && log[j].name in log[k].names
    {
      if forall k :: i < k < j && log[k].Activated? ==> log[j].name !in log[k].names {
        StaysDead(log, i, j, log[j].name);
      }
    }
    forall i, j | 0 <= i < j < |log| && log[i].Published? && log[j].Published? && log[i].name == log[j].name
      ensures Deleted(log[j].name) in log[i + 1..j]
    {
      if Deleted(log[j].name) !in log[i + 1..j] { StaysLive(log, i, j, log[j].name); }
    }
    forall i, j | 0 <= i < j < |log| && log[i].Fenced? && log[j].Published? ensures log[j].to != View(log[i].op) {
      assert log[..j][i] == log[i];
    }
  }

  // ---- what every step keeps ----

  /** The name whose mutex a task holds. */
  function Holds(t: Task): Option<string> {
    if t.Locked? || t.Writing? || t.Written? || t.Releasing? || t.Deleting? || t.Removing? then Some(t.name) else None
  }

  /** The operation a task is counted in. */
  function In(t: Task): Option<nat> {
    if (t.Staging? || t.Staged? || t.Locked? || t.Writing? || t.Written? || t.Releasing? || t.Leaving?) && t.to.View?
    then Some(t.to.op) else None
  }

  ghost predicate TaskOk(s: State, i: nat)
    requires i < |s.tasks|
  {
    var t := s.tasks[i];
    && (Holds(t).Some? ==> Holds(t).value in s.locks && s.locks[Holds(t).value] == i)
    && (t.Writing? ==> t.name !in s.tombstoned && t.name !in s.installed && !Live(s.log, t.name))
    && (In(t).Some? ==> In(t).value < |s.ops|)
  }

  ghost predicate TasksOk(s: State) {
    forall i :: 0 <= i < |s.tasks| ==> TaskOk(s, i)
  }

  ghost predicate InHand(tasks: seq<Task>, name: string) {
    exists i :: 0 <= i < |tasks| && tasks[i].Written? && tasks[i].name == name
  }

  ghost predicate LiveOk(s: State) {
    forall n :: Live(s.log, n) ==> n in s.installed || InHand(s.tasks, n)
  }

  ghost predicate DeadOk(s: State) {
    forall n :: Dead(s.log, n) ==> n in s.tombstoned
  }

  function InFlight(tasks: seq<Task>, k: nat): nat {
    if tasks == [] then 0 else (if In(tasks[0]) == Some(k) then 1 else 0) + InFlight(tasks[1..], k)
  }

  ghost predicate CountsOk(s: State) {
    forall k: nat :: k < |s.ops| ==> s.ops[k].inflight == InFlight(s.tasks, k)
  }

  ghost predicate FencesOk(s: State) {
    forall k: nat :: Fenced(k) in s.log ==> k < |s.ops| && s.ops[k].closed && s.ops[k].inflight == 0
  }

  ghost predicate Inv(s: State) {
    TasksOk(s) && LiveOk(s) && DeadOk(s) && CountsOk(s) && FencesOk(s) && Proper(s.log)
  }

  lemma {:induction false} LogNext(log: seq<Event>, e: Event, name: string)
    ensures Dead(log + [e], name) == (match e
      case Deleted(n) => n == name || Dead(log, name)
      case Activated(names) => name !in names && Dead(log, name)
      case _ => Dead(log, name))
    ensures Live(log + [e], name) == (match e
      case Published(n, _) => n == name || Live(log, name)
      case Deleted(n) => n != name && Live(log, name)
      case _ => Live(log, name))
  {
    assert (log + [e])[..|log|] == log;
  }

  lemma {:induction false} ProperNext(log: seq<Event>, e: Event)
    requires Proper(log)
    requires e.Published? ==> !Dead(log, e.name) && !Live(log, e.name) && (e.to.View? ==> Fenced(e.to.op) !in log)
    ensures Proper(log + [e])
  {
    hide Dead, Live;
    var all := log + [e];
    forall j | 0 <= j < |all| && all[j].Published?
      ensures !Dead(all[..j], all[j].name) && !Live(all[..j], all[j].name)
      ensures (all[j].to.View? ==> Fenced(all[j].to.op) !in all[..j])
    {
      if j < |log| { assert all[..j] == log[..j] && all[j] == log[j]; } else { assert all[..j] == log; }
    }
  }

  lemma {:induction false} InFlightPut(tasks: seq<Task>, i: nat, t: Task, k: nat)
    requires i < |tasks|
    ensures InFlight(tasks[i := t], k) + (if In(tasks[i]) == Some(k) then 1 else 0) ==
        InFlight(tasks, k) + (if In(t) == Some(k) then 1 else 0)
    decreases |tasks|
  {
    hide In;
    if i > 0 {
      assert tasks[i := t][1..] == tasks[1..][i - 1 := t];
      InFlightPut(tasks[1..], i - 1, t, k);
    } else {
      assert tasks[i := t][1..] == tasks[1..];
    }
  }

  lemma {:induction false} InFlightPart(tasks: seq<Task>, i: nat)
    requires i < |tasks| && In(tasks[i]).Some?
    ensures InFlight(tasks, In(tasks[i]).value) > 0
    decreases |tasks|
  {
    if i > 0 { InFlightPart(tasks[1..], i - 1); }
  }

  /** The task a step moves. */
  function Mover(step: Step): Option<nat> {
    match step
    case Touch(i, _, _, _) => Some(i)
    case Admit(i) => Some(i)
    case Stage(i, _) => Some(i)
    case Acquire(i) => Some(i)
    case Delete(i, _) => Some(i)
    case Continue(i) => Some(i)
    case _ => None
  }

  // The tombstones cover what the log says is dead.
  lemma {:induction false} KeepsDead(s: State, step: Step)
    requires DeadOk(s) && Next(s, step).Some?
    ensures DeadOk(Next(s, step).value)
  {
    hide Dead, Live;
    var t := Next(s, step).value;
    forall n | Dead(t.log, n) ensures n in t.tombstoned {
      if t.log != s.log { LogNext(s.log, t.log[|s.log|], n); }
    }
  }

  lemma {:induction false} NoneIn(tasks: seq<Task>, k: nat)
    requires forall i :: 0 <= i < |tasks| && In(tasks[i]).Some? ==> In(tasks[i]).value < k
    ensures InFlight(tasks, k) == 0
  {
    hide In;
    if tasks != [] { NoneIn(tasks[1..], k); }
  }

  /** The counters follow one task. */
  lemma {:induction false} CountsFollow(s: State, i: nat, t: Task, ops: seq<Op>)
    requires CountsOk(s) && i < |s.tasks| && |ops| == |s.ops|
    requires forall k: nat :: k < |ops| ==>
      ops[k].inflight + (if In(s.tasks[i]) == Some(k) then 1 else 0) ==
          s.ops[k].inflight + (if In(t) == Some(k) then 1 else 0)
    ensures CountsOk(Put(s, i, t).(ops := ops))
  {
    hide In, InFlight;
    forall k: nat | k < |ops| ensures ops[k].inflight == InFlight(s.tasks[i := t], k) { InFlightPut(s.tasks, i, t, k); }
  }

  // Each operation counts its tasks.
  lemma {:induction false} KeepsCounts(s: State, step: Step)
    requires TasksOk(s) && CountsOk(s) && Next(s, step).Some?
    ensures CountsOk(Next(s, step).value)
  {
    hide InFlight, Goes;
    if step.BeginOp? {
      forall i | 0 <= i < |s.tasks| && In(s.tasks[i]).Some?
          ensures In(s.tasks[i]).value < |s.ops| { assert TaskOk(s, i); }
      NoneIn(s.tasks, |s.ops|);
    } else if step.Continue? {
      GoesCounts(s, step.task);
    } else if Mover(step).Some? {
      MoverCounts(s, step);
    }
  }

  lemma {:induction false} MoverCounts(s: State, step: Step)
    requires TasksOk(s) && CountsOk(s) && Next(s, step).Some? && Mover(step).Some? && !step.Continue?
    ensures CountsOk(Next(s, step).value)
  {
    hide InFlight, Live, CountsOk, TasksOk, Stale;
    var t, i := Next(s, step).value, Mover(step).value;
    CountsFollow(s, i, t.tasks[i], t.ops);
    CountsSame(Put(s, i, t.tasks[i]).(ops := t.ops), t);
  }

  lemma {:induction false} CountsSame(s: State, t: State)
    requires CountsOk(s) && s.ops == t.ops && s.tasks == t.tasks
    ensures CountsOk(t)
  {
  }

  lemma {:induction false} GoesCounts(s: State, i: nat)
    requires TasksOk(s) && CountsOk(s) && i < |s.tasks| && Goes(s, i).Some?
    ensures CountsOk(Goes(s, i).value)
  {
    hide InFlight, Live, CountsOk, Stale;
    var t := Goes(s, i).value;
    assert TaskOk(s, i);
    if In(s.tasks[i]).Some? { Counted(s, i); }
    CountsFollow(s, i, t.tasks[i], t.ops);
    CountsSame(Put(s, i, t.tasks[i]).(ops := t.ops), t);
  }

  lemma {:induction false} Counted(s: State, i: nat)
    requires TasksOk(s) && CountsOk(s) && i < |s.tasks| && In(s.tasks[i]).Some?
    ensures In(s.tasks[i]).value < |s.ops| && s.ops[In(s.tasks[i]).value].inflight > 0
  {
    hide InFlight;
    assert TaskOk(s, i);
    InFlightPart(s.tasks, i);
  }

  // A returned fence stays closed and empty.
  lemma {:induction false} KeepsFences(s: State, step: Step)
    requires TasksOk(s) && CountsOk(s) && FencesOk(s) && Next(s, step).Some?
    ensures FencesOk(Next(s, step).value)
  {
    hide Live, CountsOk, TasksOk, Stale;
    var t := Next(s, step).value;
    if step.Continue? && In(s.tasks[step.task]).Some? { Counted(s, step.task); }
    forall k: nat | Fenced(k) in t.log ensures k < |t.ops| && t.ops[k].closed && t.ops[k].inflight == 0 {
      assert Fenced(k) in s.log || step == FenceReturns(k);
    }
  }

  // What is live is recorded, or about to be.
  lemma {:induction false} KeepsLive(s: State, step: Step)
    requires LiveOk(s) && Next(s, step).Some?
    ensures LiveOk(Next(s, step).value)
  {
    hide Live, Goes, Stale, Admits, Count;
    if step.Continue? {
      GoesLive(s, step.task);
    } else {
      var t := Next(s, step).value;
      forall n | Live(t.log, n) ensures n in t.installed || InHand(t.tasks, n) {
        if t.log != s.log { LogNext(s.log, t.log[|s.log|], n); }
        if InHand(s.tasks, n) { StillInHand(s.tasks, t.tasks, n); }
      }
    }
  }

  lemma {:induction false} StillInHand(before: seq<Task>, after: seq<Task>, n: string)
    requires InHand(before, n) && |before| == |after|
    requires forall i :: 0 <= i < |before| && before[i].Written? ==> after[i] == before[i]
    ensures InHand(after, n)
  {
    var i :| 0 <= i < |before| && before[i].Written? && before[i].name == n;
    assert after[i].Written?;
  }

  lemma {:induction false} GoesLive(s: State, i: nat)
    requires LiveOk(s) && i < |s.tasks| && Goes(s, i).Some?
    ensures LiveOk(Goes(s, i).value)
  {
    hide Live, Stale, Count, InHand, Goes;
    var t := Goes(s, i).value;
    forall n | Live(t.log, n) ensures n in t.installed || InHand(t.tasks, n) {
      WasLive(s, i, n);
      if InHand(s.tasks, n) { InHandOn(s, i, n); }
    }
  }

  /** What is live after a task's step was live before it, or the task has just written it. */
  lemma {:induction false} WasLive(s: State, i: nat, n: string)
    requires i < |s.tasks| && Goes(s, i).Some? && Live(Goes(s, i).value.log, n)
    ensures var t := Goes(s, i).value;
      && (Live(s.log, n) || InHand(t.tasks, n))
      && (n in s.installed && n !in t.installed ==> !Live(s.log, n) || InHand(t.tasks, n))
  {
    hide Live, Stale, Count;
    var t := Goes(s, i).value;
    if t.log != s.log { LogNext(s.log, t.log[|s.log|], n); }
    if s.tasks[i].Writing? && s.tasks[i].name == n { assert t.tasks[i].Written? && t.tasks[i].name == n; }
  }

  lemma {:induction false} InHandOn(s: State, i: nat, n: string)
    requires i < |s.tasks| && Goes(s, i).Some? && InHand(s.tasks, n)
    ensures n in Goes(s, i).value.installed || InHand(Goes(s, i).value.tasks, n)
  {
    hide Stale, Count;
    var t := Goes(s, i).value;
    var w :| 0 <= w < |s.tasks| && s.tasks[w].Written? && s.tasks[w].name == n;
    if w != i { assert t.tasks[w] == s.tasks[w]; }
  }

  // A task about to write finds its name neither dead nor live.
  lemma {:induction false} MayWrite(s: State, i: nat)
    requires TasksOk(s) && LiveOk(s) && i < |s.tasks| && s.tasks[i].Locked? && s.tasks[i].name !in s.installed
    ensures !Live(s.log, s.tasks[i].name)
  {
    hide Live;
    assert TaskOk(s, i);
    var n := s.tasks[i].name;
    forall j | 0 <= j < |s.tasks| && s.tasks[j].Written? ensures s.tasks[j].name != n { assert TaskOk(s, j); }
  }

  lemma {:induction false} KeepsTask(s: State, step: Step, j: nat)
    requires TasksOk(s) && LiveOk(s) && Next(s, step).Some? && j < |s.tasks|
    ensures j < |Next(s, step).value.tasks| && TaskOk(Next(s, step).value, j)
  {
    hide Live, LiveOk, Goes, Stale, TasksOk;
    assert TaskOk(s, j) by { TaskAt(s, j); }
    if step.Continue? {
      GoesTask(s, step.task, j);
    } else if Early(step) {
      StartsTask(s, step, j);
    } else {
      var t := Next(s, step).value;
      if t.tasks[j].Writing? && t.log != s.log { LogNext(s.log, t.log[|s.log|], t.tasks[j].name); }
    }
  }

  lemma {:induction false} TaskAt(s: State, j: nat)
    requires TasksOk(s) && j < |s.tasks|
    ensures TaskOk(s, j)
  {
  }

  predicate Early(step: Step) {
    step.Touch? || step.Admit? || step.Stage? || step.Acquire? || step.Delete?
  }

  /** The steps that move a task before it writes leave the log alone. */
  lemma {:induction false} StartsTask(s: State, step: Step, j: nat)
    requires Early(step) && Next(s, step).Some? && TasksOk(s) && j < |s.tasks|
    ensures j < |Next(s, step).value.tasks| && TaskOk(Next(s, step).value, j)
  {
    hide Live, Stale, TasksOk, Next, TaskOk;
    TaskAt(s, j);
    EarlyKeeps(s, step);
    if j == step.task { EarlyOwn(s, step); } else { EarlyOther(s, Next(s, step).value, j); }
  }

  lemma {:induction false} EarlyKeeps(s: State, step: Step)
    requires Early(step) && Next(s, step).Some?
    ensures var t := Next(s, step).value;
      && step.task < |s.tasks| && |t.tasks| == |s.tasks| && |t.ops| == |s.ops| && t.log == s.log
      && t.tombstoned == s.tombstoned && t.installed == s.installed
      && (forall j :: 0 <= j < |s.tasks| && j != step.task ==> t.tasks[j] == s.tasks[j])
      && (forall n :: n in s.locks ==> n in t.locks && t.locks[n] == s.locks[n])
  {
    hide Live, Stale, Goes, Admits;
  }

  lemma {:induction false} EarlyOwn(s: State, step: Step)
    requires Early(step) && Next(s, step).Some? && step.task < |s.tasks| && TaskOk(s, step.task)
    ensures step.task < |Next(s, step).value.tasks| && TaskOk(Next(s, step).value, step.task)
  {
    hide Live, Stale, Goes;
  }

  lemma {:induction false} EarlyOther(s: State, t: State, j: nat)
    requires j < |s.tasks| == |t.tasks| && TaskOk(s, j) && t.tasks[j] == s.tasks[j] && |t.ops| == |s.ops|
    requires t.log == s.log
    requires t.tombstoned == s.tombstoned && t.installed == s.installed
    requires forall n :: n in s.locks ==> n in t.locks && t.locks[n] == s.locks[n]
    ensures TaskOk(t, j)
  {
    hide Live;
  }

  lemma {:induction false} GoesTask(s: State, i: nat, j: nat)
    requires TasksOk(s) && LiveOk(s) && i < |s.tasks| && Goes(s, i).Some? && j < |s.tasks|
    ensures j < |Goes(s, i).value.tasks| && TaskOk(Goes(s, i).value, j)
  {
    hide Live, LiveOk, Stale, TasksOk, Goes, TaskOk;
    TaskAt(s, j);
    TaskAt(s, i);
    if j != i {
      OtherTask(s, i, j);
    } else {
      if s.tasks[i].Locked? && s.tasks[i].name !in s.installed { MayWrite(s, i); }
      OwnTask(s, i);
    }
  }

  lemma {:induction false} OwnTask(s: State, i: nat)
    requires i < |s.tasks| && Goes(s, i).Some? && TaskOk(s, i)
    requires s.tasks[i].Locked? && s.tasks[i].name !in s.installed ==> !Live(s.log, s.tasks[i].name)
    ensures i < |Goes(s, i).value.tasks| && TaskOk(Goes(s, i).value, i)
  {
    hide Live, Stale, Count;
    CountLength(s, s.tasks[i]);
  }

  lemma {:induction false} CountLength(s: State, t: Task)
    ensures t.Leaving? ==> |Count(s, t.to, -1)| == |s.ops|
  {
  }

  /** A step of another task leaves this one's locks and names alone. */
  lemma {:induction false} OtherTask(s: State, i: nat, j: nat)
    requires i < |s.tasks| && j < |s.tasks| && i != j && Goes(s, i).Some? && TaskOk(s, i) && TaskOk(s, j)
    ensures j < |Goes(s, i).value.tasks| && TaskOk(Goes(s, i).value, j)
  {
    hide Live, Stale, Count;
    var t := Goes(s, i).value;
    CountLength(s, s.tasks[i]);
    assert t.tasks[j] == s.tasks[j];
    if t.tasks[j].Writing? && t.log != s.log { LogNext(s.log, t.log[|s.log|], t.tasks[j].name); }
  }

  lemma {:induction false} KeepsProper(s: State, step: Step)
    requires Inv(s) && Next(s, step).Some?
    ensures Proper(Next(s, step).value.log)
  {
    hide Live, Dead, Proper, TasksOk, CountsOk, LiveOk, DeadOk, FencesOk, Stale, Admits, Count, Closed;
    var t := Next(s, step).value;
    if t.log != s.log {
      var e := t.log[|s.log|];
      if e.Published? { PublishesProperly(s, step.task); }
      ProperNext(s.log, e);
      assert t.log == s.log + [e];
    }
  }

  lemma {:induction false} PublishesProperly(s: State, i: nat)
    requires Inv(s) && i < |s.tasks| && s.tasks[i].Writing?
    ensures var t := s.tasks[i];
      !Dead(s.log, t.name) && !Live(s.log, t.name) && (t.to.View? ==> Fenced(t.to.op) !in s.log)
  {
    hide Live, Dead, Proper;
    assert TaskOk(s, i);
    if s.tasks[i].to.View? { Counted(s, i); }
  }

  lemma {:induction false} StepKeeps(s: State, step: Step)
    requires Inv(s) && Next(s, step).Some?
    ensures Inv(Next(s, step).value)
  {
    hide Next, LiveOk, DeadOk, CountsOk, FencesOk, Proper, TaskOk;
    KeepsDead(s, step);
    KeepsCounts(s, step);
    KeepsFences(s, step);
    KeepsLive(s, step);
    KeepsProper(s, step);
    var t := Next(s, step).value;
    SameTasks(s, step);
    forall j | 0 <= j < |t.tasks| ensures TaskOk(t, j) { KeepsTask(s, step, j); }
  }

  lemma {:induction false} SameTasks(s: State, step: Step)
    requires Next(s, step).Some?
    ensures |Next(s, step).value.tasks| == |s.tasks|
  {
  }

  /** In every run no deleted name comes back before an activation, no name is published twice
      without a delete between, and nothing passes a fence that has returned. */
  lemma {:induction false} AlwaysProper(tasks: nat, steps: seq<Step>)
    requires Run(Initial(tasks), steps).Some?
    ensures var s := Run(Initial(tasks), steps).value;
      Inv(s) && NoResurrection(s.log) && OnceBetweenDeletes(s.log) && FenceHolds(s.log)
    decreases |steps|
  {
    hide Next, TasksOk, LiveOk, DeadOk, CountsOk, FencesOk, NoResurrection, OnceBetweenDeletes, FenceHolds, Proper;
    if steps == [] {
      Starts(tasks);
    } else {
      AlwaysProper(tasks, steps[..|steps| - 1]);
      StepKeeps(Run(Initial(tasks), steps[..|steps| - 1]).value, steps[|steps| - 1]);
    }
    ProperMeans(Run(Initial(tasks), steps).value.log);
  }

  lemma {:induction false} Starts(tasks: nat)
    ensures Inv(Initial(tasks))
  {
  }

  // ---- what is not disturbed happens ----

  lemma {:induction false} RunOn(s: State, steps: seq<Step>, t: State, step: Step)
    requires Run(s, steps) == Some(t)
    ensures Run(s, steps + [step]) == Next(t, step)
  {
    hide Next;
    assert (steps + [step])[..|steps|] == steps;
  }

  lemma {:induction false} NoSteps(s: State)
    ensures Run(s, []) == Some(s)
  {
  }

  lemma {:induction false} RunBoth(s: State, a: seq<Step>, t: State, b: seq<Step>)
    requires Run(s, a) == Some(t)
    ensures Run(s, a + b) == Run(t, b)
    decreases |b|
  {
    hide Next;
    if b == [] {
      assert a + b == a;
    } else {
      var n := |b| - 1;
      RunBoth(s, a, t, b[..n]);
      assert (a + b)[..|a + b| - 1] == a + b[..n];
    }
  }

  /** The steps one task takes from a touch to its end. */
  function FirstTouch(i: nat, env: Target, key: Key, name: string): seq<Step> {
    [Touch(i, env, key, name), Admit(i), Stage(i, true), Acquire(i),
     Continue(i), Continue(i), Continue(i), Continue(i), Continue(i)]
  }

  /** A name that is neither installed nor deleted, of the active version, and that nobody holds. */
  predicate Deferred(s: State, key: Key, name: string) {
    name !in s.installed && name !in s.tombstoned && name !in s.locks && !Stale(s, key)
  }

  lemma {:induction false} CountBack(s: State, to: Target)
    requires to.View? ==> to.op < |s.ops|
    ensures var t := s.(ops := Count(s, to, 1)); Count(t, to, -1) == s.ops && |t.ops| == |s.ops|
    ensures to.View? ==> Count(s, to, 1)[to.op].inflight > 0
  {
    if to.View? {
      var o := s.ops[to.op];
      assert s.ops[to.op := o.(inflight := o.inflight + 1)][to.op := o] == s.ops;
    }
  }

  /** Through the staging: the task holds the name's mutex. */
  lemma {:induction false} TouchLocks(s: State, i: nat, env: Target, key: Key, name: string)
    requires i < |s.tasks| && s.tasks[i].Idle? && Deferred(s, key, name)
    ensures var to := Admits(s, env);
      Run(s, FirstTouch(i, env, key, name)[..4]) == Some(s.(
        ops := Count(s, to, 1), tasks := s.tasks[i := Locked(to, key, name)], locks := s.locks[name := i]))
  {
    hide Count, Next, Goes, Run;
    var to, steps := Admits(s, env), FirstTouch(i, env, key, name);
    var s1 := Put(s, i, Selected(env, key, name));
    var s2 := Put(s1.(ops := Count(s, to, 1)), i, Staging(to, key, name));
    var s3 := Put(s2, i, Staged(to, key, name));
    SameOps(s, s1, env, to);
    Touches(s, i, env, key, name);
    AdmitIs(s1, i);
    StageIs(s2, i);
    AcquireIs(s3, i);
    NoSteps(s);
    RunOn(s, [], s, steps[0]);
    assert [] + [steps[0]] == steps[..1];
    RunOn(s, steps[..1], s1, steps[1]);
    assert steps[..1] + [steps[1]] == steps[..2];
    RunOn(s, steps[..2], s2, steps[2]);
    assert steps[..2] + [steps[2]] == steps[..3];
    RunOn(s, steps[..3], s3, steps[3]);
    assert steps[..3] + [steps[3]] == steps[..4];
    assert s3.tasks[i := Locked(to, key, name)] == s.tasks[i := Locked(to, key, name)];
  }

  lemma {:induction false} Touches(s: State, i: nat, env: Target, key: Key, name: string)
    requires i < |s.tasks| && s.tasks[i].Idle? && name !in s.tombstoned && name !in s.installed
    ensures Next(s, Touch(i, env, key, name)) == Some(Put(s, i, Selected(env, key, name)))
  {
    hide Goes, Count;
  }

  lemma {:induction false} AdmitIs(s: State, i: nat)
    requires i < |s.tasks| && s.tasks[i].Selected? && s.tasks[i].name !in s.locks
    requires s.tasks[i].name !in s.installed && !Stale(s, s.tasks[i].key)
    ensures var t := s.tasks[i];
      var to := Admits(s, t.env);
      Next(s, Admit(i)) == Some(Put(s.(ops := Count(s, to, 1)), i, Staging(to, t.key, t.name)))
  {
    hide Goes, Count, Admits;
  }

  lemma {:induction false} StageIs(s: State, i: nat)
    requires i < |s.tasks| && s.tasks[i].Staging?
    ensures var t := s.tasks[i]; Next(s, Stage(i, true)) == Some(Put(s, i, Staged(t.to, t.key, t.name)))
  {
    hide Goes, Count;
  }

  lemma {:induction false} AcquireIs(s: State, i: nat)
    requires i < |s.tasks| && s.tasks[i].Staged? && s.tasks[i].name !in s.locks
    ensures var t := s.tasks[i];
      Next(s, Acquire(i)) == Some(Put(s, i, Locked(t.to, t.key, t.name)).(locks := s.locks[t.name := i]))
  {
    hide Goes, Count;
  }

  lemma {:induction false} SameOps(s: State, t: State, env: Target, to: Target)
    requires t.ops == s.ops && t.open == s.open
    ensures Admits(t, env) == Admits(s, env) && Count(t, to, 1) == Count(s, to, 1)
    ensures Count(t, to, -1) == Count(s, to, -1)
  {
  }

  lemma {:induction false} GoesOn(s: State, i: nat)
    requires i < |s.tasks|
    ensures Next(s, Continue(i)) == Goes(s, i)
  {
    hide Goes;
  }

  /** The name is written. */
  lemma {:induction false} LockedWrites(s: State, i: nat, to: Target, key: Key, name: string)
    requires i < |s.tasks| && s.tasks[i] == Locked(to, key, name)
    requires name !in s.installed && name !in s.tombstoned && !Stale(s, key)
    ensures Run(s, [Continue(i)] + [Continue(i)]) ==
      Some(s.(tasks := s.tasks[i := Written(to, name)], log := s.log + [Published(name, to)]))
  {
    hide Count, Next, Run;
    var c, s1 := Continue(i), Put(s, i, Writing(to, name));
    GoesOn(s, i);
    GoesOn(s1, i);
    NoSteps(s);
    RunOn(s, [], s, c);
    assert [] + [c] == [c];
    RunOn(s, [c], s1, c);
    assert s1.tasks[i := Written(to, name)] == s.tasks[i := Written(to, name)];
  }

  /** Then it is installed and let go. */
  lemma {:induction false} WrittenInstalls(s: State, i: nat, to: Target, name: string)
    requires i < |s.tasks| && s.tasks[i] == Written(to, name)
    ensures Run(s, [Continue(i)] + [Continue(i)] + [Continue(i)]) == Some(s.(
      ops := Count(s, to, -1), tasks := s.tasks[i := Idle], installed := s.installed + {name},
      locks := s.locks - {name}))
  {
    hide Count, Next, Run;
    var c := Continue(i);
    var s1 := Put(s, i, Releasing(to, name)).(installed := s.installed + {name});
    var s2 := Put(s1, i, Leaving(to)).(locks := s.locks - {name});
    GoesOn(s, i);
    GoesOn(s1, i);
    GoesOn(s2, i);
    NoSteps(s);
    RunOn(s, [], s, c);
    assert [] + [c] == [c];
    RunOn(s, [c], s1, c);
    SameOps(s, s2, Root, to);
    RunOn(s, [c] + [c], s2, c);
    assert s2.tasks[i := Idle] == s.tasks[i := Idle];
  }

  /** From the mutex on: the name is written, installed and let go. */
  lemma {:induction false} LockedPublishes(s: State, i: nat, to: Target, key: Key, name: string)
    requires i < |s.tasks| && s.tasks[i] == Locked(to, key, name)
    requires name !in s.installed && name !in s.tombstoned && !Stale(s, key)
    ensures var five := [Continue(i), Continue(i), Continue(i), Continue(i), Continue(i)];
      Run(s, five) == Some(s.(
        ops := Count(s, to, -1), tasks := s.tasks[i := Idle], installed := s.installed + {name},
        locks := s.locks - {name}, log := s.log + [Published(name, to)]))
  {
    hide Count, Run;
    var c := Continue(i);
    var t := s.(tasks := s.tasks[i := Written(to, name)], log := s.log + [Published(name, to)]);
    LockedWrites(s, i, to, key, name);
    WrittenInstalls(t, i, to, name);
    RunBoth(s, [c] + [c], t, [c] + [c] + [c]);
    assert [c] + [c] + ([c] + [c] + [c]) == [c, c, c, c, c];
    SameOps(s, t, Root, to);
    assert t.tasks[i := Idle] == s.tasks[i := Idle];
  }

  /** A first touch that nothing disturbs publishes its name, through the view it came by if that
      still admits work and else into the root, and leaves everything else as it was. */
  lemma {:induction false} TouchPublishes(s: State, i: nat, env: Target, key: Key, name: string)
    requires i < |s.tasks| && s.tasks[i].Idle? && Deferred(s, key, name)
    ensures Run(s, FirstTouch(i, env, key, name)) ==
      Some(s.(installed := s.installed + {name}, log := s.log + [Published(name, Admits(s, env))]))
  {
    var to, steps := Admits(s, env), FirstTouch(i, env, key, name);
    var t := s.(ops := Count(s, to, 1), tasks := s.tasks[i := Locked(to, key, name)], locks := s.locks[name := i]);
    TouchLocks(s, i, env, key, name);
    LockedPublishes(t, i, to, key, name);
    var rest := [Continue(i), Continue(i), Continue(i), Continue(i), Continue(i)];
    RunBoth(s, steps[..4], t, rest);
    assert steps == steps[..4] + rest;
    CountBack(s, to);
    SameOps(s.(ops := Count(s, to, 1)), t, env, to);
    hide Count;
    assert s.tasks[i := Locked(to, key, name)][i := Idle] == s.tasks;
    assert s.locks[name := i] - {name} == s.locks;
  }

  /** A delete that nothing disturbs is recorded and takes the name out, installed or not. */
  lemma {:induction false} DeleteDeletes(s: State, i: nat, name: string)
    requires i < |s.tasks| && s.tasks[i].Idle? && name !in s.locks
    ensures Run(s, [Delete(i, name), Continue(i), Continue(i)]) == Some(s.(
      installed := s.installed - {name}, tombstoned := s.tombstoned + {name}, log := s.log + [Deleted(name)]))
  {
    var d, c := Delete(i, name), Continue(i);
    var s1 := Put(s, i, Deleting(name)).(locks := s.locks[name := i]);
    var s2 := Put(s1, i, Removing(name)).(tombstoned := s.tombstoned + {name}, installed := s.installed - {name},
      log := s.log + [Deleted(name)]);
    NoSteps(s);
    RunOn(s, [], s, d);
    assert [] + [d] == [d];
    RunOn(s, [d], s1, c);
    RunOn(s, [d] + [c], s2, c);
    assert [d] + [c] + [c] == [d, c, c];
    assert s.tasks[i := Deleting(name)][i := Removing(name)][i := Idle] == s.tasks;
    assert s.locks[name := i] - {name} == s.locks;
  }

  /** After a delete the name can be touched again once its plugin is activated with it. */
  lemma {:induction false} ActivationRevives(s: State, i: nat, env: Target, key: Key, name: string, names: set<string>)
    requires i < |s.tasks| && s.tasks[i].Idle? && name !in s.locks && name in names
    ensures var steps := [Delete(i, name), Continue(i), Continue(i), Activate(key.plugin, key.version, names)];
      && Run(s, steps + FirstTouch(i, env, key, name)).Some?
      && var t := Run(s, steps + FirstTouch(i, env, key, name)).value;
      && name in t.installed
      && t.log == s.log + [Deleted(name), Activated(names), Published(name, Admits(s, env))]
  {
    hide FirstTouch, Goes;
    var three := [Delete(i, name), Continue(i), Continue(i)];
    var a := Activate(key.plugin, key.version, names);
    DeleteDeletes(s, i, name);
    var s1 := Run(s, three).value;
    RunOn(s, three, s1, a);
    var s2 := Next(s1, a).value;
    assert three + [a] == [Delete(i, name), Continue(i), Continue(i), a];
    TouchPublishes(s2, i, env, key, name);
    RunBoth(s, three + [a], s2, FirstTouch(i, env, key, name));
    SameOps(s, s2, env, Root);
  }

  /** A touch through the view of the operation that just began publishes through it; once that
      operation is fenced or over, the same touch publishes into the root. */
  lemma {:induction false} ViewAdmits(s: State, i: nat, key: Key, name: string)
    requires i < |s.tasks| && s.tasks[i].Idle? && Deferred(s, key, name)
    ensures var k := |s.ops|;
      var touch := FirstTouch(i, View(k), key, name);
      && Run(s, [BeginOp] + touch).Some?
      && Run(s, [BeginOp] + touch).value.log == s.log + [Published(name, View(k))]
      && Run(s, [BeginOp] + [Close] + touch).Some?
      && Run(s, [BeginOp] + [Close] + touch).value.log == s.log + [Published(name, Root)]
      && Run(s, [BeginOp] + [EndOp] + touch).Some?
      && Run(s, [BeginOp] + [EndOp] + touch).value.log == s.log + [Published(name, Root)]
  {
    hide FirstTouch, Goes;
    var k := |s.ops|;
    var s1 := s.(ops := s.ops + [Op(false, 0)], open := true);
    NoSteps(s);
    RunOn(s, [], s, BeginOp);
    assert [] + [BeginOp] == [BeginOp];
    TouchAfter(s, [BeginOp], s1, i, View(k), key, name);
    RunOn(s, [BeginOp], s1, Close);
    TouchAfter(s, [BeginOp] + [Close], s1.(ops := Closed(s1)), i, View(k), key, name);
    RunOn(s, [BeginOp], s1, EndOp);
    TouchAfter(s, [BeginOp] + [EndOp], s1.(ops := Closed(s1), open := false), i, View(k), key, name);
  }

  lemma {:induction false} TouchAfter(s: State, steps: seq<Step>, t: State, i: nat, env: Target, key: Key, name: string)
    requires Run(s, steps) == Some(t) && i < |t.tasks| && t.tasks[i].Idle? && Deferred(t, key, name)
    ensures var r := Run(s, steps + FirstTouch(i, env, key, name));
      r.Some? && r.value.log == t.log + [Published(name, Admits(t, env))]
  {
    hide FirstTouch, Run;
    TouchPublishes(t, i, env, key, name);
    RunBoth(s, steps, t, FirstTouch(i, env, key, name));
  }
}
