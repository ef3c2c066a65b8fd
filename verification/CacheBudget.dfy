/** The global occupancy counters of the chunk cache, step by atomic step: any number of
    evaluations reserve, publish, evict and flush at once. */
module CacheBudget {
  import opened Forms
  import opened Arithmetic

  /** A chunk's weight: it counts as one entry. */
  datatype Chunk = Chunk(bytes: nat, nodes: nat)

  datatype Load = Load(entries: nat, bytes: nat, nodes: nat)

  datatype Ceiling = Ceiling(entries: int, bytes: int, nodes: int)

  /** What an evaluation is doing, and so what it has charged that no resident accounts for:
      charging counter by counter, undoing a refused charge, holding a reservation, or giving
      back the charge of a reservation or of a detached entry counter by counter. */
  datatype Task =
    | Idle
    | ChargedEntry(c: Chunk)
    | ChargedBytes(c: Chunk)
    | Reserved(c: Chunk)
    | UndoBytes(c: Chunk)
    | UndoEntry(c: Chunk)
    | Release(c: Chunk)
    | ReleaseBytes(c: Chunk)
    | ReleaseNodes(c: Chunk)

  /** The counters, the resident chunk under each key, and the evaluations. */
  datatype State = State(used: Load, residents: seq<Option<Chunk>>, tasks: seq<Task>)

  function Held(t: Task): Load {
    match t
    case Idle => Load(0, 0, 0)
    case ChargedEntry(c) => Load(1, 0, 0)
    case ChargedBytes(c) => Load(1, c.bytes, 0)
    case Reserved(c) => Load(1, c.bytes, c.nodes)
    case UndoBytes(c) => Load(1, c.bytes, 0)
    case UndoEntry(c) => Load(1, 0, 0)
    case Release(c) => Load(1, c.bytes, c.nodes)
    case ReleaseBytes(c) => Load(0, c.bytes, c.nodes)
    case ReleaseNodes(c) => Load(0, 0, c.nodes)
  }

  function Resident(r: Option<Chunk>): Load {
    match r case Some(c) => Load(1, c.bytes, c.nodes) case None => Load(0, 0, 0)
  }

  // ---- the counters ----

  /** A charge that would pass the ceiling is refused; no ceiling means the largest count. */
  function Charge(used: nat, max: int, n: nat): Option<nat> {
    if n == 0 then Some(used) else if n > Top(max) - used then None else Some(used + n)
  }

  /** A return below zero is clamped. */
  function Return(used: nat, n: nat): nat {
    if n == 0 then used else if used - n < 0 then 0 else used - n
  }

  predicate FitsAlone(max: Ceiling, c: Chunk) {
    max.entries >= 1 && max.bytes >= c.bytes && max.nodes >= c.nodes
  }

  predicate Exceeded(used: Load, max: Ceiling) {
    used.entries > max.entries || used.bytes > max.bytes || used.nodes > max.nodes
  }

  // ---- atomic steps ----

  datatype Action =
    | Reserve(c: Chunk)       // charge the entry counter
    | Continue                // the next counter of a charge, an undo or a release
    | Publish(key: nat)       // insert the reserved chunk
    | Abandon                 // give the reservation up: detachment failed, race lost, stale epoch
    | Detach(key: nat)        // evict or flush a resident

  function Next(s: State, max: Ceiling, i: nat, a: Action): Option<State>
    requires i < |s.tasks|
  {
    var t := s.tasks[i];
    match a
    case Reserve(c) =>
      if !t.Idle? || !FitsAlone(max, c) then None
      else (match Charge(s.used.entries, max.entries, 1)
            case None => Some(s)
            case Some(n) => Some(s.(used := s.used.(entries := n), tasks := s.tasks[i := ChargedEntry(c)])))
    case Continue =>
      (match t
       case ChargedEntry(c) =>
         (match Charge(s.used.bytes, max.bytes, c.bytes)
          case None => Some(s.(tasks := s.tasks[i := UndoEntry(c)]))
          case Some(n) => Some(s.(used := s.used.(bytes := n), tasks := s.tasks[i := ChargedBytes(c)])))
       case ChargedBytes(c) =>
         (match Charge(s.used.nodes, max.nodes, c.nodes)
          case None => Some(s.(tasks := s.tasks[i := UndoBytes(c)]))
          case Some(n) => Some(s.(used := s.used.(nodes := n), tasks := s.tasks[i := Reserved(c)])))
       case UndoBytes(c) =>
         Some(s.(used := s.used.(bytes := Return(s.used.bytes, c.bytes)), tasks := s.tasks[i := UndoEntry(c)]))
       case UndoEntry(c) =>
         Some(s.(used := s.used.(entries := Return(s.used.entries, 1)), tasks := s.tasks[i := Idle]))
       case Release(c) =>
         Some(s.(used := s.used.(entries := Return(s.used.entries, 1)), tasks := s.tasks[i := ReleaseBytes(c)]))
       case ReleaseBytes(c) =>
         Some(s.(used := s.used.(bytes := Return(s.used.bytes, c.bytes)), tasks := s.tasks[i := ReleaseNodes(c)]))
       case ReleaseNodes(c) =>
         Some(s.(used := s.used.(nodes := Return(s.used.nodes, c.nodes)), tasks := s.tasks[i := Idle]))
       case _ => None)
    case Publish(key) =>
      if t.Reserved? && key < |s.residents| && s.residents[key].None? && !Exceeded(s.used, max)
      then Some(s.(residents := s.residents[key := Some(t.c)], tasks := s.tasks[i := Idle])) else None
    case Abandon => if t.Reserved? then Some(s.(tasks := s.tasks[i := Release(t.c)])) else None
    case Detach(key) =>
      if t.Idle? && key < |s.residents| && s.residents[key].Some?
      then Some(s.(residents := s.residents[key := None], tasks := s.tasks[i := Release(s.residents[key].value)]))
          else None
  }

  // ---- sums ----

  function Plus(a: Load, b: Load): Load {
    Load(a.entries + b.entries, a.bytes + b.bytes, a.nodes + b.nodes)
  }

  function Total(ls: seq<Load>): Load {
    if ls == [] then Load(0, 0, 0) else Plus(ls[0], Total(ls[1..]))
  }

  lemma {:induction false} TotalUpdate(ls: seq<Load>, i: nat, l: Load)
    requires i < |ls|
    ensures Plus(Total(ls[i := l]), ls[i]) == Plus(Total(ls), l)
    decreases |ls|
  {
    if i > 0 {
      assert ls[i := l][1..] == ls[1..][i - 1 := l];
      TotalUpdate(ls[1..], i - 1, l);
    } else {
      assert ls[i := l][1..] == ls[1..];
    }
  }

  /** Every part is within the total. */
  lemma {:induction false} PartOf(ls: seq<Load>, i: nat)
    requires i < |ls|
    ensures ls[i].entries <= Total(ls).entries && ls[i].bytes <= Total(ls).bytes && ls[i].nodes <= Total(ls).nodes
    decreases |ls|
  {
    if i > 0 { PartOf(ls[1..], i - 1); }
  }

  function HeldAll(tasks: seq<Task>): seq<Load> {
    seq(|tasks|, i requires 0 <= i < |tasks| => Held(tasks[i]))
  }

  function ResidentAll(rs: seq<Option<Chunk>>): seq<Load> {
    seq(|rs|, i requires 0 <= i < |rs| => Resident(rs[i]))
  }

  /** What the counters should read: the residents and everything charged but not resident. */
  function Owed(s: State): Load {
    Plus(Total(ResidentAll(s.residents)), Total(HeldAll(s.tasks)))
  }

  lemma {:induction false} HeldUpdate(tasks: seq<Task>, i: nat, t: Task)
    requires i < |tasks|
    ensures |HeldAll(tasks)| == |tasks| && HeldAll(tasks)[i] == Held(tasks[i])
    ensures HeldAll(tasks[i := t]) == HeldAll(tasks)[i := Held(t)]
  {
    hide Held;
  }

  lemma {:induction false} ResidentUpdate(rs: seq<Option<Chunk>>, i: nat, r: Option<Chunk>)
    requires i < |rs|
    ensures |ResidentAll(rs)| == |rs| && ResidentAll(rs)[i] == Resident(rs[i])
    ensures ResidentAll(rs[i := r]) == ResidentAll(rs)[i := Resident(r)]
  {
    hide Resident;
  }

  lemma {:induction false} TaskChanges(s: State, i: nat, t: Task)
    requires i < |s.tasks|
    ensures Plus(Owed(s.(tasks := s.tasks[i := t])), Held(s.tasks[i])) == Plus(Owed(s), Held(t))
    ensures var h, o := Held(s.tasks[i]), Owed(s); h.entries <= o.entries && h.bytes <= o.bytes && h.nodes <= o.nodes
  {
    hide Held, HeldAll, ResidentAll, Total;
    HeldUpdate(s.tasks, i, t);
    TotalUpdate(HeldAll(s.tasks), i, Held(t));
    PartOf(HeldAll(s.tasks), i);
  }

  lemma {:induction false} ResidentChanges(s: State, k: nat, r: Option<Chunk>)
    requires k < |s.residents|
    ensures Plus(Owed(s.(residents := s.residents[k := r])), Resident(s.residents[k])) == Plus(Owed(s), Resident(r))
  {
    hide Resident, HeldAll, ResidentAll, Total;
    ResidentUpdate(s.residents, k, r);
    TotalUpdate(ResidentAll(s.residents), k, Resident(r));
  }

  // ---- what every step keeps ----

  predicate Under(used: nat, max: int) {
    used <= if max <= 0 then 0 else max
  }

  /** The weight of a task fits the ceilings on its own. */
  predicate TaskFits(t: Task, max: Ceiling) {
    t.Idle? || FitsAlone(max, t.c)
  }

  predicate Balanced(s: State, max: Ceiling) {
    && s.used == Owed(s)
    && Under(s.used.entries, max.entries) && Under(s.used.bytes, max.bytes) && Under(s.used.nodes, max.nodes)
    && (forall i :: 0 <= i < |s.tasks| ==> TaskFits(s.tasks[i], max))
    && (forall k :: 0 <= k < |s.residents| ==> (s.residents[k].Some? ==> FitsAlone(max, s.residents[k].value)))
  }

  lemma {:induction false} StepBalanced(s: State, max: Ceiling, i: nat, a: Action)
    requires Balanced(s, max) && i < |s.tasks| && Next(s, max, i, a).Some?
    ensures Balanced(Next(s, max, i, a).value, max)
  {
    hide Owed;
    var s' := Next(s, max, i, a).value;
    if |s'.tasks| == |s.tasks| { TaskChanges(s, i, s'.tasks[i]); }
    if a.Publish? {
      ResidentChanges(s.(tasks := s.tasks[i := Idle]), a.key, s'.residents[a.key]);
    } else if a.Detach? {
      ResidentChanges(s.(tasks := s'.tasks), a.key, None);
    } else {
      assert s'.tasks == s.tasks[i := s'.tasks[i]];
      OwedUsed(s.(tasks := s'.tasks), s'.used);
      OwedUsed(s, s'.used);
    }
  }

  /** The counters themselves are not part of what they should read. */
  lemma {:induction false} OwedUsed(s: State, used: Load)
    ensures Owed(s.(used := used)) == Owed(s)
  {
  }

  // ---- whole runs ----

  datatype Step = Step(task: nat, a: Action)

  function Run(s: State, max: Ceiling, steps: seq<Step>): State {
    if steps == [] then s
    else
      var r, st := Run(s, max, steps[..|steps| - 1]), steps[|steps| - 1];
      if st.task < |r.tasks| then (match Next(r, max, st.task, st.a) case Some(r') => r' case None => r) else r
  }

  function Empty(keys: nat, tasks: nat): State {
    State(Load(0, 0, 0), seq(keys, _ => None), seq(tasks, _ => Idle))
  }

  predicate Zeros(ls: seq<Load>) {
    forall i :: 0 <= i < |ls| ==> ls[i] == Load(0, 0, 0)
  }

  lemma {:induction false} ZerosTail(ls: seq<Load>)
    requires ls != [] && Zeros(ls)
    ensures ls[0] == Load(0, 0, 0) && Zeros(ls[1..])
  {
  }

  lemma {:induction false} NoLoad(ls: seq<Load>)
    requires Zeros(ls)
    ensures Total(ls) == Load(0, 0, 0)
    decreases |ls|
  {
    hide Zeros;
    if ls != [] {
      ZerosTail(ls);
      NoLoad(ls[1..]);
    }
  }

  lemma {:induction false} IdleHolds(tasks: seq<Task>)
    requires forall i :: 0 <= i < |tasks| ==> tasks[i].Idle?
    ensures Total(HeldAll(tasks)) == Load(0, 0, 0)
  {
    hide Total;
    NoLoad(HeldAll(tasks));
  }

  lemma {:induction false} NoneResident(rs: seq<Option<Chunk>>)
    requires forall i :: 0 <= i < |rs| ==> rs[i].None?
    ensures Total(ResidentAll(rs)) == Load(0, 0, 0)
  {
    hide Total;
    NoLoad(ResidentAll(rs));
  }

  lemma {:induction false} EmptyBalanced(keys: nat, tasks: nat, max: Ceiling)
    ensures Balanced(Empty(keys, tasks), max)
  {
    hide Total, HeldAll, ResidentAll;
    NoneResident(Empty(keys, tasks).residents);
    IdleHolds(Empty(keys, tasks).tasks);
  }

  /** In every interleaving each counter is the sum over the resident chunks plus what the running
      evaluations have charged and not yet given back, and is within its ceiling. */
  lemma {:induction false} AlwaysBalanced(keys: nat, tasks: nat, max: Ceiling, steps: seq<Step>)
    ensures Balanced(Run(Empty(keys, tasks), max, steps), max)
    decreases |steps|
  {
    hide Balanced, Next;
    if steps == [] {
      EmptyBalanced(keys, tasks, max);
    } else {
      var n := |steps| - 1;
      AlwaysBalanced(keys, tasks, max, steps[..n]);
      var r, st := Run(Empty(keys, tasks), max, steps[..n]), steps[n];
      if st.task < |r.tasks| && Next(r, max, st.task, st.a).Some? { StepBalanced(r, max, st.task, st.a); }
    }
  }

  /** So a return is never clamped, and the recheck at publication never finds the budget exceeded. */
  lemma {:induction false} NeverClamped(s: State, max: Ceiling, i: nat)
    requires Balanced(s, max) && i < |s.tasks|
    ensures match s.tasks[i]
            case UndoBytes(c) => c.bytes <= s.used.bytes
            case UndoEntry(c) => 1 <= s.used.entries
            case Release(c) => 1 <= s.used.entries
            case ReleaseBytes(c) => c.bytes <= s.used.bytes
            case ReleaseNodes(c) => c.nodes <= s.used.nodes
            case Reserved(c) => !Exceeded(s.used, max)
            case _ => true
  {
    hide Owed;
    TaskChanges(s, i, s.tasks[i]);
  }

  /** At rest the counters are exactly the residents. */
  lemma {:induction false} AtRest(s: State, max: Ceiling)
    requires Balanced(s, max) && forall i :: 0 <= i < |s.tasks| ==> s.tasks[i].Idle?
    ensures s.used == Total(ResidentAll(s.residents))
  {
    hide Total, HeldAll, ResidentAll;
    IdleHolds(s.tasks);
  }

  // ---- what is not disturbed happens ----

  /** There is room for one more chunk under every ceiling. */
  predicate Room(used: Load, max: Ceiling, c: Chunk) {
    used.entries + 1 <= max.entries && used.bytes + c.bytes <= max.bytes && used.nodes + c.nodes <= max.nodes
  }

  lemma {:induction false} RunOn(s: State, max: Ceiling, steps: seq<Step>, st: Step)
    ensures var r := Run(s, max, steps);
      Run(s, max, steps + [st]) ==
        if st.task < |r.tasks| then (match Next(r, max, st.task, st.a) case Some(r') => r' case None => r) else r
  {
    hide Next;
    assert (steps + [st])[..|steps|] == steps;
  }

  /** The steps of one evaluation that reserves room for a chunk, whatever comes of it. */
  function Reserving(i: nat, c: Chunk): seq<Step> {
    [Step(i, Reserve(c))] + [Step(i, Continue)] + [Step(i, Continue)] + [Step(i, Continue)] + [Step(i, Continue)]
  }

  /** A reservation nothing disturbs is made exactly when there is room, and else leaves no trace. */
  lemma {:induction false} ReservesExactly(s: State, max: Ceiling, i: nat, c: Chunk)
    requires Balanced(s, max) && i < |s.tasks| && s.tasks[i].Idle?
    ensures Run(s, max, Reserving(i, c)) ==
      if Room(s.used, max, c)
      then s.(used := Plus(s.used, Load(1, c.bytes, c.nodes)), tasks := s.tasks[i := Reserved(c)])
      else s
  {
    hide Owed, Run;
    if !FitsAlone(max, c) {
      NeverStarts(s, max, i, c);
      return;
    }
    var r, k := Step(i, Reserve(c)), Step(i, Continue);
    var s1 := After(s, max, [], r);
    var s2 := After(s, max, [r], k);
    var s3 := After(s, max, [r] + [k], k);
    var s4 := After(s, max, [r] + [k] + [k], k);
    var s5 := After(s, max, [r] + [k] + [k] + [k], k);
    assert s.tasks[i := Idle] == s.tasks;
    assert s1.tasks[i := Idle] == s.tasks && s2.tasks[i := Idle] == s.tasks;
    assert s3.tasks[i := Idle] == s.tasks && s4.tasks[i := Idle] == s.tasks;
    assert s1.tasks[i := Reserved(c)] == s.tasks[i := Reserved(c)];
    assert s2.tasks[i := Reserved(c)] == s.tasks[i := Reserved(c)];
  }

  /** What does not fit alone is not even tried. */
  lemma {:induction false} NeverStarts(s: State, max: Ceiling, i: nat, c: Chunk)
    requires i < |s.tasks| && s.tasks[i].Idle? && !FitsAlone(max, c)
    ensures Run(s, max, Reserving(i, c)) == s
  {
    hide Run;
    var r, k := Step(i, Reserve(c)), Step(i, Continue);
    var s1 := After(s, max, [], r);
    var s2 := After(s, max, [r], k);
    var s3 := After(s, max, [r] + [k], k);
    var s4 := After(s, max, [r] + [k] + [k], k);
    var s5 := After(s, max, [r] + [k] + [k] + [k], k);
  }

  lemma {:induction false} After(s: State, max: Ceiling, steps: seq<Step>, st: Step) returns (t: State)
    ensures t == Run(s, max, steps + [st])
    ensures var r := if steps == [] then s else Run(s, max, steps);
      && (steps == [] ==> [st] == steps + [st])
      && t == if st.task >= |r.tasks| then r
        else match Next(r, max, st.task, st.a) case Some(r') => r' case None => r
  {
    hide Next;
    RunOn(s, max, steps, st);
    t := Run(s, max, steps + [st]);
    if steps == [] { assert Run(s, max, []) == s; }
  }

  /** A reserved chunk can be published under a free key, and then is what counts. */
  lemma {:induction false} PublishesReserved(s: State, max: Ceiling, i: nat, key: nat)
    requires Balanced(s, max) && i < |s.tasks| && s.tasks[i].Reserved? && key < |s.residents| && s.residents[key].None?
    ensures Next(s, max, i, Publish(key)) ==
      Some(s.(residents := s.residents[key := Some(s.tasks[i].c)], tasks := s.tasks[i := Idle]))
  {
    hide Owed;
    NeverClamped(s, max, i);
  }

  // ---- one owner per reservation, over whole runs ----

  /** What some evaluations did in a run: reservations completed, published and abandoned,
      residents detached, and releases carried through to the last counter. */
  datatype Tally = Tally(reserved: nat, published: nat, abandoned: nat, detached: nat, released: nat)

  function Noted(y: Tally, t: Task, a: Action, t': Task): Tally {
    match a
    case Continue =>
      if t.ChargedBytes? && t'.Reserved? then y.(reserved := y.reserved + 1)
      else if t.ReleaseNodes? then y.(released := y.released + 1)
      else y
    case Publish(_) => y.(published := y.published + 1)
    case Abandon => y.(abandoned := y.abandoned + 1)
    case Detach(_) => y.(detached := y.detached + 1)
    case Reserve(_) => y
  }

  /** The tally of the steps of the evaluations in who. */
  function TallyOf(s: State, max: Ceiling, steps: seq<Step>, who: set<nat>): Tally {
    if steps == [] then Tally(0, 0, 0, 0, 0)
    else
      var before, st := steps[..|steps| - 1], steps[|steps| - 1];
      var r, y := Run(s, max, before), TallyOf(s, max, before, who);
      if st.task in who && st.task < |r.tasks| then
        match Next(r, max, st.task, st.a)
        case Some(r') => if st.task < |r'.tasks| then Noted(y, r.tasks[st.task], st.a, r'.tasks[st.task]) else y
        case None => y
      else y
  }

  function One(b: bool): nat {
    if b then 1 else 0
  }

  predicate Releasing(t: Task) {
    t.Release? || t.ReleaseBytes? || t.ReleaseNodes?
  }

  lemma {:induction false} SameSize(s: State, max: Ceiling, i: nat, a: Action)
    requires i < |s.tasks| && Next(s, max, i, a).Some?
    ensures var s' := Next(s, max, i, a).value;
      |s'.tasks| == |s.tasks| && |s'.residents| == |s.residents|
      && forall j :: 0 <= j < |s.tasks| && j != i ==> s'.tasks[j] == s.tasks[j]
  {
  }

  lemma {:induction false} RunSize(s: State, max: Ceiling, steps: seq<Step>)
    ensures |Run(s, max, steps).tasks| == |s.tasks| && |Run(s, max, steps).residents| == |s.residents|
    decreases |steps|
  {
    hide Next;
    if steps == [] {
    } else {
      var before, st := steps[..|steps| - 1], steps[|steps| - 1];
      RunSize(s, max, before);
      var r := Run(s, max, before);
      if st.task < |r.tasks| && Next(r, max, st.task, st.a).Some? { SameSize(r, max, st.task, st.a); }
    }
  }

  /** One task's own step, and what it adds to the tally. */
  lemma {:induction false} NotedStep(s: State, max: Ceiling, i: nat, a: Action, y: Tally)
    requires i < |s.tasks| && Next(s, max, i, a).Some? && i < |Next(s, max, i, a).value.tasks|
    ensures var t, t' := s.tasks[i], Next(s, max, i, a).value.tasks[i];
      var z := Noted(y, t, a, t');
      && z.reserved - z.published - z.abandoned - One(t'.Reserved?)
        == y.reserved - y.published - y.abandoned - One(t.Reserved?)
      && z.abandoned + z.detached - z.released - One(Releasing(t'))
        == y.abandoned + y.detached - y.released - One(Releasing(t))
  {
  }

  /** In every run each reservation an evaluation completed was published once or abandoned once,
      or is still held; and each abandoned or detached charge was released whole once, or is being
      released. */
  lemma {:induction false} OwnedOnce(keys: nat, tasks: nat, max: Ceiling, steps: seq<Step>, i: nat)
    requires i < tasks
    ensures var s, y := Run(Empty(keys, tasks), max, steps), TallyOf(Empty(keys, tasks), max, steps, {i});
      && i < |s.tasks|
      && y.reserved == y.published + y.abandoned + One(s.tasks[i].Reserved?)
      && y.abandoned + y.detached == y.released + One(Releasing(s.tasks[i]))
    decreases |steps|
  {
    hide Next, Noted;
    var s0 := Empty(keys, tasks);
    RunSize(s0, max, steps);
    if steps == [] {
      assert Run(s0, max, steps) == s0 && s0.tasks[i].Idle?;
    } else {
      var before, st := steps[..|steps| - 1], steps[|steps| - 1];
      OwnedOnce(keys, tasks, max, before, i);
      RunSize(s0, max, before);
      var r := Run(s0, max, before);
      if st.task < |r.tasks| && Next(r, max, st.task, st.a).Some? {
        SameSize(r, max, st.task, st.a);
        if st.task == i { NotedStep(r, max, i, st.a, TallyOf(s0, max, before, {i})); }
      }
    }
  }

  function Residents(rs: seq<Option<Chunk>>): nat {
    if rs == [] then 0 else One(rs[0].Some?) + Residents(rs[1..])
  }

  lemma {:induction false} ResidentsUpdate(rs: seq<Option<Chunk>>, k: nat, r: Option<Chunk>)
    requires k < |rs|
    ensures Residents(rs[k := r]) + One(rs[k].Some?) == Residents(rs) + One(r.Some?)
    decreases |rs|
  {
    if k == 0 {
      assert rs[k := r][1..] == rs[1..];
    } else {
      assert rs[k := r][1..] == rs[1..][k - 1 := r];
      ResidentsUpdate(rs[1..], k - 1, r);
    }
  }

  lemma {:induction false} NoResidents(rs: seq<Option<Chunk>>)
    requires forall k :: 0 <= k < |rs| ==> rs[k].None?
    ensures Residents(rs) == 0
  {
    if rs == [] {
    } else {
      NoResidents(rs[1..]);
    }
  }

  lemma {:induction false} ResidentStep(s: State, max: Ceiling, i: nat, a: Action, y: Tally)
    requires i < |s.tasks| && Next(s, max, i, a).Some? && i < |Next(s, max, i, a).value.tasks|
    ensures var s' := Next(s, max, i, a).value;
      var z := Noted(y, s.tasks[i], a, s'.tasks[i]);
      z.published - z.detached - Residents(s'.residents) == y.published - y.detached - Residents(s.residents)
  {
    hide Residents;
    var s' := Next(s, max, i, a).value;
    if a.Publish? || a.Detach? { ResidentsUpdate(s.residents, a.key, s'.residents[a.key]); }
  }

  /** Over all evaluations, what was published is resident still or was detached once. */
  lemma {:induction false} ResidentOnce(keys: nat, tasks: nat, max: Ceiling, steps: seq<Step>, who: set<nat>)
    requires forall i :: 0 <= i < tasks ==> i in who
    ensures var s, y := Run(Empty(keys, tasks), max, steps), TallyOf(Empty(keys, tasks), max, steps, who);
      y.published == y.detached + Residents(s.residents)
    decreases |steps|
  {
    hide Next, Noted, Residents;
    var s0 := Empty(keys, tasks);
    if steps == [] {
      NoResidents(s0.residents);
    } else {
      var before, st := steps[..|steps| - 1], steps[|steps| - 1];
      ResidentOnce(keys, tasks, max, before, who);
      RunSize(s0, max, before);
      var r := Run(s0, max, before);
      if st.task < |r.tasks| && Next(r, max, st.task, st.a).Some? {
        SameSize(r, max, st.task, st.a);
        ResidentStep(r, max, st.task, st.a, TallyOf(s0, max, before, who));
      }
    }
  }

  // ---- one owner per reservation, within one call ----

  datatype Outcome = Worked | Refused | Panicked

  /** A reservation on its way to publication, while the steps it takes may fail or panic. */
  class Reservation {
    var reserved: bool      // this call still owns the reservation
    var returned: nat       // times its charge was given back
    var resident: bool      // the stripe owns it

    constructor ()
      ensures reserved && returned == 0 && !resident
    {
      reserved, returned, resident := true, 0, false;
    }

    /** Gives the charge back, once: the budget counters are returned even if the meter panics. */
    method Release(meterPanics: bool) returns (panicked: bool)
      modifies this`reserved, this`returned
      ensures !reserved && returned == old(returned) + (if old(reserved) then 1 else 0)
      ensures panicked == (old(reserved) && meterPanics)
    {
      if !reserved { return false; }
      reserved := false;
      returned := returned + 1;
      return meterPanics;
    }

    /** Whatever fails, the reservation becomes a resident or is given back, exactly one of them
        and exactly once; a panic is recovered from only to clean up. */
    method DetachPublish(detach: Outcome, publish: Outcome, meterPanics: bool) returns (panicked: bool)
      requires reserved && returned == 0 && !resident
      modifies this
      ensures !reserved && returned + (if resident then 1 else 0) == 1
      ensures resident <==> detach.Worked? && publish.Worked?
      ensures detach.Panicked? || (detach.Worked? && publish.Panicked?) ==> panicked
    {
      panicked := false;
      if detach.Panicked? || (detach.Worked? && publish.Panicked?) {
        panicked := true;
      } else if detach.Refused? || publish.Refused? {
        panicked := Release(meterPanics);
      } else {
        reserved, resident := false, true;
      }
      if panicked { var _ := Release(meterPanics); }
    }
  }
}
