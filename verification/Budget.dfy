/** The evaluation budget: one 64-bit counter that any number of chargers add to, each add
    committed before its overflow is known, and closed out by a pin at the ceiling. */
module Budget {
  import opened Forms
  import opened Arithmetic

  /** Two's complement addition of a counter and a positive charge. */
  function WrapAdd(c: int, n: int): int {
    if c + n > MAX then c + n - 2 * HALF else c + n
  }

  // ---- one charge, alone ----

  /** A counter that only one evaluation charges. */
  class Counter {
    var value: int

    constructor ()
      ensures value == 0
    {
      value := 0;
    }

    method AddCharge(max: int, n: int) returns (total: int, exact: bool)
      requires 0 <= value <= MAX && 0 < n <= MAX
      modifies this
      ensures exact <==> n <= max && old(value) + n <= MAX
      ensures exact ==> total == value == old(value) + n
      ensures n > max ==> value == old(value)
      ensures n <= max && !exact ==> value < 0
    {
      if n > max { return 0, false; }
      value := WrapAdd(value, n);
      return value, value >= n;
    }

    /** Pins a counter that wrapped, and records a charge larger than the whole budget. */
    method Saturate(max: int, n: int)
      requires value <= MAX && 0 < n <= MAX
      modifies this
      ensures value == if n > max && old(value) >= 0 then Min(old(value) + n, MAX) else MAX
    {
      var used := value;
      var total := MAX;
      if n > max && used >= 0 && WrapAdd(used, n) >= used { total := used + n; }
      value := total;
    }

    /** Admits exactly the charges that fit, and remembers the whole demand up to the ceiling. */
    method Charge(max: int, n: int) returns (ok: bool)
      requires 0 <= value <= MAX && n <= MAX && 0 < max <= MAX
      modifies this
      ensures n <= 0 ==> ok && value == old(value)
      ensures n > 0 ==> value == Min(old(value) + n, MAX) && (ok <==> old(value) + n <= max)
    {
      if n <= 0 { return true; }
      var total, exact := AddCharge(max, n);
      if exact {
        if total <= max { return true; }
      } else {
        Saturate(max, n);
      }
      return false;
    }
  }

  /** The machine's own single-owner counter. */
  function ChargePrivate(total: int, max: int, n: int): (r: (int, bool))
    requires 0 <= total <= MAX && 0 < n <= MAX && 0 < max <= MAX
    ensures r.0 == Min(total + n, MAX) && (r.1 <==> total + n <= max)
  {
    var sum := WrapAdd(total, n);
    if sum < n then (MAX, false) else (sum, sum <= max)
  }

  function Sum(ns: seq<nat>): nat {
    if ns == [] then 0 else Sum(ns[..|ns| - 1]) + ns[|ns| - 1]
  }

  function ChargeAll(ns: seq<nat>, max: int): (r: (int, seq<bool>))
    requires 0 < max <= MAX && forall i :: 0 <= i < |ns| ==> 0 < ns[i] <= MAX
    ensures 0 <= r.0 <= MAX && |r.1| == |ns|
  {
    if ns == [] then (0, [])
    else
      var before := ChargeAll(ns[..|ns| - 1], max);
      var last := ChargePrivate(before.0, max, ns[|ns| - 1]);
      (last.0, before.1 + [last.1])
  }

  /** Over any run of charges the private counter reads the true total up to the ceiling, and
      a charge is admitted exactly when the whole demand so far, refused charges included,
      fits the budget. */
  lemma {:induction false} PrivateExact(ns: seq<nat>, max: int, i: nat)
    requires 0 < max <= MAX && forall j :: 0 <= j < |ns| ==> 0 < ns[j] <= MAX
    requires i < |ns|
    ensures ChargeAll(ns, max).0 == Min(Sum(ns), MAX)
    ensures ChargeAll(ns, max).1[i] <==> Sum(ns[..i + 1]) <= max
    decreases |ns|
  {
    var k := |ns| - 1;
    var before := ns[..k];
    if k > 0 { PrivateExact(before, max, if i < k then i else 0); }
    if i < k {
      assert before[..i + 1] == ns[..i + 1];
    } else {
      assert ns[..i + 1] == ns;
    }
  }

  // ---- many chargers, step by atomic step ----

  /** A charger between two of its atomic steps: its add wrapped and it must pin the counter,
      or its charge passes the whole budget and it must record it; in either case before the
      load, or between the load and the compare-and-swap. */
  datatype Task =
    | Idle
    | Wrapped(n: nat)
    | WrappedLoaded(n: nat, used: int)
    | Oversized(n: nat)
    | OversizedLoaded(n: nat, used: int)

  /** What happened, in order: a charge was recorded, a charge returned admitted or refused. */
  datatype Event = Landed(n: nat) | Admitted(n: nat) | Refused(n: nat)

  datatype State = State(counter: int, tasks: seq<Task>, trace: seq<Event>)

  datatype Step = Begin(task: nat, n: nat) | Continue(task: nat)

  function Initial(chargers: nat): State {
    State(0, seq(chargers, _ => Idle), [])
  }

  function Put(s: State, i: nat, counter: int, t: Task, events: seq<Event>): State
    requires i < |s.tasks|
  {
    State(counter, s.tasks[i := t], s.trace + events)
  }

  function Target(used: int, n: nat): int {
    if used >= 0 && WrapAdd(used, n) >= used then used + n else MAX
  }

  function Next(s: State, max: int, step: Step): Option<State> {
    var i := step.task;
    if i >= |s.tasks| then None
    else match (step, s.tasks[i])
      case (Begin(_, n), Idle) =>
        if !(0 < n <= MAX) then None
        else if n > max then Some(Put(s, i, s.counter, Oversized(n), []))
        else
          var total := WrapAdd(s.counter, n);
          if total < n then Some(Put(s, i, total, Wrapped(n), [Landed(n)]))
          else if total <= max then Some(Put(s, i, total, Idle, [Landed(n), Admitted(n)]))
          else Some(Put(s, i, total, Idle, [Landed(n), Refused(n)]))
      case (Continue(_), Wrapped(n)) =>
        if s.counter == MAX then Some(Put(s, i, s.counter, Idle, [Refused(n)]))
        else Some(Put(s, i, s.counter, WrappedLoaded(n, s.counter), []))
      case (Continue(_), WrappedLoaded(n, used)) =>
        if s.counter == used then Some(Put(s, i, MAX, Idle, [Refused(n)]))
        else Some(Put(s, i, s.counter, Wrapped(n), []))
      case (Continue(_), Oversized(n)) =>
        if s.counter == Target(s.counter, n) then Some(Put(s, i, s.counter, Idle, [Landed(n), Refused(n)]))
        else Some(Put(s, i, s.counter, OversizedLoaded(n, s.counter), []))
      case (Continue(_), OversizedLoaded(n, used)) =>
        if s.counter == used then Some(Put(s, i, Target(used, n), Idle, [Landed(n), Refused(n)]))
        else Some(Put(s, i, s.counter, Oversized(n), []))
      case _ => None
  }

  function Run(s: State, max: int, steps: seq<Step>): Option<State>
    decreases |steps|
  {
    if steps == [] then Some(s)
    else match Run(s, max, steps[..|steps| - 1])
      case None => None
      case Some(t) => Next(t, max, steps[|steps| - 1])
  }

  // ---- what a trace says ----

  function Demand(trace: seq<Event>): nat {
    if trace == [] then 0
    else
      var e := trace[|trace| - 1];
      Demand(trace[..|trace| - 1]) + if e.Landed? then e.n else 0
  }

  function AdmittedSum(trace: seq<Event>): nat {
    if trace == [] then 0
    else
      var e := trace[|trace| - 1];
      AdmittedSum(trace[..|trace| - 1]) + if e.Admitted? then e.n else 0
  }

  /** Every answer is the true one: a charge is admitted only while the whole demand fits, and
      refused only once it does not. */
  ghost predicate Honest(trace: seq<Event>, max: int) {
    forall j :: 0 <= j < |trace| ==>
      (trace[j].Admitted? ==> Demand(trace[..j]) <= max) && (trace[j].Refused? ==> Demand(trace[..j]) > max)
  }

  /** No charge is admitted after one was refused. */
  ghost predicate Closed(trace: seq<Event>) {
    forall i, j :: 0 <= i < j < |trace| && trace[i].Refused? ==> !trace[j].Admitted?
  }

  lemma {:induction false} DemandGrows(trace: seq<Event>, i: nat, j: nat)
    requires i <= j <= |trace|
    ensures Demand(trace[..i]) <= Demand(trace[..j])
    decreases j
  {
    if i < j {
      DemandGrows(trace, i, j - 1);
      assert trace[..j][..j - 1] == trace[..j - 1];
    }
  }

  lemma {:induction false} HonestCloses(trace: seq<Event>, max: int)
    requires Honest(trace, max)
    ensures Closed(trace)
  {
    forall i, j | 0 <= i < j < |trace| && trace[i].Refused? ensures !trace[j].Admitted? {
      DemandGrows(trace, i, j);
    }
  }

  lemma {:induction false} Extend(trace: seq<Event>, e: Event, max: int)
    requires Honest(trace, max)
    requires e.Admitted? ==> Demand(trace) <= max
    requires e.Refused? ==> Demand(trace) > max
    ensures Honest(trace + [e], max)
    ensures Demand(trace + [e]) == Demand(trace) + if e.Landed? then e.n else 0
    ensures AdmittedSum(trace + [e]) == AdmittedSum(trace) + if e.Admitted? then e.n else 0
  {
    var t := trace + [e];
    assert t[..|trace|] == trace;
    forall j | 0 <= j < |t|
      ensures (t[j].Admitted? ==> Demand(t[..j]) <= max) && (t[j].Refused? ==> Demand(t[..j]) > max)
    {
      assert t[..j] == trace[..j] || j == |trace|;
      if j < |trace| { assert t[j] == trace[j]; }
    }
  }

  // ---- what every step keeps ----

  predicate IsWrapped(t: Task) {
    t.Wrapped? || t.WrappedLoaded?
  }

  /** The most that chargers still owing a pin can have added. */
  function Carried(tasks: seq<Task>, max: nat): nat {
    if tasks == [] then 0
    else (if IsWrapped(tasks[0]) then max else 0) + Carried(tasks[1..], max)
  }

  lemma {:induction false} CarriedUpdate(tasks: seq<Task>, max: nat, i: nat, t: Task)
    requires i < |tasks|
    ensures Carried(tasks[i := t], max) + (if IsWrapped(tasks[i]) then max else 0)
         == Carried(tasks, max) + (if IsWrapped(t) then max else 0)
    decreases |tasks|
  {
    if i > 0 {
      assert tasks[i := t][1..] == tasks[1..][i - 1 := t];
      CarriedUpdate(tasks[1..], max, i - 1, t);
    } else {
      assert tasks[i := t][1..] == tasks[1..];
    }
  }

  lemma {:induction false} CarriedBound(tasks: seq<Task>, max: nat)
    ensures Carried(tasks, max) <= |tasks| * max
  {
    if tasks != [] { CarriedBound(tasks[1..], max); }
  }

  lemma {:induction false} CarriedRoom(tasks: seq<Task>, max: nat, i: nat)
    requires i < |tasks| && !IsWrapped(tasks[i])
    ensures Carried(tasks, max) <= (|tasks| - 1) * max
    decreases |tasks|
  {
    if i > 0 { CarriedRoom(tasks[1..], max, i - 1); } else { CarriedBound(tasks[1..], max); }
  }

  /** The counter reads the true demand up to the ceiling; or it wrapped, and what chargers
      that still owe a pin have added is all that holds it above the bottom. */
  ghost predicate Reads(counter: int, tasks: seq<Task>, trace: seq<Event>, max: nat) {
    || counter == Min(Demand(trace), MAX)
    || (Demand(trace) > MAX && -HALF <= counter < Carried(tasks, max) - HALF)
  }

  predicate TaskOk(t: Task, max: nat, demand: nat) {
    && (IsWrapped(t) ==> demand > MAX)
    && (t.Oversized? || t.OversizedLoaded? ==> max < t.n <= MAX)
  }

  ghost predicate TasksOk(tasks: seq<Task>, max: nat, demand: nat) {
    forall i :: 0 <= i < |tasks| ==> TaskOk(tasks[i], max, demand)
  }

  ghost predicate Inv(s: State, max: nat) {
    && Reads(s.counter, s.tasks, s.trace, max)
    && TasksOk(s.tasks, max, Demand(s.trace))
    && Honest(s.trace, max)
    && AdmittedSum(s.trace) <= Min(Demand(s.trace), max)
  }

  ghost predicate Sized(s: State, max: nat) {
    0 < max <= MAX && (|s.tasks| - 1) * max <= HALF
  }

  lemma {:induction false} TasksUpdate(tasks: seq<Task>, max: nat, demand: nat, i: nat, t: Task, demand': nat)
    requires TasksOk(tasks, max, demand) && i < |tasks| && demand <= demand'
    requires TaskOk(t, max, demand')
    ensures TasksOk(tasks[i := t], max, demand')
  {
    var ts := tasks[i := t];
    forall j | 0 <= j < |ts| ensures TaskOk(ts[j], max, demand') {
      assert TaskOk(tasks[j], max, demand);
    }
  }

  /** Only the counter and one charger change, with nothing recorded. */
  lemma {:induction false} Moves(s: State, max: nat, i: nat, t: Task)
    requires Sized(s, max) && Inv(s, max) && i < |s.tasks|
    requires IsWrapped(t) == IsWrapped(s.tasks[i])
    requires TaskOk(t, max, Demand(s.trace))
    ensures Inv(Put(s, i, s.counter, t, []), max)
  {
    CarriedUpdate(s.tasks, max, i, t);
    TasksUpdate(s.tasks, max, Demand(s.trace), i, t, Demand(s.trace));
    assert s.trace + [] == s.trace;
  }

  /** The counter now reads the true demand. */
  lemma {:induction false} Settles(s: State, max: nat, i: nat, counter: int, events: seq<Event>)
    requires Inv(s, max) && i < |s.tasks|
    requires var trace := s.trace + events;
      counter == Min(Demand(trace), MAX) && Demand(s.trace) <= Demand(trace) && Honest(trace, max)
      && AdmittedSum(trace) <= Min(Demand(trace), max)
    ensures Inv(Put(s, i, counter, Idle, events), max)
  {
    TasksUpdate(s.tasks, max, Demand(s.trace), i, Idle, Demand(s.trace + events));
  }

  lemma {:induction false} BeginKeeps(s: State, max: nat, i: nat, n: nat)
    requires Sized(s, max) && Inv(s, max) && i < |s.tasks| && s.tasks[i].Idle? && 0 < n <= max
    ensures Next(s, max, Begin(i, n)).Some? && Inv(Next(s, max, Begin(i, n)).value, max)
  {
    hide Demand, AdmittedSum, Carried, Honest, TasksOk;
    CarriedRoom(s.tasks, max, i);
    var trace, total, d := s.trace, WrapAdd(s.counter, n), Demand(s.trace);
    Extend(trace, Landed(n), max);
    var landed := trace + [Landed(n)];
    if total < n {
      assert s.counter < 0 || s.counter + n > MAX;
      CarriedUpdate(s.tasks, max, i, Wrapped(n));
      TasksUpdate(s.tasks, max, d, i, Wrapped(n), d + n);
    } else {
      assert s.counter == d && d + n == total;
      var e := if total <= max then Admitted(n) else Refused(n);
      Extend(landed, e, max);
      assert landed + [e] == trace + [Landed(n), e];
      Settles(s, max, i, total, [Landed(n), e]);
    }
  }

  /** A charge larger than the budget is recorded and refused. */
  lemma {:induction false} RecordKeeps(s: State, max: nat, i: nat, n: nat)
    requires Sized(s, max) && Inv(s, max) && i < |s.tasks| && !IsWrapped(s.tasks[i]) && max < n <= MAX
    ensures Inv(Put(s, i, Target(s.counter, n), Idle, [Landed(n), Refused(n)]), max)
  {
    hide Demand, AdmittedSum, Carried, Honest, TasksOk;
    CarriedRoom(s.tasks, max, i);
    var trace := s.trace;
    Extend(trace, Landed(n), max);
    Extend(trace + [Landed(n)], Refused(n), max);
    assert trace + [Landed(n)] + [Refused(n)] == trace + [Landed(n), Refused(n)];
    Settles(s, max, i, Target(s.counter, n), [Landed(n), Refused(n)]);
  }

  lemma {:induction false} PinKeeps(s: State, max: nat, i: nat, n: nat)
    requires Sized(s, max) && Inv(s, max) && i < |s.tasks| && IsWrapped(s.tasks[i])
    ensures Inv(Put(s, i, MAX, Idle, [Refused(n)]), max)
  {
    assert TaskOk(s.tasks[i], max, Demand(s.trace));
    Extend(s.trace, Refused(n), max);
    Settles(s, max, i, MAX, [Refused(n)]);
  }

  lemma {:induction false} StepKeeps(s: State, max: nat, step: Step)
    requires Sized(s, max) && Inv(s, max) && Next(s, max, step).Some?
    ensures var t := Next(s, max, step).value; Inv(t, max) && Sized(t, max)
  {
    hide Inv, Carried, Honest, Demand, AdmittedSum, Target;
    var i := step.task;
    assert TaskOk(s.tasks[i], max, Demand(s.trace)) by { TaskFact(s, max, i); }
    match (step, s.tasks[i]) {
      case (Begin(_, n), Idle) => if n > max { Moves(s, max, i, Oversized(n)); } else { BeginKeeps(s, max, i, n); }
      case (Continue(_), Wrapped(n)) => if s.counter == MAX { PinKeeps(s, max, i, n); }
          else { Moves(s, max, i, WrappedLoaded(n, s.counter)); }
      case (Continue(_), WrappedLoaded(n, used)) =>
          if s.counter == used { PinKeeps(s, max, i, n); } else { Moves(s, max, i, Wrapped(n)); }
      case (Continue(_), Oversized(n)) => RecordKeeps(s, max, i, n); Moves(s, max, i, OversizedLoaded(n, s.counter));
      case (Continue(_), OversizedLoaded(n, used)) => RecordKeeps(s, max, i, n); Moves(s, max, i, Oversized(n));
      case _ =>
    }
  }

  lemma {:induction false} TaskFact(s: State, max: nat, i: nat)
    requires Inv(s, max) && i < |s.tasks|
    ensures TaskOk(s.tasks[i], max, Demand(s.trace))
  {
  }

  lemma {:induction false} InitialInv(chargers: nat, max: nat)
    requires max <= MAX
    ensures Inv(Initial(chargers), max)
  {
  }

  /** Whatever the interleaving, every answer is true, nothing is admitted after a refusal has
      returned and the admitted charges stay within the budget. */
  lemma {:induction false} AlwaysHonest(chargers: nat, max: nat, steps: seq<Step>)
    requires 0 < max <= MAX && (chargers - 1) * max <= HALF
    requires Run(Initial(chargers), max, steps).Some?
    ensures var s := Run(Initial(chargers), max, steps).value;
      Inv(s, max) && |s.tasks| == chargers
      && Honest(s.trace, max) && Closed(s.trace) && AdmittedSum(s.trace) <= max
    decreases |steps|
  {
    hide Next, Reads, TasksOk, Honest, Closed, Demand, AdmittedSum;
    var s := Run(Initial(chargers), max, steps).value;
    if steps == [] {
      InitialInv(chargers, max);
    } else {
      AlwaysHonest(chargers, max, steps[..|steps| - 1]);
      var t := Run(Initial(chargers), max, steps[..|steps| - 1]).value;
      StepKeeps(t, max, steps[|steps| - 1]);
      SameTasks(t, max, steps[|steps| - 1]);
    }
    HonestCloses(s.trace, max);
  }

  lemma {:induction false} SameTasks(s: State, max: int, step: Step)
    requires Next(s, max, step).Some?
    ensures |Next(s, max, step).value.tasks| == |s.tasks|
  {
  }

  /** The total a reader is shown. */
  function Published(counter: int): int {
    if counter < 0 then MAX else counter
  }

  lemma {:induction false} PublishesDemand(chargers: nat, max: nat, steps: seq<Step>)
    requires 0 < max <= MAX && chargers * max <= HALF
    requires Run(Initial(chargers), max, steps).Some?
    ensures var s := Run(Initial(chargers), max, steps).value;
      Published(s.counter) == Min(Demand(s.trace), MAX)
  {
    AlwaysHonest(chargers, max, steps);
    var s := Run(Initial(chargers), max, steps).value;
    CarriedBound(s.tasks, max);
  }

  // ---- exactly when the guard suffices ----

  ghost predicate AlwaysCloses(chargers: nat, max: nat) {
    forall steps :: Run(Initial(chargers), max, steps).Some? ==>
      Closed(Run(Initial(chargers), max, steps).value.trace)
  }

  /** Chargers 1 to i have each added max onto a full counter, owe their pin, and a refused
      charge has returned; the demand is past the ceiling. */
  ghost predicate Piled(s: State, chargers: nat, max: nat, i: nat) {
    && |s.tasks| == chargers
    && s.counter == (if i == 0 then MAX else i * max - HALF - 1) && Demand(s.trace) >= MAX + i * max
    && (forall j :: 0 <= j < chargers && !(0 < j <= i) ==> s.tasks[j].Idle?)
    && (exists r :: 0 <= r < |s.trace| && s.trace[r].Refused?)
  }

  lemma {:induction false} RunSnoc(s: State, max: int, steps: seq<Step>, step: Step)
    requires Run(s, max, steps).Some?
    ensures Run(s, max, steps + [step]) == Next(Run(s, max, steps).value, max, step)
  {
    assert (steps + [step])[..|steps|] == steps;
  }

  lemma {:induction false} DemandNext(trace: seq<Event>, e: Event)
    ensures Demand(trace + [e]) == Demand(trace) + if e.Landed? then e.n else 0
  {
    assert (trace + [e])[..|trace|] == trace;
  }

  lemma {:induction false} DemandOnce(n: nat, rest: seq<Event>)
    ensures Demand([Landed(n)] + rest) >= n
    decreases |rest|
  {
    if rest == [] {
      assert [Landed(n)] + rest == [] + [Landed(n)];
      DemandNext([], Landed(n));
    } else {
      var init, e := rest[..|rest| - 1], rest[|rest| - 1];
      DemandOnce(n, init);
      DemandNext([Landed(n)] + init, e);
      assert [Landed(n)] + init + [e] == [Landed(n)] + rest;
    }
  }

  /** One charger fills the counter and is refused. */
  lemma {:induction false} Fills(chargers: nat, max: nat) returns (steps: seq<Step>)
    requires 0 < max <= MAX && chargers > 0
    ensures Run(Initial(chargers), max, steps).Some?
    ensures Piled(Run(Initial(chargers), max, steps).value, chargers, max, 0)
  {
    var s := Initial(chargers);
    steps := [];
    assert Run(s, max, steps) == Some(s);
    RunSnoc(s, max, steps, Begin(0, MAX));
    steps := steps + [Begin(0, MAX)];
    if max == MAX {
      RunSnoc(s, max, steps, Begin(0, 1));
      steps := steps + [Begin(0, 1)];
    }
    RunSnoc(s, max, steps, Continue(0));
    steps := steps + [Continue(0)];
    RunSnoc(s, max, steps, Continue(0));
    steps := steps + [Continue(0)];
    var t := Run(s, max, steps).value;
    assert t.trace[|t.trace| - 1].Refused?;
    assert t.trace == [Landed(MAX)] + t.trace[1..];
    DemandOnce(MAX, t.trace[1..]);
  }

  lemma {:induction false} PileNext(s: State, chargers: nat, max: nat, i: nat)
    requires 0 < max <= MAX && Piled(s, chargers, max, i) && i * max <= HALF && i + 1 < chargers
    ensures Next(s, max, Begin(i + 1, max)).Some?
    ensures Piled(Next(s, max, Begin(i + 1, max)).value, chargers, max, i + 1)
  {
    assert (i + 1) * max == i * max + max;
    var t := Next(s, max, Begin(i + 1, max)).value;
    assert t.counter < max;
    DemandNext(s.trace, Landed(max));
    var r :| 0 <= r < |s.trace| && s.trace[r].Refused?;
    assert t.trace[r].Refused?;
  }

  lemma {:induction false} Piles(chargers: nat, max: nat, steps: seq<Step>, i: nat) returns (more: seq<Step>, top: nat)
    requires 0 < max <= MAX && Run(Initial(chargers), max, steps).Some?
    requires Piled(Run(Initial(chargers), max, steps).value, chargers, max, i)
    requires i < chargers && (chargers - 1) * max > HALF && (i > 0 ==> (i - 1) * max <= HALF)
    ensures Run(Initial(chargers), max, more).Some?
    ensures Piled(Run(Initial(chargers), max, more).value, chargers, max, top)
    ensures 0 < top < chargers && (top - 1) * max <= HALF < top * max
    decreases chargers - i
  {
    hide Next, Piled, Run, Initial;
    if i * max > HALF { return steps, i; }
    assert i + 1 < chargers;
    var s := Run(Initial(chargers), max, steps).value;
    PileNext(s, chargers, max, i);
    RunSnoc(Initial(chargers), max, steps, Begin(i + 1, max));
    more, top := Piles(chargers, max, steps + [Begin(i + 1, max)], i + 1);
  }

  /** With one charger too many, enough of them add onto the wrapped counter to carry it past
      zero before any pins it, and the next charge finds a budget. */
  lemma {:induction false} Breach(chargers: nat, max: nat) returns (steps: seq<Step>)
    requires 0 < max <= MAX && (chargers - 1) * max > HALF
    ensures Run(Initial(chargers), max, steps).Some?
    ensures !Closed(Run(Initial(chargers), max, steps).value.trace)
  {
    hide Initial, Run;
    var filled := Fills(chargers, max);
    var piled, top := Piles(chargers, max, filled, 0);
    var s := Run(Initial(chargers), max, piled).value;
    RunSnoc(Initial(chargers), max, piled, Begin(0, 1));
    steps := piled + [Begin(0, 1)];
    assert (top - 1) * max + max == top * max;
    var t := Next(s, max, Begin(0, 1)).value;
    var r :| 0 <= r < |s.trace| && s.trace[r].Refused?;
    assert t.trace[r].Refused? && t.trace[|t.trace| - 1].Admitted?;
  }

  /** A refusal closes the budget for good exactly when all but one of the chargers together
      cannot carry a wrapped counter back to zero. */
  lemma {:induction false} ClosesExactly(chargers: nat, max: nat)
    requires 0 < max <= MAX && chargers > 0
    ensures AlwaysCloses(chargers, max) <==> (chargers - 1) * max <= HALF
  {
    hide Run, Closed, Inv;
    if (chargers - 1) * max <= HALF {
      forall steps | Run(Initial(chargers), max, steps).Some?
        ensures Closed(Run(Initial(chargers), max, steps).value.trace)
      {
        AlwaysHonest(chargers, max, steps);
      }
    } else {
      var steps := Breach(chargers, max);
    }
  }

  // ---- exactly when the published total is true ----

  ghost predicate AlwaysPublishes(chargers: nat, max: nat) {
    forall steps :: Run(Initial(chargers), max, steps).Some? ==>
      var s := Run(Initial(chargers), max, steps).value; Published(s.counter) == Min(Demand(s.trace), MAX)
  }

  /** Chargers one after another add onto the wrapped counter, as long as it stays below zero. */
  lemma {:induction false} PilesTo(chargers: nat, max: nat, steps: seq<Step>, i: nat,
      target: nat) returns (more: seq<Step>)
    requires 0 < max <= MAX && Run(Initial(chargers), max, steps).Some?
    requires Piled(Run(Initial(chargers), max, steps).value, chargers, max, i)
    requires i <= target < chargers && target * max <= HALF
    ensures Run(Initial(chargers), max, more).Some?
    ensures Piled(Run(Initial(chargers), max, more).value, chargers, max, target)
    decreases target - i
  {
    hide Next, Piled, Run, Initial;
    if i == target { return steps; }
    assert i * max <= target * max;
    PileNext(Run(Initial(chargers), max, steps).value, chargers, max, i);
    RunSnoc(Initial(chargers), max, steps, Begin(i + 1, max));
    more := PilesTo(chargers, max, steps + [Begin(i + 1, max)], i + 1, target);
  }

  lemma {:induction false} LastCharge(s: State, chargers: nat, max: nat)
    requires 0 < max <= MAX && chargers > 1 && Piled(s, chargers, max, chargers - 1)
    requires (chargers - 1) * max <= HALF < chargers * max
    ensures Next(s, max, Begin(0, max)).Some?
    ensures var t := Next(s, max, Begin(0, max)).value; 0 <= t.counter < max && Demand(t.trace) > MAX
  {
    hide Demand;
    assert (chargers - 1) * max + max == chargers * max;
    DemandNext(s.trace, Landed(max));
  }

  /** With that many chargers the counter can be carried past zero, where readers take it for
      the total. */
  lemma {:induction false} Misreads(chargers: nat, max: nat) returns (steps: seq<Step>)
    requires 0 < max <= MAX && chargers * max > HALF
    ensures Run(Initial(chargers), max, steps).Some?
    ensures var s := Run(Initial(chargers), max, steps).value; Published(s.counter) != Min(Demand(s.trace), MAX)
  {
    hide Initial, Run, Demand;
    assert 0 * max == 0 && 1 * max == max;
    assert chargers > 1;
    var filled := Fills(chargers, max);
    if (chargers - 1) * max > HALF {
      var top;
      steps, top := Piles(chargers, max, filled, 0);
      assert (top - 1) * max + max == top * max;
    } else {
      var piled := PilesTo(chargers, max, filled, 0, chargers - 1);
      var s := Run(Initial(chargers), max, piled).value;
      LastCharge(s, chargers, max);
      RunSnoc(Initial(chargers), max, piled, Begin(0, max));
      steps := piled + [Begin(0, max)];
    }
  }

  /** In every reachable state, the wrapped window included, the published total is the true
      demand up to the ceiling, exactly when the chargers together cannot carry a wrapped counter
      back to zero. */
  lemma {:induction false} PublishedExact(chargers: nat, max: nat)
    requires 0 < max <= MAX
    ensures AlwaysPublishes(chargers, max) <==> chargers * max <= HALF
  {
    hide Run, Demand;
    if chargers * max <= HALF {
      forall steps | Run(Initial(chargers), max, steps).Some?
        ensures var s := Run(Initial(chargers), max, steps).value; Published(s.counter) == Min(Demand(s.trace), MAX)
      {
        PublishesDemand(chargers, max, steps);
      }
    } else {
      var steps := Misreads(chargers, max);
    }
  }
}
