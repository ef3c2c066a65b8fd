/** The shared evaluation meter: evaluations draw leases from it, spend them and give back
    what is left. */
module Leases {
  import opened Forms
  import opened Arithmetic

  const REDUCTION_LEASE: int := 1024
  const ALLOC_LEASE: int := 0x1_0000

  /** An amount of reductions and of allocated bytes. */
  datatype Pair = Pair(red: int, bytes: int)

  const ZERO := Pair(0, 0)

  function Plus(a: Pair, b: Pair): Pair {
    Pair(a.red + b.red, a.bytes + b.bytes)
  }

  predicate AtMost(a: Pair, b: Pair) {
    a.red <= b.red && a.bytes <= b.bytes
  }

  function Tops(max: Pair): Pair {
    Pair(Top(max.red), Top(max.bytes))
  }

  function Grant(used: int, max: int, requested: int): int {
    if requested <= 0 || Top(max) - used <= 0 then 0 else Min(requested, Top(max) - used)
  }

  function GiveBack(used: int, n: int): int {
    if n <= 0 then used else Max(used - n, 0)
  }

  /** A request is granted as far as the maximum leaves room, and, where there is no maximum, as far
      as 64 bits do. */
  lemma {:induction false} GrantIs(used: int, max: int, requested: int)
    requires 0 <= used
    ensures var left := (if max > 0 then max else 0x7FFF_FFFF_FFFF_FFFF) - used;
      Grant(used, max, requested) ==
        if requested < 0 || left < 0 then 0 else if requested < left then requested else left
  {
  }

  // ---- many evaluations, counter step by counter step ----

  /** Where an evaluation is: running, or partway through a lease or a return. A counter is
      changed by a compare-and-swap that commits on the value it read, so one step each. */
  datatype Phase =
    | Running
    | Leasing(request: Pair)
    | LeasedRed(request: Pair, got: int)
    | Answered(request: Pair, grant: Pair)
    | Returning(give: Pair)
    | ReturningAlloc(rest: int)

  datatype Evaluation = Evaluation(consumed: Pair, leased: Pair, phase: Phase)

  datatype State = State(used: Pair, evals: seq<Evaluation>)

  datatype Action =
    | Lease(red: int, bytes: int)
    | Consume(red: int, bytes: int)
    | Finish
    | Continue

  function Initial(n: nat): State {
    State(ZERO, seq(n, _ => Evaluation(ZERO, ZERO, Running)))
  }

  predicate Denied(request: Pair, grant: Pair) {
    (request.red > 0 && grant.red == 0) || (request.bytes > 0 && grant.bytes == 0)
  }

  function Put(s: State, i: nat, used: Pair, e: Evaluation): State
    requires i < |s.evals|
  {
    State(used, s.evals[i := e])
  }

  function Next(s: State, max: Pair, i: nat, a: Action): Option<State>
    requires i < |s.evals|
  {
    var e := s.evals[i];
    match (a, e.phase)
    case (Lease(red, bytes), Running) =>
      var request := Pair(Min(Max(red, 0), REDUCTION_LEASE), Min(Max(bytes, 0), ALLOC_LEASE));
      if request == ZERO then Some(s) else Some(Put(s, i, s.used, e.(phase := Leasing(request))))
    case (Continue, Leasing(request)) =>
      var got := Grant(s.used.red, max.red, request.red);
      Some(Put(s, i, s.used.(red := s.used.red + got), e.(phase := LeasedRed(request, got))))
    case (Continue, LeasedRed(request, red)) =>
      var got := Grant(s.used.bytes, max.bytes, request.bytes);
      Some(Put(s, i, s.used.(bytes := s.used.bytes + got), e.(phase := Answered(request, Pair(red, got)))))
    case (Continue, Answered(request, grant)) =>
      if !Denied(request, grant) then Some(Put(s, i, s.used, e.(leased := Plus(e.leased, grant), phase := Running)))
      else if grant == ZERO then Some(Put(s, i, s.used, e.(phase := Running)))
      else Some(Put(s, i, s.used, e.(phase := Returning(grant))))
    case (Consume(red, bytes), Running) =>
      if 0 <= red <= e.leased.red && 0 <= bytes <= e.leased.bytes
      then Some(Put(s, i, s.used, Evaluation(Plus(e.consumed, Pair(red, bytes)),
          Pair(e.leased.red - red, e.leased.bytes - bytes), Running)))
      else None
    case (Finish, Running) => Some(Put(s, i, s.used, Evaluation(e.consumed, ZERO, Returning(e.leased))))
    case (Continue, Returning(give)) =>
      Some(Put(s, i, s.used.(red := GiveBack(s.used.red, give.red)), e.(phase := ReturningAlloc(give.bytes))))
    case (Continue, ReturningAlloc(rest)) =>
      Some(Put(s, i, s.used.(bytes := GiveBack(s.used.bytes, rest)), e.(phase := Running)))
    case _ => None
  }

  function InFlight(p: Phase): Pair {
    match p
    case LeasedRed(_, got) => Pair(got, 0)
    case Answered(_, grant) => grant
    case Returning(give) => give
    case ReturningAlloc(rest) => Pair(0, rest)
    case _ => ZERO
  }

  /** What an evaluation accounts for: spent, leased, and granted or handed back in flight. */
  function Held(e: Evaluation): Pair {
    Plus(Plus(e.consumed, e.leased), InFlight(e.phase))
  }

  function Consumed(evals: seq<Evaluation>): Pair {
    if evals == [] then ZERO else Plus(evals[0].consumed, Consumed(evals[1..]))
  }

  function HeldAll(evals: seq<Evaluation>): Pair {
    if evals == [] then ZERO else Plus(Held(evals[0]), HeldAll(evals[1..]))
  }

  predicate Solvent(e: Evaluation) {
    AtMost(ZERO, e.consumed) && AtMost(ZERO, e.leased) && AtMost(ZERO, InFlight(e.phase))
  }

  ghost predicate AllSolvent(evals: seq<Evaluation>) {
    forall i :: 0 <= i < |evals| ==> Solvent(evals[i])
  }

  /** The meter has given out exactly what the evaluations hold, and never past its maximum. */
  ghost predicate Balanced(s: State, max: Pair) {
    s.used == HeldAll(s.evals) && AtMost(s.used, Tops(max)) && AllSolvent(s.evals)
  }

  lemma {:induction false} HeldUpdate(evals: seq<Evaluation>, i: nat, e: Evaluation)
    requires i < |evals|
    ensures Plus(HeldAll(evals[i := e]), Held(evals[i])) == Plus(HeldAll(evals), Held(e))
    decreases |evals|
  {
    hide Held;
    if i > 0 {
      assert evals[i := e][1..] == evals[1..][i - 1 := e];
      HeldUpdate(evals[1..], i - 1, e);
    } else {
      assert evals[i := e][1..] == evals[1..];
    }
  }

  lemma {:induction false} HeldBounds(evals: seq<Evaluation>, i: nat)
    requires i < |evals| && AllSolvent(evals)
    ensures AtMost(Held(evals[i]), HeldAll(evals)) && AtMost(ZERO, HeldAll(evals))
    decreases |evals|
  {
    hide InFlight;
    assert Solvent(evals[0]);
    if i > 0 { HeldBounds(evals[1..], i - 1); } else if |evals| > 1 { HeldBounds(evals[1..], 0); }
  }

  /** A change of one evaluation that the counters follow. */
  lemma {:induction false} PutKeeps(s: State, max: Pair, i: nat, used: Pair, e: Evaluation)
    requires Balanced(s, max) && i < |s.evals| && Solvent(e)
    requires Plus(used, Held(s.evals[i])) == Plus(s.used, Held(e)) && AtMost(used, Tops(max))
    ensures Balanced(Put(s, i, used, e), max)
  {
    hide Held, HeldAll, Solvent;
    HeldUpdate(s.evals, i, e);
    var t := s.evals[i := e];
    forall j | 0 <= j < |t| ensures Solvent(t[j]) { assert Solvent(s.evals[j]); }
  }

  lemma {:induction false} StepBalanced(s: State, max: Pair, i: nat, a: Action)
    requires Balanced(s, max) && i < |s.evals| && Next(s, max, i, a).Some?
    ensures Balanced(Next(s, max, i, a).value, max)
  {
    hide HeldAll, AllSolvent, Balanced;
    var e := s.evals[i];
    Facts(s, max, i);
    var t := Next(s, max, i, a).value;
    if t != s { PutKeeps(s, max, i, t.used, t.evals[i]); }
  }

  lemma {:induction false} Facts(s: State, max: Pair, i: nat)
    requires Balanced(s, max) && i < |s.evals|
    ensures Solvent(s.evals[i]) && AtMost(Held(s.evals[i]), s.used) && AtMost(ZERO, s.used) && AtMost(s.used, Tops(max))
  {
    hide Held, HeldAll;
    HeldBounds(s.evals, i);
  }

  /** The clamp of a return never applies: an evaluation gives back no more than is out. */
  lemma {:induction false} NeverClamped(s: State, max: Pair, i: nat)
    requires Balanced(s, max) && i < |s.evals|
    ensures s.evals[i].phase.Returning? ==> s.evals[i].phase.give.red <= s.used.red
    ensures s.evals[i].phase.ReturningAlloc? ==> s.evals[i].phase.rest <= s.used.bytes
  {
    Facts(s, max, i);
  }

  function Run(s: State, max: Pair, steps: seq<(nat, Action)>): Option<State>
    ensures Run(s, max, steps).Some? ==> |Run(s, max, steps).value.evals| == |s.evals|
    decreases |steps|
  {
    if steps == [] then Some(s)
    else match Run(s, max, steps[..|steps| - 1])
      case None => None
      case Some(t) =>
        var (i, a) := steps[|steps| - 1];
        if i < |t.evals| then Next(t, max, i, a) else None
  }

  lemma {:induction false} InitialBalanced(n: nat, max: Pair)
    ensures Balanced(Initial(n), max)
  {
    hide HeldAll, Held;
    var e := Evaluation(ZERO, ZERO, Running);
    assert Held(e) == ZERO by { Fresh(); }
    var evals := Initial(n).evals;
    assert forall i :: 0 <= i < |evals| ==> evals[i] == e;
    NothingHeld(evals);
  }

  lemma {:induction false} Fresh()
    ensures Held(Evaluation(ZERO, ZERO, Running)) == ZERO
  {
  }

  predicate Unused(evals: seq<Evaluation>) {
    forall e :: e in evals ==> Held(e) == ZERO
  }

  lemma {:induction false} NothingHeld(evals: seq<Evaluation>)
    requires Unused(evals)
    ensures HeldAll(evals) == ZERO
  {
    hide Held, HeldAll, Unused;
    HeldStep(evals);
    if evals != [] {
      RestUnused(evals);
      NothingHeld(evals[1..]);
    }
  }

  lemma {:induction false} RestUnused(evals: seq<Evaluation>)
    requires evals != [] && Unused(evals)
    ensures Held(evals[0]) == ZERO && Unused(evals[1..])
  {
    hide Held;
    assert evals[0] in evals;
  }

  lemma {:induction false} HeldStep(evals: seq<Evaluation>)
    ensures HeldAll(evals) == if evals == [] then ZERO else Plus(Held(evals[0]), HeldAll(evals[1..]))
  {
    hide Held;
  }

  /** In every interleaving the used amount is what the evaluations spent and still hold, and
      never passes the maximum. */
  lemma {:induction false} AlwaysBalanced(n: nat, max: Pair, steps: seq<(nat, Action)>)
    requires Run(Initial(n), max, steps).Some?
    ensures Balanced(Run(Initial(n), max, steps).value, max)
    decreases |steps|
  {
    hide Balanced, Next;
    if steps == [] {
      InitialBalanced(n, max);
    } else {
      AlwaysBalanced(n, max, steps[..|steps| - 1]);
      var (i, a) := steps[|steps| - 1];
      StepBalanced(Run(Initial(n), max, steps[..|steps| - 1]).value, max, i, a);
    }
  }

  ghost predicate Finished(evals: seq<Evaluation>) {
    forall i :: 0 <= i < |evals| ==> evals[i].phase.Running? && evals[i].leased == ZERO
  }

  lemma {:induction false} FinishedHolds(evals: seq<Evaluation>)
    requires Finished(evals)
    ensures HeldAll(evals) == Consumed(evals)
  {
    if evals != [] { FinishedHolds(evals[1..]); }
  }

  /** Once every evaluation has finished, the meter shows what was spent and nothing else. */
  lemma {:induction false} AtRest(n: nat, max: Pair, steps: seq<(nat, Action)>)
    requires Run(Initial(n), max, steps).Some?
    requires Finished(Run(Initial(n), max, steps).value.evals)
    ensures var s := Run(Initial(n), max, steps).value;
      s.used == Consumed(s.evals) && AtMost(Consumed(s.evals), Tops(max))
  {
    AlwaysBalanced(n, max, steps);
    FinishedHolds(Run(Initial(n), max, steps).value.evals);
  }

  // ---- what is not disturbed happens ----

  lemma {:induction false} RunOn(s: State, max: Pair, steps: seq<(nat, Action)>, t: State, i: nat, a: Action)
    requires Run(s, max, steps) == Some(t) && i < |t.evals|
    ensures Run(s, max, steps + [(i, a)]) == Next(t, max, i, a)
  {
    hide Next;
    assert (steps + [(i, a)])[..|steps|] == steps;
  }

  /** What is left of one kind, no more than is asked for. */
  function Share(used: int, max: int, asked: int, most: int): int {
    Max(Min(Min(asked, most), Top(max) - used), 0)
  }

  /** A lease nothing disturbs grants of each kind what is asked for, a whole lease at most, as far
      as it is left; unless nothing is left of a kind that is asked for. */
  lemma {:induction false} LeasesWhatIsLeft(s: State, max: Pair, i: nat, red: int, bytes: int)
    requires Balanced(s, max) && i < |s.evals| && s.evals[i].phase.Running? && (red > 0 || bytes > 0)
    requires red > 0 ==> s.used.red < Top(max.red)
    requires bytes > 0 ==> s.used.bytes < Top(max.bytes)
    ensures var e := s.evals[i];
      var grant := Pair(Share(s.used.red, max.red, red, REDUCTION_LEASE),
        Share(s.used.bytes, max.bytes, bytes, ALLOC_LEASE));
      Run(s, max, [(i, Lease(red, bytes))] + [(i, Continue)] + [(i, Continue)] + [(i, Continue)]) ==
        Some(Put(s, i, Plus(s.used, grant), e.(leased := Plus(e.leased, grant))))
  {
    hide Balanced, Run;
    var e, l, k := s.evals[i], (i, Lease(red, bytes)), (i, Continue);
    var request := Pair(Min(Max(red, 0), REDUCTION_LEASE), Min(Max(bytes, 0), ALLOC_LEASE));
    var got := Grant(s.used.red, max.red, request.red);
    var gotBytes := Grant(s.used.bytes, max.bytes, request.bytes);
    Facts(s, max, i);
    var s1 := Put(s, i, s.used, e.(phase := Leasing(request)));
    var s2 := Put(s1, i, s.used.(red := s.used.red + got), e.(phase := LeasedRed(request, got)));
    var answer := Answered(request, Pair(got, gotBytes));
    var s3 := Put(s2, i, s2.used.(bytes := s.used.bytes + gotBytes), e.(phase := answer));
    NoSteps(s, max);
    RunOn(s, max, [], s, i, Lease(red, bytes));
    assert [] + [l] == [l];
    RunOn(s, max, [l], s1, i, Continue);
    RunOn(s, max, [l] + [k], s2, i, Continue);
    RunOn(s, max, [l] + [k] + [k], s3, i, Continue);
    var grant := Pair(got, gotBytes);
    assert !Denied(request, grant);
    var last := e.(leased := Plus(e.leased, grant), phase := Running);
    assert s3.evals[i := last] == s.evals[i := last];
  }

  /** A running evaluation can spend any part of its lease, to the last of it, and what it returns
      at its end is the rest. */
  lemma {:induction false} SpendsLease(s: State, max: Pair, i: nat, red: int, bytes: int)
    requires Balanced(s, max) && i < |s.evals| && s.evals[i].phase.Running?
    requires 0 <= red <= s.evals[i].leased.red && 0 <= bytes <= s.evals[i].leased.bytes
    ensures var e := s.evals[i];
      var rest := Pair(e.leased.red - red, e.leased.bytes - bytes);
      Run(s, max, [(i, Consume(red, bytes))] + [(i, Finish)] + [(i, Continue)] + [(i, Continue)]) ==
        Some(Put(s, i, Pair(s.used.red - rest.red, s.used.bytes - rest.bytes),
          Evaluation(Plus(e.consumed, Pair(red, bytes)), ZERO, Running)))
  {
    hide Balanced, Run, Next;
    Facts(s, max, i);
    var e, c, f, k := s.evals[i], (i, Consume(red, bytes)), (i, Finish), (i, Continue);
    var rest, spent := Pair(e.leased.red - red, e.leased.bytes - bytes), Plus(e.consumed, Pair(red, bytes));
    var s1 := Put(s, i, s.used, Evaluation(spent, rest, Running));
    var s2 := Put(s1, i, s.used, Evaluation(spent, ZERO, Returning(rest)));
    var s3 := Put(s2, i, s.used.(red := GiveBack(s.used.red, rest.red)),
      Evaluation(spent, ZERO, ReturningAlloc(rest.bytes)));
    Spends(s, max, i, red, bytes);
    Finishes(s1, max, i);
    Returns(s2, max, i);
    ReturnsAlloc(s3, max, i);
    NoSteps(s, max);
    RunOn(s, max, [], s, i, Consume(red, bytes));
    assert [] + [c] == [c];
    RunOn(s, max, [c], s1, i, Finish);
    RunOn(s, max, [c] + [f], s2, i, Continue);
    RunOn(s, max, [c] + [f] + [k], s3, i, Continue);
    var last := Evaluation(spent, ZERO, Running);
    assert s3.evals[i := last] == s.evals[i := last];
  }

  lemma {:induction false} Spends(s: State, max: Pair, i: nat, red: int, bytes: int)
    requires i < |s.evals| && s.evals[i].phase.Running?
    requires 0 <= red <= s.evals[i].leased.red && 0 <= bytes <= s.evals[i].leased.bytes
    ensures var e := s.evals[i];
      Next(s, max, i, Consume(red, bytes)) == Some(Put(s, i, s.used, Evaluation(Plus(e.consumed, Pair(red, bytes)),
        Pair(e.leased.red - red, e.leased.bytes - bytes), Running)))
  {
    hide Grant, GiveBack, Denied;
  }

  lemma {:induction false} Finishes(s: State, max: Pair, i: nat)
    requires i < |s.evals| && s.evals[i].phase.Running?
    ensures var e := s.evals[i];
      Next(s, max, i, Finish) == Some(Put(s, i, s.used, Evaluation(e.consumed, ZERO, Returning(e.leased))))
  {
    hide Grant, GiveBack, Denied;
  }

  lemma {:induction false} Returns(s: State, max: Pair, i: nat)
    requires i < |s.evals| && s.evals[i].phase.Returning?
    ensures var e := s.evals[i];
      Next(s, max, i, Continue) == Some(Put(s, i, s.used.(red := GiveBack(s.used.red, e.phase.give.red)),
        e.(phase := ReturningAlloc(e.phase.give.bytes))))
  {
    hide Grant, GiveBack, Denied;
  }

  lemma {:induction false} ReturnsAlloc(s: State, max: Pair, i: nat)
    requires i < |s.evals| && s.evals[i].phase.ReturningAlloc?
    ensures var e := s.evals[i];
      Next(s, max, i, Continue) ==
        Some(Put(s, i, s.used.(bytes := GiveBack(s.used.bytes, e.phase.rest)), e.(phase := Running)))
  {
    hide Grant, GiveBack, Denied;
  }

  lemma {:induction false} NoSteps(s: State, max: Pair)
    ensures Run(s, max, []) == Some(s)
  {
  }

  // ---- one evaluation against the meter ----

  class Meter {
    const max: Pair
    var used: Pair

    constructor (max: Pair)
      ensures this.max == max && used == ZERO
    {
      this.max, used := max, ZERO;
    }

    ghost predicate Valid()
      reads this
    {
      AtMost(ZERO, used) && AtMost(used, Tops(max))
    }

    method LeaseEval(request: Pair) returns (grant: Pair, ok: bool)
      requires Valid()
      modifies this
      ensures Valid() && used == Plus(old(used), grant) && AtMost(ZERO, grant)
      ensures grant.red == Max(Min(request.red, Top(max.red) - old(used).red), 0)
      ensures grant.bytes == Max(Min(request.bytes, Top(max.bytes) - old(used).bytes), 0)
      ensures ok <==> !Denied(request, grant)
    {
      var red := Grant(used.red, max.red, request.red);
      used := used.(red := used.red + red);
      var bytes := Grant(used.bytes, max.bytes, request.bytes);
      used := used.(bytes := used.bytes + bytes);
      return Pair(red, bytes), !Denied(request, Pair(red, bytes));
    }

    method ReturnEval(give: Pair)
      requires Valid()
      modifies this
      ensures Valid()
      ensures AtMost(ZERO, give) && AtMost(give, old(used)) ==> Plus(used, give) == old(used)
    {
      used := used.(red := GiveBack(used.red, give.red));
      used := used.(bytes := GiveBack(used.bytes, give.bytes));
    }
  }

  class EvalState {
    const meter: Meter
    var leased: Pair

    constructor (meter: Meter)
      ensures this.meter == meter && leased == ZERO
    {
      this.meter, leased := meter, ZERO;
    }

    ghost predicate Valid()
      reads this, meter
    {
      meter.Valid() && AtMost(ZERO, leased) && AtMost(leased, meter.used)
    }

    /** What this evaluation has spent or lost to others: it changes only by spending. */
    ghost function Spent(): Pair
      reads this, meter
    {
      Pair(meter.used.red - leased.red, meter.used.bytes - leased.bytes)
    }

    /** A refused lease leaves both counters as they were. */
    method LeaseEval(red: int, bytes: int) returns (ok: bool)
      requires Valid()
      modifies this, meter
      ensures Valid() && Spent() == old(Spent())
      ensures !ok ==> leased == old(leased)
      ensures var r, a := Min(Max(red, 0), REDUCTION_LEASE), Min(Max(bytes, 0), ALLOC_LEASE);
        && (ok <==>
             && (r > 0 ==> old(meter.used).red < Top(meter.max.red))
             && (a > 0 ==> old(meter.used).bytes < Top(meter.max.bytes)))
        && var red, bytes := Top(meter.max.red) - old(meter.used).red, Top(meter.max.bytes) - old(meter.used).bytes;
        && (ok ==> leased == Plus(old(leased), Pair(Min(r, red), Min(a, bytes))))
    {
      var request := Pair(Min(Max(red, 0), REDUCTION_LEASE), Min(Max(bytes, 0), ALLOC_LEASE));
      if request == ZERO { return true; }
      var grant, granted := meter.LeaseEval(request);
      if !granted {
        if grant != ZERO { meter.ReturnEval(grant); }
        return false;
      }
      leased := Plus(leased, grant);
      return true;
    }

    /** Spends n reductions, leasing as it goes: it succeeds exactly when the lease and the
        meter together hold n, and when it fails it has used up both. */
    method ConsumeReductions(n: int) returns (ok: bool)
      requires Valid()
      modifies this, meter
      ensures Valid()
      ensures var room := old(leased.red) + Top(meter.max.red) - old(meter.used.red);
        && (ok <==> n <= room)
        && Spent() == Plus(old(Spent()), Pair(Max(Min(n, room), 0), 0))
        && leased.red == Max(old(leased.red) - Max(n, 0), 0)
        && leased.bytes == old(leased.bytes)
    {
      var left := n;
      ghost var start, spent := leased, Spent();
      while left > 0
        invariant Valid() && left <= n
        invariant Spent() == Plus(spent, Pair(Max(n, 0) - Max(left, 0), 0))
        invariant leased == Pair(Max(start.red - (Max(n, 0) - Max(left, 0)), 0), start.bytes)
        decreases left
      {
        if leased.red == 0 {
          var got := LeaseEval(Min(left, REDUCTION_LEASE), 0);
          if !got { return false; }
        }
        if leased.red <= 0 { return false; }
        var used := Min(left, leased.red);
        leased := leased.(red := leased.red - used);
        left := left - used;
      }
      return true;
    }

    /** Ends the evaluation: what was leased and not spent goes back. */
    method ReturnLease()
      requires Valid()
      modifies this, meter
      ensures Valid() && leased == ZERO && meter.used == old(Spent()) && Spent() == old(Spent())
    {
      var give := leased;
      leased := ZERO;
      meter.ReturnEval(give);
    }
  }
}
