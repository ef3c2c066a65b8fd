/** One fused instruction against the four it stands for. */
module Fusion {
  import opened Forms
  import opened Machine
  import CodeGen

  /** The instruction that pushes an operand. */
  function Load(a: Operand): Instr {
    match a
    case Lit(v) => CodeGen.GenConst(v)
    case Local(i) => GetLocal(i)
  }

  /** Freeze the operator, push both operands, run the native op. */
  function Unfused(op: NativeOp, x: string, func: bool, a: Operand, b: Operand): seq<Instr> {
    [Freeze(x, func), Load(a), Load(b), Native(op, 2)]
  }

  /** The same place in two programs: the end of either form, or the same handler. */
  ghost predicate SameResult(r: Run, rEnd: nat, q: Run, qEnd: nat) {
    if r.At? && r.s.ip == rEnd && q.At? && q.s.ip == qEnd then r.s.(ip := 0) == q.s.(ip := 0)
    else r == q
  }

  lemma {:induction false} ThrowsAlike(s: State, t: State, w: Value)
    requires HandlersOk(s) && s.handlers == t.handlers && s.slots == t.slots && s.g == t.g
    requires s.ops <= t.ops && s.freeze <= t.freeze
    ensures ThrowTo(t, w) == ThrowTo(s.(ip := t.ip), w) == ThrowTo(s, w)
  {
    if s.handlers != [] {
      var h := s.handlers[|s.handlers| - 1];
      assert t.ops[..h.ops] == s.ops[..h.ops] && t.freeze[..h.freeze] == s.freeze[..h.freeze];
    }
  }

  /** The state after the operator is frozen and both operands are pushed. */
  function Loaded(s: State, rec: FreezeRec, va: Value, vb: Value): State {
    s.(ip := s.ip + 3, ops := s.ops + [va, vb], freeze := s.freeze + [rec])
  }

  lemma {:induction false} LoadRuns(h: Host, s: State, a: Operand)
    ensures Exec(h, s, Load(a)) == match ReadOperand(s, a)
      case Some(v) => At(s.(ip := s.ip + 1, ops := s.ops + [v]))
      case None => Bad
  {
  }

  /** Three steps to the native op, or the way out. */
  lemma {:induction false} Reaches(h: Host, prog: seq<Instr>, s: State, op: NativeOp, x: string, func: bool, a: Operand,
      b: Operand)
    requires CodeAt(prog, s.ip, Unfused(op, x, func, a, b))
    ensures match Resolve(s.g, x, func)
      case None => RunN(h, prog, s, 1) == ThrowTo(s, UndefinedError(x))
      case Some(f) =>
        var va, vb := ReadOperand(s, a), ReadOperand(s, b);
        if va.None? then RunN(h, prog, s, 2) == Bad
        else if vb.None? then RunN(h, prog, s, 3) == Bad
        else RunN(h, prog, s, 3) == At(Loaded(s, FreezeRec(|s.ops|, FrozenOp(f, x), f.v), va.value, vb.value))
  {
    hide FrozenOp, Resolve, ThrowTo;
    At4(prog, s.ip, Freeze(x, func), Load(a), Load(b), Native(op, 2));
    RunOne(h, prog, s, Freeze(x, func));
    match Resolve(s.g, x, func) {
      case None =>
      case Some(f) =>
        var s1 := s.(ip := s.ip + 1, freeze := s.freeze + [FreezeRec(|s.ops|, FrozenOp(f, x), f.v)]);
        RunOne(h, prog, s1, Load(a));
        LoadRuns(h, s1, a);
        Chain(h, prog, s, 1, s1, 1, RunN(h, prog, s1, 1));
        if ReadOperand(s, a).Some? {
          var s2 := s1.(ip := s1.ip + 1, ops := s1.ops + [ReadOperand(s, a).value]);
          RunOne(h, prog, s2, Load(b));
          LoadRuns(h, s2, b);
          Chain(h, prog, s, 2, s2, 1, RunN(h, prog, s2, 1));
          if ReadOperand(s, b).Some? {
            assert s2.ops + [ReadOperand(s, b).value] == s.ops + [ReadOperand(s, a).value, ReadOperand(s, b).value];
          }
        }
    }
  }

  lemma {:induction false} At4(prog: seq<Instr>, pc: nat, a: Instr, b: Instr, c: Instr, d: Instr)
    requires CodeAt(prog, pc, [a, b, c, d])
    ensures CodeAt(prog, pc, [a]) && CodeAt(prog, pc + 1, [b]) && CodeAt(prog, pc + 2, [c]) && CodeAt(prog, pc + 3, [d])
  {
    assert [a, b, c, d] == [a] + ([b] + ([c] + [d]));
    Split(prog, pc, [a], [b] + ([c] + [d]));
    Split(prog, pc + 1, [b], [c] + [d]);
    Split(prog, pc + 2, [c], [d]);
  }

  /** What the native op does with what the freeze recorded. */
  lemma {:induction false} NativeFinishes(h: Host, s: State, rec: FreezeRec, va: Value, vb: Value, op: NativeOp)
    requires rec.depth == |s.ops|
    ensures var t := Loaded(s, rec, va, vb);
      var args := [va, vb];
      StepNative(h, t, op, 2) == Deliver(t.(freeze := s.freeze), s.ops, if rec.op == Some(op) then h.native(op, args)
          else h.apply(rec.val, args))
  {
    hide Deliver;
    var t := Loaded(s, rec, va, vb);
    assert t.ops[|t.ops| - 2..] == [va, vb] && t.ops[..|t.ops| - 2] == s.ops && t.freeze[..|t.freeze| - 1] == s.freeze;
  }

  /** Some number of steps through the four instructions ends where the fused one does. */
  ghost predicate Agrees(h: Host, prog: seq<Instr>, s: State, op: NativeOp, x: string, func: bool, a: Operand,
      b: Operand, at: nat) {
    exists n ::
      && 0 < n <= 4
      && SameResult(RunN(h, prog, s, n), s.ip + 4, Exec(h, s.(ip := at), Fused(op, x, func, a, b)), at + 1)
  }

  /** From every state of the one-frame machine, whatever the operator is bound to and whatever the operands, the fused
      instruction and the four it replaces give the same value, call the same function with the
      same arguments, or fail alike. */
  lemma {:induction false} FusedIsUnfused(h: Host, prog: seq<Instr>, s: State, op: NativeOp, x: string, func: bool,
      a: Operand, b: Operand, at: nat)
    requires CodeAt(prog, s.ip, Unfused(op, x, func, a, b)) && HandlersOk(s) && NativeOf(x) == Some(op)
    ensures Agrees(h, prog, s, op, x, func, a, b, at)
  {
    hide Deliver, ThrowTo, NativeOf, StepNative, Exec, RunN, Unfused, CodeAt;
    Reaches(h, prog, s, op, x, func, a, b);
    FusedSteps(h, s.(ip := at), op, x, func, a, b);
    var fused := Exec(h, s.(ip := at), Fused(op, x, func, a, b));
    var r := Resolve(s.g, x, func);
    if r.None? {
      ThrowsAlike(s, s.(ip := at), UndefinedError(x));
      Same(fused, s.ip + 4, at + 1);
      assert SameResult(RunN(h, prog, s, 1), s.ip + 4, fused, at + 1);
    } else if ReadOperand(s, a).None? {
      assert SameResult(RunN(h, prog, s, 2), s.ip + 4, fused, at + 1);
    } else if ReadOperand(s, b).None? {
      assert SameResult(RunN(h, prog, s, 3), s.ip + 4, fused, at + 1);
    } else {
      FusedFinishes(h, prog, s, op, x, func, a, b, at);
      assert SameResult(RunN(h, prog, s, 4), s.ip + 4, fused, at + 1);
    }
  }

  lemma {:induction false} FusedSteps(h: Host, s: State, op: NativeOp, x: string, func: bool, a: Operand, b: Operand)
    ensures Exec(h, s, Fused(op, x, func, a, b)) == StepFused(h, s, op, x, func, a, b)
  {
  }

  lemma {:induction false} NativeSteps(h: Host, s: State, op: NativeOp)
    ensures Exec(h, s, Native(op, 2)) == StepNative(h, s, op, 2)
  {
  }

  /** With both operands there, four steps and one deliver the same outcome. */
  lemma {:induction false} FusedFinishes(h: Host, prog: seq<Instr>, s: State, op: NativeOp, x: string, func: bool,
      a: Operand, b: Operand, at: nat)
    requires CodeAt(prog, s.ip, Unfused(op, x, func, a, b)) && HandlersOk(s) && NativeOf(x) == Some(op)
    requires Resolve(s.g, x, func).Some? && ReadOperand(s, a).Some? && ReadOperand(s, b).Some?
    ensures SameResult(RunN(h, prog, s, 4), s.ip + 4, StepFused(h, s.(ip := at), op, x, func, a, b), at + 1)
  {
    hide Deliver, ThrowTo, NativeOf, StepNative, Exec, RunN, HandlersOk, Resolve, SameResult;
    Reaches(h, prog, s, op, x, func, a, b);
    var r := Resolve(s.g, x, func).value;
    var va, vb := ReadOperand(s, a).value, ReadOperand(s, b).value;
    var rec := FreezeRec(|s.ops|, FrozenOp(r, x), r.v);
    var t := Loaded(s, rec, va, vb);
    At4(prog, s.ip, Freeze(x, func), Load(a), Load(b), Native(op, 2));
    RunOne(h, prog, t, Native(op, 2));
    NativeSteps(h, t, op);
    Chain(h, prog, s, 3, t, 1, RunN(h, prog, t, 1));
    NativeFinishes(h, s, rec, va, vb, op);
    DeliversAlike(s, t.(freeze := s.freeze), at,
        if r.canonical then h.native(op, [va, vb]) else h.apply(r.v, [va, vb]));
  }

  /** The same run reads the same from either program. */
  lemma {:induction false} Same(r: Run, rEnd: nat, qEnd: nat)
    ensures SameResult(r, rEnd, r, qEnd)
  {
  }

  lemma {:induction false} DeliversAlike(s: State, t: State, at: nat, o: Outcome)
    requires HandlersOk(s) && t.ip == s.ip + 3 && s.handlers == t.handlers && s.slots == t.slots && s.g == t.g
    requires s.ops <= t.ops && s.freeze == t.freeze
    ensures SameResult(Deliver(t, s.ops, o), s.ip + 4, Deliver(s.(ip := at), s.ops, o), at + 1)
  {
    if o.Err? {
      ThrowsAlike(s, t.(ops := s.ops), o.w);
      ThrowsAlike(s, s.(ip := at), o.w);
      Same(ThrowTo(s, o.w), s.ip + 4, at + 1);
    }
  }

  ghost predicate AlwaysAgrees(op: NativeOp, x: string) {
    forall h: Host, prog: seq<Instr>, s: State, func: bool, a: Operand, b: Operand, at: nat ::
      CodeAt(prog, s.ip, Unfused(op, x, func, a, b)) && HandlersOk(s) ==> Agrees(h, prog, s, op, x, func, a, b, at)
  }

  /** A fused instruction may carry an opcode for a name exactly when the name is that opcode's
      operator: otherwise a canonical binding runs the opcode fused and is called unfused. */
  lemma {:induction false} FusesExactly(op: NativeOp, x: string)
    ensures AlwaysAgrees(op, x) <==> NativeOf(x) == Some(op)
  {
    hide Agrees, Unfused, NativeOf, HandlersOk;
    if NativeOf(x) == Some(op) {
      forall h: Host, prog: seq<Instr>, s: State, func: bool, a: Operand, b: Operand,
          at: nat | CodeAt(prog, s.ip, Unfused(op, x, func, a, b)) && HandlersOk(s)
        ensures Agrees(h, prog, s, op, x, func, a, b, at)
      {
        FusedIsUnfused(h, prog, s, op, x, func, a, b, at);
      }
    } else {
      Differs(op, x);
    }
  }

  lemma {:induction false} Differs(op: NativeOp, x: string)
    requires NativeOf(x) != Some(op)
    ensures !AlwaysAgrees(op, x)
  {
    hide NativeOf, Agrees;
    var h := Host((f, args) => Ok(Nil), (o, args) => Ok(Bool(true)));
    var s := State(0, [], [], [], [], Globals(map[x := Binding(Nil, true)], map[]));
    var prog := Unfused(op, x, false, Lit(Nil), Lit(Nil));
    assert prog[0..4] == prog;
    Disagrees(h, prog, s, op, x);
    assert CodeAt(prog, s.ip, Unfused(op, x, false, Lit(Nil), Lit(Nil))) && HandlersOk(s);
    assert !Agrees(h, prog, s, op, x, false, Lit(Nil), Lit(Nil), 10);
  }

  lemma {:induction false} Disagrees(h: Host, prog: seq<Instr>, s: State, op: NativeOp, x: string)
    requires NativeOf(x) != Some(op)
    requires forall f, args :: h.apply(f, args) == Ok(Nil)
    requires forall o, args :: h.native(o, args) == Ok(Bool(true))
    requires s == State(0, [], [], [], [], Globals(map[x := Binding(Nil, true)], map[]))
    requires prog == Unfused(op, x, false, Lit(Nil), Lit(Nil)) && prog[0..4] == prog
    ensures !Agrees(h, prog, s, op, x, false, Lit(Nil), Lit(Nil), 10)
  {
    hide NativeOf, Exec, RunN, StepNative, Deliver;
    Reaches(h, prog, s, op, x, false, Lit(Nil), Lit(Nil));
    var rec := FreezeRec(0, NativeOf(x), Nil);
    var t := Loaded(s, rec, Nil, Nil);
    At4(prog, 0, Freeze(x, false), PushNil, PushNil, Native(op, 2));
    Early(h, prog, s, op, x, rec);
    assert h.apply(rec.val, [Nil, Nil]) == Ok(Nil);
    NativeCalls(h, s, rec, op);
    RunOne(h, prog, t, Native(op, 2));
    Chain(h, prog, s, 3, t, 1, At(s.(ip := 4, ops := [Nil])));
    FusedComputes(h, s, op, x);
    var fused := Exec(h, s.(ip := 10), Fused(op, x, false, Lit(Nil), Lit(Nil)));
    forall n | 0 < n <= 4 ensures !SameResult(RunN(h, prog, s, n), 4, fused, 11) {
      assert RunN(h, prog, s, n).At? && RunN(h, prog, s, n).s.ip == n;
    }
  }

  lemma {:induction false} NativeCalls(h: Host, s: State, rec: FreezeRec, op: NativeOp)
    requires s.ip == 0 && s.ops == [] && s.freeze == [] && rec.depth == 0 && rec.op != Some(op)
    requires h.apply(rec.val, [Nil, Nil]) == Ok(Nil)
    ensures Exec(h, Loaded(s, rec, Nil, Nil), Native(op, 2)) == At(s.(ip := 4, ops := [Nil]))
  {
    hide StepNative, Exec, ThrowTo;
    NativeSteps(h, Loaded(s, rec, Nil, Nil), op);
    NativeFinishes(h, s, rec, Nil, Nil, op);
  }

  lemma {:induction false} FusedComputes(h: Host, s: State, op: NativeOp, x: string)
    requires x in s.g.vars && s.g.vars[x].canonical && s.ops == []
    requires forall o, args :: h.native(o, args) == Ok(Bool(true))
    ensures Exec(h, s.(ip := 10), Fused(op, x, false, Lit(Nil), Lit(Nil))) == At(s.(ip := 11, ops := [Bool(true)]))
  {
  }

  /** Short of the native op the run is inside the four instructions. */
  lemma {:induction false} Early(h: Host, prog: seq<Instr>, s: State, op: NativeOp, x: string, rec: FreezeRec)
    requires s == State(0, [], [], [], [], Globals(map[x := Binding(Nil, true)], map[]))
    requires rec == FreezeRec(0, NativeOf(x), Nil)
    requires CodeAt(prog, 0, [Freeze(x, false)]) && CodeAt(prog, 1, [PushNil])
    ensures RunN(h, prog, s, 1).At? && RunN(h, prog, s, 1).s.ip == 1
    ensures RunN(h, prog, s, 2).At? && RunN(h, prog, s, 2).s.ip == 2
  {
    hide NativeOf, RunN;
    RunOne(h, prog, s, Freeze(x, false));
    var s1 := s.(ip := 1, freeze := [rec]);
    RunOne(h, prog, s1, PushNil);
    Chain(h, prog, s, 1, s1, 1, RunN(h, prog, s1, 1));
  }
}
