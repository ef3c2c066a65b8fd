/** One frame of the stack machine, as a function from state to state. The value stack of the
    running frame is split at base + locals: the reserved slots below, the operands above. */
module Machine {
  import opened Forms

  datatype Operand = Local(slot: nat) | Lit(v: Value)

  /** A decoded instruction: pool indices are replaced by what they index. Jump offsets are
      relative to the next instruction; loop and handler targets are absolute. */
  datatype Instr =
    | PushNil | PushTrue | PushFalse
    | Push(v: Value)
    | GetLocal(slot: nat)
    | SetLocal(slot: nat)
    | GetGlobal(name: string)
    | GetFunc(name: string)
    | CheckLexical(name: string)
    | SetLexical(name: string)
    | Pop | Dup
    | Jump(off: nat)
    | JumpIfFalse(off: nat)
    | LoopTo(addr: nat)
    | SetupTry(addr: nat)
    | PopTry
    | Raise
    | Invoke(argc: nat)
    | Freeze(name: string, func: bool)
    | Native(op: NativeOp, argc: nat)
    | Fused(op: NativeOp, name: string, func: bool, a: Operand, b: Operand)
    | Return

  /** An active try: where to go, and how much operand and freeze stack to keep. */
  datatype Handler = Handler(addr: nat, ops: nat, freeze: nat)

  /** A pending native-op head: the operand depth its arguments start at, the opcode it may
      run natively, and the value the head had. */
  datatype FreezeRec = FreezeRec(depth: nat, op: Option<NativeOp>, val: Value)

  datatype State = State(
    ip: nat, slots: seq<Value>, ops: seq<Value>,
    handlers: seq<Handler>, freeze: seq<FreezeRec>, g: Globals)

  /** Where a run stands: in the frame, out of it by an uncaught throw or a return, or off the
      rails (a malformed chunk). */
  datatype Run =
    | At(s: State)
    | Uncaught(w: Value, slots: seq<Value>, g: Globals)
    | Done(v: Value, g: Globals)
    | Bad

  /** Unwinds to the innermost handler and leaves w on its operand stack. */
  function ThrowTo(s: State, w: Value): Run {
    if s.handlers == [] then Uncaught(w, s.slots, s.g)
    else
      var n := |s.handlers| - 1;
      var h := s.handlers[n];
      if h.ops > |s.ops| || h.freeze > |s.freeze| then Bad
      else At(s.(ip := h.addr, ops := s.ops[..h.ops] + [w], handlers := s.handlers[..n],
          freeze := s.freeze[..h.freeze]))
  }

  /** No handler keeps more than the stacks hold. */
  predicate HandlersOk(s: State) {
    forall i :: 0 <= i < |s.handlers| ==> s.handlers[i].ops <= |s.ops| && s.handlers[i].freeze <= |s.freeze|
  }

  function Resolve(g: Globals, name: string, func: bool): Option<Binding> {
    var m := if func then g.funcs else g.vars;
    if name in m then Some(m[name]) else None
  }

  /** The opcode a resolved head may run natively. */
  function FrozenOp(b: Binding, name: string): Option<NativeOp> {
    if b.canonical then NativeOf(name) else None
  }

  function Advance(s: State, ops: seq<Value>): Run {
    At(s.(ip := s.ip + 1, ops := ops))
  }

  /** The result of a call goes on top of what lay below it; an error is thrown to a handler
      that keeps no more than that. */
  function Deliver(s: State, keep: seq<Value>, o: Outcome): Run {
    match o
    case Ok(v) => Advance(s, keep + [v])
    case Err(w) => ThrowTo(s.(ops := keep), w)
  }

  function ReadOperand(s: State, a: Operand): Option<Value> {
    match a
    case Lit(v) => Some(v)
    case Local(i) => if i < |s.slots| then Some(s.slots[i]) else None
  }

  function Step(h: Host, prog: seq<Instr>, s: State): Run {
    if s.ip >= |prog| then Bad else Exec(h, s, prog[s.ip])
  }

  /** What one instruction does; every instruction first moves ip past itself. */
  function Exec(h: Host, s: State, i: Instr): Run {
    var n := |s.ops|;
    match i
    case PushNil => Advance(s, s.ops + [Nil])
    case PushTrue => Advance(s, s.ops + [Bool(true)])
    case PushFalse => Advance(s, s.ops + [Bool(false)])
    case Push(v) => Advance(s, s.ops + [v])
    case GetLocal(i) => if i < |s.slots| then Advance(s, s.ops + [s.slots[i]]) else Bad
    case SetLocal(i) =>
      if i < |s.slots| && n > 0 then At(s.(ip := s.ip + 1, slots := s.slots[i := s.ops[n - 1]])) else Bad
    case GetGlobal(x) =>
      (match Resolve(s.g, x, false)
       case Some(b) => Advance(s, s.ops + [b.v])
       case None => ThrowTo(s, UndefinedError(x)))
    case GetFunc(x) =>
      (match Resolve(s.g, x, true)
       case Some(b) => Advance(s, s.ops + [b.v])
       case None => ThrowTo(s, UndefinedError(x)))
    case CheckLexical(x) => if x in s.g.vars then Advance(s, s.ops) else ThrowTo(s, AssignError(x))
    case SetLexical(x) =>
      if n == 0 then Bad
      else if x !in s.g.vars then ThrowTo(s, AssignError(x))
      else At(s.(ip := s.ip + 1, g := s.g.(vars := s.g.vars[x := Binding(s.ops[n - 1], false)])))
    case Pop => if n > 0 then Advance(s, s.ops[..n - 1]) else Bad
    case Dup => if n > 0 then Advance(s, s.ops + [s.ops[n - 1]]) else Bad
    case Jump(off) => At(s.(ip := s.ip + 1 + off))
    case JumpIfFalse(off) =>
      if n == 0 then Bad
      else At(s.(ip := s.ip + 1 + (if Truthy(s.ops[n - 1]) then 0 else off), ops := s.ops[..n - 1]))
    case LoopTo(addr) => At(s.(ip := addr))
    case SetupTry(addr) =>
      At(s.(ip := s.ip + 1, handlers := s.handlers + [Handler(addr, n, |s.freeze|)]))
    case PopTry =>
      At(s.(ip := s.ip + 1, handlers := if s.handlers == [] then [] else s.handlers[..|s.handlers| - 1]))
    case Raise => if n > 0 then ThrowTo(s.(ops := s.ops[..n - 1]), s.ops[n - 1]) else Bad
    case Invoke(argc) =>
      if n < argc + 1 then Bad
      else Deliver(s, s.ops[..n - argc - 1], h.apply(s.ops[n - argc - 1], s.ops[n - argc..]))
    case Freeze(x, func) =>
      (match Resolve(s.g, x, func)
       case Some(b) => At(s.(ip := s.ip + 1, freeze := s.freeze + [FreezeRec(n, FrozenOp(b, x), b.v)]))
       case None => ThrowTo(s, UndefinedError(x)))
    case Native(op, argc) => StepNative(h, s, op, argc)
    case Fused(op, x, func, a, b) => StepFused(h, s, op, x, func, a, b)
    case Return => if n > 0 then Done(s.ops[n - 1], s.g) else Bad
  }

  /** A native op whose freeze record sits at its argument base: the opcode itself when the head
      was canonical, otherwise a call of the head's value. */
  function StepNative(h: Host, s: State, op: NativeOp, argc: nat): Run {
    var n, m := |s.ops|, |s.freeze|;
    if n < argc || m == 0 || s.freeze[m - 1].depth != n - argc then Bad
    else
      var rec := s.freeze[m - 1];
      var s1 := s.(freeze := s.freeze[..m - 1]);
      var args := s.ops[n - argc..];
      Deliver(s1, s.ops[..n - argc], if rec.op == Some(op) then h.native(op, args) else h.apply(rec.val, args))
  }

  /** Freeze, operand, operand and native op in one instruction. */
  function StepFused(h: Host, s: State, op: NativeOp, x: string, func: bool, a: Operand, b: Operand): Run {
    match Resolve(s.g, x, func)
    case None => ThrowTo(s, UndefinedError(x))
    case Some(f) =>
      var va, vb := ReadOperand(s, a), ReadOperand(s, b);
      if va.None? || vb.None? then Bad
      else
        var args := [va.value, vb.value];
        Deliver(s, s.ops, if f.canonical then h.native(op, args) else h.apply(f.v, args))
  }

  function RunN(h: Host, prog: seq<Instr>, s: State, n: nat): Run
    decreases n
  {
    if n == 0 then At(s)
    else
      match Step(h, prog, s)
      case At(s1) => RunN(h, prog, s1, n - 1)
      case r => r
  }

  lemma {:induction false} RunAppend(h: Host, prog: seq<Instr>, s: State, a: nat, t: State, b: nat)
    requires RunN(h, prog, s, a) == At(t)
    ensures RunN(h, prog, s, a + b) == RunN(h, prog, t, b)
    decreases a
  {
    hide Step;
    if a != 0 {
      RunAppend(h, prog, Step(h, prog, s).s, a - 1, t, b);
    }
  }

  /** The code of a form, placed at pc. */
  predicate CodeAt(prog: seq<Instr>, pc: nat, code: seq<Instr>) {
    pc + |code| <= |prog| && prog[pc..pc + |code|] == code
  }

  lemma {:induction false} Split(prog: seq<Instr>, pc: nat, a: seq<Instr>, b: seq<Instr>)
    requires CodeAt(prog, pc, a + b)
    ensures CodeAt(prog, pc, a) && CodeAt(prog, pc + |a|, b)
  {
    assert prog[pc..pc + |a|] == prog[pc..pc + |a + b|][..|a|];
    assert prog[pc + |a|..pc + |a| + |b|] == prog[pc..pc + |a + b|][|a|..];
  }

  lemma {:induction false} RunOne(h: Host, prog: seq<Instr>, s: State, i: Instr)
    requires CodeAt(prog, s.ip, [i])
    ensures RunN(h, prog, s, 1) == Exec(h, s, i)
  {
    assert prog[s.ip] == prog[s.ip..s.ip + 1][0];
    var r := Step(h, prog, s);
    assert RunN(h, prog, s, 1) == if r.At? then RunN(h, prog, r.s, 0) else r;
  }

  /** A run of a steps to t, then of b steps more. */
  lemma {:induction false} Chain(h: Host, prog: seq<Instr>, s: State, a: nat, t: State, b: nat, r: Run)
    requires RunN(h, prog, s, a) == At(t)
    requires RunN(h, prog, t, b) == r
    ensures RunN(h, prog, s, a + b) == r
  {
    RunAppend(h, prog, s, a, t, b);
  }
}
