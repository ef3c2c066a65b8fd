/** A fused instruction against the four words it stands for, on the stack the machine really
    has, where a captured slot is boxed once it is bound. */
module BoxedFusion {
  import opened Forms
  import opened Machine
  import opened Bytecode
  import opened StackVM
  import opened Fusion

  /** The word that pushes an operand: through the slot's cell if the slot is captured. */
  function LoadWord(c: Chunk, a: FusedArg): Word
    requires ArgOk(a, |c.constants|, c.locals)
  {
    match a
    case SlotArg(i) => Word(if Marked(c.captured, i) then OpGetCell else OpGetLocal, i)
    case ConstArg(i) =>
      match c.constants[i]
      case Nil => Word(OpNil, 0)
      case Bool(b) => Word(if b then OpTrue else OpFalse, 0)
      case _ => Word(OpConst, i)
  }

  function UnfusedWords(c: Chunk, f: FusedOp): seq<Word>
    requires FusedOk(f, c.constants, c.locals)
  {
    [Word(if f.func then OpFreezeNativeFunc else OpFreezeNative, f.sym), LoadWord(c, f.a), LoadWord(c, f.b),
        Word(OpNative(f.op), 2)]
  }

  /** The operand is a captured slot that no box was bound to yet. */
  predicate Unbound(c: Chunk, stack: seq<Slot>, base: nat, a: FusedArg) {
    a.SlotArg? && Marked(c.captured, a.i) && base + a.i < |stack| && stack[base + a.i].Plain?
  }

  lemma {:induction false} LoadMeans(c: Chunk, a: FusedArg)
    requires ArgOk(a, |c.constants|, c.locals)
    ensures DecArg(c.constants, a).Some?
    ensures Decode(c.constants, c.fused, LoadWord(c, a)) == Some(Load(DecArg(c.constants, a).value))
    ensures Loads(LoadWord(c, a).op)
  {
  }

  /** The four words stand at ip. */
  predicate Placed(c: Chunk, f: FusedOp, ip: nat) {
    FusedOk(f, c.constants, c.locals) && ip + 4 <= |c.code| && c.code[ip..ip + 4] == UnfusedWords(c, f)
  }

  /** The four instructions alone, at their place. */
  function FourAt(c: Chunk, f: FusedOp, ip: nat): seq<Instr>
    requires FusedOk(f, c.constants, c.locals)
  {
    seq(ip, _ => Pop) + Unfused(f.op, c.constants[f.sym].name, f.func, DecArg(c.constants, f.a).value,
      DecArg(c.constants, f.b).value)
  }

  lemma {:induction false} FourMean(c: Chunk, f: FusedOp, ip: nat)
    requires Placed(c, f, ip)
    ensures c.code[ip].op == (if f.func then OpFreezeNativeFunc else OpFreezeNative)
    ensures c.code[ip + 1] == LoadWord(c, f.a) && c.code[ip + 2] == LoadWord(c, f.b)
    ensures c.code[ip + 3] == Word(OpNative(f.op), 2)
    ensures DecArg(c.constants, f.a).Some? && DecArg(c.constants, f.b).Some?
    ensures CodeAt(FourAt(c, f, ip), ip,
      Unfused(f.op, c.constants[f.sym].name, f.func, DecArg(c.constants, f.a).value, DecArg(c.constants, f.b).value))
    ensures |FourAt(c, f, ip)| == ip + 4
    ensures forall k :: ip <= k < ip + 4 ==> Decode(c.constants, c.fused, c.code[k]) == Some(FourAt(c, f, ip)[k])
  {
    hide DecArg, LoadWord, Load, Decode;
    var ws := c.code[ip..ip + 4];
    assert ws[0] == c.code[ip] && ws[1] == c.code[ip + 1] && ws[2] == c.code[ip + 2] && ws[3] == c.code[ip + 3];
    LoadMeans(c, f.a);
    LoadMeans(c, f.b);
    FreezeMeans(c, f);
  }

  lemma {:induction false} FreezeMeans(c: Chunk, f: FusedOp)
    requires FusedOk(f, c.constants, c.locals)
    ensures Decode(c.constants, c.fused, Word(if f.func then OpFreezeNativeFunc else OpFreezeNative, f.sym))
         == Some(Freeze(c.constants[f.sym].name, f.func))
    ensures Decode(c.constants, c.fused, Word(OpNative(f.op), 2)) == Some(Native(f.op, 2))
  {
  }

  /** On the four words, a step of the chunk is a step of the four instructions. */
  lemma {:induction false} StepIs(h: Host, c: Chunk, f: FusedOp, ip: nat, s: Machine.State, v: Value)
    requires Placed(c, f, ip) && ip <= s.ip < ip + 4
    ensures StepWord(h, c, s, v) == Machine.Step(h, FourAt(c, f, ip), s)
  {
    hide Exec, Decode, Placed, FourAt, ExecWord;
    Within(c, f, ip);
    ArgsOk(c, f, ip);
    FourMean(c, f, ip);
    WordRuns(h, c, s, FourAt(c, f, ip)[s.ip], v);
  }

  lemma {:induction false} Within(c: Chunk, f: FusedOp, ip: nat)
    requires Placed(c, f, ip)
    ensures ip + 4 <= |c.code|
  {
  }

  /** Up to the native op, step by step. */
  function Frozen(s: Machine.State, b: Binding, x: string): Machine.State {
    s.(ip := s.ip + 1, freeze := s.freeze + [FreezeRec(|s.ops|, FrozenOp(b, x), b.v)])
  }

  function Pushed(s: Machine.State, v: Value): Machine.State {
    s.(ip := s.ip + 1, ops := s.ops + [v])
  }

  lemma {:induction false} FreezeStep(h: Host, prog: seq<Instr>, s: Machine.State, x: string, func: bool)
    requires CodeAt(prog, s.ip, [Freeze(x, func)])
    ensures Machine.Step(h, prog, s) ==
      match Resolve(s.g, x, func) case None => ThrowTo(s, UndefinedError(x)) case Some(b) => At(Frozen(s, b, x))
  {
    hide ThrowTo, FrozenOp;
    assert prog[s.ip] == prog[s.ip..s.ip + 1][0];
  }

  lemma {:induction false} LoadStep(h: Host, prog: seq<Instr>, s: Machine.State, a: Operand)
    requires CodeAt(prog, s.ip, [Load(a)]) && Machine.ReadOperand(s, a).Some?
    ensures Machine.Step(h, prog, s) == At(Pushed(s, Machine.ReadOperand(s, a).value))
  {
    hide Exec, Load;
    assert prog[s.ip] == prog[s.ip..s.ip + 1][0];
    LoadRuns(h, s, a);
  }

  lemma {:induction false} LoadedIs(s: Machine.State, b: Binding, x: string, va: Value, vb: Value)
    ensures Pushed(Pushed(Frozen(s, b, x), va), vb) == Loaded(s, FreezeRec(|s.ops|, FrozenOp(b, x), b.v), va, vb)
  {
    hide FrozenOp;
    assert s.ops + [va] + [vb] == s.ops + [va, vb];
  }

  lemma {:induction false} OperandThere(c: Chunk, s: Machine.State, a: FusedArg)
    requires ArgOk(a, |c.constants|, c.locals) && |s.slots| == c.locals
    ensures DecArg(c.constants, a).Some? && Machine.ReadOperand(s, DecArg(c.constants, a).value).Some?
  {
  }

  /** The word of an operand is refused exactly when the operand is unbound. */
  lemma {:induction false} RefusedIs(vm: VM, a: FusedArg)
    requires vm.Valid() && ArgOk(a, |vm.chunk.constants|, vm.chunk.locals)
    ensures vm.Unboxed(LoadWord(vm.chunk, a)) <==> Unbound(vm.chunk, vm.stack, vm.base, a)
  {
    hide Shaped;
  }

  /** An operand stays bound or unbound while instructions only read the frame. */
  lemma {:induction false} StaysUnbound(c: Chunk, was: seq<Slot>, now: seq<Slot>, base: nat, a: FusedArg)
    requires ArgOk(a, |c.constants|, c.locals) && base + c.locals <= |was| && base + c.locals <= |now|
    requires now[..base + c.locals] == was[..base + c.locals]
    ensures Unbound(c, now, base, a) <==> Unbound(c, was, base, a)
  {
    if a.SlotArg? {
      var i, n := base + a.i, base + c.locals;
      assert now[i] == now[..n][i] && was[i] == was[..n][i];
    }
  }

  /** The two instructions that push the operands: refused at an unbound one. */
  method PushBoth(vm: VM, f: FusedOp) returns (r: Result)
    requires vm.Valid() && 0 < vm.ip && Placed(vm.chunk, f, vm.ip - 1)
    modifies vm
    ensures var s, a, b := old(vm.State()), DecArg(vm.chunk.constants, f.a), DecArg(vm.chunk.constants, f.b);
      if Unbound(vm.chunk, old(vm.stack), vm.base, f.a) || Unbound(vm.chunk, old(vm.stack), vm.base, f.b) then r.Broken?
      else
        && r.Running? && vm.Valid() && a.Some? && b.Some?
        && var va, vb := Machine.ReadOperand(s, a.value), Machine.ReadOperand(s, b.value);
        && va.Some? && vb.Some? && vm.State() == Pushed(Pushed(s, va.value), vb.value)
  {
    hide StackOk, Shaped, Vals, Rel, RelFreeze, Machine.Step, StepWord, Exec, Decode, LoadWord, VM.Unboxed, Placed,
         UnfusedWords, Unfused, CodeAt, FourAt, VM.Moved, VM.BoxesKept;
    ghost var s, ip, c, h := vm.State(), vm.ip, vm.chunk, vm.host;
    Within(c, f, ip - 1);
    ArgsOk(c, f, ip - 1);
    FourMean(c, f, ip - 1);
    ghost var prog := FourAt(c, f, ip - 1);
    ghost var a, b := DecArg(c.constants, f.a).value, DecArg(c.constants, f.b).value;
    Parts(prog, c, f, ip - 1);
    vm.Sizes();
    LoadMeans(c, f.a);
    LoadMeans(c, f.b);
    RefusedIs(vm, f.a);
    OperandThere(c, s, f.a);
    OperandThere(c, s, f.b);
    LoadStep(h, prog, s, a);
    ghost var was, v := vm.stack, Nil;
    r, v := vm.Step();
    StepIs(h, c, f, ip - 1, s, v);
    if r.Broken? { return; }
    StaysUnbound(c, was, vm.stack, vm.base, f.b);
    ghost var s1 := vm.State();
    RefusedIs(vm, f.b);
    LoadStep(h, prog, s1, b);
    r, v := vm.Step();
    StepIs(h, c, f, ip - 1, s1, v);
  }

  lemma {:induction false} ArgsOk(c: Chunk, f: FusedOp, ip: nat)
    requires Placed(c, f, ip)
    ensures FusedOk(f, c.constants, c.locals)
    ensures ArgOk(f.a, |c.constants|, c.locals) && ArgOk(f.b, |c.constants|, c.locals) && IsSymbol(c.constants, f.sym)
  {
  }

  lemma {:induction false} Parts(prog: seq<Instr>, c: Chunk, f: FusedOp, ip: nat)
    requires IsSymbol(c.constants, f.sym) && DecArg(c.constants, f.a).Some? && DecArg(c.constants, f.b).Some?
    requires CodeAt(prog, ip, Unfused(f.op, c.constants[f.sym].name, f.func, DecArg(c.constants, f.a).value,
        DecArg(c.constants, f.b).value))
    ensures CodeAt(prog, ip, [Freeze(c.constants[f.sym].name, f.func)]) && CodeAt(prog, ip + 3, [Native(f.op, 2)])
    ensures CodeAt(prog, ip + 1, [Load(DecArg(c.constants, f.a).value)])
    ensures CodeAt(prog, ip + 2, [Load(DecArg(c.constants, f.b).value)])
  {
    hide DecArg, Load;
    At4(prog, ip, Freeze(c.constants[f.sym].name, f.func), Load(DecArg(c.constants, f.a).value),
        Load(DecArg(c.constants, f.b).value), Native(f.op, 2));
  }

  /** The operator is the opcode's own. */
  predicate Named(c: Chunk, f: FusedOp) {
    IsSymbol(c.constants, f.sym) && NativeOf(c.constants[f.sym].name) == Some(f.op)
  }

  /** The four instructions, one step each: the first may already throw. */
  method RunFour(vm: VM, f: FusedOp) returns (r: Result)
    requires vm.Valid() && Placed(vm.chunk, f, vm.ip)
    modifies vm
    ensures var s, b := old(vm.State()), Resolve(old(vm.g), vm.chunk.constants[f.sym].name, f.func);
      if b.None? then vm.Matches(r, RunN(vm.host, FourAt(vm.chunk, f, s.ip), s, 1))
      else if Unbound(vm.chunk, old(vm.stack), vm.base, f.a) || Unbound(vm.chunk, old(vm.stack), vm.base, f.b)
      then r.Broken?
      else vm.Matches(r, RunN(vm.host, FourAt(vm.chunk, f, s.ip), s, 4))
  {
    hide StackOk, Shaped, Vals, Rel, RelFreeze, Machine.Step, StepWord, Exec, Decode, LoadWord, VM.Unboxed, Placed,
         UnfusedWords, Unfused, CodeAt, RunN, VM.Matches, ThrowTo, FourAt, VM.Moved, VM.BoxesKept;
    ghost var s, ip, c, was, h := vm.State(), vm.ip, vm.chunk, vm.stack, vm.host;
    Within(c, f, ip);
    ArgsOk(c, f, ip);
    FourMean(c, f, ip);
    ghost var prog := FourAt(c, f, ip);
    Parts(prog, c, f, ip);
    vm.Sizes();
    OperandThere(c, s, f.a);
    OperandThere(c, s, f.b);
    var x := vm.chunk.constants[f.sym].name;
    var b := Resolve(vm.g, x, f.func);
    FreezeStep(h, prog, s, x, f.func);
    RunsOne(h, prog, s);
    NotACell(vm, ip);
    ghost var v;
    r, v := vm.Step();
    StepIs(h, c, f, ip, s, v);
    if b.None? { return; }
    Lands(vm, r, Frozen(s, b.value, x));
    StaysUnbound(c, was, vm.stack, vm.base, f.a);
    StaysUnbound(c, was, vm.stack, vm.base, f.b);
    r := PushBoth(vm, f);
    if r.Broken? { return; }
    ghost var t := vm.State();
    FourRun(h, prog, c, s, f, t);
    NotACell(vm, ip + 3);
    r, v := vm.Step();
    StepIs(h, c, f, ip, t, v);
  }

  lemma {:induction false} RunsOne(h: Host, prog: seq<Instr>, s: Machine.State)
    ensures RunN(h, prog, s, 1) == Machine.Step(h, prog, s)
  {
    hide Machine.Step;
    var r := Machine.Step(h, prog, s);
    assert RunN(h, prog, s, 1) == if r.At? then RunN(h, prog, r.s, 0) else r;
  }

  lemma {:induction false} NotACell(vm: VM, ip: nat)
    requires vm.Valid() && ip < |vm.chunk.code|
    requires var op := vm.chunk.code[ip].op; !op.OpGetCell? && !op.OpSetCell? && !op.OpClosure?
    ensures !vm.Unboxed(vm.chunk.code[ip])
  {
    hide StackOk, Shaped;
  }

  lemma {:induction false} Lands(vm: VM, r: Result, s: Machine.State)
    requires vm.Matches(r, At(s))
    ensures r.Running? && vm.Valid() && vm.State() == s
  {
    hide StackOk, Shaped, Vals, Rel, RelFreeze;
  }

  /** The fourth step is taken from where the first three lead. */
  lemma {:induction false} FourRun(h: Host, prog: seq<Instr>, c: Chunk, s: Machine.State, f: FusedOp, t: Machine.State)
    requires ArgOk(f.a, |c.constants|, c.locals) && ArgOk(f.b, |c.constants|, c.locals) && IsSymbol(c.constants, f.sym)
    requires |s.slots| == c.locals
    requires DecArg(c.constants, f.a).Some? && DecArg(c.constants, f.b).Some?
    requires CodeAt(prog, s.ip, Unfused(f.op, c.constants[f.sym].name, f.func, DecArg(c.constants, f.a).value,
        DecArg(c.constants, f.b).value))
    requires var x := c.constants[f.sym].name;
      var va, vb := Machine.ReadOperand(s, DecArg(c.constants, f.a).value), Machine.ReadOperand(s,
          DecArg(c.constants, f.b).value);
      && Resolve(s.g, x, f.func).Some? && va.Some? && vb.Some?
      && t == Pushed(Pushed(Frozen(s, Resolve(s.g, x, f.func).value, x), va.value), vb.value)
    ensures RunN(h, prog, s, 4) == Machine.Step(h, prog, t)
  {
    hide RunN, Machine.Step, CodeAt, Unfused, FrozenOp, Pushed, Frozen, Loaded;
    var x, a, b := c.constants[f.sym].name, DecArg(c.constants, f.a).value, DecArg(c.constants, f.b).value;
    Reaches(h, prog, s, f.op, x, f.func, a, b);
    LoadedIs(s, Resolve(s.g, x, f.func).value, x, Machine.ReadOperand(s, a).value, Machine.ReadOperand(s, b).value);
    RunsOne(h, prog, t);
    Chain(h, prog, s, 3, t, 1, Machine.Step(h, prog, t));
  }

  // ---- side by side ----

  /** Two machines in the same state, but for where their code stands. */
  ghost predicate Twins(a: VM, b: VM)
    reads a, b
  {
    && a.host == b.host && a.base == b.base && a.g == b.g
    && a.chunk.constants == b.chunk.constants && a.chunk.captured == b.chunk.captured
    && a.chunk.locals == b.chunk.locals
    && a.stack == b.stack && a.boxes == b.boxes && a.handlers == b.handlers && a.freezeStack == b.freezeStack
  }

  lemma {:induction false} TwinStates(a: VM, b: VM)
    requires a.Valid() && b.Valid() && Twins(a, b)
    ensures b.State() == a.State().(ip := b.ip) && a.State().ip == a.ip
  {
    hide StackOk, Shaped;
  }

  /** The same result in the same state: both past their own code, or at the same handler, or with
      the same error uncaught. */
  ghost predicate SameEnd(r: Result, a: VM, aEnd: nat, q: Result, b: VM, bEnd: nat)
    reads a, b
  {
    && r == q
    && (r.Running? || r.Threw? ==> a.Valid() && b.Valid())
    && (r.Running? ==>
          if a.ip == aEnd && b.ip == bEnd then a.State().(ip := 0) == b.State().(ip := 0) else a.State() == b.State())
    && (r.Threw? ==> a.State().slots == b.State().slots && a.g == b.g)
  }

  lemma {:induction false} Ends(r: Result, a: VM, aEnd: nat, ra: Run, q: Result, b: VM, bEnd: nat, rb: Run)
    requires a.Matches(r, ra) && b.Matches(q, rb) && SameResult(ra, aEnd, rb, bEnd) && (rb.At? || rb.Uncaught?)
    ensures SameEnd(r, a, aEnd, q, b, bEnd)
  {
    hide StackOk, Shaped, Vals, Rel, RelFreeze;
  }

  /** A fused instruction never breaks: it delivers, or throws. */
  lemma {:induction false} FusedEnds(h: Host, s: Machine.State, at: nat, op: NativeOp, x: string, func: bool,
      a: Operand, b: Operand)
    requires HandlersOk(s) && Machine.ReadOperand(s, a).Some? && Machine.ReadOperand(s, b).Some?
    ensures var run := StepFused(h, s.(ip := at), op, x, func, a, b); run.At? || run.Uncaught?
  {
  }

  /** The machine stands at the fused instruction f. */
  ghost predicate AtFused(vm: VM, f: FusedOp)
    reads vm
  {
    && vm.ip < |vm.chunk.code| && vm.chunk.code[vm.ip].op.OpFused?
    && vm.chunk.code[vm.ip].a < |vm.chunk.fused| && vm.chunk.fused[vm.chunk.code[vm.ip].a] == f
  }

  /** Whatever the rest of the code is, closures included: the four words and the fused one end in
      the same result and state exactly when the operator is unresolved, which both find out first,
      or no operand is a captured slot still unboxed: there the cell instruction refuses and the
      fused operand reads the plain value. */
  method RunBoth(four: VM, one: VM, f: FusedOp) returns (r: Result, q: Result)
    requires four != one && four.Valid() && one.Valid() && Twins(four, one) && HandlersOk(four.State())
    requires Placed(four.chunk, f, four.ip) && Named(four.chunk, f) && AtFused(one, f)
    modifies four, one
    ensures SameEnd(r, four, old(four.ip) + 4, q, one, old(one.ip) + 1) <==>
      Resolve(old(four.g), four.chunk.constants[f.sym].name, f.func).None?
      || !(Unbound(four.chunk, old(four.stack), four.base, f.a) || Unbound(four.chunk, old(four.stack), four.base, f.b))
    ensures !q.Broken?
    ensures r.Broken? <==>
      Resolve(old(four.g), four.chunk.constants[f.sym].name, f.func).Some?
      && (Unbound(four.chunk, old(four.stack), four.base, f.a) || Unbound(four.chunk, old(four.stack), four.base, f.b))
  {
    hide StackOk, Shaped, Vals, Rel, RelFreeze, Machine.Step, StepWord, Exec, Decode, DecFused, VM.Unboxed,
         UnfusedWords, Unfused, CodeAt, RunN, VM.Matches, ThrowTo, HandlersOk, SameResult, SameEnd, StepFused, NativeOf,
         Placed, FourAt, VM.Moved, VM.BoxesKept;
    ghost var s, at, h, c := four.State(), one.ip, four.host, four.chunk;
    ArgsOk(c, f, four.ip);
    ghost var prog := FourAt(c, f, four.ip);
    ghost var x := c.constants[f.sym].name;
    ghost var unbound := Unbound(c, four.stack, four.base, f.a) || Unbound(c, four.stack, four.base, f.b);
    TwinStates(four, one);
    FourMean(c, f, four.ip);
    ghost var a, b := DecArg(c.constants, f.a).value, DecArg(c.constants, f.b).value;
    four.Sizes();
    OperandThere(c, s, f.a);
    OperandThere(c, s, f.b);
    NotACell(one, one.ip);
    ghost var run := StepFused(h, s.(ip := at), f.op, x, f.func, a, b);
    OneMeans(one, f);
    FusedEnds(h, s, at, f.op, x, f.func, a, b);
    ghost var v;
    q, v := one.Step();
    assert one.Matches(q, run);
    NotBroken(one, q, run);
    r := RunFour(four, f);
    if Resolve(s.g, x, f.func).None? {
      Undefined(h, prog, s, f.op, x, f.func, a, b, at);
      Ends(r, four, s.ip + 4, RunN(h, prog, s, 1), q, one, at + 1, run);
      SameResults(r, four, s.ip + 4, q, one, at + 1);
    } else if !unbound {
      FusedFinishes(h, prog, s, f.op, x, f.func, a, b, at);
      Ends(r, four, s.ip + 4, RunN(h, prog, s, 4), q, one, at + 1, run);
      SameResults(r, four, s.ip + 4, q, one, at + 1);
    } else {
      Differs(r, four, s.ip + 4, q, one, at + 1);
    }
  }

  lemma {:induction false} OneMeans(one: VM, f: FusedOp)
    requires one.Valid() && AtFused(one, f) && FusedOk(f, one.chunk.constants, one.chunk.locals)
    ensures DecArg(one.chunk.constants, f.a).Some? && DecArg(one.chunk.constants, f.b).Some?
    ensures forall v ::
      StepWord(one.host, one.chunk, one.State(), v)
      == StepFused(one.host, one.State(), f.op, one.chunk.constants[f.sym].name, f.func,
           DecArg(one.chunk.constants, f.a).value, DecArg(one.chunk.constants, f.b).value)
  {
    hide StackOk, Shaped, Vals, Rel, RelFreeze, StepFused;
  }

  lemma {:induction false} Undefined(h: Host, prog: seq<Instr>, s: Machine.State, op: NativeOp, x: string, func: bool,
      a: Operand, b: Operand, at: nat)
    requires CodeAt(prog, s.ip, Unfused(op, x, func, a, b)) && HandlersOk(s) && Resolve(s.g, x, func).None?
    ensures SameResult(RunN(h, prog, s, 1), s.ip + 4, StepFused(h, s.(ip := at), op, x, func, a, b), at + 1)
  {
    hide ThrowTo, Exec, RunN, CodeAt, Unfused, SameResult;
    Reaches(h, prog, s, op, x, func, a, b);
    ThrowsAlike(s, s.(ip := at), UndefinedError(x));
    Same(ThrowTo(s, UndefinedError(x)), s.ip + 4, at + 1);
  }

  lemma {:induction false} SameResults(r: Result, a: VM, aEnd: nat, q: Result, b: VM, bEnd: nat)
    requires SameEnd(r, a, aEnd, q, b, bEnd)
    ensures r == q
  {
  }

  lemma {:induction false} NotBroken(one: VM, q: Result, run: Run)
    requires one.Matches(q, run) && (run.At? || run.Uncaught?)
    ensures !q.Broken?
  {
    hide StackOk, Shaped, Vals, Rel, RelFreeze;
  }

  lemma {:induction false} Differs(r: Result, a: VM, aEnd: nat, q: Result, b: VM, bEnd: nat)
    requires r != q
    ensures !SameEnd(r, a, aEnd, q, b, bEnd)
  {
  }

  // ---- hand-made code ----

  const PLUS: FusedOp := FusedOp(Add, 0, false, SlotArg(0), SlotArg(0))

  /** (+ x x) over a captured slot 0 that nothing binds, as four words and as one. */
  function FourWords(): Chunk {
    Chunk([Word(OpFreezeNative, 0), Word(OpGetCell, 0), Word(OpGetCell, 0), Word(OpNative(Add), 2), Word(OpReturn, 0)],
      [Sym("+")], [], 0, 1, 4, [true], [], [])
  }

  function OneWord(): Chunk {
    Chunk([Word(OpFused, 0), Word(OpReturn, 0)], [Sym("+")], [PLUS], 0, 1, 2, [true], [], [])
  }

  lemma {:induction false} HandMade()
    ensures Shaped(FourWords()) && Shaped(OneWord()) && Placed(FourWords(), PLUS, 0) && Named(FourWords(), PLUS)
    ensures Bytecode.Valid(FourWords()) && Bytecode.Valid(OneWord())
  {
    assert FourWords().code[0..4] == UnfusedWords(FourWords(), PLUS);
    forall ip | 0 <= ip < |FourWords().code| ensures ValidAt(FourWords(), ip) {}
    forall ip | 0 <= ip < |OneWord().code| ensures ValidAt(OneWord(), ip) {}
  }

  /** The two ways differ on code that passes validation and reads a captured slot nothing bound:
      the four words are refused, the fused one computes. */
  method PlainSlotDiffers(host: Host, plus: Value) returns (valid: bool, r: Result, q: Result)
    ensures valid && r.Broken? && !q.Broken?
  {
    hide StackOk, Shaped, Vals, Rel, RelFreeze, Placed, Named, Bytecode.Valid, SameEnd;
    HandMade();
    var a := Validate(FourWords());
    var b := Validate(OneWord());
    var g := Globals(map["+" := Binding(plus, true)], map[]);
    var close := (_: nat, _: seq<nat>) => Nil;
    var four := new VM(FourWords(), host, [], [], map[], 0, [], close, g);
    var one := new VM(OneWord(), host, [], [], map[], 0, [], close, g);
    valid := a && b;
    r, q := RunBoth(four, one, PLUS);
  }
}
