/** Chunks of packed instructions, what Validate accepts, and what a packed instruction means. */
module Bytecode {
  import opened Forms
  import opened Machine

  /** One more than the largest operand an instruction can carry. */
  const LIMIT: nat := 0x1000000

  datatype Opcode =
    | OpNil | OpTrue | OpFalse | OpConst
    | OpGetLocal | OpSetLocal | OpGetCell | OpSetCell | OpBindCell
    | OpGetCap | OpSetCap
    | OpGetGlobal | OpGetFunc | OpCheckLexical | OpSetLexical
    | OpPop | OpDup | OpJump | OpJumpIfFalse | OpLoop
    | OpSetupTry | OpPopTry | OpThrow
    | OpCall | OpFreezeNative | OpFreezeNativeFunc | OpNative(native: NativeOp) | OpFused
    | OpClosure | OpReturn

  /** A packed instruction: an opcode and a 24-bit operand. */
  datatype Word = Word(op: Opcode, a: nat)

  /** Packing truncates the operand. */
  function Encode(op: Opcode, a: nat): Word {
    Word(op, a % LIMIT)
  }

  lemma {:induction false} EncodeExact(op: Opcode, a: nat)
    ensures Encode(op, a) == Word(op, a) <==> a < LIMIT
  {
  }

  datatype FusedArg = SlotArg(i: nat) | ConstArg(i: nat)
  datatype FusedOp = FusedOp(op: NativeOp, sym: nat, func: bool, a: FusedArg, b: FusedArg)

  /** Where a closure finds a captured cell: in a slot of the frame that makes it, or among the
      cells that frame's own closure captured. */
  datatype CapDesc = FromSlot(slot: nat) | FromCap(cap: nat)

  datatype Chunk = Chunk(
    code: seq<Word>, constants: seq<Value>, fused: seq<FusedOp>,
    params: nat, locals: nat, maxStack: nat, captured: seq<bool>, caps: seq<CapDesc>, subs: seq<Chunk>)

  // ---- Validate ----

  predicate IsSymbol(constants: seq<Value>, i: nat) {
    i < |constants| && constants[i].Sym?
  }

  predicate ArgOk(a: FusedArg, constants: nat, slots: nat) {
    match a
    case SlotArg(i) => i < slots
    case ConstArg(i) => i < constants
  }

  predicate FusedOk(f: FusedOp, constants: seq<Value>, slots: nat) {
    IsSymbol(constants, f.sym) && ArgOk(f.a, |constants|, slots) && ArgOk(f.b, |constants|, slots)
  }

  predicate Marked(captured: seq<bool>, slot: nat) {
    slot < |captured| && captured[slot]
  }

  predicate DescOk(d: CapDesc, captured: seq<bool>, caps: nat, slots: nat) {
    match d
    case FromCap(i) => i < caps
    case FromSlot(i) => i < slots && Marked(captured, i)
  }

  predicate Transfers(op: Opcode) {
    op.OpReturn? || op.OpJump? || op.OpLoop? || op.OpThrow?
  }

  predicate WordOk(c: Chunk, ip: nat, w: Word) {
    match w.op
    case OpConst => w.a < |c.constants|
    case OpGetGlobal => IsSymbol(c.constants, w.a)
    case OpGetFunc => IsSymbol(c.constants, w.a)
    case OpCheckLexical => IsSymbol(c.constants, w.a)
    case OpSetLexical => IsSymbol(c.constants, w.a)
    case OpFreezeNative => IsSymbol(c.constants, w.a)
    case OpFreezeNativeFunc => IsSymbol(c.constants, w.a)
    case OpJump => ip + 1 + w.a < |c.code|
    case OpJumpIfFalse => ip + 1 + w.a < |c.code|
    case OpLoop => w.a < |c.code|
    case OpSetupTry => w.a < |c.code|
    case OpGetLocal => w.a < c.maxStack
    case OpSetLocal => w.a < c.maxStack
    case OpGetCell => w.a < c.maxStack
    case OpSetCell => w.a < c.maxStack
    case OpBindCell => w.a < c.maxStack
    case OpGetCap => w.a < |c.caps|
    case OpSetCap => w.a < |c.caps|
    case OpFused => w.a < |c.fused| && FusedOk(c.fused[w.a], c.constants, c.maxStack)
    case OpClosure => w.a < |c.subs| && CapturesOk(c, c.subs[w.a])
    case _ => true
  }

  predicate CapturesOk(c: Chunk, sub: Chunk) {
    forall i :: 0 <= i < |sub.caps| ==> DescOk(sub.caps[i], c.captured, |c.caps|, c.maxStack)
  }

  /** Every instruction is in range, here and in every chunk a closure instruction reaches, and
      no chunk falls off its end. */
  predicate Valid(c: Chunk) {
    && (forall ip :: 0 <= ip < |c.code| ==> ValidAt(c, ip))
    && c.code != [] && Transfers(c.code[|c.code| - 1].op)
  }

  predicate ValidAt(c: Chunk, ip: nat)
    requires ip < |c.code|
    decreases c, 0
  {
    var w := c.code[ip];
    WordOk(c, ip, w) && (w.op.OpClosure? ==> Valid(c.subs[w.a]))
  }

  method Validate(c: Chunk) returns (ok: bool)
    ensures ok == Valid(c)
  {
    for ip := 0 to |c.code|
      invariant forall i :: 0 <= i < ip ==> ValidAt(c, i)
    {
      var w := c.code[ip];
      if w.op.OpClosure? && w.a < |c.subs| {
        var sub := c.subs[w.a];
        for i := 0 to |sub.caps|
          invariant forall j :: 0 <= j < i ==> DescOk(sub.caps[j], c.captured, |c.caps|, c.maxStack)
        {
          if !DescOk(sub.caps[i], c.captured, |c.caps|, c.maxStack) {
            assert !ValidAt(c, ip);
            return false;
          }
        }
        var inner := Validate(sub);
        if !inner {
          assert !ValidAt(c, ip);
          return false;
        }
      } else if !WordOk(c, ip, w) {
        assert !ValidAt(c, ip);
        return false;
      }
    }
    return c.code != [] && Transfers(c.code[|c.code| - 1].op);
  }

  // ---- decoding ----

  function DecArg(constants: seq<Value>, a: FusedArg): Option<Operand> {
    match a
    case SlotArg(i) => Some(Local(i))
    case ConstArg(i) => if i < |constants| then Some(Lit(constants[i])) else None
  }

  function DecFused(constants: seq<Value>, f: FusedOp): Option<Instr> {
    match (DecArg(constants, f.a), DecArg(constants, f.b))
    case (Some(a), Some(b)) =>
      if IsSymbol(constants, f.sym) then Some(Fused(f.op, constants[f.sym].name, f.func, a, b)) else None
    case _ => None
  }

  /** The instruction a word stands for; a cell opcode accesses its slot through the slot's box.
      Captures and closures have no counterpart in the one-frame machine. */
  function Decode(constants: seq<Value>, fused: seq<FusedOp>, w: Word): Option<Instr> {
    var sym := if IsSymbol(constants, w.a) then Some(constants[w.a].name) else None;
    match w.op
    case OpNil => Some(PushNil)
    case OpTrue => Some(PushTrue)
    case OpFalse => Some(PushFalse)
    case OpConst => if w.a < |constants| then Some(Push(constants[w.a])) else None
    case OpGetLocal => Some(GetLocal(w.a))
    case OpSetLocal => Some(SetLocal(w.a))
    case OpGetCell => Some(GetLocal(w.a))
    case OpSetCell => Some(SetLocal(w.a))
    case OpBindCell => Some(SetLocal(w.a))
    case OpGetGlobal => if sym.Some? then Some(GetGlobal(sym.value)) else None
    case OpGetFunc => if sym.Some? then Some(GetFunc(sym.value)) else None
    case OpCheckLexical => if sym.Some? then Some(CheckLexical(sym.value)) else None
    case OpSetLexical => if sym.Some? then Some(SetLexical(sym.value)) else None
    case OpPop => Some(Pop)
    case OpDup => Some(Dup)
    case OpJump => Some(Jump(w.a))
    case OpJumpIfFalse => Some(JumpIfFalse(w.a))
    case OpLoop => Some(LoopTo(w.a))
    case OpSetupTry => Some(SetupTry(w.a))
    case OpPopTry => Some(PopTry)
    case OpThrow => Some(Raise)
    case OpCall => Some(Invoke(w.a))
    case OpFreezeNative => if sym.Some? then Some(Freeze(sym.value, false)) else None
    case OpFreezeNativeFunc => if sym.Some? then Some(Freeze(sym.value, true)) else None
    case OpNative(op) => Some(Native(op, w.a))
    case OpFused => if w.a < |fused| then DecFused(constants, fused[w.a]) else None
    case OpReturn => Some(Return)
    case OpGetCap => None
    case OpSetCap => None
    case OpClosure => None
  }

  /** prog is what the chunk's code stands for. */
  ghost predicate Means(c: Chunk, prog: seq<Instr>) {
    && |prog| == |c.code|
    && forall ip :: 0 <= ip < |prog| ==> Decode(c.constants, c.fused, c.code[ip]) == Some(prog[ip])
  }

  /** Instructions with no counterpart in the one-frame machine. */
  predicate Captures(op: Opcode) {
    op.OpGetCap? || op.OpSetCap? || op.OpClosure?
  }

  /** Every instruction of a validated chunk can be decoded, but those of captures and closures. */
  lemma {:induction false} ValidMeans(c: Chunk) returns (prog: seq<Instr>)
    requires Valid(c)
    ensures |prog| == |c.code|
    ensures forall ip :: 0 <= ip < |prog| && !Captures(c.code[ip].op) ==>
      Decode(c.constants, c.fused, c.code[ip]) == Some(prog[ip])
    ensures (forall ip :: 0 <= ip < |prog| ==> !Captures(c.code[ip].op)) ==> Means(c, prog)
  {
    forall ip | 0 <= ip < |c.code| && !Captures(c.code[ip].op)
      ensures Decode(c.constants, c.fused, c.code[ip]).Some?
    {
      assert ValidAt(c, ip);
    }
    prog := seq(|c.code|, ip requires 0 <= ip < |c.code| =>
      match Decode(c.constants, c.fused, c.code[ip]) case Some(i) => i case None => Return);
  }

  // ---- running words ----

  /** What one word does in its frame. A closure instruction pushes the closure it makes and a
      capture instruction what its cell holds: both are given from outside as v. A store to a
      captured cell leaves the frame alone. */
  function ExecWord(h: Host, c: Chunk, s: State, w: Word, v: Value): Run {
    match w.op
    case OpClosure => if w.a < |c.subs| then Advance(s, s.ops + [v]) else Bad
    case OpGetCap => if w.a < |c.caps| then Advance(s, s.ops + [v]) else Bad
    case OpSetCap => if w.a < |c.caps| && s.ops != [] then Advance(s, s.ops) else Bad
    case _ =>
      match Decode(c.constants, c.fused, w)
      case Some(i) => Exec(h, s, i)
      case None => Bad
  }

  function StepWord(h: Host, c: Chunk, s: State, v: Value): Run {
    if s.ip >= |c.code| then Bad else ExecWord(h, c, s, c.code[s.ip], v)
  }

  /** As many steps as values are given. */
  function RunWords(h: Host, c: Chunk, s: State, given: seq<Value>): Run
    decreases |given|
  {
    if given == [] then At(s)
    else
      match StepWord(h, c, s, given[0])
      case At(s1) => RunWords(h, c, s1, given[1..])
      case r => r
  }

  lemma {:induction false} WordRuns(h: Host, c: Chunk, s: State, i: Instr, v: Value)
    requires s.ip < |c.code| && Decode(c.constants, c.fused, c.code[s.ip]) == Some(i)
    ensures StepWord(h, c, s, v) == Exec(h, s, i)
  {
    hide Exec;
  }

  /** Where every word decodes, running the words is running the instructions. */
  lemma {:induction false} WordsMean(h: Host, c: Chunk, prog: seq<Instr>, s: State, given: seq<Value>)
    requires Means(c, prog)
    ensures RunWords(h, c, s, given) == RunN(h, prog, s, |given|)
    decreases |given|
  {
    hide Exec, Decode, ExecWord;
    if given == [] {
    } else {
      if s.ip < |prog| { WordRuns(h, c, s, prog[s.ip], given[0]); }
      var r := StepWord(h, c, s, given[0]);
      assert r == Step(h, prog, s);
      if r.At? { WordsMean(h, c, prog, r.s, given[1..]); }
    }
  }

  lemma {:induction false} RunWordsNext(h: Host, c: Chunk, s: State, given: seq<Value>, t: State, v: Value)
    requires RunWords(h, c, s, given) == At(t)
    ensures RunWords(h, c, s, given + [v]) == StepWord(h, c, t, v)
    decreases |given|
  {
    hide StepWord;
    var more := given + [v];
    if given == [] {
      var r := StepWord(h, c, s, v);
      assert more[1..] == [];
      assert RunWords(h, c, s, more) == if r.At? then RunWords(h, c, r.s, []) else r;
    } else {
      assert more[1..] == given[1..] + [v];
      RunWordsNext(h, c, StepWord(h, c, s, given[0]).s, given[1..], t, v);
    }
  }

  /** Where a handler leads is inside the code. */
  predicate HandlersInside(s: State, n: nat) {
    forall i :: 0 <= i < |s.handlers| ==> s.handlers[i].addr < n
  }

  /** Everywhere i can lead from ip, short of a handler, is inside the code. */
  predicate Inside(i: Instr, ip: nat, n: nat) {
    match i
    case Jump(off) => ip + 1 + off < n
    case JumpIfFalse(off) => ip + 1 + off < n
    case LoopTo(addr) => addr < n
    case SetupTry(addr) => addr < n && ip + 1 < n
    case Return => true
    case Raise => true
    case _ => ip + 1 < n
  }

  lemma {:induction false} WordInside(c: Chunk, ip: nat, i: Instr)
    requires Valid(c) && ip < |c.code| && Decode(c.constants, c.fused, c.code[ip]) == Some(i)
    ensures Inside(i, ip, |c.code|)
  {
    hide CapturesOk, FusedOk, DecArg;
    assert ValidAt(c, ip);
    if ip == |c.code| - 1 { assert Transfers(c.code[ip].op); }
  }

  lemma {:induction false} ThrowInside(s: State, w: Value, n: nat)
    requires HandlersInside(s, n)
    ensures ThrowTo(s, w).At? ==> ThrowTo(s, w).s.ip < n && HandlersInside(ThrowTo(s, w).s, n)
  {
  }

  lemma {:induction false} DeliverInside(s: State, keep: seq<Value>, o: Outcome, n: nat)
    requires HandlersInside(s, n) && s.ip + 1 < n
    ensures var r := Deliver(s, keep, o); r.At? ==> r.s.ip < n && HandlersInside(r.s, n)
  {
    if o.Err? { ThrowInside(s.(ops := keep), o.w, n); }
  }

  lemma {:induction false} ExecInside(h: Host, s: State, i: Instr, n: nat)
    requires HandlersInside(s, n) && Inside(i, s.ip, n)
    ensures var r := Exec(h, s, i); r.At? ==> r.s.ip < n && HandlersInside(r.s, n)
  {
    hide ThrowTo, Deliver, StepNative, StepFused, Resolve, FrozenOp, HandlersInside;
    if i.Invoke? || i.Native? || i.Fused? || i.Raise? {
      CallInside(h, s, i, n);
    } else if i.GetGlobal? || i.GetFunc? || i.CheckLexical? || i.SetLexical? || i.Freeze? {
      NameInside(h, s, i, n);
    } else {
      SameHandlers(h, s, i, n);
    }
  }

  /** An instruction that neither calls nor throws adds at most a handler inside. */
  lemma {:induction false} SameHandlers(h: Host, s: State, i: Instr, n: nat)
    requires HandlersInside(s, n) && Inside(i, s.ip, n) && !(i.Invoke? || i.Native? || i.Fused? || i.Raise?)
    requires !(i.GetGlobal? || i.GetFunc? || i.CheckLexical? || i.SetLexical? || i.Freeze?)
    ensures var r := Exec(h, s, i); r.At? ==> r.s.ip < n && HandlersInside(r.s, n)
  {
    hide ThrowTo, Deliver, StepNative, StepFused, Resolve, FrozenOp;
  }

  lemma {:induction false} NameInside(h: Host, s: State, i: Instr, n: nat)
    requires HandlersInside(s, n) && Inside(i, s.ip, n)
    requires i.GetGlobal? || i.GetFunc? || i.CheckLexical? || i.SetLexical? || i.Freeze?
    ensures var r := Exec(h, s, i); r.At? ==> r.s.ip < n && HandlersInside(r.s, n)
  {
    hide ThrowTo, Deliver, StepNative, StepFused, Resolve, FrozenOp;
    ThrowInside(s, UndefinedError(i.name), n);
    ThrowInside(s, AssignError(i.name), n);
  }

  lemma {:induction false} CallInside(h: Host, s: State, i: Instr, n: nat)
    requires HandlersInside(s, n) && Inside(i, s.ip, n) && (i.Invoke? || i.Native? || i.Fused? || i.Raise?)
    ensures var r := Exec(h, s, i); r.At? ==> r.s.ip < n && HandlersInside(r.s, n)
  {
    hide ThrowTo, Deliver, StepNative, StepFused, Resolve, FrozenOp;
    var m := |s.ops|;
    match i
    case Raise => if m > 0 { ThrowInside(s.(ops := s.ops[..m - 1]), s.ops[m - 1], n); }
    case Invoke(argc) =>
      if m >= argc + 1 { DeliverInside(s, s.ops[..m - argc - 1], h.apply(s.ops[m - argc - 1], s.ops[m - argc..]), n); }
    case Native(op, argc) => NativeInside(h, s, op, argc, n);
    case Fused(op, x, func, a, b) => FusedInside(h, s, i, n);
  }

  lemma {:induction false} NativeInside(h: Host, s: State, op: NativeOp, argc: nat, n: nat)
    requires HandlersInside(s, n) && s.ip + 1 < n
    ensures var r := StepNative(h, s, op, argc); r.At? ==> r.s.ip < n && HandlersInside(r.s, n)
  {
    hide Deliver;
    var m, k := |s.ops|, |s.freeze|;
    if !(m < argc || k == 0 || s.freeze[k - 1].depth != m - argc) {
      var rec, args := s.freeze[k - 1], s.ops[m - argc..];
      DeliverInside(s.(freeze := s.freeze[..k - 1]), s.ops[..m - argc],
                    if rec.op == Some(op) then h.native(op, args) else h.apply(rec.val, args), n);
    }
  }

  lemma {:induction false} FusedInside(h: Host, s: State, i: Instr, n: nat)
    requires i.Fused? && HandlersInside(s, n) && s.ip + 1 < n
    ensures var r := StepFused(h, s, i.op, i.name, i.func, i.a, i.b); r.At? ==> r.s.ip < n && HandlersInside(r.s, n)
  {
    hide Deliver, ThrowTo, Resolve;
    ThrowInside(s, UndefinedError(i.name), n);
    var f, va, vb := Resolve(s.g, i.name, i.func), ReadOperand(s, i.a), ReadOperand(s, i.b);
    if f.Some? && va.Some? && vb.Some? {
      var args := [va.value, vb.value];
      DeliverInside(s, s.ops, if f.value.canonical then h.native(i.op, args) else h.apply(f.value.v, args), n);
    }
  }

  lemma {:induction false} StaysInside(h: Host, c: Chunk, s: State, v: Value)
    requires Valid(c) && s.ip < |c.code| && HandlersInside(s, |c.code|)
    ensures var r := StepWord(h, c, s, v);
            r.At? ==> r.s.ip < |c.code| && HandlersInside(r.s, |c.code|)
  {
    hide Exec, Valid, Inside, Decode;
    var w := c.code[s.ip];
    if Captures(w.op) {
      LastTransfers(c);
    } else if Decode(c.constants, c.fused, w).Some? {
      var i := Decode(c.constants, c.fused, w).value;
      WordInside(c, s.ip, i);
      ExecInside(h, s, i, |c.code|);
    }
  }

  lemma {:induction false} LastTransfers(c: Chunk)
    requires Valid(c)
    ensures c.code != [] && !Captures(c.code[|c.code| - 1].op)
  {
  }

  /** A run of a validated chunk, whatever its closures and captured cells give, never leaves its
      code, so fetching needs no bounds check. */
  lemma {:induction false} NeverOutside(h: Host, c: Chunk, s: State, given: seq<Value>)
    requires Valid(c) && s.ip < |c.code| && HandlersInside(s, |c.code|)
    ensures var r := RunWords(h, c, s, given);
            r.At? ==> r.s.ip < |c.code| && HandlersInside(r.s, |c.code|)
    decreases |given|
  {
    hide StepWord, Valid;
    if given != [] {
      StaysInside(h, c, s, given[0]);
      var r := StepWord(h, c, s, given[0]);
      if r.At? { NeverOutside(h, c, r.s, given[1..]); }
    }
  }

  // ---- what validation is for ----

  /** How many operands a word takes. */
  function Takes(w: Word): nat {
    match w.op
    case OpSetLocal => 1
    case OpSetCell => 1
    case OpBindCell => 1
    case OpSetCap => 1
    case OpSetLexical => 1
    case OpPop => 1
    case OpDup => 1
    case OpJumpIfFalse => 1
    case OpThrow => 1
    case OpReturn => 1
    case OpCall => w.a + 1
    case OpNative(_) => w.a
    case _ => 0
  }

  /** The innermost handler keeps more than there is. */
  predicate Overlong(s: State, ops: nat, freeze: nat) {
    s.handlers != [] && (s.handlers[|s.handlers| - 1].ops > ops || s.handlers[|s.handlers| - 1].freeze > freeze)
  }

  /** The stacks are too short for the word: it takes more operands than there are, or leaves fewer
      than the innermost handler keeps, or finds no freeze record of its own. */
  predicate Short(s: State, w: Word) {
    || |s.ops| < Takes(w)
    || Overlong(s, |s.ops| - Takes(w), |s.freeze| - if w.op.OpNative? && s.freeze != [] then 1 else 0)
    || (w.op.OpNative? && (s.freeze == [] || s.freeze[|s.freeze| - 1].depth + w.a != |s.ops|))
  }

  lemma {:induction false} DeliversBad(s: State, keep: seq<Value>, o: Outcome)
    ensures Deliver(s, keep, o) == Bad ==> Overlong(s, |keep|, |s.freeze|)
  {
  }

  lemma {:induction false} ThrowsBad(s: State, v: Value)
    ensures ThrowTo(s, v) == Bad ==> Overlong(s, |s.ops|, |s.freeze|)
  {
  }

  lemma {:induction false} NativeBad(h: Host, s: State, op: NativeOp, argc: nat)
    ensures StepNative(h, s, op, argc) == Bad ==>
      || |s.ops| < argc || s.freeze == [] || s.freeze[|s.freeze| - 1].depth + argc != |s.ops|
      || Overlong(s, |s.ops| - argc, |s.freeze| - 1)
    ensures |s.ops| < argc ==> StepNative(h, s, op, argc) == Bad
  {
    hide Deliver;
    var n, m := |s.ops|, |s.freeze|;
    if n >= argc && m > 0 && s.freeze[m - 1].depth == n - argc {
      var rec, args := s.freeze[m - 1], s.ops[n - argc..];
      DeliversBad(s.(freeze := s.freeze[..m - 1]), s.ops[..n - argc],
        if rec.op == Some(op) then h.native(op, args) else h.apply(rec.val, args));
    }
  }

  lemma {:induction false} FusedBad(h: Host, s: State, op: NativeOp, x: string, func: bool, a: Operand, b: Operand)
    requires ReadOperand(s, a).Some? && ReadOperand(s, b).Some?
    ensures StepFused(h, s, op, x, func, a, b) == Bad ==> Overlong(s, |s.ops|, |s.freeze|)
  {
    hide Deliver, ThrowTo, ReadOperand;
    ThrowsBad(s, UndefinedError(x));
    var f := Resolve(s.g, x, func);
    if f.Some? {
      var args := [ReadOperand(s, a).value, ReadOperand(s, b).value];
      DeliversBad(s, s.ops, if f.value.canonical then h.native(op, args) else h.apply(f.value.v, args));
    }
  }

  /** A word that validation accepts goes wrong on short stacks only: no index of it is ever out of
      range. */
  lemma {:induction false} TrustedWord(h: Host, c: Chunk, s: State, v: Value)
    requires s.ip < |c.code| && WordOk(c, s.ip, c.code[s.ip]) && |s.slots| == c.maxStack
    ensures StepWord(h, c, s, v) == Bad ==> Short(s, c.code[s.ip])
    ensures |s.ops| < Takes(c.code[s.ip]) ==> StepWord(h, c, s, v) == Bad
  {
    hide CapturesOk, Exec, Decode;
    var w := c.code[s.ip];
    if !Captures(w.op) {
      DecodesOk(c, s.ip, w);
      TrustedExec(h, c, s, Decode(c.constants, c.fused, w).value, w);
    }
  }

  predicate Calling(op: Opcode) {
    op.OpCall? || op.OpNative? || op.OpFused?
  }

  predicate Throwing(op: Opcode) {
    || op.OpThrow? || op.OpGetGlobal? || op.OpGetFunc? || op.OpFreezeNative? || op.OpFreezeNativeFunc?
    || op.OpCheckLexical? || op.OpSetLexical?
  }

  lemma {:induction false} TrustedExec(h: Host, c: Chunk, s: State, i: Instr, w: Word)
    requires WordOk(c, s.ip, w) && Decode(c.constants, c.fused, w) == Some(i) && |s.slots| == c.maxStack
    requires !Captures(w.op)
    ensures Exec(h, s, i) == Bad ==> Short(s, w)
    ensures |s.ops| < Takes(w) ==> Exec(h, s, i) == Bad
  {
    hide Exec, Decode, WordOk, Takes, Captures, Overlong;
    if Calling(w.op) {
      TrustedCalling(h, c, s, i, w);
    } else if Throwing(w.op) {
      TrustedThrowing(h, c, s, i, w);
    } else {
      TrustedPlain(h, c, s, i, w);
    }
  }

  lemma {:induction false} TrustedPlain(h: Host, c: Chunk, s: State, i: Instr, w: Word)
    requires WordOk(c, s.ip, w) && Decode(c.constants, c.fused, w) == Some(i) && |s.slots| == c.maxStack
    requires !Captures(w.op) && !Throwing(w.op) && !Calling(w.op)
    ensures Exec(h, s, i) == Bad ==> |s.ops| < Takes(w)
    ensures |s.ops| < Takes(w) ==> Exec(h, s, i) == Bad
  {
    hide CapturesOk, Deliver, ThrowTo, StepNative, StepFused, Resolve, FusedOk, DecFused;
  }

  lemma {:induction false} TrustedThrowing(h: Host, c: Chunk, s: State, i: Instr, w: Word)
    requires Decode(c.constants, c.fused, w) == Some(i) && Throwing(w.op)
    ensures Exec(h, s, i) == Bad ==> |s.ops| < Takes(w) || Overlong(s, |s.ops| - Takes(w), |s.freeze|)
    ensures |s.ops| < Takes(w) ==> Exec(h, s, i) == Bad
  {
    hide Exec, Overlong, DecFused;
    if w.op.OpThrow? { RaiseBad(h, s); } else if w.op.OpSetLexical? { SetBad(h, s, i.name); } else { NameBad(h, s, i); }
  }

  lemma {:induction false} RaiseBad(h: Host, s: State)
    ensures Exec(h, s, Raise) == Bad ==> s.ops == [] || Overlong(s, |s.ops| - 1, |s.freeze|)
    ensures s.ops == [] ==> Exec(h, s, Raise) == Bad
  {
    hide ThrowTo, Overlong;
    var n := |s.ops|;
    if n > 0 {
      ThrowsBad(s.(ops := s.ops[..n - 1]), s.ops[n - 1]);
      OverlongOps(s, s.ops[..n - 1]);
    }
  }

  lemma {:induction false} SetBad(h: Host, s: State, x: string)
    ensures Exec(h, s, SetLexical(x)) == Bad ==> s.ops == [] || Overlong(s, |s.ops| - 1, |s.freeze|)
    ensures s.ops == [] ==> Exec(h, s, SetLexical(x)) == Bad
  {
    hide ThrowTo, Overlong;
    ThrowsBad(s, AssignError(x));
    OverlongLess(s);
  }

  lemma {:induction false} NameBad(h: Host, s: State, i: Instr)
    requires i.GetGlobal? || i.GetFunc? || i.Freeze? || i.CheckLexical?
    ensures Exec(h, s, i) == Bad ==> Overlong(s, |s.ops|, |s.freeze|)
  {
    hide ThrowTo, Overlong;
    ThrowsBad(s, UndefinedError(i.name));
    ThrowsBad(s, AssignError(i.name));
  }

  lemma {:induction false} OverlongOps(s: State, ops: seq<Value>)
    ensures Overlong(s.(ops := ops), |ops|, |s.freeze|) == Overlong(s, |ops|, |s.freeze|)
  {
  }

  lemma {:induction false} OverlongLess(s: State)
    ensures |s.ops| > 0 && Overlong(s, |s.ops|, |s.freeze|) ==> Overlong(s, |s.ops| - 1, |s.freeze|)
  {
  }

  lemma {:induction false} TrustedCalling(h: Host, c: Chunk, s: State, i: Instr, w: Word)
    requires WordOk(c, s.ip, w) && Decode(c.constants, c.fused, w) == Some(i) && |s.slots| == c.maxStack
    requires Calling(w.op)
    ensures Exec(h, s, i) == Bad ==> Short(s, w)
    ensures |s.ops| < Takes(w) ==> Exec(h, s, i) == Bad
  {
    hide Deliver, ThrowTo, StepNative, StepFused, Resolve, Overlong;
    var n := |s.ops|;
    if w.op.OpCall? {
      if n > w.a { DeliversBad(s, s.ops[..n - w.a - 1], h.apply(s.ops[n - w.a - 1], s.ops[n - w.a..])); }
    } else if w.op.OpNative? {
      NativeBad(h, s, w.op.native, w.a);
    } else {
      FusedBad(h, s, i.op, i.name, i.func, i.a, i.b);
    }
  }

  lemma {:induction false} DecodesOk(c: Chunk, ip: nat, w: Word)
    requires WordOk(c, ip, w) && !Captures(w.op)
    ensures Decode(c.constants, c.fused, w).Some?
  {
  }

  /** A word whose index is out of range, which validation refuses, runs in no state at all. */
  lemma {:induction false} RefusedWord(h: Host, c: Chunk, s: State, v: Value)
    requires s.ip < |c.code| && |s.slots| == c.maxStack
    requires var w := c.code[s.ip];
      && !WordOk(c, s.ip, w) && !w.op.OpJump? && !w.op.OpJumpIfFalse? && !w.op.OpLoop? && !w.op.OpSetupTry?
      && !(w.op.OpClosure? && w.a < |c.subs|)
      && !(w.op.OpFused? && w.a < |c.fused| && IsSymbol(c.constants, c.fused[w.a].sym)
           && Resolve(s.g, c.constants[c.fused[w.a].sym].name, c.fused[w.a].func).None?)
    ensures StepWord(h, c, s, v) == Bad
  {
  }
}
