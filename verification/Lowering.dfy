/** Compilation to packed code, closures included, as a function of the functions being compiled:
    what is emitted for a form, and what it adds to their pools, slots and captures. */
module Lowering {
  import opened Forms
  import opened Machine
  import opened CodeGen
  import opened Bytecode

  /** A function in the making: the number of its parameters and of its instructions so far, its
      pools and the chunks of its closures; the slots in scope by name, and how many were ever
      reserved; its loops and try scopes; the names it captures with their descriptors, the slots
      closures captured from it, and which of its stores bind a slot. */
  datatype Unit = Unit(
    params: nat, pc: nat, constants: seq<Value>, fused: seq<FusedOp>, subs: seq<Chunk>,
    names: seq<string>, locals: nat, loops: seq<LoopFrame>, tries: nat,
    caps: seq<string>, descs: seq<CapDesc>, captured: seq<bool>, binds: set<nat>)

  function NewUnit(params: seq<string>): Unit {
    Unit(|params|, 0, [], [], [], params, |params|, [], 0, [], [], [], {})
  }

  /** The functions being compiled, outermost first. */
  type Nest = us: seq<Unit> | us != [] witness [NewUnit([])]

  /** An instruction before it is packed: its operand is of any size. Of a closure it is also
      recorded whether the instructions of the closure's own function fit. */
  datatype Raw = Raw(op: Opcode, a: nat, nested: bool := true)

  function Packed(w: Raw): Word {
    Encode(w.op, w.a)
  }

  /** Packing keeps what the instruction says: its operand is not cut, or is cut to the number of
      an equal fused instruction. */
  predicate Fit(u: Unit, w: Raw) {
    w.nested && (w.a < LIMIT || (w.op.OpFused? && w.a < |u.fused| && u.fused[w.a % LIMIT] == u.fused[w.a]))
  }

  predicate AllFit(u: Unit, ws: seq<Raw>) {
    forall k :: 0 <= k < |ws| ==> Fit(u, ws[k])
  }

  datatype Code = Code(us: Nest, ws: seq<Raw>)

  /** What compiling yields: code for the innermost function, or an error. */
  datatype Built = Refused | Built(code: Code) {
    predicate IsFailure() { Refused? }
    function PropagateFailure(): Built
      requires IsFailure()
    { Refused }
    function Extract(): Code
      requires !IsFailure()
    { code }
  }

  function Top(us: Nest): Unit {
    us[|us| - 1]
  }

  function Put(us: Nest, u: Unit): Nest {
    us[|us| - 1 := u]
  }

  function Skip(us: Nest, n: nat): Nest {
    Put(us, Top(us).(pc := Top(us).pc + n))
  }

  // ---- primitives ----

  function One(us: Nest, op: Opcode, a: nat): Code {
    Code(Skip(us, 1), [Raw(op, a)])
  }

  function IndexOf(vs: seq<Value>, v: Value): nat {
    if vs == [] || vs[0] == v then 0 else 1 + IndexOf(vs[1..], v)
  }

  /** An equal constant is reused. */
  function Interned(u: Unit, v: Value): Unit {
    if IndexOf(u.constants, v) < |u.constants| then u else u.(constants := u.constants + [v])
  }

  function WithConst(us: Nest, op: Opcode, v: Value): Code {
    One(Put(us, Interned(Top(us), v)), op, IndexOf(Top(us).constants, v))
  }

  function Reserve(us: Nest, name: string): Nest {
    var u := Top(us);
    Put(us, u.(names := u.names + [name], locals := u.locals + 1))
  }

  /** The scope of the innermost function as it was in v. */
  function Restore(us: Nest, v: Unit): Nest {
    Put(us, Top(us).(names := v.names, loops := v.loops, tries := v.tries))
  }

  /** The store that binds a slot, and the pop after it. */
  function BindSlot(us: Nest, slot: nat): Code {
    var u := Top(us);
    Code(Skip(Put(us, u.(binds := u.binds + {u.pc})), 2), [Raw(OpSetLocal, slot), Raw(OpPop, 0)])
  }

  // ---- captures ----

  function Mark(captured: seq<bool>, slot: nat): seq<bool>
    decreases if slot >= |captured| then slot - |captured| + 1 else 0
  {
    if slot < |captured| then captured[slot := true] else Mark(captured + [false], slot)
  }

  /** Some enclosing function binds the name. */
  predicate AncestorBinds(us: Nest, x: string) {
    exists i :: 0 <= i < |us| - 1 && ResolveLocal(us[i].names, x).Some?
  }

  function CapIndex(caps: seq<string>, x: string): nat {
    if caps == [] || caps[0] == x then 0 else 1 + CapIndex(caps[1..], x)
  }

  /** The innermost function captures the name: from a slot of the function around it, which is
      marked, or from that function's own captures. */
  function EnsureCapture(us: Nest, x: string): Nest
    decreases |us|
  {
    var u := Top(us);
    if CapIndex(u.caps, x) < |u.caps| || |us| == 1 then us
    else
      var outer: Nest := us[..|us| - 1];
      var p := Top(outer);
      match ResolveLocal(p.names, x)
      case Some(slot) =>
        Put(outer, p.(captured := Mark(p.captured, slot))) +
            [u.(caps := u.caps + [x], descs := u.descs + [FromSlot(slot)])]
      case None =>
        var outer' := EnsureCapture(outer, x);
        outer' + [u.(caps := u.caps + [x], descs := u.descs + [FromCap(CapIndex(p.caps, x))])]
  }

  function Capture(us: Nest, op: Opcode, x: string): Code {
    One(EnsureCapture(us, x), op, CapIndex(Top(us).caps, x))
  }

  // ---- shapes of code ----

  /** Over the then part when false, over the else part after it. */
  function IfElse(a: seq<Raw>, b: seq<Raw>): seq<Raw> {
    [Raw(OpJumpIfFalse, |a| + 1)] + a + [Raw(OpJump, |b|)] + b
  }

  /** The next argument of and, kept unless the one before it was false. */
  function AndThen(rest: seq<Raw>): seq<Raw> {
    [Raw(OpDup, 0), Raw(OpJumpIfFalse, 1 + |rest|), Raw(OpPop, 0)] + rest
  }

  function OrElse(rest: seq<Raw>): seq<Raw> {
    [Raw(OpDup, 0), Raw(OpJumpIfFalse, 1), Raw(OpJump, 1 + |rest|), Raw(OpPop, 0)] + rest
  }

  /** The handler begins two instructions after the body. */
  function TryCatch(pc: nat, body: seq<Raw>, handler: seq<Raw>): seq<Raw> {
    [Raw(OpSetupTry, pc + |body| + 3)] + body + [Raw(OpPopTry, 0), Raw(OpJump, |handler|)] + handler
  }

  /** recur stores its arguments from the last slot down. */
  function Stores(base: nat, count: nat): seq<Raw> {
    if count == 0 then [] else [Raw(OpSetLocal, base + count - 1), Raw(OpPop, 0)] + Stores(base, count - 1)
  }

  /** The stores of recur that bind: those of captured slots. The first is at at. */
  function StoreBinds(captured: seq<bool>, at: nat, base: nat, count: nat): set<nat>
    decreases count
  {
    if count == 0 then {}
    else (if Marked(captured, base + count - 1) then {at} else {}) + StoreBinds(captured, at + 2, base, count - 1)
  }

  function PopTryWords(n: nat): seq<Raw> {
    if n == 0 then [] else [Raw(OpPopTry, 0)] + PopTryWords(n - 1)
  }

  // ---- finishing ----

  /** A slot that was captured is reached through its cell. */
  function Rewritten(captured: seq<bool>, binds: set<nat>, ip: nat, w: Word): Word {
    if !Marked(captured, w.a) then w
    else if w.op.OpGetLocal? then Word(OpGetCell, w.a)
    else if w.op.OpSetLocal? then Word(if ip in binds then OpBindCell else OpSetCell, w.a)
    else w
  }

  function Delta(w: Word): int {
    match w.op
    case OpPop => -1
    case OpJumpIfFalse => -1
    case OpThrow => -1
    case OpReturn => -1
    case OpCall => 0 - w.a
    case OpNative(_) => 0 - w.a
    case OpSetLocal => 0
    case OpSetCell => 0
    case OpBindCell => 0
    case OpSetCap => 0
    case OpCheckLexical => 0
    case OpSetLexical => 0
    case OpJump => 0
    case OpLoop => 0
    case OpSetupTry => 0
    case OpPopTry => 0
    case OpFreezeNative => 0
    case OpFreezeNativeFunc => 0
    case _ => 1
  }

  predicate IsSlotOp(op: Opcode) {
    op.OpGetLocal? || op.OpSetLocal? || op.OpGetCell? || op.OpSetCell? || op.OpBindCell?
  }

  function Height(ws: seq<Word>): int {
    if ws == [] then 0 else Height(ws[..|ws| - 1]) + Delta(ws[|ws| - 1])
  }

  /** The highest the stack gets, instruction by instruction in the order of the code. */
  function Peak(ws: seq<Word>): nat {
    if ws == [] then 0
    else
      var p := Peak(ws[..|ws| - 1]);
      if Height(ws) > p then Height(ws) else p
  }

  /** One more than the highest slot mentioned. */
  function SlotBound(ws: seq<Word>): nat {
    if ws == [] then 0
    else
      var b, w := SlotBound(ws[..|ws| - 1]), ws[|ws| - 1];
      if IsSlotOp(w.op) && w.a + 1 > b then w.a + 1 else b
  }

  function MaxStack(ws: seq<Word>, locals: nat): (n: nat)
    ensures n >= locals
  {
    var n, b := locals + Peak(ws), SlotBound(ws);
    if b > n then b else n
  }

  function Finished(u: Unit, ws: seq<Raw>): Chunk {
    var code := seq(|ws|, ip requires 0 <= ip < |ws| => Rewritten(u.captured, u.binds, ip, Packed(ws[ip])));
    Chunk(code, u.constants, u.fused, u.params, u.locals, MaxStack(code, u.locals), u.captured, u.descs, u.subs)
  }

  // ---- forms ----

  function CompConst(us: Nest, v: Value): Code {
    match v
    case Nil => One(us, OpNil, 0)
    case Bool(b) => One(us, if b then OpTrue else OpFalse, 0)
    case _ => WithConst(us, OpConst, v)
  }

  function CompVar(us: Nest, x: string): Code {
    match ResolveLocal(Top(us).names, x)
    case Some(i) => One(us, OpGetLocal, i)
    case None => if AncestorBinds(us, x) then Capture(us, OpGetCap, x) else WithConst(us, OpGetGlobal, Sym(x))
  }

  /** An operand of a fused instruction: a slot, or a scalar, which is interned at once. */
  function FusedSide(u: Unit, f: Form): Option<FusedArg> {
    match f
    case Var(x) => (match ResolveLocal(u.names, x) case Some(i) => Some(SlotArg(i)) case None => None)
    case Const(v) => if Scalar(v) then Some(ConstArg(IndexOf(u.constants, v))) else None
    case _ => None
  }

  function FusedPool(u: Unit, f: Form): Unit {
    if f.Const? && Scalar(f.v) then Interned(u, f.v) else u
  }

  /** Whether a two-argument native call fuses; the constants its operands interned stay in the
      pool even when it does not. */
  function CompFused(us: Nest, op: NativeOp, x: string, args: Forms, l2: bool): (Nest, Option<seq<Raw>>) {
    if !(args.Cons? && args.tail.Cons? && args.tail.tail.End?) then (us, None)
    else
      var u := Top(us);
      var a := FusedSide(u, args.head);
      if a.None? then (us, None)
      else
        var u1 := FusedPool(u, args.head);
        var b := FusedSide(u1, args.tail.head);
        if b.None? then (Put(us, u1), None)
        else
          var u2 := FusedPool(u1, args.tail.head);
          var f := FusedOp(op, IndexOf(u2.constants, Sym(x)), l2, a.value, b.value);
          var u3 := Interned(u2, Sym(x));
          (Skip(Put(us, u3.(fused := u3.fused + [f])), 1), Some([Raw(OpFused, |u3.fused|)]))
  }

  predicate Shadowed(us: Nest, x: string) {
    exists i :: 0 <= i < |us| && ResolveLocal(us[i].names, x).Some?
  }

  function CompHead(us: Nest, head: Form, l2: bool): Built
    decreases head, 1
  {
    if l2 && head.Var? then Built(WithConst(us, OpGetFunc, Sym(head.name))) else Comp(us, head, l2)
  }

  function Comp(us: Nest, f: Form, l2: bool): Built
    decreases f, 0
  {
    match f
    case Const(v) => Built(CompConst(us, v))
    case Quote(v) => Built(WithConst(us, OpConst, v))
    case Var(x) => Built(CompVar(us, x))
    case Do(body) => CompBody(us, body, l2)
    case If(test, thn, els) =>
      var t :- Comp(us, test, l2);
      var a :- Comp(Skip(t.us, 1), thn, l2);
      var b :- (match els
                case Some(e) => Comp(Skip(a.us, 1), e, l2)
                case None => Built(One(Skip(a.us, 1), OpNil, 0)));
      Built(Code(b.us, t.ws + IfElse(a.ws, b.ws)))
    case When(test, body) =>
      if body.End? then Refused
      else
        var t :- Comp(us, test, l2);
        var a :- CompBody(Skip(t.us, 1), body, l2);
        var b := One(Skip(a.us, 1), OpNil, 0);
        Built(Code(b.us, t.ws + IfElse(a.ws, b.ws)))
    case Cond(clauses) => CompClauses(us, clauses, l2)
    case And(args) =>
      if args.End? then Built(One(us, OpTrue, 0))
      else
        var t :- Comp(us, args.head, l2);
        var b :- CompAnd(t.us, args.tail, l2);
        Built(Code(b.us, t.ws + b.ws))
    case Or(args) =>
      if args.End? then Built(One(us, OpNil, 0))
      else
        var t :- Comp(us, args.head, l2);
        var b :- CompOr(t.us, args.tail, l2);
        Built(Code(b.us, t.ws + b.ws))
    case Not(arg) =>
      var t :- Comp(us, arg, l2);
      var a := One(Skip(t.us, 1), OpFalse, 0);
      var b := One(Skip(a.us, 1), OpTrue, 0);
      Built(Code(b.us, t.ws + IfElse(a.ws, b.ws)))
    case Let(binds, body) =>
      if body.End? then Refused
      else
        var t :- CompBinds(us, binds, l2);
        var b :- CompBody(t.us, body, l2);
        Built(Code(Restore(b.us, Top(us)), t.ws + b.ws))
    case Assign(x, rhs) =>
      (match ResolveLocal(Top(us).names, x)
       case Some(i) =>
         var r :- Comp(us, rhs, l2);
         var s := One(r.us, OpSetLocal, i);
         Built(Code(s.us, r.ws + s.ws))
       case None =>
         if AncestorBinds(us, x) then
           var r :- Comp(us, rhs, l2);
           var s := Capture(r.us, OpSetCap, x);
           Built(Code(s.us, r.ws + s.ws))
         else
           var c := WithConst(us, OpCheckLexical, Sym(x));
           var r :- Comp(c.us, rhs, l2);
           var s := WithConst(r.us, OpSetLexical, Sym(x));
           Built(Code(s.us, c.ws + r.ws + s.ws)))
    case Throw(arg) =>
      var t :- Comp(us, arg, l2);
      var s := One(t.us, OpThrow, 0);
      Built(Code(s.us, t.ws + s.ws))
    case Try(body, err, handler) =>
      if body.End? || handler.End? then Refused
      else
        var u := Top(us);
        var b :- CompBody(Put(us, u.(pc := u.pc + 1, tries := u.tries + 1)), body, l2);
        var us1 := Reserve(Skip(Restore(b.us, u), 2), err);
        var s := BindSlot(us1, |u.names|);
        var h :- CompBody(s.us, handler, l2);
        Built(Code(Restore(h.us, u), TryCatch(u.pc, b.ws, s.ws + h.ws)))
    case Loop(binds, body) =>
      if body.End? then Refused
      else
        var u := Top(us);
        var t :- CompInits(us, binds, l2);
        var v := Top(t.us);
        var frame := LoopFrame(v.pc, |u.names|, |Names(binds)|, u.tries);
        var b :- CompBody(Put(t.us, v.(names := u.names + Names(binds), loops := u.loops + [frame])), body, l2);
        Built(Code(Restore(b.us, u), t.ws + b.ws))
    case Recur(args) =>
      var loops := Top(us).loops;
      if loops == [] || loops[|loops| - 1].count != Length(args) then Refused
      else
        var t :- CompArgs(us, args, l2);
        Built(GoBack(t, loops[|loops| - 1]))
    case Call(head, args) =>
      if head.Var? && NativeOf(head.name).Some? && !Shadowed(us, head.name) then
        var op := NativeOf(head.name).value;
        var (us1, fused) := CompFused(us, op, head.name, args, l2);
        if fused.Some? then Built(Code(us1, fused.value))
        else
          var c := WithConst(us1, if l2 then OpFreezeNativeFunc else OpFreezeNative, Sym(head.name));
          var t :- CompArgs(c.us, args, l2);
          var s := One(t.us, OpNative(op), Length(args));
          Built(Code(s.us, c.ws + t.ws + s.ws))
      else
        var c :- CompHead(us, head, l2);
        var t :- CompArgs(c.us, args, l2);
        var s := One(t.us, OpCall, Length(args));
        Built(Code(s.us, c.ws + t.ws + s.ws))
    case Lambda(params, body) =>
      if body.End? then Refused
      else
        var t :- CompArgs(us + [NewUnit(params)], body, l2);
        if |t.us| < 2 then Refused
        else
          var sub := Finished(Top(t.us), t.ws + [Raw(OpReturn, 0)]);
          var outer: Nest := t.us[..|t.us| - 1];
          var u := Top(outer);
          Built(Closes(Put(outer, u.(subs := u.subs + [sub])), |u.subs|, AllFit(Top(t.us), t.ws)))
  }

  /** The instruction that makes a closure of the function's i-th chunk. */
  function Closes(us: Nest, i: nat, nested: bool): Code {
    Code(Skip(us, 1), [Raw(OpClosure, i, nested)])
  }

  /** Back to the start of the loop, out of the try scopes entered since. */
  function GoBack(t: Code, lp: LoopFrame): Code {
    var u := Top(t.us);
    var pops := PopTryWords(if u.tries >= lp.tries then u.tries - lp.tries else 0);
    var ws := Stores(lp.base, lp.count) + pops + [Raw(OpLoop, lp.start)];
    var us1 := Put(t.us, u.(binds := u.binds + StoreBinds(u.captured, u.pc, lp.base, lp.count)));
    Code(Skip(us1, |ws|), t.ws + ws)
  }

  function CompBody(us: Nest, fs: Forms, l2: bool): Built
    decreases fs, 0
  {
    match fs
    case End => Built(One(us, OpNil, 0))
    case Cons(f, tail) =>
      var t :- Comp(us, f, l2);
      if tail.End? then Built(t)
      else
        var p := One(t.us, OpPop, 0);
        var b :- CompBody(p.us, tail, l2);
        Built(Code(b.us, t.ws + p.ws + b.ws))
  }

  function CompArgs(us: Nest, fs: Forms, l2: bool): Built
    decreases fs, 0
  {
    match fs
    case End => Built(Code(us, []))
    case Cons(f, tail) =>
      var t :- Comp(us, f, l2);
      var b :- CompArgs(t.us, tail, l2);
      Built(Code(b.us, t.ws + b.ws))
  }

  function CompBinds(us: Nest, bs: Binds, l2: bool): Built
    decreases bs, 0
  {
    match bs
    case NoBinds => Built(Code(us, []))
    case Bind(x, init, rest) =>
      var t :- Comp(us, init, l2);
      var s := BindSlot(Reserve(t.us, x), |Top(t.us).names|);
      var b :- CompBinds(s.us, rest, l2);
      Built(Code(b.us, t.ws + s.ws + b.ws))
  }

  function CompInits(us: Nest, bs: Binds, l2: bool): Built
    decreases bs, 0
  {
    match bs
    case NoBinds => Built(Code(us, []))
    case Bind(_, init, rest) =>
      var slot := |Top(us).names|;
      var t :- Comp(Reserve(us, ""), init, l2);
      var s := BindSlot(t.us, slot);
      var b :- CompInits(s.us, rest, l2);
      Built(Code(b.us, t.ws + s.ws + b.ws))
  }

  function CompClauses(us: Nest, cs: Clauses, l2: bool): Built
    decreases cs, 0
  {
    match cs
    case NoClauses => Built(One(us, OpNil, 0))
    case Clause(test, body, rest) =>
      if IsElse(test) then CompBody(us, body, l2)
      else
        var t :- Comp(us, test, l2);
        var a :- CompBody(Skip(t.us, 1), body, l2);
        var b :- CompClauses(Skip(a.us, 1), rest, l2);
        Built(Code(b.us, t.ws + IfElse(a.ws, b.ws)))
  }

  function CompAnd(us: Nest, args: Forms, l2: bool): Built
    decreases args, 0
  {
    match args
    case End => Built(Code(us, []))
    case Cons(f, rest) =>
      var t :- Comp(Skip(us, 3), f, l2);
      var b :- CompAnd(t.us, rest, l2);
      Built(Code(b.us, AndThen(t.ws + b.ws)))
  }

  function CompOr(us: Nest, args: Forms, l2: bool): Built
    decreases args, 0
  {
    match args
    case End => Built(Code(us, []))
    case Cons(f, rest) =>
      var t :- Comp(Skip(us, 4), f, l2);
      var b :- CompOr(t.us, rest, l2);
      Built(Code(b.us, OrElse(t.ws + b.ws)))
  }
}
