/** The instructions each form compiles to, as a function of where they are placed. */
module CodeGen {
  import opened Forms
  import opened Machine

  /** The innermost loop: its first instruction, the slots recur writes, and the number of try
      scopes that enclosed it. */
  datatype LoopFrame = LoopFrame(start: nat, base: nat, count: nat, tries: nat)

  /** What emission depends on: the names of the reserved slots (a nameless slot is invisible),
      the innermost loop, the enclosing try scopes, the dialect's namespaces and the names the
      functions around this one bind. */
  datatype Ctx = Ctx(locals: seq<string>, lp: Option<LoopFrame>, tries: nat, lisp2: bool, outer: set<string> := {})

  /** The innermost slot holding x, searching from the end. */
  function ResolveLocal(locals: seq<string>, x: string): Option<nat> {
    if locals == [] then None
    else if locals[|locals| - 1] == x then Some(|locals| - 1)
    else ResolveLocal(locals[..|locals| - 1], x)
  }

  function Bound(c: Ctx, x: string): Ctx {
    c.(locals := c.locals + [x])
  }

  function GenConst(v: Value): Instr {
    match v
    case Nil => PushNil
    case Bool(b) => if b then PushTrue else PushFalse
    case _ => Push(v)
  }

  function GenVar(c: Ctx, x: string): Instr {
    match ResolveLocal(c.locals, x)
    case Some(i) => GetLocal(i)
    case None => GetGlobal(x)
  }

  /** A local or a scalar constant may be an operand of a fused instruction. */
  function FusedOperand(c: Ctx, f: Form): Option<Operand> {
    match f
    case Var(x) => (match ResolveLocal(c.locals, x) case Some(i) => Some(Local(i)) case None => None)
    case Const(v) => if Scalar(v) then Some(Lit(v)) else None
    case _ => None
  }

  /** The opcode a call compiles to natively: its head is a native operator that no local shadows,
      neither of this function nor of one around it. */
  function NativeHead(c: Ctx, head: Form): Option<NativeOp> {
    if head.Var? && ResolveLocal(c.locals, head.name).None? && head.name !in c.outer then NativeOf(head.name) else None
  }

  function FuseCall(c: Ctx, op: NativeOp, x: string, args: Forms): Option<Instr> {
    if args.Cons? && args.tail.Cons? && args.tail.tail.End? then
      match (FusedOperand(c, args.head), FusedOperand(c, args.tail.head))
      case (Some(a), Some(b)) => Some(Fused(op, x, c.lisp2, a, b))
      case _ => None
    else None
  }

  function GenHead(head: Form, c: Ctx, pc: nat): seq<Instr>
    decreases head, 1
  {
    if c.lisp2 && head.Var? then [GetFunc(head.name)] else Gen(head, c, pc)
  }

  function Gen(f: Form, c: Ctx, pc: nat): seq<Instr>
    decreases f, 0
  {
    match f
    case Const(v) => [GenConst(v)]
    case Quote(v) => [Push(v)]
    case Var(x) => [GenVar(c, x)]
    case Do(body) => GenBody(body, c, pc)
    case If(test, thn, els) =>
      var t := Gen(test, c, pc);
      var a := Gen(thn, c, pc + |t| + 1);
      var b := (match els case Some(f2) => Gen(f2, c, pc + |t| + |a| + 2) case None => [PushNil]);
      t + [JumpIfFalse(|a| + 1)] + a + [Jump(|b|)] + b
    case When(test, body) =>
      var t := Gen(test, c, pc);
      var a := GenBody(body, c, pc + |t| + 1);
      t + [JumpIfFalse(|a| + 1)] + a + [Jump(1)] + [PushNil]
    case Cond(clauses) => GenClauses(clauses, c, pc)
    case And(args) =>
      (match args
       case End => [PushTrue]
       case Cons(a, rest) =>
         var t := Gen(a, c, pc);
         t + GenAnd(rest, c, pc + |t|))
    case Or(args) =>
      (match args
       case End => [PushNil]
       case Cons(a, rest) =>
         var t := Gen(a, c, pc);
         t + GenOr(rest, c, pc + |t|))
    case Not(arg) => Gen(arg, c, pc) + [JumpIfFalse(2), PushFalse, Jump(1), PushTrue]
    case Let(binds, body) =>
      var t := GenBinds(binds, c, pc);
      t + GenBody(body, c.(locals := c.locals + Names(binds)), pc + |t|)
    case Assign(x, rhs) =>
      (match ResolveLocal(c.locals, x)
       case Some(i) => Gen(rhs, c, pc) + [SetLocal(i)]
       case None => [CheckLexical(x)] + Gen(rhs, c, pc + 1) + [SetLexical(x)])
    case Throw(arg) => Gen(arg, c, pc) + [Raise]
    case Try(body, err, handler) =>
      var b := GenBody(body, c.(tries := c.tries + 1), pc + 1);
      var at := pc + |b| + 3;
      var hd := GenBody(handler, Bound(c, err), at + 2);
      [SetupTry(at)] + b + [PopTry, Jump(|hd| + 2)] + [SetLocal(|c.locals|), Pop] + hd
    case Loop(binds, body) =>
      var base, n := |c.locals|, |Names(binds)|;
      var t := GenInits(binds, c, pc);
      var start := pc + |t|;
      t + GenBody(body, c.(locals := c.locals + Names(binds), lp := Some(LoopFrame(start, base, n, c.tries))), start)
    case Recur(args) =>
      var t := GenArgs(args, c, pc);
      (match c.lp
       case Some(lp) =>
         t + StoreArgs(lp.base, lp.count) + (if c.tries >= lp.tries then PopTries(c.tries - lp.tries) else []) +
             [LoopTo(lp.start)]
       case None => t)
    case Call(head, args) =>
      (match NativeHead(c, head)
       case Some(op) =>
         (match FuseCall(c, op, head.name, args)
          case Some(i) => [i]
          case None => [Freeze(head.name, c.lisp2)] + GenArgs(args, c, pc + 1) + [Native(op, Length(args))])
       case None =>
         var t := GenHead(head, c, pc);
         t + GenArgs(args, c, pc + |t|) + [Invoke(Length(args))])
    case Lambda(_, _) => [] // closures are outside the forms whose code is stated here
  }

  /** A body: every form but the last is dropped; an empty one is nil. */
  function GenBody(fs: Forms, c: Ctx, pc: nat): seq<Instr>
    decreases fs, 0
  {
    match fs
    case End => [PushNil]
    case Cons(f, tail) =>
      var t := Gen(f, c, pc);
      if tail.End? then t else t + [Pop] + GenBody(tail, c, pc + |t| + 1)
  }

  function GenArgs(fs: Forms, c: Ctx, pc: nat): seq<Instr>
    decreases fs, 0
  {
    match fs
    case End => []
    case Cons(f, tail) =>
      var t := Gen(f, c, pc);
      t + GenArgs(tail, c, pc + |t|)
  }

  function GenBinds(bs: Binds, c: Ctx, pc: nat): seq<Instr>
    decreases bs, 0
  {
    match bs
    case NoBinds => []
    case Bind(x, init, rest) =>
      var t := Gen(init, c, pc);
      t + [SetLocal(|c.locals|), Pop] + GenBinds(rest, Bound(c, x), pc + |t| + 2)
  }

  /** Loop initializers: the slot is reserved before its initializer, but stays nameless. */
  function GenInits(bs: Binds, c: Ctx, pc: nat): seq<Instr>
    decreases bs, 0
  {
    match bs
    case NoBinds => []
    case Bind(_, init, rest) =>
      var t := Gen(init, Bound(c, ""), pc);
      t + [SetLocal(|c.locals|), Pop] + GenInits(rest, Bound(c, ""), pc + |t| + 2)
  }

  function GenClauses(cs: Clauses, c: Ctx, pc: nat): seq<Instr>
    decreases cs, 0
  {
    match cs
    case NoClauses => [PushNil]
    case Clause(test, body, rest) =>
      if IsElse(test) then GenBody(body, c, pc)
      else
        var t := Gen(test, c, pc);
        var a := GenBody(body, c, pc + |t| + 1);
        var b := GenClauses(rest, c, pc + |t| + |a| + 2);
        t + [JumpIfFalse(|a| + 1)] + a + [Jump(|b|)] + b
  }

  function GenAnd(args: Forms, c: Ctx, pc: nat): seq<Instr>
    decreases args, 0
  {
    match args
    case End => []
    case Cons(a, rest) =>
      var t := Gen(a, c, pc + 3);
      var b := GenAnd(rest, c, pc + 3 + |t|);
      [Dup, JumpIfFalse(1 + |t| + |b|), Pop] + t + b
  }

  function GenOr(args: Forms, c: Ctx, pc: nat): seq<Instr>
    decreases args, 0
  {
    match args
    case End => []
    case Cons(a, rest) =>
      var t := Gen(a, c, pc + 4);
      var b := GenOr(rest, c, pc + 4 + |t|);
      [Dup, JumpIfFalse(1), Jump(1 + |t| + |b|), Pop] + t + b
  }

  /** recur stores its arguments from the last slot down. */
  function StoreArgs(base: nat, count: nat): seq<Instr> {
    if count == 0 then [] else [SetLocal(base + count - 1), Pop] + StoreArgs(base, count - 1)
  }

  function PopTries(n: nat): seq<Instr> {
    if n == 0 then [] else [PopTry] + PopTries(n - 1)
  }

  // ---- slots ----

  /** The number of slots a form reserves. */
  function Slots(f: Form): nat {
    match f
    case Const(_) => 0
    case Quote(_) => 0
    case Var(_) => 0
    case Do(body) => SlotsAll(body)
    case If(test, thn, els) => Slots(test) + Slots(thn) + (match els case Some(f2) => Slots(f2) case None => 0)
    case When(test, body) => Slots(test) + SlotsAll(body)
    case Cond(clauses) => SlotsClauses(clauses)
    case And(args) => SlotsAll(args)
    case Or(args) => SlotsAll(args)
    case Not(arg) => Slots(arg)
    case Let(binds, body) => SlotsBinds(binds) + SlotsAll(body)
    case Assign(_, rhs) => Slots(rhs)
    case Throw(arg) => Slots(arg)
    case Try(body, _, handler) => SlotsAll(body) + 1 + SlotsAll(handler)
    case Loop(binds, body) => SlotsBinds(binds) + SlotsAll(body)
    case Recur(args) => SlotsAll(args)
    case Call(head, args) => Slots(head) + SlotsAll(args)
    case Lambda(_, _) => 0
  }

  function SlotsAll(fs: Forms): nat {
    match fs
    case End => 0
    case Cons(f, tail) => Slots(f) + SlotsAll(tail)
  }

  function SlotsBinds(bs: Binds): nat {
    match bs
    case NoBinds => 0
    case Bind(_, init, rest) => Slots(init) + 1 + SlotsBinds(rest)
  }

  /** An else clause ends the cond: what follows it is never compiled. */
  function SlotsClauses(cs: Clauses): nat {
    match cs
    case NoClauses => 0
    case Clause(test, body, rest) =>
      if IsElse(test) then SlotsAll(body) else Slots(test) + SlotsAll(body) + SlotsClauses(rest)
  }

  // ---- the accepted forms ----

  /** No closures, names are non-empty, and recur stands only in tail position of a loop body of its arity:
      arity is the innermost loop's when f is in its tail position. */
  predicate Accepted(f: Form, arity: Option<nat>) {
    match f
    case Const(_) => true
    case Quote(_) => true
    case Var(x) => x != ""
    case Do(body) => AcceptedBody(body, arity)
    case If(test, thn, els) =>
      Accepted(test, None) && Accepted(thn, arity) && (match els case Some(f2) => Accepted(f2, arity) case None => true)
    case When(test, body) => Accepted(test, None) && AcceptedBody(body, arity)
    case Cond(clauses) => AcceptedClauses(clauses, arity)
    case And(args) => AcceptedBody(args, arity)
    case Or(args) => AcceptedBody(args, arity)
    case Not(arg) => Accepted(arg, None)
    case Let(binds, body) => AcceptedBinds(binds) && AcceptedBody(body, arity)
    case Assign(x, rhs) => x != "" && Accepted(rhs, None)
    case Throw(arg) => Accepted(arg, None)
    case Try(body, err, handler) => err != "" && AcceptedBody(body, arity) && AcceptedBody(handler, arity)
    case Loop(binds, body) => AcceptedBinds(binds) && AcceptedBody(body, Some(|Names(binds)|))
    case Recur(args) => arity == Some(Length(args)) && AcceptedArgs(args)
    case Call(head, args) => Accepted(head, None) && AcceptedArgs(args)
    case Lambda(_, _) => false
  }

  predicate AcceptedArgs(fs: Forms) {
    match fs
    case End => true
    case Cons(f, tail) => Accepted(f, None) && AcceptedArgs(tail)
  }

  predicate AcceptedBody(fs: Forms, arity: Option<nat>) {
    match fs
    case End => true
    case Cons(f, tail) => if tail.End? then Accepted(f, arity) else Accepted(f, None) && AcceptedBody(tail, arity)
  }

  predicate AcceptedBinds(bs: Binds) {
    match bs
    case NoBinds => true
    case Bind(x, init, rest) => x != "" && Accepted(init, None) && AcceptedBinds(rest)
  }

  predicate AcceptedClauses(cs: Clauses, arity: Option<nat>) {
    match cs
    case NoClauses => true
    case Clause(test, body, rest) =>
      AcceptedBody(body, arity) && (IsElse(test) || (Accepted(test, None) && AcceptedClauses(rest, arity)))
  }

  // ---- one level at a time ----

  lemma {:induction false} OfIf(f: Form, c: Ctx, pc: nat)
    requires f.If?
    ensures var t := Gen(f.test, c, pc);
            var a := Gen(f.thn, c, pc + |t| + 1);
            var b := (match f.els case Some(f2) => Gen(f2, c, pc + |t| + |a| + 2) case None => [PushNil]);
            Gen(f, c, pc) == t + [JumpIfFalse(|a| + 1)] + a + [Jump(|b|)] + b
  {
    hide GenAnd, GenOr, GenBody, GenClauses, GenBinds, GenInits, GenArgs;
  }

  lemma {:induction false} OfWhen(f: Form, c: Ctx, pc: nat)
    requires f.When?
    ensures var t := Gen(f.test, c, pc);
            var a := GenBody(f.body, c, pc + |t| + 1);
            Gen(f, c, pc) == t + [JumpIfFalse(|a| + 1)] + a + [Jump(1)] + [PushNil]
  {
    hide GenAnd, GenOr, GenBody, GenClauses, GenBinds, GenInits, GenArgs;
  }

  lemma {:induction false} OfNot(f: Form, c: Ctx, pc: nat)
    requires f.Not?
    ensures Gen(f, c, pc) == Gen(f.arg, c, pc) + [JumpIfFalse(2)] + [PushFalse] + [Jump(1)] + [PushTrue]
  {
    hide GenAnd, GenOr, GenBody, GenClauses, GenBinds, GenInits, GenArgs;
  }

  lemma {:induction false} OfAndOr(f: Form, c: Ctx, pc: nat)
    requires f.And? || f.Or?
    ensures f.args.End? ==> Gen(f, c, pc) == [if f.And? then PushTrue else PushNil]
    ensures f.args.Cons? ==>
      var t := Gen(f.args.head, c, pc);
      Gen(f, c, pc) == t + if f.And? then GenAnd(f.args.tail, c, pc + |t|) else GenOr(f.args.tail, c, pc + |t|)
  {
    hide GenAnd, GenOr, GenBody, GenClauses, GenBinds, GenInits, GenArgs;
  }

  lemma {:induction false} OfAnd(args: Forms, c: Ctx, pc: nat)
    ensures args.End? ==> GenAnd(args, c, pc) == []
    ensures args.Cons? ==>
      var t := Gen(args.head, c, pc + 3);
      var b := GenAnd(args.tail, c, pc + 3 + |t|);
      GenAnd(args, c, pc) == [Dup, JumpIfFalse(1 + |t| + |b|)] + [Pop] + (t + b)
  {
    hide Gen;
  }

  lemma {:induction false} OfOr(args: Forms, c: Ctx, pc: nat)
    ensures args.End? ==> GenOr(args, c, pc) == []
    ensures args.Cons? ==>
      var t := Gen(args.head, c, pc + 4);
      var b := GenOr(args.tail, c, pc + 4 + |t|);
      GenOr(args, c, pc) == [Dup, JumpIfFalse(1)] + [Jump(1 + |t| + |b|)] + ([Pop] + t + b)
  {
    hide Gen;
  }

  lemma {:induction false} OfLet(f: Form, c: Ctx, pc: nat)
    requires f.Let?
    ensures var t := GenBinds(f.binds, c, pc);
            Gen(f, c, pc) == t + GenBody(f.body, c.(locals := c.locals + Names(f.binds)), pc + |t|)
  {
    hide GenAnd, GenOr, GenBody, GenClauses, GenBinds, GenInits, GenArgs;
  }

  lemma {:induction false} OfAssign(f: Form, c: Ctx, pc: nat)
    requires f.Assign?
    ensures Gen(f, c, pc) ==
            match ResolveLocal(c.locals, f.name)
            case Some(i) => Gen(f.rhs, c, pc) + [SetLocal(i)]
            case None => [CheckLexical(f.name)] + Gen(f.rhs, c, pc + 1) + [SetLexical(f.name)]
  {
    hide GenAnd, GenOr, GenBody, GenClauses, GenBinds, GenInits, GenArgs, ResolveLocal;
  }

  lemma {:induction false} OfThrow(f: Form, c: Ctx, pc: nat)
    requires f.Throw?
    ensures Gen(f, c, pc) == Gen(f.arg, c, pc) + [Raise]
  {
    hide GenAnd, GenOr, GenBody, GenClauses, GenBinds, GenInits, GenArgs;
  }

  lemma {:induction false} OfTry(f: Form, c: Ctx, pc: nat)
    requires f.Try?
    ensures var b := GenBody(f.body, c.(tries := c.tries + 1), pc + 1);
            var at := pc + |b| + 3;
            var hd := GenBody(f.handler, Bound(c, f.err), at + 2);
            Gen(f, c, pc) == [SetupTry(at)] + b + ([PopTry] + [Jump(|hd| + 2)] + ([SetLocal(|c.locals|), Pop] + hd))
  {
    hide GenAnd, GenOr, GenBody, GenClauses, GenBinds, GenInits, GenArgs;
  }

  lemma {:induction false} OfLoop(f: Form, c: Ctx, pc: nat)
    requires f.Loop?
    ensures var t := GenInits(f.binds, c, pc);
            Gen(f, c, pc) == t + GenBody(f.body, LoopCtx(c, Names(f.binds), pc + |t|), pc + |t|)
  {
    hide GenAnd, GenOr, GenBody, GenClauses, GenBinds, GenInits, GenArgs;
  }

  /** The context of a loop body whose first instruction is at start. */
  function LoopCtx(c: Ctx, names: seq<string>, start: nat): Ctx {
    c.(locals := c.locals + names, lp := Some(LoopFrame(start, |c.locals|, |names|, c.tries)))
  }

  lemma {:induction false} OfRecur(f: Form, c: Ctx, pc: nat)
    requires f.Recur? && c.lp.Some? && c.lp.value.tries <= c.tries
    ensures Gen(f, c, pc) == GenArgs(f.args, c, pc) + Back(c)
  {
    hide GenAnd, GenOr, GenBody, GenClauses, GenBinds, GenInits, GenArgs;
    var t, lp := GenArgs(f.args, c, pc), c.lp.value;
    assert t + StoreArgs(lp.base, lp.count) + PopTries(c.tries - lp.tries) + [LoopTo(lp.start)] == t + Back(c);
  }

  /** What recur runs after its arguments. */
  function Back(c: Ctx): seq<Instr>
    requires c.lp.Some? && c.lp.value.tries <= c.tries
  {
    var lp := c.lp.value;
    StoreArgs(lp.base, lp.count) + PopTries(c.tries - lp.tries) + [LoopTo(lp.start)]
  }

  lemma {:induction false} OfCall(f: Form, c: Ctx, pc: nat)
    requires f.Call? && NativeHead(c, f.head).None?
    ensures var t := GenHead(f.head, c, pc);
            Gen(f, c, pc) == t + GenArgs(f.args, c, pc + |t|) + [Invoke(Length(f.args))]
  {
    hide GenAnd, GenOr, GenBody, GenClauses, GenBinds, GenInits, GenArgs, GenHead;
  }

  lemma {:induction false} OfNative(f: Form, c: Ctx, pc: nat)
    requires f.Call? && NativeHead(c, f.head).Some?
    ensures var op := NativeHead(c, f.head).value;
            Gen(f, c, pc) ==
              match FuseCall(c, op, f.head.name, f.args)
              case Some(i) => [i]
              case None => [Freeze(f.head.name, c.lisp2)] + GenArgs(f.args, c, pc + 1) + [Native(op, Length(f.args))]
  {
    hide GenAnd, GenOr, GenBody, GenClauses, GenBinds, GenInits, GenArgs, FuseCall;
  }

  lemma {:induction false} OfClauses(cs: Clauses, c: Ctx, pc: nat)
    ensures cs.NoClauses? ==> GenClauses(cs, c, pc) == [PushNil]
    ensures cs.Clause? && IsElse(cs.test) ==> GenClauses(cs, c, pc) == GenBody(cs.body, c, pc)
    ensures cs.Clause? && !IsElse(cs.test) ==>
      var t := Gen(cs.test, c, pc);
      var a := GenBody(cs.body, c, pc + |t| + 1);
      var b := GenClauses(cs.rest, c, pc + |t| + |a| + 2);
      GenClauses(cs, c, pc) == t + [JumpIfFalse(|a| + 1)] + a + [Jump(|b|)] + b
  {
    hide Gen, GenBody;
  }
}
