/** Compilation as a whole: every form's code, every closure's chunk, and the finished chunk. */
module Finishing {
  import opened Forms
  import opened Machine
  import opened CodeGen
  import opened Bytecode
  import opened Lowering
  import opened Emission

  // ---- a finished function ----

  lemma {:induction false} ArgBelow(a: FusedArg, constants: nat, slots: nat, slots': nat)
    requires ArgOk(a, constants, slots) && slots <= slots'
    ensures ArgOk(a, constants, slots')
  {
  }

  lemma {:induction false} FusedBelow(f: FusedOp, constants: seq<Value>, slots: nat, slots': nat)
    requires FusedOk(f, constants, slots) && slots <= slots'
    ensures FusedOk(f, constants, slots')
  {
    ArgBelow(f.a, |constants|, slots, slots');
    ArgBelow(f.b, |constants|, slots, slots');
  }

  lemma {:induction false} CapsBelow(c: Chunk, u: Unit, sub: Chunk)
    requires DescsOk(u, sub.caps) && c.captured == u.captured && c.caps == u.descs && c.maxStack >= u.locals
    ensures CapturesOk(c, sub)
  {
    forall i | 0 <= i < |sub.caps| ensures DescOk(sub.caps[i], c.captured, |c.caps|, c.maxStack) {
      assert DescOk(sub.caps[i], u.captured, |u.descs|, u.locals);
    }
  }

  /** An instruction in range of its function is in range of the chunk, if packing keeps it. */
  lemma {:induction false} WordValid(u: Unit, c: Chunk, w: Raw, ip: nat, end: nat)
    requires Fine(u, w, ip, end) && Fit(u, w)
    requires ip < end < |c.code| && c.code[ip] == Rewritten(u.captured, u.binds, ip, Packed(w))
    requires c.constants == u.constants && c.fused == u.fused && c.subs == u.subs && c.captured == u.captured
    requires c.caps == u.descs && c.locals == u.locals && c.maxStack >= u.locals
    ensures ValidAt(c, ip)
  {
    hide Valid, FusedOk, CapturesOk, DescsOk, Marked, Encode;
    EncodeExact(w.op, w.a);
    if w.op.OpFused? { FusedValid(u, c, w, ip); }
    if w.op.OpClosure? { CapsBelow(c, u, u.subs[w.a]); }
  }

  lemma {:induction false} FusedValid(u: Unit, c: Chunk, w: Raw, ip: nat)
    requires w.op.OpFused? && w.a < |u.fused| && FusedOk(u.fused[w.a], u.constants, u.locals) && Fit(u, w)
    requires ip < |c.code| && c.code[ip] == Rewritten(u.captured, u.binds, ip, Packed(w))
    requires c.constants == u.constants && c.fused == u.fused && c.maxStack >= u.locals
    ensures ValidAt(c, ip)
  {
    hide FusedOk, Marked;
    FusedBelow(u.fused[w.a], u.constants, u.locals, c.maxStack);
    assert u.fused[w.a % LIMIT] == u.fused[w.a];
  }

  lemma {:induction false} FinishedValid(u: Unit, ws: seq<Raw>)
    requires AllFine(u, ws, 0) && AllFit(u, ws)
    ensures Valid(Finished(u, ws + [Raw(OpReturn, 0)]))
  {
    hide Fine, MaxStack, Rewritten, Packed, Fit;
    var all := ws + [Raw(OpReturn, 0)];
    var c := Finished(u, all);
    ReturnStays(u, |ws|);
    forall ip | 0 <= ip < |c.code| ensures ValidAt(c, ip) {
      if ip < |ws| {
        WordValid(u, c, ws[ip], ip, |ws|);
      } else {
        ReturnValid(c, ip);
      }
    }
  }

  lemma {:induction false} ReturnStays(u: Unit, ip: nat)
    ensures Rewritten(u.captured, u.binds, ip, Packed(Raw(OpReturn, 0))) == Word(OpReturn, 0)
  {
  }

  lemma {:induction false} ReturnValid(c: Chunk, ip: nat)
    requires ip < |c.code| && c.code[ip].op.OpReturn?
    ensures ValidAt(c, ip)
  {
  }

  /** Different fused instructions stand for different things, for equal constants are one. */
  lemma {:induction false} FusedApart(constants: seq<Value>, f: FusedOp, g: FusedOp)
    requires Distinct(constants) && DecFused(constants, f).Some?
    ensures DecFused(constants, f) == DecFused(constants, g) <==> f == g
  {
  }

  /** A packed instruction stands for what it stood for exactly when packing kept it. */
  lemma {:induction false} PackedStands(u: Unit, w: Raw, at: nat, end: nat)
    requires Fine(u, w, at, end) && Distinct(u.constants) && Stands(u, w).Some?
    ensures Decode(u.constants, u.fused, Packed(w)) == Stands(u, w) <==> Fit(u, w)
  {
    hide DecFused, Encode, FusedOk, Distinct;
    EncodeExact(w.op, w.a);
    if w.a >= LIMIT {
      var cut := w.a % LIMIT;
      assert Packed(w) == Word(w.op, cut) && cut < LIMIT <= w.a by { EncodeCuts(w.op, w.a); }
      if w.op.OpFused? {
        FusedApart(u.constants, u.fused[w.a], u.fused[cut]);
      } else if w.a < |u.constants| {
        ConstantsApart(u.constants, cut, w.a);
      }
    }
  }

  lemma {:induction false} EncodeCuts(op: Opcode, a: nat)
    ensures Encode(op, a) == Word(op, a % LIMIT) && a % LIMIT < LIMIT
  {
  }

  lemma {:induction false} ConstantsApart(vs: seq<Value>, i: nat, j: nat)
    requires Distinct(vs) && i < j < |vs|
    ensures vs[i] != vs[j] && (vs[i].Sym? && vs[j].Sym? ==> vs[i].name != vs[j].name)
  {
  }

  /** The code of a finished function decodes to what it was emitted for, and its return, exactly
      when packing kept every instruction. */
  lemma {:induction false} FinishedMeans(u: Unit, ws: seq<Raw>, code: seq<Instr>)
    requires Decodes(u, ws, code) && AllFine(u, ws, 0) && UnitOk(u)
    ensures Means(Finished(u, ws + [Raw(OpReturn, 0)]), code + [Return]) <==> AllFit(u, ws)
  {
    hide Stands, Decode, MaxStack, Rewritten, Packed, Fit, Fine, Distinct;
    var all, prog := ws + [Raw(OpReturn, 0)], code + [Return];
    var c := Finished(u, all);
    ReturnStays(u, |ws|);
    ReturnDecodes(u);
    forall ip | 0 <= ip < |ws| ensures Decode(c.constants, c.fused, c.code[ip]) == Some(prog[ip]) <==> Fit(u, ws[ip]) {
      RewrittenDecodes(u, ip, Packed(ws[ip]));
      PackedStands(u, ws[ip], ip, |ws|);
    }
    if AllFit(u, ws) {
      forall ip | 0 <= ip < |prog| ensures Decode(c.constants, c.fused, c.code[ip]) == Some(prog[ip]) {}
    } else {
      var ip :| 0 <= ip < |ws| && !Fit(u, ws[ip]);
      assert Decode(c.constants, c.fused, c.code[ip]) != Some(prog[ip]);
    }
  }

  lemma {:induction false} RewrittenDecodes(u: Unit, ip: nat, w: Word)
    ensures Decode(u.constants, u.fused, Rewritten(u.captured, u.binds, ip, w)) == Decode(u.constants, u.fused, w)
  {
  }

  lemma {:induction false} ReturnDecodes(u: Unit)
    ensures Decode(u.constants, u.fused, Word(OpReturn, 0)) == Some(Return)
  {
  }

  // ---- which code is stated ----

  predicate ClosureFree(f: Form) {
    match f
    case Const(_) => true
    case Quote(_) => true
    case Var(_) => true
    case Do(body) => ClosureFreeAll(body)
    case If(test, thn, els) => ClosureFree(test) && ClosureFree(thn) && (els.None? || ClosureFree(els.value))
    case When(test, body) => ClosureFree(test) && ClosureFreeAll(body)
    case Cond(clauses) => ClosureFreeClauses(clauses)
    case And(args) => ClosureFreeAll(args)
    case Or(args) => ClosureFreeAll(args)
    case Not(arg) => ClosureFree(arg)
    case Let(binds, body) => ClosureFreeBinds(binds) && ClosureFreeAll(body)
    case Assign(_, rhs) => ClosureFree(rhs)
    case Throw(arg) => ClosureFree(arg)
    case Try(body, _, handler) => ClosureFreeAll(body) && ClosureFreeAll(handler)
    case Loop(binds, body) => ClosureFreeBinds(binds) && ClosureFreeAll(body)
    case Recur(args) => ClosureFreeAll(args)
    case Call(head, args) => ClosureFree(head) && ClosureFreeAll(args)
    case Lambda(_, _) => false
  }

  predicate ClosureFreeAll(fs: Forms) {
    fs.End? || (ClosureFree(fs.head) && ClosureFreeAll(fs.tail))
  }

  predicate ClosureFreeBinds(bs: Binds) {
    bs.NoBinds? || (ClosureFree(bs.init) && ClosureFreeBinds(bs.rest))
  }

  predicate ClosureFreeClauses(cs: Clauses) {
    || cs.NoClauses?
    || (ClosureFreeAll(cs.body) && (IsElse(cs.test) || (ClosureFree(cs.test) && ClosureFreeClauses(cs.rest))))
  }

  /** Nothing was captured by the innermost function so far. */
  predicate Closed(r: Built) {
    r.Built? && Top(r.code.us).descs == []
  }

  /** The instructions a form's code stands for, when it holds no closures and captures nothing. */
  function Out(us: Nest, f: Form, l2: bool): Option<seq<Instr>> {
    if ClosureFree(f) && Closed(Comp(us, f, l2)) then Some(Gen(f, CtxOf(us, l2), Top(us).pc)) else None
  }

  function OutBody(us: Nest, fs: Forms, l2: bool): Option<seq<Instr>> {
    if ClosureFreeAll(fs) && Closed(CompBody(us, fs, l2)) then Some(GenBody(fs, CtxOf(us, l2), Top(us).pc)) else None
  }

  function OutArgs(us: Nest, fs: Forms, l2: bool): Option<seq<Instr>> {
    if ClosureFreeAll(fs) && Closed(CompArgs(us, fs, l2)) then Some(GenArgs(fs, CtxOf(us, l2), Top(us).pc)) else None
  }

  function OutBinds(us: Nest, bs: Binds, l2: bool): Option<seq<Instr>> {
    if ClosureFreeBinds(bs) && Closed(CompBinds(us, bs, l2))
    then Some(GenBinds(bs, CtxOf(us, l2), Top(us).pc)) else None
  }

  function OutInits(us: Nest, bs: Binds, l2: bool): Option<seq<Instr>> {
    if ClosureFreeBinds(bs) && Closed(CompInits(us, bs, l2))
    then Some(GenInits(bs, CtxOf(us, l2), Top(us).pc)) else None
  }

  function OutClauses(us: Nest, cs: Clauses, l2: bool): Option<seq<Instr>> {
    if ClosureFreeClauses(cs) && Closed(CompClauses(us, cs, l2))
    then Some(GenClauses(cs, CtxOf(us, l2), Top(us).pc)) else None
  }

  function OutAnd(us: Nest, fs: Forms, l2: bool): Option<seq<Instr>> {
    if ClosureFreeAll(fs) && Closed(CompAnd(us, fs, l2)) then Some(GenAnd(fs, CtxOf(us, l2), Top(us).pc)) else None
  }

  function OutOr(us: Nest, fs: Forms, l2: bool): Option<seq<Instr>> {
    if ClosureFreeAll(fs) && Closed(CompOr(us, fs, l2)) then Some(GenOr(fs, CtxOf(us, l2), Top(us).pc)) else None
  }

  // ---- forms ----

  lemma {:induction false} Frame(us: Nest, c: Code, names: seq<string>, x: Option<seq<Instr>>)
    requires Made(us, c, names, x)
    ensures Sound(c.us) && |c.us| == |us| && Top(c.us).pc == Top(us).pc + |c.ws|
    ensures Top(c.us).names == names && Top(c.us).loops == Top(us).loops && Top(c.us).tries == Top(us).tries
    ensures x.Some? ==> |x.value| == |c.ws|
    ensures Outer(c.us) == Outer(us) && (Top(c.us).descs == [] ==> Top(us).descs == [])
  {
    GrownOuter(us, c.us);
  }

  /** What the code of f does to the functions being compiled. */
  lemma {:induction false} Compiles(us: Nest, f: Form, l2: bool)
    requires Sound(us) && Comp(us, f, l2).Built?
    ensures Made(us, Comp(us, f, l2).code, Top(us).names, Out(us, f, l2))
    decreases f, 2
  {
    hide *;
    match f {
      case Const(_) => CompilesLeaf(us, f, l2);
      case Quote(_) => CompilesLeaf(us, f, l2);
      case Var(_) => CompilesLeaf(us, f, l2);
      case Do(_) => CompilesDo(us, f, l2);
      case If(_, _, _) => CompilesIf(us, f, l2);
      case When(_, _) => CompilesWhen(us, f, l2);
      case Cond(_) => CompilesDo(us, f, l2);
      case And(_) => CompilesAndOr(us, f, l2);
      case Or(_) => CompilesAndOr(us, f, l2);
      case Not(_) => CompilesNot(us, f, l2);
      case Let(_, _) => CompilesLet(us, f, l2);
      case Assign(_, _) => CompilesAssign(us, f, l2);
      case Throw(_) => CompilesThrow(us, f, l2);
      case Try(_, _, _) => CompilesTry(us, f, l2);
      case Loop(_, _) => CompilesLoop(us, f, l2);
      case Recur(_) => CompilesRecur(us, f, l2);
      case Call(_, _) => CompilesCall(us, f, l2);
      case Lambda(_, _) => CompilesLambda(us, f, l2);
    }
  }

  lemma {:induction false} CompilesLeaf(us: Nest, f: Form, l2: bool)
    requires Sound(us) && (f.Const? || f.Quote? || f.Var?)
    ensures Comp(us, f, l2).Built? && Made(us, Comp(us, f, l2).code, Top(us).names, Out(us, f, l2))
    decreases f, 1
  {
    hide Outer, Made, Sound, ResolveLocal, WithConst, AncestorBinds, Capture;
    if f.Quote? {
      ConstMade(us, OpConst, f.v);
    } else if f.Const? {
      if f.v.Nil? { PlainMade(us, OpNil); }
      else if f.v.Bool? { PlainMade(us, if f.v.b then OpTrue else OpFalse); }
      else { ConstMade(us, OpConst, f.v); }
    } else {
      TopOk(us);
      ResolvedAt(Top(us).names, f.name);
      if ResolveLocal(Top(us).names, f.name).Some? {
        SlotMade(us, OpGetLocal, ResolveLocal(Top(us).names, f.name).value);
      } else if AncestorBinds(us, f.name) {
        CaptureMade(us, OpGetCap, f.name);
        CaptureOpens(us, OpGetCap, f.name);
      } else {
        ConstMade(us, OpGetGlobal, Sym(f.name));
      }
    }
    if Out(us, f, l2).None? { Unclosed(us, Comp(us, f, l2).code, Top(us).names, f, l2); }
  }

  /** A name taken from a function around leaves a capture behind. */
  lemma {:induction false} CaptureOpens(us: Nest, op: Opcode, x: string)
    requires Sound(us) && AncestorBinds(us, x)
    ensures Top(Capture(us, op, x).us).descs != []
  {
    hide Sound, ResolveLocal, CapIndex, Mark;
    TopOk(us);
  }

  lemma {:induction false} Weaker(us: Nest, c: Code, names: seq<string>, x: Option<seq<Instr>>)
    requires Made(us, c, names, x)
    ensures Made(us, c, names, None)
  {
    hide Grown, Sound, AllFine;
  }

  lemma {:induction false} CompilesDo(us: Nest, f: Form, l2: bool)
    requires (f.Do? || f.Cond?) && Sound(us) && Comp(us, f, l2).Built?
    ensures Made(us, Comp(us, f, l2).code, Top(us).names, Out(us, f, l2))
    decreases f, 1
  {
    hide Outer, Made, Sound, CompBody, CompClauses, GenBody, GenClauses, ClosureFreeAll, ClosureFreeClauses;
    if f.Do? { CompilesBody(us, f.body, l2); } else { CompilesClauses(us, f.clauses, l2); }
  }

  function Else(us: Nest, els: Option<Form>, l2: bool): Built {
    match els
    case Some(e) => Comp(us, e, l2)
    case None => Built(One(us, OpNil, 0))
  }

  function OutElse(us: Nest, els: Option<Form>, l2: bool): Option<seq<Instr>> {
    match els
    case Some(e) => Out(us, e, l2)
    case None => if Top(us).descs == [] then Some([PushNil]) else None
  }

  lemma {:induction false} UnfoldIf(us: Nest, f: Form, l2: bool)
    requires f.If? && Comp(us, f, l2).Built?
    ensures Comp(us, f.test, l2).Built?
    ensures var t := Comp(us, f.test, l2).code;
      && Comp(Skip(t.us, 1), f.thn, l2).Built?
      && var a := Comp(Skip(t.us, 1), f.thn, l2).code;
      && Else(Skip(a.us, 1), f.els, l2).Built?
      && var b := Else(Skip(a.us, 1), f.els, l2).code;
      && Comp(us, f, l2).code == Code(b.us, t.ws + IfElse(a.ws, b.ws))
    ensures ClosureFree(f) <==> ClosureFree(f.test) && ClosureFree(f.thn) && (f.els.None? || ClosureFree(f.els.value))
  {
    hide CompBody, CompClauses, CompBinds, CompInits, CompArgs, CompAnd, CompOr, CompHead, CompFused, GoBack, IfElse,
         Skip, WithConst;
  }

  /** A test and the two ways on from it. */
  lemma {:induction false} Tested(us: Nest, t: Code, a: Code, b: Code, names: seq<string>, x: Option<seq<Instr>>,
      y: Option<seq<Instr>>, z: Option<seq<Instr>>)
    requires Made(us, t, names, x) && Made(Skip(t.us, 1), a, names, y) && Made(Skip(a.us, 1), b, names, z)
    ensures Made(us, Code(b.us, t.ws + IfElse(a.ws, b.ws)), names, Joined(x, IfElseOut(y, z)))
  {
    hide Outer, Made, Sound, IfElse, Skip;
    Frame(us, t, names, x);
    Branches(t.us, a, b, names, y, z);
    Then(us, t, Code(b.us, IfElse(a.ws, b.ws)), names, names, x, IfElseOut(y, z));
  }

  lemma {:induction false} TestedAssoc(x: seq<Instr>, y: seq<Instr>, z: seq<Instr>)
    ensures Joined(Some(x), IfElseOut(Some(y), Some(z))) == Some(x + [JumpIfFalse(|y| + 1)] + y + [Jump(|z|)] + z)
  {
    assert x + [JumpIfFalse(|y| + 1)] + y + [Jump(|z|)] + z == x + ([JumpIfFalse(|y| + 1)] + y + [Jump(|z|)] + z);
  }

  lemma {:induction false} CompilesIf(us: Nest, f: Form, l2: bool)
    requires f.If? && Sound(us) && Comp(us, f, l2).Built?
    ensures Made(us, Comp(us, f, l2).code, Top(us).names, Out(us, f, l2))
    decreases f, 1
  {
    hide Outer, Made, Sound, Grown, Comp, Gen, ClosureFree, IfElse;
    UnfoldIf(us, f, l2);
    var names := Top(us).names;
    var t := Comp(us, f.test, l2).code;
    Compiles(us, f.test, l2);
    Frame(us, t, names, Out(us, f.test, l2));
    var us1 := Skip(t.us, 1);
    Skipped(t.us, 1);
    var a := Comp(us1, f.thn, l2).code;
    Compiles(us1, f.thn, l2);
    Frame(us1, a, names, Out(us1, f.thn, l2));
    var us2 := Skip(a.us, 1);
    Skipped(a.us, 1);
    var b := Else(us2, f.els, l2).code;
    CompilesElse(us2, f.els, l2, f);
    Frame(us2, b, names, OutElse(us2, f.els, l2));
    Tested(us, t, a, b, names, Out(us, f.test, l2), Out(us1, f.thn, l2), OutElse(us2, f.els, l2));
    if Out(us, f, l2).Some? { OfIf(f, CtxOf(us, l2), Top(us).pc); IfAssoc(us, f, l2, t, a); }
    else { Unclosed(us, Comp(us, f, l2).code, names, f, l2); }
  }

  lemma {:induction false} CompilesElse(us: Nest, els: Option<Form>, l2: bool, f: Form)
    requires f.If? && els == f.els && Sound(us) && Else(us, els, l2).Built?
    ensures Made(us, Else(us, els, l2).code, Top(us).names, OutElse(us, els, l2))
    decreases f, 0
  {
    hide Outer, Made, Sound, Comp, Gen, ClosureFree;
    if els.Some? {
      Compiles(us, els.value, l2);
    } else {
      PlainMade(us, OpNil);
      Weaker(us, One(us, OpNil, 0), Top(us).names, Some([PushNil]));
    }
  }

  lemma {:induction false} IfAssoc(us: Nest, f: Form, l2: bool, t: Code, a: Code)
    requires f.If? && Out(us, f, l2).Some? && Out(us, f.test, l2).Some? && Out(Skip(t.us, 1), f.thn, l2).Some?
    requires OutElse(Skip(a.us, 1), f.els, l2).Some?
    requires CtxOf(Skip(t.us, 1), l2) == CtxOf(us, l2) && CtxOf(Skip(a.us, 1), l2) == CtxOf(us, l2)
    requires Top(t.us).pc == Top(us).pc + |Out(us, f.test, l2).value|
    requires Top(a.us).pc == Top(t.us).pc + 1 + |Out(Skip(t.us, 1), f.thn, l2).value|
    requires var c, pc := CtxOf(us, l2), Top(us).pc;
      var x := Gen(f.test, c, pc);
      var y := Gen(f.thn, c, pc + |x| + 1);
      var z := (match f.els case Some(e) => Gen(e, c, pc + |x| + |y| + 2) case None => [PushNil]);
      Gen(f, c, pc) == x + [JumpIfFalse(|y| + 1)] + y + [Jump(|z|)] + z
    ensures Out(us, f, l2) == Joined(Out(us, f.test, l2),
        IfElseOut(Out(Skip(t.us, 1), f.thn, l2), OutElse(Skip(a.us, 1), f.els, l2)))
  {
    hide Gen, ClosureFree, Comp, CtxOf, Outer;
    var x, y, z := Out(us, f.test, l2).value, Out(Skip(t.us, 1), f.thn, l2).value,
        OutElse(Skip(a.us, 1), f.els, l2).value;
    TestedAssoc(x, y, z);
  }

  /** When no code is stated of the whole, it does not matter what was stated of the parts. */
  lemma {:induction false} Unclosed(us: Nest, c: Code, names: seq<string>, f: Form, l2: bool)
    requires Out(us, f, l2).None?
    ensures forall x :: Made(us, c, names, x) ==> Made(us, c, names, Out(us, f, l2))
  {
    hide Made;
    forall x | Made(us, c, names, x) ensures Made(us, c, names, None) { Weaker(us, c, names, x); }
  }

  lemma {:induction false} UnfoldWhen(us: Nest, f: Form, l2: bool)
    requires f.When? && Comp(us, f, l2).Built?
    ensures Comp(us, f.test, l2).Built?
    ensures var t := Comp(us, f.test, l2).code;
      && CompBody(Skip(t.us, 1), f.body, l2).Built?
      && var a := CompBody(Skip(t.us, 1), f.body, l2).code;
      && var b := One(Skip(a.us, 1), OpNil, 0);
      && Comp(us, f, l2).code == Code(b.us, t.ws + IfElse(a.ws, b.ws))
    ensures ClosureFree(f) <==> ClosureFree(f.test) && ClosureFreeAll(f.body)
  {
    hide CompBody, CompClauses, CompBinds, CompInits, CompArgs, CompAnd, CompOr, CompHead, CompFused, GoBack, IfElse,
         Skip, WithConst, ClosureFreeAll;
  }

  lemma {:induction false} CompilesWhen(us: Nest, f: Form, l2: bool)
    requires f.When? && Sound(us) && Comp(us, f, l2).Built?
    ensures Made(us, Comp(us, f, l2).code, Top(us).names, Out(us, f, l2))
    decreases f, 1
  {
    hide Outer, Made, Sound, Grown, Comp, CompBody, Gen, GenBody, ClosureFree, ClosureFreeAll, IfElse;
    UnfoldWhen(us, f, l2);
    var names := Top(us).names;
    var t := Comp(us, f.test, l2).code;
    Compiles(us, f.test, l2);
    Frame(us, t, names, Out(us, f.test, l2));
    var us1 := Skip(t.us, 1);
    Skipped(t.us, 1);
    var a := CompBody(us1, f.body, l2).code;
    CompilesBody(us1, f.body, l2);
    Frame(us1, a, names, OutBody(us1, f.body, l2));
    Skipped(a.us, 1);
    PlainMade(Skip(a.us, 1), OpNil);
    Frame(Skip(a.us, 1), One(Skip(a.us, 1), OpNil, 0), names, Some([PushNil]));
    Tested(us, t, a, One(Skip(a.us, 1), OpNil, 0), names, Out(us, f.test, l2), OutBody(us1, f.body, l2),
        Some([PushNil]));
    if Out(us, f, l2).Some? {
      OfWhen(f, CtxOf(us, l2), Top(us).pc);
      TestedAssoc(Out(us, f.test, l2).value, OutBody(us1, f.body, l2).value, [PushNil]);
    } else {
      Unclosed(us, Comp(us, f, l2).code, names, f, l2);
    }
  }

  lemma {:induction false} UnfoldClauses(us: Nest, cs: Clauses, l2: bool)
    requires cs.Clause? && !IsElse(cs.test) && CompClauses(us, cs, l2).Built?
    ensures Comp(us, cs.test, l2).Built?
    ensures var t := Comp(us, cs.test, l2).code;
      && CompBody(Skip(t.us, 1), cs.body, l2).Built?
      && var a := CompBody(Skip(t.us, 1), cs.body, l2).code;
      && CompClauses(Skip(a.us, 1), cs.rest, l2).Built?
      && var b := CompClauses(Skip(a.us, 1), cs.rest, l2).code;
      && CompClauses(us, cs, l2).code == Code(b.us, t.ws + IfElse(a.ws, b.ws))
  {
    hide Comp, CompBody, IfElse, Skip;
  }

  lemma {:induction false} CompilesClauses(us: Nest, cs: Clauses, l2: bool)
    requires Sound(us) && CompClauses(us, cs, l2).Built?
    ensures Made(us, CompClauses(us, cs, l2).code, Top(us).names, OutClauses(us, cs, l2))
    decreases cs, 1
  {
    hide Outer, Made, Sound, Grown, Comp, CompBody, Gen, GenBody, ClosureFree, ClosureFreeAll, IfElse, GenClauses;
    var names := Top(us).names;
    OfClauses(cs, CtxOf(us, l2), Top(us).pc);
    if cs.NoClauses? {
      PlainMade(us, OpNil);
      Weaker(us, One(us, OpNil, 0), names, Some([PushNil]));
    } else if IsElse(cs.test) {
      CompilesBody(us, cs.body, l2);
      Weaker(us, CompBody(us, cs.body, l2).code, names, OutBody(us, cs.body, l2));
    } else {
      CompilesClause(us, cs, l2);
    }
  }

  lemma {:induction false} CompilesClause(us: Nest, cs: Clauses, l2: bool)
    requires Sound(us) && CompClauses(us, cs, l2).Built? && cs.Clause? && !IsElse(cs.test)
    ensures Made(us, CompClauses(us, cs, l2).code, Top(us).names, OutClauses(us, cs, l2))
    decreases cs, 0
  {
    hide Outer, Made, Sound, Grown, Comp, CompBody, Gen, GenBody, ClosureFree, ClosureFreeAll, IfElse, GenClauses;
    var names := Top(us).names;
    OfClauses(cs, CtxOf(us, l2), Top(us).pc);
    UnfoldClauses(us, cs, l2);
    var t := Comp(us, cs.test, l2).code;
    Compiles(us, cs.test, l2);
    Frame(us, t, names, Out(us, cs.test, l2));
    var us1 := Skip(t.us, 1);
    Skipped(t.us, 1);
    var a := CompBody(us1, cs.body, l2).code;
    CompilesBody(us1, cs.body, l2);
    Frame(us1, a, names, OutBody(us1, cs.body, l2));
    var us2 := Skip(a.us, 1);
    Skipped(a.us, 1);
    var b := CompClauses(us2, cs.rest, l2).code;
    CompilesClauses(us2, cs.rest, l2);
    Frame(us2, b, names, OutClauses(us2, cs.rest, l2));
    var x, y, z := Out(us, cs.test, l2), OutBody(us1, cs.body, l2), OutClauses(us2, cs.rest, l2);
    Tested(us, t, a, b, names, x, y, z);
    Weaker(us, CompClauses(us, cs, l2).code, names, Joined(x, IfElseOut(y, z)));
    if OutClauses(us, cs, l2).Some? { TestedAssoc(x.value, y.value, z.value); }
  }

  lemma {:induction false} CompilesBody(us: Nest, fs: Forms, l2: bool)
    requires Sound(us) && CompBody(us, fs, l2).Built?
    ensures Made(us, CompBody(us, fs, l2).code, Top(us).names, OutBody(us, fs, l2))
    decreases fs, 0
  {
    hide Outer, Made, Sound, Grown, Comp, Gen, ClosureFree;
    var names := Top(us).names;
    if fs.End? {
      PlainMade(us, OpNil);
      Weaker(us, One(us, OpNil, 0), names, Some([PushNil]));
    } else {
      var t := Comp(us, fs.head, l2).code;
      Compiles(us, fs.head, l2);
      var x := Out(us, fs.head, l2);
      Frame(us, t, names, x);
      if !fs.tail.End? {
        var p := One(t.us, OpPop, 0);
        PlainMade(t.us, OpPop);
        Frame(t.us, p, names, Some([Pop]));
        var b := CompBody(p.us, fs.tail, l2).code;
        CompilesBody(p.us, fs.tail, l2);
        var y := OutBody(p.us, fs.tail, l2);
        Frame(p.us, b, names, y);
        Then(us, t, p, names, names, x, Some([Pop]));
        Then(us, Code(p.us, t.ws + p.ws), b, names, names, Joined(x, Some([Pop])), y);
        Weaker(us, CompBody(us, fs, l2).code, names, Joined(Joined(x, Some([Pop])), y));
      } else {
        Weaker(us, t, names, x);
      }
    }
  }

  lemma {:induction false} CompilesArgs(us: Nest, fs: Forms, l2: bool)
    requires Sound(us) && CompArgs(us, fs, l2).Built?
    ensures Made(us, CompArgs(us, fs, l2).code, Top(us).names, OutArgs(us, fs, l2))
    ensures |CompArgs(us, fs, l2).code.ws| >= Length(fs)
    decreases fs, 0
  {
    hide Outer, Made, Sound, Grown, Comp, Gen, ClosureFree;
    var names := Top(us).names;
    if fs.End? {
      Nothing(us);
      Weaker(us, Code(us, []), names, Some([]));
    } else {
      var t := Comp(us, fs.head, l2).code;
      Compiles(us, fs.head, l2);
      EmitsSome(us, fs.head, l2);
      var x := Out(us, fs.head, l2);
      Frame(us, t, names, x);
      var b := CompArgs(t.us, fs.tail, l2).code;
      CompilesArgs(t.us, fs.tail, l2);
      Frame(t.us, b, names, OutArgs(t.us, fs.tail, l2));
      Then(us, t, b, names, names, x, OutArgs(t.us, fs.tail, l2));
      Weaker(us, CompArgs(us, fs, l2).code, names, Joined(x, OutArgs(t.us, fs.tail, l2)));
    }
  }

  /** Every form emits something. */
  lemma {:induction false} EmitsSome(us: Nest, f: Form, l2: bool)
    requires Comp(us, f, l2).Built?
    ensures |Comp(us, f, l2).code.ws| > 0
    decreases f, 3
  {
    hide CompBody, CompClauses, CompBinds, CompInits, CompArgs, CompAnd, CompOr, Names, Restore;
    match f {
      case Do(body) => BodyEmits(us, body, l2);
      case Cond(clauses) => ClausesEmit(us, clauses, l2);
      case And(args) => if args.Cons? { EmitsSome(us, args.head, l2); }
      case Or(args) => if args.Cons? { EmitsSome(us, args.head, l2); }
      case Let(binds, body) => BodyEmits(CompBinds(us, binds, l2).code.us, body, l2);
      case Loop(binds, body) =>
        var t := CompInits(us, binds, l2).code;
        var u, v := Top(us), Top(t.us);
        var frame := LoopFrame(v.pc, |u.names|, |Names(binds)|, u.tries);
        BodyEmits(Put(t.us, v.(names := u.names + Names(binds), loops := u.loops + [frame])), body, l2);
      case _ =>
    }
  }

  lemma {:induction false} BodyEmits(us: Nest, fs: Forms, l2: bool)
    requires CompBody(us, fs, l2).Built?
    ensures |CompBody(us, fs, l2).code.ws| > 0
    decreases fs, 3
  {
    hide Comp;
    if fs.Cons? { EmitsSome(us, fs.head, l2); }
  }

  lemma {:induction false} ClausesEmit(us: Nest, cs: Clauses, l2: bool)
    requires CompClauses(us, cs, l2).Built?
    ensures |CompClauses(us, cs, l2).code.ws| > 0
    decreases cs, 3
  {
    hide Comp, CompBody;
    if cs.Clause? && IsElse(cs.test) { BodyEmits(us, cs.body, l2); }
  }

  lemma {:induction false} UnfoldNot(us: Nest, f: Form, l2: bool)
    requires f.Not? && Comp(us, f, l2).Built?
    ensures Comp(us, f.arg, l2).Built? && (ClosureFree(f) <==> ClosureFree(f.arg))
    ensures var t := Comp(us, f.arg, l2).code;
      var a := One(Skip(t.us, 1), OpFalse, 0);
      var b := One(Skip(a.us, 1), OpTrue, 0);
      Comp(us, f, l2).code == Code(b.us, t.ws + IfElse(a.ws, b.ws))
  {
    hide CompBody, CompClauses, CompBinds, CompInits, CompArgs, CompAnd, CompOr, CompHead, CompFused, GoBack, IfElse,
         Skip, WithConst;
  }

  lemma {:induction false} CompilesNot(us: Nest, f: Form, l2: bool)
    requires f.Not? && Sound(us) && Comp(us, f, l2).Built?
    ensures Made(us, Comp(us, f, l2).code, Top(us).names, Out(us, f, l2))
    decreases f, 1
  {
    hide Outer, Made, Sound, Grown, Comp, Gen, ClosureFree, IfElse;
    UnfoldNot(us, f, l2);
    var names := Top(us).names;
    var t := Comp(us, f.arg, l2).code;
    Compiles(us, f.arg, l2);
    var x := Out(us, f.arg, l2);
    Frame(us, t, names, x);
    Skipped(t.us, 1);
    var a := One(Skip(t.us, 1), OpFalse, 0);
    PlainMade(Skip(t.us, 1), OpFalse);
    Frame(Skip(t.us, 1), a, names, Some([PushFalse]));
    Skipped(a.us, 1);
    PlainMade(Skip(a.us, 1), OpTrue);
    Frame(Skip(a.us, 1), One(Skip(a.us, 1), OpTrue, 0), names, Some([PushTrue]));
    Tested(us, t, a, One(Skip(a.us, 1), OpTrue, 0), names, x, Some([PushFalse]), Some([PushTrue]));
    if Out(us, f, l2).Some? {
      OfNot(f, CtxOf(us, l2), Top(us).pc);
      TestedAssoc(x.value, [PushFalse], [PushTrue]);
    } else {
      Unclosed(us, Comp(us, f, l2).code, names, f, l2);
    }
  }

  lemma {:induction false} UnfoldAndOr(us: Nest, f: Form, l2: bool)
    requires (f.And? || f.Or?) && Comp(us, f, l2).Built?
    ensures ClosureFree(f) <==> ClosureFreeAll(f.args)
    ensures f.args.End? ==> Comp(us, f, l2).code == One(us, if f.And? then OpTrue else OpNil, 0)
    ensures f.args.Cons? ==>
      && Comp(us, f.args.head, l2).Built?
      && var t := Comp(us, f.args.head, l2).code;
      && var r := if f.And? then CompAnd(t.us, f.args.tail, l2) else CompOr(t.us, f.args.tail, l2);
      && r.Built? && Comp(us, f, l2).code == Code(r.code.us, t.ws + r.code.ws)
  {
    hide CompBody, CompClauses, CompBinds, CompInits, CompArgs, CompAnd, CompOr, CompHead, CompFused, GoBack, IfElse,
         Skip, WithConst, ClosureFreeAll;
  }

  lemma {:induction false} CompilesAndOr(us: Nest, f: Form, l2: bool)
    requires (f.And? || f.Or?) && Sound(us) && Comp(us, f, l2).Built?
    ensures Made(us, Comp(us, f, l2).code, Top(us).names, Out(us, f, l2))
    decreases f, 1
  {
    hide Outer, Made, Sound, Grown, Comp, Gen, ClosureFree, CompAnd, CompOr, GenAnd, GenOr;
    UnfoldAndOr(us, f, l2);
    var names := Top(us).names;
    OfAndOr(f, CtxOf(us, l2), Top(us).pc);
    if f.args.End? {
      var op := if f.And? then OpTrue else OpNil;
      PlainMade(us, op);
      Weaker(us, One(us, op, 0), names, Some([PlainInstr(op)]));
    } else {
      var t := Comp(us, f.args.head, l2).code;
      Compiles(us, f.args.head, l2);
      var x := Out(us, f.args.head, l2);
      Frame(us, t, names, x);
      if f.And? {
        CompilesAnd(t.us, f.args.tail, l2);
        Frame(t.us, CompAnd(t.us, f.args.tail, l2).code, names, OutAnd(t.us, f.args.tail, l2));
        Then(us, t, CompAnd(t.us, f.args.tail, l2).code, names, names, x, OutAnd(t.us, f.args.tail, l2));
        Weaker(us, Comp(us, f, l2).code, names, Joined(x, OutAnd(t.us, f.args.tail, l2)));
      } else {
        CompilesOr(t.us, f.args.tail, l2);
        Frame(t.us, CompOr(t.us, f.args.tail, l2).code, names, OutOr(t.us, f.args.tail, l2));
        Then(us, t, CompOr(t.us, f.args.tail, l2).code, names, names, x, OutOr(t.us, f.args.tail, l2));
        Weaker(us, Comp(us, f, l2).code, names, Joined(x, OutOr(t.us, f.args.tail, l2)));
      }
    }
  }

  lemma {:induction false} CircuitAssoc(x: seq<Instr>, y: seq<Instr>)
    ensures AndOut(Joined(Some(x), Some(y))) == Some([Dup, JumpIfFalse(1 + |x| + |y|)] + [Pop] + (x + y))
    ensures OrOut(Joined(Some(x), Some(y))) == Some([Dup, JumpIfFalse(1)] + [Jump(1 + |x| + |y|)] + ([Pop] + x + y))
  {
    assert [Dup, JumpIfFalse(1 + |x| + |y|), Pop] + (x + y) == [Dup, JumpIfFalse(1 + |x| + |y|)] + [Pop] + (x + y);
    assert [Dup, JumpIfFalse(1), Jump(1 + |x| + |y|), Pop] + (x + y) ==
        [Dup, JumpIfFalse(1)] + [Jump(1 + |x| + |y|)] + ([Pop] + x + y);
  }

  lemma {:induction false} CompilesAnd(us: Nest, fs: Forms, l2: bool)
    requires Sound(us) && CompAnd(us, fs, l2).Built?
    ensures Made(us, CompAnd(us, fs, l2).code, Top(us).names, OutAnd(us, fs, l2))
    decreases fs, 0
  {
    hide Outer, Made, Sound, Grown, Comp, Gen, ClosureFree, AndThen, GenAnd;
    var names := Top(us).names;
    OfAnd(fs, CtxOf(us, l2), Top(us).pc);
    if fs.End? {
      Nothing(us);
      Weaker(us, Code(us, []), names, Some([]));
    } else {
      var us1 := Skip(us, 3);
      Skipped(us, 3);
      var t := Comp(us1, fs.head, l2).code;
      Compiles(us1, fs.head, l2);
      var x := Out(us1, fs.head, l2);
      Frame(us1, t, names, x);
      var b := CompAnd(t.us, fs.tail, l2).code;
      CompilesAnd(t.us, fs.tail, l2);
      var y := OutAnd(t.us, fs.tail, l2);
      Frame(t.us, b, names, y);
      Then(us1, t, b, names, names, x, y);
      Circuits(us, Code(b.us, t.ws + b.ws), names, Joined(x, y), true);
      Weaker(us, CompAnd(us, fs, l2).code, names, AndOut(Joined(x, y)));
      if OutAnd(us, fs, l2).Some? { CircuitAssoc(x.value, y.value); }
    }
  }

  lemma {:induction false} CompilesOr(us: Nest, fs: Forms, l2: bool)
    requires Sound(us) && CompOr(us, fs, l2).Built?
    ensures Made(us, CompOr(us, fs, l2).code, Top(us).names, OutOr(us, fs, l2))
    decreases fs, 0
  {
    hide Outer, Made, Sound, Grown, Comp, Gen, ClosureFree, OrElse, GenOr;
    var names := Top(us).names;
    OfOr(fs, CtxOf(us, l2), Top(us).pc);
    if fs.End? {
      Nothing(us);
      Weaker(us, Code(us, []), names, Some([]));
    } else {
      var us1 := Skip(us, 4);
      Skipped(us, 4);
      var t := Comp(us1, fs.head, l2).code;
      Compiles(us1, fs.head, l2);
      var x := Out(us1, fs.head, l2);
      Frame(us1, t, names, x);
      var b := CompOr(t.us, fs.tail, l2).code;
      CompilesOr(t.us, fs.tail, l2);
      var y := OutOr(t.us, fs.tail, l2);
      Frame(t.us, b, names, y);
      Then(us1, t, b, names, names, x, y);
      Circuits(us, Code(b.us, t.ws + b.ws), names, Joined(x, y), false);
      Weaker(us, CompOr(us, fs, l2).code, names, OrOut(Joined(x, y)));
      if OutOr(us, fs, l2).Some? { CircuitAssoc(x.value, y.value); }
    }
  }

  lemma {:induction false} UnfoldThrow(us: Nest, f: Form, l2: bool)
    requires f.Throw? && Comp(us, f, l2).Built?
    ensures Comp(us, f.arg, l2).Built? && (ClosureFree(f) <==> ClosureFree(f.arg))
    ensures var t := Comp(us, f.arg, l2).code;
      var s := One(t.us, OpThrow, 0);
      Comp(us, f, l2).code == Code(s.us, t.ws + s.ws)
  {
    hide CompBody, CompClauses, CompBinds, CompInits, CompArgs, CompAnd, CompOr, CompHead, CompFused, GoBack, IfElse,
         Skip, WithConst;
  }

  lemma {:induction false} CompilesThrow(us: Nest, f: Form, l2: bool)
    requires f.Throw? && Sound(us) && Comp(us, f, l2).Built?
    ensures Made(us, Comp(us, f, l2).code, Top(us).names, Out(us, f, l2))
    decreases f, 1
  {
    hide Outer, Made, Sound, Grown, Comp, Gen, ClosureFree;
    UnfoldThrow(us, f, l2);
    var names := Top(us).names;
    var t := Comp(us, f.arg, l2).code;
    Compiles(us, f.arg, l2);
    var x := Out(us, f.arg, l2);
    Frame(us, t, names, x);
    PlainMade(t.us, OpThrow);
    Frame(t.us, One(t.us, OpThrow, 0), names, Some([Raise]));
    Then(us, t, One(t.us, OpThrow, 0), names, names, x, Some([Raise]));
    Weaker(us, Comp(us, f, l2).code, names, Joined(x, Some([Raise])));
    OfThrow(f, CtxOf(us, l2), Top(us).pc);
  }

  lemma {:induction false} UnfoldLet(us: Nest, f: Form, l2: bool)
    requires f.Let? && Comp(us, f, l2).Built?
    ensures CompBinds(us, f.binds, l2).Built?
    ensures var t := CompBinds(us, f.binds, l2).code;
      && CompBody(t.us, f.body, l2).Built?
      && var b := CompBody(t.us, f.body, l2).code;
      && Comp(us, f, l2).code == Code(Restore(b.us, Top(us)), t.ws + b.ws)
    ensures ClosureFree(f) <==> ClosureFreeBinds(f.binds) && ClosureFreeAll(f.body)
  {
    hide CompBody, CompClauses, CompBinds, CompInits, CompArgs, CompAnd, CompOr, CompHead, CompFused, GoBack, IfElse,
         Skip, WithConst, ClosureFreeAll, ClosureFreeBinds;
  }

  lemma {:induction false} CompilesLet(us: Nest, f: Form, l2: bool)
    requires f.Let? && Sound(us) && Comp(us, f, l2).Built?
    ensures Made(us, Comp(us, f, l2).code, Top(us).names, Out(us, f, l2))
    decreases f, 1
  {
    hide Outer, Made, Sound, Grown, Comp, CompBinds, CompBody, Gen, GenBinds, GenBody, ClosureFree, ClosureFreeAll,
         ClosureFreeBinds, Names, Restore;
    UnfoldLet(us, f, l2);
    var names, inner := Top(us).names, Top(us).names + Names(f.binds);
    var t := CompBinds(us, f.binds, l2).code;
    CompilesBinds(us, f.binds, l2);
    var x := OutBinds(us, f.binds, l2);
    Frame(us, t, inner, x);
    var b := CompBody(t.us, f.body, l2).code;
    CompilesBody(t.us, f.body, l2);
    var y := OutBody(t.us, f.body, l2);
    Frame(t.us, b, inner, y);
    RestoreSame(b.us, Top(us));
    Then(us, t, b, inner, inner, x, y);
    SelfGrown(us);
    Leaves(us, us, Code(b.us, t.ws + b.ws), inner, Joined(x, y));
    Weaker(us, Comp(us, f, l2).code, names, Joined(x, y));
    OfLet(f, CtxOf(us, l2), Top(us).pc);
  }

  lemma {:induction false} RestoreSame(us: Nest, v: Unit)
    ensures Top(Restore(us, v)).descs == Top(us).descs
  {
  }

  lemma {:induction false} UnfoldBinds(us: Nest, bs: Binds, l2: bool)
    requires bs.Bind? && CompBinds(us, bs, l2).Built?
    ensures Comp(us, bs.init, l2).Built?
    ensures var t := Comp(us, bs.init, l2).code;
      var s := BindSlot(Reserve(t.us, bs.name), |Top(t.us).names|);
      && CompBinds(s.us, bs.rest, l2).Built?
      && var b := CompBinds(s.us, bs.rest, l2).code;
      && CompBinds(us, bs, l2).code == Code(b.us, t.ws + s.ws + b.ws)
  {
    hide Comp, BindSlot, Reserve;
  }

  lemma {:induction false} CompilesBinds(us: Nest, bs: Binds, l2: bool)
    requires Sound(us) && CompBinds(us, bs, l2).Built?
    ensures Made(us, CompBinds(us, bs, l2).code, Top(us).names + Names(bs), OutBinds(us, bs, l2))
    decreases bs, 0
  {
    hide Outer, Made, Sound, Grown, Comp, Gen, ClosureFree, BindSlot, CompBinds;
    var names := Top(us).names;
    if bs.NoBinds? {
      NoBinding(us, l2);
    } else {
      UnfoldBinds(us, bs, l2);
      var x, rest := bs.name, bs.rest;
      var t := Comp(us, bs.init, l2).code;
      Compiles(us, bs.init, l2);
      var o := Out(us, bs.init, l2);
      Frame(us, t, names, o);
      var us1 := Reserve(t.us, x);
      ReserveOk(t.us, x);
      TopOk(us1);
      var s := BindSlot(us1, |names|);
      BindMade(us1, |names|);
      var inner := names + [x];
      Frame(us1, s, inner, Some([SetLocal(|names|), Pop]));
      var b := CompBinds(s.us, rest, l2).code;
      CompilesBinds(s.us, rest, l2);
      var y := OutBinds(s.us, rest, l2);
      Frame(s.us, b, inner + Names(rest), y);
      assert inner + Names(rest) == names + Names(bs);
      Then(us1, s, b, inner, names + Names(bs), Some([SetLocal(|names|), Pop]), y);
      Binds2(us, t, us1, Code(b.us, s.ws + b.ws), names, names + Names(bs), o,
          Joined(Some([SetLocal(|names|), Pop]), y));
      assert t.ws + (s.ws + b.ws) == t.ws + s.ws + b.ws;
      Weaker(us, CompBinds(us, bs, l2).code, names + Names(bs), Joined(o, Joined(Some([SetLocal(|names|), Pop]), y)));
      if OutBinds(us, bs, l2).Some? { BindAssoc(us, bs, l2, s.us); }
    }
  }

  lemma {:induction false} NoBinding(us: Nest, l2: bool)
    requires Sound(us)
    ensures CompBinds(us, NoBinds, l2) == Built(Code(us, []))
    ensures Made(us, Code(us, []), Top(us).names + Names(NoBinds), OutBinds(us, NoBinds, l2))
  {
    hide Outer, Made, Sound;
    Nothing(us);
    Weaker(us, Code(us, []), Top(us).names, Some([]));
    assert Top(us).names + [] == Top(us).names;
  }

  /** An initializer, a slot reserved after it, and what follows. */
  lemma {:induction false} Binds2(us: Nest, t: Code, vs: Nest, b: Code, names: seq<string>, inner: seq<string>,
      x: Option<seq<Instr>>, y: Option<seq<Instr>>)
    requires Made(us, t, names, x) && Made(vs, b, inner, y)
    requires Grown(t.us, vs) && Top(vs).pc == Top(t.us).pc && Top(vs).loops == Top(t.us).loops
    requires Top(vs).tries == Top(t.us).tries
    ensures Made(us, Code(b.us, t.ws + b.ws), inner, Joined(x, y))
  {
    hide Grows, Gained, Good, Sound;
    GrownOn(t.us, vs, b.us);
    GrownOn(us, t.us, b.us);
    GoodStays(Top(t.us), Top(b.us), t.ws, Top(us).pc, x);
    GoodJoined(Top(b.us), t.ws, b.ws, Top(us).pc, x, y);
  }

  lemma {:induction false} BindAssoc(us: Nest, bs: Binds, l2: bool, vs: Nest)
    requires bs.Bind? && OutBinds(us, bs, l2).Some? && Out(us, bs.init, l2).Some? && OutBinds(vs, bs.rest, l2).Some?
    requires CtxOf(vs, l2) == Bound(CtxOf(us, l2), bs.name)
    requires Top(vs).pc == Top(us).pc + |Gen(bs.init, CtxOf(us, l2), Top(us).pc)| + 2
    ensures var n := |Top(us).names|;
      OutBinds(us, bs, l2) == Joined(Out(us, bs.init, l2), Joined(Some([SetLocal(n), Pop]), OutBinds(vs, bs.rest, l2)))
  {
    hide Gen, ClosureFree, Comp, CompBinds, Outer;
    var n, x, y := |Top(us).names|, Out(us, bs.init, l2).value, OutBinds(vs, bs.rest, l2).value;
    assert x + [SetLocal(n), Pop] + y == x + ([SetLocal(n), Pop] + y);
  }

  lemma {:induction false} UnfoldAssign(us: Nest, f: Form, l2: bool)
    requires f.Assign? && Comp(us, f, l2).Built?
    ensures ClosureFree(f) <==> ClosureFree(f.rhs)
    ensures var slot := ResolveLocal(Top(us).names, f.name);
      if slot.Some? || AncestorBinds(us, f.name) then
        && Comp(us, f.rhs, l2).Built?
        && var r := Comp(us, f.rhs, l2).code;
        && var s := if slot.Some? then One(r.us, OpSetLocal, slot.value) else Capture(r.us, OpSetCap, f.name);
        && Comp(us, f, l2).code == Code(s.us, r.ws + s.ws)
      else
        var c := WithConst(us, OpCheckLexical, Sym(f.name));
        && Comp(c.us, f.rhs, l2).Built?
        && var r := Comp(c.us, f.rhs, l2).code;
        && var s := WithConst(r.us, OpSetLexical, Sym(f.name));
        && Comp(us, f, l2).code == Code(s.us, c.ws + r.ws + s.ws)
  {
    hide CompBody, CompClauses, CompBinds, CompInits, CompArgs, CompAnd, CompOr, CompHead, CompFused, GoBack, IfElse,
         Skip, WithConst, Capture, AncestorBinds, ResolveLocal;
  }

  lemma {:induction false} CompilesAssign(us: Nest, f: Form, l2: bool)
    requires f.Assign? && Sound(us) && Comp(us, f, l2).Built?
    ensures Made(us, Comp(us, f, l2).code, Top(us).names, Out(us, f, l2))
    decreases f, 1
  {
    hide Outer, Made, Sound, Grown, Comp, Gen, ClosureFree, AncestorBinds, ResolveLocal, Capture, WithConst;
    UnfoldAssign(us, f, l2);
    var names, slot := Top(us).names, ResolveLocal(Top(us).names, f.name);
    OfAssign(f, CtxOf(us, l2), Top(us).pc);
    if slot.None? && !AncestorBinds(us, f.name) {
      AssignsRoot(us, f, l2);
    } else {
      var r := Comp(us, f.rhs, l2).code;
      Compiles(us, f.rhs, l2);
      var x := Out(us, f.rhs, l2);
      Frame(us, r, names, x);
      if slot.Some? {
        TopOk(r.us);
        ResolvedAt(names, f.name);
        SlotMade(r.us, OpSetLocal, slot.value);
        Frame(r.us, One(r.us, OpSetLocal, slot.value), names, Some([SetLocal(slot.value)]));
        Then(us, r, One(r.us, OpSetLocal, slot.value), names, names, x, Some([SetLocal(slot.value)]));
        Weaker(us, Comp(us, f, l2).code, names, Joined(x, Some([SetLocal(slot.value)])));
      } else {
        StillBound(us, r, names, x, f.name);
        CaptureMade(r.us, OpSetCap, f.name);
        CaptureOpens(r.us, OpSetCap, f.name);
        Then(us, r, Capture(r.us, OpSetCap, f.name), names, names, x, None);
      }
    }
  }

  /** Enclosing functions keep their names. */
  lemma {:induction false} StillBound(us: Nest, c: Code, names: seq<string>, x: Option<seq<Instr>>, name: string)
    requires Made(us, c, names, x) && AncestorBinds(us, name)
    ensures AncestorBinds(c.us, name)
  {
    hide Good, Sound, ResolveLocal;
    var i :| 0 <= i < |us| - 1 && ResolveLocal(us[i].names, name).Some?;
    assert Gained(us[i], c.us[i]);
  }

  lemma {:induction false} AssignsRoot(us: Nest, f: Form, l2: bool)
    requires f.Assign? && Sound(us) && ResolveLocal(Top(us).names, f.name).None?
    requires var c := WithConst(us, OpCheckLexical, Sym(f.name));
      && Comp(c.us, f.rhs, l2).Built?
      && var r := Comp(c.us, f.rhs, l2).code;
      && var s := WithConst(r.us, OpSetLexical, Sym(f.name));
      && Comp(us, f, l2) == Built(Code(s.us, c.ws + r.ws + s.ws))
    requires ClosureFree(f) <==> ClosureFree(f.rhs)
    requires Gen(f, CtxOf(us, l2), Top(us).pc) ==
        [CheckLexical(f.name)] + Gen(f.rhs, CtxOf(us, l2), Top(us).pc + 1) + [SetLexical(f.name)]
    ensures Made(us, Comp(us, f, l2).code, Top(us).names, Out(us, f, l2))
    decreases f, 0
  {
    hide Outer, Made, Sound, Grown, Comp, Gen, ClosureFree, ResolveLocal, WithConst;
    var names, x := Top(us).names, Sym(f.name);
    var c := WithConst(us, OpCheckLexical, x);
    ConstMade(us, OpCheckLexical, x);
    Frame(us, c, names, Some([CheckLexical(f.name)]));
    var r := Comp(c.us, f.rhs, l2).code;
    Compiles(c.us, f.rhs, l2);
    var o := Out(c.us, f.rhs, l2);
    Frame(c.us, r, names, o);
    var s := WithConst(r.us, OpSetLexical, x);
    ConstMade(r.us, OpSetLexical, x);
    Frame(r.us, s, names, Some([SetLexical(f.name)]));
    Then(us, c, r, names, names, Some([CheckLexical(f.name)]), o);
    Then(us, Code(r.us, c.ws + r.ws), s, names, names, Joined(Some([CheckLexical(f.name)]), o),
        Some([SetLexical(f.name)]));
    Weaker(us, Comp(us, f, l2).code, names,
        Joined(Joined(Some([CheckLexical(f.name)]), o), Some([SetLexical(f.name)])));
  }

  /** c is the code of a try: its body in a try scope, the handler's slot bound, the handler. */
  ghost predicate TryParts(us: Nest, body: Forms, err: string, handler: Forms, l2: bool, c: Code) {
    var u := Top(us);
    var usb := Put(us, u.(pc := u.pc + 1, tries := u.tries + 1));
    && CompBody(usb, body, l2).Built?
    && var b := CompBody(usb, body, l2).code;
    && var s := BindSlot(Reserve(Skip(Restore(b.us, u), 2), err), |u.names|);
    && CompBody(s.us, handler, l2).Built?
    && var h := CompBody(s.us, handler, l2).code;
    && c == Code(Restore(h.us, u), TryCatch(u.pc, b.ws, s.ws + h.ws))
  }

  lemma {:induction false} UnfoldTry(us: Nest, f: Form, l2: bool)
    requires f.Try? && Comp(us, f, l2).Built?
    ensures ClosureFree(f) <==> ClosureFreeAll(f.body) && ClosureFreeAll(f.handler)
    ensures TryParts(us, f.body, f.err, f.handler, l2, Comp(us, f, l2).code)
  {
    hide CompBody, CompClauses, CompBinds, CompInits, CompArgs, CompAnd, CompOr, CompHead, CompFused, GoBack, IfElse,
         Skip, WithConst, Restore, BindSlot, Reserve, TryCatch, ClosureFreeAll;
  }

  lemma {:induction false} CompilesTry(us: Nest, f: Form, l2: bool)
    requires f.Try? && Sound(us) && Comp(us, f, l2).Built?
    ensures Made(us, Comp(us, f, l2).code, Top(us).names, Out(us, f, l2))
    decreases f, 1
  {
    hide Outer, Made, Sound, Grown, Comp, CompBody, Gen, GenBody, ClosureFree, ClosureFreeAll, BindSlot, TryCatch;
    UnfoldTry(us, f, l2);
    var u := Top(us);
    var names, inner, n := u.names, u.names + [f.err], |u.names|;
    var usb := Put(us, u.(pc := u.pc + 1, tries := u.tries + 1));
    EntersTry(us);
    var b := CompBody(usb, f.body, l2).code;
    CompilesBody(usb, f.body, l2);
    var x := OutBody(usb, f.body, l2);
    Frame(usb, b, names, x);
    var us1 := Reserve(Skip(Restore(b.us, u), 2), f.err);
    LeavesTry(us, usb, b, names, x, f.err);
    TopOk(us1);
    var s := BindSlot(us1, n);
    assert |Top(us1).names| == n + 1;
    BindMade(us1, n);
    Frame(us1, s, inner, Some([SetLocal(n), Pop]));
    var h := CompBody(s.us, f.handler, l2).code;
    CompilesBody(s.us, f.handler, l2);
    var y := OutBody(s.us, f.handler, l2);
    Frame(s.us, h, inner, y);
    RestoreSame(h.us, u);
    Then(us1, s, h, inner, inner, Some([SetLocal(n), Pop]), y);
    TryMade(us, usb, b, us1, Code(h.us, s.ws + h.ws), names, inner, x, Joined(Some([SetLocal(n), Pop]), y));
    Weaker(us, Comp(us, f, l2).code, names, TryOut(u.pc, x, Joined(Some([SetLocal(n), Pop]), y)));
    OfTry(f, CtxOf(us, l2), u.pc);
    if Out(us, f, l2).Some? { TryAssoc(u.pc, n, x.value, y.value); }
  }

  lemma {:induction false} TryAssoc(pc: nat, n: nat, x: seq<Instr>, y: seq<Instr>)
    ensures TryOut(pc, Some(x), Joined(Some([SetLocal(n), Pop]), Some(y)))
      == Some([SetupTry(pc + |x| + 3)] + x + ([PopTry] + [Jump(|y| + 2)] + ([SetLocal(n), Pop] + y)))
  {
    assert [SetupTry(pc + |x| + 3)] + x + [PopTry, Jump(|y| + 2)] + ([SetLocal(n), Pop] + y)
      == [SetupTry(pc + |x| + 3)] + x + ([PopTry] + [Jump(|y| + 2)] + ([SetLocal(n), Pop] + y));
  }

  lemma {:induction false} EntersTry(us: Nest)
    requires Sound(us)
    ensures var u := Top(us);
      var usb := Put(us, u.(pc := u.pc + 1, tries := u.tries + 1));
      Sound(usb) && Grown(us, usb) && Outer(usb) == Outer(us)
  {
    hide Sound, Grown, Outer;
    TopOk(us);
    var u := Top(us);
    var v := u.(pc := u.pc + 1, tries := u.tries + 1);
    forall i | 0 <= i < |v.loops| ensures LoopOk(v, v.loops[i]) { assert LoopOk(u, u.loops[i]); }
    Change(us, v);
    GrownOuter(us, Put(us, v));
  }

  lemma {:induction false} LeavesTry(us: Nest, usb: Nest, b: Code, names: seq<string>, x: Option<seq<Instr>>,
      err: string)
    requires Sound(us) && Grown(us, usb) && Made(usb, b, names, x)
    ensures var us1 := Reserve(Skip(Restore(b.us, Top(us)), 2), err);
      Sound(us1) && Grown(b.us, us1) && Outer(us1) == Outer(us) && Top(us1).descs == Top(b.us).descs
  {
    hide Sound, Grows, Good, Gained, Outer;
    GrownOn(us, usb, b.us);
    RestoreOk(us, b.us);
    var r := Restore(b.us, Top(us));
    Skipped(r, 2);
    ReserveOk(Skip(r, 2), err);
    GrownOn(b.us, r, Skip(r, 2));
    GrownOn(b.us, Skip(r, 2), Reserve(Skip(r, 2), err));
    GrownOuter(us, r);
  }

  lemma {:induction false} TryMade(us: Nest, usb: Nest, b: Code, us1: Nest, h: Code, names: seq<string>,
      inner: seq<string>, x: Option<seq<Instr>>, y: Option<seq<Instr>>)
    requires Sound(us) && Grown(us, usb) && Top(usb).pc == Top(us).pc + 1 && Made(usb, b, names, x)
    requires Grown(b.us, us1) && Top(us1).pc == Top(b.us).pc + 2 && Made(us1, h, inner, y)
    ensures Made(us, Code(Restore(h.us, Top(us)), TryCatch(Top(us).pc, b.ws, h.ws)), Top(us).names,
        TryOut(Top(us).pc, x, y))
  {
    hide Sound, Grows, Good, Gained;
    GrownOn(us, usb, b.us);
    GrownOn(b.us, us1, h.us);
    GrownOn(us, b.us, h.us);
    RestoreOk(us, h.us);
    var v := Top(Restore(h.us, Top(us)));
    GoodStays(Top(h.us), v, h.ws, Top(us).pc + |b.ws| + 3, y);
    GoodStays(Top(b.us), Top(h.us), b.ws, Top(us).pc + 1, x);
    GoodStays(Top(h.us), v, b.ws, Top(us).pc + 1, x);
    TryGood(v, b.ws, h.ws, Top(us).pc, x, y);
  }

  /** What a loop body is compiled in: its names in scope, its frame on top. */
  function LoopEntry(us: Nest, t: Code, binds: Binds): Nest {
    var u, v := Top(us), Top(t.us);
    Put(t.us, v.(names := u.names + Names(binds), loops := u.loops +
        [LoopFrame(v.pc, |u.names|, |Names(binds)|, u.tries)]))
  }

  lemma {:induction false} UnfoldLoop(us: Nest, f: Form, l2: bool)
    requires f.Loop? && Comp(us, f, l2).Built?
    ensures ClosureFree(f) <==> ClosureFreeBinds(f.binds) && ClosureFreeAll(f.body)
    ensures CompInits(us, f.binds, l2).Built?
    ensures var t := CompInits(us, f.binds, l2).code;
      && CompBody(LoopEntry(us, t, f.binds), f.body, l2).Built?
      && var b := CompBody(LoopEntry(us, t, f.binds), f.body, l2).code;
      && Comp(us, f, l2).code == Code(Restore(b.us, Top(us)), t.ws + b.ws)
  {
    hide CompBody, CompClauses, CompBinds, CompInits, CompArgs, CompAnd, CompOr, CompHead, CompFused, GoBack, IfElse,
         Skip, WithConst, Restore, BindSlot, Reserve, TryCatch, ClosureFreeAll, ClosureFreeBinds, Names;
  }

  function Nameless(n: nat): seq<string> {
    seq(n, _ => "")
  }

  lemma {:induction false} CompilesLoop(us: Nest, f: Form, l2: bool)
    requires f.Loop? && Sound(us) && Comp(us, f, l2).Built?
    ensures Made(us, Comp(us, f, l2).code, Top(us).names, Out(us, f, l2))
    decreases f, 1
  {
    hide Outer, Made, Sound, Grown, Comp, CompInits, CompBody, Gen, GenInits, GenBody, ClosureFree, ClosureFreeAll,
         ClosureFreeBinds, Names, Restore, Nameless;
    UnfoldLoop(us, f, l2);
    var u, n := Top(us), |Names(f.binds)|;
    var t := CompInits(us, f.binds, l2).code;
    CompilesInits(us, f.binds, l2);
    var x := OutInits(us, f.binds, l2);
    var reserved := u.names + Nameless(n);
    Frame(us, t, reserved, x);
    var vs := LoopEntry(us, t, f.binds);
    EntersLoop(us, t, f.binds, x);
    var b := CompBody(vs, f.body, l2).code;
    CompilesBody(vs, f.body, l2);
    var y := OutBody(vs, f.body, l2);
    Frame(vs, b, u.names + Names(f.binds), y);
    RestoreSame(b.us, u);
    Within(us, t, vs, b, reserved, u.names + Names(f.binds), x, y);
    Weaker(us, Comp(us, f, l2).code, u.names, Joined(x, y));
    OfLoop(f, CtxOf(us, l2), u.pc);
  }

  lemma {:induction false} EntersLoop(us: Nest, t: Code, binds: Binds, x: Option<seq<Instr>>)
    requires Sound(us) && Made(us, t, Top(us).names + Nameless(|Names(binds)|), x)
    ensures Sound(LoopEntry(us, t, binds)) && Grown(t.us, LoopEntry(us, t, binds))
    ensures Outer(LoopEntry(us, t, binds)) == Outer(t.us) && Top(LoopEntry(us, t, binds)).descs == Top(t.us).descs
  {
    hide Sound, Grown, Names, Good, Outer;
    TopOk(us);
    TopOk(t.us);
    var v, w := Top(t.us), Top(LoopEntry(us, t, binds));
    forall i | 0 <= i < |w.loops| ensures LoopOk(w, w.loops[i]) {
      if i < |v.loops| { assert LoopOk(v, v.loops[i]); }
    }
    Change(t.us, w);
    GrownOuter(t.us, Put(t.us, w));
  }

  /** Code in a scope entered after t, seen from outside. */
  lemma {:induction false} Within(us: Nest, t: Code, vs: Nest, b: Code, n1: seq<string>, n2: seq<string>,
      x: Option<seq<Instr>>, y: Option<seq<Instr>>)
    requires Sound(us) && Made(us, t, n1, x) && Grown(t.us, vs) && Top(vs).pc == Top(t.us).pc && Made(vs, b, n2, y)
    ensures Made(us, Code(Restore(b.us, Top(us)), t.ws + b.ws), Top(us).names, Joined(x, y))
  {
    hide Grows, Gained, Good, Sound;
    GrownOn(t.us, vs, b.us);
    GrownOn(us, t.us, b.us);
    RestoreOk(us, b.us);
    var v := Top(Restore(b.us, Top(us)));
    GoodStays(Top(b.us), v, b.ws, Top(vs).pc, y);
    GoodStays(Top(t.us), Top(b.us), t.ws, Top(us).pc, x);
    GoodStays(Top(b.us), v, t.ws, Top(us).pc, x);
    GoodJoined(v, t.ws, b.ws, Top(us).pc, x, y);
  }

  lemma {:induction false} UnfoldInits(us: Nest, bs: Binds, l2: bool)
    requires bs.Bind? && CompInits(us, bs, l2).Built?
    ensures Comp(Reserve(us, ""), bs.init, l2).Built?
    ensures var t := Comp(Reserve(us, ""), bs.init, l2).code;
      var s := BindSlot(t.us, |Top(us).names|);
      && CompInits(s.us, bs.rest, l2).Built?
      && var b := CompInits(s.us, bs.rest, l2).code;
      && CompInits(us, bs, l2).code == Code(b.us, t.ws + s.ws + b.ws)
  {
    hide Comp, BindSlot, Reserve;
  }

  lemma {:induction false} NamelessMore(names: seq<string>, n: nat)
    ensures names + [""] + Nameless(n) == names + Nameless(n + 1)
  {
    assert [""] + Nameless(n) == Nameless(n + 1);
    assert names + [""] + Nameless(n) == names + ([""] + Nameless(n));
  }

  lemma {:induction false} CompilesInits(us: Nest, bs: Binds, l2: bool)
    requires Sound(us) && CompInits(us, bs, l2).Built?
    ensures Made(us, CompInits(us, bs, l2).code, Top(us).names + Nameless(|Names(bs)|), OutInits(us, bs, l2))
    decreases bs, 0
  {
    hide Outer, Made, Sound, Grown, Comp, Gen, ClosureFree, BindSlot, CompInits, Nameless;
    var names := Top(us).names;
    if bs.NoBinds? {
      NoInit(us, l2);
    } else {
      UnfoldInits(us, bs, l2);
      var rest, n := bs.rest, |names|;
      var us1 := Reserve(us, "");
      ReserveOk(us, "");
      var inner := names + [""];
      var t := Comp(us1, bs.init, l2).code;
      Compiles(us1, bs.init, l2);
      var o := Out(us1, bs.init, l2);
      Frame(us1, t, inner, o);
      TopOk(t.us);
      var s := BindSlot(t.us, n);
      BindMade(t.us, n);
      Frame(t.us, s, inner, Some([SetLocal(n), Pop]));
      var b := CompInits(s.us, rest, l2).code;
      CompilesInits(s.us, rest, l2);
      var y := OutInits(s.us, rest, l2);
      Frame(s.us, b, inner + Nameless(|Names(rest)|), y);
      NamelessMore(names, |Names(rest)|);
      assert |Names(bs)| == |Names(rest)| + 1;
      var last := names + Nameless(|Names(bs)|);
      Then(us1, t, s, inner, inner, o, Some([SetLocal(n), Pop]));
      Then(us1, Code(s.us, t.ws + s.ws), b, inner, last, Joined(o, Some([SetLocal(n), Pop])), y);
      Reserved(us, us1, Code(b.us, t.ws + s.ws + b.ws), last, Joined(Joined(o, Some([SetLocal(n), Pop])), y));
      Weaker(us, CompInits(us, bs, l2).code, last, Joined(Joined(o, Some([SetLocal(n), Pop])), y));
    }
  }

  lemma {:induction false} NoInit(us: Nest, l2: bool)
    requires Sound(us)
    ensures CompInits(us, NoBinds, l2) == Built(Code(us, []))
    ensures Made(us, Code(us, []), Top(us).names + Nameless(|Names(NoBinds)|), OutInits(us, NoBinds, l2))
  {
    hide Outer, Made, Sound;
    Nothing(us);
    Weaker(us, Code(us, []), Top(us).names, Some([]));
    assert Top(us).names + Nameless(0) == Top(us).names;
  }

  lemma {:induction false} Reserved(us: Nest, vs: Nest, c: Code, names: seq<string>, x: Option<seq<Instr>>)
    requires Grown(us, vs) && Top(vs).pc == Top(us).pc && Top(vs).loops == Top(us).loops
    requires Top(vs).tries == Top(us).tries
    requires Made(vs, c, names, x)
    ensures Made(us, c, names, x)
  {
    hide Grows, Gained, Good, Sound;
    GrownOn(us, vs, c.us);
  }

  lemma {:induction false} UnfoldRecur(us: Nest, f: Form, l2: bool)
    requires f.Recur? && Comp(us, f, l2).Built?
    ensures Top(us).loops != [] && CompArgs(us, f.args, l2).Built? && (ClosureFree(f) <==> ClosureFreeAll(f.args))
    ensures Comp(us, f, l2).code == GoBack(CompArgs(us, f.args, l2).code, Top(us).loops[|Top(us).loops| - 1])
  {
    hide CompBody, CompClauses, CompBinds, CompInits, CompArgs, CompAnd, CompOr, CompHead, CompFused, GoBack,
         ClosureFreeAll;
  }

  lemma {:induction false} CompilesRecur(us: Nest, f: Form, l2: bool)
    requires f.Recur? && Sound(us) && Comp(us, f, l2).Built?
    ensures Made(us, Comp(us, f, l2).code, Top(us).names, Out(us, f, l2))
    decreases f, 1
  {
    hide Outer, Made, Sound, Grown, Comp, CompArgs, Gen, GenArgs, ClosureFree, ClosureFreeAll, GoBack, StoreArgs,
         PopTries;
    UnfoldRecur(us, f, l2);
    var u, t := Top(us), CompArgs(us, f.args, l2).code;
    CompilesArgs(us, f.args, l2);
    var x := OutArgs(us, f.args, l2);
    BackMade(us, t, x);
    BackSame(t, u.loops[|u.loops| - 1]);
    if Out(us, f, l2).Some? {
      TopOk(us);
      assert LoopOk(u, u.loops[|u.loops| - 1]);
      OfRecur(f, CtxOf(us, l2), u.pc);
    } else {
      Unclosed(us, Comp(us, f, l2).code, u.names, f, l2);
    }
  }

  lemma {:induction false} BackSame(t: Code, lp: LoopFrame)
    ensures Top(GoBack(t, lp).us).descs == Top(t.us).descs
  {
  }

  predicate IsNative(us: Nest, head: Form) {
    head.Var? && NativeOf(head.name).Some? && !Shadowed(us, head.name)
  }

  lemma {:induction false} UnfoldCall(us: Nest, f: Form, l2: bool)
    requires f.Call? && Comp(us, f, l2).Built? && !IsNative(us, f.head)
    ensures ClosureFree(f) <==> ClosureFree(f.head) && ClosureFreeAll(f.args)
    ensures CompHead(us, f.head, l2).Built?
    ensures var c := CompHead(us, f.head, l2).code;
      && CompArgs(c.us, f.args, l2).Built?
      && var t := CompArgs(c.us, f.args, l2).code;
      && var s := One(t.us, OpCall, Length(f.args));
      && Comp(us, f, l2).code == Code(s.us, c.ws + t.ws + s.ws)
  {
    hide CompBody, CompClauses, CompBinds, CompInits, CompArgs, CompAnd, CompOr, CompHead, CompFused, GoBack,
         ClosureFreeAll, Shadowed, NativeOf;
  }

  lemma {:induction false} UnfoldNativeCall(us: Nest, f: Form, l2: bool)
    requires f.Call? && Comp(us, f, l2).Built? && IsNative(us, f.head)
    ensures ClosureFree(f) <==> ClosureFreeAll(f.args)
    ensures var op := NativeOf(f.head.name).value;
      var (us1, fused) := CompFused(us, op, f.head.name, f.args, l2);
      if fused.Some? then Comp(us, f, l2).code == Code(us1, fused.value)
      else
        var c := WithConst(us1, if l2 then OpFreezeNativeFunc else OpFreezeNative, Sym(f.head.name));
        && CompArgs(c.us, f.args, l2).Built?
        && var t := CompArgs(c.us, f.args, l2).code;
        && var s := One(t.us, OpNative(op), Length(f.args));
        && Comp(us, f, l2).code == Code(s.us, c.ws + t.ws + s.ws)
  {
    hide CompBody, CompClauses, CompBinds, CompInits, CompArgs, CompAnd, CompOr, CompHead, CompFused, GoBack,
         ClosureFreeAll, Shadowed, NativeOf, WithConst;
  }

  /** What shadows a name is bound by the function itself or by one around it. */
  lemma {:induction false} ShadowedIs(us: Nest, x: string)
    ensures Shadowed(us, x) <==> ResolveLocal(Top(us).names, x).Some? || x in Outer(us)
  {
    if Shadowed(us, x) {
      var i :| 0 <= i < |us| && ResolveLocal(us[i].names, x).Some?;
      ResolvedAt(us[i].names, x);
      if i < |us| - 1 { assert us[i].names[ResolveLocal(us[i].names, x).value] == x; }
    }
    if x in Outer(us) {
      var i: nat, j: nat :| i < |us| - 1 && j < |us[i].names| && us[i].names[j] == x;
      ResolvesSome(us[i].names, j);
    }
    if ResolveLocal(Top(us).names, x).Some? { assert us[|us| - 1] == Top(us); }
  }

  lemma {:induction false} ResolvesSome(names: seq<string>, j: nat)
    requires j < |names|
    ensures ResolveLocal(names, names[j]).Some?
    decreases |names|
  {
    if names[|names| - 1] != names[j] { ResolvesSome(names[..|names| - 1], j); }
  }

  lemma {:induction false} HeadNative(us: Nest, head: Form, l2: bool)
    ensures NativeHead(CtxOf(us, l2), head) == if IsNative(us, head) then NativeOf(head.name) else None
  {
    hide NativeOf, ResolveLocal, Shadowed, Outer;
    if head.Var? { ShadowedIs(us, head.name); }
  }

  lemma {:induction false} CompilesCall(us: Nest, f: Form, l2: bool)
    requires f.Call? && Sound(us) && Comp(us, f, l2).Built?
    ensures Made(us, Comp(us, f, l2).code, Top(us).names, Out(us, f, l2))
    decreases f, 1
  {
    hide Outer, Made, Sound, Comp, Gen, ClosureFree, Shadowed, NativeOf, CompFused;
    HeadNative(us, f.head, l2);
    if !IsNative(us, f.head) {
      CallsPlainly(us, f, l2);
    } else if CompFused(us, NativeOf(f.head.name).value, f.head.name, f.args, l2).1.Some? {
      UnfoldNativeCall(us, f, l2);
      FusedMade(us, NativeOf(f.head.name).value, f.head.name, f.args, l2);
      if Out(us, f, l2).Some? { OfNative(f, CtxOf(us, l2), Top(us).pc); }
      else { Unclosed(us, Comp(us, f, l2).code, Top(us).names, f, l2); }
    } else {
      CallsNative(us, f, l2);
    }
  }

  function OutHead(us: Nest, head: Form, l2: bool): Option<seq<Instr>> {
    if ClosureFree(head) && Closed(CompHead(us, head, l2)) then Some(GenHead(head, CtxOf(us, l2), Top(us).pc)) else None
  }

  lemma {:induction false} CompilesHead(us: Nest, f: Form, l2: bool)
    requires f.Call? && Sound(us) && CompHead(us, f.head, l2).Built?
    ensures Made(us, CompHead(us, f.head, l2).code, Top(us).names, OutHead(us, f.head, l2))
    decreases f, 0, 0
  {
    hide Outer, Made, Sound, Comp, Gen, ClosureFree, WithConst;
    if l2 && f.head.Var? {
      ConstMade(us, OpGetFunc, Sym(f.head.name));
      Weaker(us, WithConst(us, OpGetFunc, Sym(f.head.name)), Top(us).names, Some([GetFunc(f.head.name)]));
    } else {
      Compiles(us, f.head, l2);
    }
  }

  lemma {:induction false} CallsPlainly(us: Nest, f: Form, l2: bool)
    requires f.Call? && Sound(us) && Comp(us, f, l2).Built? && !IsNative(us, f.head)
    ensures Made(us, Comp(us, f, l2).code, Top(us).names, Out(us, f, l2))
    decreases f, 0
  {
    hide Outer, Made, Sound, Comp, CompArgs, CompHead, Gen, GenArgs, GenHead, ClosureFree, ClosureFreeAll, Shadowed,
         NativeOf, Length;
    UnfoldCall(us, f, l2);
    var names, n := Top(us).names, Length(f.args);
    var c := CompHead(us, f.head, l2).code;
    CompilesHead(us, f, l2);
    var x := OutHead(us, f.head, l2);
    Frame(us, c, names, x);
    var t := CompArgs(c.us, f.args, l2).code;
    CompilesArgs(c.us, f.args, l2);
    var y := OutArgs(c.us, f.args, l2);
    Frame(c.us, t, names, y);
    CountMade(t.us, OpCall, n);
    Frame(t.us, One(t.us, OpCall, n), names, Some([Invoke(n)]));
    Then(us, c, t, names, names, x, y);
    Then(us, Code(t.us, c.ws + t.ws), One(t.us, OpCall, n), names, names, Joined(x, y), Some([Invoke(n)]));
    Weaker(us, Comp(us, f, l2).code, names, Joined(Joined(x, y), Some([Invoke(n)])));
    HeadNative(us, f.head, l2);
    OfCall(f, CtxOf(us, l2), Top(us).pc);
  }

  lemma {:induction false} CallsNative(us: Nest, f: Form, l2: bool)
    requires f.Call? && Sound(us) && Comp(us, f, l2).Built? && IsNative(us, f.head)
    requires CompFused(us, NativeOf(f.head.name).value, f.head.name, f.args, l2).1.None?
    ensures Made(us, Comp(us, f, l2).code, Top(us).names, Out(us, f, l2))
    decreases f, 0
  {
    hide Outer, Made, Sound, Grown, Comp, CompArgs, CompFused, Gen, GenArgs, ClosureFree, ClosureFreeAll, Shadowed,
         NativeOf, WithConst, FuseCall;
    UnfoldNativeCall(us, f, l2);
    var names, n, name := Top(us).names, Length(f.args), f.head.name;
    var op, fop := NativeOf(name).value, if l2 then OpFreezeNativeFunc else OpFreezeNative;
    NotFused(us, op, name, f.args, l2);
    var us1 := CompFused(us, op, name, f.args, l2).0;
    var c := WithConst(us1, fop, Sym(name));
    ConstMade(us1, fop, Sym(name));
    var x := Some([Freeze(name, l2)]);
    Frame(us1, c, names, x);
    var t := CompArgs(c.us, f.args, l2).code;
    CompilesArgs(c.us, f.args, l2);
    var y := OutArgs(c.us, f.args, l2);
    Frame(c.us, t, names, y);
    CountMade(t.us, OpNative(op), n);
    var z := Some([Native(op, n)]);
    Frame(t.us, One(t.us, OpNative(op), n), names, z);
    Then(us1, c, t, names, names, x, y);
    Then(us1, Code(t.us, c.ws + t.ws), One(t.us, OpNative(op), n), names, names, Joined(x, y), z);
    After(us, us1, Comp(us, f, l2).code, Joined(Joined(x, y), z));
    Weaker(us, Comp(us, f, l2).code, names, Joined(Joined(x, y), z));
    HeadNative(us, f.head, l2);
    OfNative(f, CtxOf(us, l2), Top(us).pc);
  }

  // ---- closures ----

  /** The chunk of a function body, and the enclosing functions after it. */
  function SubChunk(t: Code): Chunk {
    Finished(Top(t.us), t.ws + [Raw(OpReturn, 0)])
  }

  lemma {:induction false} UnfoldLambda(us: Nest, f: Form, l2: bool)
    requires f.Lambda? && Comp(us, f, l2).Built?
    ensures CompArgs(us + [NewUnit(f.params)], f.body, l2).Built?
    ensures var t := CompArgs(us + [NewUnit(f.params)], f.body, l2).code;
      && |t.us| >= 2
      && var outer: Nest := t.us[..|t.us| - 1];
      && var u := Top(outer);
      && Comp(us, f, l2).code == Closes(Put(outer, u.(subs := u.subs + [SubChunk(t)])), |u.subs|,
          AllFit(Top(t.us), t.ws))
  {
    hide CompBody, CompClauses, CompBinds, CompInits, CompArgs, CompAnd, CompOr, CompHead, CompFused, GoBack, Finished;
  }

  lemma {:induction false} NewUnitOk(params: seq<string>)
    ensures UnitOk(NewUnit(params)) && NewUnit(params).descs == [] && NewUnit(params).pc == 0
  {
  }

  lemma {:induction false} CompilesLambda(us: Nest, f: Form, l2: bool)
    requires f.Lambda? && Sound(us) && Comp(us, f, l2).Built?
    ensures Made(us, Comp(us, f, l2).code, Top(us).names, Out(us, f, l2))
    decreases f, 1
  {
    hide Outer, Made, Sound, Comp, CompArgs, Finished, NewUnit, UnitOk, DescsOk;
    UnfoldLambda(us, f, l2);
    var inner: Nest := us + [NewUnit(f.params)];
    NewUnitOk(f.params);
    NoDescs(Top(us));
    SoundOn(us, NewUnit(f.params));
    var t := CompArgs(inner, f.body, l2).code;
    CompilesArgs(inner, f.body, l2);
    assert inner[..|us|] == us && Top(inner) == NewUnit(f.params);
    ClosureMade(us, inner, t, OutArgs(inner, f.body, l2));
  }

  lemma {:induction false} NoDescs(u: Unit)
    ensures DescsOk(u, [])
  {
  }

  lemma {:induction false} ClosureMade(us: Nest, inner: Nest, t: Code, x: Option<seq<Instr>>)
    requires |inner| == |us| + 1 && inner[..|us|] == us && Top(inner).pc == 0 && Made(inner, t, Top(inner).names, x)
    requires Sound(us)
    ensures |t.us| >= 2
    ensures var outer: Nest := t.us[..|t.us| - 1];
      var u := Top(outer);
      Made(us, Closes(Put(outer, u.(subs := u.subs + [SubChunk(t)])), |u.subs|, AllFit(Top(t.us), t.ws)), Top(us).names,
          None)
  {
    hide Sound, Grows, Good, UnitOk, DescsOk, Finished;
    var outer: Nest, top := t.us[..|t.us| - 1], Top(t.us);
    assert t.us == outer + [top];
    SoundOn(outer, top);
    assert AllGained(us, outer) by {
      forall i | 0 <= i < |us| ensures Gained(us[i], outer[i]) {
        assert Gained(inner[i], t.us[i]) && us[i] == inner[i];
      }
    }
    GainedGrown(us, outer);
    assert Gained(us[|us| - 1], outer[|us| - 1]);
    var u, sub := Top(outer), SubChunk(t);
    var v := u.(subs := u.subs + [sub]);
    TopOk(outer);
    assert UnitOk(v) && Grows(u, v) by { SubsGrow(u, v); }
    Change(outer, v);
    var vs := Put(outer, v);
    GrownOn(us, outer, vs);
    DescsStay(top.descs, u, v);
    assert v.subs[|u.subs|] == sub;
    SubFine(t, x, v);
    Leaf(vs, Raw(OpClosure, |u.subs|, AllFit(top, t.ws)), None);
    Reserved(us, vs, Closes(vs, |u.subs|, AllFit(top, t.ws)), Top(us).names, None);
  }

  lemma {:induction false} SubsGrow(u: Unit, v: Unit)
    requires UnitOk(u) && v == u.(subs := v.subs) && u.subs <= v.subs
    ensures UnitOk(v) && Grows(u, v)
  {
    forall i | 0 <= i < |u.loops| ensures LoopOk(v, v.loops[i]) { assert LoopOk(u, u.loops[i]); }
  }

  /** The closure instruction of a function just added to the chunks of the one around it. */
  lemma {:induction false} SubFine(t: Code, x: Option<seq<Instr>>, v: Unit)
    requires Good(Top(t.us), t.ws, 0, x) && v.subs != [] && v.subs[|v.subs| - 1] == SubChunk(t)
    requires DescsOk(v, Top(t.us).descs)
    ensures Fine(v, Raw(OpClosure, |v.subs| - 1, AllFit(Top(t.us), t.ws)), v.pc, v.pc + 1)
  {
    hide Fine, DescsOk, Valid, AllFit;
    if AllFit(Top(t.us), t.ws) { FinishedValid(Top(t.us), t.ws); }
    ClosureFine(v, AllFit(Top(t.us), t.ws));
  }

  lemma {:induction false} ClosureFine(v: Unit, nested: bool)
    requires v.subs != [] && (nested ==> Valid(v.subs[|v.subs| - 1])) && DescsOk(v, v.subs[|v.subs| - 1].caps)
    ensures Fine(v, Raw(OpClosure, |v.subs| - 1, nested), v.pc, v.pc + 1)
  {
  }
}
