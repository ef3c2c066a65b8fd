/** The compiler as it runs: it appends instructions, leaves jumps open, and patches them when it
    knows where they lead. */
module Compiler {
  import opened Forms
  import opened Machine
  import opened CodeGen
  import opened Bytecode
  import opened Lowering
  import opened Finishing

  /** What compiling promises: the functions and the code the specification says, or a refusal. */
  ghost predicate Follows(ok: bool, us: Nest, code: seq<Raw>, before: seq<Raw>, b: Built) {
    match b
    case Refused => !ok
    case Built(c) => ok && us == c.us && code == before + c.ws
  }

  /** What may stand on either side of a conditional. */
  datatype Part = OfForm(f: Form) | OfBody(fs: Forms) | OfClauses(cs: Clauses) | OfOp(op: Opcode)

  function CompPart(us: Nest, p: Part, l2: bool): Built {
    match p
    case OfForm(f) => Comp(us, f, l2)
    case OfBody(fs) => CompBody(us, fs, l2)
    case OfClauses(cs) => CompClauses(us, cs, l2)
    case OfOp(op) => Built(One(us, op, 0))
  }

  /** A then part and an else part, with the jumps over them. */
  function CompBranches(us: Nest, p: Part, q: Part, l2: bool): Built {
    match CompPart(Skip(us, 1), p, l2)
    case Refused => Refused
    case Built(a) =>
      match CompPart(Skip(a.us, 1), q, l2)
      case Refused => Refused
      case Built(b) => Built(Code(b.us, IfElse(a.ws, b.ws)))
  }

  function ElsePart(els: Option<Form>): Part {
    match els
    case Some(e) => OfForm(e)
    case None => OfOp(OpNil)
  }

  /** Code emitted before. */
  function Prefixed(done: seq<Raw>, b: Built): Built {
    match b
    case Refused => Refused
    case Built(c) => Built(Code(c.us, done + c.ws))
  }

  /** A test, then the two ways on from it. */
  function Tests(t: Built, p: Part, q: Part, l2: bool): Built {
    match t
    case Refused => Refused
    case Built(c) => Prefixed(c.ws, CompBranches(c.us, p, q, l2))
  }

  lemma {:induction false} IfIs(us: Nest, f: Form, l2: bool)
    requires f.If?
    ensures Comp(us, f, l2) == Tests(Comp(us, f.test, l2), OfForm(f.thn), ElsePart(f.els), l2)
  {
    hide CompBody, CompClauses, CompBinds, CompInits, CompArgs, CompAnd, CompOr, CompHead, CompFused, GoBack, IfElse,
         Skip, WithConst;
  }

  lemma {:induction false} WhenIs(us: Nest, f: Form, l2: bool)
    requires f.When?
    ensures Comp(us, f, l2) == if f.body.End? then Refused
        else Tests(Comp(us, f.test, l2), OfBody(f.body), OfOp(OpNil), l2)
  {
    hide CompBody, CompClauses, CompBinds, CompInits, CompArgs, CompAnd, CompOr, CompHead, CompFused, GoBack, IfElse,
         Skip, WithConst;
  }

  lemma {:induction false} NotIs(us: Nest, f: Form, l2: bool)
    requires f.Not?
    ensures Comp(us, f, l2) == Tests(Comp(us, f.arg, l2), OfOp(OpFalse), OfOp(OpTrue), l2)
  {
    hide CompBody, CompClauses, CompBinds, CompInits, CompArgs, CompAnd, CompOr, CompHead, CompFused, GoBack, IfElse,
         Skip, WithConst;
  }

  /** The words of some code, packed. */
  function PackedAll(ws: seq<Raw>): (code: seq<Word>)
    ensures |code| == |ws|
  {
    seq(|ws|, i requires 0 <= i < |ws| => Packed(ws[i]))
  }

  class Emitter {
    const lisp2: bool
    var us: Nest
    /** The code of the innermost function, and of the ones around it. */
    var code: seq<Word>
    var outer: seq<seq<Word>>
    /** The same before packing. */
    ghost var raw: seq<Raw>
    ghost var under: seq<seq<Raw>>

    constructor (lisp2: bool)
      ensures Valid() && this.lisp2 == lisp2 && us == [NewUnit([])] && raw == [] && under == []
    {
      this.lisp2, us, code, outer := lisp2, [NewUnit([])], [], [];
      raw, under := [], [];
    }

    ghost predicate Valid()
      reads this
    {
      && Packs()
      && |raw| == Top(us).pc && |under| == |us| - 1 && forall i :: 0 <= i < |under| ==> |under[i]| == us[i].pc
    }

    /** The code is what was emitted, packed. */
    ghost predicate Packs()
      reads this`code, this`outer, this`raw, this`under
    {
      && code == PackedAll(raw)
      && |outer| == |under| && forall i :: 0 <= i < |under| ==> outer[i] == PackedAll(under[i])
    }

    method Emit(op: Opcode, a: nat, ghost nested: bool := true) returns (at: nat)
      requires Valid()
      modifies this
      ensures Valid() && us == Skip(old(us), 1) && raw == old(raw) + [Raw(op, a, nested)] && under == old(under)
      ensures at == |old(raw)|
    {
      at := |code|;
      code := code + [Encode(op, a)];
      raw := raw + [Raw(op, a, nested)];
      us := Skip(us, 1);
    }

    /** An open jump. */
    method EmitJump(op: Opcode) returns (at: nat)
      requires Valid()
      modifies this
      ensures Valid() && us == Skip(old(us), 1) && raw == old(raw) + [Raw(op, LIMIT - 1)] && under == old(under)
      ensures at == |old(raw)|
    {
      at := Emit(op, LIMIT - 1);
    }

    /** A jump to the present end of the code. */
    method PatchJump(at: nat)
      requires Valid() && at < |raw|
      modifies this`code, this`raw
      ensures Valid() && raw == old(raw)[at := Raw(old(raw)[at].op, |old(raw)| - at - 1)]
    {
      code := code[at := Encode(code[at].op, |code| - at - 1)];
      raw := raw[at := Raw(raw[at].op, |raw| - at - 1)];
    }

    method PatchJumpTo(at: nat, target: nat)
      requires Valid() && at < |raw|
      modifies this`code, this`raw
      ensures Valid() && raw == old(raw)[at := Raw(old(raw)[at].op, target)]
    {
      code := code[at := Encode(code[at].op, target)];
      raw := raw[at := Raw(raw[at].op, target)];
    }

    method EmitConst(op: Opcode, v: Value)
      requires Valid()
      modifies this
      ensures Valid() && under == old(under) && us == WithConst(old(us), op, v).us
      ensures raw == old(raw) + WithConst(old(us), op, v).ws
    {
      hide IndexOf;
      var i := IndexOf(Top(us).constants, v);
      us := Put(us, Interned(Top(us), v));
      var _ := Emit(op, i);
    }

    /** The store of a binding, recorded as one. */
    method EmitBind(slot: nat)
      requires Valid()
      modifies this
      ensures Valid() && under == old(under) && us == BindSlot(old(us), slot).us
      ensures raw == old(raw) + BindSlot(old(us), slot).ws
    {
      var u := Top(us);
      us := Put(us, u.(binds := u.binds + {u.pc}));
      var _ := Emit(OpSetLocal, slot);
      var _ := Emit(OpPop, 0);
    }

    // ---- forms ----

    method Compile(f: Form) returns (ok: bool)
      requires Valid()
      modifies this
      ensures Follows(ok, us, raw, old(raw), Comp(old(us), f, lisp2))
      ensures ok ==> Valid() && under == old(under)
      decreases f, 2
    {
      hide *;
      match f {
        case Const(_) => CompileLeaf(f); ok := true;
        case Quote(_) => CompileLeaf(f); ok := true;
        case Var(_) => CompileLeaf(f); ok := true;
        case Do(body) => DoIs(us, f, lisp2); ok := CompileDo(body);
        case If(_, _, _) => ok := CompileIf(f);
        case When(_, _) => ok := CompileWhen(f);
        case Cond(clauses) => DoIs(us, f, lisp2); ok := CompileCond(clauses);
        case And(_) => ok := CompileAnd(f);
        case Or(_) => ok := CompileOr(f);
        case Not(_) => ok := CompileNot(f);
        case Let(_, _) => ok := CompileLet(f);
        case Assign(_, _) => ok := CompileAssign(f);
        case Throw(_) => ok := CompileThrow(f);
        case Try(_, _, _) => ok := CompileTry(f);
        case Loop(_, _) => ok := CompileLoop(f);
        case Recur(_) => ok := CompileRecur(f);
        case Call(_, _) => ok := CompileCall(f);
        case Lambda(_, _) => ok := CompileFn(f);
      }
    }

    // A conditional: its first jump is left open, patched when the then part is there and the
    // second left open in turn, patched when the else part is there.

    method Turn(at: nat, ghost c0: seq<Raw>, ghost a: seq<Raw>) returns (end: nat)
      requires Valid() && at == |c0| && raw == c0 + [Raw(OpJumpIfFalse, LIMIT - 1)] + a
      modifies this
      ensures Valid() && us == Skip(old(us), 1) && under == old(under)
      ensures end == |c0| + 1 + |a| && raw == c0 + [Raw(OpJumpIfFalse, |a| + 1)] + a + [Raw(OpJump, LIMIT - 1)]
    {
      end := EmitJump(OpJump);
      PatchJump(at);
    }

    method Close(end: nat, ghost c0: seq<Raw>, ghost a: seq<Raw>, ghost b: seq<Raw>)
      requires Valid() && end == |c0| + 1 + |a|
      requires raw == c0 + [Raw(OpJumpIfFalse, |a| + 1)] + a + [Raw(OpJump, LIMIT - 1)] + b
      modifies this`code, this`raw
      ensures Valid() && raw == c0 + IfElse(a, b)
    {
      PatchJump(end);
    }

    method CompileIf(f: Form) returns (ok: bool)
      requires Valid() && f.If?
      modifies this
      ensures Follows(ok, us, raw, old(raw), Comp(old(us), f, lisp2))
      ensures ok ==> Valid() && under == old(under)
      decreases f, 1
    {
      hide Comp, CompBody, CompClauses, IfElse, Skip, Packs;
      IfIs(us, f, lisp2);
      ghost var c := raw;
      ok := Compile(f.test);
      if !ok { return; }
      ghost var c0 := raw;
      var jumpFalse := EmitJump(OpJumpIfFalse);
      ghost var us1 := us;
      ok := Compile(f.thn);
      if !ok { return; }
      ghost var a := Comp(us1, f.thn, lisp2).code.ws;
      var jumpEnd := Turn(jumpFalse, c0, a);
      ghost var us2 := us;
      if f.els.Some? {
        ok := Compile(f.els.value);
        if !ok { return; }
      } else {
        var _ := Emit(OpNil, 0);
      }
      Close(jumpEnd, c0, a, CompPart(us2, ElsePart(f.els), lisp2).code.ws);
    }

    method CompileWhen(f: Form) returns (ok: bool)
      requires Valid() && f.When?
      modifies this
      ensures Follows(ok, us, raw, old(raw), Comp(old(us), f, lisp2))
      ensures ok ==> Valid() && under == old(under)
      decreases f, 1
    {
      hide Comp, CompBody, CompClauses, IfElse, Skip;
      WhenIs(us, f, lisp2);
      if f.body.End? { return false; }
      ok := Compile(f.test);
      if !ok { return; }
      ghost var c0 := raw;
      var jumpFalse := EmitJump(OpJumpIfFalse);
      ghost var us1 := us;
      ok := CompileDo(f.body);
      if !ok { return; }
      ghost var a := CompBody(us1, f.body, lisp2).code.ws;
      var jumpEnd := Turn(jumpFalse, c0, a);
      var _ := Emit(OpNil, 0);
      Close(jumpEnd, c0, a, [Raw(OpNil, 0)]);
    }

    method CompileNot(f: Form) returns (ok: bool)
      requires Valid() && f.Not?
      modifies this
      ensures Follows(ok, us, raw, old(raw), Comp(old(us), f, lisp2))
      ensures ok ==> Valid() && under == old(under)
      decreases f, 1
    {
      hide Comp, CompBody, CompClauses, IfElse, Skip;
      NotIs(us, f, lisp2);
      ok := Compile(f.arg);
      if !ok { return; }
      ghost var c0 := raw;
      var jumpFalse := EmitJump(OpJumpIfFalse);
      var _ := Emit(OpFalse, 0);
      var jumpEnd := Turn(jumpFalse, c0, [Raw(OpFalse, 0)]);
      var _ := Emit(OpTrue, 0);
      Close(jumpEnd, c0, [Raw(OpFalse, 0)], [Raw(OpTrue, 0)]);
    }

    // and, or and cond leave one jump open per argument or clause, and patch them all at the end.

    method PatchAll(jumps: seq<nat>, ghost c0: seq<Raw>, ghost ps: seq<Piece>, ghost tail: seq<Raw>)
      requires Valid() && jumps == Holes(ps, |c0|) && raw == c0 + Half(ps, tail, 0)
      modifies this`code, this`raw
      ensures Valid() && raw == c0 + Nested(ps, tail)
    {
      hide Half, Holes, Nested;
      HoleCount(ps, |c0|);
      for m := 0 to |jumps|
        invariant Valid() && raw == c0 + Half(ps, tail, m)
      {
        PatchOne(c0, ps, tail, m);
        PatchJump(jumps[m]);
      }
      HalfWhole(ps, tail);
    }

    method CompileAnd(f: Form) returns (ok: bool)
      requires Valid() && f.And?
      modifies this
      ensures Follows(ok, us, raw, old(raw), Comp(old(us), f, lisp2))
      ensures ok ==> Valid() && under == old(under)
      decreases f, 1
    {
      hide Comp, CompAnd, Half, Holes, Nested, Skip, Packs;
      AndIs(us, f.args, lisp2);
      if f.args.End? {
        var _ := Emit(OpTrue, 0);
        return true;
      }
      ok := Compile(f.args.head);
      if !ok { return; }
      ghost var c0, all, ps: seq<Piece> := raw, CompAnd(us, f.args.tail, lisp2), [];
      var jumps, rest := [], f.args.tail;
      NothingOpen(c0, all);
      while rest.Cons?
        invariant Valid() && under == old(under) && rest < f.args
        invariant raw == c0 + Half(ps, [], 0) && jumps == Holes(ps, |c0|) && all == Around(ps, CompAnd(us, rest, lisp2))
        decreases rest
      {
        AndStep(ps, us, rest, lisp2);
        ghost var ws := Emitted(Comp(Skip(us, 3), rest.head, lisp2));
        SkipSkip(us, 1, 1);
        SkipSkip(us, 2, 1);
        var _ := Emit(OpDup, 0);
        var jump := EmitJump(OpJumpIfFalse);
        var _ := Emit(OpPop, 0);
        ok := Compile(rest.head);
        if !ok { return; }
        OpensMore(c0, ps, Piece([Raw(OpDup, 0)], OpJumpIfFalse, [Raw(OpPop, 0)] + ws));
        jumps, rest := jumps + [jump], rest.tail;
        ps := ps + [Piece([Raw(OpDup, 0)], OpJumpIfFalse, [Raw(OpPop, 0)] + ws)];
      }
      AndEnds(ps, us, lisp2);
      PatchAll(jumps, c0, ps, []);
      ok := true;
    }

    method CompileOr(f: Form) returns (ok: bool)
      requires Valid() && f.Or?
      modifies this
      ensures Follows(ok, us, raw, old(raw), Comp(old(us), f, lisp2))
      ensures ok ==> Valid() && under == old(under)
      decreases f, 1
    {
      hide Comp, CompOr, Half, Holes, Nested, Skip, Packs;
      OrIs(us, f.args, lisp2);
      if f.args.End? {
        var _ := Emit(OpNil, 0);
        return true;
      }
      ok := Compile(f.args.head);
      if !ok { return; }
      ghost var c0, all, ps: seq<Piece> := raw, CompOr(us, f.args.tail, lisp2), [];
      var jumps, rest := [], f.args.tail;
      NothingOpen(c0, all);
      while rest.Cons?
        invariant Valid() && under == old(under) && rest < f.args
        invariant raw == c0 + Half(ps, [], 0) && jumps == Holes(ps, |c0|) && all == Around(ps, CompOr(us, rest, lisp2))
        decreases rest
      {
        OrStep(ps, us, rest, lisp2);
        ghost var ws := Emitted(Comp(Skip(us, 4), rest.head, lisp2));
        var jump := OpenOr();
        ok := Compile(rest.head);
        if !ok { return; }
        OpensMore(c0, ps, OrPiece(ws));
        jumps, rest := jumps + [jump], rest.tail;
        ps := ps + [OrPiece(ws)];
      }
      OrEnds(ps, us, lisp2);
      PatchAll(jumps, c0, ps, []);
      ok := true;
    }

    /** The jump to the end is skipped by one that is patched at once. */
    method OpenOr() returns (jump: nat)
      requires Valid()
      modifies this
      ensures Valid() && under == old(under) && us == Skip(old(us), 4) && jump == |old(raw)| + 2
      ensures raw == old(raw) + [Raw(OpDup, 0), Raw(OpJumpIfFalse, 1)] + [Raw(OpJump, LIMIT - 1)] + [Raw(OpPop, 0)]
    {
      hide Skip;
      SkipSkip(us, 1, 1);
      SkipSkip(us, 2, 1);
      SkipSkip(us, 3, 1);
      var _ := Emit(OpDup, 0);
      var jumpIfFalse := EmitJump(OpJumpIfFalse);
      jump := EmitJump(OpJump);
      PatchJump(jumpIfFalse);
      var _ := Emit(OpPop, 0);
    }

    method CompileCond(cs: Clauses) returns (ok: bool)
      requires Valid()
      modifies this
      ensures Follows(ok, us, raw, old(raw), CompClauses(old(us), cs, lisp2))
      ensures ok ==> Valid() && under == old(under)
      decreases cs, 1
    {
      hide Comp, CompBody, CompClauses, Half, Holes, Nested, Skip, Packs;
      ghost var c0, all, ps: seq<Piece> := raw, CompClauses(us, cs, lisp2), [];
      var jumps, rest := [], cs;
      NothingOpen(c0, all);
      while rest.Clause? && !IsElse(rest.test)
        invariant Valid() && under == old(under) && (rest == cs || rest < cs)
        invariant raw == c0 + Half(ps, [], 0) && jumps == Holes(ps, |c0|)
        invariant all == Around(ps, CompClauses(us, rest, lisp2))
        decreases rest
      {
        ClauseStep(ps, us, rest, lisp2);
        ghost var b := ClauseCode(us, rest, lisp2);
        var jump;
        ok, jump := CompileClause(rest);
        if !ok { return; }
        OpensMore(c0, ps, b.value.0);
        jumps, rest := jumps + [jump], rest.rest;
        ps := ps + [b.value.0];
      }
      ClausesEnd(us, rest, lisp2);
      ghost var tail := Emitted(CompClauses(us, rest, lisp2));
      if rest.NoClauses? {
        var _ := Emit(OpNil, 0);
      } else {
        ok := CompileDo(rest.body);
        if !ok { return; }
      }
      HalfTail(c0, ps, tail);
      PatchAll(jumps, c0, ps, tail);
      ok := true;
    }

    /** A clause's test and body, with the jump over the body patched and the one out left open. */
    method CompileClause(cs: Clauses) returns (ok: bool, jump: nat)
      requires Valid() && cs.Clause?
      modifies this
      ensures var b := ClauseCode(old(us), cs, lisp2);
        && (ok <==> b.Some?)
        && (ok ==> us == b.value.1 && jump == |old(raw)| + |b.value.0.before|)
        && (ok ==> raw == old(raw) + b.value.0.before + [Raw(OpJump, LIMIT - 1)] + b.value.0.after)
      ensures ok ==> Valid() && under == old(under)
      decreases cs, 0
    {
      hide Comp, CompBody, Skip;
      ghost var c := raw;
      ok := Compile(cs.test);
      jump := 0;
      if !ok { return; }
      ghost var c0 := raw;
      var jumpFalse := EmitJump(OpJumpIfFalse);
      ghost var us1 := us;
      ok := CompileDo(cs.body);
      if !ok { return; }
      jump := Turn(jumpFalse, c0, CompBody(us1, cs.body, lisp2).code.ws);
    }

    method CompileLeaf(f: Form)
      requires Valid() && (f.Const? || f.Quote? || f.Var?)
      modifies this
      ensures Valid() && under == old(under) && Follows(true, us, raw, old(raw), Comp(old(us), f, lisp2))
    {
      hide ResolveLocal, AncestorBinds, WithConst, EnsureCapture, CapIndex;
      if f.Quote? {
        EmitConst(OpConst, f.v);
      } else if f.Const? {
        if f.v.Nil? { var _ := Emit(OpNil, 0); }
        else if f.v.Bool? { var _ := Emit(if f.v.b then OpTrue else OpFalse, 0); }
        else { EmitConst(OpConst, f.v); }
      } else {
        var slot := ResolveLocal(Top(us).names, f.name);
        if slot.Some? { var _ := Emit(OpGetLocal, slot.value); }
        else if AncestorBinds(us, f.name) { EmitCapture(OpGetCap, f.name); }
        else { EmitConst(OpGetGlobal, Sym(f.name)); }
      }
    }

    method EmitCapture(op: Opcode, x: string)
      requires Valid()
      modifies this
      ensures Valid() && under == old(under) && us == Capture(old(us), op, x).us
      ensures raw == old(raw) + Capture(old(us), op, x).ws
    {
      hide EnsureCapture, CapIndex;
      var i := CapIndex(Top(us).caps, x);
      CaptureKeepsPc(us, x);
      us := EnsureCapture(us, x);
      var _ := Emit(op, i);
    }

    method CompileLet(f: Form) returns (ok: bool)
      requires Valid() && f.Let?
      modifies this
      ensures Follows(ok, us, raw, old(raw), Comp(old(us), f, lisp2))
      ensures ok ==> Valid() && under == old(under)
      decreases f, 1
    {
      hide Comp, CompBinds, CompBody, BindSlot, Packs;
      LetIs(us, f, lisp2);
      if f.body.End? { return false; }
      var u := Top(us);
      var rest := f.binds;
      ghost var all, done := CompBinds(us, rest, lisp2), [];
      PrefixedNone(all);
      while rest.Bind?
        invariant Valid() && under == old(under) && (rest == f.binds || rest < f.binds)
        invariant raw == old(raw) + done && all == Prefixed(done, CompBinds(us, rest, lisp2))
        decreases rest
      {
        BindsStep(done, us, rest, lisp2);
        ghost var ws := Emitted(Comp(us, rest.init, lisp2));
        ok := Compile(rest.init);
        if !ok { return; }
        var slot := |Top(us).names|;
        us := Reserve(us, rest.name);
        done := done + ws + BindSlot(us, slot).ws;
        EmitBind(slot);
        rest := rest.rest;
      }
      BindsEnd(done, us, lisp2);
      ok := CompileDo(f.body);
      if !ok { return; }
      us := Restore(us, u);
    }

    method CompileAssign(f: Form) returns (ok: bool)
      requires Valid() && f.Assign?
      modifies this
      ensures Follows(ok, us, raw, old(raw), Comp(old(us), f, lisp2))
      ensures ok ==> Valid() && under == old(under)
      decreases f, 1
    {
      hide Comp, ResolveLocal, AncestorBinds, WithConst, Capture;
      AssignIs(us, f, lisp2);
      var slot := ResolveLocal(Top(us).names, f.name);
      var captured := slot.None? && AncestorBinds(us, f.name);
      if slot.None? && !captured { EmitConst(OpCheckLexical, Sym(f.name)); }
      ok := Compile(f.rhs);
      if !ok { return; }
      if slot.Some? { var _ := Emit(OpSetLocal, slot.value); }
      else if captured { EmitCapture(OpSetCap, f.name); }
      else { EmitConst(OpSetLexical, Sym(f.name)); }
    }

    method CompileThrow(f: Form) returns (ok: bool)
      requires Valid() && f.Throw?
      modifies this
      ensures Follows(ok, us, raw, old(raw), Comp(old(us), f, lisp2))
      ensures ok ==> Valid() && under == old(under)
      decreases f, 1
    {
      hide Comp;
      ThrowIs(us, f, lisp2);
      ok := Compile(f.arg);
      if !ok { return; }
      var _ := Emit(OpThrow, 0);
    }

    // A try: the handler's address and the jump over the handler are left open.

    method EnterTry() returns (setup: nat)
      requires Valid()
      modifies this
      ensures Valid() && under == old(under) && setup == |old(raw)| && raw == old(raw) + [Raw(OpSetupTry, LIMIT - 1)]
      ensures us == Put(old(us), Top(old(us)).(pc := Top(old(us)).pc + 1, tries := Top(old(us)).tries + 1))
    {
      setup := EmitJump(OpSetupTry);
      us := Put(us, Top(us).(tries := Top(us).tries + 1));
    }

    method TurnTry(setup: nat, u: Unit, err: string, ghost c0: seq<Raw>, ghost b: seq<Raw>) returns (skip: nat)
      requires Valid() && setup == |c0| && raw == c0 + [Raw(OpSetupTry, LIMIT - 1)] + b
      modifies this
      ensures Valid() && under == old(under) && us == Reserve(Skip(Restore(old(us), u), 2), err)
      ensures skip == |c0| + |b| + 2
      ensures raw == c0 + ([Raw(OpSetupTry, |c0| + |b| + 3)] + b + [Raw(OpPopTry, 0), Raw(OpJump, LIMIT - 1)])
    {
      us := Restore(us, u);
      var _ := Emit(OpPopTry, 0);
      skip := EmitJump(OpJump);
      PatchJumpTo(setup, |code|);
      us := Reserve(us, err);
    }

    method CloseTry(skip: nat, ghost c0: seq<Raw>, ghost b: seq<Raw>, ghost h: seq<Raw>)
      requires Valid() && skip == |c0| + |b| + 2
      requires raw == c0 + ([Raw(OpSetupTry, |c0| + |b| + 3)] + b + [Raw(OpPopTry, 0), Raw(OpJump, LIMIT - 1)]) + h
      modifies this`code, this`raw
      ensures Valid() && raw == c0 + TryCatch(|c0|, b, h)
    {
      PatchJump(skip);
    }

    method CompileTry(f: Form) returns (ok: bool)
      requires Valid() && f.Try?
      modifies this
      ensures Follows(ok, us, raw, old(raw), Comp(old(us), f, lisp2))
      ensures ok ==> Valid() && under == old(under)
      decreases f, 1
    {
      hide Comp, CompBody, BindSlot, TryCatch, Reserve, Skip, Packs;
      TryIs(us, f, lisp2);
      if f.body.End? || f.handler.End? { return false; }
      ghost var c0 := raw;
      var u := Top(us);
      var setup := EnterTry();
      ghost var b := Emitted(CompBody(us, f.body, lisp2));
      ok := CompileDo(f.body);
      if !ok { return; }
      var skip := TurnTry(setup, u, f.err, c0, b);
      ghost var s := BindSlot(us, |u.names|);
      EmitBind(|u.names|);
      ghost var h := Emitted(CompBody(us, f.handler, lisp2));
      ok := CompileDo(f.handler);
      if !ok { return; }
      us := Restore(us, u);
      assert Valid();
      CloseTry(skip, c0, b, s.ws + h);
    }

    method CompileLoop(f: Form) returns (ok: bool)
      requires Valid() && f.Loop?
      modifies this
      ensures Follows(ok, us, raw, old(raw), Comp(old(us), f, lisp2))
      ensures ok ==> Valid() && under == old(under)
      decreases f, 1
    {
      hide Comp, CompInits, CompBody, BindSlot, Names, LoopEntry, Prefixed;
      LoopIs(us, f, lisp2);
      if f.body.End? { return false; }
      var u := Top(us);
      ghost var us0 := us;
      ok := CompileInits(f.binds);
      if !ok { return; }
      ghost var t := CompInits(us0, f.binds, lisp2).code;
      LoopEntryIs(us0, t, f.binds);
      var frame := LoopFrame(|code|, |u.names|, |Names(f.binds)|, u.tries);
      us := Put(us, Top(us).(names := u.names + Names(f.binds), loops := u.loops + [frame]));
      ok := CompileDo(f.body);
      if !ok { return; }
      us := Restore(us, u);
    }

    /** A slot is reserved before each initializer, and bound after it. */
    method CompileInits(bs: Binds) returns (ok: bool)
      requires Valid()
      modifies this
      ensures Follows(ok, us, raw, old(raw), CompInits(old(us), bs, lisp2))
      ensures ok ==> Valid() && under == old(under)
      decreases bs, 0
    {
      hide Comp, CompInits, BindSlot, Prefixed, Packs;
      var rest := bs;
      ghost var all, done := CompInits(us, rest, lisp2), [];
      PrefixedNone(all);
      while rest.Bind?
        invariant Valid() && under == old(under) && (rest == bs || rest < bs)
        invariant raw == old(raw) + done && all == Prefixed(done, CompInits(us, rest, lisp2))
        decreases rest
      {
        InitsStep(done, us, rest, lisp2);
        var slot := |Top(us).names|;
        us := Reserve(us, "");
        ghost var ws := Emitted(Comp(us, rest.init, lisp2));
        ok := Compile(rest.init);
        if !ok { return; }
        done := done + ws + BindSlot(us, slot).ws;
        EmitBind(slot);
        rest := rest.rest;
      }
      InitsEnd(done, us, lisp2);
      ok := true;
    }

    method CompileArgs(fs: Forms) returns (ok: bool)
      requires Valid()
      modifies this
      ensures Follows(ok, us, raw, old(raw), CompArgs(old(us), fs, lisp2))
      ensures ok ==> Valid() && under == old(under)
      decreases fs, 0
    {
      hide Comp, CompArgs, Prefixed;
      var rest := fs;
      ghost var all, done := CompArgs(us, rest, lisp2), [];
      PrefixedNone(all);
      while rest.Cons?
        invariant Valid() && under == old(under) && (rest == fs || rest < fs)
        invariant raw == old(raw) + done && all == Prefixed(done, CompArgs(us, rest, lisp2))
        decreases rest
      {
        ArgsStep(done, us, rest, lisp2);
        ghost var ws := Emitted(Comp(us, rest.head, lisp2));
        ok := Compile(rest.head);
        if !ok { return; }
        done := done + ws;
        rest := rest.tail;
      }
      ArgsEnd(done, us, lisp2);
      ok := true;
    }

    method CompileRecur(f: Form) returns (ok: bool)
      requires Valid() && f.Recur?
      modifies this
      ensures Follows(ok, us, raw, old(raw), Comp(old(us), f, lisp2))
      ensures ok ==> Valid() && under == old(under)
      decreases f, 1
    {
      hide Comp, CompArgs, Length, GoBack;
      RecurIs(us, f, lisp2);
      var loops := Top(us).loops;
      if loops == [] || loops[|loops| - 1].count != Length(f.args) { return false; }
      ghost var us0, c0 := us, raw;
      ok := CompileArgs(f.args);
      if !ok { return; }
      ghost var t := CompArgs(us0, f.args, lisp2).code;
      EmitBack(loops[|loops| - 1], c0, t);
    }

    /** A store of recur; it binds if its slot is captured. */
    method EmitStore(slot: nat)
      requires Valid()
      modifies this
      ensures Valid() && under == old(under) && raw == old(raw) + [Raw(OpSetLocal, slot), Raw(OpPop, 0)]
      ensures us == Stored(old(us), 2, if Marked(Top(old(us)).captured, slot) then {|old(raw)|} else {})
    {
      NoBinds2(us);
      var ip := Emit(OpSetLocal, slot);
      if Marked(Top(us).captured, slot) { us := Put(us, Top(us).(binds := Top(us).binds + {ip})); }
      var _ := Emit(OpPop, 0);
    }

    method EmitStores(base: nat, count: nat)
      requires Valid()
      modifies this
      ensures Valid() && under == old(under) && raw == old(raw) + Stores(base, count)
      ensures us == Stored(old(us), 2 * count, StoreBinds(Top(old(us)).captured, |old(raw)|, base, count))
    {
      hide Stores, StoreBinds, Stored;
      ghost var us0, captured, at := us, Top(us).captured, |raw|;
      var i: nat := count;
      ghost var stored, bound: set<nat> := [], {};
      AllStores(captured, at, base, count);
      StoredNone(us);
      while i > 0
        invariant Valid() && under == old(under) && i <= count && raw == old(raw) + stored
        invariant |stored| == 2 * (count - i)
        invariant us == Stored(us0, |stored|, bound) && Top(us).captured == captured
        invariant Stores(base, count) == stored + Stores(base, i)
        invariant StoreBinds(captured, at, base, count) == bound + StoreBinds(captured, at + |stored|, base, i)
      {
        StoresIs(base, i);
        StoreBindsIs(captured, at + |stored|, base, i);
        i := i - 1;
        ghost var more := if Marked(captured, base + i) then {|raw|} else {};
        StoredMore(us0, |stored|, bound, more);
        EmitStore(base + i);
        ghost var ws := [Raw(OpSetLocal, base + i), Raw(OpPop, 0)];
        assert stored + (ws + Stores(base, i)) == stored + ws + Stores(base, i);
        stored, bound := stored + ws, bound + more;
      }
      NoStores(captured, at + |stored|, base);
      assert stored + [] == stored && bound + {} == bound;
    }

    /** The stores of a recur from the last slot down, the ways out of the try scopes, and the
        jump back. */
    method EmitBack(lp: LoopFrame, ghost c0: seq<Raw>, ghost t: Code)
      requires Valid() && us == t.us && raw == c0 + t.ws
      modifies this
      ensures Valid() && under == old(under) && us == GoBack(t, lp).us && raw == c0 + GoBack(t, lp).ws
    {
      hide Stores, StoreBinds, PopTryWords, Skip, Stored;
      var u := Top(us);
      var n := if u.tries >= lp.tries then u.tries - lp.tries else 0;
      BackIs(t, lp, n);
      EmitStores(lp.base, lp.count);
      EmitPops(n);
      var _ := Emit(OpLoop, lp.start);
    }

    method EmitPops(n: nat)
      requires Valid()
      modifies this
      ensures Valid() && under == old(under) && us == Skip(old(us), |PopTryWords(n)|)
      ensures raw == old(raw) + PopTryWords(n)
    {
      hide Skip;
      SkipNone(us);
      for d := 0 to n
        invariant Valid() && under == old(under) && us == Skip(old(us), d) && raw == old(raw) + PopTryWords(d)
      {
        SkipSkip(old(us), d, 1);
        MorePops(d);
        var _ := Emit(OpPopTry, 0);
      }
      PopsLength(n);
    }

    method CompileCall(f: Form) returns (ok: bool)
      requires Valid() && f.Call?
      modifies this
      ensures Follows(ok, us, raw, old(raw), Comp(old(us), f, lisp2))
      ensures ok ==> Valid() && under == old(under)
      decreases f, 1
    {
      hide Comp, CompArgs, CompHead, NativeOf, Shadowed, Length;
      if f.head.Var? && NativeOf(f.head.name).Some? && !Shadowed(us, f.head.name) {
        ok := CompileNativeOp(f);
        return;
      }
      CallIs(us, f, lisp2);
      ok := CompileHead(f);
      if !ok { return; }
      ok := CompileArgs(f.args);
      if !ok { return; }
      var _ := Emit(OpCall, Length(f.args));
    }

    /** The function a call names, in the namespace the dialect keeps functions in. */
    method CompileHead(f: Form) returns (ok: bool)
      requires Valid() && f.Call?
      modifies this
      ensures Follows(ok, us, raw, old(raw), CompHead(old(us), f.head, lisp2))
      ensures ok ==> Valid() && under == old(under)
      decreases f, 0
    {
      hide Comp, WithConst;
      if lisp2 && f.head.Var? {
        EmitConst(OpGetFunc, Sym(f.head.name));
        return true;
      }
      ok := Compile(f.head);
    }

    method CompileNativeOp(f: Form) returns (ok: bool)
      requires Valid() && f.Call? && IsNative(us, f.head)
      modifies this
      ensures Follows(ok, us, raw, old(raw), Comp(old(us), f, lisp2))
      ensures ok ==> Valid() && under == old(under)
      decreases f, 0
    {
      hide Comp, CompArgs, CompFused, NativeOf, Shadowed, WithConst, Length;
      NativeIs(us, f, lisp2);
      var op, x := NativeOf(f.head.name).value, f.head.name;
      var fused := FuseNativeOp(op, x, f.args);
      if fused { return true; }
      EmitConst(if lisp2 then OpFreezeNativeFunc else OpFreezeNative, Sym(x));
      ok := CompileArgs(f.args);
      if !ok { return; }
      var _ := Emit(OpNative(op), Length(f.args));
    }

    /** One instruction for a call whose two operands are slots or constants. A constant operand
        goes into the pool even when the other operand rules fusion out. */
    method FuseNativeOp(op: NativeOp, x: string, args: Forms) returns (fused: bool)
      requires Valid()
      modifies this
      ensures Valid() && under == old(under)
      ensures var r := CompFused(old(us), op, x, args, lisp2);
        && us == r.0 && (fused <==> r.1.Some?)
        && raw == old(raw) + if fused then r.1.value else []
    {
      hide ResolveLocal, IndexOf, Packs;
      if !(args.Cons? && args.tail.Cons? && args.tail.tail.End?) { return false; }
      var a := FusedSide(Top(us), args.head);
      if a.None? { return false; }
      us := Put(us, FusedPool(Top(us), args.head));
      var b := FusedSide(Top(us), args.tail.head);
      if b.None? { return false; }
      var u2 := FusedPool(Top(us), args.tail.head);
      var u3 := Interned(u2, Sym(x));
      var entry := FusedOp(op, IndexOf(u2.constants, Sym(x)), lisp2, a.value, b.value);
      us := Put(us, u3.(fused := u3.fused + [entry]));
      var _ := Emit(OpFused, |u3.fused|);
      return true;
    }

    /** A function: its body is compiled as a function of its own and becomes a chunk of the one
        around it. */
    method CompileFn(f: Form) returns (ok: bool)
      requires Valid() && f.Lambda?
      modifies this
      ensures Follows(ok, us, raw, old(raw), Comp(old(us), f, lisp2))
      ensures ok ==> Valid() && under == old(under)
      decreases f, 1
    {
      hide Comp, CompArgs, Finished, AllFit, SubChunk, Closes, NewUnit;
      FnIs(us, f, lisp2);
      if f.body.End? { return false; }
      ghost var inner: Nest := us + [NewUnit(f.params)];
      OpenFn(f.params);
      ok := CompileArgs(f.body);
      if !ok { return; }
      ghost var t := CompArgs(inner, f.body, lisp2).code;
      assert |t.us| >= 2 && raw == t.ws;
      CloseFn(t);
    }

    method OpenFn(params: seq<string>)
      requires Valid()
      modifies this
      ensures Valid() && us == old(us) + [NewUnit(params)] && raw == [] && under == old(under) + [old(raw)]
    {
      outer, under := outer + [code], under + [raw];
      us, code, raw := us + [NewUnit(params)], [], [];
    }

    method CloseFn(ghost t: Code)
      requires Valid() && us == t.us && raw == t.ws && |us| >= 2
      modifies this
      ensures Valid() && under == old(under)[..|old(under)| - 1]
      ensures var around: Nest := t.us[..|t.us| - 1];
        var c := Closes(Put(around, Top(around).(subs := Top(around).subs + [SubChunk(t)])), |Top(around).subs|,
            AllFit(Top(t.us), t.ws));
        us == c.us && raw == old(under)[|old(under)| - 1] + c.ws
    {
      hide AllFit, Finished;
      var _ := Emit(OpReturn, 0);
      var sub := Finalize(t.us);
      var around: Nest := us[..|us| - 1];
      assert around == t.us[..|t.us| - 1];
      var u := Top(around);
      us := Put(around, u.(subs := u.subs + [sub]));
      code, outer := outer[|outer| - 1], outer[..|outer| - 1];
      raw, under := under[|under| - 1], under[..|under| - 1];
      var _ := Emit(OpClosure, |u.subs|, AllFit(Top(t.us), t.ws));
    }

    /** The chunk of the innermost function, now that its code is final. */
    method Finalize(ghost before: Nest) returns (c: Chunk)
      requires Valid() && us == Skip(before, 1)
      ensures c == Finished(Top(before), raw)
    {
      hide MaxStack, Rewritten, Packed;
      var u := Top(us);
      var out := code;
      for ip := 0 to |out|
        invariant |out| == |code| && (forall i :: ip <= i < |out| ==> out[i] == code[i])
        invariant forall i :: 0 <= i < ip ==> out[i] == Rewritten(u.captured, u.binds, i, code[i])
      {
        out := out[ip := Rewritten(u.captured, u.binds, ip, out[ip])];
      }
      var n := ComputeMaxStack(out, u.locals);
      c := Chunk(out, u.constants, u.fused, u.params, u.locals, n, u.captured, u.descs, u.subs);
      assert out == Finished(Top(before), raw).code;
    }

    /** The forms of a body, each but the last dropped. */
    method CompileDo(fs: Forms) returns (ok: bool)
      requires Valid()
      modifies this
      ensures Follows(ok, us, raw, old(raw), CompBody(old(us), fs, lisp2))
      ensures ok ==> Valid() && under == old(under)
      decreases fs, 0
    {
      hide Comp, CompBody, Skip, Prefixed;
      BodyIs(us, fs, lisp2);
      if fs.End? {
        var _ := Emit(OpNil, 0);
        return true;
      }
      var rest := fs;
      ghost var all, done := CompBody(us, fs, lisp2), [];
      PrefixedNone(all);
      while !rest.tail.End?
        invariant Valid() && under == old(under) && rest.Cons? && (rest == fs || rest < fs)
        invariant raw == old(raw) + done && all == Prefixed(done, CompBody(us, rest, lisp2))
        decreases rest
      {
        BodyStep(done, us, rest, lisp2);
        ghost var ws := Emitted(Comp(us, rest.head, lisp2));
        ok := Compile(rest.head);
        if !ok { return; }
        var _ := Emit(OpPop, 0);
        done := done + ws + [Raw(OpPop, 0)];
        rest := rest.tail;
      }
      BodyStep(done, us, rest, lisp2);
      ok := Compile(rest.head);
    }
  }

  function Emitted(b: Built): seq<Raw> {
    if b.Built? then b.code.ws else []
  }

  /** Compiles one top-level form. */
  method CompileForm(f: Form, lisp2: bool) returns (c: Option<Chunk>)
    ensures c == match Comp([NewUnit([])], f, lisp2) case Refused => None case Built(t) => Some(SubChunk(t))
  {
    hide Comp, Finished;
    var e := new Emitter(lisp2);
    var ok := e.Compile(f);
    if !ok { return None; }
    ghost var t := Comp([NewUnit([])], f, lisp2).code;
    assert e.raw == t.ws;
    var _ := e.Emit(OpReturn, 0);
    var chunk := e.Finalize(t.us);
    return Some(chunk);
  }

  method ComputeMaxStack(ws: seq<Word>, locals: nat) returns (n: nat)
    ensures n == MaxStack(ws, locals)
  {
    hide Delta;
    var height, peak, bound := 0, 0, 0;
    for i := 0 to |ws|
      invariant height == Height(ws[..i]) && peak == Peak(ws[..i]) && bound == SlotBound(ws[..i])
    {
      assert ws[..i + 1][..i] == ws[..i];
      var w := ws[i];
      if IsSlotOp(w.op) && w.a + 1 > bound { bound := w.a + 1; }
      height := height + Delta(w);
      if height > peak { peak := height; }
    }
    assert ws[..|ws|] == ws;
    n := locals + peak;
    if bound > n { n := bound; }
  }

  // ---- calls and functions ----

  lemma {:induction false} DoIs(us: Nest, f: Form, l2: bool)
    ensures f.Do? ==> Comp(us, f, l2) == CompBody(us, f.body, l2)
    ensures f.Cond? ==> Comp(us, f, l2) == CompClauses(us, f.clauses, l2)
  {
    hide CompBody, CompClauses, CompBinds, CompInits, CompArgs, CompAnd, CompOr, CompHead, CompFused, GoBack, WithConst;
  }

  lemma {:induction false} CallIs(us: Nest, f: Form, l2: bool)
    requires f.Call? && !IsNative(us, f.head)
    ensures Comp(us, f, l2) == match CompHead(us, f.head, l2)
      case Refused => Refused
      case Built(c) =>
        match CompArgs(c.us, f.args, l2)
        case Refused => Refused
        case Built(t) => var s := One(t.us, OpCall, Length(f.args)); Built(Code(s.us, c.ws + t.ws + s.ws))
  {
    hide CompBody, CompClauses, CompBinds, CompInits, CompArgs, CompAnd, CompOr, CompHead, CompFused, GoBack, WithConst,
         NativeOf, Shadowed, Length;
  }

  lemma {:induction false} NativeIs(us: Nest, f: Form, l2: bool)
    requires f.Call? && IsNative(us, f.head)
    ensures var op := NativeOf(f.head.name).value;
      var (us1, fused) := CompFused(us, op, f.head.name, f.args, l2);
      Comp(us, f, l2) == if fused.Some? then Built(Code(us1, fused.value))
      else
        var c := WithConst(us1, if l2 then OpFreezeNativeFunc else OpFreezeNative, Sym(f.head.name));
        match CompArgs(c.us, f.args, l2)
        case Refused => Refused
        case Built(t) => var s := One(t.us, OpNative(op), Length(f.args)); Built(Code(s.us, c.ws + t.ws + s.ws))
  {
    hide CompBody, CompClauses, CompBinds, CompInits, CompArgs, CompAnd, CompOr, CompHead, CompFused, GoBack, WithConst,
         NativeOf, Shadowed, Length;
  }

  lemma {:induction false} FnIs(us: Nest, f: Form, l2: bool)
    requires f.Lambda?
    ensures Comp(us, f, l2) == if f.body.End? then Refused else match CompArgs(us + [NewUnit(f.params)], f.body, l2)
      case Refused => Refused
      case Built(t) =>
        if |t.us| < 2 then Refused
        else
          var around: Nest := t.us[..|t.us| - 1];
          var u := Top(around);
          Built(Closes(Put(around, u.(subs := u.subs + [SubChunk(t)])), |u.subs|, AllFit(Top(t.us), t.ws)))
  {
    hide CompBody, CompClauses, CompBinds, CompInits, CompArgs, CompAnd, CompOr, CompHead, CompFused, GoBack, WithConst,
         Finished;
  }

  // ---- code with open jumps ----

  /** Code around one open jump to the end of the whole. */
  datatype Piece = Piece(before: seq<Raw>, op: Opcode, after: seq<Raw>)

  /** The pieces and what follows them, with every jump leading to the end. */
  function Nested(ps: seq<Piece>, tail: seq<Raw>): seq<Raw> {
    if ps == [] then tail
    else
      var rest := Nested(ps[1..], tail);
      ps[0].before + [Raw(ps[0].op, |ps[0].after| + |rest|)] + ps[0].after + rest
  }

  /** The same with only the first m jumps patched. */
  function Half(ps: seq<Piece>, tail: seq<Raw>, m: nat): seq<Raw> {
    if ps == [] then tail
    else
      var rest := Half(ps[1..], tail, if m > 0 then m - 1 else 0);
      ps[0].before + [Raw(ps[0].op, if m > 0 then |ps[0].after| + |rest| else LIMIT - 1)] + ps[0].after + rest
  }

  function Holes(ps: seq<Piece>, at: nat): seq<nat> {
    if ps == [] then []
    else [at + |ps[0].before|] + Holes(ps[1..], at + |ps[0].before| + 1 + |ps[0].after|)
  }

  function Around(ps: seq<Piece>, b: Built): Built {
    match b
    case Refused => Refused
    case Built(c) => Built(Code(c.us, Nested(ps, c.ws)))
  }

  lemma {:induction false} HoleCount(ps: seq<Piece>, at: nat)
    ensures |Holes(ps, at)| == |ps|
  {
    if ps != [] { HoleCount(ps[1..], at + |ps[0].before| + 1 + |ps[0].after|); }
  }

  lemma {:induction false} HalfLength(ps: seq<Piece>, tail: seq<Raw>, m: nat)
    ensures |Half(ps, tail, m)| == |Nested(ps, tail)|
    decreases |ps|
  {
    if ps != [] { HalfLength(ps[1..], tail, if m > 0 then m - 1 else 0); }
  }

  lemma {:induction false} HalfWhole(ps: seq<Piece>, tail: seq<Raw>)
    ensures Half(ps, tail, |ps|) == Nested(ps, tail)
    decreases |ps|
  {
    if ps != [] { HalfWhole(ps[1..], tail); }
  }

  lemma {:induction false} HalfIs(ps: seq<Piece>, tail: seq<Raw>, m: nat)
    requires ps != []
    ensures var p, rest := ps[0], Half(ps[1..], tail, if m > 0 then m - 1 else 0);
      Half(ps, tail, m) == p.before + [Raw(p.op, if m > 0 then |p.after| + |rest| else LIMIT - 1)] + p.after + rest
  {
  }

  /** Patching the first jump of some code. */
  lemma {:induction false} PatchFirst(c0: seq<Raw>, p: Piece, rest: seq<Raw>)
    ensures var j, code := |c0| + |p.before|, c0 + (p.before + [Raw(p.op, LIMIT - 1)] + p.after + rest);
      && j < |code|
      && code[j := Raw(code[j].op, |code| - j - 1)]
        == c0 + (p.before + [Raw(p.op, |p.after| + |rest|)] + p.after + rest)
  {
    var code := c0 + (p.before + [Raw(p.op, LIMIT - 1)] + p.after + rest);
    assert code[|c0| + |p.before|] == Raw(p.op, LIMIT - 1);
    assert |code| - (|c0| + |p.before|) - 1 == |p.after| + |rest|;
  }

  /** Patching the next jump. */
  lemma {:induction false} PatchOne(c0: seq<Raw>, ps: seq<Piece>, tail: seq<Raw>, m: nat)
    requires m < |ps|
    ensures |Holes(ps, |c0|)| == |ps|
    ensures var j, code := Holes(ps, |c0|)[m], c0 + Half(ps, tail, m);
      && |c0| <= j < |code|
      && code[j := Raw(code[j].op, |code| - j - 1)] == c0 + Half(ps, tail, m + 1)
    decreases |ps|
  {
    hide Nested, Half;
    HoleCount(ps, |c0|);
    var p, rest := ps[0], ps[1..];
    HalfIs(ps, tail, m);
    HalfIs(ps, tail, m + 1);
    if m == 0 {
      PatchFirst(c0, p, Half(rest, tail, 0));
    } else {
      HalfLength(rest, tail, m - 1);
      HalfLength(rest, tail, m);
      var c1 := c0 + p.before + [Raw(p.op, |p.after| + |Half(rest, tail, m - 1)|)] + p.after;
      PatchOne(c1, rest, tail, m - 1);
      Regroup(c0, p.before, [Raw(p.op, |p.after| + |Half(rest, tail, m - 1)|)], p.after, Half(rest, tail, m - 1));
      Regroup(c0, p.before, [Raw(p.op, |p.after| + |Half(rest, tail, m - 1)|)], p.after, Half(rest, tail, m));
    }
  }

  lemma {:induction false} Regroup(a: seq<Raw>, b: seq<Raw>, c: seq<Raw>, d: seq<Raw>, e: seq<Raw>)
    ensures a + (b + c + d + e) == a + b + c + d + e
  {
  }

  lemma {:induction false} NestedSnoc(ps: seq<Piece>, p: Piece, tail: seq<Raw>)
    ensures Nested(ps, Nested([p], tail)) == Nested(ps + [p], tail)
    decreases |ps|
  {
    if ps == [] {
      assert ps + [p] == [p];
    } else {
      NestedSnoc(ps[1..], p, tail);
      assert (ps + [p])[1..] == ps[1..] + [p];
    }
  }

  lemma {:induction false} HalfSnoc(ps: seq<Piece>, p: Piece)
    ensures Half(ps + [p], [], 0) == Half(ps, [], 0) + p.before + [Raw(p.op, LIMIT - 1)] + p.after
    decreases |ps|
  {
    if ps == [] {
      assert ps + [p] == [p] && [p][1..] == [];
    } else {
      HalfSnoc(ps[1..], p);
      assert (ps + [p])[1..] == ps[1..] + [p];
    }
  }

  lemma {:induction false} HolesSnoc(ps: seq<Piece>, p: Piece, at: nat)
    ensures Holes(ps + [p], at) == Holes(ps, at) + [at + |Half(ps, [], 0)| + |p.before|]
    decreases |ps|
  {
    if ps == [] {
      assert ps + [p] == [p] && [p][1..] == [];
    } else {
      HolesSnoc(ps[1..], p, at + |ps[0].before| + 1 + |ps[0].after|);
      assert (ps + [p])[1..] == ps[1..] + [p];
    }
  }

  lemma {:induction false} OpensMore(c0: seq<Raw>, ps: seq<Piece>, p: Piece)
    ensures c0 + Half(ps + [p], [], 0) == c0 + Half(ps, [], 0) + p.before + [Raw(p.op, LIMIT - 1)] + p.after
    ensures Holes(ps + [p], |c0|) == Holes(ps, |c0|) + [|c0 + Half(ps, [], 0)| + |p.before|]
  {
    hide Half, Holes;
    HalfSnoc(ps, p);
    HolesSnoc(ps, p, |c0|);
  }

  lemma {:induction false} NothingOpen(c0: seq<Raw>, b: Built)
    ensures Half([], [], 0) == [] && Holes([], |c0|) == [] && Around([], b) == b && c0 + [] == c0
  {
  }

  // ---- and ----

  lemma {:induction false} AndIs(us: Nest, args: Forms, l2: bool)
    ensures Comp(us, And(args), l2) == if args.End? then Built(One(us, OpTrue, 0)) else match Comp(us, args.head, l2)
      case Refused => Refused
      case Built(t) => Prefixed(t.ws, CompAnd(t.us, args.tail, l2))
  {
    hide CompBody, CompClauses, CompBinds, CompInits, CompArgs, CompAnd, CompOr, CompHead, CompFused, GoBack, WithConst;
  }

  lemma {:induction false} AndStep(ps: seq<Piece>, us: Nest, fs: Forms, l2: bool)
    requires fs.Cons?
    ensures Around(ps, CompAnd(us, fs, l2)) == match Comp(Skip(us, 3), fs.head, l2)
      case Refused => Refused
      case Built(t) => Around(ps + [Piece([Raw(OpDup, 0)], OpJumpIfFalse, [Raw(OpPop, 0)] + t.ws)],
          CompAnd(t.us, fs.tail, l2))
  {
    hide Comp, Nested;
    if Comp(Skip(us, 3), fs.head, l2).Built? {
      var t := Comp(Skip(us, 3), fs.head, l2).code;
      var b := CompAnd(t.us, fs.tail, l2);
      if b.Built? {
        var p := Piece([Raw(OpDup, 0)], OpJumpIfFalse, [Raw(OpPop, 0)] + t.ws);
        AndPiece(t.ws, b.code.ws);
        NestedSnoc(ps, p, b.code.ws);
      }
    }
  }

  lemma {:induction false} AndPiece(t: seq<Raw>, b: seq<Raw>)
    ensures AndThen(t + b) == Nested([Piece([Raw(OpDup, 0)], OpJumpIfFalse, [Raw(OpPop, 0)] + t)], b)
  {
    assert [Piece([Raw(OpDup, 0)], OpJumpIfFalse, [Raw(OpPop, 0)] + t)][1..] == [];
  }

  lemma {:induction false} AndEnds(ps: seq<Piece>, us: Nest, l2: bool)
    ensures Around(ps, CompAnd(us, End, l2)) == Built(Code(us, Nested(ps, [])))
  {
  }

  // ---- or ----

  lemma {:induction false} OrIs(us: Nest, args: Forms, l2: bool)
    ensures Comp(us, Or(args), l2) == if args.End? then Built(One(us, OpNil, 0)) else match Comp(us, args.head, l2)
      case Refused => Refused
      case Built(t) => Prefixed(t.ws, CompOr(t.us, args.tail, l2))
  {
    hide CompBody, CompClauses, CompBinds, CompInits, CompArgs, CompAnd, CompOr, CompHead, CompFused, GoBack, WithConst;
  }

  function OrPiece(ws: seq<Raw>): Piece {
    Piece([Raw(OpDup, 0), Raw(OpJumpIfFalse, 1)], OpJump, [Raw(OpPop, 0)] + ws)
  }

  lemma {:induction false} OrStep(ps: seq<Piece>, us: Nest, fs: Forms, l2: bool)
    requires fs.Cons?
    ensures Around(ps, CompOr(us, fs, l2)) == match Comp(Skip(us, 4), fs.head, l2)
      case Refused => Refused
      case Built(t) => Around(ps + [OrPiece(t.ws)], CompOr(t.us, fs.tail, l2))
  {
    hide Comp, Nested, OrPiece;
    if Comp(Skip(us, 4), fs.head, l2).Built? {
      var t := Comp(Skip(us, 4), fs.head, l2).code;
      var b := CompOr(t.us, fs.tail, l2);
      if b.Built? {
        OrNests(t.ws, b.code.ws);
        NestedSnoc(ps, OrPiece(t.ws), b.code.ws);
      }
    }
  }

  lemma {:induction false} OrNests(t: seq<Raw>, b: seq<Raw>)
    ensures OrElse(t + b) == Nested([OrPiece(t)], b)
  {
    assert [OrPiece(t)][1..] == [];
  }

  lemma {:induction false} OrEnds(ps: seq<Piece>, us: Nest, l2: bool)
    ensures Around(ps, CompOr(us, End, l2)) == Built(Code(us, Nested(ps, [])))
  {
  }

  // ---- cond ----

  function ClausePiece(t: seq<Raw>, a: seq<Raw>): Piece {
    Piece(t + [Raw(OpJumpIfFalse, |a| + 1)] + a, OpJump, [])
  }

  /** A clause's code, with its way out open. */
  function ClauseCode(us: Nest, cs: Clauses, l2: bool): Option<(Piece, Nest)>
    requires cs.Clause?
  {
    match Comp(us, cs.test, l2)
    case Refused => None
    case Built(t) =>
      match CompBody(Skip(t.us, 1), cs.body, l2)
      case Refused => None
      case Built(a) => Some((ClausePiece(t.ws, a.ws), Skip(a.us, 1)))
  }

  lemma {:induction false} ClauseStep(ps: seq<Piece>, us: Nest, cs: Clauses, l2: bool)
    requires cs.Clause? && !IsElse(cs.test)
    ensures Around(ps, CompClauses(us, cs, l2)) == match ClauseCode(us, cs, l2)
      case None => Refused
      case Some(b) => Around(ps + [b.0], CompClauses(b.1, cs.rest, l2))
  {
    hide Comp, CompBody, Nested, ClausePiece, Skip;
    if ClauseCode(us, cs, l2).Some? {
      var t := Comp(us, cs.test, l2).code;
      var a := CompBody(Skip(t.us, 1), cs.body, l2).code;
      var b := CompClauses(Skip(a.us, 1), cs.rest, l2);
      if b.Built? {
        ClauseNests(t.ws, a.ws, b.code.ws);
        NestedSnoc(ps, ClausePiece(t.ws, a.ws), b.code.ws);
      }
    }
  }

  lemma {:induction false} ClauseNests(t: seq<Raw>, a: seq<Raw>, b: seq<Raw>)
    ensures t + IfElse(a, b) == Nested([ClausePiece(t, a)], b)
  {
    assert [ClausePiece(t, a)][1..] == [];
  }

  lemma {:induction false} ClausesEnd(us: Nest, cs: Clauses, l2: bool)
    ensures cs.NoClauses? ==> CompClauses(us, cs, l2) == Built(One(us, OpNil, 0))
    ensures cs.Clause? && IsElse(cs.test) ==> CompClauses(us, cs, l2) == CompBody(us, cs.body, l2)
  {
    hide CompBody;
  }

  lemma {:induction false} HalfTail(c0: seq<Raw>, ps: seq<Piece>, tail: seq<Raw>)
    ensures c0 + Half(ps, [], 0) + tail == c0 + Half(ps, tail, 0)
    decreases |ps|
  {
    hide Half;
    if ps == [] {
      NoneHalf(tail);
      NoneHalf([]);
    } else {
      HalfIs(ps, [], 0);
      HalfIs(ps, tail, 0);
      var p := ps[0];
      var c1 := c0 + p.before + [Raw(p.op, LIMIT - 1)] + p.after;
      HalfTail(c1, ps[1..], tail);
      Regroup(c0, p.before, [Raw(p.op, LIMIT - 1)], p.after, Half(ps[1..], [], 0));
      Regroup(c0, p.before, [Raw(p.op, LIMIT - 1)], p.after, Half(ps[1..], tail, 0));
    }
  }

  lemma {:induction false} NoneHalf(tail: seq<Raw>)
    ensures Half([], tail, 0) == tail
  {
  }

  // ---- bindings, assignment, try ----

  lemma {:induction false} CaptureKeepsPc(us: Nest, x: string)
    ensures |EnsureCapture(us, x)| == |us| && forall i :: 0 <= i < |us| ==> EnsureCapture(us, x)[i].pc == us[i].pc
    decreases |us|
  {
    hide CapIndex, ResolveLocal;
    if |us| > 1 { CaptureKeepsPc(us[..|us| - 1], x); }
  }

  lemma {:induction false} LetIs(us: Nest, f: Form, l2: bool)
    requires f.Let?
    ensures Comp(us, f, l2) == if f.body.End? then Refused else match CompBinds(us, f.binds, l2)
      case Refused => Refused
      case Built(t) =>
        match CompBody(t.us, f.body, l2)
        case Refused => Refused
        case Built(b) => Built(Code(Restore(b.us, Top(us)), t.ws + b.ws))
  {
    hide CompBody, CompClauses, CompBinds, CompInits, CompArgs, CompAnd, CompOr, CompHead, CompFused, GoBack, WithConst,
         Restore;
  }

  lemma {:induction false} BindsStep(done: seq<Raw>, us: Nest, bs: Binds, l2: bool)
    requires bs.Bind?
    ensures Prefixed(done, CompBinds(us, bs, l2)) == match Comp(us, bs.init, l2)
      case Refused => Refused
      case Built(t) =>
        var s := BindSlot(Reserve(t.us, bs.name), |Top(t.us).names|);
        Prefixed(done + t.ws + s.ws, CompBinds(s.us, bs.rest, l2))
  {
    hide Comp, BindSlot, Reserve;
    if Comp(us, bs.init, l2).Built? {
      var t := Comp(us, bs.init, l2).code;
      var s := BindSlot(Reserve(t.us, bs.name), |Top(t.us).names|);
      var b := CompBinds(s.us, bs.rest, l2);
      if b.Built? { assert done + (t.ws + s.ws + b.code.ws) == done + t.ws + s.ws + b.code.ws; }
    }
  }

  lemma {:induction false} BindsEnd(done: seq<Raw>, us: Nest, l2: bool)
    ensures Prefixed(done, CompBinds(us, NoBinds, l2)) == Built(Code(us, done))
  {
    assert done + [] == done;
  }

  lemma {:induction false} AssignIs(us: Nest, f: Form, l2: bool)
    requires f.Assign?
    ensures var slot := ResolveLocal(Top(us).names, f.name);
      Comp(us, f, l2) ==
        if slot.None? && !AncestorBinds(us, f.name) then
          var c := WithConst(us, OpCheckLexical, Sym(f.name));
          match Comp(c.us, f.rhs, l2)
          case Refused => Refused
          case Built(r) => var s := WithConst(r.us, OpSetLexical, Sym(f.name)); Built(Code(s.us, c.ws + r.ws + s.ws))
        else
          match Comp(us, f.rhs, l2)
          case Refused => Refused
          case Built(r) =>
            var s := if slot.Some? then One(r.us, OpSetLocal, slot.value) else Capture(r.us, OpSetCap, f.name);
            Built(Code(s.us, r.ws + s.ws))
  {
    hide CompBody, CompClauses, CompBinds, CompInits, CompArgs, CompAnd, CompOr, CompHead, CompFused, GoBack, WithConst,
         Capture, AncestorBinds, ResolveLocal, One;
  }

  lemma {:induction false} ThrowIs(us: Nest, f: Form, l2: bool)
    requires f.Throw?
    ensures Comp(us, f, l2) == match Comp(us, f.arg, l2)
      case Refused => Refused
      case Built(t) => var s := One(t.us, OpThrow, 0); Built(Code(s.us, t.ws + s.ws))
  {
    hide CompBody, CompClauses, CompBinds, CompInits, CompArgs, CompAnd, CompOr, CompHead, CompFused, GoBack, WithConst;
  }

  lemma {:induction false} TryIs(us: Nest, f: Form, l2: bool)
    requires f.Try?
    ensures var u := Top(us);
      Comp(us, f, l2) == if f.body.End? || f.handler.End? then Refused
      else match CompBody(Put(us, u.(pc := u.pc + 1, tries := u.tries + 1)), f.body, l2)
        case Refused => Refused
        case Built(b) =>
          var s := BindSlot(Reserve(Skip(Restore(b.us, u), 2), f.err), |u.names|);
          match CompBody(s.us, f.handler, l2)
          case Refused => Refused
          case Built(h) => Built(Code(Restore(h.us, u), TryCatch(u.pc, b.ws, s.ws + h.ws)))
  {
    hide CompBody, CompClauses, CompBinds, CompInits, CompArgs, CompAnd, CompOr, CompHead, CompFused, GoBack, WithConst,
         Skip, Restore, Reserve, BindSlot, TryCatch;
  }

  // ---- loops ----

  lemma {:induction false} LoopIs(us: Nest, f: Form, l2: bool)
    requires f.Loop?
    ensures Comp(us, f, l2) == if f.body.End? then Refused else match CompInits(us, f.binds, l2)
      case Refused => Refused
      case Built(t) =>
        match CompBody(LoopEntry(us, t, f.binds), f.body, l2)
        case Refused => Refused
        case Built(b) => Built(Code(Restore(b.us, Top(us)), t.ws + b.ws))
  {
    hide CompBody, CompClauses, CompBinds, CompInits, CompArgs, CompAnd, CompOr, CompHead, CompFused, GoBack, WithConst,
         Restore, Names;
  }

  lemma {:induction false} LoopEntryIs(us: Nest, t: Code, binds: Binds)
    ensures var u, v := Top(us), Top(t.us);
      LoopEntry(us, t, binds) == Put(t.us, v.(names := u.names + Names(binds),
          loops := u.loops + [LoopFrame(v.pc, |u.names|, |Names(binds)|, u.tries)]))
  {
    hide Names;
  }

  lemma {:induction false} InitsStep(done: seq<Raw>, us: Nest, bs: Binds, l2: bool)
    requires bs.Bind?
    ensures Prefixed(done, CompInits(us, bs, l2)) == match Comp(Reserve(us, ""), bs.init, l2)
      case Refused => Refused
      case Built(t) =>
        var s := BindSlot(t.us, |Top(us).names|);
        Prefixed(done + t.ws + s.ws, CompInits(s.us, bs.rest, l2))
  {
    hide Comp, BindSlot, Reserve;
    if Comp(Reserve(us, ""), bs.init, l2).Built? {
      var t := Comp(Reserve(us, ""), bs.init, l2).code;
      var s := BindSlot(t.us, |Top(us).names|);
      var b := CompInits(s.us, bs.rest, l2);
      if b.Built? { assert done + (t.ws + s.ws + b.code.ws) == done + t.ws + s.ws + b.code.ws; }
    }
  }

  lemma {:induction false} InitsEnd(done: seq<Raw>, us: Nest, l2: bool)
    ensures Prefixed(done, CompInits(us, NoBinds, l2)) == Built(Code(us, done))
  {
    assert done + [] == done;
  }

  lemma {:induction false} ArgsStep(done: seq<Raw>, us: Nest, fs: Forms, l2: bool)
    requires fs.Cons?
    ensures Prefixed(done, CompArgs(us, fs, l2)) == match Comp(us, fs.head, l2)
      case Refused => Refused
      case Built(t) => Prefixed(done + t.ws, CompArgs(t.us, fs.tail, l2))
  {
    hide Comp;
    if Comp(us, fs.head, l2).Built? {
      var t := Comp(us, fs.head, l2).code;
      var b := CompArgs(t.us, fs.tail, l2);
      if b.Built? { assert done + (t.ws + b.code.ws) == done + t.ws + b.code.ws; }
    }
  }

  lemma {:induction false} ArgsEnd(done: seq<Raw>, us: Nest, l2: bool)
    ensures Prefixed(done, CompArgs(us, End, l2)) == Built(Code(us, done))
  {
    assert done + [] == done;
  }

  lemma {:induction false} RecurIs(us: Nest, f: Form, l2: bool)
    requires f.Recur?
    ensures var loops := Top(us).loops;
      Comp(us, f, l2) == if loops == [] || loops[|loops| - 1].count != Length(f.args) then Refused
      else match CompArgs(us, f.args, l2)
        case Refused => Refused
        case Built(t) => Built(GoBack(t, loops[|loops| - 1]))
  {
    hide CompBody, CompClauses, CompBinds, CompInits, CompArgs, CompAnd, CompOr, CompHead, CompFused, GoBack, WithConst,
         Length;
  }

  lemma {:induction false} StoresIs(base: nat, i: nat)
    requires i > 0
    ensures Stores(base, i) == [Raw(OpSetLocal, base + i - 1), Raw(OpPop, 0)] + Stores(base, i - 1)
  {
  }

  lemma {:induction false} StoreBindsIs(captured: seq<bool>, at: nat, base: nat, i: nat)
    requires i > 0
    ensures StoreBinds(captured, at, base, i) == (if Marked(captured, base + i - 1) then {at} else {}) +
        StoreBinds(captured, at + 2, base, i - 1)
  {
  }

  lemma {:induction false} AllStores(captured: seq<bool>, at: nat, base: nat, n: nat)
    ensures Stores(base, n) == [] + Stores(base, n)
    ensures StoreBinds(captured, at, base, n) == {} + StoreBinds(captured, at, base, n)
  {
    hide Stores, StoreBinds;
  }

  lemma {:induction false} NoStores(captured: seq<bool>, at: nat, base: nat)
    ensures Stores(base, 0) == [] && StoreBinds(captured, at, base, 0) == {}
  {
  }

  /** n more instructions, those at the given places binding. */
  function Stored(us: Nest, n: nat, bound: set<nat>): Nest {
    var u := Top(us);
    Put(us, u.(pc := u.pc + n, binds := u.binds + bound))
  }

  lemma {:induction false} StoredNone(us: Nest)
    ensures Stored(us, 0, {}) == us
  {
    assert Top(us).binds + {} == Top(us).binds;
  }

  lemma {:induction false} NoBinds2(us: Nest)
    ensures forall n: nat :: Skip(us, n) == Stored(us, n, {})
  {
    assert Top(us).binds + {} == Top(us).binds;
  }

  lemma {:induction false} StoredMore(us: Nest, m: nat, a: set<nat>, b: set<nat>)
    ensures Stored(Stored(us, m, a), 2, b) == Stored(us, m + 2, a + b)
    ensures Top(Stored(us, m + 2, a + b)).captured == Top(us).captured
  {
    assert Top(us).binds + a + b == Top(us).binds + (a + b);
  }

  lemma {:induction false} BackIs(t: Code, lp: LoopFrame, n: nat)
    requires n == if Top(t.us).tries >= lp.tries then Top(t.us).tries - lp.tries else 0
    ensures var u := Top(t.us);
      var vs := Stored(t.us, 2 * lp.count, StoreBinds(u.captured, u.pc, lp.base, lp.count));
      && GoBack(t, lp).us == Skip(Skip(vs, |PopTryWords(n)|), 1)
      && GoBack(t, lp).ws == t.ws + (Stores(lp.base, lp.count) + PopTryWords(n) + [Raw(OpLoop, lp.start)])
  {
    hide Stores, StoreBinds, PopTryWords;
    StoresLength(lp.base, lp.count);
  }

  lemma {:induction false} StoresLength(base: nat, count: nat)
    ensures |Stores(base, count)| == 2 * count
  {
    if count > 0 { StoresLength(base, count - 1); }
  }

  lemma {:induction false} MorePops(n: nat)
    ensures PopTryWords(n) + [Raw(OpPopTry, 0)] == PopTryWords(n + 1)
  {
    if n > 0 {
      MorePops(n - 1);
      assert PopTryWords(n + 1) == [Raw(OpPopTry, 0)] + PopTryWords(n);
      assert [Raw(OpPopTry, 0)] + (PopTryWords(n - 1) + [Raw(OpPopTry, 0)]) ==
          [Raw(OpPopTry, 0)] + PopTryWords(n - 1) + [Raw(OpPopTry, 0)];
    }
  }

  lemma {:induction false} PopsLength(n: nat)
    ensures |PopTryWords(n)| == n
  {
    if n > 0 { PopsLength(n - 1); }
  }

  lemma {:induction false} SkipNone(us: Nest)
    ensures Skip(us, 0) == us
  {
  }

  lemma {:induction false} SkipSkip(us: Nest, m: nat, n: nat)
    ensures Skip(Skip(us, m), n) == Skip(us, m + n)
  {
  }

  lemma {:induction false} PrefixedNone(b: Built)
    ensures Prefixed([], b) == b
  {
    if b.Built? { assert [] + b.code.ws == b.code.ws; }
  }

  lemma {:induction false} BodyIs(us: Nest, fs: Forms, l2: bool)
    ensures fs.End? ==> CompBody(us, fs, l2) == Built(One(us, OpNil, 0))
  {
  }

  /** A body one form on. */
  lemma {:induction false} BodyStep(done: seq<Raw>, us: Nest, fs: Forms, l2: bool)
    requires fs.Cons?
    ensures Prefixed(done, CompBody(us, fs, l2)) == match Comp(us, fs.head, l2)
      case Refused => Refused
      case Built(t) =>
        if fs.tail.End? then Built(Code(t.us, done + t.ws))
        else Prefixed(done + t.ws + [Raw(OpPop, 0)], CompBody(Skip(t.us, 1), fs.tail, l2))
  {
    hide Comp;
    if Comp(us, fs.head, l2).Built? && !fs.tail.End? {
      var t := Comp(us, fs.head, l2).code;
      var b := CompBody(Skip(t.us, 1), fs.tail, l2);
      if b.Built? { assert done + (t.ws + [Raw(OpPop, 0)] + b.code.ws) == done + t.ws + [Raw(OpPop, 0)] + b.code.ws; }
    }
  }
}
