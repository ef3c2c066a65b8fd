/** How large a form may be: a bound on its size under which packing keeps every instruction. */
module Sizes {
  import opened Forms
  import opened Machine
  import opened CodeGen
  import opened Bytecode
  import opened Lowering
  import opened Emission
  import opened Finishing
  import opened Chunks

  /** The nodes of a form inside some try scopes; a recur also counts the scopes it may leave and
      the slots it stores. */
  function Size(f: Form, tries: nat): nat {
    match f
    case Const(_) => 1
    case Quote(_) => 1
    case Var(_) => 1
    case Do(body) => 1 + SizeAll(body, tries)
    case If(test, thn, els) =>
      1 + Size(test, tries) + Size(thn, tries) + (match els case Some(e) => Size(e, tries) case None => 0)
    case When(test, body) => 1 + Size(test, tries) + SizeAll(body, tries)
    case Cond(clauses) => 1 + SizeClauses(clauses, tries)
    case And(args) => 1 + SizeAll(args, tries)
    case Or(args) => 1 + SizeAll(args, tries)
    case Not(arg) => 1 + Size(arg, tries)
    case Let(binds, body) => 1 + SizeBinds(binds, tries) + SizeAll(body, tries)
    case Assign(_, rhs) => 1 + Size(rhs, tries)
    case Throw(arg) => 1 + Size(arg, tries)
    case Try(body, _, handler) => 1 + SizeAll(body, tries + 1) + SizeAll(handler, tries)
    case Loop(binds, body) => 1 + SizeBinds(binds, tries) + SizeAll(body, tries)
    case Recur(args) => 1 + tries + Length(args) + SizeAll(args, tries)
    case Call(head, args) => 1 + Size(head, tries) + SizeAll(args, tries)
    case Lambda(params, body) => 1 + |params| + SizeAll(body, 0)
  }

  function SizeAll(fs: Forms, tries: nat): nat {
    if fs.End? then 0 else 1 + Size(fs.head, tries) + SizeAll(fs.tail, tries)
  }

  function SizeBinds(bs: Binds, tries: nat): nat {
    if bs.NoBinds? then 0 else 1 + Size(bs.init, tries) + SizeBinds(bs.rest, tries)
  }

  function SizeClauses(cs: Clauses, tries: nat): nat {
    if cs.NoClauses? then 0
    else 1 + Size(cs.test, tries) + SizeAll(cs.body, tries) + SizeClauses(cs.rest, tries)
  }

  // ---- functions that have not outgrown a bound ----

  predicate Below(u: Unit, n: nat) {
    u.pc <= n && |u.constants| <= n && |u.fused| <= n && u.locals <= n && |u.descs| <= n && |u.subs| <= n
  }

  ghost predicate Bounded(us: Nest, n: nat) {
    forall i :: 0 <= i < |us| ==> Below(us[i], n)
  }

  predicate AllNested(ws: seq<Raw>) {
    forall k :: 0 <= k < |ws| ==> ws[k].nested
  }

  ghost predicate Kept(c: Code, n: nat) {
    Bounded(c.us, n) && AllNested(c.ws)
  }

  /** Compiling from us kept within the bound, and left the functions in order. */
  ghost predicate Sized(us: Nest, c: Code, n: nat) {
    Kept(c, n) && Sound(c.us) && Top(c.us).tries == Top(us).tries
  }

  lemma {:induction false} More(us: Nest, n: nat, m: nat)
    requires Bounded(us, n) && n <= m
    ensures Bounded(us, m)
  {
  }

  lemma {:induction false} PutBelow(us: Nest, u: Unit, n: nat, m: nat)
    requires Bounded(us, n) && Below(u, m) && n <= m
    ensures Bounded(Put(us, u), m)
  {
    hide Below;
    More(us, n, m);
    forall i | 0 <= i < |us| ensures Below(Put(us, u)[i], m) {
      if i < |us| - 1 { BelowMore(us[i], n, m); }
    }
  }

  lemma {:induction false} BelowMore(u: Unit, n: nat, m: nat)
    requires Below(u, n) && n <= m
    ensures Below(u, m)
  {
  }

  lemma {:induction false} TopBelow(us: Nest, n: nat)
    requires Bounded(us, n)
    ensures Below(Top(us), n)
  {
  }

  lemma {:induction false} SkipBelow(us: Nest, k: nat, n: nat)
    requires Sound(us) && Bounded(us, n)
    ensures Bounded(Skip(us, k), n + k) && Sound(Skip(us, k)) && Top(Skip(us, k)).tries == Top(us).tries
  {
    hide Bounded, Sound;
    Skipped(us, k);
    TopBelow(us, n);
    PutBelow(us, Top(us).(pc := Top(us).pc + k), n, n + k);
  }

  lemma {:induction false} OneBelow(us: Nest, op: Opcode, a: nat, n: nat)
    requires Sound(us) && Bounded(us, n)
    ensures Sized(us, One(us, op, a), n + 1)
  {
    hide Bounded, Sound, Skip;
    SkipBelow(us, 1, n);
  }

  lemma {:induction false} InternBelow(u: Unit, v: Value, n: nat)
    requires Below(u, n)
    ensures Below(Interned(u, v), n + 1)
  {
    hide IndexOf;
  }

  lemma {:induction false} ConstBelow(us: Nest, op: Opcode, v: Value, n: nat)
    requires Sound(us) && Bounded(us, n) && (op.OpConst? || (IsNameOp(op) && v.Sym?))
    ensures Sized(us, WithConst(us, op, v), n + 1)
  {
    hide Bounded, Sound, Grown, Good, Interned;
    TopBelow(us, n);
    ConstMade(us, op, v);
    var u := Interned(Top(us), v);
    InternBelow(Top(us), v, n);
    InternPc(Top(us), v);
    var vs := WithConst(us, op, v).us;
    assert vs == Put(us, u.(pc := u.pc + 1));
    PutBelow(us, u.(pc := u.pc + 1), n, n + 1);
  }

  lemma {:induction false} InternPc(u: Unit, v: Value)
    ensures Interned(u, v) == u.(constants := Interned(u, v).constants)
  {
  }

  lemma {:induction false} RestoreBelow(us: Nest, v: Unit, n: nat)
    requires Bounded(us, n)
    ensures Bounded(Restore(us, v), n)
  {
    hide Bounded;
    TopBelow(us, n);
    PutBelow(us, Top(us).(names := v.names, loops := v.loops, tries := v.tries), n, n);
  }

  lemma {:induction false} ReserveBelow(us: Nest, x: string, n: nat)
    requires Sound(us) && Bounded(us, n)
    ensures Bounded(Reserve(us, x), n + 1) && Sound(Reserve(us, x)) && Top(Reserve(us, x)).tries == Top(us).tries
  {
    hide Bounded, Sound, Grown;
    ReserveOk(us, x);
    TopBelow(us, n);
    var u := Top(us);
    PutBelow(us, u.(names := u.names + [x], locals := u.locals + 1), n, n + 1);
  }

  lemma {:induction false} BindBelow(us: Nest, slot: nat, n: nat)
    requires Sound(us) && Bounded(us, n) && slot < Top(us).locals
    ensures Sized(us, BindSlot(us, slot), n + 2)
  {
    hide Bounded, Sound, Grown, Good;
    BindMade(us, slot);
    TopBelow(us, n);
    var u := Top(us);
    assert BindSlot(us, slot).us == Put(us, u.(binds := u.binds + {u.pc}, pc := u.pc + 2));
    PutBelow(us, u.(binds := u.binds + {u.pc}, pc := u.pc + 2), n, n + 2);
  }

  lemma {:induction false} CapturedBelow(us: Nest, x: string, n: nat)
    requires Bounded(us, n)
    ensures Bounded(EnsureCapture(us, x), n + 1)
    decreases |us|
  {
    hide CapIndex, ResolveLocal, Mark;
    var u := Top(us);
    if CapIndex(u.caps, x) < |u.caps| || |us| == 1 {
      More(us, n, n + 1);
    } else {
      var outer: Nest := us[..|us| - 1];
      assert Bounded(outer, n);
      CapturedBelow(outer, x, n);
    }
  }

  lemma {:induction false} CaptureBelow(us: Nest, op: Opcode, x: string, n: nat)
    requires Sound(us) && AncestorBinds(us, x) && (op.OpGetCap? || op.OpSetCap?) && Bounded(us, n)
    ensures Sized(us, Capture(us, op, x), n + 2)
  {
    hide Bounded, Sound, Grown, Good, EnsureCapture, CapIndex, AncestorBinds;
    CaptureMade(us, op, x);
    CaptureOk(us, x);
    CapturedBelow(us, x, n);
    SkipBelow(EnsureCapture(us, x), 1, n + 1);
  }

  // ---- forms ----

  lemma {:induction false} NestedJoin(a: seq<Raw>, b: seq<Raw>)
    requires AllNested(a) && AllNested(b)
    ensures AllNested(a + b)
  {
  }

  lemma {:induction false} NestedShapes(a: seq<Raw>, b: seq<Raw>, pc: nat)
    requires AllNested(a) && AllNested(b)
    ensures AllNested(IfElse(a, b)) && AllNested(AndThen(a)) && AllNested(OrElse(a)) && AllNested(TryCatch(pc, a, b))
  {
  }

  lemma {:induction false} SizedForm(us: Nest, f: Form, l2: bool, n: nat)
    requires Sound(us) && Comp(us, f, l2).Built? && Bounded(us, n) && n + 8 * Size(f, Top(us).tries) < LIMIT
    ensures Sized(us, Comp(us, f, l2).code, n + 8 * Size(f, Top(us).tries))
    decreases f, 2
  {
    hide *;
    match f {
      case Const(_) => SizedLeaf(us, f, l2, n);
      case Quote(_) => SizedLeaf(us, f, l2, n);
      case Var(_) => SizedLeaf(us, f, l2, n);
      case Do(_) => SizedDo(us, f, l2, n);
      case Cond(_) => SizedDo(us, f, l2, n);
      case If(_, _, _) => SizedIf(us, f, l2, n);
      case When(_, _) => SizedWhen(us, f, l2, n);
      case Not(_) => SizedNot(us, f, l2, n);
      case And(_) => SizedAndOr(us, f, l2, n);
      case Or(_) => SizedAndOr(us, f, l2, n);
      case Throw(_) => SizedThrow(us, f, l2, n);
      case Assign(_, _) => SizedAssign(us, f, l2, n);
      case Let(_, _) => SizedLet(us, f, l2, n);
      case Loop(_, _) => SizedLoop(us, f, l2, n);
      case Try(_, _, _) => SizedTry(us, f, l2, n);
      case Recur(_) => SizedRecur(us, f, l2, n);
      case Call(_, _) => SizedCall(us, f, l2, n);
      case Lambda(_, _) => SizedLambda(us, f, l2, n);
    }
    Compiles(us, f, l2);
    Frame(us, Comp(us, f, l2).code, Top(us).names, Out(us, f, l2));
    Conclude(us, Comp(us, f, l2).code, n + 8 * Size(f, Top(us).tries));
  }

  lemma {:induction false} Conclude(us: Nest, c: Code, n: nat)
    requires Kept(c, n) && Sound(c.us) && Top(c.us).tries == Top(us).tries
    ensures Sized(us, c, n)
  {
  }

  lemma {:induction false} SizedLeaf(us: Nest, f: Form, l2: bool, n: nat)
    requires Sound(us) && (f.Const? || f.Quote? || f.Var?) && Bounded(us, n)
    ensures Comp(us, f, l2).Built? && Kept(Comp(us, f, l2).code, n + 8 * Size(f, Top(us).tries))
    decreases f, 1
  {
    hide Bounded, Sound, WithConst, Capture, AncestorBinds, ResolveLocal, One, AllNested;
    var c := Comp(us, f, l2).code;
    if f.Quote? {
      ConstBelow(us, OpConst, f.v, n);
    } else if f.Const? {
      if f.v.Nil? { OneBelow(us, OpNil, 0, n); }
      else if f.v.Bool? { OneBelow(us, if f.v.b then OpTrue else OpFalse, 0, n); }
      else { ConstBelow(us, OpConst, f.v, n); }
    } else if ResolveLocal(Top(us).names, f.name).Some? {
      OneBelow(us, OpGetLocal, ResolveLocal(Top(us).names, f.name).value, n);
    } else if AncestorBinds(us, f.name) {
      CaptureBelow(us, OpGetCap, f.name, n);
      More(c.us, n + 2, n + 8);
    } else {
      ConstBelow(us, OpGetGlobal, Sym(f.name), n);
    }
    if !(f.Var? && ResolveLocal(Top(us).names, f.name).None? && AncestorBinds(us, f.name)) { More(c.us, n + 1, n + 8); }
  }

  lemma {:induction false} SizedDo(us: Nest, f: Form, l2: bool, n: nat)
    requires (f.Do? || f.Cond?) && Sound(us) && Comp(us, f, l2).Built? && Bounded(us, n)
    requires n + 8 * Size(f, Top(us).tries) < LIMIT
    ensures Kept(Comp(us, f, l2).code, n + 8 * Size(f, Top(us).tries))
    decreases f, 1
  {
    hide Bounded, Sound, CompBody, CompClauses, SizeAll, SizeClauses, AllNested;
    var t := Top(us).tries;
    if f.Do? {
      SizedBody(us, f.body, l2, n);
      More(CompBody(us, f.body, l2).code.us, n + 8 * SizeAll(f.body, t) + 1, n + 8 * Size(f, t));
    } else {
      SizedClauses(us, f.clauses, l2, n);
      More(CompClauses(us, f.clauses, l2).code.us, n + 8 * SizeClauses(f.clauses, t) + 1, n + 8 * Size(f, t));
    }
  }

  /** A test and two ways on, within the bound. */
  lemma {:induction false} TestedBelow(us: Nest, t: Code, a: Code, b: Code, n: nat)
    requires AllNested(t.ws) && AllNested(a.ws) && Kept(b, n)
    ensures Kept(Code(b.us, t.ws + IfElse(a.ws, b.ws)), n)
  {
    hide Bounded, AllNested, IfElse;
    NestedShapes(a.ws, b.ws, 0);
    NestedJoin(t.ws, IfElse(a.ws, b.ws));
  }

  lemma {:induction false} KeptMore(c: Code, n: nat, m: nat)
    requires Kept(c, n) && n <= m
    ensures Kept(c, m)
  {
    hide Bounded, AllNested;
    More(c.us, n, m);
  }

  lemma {:induction false} SizedIf(us: Nest, f: Form, l2: bool, n: nat)
    requires f.If? && Sound(us) && Comp(us, f, l2).Built? && Bounded(us, n) && n + 8 * Size(f, Top(us).tries) < LIMIT
    ensures Kept(Comp(us, f, l2).code, n + 8 * Size(f, Top(us).tries))
    decreases f, 1
  {
    hide Bounded, Sound, Comp, AllNested, IfElse, Skip, ClosureFree, One;
    UnfoldIf(us, f, l2);
    var k := Top(us).tries;
    var t := Comp(us, f.test, l2).code;
    SizedForm(us, f.test, l2, n);
    var n1 := n + 8 * Size(f.test, k);
    SkipBelow(t.us, 1, n1);
    var a := Comp(Skip(t.us, 1), f.thn, l2).code;
    SizedForm(Skip(t.us, 1), f.thn, l2, n1 + 1);
    var n2 := n1 + 1 + 8 * Size(f.thn, k);
    SkipBelow(a.us, 1, n2);
    var b := Else(Skip(a.us, 1), f.els, l2).code;
    if f.els.Some? {
      SizedForm(Skip(a.us, 1), f.els.value, l2, n2 + 1);
      TestedBelow(us, t, a, b, n2 + 1 + 8 * Size(f.els.value, k));
      KeptMore(Comp(us, f, l2).code, n2 + 1 + 8 * Size(f.els.value, k), n + 8 * Size(f, k));
    } else {
      OneBelow(Skip(a.us, 1), OpNil, 0, n2 + 1);
      TestedBelow(us, t, a, b, n2 + 2);
      KeptMore(Comp(us, f, l2).code, n2 + 2, n + 8 * Size(f, k));
    }
  }

  lemma {:induction false} SizedWhen(us: Nest, f: Form, l2: bool, n: nat)
    requires f.When? && Sound(us) && Comp(us, f, l2).Built? && Bounded(us, n) && n + 8 * Size(f, Top(us).tries) < LIMIT
    ensures Kept(Comp(us, f, l2).code, n + 8 * Size(f, Top(us).tries))
    decreases f, 1
  {
    hide Bounded, Sound, Comp, CompBody, AllNested, IfElse, Skip, ClosureFree, ClosureFreeAll, One, SizeAll;
    UnfoldWhen(us, f, l2);
    var k := Top(us).tries;
    var t := Comp(us, f.test, l2).code;
    SizedForm(us, f.test, l2, n);
    var n1 := n + 8 * Size(f.test, k);
    SkipBelow(t.us, 1, n1);
    var a := CompBody(Skip(t.us, 1), f.body, l2).code;
    SizedBody(Skip(t.us, 1), f.body, l2, n1 + 1);
    var n2 := n1 + 2 + 8 * SizeAll(f.body, k);
    SkipBelow(a.us, 1, n2);
    OneBelow(Skip(a.us, 1), OpNil, 0, n2 + 1);
    TestedBelow(us, t, a, One(Skip(a.us, 1), OpNil, 0), n2 + 2);
    KeptMore(Comp(us, f, l2).code, n2 + 2, n + 8 * Size(f, k));
  }

  lemma {:induction false} SizedNot(us: Nest, f: Form, l2: bool, n: nat)
    requires f.Not? && Sound(us) && Comp(us, f, l2).Built? && Bounded(us, n) && n + 8 * Size(f, Top(us).tries) < LIMIT
    ensures Kept(Comp(us, f, l2).code, n + 8 * Size(f, Top(us).tries))
    decreases f, 1
  {
    hide Bounded, Sound, Comp, AllNested, IfElse, Skip, ClosureFree, One;
    UnfoldNot(us, f, l2);
    var k := Top(us).tries;
    var t := Comp(us, f.arg, l2).code;
    SizedForm(us, f.arg, l2, n);
    var n1 := n + 8 * Size(f.arg, k);
    SkipBelow(t.us, 1, n1);
    var a := One(Skip(t.us, 1), OpFalse, 0);
    OneBelow(Skip(t.us, 1), OpFalse, 0, n1 + 1);
    SkipBelow(a.us, 1, n1 + 2);
    OneBelow(Skip(a.us, 1), OpTrue, 0, n1 + 3);
    TestedBelow(us, t, a, One(Skip(a.us, 1), OpTrue, 0), n1 + 4);
    KeptMore(Comp(us, f, l2).code, n1 + 4, n + 8 * Size(f, k));
  }

  /** One piece of code after another, within the bound. */
  lemma {:induction false} ThenBelow(a: Code, b: Code, n: nat)
    requires AllNested(a.ws) && Kept(b, n)
    ensures Kept(Code(b.us, a.ws + b.ws), n)
  {
    hide Bounded, AllNested;
    NestedJoin(a.ws, b.ws);
  }

  lemma {:induction false} SizedAndOr(us: Nest, f: Form, l2: bool, n: nat)
    requires (f.And? || f.Or?) && Sound(us) && Comp(us, f, l2).Built? && Bounded(us, n)
    requires n + 8 * Size(f, Top(us).tries) < LIMIT
    ensures Kept(Comp(us, f, l2).code, n + 8 * Size(f, Top(us).tries))
    decreases f, 1
  {
    hide Bounded, Sound, Comp, CompAnd, CompOr, AllNested, ClosureFree, ClosureFreeAll, One;
    UnfoldAndOr(us, f, l2);
    var k := Top(us).tries;
    if f.args.End? {
      OneBelow(us, if f.And? then OpTrue else OpNil, 0, n);
      KeptMore(Comp(us, f, l2).code, n + 1, n + 8);
    } else {
      var t := Comp(us, f.args.head, l2).code;
      SizedForm(us, f.args.head, l2, n);
      var n1, rest := n + 8 * Size(f.args.head, k), f.args.tail;
      if f.And? {
        SizedAnd(t.us, rest, l2, n1);
        ThenBelow(t, CompAnd(t.us, rest, l2).code, n1 + 8 * SizeAll(rest, k));
      } else {
        SizedOr(t.us, rest, l2, n1);
        ThenBelow(t, CompOr(t.us, rest, l2).code, n1 + 8 * SizeAll(rest, k));
      }
      KeptMore(Comp(us, f, l2).code, n1 + 8 * SizeAll(rest, k), n + 8 * Size(f, k));
    }
  }

  lemma {:induction false} SizedAnd(us: Nest, fs: Forms, l2: bool, n: nat)
    requires Sound(us) && CompAnd(us, fs, l2).Built? && Bounded(us, n) && n + 8 * SizeAll(fs, Top(us).tries) < LIMIT
    ensures Sized(us, CompAnd(us, fs, l2).code, n + 8 * SizeAll(fs, Top(us).tries))
    decreases fs, 0
  {
    hide Bounded, Sound, Comp, Size, AndThen, Skip;
    var k := Top(us).tries;
    if fs.Cons? {
      SkipBelow(us, 3, n);
      var t := Comp(Skip(us, 3), fs.head, l2).code;
      SizedForm(Skip(us, 3), fs.head, l2, n + 3);
      var n1 := n + 3 + 8 * Size(fs.head, k);
      var b := CompAnd(t.us, fs.tail, l2).code;
      SizedAnd(t.us, fs.tail, l2, n1);
      NestedJoin(t.ws, b.ws);
      NestedShapes(t.ws + b.ws, [], 0);
      More(b.us, n1 + 8 * SizeAll(fs.tail, k), n + 8 * SizeAll(fs, k));
    }
  }

  lemma {:induction false} SizedOr(us: Nest, fs: Forms, l2: bool, n: nat)
    requires Sound(us) && CompOr(us, fs, l2).Built? && Bounded(us, n) && n + 8 * SizeAll(fs, Top(us).tries) < LIMIT
    ensures Sized(us, CompOr(us, fs, l2).code, n + 8 * SizeAll(fs, Top(us).tries))
    decreases fs, 0
  {
    hide Bounded, Sound, Comp, Size, OrElse, Skip;
    var k := Top(us).tries;
    if fs.Cons? {
      SkipBelow(us, 4, n);
      var t := Comp(Skip(us, 4), fs.head, l2).code;
      SizedForm(Skip(us, 4), fs.head, l2, n + 4);
      var n1 := n + 4 + 8 * Size(fs.head, k);
      var b := CompOr(t.us, fs.tail, l2).code;
      SizedOr(t.us, fs.tail, l2, n1);
      NestedJoin(t.ws, b.ws);
      NestedShapes(t.ws + b.ws, [], 0);
      More(b.us, n1 + 8 * SizeAll(fs.tail, k), n + 8 * SizeAll(fs, k));
    }
  }

  lemma {:induction false} SizedClauses(us: Nest, cs: Clauses, l2: bool, n: nat)
    requires Sound(us) && CompClauses(us, cs, l2).Built? && Bounded(us, n)
    requires n + 8 * SizeClauses(cs, Top(us).tries) + 1 < LIMIT
    ensures Kept(CompClauses(us, cs, l2).code, n + 8 * SizeClauses(cs, Top(us).tries) + 1)
    decreases cs, 0
  {
    hide Bounded, Sound, Comp, CompBody, Size, SizeAll, IfElse, Skip, AllNested;
    var k := Top(us).tries;
    var c := CompClauses(us, cs, l2).code;
    if cs.NoClauses? {
      OneBelow(us, OpNil, 0, n);
    } else if IsElse(cs.test) {
      SizedBody(us, cs.body, l2, n);
      KeptMore(c, n + 8 * SizeAll(cs.body, k) + 1, n + 8 * SizeClauses(cs, k) + 1);
    } else {
      UnfoldClauses(us, cs, l2);
      var t := Comp(us, cs.test, l2).code;
      SizedForm(us, cs.test, l2, n);
      var n1 := n + 8 * Size(cs.test, k);
      SkipBelow(t.us, 1, n1);
      var a := CompBody(Skip(t.us, 1), cs.body, l2).code;
      SizedBody(Skip(t.us, 1), cs.body, l2, n1 + 1);
      var n2 := n1 + 2 + 8 * SizeAll(cs.body, k);
      SkipBelow(a.us, 1, n2);
      SizedClauses(Skip(a.us, 1), cs.rest, l2, n2 + 1);
      var n3 := n2 + 2 + 8 * SizeClauses(cs.rest, k);
      TestedBelow(us, t, a, CompClauses(Skip(a.us, 1), cs.rest, l2).code, n3);
      KeptMore(c, n3, n + 8 * SizeClauses(cs, k) + 1);
    }
  }

  lemma {:induction false} SizedBody(us: Nest, fs: Forms, l2: bool, n: nat)
    requires Sound(us) && CompBody(us, fs, l2).Built? && Bounded(us, n)
    requires n + 8 * SizeAll(fs, Top(us).tries) + 1 < LIMIT
    ensures Sized(us, CompBody(us, fs, l2).code, n + 8 * SizeAll(fs, Top(us).tries) + 1)
    decreases fs, 0
  {
    hide Bounded, Sound, Comp, Size, AllNested, One;
    var k := Top(us).tries;
    var c := CompBody(us, fs, l2).code;
    if fs.End? {
      OneBelow(us, OpNil, 0, n);
    } else {
      var t := Comp(us, fs.head, l2).code;
      SizedForm(us, fs.head, l2, n);
      var n1 := n + 8 * Size(fs.head, k);
      if fs.tail.End? {
        KeptMore(c, n1, n + 8 * SizeAll(fs, k) + 1);
      } else {
        var p := One(t.us, OpPop, 0);
        OneBelow(t.us, OpPop, 0, n1);
        SizedBody(p.us, fs.tail, l2, n1 + 1);
        var b := CompBody(p.us, fs.tail, l2).code;
        var n2 := n1 + 2 + 8 * SizeAll(fs.tail, k);
        NestedJoin(t.ws, p.ws);
        ThenBelow(Code(p.us, t.ws + p.ws), b, n2);
        KeptMore(c, n2, n + 8 * SizeAll(fs, k) + 1);
      }
    }
  }

  lemma {:induction false} SizedArgs(us: Nest, fs: Forms, l2: bool, n: nat)
    requires Sound(us) && CompArgs(us, fs, l2).Built? && Bounded(us, n) && n + 8 * SizeAll(fs, Top(us).tries) < LIMIT
    ensures Sized(us, CompArgs(us, fs, l2).code, n + 8 * SizeAll(fs, Top(us).tries))
    decreases fs, 0
  {
    hide Bounded, Sound, Comp, Size;
    var k := Top(us).tries;
    if fs.Cons? {
      var t := Comp(us, fs.head, l2).code;
      SizedForm(us, fs.head, l2, n);
      var n1 := n + 8 * Size(fs.head, k);
      SizedArgs(t.us, fs.tail, l2, n1);
      ThenBelow(t, CompArgs(t.us, fs.tail, l2).code, n1 + 8 * SizeAll(fs.tail, k));
      KeptMore(CompArgs(us, fs, l2).code, n1 + 8 * SizeAll(fs.tail, k), n + 8 * SizeAll(fs, k));
    }
  }

  lemma {:induction false} SizedThrow(us: Nest, f: Form, l2: bool, n: nat)
    requires f.Throw? && Sound(us) && Comp(us, f, l2).Built? && Bounded(us, n) && n + 8 * Size(f, Top(us).tries) < LIMIT
    ensures Kept(Comp(us, f, l2).code, n + 8 * Size(f, Top(us).tries))
    decreases f, 1
  {
    hide Bounded, Sound, Comp, AllNested, ClosureFree, One;
    UnfoldThrow(us, f, l2);
    var t := Comp(us, f.arg, l2).code;
    SizedForm(us, f.arg, l2, n);
    var n1 := n + 8 * Size(f.arg, Top(us).tries);
    OneBelow(t.us, OpThrow, 0, n1);
    ThenBelow(t, One(t.us, OpThrow, 0), n1 + 1);
    KeptMore(Comp(us, f, l2).code, n1 + 1, n + 8 * Size(f, Top(us).tries));
  }

  lemma {:induction false} SizedAssign(us: Nest, f: Form, l2: bool, n: nat)
    requires f.Assign? && Sound(us) && Comp(us, f, l2).Built? && Bounded(us, n)
    requires n + 8 * Size(f, Top(us).tries) < LIMIT
    ensures Kept(Comp(us, f, l2).code, n + 8 * Size(f, Top(us).tries))
    decreases f, 1
  {
    hide Bounded, Sound, Comp, AllNested, ClosureFree, One, ResolveLocal, AncestorBinds, WithConst, Capture;
    UnfoldAssign(us, f, l2);
    var k, x := Top(us).tries, Sym(f.name);
    var slot := ResolveLocal(Top(us).names, f.name);
    if slot.None? && !AncestorBinds(us, f.name) {
      var c := WithConst(us, OpCheckLexical, x);
      ConstBelow(us, OpCheckLexical, x, n);
      var r := Comp(c.us, f.rhs, l2).code;
      SizedForm(c.us, f.rhs, l2, n + 1);
      var n1 := n + 1 + 8 * Size(f.rhs, k);
      ConstBelow(r.us, OpSetLexical, x, n1);
      NestedJoin(c.ws, r.ws);
      ThenBelow(Code(r.us, c.ws + r.ws), WithConst(r.us, OpSetLexical, x), n1 + 1);
      KeptMore(Comp(us, f, l2).code, n1 + 1, n + 8 * Size(f, k));
    } else {
      var r := Comp(us, f.rhs, l2).code;
      SizedForm(us, f.rhs, l2, n);
      var n1 := n + 8 * Size(f.rhs, k);
      if slot.Some? {
        OneBelow(r.us, OpSetLocal, slot.value, n1);
        KeptMore(One(r.us, OpSetLocal, slot.value), n1 + 1, n1 + 2);
        ThenBelow(r, One(r.us, OpSetLocal, slot.value), n1 + 2);
      } else {
        Compiles(us, f.rhs, l2);
        StillBound(us, r, Top(us).names, Out(us, f.rhs, l2), f.name);
        CaptureBelow(r.us, OpSetCap, f.name, n1);
        ThenBelow(r, Capture(r.us, OpSetCap, f.name), n1 + 2);
      }
      KeptMore(Comp(us, f, l2).code, n1 + 2, n + 8 * Size(f, k));
    }
  }

  lemma {:induction false} SizedLet(us: Nest, f: Form, l2: bool, n: nat)
    requires f.Let? && Sound(us) && Comp(us, f, l2).Built? && Bounded(us, n) && n + 8 * Size(f, Top(us).tries) < LIMIT
    ensures Kept(Comp(us, f, l2).code, n + 8 * Size(f, Top(us).tries))
    decreases f, 1
  {
    hide Bounded, Sound, Comp, CompBinds, CompBody, AllNested, ClosureFree, ClosureFreeAll, ClosureFreeBinds, SizeAll,
         SizeBinds, Restore;
    UnfoldLet(us, f, l2);
    var k := Top(us).tries;
    var t := CompBinds(us, f.binds, l2).code;
    SizedBinds(us, f.binds, l2, n);
    var n1 := n + 8 * SizeBinds(f.binds, k);
    var b := CompBody(t.us, f.body, l2).code;
    SizedBody(t.us, f.body, l2, n1);
    var n2 := n1 + 8 * SizeAll(f.body, k) + 1;
    RestoreBelow(b.us, Top(us), n2);
    ThenBelow(t, Code(Restore(b.us, Top(us)), b.ws), n2);
    KeptMore(Comp(us, f, l2).code, n2, n + 8 * Size(f, k));
  }

  lemma {:induction false} SizedBinds(us: Nest, bs: Binds, l2: bool, n: nat)
    requires Sound(us) && CompBinds(us, bs, l2).Built? && Bounded(us, n) && n + 8 * SizeBinds(bs, Top(us).tries) < LIMIT
    ensures Sized(us, CompBinds(us, bs, l2).code, n + 8 * SizeBinds(bs, Top(us).tries))
    decreases bs, 0
  {
    hide Bounded, Sound, Comp, Size, Reserve, BindSlot;
    var k := Top(us).tries;
    if bs.Bind? {
      UnfoldBinds(us, bs, l2);
      var t := Comp(us, bs.init, l2).code;
      SizedForm(us, bs.init, l2, n);
      var n1, us1, slot := n + 8 * Size(bs.init, k), Reserve(t.us, bs.name), |Top(t.us).names|;
      ReserveBelow(t.us, bs.name, n1);
      SlotReserved(t.us, bs.name);
      var s := BindSlot(us1, slot);
      BindBelow(us1, slot, n1 + 1);
      SizedBinds(s.us, bs.rest, l2, n1 + 3);
      var b, n2 := CompBinds(s.us, bs.rest, l2).code, n1 + 3 + 8 * SizeBinds(bs.rest, k);
      NestedJoin(t.ws, s.ws);
      ThenBelow(Code(s.us, t.ws + s.ws), b, n2);
      KeptMore(CompBinds(us, bs, l2).code, n2, n + 8 * SizeBinds(bs, k));
    }
  }

  lemma {:induction false} SlotReserved(us: Nest, x: string)
    requires Sound(us)
    ensures |Top(us).names| < Top(Reserve(us, x)).locals
  {
    hide Sound;
    TopOk(us);
  }

  lemma {:induction false} SizedInits(us: Nest, bs: Binds, l2: bool, n: nat)
    requires Sound(us) && CompInits(us, bs, l2).Built? && Bounded(us, n) && n + 8 * SizeBinds(bs, Top(us).tries) < LIMIT
    ensures Sized(us, CompInits(us, bs, l2).code, n + 8 * SizeBinds(bs, Top(us).tries))
    decreases bs, 0
  {
    hide Bounded, Sound, Comp, Size, Reserve, BindSlot, Out;
    var k := Top(us).tries;
    if bs.Bind? {
      UnfoldInits(us, bs, l2);
      var us1, slot := Reserve(us, ""), |Top(us).names|;
      ReserveBelow(us, "", n);
      var t := Comp(us1, bs.init, l2).code;
      SizedForm(us1, bs.init, l2, n + 1);
      var n1 := n + 1 + 8 * Size(bs.init, k);
      SlotKept(us, bs.init, l2);
      var s := BindSlot(t.us, slot);
      BindBelow(t.us, slot, n1);
      SizedInits(s.us, bs.rest, l2, n1 + 2);
      var b, n2 := CompInits(s.us, bs.rest, l2).code, n1 + 2 + 8 * SizeBinds(bs.rest, k);
      NestedJoin(t.ws, s.ws);
      ThenBelow(Code(s.us, t.ws + s.ws), b, n2);
      KeptMore(CompInits(us, bs, l2).code, n2, n + 8 * SizeBinds(bs, k));
    }
  }

  lemma {:induction false} SlotKept(us: Nest, f: Form, l2: bool)
    requires Sound(us) && Comp(Reserve(us, ""), f, l2).Built?
    ensures |Top(us).names| < Top(Comp(Reserve(us, ""), f, l2).code.us).locals
  {
    hide Sound, Comp, Good, Out;
    SlotReserved(us, "");
    ReserveOk(us, "");
    Compiles(Reserve(us, ""), f, l2);
  }

  lemma {:induction false} SizedLoop(us: Nest, f: Form, l2: bool, n: nat)
    requires f.Loop? && Sound(us) && Comp(us, f, l2).Built? && Bounded(us, n) && n + 8 * Size(f, Top(us).tries) < LIMIT
    ensures Kept(Comp(us, f, l2).code, n + 8 * Size(f, Top(us).tries))
    decreases f, 1
  {
    hide Bounded, Sound, Comp, CompInits, CompBody, AllNested, ClosureFree, ClosureFreeAll, ClosureFreeBinds, SizeAll,
         SizeBinds, Restore, Names;
    UnfoldLoop(us, f, l2);
    var k := Top(us).tries;
    var t := CompInits(us, f.binds, l2).code;
    SizedInits(us, f.binds, l2, n);
    var n1, vs := n + 8 * SizeBinds(f.binds, k), LoopEntry(us, t, f.binds);
    CompilesInits(us, f.binds, l2);
    EntersLoop(us, t, f.binds, OutInits(us, f.binds, l2));
    TopBelow(t.us, n1);
    PutBelow(t.us, Top(vs), n1, n1);
    var b := CompBody(vs, f.body, l2).code;
    SizedBody(vs, f.body, l2, n1);
    var n2 := n1 + 8 * SizeAll(f.body, k) + 1;
    RestoreBelow(b.us, Top(us), n2);
    ThenBelow(t, Code(Restore(b.us, Top(us)), b.ws), n2);
    KeptMore(Comp(us, f, l2).code, n2, n + 8 * Size(f, k));
  }

  lemma {:induction false} SizedTry(us: Nest, f: Form, l2: bool, n: nat)
    requires f.Try? && Sound(us) && Comp(us, f, l2).Built? && Bounded(us, n) && n + 8 * Size(f, Top(us).tries) < LIMIT
    ensures Kept(Comp(us, f, l2).code, n + 8 * Size(f, Top(us).tries))
    decreases f, 1
  {
    hide Bounded, Sound, Comp, CompBody, AllNested, ClosureFree, ClosureFreeAll, SizeAll, BindSlot, TryCatch, Grown;
    UnfoldTry(us, f, l2);
    var u, k := Top(us), Top(us).tries;
    var v := u.(pc := u.pc + 1, tries := u.tries + 1);
    var usb := Put(us, v);
    EntersTry(us);
    TopBelow(us, n);
    PutBelow(us, v, n, n + 1);
    var b := CompBody(usb, f.body, l2).code;
    SizedBody(usb, f.body, l2, n + 1);
    var n1 := n + 2 + 8 * SizeAll(f.body, k + 1);
    var us1 := Reserve(Skip(Restore(b.us, u), 2), f.err);
    LeavesBelow(us, usb, b, f, l2, n1);
    var s := BindSlot(us1, |u.names|);
    BindBelow(us1, |u.names|, n1 + 3);
    var h := CompBody(s.us, f.handler, l2).code;
    SizedBody(s.us, f.handler, l2, n1 + 5);
    var n2 := n1 + 6 + 8 * SizeAll(f.handler, k);
    RestoreBelow(h.us, u, n2);
    NestedJoin(s.ws, h.ws);
    NestedShapes(b.ws, s.ws + h.ws, u.pc);
    KeptMore(Comp(us, f, l2).code, n2, n + 8 * Size(f, k));
  }

  lemma {:induction false} LeavesBelow(us: Nest, usb: Nest, b: Code, f: Form, l2: bool, n: nat)
    requires f.Try? && Sound(us) && Sound(usb) && Grown(us, usb) && Top(usb).names == Top(us).names
    requires CompBody(usb, f.body, l2) == Built(b) && Bounded(b.us, n)
    ensures var us1 := Reserve(Skip(Restore(b.us, Top(us)), 2), f.err);
      Sound(us1) && Bounded(us1, n + 3) && Top(us1).tries == Top(us).tries && |Top(us).names| < Top(us1).locals
  {
    hide Bounded, Sound, CompBody, Good;
    CompilesBody(usb, f.body, l2);
    GrownOn(us, usb, b.us);
    RestoreOk(us, b.us);
    var r := Restore(b.us, Top(us));
    RestoreBelow(b.us, Top(us), n);
    SkipBelow(r, 2, n);
    SlotReserved(Skip(r, 2), f.err);
    ReserveBelow(Skip(r, 2), f.err, n + 2);
  }

  lemma {:induction false} SizedRecur(us: Nest, f: Form, l2: bool, n: nat)
    requires f.Recur? && Sound(us) && Comp(us, f, l2).Built? && Bounded(us, n) && n + 8 * Size(f, Top(us).tries) < LIMIT
    ensures Kept(Comp(us, f, l2).code, n + 8 * Size(f, Top(us).tries))
    decreases f, 1
  {
    hide Bounded, Sound, Comp, CompArgs, ClosureFree, ClosureFreeAll, SizeAll, Length, GoBack;
    UnfoldRecur(us, f, l2);
    RecurCount(us, f, l2);
    var k, t := Top(us).tries, CompArgs(us, f.args, l2).code;
    SizedArgs(us, f.args, l2, n);
    BackBelow(t, Top(us).loops[|Top(us).loops| - 1], n + 8 * SizeAll(f.args, k));
    KeptMore(Comp(us, f, l2).code, n + 8 * SizeAll(f.args, k) + 2 * Length(f.args) + k + 1, n + 8 * Size(f, k));
  }

  lemma {:induction false} RecurCount(us: Nest, f: Form, l2: bool)
    requires f.Recur? && Comp(us, f, l2).Built?
    ensures Top(us).loops != [] && Top(us).loops[|Top(us).loops| - 1].count == Length(f.args)
  {
    hide CompArgs, Length, GoBack;
  }

  lemma {:induction false} BackBelow(t: Code, lp: LoopFrame, n: nat)
    requires Bounded(t.us, n) && AllNested(t.ws)
    ensures Kept(GoBack(t, lp), n + 2 * lp.count + Top(t.us).tries + 1)
  {
    hide Bounded, AllNested, StoreBinds, Stores, PopTryWords;
    var u := Top(t.us);
    var k := if u.tries >= lp.tries then u.tries - lp.tries else 0;
    StoreCounts(lp.base, lp.count);
    PopCounts(k);
    StoresNested(lp.base, lp.count);
    PopsNested(k);
    var ws := Stores(lp.base, lp.count) + PopTryWords(k) + [Raw(OpLoop, lp.start)];
    LoopNested(lp.start);
    NestedJoin(Stores(lp.base, lp.count), PopTryWords(k));
    NestedJoin(Stores(lp.base, lp.count) + PopTryWords(k), [Raw(OpLoop, lp.start)]);
    NestedJoin(t.ws, ws);
    TopBelow(t.us, n);
    var v := u.(binds := u.binds + StoreBinds(u.captured, u.pc, lp.base, lp.count), pc := u.pc + |ws|);
    assert GoBack(t, lp).us == Put(t.us, v);
    PutBelow(t.us, v, n, n + 2 * lp.count + u.tries + 1);
  }

  lemma {:induction false} LoopNested(start: nat)
    ensures AllNested([Raw(OpLoop, start)])
  {
  }

  lemma {:induction false} StoresNested(base: nat, count: nat)
    ensures AllNested(Stores(base, count))
    decreases count
  {
    if count == 0 {
    } else {
      StoresNested(base, count - 1);
    }
  }

  lemma {:induction false} PopsNested(n: nat)
    ensures AllNested(PopTryWords(n))
    decreases n
  {
    if n == 0 {
    } else {
      PopsNested(n - 1);
    }
  }

  lemma {:induction false} SizedCall(us: Nest, f: Form, l2: bool, n: nat)
    requires f.Call? && Sound(us) && Comp(us, f, l2).Built? && Bounded(us, n) && n + 8 * Size(f, Top(us).tries) < LIMIT
    ensures Kept(Comp(us, f, l2).code, n + 8 * Size(f, Top(us).tries))
    decreases f, 1
  {
    hide Bounded, Sound, Comp, Kept, Shadowed, NativeOf, CompFused, Size;
    if !IsNative(us, f.head) {
      SizedPlainCall(us, f, l2, n);
    } else {
      SizedNativeCall(us, f, l2, n);
    }
  }

  lemma {:induction false} SizedHead(us: Nest, f: Form, l2: bool, n: nat)
    requires f.Call? && Sound(us) && CompHead(us, f.head, l2).Built? && Bounded(us, n)
    requires n + 8 * Size(f.head, Top(us).tries) < LIMIT
    ensures Sized(us, CompHead(us, f.head, l2).code, n + 8 * Size(f.head, Top(us).tries))
    decreases f, 0, 0
  {
    hide Bounded, Sound, Comp, WithConst, AllNested;
    if l2 && f.head.Var? {
      ConstBelow(us, OpGetFunc, Sym(f.head.name), n);
      KeptMore(WithConst(us, OpGetFunc, Sym(f.head.name)), n + 1, n + 8);
    } else {
      SizedForm(us, f.head, l2, n);
    }
  }

  lemma {:induction false} SizedPlainCall(us: Nest, f: Form, l2: bool, n: nat)
    requires f.Call? && Sound(us) && Comp(us, f, l2).Built? && !IsNative(us, f.head)
    requires Bounded(us, n) && n + 8 * Size(f, Top(us).tries) < LIMIT
    ensures Kept(Comp(us, f, l2).code, n + 8 * Size(f, Top(us).tries))
    decreases f, 0
  {
    hide Bounded, Sound, Comp, CompArgs, CompHead, ClosureFree, ClosureFreeAll, SizeAll, AllNested, One, IsNative;
    UnfoldCall(us, f, l2);
    var k, c := Top(us).tries, CompHead(us, f.head, l2).code;
    SizedHead(us, f, l2, n);
    var n1, t := n + 8 * Size(f.head, k), CompArgs(c.us, f.args, l2).code;
    SizedArgs(c.us, f.args, l2, n1);
    var n2 := n1 + 8 * SizeAll(f.args, k);
    OneBelow(t.us, OpCall, Length(f.args), n2);
    NestedJoin(c.ws, t.ws);
    ThenBelow(Code(t.us, c.ws + t.ws), One(t.us, OpCall, Length(f.args)), n2 + 1);
    KeptMore(Comp(us, f, l2).code, n2 + 1, n + 8 * Size(f, k));
  }

  lemma {:induction false} SideBelow(u: Unit, f: Form, n: nat)
    requires Below(u, n)
    ensures Below(FusedPool(u, f), n + 1)
  {
    hide Interned;
    if f.Const? { InternBelow(u, f.v, n); }
  }

  lemma {:induction false} FusedBounded(us: Nest, op: NativeOp, x: string, args: Forms, l2: bool, n: nat)
    requires Bounded(us, n)
    ensures Bounded(CompFused(us, op, x, args, l2).0, n + 3)
    ensures CompFused(us, op, x, args, l2).1.Some? ==> AllNested(CompFused(us, op, x, args, l2).1.value)
  {
    hide Bounded, Interned, FusedPool, FusedSide, IndexOf;
    More(us, n, n + 3);
    TopBelow(us, n);
    if args.Cons? && args.tail.Cons? && args.tail.tail.End? {
      var u := Top(us);
      SideBelow(u, args.head, n);
      var u1 := FusedPool(u, args.head);
      PutBelow(us, u1, n, n + 1);
      More(Put(us, u1), n + 1, n + 3);
      SideBelow(u1, args.tail.head, n + 1);
      var u2 := FusedPool(u1, args.tail.head);
      InternBelow(u2, Sym(x), n + 2);
      var u3 := Interned(u2, Sym(x));
      PoolsOnly(u, args, x);
      var a, b := FusedSide(u, args.head), FusedSide(u1, args.tail.head);
      if a.Some? && b.Some? {
        var f := FusedOp(op, IndexOf(u2.constants, Sym(x)), l2, a.value, b.value);
        PutBelow(us, u3.(fused := u3.fused + [f], pc := u3.pc + 1), n, n + 3);
        assert CompFused(us, op, x, args, l2).0 == Put(us, u3.(fused := u3.fused + [f], pc := u3.pc + 1));
      }
    }
  }

  lemma {:induction false} PoolsOnly(u: Unit, args: Forms, x: string)
    requires args.Cons? && args.tail.Cons?
    ensures var u3 := Interned(FusedPool(FusedPool(u, args.head), args.tail.head), Sym(x));
      u3 == u.(constants := u3.constants)
  {
    hide IndexOf;
  }

  lemma {:induction false} SizedNativeCall(us: Nest, f: Form, l2: bool, n: nat)
    requires f.Call? && Sound(us) && Comp(us, f, l2).Built? && IsNative(us, f.head)
    requires Bounded(us, n) && n + 8 * Size(f, Top(us).tries) < LIMIT
    ensures Kept(Comp(us, f, l2).code, n + 8 * Size(f, Top(us).tries))
    decreases f, 0
  {
    hide Bounded, Sound, Comp, CompArgs, CompFused, ClosureFree, ClosureFreeAll, SizeAll, AllNested, One, WithConst,
         NativeOf, Shadowed, FuseCall;
    UnfoldNativeCall(us, f, l2);
    var k, x, op := Top(us).tries, f.head.name, NativeOf(f.head.name).value;
    FusedBounded(us, op, x, f.args, l2, n);
    var (us1, fused) := CompFused(us, op, x, f.args, l2);
    if fused.Some? {
      KeptMore(Comp(us, f, l2).code, n + 3, n + 8 * Size(f, k));
    } else {
      NotFused(us, op, x, f.args, l2);
      var fop := if l2 then OpFreezeNativeFunc else OpFreezeNative;
      var c := WithConst(us1, fop, Sym(x));
      ConstBelow(us1, fop, Sym(x), n + 3);
      var t := CompArgs(c.us, f.args, l2).code;
      SizedArgs(c.us, f.args, l2, n + 4);
      var n1 := n + 4 + 8 * SizeAll(f.args, k);
      OneBelow(t.us, OpNative(op), Length(f.args), n1);
      NestedJoin(c.ws, t.ws);
      ThenBelow(Code(t.us, c.ws + t.ws), One(t.us, OpNative(op), Length(f.args)), n1 + 1);
      KeptMore(Comp(us, f, l2).code, n1 + 1, n + 8 * Size(f, k));
    }
  }

  // ---- closures ----

  /** A word in range of a function within the bound fits. */
  lemma {:induction false} FineFits(u: Unit, w: Raw, at: nat, end: nat, n: nat)
    requires Fine(u, w, at, end) && Below(u, n) && at <= end <= n < LIMIT && w.nested
    ensures Fit(u, w)
  {
    hide Valid, DescsOk, FusedOk;
  }

  lemma {:induction false} CodeFits(u: Unit, ws: seq<Raw>, n: nat)
    requires AllFine(u, ws, 0) && |ws| == u.pc && Below(u, n) && n < LIMIT && AllNested(ws)
    ensures AllFit(u, ws)
  {
    hide Fine, Fit;
    forall k | 0 <= k < |ws| ensures Fit(u, ws[k]) { FineFits(u, ws[k], k, |ws|, n); }
  }

  lemma {:induction false} SizedLambda(us: Nest, f: Form, l2: bool, n: nat)
    requires f.Lambda? && Sound(us) && Comp(us, f, l2).Built? && Bounded(us, n)
    requires n + 8 * Size(f, Top(us).tries) < LIMIT
    ensures Kept(Comp(us, f, l2).code, n + 8 * Size(f, Top(us).tries))
    decreases f, 1
  {
    hide Sound, Comp, CompArgs, Finished, UnitOk, DescsOk, SizeAll, AllNested, AllFit, Good, Grown, Below;
    UnfoldLambda(us, f, l2);
    var p, inner: Nest := |f.params|, us + [NewUnit(f.params)];
    NewUnitOk(f.params);
    NoDescs(Top(us));
    SoundOn(us, NewUnit(f.params));
    NewBelow(us, f.params, n);
    var t := CompArgs(inner, f.body, l2).code;
    var m := n + p + 8 * SizeAll(f.body, 0);
    SizedArgs(inner, f.body, l2, n + p);
    CompilesArgs(inner, f.body, l2);
    ClosesBelow(t, m, OutArgs(inner, f.body, l2));
    KeptMore(Comp(us, f, l2).code, m + 1, n + 8 * Size(f, Top(us).tries));
  }

  lemma {:induction false} NewBelow(us: Nest, params: seq<string>, n: nat)
    requires Bounded(us, n)
    ensures Bounded(us + [NewUnit(params)], n + |params|)
  {
  }

  lemma {:induction false} ClosesBelow(t: Code, n: nat, x: Option<seq<Instr>>)
    requires |t.us| >= 2 && Bounded(t.us, n) && AllNested(t.ws) && n < LIMIT
    requires Good(Top(t.us), t.ws, 0, x) && |t.ws| == Top(t.us).pc
    ensures var outer: Nest := t.us[..|t.us| - 1];
      var u := Top(outer);
      Kept(Closes(Put(outer, u.(subs := u.subs + [SubChunk(t)])), |u.subs|, AllFit(Top(t.us), t.ws)), n + 1)
  {
    hide AllFit, Finished, AllFine, Decodes;
    var outer: Nest := t.us[..|t.us| - 1];
    CodeFits(Top(t.us), t.ws, n);
    assert Bounded(outer, n);
    var u := Top(outer);
    var v := u.(subs := u.subs + [SubChunk(t)], pc := u.pc + 1);
    PutBelow(outer, v, n, n + 1);
    assert Skip(Put(outer, u.(subs := u.subs + [SubChunk(t)])), 1) == Put(outer, v);
  }

  /** A form of size below two million fits: packing keeps every instruction of it. */
  lemma {:induction false} SmallFits(f: Form, l2: bool)
    requires 8 * Size(f, 0) < LIMIT
    ensures Fits(f, l2)
  {
    hide Comp, Size, Sound, AllFit, Out, AllFine, Decodes, Bounded, Below;
    var us: Nest := [NewUnit([])];
    if Comp(us, f, l2).Built? {
      var c := Comp(us, f, l2).code;
      StartOk();
      StartBelow();
      SizedForm(us, f, l2, 0);
      Compiles(us, f, l2);
      TopBelow(c.us, 8 * Size(f, 0));
      CodeFits(Top(c.us), c.ws, 8 * Size(f, 0));
    }
  }

  lemma {:induction false} StartBelow()
    ensures Bounded([NewUnit([])], 0)
  {
  }
}
