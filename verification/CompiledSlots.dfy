/** The slots a form without closures reserves, and that none of them is captured. */
module CompiledSlots {
  import opened Forms
  import opened Machine
  import opened CodeGen
  import opened Bytecode
  import opened Lowering
  import opened Emission
  import opened Finishing

  /** n more slots, the same ones captured, and nothing captured from outside where there is no
      outside. */
  predicate Adds(us: Nest, vs: Nest, n: nat) {
    && |vs| == |us| && Top(vs).locals == Top(us).locals + n
    && Top(vs).captured == Top(us).captured && (|us| == 1 ==> Top(vs).descs == Top(us).descs)
  }

  lemma {:induction false} CaptureSlots(us: Nest, op: Opcode, x: string)
    requires |us| > 1
    ensures Adds(us, Capture(us, op, x).us, 0)
  {
    hide ResolveLocal, CapIndex, Mark;
    KeepsDepth(us, x);
  }

  lemma {:induction false} KeepsDepth(us: Nest, x: string)
    ensures |EnsureCapture(us, x)| == |us|
    decreases |us|
  {
    hide ResolveLocal, CapIndex, Mark;
    if |us| > 1 { KeepsDepth(us[..|us| - 1], x); }
  }

  lemma {:induction false} FormSlots(us: Nest, f: Form, l2: bool)
    requires ClosureFree(f) && Comp(us, f, l2).Built?
    ensures Adds(us, Comp(us, f, l2).code.us, Slots(f))
    decreases f, 2
  {
    hide *;
    NoLambda(f);
    match f {
      case Const(_) => LeafSlots(us, f, l2);
      case Quote(_) => LeafSlots(us, f, l2);
      case Var(_) => LeafSlots(us, f, l2);
      case Do(_) => ListSlots(us, f, l2);
      case Cond(_) => ListSlots(us, f, l2);
      case And(_) => ListSlots(us, f, l2);
      case Or(_) => ListSlots(us, f, l2);
      case If(_, _, _) => TestSlots(us, f, l2);
      case When(_, _) => TestSlots(us, f, l2);
      case Not(_) => TestSlots(us, f, l2);
      case Throw(_) => StoreSlots(us, f, l2);
      case Assign(_, _) => StoreSlots(us, f, l2);
      case Let(_, _) => ScopeSlots(us, f, l2);
      case Loop(_, _) => ScopeSlots(us, f, l2);
      case Try(_, _, _) => TrySlots(us, f, l2);
      case Recur(_) => RecurSlots(us, f, l2);
      case Call(_, _) => CallSlots(us, f, l2);
    }
  }

  lemma {:induction false} NoLambda(f: Form)
    requires ClosureFree(f)
    ensures !f.Lambda?
  {
  }

  lemma {:induction false} LeafSlots(us: Nest, f: Form, l2: bool)
    requires (f.Const? || f.Quote? || f.Var?)
    ensures Adds(us, Comp(us, f, l2).code.us, Slots(f))
  {
    hide ResolveLocal, IndexOf, AncestorBinds, Capture;
    if f.Var? && |us| > 1 { CaptureSlots(us, OpGetCap, f.name); }
    if f.Var? && |us| == 1 { AncestorAlone(us, f.name); }
  }

  lemma {:induction false} ListSlots(us: Nest, f: Form, l2: bool)
    requires (f.Do? || f.Cond? || f.And? || f.Or?) && ClosureFree(f) && Comp(us, f, l2).Built?
    ensures Adds(us, Comp(us, f, l2).code.us, Slots(f))
    decreases f, 1
  {
    hide Slots, SlotsAll, SlotsClauses, CompBody, CompClauses, CompAnd, CompOr, ClosureFreeAll, ClosureFreeClauses;
    ListSlotsOf(f);
    if f.Do? { BodySlots(us, f.body, l2); }
    else if f.Cond? { ClauseSlots(us, f.clauses, l2); }
    else {
      UnfoldAndOr(us, f, l2);
      AllSlotsOf(f.args);
      if f.args.Cons? {
        FormSlots(us, f.args.head, l2);
        var t := Comp(us, f.args.head, l2).code;
        if f.And? { AndSlots(t.us, f.args.tail, l2); } else { OrSlots(t.us, f.args.tail, l2); }
      }
    }
  }

  lemma {:induction false} ListSlotsOf(f: Form)
    requires f.Do? || f.Cond? || f.And? || f.Or?
    ensures Slots(f) == if f.Do? then SlotsAll(f.body) else if f.Cond? then SlotsClauses(f.clauses)
        else SlotsAll(f.args)
    ensures ClosureFree(f) == if f.Do? then ClosureFreeAll(f.body) else if f.Cond? then ClosureFreeClauses(f.clauses)
        else ClosureFreeAll(f.args)
  {
    hide SlotsAll, SlotsClauses, ClosureFreeAll, ClosureFreeClauses;
  }

  lemma {:induction false} AllSlotsOf(fs: Forms)
    ensures SlotsAll(fs) == if fs.End? then 0 else Slots(fs.head) + SlotsAll(fs.tail)
    ensures ClosureFreeAll(fs) == (fs.End? || (ClosureFree(fs.head) && ClosureFreeAll(fs.tail)))
  {
    hide Slots, ClosureFree;
  }

  lemma {:induction false} TestSlots(us: Nest, f: Form, l2: bool)
    requires (f.If? || f.When? || f.Not?) && ClosureFree(f) && Comp(us, f, l2).Built?
    ensures Adds(us, Comp(us, f, l2).code.us, Slots(f))
    decreases f, 1
  {
    hide Slots, SlotsAll, Comp, CompBody, ClosureFree, ClosureFreeAll;
    TestSlotsOf(f);
    if f.If? {
      UnfoldIf(us, f, l2);
      FormSlots(us, f.test, l2);
      var t := Comp(us, f.test, l2).code;
      FormSlots(Skip(t.us, 1), f.thn, l2);
      var a := Comp(Skip(t.us, 1), f.thn, l2).code;
      if f.els.Some? { FormSlots(Skip(a.us, 1), f.els.value, l2); }
    } else if f.When? {
      UnfoldWhen(us, f, l2);
      FormSlots(us, f.test, l2);
      BodySlots(Skip(Comp(us, f.test, l2).code.us, 1), f.body, l2);
    } else {
      UnfoldNot(us, f, l2);
      FormSlots(us, f.arg, l2);
    }
  }

  lemma {:induction false} TestSlotsOf(f: Form)
    requires f.If? || f.When? || f.Not?
    ensures f.If? ==> Slots(f) == Slots(f.test) + Slots(f.thn) + if f.els.Some? then Slots(f.els.value) else 0
    ensures f.When? ==> Slots(f) == Slots(f.test) + SlotsAll(f.body)
    ensures f.Not? ==> Slots(f) == Slots(f.arg)
  {
    hide SlotsAll;
  }

  lemma {:induction false} StoreSlots(us: Nest, f: Form, l2: bool)
    requires (f.Throw? || f.Assign?) && ClosureFree(f) && Comp(us, f, l2).Built?
    ensures Adds(us, Comp(us, f, l2).code.us, Slots(f))
    decreases f, 1
  {
    hide Slots, Comp, ClosureFree, ResolveLocal, IndexOf, AncestorBinds, Capture;
    StoreSlotsOf(f);
    if f.Throw? {
      UnfoldThrow(us, f, l2);
      FormSlots(us, f.arg, l2);
    } else {
      UnfoldAssign(us, f, l2);
      if ResolveLocal(Top(us).names, f.name).Some? || AncestorBinds(us, f.name) {
        FormSlots(us, f.rhs, l2);
        var r := Comp(us, f.rhs, l2).code;
        if ResolveLocal(Top(us).names, f.name).None? {
          if |us| == 1 { AncestorAlone(us, f.name); }
          CaptureSlots(r.us, OpSetCap, f.name);
        }
      } else {
        FormSlots(WithConst(us, OpCheckLexical, Sym(f.name)).us, f.rhs, l2);
      }
    }
  }

  lemma {:induction false} StoreSlotsOf(f: Form)
    requires f.Throw? || f.Assign?
    ensures Slots(f) == Slots(if f.Throw? then f.arg else f.rhs)
  {
  }

  lemma {:induction false} ScopeSlots(us: Nest, f: Form, l2: bool)
    requires (f.Let? || f.Loop?) && ClosureFree(f) && Comp(us, f, l2).Built?
    ensures Adds(us, Comp(us, f, l2).code.us, Slots(f))
    decreases f, 1
  {
    hide Slots, SlotsAll, SlotsBinds, Comp, CompBody, CompBinds, CompInits, ClosureFree, ClosureFreeAll,
         ClosureFreeBinds, Names;
    ScopeSlotsOf(f);
    if f.Let? {
      UnfoldLet(us, f, l2);
      BindSlots(us, f.binds, l2);
      BodySlots(CompBinds(us, f.binds, l2).code.us, f.body, l2);
    } else {
      UnfoldLoop(us, f, l2);
      InitSlots(us, f.binds, l2);
      BodySlots(LoopEntry(us, CompInits(us, f.binds, l2).code, f.binds), f.body, l2);
    }
  }

  lemma {:induction false} ScopeSlotsOf(f: Form)
    requires f.Let? || f.Loop?
    ensures Slots(f) == SlotsBinds(f.binds) + SlotsAll(f.body)
  {
    hide SlotsAll, SlotsBinds;
  }

  lemma {:induction false} TrySlots(us: Nest, f: Form, l2: bool)
    requires f.Try? && ClosureFree(f) && Comp(us, f, l2).Built?
    ensures Adds(us, Comp(us, f, l2).code.us, Slots(f))
    decreases f, 1
  {
    hide Slots, SlotsAll, Comp, CompBody, ClosureFree, ClosureFreeAll;
    assert Slots(f) == SlotsAll(f.body) + 1 + SlotsAll(f.handler) by { TrySlotsOf(f); }
    UnfoldTry(us, f, l2);
    var u := Top(us);
    var usb := Put(us, u.(pc := u.pc + 1, tries := u.tries + 1));
    BodySlots(usb, f.body, l2);
    var b := CompBody(usb, f.body, l2).code;
    BodySlots(BindSlot(Reserve(Skip(Restore(b.us, u), 2), f.err), |u.names|).us, f.handler, l2);
  }

  lemma {:induction false} TrySlotsOf(f: Form)
    requires f.Try?
    ensures Slots(f) == SlotsAll(f.body) + 1 + SlotsAll(f.handler)
  {
    hide SlotsAll;
  }

  lemma {:induction false} RecurSlots(us: Nest, f: Form, l2: bool)
    requires f.Recur? && ClosureFree(f) && Comp(us, f, l2).Built?
    ensures Adds(us, Comp(us, f, l2).code.us, Slots(f))
    decreases f, 1
  {
    hide SlotsAll, Comp, CompArgs, ClosureFree, ClosureFreeAll, StoreBinds, Stores, PopTryWords;
    UnfoldRecur(us, f, l2);
    ArgSlots(us, f.args, l2);
  }

  lemma {:induction false} CallSlots(us: Nest, f: Form, l2: bool)
    requires f.Call? && ClosureFree(f) && Comp(us, f, l2).Built?
    ensures Adds(us, Comp(us, f, l2).code.us, Slots(f))
    decreases f, 1
  {
    hide Slots, SlotsAll, Comp, CompArgs, ClosureFree, ClosureFreeAll, CompFused, Shadowed, NativeOf, IndexOf;
    CallSlotsOf(f);
    if IsNative(us, f.head) {
      NativeCallSlots(us, f, l2);
    } else {
      UnfoldCall(us, f, l2);
      if !(l2 && f.head.Var?) { FormSlots(us, f.head, l2); }
      ArgSlots(CompHead(us, f.head, l2).code.us, f.args, l2);
    }
  }

  lemma {:induction false} CallSlotsOf(f: Form)
    requires f.Call?
    ensures Slots(f) == Slots(f.head) + SlotsAll(f.args) && (f.head.Var? ==> Slots(f.head) == 0)
  {
    hide SlotsAll;
  }

  lemma {:induction false} NativeCallSlots(us: Nest, f: Form, l2: bool)
    requires f.Call? && ClosureFree(f) && Comp(us, f, l2).Built? && IsNative(us, f.head)
    requires Slots(f) == SlotsAll(f.args)
    ensures Adds(us, Comp(us, f, l2).code.us, Slots(f))
    decreases f, 0
  {
    hide Slots, SlotsAll, Comp, CompArgs, ClosureFree, ClosureFreeAll, CompFused, Shadowed, NativeOf, IndexOf;
    UnfoldNativeCall(us, f, l2);
    var op, x := NativeOf(f.head.name).value, f.head.name;
    FusedSlots(us, op, x, f.args, l2);
    var (us1, fused) := CompFused(us, op, x, f.args, l2);
    var fop := if l2 then OpFreezeNativeFunc else OpFreezeNative;
    if fused.None? { ArgSlots(WithConst(us1, fop, Sym(x)).us, f.args, l2); }
  }

  lemma {:induction false} FusedSlots(us: Nest, op: NativeOp, x: string, args: Forms, l2: bool)
    ensures Adds(us, CompFused(us, op, x, args, l2).0, 0)
    ensures CompFused(us, op, x, args, l2).1.Some? ==> SlotsAll(args) == 0
  {
    hide ResolveLocal, IndexOf, SlotsAll, Slots;
    if CompFused(us, op, x, args, l2).1.Some? {
      AllSlotsOf(args);
      AllSlotsOf(args.tail);
      AllSlotsOf(args.tail.tail);
      SideSlots(args.head);
      SideSlots(args.tail.head);
    }
  }

  lemma {:induction false} SideSlots(f: Form)
    requires f.Var? || f.Const?
    ensures Slots(f) == 0
  {
  }

  lemma {:induction false} BodySlots(us: Nest, fs: Forms, l2: bool)
    requires ClosureFreeAll(fs) && CompBody(us, fs, l2).Built?
    ensures Adds(us, CompBody(us, fs, l2).code.us, SlotsAll(fs))
    decreases fs, 0
  {
    hide Comp, Slots, ClosureFree;
    if fs.Cons? {
      FormSlots(us, fs.head, l2);
      if !fs.tail.End? { BodySlots(One(Comp(us, fs.head, l2).code.us, OpPop, 0).us, fs.tail, l2); }
    }
  }

  lemma {:induction false} ArgSlots(us: Nest, fs: Forms, l2: bool)
    requires ClosureFreeAll(fs) && CompArgs(us, fs, l2).Built?
    ensures Adds(us, CompArgs(us, fs, l2).code.us, SlotsAll(fs))
    decreases fs, 0
  {
    hide Comp, Slots, ClosureFree;
    if fs.Cons? {
      FormSlots(us, fs.head, l2);
      ArgSlots(Comp(us, fs.head, l2).code.us, fs.tail, l2);
    }
  }

  lemma {:induction false} AndSlots(us: Nest, fs: Forms, l2: bool)
    requires ClosureFreeAll(fs) && CompAnd(us, fs, l2).Built?
    ensures Adds(us, CompAnd(us, fs, l2).code.us, SlotsAll(fs))
    decreases fs, 0
  {
    hide Comp, Slots, ClosureFree;
    if fs.Cons? {
      FormSlots(Skip(us, 3), fs.head, l2);
      AndSlots(Comp(Skip(us, 3), fs.head, l2).code.us, fs.tail, l2);
    }
  }

  lemma {:induction false} OrSlots(us: Nest, fs: Forms, l2: bool)
    requires ClosureFreeAll(fs) && CompOr(us, fs, l2).Built?
    ensures Adds(us, CompOr(us, fs, l2).code.us, SlotsAll(fs))
    decreases fs, 0
  {
    hide Comp, Slots, ClosureFree;
    if fs.Cons? {
      FormSlots(Skip(us, 4), fs.head, l2);
      OrSlots(Comp(Skip(us, 4), fs.head, l2).code.us, fs.tail, l2);
    }
  }

  lemma {:induction false} ClauseSlots(us: Nest, cs: Clauses, l2: bool)
    requires ClosureFreeClauses(cs) && CompClauses(us, cs, l2).Built?
    ensures Adds(us, CompClauses(us, cs, l2).code.us, SlotsClauses(cs))
    decreases cs, 0
  {
    hide Comp, Slots, ClosureFree, CompBody, SlotsAll, ClosureFreeAll;
    if cs.Clause? {
      if IsElse(cs.test) {
        BodySlots(us, cs.body, l2);
      } else {
        UnfoldClauses(us, cs, l2);
        FormSlots(us, cs.test, l2);
        var t := Comp(us, cs.test, l2).code;
        BodySlots(Skip(t.us, 1), cs.body, l2);
        ClauseSlots(Skip(CompBody(Skip(t.us, 1), cs.body, l2).code.us, 1), cs.rest, l2);
      }
    }
  }

  lemma {:induction false} BindSlots(us: Nest, bs: Binds, l2: bool)
    requires ClosureFreeBinds(bs) && CompBinds(us, bs, l2).Built?
    ensures Adds(us, CompBinds(us, bs, l2).code.us, SlotsBinds(bs))
    decreases bs, 0
  {
    hide Comp, Slots, ClosureFree;
    if bs.Bind? {
      UnfoldBinds(us, bs, l2);
      FormSlots(us, bs.init, l2);
      var t := Comp(us, bs.init, l2).code;
      BindSlots(BindSlot(Reserve(t.us, bs.name), |Top(t.us).names|).us, bs.rest, l2);
    }
  }

  lemma {:induction false} InitSlots(us: Nest, bs: Binds, l2: bool)
    requires ClosureFreeBinds(bs) && CompInits(us, bs, l2).Built?
    ensures Adds(us, CompInits(us, bs, l2).code.us, SlotsBinds(bs))
    decreases bs, 0
  {
    hide Comp, Slots, ClosureFree;
    if bs.Bind? {
      UnfoldInits(us, bs, l2);
      FormSlots(Reserve(us, ""), bs.init, l2);
      var t := Comp(Reserve(us, ""), bs.init, l2).code;
      InitSlots(BindSlot(t.us, |Top(us).names|).us, bs.rest, l2);
    }
  }
}
