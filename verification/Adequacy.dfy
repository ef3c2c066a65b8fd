/** Whole programs: a compiled form and the walked form halt together and alike. */
module Adequacy {
  import opened Forms
  import opened TreeWalker
  import opened Machine
  import opened CodeGen
  import opened ScopeSlots
  import opened CompilerCorrect

  // ---- a form that runs out of fuel has spent all of it ----

  predicate Spent(r: Res, k: nat) {
    r.OutOfFuel? ==> r.spent == k
  }

  lemma {:induction false} FuelEval(h: Host, lisp2: bool, f: Form, e: Env, k: nat)
    ensures Spent(Eval(h, lisp2, f, e, k), k)
    decreases k, f, 0
  {
    hide EvalBody, EvalArgs, EvalBinds, EvalInits, EvalClauses, EvalAnd, EvalOr, Iterate, Lookup, Rebind, BindAll,
         Names;
    match f
    case Const(v) =>
    case Quote(v) =>
    case Var(x) =>
    case Do(body) => FuelBody(h, lisp2, body, e, k);
    case If(test, thn, els) => FuelIf(h, lisp2, f, e, k);
    case When(test, body) =>
      FuelEval(h, lisp2, test, e, k);
      var r := Eval(h, lisp2, test, e, k);
      if r.Val? { FuelBody(h, lisp2, body, r.e, k); }
    case Cond(clauses) => FuelClauses(h, lisp2, clauses, e, k);
    case And(args) =>
      if args.Cons? {
        FuelEval(h, lisp2, args.head, e, k);
        var r := Eval(h, lisp2, args.head, e, k);
        if r.Val? { FuelAnd(h, lisp2, r.v, args.tail, r.e, k); }
      }
    case Or(args) =>
      if args.Cons? {
        FuelEval(h, lisp2, args.head, e, k);
        var r := Eval(h, lisp2, args.head, e, k);
        if r.Val? { FuelOr(h, lisp2, r.v, args.tail, r.e, k); }
      }
    case Not(arg) => FuelEval(h, lisp2, arg, e, k);
    case Let(binds, body) =>
      FuelBinds(h, lisp2, binds, Child(map[], e), k);
      var r := EvalBinds(h, lisp2, binds, Child(map[], e), k);
      if r.Val? { FuelBody(h, lisp2, body, r.e, k); }
    case Assign(x, rhs) => FuelEval(h, lisp2, rhs, e, k);
    case Throw(arg) => FuelEval(h, lisp2, arg, e, k);
    case Try(body, err, handler) =>
      FuelBody(h, lisp2, body, e, k);
      var r := EvalBody(h, lisp2, body, e, k);
      if r.Thrown? { FuelBody(h, lisp2, handler, Child(map[err := r.w], r.e), k); }
    case Loop(binds, body) =>
      FuelInits(h, lisp2, binds, e, k);
      var r := EvalInits(h, lisp2, binds, e, k);
      if r.Vals? { FuelIterate(h, lisp2, Names(binds), body, Child(BindAll(map[], Names(binds), r.vs), r.e), k); }
    case Recur(args) => FuelArgs(h, lisp2, args, e, k);
    case Call(head, args) =>
      FuelEval(h, lisp2, head, e, k);
      var r := EvalHead(h, lisp2, head, e, k);
      if r.Val? { FuelArgs(h, lisp2, args, r.e, k); }
    case Lambda(_, _) =>
  }

  lemma {:induction false} FuelIf(h: Host, lisp2: bool, f: Form, e: Env, k: nat)
    requires f.If?
    ensures Spent(Eval(h, lisp2, f, e, k), k)
    decreases k, f, 0, 0
  {
    hide EvalBody, EvalArgs, EvalBinds, EvalInits, EvalClauses, EvalAnd, EvalOr, Iterate, Lookup, Rebind, BindAll,
         Names;
    FuelEval(h, lisp2, f.test, e, k);
    var r := Eval(h, lisp2, f.test, e, k);
    if r.Val? {
      if Truthy(r.v) {
        FuelEval(h, lisp2, f.thn, r.e, k);
      } else if f.els.Some? {
        FuelEval(h, lisp2, f.els.value, r.e, k);
      }
    }
  }

  lemma {:induction false} FuelBody(h: Host, lisp2: bool, fs: Forms, e: Env, k: nat)
    ensures Spent(EvalBody(h, lisp2, fs, e, k), k)
    decreases k, fs, 0
  {
    hide Eval;
    if fs.Cons? {
      FuelEval(h, lisp2, fs.head, e, k);
      var r := Eval(h, lisp2, fs.head, e, k);
      if r.Val? { FuelBody(h, lisp2, fs.tail, r.e, k); }
    }
  }

  lemma {:induction false} FuelArgs(h: Host, lisp2: bool, fs: Forms, e: Env, k: nat)
    ensures EvalArgs(h, lisp2, fs, e, k).Stop? ==> Spent(EvalArgs(h, lisp2, fs, e, k).r, k)
    decreases k, fs, 0
  {
    hide Eval;
    if fs.Cons? {
      FuelEval(h, lisp2, fs.head, e, k);
      var r := Eval(h, lisp2, fs.head, e, k);
      if r.Val? { FuelArgs(h, lisp2, fs.tail, r.e, k); }
    }
  }

  lemma {:induction false} FuelBinds(h: Host, lisp2: bool, bs: Binds, e: Env, k: nat)
    ensures Spent(EvalBinds(h, lisp2, bs, e, k), k)
    decreases k, bs, 0
  {
    hide Eval;
    if bs.Bind? {
      FuelEval(h, lisp2, bs.init, e, k);
      var r := Eval(h, lisp2, bs.init, e, k);
      if r.Val? { FuelBinds(h, lisp2, bs.rest, BindLocal(r.e, bs.name, r.v), k); }
    }
  }

  lemma {:induction false} FuelInits(h: Host, lisp2: bool, bs: Binds, e: Env, k: nat)
    ensures EvalInits(h, lisp2, bs, e, k).Stop? ==> Spent(EvalInits(h, lisp2, bs, e, k).r, k)
    decreases k, bs, 0
  {
    hide Eval;
    if bs.Bind? {
      FuelEval(h, lisp2, bs.init, e, k);
      var r := Eval(h, lisp2, bs.init, e, k);
      if r.Val? { FuelInits(h, lisp2, bs.rest, r.e, k); }
    }
  }

  lemma {:induction false} FuelClauses(h: Host, lisp2: bool, cs: Clauses, e: Env, k: nat)
    ensures Spent(EvalClauses(h, lisp2, cs, e, k), k)
    decreases k, cs, 0
  {
    hide Eval;
    if cs.Clause? {
      if IsElse(cs.test) {
        FuelBody(h, lisp2, cs.body, e, k);
      } else {
        FuelEval(h, lisp2, cs.test, e, k);
        var r := Eval(h, lisp2, cs.test, e, k);
        if r.Val? {
          FuelBody(h, lisp2, cs.body, r.e, k);
          FuelClauses(h, lisp2, cs.rest, r.e, k);
        }
      }
    }
  }

  lemma {:induction false} FuelAnd(h: Host, lisp2: bool, v: Value, args: Forms, e: Env, k: nat)
    ensures Spent(EvalAnd(h, lisp2, v, args, e, k), k)
    decreases k, args, 0
  {
    hide Eval;
    if args.Cons? {
      FuelEval(h, lisp2, args.head, e, k);
      var r := Eval(h, lisp2, args.head, e, k);
      if r.Val? { FuelAnd(h, lisp2, r.v, args.tail, r.e, k); }
    }
  }

  lemma {:induction false} FuelOr(h: Host, lisp2: bool, v: Value, args: Forms, e: Env, k: nat)
    ensures Spent(EvalOr(h, lisp2, v, args, e, k), k)
    decreases k, args, 0
  {
    hide Eval;
    if args.Cons? {
      FuelEval(h, lisp2, args.head, e, k);
      var r := Eval(h, lisp2, args.head, e, k);
      if r.Val? { FuelOr(h, lisp2, r.v, args.tail, r.e, k); }
    }
  }

  lemma {:induction false} FuelIterate(h: Host, lisp2: bool, names: seq<string>, body: Forms, e: Env, k: nat)
    ensures Spent(Iterate(h, lisp2, names, body, e, k), k)
    decreases k, body, 1
  {
    hide EvalBody;
    FuelBody(h, lisp2, body, e, k);
    var r := EvalBody(h, lisp2, body, e, k);
    if r.Again? && |r.args| == |names| && k > 0 {
      FuelIterate(h, lisp2, names, body, Rebound(r.e, names, r.args), k - 1);
    }
  }

  // ---- whole programs ----

  /** The code of a top-level form. */
  function Program(f: Form, lisp2: bool): seq<Instr> {
    Gen(f, Ctx([], None, 0, lisp2), 0) + [Return]
  }

  /** The frame a top-level form starts in: nothing on its stacks, its slots holding anything. */
  function Entry(slots: seq<Value>, g: Globals): State {
    State(0, slots, [], [], [], g)
  }

  /** What a run that has ended shows: the value and the root it leaves, or the thrown value. */
  datatype Result = Returned(v: Value, g: Globals) | Raised(w: Value, g: Globals)

  ghost predicate Walks(h: Host, lisp2: bool, f: Form, g: Globals, o: Result) {
    exists k: nat :: WalksIn(Eval(h, lisp2, f, Root(g), k), o)
  }

  predicate WalksIn(r: Res, o: Result) {
    match o
    case Returned(v, g) => r == Val(v, Root(g))
    case Raised(w, g) => r == Thrown(w, Root(g))
  }

  ghost predicate Halts(h: Host, lisp2: bool, f: Form, slots: seq<Value>, g: Globals, o: Result) {
    exists n: nat :: HaltsIn(RunN(h, Program(f, lisp2), Entry(slots, g), n), o)
  }

  predicate HaltsIn(r: Run, o: Result) {
    match o
    case Returned(v, g) => r == Done(v, g)
    case Raised(w, g) => r.Uncaught? && r.w == w && r.g == g
  }

  /** A run that has ended stays ended. */
  lemma {:induction false} Ended(h: Host, prog: seq<Instr>, s: State, a: nat, b: nat)
    requires !RunN(h, prog, s, a).At? && a <= b
    ensures RunN(h, prog, s, b) == RunN(h, prog, s, a)
    decreases a
  {
    hide Step;
    if a > 0 && Step(h, prog, s).At? { Ended(h, prog, Step(h, prog, s).s, a - 1, b - 1); }
  }

  lemma {:induction false} Deterministic(h: Host, lisp2: bool, f: Form, slots: seq<Value>, g: Globals, a: nat, b: nat,
      o: Result, o': Result)
    requires HaltsIn(RunN(h, Program(f, lisp2), Entry(slots, g), a), o)
    requires HaltsIn(RunN(h, Program(f, lisp2), Entry(slots, g), b), o')
    ensures o == o'
  {
    hide RunN, Program;
    if a <= b {
      Ended(h, Program(f, lisp2), Entry(slots, g), a, b);
    } else {
      Ended(h, Program(f, lisp2), Entry(slots, g), b, a);
    }
  }

  /** With k units of fuel: either the walk ends and the run ends alike, or the run is still
      going after k steps. */
  lemma {:induction false} Agree(h: Host, lisp2: bool, f: Form, slots: seq<Value>, g: Globals, k: nat) returns (n: nat,
      o: Option<Result>)
    requires Accepted(f, None) && Slots(f) <= |slots| && CanonicalFaithful(h, g)
    ensures var r := Eval(h, lisp2, f, Root(g), k);
            var m := RunN(h, Program(f, lisp2), Entry(slots, g), n);
            if o.Some? then WalksIn(r, o.value) && HaltsIn(m, o.value) else r.OutOfFuel? && m.At? && n >= k
  {
    hide Gen, Eval, Accepted, Slots, RunN, Rel, CanonicalFaithful;
    var c, s, prog := Ctx([], None, 0, lisp2), Entry(slots, g), Program(f, lisp2);
    var e, r := Root(g), Eval(h, lisp2, f, Root(g), k);
    Split(prog, 0, Gen(f, c, 0), [Return]) by { assert prog[0..|prog|] == prog; }
    AtBottom(e, slots);
    assert Ready(h, c, Bottom, s, e, Slots(f));
    FuelEval(h, lisp2, f, e, k);
    var t, z;
    n, t, z := Correct(h, prog, f, c, Bottom, s, e, k, None);
    match r
    case OutOfFuel(m) => o := None;
    case Val(v, e1) =>
      BottomIs(e1, t.slots);
      o := Some(Returned(v, t.g));
      RunOne(h, prog, t, Return);
      RunAppend(h, prog, s, n, t, 1);
      n := n + 1;
    case Thrown(w, e1) =>
      BottomIs(e1, t.slots);
      o := Some(Raised(w, t.g));
  }

  lemma {:induction false} AtBottom(e: Env, slots: seq<Value>)
    requires e.Root?
    ensures Rel(e, Bottom, slots, {}) && Flat(Bottom) == []
  {
  }

  lemma {:induction false} BottomIs(e: Env, slots: seq<Value>)
    requires Rel(e, Bottom, slots, {})
    ensures e == Root(GlobalsOf(e))
  {
  }

  /** Compiling preserves and reflects the meaning of every accepted form: the machine returns v
      (throws w) leaving the root g exactly when the walk does; so one diverges when the other does. */
  lemma {:induction false} SameMeaning(h: Host, lisp2: bool, f: Form, slots: seq<Value>, g: Globals, o: Result)
    requires Accepted(f, None) && Slots(f) <= |slots| && CanonicalFaithful(h, g)
    ensures Walks(h, lisp2, f, g, o) <==> Halts(h, lisp2, f, slots, g, o)
  {
    hide Eval, RunN, Program, Accepted, Slots, CanonicalFaithful;
    if Walks(h, lisp2, f, g, o) {
      var k: nat :| WalksIn(Eval(h, lisp2, f, Root(g), k), o);
      var n, o1 := Agree(h, lisp2, f, slots, g, k);
      assert o1 == Some(o);
      assert HaltsIn(RunN(h, Program(f, lisp2), Entry(slots, g), n), o);
    }
    if Halts(h, lisp2, f, slots, g, o) {
      var n: nat :| HaltsIn(RunN(h, Program(f, lisp2), Entry(slots, g), n), o);
      var m, o1 := Agree(h, lisp2, f, slots, g, n);
      if o1.None? {
        Ended(h, Program(f, lisp2), Entry(slots, g), n, m);
        assert false;
      }
      Deterministic(h, lisp2, f, slots, g, n, m, o, o1.value);
      assert WalksIn(Eval(h, lisp2, f, Root(g), n), o);
    }
  }

  /** The machine never goes off the rails. */
  lemma {:induction false} NeverBad(h: Host, lisp2: bool, f: Form, slots: seq<Value>, g: Globals, n: nat)
    requires Accepted(f, None) && Slots(f) <= |slots| && CanonicalFaithful(h, g)
    ensures RunN(h, Program(f, lisp2), Entry(slots, g), n) != Bad
  {
    hide Eval, RunN, Program, Accepted, Slots, CanonicalFaithful;
    var m, o := Agree(h, lisp2, f, slots, g, n);
    if RunN(h, Program(f, lisp2), Entry(slots, g), n) == Bad {
      if n <= m {
        Ended(h, Program(f, lisp2), Entry(slots, g), n, m);
      } else {
        Ended(h, Program(f, lisp2), Entry(slots, g), m, n);
      }
    }
  }
}
