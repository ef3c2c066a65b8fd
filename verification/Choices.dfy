/** What a test decides, said of the forms and of the jump instruction themselves: nil and false
    choose the other way, every other value, 0 and empty collections included, goes on. */
module Choices {
  import opened Forms
  import opened TreeWalker
  import opened Machine
  import opened CodeGen
  import Adequacy

  /** if: the else branch, or nil, on nil and false; the then branch on anything else; and whatever
      stops the test stops the form. */
  lemma {:induction false} IfChooses(h: Host, l2: bool, f: Form, e: Env, k: nat)
    requires f.If?
    ensures var r := Eval(h, l2, f.test, e, k);
      Eval(h, l2, f, e, k) ==
        if !r.Val? then r
        else if r.v != Nil && r.v != Bool(false) then Eval(h, l2, f.thn, r.e, k)
        else if f.els.Some? then Eval(h, l2, f.els.value, r.e, k)
        else Val(Nil, r.e)
  {
    hide EvalBody, EvalClauses, EvalAnd, EvalOr, EvalBinds, EvalInits, EvalArgs, Iterate;
  }

  /** when is an if around its body. */
  lemma {:induction false} WhenIsIf(h: Host, l2: bool, test: Form, body: Forms, e: Env, k: nat)
    ensures Eval(h, l2, When(test, body), e, k) == Eval(h, l2, If(test, Do(body), None), e, k)
  {
    hide EvalBody, EvalClauses, EvalAnd, EvalOr, EvalBinds, EvalInits, EvalArgs, Iterate;
    var r := Eval(h, l2, test, e, k);
    if r.Val? { assert Eval(h, l2, Do(body), r.e, k) == EvalBody(h, l2, body, r.e, k); }
  }

  /** not is an if between the two booleans. */
  lemma {:induction false} NotIsIf(h: Host, l2: bool, arg: Form, e: Env, k: nat)
    ensures Eval(h, l2, Not(arg), e, k) ==
      Eval(h, l2, If(arg, Const(Bool(false)), Some(Const(Bool(true)))), e, k)
  {
    hide EvalBody, EvalClauses, EvalAnd, EvalOr, EvalBinds, EvalInits, EvalArgs, Iterate;
    IfChooses(h, l2, If(arg, Const(Bool(false)), Some(Const(Bool(true)))), e, k);
    var r := Eval(h, l2, arg, e, k);
    if r.Val? {
      assert Eval(h, l2, Const(Bool(false)), r.e, k) == Val(Bool(false), r.e);
      assert Eval(h, l2, Const(Bool(true)), r.e, k) == Val(Bool(true), r.e);
    }
  }

  /** cond is an if for each clause, the else clause being one whose test is never nil or false. */
  lemma {:induction false} CondIsIfs(h: Host, l2: bool, test: Form, body: Forms, rest: Clauses, e: Env, k: nat)
    ensures Eval(h, l2, Cond(NoClauses), e, k) == Val(Nil, e)
    ensures Eval(h, l2, Cond(Clause(test, body, rest)), e, k) ==
      Eval(h, l2, If(test, Do(body), Some(Cond(rest))), e, k)
  {
    hide EvalBody, EvalAnd, EvalOr, EvalBinds, EvalInits, EvalArgs, Iterate;
    IfChooses(h, l2, If(test, Do(body), Some(Cond(rest))), e, k);
    var r := Eval(h, l2, test, e, k);
    if r.Val? {
      assert Eval(h, l2, Do(body), r.e, k) == EvalBody(h, l2, body, r.e, k);
      assert Eval(h, l2, Cond(rest), r.e, k) == EvalClauses(h, l2, rest, r.e, k);
    }
  }

  /** and yields the first argument that is nil or false, or the last one. */
  lemma {:induction false} AndStops(h: Host, l2: bool, a: Form, rest: Forms, e: Env, k: nat)
    ensures Eval(h, l2, And(End), e, k) == Val(Bool(true), e)
    ensures var r := Eval(h, l2, a, e, k);
      Eval(h, l2, And(Cons(a, rest)), e, k) ==
        if r.Val? && r.v != Nil && r.v != Bool(false) && rest.Cons? then Eval(h, l2, And(rest), r.e, k) else r
  {
    hide EvalBody, EvalClauses, EvalOr, EvalBinds, EvalInits, EvalArgs, Iterate;
    var r := Eval(h, l2, a, e, k);
    if r.Val? && rest.Cons? {
      var q := Eval(h, l2, rest.head, r.e, k);
      assert Eval(h, l2, And(rest), r.e, k) == if q.Val? then EvalAnd(h, l2, q.v, rest.tail, q.e, k) else q;
    }
  }

  /** or yields the first argument that is neither, or the last one. */
  lemma {:induction false} OrStops(h: Host, l2: bool, a: Form, rest: Forms, e: Env, k: nat)
    ensures Eval(h, l2, Or(End), e, k) == Val(Nil, e)
    ensures var r := Eval(h, l2, a, e, k);
      Eval(h, l2, Or(Cons(a, rest)), e, k) ==
        if r.Val? && (r.v == Nil || r.v == Bool(false)) && rest.Cons? then Eval(h, l2, Or(rest), r.e, k) else r
  {
    hide EvalBody, EvalClauses, EvalAnd, EvalBinds, EvalInits, EvalArgs, Iterate;
    var r := Eval(h, l2, a, e, k);
    if r.Val? && rest.Cons? {
      var q := Eval(h, l2, rest.head, r.e, k);
      assert Eval(h, l2, Or(rest), r.e, k) == if q.Val? then EvalOr(h, l2, q.v, rest.tail, q.e, k) else q;
    }
  }

  /** The jump takes its operand off the stack and is made exactly on nil and false. */
  lemma {:induction false} JumpsOnFalse(h: Host, s: State, off: nat)
    requires s.ops != []
    ensures var n := |s.ops| - 1;
      Exec(h, s, JumpIfFalse(off)) == At(s.(
        ip := if s.ops[n] == Nil || s.ops[n] == Bool(false) then s.ip + 1 + off else s.ip + 1, ops := s.ops[..n]))
  {
  }

  /** Compiled and run, an if over any value ends exactly as the branch the value chooses. */
  lemma {:induction false} CompiledChoice(h: Host, l2: bool, v: Value, a: Form, b: Form, slots: seq<Value>, g: Globals,
      o: Adequacy.Result)
    requires Accepted(a, None) && Accepted(b, None) && Slots(a) + Slots(b) <= |slots| && CanonicalFaithful(h, g)
    ensures Adequacy.Halts(h, l2, If(Const(v), a, Some(b)), slots, g, o) <==>
      Adequacy.Halts(h, l2, if v == Nil || v == Bool(false) then b else a, slots, g, o)
  {
    hide Eval, Gen, Adequacy.Halts, CanonicalFaithful;
    var f, c := If(Const(v), a, Some(b)), if v == Nil || v == Bool(false) then b else a;
    Adequacy.SameMeaning(h, l2, f, slots, g, o);
    Adequacy.SameMeaning(h, l2, c, slots, g, o);
    forall k: nat ensures Eval(h, l2, f, Root(g), k) == Eval(h, l2, c, Root(g), k) {
      IfChooses(h, l2, f, Root(g), k);
      ConstIs(h, l2, v, Root(g), k);
    }
  }

  lemma {:induction false} ConstIs(h: Host, l2: bool, v: Value, e: Env, k: nat)
    ensures Eval(h, l2, Const(v), e, k) == Val(v, e)
  {
  }

  // ---- the native operators ----

  /** The name an opcode is known by. */
  function Symbol(op: NativeOp): string {
    match op
    case Add => "+"
    case Sub => "-"
    case Mul => "*"
    case Div => "/"
    case Lt => "<"
    case Gt => ">"
    case Le => "<="
    case Ge => ">="
    case Eq => "="
  }

  /** Names and opcodes stand one to one. */
  lemma {:induction false} NativeNames(x: string, op: NativeOp)
    ensures NativeOf(x) == Some(op) <==> x == Symbol(op)
  {
  }

  lemma {:induction false} TextTells(a: string, x: string, y: string, b: string)
    ensures a + x + b == a + y + b <==> x == y
    ensures a + x == a + y <==> x == y
  {
    if a + x + b == a + y + b {
      var n := |a| + |x|;
      assert (a + x + b)[|a|..n] == x && (a + y + b)[|a|..n] == y;
    }
    if a + x == a + y { assert (a + x)[|a|..] == x && (a + y)[|a|..] == y; }
  }

  /** An error tells which name is undefined or cannot be set. */
  lemma {:induction false} ErrorsTell(x: string, y: string)
    ensures UndefinedError(x) == UndefinedError(y) <==> x == y
    ensures AssignError(x) == AssignError(y) <==> x == y
  {
    TextTells("UndefinedError: undefined: ", x, y, "");
    TextTells("EvalError: set!: cannot mutate undefined variable \"", x, y, "\"");
  }
}
