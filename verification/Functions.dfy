/** Calls of compiled functions: the code of a function that captures nothing, run on its arguments,
    ends exactly as the walk of its body does in a scope that binds its parameters to them. */
module Functions {
  import opened Forms
  import opened TreeWalker
  import opened Machine
  import opened CodeGen
  import opened ScopeSlots
  import opened CompilerCorrect
  import opened Adequacy

  /** The code of a function: its body's forms one after another, then the return. outer are the
      names the functions around it bind. */
  function FunctionCode(params: seq<string>, outer: set<string>, body: Forms, l2: bool): seq<Instr> {
    GenArgs(body, Ctx(params, None, 0, l2, outer), 0) + [Return]
  }

  /** The scope a call walks the body in. */
  function Scope(params: seq<string>, args: seq<Value>, g: Globals): Env
    requires |args| == |params|
  {
    Child(BindAll(map[], params, args), Root(g))
  }

  /** The frame a call starts in: the arguments in the first slots, anything in the others. */
  function CallFrame(args: seq<Value>, others: seq<Value>, g: Globals): State {
    State(0, args + others, [], [], [], g)
  }

  predicate EndsIn(r: Res, o: Result) {
    match o
    case Returned(v, g) => r.Val? && r.v == v && GlobalsOf(r.e) == g
    case Raised(w, g) => r.Thrown? && r.w == w && GlobalsOf(r.e) == g
  }

  ghost predicate CallWalks(h: Host, l2: bool, params: seq<string>, body: Forms, args: seq<Value>, g: Globals,
      o: Result)
    requires |args| == |params|
  {
    exists k: nat :: EndsIn(EvalBody(h, l2, body, Scope(params, args, g), k), o)
  }

  ghost predicate CallHalts(h: Host, prog: seq<Instr>, args: seq<Value>, others: seq<Value>, g: Globals, o: Result) {
    exists n: nat :: HaltsIn(RunN(h, prog, CallFrame(args, others, g), n), o)
  }

  /** A body yields what the last of its forms yields, evaluated as arguments are. */
  lemma {:induction false} BodyIsLast(h: Host, l2: bool, fs: Forms, e: Env, k: nat)
    requires fs.Cons?
    ensures var r := EvalArgs(h, l2, fs, e, k);
      EvalBody(h, l2, fs, e, k) == if r.Vals? then Val(r.vs[|r.vs| - 1], r.e) else r.r
    decreases fs
  {
    hide Eval;
    var r := Eval(h, l2, fs.head, e, k);
    if fs.tail.End? {
      if r.Val? { assert EvalArgs(h, l2, fs.tail, r.e, k) == Vals([], r.e); }
    } else if r.Val? {
      BodyIsLast(h, l2, fs.tail, r.e, k);
      var q := EvalArgs(h, l2, fs.tail, r.e, k);
      if q.Vals? { assert ([r.v] + q.vs)[|q.vs|] == q.vs[|q.vs| - 1]; }
    }
  }

  /** The arguments in the slots are the parameters in scope, the last of a repeated name winning. */
  lemma {:induction false} CallReady(h: Host, c: Ctx, params: seq<string>, args: seq<Value>, others: seq<Value>,
      g: Globals, room: nat)
    requires |args| == |params| && NonEmpty(params) && room <= |others| && CanonicalFaithful(h, g)
    requires c.locals == params && c.lp.None?
    ensures Ready(h, c, NamedAll(Opened(Bottom), params), CallFrame(args, others, g), Scope(params, args, g), room)
  {
    hide CanonicalFaithful;
    var slots := args + others;
    assert Rel(Root(g), Bottom, slots, {});
    assert Rel(Child(map[], Root(g)), Opened(Bottom), slots, {}) && Flat(Opened(Bottom)) == [];
    assert slots[0..|args|] == args;
    NameSlots(map[], Root(g), Opened(Bottom), slots, params, args);
    var sh := NamedAll(Opened(Bottom), params);
    hide Rel, NamedAll, BindAll;
    assert Flat(sh) == [] + params == params;
    assert GlobalsOf(Scope(params, args, g)) == g;
    assert Match(h, Scope(params, args, g), sh, CallFrame(args, others, g));
  }

  /** With k units of fuel: either the walk ends and the run ends alike, or the run is still going
      after k steps. */
  lemma {:induction false} CallAgrees(h: Host, l2: bool, params: seq<string>, outer: set<string>, body: Forms,
      args: seq<Value>, others: seq<Value>, g: Globals, k: nat) returns (n: nat, o: Option<Result>)
    requires |args| == |params| && NonEmpty(params) && body.Cons? && AcceptedArgs(body)
    requires SlotsAll(body) <= |others| && CanonicalFaithful(h, g)
    ensures var r := EvalBody(h, l2, body, Scope(params, args, g), k);
      var m := RunN(h, FunctionCode(params, outer, body, l2), CallFrame(args, others, g), n);
      if o.Some? then EndsIn(r, o.value) && HaltsIn(m, o.value) else r.OutOfFuel? && m.At? && n >= k
  {
    hide GenArgs, EvalBody, EvalArgs, AcceptedArgs, SlotsAll, RunN, Rel, CanonicalFaithful, NonEmpty, NamedAll, BindAll;
    var c, s := Ctx(params, None, 0, l2, outer), CallFrame(args, others, g);
    var prog, e, sh := FunctionCode(params, outer, body, l2), Scope(params, args, g), NamedAll(Opened(Bottom), params);
    Split(prog, 0, GenArgs(body, c, 0), [Return]) by { assert prog[0..|prog|] == prog; }
    CallReady(h, c, params, args, others, g, SlotsAll(body));
    BodyIsLast(h, l2, body, e, k);
    FuelBody(h, l2, body, e, k);
    var r, t, z := EvalArgs(h, l2, body, e, k), s, [];
    n, t, z := CorrectArgs(h, prog, body, c, sh, s, e, k);
    hide FunctionCode, CallFrame, Scope, Ready;
    n, o := Ends(h, prog, c, sh, s, r, |GenArgs(body, c, 0)|, n, t, z);
  }

  /** What follows from where the body's code lands: the return, an uncaught throw, or no end yet. */
  lemma {:induction false} Ends(h: Host, prog: seq<Instr>, c: Ctx, sh: Shape, s: State, r: ArgsRes, end: nat, n: nat,
      t: State, z: seq<Value>) returns (m: nat, o: Option<Result>)
    requires LandsArgs(h, prog, c, sh, s, r, end, n, t, z) && CodeAt(prog, end, [Return])
    requires s.ops == [] && s.handlers == [] && (r.Vals? ==> r.vs != [])
    ensures var run := RunN(h, prog, s, m);
      if o.Some? then EndsIn(if r.Vals? then Val(r.vs[|r.vs| - 1], r.e) else r.r, o.value) && HaltsIn(run, o.value)
      else r.Stop? && r.r.OutOfFuel? && run.At? && m >= r.r.spent
  {
    hide RunN, Rel, CanonicalFaithful;
    m := n;
    if r.Vals? {
      o := Some(Returned(r.vs[|r.vs| - 1], t.g));
      assert t.ops == r.vs;
      RunOne(h, prog, t, Return);
      RunAppend(h, prog, s, n, t, 1);
      m := n + 1;
    } else if r.r.Thrown? {
      o := Some(Raised(r.r.w, t.g));
    } else {
      o := None;
    }
  }

  lemma {:induction false} OneEnd(h: Host, prog: seq<Instr>, s: State, a: nat, b: nat, o: Result, o': Result)
    requires HaltsIn(RunN(h, prog, s, a), o) && HaltsIn(RunN(h, prog, s, b), o')
    ensures o == o'
  {
    hide RunN;
    if a <= b { Ended(h, prog, s, a, b); } else { Ended(h, prog, s, b, a); }
  }

  /** A call returns v (throws w) and leaves the root g exactly when walking the body, with the
      parameters bound to the arguments in order, does; so one diverges when the other does. */
  lemma {:induction false} CallMeaning(h: Host, l2: bool, params: seq<string>, outer: set<string>, body: Forms,
      args: seq<Value>, others: seq<Value>, g: Globals, o: Result)
    requires |args| == |params| && NonEmpty(params) && body.Cons? && AcceptedArgs(body)
    requires SlotsAll(body) <= |others| && CanonicalFaithful(h, g)
    ensures CallWalks(h, l2, params, body, args, g, o) <==>
      CallHalts(h, FunctionCode(params, outer, body, l2), args, others, g, o)
  {
    hide EvalBody, RunN, FunctionCode, AcceptedArgs, SlotsAll, CanonicalFaithful, NonEmpty, Scope;
    var prog, s := FunctionCode(params, outer, body, l2), CallFrame(args, others, g);
    if CallWalks(h, l2, params, body, args, g, o) {
      var k: nat :| EndsIn(EvalBody(h, l2, body, Scope(params, args, g), k), o);
      var n, o1 := CallAgrees(h, l2, params, outer, body, args, others, g, k);
      assert o1 == Some(o);
      assert HaltsIn(RunN(h, prog, s, n), o);
    }
    if CallHalts(h, prog, args, others, g, o) {
      var n: nat :| HaltsIn(RunN(h, prog, s, n), o);
      var m, o1 := CallAgrees(h, l2, params, outer, body, args, others, g, n);
      if o1.None? {
        Ended(h, prog, s, n, m);
        assert false;
      }
      OneEnd(h, prog, s, n, m, o, o1.value);
      assert EndsIn(EvalBody(h, l2, body, Scope(params, args, g), n), o);
    }
  }

  /** The code of a function never goes off the rails. */
  lemma {:induction false} CallNeverBad(h: Host, l2: bool, params: seq<string>, outer: set<string>, body: Forms,
      args: seq<Value>, others: seq<Value>, g: Globals, n: nat)
    requires |args| == |params| && NonEmpty(params) && body.Cons? && AcceptedArgs(body)
    requires SlotsAll(body) <= |others| && CanonicalFaithful(h, g)
    ensures RunN(h, FunctionCode(params, outer, body, l2), CallFrame(args, others, g), n) != Bad
  {
    hide EvalBody, RunN, FunctionCode, AcceptedArgs, SlotsAll, CanonicalFaithful, NonEmpty, Scope;
    var prog, s := FunctionCode(params, outer, body, l2), CallFrame(args, others, g);
    var m, o := CallAgrees(h, l2, params, outer, body, args, others, g, n);
    if RunN(h, prog, s, n) == Bad {
      if n <= m { Ended(h, prog, s, n, m); } else { Ended(h, prog, s, m, n); }
    }
  }
}
