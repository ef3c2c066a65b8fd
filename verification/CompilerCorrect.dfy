/** Running the compiled code of a form does what walking the form does. */
module CompilerCorrect {
  import opened Forms
  import opened TreeWalker
  import opened Machine
  import opened CodeGen
  import opened ScopeSlots

  // ---- frames and outcomes ----

  ghost predicate Match(h: Host, e: Env, sh: Shape, s: State) {
    Rel(e, sh, s.slots, {}) && GlobalsOf(e) == s.g && CanonicalFaithful(h, s.g)
  }

  /** The innermost loop's slots are reserved, and the handlers installed since its entry are
      on the handler stack. */
  predicate LoopOk(c: Ctx, s: State) {
    c.lp.Some? ==>
      && c.lp.value.tries <= c.tries && c.tries - c.lp.value.tries <= |s.handlers|
      && c.lp.value.base + c.lp.value.count <= |c.locals|
  }

  /** A frame in which code emitted under c may run: its slots hold the scopes and have room for
      the slots the form reserves. */
  ghost predicate Ready(h: Host, c: Ctx, sh: Shape, s: State, e: Env, room: nat) {
    && c.locals == Flat(sh) && |Flat(sh)| + room <= |s.slots|
    && Match(h, e, sh, s) && HandlersOk(s) && LoopOk(c, s)
  }

  predicate InLoop(c: Ctx, arity: Option<nat>) {
    arity.Some? ==> c.lp.Some? && c.lp.value.count == arity.value
  }

  function Stored(z: seq<Value>, base: nat, args: seq<Value>): seq<Value>
    requires base + |args| <= |z|
  {
    z[..base] + args + z[base + |args|..]
  }

  /** What a form's code does to the machine, given what the form does:
      a value is pushed at the end of the code; a throw unwinds from the same handlers; a recur
      arrives at the loop's start with its arguments stored and the handlers installed since
      then gone; a form that spends its fuel is still running after as many steps. In the other
      cases the slots hold the scopes the form left, and no root name is unbound. */
  ghost predicate Lands(h: Host, prog: seq<Instr>, c: Ctx, sh: Shape, s: State, r: Res, end: nat,
                        n: nat, t: State, z: seq<Value>)
  {
    && (!r.OutOfFuel? ==> |t.slots| == |s.slots| && s.g.vars.Keys <= t.g.vars.Keys)
    && match r
       case OutOfFuel(m) => RunN(h, prog, s, n) == At(t) && n >= m
       case Val(v, e) =>
         && RunN(h, prog, s, n) == At(t)
         && t == s.(ip := end, ops := s.ops + [v], slots := t.slots, g := t.g)
         && Match(h, e, sh, t)
       case Thrown(w, e) =>
         && RunN(h, prog, s, n) == ThrowTo(t, w)
         && t == s.(slots := t.slots, g := t.g)
         && Match(h, e, sh, t)
       case Again(args, e) =>
         && c.lp.Some? && LoopOk(c, s)
         && var lp := c.lp.value;
         && RunN(h, prog, s, n) == At(t) && n > 0
         && t == s.(ip := lp.start, handlers := s.handlers[..|s.handlers| - (c.tries - lp.tries)], slots := t.slots,
             g := t.g)
         && |args| == lp.count && |z| == |s.slots| && lp.base + lp.count <= |z|
         && t.slots == Stored(z, lp.base, args)
         && Match(h, e, sh, t.(slots := z))
  }

  lemma {:induction false} SameThrow(s: State, t: State, w: Value)
    requires t.handlers == s.handlers && t.slots == s.slots && t.g == s.g
    requires s.ops <= t.ops && s.freeze <= t.freeze && HandlersOk(s)
    ensures ThrowTo(t, w) == ThrowTo(s, w)
  {
    if s.handlers != [] {
      var hd := s.handlers[|s.handlers| - 1];
      assert t.ops[..hd.ops] == s.ops[..hd.ops];
      assert t.freeze[..hd.freeze] == s.freeze[..hd.freeze];
    }
  }

  /** s1 is reached from s with the same operands, handlers and freezes. */
  ghost predicate Cont(h: Host, prog: seq<Instr>, s: State, n: nat, s1: State) {
    && RunN(h, prog, s, n) == At(s1)
    && s1 == s.(ip := s1.ip, slots := s1.slots, g := s1.g) && |s1.slots| == |s.slots|
    && s.g.vars.Keys <= s1.g.vars.Keys
  }

  lemma {:induction false} Less(h: Host, c: Ctx, sh: Shape, s: State, e: Env, room: nat, room': nat)
    requires Ready(h, c, sh, s, e, room) && room' <= room
    ensures Ready(h, c, sh, s, e, room')
  {
    hide Rel;
  }

  lemma {:induction false} Resume(h: Host, prog: seq<Instr>, c: Ctx, sh: Shape, s: State, e: Env, room: nat, a: nat,
      s1: State,
                                  r: Res, end: nat, b: nat, t1: State, z: seq<Value>) returns (n: nat, t: State)
    requires Ready(h, c, sh, s, e, room)
    requires Cont(h, prog, s, a, s1) && Lands(h, prog, c, sh, s1, r, end, b, t1, z)
    ensures Lands(h, prog, c, sh, s, r, end, n, t, z)
  {
    hide Rel; hide RunN;
    RunAppend(h, prog, s, a, s1, b);
    n := a + b;
    t := if r.Thrown? then s.(slots := t1.slots, g := t1.g) else t1;
    if r.Thrown? { SameThrow(t, t1, r.w); }
  }

  /** s1 is reached from s with vs pushed above its operands. */
  ghost predicate Ahead(h: Host, prog: seq<Instr>, s: State, n: nat, s1: State, vs: seq<Value>) {
    && RunN(h, prog, s, n) == At(s1)
    && s1 == s.(ip := s1.ip, ops := s.ops + vs, slots := s1.slots, g := s1.g) && |s1.slots| == |s.slots|
    && s.g.vars.Keys <= s1.g.vars.Keys
  }

  /** A throw from above the operands of s is a throw from s. */
  lemma {:induction false} Unwind(h: Host, prog: seq<Instr>, c: Ctx, sh: Shape, s: State, e: Env, room: nat, a: nat,
      s1: State,
                                  vs: seq<Value>, r: Res, end1: nat, end: nat, b: nat, t1: State,
                                      z: seq<Value>) returns (n: nat, t: State)
    requires Ready(h, c, sh, s, e, room) && Ahead(h, prog, s, a, s1, vs)
    requires !r.Val? && !r.Again? && Lands(h, prog, c, sh, s1, r, end1, b, t1, z)
    ensures Lands(h, prog, c, sh, s, r, end, n, t, z)
  {
    hide Rel, RunN;
    RunAppend(h, prog, s, a, s1, b);
    n, t := a + b, t1;
    if r.Thrown? {
      t := s.(slots := t1.slots, g := t1.g);
      SameThrow(t, t1, r.w);
    }
  }

  /** After a value: the frame is ready with the value pushed. */
  lemma {:induction false} Pushed(h: Host, prog: seq<Instr>, c: Ctx, sh: Shape, s: State, e: Env, room: nat, r: Res,
      end: nat,
                                  n: nat, t: State, z: seq<Value>)
    requires Ready(h, c, sh, s, e, room) && r.Val? && Lands(h, prog, c, sh, s, r, end, n, t, z)
    ensures Ahead(h, prog, s, n, t, [r.v]) && Ready(h, c, sh, t, r.e, room) && t.ip == end
  {
    hide Rel, RunN;
  }

  /** An outcome other than a value ends the enclosing form too. */
  lemma {:induction false} Stops(h: Host, prog: seq<Instr>, c: Ctx, sh: Shape, s: State, r: Res, end: nat, end': nat,
                                 n: nat, t: State, z: seq<Value>) returns (n': nat, t': State)
    requires !r.Val? && Lands(h, prog, c, sh, s, r, end, n, t, z)
    ensures Lands(h, prog, c, sh, s, r, end', n', t', z)
  {
    hide Rel, RunN;
    n', t' := n, t;
  }

  // ---- straight-line pieces ----

  lemma {:induction false} Simple(h: Host, prog: seq<Instr>, c: Ctx, sh: Shape, s: State, r: Res, i: Instr)
    returns (n: nat, t: State, z: seq<Value>)
    requires CodeAt(prog, s.ip, [i])
    requires r.Val? ==> Match(h, r.e, sh, s) && Exec(h, s, i) == Advance(s, s.ops + [r.v])
    requires r.Thrown? ==> Match(h, r.e, sh, s) && Exec(h, s, i) == ThrowTo(s, r.w)
    requires r.Val? || r.Thrown?
    ensures Lands(h, prog, c, sh, s, r, s.ip + 1, n, t, z)
  {
    hide Rel;
    RunOne(h, prog, s, i);
    n, t, z := 1, if r.Val? then Advance(s, s.ops + [r.v]).s else s, [];
  }

  lemma {:induction false} PushesNil(h: Host, prog: seq<Instr>, c: Ctx, sh: Shape, s: State, e: Env, room: nat)
    returns (n: nat, t: State, z: seq<Value>)
    requires Ready(h, c, sh, s, e, room) && CodeAt(prog, s.ip, [PushNil])
    ensures Lands(h, prog, c, sh, s, Val(Nil, e), s.ip + 1, n, t, z)
  {
    hide Rel;
    n, t, z := Simple(h, prog, c, sh, s, Val(Nil, e), PushNil);
  }

  lemma {:induction false} SplitBranch(prog: seq<Instr>, pc: nat, t: seq<Instr>, i: Instr, a: seq<Instr>, j: Instr,
      b: seq<Instr>)
    requires CodeAt(prog, pc, t + [i] + a + [j] + b)
    ensures CodeAt(prog, pc, t) && CodeAt(prog, pc + |t|, [i]) && CodeAt(prog, pc + |t| + 1, a)
    ensures CodeAt(prog, pc + |t| + |a| + 1, [j]) && CodeAt(prog, pc + |t| + |a| + 2, b)
    ensures |t + [i] + a + [j] + b| == |t| + |a| + |b| + 2
  {
    Split(prog, pc, t + [i] + a + [j], b);
    Split(prog, pc, t + [i] + a, [j]);
    Split(prog, pc, t + [i], a);
    Split(prog, pc, t, [i]);
  }

  lemma {:induction false} SplitMiddle(prog: seq<Instr>, pc: nat, a: seq<Instr>, b: seq<Instr>, d: seq<Instr>)
    requires CodeAt(prog, pc, a + b + d)
    ensures CodeAt(prog, pc, a) && CodeAt(prog, pc + |a|, b) && CodeAt(prog, pc + |a| + |b|, d)
    ensures |a + b + d| == |a| + |b| + |d|
  {
    Split(prog, pc, a + b, d);
    Split(prog, pc, a, b);
  }

  /** A test has been evaluated to r.v: the jump goes to the next instruction or past off more. */
  lemma {:induction false} Tested(h: Host, prog: seq<Instr>, c: Ctx, sh: Shape, s: State, e: Env, room: nat, r: Res,
      end: nat,
                                  n: nat, t: State, z: seq<Value>, off: nat) returns (s1: State)
    requires Ready(h, c, sh, s, e, room) && r.Val? && Lands(h, prog, c, sh, s, r, end, n, t, z)
    requires CodeAt(prog, end, [JumpIfFalse(off)])
    ensures Cont(h, prog, s, n + 1, s1) && Ready(h, c, sh, s1, r.e, room)
    ensures s1.ip == end + 1 + (if Truthy(r.v) then 0 else off)
  {
    hide Rel, RunN;
    RunOne(h, prog, t, JumpIfFalse(off));
    RunAppend(h, prog, s, n, t, 1);
    assert t.ops[..|t.ops| - 1] == s.ops;
    s1 := t.(ip := t.ip + 1 + (if Truthy(r.v) then 0 else off), ops := s.ops);
  }

  /** A value that is dropped. */
  lemma {:induction false} Dropped(h: Host, prog: seq<Instr>, c: Ctx, sh: Shape, s: State, e: Env, room: nat, r: Res,
      end: nat,
                                   n: nat, t: State, z: seq<Value>) returns (s1: State)
    requires Ready(h, c, sh, s, e, room) && r.Val? && Lands(h, prog, c, sh, s, r, end, n, t, z)
    requires CodeAt(prog, end, [Pop])
    ensures Cont(h, prog, s, n + 1, s1) && Ready(h, c, sh, s1, r.e, room) && s1.ip == end + 1
  {
    hide Rel, RunN;
    RunOne(h, prog, t, Pop);
    RunAppend(h, prog, s, n, t, 1);
    assert t.ops[..|t.ops| - 1] == s.ops;
    s1 := t.(ip := t.ip + 1, ops := s.ops);
  }

  /** A value stored in slot i and dropped. */
  lemma {:induction false} Store(h: Host, prog: seq<Instr>, s: State, ops: seq<Value>, v: Value,
      i: nat) returns (s1: State)
    requires s.ops == ops + [v] && i < |s.slots| && CodeAt(prog, s.ip, [SetLocal(i), Pop])
    ensures RunN(h, prog, s, 2) == At(s1)
    ensures s1 == s.(ip := s.ip + 2, ops := ops, slots := s.slots[i := v])
  {
    Split(prog, s.ip, [SetLocal(i)], [Pop]);
    RunOne(h, prog, s, SetLocal(i));
    var m := s.(ip := s.ip + 1, slots := s.slots[i := v]);
    RunOne(h, prog, m, Pop);
    hide RunN;
    RunAppend(h, prog, s, 1, m, 1);
    s1 := m.(ip := m.ip + 1, ops := ops);
    assert m.ops[..|m.ops| - 1] == ops;
  }

  /** A branch that ends by jumping off instructions ahead. */
  lemma {:induction false} JumpsOut(h: Host, prog: seq<Instr>, c: Ctx, sh: Shape, s: State, r: Res, end: nat, off: nat,
                                    n: nat, t: State, z: seq<Value>) returns (n': nat, t': State)
    requires Lands(h, prog, c, sh, s, r, end, n, t, z)
    requires CodeAt(prog, end, [Jump(off)])
    ensures Lands(h, prog, c, sh, s, r, end + 1 + off, n', t', z)
  {
    hide Rel, RunN;
    n', t' := n, t;
    if r.Val? {
      RunOne(h, prog, t, Jump(off));
      RunAppend(h, prog, s, n, t, 1);
      n', t' := n + 1, t.(ip := end + 1 + off);
    }
  }

  /** The scope opened for a body is left with its outcome. */
  lemma {:induction false} LeavesScope(h: Host, prog: seq<Instr>, c: Ctx, c1: Ctx, sh: Shape, sh1: Shape, s: State,
      r: Res, end: nat,
                                       n: nat, t: State, z: seq<Value>)
    requires Lands(h, prog, c1, sh1, s, r, end, n, t, z) && Within(sh1, sh)
    requires r.Again? ==> c1.lp == c.lp && c1.tries == c.tries && |c1.locals| >= |c.locals|
    requires LoopOk(c, s)
    ensures !r.OutOfFuel? ==> r.e.Child?
    ensures Lands(h, prog, c, sh, s, Leave(r), end, n, t, z)
  {
    hide RunN;
    if !r.OutOfFuel? {
      Leaves(r.e, sh1, if r.Again? then z else t.slots, {}, sh);
    }
  }

  // ---- conditionals ----

  lemma {:induction false} UnfoldIfEval(h: Host, f: Form, c: Ctx, e: Env, k: nat)
    requires f.If?
    ensures var r := Eval(h, c.lisp2, f.test, e, k);
            Eval(h, c.lisp2, f, e, k) ==
              if !r.Val? then r
              else if Truthy(r.v) then Eval(h, c.lisp2, f.thn, r.e, k)
              else (match f.els case Some(f2) => Eval(h, c.lisp2, f2, r.e, k) case None => Val(Nil, r.e))
  {
    hide EvalAnd, EvalOr, EvalBody, EvalClauses, EvalBinds, EvalInits, EvalArgs, Iterate;
  }

  lemma {:induction false} UnfoldIf(h: Host, f: Form, c: Ctx, pc: nat, e: Env, k: nat, arity: Option<nat>)
    requires f.If? && Accepted(f, arity)
    ensures InLoop(c, None) && Accepted(f.test, None) && Accepted(f.thn, arity)
    ensures f.els.Some? ==> Accepted(f.els.value, arity)
    ensures Slots(f) == Slots(f.test) + Slots(f.thn) + (match f.els case Some(f2) => Slots(f2) case None => 0)
    ensures var t := Gen(f.test, c, pc);
            var a := Gen(f.thn, c, pc + |t| + 1);
            var b := (match f.els case Some(f2) => Gen(f2, c, pc + |t| + |a| + 2) case None => [PushNil]);
            Gen(f, c, pc) == t + [JumpIfFalse(|a| + 1)] + a + [Jump(|b|)] + b
    ensures var r := Eval(h, c.lisp2, f.test, e, k);
            Eval(h, c.lisp2, f, e, k) ==
              if !r.Val? then r
              else if Truthy(r.v) then Eval(h, c.lisp2, f.thn, r.e, k)
              else (match f.els case Some(f2) => Eval(h, c.lisp2, f2, r.e, k) case None => Val(Nil, r.e))
  {
    hide Gen, Eval;
    OfIf(f, c, pc);
    UnfoldIfEval(h, f, c, e, k);
  }

  lemma {:induction false} CorrectIf(h: Host, prog: seq<Instr>, f: Form, c: Ctx, sh: Shape, s: State, e: Env, k: nat,
      arity: Option<nat>)
    returns (n: nat, t: State, z: seq<Value>)
    requires f.If? && CodeAt(prog, s.ip, Gen(f, c, s.ip))
    requires Ready(h, c, sh, s, e, Slots(f)) && Accepted(f, arity) && InLoop(c, arity)
    ensures Lands(h, prog, c, sh, s, Eval(h, c.lisp2, f, e, k), s.ip + |Gen(f, c, s.ip)|, n, t, z)
    ensures arity.None? ==> !Eval(h, c.lisp2, f, e, k).Again?
    decreases k, f, 0
  {
    hide *;
    UnfoldIf(h, f, c, s.ip, e, k, arity);
    var pc := s.ip;
    var ct := Gen(f.test, c, pc);
    var ca := Gen(f.thn, c, pc + |ct| + 1);
    var cb := (match f.els case Some(f2) => Gen(f2, c, pc + |ct| + |ca| + 2) case None => [PushNil]);
    SplitBranch(prog, pc, ct, JumpIfFalse(|ca| + 1), ca, Jump(|cb|), cb);
    var end := pc + |ct| + |ca| + |cb| + 2;
    var r0 := Eval(h, c.lisp2, f.test, e, k);
    Less(h, c, sh, s, e, Slots(f), Slots(f.test));
    n, t, z := Correct(h, prog, f.test, c, sh, s, e, k, None);
    if !r0.Val? {
      n, t := Stops(h, prog, c, sh, s, r0, pc + |ct|, end, n, t, z);
    } else {
      var s1 := Tested(h, prog, c, sh, s, e, Slots(f), r0, pc + |ct|, n, t, z, |ca| + 1);
      var r, n1, t1 := Val(Nil, r0.e), 1, s1;
      if Truthy(r0.v) {
        r := Eval(h, c.lisp2, f.thn, r0.e, k);
        Less(h, c, sh, s1, r0.e, Slots(f), Slots(f.thn));
        n1, t1, z := Correct(h, prog, f.thn, c, sh, s1, r0.e, k, arity);
        n1, t1 := JumpsOut(h, prog, c, sh, s1, r, pc + |ct| + 1 + |ca|, |cb|, n1, t1, z);
      } else if f.els.Some? {
        r := Eval(h, c.lisp2, f.els.value, r0.e, k);
        Less(h, c, sh, s1, r0.e, Slots(f), Slots(f.els.value));
        n1, t1, z := Correct(h, prog, f.els.value, c, sh, s1, r0.e, k, arity);
      } else {
        n1, t1, z := PushesNil(h, prog, c, sh, s1, r0.e, Slots(f));
      }
      n, t := Resume(h, prog, c, sh, s, e, Slots(f), n + 1, s1, r, end, n1, t1, z);
    }
  }

  lemma {:induction false} UnfoldWhenEval(h: Host, f: Form, c: Ctx, e: Env, k: nat)
    requires f.When?
    ensures var r := Eval(h, c.lisp2, f.test, e, k);
            Eval(h, c.lisp2, f, e, k) ==
              if !r.Val? then r else if Truthy(r.v) then EvalBody(h, c.lisp2, f.body, r.e, k) else Val(Nil, r.e)
  {
    hide EvalAnd, EvalOr, EvalBody, EvalClauses, EvalBinds, EvalInits, EvalArgs, Iterate;
  }

  lemma {:induction false} UnfoldWhen(h: Host, f: Form, c: Ctx, pc: nat, e: Env, k: nat, arity: Option<nat>)
    requires f.When? && Accepted(f, arity)
    ensures InLoop(c, None) && Accepted(f.test, None) && AcceptedBody(f.body, arity)
    ensures Slots(f) == Slots(f.test) + SlotsAll(f.body)
    ensures var t := Gen(f.test, c, pc);
            var a := GenBody(f.body, c, pc + |t| + 1);
            Gen(f, c, pc) == t + [JumpIfFalse(|a| + 1)] + a + [Jump(1)] + [PushNil]
    ensures var r := Eval(h, c.lisp2, f.test, e, k);
            Eval(h, c.lisp2, f, e, k) ==
              if !r.Val? then r else if Truthy(r.v) then EvalBody(h, c.lisp2, f.body, r.e, k) else Val(Nil, r.e)
  {
    hide Gen, Eval;
    OfWhen(f, c, pc);
    UnfoldWhenEval(h, f, c, e, k);
  }

  lemma {:induction false} CorrectWhen(h: Host, prog: seq<Instr>, f: Form, c: Ctx, sh: Shape, s: State, e: Env, k: nat,
      arity: Option<nat>)
    returns (n: nat, t: State, z: seq<Value>)
    requires f.When? && CodeAt(prog, s.ip, Gen(f, c, s.ip))
    requires Ready(h, c, sh, s, e, Slots(f)) && Accepted(f, arity) && InLoop(c, arity)
    ensures Lands(h, prog, c, sh, s, Eval(h, c.lisp2, f, e, k), s.ip + |Gen(f, c, s.ip)|, n, t, z)
    ensures arity.None? ==> !Eval(h, c.lisp2, f, e, k).Again?
    decreases k, f, 0
  {
    hide *;
    UnfoldWhen(h, f, c, s.ip, e, k, arity);
    var pc := s.ip;
    var ct := Gen(f.test, c, pc);
    var ca := GenBody(f.body, c, pc + |ct| + 1);
    SplitBranch(prog, pc, ct, JumpIfFalse(|ca| + 1), ca, Jump(1), [PushNil]);
    var end := pc + |ct| + |ca| + 3;
    var r0 := Eval(h, c.lisp2, f.test, e, k);
    Less(h, c, sh, s, e, Slots(f), Slots(f.test));
    n, t, z := Correct(h, prog, f.test, c, sh, s, e, k, None);
    if !r0.Val? {
      n, t := Stops(h, prog, c, sh, s, r0, pc + |ct|, end, n, t, z);
    } else {
      var s1 := Tested(h, prog, c, sh, s, e, Slots(f), r0, pc + |ct|, n, t, z, |ca| + 1);
      var r, n1, t1 := Val(Nil, r0.e), 1, s1;
      if Truthy(r0.v) {
        r := EvalBody(h, c.lisp2, f.body, r0.e, k);
        Less(h, c, sh, s1, r0.e, Slots(f), SlotsAll(f.body));
        n1, t1, z := CorrectBody(h, prog, f.body, c, sh, s1, r0.e, k, arity);
        n1, t1 := JumpsOut(h, prog, c, sh, s1, r, pc + |ct| + 1 + |ca|, 1, n1, t1, z);
      } else {
        n1, t1, z := PushesNil(h, prog, c, sh, s1, r0.e, Slots(f));
      }
      n, t := Resume(h, prog, c, sh, s, e, Slots(f), n + 1, s1, r, end, n1, t1, z);
    }
  }

  lemma {:induction false} UnfoldClauses(h: Host, cs: Clauses, c: Ctx, pc: nat, e: Env, k: nat, arity: Option<nat>)
    requires AcceptedClauses(cs, arity)
    ensures InLoop(c, None)
    ensures cs.NoClauses? ==> GenClauses(cs, c, pc) == [PushNil] && EvalClauses(h, c.lisp2, cs, e, k) == Val(Nil, e)
    ensures cs.Clause? ==> AcceptedBody(cs.body, arity)
    ensures cs.Clause? && IsElse(cs.test) ==>
      && GenClauses(cs, c, pc) == GenBody(cs.body, c, pc) && SlotsClauses(cs) == SlotsAll(cs.body)
      && EvalClauses(h, c.lisp2, cs, e, k) == EvalBody(h, c.lisp2, cs.body, e, k)
    ensures cs.Clause? && !IsElse(cs.test) ==>
      && Accepted(cs.test, None) && AcceptedClauses(cs.rest, arity)
      && SlotsClauses(cs) == Slots(cs.test) + SlotsAll(cs.body) + SlotsClauses(cs.rest)
      && (var t := Gen(cs.test, c, pc);
          var a := GenBody(cs.body, c, pc + |t| + 1);
          var b := GenClauses(cs.rest, c, pc + |t| + |a| + 2);
          GenClauses(cs, c, pc) == t + [JumpIfFalse(|a| + 1)] + a + [Jump(|b|)] + b)
      && (var r := Eval(h, c.lisp2, cs.test, e, k);
          EvalClauses(h, c.lisp2, cs, e, k) ==
            if !r.Val? then r
            else if Truthy(r.v) then EvalBody(h, c.lisp2, cs.body, r.e, k)
            else EvalClauses(h, c.lisp2, cs.rest, r.e, k))
  {
    hide Gen, Eval, Accepted, Slots;
  }

  lemma {:induction false} CorrectClauses(h: Host, prog: seq<Instr>, cs: Clauses, c: Ctx, sh: Shape, s: State, e: Env,
      k: nat, arity: Option<nat>)
    returns (n: nat, t: State, z: seq<Value>)
    requires CodeAt(prog, s.ip, GenClauses(cs, c, s.ip))
    requires Ready(h, c, sh, s, e, SlotsClauses(cs)) && AcceptedClauses(cs, arity) && InLoop(c, arity)
    ensures Lands(h, prog, c, sh, s, EvalClauses(h, c.lisp2, cs, e, k), s.ip + |GenClauses(cs, c, s.ip)|, n, t, z)
    ensures arity.None? ==> !EvalClauses(h, c.lisp2, cs, e, k).Again?
    decreases k, cs, 0
  {
    hide *;
    var room := SlotsClauses(cs);
    UnfoldClauses(h, cs, c, s.ip, e, k, arity);
    if cs.NoClauses? {
      n, t, z := PushesNil(h, prog, c, sh, s, e, room);
    } else if IsElse(cs.test) {
      n, t, z := CorrectBody(h, prog, cs.body, c, sh, s, e, k, arity);
    } else {
      var pc := s.ip;
      var ct := Gen(cs.test, c, pc);
      var ca := GenBody(cs.body, c, pc + |ct| + 1);
      var cb := GenClauses(cs.rest, c, pc + |ct| + |ca| + 2);
      SplitBranch(prog, pc, ct, JumpIfFalse(|ca| + 1), ca, Jump(|cb|), cb);
      var end := pc + |ct| + |ca| + |cb| + 2;
      var r0 := Eval(h, c.lisp2, cs.test, e, k);
      Less(h, c, sh, s, e, room, Slots(cs.test));
      n, t, z := Correct(h, prog, cs.test, c, sh, s, e, k, None);
      if !r0.Val? {
        n, t := Stops(h, prog, c, sh, s, r0, pc + |ct|, end, n, t, z);
      } else {
        var s1 := Tested(h, prog, c, sh, s, e, room, r0, pc + |ct|, n, t, z, |ca| + 1);
        var r, n1, t1;
        if Truthy(r0.v) {
          r := EvalBody(h, c.lisp2, cs.body, r0.e, k);
          Less(h, c, sh, s1, r0.e, room, SlotsAll(cs.body));
          n1, t1, z := CorrectBody(h, prog, cs.body, c, sh, s1, r0.e, k, arity);
          n1, t1 := JumpsOut(h, prog, c, sh, s1, r, pc + |ct| + 1 + |ca|, |cb|, n1, t1, z);
        } else {
          r := EvalClauses(h, c.lisp2, cs.rest, r0.e, k);
          Less(h, c, sh, s1, r0.e, room, SlotsClauses(cs.rest));
          n1, t1, z := CorrectClauses(h, prog, cs.rest, c, sh, s1, r0.e, k, arity);
        }
        n, t := Resume(h, prog, c, sh, s, e, room, n + 1, s1, r, end, n1, t1, z);
      }
    }
  }

  lemma {:induction false} UnfoldNot(h: Host, f: Form, c: Ctx, pc: nat, e: Env, k: nat)
    requires f.Not? && Accepted(f, None)
    ensures InLoop(c, None) && Accepted(f.arg, None) && Slots(f) == Slots(f.arg)
    ensures Gen(f, c, pc) == Gen(f.arg, c, pc) + [JumpIfFalse(2)] + [PushFalse] + [Jump(1)] + [PushTrue]
    ensures var r := Eval(h, c.lisp2, f.arg, e, k);
            Eval(h, c.lisp2, f, e, k) == if r.Val? then Val(Bool(!Truthy(r.v)), r.e) else r
  {
  }

  lemma {:induction false} CorrectNot(h: Host, prog: seq<Instr>, f: Form, c: Ctx, sh: Shape, s: State, e: Env, k: nat)
    returns (n: nat, t: State, z: seq<Value>)
    requires f.Not? && CodeAt(prog, s.ip, Gen(f, c, s.ip))
    requires Ready(h, c, sh, s, e, Slots(f)) && Accepted(f, None)
    ensures Lands(h, prog, c, sh, s, Eval(h, c.lisp2, f, e, k), s.ip + |Gen(f, c, s.ip)|, n, t, z)
    ensures !Eval(h, c.lisp2, f, e, k).Again?
    decreases k, f, 0
  {
    hide *;
    UnfoldNot(h, f, c, s.ip, e, k);
    var pc := s.ip;
    var ct := Gen(f.arg, c, pc);
    SplitBranch(prog, pc, ct, JumpIfFalse(2), [PushFalse], Jump(1), [PushTrue]);
    var end := pc + |ct| + 4;
    var r0 := Eval(h, c.lisp2, f.arg, e, k);
    n, t, z := Correct(h, prog, f.arg, c, sh, s, e, k, None);
    if !r0.Val? {
      n, t := Stops(h, prog, c, sh, s, r0, pc + |ct|, end, n, t, z);
    } else {
      var s1 := Tested(h, prog, c, sh, s, e, Slots(f), r0, pc + |ct|, n, t, z, 2);
      var r := Val(Bool(!Truthy(r0.v)), r0.e);
      var n1, t1;
      n1, t1, z := PushesBool(h, prog, c, sh, s1, r0.e, Slots(f), !Truthy(r0.v));
      if Truthy(r0.v) {
        n1, t1 := JumpsOut(h, prog, c, sh, s1, r, pc + |ct| + 2, 1, n1, t1, z);
      }
      n, t := Resume(h, prog, c, sh, s, e, Slots(f), n + 1, s1, r, end, n1, t1, z);
    }
  }

  lemma {:induction false} PushesBool(h: Host, prog: seq<Instr>, c: Ctx, sh: Shape, s: State, e: Env, room: nat,
      b: bool)
    returns (n: nat, t: State, z: seq<Value>)
    requires Ready(h, c, sh, s, e, room) && CodeAt(prog, s.ip, [if b then PushTrue else PushFalse])
    ensures Lands(h, prog, c, sh, s, Val(Bool(b), e), s.ip + 1, n, t, z)
  {
    hide Rel;
    n, t, z := Simple(h, prog, c, sh, s, Val(Bool(b), e), if b then PushTrue else PushFalse);
  }

  // ---- and, or ----

  /** v has been pushed above s and is the result so far. */
  lemma {:induction false} Kept(h: Host, prog: seq<Instr>, c: Ctx, sh: Shape, s: State, n: nat, s1: State, v: Value,
      e: Env, room: nat)
    requires Ahead(h, prog, s, n, s1, [v]) && Ready(h, c, sh, s1, e, room)
    ensures Lands(h, prog, c, sh, s, Val(v, e), s1.ip, n, s1, [])
  {
    hide Rel, RunN;
  }

  /** Dup and JumpIfFalse on the result so far: either keep it and jump, or go on with it on top. */
  lemma {:induction false} Peeks(h: Host, prog: seq<Instr>, c: Ctx, sh: Shape, s: State, n: nat, s1: State, v: Value,
      e: Env, room: nat, off: nat)
    returns (s2: State)
    requires Ahead(h, prog, s, n, s1, [v]) && Ready(h, c, sh, s1, e, room)
    requires CodeAt(prog, s1.ip, [Dup, JumpIfFalse(off)])
    ensures Ahead(h, prog, s, n + 2, s2, [v]) && Ready(h, c, sh, s2, e, room)
    ensures s2.ip == s1.ip + 2 + (if Truthy(v) then 0 else off)
  {
    hide Rel, RunN, Exec;
    PeeksTop(h, prog, s1, v, off);
    s2 := s1.(ip := s1.ip + 2 + (if Truthy(v) then 0 else off));
    RunAppend(h, prog, s, n, s1, 2);
  }

  lemma {:induction false} PeeksTop(h: Host, prog: seq<Instr>, s: State, v: Value, off: nat)
    requires s.ops != [] && s.ops[|s.ops| - 1] == v && CodeAt(prog, s.ip, [Dup] + [JumpIfFalse(off)])
    ensures RunN(h, prog, s, 2) == At(s.(ip := s.ip + 2 + (if Truthy(v) then 0 else off)))
  {
    hide RunN;
    Split(prog, s.ip, [Dup], [JumpIfFalse(off)]);
    RunOne(h, prog, s, Dup);
    var m := s.(ip := s.ip + 1, ops := s.ops + [v]);
    RunOne(h, prog, m, JumpIfFalse(off));
    assert m.ops[..|m.ops| - 1] == s.ops;
    RunAppend(h, prog, s, 1, m, 1);
  }

  /** The result so far is dropped. */
  lemma {:induction false} PopsTop(h: Host, prog: seq<Instr>, c: Ctx, sh: Shape, s: State, e0: Env, room0: nat, n: nat,
      s1: State, v: Value, e: Env, room: nat)
    returns (s2: State)
    requires Ready(h, c, sh, s, e0, room0)
    requires Ahead(h, prog, s, n, s1, [v]) && Ready(h, c, sh, s1, e, room) && CodeAt(prog, s1.ip, [Pop])
    ensures Cont(h, prog, s, n + 1, s2) && Ready(h, c, sh, s2, e, room) && s2.ip == s1.ip + 1
  {
    hide Rel, RunN;
    RunOne(h, prog, s1, Pop);
    RunAppend(h, prog, s, n, s1, 1);
    assert s1.ops[..|s1.ops| - 1] == s.ops;
    s2 := s1.(ip := s1.ip + 1, ops := s.ops);
  }

  /** A jump over the rest. */
  lemma {:induction false} Skips(h: Host, prog: seq<Instr>, c: Ctx, sh: Shape, s: State, n: nat, s1: State, v: Value,
      e: Env, room: nat, off: nat)
    returns (s2: State)
    requires Ahead(h, prog, s, n, s1, [v]) && Ready(h, c, sh, s1, e, room) && CodeAt(prog, s1.ip, [Jump(off)])
    ensures Ahead(h, prog, s, n + 1, s2, [v]) && Ready(h, c, sh, s2, e, room) && s2.ip == s1.ip + 1 + off
  {
    hide Rel, RunN;
    RunOne(h, prog, s1, Jump(off));
    RunAppend(h, prog, s, n, s1, 1);
    s2 := s1.(ip := s1.ip + 1 + off);
  }

  function LastArity(rest: Forms, arity: Option<nat>): Option<nat> {
    if rest.End? then arity else None
  }

  lemma {:induction false} UnfoldAnd(h: Host, v: Value, args: Forms, c: Ctx, pc: nat, e: Env, k: nat,
      arity: Option<nat>)
    requires AcceptedBody(args, arity)
    ensures args.End? ==> GenAnd(args, c, pc) == [] && EvalAnd(h, c.lisp2, v, args, e, k) == Val(v, e)
    ensures args.Cons? ==>
      && SlotsAll(args) == Slots(args.head) + SlotsAll(args.tail) && AcceptedBody(args.tail, arity)
      && (var t := Gen(args.head, c, pc + 3);
          var b := GenAnd(args.tail, c, pc + 3 + |t|);
          GenAnd(args, c, pc) == [Dup, JumpIfFalse(1 + |t| + |b|)] + [Pop] + (t + b))
      && (var r := Eval(h, c.lisp2, args.head, e, k);
          EvalAnd(h, c.lisp2, v, args, e, k) ==
            if !Truthy(v) then Val(v, e) else if r.Val? then EvalAnd(h, c.lisp2, r.v, args.tail, r.e, k) else r)
  {
    hide Gen, Eval, Accepted, Slots;
  }

  lemma {:induction false} CorrectAnd(h: Host, prog: seq<Instr>, v: Value, args: Forms, c: Ctx, sh: Shape, s: State,
      e0: Env, room: nat,
                                      n0: nat, s1: State, e: Env, k: nat, arity: Option<nat>)
    returns (n: nat, t: State, z: seq<Value>)
    requires Ready(h, c, sh, s, e0, room) && Ahead(h, prog, s, n0, s1, [v])
    requires Ready(h, c, sh, s1, e, room) && SlotsAll(args) <= room
    requires CodeAt(prog, s1.ip, GenAnd(args, c, s1.ip)) && AcceptedBody(args, arity) && InLoop(c, arity)
    ensures Lands(h, prog, c, sh, s, EvalAnd(h, c.lisp2, v, args, e, k), s1.ip + |GenAnd(args, c, s1.ip)|, n, t, z)
    ensures arity.None? ==> !EvalAnd(h, c.lisp2, v, args, e, k).Again?
    decreases k, args, 0
  {
    hide *;
    UnfoldAnd(h, v, args, c, s1.ip, e, k, arity);
    if args.End? {
      n, t, z := n0, s1, [];
      Kept(h, prog, c, sh, s, n0, s1, v, e, room);
    } else {
      var pc := s1.ip;
      var ct := Gen(args.head, c, pc + 3);
      var cb := GenAnd(args.tail, c, pc + 3 + |ct|);
      var off := 1 + |ct| + |cb|;
      SplitMiddle(prog, pc, [Dup, JumpIfFalse(off)], [Pop], ct + cb);
      Split(prog, pc + 3, ct, cb);
      var s2 := Peeks(h, prog, c, sh, s, n0, s1, v, e, room, off);
      if !Truthy(v) {
        n, t, z := n0 + 2, s2, [];
        Kept(h, prog, c, sh, s, n0 + 2, s2, v, e, room);
      } else {
        var s3 := PopsTop(h, prog, c, sh, s, e0, room, n0 + 2, s2, v, e, room);
        n, t, z := CorrectRest(h, prog, args, c, sh, s, e0, room, n0 + 3, s3, e, k, arity, ct, cb);
        var r := Eval(h, c.lisp2, args.head, e, k);
        if r.Val? {
          Pushed(h, prog, c, sh, s, e0, room, r, s3.ip + |ct|, n, t, z);
          n, t, z := CorrectAnd(h, prog, r.v, args.tail, c, sh, s, e0, room, n, t, r.e, k, arity);
        } else {
          n, t := Stops(h, prog, c, sh, s, r, s3.ip + |ct|, pc + 3 + |ct| + |cb|, n, t, z);
        }
      }
    }
  }

  /** The next argument of and, or, reached with the operands of s. */
  lemma {:induction false} UnfoldLast(args: Forms, c: Ctx, arity: Option<nat>)
    requires args.Cons? && AcceptedBody(args, arity) && InLoop(c, arity)
    ensures Accepted(args.head, LastArity(args.tail, arity)) && InLoop(c, LastArity(args.tail, arity))
    ensures Slots(args.head) <= SlotsAll(args) && AcceptedBody(args.tail, arity)
    ensures LastArity(args.tail, arity) == if args.tail.End? then arity else None
  {
  }

  lemma {:induction false} CorrectRest(h: Host, prog: seq<Instr>, args: Forms, c: Ctx, sh: Shape, s: State, e0: Env,
      room: nat,
                                       n0: nat, s1: State, e: Env, k: nat, arity: Option<nat>, ct: seq<Instr>,
                                           cb: seq<Instr>)
    returns (n: nat, t: State, z: seq<Value>)
    requires args.Cons? && Ready(h, c, sh, s, e0, room) && Cont(h, prog, s, n0, s1)
    requires Ready(h, c, sh, s1, e, room) && SlotsAll(args) <= room
    requires ct == Gen(args.head, c, s1.ip) && CodeAt(prog, s1.ip, ct)
    requires AcceptedBody(args, arity) && InLoop(c, arity)
    ensures Lands(h, prog, c, sh, s, Eval(h, c.lisp2, args.head, e, k), s1.ip + |ct|, n, t, z)
    ensures arity.None? || args.tail.Cons? ==> !Eval(h, c.lisp2, args.head, e, k).Again?
    decreases k, args.head, 3
  {
    hide *;
    UnfoldLast(args, c, arity);
    Less(h, c, sh, s1, e, room, Slots(args.head));
    var n1, t1;
    n1, t1, z := Correct(h, prog, args.head, c, sh, s1, e, k, LastArity(args.tail, arity));
    n, t := Resume(h, prog, c, sh, s, e0, room, n0, s1, Eval(h, c.lisp2, args.head, e, k), s1.ip + |ct|, n1, t1, z);
  }

  lemma {:induction false} UnfoldOr(h: Host, v: Value, args: Forms, c: Ctx, pc: nat, e: Env, k: nat, arity: Option<nat>)
    requires AcceptedBody(args, arity)
    ensures args.End? ==> GenOr(args, c, pc) == [] && EvalOr(h, c.lisp2, v, args, e, k) == Val(v, e)
    ensures args.Cons? ==>
      && SlotsAll(args) == Slots(args.head) + SlotsAll(args.tail) && AcceptedBody(args.tail, arity)
      && (var t := Gen(args.head, c, pc + 4);
          var b := GenOr(args.tail, c, pc + 4 + |t|);
          GenOr(args, c, pc) == [Dup, JumpIfFalse(1)] + [Jump(1 + |t| + |b|)] + ([Pop] + t + b))
      && (var r := Eval(h, c.lisp2, args.head, e, k);
          EvalOr(h, c.lisp2, v, args, e, k) ==
            if Truthy(v) then Val(v, e) else if r.Val? then EvalOr(h, c.lisp2, r.v, args.tail, r.e, k) else r)
  {
    hide Gen, Eval, Accepted, Slots;
  }

  lemma {:induction false} CorrectOr(h: Host, prog: seq<Instr>, v: Value, args: Forms, c: Ctx, sh: Shape, s: State,
      e0: Env, room: nat,
                                     n0: nat, s1: State, e: Env, k: nat, arity: Option<nat>)
    returns (n: nat, t: State, z: seq<Value>)
    requires Ready(h, c, sh, s, e0, room) && Ahead(h, prog, s, n0, s1, [v])
    requires Ready(h, c, sh, s1, e, room) && SlotsAll(args) <= room
    requires CodeAt(prog, s1.ip, GenOr(args, c, s1.ip)) && AcceptedBody(args, arity) && InLoop(c, arity)
    ensures Lands(h, prog, c, sh, s, EvalOr(h, c.lisp2, v, args, e, k), s1.ip + |GenOr(args, c, s1.ip)|, n, t, z)
    ensures arity.None? ==> !EvalOr(h, c.lisp2, v, args, e, k).Again?
    decreases k, args, 0
  {
    hide *;
    UnfoldOr(h, v, args, c, s1.ip, e, k, arity);
    if args.End? {
      n, t, z := n0, s1, [];
      Kept(h, prog, c, sh, s, n0, s1, v, e, room);
    } else {
      var pc := s1.ip;
      var ct := Gen(args.head, c, pc + 4);
      var cb := GenOr(args.tail, c, pc + 4 + |ct|);
      var off := 1 + |ct| + |cb|;
      SplitMiddle(prog, pc, [Dup, JumpIfFalse(1)], [Jump(off)], [Pop] + ct + cb);
      SplitMiddle(prog, pc + 3, [Pop], ct, cb);
      var s2 := Peeks(h, prog, c, sh, s, n0, s1, v, e, room, 1);
      if Truthy(v) {
        s2 := Skips(h, prog, c, sh, s, n0 + 2, s2, v, e, room, off);
        n, t, z := n0 + 3, s2, [];
        Kept(h, prog, c, sh, s, n0 + 3, s2, v, e, room);
      } else {
        var s3 := PopsTop(h, prog, c, sh, s, e0, room, n0 + 2, s2, v, e, room);
        n, t, z := CorrectRest(h, prog, args, c, sh, s, e0, room, n0 + 3, s3, e, k, arity, ct, cb);
        var r := Eval(h, c.lisp2, args.head, e, k);
        if r.Val? {
          Pushed(h, prog, c, sh, s, e0, room, r, s3.ip + |ct|, n, t, z);
          n, t, z := CorrectOr(h, prog, r.v, args.tail, c, sh, s, e0, room, n, t, r.e, k, arity);
        } else {
          n, t := Stops(h, prog, c, sh, s, r, s3.ip + |ct|, pc + 4 + |ct| + |cb|, n, t, z);
        }
      }
    }
  }

  lemma {:induction false} UnfoldAndOr(h: Host, f: Form, c: Ctx, pc: nat, e: Env, k: nat, arity: Option<nat>)
    requires (f.And? || f.Or?) && Accepted(f, arity)
    ensures AcceptedBody(f.args, arity) && Slots(f) == SlotsAll(f.args)
    ensures f.args.Cons? ==> SlotsAll(f.args) == Slots(f.args.head) + SlotsAll(f.args.tail)
    ensures f.args.End? && f.And? ==> Gen(f, c, pc) == [PushTrue] && Eval(h, c.lisp2, f, e, k) == Val(Bool(true), e)
    ensures f.args.End? && f.Or? ==> Gen(f, c, pc) == [PushNil] && Eval(h, c.lisp2, f, e, k) == Val(Nil, e)
    ensures f.args.Cons? ==>
      && (var t := Gen(f.args.head, c, pc);
          Gen(f, c, pc) == t + if f.And? then GenAnd(f.args.tail, c, pc + |t|) else GenOr(f.args.tail, c, pc + |t|))
      && (var r := Eval(h, c.lisp2, f.args.head, e, k);
          Eval(h, c.lisp2, f, e, k) ==
            if !r.Val? then r
            else if f.And? then EvalAnd(h, c.lisp2, r.v, f.args.tail, r.e, k)
            else EvalOr(h, c.lisp2, r.v, f.args.tail, r.e, k))
  {
    hide GenAnd, GenOr, EvalAnd, EvalOr, GenBody, EvalBody, GenClauses, EvalClauses;
  }

  lemma {:induction false} CorrectAndOr(h: Host, prog: seq<Instr>, f: Form, c: Ctx, sh: Shape, s: State, e: Env, k: nat,
      arity: Option<nat>)
    returns (n: nat, t: State, z: seq<Value>)
    requires (f.And? || f.Or?) && CodeAt(prog, s.ip, Gen(f, c, s.ip))
    requires Ready(h, c, sh, s, e, Slots(f)) && Accepted(f, arity) && InLoop(c, arity)
    ensures Lands(h, prog, c, sh, s, Eval(h, c.lisp2, f, e, k), s.ip + |Gen(f, c, s.ip)|, n, t, z)
    ensures arity.None? ==> !Eval(h, c.lisp2, f, e, k).Again?
    decreases k, f, 0
  {
    hide *;
    UnfoldAndOr(h, f, c, s.ip, e, k, arity);
    var room, pc := Slots(f), s.ip;
    if f.args.End? {
      if f.And? {
        n, t, z := PushesBool(h, prog, c, sh, s, e, room, true);
      } else {
        n, t, z := PushesNil(h, prog, c, sh, s, e, room);
      }
    } else {
      var ct := Gen(f.args.head, c, pc);
      var cb := if f.And? then GenAnd(f.args.tail, c, pc + |ct|) else GenOr(f.args.tail, c, pc + |ct|);
      Split(prog, pc, ct, cb);
      var r := Eval(h, c.lisp2, f.args.head, e, k);
      UnfoldLast(f.args, c, arity);
      Less(h, c, sh, s, e, room, Slots(f.args.head));
      n, t, z := Correct(h, prog, f.args.head, c, sh, s, e, k, LastArity(f.args.tail, arity));
      if r.Val? {
        Pushed(h, prog, c, sh, s, e, room, r, pc + |ct|, n, t, z);
        if f.And? {
          n, t, z := CorrectAnd(h, prog, r.v, f.args.tail, c, sh, s, e, room, n, t, r.e, k, arity);
        } else {
          n, t, z := CorrectOr(h, prog, r.v, f.args.tail, c, sh, s, e, room, n, t, r.e, k, arity);
        }
      } else {
        n, t := Stops(h, prog, c, sh, s, r, pc + |ct|, pc + |ct| + |cb|, n, t, z);
      }
    }
  }

  // ---- bodies ----

  lemma {:induction false} UnfoldBody(h: Host, fs: Forms, c: Ctx, pc: nat, e: Env, k: nat, arity: Option<nat>)
    requires AcceptedBody(fs, arity)
    ensures InLoop(c, None)
    ensures fs.End? ==> GenBody(fs, c, pc) == [PushNil] && EvalBody(h, c.lisp2, fs, e, k) == Val(Nil, e)
    ensures fs.Cons? ==> SlotsAll(fs) == Slots(fs.head) + SlotsAll(fs.tail)
    ensures fs.Cons? && fs.tail.End? ==>
      && Accepted(fs.head, arity) && SlotsAll(fs) == Slots(fs.head)
      && GenBody(fs, c, pc) == Gen(fs.head, c, pc)
      && EvalBody(h, c.lisp2, fs, e, k) == Eval(h, c.lisp2, fs.head, e, k)
    ensures fs.Cons? && fs.tail.Cons? ==>
      && Accepted(fs.head, None) && AcceptedBody(fs.tail, arity)
      && (var t := Gen(fs.head, c, pc);
          GenBody(fs, c, pc) == t + [Pop] + GenBody(fs.tail, c, pc + |t| + 1))
      && (var r := Eval(h, c.lisp2, fs.head, e, k);
          EvalBody(h, c.lisp2, fs, e, k) == if r.Val? then EvalBody(h, c.lisp2, fs.tail, r.e, k) else r)
  {
    hide Gen, Eval, Accepted, Slots;
  }

  lemma {:induction false} CorrectBody(h: Host, prog: seq<Instr>, fs: Forms, c: Ctx, sh: Shape, s: State, e: Env,
      k: nat, arity: Option<nat>)
    returns (n: nat, t: State, z: seq<Value>)
    requires CodeAt(prog, s.ip, GenBody(fs, c, s.ip))
    requires Ready(h, c, sh, s, e, SlotsAll(fs)) && AcceptedBody(fs, arity) && InLoop(c, arity)
    ensures Lands(h, prog, c, sh, s, EvalBody(h, c.lisp2, fs, e, k), s.ip + |GenBody(fs, c, s.ip)|, n, t, z)
    ensures arity.None? ==> !EvalBody(h, c.lisp2, fs, e, k).Again?
    decreases k, fs, 0
  {
    hide *;
    UnfoldBody(h, fs, c, s.ip, e, k, arity);
    var room := SlotsAll(fs);
    if fs.End? {
      n, t, z := PushesNil(h, prog, c, sh, s, e, room);
    } else if fs.tail.End? {
      n, t, z := Correct(h, prog, fs.head, c, sh, s, e, k, arity);
    } else {
      var pc := s.ip;
      var ct := Gen(fs.head, c, pc);
      var cb := GenBody(fs.tail, c, pc + |ct| + 1);
      SplitMiddle(prog, pc, ct, [Pop], cb);
      var r := Eval(h, c.lisp2, fs.head, e, k);
      Less(h, c, sh, s, e, room, Slots(fs.head));
      n, t, z := Correct(h, prog, fs.head, c, sh, s, e, k, None);
      if r.Val? {
        var s1 := Dropped(h, prog, c, sh, s, e, room, r, pc + |ct|, n, t, z);
        Less(h, c, sh, s1, r.e, room, SlotsAll(fs.tail));
        var n1, t1;
        n1, t1, z := CorrectBody(h, prog, fs.tail, c, sh, s1, r.e, k, arity);
        n, t := Resume(h, prog, c, sh, s, e, room, n + 1, s1, EvalBody(h, c.lisp2, fs.tail, r.e, k),
            pc + |ct| + 1 + |cb|, n1, t1, z);
      } else {
        n, t := Stops(h, prog, c, sh, s, r, pc + |ct|, pc + |ct| + 1 + |cb|, n, t, z);
      }
    }
  }

  // ---- arguments and calls ----

  ghost predicate LandsArgs(h: Host, prog: seq<Instr>, c: Ctx, sh: Shape, s: State, r: ArgsRes, end: nat, n: nat,
      t: State, z: seq<Value>) {
    match r
    case Vals(vs, e) => Ahead(h, prog, s, n, t, vs) && Match(h, e, sh, t) && t.ip == end
    case Stop(r1) => !r1.Val? && !r1.Again? && Lands(h, prog, c, sh, s, r1, end, n, t, z)
  }

  lemma {:induction false} UnfoldArgs(h: Host, fs: Forms, c: Ctx, pc: nat, e: Env, k: nat)
    requires AcceptedArgs(fs)
    ensures InLoop(c, None)
    ensures fs.End? ==> GenArgs(fs, c, pc) == [] && EvalArgs(h, c.lisp2, fs, e, k) == Vals([], e)
    ensures fs.Cons? ==>
      && Accepted(fs.head, None) && AcceptedArgs(fs.tail) && SlotsAll(fs) == Slots(fs.head) + SlotsAll(fs.tail)
      && (var t := Gen(fs.head, c, pc);
          GenArgs(fs, c, pc) == t + GenArgs(fs.tail, c, pc + |t|))
      && (var r := Eval(h, c.lisp2, fs.head, e, k);
          EvalArgs(h, c.lisp2, fs, e, k) ==
            if !r.Val? then Stop(r)
            else match EvalArgs(h, c.lisp2, fs.tail, r.e, k)
                 case Vals(vs, e2) => Vals([r.v] + vs, e2)
                 case Stop(r1) => Stop(r1))
  {
    hide Gen, Eval, Accepted, Slots;
  }

  lemma {:induction false} NoArgs(h: Host, prog: seq<Instr>, c: Ctx, sh: Shape, s: State, e: Env, room: nat)
    requires Ready(h, c, sh, s, e, room)
    ensures LandsArgs(h, prog, c, sh, s, Vals([], e), s.ip, 0, s, [])
  {
    hide Rel;
    assert s.ops + [] == s.ops;
  }

  /** An argument on top of s, the rest on top of it. */
  lemma {:induction false} MoreArgs(h: Host, prog: seq<Instr>, c: Ctx, sh: Shape, s: State, e: Env, room: nat, n0: nat,
      s1: State, v: Value,
                                    r: ArgsRes, end: nat, n1: nat, t1: State, z: seq<Value>) returns (n: nat, t: State)
    requires Ready(h, c, sh, s, e, room) && Ahead(h, prog, s, n0, s1, [v])
    requires LandsArgs(h, prog, c, sh, s1, r, end, n1, t1, z)
    ensures LandsArgs(h, prog, c, sh, s, match r case Vals(vs, e2) => Vals([v] + vs, e2)
        case Stop(r1) => Stop(r1), end, n, t, z)
  {
    hide Rel, RunN, Lands, Ready;
    match r
    case Vals(vs, e2) =>
      RunAppend(h, prog, s, n0, s1, n1);
      assert s.ops + [v] + vs == s.ops + ([v] + vs);
      n, t := n0 + n1, t1;
    case Stop(r1) =>
      n, t := Unwind(h, prog, c, sh, s, e, room, n0, s1, [v], r1, end, end, n1, t1, z);
  }

  lemma {:induction false} StopArgs(h: Host, prog: seq<Instr>, c: Ctx, sh: Shape, s: State, r: Res, end: nat, n: nat,
      t: State, z: seq<Value>)
    requires Lands(h, prog, c, sh, s, r, end, n, t, z) && !r.Val? && !r.Again?
    ensures LandsArgs(h, prog, c, sh, s, Stop(r), end, n, t, z)
  {
    hide Lands;
  }

  lemma {:induction false} CorrectArgs(h: Host, prog: seq<Instr>, fs: Forms, c: Ctx, sh: Shape, s: State, e: Env,
      k: nat)
    returns (n: nat, t: State, z: seq<Value>)
    requires CodeAt(prog, s.ip, GenArgs(fs, c, s.ip))
    requires Ready(h, c, sh, s, e, SlotsAll(fs)) && AcceptedArgs(fs)
    ensures LandsArgs(h, prog, c, sh, s, EvalArgs(h, c.lisp2, fs, e, k), s.ip + |GenArgs(fs, c, s.ip)|, n, t, z)
    decreases k, fs, 0
  {
    hide *;
    var room, pc := SlotsAll(fs), s.ip;
    UnfoldArgs(h, fs, c, pc, e, k);
    if fs.End? {
      NoArgs(h, prog, c, sh, s, e, room);
      n, t, z := 0, s, [];
    } else {
      var ct := Gen(fs.head, c, pc);
      var cb := GenArgs(fs.tail, c, pc + |ct|);
      Split(prog, pc, ct, cb);
      var r := Eval(h, c.lisp2, fs.head, e, k);
      Less(h, c, sh, s, e, room, Slots(fs.head));
      n, t, z := Correct(h, prog, fs.head, c, sh, s, e, k, None);
      if r.Val? {
        Pushed(h, prog, c, sh, s, e, room, r, pc + |ct|, n, t, z);
        var r1 := EvalArgs(h, c.lisp2, fs.tail, r.e, k);
        Less(h, c, sh, t, r.e, room, SlotsAll(fs.tail));
        var n1, t1;
        n1, t1, z := CorrectArgs(h, prog, fs.tail, c, sh, t, r.e, k);
        n, t := MoreArgs(h, prog, c, sh, s, e, room, n, t, r.v, r1, pc + |ct| + |cb|, n1, t1, z);
      } else {
        n, t := Stops(h, prog, c, sh, s, r, pc + |ct|, pc + |ct| + |cb|, n, t, z);
        StopArgs(h, prog, c, sh, s, r, pc + |ct| + |cb|, n, t, z);
      }
    }
  }

  lemma {:induction false} LandsCall(h: Host, prog: seq<Instr>, c: Ctx, sh: Shape, s: State, e0: Env, room: nat,
                                     n: nat, s1: State, fn: Value, vs: seq<Value>, e: Env) returns (n': nat, t: State)
    requires Ready(h, c, sh, s, e0, room) && Ahead(h, prog, s, n, s1, [fn] + vs) && Match(h, e, sh, s1)
    requires CodeAt(prog, s1.ip, [Invoke(|vs|)])
    ensures Lands(h, prog, c, sh, s, FromOutcome(h.apply(fn, vs), e), s1.ip + 1, n', t, [])
  {
    hide Rel, RunN;
    RunOne(h, prog, s1, Invoke(|vs|));
    RunAppend(h, prog, s, n, s1, 1);
    var m := |s1.ops|;
    assert s1.ops[..m - |vs| - 1] == s.ops && s1.ops[m - |vs| - 1] == fn && s1.ops[m - |vs|..] == vs;
    var o := h.apply(fn, vs);
    n' := n + 1;
    if o.Ok? {
      t := s1.(ip := s1.ip + 1, ops := s.ops + [o.v]);
    } else {
      t := s.(slots := s1.slots, g := s1.g);
      SameThrow(t, s1, o.w);
    }
  }

  lemma {:induction false} UnfoldCall(h: Host, f: Form, c: Ctx, pc: nat, e: Env, k: nat)
    requires f.Call? && NativeHead(c, f.head).None?
    requires exists arity :: Accepted(f, arity)
    ensures InLoop(c, None) && Accepted(f.head, None) && AcceptedArgs(f.args)
    ensures Slots(f) == Slots(f.head) + SlotsAll(f.args)
    ensures var t := GenHead(f.head, c, pc);
            Gen(f, c, pc) == t + GenArgs(f.args, c, pc + |t|) + [Invoke(Length(f.args))]
    ensures var r := EvalHead(h, c.lisp2, f.head, e, k);
            Eval(h, c.lisp2, f, e, k) ==
              if !r.Val? then r
              else match EvalArgs(h, c.lisp2, f.args, r.e, k)
                   case Vals(vs, e2) => FromOutcome(h.apply(r.v, vs), e2)
                   case Stop(r1) => r1
  {
    hide GenAnd, GenOr, EvalAnd, EvalOr, GenBody, EvalBody, GenClauses, EvalClauses;
  }

  /** The head of a call: under Lisp-2 a symbol is read from its function cell. */
  lemma {:induction false} CorrectHead(h: Host, prog: seq<Instr>, f: Form, c: Ctx, sh: Shape, s: State, e: Env, k: nat)
    returns (n: nat, t: State, z: seq<Value>)
    requires CodeAt(prog, s.ip, GenHead(f, c, s.ip))
    requires Ready(h, c, sh, s, e, Slots(f)) && Accepted(f, None)
    ensures Lands(h, prog, c, sh, s, EvalHead(h, c.lisp2, f, e, k), s.ip + |GenHead(f, c, s.ip)|, n, t, z)
    ensures !EvalHead(h, c.lisp2, f, e, k).Again?
    decreases k, f, 3
  {
    hide Gen, Eval, Lands, Rel, RunN;
    if c.lisp2 && f.Var? {
      n, t, z := Simple(h, prog, c, sh, s, EvalHead(h, c.lisp2, f, e, k), GetFunc(f.name));
    } else {
      n, t, z := Correct(h, prog, f, c, sh, s, e, k, None);
    }
  }

  lemma {:induction false} CorrectCall(h: Host, prog: seq<Instr>, f: Form, c: Ctx, sh: Shape, s: State, e: Env, k: nat)
    returns (n: nat, t: State, z: seq<Value>)
    requires f.Call? && NativeHead(c, f.head).None? && CodeAt(prog, s.ip, Gen(f, c, s.ip))
    requires Ready(h, c, sh, s, e, Slots(f)) && Accepted(f, None)
    ensures Lands(h, prog, c, sh, s, Eval(h, c.lisp2, f, e, k), s.ip + |Gen(f, c, s.ip)|, n, t, z)
    ensures !Eval(h, c.lisp2, f, e, k).Again?
    decreases k, f, 0
  {
    hide *;
    var room, pc := Slots(f), s.ip;
    UnfoldCall(h, f, c, pc, e, k);
    var ct := GenHead(f.head, c, pc);
    var cb := GenArgs(f.args, c, pc + |ct|);
    SplitMiddle(prog, pc, ct, cb, [Invoke(Length(f.args))]);
    var end := pc + |ct| + |cb| + 1;
    var r := EvalHead(h, c.lisp2, f.head, e, k);
    Less(h, c, sh, s, e, room, Slots(f.head));
    n, t, z := CorrectHead(h, prog, f.head, c, sh, s, e, k);
    if !r.Val? {
      n, t := Stops(h, prog, c, sh, s, r, pc + |ct|, end, n, t, z);
    } else {
      Pushed(h, prog, c, sh, s, e, room, r, pc + |ct|, n, t, z);
      var r1 := EvalArgs(h, c.lisp2, f.args, r.e, k);
      Less(h, c, sh, t, r.e, room, SlotsAll(f.args));
      var n1, t1;
      n1, t1, z := CorrectArgs(h, prog, f.args, c, sh, t, r.e, k);
      n, t := MoreArgs(h, prog, c, sh, s, e, room, n, t, r.v, r1, pc + |ct| + |cb|, n1, t1, z);
      n, t, z := CallArgs(h, prog, c, sh, s, e, room, r.v, r1, Length(f.args), pc + |ct| + |cb|, n, t, z);
    }
  }

  /** The arguments are on the stack above the function, or one of them did not yield a value. */
  lemma {:induction false} CallArgs(h: Host, prog: seq<Instr>, c: Ctx, sh: Shape, s: State, e: Env, room: nat,
      fn: Value, r: ArgsRes, argc: nat,
                                    end: nat, n: nat, t: State, z: seq<Value>) returns (n': nat, t': State,
                                        z': seq<Value>)
    requires Ready(h, c, sh, s, e, room) && CodeAt(prog, end, [Invoke(argc)]) && (r.Vals? ==> |r.vs| == argc)
    requires LandsArgs(h, prog, c, sh, s, match r case Vals(vs, e2) => Vals([fn] + vs, e2)
        case Stop(r1) => Stop(r1), end, n, t, z)
    ensures var res := match r case Vals(vs, e2) => FromOutcome(h.apply(fn, vs), e2) case Stop(r1) => r1;
            Lands(h, prog, c, sh, s, res, end + 1, n', t', z') && !res.Again?
  {
    hide Rel, RunN, Lands, Ready, Ahead, Match;
    match r
    case Vals(vs, e2) =>
      n', t' := LandsCall(h, prog, c, sh, s, e, room, n, t, fn, vs, e2);
      z' := [];
    case Stop(r1) =>
      n', t' := Stops(h, prog, c, sh, s, r1, end, end + 1, n, t, z);
      z' := z;
  }

  // ---- native operators ----

  lemma {:induction false} HeadResolves(h: Host, c: Ctx, sh: Shape, s: State, e: Env, room: nat, k: nat, x: string)
    requires Ready(h, c, sh, s, e, room) && x != "" && ResolveLocal(c.locals, x).None?
    ensures EvalHead(h, c.lisp2, Var(x), e, k) ==
            match Resolve(s.g, x, c.lisp2) case Some(b) => Val(b.v, e) case None => Thrown(UndefinedError(x), e)
  {
    hide Rel;
    Resolves(e, sh, s.slots, {}, x);
  }

  /** A canonical head computes what its opcode computes. */
  lemma {:induction false} CanonicalHead(h: Host, c: Ctx, sh: Shape, s: State, e: Env, room: nat, x: string, func: bool,
      op: NativeOp, b: Binding)
    requires Ready(h, c, sh, s, e, room) && Resolve(s.g, x, func) == Some(b) && NativeOf(x) == Some(op)
    ensures b.canonical ==> Computes(h, b.v, op)
  {
    hide Rel;
  }

  lemma {:induction false} UnfoldNative(h: Host, f: Form, c: Ctx, pc: nat, e: Env, k: nat)
    requires f.Call? && NativeHead(c, f.head).Some? && Accepted(f, None)
    ensures f.head.Var? && f.head.name != "" && ResolveLocal(c.locals, f.head.name).None?
    ensures NativeOf(f.head.name) == NativeHead(c, f.head)
    ensures AcceptedArgs(f.args) && Slots(f) == SlotsAll(f.args)
    ensures var op := NativeHead(c, f.head).value;
            Gen(f, c, pc) ==
              match FuseCall(c, op, f.head.name, f.args)
              case Some(i) => [i]
              case None => [Freeze(f.head.name, c.lisp2)] + GenArgs(f.args, c, pc + 1) + [Native(op, Length(f.args))]
    ensures var r := EvalHead(h, c.lisp2, f.head, e, k);
            Eval(h, c.lisp2, f, e, k) ==
              if !r.Val? then r
              else match EvalArgs(h, c.lisp2, f.args, r.e, k)
                   case Vals(vs, e2) => FromOutcome(h.apply(r.v, vs), e2)
                   case Stop(r1) => r1
  {
    hide GenAnd, GenOr, EvalAnd, EvalOr, GenBody, EvalBody, GenClauses, EvalClauses;
  }

  /** The freeze record: the frame is ready for the arguments above it. */
  lemma {:induction false} Freezes(h: Host, prog: seq<Instr>, c: Ctx, sh: Shape, s: State, e: Env, room: nat, x: string,
      b: Binding) returns (s1: State)
    requires Ready(h, c, sh, s, e, room) && CodeAt(prog, s.ip, [Freeze(x, c.lisp2)])
    requires Resolve(s.g, x, c.lisp2) == Some(b)
    ensures RunN(h, prog, s, 1) == At(s1) && Ready(h, c, sh, s1, e, room)
    ensures s1 == s.(ip := s.ip + 1, freeze := s.freeze + [FreezeRec(|s.ops|, FrozenOp(b, x), b.v)])
  {
    hide Rel, RunN;
    RunOne(h, prog, s, Freeze(x, c.lisp2));
    s1 := s.(ip := s.ip + 1, freeze := s.freeze + [FreezeRec(|s.ops|, FrozenOp(b, x), b.v)]);
  }

  /** The native op: its record is on top again, and its arguments start where the record says. */
  lemma {:induction false} NativeArgs(h: Host, prog: seq<Instr>, c: Ctx, sh: Shape, s: State, e: Env, room: nat,
      s1: State, rec: FreezeRec,
                                      op: NativeOp, argc: nat, r: ArgsRes, end: nat, n1: nat, t1: State, z: seq<Value>)
    returns (n: nat, t: State, z': seq<Value>)
    requires Ready(h, c, sh, s, e, room) && RunN(h, prog, s, 1) == At(s1)
    requires s1 == s.(ip := s.ip + 1, freeze := s.freeze + [rec]) && rec.depth == |s.ops|
    requires rec.op == Some(op) ==> Computes(h, rec.val, op)
    requires LandsArgs(h, prog, c, sh, s1, r, end, n1, t1, z) && (r.Vals? ==> |r.vs| == argc)
    requires CodeAt(prog, end, [Native(op, argc)])
    ensures var res := match r case Vals(vs, e2) => FromOutcome(h.apply(rec.val, vs), e2) case Stop(r1) => r1;
            Lands(h, prog, c, sh, s, res, end + 1, n, t, z') && !res.Again?
  {
    hide Rel, RunN;
    RunAppend(h, prog, s, 1, s1, n1);
    n, z' := 1 + n1, z;
    match r
    case Vals(vs, e2) =>
      RunOne(h, prog, t1, Native(op, argc));
      RunAppend(h, prog, s, n, t1, 1);
      n := n + 1;
      var m := |t1.ops|;
      assert t1.ops[..m - argc] == s.ops && t1.ops[m - argc..] == vs;
      assert t1.freeze[..|t1.freeze| - 1] == s.freeze;
      var o := h.apply(rec.val, vs);
      assert Exec(h, t1, Native(op, argc)) == Deliver(t1.(freeze := s.freeze), s.ops, o);
      if o.Ok? {
        t := t1.(ip := end + 1, ops := s.ops + [o.v], freeze := s.freeze);
      } else {
        t := s.(slots := t1.slots, g := t1.g);
        SameThrow(t, t1.(freeze := s.freeze, ops := s.ops), o.w);
      }
    case Stop(r1) =>
      t := t1;
      if r1.Thrown? {
        t := s.(slots := t1.slots, g := t1.g);
        SameThrow(t, t1, r1.w);
      }
  }

  lemma {:induction false} CorrectUnfused(h: Host, prog: seq<Instr>, f: Form, c: Ctx, sh: Shape, s: State, e: Env,
      k: nat)
    returns (n: nat, t: State, z: seq<Value>)
    requires f.Call? && NativeHead(c, f.head).Some? && CodeAt(prog, s.ip, Gen(f, c, s.ip))
    requires FuseCall(c, NativeHead(c, f.head).value, f.head.name, f.args).None?
    requires Ready(h, c, sh, s, e, Slots(f)) && Accepted(f, None)
    ensures Lands(h, prog, c, sh, s, Eval(h, c.lisp2, f, e, k), s.ip + |Gen(f, c, s.ip)|, n, t, z)
    ensures !Eval(h, c.lisp2, f, e, k).Again?
    decreases k, f, 0
  {
    hide *;
    UnfoldNative(h, f, c, s.ip, e, k);
    var room, pc, x := Slots(f), s.ip, f.head.name;
    var op := NativeHead(c, f.head).value;
    HeadResolves(h, c, sh, s, e, room, k, x);
    var cb := GenArgs(f.args, c, pc + 1);
    SplitMiddle(prog, pc, [Freeze(x, c.lisp2)], cb, [Native(op, Length(f.args))]);
    match Resolve(s.g, x, c.lisp2)
    case None =>
      n, t, z := Unresolved(h, prog, c, sh, s, e, room, Freeze(x, c.lisp2), x, pc + |cb| + 2);
    case Some(b) =>
      CanonicalHead(h, c, sh, s, e, room, x, c.lisp2, op, b);
      var s1 := Freezes(h, prog, c, sh, s, e, room, x, b);
      FrozenIs(b, x);
      var n1, t1;
      n1, t1, z := CorrectArgs(h, prog, f.args, c, sh, s1, e, k);
      n, t, z := NativeArgs(h, prog, c, sh, s, e, room, s1, FreezeRec(|s.ops|, FrozenOp(b, x), b.v), op, Length(f.args),
                            EvalArgs(h, c.lisp2, f.args, e, k), pc + 1 + |cb|, n1, t1, z);
  }

  lemma {:induction false} FrozenIs(b: Binding, x: string)
    ensures FrozenOp(b, x).Some? ==> b.canonical && FrozenOp(b, x) == NativeOf(x)
  {
  }

  /** An unbound operator is an error before any argument is evaluated. */
  lemma {:induction false} Unresolved(h: Host, prog: seq<Instr>, c: Ctx, sh: Shape, s: State, e: Env, room: nat,
      i: Instr, x: string, end: nat)
    returns (n: nat, t: State, z: seq<Value>)
    requires Ready(h, c, sh, s, e, room) && CodeAt(prog, s.ip, [i]) && Resolve(s.g, x, c.lisp2).None?
    requires (i.Freeze? || i.Fused?) && i.name == x && i.func == c.lisp2
    ensures Lands(h, prog, c, sh, s, Thrown(UndefinedError(x), e), end, n, t, z)
  {
    hide Rel, RunN;
    n, t, z := Simple(h, prog, c, sh, s, Thrown(UndefinedError(x), e), i);
  }

  lemma {:induction false} OperandValue(h: Host, c: Ctx, sh: Shape, s: State, e: Env, room: nat, k: nat, f: Form)
    requires Ready(h, c, sh, s, e, room) && FusedOperand(c, f).Some? && Accepted(f, None)
    ensures var v := ReadOperand(s, FusedOperand(c, f).value);
            v.Some? && Eval(h, c.lisp2, f, e, k) == Val(v.value, e)
  {
    hide Rel, EvalBody, EvalClauses, EvalAnd, EvalOr;
    if f.Var? { Resolves(e, sh, s.slots, {}, f.name); }
  }

  lemma {:induction false} UnfoldFused(h: Host, c: Ctx, args: Forms, op: NativeOp, x: string, e: Env, k: nat)
    requires FuseCall(c, op, x, args).Some? && AcceptedArgs(args)
    ensures args.Cons? && args.tail.Cons? && args.tail.tail.End? && Accepted(args.head, None)
    ensures Accepted(args.tail.head, None)
    ensures FusedOperand(c, args.head).Some? && FusedOperand(c, args.tail.head).Some?
    ensures FuseCall(c, op, x, args).value == Fused(op, x, c.lisp2, FusedOperand(c, args.head).value,
        FusedOperand(c, args.tail.head).value)
    ensures forall a, b ::
      Eval(h, c.lisp2, args.head, e, k) == Val(a, e) && Eval(h, c.lisp2, args.tail.head, e, k) == Val(b, e) ==>
              EvalArgs(h, c.lisp2, args, e, k) == Vals([a, b], e)
  {
    hide Eval, Accepted;
    forall a, b | Eval(h, c.lisp2, args.head, e, k) == Val(a, e) && Eval(h, c.lisp2, args.tail.head, e, k) == Val(b, e)
      ensures EvalArgs(h, c.lisp2, args, e, k) == Vals([a, b], e)
    {
      assert EvalArgs(h, c.lisp2, args.tail.tail, e, k) == Vals([], e);
      assert EvalArgs(h, c.lisp2, args.tail, e, k) == Vals([b] + [], e);
      assert [a] + [b] == [a, b] && [b] + [] == [b];
    }
  }

  lemma {:induction false} CorrectFused(h: Host, prog: seq<Instr>, f: Form, c: Ctx, sh: Shape, s: State, e: Env, k: nat)
    returns (n: nat, t: State, z: seq<Value>)
    requires f.Call? && NativeHead(c, f.head).Some? && CodeAt(prog, s.ip, Gen(f, c, s.ip))
    requires FuseCall(c, NativeHead(c, f.head).value, f.head.name, f.args).Some?
    requires Ready(h, c, sh, s, e, Slots(f)) && Accepted(f, None)
    ensures Lands(h, prog, c, sh, s, Eval(h, c.lisp2, f, e, k), s.ip + |Gen(f, c, s.ip)|, n, t, z)
    ensures !Eval(h, c.lisp2, f, e, k).Again?
  {
    hide *;
    UnfoldNative(h, f, c, s.ip, e, k);
    var room, x := Slots(f), f.head.name;
    var op := NativeHead(c, f.head).value;
    var i := FuseCall(c, op, x, f.args).value;
    UnfoldFused(h, c, f.args, op, x, e, k);
    HeadResolves(h, c, sh, s, e, room, k, x);
    match Resolve(s.g, x, c.lisp2)
    case None =>
      n, t, z := Unresolved(h, prog, c, sh, s, e, room, i, x, s.ip + 1);
    case Some(b) =>
      CanonicalHead(h, c, sh, s, e, room, x, c.lisp2, op, b);
      OperandValue(h, c, sh, s, e, room, k, f.args.head);
      OperandValue(h, c, sh, s, e, room, k, f.args.tail.head);
      n, t, z := FusedRuns(h, prog, c, sh, s, e, room, i, b,
                           ReadOperand(s, FusedOperand(c, f.args.head).value).value,
                           ReadOperand(s, FusedOperand(c, f.args.tail.head).value).value);
  }

  lemma {:induction false} FusedRuns(h: Host, prog: seq<Instr>, c: Ctx, sh: Shape, s: State, e: Env, room: nat,
      i: Instr, b: Binding, va: Value, vb: Value)
    returns (n: nat, t: State, z: seq<Value>)
    requires Ready(h, c, sh, s, e, room) && i.Fused? && CodeAt(prog, s.ip, [i])
    requires Resolve(s.g, i.name, i.func) == Some(b)
    requires b.canonical ==> Computes(h, b.v, i.op)
    requires ReadOperand(s, i.a) == Some(va) && ReadOperand(s, i.b) == Some(vb)
    ensures Lands(h, prog, c, sh, s, FromOutcome(h.apply(b.v, [va, vb]), e), s.ip + 1, n, t, z)
    ensures !FromOutcome(h.apply(b.v, [va, vb]), e).Again?
  {
    hide Rel, RunN;
    assert Exec(h, s, i) == Deliver(s, s.ops, h.apply(b.v, [va, vb]));
    n, t, z := Simple(h, prog, c, sh, s, FromOutcome(h.apply(b.v, [va, vb]), e), i);
  }

  // ---- leaves, set!, throw ----

  lemma {:induction false} CorrectLeaf(h: Host, prog: seq<Instr>, f: Form, c: Ctx, sh: Shape, s: State, e: Env, k: nat)
    returns (n: nat, t: State, z: seq<Value>)
    requires (f.Const? || f.Quote? || f.Var?) && CodeAt(prog, s.ip, Gen(f, c, s.ip))
    requires Ready(h, c, sh, s, e, Slots(f)) && Accepted(f, None)
    ensures Lands(h, prog, c, sh, s, Eval(h, c.lisp2, f, e, k), s.ip + |Gen(f, c, s.ip)|, n, t, z)
    ensures !Eval(h, c.lisp2, f, e, k).Again?
  {
    hide Rel, Lands, RunN, EvalBody, EvalClauses, EvalAnd, EvalOr, EvalArgs, EvalBinds, EvalInits, GenBody, GenClauses,
         GenAnd, GenOr, GenArgs, GenBinds, GenInits;
    UnfoldLeaf(h, f, c, s.ip, e, k);
    if f.Var? { Resolves(e, sh, s.slots, {}, f.name); }
    hide Eval, Gen;
    n, t, z := Simple(h, prog, c, sh, s, Eval(h, c.lisp2, f, e, k), LeafInstr(f, c));
  }

  function LeafInstr(f: Form, c: Ctx): Instr
    requires f.Const? || f.Quote? || f.Var?
  {
    match f case Const(v) => GenConst(v) case Quote(v) => Push(v) case Var(x) => GenVar(c, x)
  }

  lemma {:induction false} UnfoldLeaf(h: Host, f: Form, c: Ctx, pc: nat, e: Env, k: nat)
    requires f.Const? || f.Quote? || f.Var?
    ensures Gen(f, c, pc) == [LeafInstr(f, c)]
    ensures Eval(h, c.lisp2, f, e, k) ==
      match f
      case Const(v) => Val(v, e)
      case Quote(v) => Val(v, e)
      case Var(x) => if Lookup(e, x).Some? then Val(Lookup(e, x).value, e) else Thrown(UndefinedError(x), e)
  {
    hide EvalBody, EvalClauses, EvalAnd, EvalOr, EvalArgs, EvalBinds, EvalInits, GenBody, GenClauses, GenAnd, GenOr,
         GenArgs, GenBinds, GenInits;
  }

  lemma {:induction false} UnfoldAssign(h: Host, f: Form, c: Ctx, pc: nat, e: Env, k: nat)
    requires f.Assign? && Accepted(f, None)
    ensures InLoop(c, None) && f.name != "" && Accepted(f.rhs, None) && Slots(f) == Slots(f.rhs)
    ensures Gen(f, c, pc) ==
            match ResolveLocal(c.locals, f.name)
            case Some(i) => Gen(f.rhs, c, pc) + [SetLocal(i)]
            case None => [CheckLexical(f.name)] + Gen(f.rhs, c, pc + 1) + [SetLexical(f.name)]
    ensures var r := Eval(h, c.lisp2, f.rhs, e, k);
            Eval(h, c.lisp2, f, e, k) ==
              if Lookup(e, f.name).None? then Thrown(AssignError(f.name), e)
              else if r.Val? then Val(r.v, Rebind(r.e, f.name, r.v)) else r
  {
    hide GenAnd, GenOr, EvalAnd, EvalOr, GenBody, EvalBody, GenClauses, EvalClauses;
  }

  /** The target of set! is bound exactly when a slot or the root holds it. */
  lemma {:induction false} Target(h: Host, c: Ctx, sh: Shape, s: State, e: Env, room: nat, x: string)
    requires Ready(h, c, sh, s, e, room) && x != ""
    ensures Lookup(e, x).Some? <==> ResolveLocal(c.locals, x).Some? || x in s.g.vars
  {
    hide Rel;
    Resolves(e, sh, s.slots, {}, x);
  }

  lemma {:induction false} SetsLocal(h: Host, prog: seq<Instr>, c: Ctx, sh: Shape, s: State, e0: Env, room: nat,
      v: Value, e: Env, x: string, end: nat,
                                     n: nat, t: State, z: seq<Value>) returns (n': nat, t': State)
    requires Ready(h, c, sh, s, e0, room) && Lands(h, prog, c, sh, s, Val(v, e), end, n, t, z)
    requires x != "" && ResolveLocal(c.locals, x).Some?
    requires CodeAt(prog, end, [SetLocal(ResolveLocal(c.locals, x).value)])
    ensures Lands(h, prog, c, sh, s, Val(v, Rebind(e, x, v)), end + 1, n', t', z)
  {
    hide Rel, RunN;
    var i := ResolveLocal(c.locals, x).value;
    Assigns(e, sh, t.slots, {}, x, v);
    RunOne(h, prog, t, SetLocal(i));
    RunAppend(h, prog, s, n, t, 1);
    n', t' := n + 1, t.(ip := end + 1, slots := t.slots[i := v]);
  }

  lemma {:induction false} SetsLexical(h: Host, prog: seq<Instr>, c: Ctx, sh: Shape, s: State, e0: Env, room: nat,
      v: Value, e: Env, x: string, end: nat,
                                       n: nat, t: State, z: seq<Value>) returns (n': nat, t': State)
    requires Ready(h, c, sh, s, e0, room) && Lands(h, prog, c, sh, s, Val(v, e), end, n, t, z)
    requires x != "" && ResolveLocal(c.locals, x).None? && x in s.g.vars && CodeAt(prog, end, [SetLexical(x)])
    ensures Lands(h, prog, c, sh, s, Val(v, Rebind(e, x, v)), end + 1, n', t', z)
  {
    hide Rel, RunN;
    AssignsRoot(e, sh, t.slots, {}, x, v);
    RunOne(h, prog, t, SetLexical(x));
    RunAppend(h, prog, s, n, t, 1);
    n', t' := n + 1, t.(ip := end + 1, g := t.g.(vars := t.g.vars[x := Binding(v, false)]));
  }

  /** The check that precedes the right-hand side: a missing root name is an error at once. */
  lemma {:induction false} ChecksLexical(h: Host, prog: seq<Instr>, c: Ctx, sh: Shape, s: State, e: Env, room: nat,
      x: string) returns (s1: State)
    requires Ready(h, c, sh, s, e, room) && CodeAt(prog, s.ip, [CheckLexical(x)]) && x in s.g.vars
    ensures Cont(h, prog, s, 1, s1) && Ready(h, c, sh, s1, e, room) && s1.ip == s.ip + 1 && s1.g == s.g
  {
    hide Rel, RunN;
    RunOne(h, prog, s, CheckLexical(x));
    s1 := s.(ip := s.ip + 1);
  }

  lemma {:induction false} Unassignable(h: Host, prog: seq<Instr>, c: Ctx, sh: Shape, s: State, e: Env, room: nat,
      x: string, end: nat)
    returns (n: nat, t: State, z: seq<Value>)
    requires Ready(h, c, sh, s, e, room) && CodeAt(prog, s.ip, [CheckLexical(x)]) && x !in s.g.vars
    ensures Lands(h, prog, c, sh, s, Thrown(AssignError(x), e), end, n, t, z)
  {
    hide Rel, RunN;
    n, t, z := Simple(h, prog, c, sh, s, Thrown(AssignError(x), e), CheckLexical(x));
  }

  lemma {:induction false} CorrectAssign(h: Host, prog: seq<Instr>, f: Form, c: Ctx, sh: Shape, s: State, e: Env,
      k: nat)
    returns (n: nat, t: State, z: seq<Value>)
    requires f.Assign? && CodeAt(prog, s.ip, Gen(f, c, s.ip))
    requires Ready(h, c, sh, s, e, Slots(f)) && Accepted(f, None)
    ensures Lands(h, prog, c, sh, s, Eval(h, c.lisp2, f, e, k), s.ip + |Gen(f, c, s.ip)|, n, t, z)
    ensures !Eval(h, c.lisp2, f, e, k).Again?
    decreases k, f, 0
  {
    hide *;
    var room, pc, x := Slots(f), s.ip, f.name;
    UnfoldAssign(h, f, c, pc, e, k);
    Target(h, c, sh, s, e, room, x);
    var r := Eval(h, c.lisp2, f.rhs, e, k);
    match ResolveLocal(c.locals, x)
    case Some(i) =>
      var ct := Gen(f.rhs, c, pc);
      Split(prog, pc, ct, [SetLocal(i)]);
      n, t, z := Correct(h, prog, f.rhs, c, sh, s, e, k, None);
      if r.Val? {
        n, t := SetsLocal(h, prog, c, sh, s, e, room, r.v, r.e, x, pc + |ct|, n, t, z);
      } else {
        n, t := Stops(h, prog, c, sh, s, r, pc + |ct|, pc + |ct| + 1, n, t, z);
      }
    case None =>
      var ct := Gen(f.rhs, c, pc + 1);
      SplitMiddle(prog, pc, [CheckLexical(x)], ct, [SetLexical(x)]);
      if x !in s.g.vars {
        n, t, z := Unassignable(h, prog, c, sh, s, e, room, x, pc + |ct| + 2);
      } else {
        var s1 := ChecksLexical(h, prog, c, sh, s, e, room, x);
        var n1, t1;
        n1, t1, z := Correct(h, prog, f.rhs, c, sh, s1, e, k, None);
        n, t := Resume(h, prog, c, sh, s, e, room, 1, s1, r, pc + 1 + |ct|, n1, t1, z);
        if r.Val? {
          n, t := SetsLexical(h, prog, c, sh, s, e, room, r.v, r.e, x, pc + 1 + |ct|, n, t, z);
        } else {
          n, t := Stops(h, prog, c, sh, s, r, pc + 1 + |ct|, pc + |ct| + 2, n, t, z);
        }
      }
  }

  lemma {:induction false} UnfoldThrow(h: Host, f: Form, c: Ctx, pc: nat, e: Env, k: nat)
    requires f.Throw? && Accepted(f, None)
    ensures InLoop(c, None) && Accepted(f.arg, None) && Slots(f) == Slots(f.arg)
    ensures Gen(f, c, pc) == Gen(f.arg, c, pc) + [Raise]
    ensures var r := Eval(h, c.lisp2, f.arg, e, k);
            Eval(h, c.lisp2, f, e, k) == if r.Val? then Thrown(r.v, r.e) else r
  {
    hide GenAnd, GenOr, EvalAnd, EvalOr, GenBody, EvalBody, GenClauses, EvalClauses;
  }

  lemma {:induction false} Raises(h: Host, prog: seq<Instr>, c: Ctx, sh: Shape, s: State, e0: Env, room: nat, v: Value,
      e: Env, end: nat, end': nat,
                                  n: nat, t: State, z: seq<Value>) returns (n': nat, t': State)
    requires Ready(h, c, sh, s, e0, room) && Lands(h, prog, c, sh, s, Val(v, e), end, n, t, z)
    requires CodeAt(prog, end, [Raise])
    ensures Lands(h, prog, c, sh, s, Thrown(v, e), end', n', t', z)
  {
    hide Rel, RunN;
    RunOne(h, prog, t, Raise);
    RunAppend(h, prog, s, n, t, 1);
    assert t.ops[..|t.ops| - 1] == s.ops;
    n', t' := n + 1, s.(slots := t.slots, g := t.g);
    SameThrow(t', t.(ops := s.ops), v);
  }

  lemma {:induction false} CorrectThrow(h: Host, prog: seq<Instr>, f: Form, c: Ctx, sh: Shape, s: State, e: Env, k: nat)
    returns (n: nat, t: State, z: seq<Value>)
    requires f.Throw? && CodeAt(prog, s.ip, Gen(f, c, s.ip))
    requires Ready(h, c, sh, s, e, Slots(f)) && Accepted(f, None)
    ensures Lands(h, prog, c, sh, s, Eval(h, c.lisp2, f, e, k), s.ip + |Gen(f, c, s.ip)|, n, t, z)
    ensures !Eval(h, c.lisp2, f, e, k).Again?
    decreases k, f, 0
  {
    hide *;
    UnfoldThrow(h, f, c, s.ip, e, k);
    var ct := Gen(f.arg, c, s.ip);
    Split(prog, s.ip, ct, [Raise]);
    var r, mid := Eval(h, c.lisp2, f.arg, e, k), s.ip + |ct|;
    n, t, z := Correct(h, prog, f.arg, c, sh, s, e, k, None);
    if r.Val? {
      n, t := Raises(h, prog, c, sh, s, e, Slots(f), r.v, r.e, mid, mid + 1, n, t, z);
    } else {
      n, t := Stops(h, prog, c, sh, s, r, mid, mid + 1, n, t, z);
    }
  }

  // ---- let ----

  lemma {:induction false} Opens(h: Host, c: Ctx, sh: Shape, s: State, e: Env, room: nat)
    requires Ready(h, c, sh, s, e, room)
    ensures Ready(h, c, Opened(sh), s, Child(map[], e), room) && Within(Opened(sh), sh)
  {
  }

  lemma {:induction false} UnfoldBinds(h: Host, bs: Binds, c: Ctx, pc: nat, e: Env, k: nat)
    requires AcceptedBinds(bs)
    ensures InLoop(c, None)
    ensures bs.NoBinds? ==> GenBinds(bs, c, pc) == [] && EvalBinds(h, c.lisp2, bs, e, k) == Val(Nil, e)
    ensures bs.NoBinds? ==> Names(bs) == [] && SlotsBinds(bs) == 0
    ensures bs.Bind? ==>
      && bs.name != "" && Accepted(bs.init, None) && AcceptedBinds(bs.rest)
      && SlotsBinds(bs) == Slots(bs.init) + 1 + SlotsBinds(bs.rest) && Names(bs) == [bs.name] + Names(bs.rest)
      && (var t := Gen(bs.init, c, pc);
          GenBinds(bs, c, pc) == t + [SetLocal(|c.locals|), Pop] + GenBinds(bs.rest, Bound(c, bs.name), pc + |t| + 2))
      && (var r := Eval(h, c.lisp2, bs.init, e, k);
          EvalBinds(h, c.lisp2, bs, e, k) ==
            if r.Val? then EvalBinds(h, c.lisp2, bs.rest, BindLocal(r.e, bs.name, r.v), k) else r)
  {
    hide Gen, Eval, Accepted, Slots;
  }

  function Extended(c: Ctx, names: seq<string>): Ctx {
    c.(locals := c.locals + names)
  }

  lemma {:induction false} ExtendedBy(c: Ctx, x: string, names: seq<string>)
    ensures Extended(Bound(c, x), names) == Extended(c, [x] + names) && Extended(c, []) == c
    ensures Bound(c, x).lisp2 == c.lisp2 && Extended(c, names).lisp2 == c.lisp2
    ensures Extended(c, names) == c.(locals := c.locals + names)
  {
    assert c.locals + [x] + names == c.locals + ([x] + names);
    assert c.locals + [] == c.locals;
  }

  /** An initializer's value becomes the next binding of the scope. */
  lemma {:induction false} BindsSlot(h: Host, prog: seq<Instr>, c: Ctx, sh: Shape, outer: Shape, s: State, e0: Env,
      room: nat, v: Value, e: Env, x: string,
                                     end: nat, n: nat, t: State, z: seq<Value>) returns (s1: State)
    requires Ready(h, c, sh, s, e0, room + 1) && Within(sh, outer) && x != ""
    requires Lands(h, prog, c, sh, s, Val(v, e), end, n, t, z) && CodeAt(prog, end, [SetLocal(|c.locals|), Pop])
    ensures Cont(h, prog, s, n + 2, s1) && s1.ip == end + 2
    ensures Ready(h, Bound(c, x), Named(x, sh), s1, BindLocal(e, x, v), room) && Within(Named(x, sh), outer)
  {
    hide Rel, RunN, Exec;
    Leaves(e, sh, t.slots, {}, outer);
    BindsNext(e, sh, t.slots, x, v);
    s1 := Store(h, prog, t, s.ops, v, |c.locals|);
    RunAppend(h, prog, s, n, t, 2);
  }

  ghost predicate LandsBinds(h: Host, prog: seq<Instr>, c: Ctx, names: seq<string>, sh: Shape, outer: Shape, s: State,
      room: nat, r: Res, end: nat,
                             n: nat, t: State, z: seq<Value>)
  {
    if r.Val? then
      Cont(h, prog, s, n, t) && Ready(h, Extended(c, names), NamedAll(sh, names), t, r.e, room) && t.ip == end
    else
      !r.Again? && Lands(h, prog, c, outer, s, Leave(r), end, n, t, z)
  }

  lemma {:induction false} NoneBound(h: Host, prog: seq<Instr>, c: Ctx, sh: Shape, outer: Shape, s: State, e: Env,
      room: nat)
    requires Ready(h, c, sh, s, e, room)
    ensures LandsBinds(h, prog, c, [], sh, outer, s, room, Val(Nil, e), s.ip, 0, s, [])
  {
    ExtendedBy(c, "", []);
  }

  lemma {:induction false} MoreBound(h: Host, prog: seq<Instr>, c: Ctx, x: string, names: seq<string>, sh: Shape,
      outer: Shape, s: State, e: Env, room0: nat, room: nat,
                                     n0: nat, s1: State, r: Res, end: nat, n1: nat, t1: State,
                                         z: seq<Value>) returns (n: nat, t: State)
    requires Ready(h, c, sh, s, e, room0) && Cont(h, prog, s, n0, s1)
    requires LandsBinds(h, prog, Bound(c, x), names, Named(x, sh), outer, s1, room, r, end, n1, t1, z)
    ensures LandsBinds(h, prog, c, [x] + names, sh, outer, s, room, r, end, n, t, z)
  {
    hide Rel, RunN;
    ExtendedBy(c, x, names);
    assert ([x] + names)[1..] == names;
    RunAppend(h, prog, s, n0, s1, n1);
    n, t := n0 + n1, t1;
    if r.Thrown? {
      t := s.(slots := t1.slots, g := t1.g);
      SameThrow(t, t1, r.w);
    }
  }

  lemma {:induction false} StopBound(h: Host, prog: seq<Instr>, c: Ctx, names: seq<string>, sh: Shape, outer: Shape,
      s: State, e: Env, room0: nat, room: nat,
                                     r: Res, end: nat, end': nat, n: nat, t: State, z: seq<Value>)
    requires Ready(h, c, sh, s, e, room0) && Within(sh, outer)
    requires Lands(h, prog, c, sh, s, r, end, n, t, z) && !r.Val? && !r.Again?
    ensures LandsBinds(h, prog, c, names, sh, outer, s, room, r, end', n, t, z)
  {
    hide RunN;
    if r.Thrown? { Leaves(r.e, sh, t.slots, {}, outer); }
  }

  lemma {:induction false} CorrectBinds(h: Host, prog: seq<Instr>, bs: Binds, c: Ctx, sh: Shape, outer: Shape, s: State,
      e: Env, k: nat, room: nat)
    returns (n: nat, t: State, z: seq<Value>)
    requires CodeAt(prog, s.ip, GenBinds(bs, c, s.ip)) && AcceptedBinds(bs)
    requires Ready(h, c, sh, s, e, SlotsBinds(bs) + room) && Within(sh, outer)
    ensures LandsBinds(h, prog, c, Names(bs), sh, outer, s, room, EvalBinds(h, c.lisp2, bs, e, k),
        s.ip + |GenBinds(bs, c, s.ip)|, n, t, z)
    decreases k, bs, 0
  {
    hide *;
    var pc, all := s.ip, SlotsBinds(bs) + room;
    UnfoldBinds(h, bs, c, pc, e, k);
    if bs.NoBinds? {
      NoneBound(h, prog, c, sh, outer, s, e, room);
      n, t, z := 0, s, [];
    } else {
      var ct := Gen(bs.init, c, pc);
      var cb := GenBinds(bs.rest, Bound(c, bs.name), pc + |ct| + 2);
      SplitMiddle(prog, pc, ct, [SetLocal(|c.locals|), Pop], cb);
      var r, end := Eval(h, c.lisp2, bs.init, e, k), pc + |ct| + 2 + |cb|;
      Less(h, c, sh, s, e, all, Slots(bs.init));
      n, t, z := Correct(h, prog, bs.init, c, sh, s, e, k, None);
      if r.Val? {
        ExtendedBy(c, bs.name, Names(bs.rest));
        Less(h, c, sh, s, e, all, SlotsBinds(bs.rest) + room + 1);
        var s1 := BindsSlot(h, prog, c, sh, outer, s, e, SlotsBinds(bs.rest) + room, r.v, r.e, bs.name, pc + |ct|, n, t,
            z);
        var n1, t1;
        n1, t1, z := CorrectBinds(h, prog, bs.rest, Bound(c, bs.name), Named(bs.name, sh), outer, s1,
            BindLocal(r.e, bs.name, r.v), k, room);
        n, t := MoreBound(h, prog, c, bs.name, Names(bs.rest), sh, outer, s, e, all, room, n + 2, s1,
                          EvalBinds(h, c.lisp2, bs.rest, BindLocal(r.e, bs.name, r.v), k), end, n1, t1, z);
      } else {
        StopBound(h, prog, c, Names(bs), sh, outer, s, e, all, room, r, pc + |ct|, end, n, t, z);
      }
    }
  }

  lemma {:induction false} UnfoldLetEval(h: Host, f: Form, c: Ctx, e: Env, k: nat)
    requires f.Let?
    ensures var r := EvalBinds(h, c.lisp2, f.binds, Child(map[], e), k);
            Eval(h, c.lisp2, f, e, k) == Leave(if r.Val? then EvalBody(h, c.lisp2, f.body, r.e, k) else r)
  {
    hide EvalAnd, EvalOr, EvalBody, EvalClauses, EvalBinds, EvalInits, EvalArgs, Iterate;
  }

  lemma {:induction false} UnfoldLet(h: Host, f: Form, c: Ctx, pc: nat, e: Env, k: nat, arity: Option<nat>)
    requires f.Let? && Accepted(f, arity)
    ensures AcceptedBinds(f.binds) && AcceptedBody(f.body, arity) && Slots(f) == SlotsBinds(f.binds) + SlotsAll(f.body)
    ensures var t := GenBinds(f.binds, c, pc);
            Gen(f, c, pc) == t + GenBody(f.body, Extended(c, Names(f.binds)), pc + |t|)
    ensures var r := EvalBinds(h, c.lisp2, f.binds, Child(map[], e), k);
            Eval(h, c.lisp2, f, e, k) == Leave(if r.Val? then EvalBody(h, c.lisp2, f.body, r.e, k) else r)
  {
    hide Gen, Eval;
    OfLet(f, c, pc);
    UnfoldLetEval(h, f, c, e, k);
  }

  /** The code that ran between s and t did not touch what c says of the loop. */
  lemma {:induction false} Reached(h: Host, prog: seq<Instr>, c: Ctx, sh: Shape, s: State, e: Env, room: nat, n: nat,
      t: State)
    requires Ready(h, c, sh, s, e, room) && Cont(h, prog, s, n, t)
    ensures LoopOk(c, t)
  {
    hide Rel, RunN;
  }

  lemma {:induction false} Leaving(c: Ctx, names: seq<string>, arity: Option<nat>, sh: Shape)
    ensures InLoop(c, arity) ==> InLoop(Extended(c, names), arity)
    ensures Extended(c, names).lisp2 == c.lisp2 && Extended(c, names).lp == c.lp && Extended(c, names).tries == c.tries
    ensures |Extended(c, names).locals| >= |c.locals|
    ensures Within(NamedAll(Opened(sh), names), sh)
  {
    WithinNames(Opened(sh), names, sh);
  }

  lemma {:induction false} LeaveAgain(r: Res)
    ensures Leave(r).Again? == r.Again? && Leave(r).Val? == r.Val?
  {
  }

  lemma {:induction false} CorrectLet(h: Host, prog: seq<Instr>, f: Form, c: Ctx, sh: Shape, s: State, e: Env, k: nat,
      arity: Option<nat>)
    returns (n: nat, t: State, z: seq<Value>)
    requires f.Let? && CodeAt(prog, s.ip, Gen(f, c, s.ip))
    requires Ready(h, c, sh, s, e, Slots(f)) && Accepted(f, arity) && InLoop(c, arity)
    ensures Lands(h, prog, c, sh, s, Eval(h, c.lisp2, f, e, k), s.ip + |Gen(f, c, s.ip)|, n, t, z)
    ensures arity.None? ==> !Eval(h, c.lisp2, f, e, k).Again?
    decreases k, f, 0
  {
    hide *;
    var names, pc, room := Names(f.binds), s.ip, SlotsAll(f.body);
    UnfoldLet(h, f, c, pc, e, k, arity);
    Leaving(c, names, arity, sh);
    var c1, sh1 := Extended(c, names), NamedAll(Opened(sh), names);
    var ct := GenBinds(f.binds, c, pc);
    var cb := GenBody(f.body, c1, pc + |ct|);
    Split(prog, pc, ct, cb);
    var r0, end := EvalBinds(h, c.lisp2, f.binds, Child(map[], e), k), pc + |ct| + |cb|;
    Opens(h, c, sh, s, e, Slots(f));
    n, t, z := CorrectBinds(h, prog, f.binds, c, Opened(sh), sh, s, Child(map[], e), k, room);
    AfterBinds(h, prog, c, names, Opened(sh), sh, s, room, r0, pc + |ct|, n, t, z);
    LeaveAgain(r0);
    if r0.Val? {
      var n1, t1;
      n1, t1, z := CorrectBody(h, prog, f.body, c1, sh1, t, r0.e, k, arity);
      var r := EvalBody(h, c.lisp2, f.body, r0.e, k);
      LeaveAgain(r);
      Reached(h, prog, c, sh, s, e, Slots(f), n, t);
      LeavesScope(h, prog, c, c1, sh, sh1, t, r, end, n1, t1, z);
      n, t := Resume(h, prog, c, sh, s, e, Slots(f), n, t, Leave(r), end, n1, t1, z);
    } else {
      n, t := Stops(h, prog, c, sh, s, Leave(r0), pc + |ct|, end, n, t, z);
    }
  }

  lemma {:induction false} AfterBinds(h: Host, prog: seq<Instr>, c: Ctx, names: seq<string>, sh: Shape, outer: Shape,
      s: State, room: nat, r: Res, end: nat,
                                      n: nat, t: State, z: seq<Value>)
    requires LandsBinds(h, prog, c, names, sh, outer, s, room, r, end, n, t, z)
    ensures r.Val? ==>
      Cont(h, prog, s, n, t) && Ready(h, Extended(c, names), NamedAll(sh, names), t, r.e, room) && t.ip == end
    ensures !r.Val? ==> !r.Again? && Lands(h, prog, c, outer, s, Leave(r), end, n, t, z)
  {
    hide Lands, Ready, Cont;
  }

  // ---- try ----

  lemma {:induction false} UnfoldTryEval(h: Host, f: Form, c: Ctx, e: Env, k: nat)
    requires f.Try?
    ensures var r := EvalBody(h, c.lisp2, f.body, e, k);
            Eval(h, c.lisp2, f, e, k) ==
              if r.Thrown? then Leave(EvalBody(h, c.lisp2, f.handler, Child(map[f.err := r.w], r.e), k)) else r
  {
    hide EvalAnd, EvalOr, EvalBody, EvalClauses, EvalBinds, EvalInits, EvalArgs, Iterate;
  }

  lemma {:induction false} UnfoldTry(h: Host, f: Form, c: Ctx, pc: nat, e: Env, k: nat, arity: Option<nat>)
    requires f.Try? && Accepted(f, arity)
    ensures f.err != "" && AcceptedBody(f.body, arity) && AcceptedBody(f.handler, arity)
    ensures Slots(f) == SlotsAll(f.body) + 1 + SlotsAll(f.handler)
    ensures var b := GenBody(f.body, Inside(c), pc + 1);
            var at := pc + |b| + 3;
            var hd := GenBody(f.handler, Bound(c, f.err), at + 2);
            Gen(f, c, pc) == [SetupTry(at)] + b + ([PopTry] + [Jump(|hd| + 2)] + ([SetLocal(|c.locals|), Pop] + hd))
    ensures var r := EvalBody(h, c.lisp2, f.body, e, k);
            Eval(h, c.lisp2, f, e, k) ==
              if r.Thrown? then Leave(EvalBody(h, c.lisp2, f.handler, Child(map[f.err := r.w], r.e), k)) else r
  {
    hide Gen, Eval;
    OfTry(f, c, pc);
    UnfoldTryEval(h, f, c, e, k);
  }

  /** Inside one more try scope. */
  function Inside(c: Ctx): Ctx {
    c.(tries := c.tries + 1)
  }

  function Guarded(s: State, at: nat): State {
    s.(ip := s.ip + 1, handlers := s.handlers + [Handler(at, |s.ops|, |s.freeze|)])
  }

  lemma {:induction false} SetsUp(h: Host, prog: seq<Instr>, c: Ctx, sh: Shape, s: State, e: Env, room: nat, at: nat,
      arity: Option<nat>)
    requires Ready(h, c, sh, s, e, room) && CodeAt(prog, s.ip, [SetupTry(at)])
    ensures RunN(h, prog, s, 1) == At(Guarded(s, at)) && Ready(h, Inside(c), sh, Guarded(s, at), e, room)
    ensures Guarded(s, at).ip == s.ip + 1 && Inside(c).lisp2 == c.lisp2 && Bound(c, "").lisp2 == c.lisp2
    ensures InLoop(c, arity) ==> InLoop(Inside(c), arity)
  {
    hide Rel, RunN;
    RunOne(h, prog, s, SetupTry(at));
  }

  /** The body did not throw: a value takes the handler off and jumps over the handler's code; a
      recur has already taken it off. */
  lemma {:induction false} Completes(h: Host, prog: seq<Instr>, c: Ctx, sh: Shape, s: State, e: Env, room: nat, at: nat,
      off: nat, r: Res, end: nat,
                                     n: nat, t: State, z: seq<Value>) returns (n': nat, t': State)
    requires Ready(h, c, sh, s, e, room) && RunN(h, prog, s, 1) == At(Guarded(s, at)) && !r.Thrown?
    requires Lands(h, prog, Inside(c), sh, Guarded(s, at), r, end, n, t, z)
    requires CodeAt(prog, end, [PopTry]) && CodeAt(prog, end + 1, [Jump(off)])
    ensures Lands(h, prog, c, sh, s, r, end + 2 + off, n', t', z)
  {
    hide Rel, RunN;
    RunAppend(h, prog, s, 1, Guarded(s, at), n);
    n', t' := 1 + n, t;
    if r.Val? {
      assert t.handlers[..|t.handlers| - 1] == s.handlers;
      var m := t.(ip := end + 1, handlers := s.handlers);
      RunOne(h, prog, t, PopTry);
      RunAppend(h, prog, s, n', t, 1);
      RunOne(h, prog, m, Jump(off));
      RunAppend(h, prog, s, n' + 1, m, 1);
      n', t' := n' + 2, m.(ip := end + 2 + off);
    } else if r.Again? {
      var keep := |s.handlers| - (c.tries - c.lp.value.tries);
      assert Guarded(s, at).handlers[..keep] == s.handlers[..keep];
    }
  }

  /** The body threw w: it is bound in the handler's own scope, in the next slot. */
  lemma {:induction false} Catches(h: Host, prog: seq<Instr>, c: Ctx, sh: Shape, s: State, e0: Env, room: nat, at: nat,
      w: Value, e: Env, err: string, end: nat,
                                   n: nat, t: State, z: seq<Value>) returns (n': nat, s1: State)
    requires Ready(h, c, sh, s, e0, room + 1) && RunN(h, prog, s, 1) == At(Guarded(s, at)) && err != ""
    requires Lands(h, prog, Inside(c), sh, Guarded(s, at), Thrown(w, e), end, n, t, z)
    requires CodeAt(prog, at, [SetLocal(|c.locals|), Pop])
    ensures Cont(h, prog, s, n', s1) && s1.ip == at + 2
    ensures Ready(h, Bound(c, err), Named(err, Opened(sh)), s1, Child(map[err := w], e), room)
  {
    hide Rel, RunN, Exec;
    RunAppend(h, prog, s, 1, Guarded(s, at), n);
    var m := s.(ip := at, ops := s.ops + [w], slots := t.slots, g := t.g);
    assert t.handlers[..|t.handlers| - 1] == s.handlers;
    assert t.ops[..|s.ops|] == s.ops && t.freeze[..|s.freeze|] == s.freeze;
    assert ThrowTo(t, w) == At(m);
    s1 := Store(h, prog, m, s.ops, w, |c.locals|);
    RunAppend(h, prog, s, 1 + n, m, 2);
    n' := 1 + n + 2;
    OpensEmpty(e, sh, t.slots);
    BindsNext(Child(map[], e), Opened(sh), t.slots, err, w);
    assert map[][err := w] == map[err := w];
  }

  lemma {:induction false} OpensEmpty(e: Env, sh: Shape, slots: seq<Value>)
    requires Rel(e, sh, slots, {})
    ensures Rel(Child(map[], e), Opened(sh), slots, {}) && Flat(Opened(sh)) == Flat(sh)
  {
  }

  lemma {:induction false} CorrectTry(h: Host, prog: seq<Instr>, f: Form, c: Ctx, sh: Shape, s: State, e: Env, k: nat,
      arity: Option<nat>)
    returns (n: nat, t: State, z: seq<Value>)
    requires f.Try? && CodeAt(prog, s.ip, Gen(f, c, s.ip))
    requires Ready(h, c, sh, s, e, Slots(f)) && Accepted(f, arity) && InLoop(c, arity)
    ensures Lands(h, prog, c, sh, s, Eval(h, c.lisp2, f, e, k), s.ip + |Gen(f, c, s.ip)|, n, t, z)
    ensures arity.None? ==> !Eval(h, c.lisp2, f, e, k).Again?
    decreases k, f, 0
  {
    hide *;
    var pc, room := s.ip, SlotsAll(f.handler);
    UnfoldTry(h, f, c, pc, e, k, arity);
    var cb := GenBody(f.body, Inside(c), pc + 1);
    var at := pc + |cb| + 3;
    var c1, sh1 := Bound(c, f.err), Named(f.err, Opened(sh));
    var hd := GenBody(f.handler, c1, at + 2);
    SplitMiddle(prog, pc, [SetupTry(at)], cb, [PopTry] + [Jump(|hd| + 2)] + ([SetLocal(|c.locals|), Pop] + hd));
    SplitMiddle(prog, pc + 1 + |cb|, [PopTry], [Jump(|hd| + 2)], [SetLocal(|c.locals|), Pop] + hd);
    Split(prog, at, [SetLocal(|c.locals|), Pop], hd);
    var end := at + 2 + |hd|;
    SetsUp(h, prog, c, sh, s, e, Slots(f), at, arity);
    Less(h, Inside(c), sh, Guarded(s, at), e, Slots(f), SlotsAll(f.body));
    n, t, z := CorrectBody(h, prog, f.body, Inside(c), sh, Guarded(s, at), e, k, arity);
    var r0 := EvalBody(h, c.lisp2, f.body, e, k);
    if !r0.Thrown? {
      n, t := Completes(h, prog, c, sh, s, e, Slots(f), at, |hd| + 2, r0, pc + 1 + |cb|, n, t, z);
    } else {
      Less(h, c, sh, s, e, Slots(f), room + 1);
      var s1;
      n, s1 := Catches(h, prog, c, sh, s, e, room, at, r0.w, r0.e, f.err, pc + 1 + |cb|, n, t, z);
      Caught(c, f.err, arity, sh);
      var r := EvalBody(h, c.lisp2, f.handler, Child(map[f.err := r0.w], r0.e), k);
      var n1, t1;
      n1, t1, z := CorrectBody(h, prog, f.handler, c1, sh1, s1, Child(map[f.err := r0.w], r0.e), k, arity);
      LeaveAgain(r);
      Reached(h, prog, c, sh, s, e, Slots(f), n, s1);
      LeavesScope(h, prog, c, c1, sh, sh1, s1, r, end, n1, t1, z);
      n, t := Resume(h, prog, c, sh, s, e, Slots(f), n, s1, Leave(r), end, n1, t1, z);
    }
  }

  lemma {:induction false} Caught(c: Ctx, err: string, arity: Option<nat>, sh: Shape)
    ensures InLoop(c, arity) ==> InLoop(Bound(c, err), arity)
    ensures Bound(c, err).lisp2 == c.lisp2 && Bound(c, err).lp == c.lp && Bound(c, err).tries == c.tries
    ensures |Bound(c, err).locals| >= |c.locals| && Within(Named(err, Opened(sh)), sh)
  {
  }

  // ---- loop ----

  lemma {:induction false} UnfoldInits(h: Host, bs: Binds, c: Ctx, pc: nat, e: Env, k: nat)
    requires AcceptedBinds(bs)
    ensures InLoop(Bound(c, ""), None) && Bound(c, "").lisp2 == c.lisp2
    ensures bs.NoBinds? ==>
      GenInits(bs, c, pc) == [] && EvalInits(h, c.lisp2, bs, e, k) == Vals([], e) && SlotsBinds(bs) == 0
    ensures bs.Bind? ==>
      && Accepted(bs.init, None) && AcceptedBinds(bs.rest)
      && SlotsBinds(bs) == Slots(bs.init) + 1 + SlotsBinds(bs.rest)
      && (var t := Gen(bs.init, Bound(c, ""), pc);
          GenInits(bs, c, pc) == t + [SetLocal(|c.locals|), Pop] + GenInits(bs.rest, Bound(c, ""), pc + |t| + 2))
      && (var r := Eval(h, c.lisp2, bs.init, e, k);
          EvalInits(h, c.lisp2, bs, e, k) ==
            if !r.Val? then Stop(r)
            else match EvalInits(h, c.lisp2, bs.rest, r.e, k)
                 case Vals(vs, e2) => Vals([r.v] + vs, e2)
                 case Stop(r1) => Stop(r1))
  {
    hide Gen, Eval, Accepted, Slots;
  }

  /** The slot of the initializer about to run: reserved, nameless, holding what it holds. */
  lemma {:induction false} Reserves(h: Host, c: Ctx, sh: Shape, s: State, e: Env, room: nat)
    requires Ready(h, c, sh, s, e, room + 1)
    ensures |c.locals| < |s.slots| && Ready(h, Bound(c, ""), Pad(s.slots[|c.locals|], sh), s, e, room)
  {
  }

  lemma {:induction false} Fills(h: Host, prog: seq<Instr>, c: Ctx, sh: Shape, s: State, e0: Env, room: nat, w: Value,
      v: Value, e: Env, end: nat,
                                 n: nat, t: State, z: seq<Value>) returns (s1: State)
    requires Ready(h, c, sh, s, e0, room + 1) && CodeAt(prog, end, [SetLocal(|c.locals|), Pop])
    requires Lands(h, prog, Bound(c, ""), Pad(w, sh), s, Val(v, e), end, n, t, z)
    ensures Cont(h, prog, s, n + 2, s1) && s1.ip == end + 2
    ensures Ready(h, Bound(c, ""), Pad(v, sh), s1, e, room)
  {
    hide RunN, Exec;
    s1 := Store(h, prog, t, s.ops, v, |c.locals|);
    RunAppend(h, prog, s, n, t, 2);
    assert s1.slots[..|Flat(sh)|] == t.slots[..|Flat(sh)|];
    Frame(e, sh, t.slots, s1.slots, {});
  }

  ghost predicate LandsInits(h: Host, prog: seq<Instr>, c: Ctx, sh: Shape, s: State, room: nat, r: ArgsRes, end: nat,
      n: nat, t: State, z: seq<Value>) {
    match r
    case Vals(vs, e) =>
      Cont(h, prog, s, n, t) && Ready(h, c.(locals := Flat(PadAll(sh, vs))), PadAll(sh, vs), t, e, room) && t.ip == end
    case Stop(r1) => !r1.Val? && !r1.Again? && Lands(h, prog, c, sh, s, r1, end, n, t, z)
  }

  lemma {:induction false} NoInits(h: Host, prog: seq<Instr>, c: Ctx, sh: Shape, s: State, e: Env, room: nat)
    requires Ready(h, c, sh, s, e, room)
    ensures LandsInits(h, prog, c, sh, s, room, Vals([], e), s.ip, 0, s, [])
  {
    assert c.(locals := Flat(sh)) == c;
  }

  lemma {:induction false} MoreInits(h: Host, prog: seq<Instr>, c: Ctx, sh: Shape, s: State, e: Env, room0: nat,
      room: nat, n0: nat, s1: State, v: Value,
                                     r: ArgsRes, end: nat, n1: nat, t1: State, z: seq<Value>) returns (n: nat, t: State)
    requires Ready(h, c, sh, s, e, room0) && Cont(h, prog, s, n0, s1)
    requires LandsInits(h, prog, Bound(c, ""), Pad(v, sh), s1, room, r, end, n1, t1, z)
    ensures LandsInits(h, prog, c, sh, s, room, match r case Vals(vs, e2) => Vals([v] + vs, e2)
        case Stop(r1) => Stop(r1), end, n, t, z)
  {
    hide RunN;
    RunAppend(h, prog, s, n0, s1, n1);
    n, t := n0 + n1, t1;
    match r
    case Vals(vs, e2) =>
      assert ([v] + vs)[1..] == vs;
      assert PadAll(Pad(v, sh), vs) == PadAll(sh, [v] + vs);
    case Stop(r1) =>
      if r1.Thrown? {
        t := s.(slots := t1.slots, g := t1.g);
        SameThrow(t, t1, r1.w);
      }
  }

  lemma {:induction false} StopInits(h: Host, prog: seq<Instr>, c: Ctx, sh: Shape, s: State, room: nat, w: Value,
      r: Res, end: nat, end': nat,
                                     n: nat, t: State, z: seq<Value>)
    requires Lands(h, prog, Bound(c, ""), Pad(w, sh), s, r, end, n, t, z) && !r.Val? && !r.Again?
    ensures LandsInits(h, prog, c, sh, s, room, Stop(r), end', n, t, z)
  {
  }

  lemma {:induction false} CorrectInits(h: Host, prog: seq<Instr>, bs: Binds, c: Ctx, sh: Shape, s: State, e: Env,
      k: nat, room: nat)
    returns (n: nat, t: State, z: seq<Value>)
    requires CodeAt(prog, s.ip, GenInits(bs, c, s.ip)) && AcceptedBinds(bs)
    requires Ready(h, c, sh, s, e, SlotsBinds(bs) + room)
    ensures LandsInits(h, prog, c, sh, s, room, EvalInits(h, c.lisp2, bs, e, k), s.ip + |GenInits(bs, c, s.ip)|, n, t,
        z)
    decreases k, bs, 0
  {
    hide *;
    var pc, all := s.ip, SlotsBinds(bs) + room;
    UnfoldInits(h, bs, c, pc, e, k);
    if bs.NoBinds? {
      NoInits(h, prog, c, sh, s, e, room);
      n, t, z := 0, s, [];
    } else {
      var c1 := Bound(c, "");
      var ct := Gen(bs.init, c1, pc);
      var cb := GenInits(bs.rest, c1, pc + |ct| + 2);
      SplitMiddle(prog, pc, ct, [SetLocal(|c.locals|), Pop], cb);
      var r, end := Eval(h, c.lisp2, bs.init, e, k), pc + |ct| + 2 + |cb|;
      Less(h, c, sh, s, e, all, Slots(bs.init) + 1);
      Reserves(h, c, sh, s, e, Slots(bs.init));
      var w := s.slots[|c.locals|];
      n, t, z := Correct(h, prog, bs.init, c1, Pad(w, sh), s, e, k, None);
      if r.Val? {
        Less(h, c, sh, s, e, all, SlotsBinds(bs.rest) + room + 1);
        var s1 := Fills(h, prog, c, sh, s, e, SlotsBinds(bs.rest) + room, w, r.v, r.e, pc + |ct|, n, t, z);
        var n1, t1;
        n1, t1, z := CorrectInits(h, prog, bs.rest, c1, Pad(r.v, sh), s1, r.e, k, room);
        n, t := MoreInits(h, prog, c, sh, s, e, all, room, n + 2, s1, r.v, EvalInits(h, c.lisp2, bs.rest, r.e, k), end,
            n1, t1, z);
      } else {
        StopInits(h, prog, c, sh, s, room, w, r, pc + |ct|, end, n, t, z);
      }
    }
  }

  predicate NonEmpty(names: seq<string>) {
    forall i :: 0 <= i < |names| ==> names[i] != ""
  }

  lemma {:induction false} AcceptedNames(bs: Binds)
    requires AcceptedBinds(bs)
    ensures NonEmpty(Names(bs))
  {
    hide Accepted;
    if bs.Bind? { AcceptedNames(bs.rest); }
  }

  /** The initializers' values become the loop's bindings, in the slots they already fill. */
  lemma {:induction false} Enters(h: Host, c: Ctx, sh: Shape, s: State, vs: seq<Value>, names: seq<string>, e: Env,
      room: nat)
    requires Ready(h, c.(locals := Flat(PadAll(sh, vs))), PadAll(sh, vs), s, e, room) && c.locals == Flat(sh)
    requires |names| == |vs| && NonEmpty(names)
    ensures Ready(h, LoopCtx(c, names, s.ip), NamedAll(Opened(sh), names), s, Child(BindAll(map[], names, vs), e), room)
  {
    hide Rel;
    Pads(e, sh, s.slots, vs);
    OpensEmpty(e, sh, s.slots);
    NameSlots(map[], e, Opened(sh), s.slots, names, vs);
  }

  /** recur has stored the new values: the next iteration starts as the first one did. */
  lemma {:induction false} Reenters(h: Host, prog: seq<Instr>, c: Ctx, c0: Ctx, sh: Shape, names: seq<string>, s: State,
      e0: Env, room: nat,
                                    args: seq<Value>, e: Env, end: nat, n: nat, t: State, z: seq<Value>)
    requires Ready(h, c, NamedAll(Opened(sh), names), s, e0, room) && c == LoopCtx(c0, names, s.ip)
    requires c0.locals == Flat(sh) && NonEmpty(names)
    requires Lands(h, prog, c, NamedAll(Opened(sh), names), s, Again(args, e), end, n, t, z)
    ensures |args| == |names| && e.Child? && n > 0 && Cont(h, prog, s, n, t) && t.ip == s.ip
    ensures Ready(h, c, NamedAll(Opened(sh), names), t, Rebound(e, names, args), room)
  {
    hide Rel, RunN;
    assert s.handlers[..|s.handlers|] == s.handlers;
    WithinNames(Opened(sh), names, sh);
    Leaves(e, NamedAll(Opened(sh), names), z, {}, sh);
    assert t.slots[..|Flat(sh)|] == z[..|Flat(sh)|];
    assert t.slots[|Flat(sh)|..|Flat(sh)| + |args|] == args;
    Rebinds(e.vars, e.parent, sh, names, z, t.slots, args);
  }

  lemma {:induction false} UnfoldIterate(h: Host, lisp2: bool, names: seq<string>, body: Forms, e: Env, k: nat)
    ensures var r := EvalBody(h, lisp2, body, e, k);
            Iterate(h, lisp2, names, body, e, k) ==
              if !r.Again? then r
              else if |r.args| != |names| then Thrown(RecurArityError(), r.e)
              else if k == 0 then OutOfFuel(0)
              else Spend(Iterate(h, lisp2, names, body, Rebound(r.e, names, r.args), k - 1))
  {
    hide EvalBody;
  }

  lemma {:induction false} GivesUp(h: Host, prog: seq<Instr>, c: Ctx, sh: Shape, s: State, end: nat)
    ensures Lands(h, prog, c, sh, s, OutOfFuel(0), end, 0, s, [])
  {
    hide Match;
  }

  /** One more iteration: what the rest of the loop does, at least a step later. */
  lemma {:induction false} Spends(h: Host, prog: seq<Instr>, c: Ctx, sh: Shape, s: State, e: Env, room: nat, a: nat,
      s1: State,
                                  r: Res, end: nat, b: nat, t1: State, z: seq<Value>) returns (n: nat, t: State)
    requires Ready(h, c, sh, s, e, room) && a > 0 && !r.Again?
    requires Cont(h, prog, s, a, s1) && Lands(h, prog, c, sh, s1, r, end, b, t1, z)
    ensures Lands(h, prog, c, sh, s, Spend(r), end, n, t, z) && !Spend(r).Again?
  {
    hide Rel, RunN;
    if r.OutOfFuel? {
      RunAppend(h, prog, s, a, s1, b);
      n, t := a + b, t1;
    } else {
      n, t := Resume(h, prog, c, sh, s, e, room, a, s1, r, end, b, t1, z);
    }
  }

  lemma {:induction false} CorrectIterate(h: Host, prog: seq<Instr>, names: seq<string>, body: Forms, c: Ctx, c0: Ctx,
      sh: Shape, s: State, e: Env, k: nat)
    returns (n: nat, t: State, z: seq<Value>)
    requires CodeAt(prog, s.ip, GenBody(body, c, s.ip)) && AcceptedBody(body, Some(|names|)) && InLoop(c, Some(|names|))
    requires c == LoopCtx(c0, names, s.ip) && c0.locals == Flat(sh) && NonEmpty(names)
    requires Ready(h, c, NamedAll(Opened(sh), names), s, e, SlotsAll(body))
    ensures Lands(h, prog, c, NamedAll(Opened(sh), names), s, Iterate(h, c.lisp2, names, body, e, k),
        s.ip + |GenBody(body, c, s.ip)|, n, t, z)
    ensures !Iterate(h, c.lisp2, names, body, e, k).Again?
    decreases k, body, 1
  {
    hide *;
    var sh1, room, end := NamedAll(Opened(sh), names), SlotsAll(body), s.ip + |GenBody(body, c, s.ip)|;
    UnfoldIterate(h, c.lisp2, names, body, e, k);
    var r := EvalBody(h, c.lisp2, body, e, k);
    n, t, z := CorrectBody(h, prog, body, c, sh1, s, e, k, Some(|names|));
    if r.Again? {
      Reenters(h, prog, c, c0, sh, names, s, e, room, r.args, r.e, end, n, t, z);
      if k == 0 {
        n, t, z := 0, s, [];
        GivesUp(h, prog, c, sh1, s, end);
      } else {
        var e1 := Rebound(r.e, names, r.args);
        var n1, t1;
        n1, t1, z := CorrectIterate(h, prog, names, body, c, c0, sh, t, e1, k - 1);
        n, t := Spends(h, prog, c, sh1, s, e, room, n, t, Iterate(h, c.lisp2, names, body, e1, k - 1), end, n1, t1, z);
      }
    }
  }

  lemma {:induction false} UnfoldLoopEval(h: Host, f: Form, c: Ctx, e: Env, k: nat)
    requires f.Loop?
    ensures Eval(h, c.lisp2, f, e, k) ==
            match EvalInits(h, c.lisp2, f.binds, e, k)
            case Vals(vs, e1) =>
              Leave(Iterate(h, c.lisp2, Names(f.binds), f.body, Child(BindAll(map[], Names(f.binds), vs), e1), k))
            case Stop(r) => r
  {
    hide EvalAnd, EvalOr, EvalBody, EvalClauses, EvalBinds, EvalInits, EvalArgs, Iterate;
  }

  lemma {:induction false} UnfoldLoop(h: Host, f: Form, c: Ctx, pc: nat, e: Env, k: nat, arity: Option<nat>)
    requires f.Loop? && Accepted(f, arity)
    ensures AcceptedBinds(f.binds) && AcceptedBody(f.body, Some(|Names(f.binds)|))
    ensures Slots(f) == SlotsBinds(f.binds) + SlotsAll(f.body)
    ensures var t := GenInits(f.binds, c, pc);
            Gen(f, c, pc) == t + GenBody(f.body, LoopCtx(c, Names(f.binds), pc + |t|), pc + |t|)
    ensures Eval(h, c.lisp2, f, e, k) ==
            match EvalInits(h, c.lisp2, f.binds, e, k)
            case Vals(vs, e1) =>
              Leave(Iterate(h, c.lisp2, Names(f.binds), f.body, Child(BindAll(map[], Names(f.binds), vs), e1), k))
            case Stop(r) => r
  {
    hide Gen, Eval;
    OfLoop(f, c, pc);
    UnfoldLoopEval(h, f, c, e, k);
  }

  lemma {:induction false} InLoopCtx(c: Ctx, names: seq<string>, start: nat, sh: Shape)
    ensures InLoop(LoopCtx(c, names, start), Some(|names|)) && LoopCtx(c, names, start).lisp2 == c.lisp2
    ensures Within(NamedAll(Opened(sh), names), sh)
  {
    WithinNames(Opened(sh), names, sh);
  }

  lemma {:induction false} AfterInits(h: Host, prog: seq<Instr>, c: Ctx, sh: Shape, s: State, e0: Env, room0: nat,
      room: nat, names: seq<string>, r: ArgsRes, end: nat,
                                      n: nat, t: State, z: seq<Value>)
    requires Ready(h, c, sh, s, e0, room0) && NonEmpty(names) && (r.Vals? ==> |r.vs| == |names|)
    requires LandsInits(h, prog, c, sh, s, room, r, end, n, t, z)
    ensures c.locals == Flat(sh)
    ensures r.Vals? ==>
      Cont(h, prog, s, n, t) && t.ip == end &&
      Ready(h, LoopCtx(c, names, end), NamedAll(Opened(sh), names), t, Child(BindAll(map[], names, r.vs), r.e), room)
    ensures r.Stop? ==> !r.r.Val? && !r.r.Again? && Lands(h, prog, c, sh, s, r.r, end, n, t, z)
  {
    hide Lands, Match, Cont;
    if r.Vals? { Enters(h, c, sh, t, r.vs, names, r.e, room); }
  }

  lemma {:induction false} CorrectLoop(h: Host, prog: seq<Instr>, f: Form, c: Ctx, sh: Shape, s: State, e: Env, k: nat,
      arity: Option<nat>)
    returns (n: nat, t: State, z: seq<Value>)
    requires f.Loop? && CodeAt(prog, s.ip, Gen(f, c, s.ip))
    requires Ready(h, c, sh, s, e, Slots(f)) && Accepted(f, arity)
    ensures Lands(h, prog, c, sh, s, Eval(h, c.lisp2, f, e, k), s.ip + |Gen(f, c, s.ip)|, n, t, z)
    ensures !Eval(h, c.lisp2, f, e, k).Again?
    decreases k, f, 0
  {
    hide *;
    var names, pc, room := Names(f.binds), s.ip, SlotsAll(f.body);
    UnfoldLoop(h, f, c, pc, e, k, arity);
    AcceptedNames(f.binds);
    var ct := GenInits(f.binds, c, pc);
    var start := pc + |ct|;
    var c1, sh1 := LoopCtx(c, names, start), NamedAll(Opened(sh), names);
    InLoopCtx(c, names, start, sh);
    var cb := GenBody(f.body, c1, start);
    Split(prog, pc, ct, cb);
    var r0, end := EvalInits(h, c.lisp2, f.binds, e, k), start + |cb|;
    n, t, z := CorrectInits(h, prog, f.binds, c, sh, s, e, k, room);
    AfterInits(h, prog, c, sh, s, e, Slots(f), room, names, r0, start, n, t, z);
    match r0
    case Vals(vs, e1) =>
      var e2 := Child(BindAll(map[], names, vs), e1);
      var n1, t1;
      n1, t1, z := CorrectIterate(h, prog, names, f.body, c1, c, sh, t, e2, k);
      var r := Iterate(h, c.lisp2, names, f.body, e2, k);
      LeaveAgain(r);
      Reached(h, prog, c, sh, s, e, Slots(f), n, t);
      LeavesScope(h, prog, c, c1, sh, sh1, t, r, end, n1, t1, z);
      n, t := Resume(h, prog, c, sh, s, e, Slots(f), n, t, Leave(r), end, n1, t1, z);
    case Stop(r) =>
      n, t := Stops(h, prog, c, sh, s, r, start, end, n, t, z);
  }

  // ---- recur ----

  lemma {:induction false} RunStores(h: Host, prog: seq<Instr>, s: State, ops: seq<Value>, base: nat, vs: seq<Value>)
    requires s.ops == ops + vs && base + |vs| <= |s.slots| && CodeAt(prog, s.ip, StoreArgs(base, |vs|))
    ensures |StoreArgs(base, |vs|)| == 2 * |vs|
    ensures RunN(h, prog, s, 2 * |vs|) == At(s.(ip := s.ip + 2 * |vs|, ops := ops, slots := Stored(s.slots, base, vs)))
    decreases |vs|
  {
    hide Exec;
    if vs == [] {
      assert Stored(s.slots, base, vs) == s.slots && ops + vs == ops;
    } else {
      hide RunN;
      var m := |vs| - 1;
      var init, v := vs[..m], vs[m];
      assert ops + vs == ops + init + [v];
      Split(prog, s.ip, [SetLocal(base + m), Pop], StoreArgs(base, m));
      var s1 := Store(h, prog, s, ops + init, v, base + m);
      RunStores(h, prog, s1, ops, base, init);
      RunAppend(h, prog, s, 2, s1, 2 * m);
      assert Stored(s1.slots, base, init) == Stored(s.slots, base, vs);
    }
  }

  lemma {:induction false} RunNone(h: Host, prog: seq<Instr>, s: State)
    ensures RunN(h, prog, s, 0) == At(s)
  {
  }

  lemma {:induction false} RunPops(h: Host, prog: seq<Instr>, s: State, n: nat)
    requires n <= |s.handlers| && CodeAt(prog, s.ip, PopTries(n))
    ensures |PopTries(n)| == n
    ensures RunN(h, prog, s, n) == At(s.(ip := s.ip + n, handlers := s.handlers[..|s.handlers| - n]))
    decreases n
  {
    hide RunN;
    RunNone(h, prog, s);
    if n == 0 {
      assert s.handlers[..|s.handlers|] == s.handlers;
    } else {
      Split(prog, s.ip, [PopTry], PopTries(n - 1));
      RunOne(h, prog, s, PopTry);
      var s1 := s.(ip := s.ip + 1, handlers := s.handlers[..|s.handlers| - 1]);
      RunPops(h, prog, s1, n - 1);
      RunAppend(h, prog, s, 1, s1, n - 1);
      assert s1.handlers[..|s1.handlers| - (n - 1)] == s.handlers[..|s.handlers| - n];
    }
  }

  /** The arguments are on the stack: they are stored, the handlers installed in the loop are
      taken off, and control goes back to the loop's start. */
  lemma {:induction false} GoesBack(h: Host, prog: seq<Instr>, c: Ctx, sh: Shape, s: State, e0: Env, room: nat,
      vs: seq<Value>, e: Env, end: nat, end': nat,
                                    n: nat, t: State) returns (n': nat, t': State)
    requires Ready(h, c, sh, s, e0, room) && c.lp.Some? && |vs| == c.lp.value.count && c.lp.value.tries <= c.tries
    requires Ahead(h, prog, s, n, t, vs) && Match(h, e, sh, t) && t.ip == end
    requires CodeAt(prog, end, Back(c))
    ensures Lands(h, prog, c, sh, s, Again(vs, e), end', n', t', t.slots)
  {
    hide Rel, RunN, Exec;
    var lp := c.lp.value;
    var m := c.tries - lp.tries;
    SplitMiddle(prog, end, StoreArgs(lp.base, lp.count), PopTries(m), [LoopTo(lp.start)]);
    RunStores(h, prog, t, s.ops, lp.base, vs);
    var t1 := t.(ip := end + 2 * |vs|, ops := s.ops, slots := Stored(t.slots, lp.base, vs));
    RunAppend(h, prog, s, n, t, 2 * |vs|);
    RunPops(h, prog, t1, m);
    var t2 := t1.(ip := t1.ip + m, handlers := t1.handlers[..|t1.handlers| - m]);
    RunAppend(h, prog, s, n + 2 * |vs|, t1, m);
    LoopsTo(h, prog, t2, lp.start);
    RunAppend(h, prog, s, n + 2 * |vs| + m, t2, 1);
    n', t' := n + 2 * |vs| + m + 1, t2.(ip := lp.start);
  }

  lemma {:induction false} LoopsTo(h: Host, prog: seq<Instr>, s: State, addr: nat)
    requires CodeAt(prog, s.ip, [LoopTo(addr)])
    ensures RunN(h, prog, s, 1) == At(s.(ip := addr))
  {
    RunOne(h, prog, s, LoopTo(addr));
  }

  lemma {:induction false} UnfoldBack(h: Host, f: Form, c: Ctx, sh: Shape, s: State, e: Env, room: nat, k: nat,
      arity: Option<nat>)
    requires f.Recur? && Accepted(f, arity) && InLoop(c, arity) && Ready(h, c, sh, s, e, room)
    ensures arity.Some? && AcceptedArgs(f.args) && Slots(f) == SlotsAll(f.args)
    ensures c.lp.Some? && c.lp.value.tries <= c.tries && c.lp.value.count == Length(f.args)
    ensures var t := GenArgs(f.args, c, s.ip);
            Gen(f, c, s.ip) == t + Back(c)
    ensures Eval(h, c.lisp2, f, e, k) ==
            match EvalArgs(h, c.lisp2, f.args, e, k) case Vals(vs, e1) => Again(vs, e1) case Stop(r) => r
  {
    hide Rel, RunN, GenAnd, GenOr, EvalAnd, EvalOr, GenBody, EvalBody, GenClauses, EvalClauses;
    var t, lp := GenArgs(f.args, c, s.ip), c.lp.value;
    assert t + StoreArgs(lp.base, lp.count) + PopTries(c.tries - lp.tries) + [LoopTo(lp.start)] == t + Back(c);
  }

  lemma {:induction false} AfterArgs(h: Host, prog: seq<Instr>, c: Ctx, sh: Shape, s: State, r: ArgsRes, end: nat,
      n: nat, t: State, z: seq<Value>)
    requires LandsArgs(h, prog, c, sh, s, r, end, n, t, z)
    ensures r.Vals? ==> Ahead(h, prog, s, n, t, r.vs) && Match(h, r.e, sh, t) && t.ip == end
    ensures r.Stop? ==> !r.r.Val? && !r.r.Again? && Lands(h, prog, c, sh, s, r.r, end, n, t, z)
  {
    hide Lands, Match, Ahead;
  }

  lemma {:induction false} CorrectRecur(h: Host, prog: seq<Instr>, f: Form, c: Ctx, sh: Shape, s: State, e: Env, k: nat,
      arity: Option<nat>)
    returns (n: nat, t: State, z: seq<Value>)
    requires f.Recur? && CodeAt(prog, s.ip, Gen(f, c, s.ip))
    requires Ready(h, c, sh, s, e, Slots(f)) && Accepted(f, arity) && InLoop(c, arity)
    ensures Lands(h, prog, c, sh, s, Eval(h, c.lisp2, f, e, k), s.ip + |Gen(f, c, s.ip)|, n, t, z)
    ensures arity.Some?
    decreases k, f, 0
  {
    hide *;
    var pc, room := s.ip, Slots(f);
    UnfoldBack(h, f, c, sh, s, e, room, k, arity);
    var ct := GenArgs(f.args, c, pc);
    Split(prog, pc, ct, Back(c));
    var r, mid, end := EvalArgs(h, c.lisp2, f.args, e, k), pc + |ct|, pc + |ct + Back(c)|;
    n, t, z := CorrectArgs(h, prog, f.args, c, sh, s, e, k);
    AfterArgs(h, prog, c, sh, s, r, mid, n, t, z);
    match r
    case Vals(vs, e1) =>
      z := t.slots;
      n, t := GoesBack(h, prog, c, sh, s, e, room, vs, e1, mid, end, n, t);
    case Stop(r1) =>
      n, t := Stops(h, prog, c, sh, s, r1, mid, end, n, t, z);
  }

  // ---- every form ----

  lemma {:induction false} UnfoldDoCond(h: Host, f: Form, c: Ctx, pc: nat, e: Env, k: nat, arity: Option<nat>)
    requires (f.Do? || f.Cond?) && Accepted(f, arity)
    ensures f.Do? ==>
      && AcceptedBody(f.body, arity) && Slots(f) == SlotsAll(f.body)
      && Gen(f, c, pc) == GenBody(f.body, c, pc) && Eval(h, c.lisp2, f, e, k) == EvalBody(h, c.lisp2, f.body, e, k)
    ensures f.Cond? ==>
      && AcceptedClauses(f.clauses, arity) && Slots(f) == SlotsClauses(f.clauses)
      && Gen(f, c, pc) == GenClauses(f.clauses, c, pc)
      && Eval(h, c.lisp2, f, e, k) == EvalClauses(h, c.lisp2, f.clauses, e, k)
  {
    hide GenAnd, GenOr, EvalAnd, EvalOr, GenBody, EvalBody, GenClauses, EvalClauses;
  }

  lemma {:induction false} NoClosure(f: Form, arity: Option<nat>)
    requires f.Lambda?
    ensures !Accepted(f, arity)
  {
  }

  lemma {:induction false} AnyArity(f: Form, arity: Option<nat>)
    requires Accepted(f, arity)
    requires f.Const? || f.Quote? || f.Var? || f.Not? || f.Assign? || f.Throw? || f.Call?
    ensures Accepted(f, None)
  {
  }

  /** Every accepted form: walking it and running its code agree. */
  lemma {:induction false} Correct(h: Host, prog: seq<Instr>, f: Form, c: Ctx, sh: Shape, s: State, e: Env, k: nat,
      arity: Option<nat>)
    returns (n: nat, t: State, z: seq<Value>)
    requires CodeAt(prog, s.ip, Gen(f, c, s.ip))
    requires Ready(h, c, sh, s, e, Slots(f)) && Accepted(f, arity) && InLoop(c, arity)
    ensures Lands(h, prog, c, sh, s, Eval(h, c.lisp2, f, e, k), s.ip + |Gen(f, c, s.ip)|, n, t, z)
    ensures arity.None? ==> !Eval(h, c.lisp2, f, e, k).Again?
    decreases k, f, 2
  {
    hide *;
    match f
    case If(_, _, _) => n, t, z := CorrectIf(h, prog, f, c, sh, s, e, k, arity);
    case When(_, _) => n, t, z := CorrectWhen(h, prog, f, c, sh, s, e, k, arity);
    case And(_) => n, t, z := CorrectAndOr(h, prog, f, c, sh, s, e, k, arity);
    case Or(_) => n, t, z := CorrectAndOr(h, prog, f, c, sh, s, e, k, arity);
    case Let(_, _) => n, t, z := CorrectLet(h, prog, f, c, sh, s, e, k, arity);
    case Try(_, _, _) => n, t, z := CorrectTry(h, prog, f, c, sh, s, e, k, arity);
    case Loop(_, _) => n, t, z := CorrectLoop(h, prog, f, c, sh, s, e, k, arity);
    case Recur(_) => n, t, z := CorrectRecur(h, prog, f, c, sh, s, e, k, arity);
    case Do(body) =>
      UnfoldDoCond(h, f, c, s.ip, e, k, arity);
      n, t, z := CorrectBody(h, prog, body, c, sh, s, e, k, arity);
    case Cond(clauses) =>
      UnfoldDoCond(h, f, c, s.ip, e, k, arity);
      n, t, z := CorrectClauses(h, prog, clauses, c, sh, s, e, k, arity);
    case Lambda(_, _) => NoClosure(f, arity);
    case _ => n, t, z := CorrectNoTail(h, prog, f, c, sh, s, e, k, arity);
  }

  /** The forms with no tail position. */
  lemma {:induction false} CorrectNoTail(h: Host, prog: seq<Instr>, f: Form, c: Ctx, sh: Shape, s: State, e: Env,
      k: nat, arity: Option<nat>)
    returns (n: nat, t: State, z: seq<Value>)
    requires f.Const? || f.Quote? || f.Var? || f.Not? || f.Assign? || f.Throw? || f.Call?
    requires CodeAt(prog, s.ip, Gen(f, c, s.ip)) && Ready(h, c, sh, s, e, Slots(f)) && Accepted(f, arity)
    ensures Lands(h, prog, c, sh, s, Eval(h, c.lisp2, f, e, k), s.ip + |Gen(f, c, s.ip)|, n, t, z)
    ensures !Eval(h, c.lisp2, f, e, k).Again?
    decreases k, f, 1
  {
    hide *;
    AnyArity(f, arity);
    match f
    case Not(_) => n, t, z := CorrectNot(h, prog, f, c, sh, s, e, k);
    case Assign(_, _) => n, t, z := CorrectAssign(h, prog, f, c, sh, s, e, k);
    case Throw(_) => n, t, z := CorrectThrow(h, prog, f, c, sh, s, e, k);
    case Call(head, args) =>
      if NativeHead(c, head).None? {
        n, t, z := CorrectCall(h, prog, f, c, sh, s, e, k);
      } else {
        UnfoldNative(h, f, c, s.ip, e, k);
        if FuseCall(c, NativeHead(c, head).value, head.name, args).None? {
          n, t, z := CorrectUnfused(h, prog, f, c, sh, s, e, k);
        } else {
          n, t, z := CorrectFused(h, prog, f, c, sh, s, e, k);
        }
      }
    case _ => n, t, z := CorrectLeaf(h, prog, f, c, sh, s, e, k);
  }
}
