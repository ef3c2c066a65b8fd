/** What compiled code is: every instruction of a finished chunk tree is in range, and the code
    of a form without closures decodes to the instructions its meaning is proved of. */
module Emission {
  import opened Forms
  import opened Machine
  import opened CodeGen
  import opened Bytecode
  import opened Lowering

  // ---- what holds of a word ----

  /** The instruction a word stands for before it is packed. */
  function Stands(u: Unit, w: Raw): Option<Instr> {
    Decode(u.constants, u.fused, Word(w.op, w.a))
  }

  /** The word is in range at its place in a fragment of code that ends at end. */
  predicate Fine(u: Unit, w: Raw, at: nat, end: nat) {
    (w.nested || w.op.OpClosure?) && match w.op
    case OpConst => w.a < |u.constants|
    case OpGetGlobal => IsSymbol(u.constants, w.a)
    case OpGetFunc => IsSymbol(u.constants, w.a)
    case OpCheckLexical => IsSymbol(u.constants, w.a)
    case OpSetLexical => IsSymbol(u.constants, w.a)
    case OpFreezeNative => IsSymbol(u.constants, w.a)
    case OpFreezeNativeFunc => IsSymbol(u.constants, w.a)
    case OpJump => at + 1 + w.a <= end
    case OpJumpIfFalse => at + 1 + w.a <= end
    case OpLoop => w.a <= at
    case OpSetupTry => w.a <= end
    case OpGetLocal => w.a < u.locals
    case OpSetLocal => w.a < u.locals
    case OpGetCell => false
    case OpSetCell => false
    case OpBindCell => false
    case OpGetCap => w.a < |u.descs|
    case OpSetCap => w.a < |u.descs|
    case OpFused => w.a < |u.fused| && FusedOk(u.fused[w.a], u.constants, u.locals)
    case OpClosure => w.a < |u.subs| && (w.nested ==> Valid(u.subs[w.a])) && DescsOk(u, u.subs[w.a].caps)
    case OpCall => w.a <= at
    case OpNative(_) => w.a <= at
    case _ => w.a == 0
  }

  predicate DescsOk(p: Unit, descs: seq<CapDesc>) {
    forall i :: 0 <= i < |descs| ==> DescOk(descs[i], p.captured, |p.descs|, p.locals)
  }

  ghost predicate AllFine(u: Unit, ws: seq<Raw>, at: nat) {
    forall k :: 0 <= k < |ws| ==> Fine(u, ws[k], at + k, at + |ws|)
  }

  ghost predicate Decodes(u: Unit, ws: seq<Raw>, code: seq<Instr>) {
    |ws| == |code| && forall k :: 0 <= k < |ws| ==> Stands(u, ws[k]) == Some(code[k])
  }

  ghost predicate Good(u: Unit, ws: seq<Raw>, at: nat, out: Option<seq<Instr>>) {
    AllFine(u, ws, at) && (out.Some? ==> Decodes(u, ws, out.value))
  }

  // ---- growth ----

  predicate Marks(a: seq<bool>, b: seq<bool>) {
    |a| <= |b| && forall i :: 0 <= i < |a| && a[i] ==> b[i]
  }

  predicate Grows(u: Unit, v: Unit) {
    && u.pc <= v.pc && u.constants <= v.constants && u.fused <= v.fused && u.subs <= v.subs
    && u.locals <= v.locals && u.descs <= v.descs && Marks(u.captured, v.captured)
    && u.binds <= v.binds && u.params == v.params
  }

  /** The innermost function grew; the ones around it gained captures at most. */
  ghost predicate Grown(us: Nest, vs: Nest) {
    |us| == |vs| && Grows(Top(us), Top(vs)) && forall i :: 0 <= i < |us| - 1 ==> Gained(us[i], vs[i])
  }

  predicate Gained(u: Unit, v: Unit) {
    && v == u.(caps := v.caps, descs := v.descs, captured := v.captured)
    && u.descs <= v.descs && Marks(u.captured, v.captured)
  }

  predicate LoopOk(u: Unit, lp: LoopFrame) {
    lp.start <= u.pc && lp.base + lp.count <= u.locals && lp.tries <= u.tries
  }

  predicate Distinct(vs: seq<Value>) {
    forall i, j :: 0 <= i < j < |vs| ==> vs[i] != vs[j]
  }

  predicate UnitOk(u: Unit) {
    && |u.names| <= u.locals && |u.caps| == |u.descs| && |u.captured| <= u.locals && Distinct(u.constants)
    && forall i :: 0 <= i < |u.loops| ==> LoopOk(u, u.loops[i])
  }

  /** Every function is in order, and captures only what the one around it has. */
  ghost predicate Sound(us: Nest) {
    && (forall i :: 0 <= i < |us| ==> UnitOk(us[i]))
    && (forall i :: 0 < i < |us| ==> DescsOk(us[i - 1], us[i].descs))
  }

  /** The names the functions around the innermost one bind. */
  function Outer(us: Nest): set<string> {
    set i: nat, j: nat | i < |us| - 1 && j < |us[i].names| :: us[i].names[j]
  }

  lemma {:induction false} OuterAlone(us: Nest)
    requires |us| == 1
    ensures Outer(us) == {}
  {
  }

  /** Growing changes no name around the innermost function, and drops no capture of it. */
  lemma {:induction false} GrownOuter(us: Nest, vs: Nest)
    requires Grown(us, vs)
    ensures Outer(vs) == Outer(us) && (Top(vs).descs == [] ==> Top(us).descs == [])
  {
    hide Grows;
    assert Top(us).descs <= Top(vs).descs by { GrowsDescs(Top(us), Top(vs)); }
    forall i | 0 <= i < |us| - 1 ensures vs[i].names == us[i].names { assert Gained(us[i], vs[i]); }
    forall x | x in Outer(us) ensures x in Outer(vs) {
      var i: nat, j: nat :| i < |us| - 1 && j < |us[i].names| && us[i].names[j] == x;
      assert vs[i].names[j] == x;
    }
    forall x | x in Outer(vs) ensures x in Outer(us) {
      var i: nat, j: nat :| i < |vs| - 1 && j < |vs[i].names| && vs[i].names[j] == x;
      assert us[i].names[j] == x;
    }
  }

  lemma {:induction false} GrowsDescs(u: Unit, v: Unit)
    requires Grows(u, v)
    ensures u.descs <= v.descs
  {
  }

  lemma {:induction false} GrowsOn(u: Unit, v: Unit, w: Unit)
    requires Grows(u, v) && Grows(v, w)
    ensures Grows(u, w)
  {
  }

  lemma {:induction false} GrownOn(us: Nest, vs: Nest, zs: Nest)
    requires Grown(us, vs) && Grown(vs, zs)
    ensures Grown(us, zs)
  {
    GrowsOn(Top(us), Top(vs), Top(zs));
    forall i | 0 <= i < |us| - 1 ensures Gained(us[i], zs[i]) { assert Gained(us[i], vs[i]) && Gained(vs[i], zs[i]); }
  }

  lemma {:induction false} DescStays(d: CapDesc, u: Unit, v: Unit)
    requires Marks(u.captured, v.captured) && |u.descs| <= |v.descs| && u.locals <= v.locals
    requires DescOk(d, u.captured, |u.descs|, u.locals)
    ensures DescOk(d, v.captured, |v.descs|, v.locals)
  {
  }

  lemma {:induction false} DescsStay(descs: seq<CapDesc>, u: Unit, v: Unit)
    requires Marks(u.captured, v.captured) && |u.descs| <= |v.descs| && u.locals <= v.locals && DescsOk(u, descs)
    ensures DescsOk(v, descs)
  {
    hide DescOk, Marks;
    forall i | 0 <= i < |descs| ensures DescOk(descs[i], v.captured, |v.descs|, v.locals) { DescStays(descs[i], u, v); }
  }

  lemma {:induction false} FineStays(u: Unit, v: Unit, w: Raw, at: nat, end: nat, end': nat)
    requires Fine(u, w, at, end) && Grows(u, v) && end <= end'
    ensures Fine(v, w, at, end')
  {
    hide Valid;
    if w.op.OpClosure? { DescsStay(u.subs[w.a].caps, u, v); }
  }

  lemma {:induction false} StandsStays(u: Unit, v: Unit, w: Raw)
    requires Grows(u, v) && Stands(u, w).Some?
    ensures Stands(v, w) == Stands(u, w)
  {
  }

  lemma {:induction false} GoodStays(u: Unit, v: Unit, ws: seq<Raw>, at: nat, out: Option<seq<Instr>>)
    requires Good(u, ws, at, out) && Grows(u, v)
    ensures Good(v, ws, at, out)
  {
    hide Fine, Grows, Stands;
    forall k | 0 <= k < |ws| ensures Fine(v, ws[k], at + k, at + |ws|) {
      FineStays(u, v, ws[k], at + k, at + |ws|, at + |ws|);
    }
    if out.Some? {
      forall k | 0 <= k < |ws| ensures Stands(v, ws[k]) == Some(out.value[k]) { StandsStays(u, v, ws[k]); }
    }
  }

  function Joined(a: Option<seq<Instr>>, b: Option<seq<Instr>>): Option<seq<Instr>> {
    if a.Some? && b.Some? then Some(a.value + b.value) else None
  }

  lemma {:induction false} GoodJoined(u: Unit, x: seq<Raw>, y: seq<Raw>, at: nat, a: Option<seq<Instr>>,
      b: Option<seq<Instr>>)
    requires Good(u, x, at, a) && Good(u, y, at + |x|, b)
    ensures Good(u, x + y, at, Joined(a, b))
  {
    hide Fine, Stands;
    var ws := x + y;
    forall k | 0 <= k < |ws| ensures Fine(u, ws[k], at + k, at + |ws|) {
      if k < |x| { Later(u, x[k], at + k, at + |x|, at + |ws|); } else { assert ws[k] == y[k - |x|]; }
    }
  }

  lemma {:induction false} Later(u: Unit, w: Raw, at: nat, end: nat, end': nat)
    requires Fine(u, w, at, end) && end <= end'
    ensures Fine(u, w, at, end')
  {
    hide Valid, DescsOk;
  }

  // ---- code for the innermost function ----

  /** c continues us: the functions grew, in order; the innermost has the given names in scope,
      its loops and try scopes as before; and what was emitted is in range, and stands for out
      when there is such. */
  ghost predicate Made(us: Nest, c: Code, names: seq<string>, out: Option<seq<Instr>>) {
    var u, v := Top(us), Top(c.us);
    && Grown(us, c.us) && Sound(c.us) && v.pc == u.pc + |c.ws|
    && v.names == names && v.loops == u.loops && v.tries == u.tries
    && (out.Some? ==> |out.value| == |c.ws|)
    && Good(v, c.ws, u.pc, out)
  }

  lemma {:induction false} Then(us: Nest, a: Code, b: Code, n1: seq<string>, n2: seq<string>, x: Option<seq<Instr>>,
      y: Option<seq<Instr>>)
    requires Made(us, a, n1, x) && Made(a.us, b, n2, y)
    ensures Made(us, Code(b.us, a.ws + b.ws), n2, Joined(x, y))
  {
    hide Grows, Gained, Good, Sound;
    GrownOn(us, a.us, b.us);
    GoodStays(Top(a.us), Top(b.us), a.ws, Top(us).pc, x);
    GoodJoined(Top(b.us), a.ws, b.ws, Top(us).pc, x, y);
  }

  lemma {:induction false} Nothing(us: Nest)
    requires Sound(us)
    ensures Made(us, Code(us, []), Top(us).names, Some([]))
  {
    SelfGrown(us);
  }

  lemma {:induction false} SelfGrown(us: Nest)
    ensures Grown(us, us)
  {
  }

  /** A unit that changed in no way Sound looks at except by growing. */
  lemma {:induction false} SoundPut(us: Nest, u: Unit)
    requires Sound(us) && UnitOk(u) && u.descs == Top(us).descs
    ensures Sound(Put(us, u))
  {
    hide UnitOk, DescsOk;
  }

  lemma {:induction false} GrownPut(us: Nest, u: Unit)
    requires Grows(Top(us), u)
    ensures Grown(us, Put(us, u))
  {
    hide Grows;
    SelfGrown(us);
  }

  lemma {:induction false} TopOk(us: Nest)
    requires Sound(us)
    ensures UnitOk(Top(us))
  {
    hide UnitOk;
  }

  /** One instruction. */
  lemma {:induction false} Leaf(us: Nest, w: Raw, i: Option<Instr>)
    requires Sound(us) && Fine(Top(us), w, Top(us).pc, Top(us).pc + 1)
    requires i.Some? ==> Stands(Top(us), w) == i
    ensures Made(us, Code(Skip(us, 1), [w]), Top(us).names, if i.Some? then Some([i.value]) else None)
  {
    hide Stands, Fine;
    TopOk(us);
    var u := Top(us);
    var v := u.(pc := u.pc + 1);
    SoundPut(us, v);
    GrownPut(us, v);
    FineStays(u, v, w, u.pc, u.pc + 1, u.pc + 1);
    if i.Some? { StandsStays(u, v, w); }
  }

  /** Room for an instruction whose operand is only known later. */
  lemma {:induction false} Skipped(us: Nest, n: nat)
    requires Sound(us)
    ensures Sound(Skip(us, n)) && Grown(us, Skip(us, n))
    ensures Outer(Skip(us, n)) == Outer(us) && Top(Skip(us, n)).descs == Top(us).descs
  {
    hide Outer;
    TopOk(us);
    var v := Top(us).(pc := Top(us).pc + n);
    SoundPut(us, v);
    GrownPut(us, v);
    GrownOuter(us, Skip(us, n));
  }

  predicate IsJump(op: Opcode) {
    op.OpJump? || op.OpJumpIfFalse?
  }

  /** A jump over n words to the end of its fragment. */
  lemma {:induction false} JumpFine(u: Unit, op: Opcode, n: nat, at: nat, end: nat)
    requires IsJump(op) && at + 1 + n <= end
    ensures Fine(u, Raw(op, n), at, end)
    ensures Stands(u, Raw(op, n)) == Some(if op.OpJump? then Jump(n) else JumpIfFalse(n))
  {
  }

  /** The words of a fragment stay fine when words are put around it. */
  lemma {:induction false} Placed(u: Unit, ws: seq<Raw>, at: nat, all: seq<Raw>, start: nat, k: nat)
    requires AllFine(u, ws, at) && start <= at && at - start + |ws| <= |all| && all[at - start..at - start + |ws|] == ws
    requires at - start <= k < at - start + |ws|
    ensures Fine(u, all[k], start + k, start + |all|)
  {
    hide Fine;
    var j := k - (at - start);
    assert all[k] == all[at - start..at - start + |ws|][j] == ws[j];
    Later(u, ws[j], at + j, at + |ws|, start + |all|);
  }

  function IfElseOut(a: Option<seq<Instr>>, b: Option<seq<Instr>>): Option<seq<Instr>> {
    if a.Some? && b.Some? then Some([JumpIfFalse(|a.value| + 1)] + a.value + [Jump(|b.value|)] + b.value) else None
  }

  lemma {:induction false} IfElseGood(u: Unit, a: seq<Raw>, b: seq<Raw>, at: nat, x: Option<seq<Instr>>,
      y: Option<seq<Instr>>)
    requires Good(u, a, at + 1, x) && Good(u, b, at + |a| + 2, y)
    ensures Good(u, IfElse(a, b), at, IfElseOut(x, y))
  {
    hide Fine, Stands;
    var ws := IfElse(a, b);
    JumpFine(u, OpJumpIfFalse, |a| + 1, at, at + |ws|);
    JumpFine(u, OpJump, |b|, at + |a| + 1, at + |ws|);
    assert ws[1..1 + |a|] == a && ws[|a| + 2..|a| + 2 + |b|] == b;
    forall k | 0 <= k < |ws| ensures Fine(u, ws[k], at + k, at + |ws|) {
      if 1 <= k < |a| + 1 { Placed(u, a, at + 1, ws, at, k); }
      else if k >= |a| + 2 { Placed(u, b, at + |a| + 2, ws, at, k); }
    }
    if x.Some? && y.Some? {
      var code := IfElseOut(x, y).value;
      forall k | 0 <= k < |ws| ensures Stands(u, ws[k]) == Some(code[k]) {
        if 1 <= k < |a| + 1 { assert ws[k] == a[k - 1] && code[k] == x.value[k - 1]; }
        else if k >= |a| + 2 { assert ws[k] == b[k - |a| - 2] && code[k] == y.value[k - |a| - 2]; }
      }
    }
  }

  /** A then part and an else part, with the jumps over them. */
  lemma {:induction false} Branches(us: Nest, a: Code, b: Code, names: seq<string>, x: Option<seq<Instr>>,
      y: Option<seq<Instr>>)
    requires Sound(us) && Made(Skip(us, 1), a, names, x) && Made(Skip(a.us, 1), b, names, y)
    ensures Made(us, Code(b.us, IfElse(a.ws, b.ws)), names, IfElseOut(x, y))
  {
    hide Grows, Gained, Good, Sound;
    Skipped(us, 1);
    Skipped(a.us, 1);
    GrownOn(us, Skip(us, 1), a.us);
    GrownOn(us, a.us, Skip(a.us, 1));
    GrownOn(us, Skip(a.us, 1), b.us);
    GrownOn(a.us, Skip(a.us, 1), b.us);
    GoodStays(Top(a.us), Top(b.us), a.ws, Top(us).pc + 1, x);
    IfElseGood(Top(b.us), a.ws, b.ws, Top(us).pc, x, y);
  }

  function AndOut(x: Option<seq<Instr>>): Option<seq<Instr>> {
    if x.Some? then Some([Dup, JumpIfFalse(1 + |x.value|), Pop] + x.value) else None
  }

  function OrOut(x: Option<seq<Instr>>): Option<seq<Instr>> {
    if x.Some? then Some([Dup, JumpIfFalse(1), Jump(1 + |x.value|), Pop] + x.value) else None
  }

  lemma {:induction false} PlainFine(u: Unit, op: Opcode, at: nat, end: nat)
    requires op.OpDup? || op.OpPop? || op.OpPopTry?
    ensures Fine(u, Raw(op, 0), at, end)
    ensures Stands(u, Raw(op, 0)) == Some(if op.OpDup? then Dup else if op.OpPop? then Pop else PopTry)
  {
  }

  lemma {:induction false} AndGood(u: Unit, ws: seq<Raw>, at: nat, x: Option<seq<Instr>>)
    requires Good(u, ws, at + 3, x)
    ensures Good(u, AndThen(ws), at, AndOut(x))
  {
    hide Fine, Stands;
    var all := AndThen(ws);
    PlainFine(u, OpDup, at, at + |all|);
    PlainFine(u, OpPop, at + 2, at + |all|);
    JumpFine(u, OpJumpIfFalse, 1 + |ws|, at + 1, at + |all|);
    assert all[3..3 + |ws|] == ws;
    forall k | 0 <= k < |all| ensures Fine(u, all[k], at + k, at + |all|) {
      if k >= 3 { Placed(u, ws, at + 3, all, at, k); }
    }
    if x.Some? {
      forall k | 0 <= k < |all| ensures Stands(u, all[k]) == Some(AndOut(x).value[k]) {
        if k >= 3 { assert all[k] == ws[k - 3] && AndOut(x).value[k] == x.value[k - 3]; }
      }
    }
  }

  lemma {:induction false} OrGood(u: Unit, ws: seq<Raw>, at: nat, x: Option<seq<Instr>>)
    requires Good(u, ws, at + 4, x)
    ensures Good(u, OrElse(ws), at, OrOut(x))
  {
    hide Fine, Stands;
    var all := OrElse(ws);
    PlainFine(u, OpDup, at, at + |all|);
    PlainFine(u, OpPop, at + 3, at + |all|);
    JumpFine(u, OpJumpIfFalse, 1, at + 1, at + |all|);
    JumpFine(u, OpJump, 1 + |ws|, at + 2, at + |all|);
    assert all[4..4 + |ws|] == ws;
    forall k | 0 <= k < |all| ensures Fine(u, all[k], at + k, at + |all|) {
      if k >= 4 { Placed(u, ws, at + 4, all, at, k); }
    }
    if x.Some? {
      forall k | 0 <= k < |all| ensures Stands(u, all[k]) == Some(OrOut(x).value[k]) {
        if k >= 4 { assert all[k] == ws[k - 4] && OrOut(x).value[k] == x.value[k - 4]; }
      }
    }
  }

  /** The next argument of and or or, with the jump over it. */
  lemma {:induction false} Circuits(us: Nest, c: Code, names: seq<string>, x: Option<seq<Instr>>, isAnd: bool)
    requires Sound(us) && Made(Skip(us, if isAnd then 3 else 4), c, names, x)
    ensures Made(us, Code(c.us, if isAnd then AndThen(c.ws) else OrElse(c.ws)), names, if isAnd then AndOut(x)
        else OrOut(x))
  {
    hide Grows, Gained, Good, Sound;
    var n := if isAnd then 3 else 4;
    Skipped(us, n);
    GrownOn(us, Skip(us, n), c.us);
    if isAnd { AndGood(Top(c.us), c.ws, Top(us).pc, x); } else { OrGood(Top(c.us), c.ws, Top(us).pc, x); }
  }

  function TryOut(pc: nat, b: Option<seq<Instr>>, h: Option<seq<Instr>>): Option<seq<Instr>> {
    if b.Some? && h.Some? then Some([SetupTry(pc + |b.value| + 3)] + b.value + [PopTry, Jump(|h.value|)] + h.value)
        else None
  }

  lemma {:induction false} SetupFine(u: Unit, a: nat, at: nat, end: nat)
    requires a <= end
    ensures Fine(u, Raw(OpSetupTry, a), at, end) && Stands(u, Raw(OpSetupTry, a)) == Some(SetupTry(a))
  {
  }

  lemma {:induction false} TryGood(u: Unit, b: seq<Raw>, h: seq<Raw>, at: nat, x: Option<seq<Instr>>,
      y: Option<seq<Instr>>)
    requires Good(u, b, at + 1, x) && Good(u, h, at + |b| + 3, y)
    ensures Good(u, TryCatch(at, b, h), at, TryOut(at, x, y))
  {
    hide Fine, Stands;
    var all := TryCatch(at, b, h);
    SetupFine(u, at + |b| + 3, at, at + |all|);
    PlainFine(u, OpPopTry, at + |b| + 1, at + |all|);
    JumpFine(u, OpJump, |h|, at + |b| + 2, at + |all|);
    assert all[1..1 + |b|] == b && all[|b| + 3..|b| + 3 + |h|] == h;
    forall k | 0 <= k < |all| ensures Fine(u, all[k], at + k, at + |all|) {
      if 1 <= k < |b| + 1 { Placed(u, b, at + 1, all, at, k); }
      else if k >= |b| + 3 { Placed(u, h, at + |b| + 3, all, at, k); }
    }
    if x.Some? && y.Some? {
      var code := TryOut(at, x, y).value;
      forall k | 0 <= k < |all| ensures Stands(u, all[k]) == Some(code[k]) {
        if 1 <= k < |b| + 1 { assert all[k] == b[k - 1] && code[k] == x.value[k - 1]; }
        else if k >= |b| + 3 { assert all[k] == h[k - |b| - 3] && code[k] == y.value[k - |b| - 3]; }
      }
    }
  }

  // ---- changes of scope ----

  lemma {:induction false} Change(us: Nest, v: Unit)
    requires Sound(us) && Grows(Top(us), v) && UnitOk(v) && v.descs == Top(us).descs
    ensures Sound(Put(us, v)) && Grown(us, Put(us, v))
  {
    hide Sound, Grown, Grows, UnitOk;
    SoundPut(us, v);
    GrownPut(us, v);
  }

  lemma {:induction false} RestoreOk(us: Nest, vs: Nest)
    requires Sound(us) && Sound(vs) && Grown(us, vs)
    ensures Sound(Restore(vs, Top(us))) && Grown(us, Restore(vs, Top(us))) && Grown(vs, Restore(vs, Top(us)))
  {
    hide Sound, Gained, DescsOk;
    TopOk(us);
    TopOk(vs);
    var u, v := Top(us), Top(vs);
    var w := v.(names := u.names, loops := u.loops, tries := u.tries);
    forall i | 0 <= i < |w.loops| ensures LoopOk(w, w.loops[i]) { assert LoopOk(u, u.loops[i]); }
    Change(vs, w);
    GrownOn(us, vs, Put(vs, w));
  }

  lemma {:induction false} ReserveOk(us: Nest, x: string)
    requires Sound(us)
    ensures Sound(Reserve(us, x)) && Grown(us, Reserve(us, x))
    ensures Outer(Reserve(us, x)) == Outer(us) && Top(Reserve(us, x)).descs == Top(us).descs
  {
    hide Sound, Outer;
    TopOk(us);
    var u := Top(us);
    var v := u.(names := u.names + [x], locals := u.locals + 1);
    forall i | 0 <= i < |v.loops| ensures LoopOk(v, v.loops[i]) { assert LoopOk(u, u.loops[i]); }
    Change(us, v);
    GrownOuter(us, Reserve(us, x));
  }

  /** Code of an inner scope, seen from outside it. */
  lemma {:induction false} Leaves(us: Nest, vs: Nest, c: Code, names: seq<string>, x: Option<seq<Instr>>)
    requires Sound(us) && Grown(us, vs) && Top(vs).pc == Top(us).pc && Made(vs, c, names, x)
    ensures Made(us, Code(Restore(c.us, Top(us)), c.ws), Top(us).names, x)
  {
    hide Grows, Gained, Good, Sound;
    GrownOn(us, vs, c.us);
    RestoreOk(us, c.us);
    var v := Top(Restore(c.us, Top(us)));
    GoodStays(Top(c.us), v, c.ws, Top(us).pc, x);
  }

  // ---- constants ----

  lemma {:induction false} IndexFinds(vs: seq<Value>, v: Value)
    ensures IndexOf(vs, v) <= |vs| && (IndexOf(vs, v) < |vs| ==> vs[IndexOf(vs, v)] == v)
    ensures IndexOf(vs, v) == |vs| ==> v !in vs
  {
    if vs != [] && vs[0] != v { IndexFinds(vs[1..], v); }
  }

  lemma {:induction false} InternedAt(u: Unit, v: Value)
    ensures var u', i := Interned(u, v), IndexOf(u.constants, v);
      i < |u'.constants| && u'.constants[i] == v && Grows(u, u') && (UnitOk(u) ==> UnitOk(u'))
  {
    IndexFinds(u.constants, v);
    forall i | 0 <= i < |u.loops| && LoopOk(u, u.loops[i]) ensures LoopOk(Interned(u, v), u.loops[i]) {}
  }

  /** The instruction of a constant, or of a name. */
  function ConstInstr(op: Opcode, v: Value): Instr {
    if !v.Sym? || op.OpConst? then Push(v)
    else if op.OpGetGlobal? then GetGlobal(v.name)
    else if op.OpGetFunc? then GetFunc(v.name)
    else if op.OpCheckLexical? then CheckLexical(v.name)
    else if op.OpSetLexical? then SetLexical(v.name)
    else Freeze(v.name, op.OpFreezeNativeFunc?)
  }

  predicate IsNameOp(op: Opcode) {
    || op.OpGetGlobal? || op.OpGetFunc? || op.OpCheckLexical? || op.OpSetLexical?
    || op.OpFreezeNative? || op.OpFreezeNativeFunc?
  }

  lemma {:induction false} ConstFine(u: Unit, op: Opcode, i: nat, at: nat)
    requires i < |u.constants| && (op.OpConst? || (IsNameOp(op) && u.constants[i].Sym?))
    ensures Fine(u, Raw(op, i), at, at + 1) && Stands(u, Raw(op, i)) == Some(ConstInstr(op, u.constants[i]))
  {
  }

  lemma {:induction false} ConstMade(us: Nest, op: Opcode, v: Value)
    requires Sound(us) && (op.OpConst? || (IsNameOp(op) && v.Sym?))
    ensures Made(us, WithConst(us, op, v), Top(us).names, Some([ConstInstr(op, v)]))
  {
    hide Grows, Gained, Good, Sound, Fine, Stands, UnitOk, IndexOf, Grown;
    var u, i := Top(us), IndexOf(Top(us).constants, v);
    var u' := Interned(u, v);
    TopOk(us);
    InternedAt(u, v);
    Change(us, u');
    var us' := Put(us, u');
    ConstFine(u', op, i, u'.pc);
    Leaf(us', Raw(op, i), Some(ConstInstr(op, v)));
    After(us, us', WithConst(us, op, v), Some([ConstInstr(op, v)]));
  }

  /** Code made after a change that emitted nothing. */
  lemma {:induction false} After(us: Nest, vs: Nest, c: Code, x: Option<seq<Instr>>)
    requires Grown(us, vs) && Top(vs).pc == Top(us).pc && Top(vs).names == Top(us).names
    requires Top(vs).loops == Top(us).loops && Top(vs).tries == Top(us).tries
    requires Made(vs, c, Top(us).names, x)
    ensures Made(us, c, Top(us).names, x)
  {
    hide Grows, Gained, Good, Sound;
    GrownOn(us, vs, c.us);
  }

  // ---- slots ----

  lemma {:induction false} ResolvedAt(names: seq<string>, x: string)
    ensures ResolveLocal(names, x).Some? ==>
      ResolveLocal(names, x).value < |names| && names[ResolveLocal(names, x).value] == x
  {
    if names != [] && names[|names| - 1] != x { ResolvedAt(names[..|names| - 1], x); }
  }

  lemma {:induction false} SlotFine(u: Unit, op: Opcode, i: nat, at: nat, end: nat)
    requires i < u.locals && (op.OpGetLocal? || op.OpSetLocal?)
    ensures Fine(u, Raw(op, i), at, end)
    ensures Stands(u, Raw(op, i)) == Some(if op.OpGetLocal? then GetLocal(i) else SetLocal(i))
  {
  }

  lemma {:induction false} SlotMade(us: Nest, op: Opcode, i: nat)
    requires Sound(us) && i < Top(us).locals && (op.OpGetLocal? || op.OpSetLocal?)
    ensures Made(us, One(us, op, i), Top(us).names, Some([if op.OpGetLocal? then GetLocal(i) else SetLocal(i)]))
  {
    hide Grows, Gained, Good, Sound, Fine, Stands, Grown;
    SlotFine(Top(us), op, i, Top(us).pc, Top(us).pc + 1);
    Leaf(us, Raw(op, i), Some(if op.OpGetLocal? then GetLocal(i) else SetLocal(i)));
  }

  lemma {:induction false} BindMade(us: Nest, slot: nat)
    requires Sound(us) && slot < Top(us).locals
    ensures Made(us, BindSlot(us, slot), Top(us).names, Some([SetLocal(slot), Pop]))
  {
    hide Grows, Gained, Good, Sound, Fine, Stands, Grown;
    var u := Top(us);
    var v := u.(binds := u.binds + {u.pc});
    TopOk(us);
    assert UnitOk(v) && Grows(u, v) by { BindsIgnored(u, v); }
    Change(us, v);
    var vs := Put(us, v);
    SlotMade(vs, OpSetLocal, slot);
    var a := One(vs, OpSetLocal, slot);
    PlainMade(a.us, OpPop);
    var b := One(a.us, OpPop, 0);
    Then(vs, a, b, u.names, u.names, Some([SetLocal(slot)]), Some([Pop]));
    assert [SetLocal(slot)] + [Pop] == [SetLocal(slot), Pop];
    assert a.ws + b.ws == BindSlot(us, slot).ws;
    assert Code(b.us, a.ws + b.ws) == BindSlot(us, slot);
    After(us, vs, BindSlot(us, slot), Some([SetLocal(slot), Pop]));
  }

  lemma {:induction false} BindsIgnored(u: Unit, v: Unit)
    requires UnitOk(u) && v == u.(binds := v.binds) && u.binds <= v.binds
    ensures UnitOk(v) && Grows(u, v)
  {
    forall i | 0 <= i < |u.loops| ensures LoopOk(v, v.loops[i]) { assert LoopOk(u, u.loops[i]); }
  }

  /** Instructions that always fit. */
  predicate IsPlain(op: Opcode) {
    op.OpNil? || op.OpTrue? || op.OpFalse? || op.OpPop? || op.OpDup? || op.OpThrow? || op.OpPopTry? || op.OpReturn?
  }

  function PlainInstr(op: Opcode): Instr {
    if op.OpNil? then PushNil else if op.OpTrue? then PushTrue else if op.OpFalse? then PushFalse
    else if op.OpPop? then Pop else if op.OpDup? then Dup else if op.OpThrow? then Raise
    else if op.OpPopTry? then PopTry else Return
  }

  lemma {:induction false} PlainMade(us: Nest, op: Opcode)
    requires Sound(us) && IsPlain(op)
    ensures Made(us, One(us, op, 0), Top(us).names, Some([PlainInstr(op)]))
  {
    hide Grows, Gained, Good, Sound, Grown;
    Leaf(us, Raw(op, 0), Some(PlainInstr(op)));
  }

  /** Calls: the operand is the number of arguments, each of which was code of its own. */
  lemma {:induction false} CountMade(us: Nest, op: Opcode, n: nat)
    requires Sound(us) && (op.OpCall? || op.OpNative?) && n <= Top(us).pc
    ensures Made(us, One(us, op, n), Top(us).names, Some([if op.OpCall? then Invoke(n) else Native(op.native, n)]))
  {
    hide Grows, Gained, Good, Sound, Grown;
    Leaf(us, Raw(op, n), Some(if op.OpCall? then Invoke(n) else Native(op.native, n)));
  }

  // ---- captures ----

  lemma {:induction false} MarkMarks(captured: seq<bool>, slot: nat)
    ensures var m := Mark(captured, slot);
      Marks(captured, m) && Marked(m, slot) && |m| == if slot < |captured| then |captured| else slot + 1
    decreases if slot >= |captured| then slot - |captured| + 1 else 0
  {
    if slot >= |captured| { MarkMarks(captured + [false], slot); }
  }

  lemma {:induction false} CapBound(caps: seq<string>, x: string)
    ensures CapIndex(caps, x) <= |caps|
  {
    if caps != [] && caps[0] != x { CapBound(caps[1..], x); }
  }

  ghost predicate AllGained(us: Nest, vs: Nest) {
    |us| == |vs| && forall i :: 0 <= i < |us| ==> Gained(us[i], vs[i])
  }

  /** Sound of the functions around, and of the innermost against the last of them. */
  lemma {:induction false} SoundOn(outer: Nest, u: Unit)
    ensures Sound(outer + [u]) <==> Sound(outer) && UnitOk(u) && DescsOk(Top(outer), u.descs)
  {
    hide UnitOk, DescsOk;
    var us := outer + [u];
    if Sound(us) {
      assert UnitOk(us[|outer|]) && DescsOk(us[|outer| - 1], us[|outer|].descs);
      forall i | 0 <= i < |outer| ensures UnitOk(outer[i]) { assert UnitOk(us[i]); }
      forall i | 0 < i < |outer| ensures DescsOk(outer[i - 1], outer[i].descs) {
        assert DescsOk(us[i - 1], us[i].descs);
      }
    }
    if Sound(outer) && UnitOk(u) && DescsOk(Top(outer), u.descs) {
      forall i | 0 < i < |us| ensures DescsOk(us[i - 1], us[i].descs) {
        if i < |outer| { assert DescsOk(outer[i - 1], outer[i].descs); }
      }
    }
  }

  lemma {:induction false} GainedOk(u: Unit, d: CapDesc, x: string)
    requires UnitOk(u)
    ensures var v := u.(caps := u.caps + [x], descs := u.descs + [d]); UnitOk(v) && Gained(u, v)
  {
    var v := u.(caps := u.caps + [x], descs := u.descs + [d]);
    forall i | 0 <= i < |v.loops| ensures LoopOk(v, v.loops[i]) { assert LoopOk(u, u.loops[i]); }
  }

  lemma {:induction false} MarkOk(u: Unit, slot: nat)
    requires UnitOk(u) && slot < |u.names|
    ensures var v := u.(captured := Mark(u.captured, slot));
      UnitOk(v) && Gained(u, v) && Marked(v.captured, slot) && slot < v.locals
  {
    MarkMarks(u.captured, slot);
    var v := u.(captured := Mark(u.captured, slot));
    forall i | 0 <= i < |v.loops| ensures LoopOk(v, v.loops[i]) { assert LoopOk(u, u.loops[i]); }
  }

  lemma {:induction false} DescAdded(p: Unit, descs: seq<CapDesc>, d: CapDesc)
    requires DescsOk(p, descs) && DescOk(d, p.captured, |p.descs|, p.locals)
    ensures DescsOk(p, descs + [d])
  {
    hide DescOk;
  }

  lemma {:induction false} AncestorStep(us: Nest, x: string)
    requires AncestorBinds(us, x)
    ensures |us| > 1 && (ResolveLocal(us[|us| - 2].names, x).None? ==> AncestorBinds(us[..|us| - 1], x))
  {
    hide ResolveLocal;
    var i :| 0 <= i < |us| - 1 && ResolveLocal(us[i].names, x).Some?;
    if i < |us| - 2 { assert us[..|us| - 1][i] == us[i]; }
  }

  /** Every function on the way out gains what it needs, and the name is found in the innermost. */
  lemma {:induction false} CaptureOk(us: Nest, x: string)
    requires Sound(us) && (CapIndex(Top(us).caps, x) < |Top(us).caps| || AncestorBinds(us, x))
    ensures var vs := EnsureCapture(us, x);
      Sound(vs) && AllGained(us, vs) && CapIndex(Top(us).caps, x) < |Top(vs).descs|
    decreases |us|
  {
    hide Sound, DescsOk, UnitOk, CapIndex, ResolveLocal, AncestorBinds;
    var u := Top(us);
    TopOk(us);
    if CapIndex(u.caps, x) < |u.caps| || |us| == 1 {
      if |us| == 1 { AncestorAlone(us, x); }
      CapCount(u);
      forall i | 0 <= i < |us| ensures Gained(us[i], us[i]) {}
    } else {
      AncestorStep(us, x);
      CapBound(u.caps, x);
      var outer: Nest := us[..|us| - 1];
      assert us == outer + [u];
      SoundOn(outer, u);
      var p := Top(outer);
      TopOk(outer);
      ResolvedAt(p.names, x);
      var vs := EnsureCapture(us, x);
      if ResolveLocal(p.names, x).Some? {
        CapturesSlot(outer, u, x, ResolveLocal(p.names, x).value);
      } else {
        CaptureOk(outer, x);
        CapturesCap(outer, EnsureCapture(outer, x), u, x, CapIndex(p.caps, x));
      }
    }
  }

  lemma {:induction false} CapCount(u: Unit)
    requires UnitOk(u)
    ensures |u.caps| == |u.descs|
  {
  }

  lemma {:induction false} AncestorAlone(us: Nest, x: string)
    requires |us| == 1
    ensures !AncestorBinds(us, x)
  {
  }

  lemma {:induction false} CapturesSlot(outer: Nest, u: Unit, x: string, slot: nat)
    requires Sound(outer) && UnitOk(u) && DescsOk(Top(outer), u.descs) && slot < |Top(outer).names|
    requires UnitOk(Top(outer))
    ensures var p := Top(outer);
      var vs := Put(outer, p.(captured := Mark(p.captured, slot))) +
          [u.(caps := u.caps + [x], descs := u.descs + [FromSlot(slot)])];
      Sound(vs) && AllGained(outer + [u], vs) && |u.caps| < |Top(vs).descs|
  {
    hide Sound, DescsOk, UnitOk, Mark;
    var p := Top(outer);
    var q := p.(captured := Mark(p.captured, slot));
    MarkOk(p, slot);
    SoundPut(outer, q);
    DescsStay(u.descs, p, q);
    DescAdded(q, u.descs, FromSlot(slot));
    GainedOk(u, FromSlot(slot), x);
    CapCount(u);
    SoundOn(Put(outer, q), u.(caps := u.caps + [x], descs := u.descs + [FromSlot(slot)]));
    var us, vs := outer + [u], Put(outer, q) + [u.(caps := u.caps + [x], descs := u.descs + [FromSlot(slot)])];
    forall i | 0 <= i < |us| ensures Gained(us[i], vs[i]) { if i < |outer| - 1 { assert vs[i] == us[i]; } }
  }

  lemma {:induction false} CapturesCap(outer: Nest, outer': Nest, u: Unit, x: string, cap: nat)
    requires Sound(outer') && AllGained(outer, outer') && UnitOk(u) && DescsOk(Top(outer), u.descs)
    requires cap < |Top(outer').descs|
    ensures var vs := outer' + [u.(caps := u.caps + [x], descs := u.descs + [FromCap(cap)])];
      Sound(vs) && AllGained(outer + [u], vs) && |u.caps| < |Top(vs).descs|
  {
    hide Sound, DescsOk, UnitOk;
    var v := u.(caps := u.caps + [x], descs := u.descs + [FromCap(cap)]);
    assert Gained(outer[|outer| - 1], outer'[|outer| - 1]);
    DescsStay(u.descs, Top(outer), Top(outer'));
    DescAdded(Top(outer'), u.descs, FromCap(cap));
    GainedOk(u, FromCap(cap), x);
    CapCount(u);
    SoundOn(outer', v);
    var us, vs := outer + [u], outer' + [v];
    forall i | 0 <= i < |us| ensures Gained(us[i], vs[i]) { if i < |outer| { assert Gained(outer[i], outer'[i]); } }
  }

  lemma {:induction false} GainedGrown(us: Nest, vs: Nest)
    requires AllGained(us, vs)
    ensures Grown(us, vs)
  {
  }

  lemma {:induction false} CaptureMade(us: Nest, op: Opcode, x: string)
    requires Sound(us) && AncestorBinds(us, x) && (op.OpGetCap? || op.OpSetCap?)
    ensures Made(us, Capture(us, op, x), Top(us).names, None)
  {
    hide Grows, Good, Sound, Grown, CapIndex, EnsureCapture, AncestorBinds;
    CaptureOk(us, x);
    var vs := EnsureCapture(us, x);
    GainedGrown(us, vs);
    assert Gained(us[|us| - 1], vs[|us| - 1]);
    Leaf(vs, Raw(op, CapIndex(Top(us).caps, x)), None);
    After(us, vs, Capture(us, op, x), None);
  }

  // ---- recur ----

  lemma {:induction false} StoresGood(u: Unit, base: nat, count: nat, at: nat)
    requires base + count <= u.locals
    ensures Good(u, Stores(base, count), at, Some(StoreArgs(base, count)))
    decreases count
  {
    hide Fine, Stands;
    if count > 0 {
      var slot := base + count - 1;
      StoresGood(u, base, count - 1, at + 2);
      var ws := [Raw(OpSetLocal, slot), Raw(OpPop, 0)];
      SlotFine(u, OpSetLocal, slot, at, at + 2);
      PlainFine(u, OpPop, at + 1, at + 2);
      assert Good(u, ws, at, Some([SetLocal(slot), Pop]));
      GoodJoined(u, ws, Stores(base, count - 1), at, Some([SetLocal(slot), Pop]), Some(StoreArgs(base, count - 1)));
    }
  }

  lemma {:induction false} PopsGood(u: Unit, n: nat, at: nat)
    ensures Good(u, PopTryWords(n), at, Some(PopTries(n)))
    decreases n
  {
    hide Fine, Stands;
    if n > 0 {
      PopsGood(u, n - 1, at + 1);
      PlainFine(u, OpPopTry, at, at + 1);
      assert Good(u, [Raw(OpPopTry, 0)], at, Some([PopTry]));
      GoodJoined(u, [Raw(OpPopTry, 0)], PopTryWords(n - 1), at, Some([PopTry]), Some(PopTries(n - 1)));
    }
  }

  lemma {:induction false} StoreCounts(base: nat, count: nat)
    ensures |Stores(base, count)| == |StoreArgs(base, count)| == 2 * count
    decreases count
  {
    if count > 0 { StoreCounts(base, count - 1); }
  }

  lemma {:induction false} PopCounts(n: nat)
    ensures |PopTryWords(n)| == |PopTries(n)| == n
    decreases n
  {
    if n > 0 { PopCounts(n - 1); }
  }

  lemma {:induction false} LoopFine(u: Unit, start: nat, at: nat)
    requires start <= at
    ensures Good(u, [Raw(OpLoop, start)], at, Some([LoopTo(start)]))
  {
  }

  function GoBackOut(u: Unit): seq<Instr>
    requires u.loops != []
  {
    var lp := u.loops[|u.loops| - 1];
    StoreArgs(lp.base, lp.count) + PopTries(if u.tries >= lp.tries then u.tries - lp.tries else 0) + [LoopTo(lp.start)]
  }

  lemma {:induction false} BackGood(u: Unit, lp: LoopFrame, n: nat, at: nat)
    requires lp.base + lp.count <= u.locals && lp.start <= at
    ensures Good(u, Stores(lp.base, lp.count) + PopTryWords(n) + [Raw(OpLoop, lp.start)], at,
                 Some(StoreArgs(lp.base, lp.count) + PopTries(n) + [LoopTo(lp.start)]))
  {
    hide Good, Stores, StoreArgs, PopTryWords, PopTries;
    var a, b, c := Stores(lp.base, lp.count), PopTryWords(n), [Raw(OpLoop, lp.start)];
    StoreCounts(lp.base, lp.count);
    PopCounts(n);
    StoresGood(u, lp.base, lp.count, at);
    PopsGood(u, n, at + |a|);
    LoopFine(u, lp.start, at + |a| + |b|);
    GoodJoined(u, a, b, at, Some(StoreArgs(lp.base, lp.count)), Some(PopTries(n)));
    GoodJoined(u, a + b, c, at, Some(StoreArgs(lp.base, lp.count) + PopTries(n)), Some([LoopTo(lp.start)]));
  }

  lemma {:induction false} BackMade(us: Nest, t: Code, x: Option<seq<Instr>>)
    requires Made(us, t, Top(us).names, x) && Top(us).loops != []
    ensures Made(us, GoBack(t, Top(us).loops[|Top(us).loops| - 1]), Top(us).names, if x.Some?
        then Some(x.value + GoBackOut(Top(us))) else None)
  {
    hide Grows, Gained, Good, Sound, Grown, Stores, StoreArgs, PopTryWords, PopTries, StoreBinds;
    var u := Top(t.us);
    TopOk(t.us);
    var lp := u.loops[|u.loops| - 1];
    assert LoopOk(u, lp);
    var n := u.tries - lp.tries;
    StoreCounts(lp.base, lp.count);
    PopCounts(n);
    var ws := Stores(lp.base, lp.count) + PopTryWords(n) + [Raw(OpLoop, lp.start)];
    var v := u.(binds := u.binds + StoreBinds(u.captured, u.pc, lp.base, lp.count), pc := u.pc + |ws|);
    assert UnitOk(v) && Grows(u, v) by { Advances(u, v); }
    Change(t.us, v);
    var b := Code(Put(t.us, v), ws);
    BackGood(v, lp, n, u.pc);
    assert Made(t.us, b, u.names, Some(GoBackOut(u)));
    Then(us, t, b, u.names, u.names, x, Some(GoBackOut(u)));
    assert Code(b.us, t.ws + b.ws) == GoBack(t, lp);
  }

  lemma {:induction false} Advances(u: Unit, v: Unit)
    requires UnitOk(u) && v == u.(binds := v.binds, pc := v.pc) && u.pc <= v.pc && u.binds <= v.binds
    ensures UnitOk(v) && Grows(u, v)
  {
    forall i | 0 <= i < |u.loops| ensures LoopOk(v, v.loops[i]) { assert LoopOk(u, u.loops[i]); }
  }

  // ---- fused instructions ----

  lemma {:induction false} SideOk(u: Unit, f: Form)
    requires UnitOk(u) && FusedSide(u, f).Some?
    ensures var v, a := FusedPool(u, f), FusedSide(u, f).value;
      && Grows(u, v) && UnitOk(v) && v.names == u.names && ArgOk(a, |v.constants|, v.locals)
      && v == u.(constants := v.constants)
      && DecArg(v.constants, a) == FusedOperand(Ctx(u.names, None, 0, false), f) && DecArg(v.constants, a).Some?
  {
    hide ResolveLocal, UnitOk, Grows;
    if f.Const? { InternedAt(u, f.v); } else { ResolvedAt(u.names, f.name); SelfOk(u); }
  }

  lemma {:induction false} SelfOk(u: Unit)
    requires UnitOk(u)
    ensures Grows(u, u) && |u.names| <= u.locals
  {
  }

  lemma {:induction false} ArgStays(a: FusedArg, u: Unit, v: Unit)
    requires Grows(u, v) && ArgOk(a, |u.constants|, u.locals)
    ensures ArgOk(a, |v.constants|, v.locals) && DecArg(v.constants, a) == DecArg(u.constants, a)
  {
  }

  /** The word of a fused instruction just added to its table. */
  lemma {:induction false} FusedFine(u: Unit, f: FusedOp, x: string, at: nat)
    requires u.fused != [] && u.fused[|u.fused| - 1] == f
    requires f.sym < |u.constants| && u.constants[f.sym] == Sym(x)
    requires ArgOk(f.a, |u.constants|, u.locals) && ArgOk(f.b, |u.constants|, u.locals)
    ensures Good(u, [Raw(OpFused, |u.fused| - 1)], at,
        Some([Fused(f.op, x, f.func, DecArg(u.constants, f.a).value, DecArg(u.constants, f.b).value)]))
  {
  }

  lemma {:induction false} OperandsOf(c: Ctx, f: Form)
    ensures FusedOperand(c, f) == FusedOperand(Ctx(c.locals, None, 0, false), f)
  {
  }

  /** A call that does not fuse leaves at most constants behind. */
  lemma {:induction false} NotFused(us: Nest, op: NativeOp, x: string, args: Forms, l2: bool)
    requires Sound(us) && CompFused(us, op, x, args, l2).1.None?
    ensures var vs := CompFused(us, op, x, args, l2).0;
      && Sound(vs) && Grown(us, vs) && |vs| == |us| && Top(vs) == Top(us).(constants := Top(vs).constants)
      && Outer(vs) == Outer(us)
    ensures FuseCall(CtxOf(us, l2), op, x, args).None?
  {
    hide Sound, Grown, ResolveLocal, Grows, UnitOk, FusedPool, Interned, Outer;
    TopOk(us);
    SelfGrown(us);
    var u := Top(us);
    if args.Cons? && args.tail.Cons? && args.tail.tail.End? && FusedSide(u, args.head).Some? {
      SideOk(u, args.head);
      Change(us, FusedPool(u, args.head));
    }
    GrownOuter(us, CompFused(us, op, x, args, l2).0);
  }

  /** What emission knows of the innermost function's scope. */
  function CtxOf(us: Nest, l2: bool): Ctx {
    var u := Top(us);
    Ctx(u.names, if u.loops == [] then None else Some(u.loops[|u.loops| - 1]), u.tries, l2, Outer(us))
  }

  lemma {:induction false} FusedMade(us: Nest, op: NativeOp, x: string, args: Forms, l2: bool)
    requires Sound(us) && CompFused(us, op, x, args, l2).1.Some?
    ensures var (vs, ws) := CompFused(us, op, x, args, l2);
      var i := FuseCall(CtxOf(us, l2), op, x, args);
      i.Some? && Made(us, Code(vs, ws.value), Top(us).names, Some([i.value]))
  {
    hide Sound, Grown, ResolveLocal, Grows, UnitOk, FusedPool, FusedSide, Interned, IndexOf, DecArg, ArgOk, Good,
         FusedOperand;
    TopOk(us);
    var u, c := Top(us), CtxOf(us, l2);
    var a := FusedSide(u, args.head).value;
    var u1 := FusedPool(u, args.head);
    SideOk(u, args.head);
    var b := FusedSide(u1, args.tail.head).value;
    var u2 := FusedPool(u1, args.tail.head);
    SideOk(u1, args.tail.head);
    var u3 := Interned(u2, Sym(x));
    InternedAt(u2, Sym(x));
    var f := FusedOp(op, IndexOf(u2.constants, Sym(x)), l2, a, b);
    var v := u3.(fused := u3.fused + [f], pc := u3.pc + 1);
    InternedSame(u2, Sym(x));
    assert UnitOk(v) && Grows(u3, v) by { TableGrows(u3, v); }
    ArgStays(a, u1, u2);
    ArgStays(a, u2, u3);
    ArgStays(b, u2, u3);
    ArgStays(a, u3, v);
    ArgStays(b, u3, v);
    GrowsOn(u, u1, u2);
    GrowsOn(u, u2, u3);
    GrowsOn(u, u3, v);
    Change(us, v);
    OperandsOf(c, args.head);
    OperandsOf(c, args.tail.head);
    var (vs, ws) := CompFused(us, op, x, args, l2);
    assert vs == Put(us, v) && ws == Some([Raw(OpFused, |u3.fused|)]);
    var i := FuseCall(c, op, x, args);
    assert i == Some(Fused(op, x, l2, DecArg(v.constants, a).value, DecArg(v.constants, b).value));
    FusedFine(v, f, x, u.pc);
  }

  lemma {:induction false} InternedSame(u: Unit, v: Value)
    ensures Interned(u, v) == u.(constants := Interned(u, v).constants)
  {
  }

  lemma {:induction false} TableGrows(u: Unit, v: Unit)
    requires UnitOk(u) && v == u.(fused := v.fused, pc := v.pc) && u.pc <= v.pc && u.fused <= v.fused
    ensures UnitOk(v) && Grows(u, v)
  {
    forall i | 0 <= i < |u.loops| ensures LoopOk(v, v.loops[i]) { assert LoopOk(u, u.loops[i]); }
  }
}
