/** Few instructions are not enough: constants of fused instructions outgrow an operand first. */
module Overflow {
  import opened Forms
  import opened Machine
  import opened CodeGen
  import opened Bytecode
  import opened Lowering
  import opened Emission
  import opened Finishing
  import opened Chunks
  import Compiler

  /** (+ 2i 2i+1), fused into one instruction with two constants of its own. */
  function Sum(i: nat): Form {
    Call(Var("+"), Cons(Const(Int(2 * i)), Cons(Const(Int(2 * i + 1)), End)))
  }

  /** The sums from i up to n, then a global. */
  function Args(i: nat, n: nat): Forms
    requires i <= n
    decreases n - i
  {
    if i == n then Cons(Var("x"), End) else Cons(Sum(i), Args(i + 1, n))
  }

  function Wide(n: nat): Form {
    Call(Var("g"), Args(0, n))
  }

  /** The pool after i sums. */
  predicate Pool(cs: seq<Value>, i: nat) {
    && |cs| == (if i == 0 then 1 else 2 * i + 2)
    && (forall k :: 0 <= k < |cs| ==> cs[k] == Sym("g") || cs[k] == Sym("+") || (cs[k].Int? && 0 <= cs[k].i < 2 * i))
    && cs[0] == Sym("g") && (i > 0 ==> cs[2] == Int(1) && cs[3] == Sym("+"))
  }

  lemma {:induction false} Absent(cs: seq<Value>, v: Value)
    requires v !in cs
    ensures IndexOf(cs, v) == |cs|
  {
    if cs == [] {
    } else {
      Absent(cs[1..], v);
    }
  }

  lemma {:induction false} Present(cs: seq<Value>, v: Value)
    requires v in cs
    ensures IndexOf(cs, v) < |cs|
  {
    if cs[0] != v { Present(cs[1..], v); }
  }

  function Start(cs: seq<Value>, fused: seq<FusedOp>, pc: nat): Nest {
    [NewUnit([]).(constants := cs, fused := fused, pc := pc)]
  }

  lemma {:induction false} OnlyOne(us: Nest, u: Unit, n: nat)
    requires |us| == 1
    ensures Skip(Put(us, u), n) == [u.(pc := u.pc + n)]
  {
  }

  /** One sum: one instruction, and the pool grows by its constants. */
  lemma {:induction false} SumEmits(cs: seq<Value>, fused: seq<FusedOp>, pc: nat, i: nat) returns (cs': seq<Value>,
      fused': seq<FusedOp>)
    requires Pool(cs, i)
    ensures Pool(cs', i + 1)
    ensures Comp(Start(cs, fused, pc), Sum(i), false) ==
        Built(Code(Start(cs', fused', pc + 1), [Raw(OpFused, |fused|)]))
  {
    hide IndexOf, Pool, Comp, CompFused, Shadowed;
    var us, a, b, plus := Start(cs, fused, pc), Int(2 * i), Int(2 * i + 1), Sym("+");
    SumPool(cs, i);
    var u := Top(us);
    var u2 := u.(constants := cs + [a] + [b]);
    cs' := Interned(u2, plus).constants;
    var f := FusedOp(Add, IndexOf(u2.constants, plus), false, ConstArg(|cs|), ConstArg(|cs| + 1));
    fused' := fused + [f];
    SumFuses(us, a, b, f);
    var args := Cons(Const(a), Cons(Const(b), End));
    SumIs(us, i);
    Compiler.NativeIs(us, Sum(i), false);
  }

  lemma {:induction false} SumIs(us: Nest, i: nat)
    requires |us| == 1 && Top(us).names == []
    ensures IsNative(us, Sum(i).head) && NativeOf("+") == Some(Add)
  {
    ShadowedIs(us, "+");
    OuterAlone(us);
  }

  lemma {:induction false} SumFuses(us: Nest, a: Value, b: Value, f: FusedOp)
    requires |us| == 1 && Scalar(a) && Scalar(b)
    requires var cs, plus := Top(us).constants, Sym("+");
      var u2 := Top(us).(constants := cs + [a] + [b]);
      && IndexOf(cs, a) == |cs| && IndexOf(cs + [a], b) == |cs| + 1
      && f == FusedOp(Add, IndexOf(u2.constants, plus), false, ConstArg(|cs|), ConstArg(|cs| + 1))
    ensures var u2 := Top(us).(constants := Top(us).constants + [a] + [b]);
      var u3 := Interned(u2, Sym("+"));
      CompFused(us, Add, "+", Cons(Const(a), Cons(Const(b), End)), false)
        == ([u3.(fused := Top(us).fused + [f], pc := Top(us).pc + 1)], Some([Raw(OpFused, |Top(us).fused|)]))
  {
    hide IndexOf;
    var u2 := Top(us).(constants := Top(us).constants + [a] + [b]);
    var u3 := Interned(u2, Sym("+"));
    OnlyOne(us, u3.(fused := Top(us).fused + [f]), 1);
  }

  lemma {:induction false} SumPool(cs: seq<Value>, i: nat)
    requires Pool(cs, i)
    ensures var a, b, plus := Int(2 * i), Int(2 * i + 1), Sym("+");
      var u := NewUnit([]).(constants := cs + [a] + [b]);
      && IndexOf(cs, a) == |cs| && IndexOf(cs + [a], b) == |cs| + 1
      && Pool(Interned(u, plus).constants, i + 1)
  {
    var a, b, plus := Int(2 * i), Int(2 * i + 1), Sym("+");
    Absent(cs, a);
    Absent(cs + [a], b);
    var all := cs + [a] + [b];
    if i == 0 { Absent(all, plus); } else { assert all[3] == plus; Present(all, plus); }
  }

  lemma {:induction false} GlobalEmits(cs: seq<Value>, fused: seq<FusedOp>, pc: nat, n: nat)
    requires Pool(cs, n)
    ensures Comp(Start(cs, fused, pc), Var("x"), false) ==
        Built(Code(Start(cs + [Sym("x")], fused, pc + 1), [Raw(OpGetGlobal, |cs|)]))
  {
    hide IndexOf;
    AncestorAlone(Start(cs, fused, pc), "x");
    Absent(cs, Sym("x"));
  }

  lemma {:induction false} ArgsEmit(cs: seq<Value>, fused: seq<FusedOp>, pc: nat, i: nat,
      n: nat) returns (cs': seq<Value>, fused': seq<FusedOp>)
    requires Pool(cs, i) && i <= n && n > 0
    ensures var r := CompArgs(Start(cs, fused, pc), Args(i, n), false);
      && r.Built? && |r.code.ws| == n - i + 1 && r.code.ws[n - i] == Raw(OpGetGlobal, 2 * n + 2)
      && r.code.us == Start(cs', fused', pc + n - i + 1) && |cs'| >= 3 && cs'[2] == Int(1)
    decreases n - i
  {
    hide Comp, Sum;
    var us := Start(cs, fused, pc);
    if i == n {
      GlobalEmits(cs, fused, pc, n);
      cs', fused' := cs + [Sym("x")], fused;
      assert CompArgs(Start(cs', fused, pc + 1), End, false) == Built(Code(Start(cs', fused, pc + 1), []));
    } else {
      var cs1, fused1 := SumEmits(cs, fused, pc, i);
      cs', fused' := ArgsEmit(cs1, fused1, pc + 1, i + 1, n);
    }
  }

  lemma {:induction false} WideEmits(n: nat) returns (cs: seq<Value>, fused: seq<FusedOp>)
    requires n > 0
    ensures var r := Comp([NewUnit([])], Wide(n), false);
      && r.Built? && |r.code.ws| == n + 3 && r.code.ws[n + 1] == Raw(OpGetGlobal, 2 * n + 2)
      && r.code.us == Start(cs, fused, n + 3) && |cs| >= 3 && cs[2] == Int(1)
  {
    hide Comp, CompArgs, CompHead, IndexOf, Length, Args, NewUnit;
    var us, g := Start([], [], 0), Sym("g");
    HeadEmits();
    assert us == [NewUnit([])] by { StartIs(); }
    cs, fused := ArgsEmit([g], [], 1, 0, n);
    var t := CompArgs(Start([g], [], 1), Args(0, n), false).code;
    NotNative(us);
    Compiler.CallIs(us, Wide(n), false);
    OnlyOne(t.us, Top(t.us), 1);
  }

  lemma {:induction false} StartIs()
    ensures Start([], [], 0) == [NewUnit([])]
  {
  }

  lemma {:induction false} NotNative(us: Nest)
    ensures !IsNative(us, Var("g"))
  {
  }

  lemma {:induction false} HeadEmits()
    ensures CompHead(Start([], [], 0), Var("g"), false) == Built(Code(Start([Sym("g")], [], 1), [Raw(OpGetGlobal, 0)]))
  {
    hide IndexOf;
    var us, g := Start([], [], 0), Sym("g");
    AncestorAlone(us, "g");
    Absent([], g);
    assert Interned(Top(us), g) == Top(us).(constants := [g]);
    OnlyOne(us, Top(us).(constants := [g]), 1);
    assert CompVar(us, "g") == WithConst(us, OpGetGlobal, g);
  }

  /** A form of fewer than 2^24 instructions whose chunk does not pass validation: the index of
      its last symbol is cut to 24 bits and finds a number. */
  lemma {:induction false} FewInstructionsNotEnough()
    ensures exists f :: CompileTop(f, false).Some? && |CompileTop(f, false).value.code| < LIMIT
              && !Fits(f, false) && !Valid(CompileTop(f, false).value)
  {
    hide Comp, Valid, MaxStack, Encode, Wide, Fits;
    var n: nat := 0x80_0000;
    var cs, fused := WideEmits(n);
    var f, r := Wide(n), Comp([NewUnit([])], Wide(n), false).code;
    var c := SubChunk(r);
    var w := Encode(OpGetGlobal, 2 * n + 2);
    Truncated(n);
    assert c.code[n + 1] == Word(OpGetGlobal, 2) && c.constants == cs;
    Fails(c, n + 1);
    assert CompileTop(f, false) == Some(c);
    if Fits(f, false) { ChunksPass(f, false); }
  }

  lemma {:induction false} Truncated(n: nat)
    requires n == 0x80_0000
    ensures Encode(OpGetGlobal, 2 * n + 2) == Word(OpGetGlobal, 2)
  {
  }

  lemma {:induction false} Fails(c: Chunk, ip: nat)
    requires ip < |c.code| && c.code[ip] == Word(OpGetGlobal, 2) && |c.constants| >= 3 && c.constants[2] == Int(1)
    ensures !Valid(c)
  {
    assert !ValidAt(c, ip);
  }
}
