/** A compiled form: its chunk passes validation, its code means what the form means, and the
    machine that runs it ends as the tree walk does. */
module Chunks {
  import opened Forms
  import opened Machine
  import opened CodeGen
  import opened Bytecode
  import opened Lowering
  import opened Emission
  import opened Finishing
  import opened CompiledSlots
  import Adequacy
  import Compiler
  import StackVM

  /** Compiles one top-level form. */
  function CompileTop(f: Form, l2: bool): Option<Chunk> {
    match Comp([NewUnit([])], f, l2)
    case Refused => None
    case Built(c) => Some(SubChunk(c))
  }

  /** Packing keeps every instruction of the form and of the functions nested in it: no operand
      the compiler hands to the packer is cut, or it is cut to an equal fused instruction. */
  predicate Fits(f: Form, l2: bool) {
    match Comp([NewUnit([])], f, l2)
    case Refused => true
    case Built(c) => AllFit(Top(c.us), c.ws)
  }

  lemma {:induction false} StartOk()
    ensures Sound([NewUnit([])])
  {
    NewUnitOk([]);
  }

  lemma {:induction false} TopMade(f: Form, l2: bool)
    requires CompileTop(f, l2).Some?
    ensures var r := Comp([NewUnit([])], f, l2);
      && r.Built? && CompileTop(f, l2).value == SubChunk(r.code) && UnitOk(Top(r.code.us))
      && Good(Top(r.code.us), r.code.ws, 0, Out([NewUnit([])], f, l2))
      && (Fits(f, l2) <==> AllFit(Top(r.code.us), r.code.ws))
  {
    hide Comp, Sound, Grown, Good, Finished, Out, UnitOk, AllFit;
    StartOk();
    Compiles([NewUnit([])], f, l2);
    TopOk(Comp([NewUnit([])], f, l2).code.us);
  }

  /** Every chunk tree the compiler finishes passes validation, if packing keeps it. */
  lemma {:induction false} ChunksPass(f: Form, l2: bool)
    requires CompileTop(f, l2).Some? && Fits(f, l2)
    ensures Valid(CompileTop(f, l2).value)
  {
    hide CompileTop, Fits, Valid, Comp, Finished, Out, AllFine, AllFit;
    TopMade(f, l2);
    var c := Comp([NewUnit([])], f, l2).code;
    FinishedValid(Top(c.us), c.ws);
  }

  /** The chunk of a form without closures decodes to the form's program exactly when packing
      keeps its instructions. */
  lemma {:induction false} ChunkMeans(f: Form, l2: bool)
    requires ClosureFree(f) && CompileTop(f, l2).Some?
    ensures Means(CompileTop(f, l2).value, Adequacy.Program(f, l2)) <==> Fits(f, l2)
  {
    hide CompileTop, Fits, Comp, Finished, AllFine, Decodes, Gen, ClosureFree, AllFit, UnitOk, Means;
    TopMade(f, l2);
    var c := Comp([NewUnit([])], f, l2).code;
    FormSlots([NewUnit([])], f, l2);
    OuterAlone([NewUnit([])]);
    FinishedMeans(Top(c.us), c.ws, Gen(f, Ctx([], None, 0, l2), 0));
  }

  lemma {:induction false} WordShaped(u: Unit, c: Chunk, ip: nat, w: Raw, end: nat)
    requires Fine(u, w, ip, end) && Fit(u, w)
    requires c.captured == u.captured && c.locals == u.locals && c.fused == u.fused && c.constants == u.constants
    requires c.subs == u.subs && c.caps == u.descs
    ensures StackVM.ShapedWord(c, Rewritten(u.captured, u.binds, ip, Packed(w)))
  {
    hide Valid, Marked, Encode;
    EncodeExact(w.op, w.a);
    EncodeCuts(w.op, w.a);
  }

  /** Captured slots, and only they, are reached through cells; every slot is reserved. */
  lemma {:induction false} ChunkShaped(f: Form, l2: bool)
    requires CompileTop(f, l2).Some? && Fits(f, l2)
    ensures StackVM.Shaped(CompileTop(f, l2).value)
  {
    hide CompileTop, Fits, Comp, Out, Decodes, Fine, Fit, Rewritten, Packed, MaxStack, StackVM.ShapedWord, UnitOk;
    TopMade(f, l2);
    var r := Comp([NewUnit([])], f, l2).code;
    var u, c := Top(r.us), SubChunk(r);
    ReturnStays(u, |r.ws|);
    forall ip | 0 <= ip < |c.code| ensures StackVM.ShapedWord(c, c.code[ip]) {
      if ip < |r.ws| { WordShaped(u, c, ip, r.ws[ip], |r.ws|); } else { ReturnShaped(c); }
    }
  }

  lemma {:induction false} ReturnShaped(c: Chunk)
    ensures StackVM.ShapedWord(c, Word(OpReturn, 0))
  {
  }

  /** The slots of a form without closures, none of them captured. */
  lemma {:induction false} ChunkSlots(f: Form, l2: bool)
    requires ClosureFree(f) && CompileTop(f, l2).Some?
    ensures var c := CompileTop(f, l2).value; c.locals == Slots(f) && c.captured == [] && c.caps == []
  {
    hide Comp, Slots, ClosureFree, Rewritten, MaxStack, Packed;
    FormSlots([NewUnit([])], f, l2);
  }

  // ---- accepted forms ----

  lemma {:induction false} AcceptedClosureFree(f: Form, arity: Option<nat>)
    requires Accepted(f, arity)
    ensures ClosureFree(f)
    decreases f
  {
    match f {
      case Do(body) => BodyClosureFree(body, arity);
      case If(test, thn, els) =>
        AcceptedClosureFree(test, None);
        AcceptedClosureFree(thn, arity);
        if els.Some? { AcceptedClosureFree(els.value, arity); }
      case When(test, body) => AcceptedClosureFree(test, None); BodyClosureFree(body, arity);
      case Cond(clauses) => ClausesClosureFree(clauses, arity);
      case And(args) => BodyClosureFree(args, arity);
      case Or(args) => BodyClosureFree(args, arity);
      case Not(arg) => AcceptedClosureFree(arg, None);
      case Let(binds, body) => BindsClosureFree(binds); BodyClosureFree(body, arity);
      case Assign(_, rhs) => AcceptedClosureFree(rhs, None);
      case Throw(arg) => AcceptedClosureFree(arg, None);
      case Try(body, _, handler) => BodyClosureFree(body, arity); BodyClosureFree(handler, arity);
      case Loop(binds, body) => BindsClosureFree(binds); BodyClosureFree(body, Some(|Names(binds)|));
      case Recur(args) => ArgsClosureFree(args);
      case Call(head, args) => AcceptedClosureFree(head, None); ArgsClosureFree(args);
      case _ =>
    }
  }

  lemma {:induction false} BodyClosureFree(fs: Forms, arity: Option<nat>)
    requires AcceptedBody(fs, arity)
    ensures ClosureFreeAll(fs)
    decreases fs
  {
    hide Accepted, ClosureFree;
    if fs.Cons? {
      AcceptedClosureFree(fs.head, if fs.tail.End? then arity else None);
      if fs.tail.Cons? { BodyClosureFree(fs.tail, arity); }
    }
  }

  lemma {:induction false} ArgsClosureFree(fs: Forms)
    requires AcceptedArgs(fs)
    ensures ClosureFreeAll(fs)
    decreases fs
  {
    hide Accepted, ClosureFree;
    if fs.Cons? {
      AcceptedClosureFree(fs.head, None);
      ArgsClosureFree(fs.tail);
    }
  }

  lemma {:induction false} BindsClosureFree(bs: Binds)
    requires AcceptedBinds(bs)
    ensures ClosureFreeBinds(bs)
    decreases bs
  {
    hide Accepted, ClosureFree;
    if bs.Bind? {
      AcceptedClosureFree(bs.init, None);
      BindsClosureFree(bs.rest);
    }
  }

  lemma {:induction false} ClausesClosureFree(cs: Clauses, arity: Option<nat>)
    requires AcceptedClauses(cs, arity)
    ensures ClosureFreeClauses(cs)
    decreases cs
  {
    hide Accepted, ClosureFree, ClosureFreeAll, AcceptedBody;
    if cs.Clause? {
      BodyClosureFree(cs.body, arity);
      if !IsElse(cs.test) {
        AcceptedClosureFree(cs.test, None);
        ClausesClosureFree(cs.rest, arity);
      }
    }
  }

  // ---- from form to result ----

  /** What a run that has ended shows. */
  function Shown(r: StackVM.Result, g: Globals): Option<Adequacy.Result> {
    match r
    case Returned(v) => Some(Adequacy.Returned(v, g))
    case Threw(w) => Some(Adequacy.Raised(w, g))
    case _ => None
  }

  /** What becomes of a form: the compiler refuses it, or it runs. */
  datatype Verdict = NotCompiled | Ran(r: StackVM.Result, g: Globals)

  /** Compiling, validating and running a form yields, if it ends within the budget, what
      walking the form yields, and nothing the walk does not yield. Validation never fails and
      the machine never breaks. */
  method Evaluate(f: Form, l2: bool, host: Host, g: Globals, budget: nat) returns (v: Verdict)
    requires Accepted(f, None) && CanonicalFaithful(host, g)
    requires Fits(f, l2)
    ensures v.NotCompiled? <==> CompileTop(f, l2).None?
    ensures v.Ran? ==> !v.r.Broken?
    ensures v.Ran? && Shown(v.r, v.g).Some? ==>
      forall o :: Adequacy.Walks(host, l2, f, g, o) <==> Shown(v.r, v.g) == Some(o)
    ensures v.Ran? && v.r.Running? ==>
      RunN(host, Adequacy.Program(f, l2), Adequacy.Entry(seq(Slots(f), _ => Nil), g), budget).At?
  {
    hide Accepted, Comp, Valid, RunN, Slots, CanonicalFaithful, Adequacy.Program, ClosureFree, Fits, Adequacy.Walks,
         Adequacy.Halts, Finished, SubChunk;
    var compiled := Compiler.CompileForm(f, l2);
    if compiled.None? { return NotCompiled; }
    AcceptedClosureFree(f, None);
    ChunksPass(f, l2);
    ChunkMeans(f, l2);
    ChunkShaped(f, l2);
    ChunkSlots(f, l2);
    var chunk := compiled.value;
    var ok := Validate(chunk);
    if !ok { assert false; }
    var vm := new StackVM.VM(chunk, host, [], [], map[], 0, [], (_: nat, _: seq<nat>) => Nil, g);
    ghost var slots, prog := seq(Slots(f), _ => Nil), Adequacy.Program(f, l2);
    assert [] + slots == slots;
    ghost var given, stuck;
    var r;
    r, given, stuck := vm.Run(budget, map[]);
    if stuck { NoCells(vm, prog); }
    WordsMean(host, chunk, prog, Adequacy.Entry(slots, g), given);
    Adequacy.NeverBad(host, l2, f, slots, g, |given|);
    Ends(f, l2, host, slots, g, |given|, r, vm.g);
    return Ran(r, vm.g);
  }

  lemma {:induction false} NoCells(vm: StackVM.VM, prog: seq<Instr>)
    requires vm.Valid() && vm.chunk.captured == [] && Means(vm.chunk, prog) && vm.ip < |vm.chunk.code|
    ensures !vm.Unboxed(vm.chunk.code[vm.ip])
  {
    hide StackVM.StackOk;
    assert StackVM.ShapedWord(vm.chunk, vm.chunk.code[vm.ip]);
    assert Decode(vm.chunk.constants, vm.chunk.fused, vm.chunk.code[vm.ip]) == Some(prog[vm.ip]);
  }

  lemma {:induction false} Ends(f: Form, l2: bool, host: Host, slots: seq<Value>, g: Globals, budget: nat,
      r: StackVM.Result, g': Globals)
    requires Accepted(f, None) && CanonicalFaithful(host, g) && Slots(f) <= |slots|
    requires var run := RunN(host, Adequacy.Program(f, l2), Adequacy.Entry(slots, g), budget);
      match run
      case At(_) => r.Running?
      case Uncaught(w, _, g1) => r == StackVM.Threw(w) && g' == g1
      case Done(v, g1) => r == StackVM.Returned(v) && g' == g1
      case Bad => true
    ensures !r.Broken?
    ensures Shown(r, g').Some? ==> forall o :: Adequacy.Walks(host, l2, f, g, o) <==> Shown(r, g') == Some(o)
    ensures r.Running? ==> RunN(host, Adequacy.Program(f, l2), Adequacy.Entry(slots, g), budget).At?
  {
    hide Accepted, RunN, Slots, CanonicalFaithful, Adequacy.Program, Adequacy.Walks;
    Adequacy.NeverBad(host, l2, f, slots, g, budget);
    if Shown(r, g').Some? {
      var shown := Shown(r, g').value;
      var run := RunN(host, Adequacy.Program(f, l2), Adequacy.Entry(slots, g), budget);
      assert Adequacy.HaltsIn(run, shown);
      assert Adequacy.Halts(host, l2, f, slots, g, shown);
      forall o ensures Adequacy.Walks(host, l2, f, g, o) <==> shown == o {
        Adequacy.SameMeaning(host, l2, f, slots, g, o);
        Adequacy.SameMeaning(host, l2, f, slots, g, shown);
        if Adequacy.Walks(host, l2, f, g, o) {
          var n: nat :| Adequacy.HaltsIn(RunN(host, Adequacy.Program(f, l2), Adequacy.Entry(slots, g), n), o);
          Adequacy.Deterministic(host, l2, f, slots, g, n, budget, o, shown);
        }
      }
    }
  }
}
