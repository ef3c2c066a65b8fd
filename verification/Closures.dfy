/** The chunks of functions nested in a form: what the code of a function does when it is called,
    and which variable a captured name is. */
module Closures {
  import opened Forms
  import opened Machine
  import opened CodeGen
  import opened Bytecode
  import opened Lowering
  import opened Emission
  import opened Finishing
  import opened CompiledSlots
  import Adequacy
  import BoundSlots
  import Chunks
  import CompilerCorrect
  import Functions
  import StackVM

  // ---- the chunk of a function ----

  /** The body of a function, compiled in a function of its own. */
  function Inside(us: Nest, f: Form, l2: bool): Built
    requires f.Lambda?
  {
    CompArgs(us + [NewUnit(f.params)], f.body, l2)
  }

  /** The function's chunk is added to those of the one around it, and its closure is made there. */
  lemma {:induction false} FunctionMade(us: Nest, f: Form, l2: bool)
    requires f.Lambda? && Sound(us) && Comp(us, f, l2).Built?
    ensures Inside(us, f, l2).Built?
    ensures var t, c := Inside(us, f, l2).code, Comp(us, f, l2).code;
      && UnitOk(Top(t.us)) && Good(Top(t.us), t.ws, 0, OutArgs(us + [NewUnit(f.params)], f.body, l2))
      && |t.ws| > 0 && Top(c.us).subs == Top(us).subs + [SubChunk(t)]
      && c.ws == [Raw(OpClosure, |Top(us).subs|, AllFit(Top(t.us), t.ws))]
  {
    hide Comp, CompArgs, Sound, NewUnit, UnitOk, DescsOk, OutArgs, Good, SubChunk, AllFit;
    UnfoldLambda(us, f, l2);
    var inner: Nest := us + [NewUnit(f.params)];
    NewUnitOk(f.params);
    NoDescs(Top(us));
    SoundOn(us, NewUnit(f.params));
    CompilesArgs(inner, f.body, l2);
    var t := CompArgs(inner, f.body, l2).code;
    TopOk(t.us);
    assert Top(inner) == NewUnit(f.params);
    assert Gained(inner[|us| - 1], t.us[|us| - 1]);
    BodyThere(us, f, l2);
  }

  lemma {:induction false} BodyThere(us: Nest, f: Form, l2: bool)
    requires f.Lambda? && Comp(us, f, l2).Built? && Inside(us, f, l2).Built?
    ensures f.body.Cons? && |Inside(us, f, l2).code.ws| > 0
  {
    hide CompBody, CompClauses, CompBinds, CompInits, CompAnd, CompOr, CompHead, CompFused, GoBack, Finished;
    var inner: Nest := us + [NewUnit(f.params)];
    if f.body.Cons? { EmitsSome(inner, f.body.head, l2); }
  }

  /** The code of a function without closures that captures nothing decodes to its body's, with the
      parameters in its first slots in order, exactly when packing keeps its instructions. */
  lemma {:induction false} FunctionMeans(us: Nest, f: Form, l2: bool)
    requires f.Lambda? && Sound(us) && Comp(us, f, l2).Built? && ClosureFreeAll(f.body)
    requires Inside(us, f, l2).Built? && SubChunk(Inside(us, f, l2).code).caps == []
    ensures var t := Inside(us, f, l2).code;
      var c := SubChunk(t);
      && (Means(c, Functions.FunctionCode(f.params, Outer(us + [NewUnit(f.params)]), f.body, l2))
          <==> AllFit(Top(t.us), t.ws))
      && c.params == |f.params| && c.locals == |f.params| + SlotsAll(f.body) && c.captured == []
  {
    hide Comp, CompArgs, Sound, UnitOk, GenArgs, AllFine, Decodes, AllFit, Means, Outer, ClosureFreeAll, SlotsAll,
         MaxStack;
    FunctionMade(us, f, l2);
    var inner: Nest := us + [NewUnit(f.params)];
    var t := Inside(us, f, l2).code;
    assert Top(inner) == NewUnit(f.params);
    ArgSlots(inner, f.body, l2);
    NewUnitOk(f.params);
    NoDescs(Top(us));
    SoundOn(us, NewUnit(f.params));
    BoundSlots.ArgsLeave(inner, f.body, l2);
    BoundSlots.ParamsBelow(f.params, Top(t.us));
    FinishedMeans(Top(t.us), t.ws, GenArgs(f.body, Ctx(f.params, None, 0, l2, Outer(inner)), 0));
  }

  // ---- calls ----

  /** A function the walk and the code agree on: its forms are accepted and it has names for its
      parameters, its instructions fit, and it captures nothing. */
  ghost predicate Callable(us: Nest, f: Form, l2: bool) {
    && f.Lambda? && Sound(us) && Comp(us, f, l2).Built? && AcceptedArgs(f.body) && CompilerCorrect.NonEmpty(f.params)
    && Inside(us, f, l2).Built?
    && var t := Inside(us, f, l2).code;
    && AllFit(Top(t.us), t.ws) && SubChunk(t).caps == []
  }

  lemma {:induction false} ArgsClosureFree(fs: Forms)
    requires AcceptedArgs(fs)
    ensures ClosureFreeAll(fs)
    decreases fs
  {
    hide Accepted, ClosureFree;
    if fs.Cons? {
      Chunks.AcceptedClosureFree(fs.head, None);
      ArgsClosureFree(fs.tail);
    }
  }

  /** What is needed of a callable function. */
  lemma {:induction false} CallableIs(us: Nest, f: Form, l2: bool)
    requires Callable(us, f, l2)
    ensures f.Lambda? && Inside(us, f, l2).Built?
    ensures var c := SubChunk(Inside(us, f, l2).code);
      && Means(c, Functions.FunctionCode(f.params, Outer(us + [NewUnit(f.params)]), f.body, l2))
      && c.params == |f.params| && c.locals == |f.params| + SlotsAll(f.body) && c.captured == [] && c.caps == []
      && f.body.Cons? && StackVM.Shaped(c)
  {
    hide Comp, CompArgs, Sound, UnitOk, GenArgs, Decodes, AllFit, Means, Outer, ClosureFreeAll, SlotsAll, MaxStack,
         AcceptedArgs, CompilerCorrect.NonEmpty, StackVM.Shaped;
    ArgsClosureFree(f.body);
    FunctionMeans(us, f, l2);
    FunctionMade(us, f, l2);
    BodyThere(us, f, l2);
    var t := Inside(us, f, l2).code;
    BoundSlots.FinishedShaped(Top(t.us), t.ws);
  }

  /** Called with its arguments, wherever it was made, the chunk of such a function returns or
      throws, and leaves the root, exactly as walking its body with the parameters bound to them. */
  lemma {:induction false} CallMeaning(us: Nest, f: Form, l2: bool, h: Host, args: seq<Value>, g: Globals,
      o: Adequacy.Result)
    requires Callable(us, f, l2) && |args| == |f.params| && CanonicalFaithful(h, g)
    ensures var c := SubChunk(Inside(us, f, l2).code);
      && c.params == |args| && c.locals >= |args|
      && var s := State(0, args + seq(c.locals - |args|, _ => Nil), [], [], [], g);
      && (Functions.CallWalks(h, l2, f.params, f.body, args, g, o) <==> WordsEnd(h, c, s, o))
  {
    hide Comp, CompArgs, Sound, Means, Outer, SlotsAll, AcceptedArgs, CompilerCorrect.NonEmpty, RunN, RunWords,
         CanonicalFaithful, Functions.FunctionCode, Functions.CallWalks, StackVM.Shaped, SubChunk, AllFit, WordsEnd,
         Functions.CallHalts;
    CallableIs(us, f, l2);
    var c := SubChunk(Inside(us, f, l2).code);
    var others := seq(c.locals - |args|, _ => Nil);
    var outer := Outer(us + [NewUnit(f.params)]);
    var prog, s := Functions.FunctionCode(f.params, outer, f.body, l2), Functions.CallFrame(args, others, g);
    Functions.CallMeaning(h, l2, f.params, outer, f.body, args, others, g, o);
    WordsHalt(h, c, prog, args, others, g, o);
    assert s == State(0, args + seq(c.locals - |args|, _ => Nil), [], [], [], g);
  }

  /** The chunk's own words, run from s, end in o. */
  ghost predicate WordsEnd(h: Host, c: Chunk, s: State, o: Adequacy.Result) {
    exists given :: Adequacy.HaltsIn(RunWords(h, c, s, given), o)
  }

  /** Running the words and running the program end alike. */
  lemma {:induction false} WordsHalt(h: Host, c: Chunk, prog: seq<Instr>, args: seq<Value>, others: seq<Value>,
      g: Globals, o: Adequacy.Result)
    requires Means(c, prog)
    ensures Functions.CallHalts(h, prog, args, others, g, o) <==>
      WordsEnd(h, c, Functions.CallFrame(args, others, g), o)
  {
    hide RunN, RunWords, Means, Functions.CallFrame;
    var s := Functions.CallFrame(args, others, g);
    if n: nat :| Adequacy.HaltsIn(RunN(h, prog, s, n), o) {
      var given := seq(n, _ => Nil);
      WordsMean(h, c, prog, s, given);
      assert Adequacy.HaltsIn(RunWords(h, c, s, given), o);
    }
    if given :| Adequacy.HaltsIn(RunWords(h, c, s, given), o) {
      WordsMean(h, c, prog, s, given);
      var n: nat := |given|;
      assert Adequacy.HaltsIn(RunN(h, prog, s, n), o);
    }
  }

  /** The machine's own frame of such a function, entered above whatever lies on the stack: it never
      breaks, and what it ends in within the budget is what the walk ends in and nothing else. */
  method CallFunction(ghost us: Nest, ghost f: Form, ghost l2: bool, c: Chunk, host: Host, below: seq<StackVM.Slot>,
      args: seq<Value>, boxes: StackVM.Boxes, nextBox: nat, close: (nat, seq<nat>) -> Value, g: Globals, budget: nat)
    returns (r: StackVM.Result, after: Globals)
    requires Callable(us, f, l2) && c == SubChunk(Inside(us, f, l2).code)
    requires |args| == |f.params| && CanonicalFaithful(host, g) && forall id :: id in boxes ==> id < nextBox
    ensures !r.Broken?
    ensures Chunks.Shown(r, after).Some? ==> forall o ::
      Functions.CallWalks(host, l2, f.params, f.body, args, g, o) <==> Chunks.Shown(r, after) == Some(o)
  {
    hide Callable, Comp, CompArgs, Sound, Means, Outer, SlotsAll, RunN, RunWords, CanonicalFaithful,
         Functions.FunctionCode, Functions.CallWalks, StackVM.Shaped, SubChunk, AllFit, Inside;
    CallableIs(us, f, l2);
    var vm := new StackVM.VM(c, host, below, args, boxes, nextBox, [], close, g);
    ghost var s, outer := vm.State(), Outer(us + [NewUnit(f.params)]);
    ghost var prog, given, stuck := Functions.FunctionCode(f.params, outer, f.body, l2), [], false;
    r, given, stuck := vm.Run(budget, map[]);
    if stuck { Chunks.NoCells(vm, prog); }
    WordsMean(host, c, prog, s, given);
    CallEnds(us, f, l2, host, c, args, g, |given|, r, vm.g);
    after := vm.g;
  }

  lemma {:induction false} CallEnds(us: Nest, f: Form, l2: bool, h: Host, c: Chunk, args: seq<Value>, g: Globals,
      n: nat, r: StackVM.Result, after: Globals)
    requires Callable(us, f, l2) && c == SubChunk(Inside(us, f, l2).code)
    requires |args| == |f.params| && CanonicalFaithful(h, g) && |args| <= c.locals
    requires var prog := Functions.FunctionCode(f.params, Outer(us + [NewUnit(f.params)]), f.body, l2);
      match RunN(h, prog, State(0, args + seq(c.locals - |args|, _ => Nil), [], [], [], g), n)
      case At(_) => r.Running?
      case Uncaught(w, _, g1) => r == StackVM.Threw(w) && after == g1
      case Done(v, g1) => r == StackVM.Returned(v) && after == g1
      case Bad => true
    ensures !r.Broken?
    ensures Chunks.Shown(r, after).Some? ==> forall o ::
      Functions.CallWalks(h, l2, f.params, f.body, args, g, o) <==> Chunks.Shown(r, after) == Some(o)
  {
    hide Comp, CompArgs, Sound, Means, Outer, SlotsAll, AcceptedArgs, CompilerCorrect.NonEmpty, RunN,
         CanonicalFaithful, Functions.FunctionCode, Functions.CallWalks, StackVM.Shaped, SubChunk, AllFit;
    CallableIs(us, f, l2);
    var others, outer := seq(c.locals - |args|, _ => Nil), Outer(us + [NewUnit(f.params)]);
    var prog, s := Functions.FunctionCode(f.params, outer, f.body, l2), Functions.CallFrame(args, others, g);
    Functions.CallNeverBad(h, l2, f.params, outer, f.body, args, others, g, n);
    if Chunks.Shown(r, after).Some? {
      var shown := Chunks.Shown(r, after).value;
      assert Adequacy.HaltsIn(RunN(h, prog, s, n), shown);
      forall o ensures Functions.CallWalks(h, l2, f.params, f.body, args, g, o) <==> shown == o {
        Functions.CallMeaning(h, l2, f.params, outer, f.body, args, others, g, o);
        if Functions.CallWalks(h, l2, f.params, f.body, args, g, o) {
          var m: nat :| Adequacy.HaltsIn(RunN(h, prog, s, m), o);
          Functions.OneEnd(h, prog, s, m, n, o, shown);
        }
      }
    }
  }

  // ---- captured variables ----

  /** The function nearest around the i-th that binds x, and the slot it holds x in. */
  function Nearest(us: Nest, i: nat, x: string): Option<(nat, nat)>
    requires i < |us|
  {
    if i == 0 then None
    else match ResolveLocal(us[i - 1].names, x)
      case Some(slot) => Some((i - 1, slot))
      case None => Nearest(us, i - 1, x)
  }

  /** A function at run time: its frame when the one inside it was made, and the cells it was made
      with. */
  datatype Activation = Activation(stack: seq<StackVM.Slot>, base: nat, caps: seq<nat>)

  /** The cell of a slot. */
  function CellAt(a: Activation, slot: nat): nat {
    StackVM.CellOf(a.stack, a.base, a.caps, FromSlot(slot))
  }

  /** Each function was made in a frame of the one around it. */
  ghost predicate MadeIn(us: Nest, run: seq<Activation>) {
    && |run| == |us|
    && forall i, k :: 0 < i < |us| && 0 <= k < |us[i].descs| ==>
         && k < |run[i].caps|
         && run[i].caps[k] == StackVM.CellOf(run[i - 1].stack, run[i - 1].base, run[i - 1].caps, us[i].descs[k])
  }

  /** The cell a function has for a captured name, through however many functions it was handed, is
      that of the slot the nearest function around that binds the name holds it in. */
  lemma {:induction false} CapturedCell(us: Nest, run: seq<Activation>, i: nat, k: nat)
    requires BoundSlots.Linked(us) && MadeIn(us, run) && i < |us| && k < |us[i].caps|
    ensures i > 0 && k < |run[i].caps| && Nearest(us, i, us[i].caps[k]).Some?
    ensures var (j, slot) := Nearest(us, i, us[i].caps[k]).value; j < i && run[i].caps[k] == CellAt(run[j], slot)
    decreases i
  {
    hide ResolveLocal, BoundSlots.DescsIn, BoundSlots.Named;
    assert BoundSlots.TracesAll(us[i - 1], us[i]);
    var x, d := us[i].caps[k], us[i].descs[k];
    assert BoundSlots.Traces(us[i - 1], x, d);
    if d.FromCap? { CapturedCell(us, run, i - 1, d.cap); }
  }

  /** Functions around keep their names while one inside them is compiled. */
  lemma {:induction false} NearestStays(us: Nest, vs: Nest, i: nat, x: string)
    requires |us| == |vs| && i < |us| && forall j :: 0 <= j < |us| - 1 ==> vs[j].names == us[j].names
    ensures Nearest(vs, i, x) == Nearest(us, i, x)
    decreases i
  {
    hide ResolveLocal;
    if i > 0 { NearestStays(us, vs, i - 1, x); }
  }

  lemma {:induction false} NamesStay(us: Nest, vs: Nest)
    requires Grown(us, vs)
    ensures |vs| == |us| && forall j :: 0 <= j < |us| - 1 ==> vs[j].names == us[j].names
  {
    hide Grows;
    forall j | 0 <= j < |us| - 1 ensures vs[j].names == us[j].names { assert Gained(us[j], vs[j]); }
  }

  /** An instruction emitted for a name of an enclosing function reads or writes the cell of that
      very variable. */
  lemma {:induction false} CaptureReads(us: Nest, op: Opcode, x: string, run: seq<Activation>)
    requires Sound(us) && BoundSlots.Linked(us) && AncestorBinds(us, x) && x != "" && (op.OpGetCap? || op.OpSetCap?)
    requires MadeIn(Capture(us, op, x).us, run)
    ensures var c, n := Capture(us, op, x), |us| - 1;
      && |c.ws| == 1 && c.ws[0].op == op && Nearest(us, n, x).Some? && |run| == |us|
      && var (j, slot) := Nearest(us, n, x).value;
      && j < n && c.ws[0].a < |run[n].caps| && run[n].caps[c.ws[0].a] == CellAt(run[j], slot)
  {
    hide Sound, BoundSlots.Linked, AncestorBinds, ResolveLocal, CapIndex, EnsureCapture, Grown, Good;
    var c, vs := Capture(us, op, x), EnsureCapture(us, x);
    BoundSlots.LinkedCapture(us, x);
    BoundSlots.LinkedSkip(vs, 1);
    CaptureMade(us, op, x);
    NamesStay(us, c.us);
    NearestStays(us, c.us, |us| - 1, x);
    CapturedCell(c.us, run, |us| - 1, c.ws[0].a);
  }

  /** So for a whole function, wherever it stands: the cells its closure is made with are those of
      the variables its body names. */
  lemma {:induction false} ClosureOver(us: Nest, f: Form, l2: bool, bound: BoundSlots.Bindings, run: seq<Activation>,
      k: nat)
    requires f.Lambda? && Sound(us) && Comp(us, f, l2).Built? && BoundSlots.Spoken(f) && BoundSlots.Ready(us, bound)
    requires Inside(us, f, l2).Built? && MadeIn(Inside(us, f, l2).code.us, run)
    requires k < |SubChunk(Inside(us, f, l2).code).caps|
    ensures var t := Inside(us, f, l2).code;
      && |t.us| == |us| + 1 == |run| && k < |Top(t.us).caps| && k < |run[|us|].caps|
      && var inner: Nest := us + [NewUnit(f.params)];
      && Nearest(inner, |us|, Top(t.us).caps[k]).Some?
      && var (j, slot) := Nearest(inner, |us|, Top(t.us).caps[k]).value;
      && j < |us| && run[|us|].caps[k] == CellAt(run[j], slot)
  {
    hide Sound, Comp, CompArgs, BoundSlots.Linked, BoundSlots.Ready, BoundSlots.Typing, BoundSlots.SpokenAll, NewUnit,
         UnitOk, DescsOk, ResolveLocal, Grown, Good, Nearest, BoundSlots.Range, SubChunk, MadeIn;
    var inner: Nest := us + [NewUnit(f.params)];
    NewUnitOk(f.params);
    NoDescs(Top(us));
    SoundOn(us, NewUnit(f.params));
    BoundSlots.ReadyAt(us, bound);
    BoundSlots.InnerReady(us, f.params);
    var b := BoundSlots.BindsArgs(inner, f.body, l2, map[0 := BoundSlots.Range(0, |f.params|)]);
    var t := Inside(us, f, l2).code;
    CompilesArgs(inner, f.body, l2);
    NamesStay(inner, t.us);
    TopOk(t.us);
    CapCounts(Top(t.us));
    BoundSlots.CapsAre(t);
    NearestStays(inner, t.us, |us|, Top(t.us).caps[k]);
    CapturedCell(t.us, run, |us|, k);
    assert Top(t.us) == t.us[|us|];
    RunCounts(t.us, run);
  }

  lemma {:induction false} RunCounts(us: Nest, run: seq<Activation>)
    requires MadeIn(us, run)
    ensures |run| == |us|
  {
  }

  lemma {:induction false} CapCounts(u: Unit)
    requires UnitOk(u)
    ensures |u.caps| == |u.descs|
  {
  }

  // ---- recur ----

  /** The k-th store of a recur, and whether it is recorded as a binding. */
  lemma {:induction false} StoreAt(captured: seq<bool>, pc: nat, base: nat, count: nat, k: nat)
    requires k < count
    ensures |Stores(base, count)| == 2 * count
    ensures Stores(base, count)[2 * k] == Raw(OpSetLocal, base + count - 1 - k)
    ensures Stores(base, count)[2 * k + 1] == Raw(OpPop, 0)
    ensures pc + 2 * k in StoreBinds(captured, pc, base, count) <==> Marked(captured, base + count - 1 - k)
    ensures forall ip :: ip in StoreBinds(captured, pc, base, count) ==> pc <= ip
    decreases count
  {
    if count == 1 {
      assert Stores(base, 0) == [] && StoreBinds(captured, pc + 2, base, 0) == {};
    } else {
      StoreAt(captured, pc + 2, base, count - 1, if k > 0 then k - 1 else 0);
    }
  }

  /** In the finished code a recur gives a slot that a function captured before it a fresh cell, so
      that function keeps the value it saw; it writes through the cell of a slot captured only after
      it; and it stores into a slot that is never captured. */
  lemma {:induction false} RecurStores(now: seq<bool>, last: seq<bool>, binds: set<nat>, pc: nat, base: nat, count: nat,
      k: nat)
    requires k < count && base + count <= LIMIT
    requires Marked(now, base + count - 1 - k) ==> Marked(last, base + count - 1 - k)
    requires pc + 2 * k in binds <==> pc + 2 * k in StoreBinds(now, pc, base, count)
    ensures |Stores(base, count)| == 2 * count
    ensures var slot := base + count - 1 - k;
      Rewritten(last, binds, pc + 2 * k, Packed(Stores(base, count)[2 * k])) ==
        Word(if Marked(now, slot) then OpBindCell else if Marked(last, slot) then OpSetCell else OpSetLocal, slot)
  {
    hide StoreBinds, Stores, Marked, Encode;
    StoreAt(now, pc, base, count, k);
    EncodeExact(OpSetLocal, base + count - 1 - k);
  }
}
