/** Compiled code binds every captured slot before it reads it, closures and all: no cell
    instruction, fused operand or closure it runs ever meets a slot without its box. */
module BoundSlots {
  import opened Forms
  import opened Machine
  import opened CodeGen
  import opened Bytecode
  import opened Lowering
  import opened Emission
  import opened Finishing
  import opened Chunks
  import StackVM
  import BoxedFusion

  type Bindings = StackVM.Bindings

  // ---- forms as the reader makes them: no name is empty ----

  predicate Spoken(f: Form) {
    match f
    case Const(_) => true
    case Quote(_) => true
    case Var(x) => x != ""
    case Do(body) => SpokenAll(body)
    case If(test, thn, els) => Spoken(test) && Spoken(thn) && (els.None? || Spoken(els.value))
    case When(test, body) => Spoken(test) && SpokenAll(body)
    case Cond(clauses) => SpokenClauses(clauses)
    case And(args) => SpokenAll(args)
    case Or(args) => SpokenAll(args)
    case Not(arg) => Spoken(arg)
    case Let(binds, body) => SpokenBinds(binds) && SpokenAll(body)
    case Assign(x, rhs) => x != "" && Spoken(rhs)
    case Throw(arg) => Spoken(arg)
    case Try(body, _, handler) => SpokenAll(body) && SpokenAll(handler)
    case Loop(binds, body) => SpokenBinds(binds) && SpokenAll(body)
    case Recur(args) => SpokenAll(args)
    case Call(head, args) => Spoken(head) && SpokenAll(args)
    case Lambda(_, body) => SpokenAll(body)
  }

  predicate SpokenAll(fs: Forms) {
    fs.End? || (Spoken(fs.head) && SpokenAll(fs.tail))
  }

  predicate SpokenBinds(bs: Binds) {
    bs.NoBinds? || (Spoken(bs.init) && SpokenBinds(bs.rest))
  }

  predicate SpokenClauses(cs: Clauses) {
    cs.NoClauses? || (Spoken(cs.test) && SpokenAll(cs.body) && SpokenClauses(cs.rest))
  }

  // ---- what holds of a word before it is packed ----

  /** The slots in scope under a name. */
  function Named(names: seq<string>): set<nat> {
    set i | 0 <= i < |names| && names[i] != ""
  }

  /** The chunk, and every chunk its closures are made of, can be entered and binds its captured
      slots before it reads them. */
  ghost predicate Tree(c: Chunk) {
    && StackVM.Shaped(c) && c.params <= c.locals && (exists bound :: StackVM.Annotates(c, bound))
    && forall ip :: 0 <= ip < |c.code| && c.code[ip].op.OpClosure? && c.code[ip].a < |c.subs| ==>
         Tree(c.subs[c.code[ip].a])
  }

  predicate Under(bound: Bindings, t: nat, s: set<nat>) {
    t in bound && bound[t] <= s
  }

  predicate ArgIn(a: FusedArg, s: set<nat>) {
    a.SlotArg? ==> a.i in s
  }

  predicate DescsIn(ds: seq<CapDesc>, s: set<nat>) {
    forall i :: 0 <= i < |ds| && ds[i].FromSlot? ==> ds[i].slot in s
  }

  /** Every slot the word reads is bound. */
  ghost predicate Reads(u: Unit, w: Raw, pc: nat, s: set<nat>) {
    match w.op
    case OpGetLocal => w.a in s
    case OpSetLocal => pc in u.binds || w.a in s
    case OpFused => w.a < |u.fused| && ArgIn(u.fused[w.a].a, s) && ArgIn(u.fused[w.a].b, s)
    case OpClosure => w.a < |u.subs| && DescsIn(u.subs[w.a].caps, s) && (w.nested ==> Tree(u.subs[w.a]))
    case _ => true
  }

  /** Wherever the word leads, no more is taken for bound than is. */
  ghost predicate Flow(u: Unit, w: Raw, pc: nat, bound: Bindings) {
    && pc in bound && Reads(u, w, pc, bound[pc])
    && match w.op
       case OpJump => Under(bound, pc + 1 + w.a, bound[pc])
       case OpJumpIfFalse => Under(bound, pc + 1, bound[pc]) && Under(bound, pc + 1 + w.a, bound[pc])
       case OpLoop => Under(bound, w.a, bound[pc])
       case OpSetupTry => Under(bound, pc + 1, bound[pc]) && Under(bound, w.a, bound[pc])
       case OpThrow => true
       case OpReturn => true
       case OpSetLocal => Under(bound, pc + 1, bound[pc] + if pc in u.binds then {w.a} else {})
       case _ => Under(bound, pc + 1, bound[pc])
  }

  ghost predicate Typed(u: Unit, ws: seq<Raw>, at: nat, bound: Bindings) {
    forall k :: 0 <= k < |ws| ==> Flow(u, ws[k], at + k, bound)
  }

  predicate Extends(a: Bindings, b: Bindings) {
    forall k :: k in a ==> k in b && b[k] == a[k]
  }

  /** The bindings reach as far as pc. */
  predicate UpTo(bound: Bindings, pc: nat) {
    pc in bound && forall k :: k in bound ==> k <= pc
  }

  /** Code at at whose bindings extend those before it and end in t. */
  ghost predicate Typing(u: Unit, ws: seq<Raw>, at: nat, a: Bindings, b: Bindings, t: set<nat>) {
    Extends(a, b) && UpTo(b, at + |ws|) && b[at + |ws|] == t && Typed(u, ws, at, b)
  }

  lemma {:induction false} ReadsStay(u: Unit, v: Unit, w: Raw, pc: nat, s: set<nat>)
    requires Reads(u, w, pc, s) && Grows(u, v)
    ensures Reads(v, w, pc, s)
  {
    hide Tree;
  }

  lemma {:induction false} FlowStays(u: Unit, v: Unit, w: Raw, pc: nat, a: Bindings, b: Bindings)
    requires Flow(u, w, pc, a) && Grows(u, v) && Extends(a, b)
    ensures Flow(v, w, pc, b)
  {
    hide Reads;
    ReadsStay(u, v, w, pc, a[pc]);
    BindsOnly(u, v);
  }

  lemma {:induction false} BindsOnly(u: Unit, v: Unit)
    requires Grows(u, v)
    ensures u.binds <= v.binds
  {
  }

  lemma {:induction false} TypedStays(u: Unit, v: Unit, ws: seq<Raw>, at: nat, a: Bindings, b: Bindings)
    requires Typed(u, ws, at, a) && Grows(u, v) && Extends(a, b)
    ensures Typed(v, ws, at, b)
  {
    hide Flow, Grows, Extends;
    forall k | 0 <= k < |ws| ensures Flow(v, ws[k], at + k, b) { FlowStays(u, v, ws[k], at + k, a, b); }
  }

  lemma {:induction false} TypedJoin(u: Unit, x: seq<Raw>, y: seq<Raw>, at: nat, bound: Bindings)
    requires Typed(u, x, at, bound) && Typed(u, y, at + |x|, bound)
    ensures Typed(u, x + y, at, bound)
  {
    hide Flow;
    forall k | 0 <= k < |x + y| ensures Flow(u, (x + y)[k], at + k, bound) {
      if k >= |x| { assert (x + y)[k] == y[k - |x|]; }
    }
  }

  lemma {:induction false} TypedOne(u: Unit, w: Raw, at: nat, bound: Bindings)
    requires Flow(u, w, at, bound)
    ensures Typed(u, [w], at, bound)
  {
    hide Flow;
  }

  lemma {:induction false} ExtendsOn(a: Bindings, b: Bindings, c: Bindings)
    requires Extends(a, b) && Extends(b, c)
    ensures Extends(a, c)
  {
  }

  /** One place more. */
  lemma {:induction false} OneOn(bound: Bindings, pc: nat, s: set<nat>)
    requires UpTo(bound, pc)
    ensures Extends(bound, bound[pc + 1 := s]) && UpTo(bound[pc + 1 := s], pc + 1)
  {
  }

  lemma {:induction false} SelfExtends(bound: Bindings)
    ensures Extends(bound, bound)
  {
  }

  /** One piece of code after another. */
  lemma {:induction false} TypingJoin(u: Unit, v: Unit, x: seq<Raw>, y: seq<Raw>, at: nat, a: Bindings, b: Bindings,
      c: Bindings, s: set<nat>, t: set<nat>)
    requires Typing(u, x, at, a, b, s) && Typing(v, y, at + |x|, b, c, t) && Grows(u, v)
    ensures Typing(v, x + y, at, a, c, t)
  {
    hide Typed, Grows, Extends;
    ExtendsOn(a, b, c);
    TypedStays(u, v, x, at, b, c);
    TypedJoin(v, x, y, at, c);
  }

  // ---- where a form is compiled ----

  /** A captured name is the slot the function around holds it in, or a capture of that function,
      under the same name, where it holds it in none. */
  predicate Traces(p: Unit, x: string, d: CapDesc) {
    match d
    case FromSlot(slot) => ResolveLocal(p.names, x) == Some(slot)
    case FromCap(k) => ResolveLocal(p.names, x).None? && k < |p.caps| && p.caps[k] == x
  }

  predicate TracesAll(p: Unit, u: Unit) {
    |u.caps| == |u.descs| && forall k :: 0 <= k < |u.descs| ==> Traces(p, u.caps[k], u.descs[k])
  }

  /** What a function captures from the one around it are slots under a name, or that one's own
      captures; the outermost captures nothing. */
  ghost predicate Linked(us: Nest) {
    && us[0].caps == []
    && forall i :: 0 < i < |us| ==> DescsIn(us[i].descs, Named(us[i - 1].names)) && TracesAll(us[i - 1], us[i])
  }

  predicate LoopIn(loops: seq<LoopFrame>, bound: Bindings, s: set<nat>) {
    loops != [] ==>
      var lp := loops[|loops| - 1];
      Under(bound, lp.start, s) && forall i :: lp.base <= i < lp.base + lp.count ==> i in s
  }

  /** The bindings so far: the slots in scope are bound, and those of the innermost loop. */
  ghost predicate Ready(us: Nest, bound: Bindings) {
    var u := Top(us);
    UpTo(bound, u.pc) && Named(u.names) <= bound[u.pc] && LoopIn(u.loops, bound, bound[u.pc]) && Linked(us)
  }

  lemma {:induction false} ReadyAt(us: Nest, bound: Bindings)
    requires Ready(us, bound)
    ensures UpTo(bound, Top(us).pc) && Top(us).pc in bound && Named(Top(us).names) <= bound[Top(us).pc] && Linked(us)
    ensures LoopIn(Top(us).loops, bound, bound[Top(us).pc])
  {
    hide Linked;
  }

  lemma {:induction false} LoopOn(loops: seq<LoopFrame>, a: Bindings, b: Bindings, s: set<nat>, t: set<nat>)
    requires LoopIn(loops, a, s) && Extends(a, b) && s <= t
    ensures LoopIn(loops, b, t)
  {
  }

  /** Further on in the same scope. */
  lemma {:induction false} ReadyOn(us: Nest, vs: Nest, a: Bindings, b: Bindings)
    requires Ready(us, a) && Linked(vs) && Top(vs).names == Top(us).names && Top(vs).loops == Top(us).loops
    requires Extends(a, b) && UpTo(b, Top(vs).pc) && a[Top(us).pc] <= b[Top(vs).pc]
    ensures Ready(vs, b)
  {
    hide Linked, Extends, LoopIn, Named;
    LoopOn(Top(us).loops, a, b, a[Top(us).pc], b[Top(vs).pc]);
  }

  lemma {:induction false} LinkedPut(us: Nest, u: Unit)
    requires Linked(us) && u.descs == Top(us).descs && u.caps == Top(us).caps
    ensures Linked(Put(us, u))
  {
    hide DescsIn, Named, Traces;
    var vs := Put(us, u);
    forall i | 0 < i < |vs| ensures DescsIn(vs[i].descs, Named(vs[i - 1].names)) && TracesAll(vs[i - 1], vs[i]) {
      assert vs[i].descs == us[i].descs && vs[i].caps == us[i].caps && vs[i - 1] == us[i - 1];
      assert TracesAll(us[i - 1], us[i]);
    }
  }

  lemma {:induction false} LinkedSkip(us: Nest, n: nat)
    requires Linked(us)
    ensures Linked(Skip(us, n))
  {
    hide Linked;
    LinkedPut(us, Top(us).(pc := Top(us).pc + n));
  }

  lemma {:induction false} LinkedRestore(us: Nest, v: Unit)
    requires Linked(us)
    ensures Linked(Restore(us, v))
  {
    hide Linked;
    LinkedPut(us, Top(us).(names := v.names, loops := v.loops, tries := v.tries));
  }

  lemma {:induction false} LinkedReserve(us: Nest, x: string)
    requires Linked(us)
    ensures Linked(Reserve(us, x))
  {
    hide Linked;
    LinkedPut(us, Top(us).(names := Top(us).names + [x], locals := Top(us).locals + 1));
  }

  lemma {:induction false} ResolvedName(names: seq<string>, x: string)
    requires x != ""
    ensures ResolveLocal(names, x).Some? ==> ResolveLocal(names, x).value in Named(names)
  {
    if names == [] {
    } else if names[|names| - 1] != x {
      ResolvedName(names[..|names| - 1], x);
    }
  }

  lemma {:induction false} DescAdds(ds: seq<CapDesc>, d: CapDesc, s: set<nat>)
    requires DescsIn(ds, s) && (d.FromSlot? ==> d.slot in s)
    ensures DescsIn(ds + [d], s)
  {
  }

  lemma {:induction false} LinkedOn(outer: Nest, u: Unit)
    ensures Linked(outer + [u]) <==>
      Linked(outer) && DescsIn(u.descs, Named(Top(outer).names)) && TracesAll(Top(outer), u)
  {
    hide DescsIn, Named, TracesAll;
    var us := outer + [u];
    if Linked(us) {
      assert DescsIn(us[|outer|].descs, Named(us[|outer| - 1].names)) && TracesAll(us[|outer| - 1], us[|outer|]);
      forall i | 0 < i < |outer|
        ensures DescsIn(outer[i].descs, Named(outer[i - 1].names)) && TracesAll(outer[i - 1], outer[i])
      {
        assert DescsIn(us[i].descs, Named(us[i - 1].names)) && TracesAll(us[i - 1], us[i]);
      }
    }
    if Linked(outer) && DescsIn(u.descs, Named(Top(outer).names)) && TracesAll(Top(outer), u) {
      forall i | 0 < i < |us| ensures DescsIn(us[i].descs, Named(us[i - 1].names)) && TracesAll(us[i - 1], us[i]) {
        if i < |outer| {
          assert DescsIn(outer[i].descs, Named(outer[i - 1].names)) && TracesAll(outer[i - 1], outer[i]);
        }
      }
    }
  }

  lemma {:induction false} CapIndexAt(caps: seq<string>, x: string)
    ensures CapIndex(caps, x) <= |caps| && (CapIndex(caps, x) < |caps| ==> caps[CapIndex(caps, x)] == x)
    decreases |caps|
  {
    if caps == [] || caps[0] == x {
    } else {
      CapIndexAt(caps[1..], x);
    }
  }

  /** One capture more, seen from a function whose own captures may have grown. */
  lemma {:induction false} TracesMore(p: Unit, q: Unit, u: Unit, x: string, d: CapDesc)
    requires TracesAll(p, u) && q.names == p.names && p.caps <= q.caps && Traces(q, x, d)
    ensures TracesAll(q, u.(caps := u.caps + [x], descs := u.descs + [d]))
  {
    hide ResolveLocal;
    var v := u.(caps := u.caps + [x], descs := u.descs + [d]);
    forall k | 0 <= k < |v.descs| ensures Traces(q, v.caps[k], v.descs[k]) {
      if k < |u.descs| { assert Traces(p, u.caps[k], u.descs[k]); }
    }
  }

  lemma {:induction false} StillAround(outer: Nest, u: Unit, x: string)
    requires AncestorBinds(outer + [u], x) && ResolveLocal(Top(outer).names, x).None?
    ensures AncestorBinds(outer, x)
  {
    hide ResolveLocal;
    var us := outer + [u];
    var i :| 0 <= i < |us| - 1 && ResolveLocal(us[i].names, x).Some?;
    assert outer[i] == us[i];
  }

  /** Capturing a name keeps every function linked to the one around it, and gives the innermost
      the name at the index that is used for it. */
  lemma {:induction false} LinkedCapture(us: Nest, x: string)
    requires Linked(us) && x != "" && AncestorBinds(us, x)
    ensures var vs := EnsureCapture(us, x);
      && Linked(vs) && |vs| == |us| && Top(vs).names == Top(us).names && Top(us).caps <= Top(vs).caps
      && CapIndex(Top(us).caps, x) < |Top(vs).caps| && Top(vs).caps[CapIndex(Top(us).caps, x)] == x
    decreases |us|
  {
    hide Linked, DescsIn, Named, ResolveLocal, Mark, TracesAll, AncestorBinds;
    var u := Top(us);
    CapIndexAt(u.caps, x);
    if |us| == 1 { AncestorAlone(us, x); }
    if CapIndex(u.caps, x) == |u.caps| {
      var outer: Nest := us[..|us| - 1];
      assert us == outer + [u];
      LinkedOn(outer, u);
      var p := Top(outer);
      ResolvedName(p.names, x);
      if ResolveLocal(p.names, x).Some? {
        var slot := ResolveLocal(p.names, x).value;
        var q := p.(captured := Mark(p.captured, slot));
        LinkedPut(outer, q);
        DescAdds(u.descs, FromSlot(slot), Named(p.names));
        TracesMore(p, q, u, x, FromSlot(slot));
        LinkedOn(Put(outer, q), u.(caps := u.caps + [x], descs := u.descs + [FromSlot(slot)]));
      } else {
        StillAround(outer, u, x);
        LinkedCapture(outer, x);
        var cap := CapIndex(p.caps, x);
        DescAdds(u.descs, FromCap(cap), Named(p.names));
        TracesMore(p, Top(EnsureCapture(outer, x)), u, x, FromCap(cap));
        LinkedOn(EnsureCapture(outer, x), u.(caps := u.caps + [x], descs := u.descs + [FromCap(cap)]));
      }
    }
  }

  // ---- pieces ----

  /** What compiling a form leaves of the functions. */
  lemma {:induction false} After1(us: Nest, c: Code, names: seq<string>, x: Option<seq<Instr>>)
    requires Made(us, c, names, x)
    ensures Sound(c.us) && |c.us| == |us| && Top(c.us).pc == Top(us).pc + |c.ws| && Grows(Top(us), Top(c.us))
    ensures Top(c.us).names == names && Top(c.us).loops == Top(us).loops && Top(c.us).tries == Top(us).tries
  {
    hide Good, Sound, Grows, Gained;
  }

  lemma {:induction false} FormLeaves(us: Nest, f: Form, l2: bool)
    requires Sound(us) && Comp(us, f, l2).Built?
    ensures var c := Comp(us, f, l2).code;
      && Sound(c.us) && |c.us| == |us| && Top(c.us).pc == Top(us).pc + |c.ws| && Grows(Top(us), Top(c.us))
      && Top(c.us).names == Top(us).names && Top(c.us).loops == Top(us).loops && Top(c.us).tries == Top(us).tries
  {
    hide Sound, Comp, Made, Grows, Out;
    Compiles(us, f, l2);
    After1(us, Comp(us, f, l2).code, Top(us).names, Out(us, f, l2));
  }

  lemma {:induction false} BodyLeaves(us: Nest, fs: Forms, l2: bool)
    requires Sound(us) && CompBody(us, fs, l2).Built?
    ensures var c := CompBody(us, fs, l2).code;
      && Sound(c.us) && |c.us| == |us| && Top(c.us).pc == Top(us).pc + |c.ws| && Grows(Top(us), Top(c.us))
      && Top(c.us).names == Top(us).names && Top(c.us).loops == Top(us).loops && Top(c.us).tries == Top(us).tries
  {
    hide Sound, CompBody, Made, Grows, OutBody;
    CompilesBody(us, fs, l2);
    After1(us, CompBody(us, fs, l2).code, Top(us).names, OutBody(us, fs, l2));
  }

  /** One instruction that reads nothing that is not bound, and goes on. */
  lemma {:induction false} Word1(u: Unit, w: Raw, pc: nat, bound: Bindings, t: set<nat>) returns (b: Bindings)
    requires UpTo(bound, pc) && t <= bound[pc] && Reads(u, w, pc, bound[pc])
    requires !w.op.OpJump? && !w.op.OpJumpIfFalse? && !w.op.OpLoop? && !w.op.OpSetupTry?
    ensures Typing(u, [w], pc, bound, b, t) && b == bound[pc + 1 := t]
  {
    hide Reads;
    b := bound[pc + 1 := t];
    OneOn(bound, pc, t);
    assert Flow(u, w, pc, b);
    TypedOne(u, w, pc, b);
  }

  /** The store of a binding, and the pop after it. */
  lemma {:induction false} Bind1(u: Unit, slot: nat, pc: nat, bound: Bindings) returns (b: Bindings)
    requires UpTo(bound, pc) && pc in u.binds
    ensures Typing(u, [Raw(OpSetLocal, slot), Raw(OpPop, 0)], pc, bound, b, bound[pc] + {slot})
  {
    hide Grows;
    var s := bound[pc] + {slot};
    var a := bound[pc + 1 := s];
    OneOn(bound, pc, s);
    assert Flow(u, Raw(OpSetLocal, slot), pc, a);
    TypedOne(u, Raw(OpSetLocal, slot), pc, a);
    b := Word1(u, Raw(OpPop, 0), pc + 1, a, s);
    SelfGrows(u);
    TypingJoin(u, u, [Raw(OpSetLocal, slot)], [Raw(OpPop, 0)], pc, bound, a, b, s, s);
    assert [Raw(OpSetLocal, slot)] + [Raw(OpPop, 0)] == [Raw(OpSetLocal, slot), Raw(OpPop, 0)];
  }

  lemma {:induction false} SelfGrows(u: Unit)
    ensures Grows(u, u)
  {
  }

  /** Over the then part when false, over the else part after it. */
  lemma {:induction false} BranchTyped(u: Unit, x: seq<Raw>, y: seq<Raw>, at: nat, bound: Bindings, s: set<nat>,
      t: set<nat>)
    requires Typed(u, x, at + 1, bound) && Typed(u, y, at + |x| + 2, bound) && t <= s
    requires at in bound && bound[at] == s && at + 1 in bound && bound[at + 1] == s
    requires at + 1 + |x| in bound && bound[at + 1 + |x|] == s && at + 2 + |x| in bound && bound[at + 2 + |x|] == s
    requires at + 2 + |x| + |y| in bound && bound[at + 2 + |x| + |y|] == t
    ensures Typed(u, IfElse(x, y), at, bound)
  {
    hide Typed;
    TypedOne(u, Raw(OpJumpIfFalse, |x| + 1), at, bound);
    TypedOne(u, Raw(OpJump, |y|), at + 1 + |x|, bound);
    TypedJoin(u, [Raw(OpJumpIfFalse, |x| + 1)], x, at, bound);
    TypedJoin(u, [Raw(OpJumpIfFalse, |x| + 1)] + x, [Raw(OpJump, |y|)], at, bound);
    TypedJoin(u, [Raw(OpJumpIfFalse, |x| + 1)] + x + [Raw(OpJump, |y|)], y, at, bound);
  }

  /** A then part and an else part, with the jumps over them, from where a test ended. */
  lemma {:induction false} Branched(v: Unit, w: Unit, x: seq<Raw>, y: seq<Raw>, at: nat, a: Bindings, b: Bindings,
      c: Bindings, s: set<nat>, t: set<nat>)
    requires UpTo(a, at) && a[at] == s && t <= s && Grows(v, w)
    requires Typing(v, x, at + 1, a[at + 1 := s], b, s) && Typing(w, y, at + |x| + 2, b[at + |x| + 2 := s], c, t)
    ensures Typing(w, IfElse(x, y), at, a, c, t)
  {
    hide Typed, Grows;
    OneOn(a, at, s);
    OneOn(b, at + 1 + |x|, s);
    TypedStays(v, w, x, at + 1, b, c);
    BranchTyped(w, x, y, at, c, s, t);
  }

  // ---- forms ----

  lemma {:induction false} Binds(us: Nest, f: Form, l2: bool, a: Bindings, t: set<nat>) returns (b: Bindings)
    requires Sound(us) && Comp(us, f, l2).Built? && Spoken(f) && Ready(us, a) && t <= a[Top(us).pc]
    ensures var c := Comp(us, f, l2).code; Typing(Top(c.us), c.ws, Top(us).pc, a, b, t) && Linked(c.us)
    decreases f, 2
  {
    hide *;
    match f {
      case Const(_) => b := BindsLeaf(us, f, l2, a, t);
      case Quote(_) => b := BindsLeaf(us, f, l2, a, t);
      case Var(_) => b := BindsLeaf(us, f, l2, a, t);
      case Do(_) => b := BindsDo(us, f, l2, a, t);
      case Cond(_) => b := BindsDo(us, f, l2, a, t);
      case If(_, _, _) => b := BindsIf(us, f, l2, a, t);
      case When(_, _) => b := BindsWhen(us, f, l2, a, t);
      case Not(_) => b := BindsNot(us, f, l2, a, t);
      case And(_) => b := BindsAndOr(us, f, l2, a, t);
      case Or(_) => b := BindsAndOr(us, f, l2, a, t);
      case Throw(_) => b := BindsThrow(us, f, l2, a, t);
      case Assign(_, _) => b := BindsAssign(us, f, l2, a, t);
      case Let(_, _) => b := BindsLet(us, f, l2, a, t);
      case Loop(_, _) => b := BindsLoop(us, f, l2, a, t);
      case Try(_, _, _) => b := BindsTry(us, f, l2, a, t);
      case Recur(_) => b := BindsRecur(us, f, l2, a, t);
      case Call(_, _) => b := BindsCall(us, f, l2, a, t);
      case Lambda(_, _) => b := BindsLambda(us, f, l2, a, t);
    }
  }

  lemma {:induction false} BindsLeaf(us: Nest, f: Form, l2: bool, a: Bindings, t: set<nat>) returns (b: Bindings)
    requires Sound(us) && (f.Const? || f.Quote? || f.Var?) && Spoken(f) && Ready(us, a) && t <= a[Top(us).pc]
    ensures Comp(us, f, l2).Built?
    ensures var c := Comp(us, f, l2).code; Typing(Top(c.us), c.ws, Top(us).pc, a, b, t) && Linked(c.us)
    decreases f, 1
  {
    hide Sound, Linked, LoopIn, Named, EnsureCapture, CapIndex, AncestorBinds, IndexOf, ResolveLocal, Typing;
    var u, c := Top(us), Comp(us, f, l2).code;
    if f.Var? {
      ResolvedName(u.names, f.name);
      if ResolveLocal(u.names, f.name).None? && AncestorBinds(us, f.name) {
        LinkedCapture(us, f.name);
        LinkedSkip(EnsureCapture(us, f.name), 1);
      } else {
        LeafLinked(us, f, l2);
      }
    } else {
      LeafLinked(us, f, l2);
    }
    b := Word1(Top(c.us), c.ws[0], u.pc, a, t);
    assert c.ws == [c.ws[0]];
  }

  lemma {:induction false} LeafLinked(us: Nest, f: Form, l2: bool)
    requires Linked(us) && (f.Const? || f.Quote? || f.Var?)
    requires f.Var? ==> ResolveLocal(Top(us).names, f.name).Some? || !AncestorBinds(us, f.name)
    ensures Linked(Comp(us, f, l2).code.us)
  {
    hide Linked, AncestorBinds, IndexOf, ResolveLocal;
    var c := Comp(us, f, l2).code;
    assert c.us == Put(us, Top(c.us)) && Top(c.us).descs == Top(us).descs;
    LinkedPut(us, Top(c.us));
  }

  lemma {:induction false} BindsDo(us: Nest, f: Form, l2: bool, a: Bindings, t: set<nat>) returns (b: Bindings)
    requires (f.Do? || f.Cond?) && Sound(us) && Comp(us, f, l2).Built? && Spoken(f) && Ready(us, a)
    requires t <= a[Top(us).pc]
    ensures var c := Comp(us, f, l2).code; Typing(Top(c.us), c.ws, Top(us).pc, a, b, t) && Linked(c.us)
    decreases f, 1
  {
    hide Sound, Ready, Linked, Typing, CompBody, CompClauses, SpokenAll, SpokenClauses;
    if f.Do? { b := BindsBody(us, f.body, l2, a, t); } else { b := BindsClauses(us, f.clauses, l2, a, t); }
  }

  lemma {:induction false} BindsIf(us: Nest, f: Form, l2: bool, a: Bindings, t: set<nat>) returns (b: Bindings)
    requires f.If? && Sound(us) && Comp(us, f, l2).Built? && Spoken(f) && Ready(us, a) && t <= a[Top(us).pc]
    ensures var c := Comp(us, f, l2).code; Typing(Top(c.us), c.ws, Top(us).pc, a, b, t) && Linked(c.us)
    decreases f, 1
  {
    hide Sound, Ready, Linked, Typed, Comp, IfElse, Grows, ClosureFree;
    UnfoldIf(us, f, l2);
    ReadyAt(us, a);
    var s := a[Top(us).pc];
    var x := Comp(us, f.test, l2).code;
    FormLeaves(us, f.test, l2);
    var b1 := Binds(us, f.test, l2, a, s);
    var us1 := PastJump(us, x, a, b1, s);
    var y := Comp(Skip(x.us, 1), f.thn, l2).code;
    var at := Top(x.us).pc;
    FormLeaves(us1, f.thn, l2);
    var b2 := Binds(us1, f.thn, l2, b1[at + 1 := s], s);
    var us2 := PastJump(us1, y, b1[at + 1 := s], b2, s);
    var z := Else(us2, f.els, l2).code;
    var b3;
    if f.els.Some? {
      FormLeaves(us2, f.els.value, l2);
      b3 := Binds(us2, f.els.value, l2, b2[Top(y.us).pc + 1 := s], t);
    } else {
      b3 := PlainWord(us2, OpNil, b2[Top(y.us).pc + 1 := s], t);
      OneGrows(us2, OpNil);
    }
    b := b3;
    Part(us, x, us1, y, us2, z, a, b1, b2, b3, s, t);
  }

  /** Past a test or a part, with room for the jump. */
  lemma {:induction false} PastJump(us: Nest, x: Code, a: Bindings, b: Bindings, s: set<nat>) returns (vs: Nest)
    requires Ready(us, a) && a[Top(us).pc] == s && Linked(x.us) && Sound(x.us)
    requires Top(x.us).names == Top(us).names && Top(x.us).loops == Top(us).loops && Top(x.us).pc == Top(us).pc + |x.ws|
    requires Typing(Top(x.us), x.ws, Top(us).pc, a, b, s)
    ensures vs == Skip(x.us, 1) && Sound(vs) && Grows(Top(x.us), Top(vs)) && Ready(vs, b[Top(x.us).pc + 1 := s])
  {
    hide Linked, Typed, Sound, LoopIn, Named;
    vs := Skip(x.us, 1);
    var at := Top(x.us).pc;
    Skipped(x.us, 1);
    LinkedSkip(x.us, 1);
    OneOn(b, at, s);
    ExtendsOn(a, b, b[at + 1 := s]);
    ReadyOn(us, vs, a, b[at + 1 := s]);
  }

  /** An instruction that reads no slot. */
  lemma {:induction false} PlainWord(us: Nest, op: Opcode, a: Bindings, t: set<nat>) returns (b: Bindings)
    requires IsPlain(op) && Ready(us, a) && t <= a[Top(us).pc]
    ensures var c := One(us, op, 0); Typing(Top(c.us), c.ws, Top(us).pc, a, b, t) && Linked(c.us)
  {
    hide Linked, LoopIn, Named, Typing;
    LinkedSkip(us, 1);
    b := Word1(Top(Skip(us, 1)), Raw(op, 0), Top(us).pc, a, t);
  }

  /** Test and parts together. */
  lemma {:induction false} Part(us: Nest, x: Code, us1: Nest, y: Code, us2: Nest, z: Code, a: Bindings, b1: Bindings,
      b2: Bindings, b3: Bindings, s: set<nat>, t: set<nat>)
    requires Top(x.us).pc == Top(us).pc + |x.ws| && us1 == Skip(x.us, 1) && Top(y.us).pc == Top(us1).pc + |y.ws|
    requires us2 == Skip(y.us, 1) && t <= s && Grows(Top(x.us), Top(us1)) && Grows(Top(us1), Top(y.us))
    requires Grows(Top(y.us), Top(us2)) && Grows(Top(us2), Top(z.us))
    requires Typing(Top(x.us), x.ws, Top(us).pc, a, b1, s)
    requires Typing(Top(y.us), y.ws, Top(us1).pc, b1[Top(x.us).pc + 1 := s], b2, s)
    requires Typing(Top(z.us), z.ws, Top(us2).pc, b2[Top(y.us).pc + 1 := s], b3, t)
    ensures Typing(Top(z.us), x.ws + IfElse(y.ws, z.ws), Top(us).pc, a, b3, t)
  {
    hide Typed, Grows, IfElse;
    GrowsOn(Top(y.us), Top(us2), Top(z.us));
    Branched(Top(y.us), Top(z.us), y.ws, z.ws, Top(x.us).pc, b1, b2, b3, s, t);
    GrowsOn(Top(x.us), Top(us1), Top(y.us));
    GrowsOn(Top(x.us), Top(y.us), Top(z.us));
    TypingJoin(Top(x.us), Top(z.us), x.ws, IfElse(y.ws, z.ws), Top(us).pc, a, b1, b3, s, t);
  }

  lemma {:induction false} OneGrows(us: Nest, op: Opcode)
    ensures Grows(Top(us), Top(One(us, op, 0).us))
  {
  }

  lemma {:induction false} BindsWhen(us: Nest, f: Form, l2: bool, a: Bindings, t: set<nat>) returns (b: Bindings)
    requires f.When? && Sound(us) && Comp(us, f, l2).Built? && Spoken(f) && Ready(us, a) && t <= a[Top(us).pc]
    ensures var c := Comp(us, f, l2).code; Typing(Top(c.us), c.ws, Top(us).pc, a, b, t) && Linked(c.us)
    decreases f, 1
  {
    hide Sound, Ready, Linked, Typed, Comp, CompBody, IfElse, Grows, ClosureFree, ClosureFreeAll, SpokenAll;
    UnfoldWhen(us, f, l2);
    ReadyAt(us, a);
    var s := a[Top(us).pc];
    var x := Comp(us, f.test, l2).code;
    FormLeaves(us, f.test, l2);
    var b1 := Binds(us, f.test, l2, a, s);
    var us1 := PastJump(us, x, a, b1, s);
    var y := CompBody(Skip(x.us, 1), f.body, l2).code;
    var at := Top(x.us).pc;
    BodyLeaves(us1, f.body, l2);
    var b2 := BindsBody(us1, f.body, l2, b1[at + 1 := s], s);
    var us2 := PastJump(us1, y, b1[at + 1 := s], b2, s);
    b := PlainWord(us2, OpNil, b2[Top(y.us).pc + 1 := s], t);
    OneGrows(us2, OpNil);
    Part(us, x, us1, y, us2, One(us2, OpNil, 0), a, b1, b2, b, s, t);
  }

  lemma {:induction false} BindsNot(us: Nest, f: Form, l2: bool, a: Bindings, t: set<nat>) returns (b: Bindings)
    requires f.Not? && Sound(us) && Comp(us, f, l2).Built? && Spoken(f) && Ready(us, a) && t <= a[Top(us).pc]
    ensures var c := Comp(us, f, l2).code; Typing(Top(c.us), c.ws, Top(us).pc, a, b, t) && Linked(c.us)
    decreases f, 1
  {
    hide Sound, Ready, Linked, Typed, Comp, IfElse, Grows, ClosureFree;
    UnfoldNot(us, f, l2);
    ReadyAt(us, a);
    var s := a[Top(us).pc];
    var x := Comp(us, f.arg, l2).code;
    FormLeaves(us, f.arg, l2);
    var b1 := Binds(us, f.arg, l2, a, s);
    var us1 := PastJump(us, x, a, b1, s);
    var y := One(Skip(x.us, 1), OpFalse, 0);
    var at := Top(x.us).pc;
    var b2 := PlainWord(us1, OpFalse, b1[at + 1 := s], s);
    OneGrows(us1, OpFalse);
    Skipped(us1, 1);
    var us2 := PastJump(us1, y, b1[at + 1 := s], b2, s);
    b := PlainWord(us2, OpTrue, b2[Top(y.us).pc + 1 := s], t);
    OneGrows(us2, OpTrue);
    Part(us, x, us1, y, us2, One(us2, OpTrue, 0), a, b1, b2, b, s, t);
  }

  lemma {:induction false} BindsClauses(us: Nest, cs: Clauses, l2: bool, a: Bindings, t: set<nat>) returns (b: Bindings)
    requires Sound(us) && CompClauses(us, cs, l2).Built? && SpokenClauses(cs) && Ready(us, a) && t <= a[Top(us).pc]
    ensures var c := CompClauses(us, cs, l2).code; Typing(Top(c.us), c.ws, Top(us).pc, a, b, t) && Linked(c.us)
    decreases cs, 0
  {
    hide Sound, Ready, Linked, Typed, Comp, CompBody, IfElse, Grows, SpokenAll, Spoken;
    ReadyAt(us, a);
    if cs.NoClauses? {
      b := PlainWord(us, OpNil, a, t);
    } else if IsElse(cs.test) {
      b := BindsBody(us, cs.body, l2, a, t);
    } else {
      UnfoldClauses(us, cs, l2);
      var s := a[Top(us).pc];
      var x := Comp(us, cs.test, l2).code;
      FormLeaves(us, cs.test, l2);
      var b1 := Binds(us, cs.test, l2, a, s);
      var us1 := PastJump(us, x, a, b1, s);
      var y := CompBody(Skip(x.us, 1), cs.body, l2).code;
      var at := Top(x.us).pc;
      BodyLeaves(us1, cs.body, l2);
      var b2 := BindsBody(us1, cs.body, l2, b1[at + 1 := s], s);
      var us2 := PastJump(us1, y, b1[at + 1 := s], b2, s);
      var z := CompClauses(us2, cs.rest, l2).code;
      ClausesLeave(us2, cs.rest, l2);
      b := BindsClauses(us2, cs.rest, l2, b2[Top(y.us).pc + 1 := s], t);
      Part(us, x, us1, y, us2, z, a, b1, b2, b, s, t);
    }
  }

  lemma {:induction false} ClausesLeave(us: Nest, cs: Clauses, l2: bool)
    requires Sound(us) && CompClauses(us, cs, l2).Built?
    ensures Grows(Top(us), Top(CompClauses(us, cs, l2).code.us))
  {
    hide Sound, CompClauses, Made, Grows, OutClauses;
    CompilesClauses(us, cs, l2);
    After1(us, CompClauses(us, cs, l2).code, Top(us).names, OutClauses(us, cs, l2));
  }

  lemma {:induction false} BindsBody(us: Nest, fs: Forms, l2: bool, a: Bindings, t: set<nat>) returns (b: Bindings)
    requires Sound(us) && CompBody(us, fs, l2).Built? && SpokenAll(fs) && Ready(us, a) && t <= a[Top(us).pc]
    ensures var c := CompBody(us, fs, l2).code; Typing(Top(c.us), c.ws, Top(us).pc, a, b, t) && Linked(c.us)
    decreases fs, 0
  {
    hide Sound, Ready, Linked, Typed, Comp, Grows, Spoken;
    ReadyAt(us, a);
    if fs.End? {
      b := PlainWord(us, OpNil, a, t);
    } else if fs.tail.End? {
      b := Binds(us, fs.head, l2, a, t);
    } else {
      var s := a[Top(us).pc];
      var x := Comp(us, fs.head, l2).code;
      FormLeaves(us, fs.head, l2);
      var b1 := Binds(us, fs.head, l2, a, s);
      ReadyOn(us, x.us, a, b1);
      var p := One(x.us, OpPop, 0);
      var b2 := PlainWord(x.us, OpPop, b1, s);
      Skipped(x.us, 1);
      OneGrows(x.us, OpPop);
      ReadyOn(x.us, p.us, b1, b2);
      var y := CompBody(p.us, fs.tail, l2).code;
      BodyLeaves(p.us, fs.tail, l2);
      b := BindsBody(p.us, fs.tail, l2, b2, t);
      TypingJoin(Top(x.us), Top(p.us), x.ws, p.ws, Top(us).pc, a, b1, b2, s, s);
      TypingJoin(Top(p.us), Top(y.us), x.ws + p.ws, y.ws, Top(us).pc, a, b2, b, s, t);
    }
  }

  lemma {:induction false} ArgsLeave(us: Nest, fs: Forms, l2: bool)
    requires Sound(us) && CompArgs(us, fs, l2).Built?
    ensures var c := CompArgs(us, fs, l2).code;
      && Sound(c.us) && |c.us| == |us| && Top(c.us).pc == Top(us).pc + |c.ws| && Grows(Top(us), Top(c.us))
      && Top(c.us).names == Top(us).names && Top(c.us).loops == Top(us).loops && Top(c.us).tries == Top(us).tries
  {
    hide Sound, CompArgs, Made, Grows, OutArgs;
    CompilesArgs(us, fs, l2);
    After1(us, CompArgs(us, fs, l2).code, Top(us).names, OutArgs(us, fs, l2));
  }

  lemma {:induction false} BindsArgs(us: Nest, fs: Forms, l2: bool, a: Bindings) returns (b: Bindings)
    requires Sound(us) && CompArgs(us, fs, l2).Built? && SpokenAll(fs) && Ready(us, a)
    ensures Top(us).pc in a
    ensures var c := CompArgs(us, fs, l2).code; Typing(Top(c.us), c.ws, Top(us).pc, a, b, a[Top(us).pc]) && Linked(c.us)
    decreases fs, 0
  {
    hide Sound, Ready, Linked, Comp, Grows, Spoken, Flow;
    ReadyAt(us, a);
    if fs.End? {
      SelfExtends(a);
      b := a;
    } else {
      var s := a[Top(us).pc];
      var x := Comp(us, fs.head, l2).code;
      FormLeaves(us, fs.head, l2);
      var b1 := Binds(us, fs.head, l2, a, s);
      ReadyOn(us, x.us, a, b1);
      ArgsLeave(x.us, fs.tail, l2);
      var y := CompArgs(x.us, fs.tail, l2).code;
      b := BindsArgs(x.us, fs.tail, l2, b1);
      TypingJoin(Top(x.us), Top(y.us), x.ws, y.ws, Top(us).pc, a, b1, b, s, s);
    }
  }

  // ---- and, or ----

  /** Three places more, all alike. */
  lemma {:induction false} ThreeOn(bound: Bindings, pc: nat, s: set<nat>)
    requires UpTo(bound, pc)
    ensures var b := bound[pc + 1 := s][pc + 2 := s][pc + 3 := s]; Extends(bound, b) && UpTo(b, pc + 3)
  {
  }

  lemma {:induction false} AndTyped(u: Unit, ws: seq<Raw>, at: nat, a: Bindings, b: Bindings, s: set<nat>, t: set<nat>)
    requires UpTo(a, at) && a[at] == s && t <= s
    requires Typing(u, ws, at + 3, a[at + 1 := s][at + 2 := s][at + 3 := s], b, t)
    ensures Typing(u, AndThen(ws), at, a, b, t)
  {
    hide Typed;
    ThreeOn(a, at, s);
    ExtendsOn(a, a[at + 1 := s][at + 2 := s][at + 3 := s], b);
    TypedOne(u, Raw(OpDup, 0), at, b);
    TypedOne(u, Raw(OpJumpIfFalse, 1 + |ws|), at + 1, b);
    TypedOne(u, Raw(OpPop, 0), at + 2, b);
    TypedJoin(u, [Raw(OpDup, 0)], [Raw(OpJumpIfFalse, 1 + |ws|)], at, b);
    TypedJoin(u, [Raw(OpDup, 0)] + [Raw(OpJumpIfFalse, 1 + |ws|)], [Raw(OpPop, 0)], at, b);
    var three := [Raw(OpDup, 0)] + [Raw(OpJumpIfFalse, 1 + |ws|)] + [Raw(OpPop, 0)];
    assert three == [Raw(OpDup, 0), Raw(OpJumpIfFalse, 1 + |ws|), Raw(OpPop, 0)];
    TypedJoin(u, three, ws, at, b);
  }

  lemma {:induction false} OrTyped(u: Unit, ws: seq<Raw>, at: nat, a: Bindings, b: Bindings, s: set<nat>, t: set<nat>)
    requires UpTo(a, at) && a[at] == s && t <= s
    requires Typing(u, ws, at + 4, a[at + 1 := s][at + 2 := s][at + 3 := s][at + 4 := s], b, t)
    ensures Typing(u, OrElse(ws), at, a, b, t)
  {
    hide Typed;
    ThreeOn(a, at, s);
    OneOn(a[at + 1 := s][at + 2 := s][at + 3 := s], at + 3, s);
    ExtendsOn(a, a[at + 1 := s][at + 2 := s][at + 3 := s], a[at + 1 := s][at + 2 := s][at + 3 := s][at + 4 := s]);
    ExtendsOn(a, a[at + 1 := s][at + 2 := s][at + 3 := s][at + 4 := s], b);
    TypedOne(u, Raw(OpDup, 0), at, b);
    TypedOne(u, Raw(OpJumpIfFalse, 1), at + 1, b);
    TypedOne(u, Raw(OpJump, 1 + |ws|), at + 2, b);
    TypedOne(u, Raw(OpPop, 0), at + 3, b);
    TypedJoin(u, [Raw(OpDup, 0)], [Raw(OpJumpIfFalse, 1)], at, b);
    TypedJoin(u, [Raw(OpDup, 0)] + [Raw(OpJumpIfFalse, 1)], [Raw(OpJump, 1 + |ws|)], at, b);
    TypedJoin(u, [Raw(OpDup, 0)] + [Raw(OpJumpIfFalse, 1)] + [Raw(OpJump, 1 + |ws|)], [Raw(OpPop, 0)], at, b);
    var four := [Raw(OpDup, 0)] + [Raw(OpJumpIfFalse, 1)] + [Raw(OpJump, 1 + |ws|)] + [Raw(OpPop, 0)];
    assert four == [Raw(OpDup, 0), Raw(OpJumpIfFalse, 1), Raw(OpJump, 1 + |ws|), Raw(OpPop, 0)];
    TypedJoin(u, four, ws, at, b);
  }

  function Rest(us: Nest, fs: Forms, l2: bool, isAnd: bool): Built {
    if isAnd then CompAnd(us, fs, l2) else CompOr(us, fs, l2)
  }

  lemma {:induction false} UnfoldRest(us: Nest, fs: Forms, l2: bool, isAnd: bool)
    requires Rest(us, fs, l2, isAnd).Built?
    ensures fs.End? ==> Rest(us, fs, l2, isAnd).code == Code(us, [])
    ensures fs.Cons? ==>
      var us1 := Skip(us, if isAnd then 3 else 4);
      && Comp(us1, fs.head, l2).Built?
      && var x := Comp(us1, fs.head, l2).code;
      && Rest(x.us, fs.tail, l2, isAnd).Built?
      && var y := Rest(x.us, fs.tail, l2, isAnd).code;
      && Rest(us, fs, l2, isAnd).code == Code(y.us, if isAnd then AndThen(x.ws + y.ws) else OrElse(x.ws + y.ws))
  {
    hide Comp, AndThen, OrElse, Skip;
  }

  lemma {:induction false} RestLeaves(us: Nest, fs: Forms, l2: bool, isAnd: bool)
    requires Sound(us) && Rest(us, fs, l2, isAnd).Built?
    ensures Grows(Top(us), Top(Rest(us, fs, l2, isAnd).code.us))
  {
    hide Sound, CompAnd, CompOr, Made, Grows, OutAnd, OutOr;
    if isAnd {
      CompilesAnd(us, fs, l2);
      After1(us, CompAnd(us, fs, l2).code, Top(us).names, OutAnd(us, fs, l2));
    } else {
      CompilesOr(us, fs, l2);
      After1(us, CompOr(us, fs, l2).code, Top(us).names, OutOr(us, fs, l2));
    }
  }

  /** A first argument and those after it, which end where the first did if there are none. */
  lemma {:induction false} BindsMore(us: Nest, x: Code, fs: Forms, l2: bool, isAnd: bool, a: Bindings, b1: Bindings,
      s: set<nat>, t: set<nat>) returns (b: Bindings)
    requires Ready(us, a) && a[Top(us).pc] == s && t <= s && Sound(x.us) && Linked(x.us) && SpokenAll(fs)
    requires Top(x.us).names == Top(us).names && Top(x.us).loops == Top(us).loops && Top(x.us).pc == Top(us).pc + |x.ws|
    requires Typing(Top(x.us), x.ws, Top(us).pc, a, b1, if fs.End? then t else s) && Rest(x.us, fs, l2, isAnd).Built?
    ensures var y := Rest(x.us, fs, l2, isAnd).code;
      Typing(Top(y.us), x.ws + y.ws, Top(us).pc, a, b, t) && Linked(y.us)
    decreases fs, 1
  {
    hide Sound, Ready, Linked, Typed, Rest, Grows, SpokenAll;
    UnfoldRest(x.us, fs, l2, isAnd);
    if fs.End? {
      b := b1;
      assert x.ws + [] == x.ws;
    } else {
      ReadyOn(us, x.us, a, b1);
      var y := Rest(x.us, fs, l2, isAnd).code;
      RestLeaves(x.us, fs, l2, isAnd);
      b := BindsRest(x.us, fs, l2, isAnd, b1, t);
      TypingJoin(Top(x.us), Top(y.us), x.ws, y.ws, Top(us).pc, a, b1, b, s, t);
    }
  }

  lemma {:induction false} BindsRest(us: Nest, fs: Forms, l2: bool, isAnd: bool, a: Bindings,
      t: set<nat>)
    returns (b: Bindings)
    requires Sound(us) && fs.Cons? && Rest(us, fs, l2, isAnd).Built? && SpokenAll(fs) && Ready(us, a)
    requires t <= a[Top(us).pc]
    ensures var c := Rest(us, fs, l2, isAnd).code; Typing(Top(c.us), c.ws, Top(us).pc, a, b, t) && Linked(c.us)
    decreases fs, 0
  {
    hide Sound, Ready, Linked, Typed, Rest, Comp, Grows, Spoken, AndThen, OrElse;
    UnfoldRest(us, fs, l2, isAnd);
    ReadyAt(us, a);
    var at, n := Top(us).pc, if isAnd then 3 else 4;
    var s, us1 := a[at], Skip(us, n);
    Skipped(us, n);
    LinkedSkip(us, n);
    ThreeOn(a, at, s);
    var a3 := a[at + 1 := s][at + 2 := s][at + 3 := s];
    OneOn(a3, at + 3, s);
    var a1 := if isAnd then a3 else a3[at + 4 := s];
    ExtendsOn(a, a3, a3[at + 4 := s]);
    ReadyOn(us, us1, a, a1);
    var x := Comp(us1, fs.head, l2).code;
    FormLeaves(us1, fs.head, l2);
    var b1 := Binds(us1, fs.head, l2, a1, if fs.tail.End? then t else s);
    b := BindsMore(us1, x, fs.tail, l2, isAnd, a1, b1, s, t);
    var y := Rest(x.us, fs.tail, l2, isAnd).code;
    if isAnd {
      AndTyped(Top(y.us), x.ws + y.ws, at, a, b, s, t);
    } else {
      OrTyped(Top(y.us), x.ws + y.ws, at, a, b, s, t);
    }
  }

  lemma {:induction false} BindsAndOr(us: Nest, f: Form, l2: bool, a: Bindings, t: set<nat>) returns (b: Bindings)
    requires (f.And? || f.Or?) && Sound(us) && Comp(us, f, l2).Built? && Spoken(f) && Ready(us, a) && t <= a[Top(us).pc]
    ensures var c := Comp(us, f, l2).code; Typing(Top(c.us), c.ws, Top(us).pc, a, b, t) && Linked(c.us)
    decreases f, 1
  {
    hide Sound, Ready, Linked, Typed, Comp, CompAnd, CompOr, Grows, ClosureFree, ClosureFreeAll;
    UnfoldAndOr(us, f, l2);
    ReadyAt(us, a);
    if f.args.End? {
      b := PlainWord(us, if f.And? then OpTrue else OpNil, a, t);
    } else {
      var s, x := a[Top(us).pc], Comp(us, f.args.head, l2).code;
      FormLeaves(us, f.args.head, l2);
      var b1 := Binds(us, f.args.head, l2, a, if f.args.tail.End? then t else s);
      b := BindsMore(us, x, f.args.tail, l2, f.And?, a, b1, s, t);
    }
  }

  // ---- throw, set! ----

  lemma {:induction false} BindsThrow(us: Nest, f: Form, l2: bool, a: Bindings, t: set<nat>) returns (b: Bindings)
    requires f.Throw? && Sound(us) && Comp(us, f, l2).Built? && Spoken(f) && Ready(us, a) && t <= a[Top(us).pc]
    ensures var c := Comp(us, f, l2).code; Typing(Top(c.us), c.ws, Top(us).pc, a, b, t) && Linked(c.us)
    decreases f, 1
  {
    hide Sound, Ready, Linked, Typed, Comp, Grows, ClosureFree;
    UnfoldThrow(us, f, l2);
    ReadyAt(us, a);
    var s, x := a[Top(us).pc], Comp(us, f.arg, l2).code;
    FormLeaves(us, f.arg, l2);
    var b1 := Binds(us, f.arg, l2, a, s);
    ReadyOn(us, x.us, a, b1);
    b := PlainWord(x.us, OpThrow, b1, t);
    OneGrows(x.us, OpThrow);
    TypingJoin(Top(x.us), Top(One(x.us, OpThrow, 0).us), x.ws, [Raw(OpThrow, 0)], Top(us).pc, a, b1, b, s, t);
  }

  /** A word that only names a constant. */
  lemma {:induction false} ConstWord(us: Nest, op: Opcode, v: Value, a: Bindings, t: set<nat>) returns (b: Bindings)
    requires Ready(us, a) && t <= a[Top(us).pc] && Sound(us) && (op.OpConst? || (IsNameOp(op) && v.Sym?))
    ensures var c := WithConst(us, op, v);
      && Typing(Top(c.us), c.ws, Top(us).pc, a, b, t) && Linked(c.us) && Sound(c.us) && Grows(Top(us), Top(c.us))
      && Top(c.us).names == Top(us).names && Top(c.us).loops == Top(us).loops && Top(c.us).pc == Top(us).pc + |c.ws|
  {
    hide Linked, LoopIn, Named, Typing, IndexOf, Sound, Made, Grows;
    var c := WithConst(us, op, v);
    ConstMade(us, op, v);
    After1(us, c, Top(us).names, Some([ConstInstr(op, v)]));
    assert c.us == Put(us, Top(c.us)) && Top(c.us).descs == Top(us).descs;
    LinkedPut(us, Top(c.us));
    b := Word1(Top(c.us), c.ws[0], Top(us).pc, a, t);
    assert c.ws == [c.ws[0]];
  }

  lemma {:induction false} BindsAssign(us: Nest, f: Form, l2: bool, a: Bindings, t: set<nat>) returns (b: Bindings)
    requires f.Assign? && Sound(us) && Comp(us, f, l2).Built? && Spoken(f) && Ready(us, a) && t <= a[Top(us).pc]
    ensures var c := Comp(us, f, l2).code; Typing(Top(c.us), c.ws, Top(us).pc, a, b, t) && Linked(c.us)
    decreases f, 1
  {
    hide Sound, Ready, Linked, Typed, Comp, Grows, ClosureFree, AncestorBinds, ResolveLocal, WithConst, Capture, Named;
    UnfoldAssign(us, f, l2);
    ReadyAt(us, a);
    var s, slot := a[Top(us).pc], ResolveLocal(Top(us).names, f.name);
    if slot.None? && !AncestorBinds(us, f.name) {
      b := AssignsRootBound(us, f, l2, a, t);
    } else {
      var x := Comp(us, f.rhs, l2).code;
      FormLeaves(us, f.rhs, l2);
      var b1 := Binds(us, f.rhs, l2, a, s);
      ReadyOn(us, x.us, a, b1);
      var y := if slot.Some? then One(x.us, OpSetLocal, slot.value) else Capture(x.us, OpSetCap, f.name);
      if slot.Some? {
        ResolvedName(Top(us).names, f.name);
        LinkedSkip(x.us, 1);
        SlotGrows(x.us, OpSetLocal, slot.value);
        b := Word1(Top(y.us), Raw(OpSetLocal, slot.value), Top(x.us).pc, b1, t);
      } else {
        Compiles(us, f.rhs, l2);
        StillBound(us, x, Top(us).names, Out(us, f.rhs, l2), f.name);
        b := CaptureWord(x.us, OpSetCap, f.name, b1, t);
      }
      TypingJoin(Top(x.us), Top(y.us), x.ws, y.ws, Top(us).pc, a, b1, b, s, t);
    }
  }

  lemma {:induction false} SlotGrows(us: Nest, op: Opcode, i: nat)
    ensures Grows(Top(us), Top(One(us, op, i).us))
  {
  }

  lemma {:induction false} CaptureWord(us: Nest, op: Opcode, x: string, a: Bindings, t: set<nat>) returns (b: Bindings)
    requires Ready(us, a) && t <= a[Top(us).pc] && Sound(us) && AncestorBinds(us, x) && x != ""
    requires op.OpGetCap? || op.OpSetCap?
    ensures var c := Capture(us, op, x);
      Typing(Top(c.us), c.ws, Top(us).pc, a, b, t) && Linked(c.us) && Grows(Top(us), Top(c.us))
  {
    hide Linked, LoopIn, Named, Typing, CapIndex, EnsureCapture, Sound, Made, Grows, AncestorBinds;
    var c := Capture(us, op, x);
    CaptureMade(us, op, x);
    After1(us, c, Top(us).names, None);
    LinkedCapture(us, x);
    LinkedSkip(EnsureCapture(us, x), 1);
    b := Word1(Top(c.us), c.ws[0], Top(us).pc, a, t);
    assert c.ws == [c.ws[0]];
  }

  lemma {:induction false} AssignsRootBound(us: Nest, f: Form, l2: bool, a: Bindings, t: set<nat>) returns (b: Bindings)
    requires f.Assign? && Sound(us) && Spoken(f) && Ready(us, a) && t <= a[Top(us).pc]
    requires var c := WithConst(us, OpCheckLexical, Sym(f.name));
      && Comp(c.us, f.rhs, l2).Built?
      && var r := Comp(c.us, f.rhs, l2).code;
      && var s := WithConst(r.us, OpSetLexical, Sym(f.name));
      && Comp(us, f, l2) == Built(Code(s.us, c.ws + r.ws + s.ws))
    ensures var c := Comp(us, f, l2).code; Typing(Top(c.us), c.ws, Top(us).pc, a, b, t) && Linked(c.us)
    decreases f, 0
  {
    hide Sound, Ready, Linked, Typed, Comp, Grows, WithConst;
    ReadyAt(us, a);
    var s, x := a[Top(us).pc], Sym(f.name);
    var c := WithConst(us, OpCheckLexical, x);
    var b1 := ConstWord(us, OpCheckLexical, x, a, s);
    ReadyOn(us, c.us, a, b1);
    var r := Comp(c.us, f.rhs, l2).code;
    FormLeaves(c.us, f.rhs, l2);
    var b2 := Binds(c.us, f.rhs, l2, b1, s);
    ReadyOn(c.us, r.us, b1, b2);
    var y := WithConst(r.us, OpSetLexical, x);
    b := ConstWord(r.us, OpSetLexical, x, b2, t);
    TypingJoin(Top(c.us), Top(r.us), c.ws, r.ws, Top(us).pc, a, b1, b2, s, s);
    TypingJoin(Top(r.us), Top(y.us), c.ws + r.ws, y.ws, Top(us).pc, a, b2, b, s, t);
  }

  // ---- let ----

  lemma {:induction false} NamedMore(names: seq<string>, x: string)
    ensures Named(names + [x]) <= Named(names) + {|names|} && Named(names + [""]) == Named(names)
  {
  }

  /** A slot bound, in scope under its name or under none. */
  lemma {:induction false} Bound1(us: Nest, x: string, slot: nat, a: Bindings) returns (b: Bindings)
    requires Ready(us, a) && slot < Top(us).locals && Sound(us)
    ensures Top(us).pc in a
    ensures var c := BindSlot(us, slot);
      && Typing(Top(c.us), c.ws, Top(us).pc, a, b, a[Top(us).pc] + {slot}) && Ready(c.us, b) && Linked(c.us)
      && Sound(c.us) && Grows(Top(us), Top(c.us)) && Top(c.us).names == Top(us).names
      && Top(c.us).loops == Top(us).loops && Top(c.us).pc == Top(us).pc + 2 && |c.ws| == 2
  {
    hide Linked, LoopIn, Named, Typed, Sound, Made, Grows;
    var c, u := BindSlot(us, slot), Top(us);
    BindMade(us, slot);
    After1(us, c, u.names, Some([SetLocal(slot), Pop]));
    assert c.us == Put(us, Top(c.us)) && Top(c.us).descs == u.descs && u.pc in Top(c.us).binds;
    LinkedPut(us, Top(c.us));
    b := Bind1(Top(c.us), slot, u.pc, a);
    ReadyOn(us, c.us, a, b);
  }

  /** A slot reserved for a name that is bound next. */
  lemma {:induction false} ReadyReserved(us: Nest, x: string, a: Bindings)
    requires Ready(us, a) && Sound(us) && x == ""
    ensures Ready(Reserve(us, x), a)
  {
    hide Linked, LoopIn;
    LinkedReserve(us, x);
    NamedMore(Top(us).names, x);
  }

  lemma {:induction false} BindsBinds(us: Nest, bs: Binds, l2: bool, a: Bindings) returns (b: Bindings)
    requires Sound(us) && CompBinds(us, bs, l2).Built? && SpokenBinds(bs) && Ready(us, a)
    ensures Top(us).pc in a
    ensures var c := CompBinds(us, bs, l2).code;
      && Ready(c.us, b) && Top(c.us).pc == Top(us).pc + |c.ws| && a[Top(us).pc] <= b[Top(c.us).pc]
      && Typing(Top(c.us), c.ws, Top(us).pc, a, b, b[Top(c.us).pc])
    decreases bs, 0
  {
    hide Sound, Ready, Linked, Typed, Comp, Grows, Spoken, CompBinds, Reserve, BindSlot, Named;
    ReadyAt(us, a);
    if bs.NoBinds? {
      b := a;
      NoBindsTyped(us, l2, a);
    } else {
      UnfoldBinds(us, bs, l2);
      var s, x := a[Top(us).pc], Comp(us, bs.init, l2).code;
      FormLeaves(us, bs.init, l2);
      var b1 := Binds(us, bs.init, l2, a, s);
      ReadyOn(us, x.us, a, b1);
      var n := |Top(x.us).names|;
      var us1 := Reserve(x.us, bs.name);
      var y := BindSlot(us1, n);
      ReserveOk(x.us, bs.name);
      ReservedIs(x.us, bs.name);
      var b2 := BoundNext(x.us, bs.name, b1);
      CompBindsLeave(y.us, bs.rest, l2);
      var z := CompBinds(y.us, bs.rest, l2).code;
      b := BindsBinds(y.us, bs.rest, l2, b2);
      GrowsOn(Top(x.us), Top(us1), Top(y.us));
      TypingJoin(Top(x.us), Top(y.us), x.ws, y.ws, Top(us).pc, a, b1, b2, s, s + {n});
      TypingJoin(Top(y.us), Top(z.us), x.ws + y.ws, z.ws, Top(us).pc, a, b2, b, s + {n}, b[Top(z.us).pc]);
    }
  }

  lemma {:induction false} NoBindsTyped(us: Nest, l2: bool, a: Bindings)
    requires Ready(us, a)
    ensures CompBinds(us, NoBinds, l2) == Built(Code(us, [])) && CompInits(us, NoBinds, l2) == Built(Code(us, []))
    ensures Typing(Top(us), [], Top(us).pc, a, a, a[Top(us).pc])
  {
    hide Linked, LoopIn, Named;
  }

  lemma {:induction false} ReservedIs(us: Nest, x: string)
    requires Sound(us)
    ensures var vs := Reserve(us, x);
      && Top(vs).pc == Top(us).pc && Top(vs).names == Top(us).names + [x] && Top(vs).loops == Top(us).loops
      && |Top(us).names| < Top(vs).locals && Grows(Top(us), Top(vs)) && |vs| == |us|
  {
    hide Sound;
    TopOk(us);
  }

  /** A name's slot reserved and bound. */
  lemma {:induction false} BoundNext(us: Nest, x: string, a: Bindings) returns (b: Bindings)
    requires Ready(us, a) && Sound(us)
    ensures Top(us).pc in a
    ensures var vs := Reserve(us, x);
      var n := |Top(us).names|;
      var c := BindSlot(vs, n);
      && Typing(Top(c.us), c.ws, Top(us).pc, a, b, a[Top(us).pc] + {n}) && Ready(c.us, b) && Sound(c.us)
      && Grows(Top(vs), Top(c.us)) && Top(c.us).names == Top(us).names + [x] && Top(c.us).loops == Top(us).loops
      && Top(c.us).pc == Top(us).pc + 2 && |c.ws| == 2
  {
    hide Linked, Typed, Sound, Made, Grows, LoopIn;
    var vs, n := Reserve(us, x), |Top(us).names|;
    ReserveOk(us, x);
    ReservedIs(us, x);
    var c := BindSlot(vs, n);
    BindMade(vs, n);
    After1(vs, c, Top(vs).names, Some([SetLocal(n), Pop]));
    assert c.us == Put(vs, Top(c.us)) && Top(c.us).descs == Top(vs).descs && Top(us).pc in Top(c.us).binds;
    LinkedReserve(us, x);
    LinkedPut(vs, Top(c.us));
    b := Bind1(Top(c.us), n, Top(us).pc, a);
    NamedMore(Top(us).names, x);
    LoopOn(Top(us).loops, a, b, a[Top(us).pc], b[Top(c.us).pc]);
  }

  lemma {:induction false} CompBindsLeave(us: Nest, bs: Binds, l2: bool)
    requires Sound(us) && CompBinds(us, bs, l2).Built?
    ensures Grows(Top(us), Top(CompBinds(us, bs, l2).code.us)) && Sound(CompBinds(us, bs, l2).code.us)
    ensures Top(CompBinds(us, bs, l2).code.us).loops == Top(us).loops
  {
    hide Sound, CompBinds, Made, Grows, OutBinds, Names;
    CompilesBinds(us, bs, l2);
    After1(us, CompBinds(us, bs, l2).code, Top(us).names + Names(bs), OutBinds(us, bs, l2));
  }

  /** Out of a scope again. */
  lemma {:induction false} LeavesScope(us: Nest, vs: Nest, v: Unit)
    requires Linked(vs) && v == Top(us)
    ensures Linked(Restore(vs, v)) && Grows(Top(vs), Top(Restore(vs, v))) && Top(Restore(vs, v)).pc == Top(vs).pc
  {
    hide Linked;
    LinkedRestore(vs, v);
  }

  lemma {:induction false} BindsLet(us: Nest, f: Form, l2: bool, a: Bindings, t: set<nat>) returns (b: Bindings)
    requires f.Let? && Sound(us) && Comp(us, f, l2).Built? && Spoken(f) && Ready(us, a) && t <= a[Top(us).pc]
    ensures var c := Comp(us, f, l2).code; Typing(Top(c.us), c.ws, Top(us).pc, a, b, t) && Linked(c.us)
    decreases f, 1
  {
    hide Sound, Ready, Linked, Typed, Comp, CompBinds, CompBody, Grows, ClosureFree, ClosureFreeAll, ClosureFreeBinds,
         Restore, SpokenAll, SpokenBinds;
    UnfoldLet(us, f, l2);
    ReadyAt(us, a);
    var x := CompBinds(us, f.binds, l2).code;
    CompBindsLeave(us, f.binds, l2);
    var b1 := BindsBinds(us, f.binds, l2, a);
    var y := CompBody(x.us, f.body, l2).code;
    BodyLeaves(x.us, f.body, l2);
    b := BindsBody(x.us, f.body, l2, b1, t);
    TypingJoin(Top(x.us), Top(y.us), x.ws, y.ws, Top(us).pc, a, b1, b, b1[Top(x.us).pc], t);
    LeavesScope(us, y.us, Top(us));
    SelfExtends(b);
    TypedStays(Top(y.us), Top(Restore(y.us, Top(us))), x.ws + y.ws, Top(us).pc, b, b);
  }

  // ---- loop, recur ----

  predicate Between(n: nat, k: nat, i: nat) {
    n <= i < n + k
  }

  /** k slots from n on. */
  function Range(n: nat, k: nat): (s: set<nat>)
    ensures forall i: nat :: i in s <==> n <= i < n + k
  {
    set i: nat | i < n + k && Between(n, k, i)
  }

  lemma {:induction false} BindsInits(us: Nest, bs: Binds, l2: bool, a: Bindings) returns (b: Bindings)
    requires Sound(us) && CompInits(us, bs, l2).Built? && SpokenBinds(bs) && Ready(us, a)
    ensures Top(us).pc in a
    ensures var c := CompInits(us, bs, l2).code;
      && Ready(c.us, b) && Top(c.us).pc == Top(us).pc + |c.ws|
      && a[Top(us).pc] + Range(|Top(us).names|, |Names(bs)|) <= b[Top(c.us).pc]
      && Typing(Top(c.us), c.ws, Top(us).pc, a, b, b[Top(c.us).pc])
    decreases bs, 0
  {
    hide Sound, Ready, Linked, Typed, Comp, Grows, Spoken, CompInits, Reserve, BindSlot, Named;
    ReadyAt(us, a);
    if bs.NoBinds? {
      b := a;
      NoBindsTyped(us, l2, a);
    } else {
      UnfoldInits(us, bs, l2);
      var s, us0, n := a[Top(us).pc], Reserve(us, ""), |Top(us).names|;
      ReserveOk(us, "");
      ReservedIs(us, "");
      ReadyReserved(us, "", a);
      var x := Comp(us0, bs.init, l2).code;
      FormLeaves(us0, bs.init, l2);
      LocalsGrow(Top(us0), Top(x.us));
      var b1 := Binds(us0, bs.init, l2, a, s);
      ReadyOn(us0, x.us, a, b1);
      var y := BindSlot(x.us, n);
      var b2 := Bound1(x.us, "", n, b1);
      InitsLeave(y.us, bs.rest, l2);
      var z := CompInits(y.us, bs.rest, l2).code;
      b := BindsInits(y.us, bs.rest, l2, b2);
      TypingJoin(Top(x.us), Top(y.us), x.ws, y.ws, Top(us).pc, a, b1, b2, s, s + {n});
      TypingJoin(Top(y.us), Top(z.us), x.ws + y.ws, z.ws, Top(us).pc, a, b2, b, s + {n}, b[Top(z.us).pc]);
    }
  }

  lemma {:induction false} LocalsGrow(u: Unit, v: Unit)
    requires Grows(u, v)
    ensures u.locals <= v.locals
  {
  }

  lemma {:induction false} InitsLeave(us: Nest, bs: Binds, l2: bool)
    requires Sound(us) && CompInits(us, bs, l2).Built?
    ensures Grows(Top(us), Top(CompInits(us, bs, l2).code.us)) && Sound(CompInits(us, bs, l2).code.us)
    ensures Top(CompInits(us, bs, l2).code.us).loops == Top(us).loops
  {
    hide Sound, CompInits, Made, Grows, OutInits, Names, Nameless;
    CompilesInits(us, bs, l2);
    After1(us, CompInits(us, bs, l2).code, Top(us).names + Nameless(|Names(bs)|), OutInits(us, bs, l2));
  }

  lemma {:induction false} NamedJoin(names: seq<string>, more: seq<string>)
    ensures Named(names + more) <= Named(names) + Range(|names|, |more|)
  {
  }

  /** At the start of a loop its slots are bound. */
  lemma {:induction false} EntersBound(us: Nest, x: Code, binds: Binds, a: Bindings, b: Bindings)
    requires Ready(us, a) && Ready(x.us, b) && a[Top(us).pc] + Range(|Top(us).names|, |Names(binds)|) <= b[Top(x.us).pc]
    ensures Ready(LoopEntry(us, x, binds), b) && Top(LoopEntry(us, x, binds)).pc == Top(x.us).pc
    ensures Grows(Top(x.us), Top(LoopEntry(us, x, binds)))
  {
    hide Linked;
    NamedJoin(Top(us).names, Names(binds));
    LinkedPut(x.us, Top(LoopEntry(us, x, binds)));
  }

  lemma {:induction false} BindsLoop(us: Nest, f: Form, l2: bool, a: Bindings, t: set<nat>) returns (b: Bindings)
    requires f.Loop? && Sound(us) && Comp(us, f, l2).Built? && Spoken(f) && Ready(us, a) && t <= a[Top(us).pc]
    ensures var c := Comp(us, f, l2).code; Typing(Top(c.us), c.ws, Top(us).pc, a, b, t) && Linked(c.us)
    decreases f, 1
  {
    hide Sound, Ready, Linked, Typed, Comp, CompInits, CompBody, Grows, ClosureFree, ClosureFreeAll, ClosureFreeBinds,
         Restore, SpokenAll, SpokenBinds, LoopEntry, Names, Range;
    UnfoldLoop(us, f, l2);
    ReadyAt(us, a);
    var x := CompInits(us, f.binds, l2).code;
    InitsLeave(us, f.binds, l2);
    var b1 := BindsInits(us, f.binds, l2, a);
    CompilesInits(us, f.binds, l2);
    EntersLoop(us, x, f.binds, OutInits(us, f.binds, l2));
    EntersBound(us, x, f.binds, a, b1);
    var vs := LoopEntry(us, x, f.binds);
    var y := CompBody(vs, f.body, l2).code;
    BodyLeaves(vs, f.body, l2);
    b := BindsBody(vs, f.body, l2, b1, t);
    GrowsOn(Top(x.us), Top(vs), Top(y.us));
    TypingJoin(Top(x.us), Top(y.us), x.ws, y.ws, Top(us).pc, a, b1, b, b1[Top(x.us).pc], t);
    LeavesScope(us, y.us, Top(us));
    SelfExtends(b);
    TypedStays(Top(y.us), Top(Restore(y.us, Top(us))), x.ws + y.ws, Top(us).pc, b, b);
  }

  /** Words one after another that read only bound slots and bind none that matter. */
  lemma {:induction false} Straight(u: Unit, ws: seq<Raw>, at: nat, a: Bindings) returns (b: Bindings)
    requires UpTo(a, at)
    requires forall k :: 0 <= k < |ws| ==>
      ws[k].op.OpPop? || ws[k].op.OpPopTry? || (ws[k].op.OpSetLocal? && ws[k].a in a[at])
    ensures Typing(u, ws, at, a, b, a[at])
    decreases |ws|
  {
    hide Typed, Reads;
    if ws == [] {
      SelfExtends(a);
      b := a;
      NothingTyped(u, at, a);
    } else {
      assert Reads(u, ws[0], at, a[at]) by { StraightReads(u, ws[0], at, a[at]); }
      var b1 := Word1(u, ws[0], at, a, a[at]);
      b := Straight(u, ws[1..], at + 1, b1);
      SelfGrows(u);
      TypingJoin(u, u, [ws[0]], ws[1..], at, a, b1, b, a[at], a[at]);
      assert [ws[0]] + ws[1..] == ws;
    }
  }

  lemma {:induction false} StraightReads(u: Unit, w: Raw, at: nat, s: set<nat>)
    requires w.op.OpPop? || w.op.OpPopTry? || (w.op.OpSetLocal? && w.a in s)
    ensures Reads(u, w, at, s)
  {
  }

  lemma {:induction false} NothingTyped(u: Unit, at: nat, a: Bindings)
    ensures Typed(u, [], at, a)
  {
  }

  lemma {:induction false} StoresStraight(base: nat, count: nat, s: set<nat>)
    requires forall i :: base <= i < base + count ==> i in s
    ensures forall k :: 0 <= k < |Stores(base, count)| ==>
      var w := Stores(base, count)[k]; w.op.OpPop? || (w.op.OpSetLocal? && w.a in s)
    decreases count
  {
    if count == 0 {
    } else {
      StoresStraight(base, count - 1, s);
    }
  }

  lemma {:induction false} PopsStraight(n: nat)
    ensures forall k :: 0 <= k < |PopTryWords(n)| ==> PopTryWords(n)[k].op.OpPopTry?
    decreases n
  {
    if n == 0 {
    } else {
      PopsStraight(n - 1);
    }
  }

  lemma {:induction false} BackTyped(us: Nest, x: Code, a: Bindings, t: set<nat>) returns (b: Bindings)
    requires Ready(x.us, a) && t <= a[Top(x.us).pc] && Top(x.us).loops != []
    ensures var c := GoBack(x, Top(x.us).loops[|Top(x.us).loops| - 1]);
      Linked(c.us) && Grows(Top(x.us), Top(c.us))
      && exists ws :: c.ws == x.ws + ws && Typing(Top(c.us), ws, Top(x.us).pc, a, b, t)
  {
    hide Linked, Typed, Named, Stores, StoreBinds, PopTryWords;
    var u := Top(x.us);
    var lp := u.loops[|u.loops| - 1];
    var s, n := a[u.pc], if u.tries >= lp.tries then u.tries - lp.tries else 0;
    var c := GoBack(x, lp);
    var front := Stores(lp.base, lp.count) + PopTryWords(n);
    StoresStraight(lp.base, lp.count, s);
    PopsStraight(n);
    var v := Top(c.us);
    assert c.us == Put(x.us, v) && v.descs == u.descs;
    LinkedPut(x.us, v);
    var b1 := Straight(v, front, u.pc, a);
    b := b1[u.pc + |front| + 1 := t];
    OneOn(b1, u.pc + |front|, t);
    ExtendsOn(a, b1, b);
    assert Flow(v, Raw(OpLoop, lp.start), u.pc + |front|, b);
    TypedOne(v, Raw(OpLoop, lp.start), u.pc + |front|, b);
    SelfGrows(v);
    TypingJoin(v, v, front, [Raw(OpLoop, lp.start)], u.pc, a, b1, b, s, t);
    assert c.ws == x.ws + (front + [Raw(OpLoop, lp.start)]);
  }

  lemma {:induction false} BindsRecur(us: Nest, f: Form, l2: bool, a: Bindings, t: set<nat>) returns (b: Bindings)
    requires f.Recur? && Sound(us) && Comp(us, f, l2).Built? && Spoken(f) && Ready(us, a) && t <= a[Top(us).pc]
    ensures var c := Comp(us, f, l2).code; Typing(Top(c.us), c.ws, Top(us).pc, a, b, t) && Linked(c.us)
    decreases f, 1
  {
    hide Sound, Ready, Linked, Typed, Comp, CompArgs, Grows, ClosureFree, ClosureFreeAll, GoBack, SpokenAll;
    UnfoldRecur(us, f, l2);
    ReadyAt(us, a);
    var s, x := a[Top(us).pc], CompArgs(us, f.args, l2).code;
    ArgsLeave(us, f.args, l2);
    var b1 := BindsArgs(us, f.args, l2, a);
    ReadyOn(us, x.us, a, b1);
    b := BackTyped(us, x, b1, t);
    var c := GoBack(x, Top(x.us).loops[|Top(x.us).loops| - 1]);
    var ws :| c.ws == x.ws + ws && Typing(Top(c.us), ws, Top(x.us).pc, b1, b, t);
    TypingJoin(Top(x.us), Top(c.us), x.ws, ws, Top(us).pc, a, b1, b, s, t);
  }

  // ---- try ----

  lemma {:induction false} TryTyped(u: Unit, x: seq<Raw>, y: seq<Raw>, at: nat, bound: Bindings, s: set<nat>,
      t: set<nat>)
    requires Typed(u, x, at + 1, bound) && Typed(u, y, at + |x| + 3, bound) && t <= s
    requires at in bound && bound[at] == s && at + 1 in bound && bound[at + 1] == s
    requires at + 1 + |x| in bound && bound[at + 1 + |x|] == s && at + 2 + |x| in bound && bound[at + 2 + |x|] == s
    requires at + 3 + |x| in bound && bound[at + 3 + |x|] == s
    requires at + 3 + |x| + |y| in bound && bound[at + 3 + |x| + |y|] == t
    ensures Typed(u, TryCatch(at, x, y), at, bound)
  {
    hide Typed;
    var setup, pop, jump := Raw(OpSetupTry, at + |x| + 3), Raw(OpPopTry, 0), Raw(OpJump, |y|);
    TypedOne(u, setup, at, bound);
    TypedOne(u, pop, at + 1 + |x|, bound);
    TypedOne(u, jump, at + 2 + |x|, bound);
    TypedJoin(u, [setup], x, at, bound);
    TypedJoin(u, [pop], [jump], at + 1 + |x|, bound);
    assert [pop] + [jump] == [pop, jump];
    TypedJoin(u, [setup] + x, [pop, jump], at, bound);
    TypedJoin(u, [setup] + x + [pop, jump], y, at, bound);
  }

  lemma {:induction false} BindsTry(us: Nest, f: Form, l2: bool, a: Bindings, t: set<nat>) returns (b: Bindings)
    requires f.Try? && Sound(us) && Comp(us, f, l2).Built? && Spoken(f) && Ready(us, a) && t <= a[Top(us).pc]
    ensures var c := Comp(us, f, l2).code; Typing(Top(c.us), c.ws, Top(us).pc, a, b, t) && Linked(c.us)
    decreases f, 1
  {
    hide Sound, Ready, Linked, Typed, Comp, CompBody, Grows, ClosureFree, ClosureFreeAll, Restore, SpokenAll, Reserve,
         BindSlot, TryCatch, Grown, Skip;
    UnfoldTry(us, f, l2);
    ReadyAt(us, a);
    var u, at := Top(us), Top(us).pc;
    var s, usb := a[at], Put(us, u.(pc := u.pc + 1, tries := u.tries + 1));
    EntersTry(us);
    var a1 := a[at + 1 := s];
    EntersTryBound(us, a);
    var x := CompBody(usb, f.body, l2).code;
    BodyLeaves(usb, f.body, l2);
    BodyGrows(usb, f.body, l2);
    var b1 := BindsBody(usb, f.body, l2, a1, s);
    var us1, p := Skip(Restore(x.us, u), 2), Top(x.us).pc;
    var b2 := b1[p + 1 := s][p + 2 := s];
    LeavesTryBound(us, usb, x, a, b1);
    var n := |u.names|;
    var us2 := Reserve(us1, f.err);
    var y := BindSlot(us2, n);
    ReserveOk(us1, f.err);
    ReservedIs(us1, f.err);
    var b3 := BoundNext(us1, f.err, b2);
    var z := CompBody(y.us, f.handler, l2).code;
    BodyLeaves(y.us, f.handler, l2);
    b := BindsBody(y.us, f.handler, l2, b3, t);
    TypingJoin(Top(y.us), Top(z.us), y.ws, z.ws, p + 2, b2, b3, b, s + {n}, t);
    GrowsOn(Top(x.us), Top(us1), Top(us2));
    GrowsOn(Top(x.us), Top(us2), Top(y.us));
    GrowsOn(Top(x.us), Top(y.us), Top(z.us));
    TryDone(Top(x.us), Top(z.us), x.ws, y.ws + z.ws, at, a, b1, b, s, t);
    LeavesScope(us, z.us, u);
    SelfExtends(b);
    TypedStays(Top(z.us), Top(Restore(z.us, u)), TryCatch(at, x.ws, y.ws + z.ws), at, b, b);
  }

  lemma {:induction false} BodyGrows(us: Nest, fs: Forms, l2: bool)
    requires Sound(us) && CompBody(us, fs, l2).Built?
    ensures Grown(us, CompBody(us, fs, l2).code.us)
  {
    hide Sound, CompBody, Grown, OutBody, Good;
    CompilesBody(us, fs, l2);
  }

  lemma {:induction false} EntersTryBound(us: Nest, a: Bindings)
    requires Ready(us, a)
    ensures var u := Top(us);
      Ready(Put(us, u.(pc := u.pc + 1, tries := u.tries + 1)), a[u.pc + 1 := a[u.pc]])
  {
    hide Linked, LoopIn, Named;
    var u := Top(us);
    var v := u.(pc := u.pc + 1, tries := u.tries + 1);
    LinkedPut(us, v);
    OneOn(a, u.pc, a[u.pc]);
    ReadyOn(us, Put(us, v), a, a[u.pc + 1 := a[u.pc]]);
  }

  lemma {:induction false} LeavesTryBound(us: Nest, usb: Nest, x: Code, a: Bindings, b: Bindings)
    requires Ready(us, a) && Sound(us) && Sound(x.us) && Linked(x.us) && Grown(us, usb) && Top(usb).pc == Top(us).pc + 1
    requires |x.us| == |usb| && Grows(Top(usb), Top(x.us)) && Top(x.us).pc == Top(usb).pc + |x.ws| && Grown(usb, x.us)
    requires Typing(Top(x.us), x.ws, Top(usb).pc, a[Top(us).pc + 1 := a[Top(us).pc]], b, a[Top(us).pc])
    ensures var vs, p, s := Skip(Restore(x.us, Top(us)), 2), Top(x.us).pc, a[Top(us).pc];
      && Ready(vs, b[p + 1 := s][p + 2 := s]) && Sound(vs) && Grows(Top(x.us), Top(vs))
      && Top(vs).pc == p + 2 && Top(vs).names == Top(us).names
  {
    hide Linked, LoopIn, Named, Typed, Sound, Gained;
    var vs, p, s := Skip(Restore(x.us, Top(us)), 2), Top(x.us).pc, a[Top(us).pc];
    GrownOn(us, usb, x.us);
    RestoreOk(us, x.us);
    Skipped(Restore(x.us, Top(us)), 2);
    LinkedRestore(x.us, Top(us));
    LinkedSkip(Restore(x.us, Top(us)), 2);
    OneOn(a, Top(us).pc, s);
    ExtendsOn(a, a[Top(us).pc + 1 := s], b);
    OneOn(b, p, s);
    OneOn(b[p + 1 := s], p + 1, s);
    ExtendsOn(a, b, b[p + 1 := s]);
    ExtendsOn(a, b[p + 1 := s], b[p + 1 := s][p + 2 := s]);
    ReadyOn(us, vs, a, b[p + 1 := s][p + 2 := s]);
  }

  lemma {:induction false} TryDone(v: Unit, w: Unit, x: seq<Raw>, y: seq<Raw>, at: nat, a: Bindings, b: Bindings,
      c: Bindings, s: set<nat>, t: set<nat>)
    requires UpTo(a, at) && a[at] == s && t <= s && Grows(v, w) && Typing(v, x, at + 1, a[at + 1 := s], b, s)
    requires Typing(w, y, at + |x| + 3, b[at + |x| + 2 := s][at + |x| + 3 := s], c, t)
    ensures Typing(w, TryCatch(at, x, y), at, a, c, t)
  {
    hide Typed, Grows;
    OneOn(a, at, s);
    OneOn(b, at + 1 + |x|, s);
    OneOn(b[at + |x| + 2 := s], at + 2 + |x|, s);
    ExtendsOn(b, b[at + |x| + 2 := s], b[at + |x| + 2 := s][at + |x| + 3 := s]);
    ExtendsOn(b, b[at + |x| + 2 := s][at + |x| + 3 := s], c);
    ExtendsOn(a, a[at + 1 := s], b);
    ExtendsOn(a, b, c);
    TypedStays(v, w, x, at + 1, b, c);
    TryTyped(w, x, y, at, c, s, t);
  }

  // ---- calls ----

  lemma {:induction false} BindsCall(us: Nest, f: Form, l2: bool, a: Bindings, t: set<nat>) returns (b: Bindings)
    requires f.Call? && Sound(us) && Comp(us, f, l2).Built? && Spoken(f) && Ready(us, a) && t <= a[Top(us).pc]
    ensures var c := Comp(us, f, l2).code; Typing(Top(c.us), c.ws, Top(us).pc, a, b, t) && Linked(c.us)
    decreases f, 1
  {
    hide Sound, Ready, Linked, Typing, Comp, Shadowed, NativeOf, CompFused;
    if !IsNative(us, f.head) {
      b := BindsPlainCall(us, f, l2, a, t);
    } else if CompFused(us, NativeOf(f.head.name).value, f.head.name, f.args, l2).1.Some? {
      UnfoldNativeCall(us, f, l2);
      b := BindsFused(us, NativeOf(f.head.name).value, f.head.name, f.args, l2, a, t);
    } else {
      b := BindsNativeCall(us, f, l2, a, t);
    }
  }

  lemma {:induction false} BindsHead(us: Nest, f: Form, l2: bool, a: Bindings) returns (b: Bindings)
    requires f.Call? && Sound(us) && CompHead(us, f.head, l2).Built? && Spoken(f.head) && Ready(us, a)
    ensures Top(us).pc in a
    ensures var c := CompHead(us, f.head, l2).code;
      && Typing(Top(c.us), c.ws, Top(us).pc, a, b, a[Top(us).pc]) && Linked(c.us)
      && Sound(c.us) && Grows(Top(us), Top(c.us))
      && Top(c.us).names == Top(us).names && Top(c.us).loops == Top(us).loops && Top(c.us).pc == Top(us).pc + |c.ws|
    decreases f, 0, 0
  {
    hide Sound, Ready, Linked, Typing, Comp, WithConst, Grows, Spoken;
    ReadyAt(us, a);
    if l2 && f.head.Var? {
      b := ConstWord(us, OpGetFunc, Sym(f.head.name), a, a[Top(us).pc]);
    } else {
      FormLeaves(us, f.head, l2);
      b := Binds(us, f.head, l2, a, a[Top(us).pc]);
    }
  }

  /** The call itself. */
  lemma {:induction false} CallWord(us: Nest, op: Opcode, n: nat, a: Bindings, t: set<nat>) returns (b: Bindings)
    requires (op.OpCall? || op.OpNative?) && Ready(us, a) && t <= a[Top(us).pc]
    ensures var c := One(us, op, n); Typing(Top(c.us), c.ws, Top(us).pc, a, b, t) && Linked(c.us)
  {
    hide Linked, LoopIn, Named, Typing;
    LinkedSkip(us, 1);
    b := Word1(Top(Skip(us, 1)), Raw(op, n), Top(us).pc, a, t);
  }

  lemma {:induction false} BindsPlainCall(us: Nest, f: Form, l2: bool, a: Bindings, t: set<nat>) returns (b: Bindings)
    requires f.Call? && Sound(us) && Comp(us, f, l2).Built? && !IsNative(us, f.head) && Spoken(f) && Ready(us, a)
    requires t <= a[Top(us).pc]
    ensures var c := Comp(us, f, l2).code; Typing(Top(c.us), c.ws, Top(us).pc, a, b, t) && Linked(c.us)
    decreases f, 0
  {
    hide Sound, Ready, Linked, Typed, Comp, CompArgs, CompHead, Grows, ClosureFree, ClosureFreeAll, SpokenAll,
         IsNative, Length;
    UnfoldCall(us, f, l2);
    ReadyAt(us, a);
    var s, x := a[Top(us).pc], CompHead(us, f.head, l2).code;
    var b1 := BindsHead(us, f, l2, a);
    ReadyOn(us, x.us, a, b1);
    var y := CompArgs(x.us, f.args, l2).code;
    ArgsLeave(x.us, f.args, l2);
    var b2 := BindsArgs(x.us, f.args, l2, b1);
    ReadyOn(x.us, y.us, b1, b2);
    var z := One(y.us, OpCall, Length(f.args));
    b := CallWord(y.us, OpCall, Length(f.args), b2, t);
    SlotGrows(y.us, OpCall, Length(f.args));
    TypingJoin(Top(x.us), Top(y.us), x.ws, y.ws, Top(us).pc, a, b1, b2, s, s);
    TypingJoin(Top(y.us), Top(z.us), x.ws + y.ws, z.ws, Top(us).pc, a, b2, b, s, t);
  }

  lemma {:induction false} BindsNativeCall(us: Nest, f: Form, l2: bool, a: Bindings, t: set<nat>) returns (b: Bindings)
    requires f.Call? && Sound(us) && Comp(us, f, l2).Built? && IsNative(us, f.head) && Spoken(f) && Ready(us, a)
    requires CompFused(us, NativeOf(f.head.name).value, f.head.name, f.args, l2).1.None? && t <= a[Top(us).pc]
    ensures var c := Comp(us, f, l2).code; Typing(Top(c.us), c.ws, Top(us).pc, a, b, t) && Linked(c.us)
    decreases f, 0
  {
    hide Sound, Ready, Linked, Typed, Comp, CompArgs, CompFused, Grows, ClosureFree, ClosureFreeAll, SpokenAll,
         Shadowed, NativeOf, WithConst, FuseCall, Length, Grown;
    UnfoldNativeCall(us, f, l2);
    ReadyAt(us, a);
    var s, name := a[Top(us).pc], f.head.name;
    var op, fop := NativeOf(name).value, if l2 then OpFreezeNativeFunc else OpFreezeNative;
    NotFused(us, op, name, f.args, l2);
    var us1 := CompFused(us, op, name, f.args, l2).0;
    PooledReady(us, us1, a, op, name, f.args, l2);
    var x := WithConst(us1, fop, Sym(name));
    var b1 := ConstWord(us1, fop, Sym(name), a, s);
    ReadyOn(us1, x.us, a, b1);
    var y := CompArgs(x.us, f.args, l2).code;
    ArgsLeave(x.us, f.args, l2);
    var b2 := BindsArgs(x.us, f.args, l2, b1);
    ReadyOn(x.us, y.us, b1, b2);
    var z := One(y.us, OpNative(op), Length(f.args));
    b := CallWord(y.us, OpNative(op), Length(f.args), b2, t);
    SlotGrows(y.us, OpNative(op), Length(f.args));
    TypingJoin(Top(x.us), Top(y.us), x.ws, y.ws, Top(us).pc, a, b1, b2, s, s);
    TypingJoin(Top(y.us), Top(z.us), x.ws + y.ws, z.ws, Top(us).pc, a, b2, b, s, t);
  }

  /** Constants of operands that do not fuse. */
  lemma {:induction false} PooledReady(us: Nest, vs: Nest, a: Bindings, op: NativeOp, x: string, args: Forms, l2: bool)
    requires Ready(us, a) && vs == CompFused(us, op, x, args, l2).0 && CompFused(us, op, x, args, l2).1.None?
    requires Top(vs) == Top(us).(constants := Top(vs).constants)
    ensures Ready(vs, a)
  {
    hide Linked, LoopIn, Named, FusedSide, FusedPool, Interned, IndexOf;
    assert vs == Put(us, Top(vs));
    LinkedPut(us, Top(vs));
    SelfExtends(a);
    ReadyOn(us, vs, a, a);
  }

  lemma {:induction false} SideBound(u: Unit, f: Form)
    requires Spoken(f) && FusedSide(u, f).Some?
    ensures ArgIn(FusedSide(u, f).value, Named(u.names))
  {
    hide ResolveLocal, Named, IndexOf;
    if f.Var? { ResolvedName(u.names, f.name); }
  }

  lemma {:induction false} BindsFused(us: Nest, op: NativeOp, x: string, args: Forms, l2: bool, a: Bindings,
      t: set<nat>)
    returns (b: Bindings)
    requires Sound(us) && CompFused(us, op, x, args, l2).1.Some? && SpokenAll(args) && Ready(us, a)
    requires t <= a[Top(us).pc]
    ensures var (vs, ws) := CompFused(us, op, x, args, l2); Typing(Top(vs), ws.value, Top(us).pc, a, b, t) && Linked(vs)
  {
    hide Sound, Linked, LoopIn, Named, FusedSide, FusedPool, Interned, IndexOf, Typing, Spoken;
    var u, vs := Top(us), CompFused(us, op, x, args, l2).0;
    assert SpokenAll(args.tail) && Spoken(args.head) && Spoken(args.tail.head);
    SideBound(u, args.head);
    var u1 := FusedPool(u, args.head);
    PoolKeeps(u, args.head);
    SideBound(u1, args.tail.head);
    var u2 := FusedPool(u1, args.tail.head);
    PoolKeeps(u1, args.tail.head);
    InternKeeps(u2, Sym(x));
    assert vs == Put(us, Top(vs)) && Top(vs).descs == u.descs;
    LinkedPut(us, Top(vs));
    var w := Raw(OpFused, |u.fused|);
    var s := a[u.pc];
    assert Reads(Top(vs), w, u.pc, s);
    b := Word1(Top(vs), w, u.pc, a, t);
  }

  lemma {:induction false} PoolKeeps(u: Unit, f: Form)
    ensures FusedPool(u, f) == u.(constants := FusedPool(u, f).constants)
  {
  }

  lemma {:induction false} InternKeeps(u: Unit, v: Value)
    ensures Interned(u, v) == u.(constants := Interned(u, v).constants)
  {
  }

  // ---- finished functions ----

  lemma {:induction false} PackedFlows(c: Chunk, u: Unit, w: Raw, ip: nat, end: nat, bound: Bindings)
    requires Flow(u, w, ip, bound) && Fine(u, w, ip, end) && Fit(u, w) && ip < |c.code|
    requires c.code[ip] == Rewritten(u.captured, u.binds, ip, Packed(w))
    requires c.fused == u.fused && c.subs == u.subs && c.captured == u.captured
    ensures StackVM.FlowsTo(c, bound, ip)
  {
    hide Tree, Valid, DescsOk, Marked, FusedOk, Encode, IsSymbol;
    EncodeExact(w.op, w.a);
    EncodeCuts(w.op, w.a);
    var p := c.code[ip];
    assert p.op == w.op || p.op.OpGetCell? || p.op.OpSetCell? || p.op.OpBindCell?;
    assert StackVM.Needs(c, p, bound[ip]);
    assert p.a == w.a || p.op.OpFused?;
  }

  lemma {:induction false} FinishedBound(u: Unit, ws: seq<Raw>, a: Bindings, b: Bindings, t: set<nat>)
    requires Typing(u, ws, 0, a, b, t) && 0 in a && (forall i :: i in a[0] ==> i < u.params)
    requires AllFine(u, ws, 0) && AllFit(u, ws)
    ensures StackVM.Annotates(Finished(u, ws + [Raw(OpReturn, 0)]), b)
  {
    hide Fine, Fit, Flow, MaxStack, Rewritten, Packed, StackVM.FlowsTo;
    var c := Finished(u, ws + [Raw(OpReturn, 0)]);
    ReturnStays(u, |ws|);
    forall ip | 0 <= ip < |c.code| ensures StackVM.FlowsTo(c, b, ip) {
      if ip < |ws| { PackedFlows(c, u, ws[ip], ip, |ws|, b); } else { ReturnFlows(c, ip, b); }
    }
  }

  lemma {:induction false} FinishedShaped(u: Unit, ws: seq<Raw>)
    requires AllFine(u, ws, 0) && AllFit(u, ws)
    ensures StackVM.Shaped(Finished(u, ws + [Raw(OpReturn, 0)]))
  {
    hide Fine, Fit, MaxStack, Rewritten, Packed, StackVM.ShapedWord;
    var c := Finished(u, ws + [Raw(OpReturn, 0)]);
    ReturnStays(u, |ws|);
    forall ip | 0 <= ip < |c.code| ensures StackVM.ShapedWord(c, c.code[ip]) {
      if ip < |ws| { WordShaped(u, c, ip, ws[ip], |ws|); } else { ReturnShaped(c); }
    }
  }

  lemma {:induction false} ReturnFlows(c: Chunk, ip: nat, bound: Bindings)
    requires ip < |c.code| && c.code[ip] == Word(OpReturn, 0) && ip in bound
    ensures StackVM.FlowsTo(c, bound, ip)
  {
  }

  /** The chunks of closures are bound first too. */
  lemma {:induction false} FinishedTree(u: Unit, ws: seq<Raw>, a: Bindings, b: Bindings, t: set<nat>)
    requires Typing(u, ws, 0, a, b, t) && 0 in a && (forall i :: i in a[0] ==> i < u.params)
    requires AllFine(u, ws, 0) && AllFit(u, ws) && u.params <= u.locals
    ensures Tree(Finished(u, ws + [Raw(OpReturn, 0)]))
  {
    hide Fine, Fit, Flow, MaxStack, Rewritten, Packed, Typing, StackVM.Annotates, AllFine, StackVM.Shaped;
    var c := Finished(u, ws + [Raw(OpReturn, 0)]);
    FinishedShaped(u, ws);
    FinishedBound(u, ws, a, b, t);
    ReturnStays(u, |ws|);
    forall ip | 0 <= ip < |c.code| && c.code[ip].op.OpClosure? && c.code[ip].a < |c.subs|
      ensures Tree(c.subs[c.code[ip].a])
    {
      assert ip < |ws|;
      FlowAt(u, ws, a, b, t, ip);
      SubTree(u, ws[ip], ip, b);
    }
  }

  lemma {:induction false} FlowAt(u: Unit, ws: seq<Raw>, a: Bindings, b: Bindings, t: set<nat>, k: nat)
    requires Typing(u, ws, 0, a, b, t) && k < |ws|
    ensures Flow(u, ws[k], k, b)
  {
    hide Flow;
    assert Flow(u, ws[k], 0 + k, b);
  }

  lemma {:induction false} SubTree(u: Unit, w: Raw, ip: nat, bound: Bindings)
    requires Flow(u, w, ip, bound) && Fit(u, w)
    ensures var p := Rewritten(u.captured, u.binds, ip, Packed(w));
      p.op.OpClosure? && p.a < |u.subs| ==> Tree(u.subs[p.a])
  {
    hide Tree, Encode, Marked;
    EncodeExact(w.op, w.a);
    EncodeCuts(w.op, w.a);
  }

  lemma {:induction false} ParamsNamed(params: seq<string>)
    ensures Named(params) <= Range(0, |params|)
  {
  }

  lemma {:induction false} InnerReady(us: Nest, params: seq<string>)
    requires Linked(us)
    ensures Ready(us + [NewUnit(params)], map[0 := Range(0, |params|)])
  {
    hide Linked;
    LinkedOn(us, NewUnit(params));
    ParamsNamed(params);
  }

  lemma {:induction false} BindsLambda(us: Nest, f: Form, l2: bool, a: Bindings, t: set<nat>) returns (b: Bindings)
    requires f.Lambda? && Sound(us) && Comp(us, f, l2).Built? && Spoken(f) && Ready(us, a) && t <= a[Top(us).pc]
    ensures var c := Comp(us, f, l2).code; Typing(Top(c.us), c.ws, Top(us).pc, a, b, t) && Linked(c.us)
    decreases f, 1
  {
    hide Sound, Ready, Linked, Typing, Comp, CompArgs, Finished, NewUnit, UnitOk, DescsOk, Grows, Made, AllFit,
         SpokenAll, Range;
    UnfoldLambda(us, f, l2);
    ReadyAt(us, a);
    var inner: Nest := us + [NewUnit(f.params)];
    NewUnitOk(f.params);
    NoDescs(Top(us));
    SoundOn(us, NewUnit(f.params));
    InnerReady(us, f.params);
    var x := CompArgs(inner, f.body, l2).code;
    var a0 := map[0 := Range(0, |f.params|)];
    var b0 := BindsArgs(inner, f.body, l2, a0);
    CompilesArgs(inner, f.body, l2);
    assert inner[..|us|] == us && Top(inner) == NewUnit(f.params);
    b := ClosureBound(us, inner, x, f.params, OutArgs(inner, f.body, l2), b0, a, t);
  }

  lemma {:induction false} ClosureBound(us: Nest, inner: Nest, x: Code, params: seq<string>, o: Option<seq<Instr>>,
      b0: Bindings, a: Bindings, t: set<nat>) returns (b: Bindings)
    requires inner == us + [NewUnit(params)] && Made(inner, x, Top(inner).names, o) && Sound(us) && Linked(x.us)
    requires Ready(us, a) && t <= a[Top(us).pc]
    requires Typing(Top(x.us), x.ws, 0, map[0 := Range(0, |params|)], b0, Range(0, |params|))
    ensures |x.us| >= 2
    ensures var outer: Nest := x.us[..|x.us| - 1];
      var u := Top(outer);
      var c := Closes(Put(outer, u.(subs := u.subs + [SubChunk(x)])), |u.subs|, AllFit(Top(x.us), x.ws));
      Typing(Top(c.us), c.ws, Top(us).pc, a, b, t) && Linked(c.us)
  {
    hide Sound, Linked, Finished, Decodes, AllFine, Typing, Named, LoopIn, AllFit, Tree;
    var outer: Nest, top := x.us[..|x.us| - 1], Top(x.us);
    assert x.us == outer + [top];
    LinkedOn(outer, top);
    assert Gained(inner[|us| - 1], x.us[|us| - 1]);
    var u := Top(outer);
    assert u.names == Top(us).names && u.pc == Top(us).pc;
    var nested := AllFit(top, x.ws);
    if nested {
      ParamsBelow(params, top);
      FinishedTree(top, x.ws, map[0 := Range(0, |params|)], b0, Range(0, |params|));
    }
    var v := u.(subs := u.subs + [SubChunk(x)], pc := u.pc + 1);
    assert Skip(Put(outer, u.(subs := u.subs + [SubChunk(x)])), 1) == Put(outer, v);
    LinkedPut(outer, v);
    DescsWithin(top.descs, Named(u.names), a[u.pc]);
    assert SubChunk(x).caps == top.descs by { CapsAre(x); }
    b := Word1(v, Raw(OpClosure, |u.subs|, nested), u.pc, a, t);
  }

  lemma {:induction false} CapsAre(x: Code)
    ensures SubChunk(x).caps == Top(x.us).descs
  {
  }

  lemma {:induction false} DescsWithin(ds: seq<CapDesc>, s: set<nat>, t: set<nat>)
    requires DescsIn(ds, s) && s <= t
    ensures DescsIn(ds, t)
  {
  }

  lemma {:induction false} ParamsBelow(params: seq<string>, u: Unit)
    requires Grows(NewUnit(params), u)
    ensures u.params == |params| <= u.locals && forall i :: i in Range(0, |params|) ==> i < u.params
  {
  }

  // ---- whole forms ----

  /** In the chunk of every form, and of every function nested in it, each captured slot is bound
      on every way to a cell instruction, a fused operand or a closure that reads it. */
  lemma {:induction false} CompiledBound(f: Form, l2: bool)
    requires CompileTop(f, l2).Some? && Fits(f, l2) && Spoken(f)
    ensures Tree(CompileTop(f, l2).value) && CompileTop(f, l2).value.params == 0
  {
    hide Comp, Sound, Grown, Finished, Out, UnitOk, AllFit, Tree, Typing, Spoken, AllFine, Decodes, Fits, CompileTop,
         Linked, Grows;
    TopMade(f, l2);
    var us: Nest := [NewUnit([])];
    StartOk();
    StartReady();
    var c := Comp(us, f, l2).code;
    FormLeaves(us, f, l2);
    var a: Bindings := map[0 := {}];
    var b := Binds(us, f, l2, a, {});
    assert Top(us) == NewUnit([]) && Top(us).pc == 0;
    ParamsBelow([], Top(c.us));
    FinishedTree(Top(c.us), c.ws, a, b, {});
    ParamsOf(c);
  }

  lemma {:induction false} ParamsOf(c: Code)
    ensures SubChunk(c).params == Top(c.us).params
  {
  }

  lemma {:induction false} StartReady()
    ensures Ready([NewUnit([])], map[0 := {}])
  {
  }

  // ---- a loop's slots have no name while they are initialised ----

  /** A loop over a function that reads a name without letters. */
  const EMPTY_NAME := Loop(Bind("x", Lambda([], Cons(Var(""), End)), NoBinds), Cons(Const(Nil), End))

  /** The loop's function, compiled: it captures the slot that is being initialised. */
  lemma {:induction false} EmptyInner()
    ensures var inner: Nest := Reserve([NewUnit([])], "") + [NewUnit([])];
      var c := CompArgs(inner, Cons(Var(""), End), false);
      && c.Built? && c.code.ws == [Raw(OpGetCap, 0)] && |c.code.us| == 2 && c.code.us[1].descs == [FromSlot(0)]
      && c.code.us[0].pc == 0 && c.code.us[0].subs == [] && c.code.us[0].params == 0
  {
    var inner: Nest := Reserve([NewUnit([])], "") + [NewUnit([])];
    assert inner[0].names == [""] && ResolveLocal(inner[0].names, "") == Some(0);
    assert inner[..1] == [inner[0]];
    assert ResolveLocal(inner[0].names, "").Some?;
    var c := Comp(inner, Var(""), false);
    assert c.Built? && c.code.ws == [Raw(OpGetCap, 0)];
    assert CompArgs(c.code.us, End, false) == Built(Code(c.code.us, []));
  }

  /** The closure over it is the first instruction of the loop. */
  lemma {:induction false} EmptyLambda()
    ensures var c := Comp(Reserve([NewUnit([])], ""), Lambda([], Cons(Var(""), End)), false);
      && c.Built? && c.code.ws == [Raw(OpClosure, 0, true)] && |c.code.us| == 1 && Top(c.code.us).params == 0
      && |Top(c.code.us).subs| == 1 && Top(c.code.us).subs[0].caps == [FromSlot(0)]
  {
    hide CompArgs, Reserve, MaxStack;
    EmptyInner();
  }

  lemma {:induction false} NothingBound(c: Chunk, bound: Bindings)
    requires c.code != [] && c.code[0] == Word(OpClosure, 0) && |c.subs| == 1 && c.subs[0].caps == [FromSlot(0)]
    ensures 0 in bound && 0 !in bound[0] ==> !StackVM.FlowsTo(c, bound, 0)
  {
    assert c.subs[0].caps[0] == FromSlot(0);
  }

  lemma {:induction false} ReadTooSoon(c: Chunk)
    requires c.code != [] && c.code[0] == Word(OpClosure, 0) && |c.subs| == 1 && c.subs[0].caps == [FromSlot(0)]
    requires c.params == 0
    ensures !Tree(c)
  {
    hide StackVM.FlowsTo;
    forall bound ensures !StackVM.Annotates(c, bound) { NothingBound(c, bound); }
  }

  lemma {:induction false} EmptyLoop()
    ensures var r := Comp([NewUnit([])], EMPTY_NAME, false);
      && r.Built? && r.code.ws == [Raw(OpClosure, 0), Raw(OpSetLocal, 0), Raw(OpPop, 0), Raw(OpNil, 0)]
      && var u := Top(r.code.us);
      && |u.subs| == 1 && u.subs[0].caps == [FromSlot(0)] && u.params == 0
  {
    hide Reserve, MaxStack, Finished, CompArgs;
    EmptyLambda();
    var us: Nest := [NewUnit([])];
    var x := Comp(Reserve(us, ""), Lambda([], Cons(Var(""), End)), false).code;
    var y := BindSlot(x.us, 0);
    var z := Code(y.us, x.ws + y.ws + []);
    assert CompInits(us, EMPTY_NAME.binds, false) == Built(z);
    var vs := LoopEntry(us, z, EMPTY_NAME.binds);
    assert CompBody(vs, EMPTY_NAME.body, false) == Built(One(vs, OpNil, 0));
  }

  /** A symbol without letters, which the reader never makes, is taken for the slot being initialised
      and captured before it is bound. */
  lemma {:induction false} EmptyNameUnbound()
    ensures CompileTop(EMPTY_NAME, false).Some? && Fits(EMPTY_NAME, false) && !Spoken(EMPTY_NAME)
    ensures !Tree(CompileTop(EMPTY_NAME, false).value)
  {
    hide Tree, Comp, MaxStack;
    EmptyLoop();
    var c := Comp([NewUnit([])], EMPTY_NAME, false).code;
    assert Packed(c.ws[0]) == Word(OpClosure, 0);
    ReadTooSoon(SubChunk(c));
  }

  /** Entered with its arguments, the frame of such a chunk runs as the meaning of its words says:
      no instruction is ever refused for a slot without its box. */
  method Enter(c: Chunk, host: Host, below: seq<StackVM.Slot>, args: seq<Value>, boxes: StackVM.Boxes, nextBox: nat,
      caps: seq<nat>, close: (nat, seq<nat>) -> Value, g: Globals, budget: nat)
    returns (vm: StackVM.VM, r: StackVM.Result, ghost given: seq<Value>)
    requires Tree(c) && |args| == c.params
    requires |caps| == |c.caps| && forall k :: 0 <= k < |caps| ==> caps[k] in boxes
    requires forall id :: id in boxes ==> id < nextBox
    ensures fresh(vm) && vm.chunk == c && |given| <= budget
    ensures var start := Machine.State(0, args + seq(c.locals - |args|, _ => Nil), [], [], [], g);
      var run := RunWords(host, c, start, given);
      vm.Matches(r, run) && (r.Running? ==> |given| == budget || run == Bad)
  {
    hide StackVM.Shaped, StackVM.Annotates, RunWords;
    ghost var bound :| StackVM.Annotates(c, bound);
    vm := new StackVM.VM(c, host, below, args, boxes, nextBox, caps, close, g);
    vm.StartsBound(bound);
    ghost var stuck;
    r, given, stuck := vm.Run(budget, bound);
  }

  /** Where such a chunk has a fused instruction, its operands have their boxes. */
  lemma {:induction false} FusedBound(vm: StackVM.VM, f: FusedOp, bound: Bindings)
    requires vm.Bound(bound) && StackVM.Annotates(vm.chunk, bound) && BoxedFusion.AtFused(vm, f)
    ensures !BoxedFusion.Unbound(vm.chunk, vm.stack, vm.base, f.a)
    ensures !BoxedFusion.Unbound(vm.chunk, vm.stack, vm.base, f.b)
  {
    assert StackVM.FlowsTo(vm.chunk, bound, vm.ip) && StackVM.ShapedWord(vm.chunk, vm.chunk.code[vm.ip]);
  }

  /** So there the four instructions and the fused one end alike. */
  method FusedAlike(four: StackVM.VM, one: StackVM.VM, f: FusedOp, ghost bound: Bindings)
    returns (r: StackVM.Result, q: StackVM.Result)
    requires four != one && four.Valid() && BoxedFusion.Twins(four, one) && HandlersOk(four.State())
    requires BoxedFusion.Placed(four.chunk, f, four.ip) && BoxedFusion.Named(four.chunk, f)
    requires BoxedFusion.AtFused(one, f)
    requires one.Bound(bound) && StackVM.Annotates(one.chunk, bound)
    modifies four, one
    ensures BoxedFusion.SameEnd(r, four, old(four.ip) + 4, q, one, old(one.ip) + 1) && !r.Broken? && !q.Broken?
  {
    hide StackVM.Annotates, BoxedFusion.SameEnd, BoxedFusion.Placed, HandlersOk, StackVM.StackOk, StackVM.Shaped;
    FusedBound(one, f, bound);
    r, q := BoxedFusion.RunBoth(four, one, f);
  }
}
