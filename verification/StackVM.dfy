/** The virtual machine as it runs: one value stack whose lower part is the frame's slots, some
    of them boxed, with handlers and freeze records at absolute depths. */
module StackVM {
  import opened Forms
  import opened Machine
  import opened Bytecode

  /** A stack entry: a value, or the box of a captured slot. */
  datatype Slot = Plain(v: Value) | Boxed(id: nat)

  datatype AbsHandler = AbsHandler(addr: nat, stackDepth: nat, freezeDepth: nat)

  datatype Result = Running | Returned(v: Value) | Threw(w: Value) | Broken

  type Boxes = map<nat, Value>

  // ---- reading the stack ----

  function Val(boxes: Boxes, s: Slot): Value {
    match s
    case Plain(v) => v
    case Boxed(id) => if id in boxes then boxes[id] else Nil
  }

  function Vals(boxes: Boxes, ss: seq<Slot>): (vs: seq<Value>)
    ensures |vs| == |ss| && forall i :: 0 <= i < |ss| ==> vs[i] == Val(boxes, ss[i])
  {
    seq(|ss|, i requires 0 <= i < |ss| => Val(boxes, ss[i]))
  }

  function Rel(hs: seq<AbsHandler>, floor: nat): (rs: seq<Handler>)
    requires forall i :: 0 <= i < |hs| ==> hs[i].stackDepth >= floor
    ensures |rs| == |hs|
    ensures forall i :: 0 <= i < |hs| ==> rs[i] == Handler(hs[i].addr, hs[i].stackDepth - floor, hs[i].freezeDepth)
  {
    seq(|hs|, i requires 0 <= i < |hs| => Handler(hs[i].addr, hs[i].stackDepth - floor, hs[i].freezeDepth))
  }

  function RelFreeze(fs: seq<FreezeRec>, floor: nat): (rs: seq<FreezeRec>)
    requires forall i :: 0 <= i < |fs| ==> fs[i].depth >= floor
    ensures |rs| == |fs| && forall i :: 0 <= i < |fs| ==> rs[i] == FreezeRec(fs[i].depth - floor, fs[i].op, fs[i].val)
  {
    seq(|fs|, i requires 0 <= i < |fs| => FreezeRec(fs[i].depth - floor, fs[i].op, fs[i].val))
  }

  /** What compiled code promises of its slots: every one is reserved, and the captured ones and
      only they are reached through cells. */
  predicate Shaped(c: Chunk) {
    forall ip :: 0 <= ip < |c.code| ==> ShapedWord(c, c.code[ip])
  }

  predicate ShapedWord(c: Chunk, w: Word) {
    match w.op
    case OpGetLocal => w.a < c.locals && !Marked(c.captured, w.a)
    case OpSetLocal => w.a < c.locals && !Marked(c.captured, w.a)
    case OpGetCell => w.a < c.locals && Marked(c.captured, w.a)
    case OpSetCell => w.a < c.locals && Marked(c.captured, w.a)
    case OpBindCell => w.a < c.locals && Marked(c.captured, w.a)
    case OpFused =>
      w.a < |c.fused| ==>
        ArgOk(c.fused[w.a].a, |c.constants|, c.locals) && ArgOk(c.fused[w.a].b, |c.constants|, c.locals)
    case OpClosure =>
      w.a < |c.subs| ==>
        forall i :: 0 <= i < |c.subs[w.a].caps| ==> DescOk(c.subs[w.a].caps[i], c.captured, |c.caps|, c.locals)
    case _ => true
  }

  /** A running frame's stack: slots below the floor, boxed only where captured and each with a
      box of its own, none of them a cell the frame's own closure captured; plain operands above. */
  ghost predicate StackOk(c: Chunk, stack: seq<Slot>, boxes: Boxes, base: nat, caps: seq<nat>) {
    var floor := base + c.locals;
    && floor <= |stack|
    && (forall i :: floor <= i < |stack| ==> stack[i].Plain?)
    && (forall i :: base <= i < floor && stack[i].Boxed? ==> stack[i].id in boxes && Marked(c.captured, i - base))
    && (forall i, j :: base <= i < j < floor && stack[i].Boxed? && stack[j].Boxed? ==> stack[i].id != stack[j].id)
    && |caps| == |c.caps| && (forall k :: 0 <= k < |caps| ==> caps[k] in boxes)
    && (forall i :: base <= i < floor && stack[i].Boxed? ==> stack[i].id !in caps)
  }

  // ---- how the two readings of a stack change together ----

  lemma {:induction false} Pushes(c: Chunk, stack: seq<Slot>, boxes: Boxes, base: nat, caps: seq<nat>, v: Value)
    requires StackOk(c, stack, boxes, base, caps)
    ensures var floor, now := base + c.locals, stack + [Plain(v)];
      && StackOk(c, now, boxes, base, caps)
      && Vals(boxes, now[base..floor]) == Vals(boxes, stack[base..floor])
      && Vals(boxes, now[floor..]) == Vals(boxes, stack[floor..]) + [v]
  {
    var floor, now := base + c.locals, stack + [Plain(v)];
    assert now[base..floor] == stack[base..floor];
    assert now[floor..] == stack[floor..] + [Plain(v)];
  }

  lemma {:induction false} Cuts(c: Chunk, stack: seq<Slot>, boxes: Boxes, base: nat, caps: seq<nat>, k: nat)
    requires StackOk(c, stack, boxes, base, caps) && base + c.locals <= k <= |stack|
    ensures var floor, now := base + c.locals, stack[..k];
      && StackOk(c, now, boxes, base, caps)
      && Vals(boxes, now[base..floor]) == Vals(boxes, stack[base..floor])
      && Vals(boxes, now[floor..]) == Vals(boxes, stack[floor..])[..k - floor]
  {
    var floor, now := base + c.locals, stack[..k];
    assert now[base..floor] == stack[base..floor];
    assert now[floor..] == stack[floor..][..k - floor];
  }

  lemma {:induction false} Stores(c: Chunk, stack: seq<Slot>, boxes: Boxes, base: nat, caps: seq<nat>, i: nat, v: Value)
    requires StackOk(c, stack, boxes, base, caps) && i < c.locals
    ensures var floor, now := base + c.locals, stack[base + i := Plain(v)];
      && StackOk(c, now, boxes, base, caps)
      && Vals(boxes, now[base..floor]) == Vals(boxes, stack[base..floor])[i := v]
      && Vals(boxes, now[floor..]) == Vals(boxes, stack[floor..])
  {
    var floor, now := base + c.locals, stack[base + i := Plain(v)];
    assert now[base..floor] == stack[base..floor][i := Plain(v)];
    assert now[floor..] == stack[floor..];
  }

  lemma {:induction false} StoresBox(c: Chunk, stack: seq<Slot>, boxes: Boxes, base: nat, caps: seq<nat>, i: nat,
      v: Value)
    requires StackOk(c, stack, boxes, base, caps) && i < c.locals && stack[base + i].Boxed?
    ensures var floor, now := base + c.locals, boxes[stack[base + i].id := v];
      && StackOk(c, stack, now, base, caps) && stack[base + i].id in boxes
      && Vals(now, stack[base..floor]) == Vals(boxes, stack[base..floor])[i := v]
      && Vals(now, stack[floor..]) == Vals(boxes, stack[floor..])
  {
    var floor, now := base + c.locals, boxes[stack[base + i].id := v];
    forall k | base <= k < floor ensures Val(now, stack[k]) == if k == base + i then v else Val(boxes, stack[k]) {}
  }

  lemma {:induction false} BindsBox(c: Chunk, stack: seq<Slot>, boxes: Boxes, base: nat, caps: seq<nat>, i: nat,
      id: nat, v: Value)
    requires StackOk(c, stack, boxes, base, caps) && i < c.locals && id !in boxes && Marked(c.captured, i)
    ensures var floor, now, held := base + c.locals, stack[base + i := Boxed(id)], boxes[id := v];
      && StackOk(c, now, held, base, caps)
      && Vals(held, now[base..floor]) == Vals(boxes, stack[base..floor])[i := v]
      && Vals(held, now[floor..]) == Vals(boxes, stack[floor..])
  {
    var floor, now, held := base + c.locals, stack[base + i := Boxed(id)], boxes[id := v];
    forall k | base <= k < floor ensures Val(held, now[k]) == if k == base + i then v else Val(boxes, stack[k]) {}
  }

  lemma {:induction false} StoresCap(c: Chunk, stack: seq<Slot>, boxes: Boxes, base: nat, caps: seq<nat>, k: nat,
      v: Value)
    requires StackOk(c, stack, boxes, base, caps) && k < |caps|
    ensures var floor, now := base + c.locals, boxes[caps[k] := v];
      && StackOk(c, stack, now, base, caps) && caps[k] in boxes
      && Vals(now, stack[base..floor]) == Vals(boxes, stack[base..floor])
      && Vals(now, stack[floor..]) == Vals(boxes, stack[floor..])
  {
    var floor, now := base + c.locals, boxes[caps[k] := v];
    forall i | base <= i < |stack| ensures Val(now, stack[i]) == Val(boxes, stack[i]) {}
  }

  // ---- what the words of each kind do, on the one-frame machine ----

  lemma {:induction false} DataRuns(h: Host, s: Machine.State, c: Chunk, w: Word, i: Instr)
    requires Decode(c.constants, c.fused, w) == Some(i)
    ensures w.op.OpPop? ==> Exec(h, s, i) == if s.ops == [] then Bad else Advance(s, s.ops[..|s.ops| - 1])
    ensures w.op.OpDup? ==> Exec(h, s, i) == if s.ops == [] then Bad else Advance(s, s.ops + [s.ops[|s.ops| - 1]])
    ensures w.op.OpConst? ==> w.a < |c.constants| && Exec(h, s, i) == Advance(s, s.ops + [c.constants[w.a]])
    ensures w.op.OpNil? ==> Exec(h, s, i) == Advance(s, s.ops + [Nil])
    ensures w.op.OpTrue? || w.op.OpFalse? ==> Exec(h, s, i) == Advance(s, s.ops + [Bool(w.op.OpTrue?)])
  {
    hide ThrowTo, Deliver, StepNative, StepFused, DecFused, Resolve;
  }

  lemma {:induction false} SlotRuns(h: Host, s: Machine.State, c: Chunk, w: Word, i: Instr)
    requires Decode(c.constants, c.fused, w) == Some(i) && w.a < |s.slots|
    ensures w.op.OpGetLocal? || w.op.OpGetCell? ==> Exec(h, s, i) == Advance(s, s.ops + [s.slots[w.a]])
    ensures w.op.OpSetLocal? || w.op.OpSetCell? || w.op.OpBindCell? ==>
      Exec(h, s, i) == if s.ops == [] then Bad else At(s.(ip := s.ip + 1, slots := s.slots[w.a := s.ops[|s.ops| - 1]]))
  {
    hide ThrowTo, Deliver, StepNative, StepFused, DecFused, Resolve;
  }

  lemma {:induction false} JumpRuns(h: Host, s: Machine.State, c: Chunk, w: Word, i: Instr)
    requires Decode(c.constants, c.fused, w) == Some(i)
    ensures w.op.OpJump? ==> Exec(h, s, i) == At(s.(ip := s.ip + 1 + w.a))
    ensures w.op.OpLoop? ==> Exec(h, s, i) == At(s.(ip := w.a))
    ensures w.op.OpJumpIfFalse? ==> (Exec(h, s, i) ==
      if s.ops == [] then Bad
      else At(s.(ip := s.ip + 1 + (if Truthy(s.ops[|s.ops| - 1]) then 0 else w.a), ops := s.ops[..|s.ops| - 1])))
    ensures w.op.OpReturn? ==> Exec(h, s, i) == if s.ops == [] then Bad else Done(s.ops[|s.ops| - 1], s.g)
  {
    hide ThrowTo, Deliver, StepNative, StepFused, DecFused;
    if w.op.OpJump? { assert i == Jump(w.a); }
    else if w.op.OpLoop? { assert i == LoopTo(w.a); }
    else if w.op.OpJumpIfFalse? { assert i == JumpIfFalse(w.a); }
    else if w.op.OpReturn? { assert i == Return; }
  }

  lemma {:induction false} TryRuns(h: Host, s: Machine.State, c: Chunk, w: Word, i: Instr)
    requires Decode(c.constants, c.fused, w) == Some(i)
    ensures w.op.OpSetupTry? ==>
      Exec(h, s, i) == At(s.(ip := s.ip + 1, handlers := s.handlers + [Handler(w.a, |s.ops|, |s.freeze|)]))
    ensures w.op.OpPopTry? ==>
      var hs := if s.handlers == [] then [] else s.handlers[..|s.handlers| - 1];
      Exec(h, s, i) == At(s.(ip := s.ip + 1, handlers := hs))
    ensures w.op.OpThrow? ==>
      Exec(h, s, i) == if s.ops == [] then Bad else ThrowTo(s.(ops := s.ops[..|s.ops| - 1]), s.ops[|s.ops| - 1])
  {
    hide ThrowTo, Deliver, StepNative, StepFused, DecFused, Resolve;
  }

  predicate NamesOp(op: Opcode) {
    || op.OpGetGlobal? || op.OpGetFunc? || op.OpCheckLexical? || op.OpSetLexical?
    || op.OpFreezeNative? || op.OpFreezeNativeFunc?
  }

  predicate InFuncs(op: Opcode) {
    op.OpGetFunc? || op.OpFreezeNativeFunc?
  }

  lemma {:induction false} NameRuns(h: Host, s: Machine.State, c: Chunk, w: Word, i: Instr)
    requires Decode(c.constants, c.fused, w) == Some(i) && NamesOp(w.op)
    ensures IsSymbol(c.constants, w.a)
    ensures var x := c.constants[w.a].name;
      var b := Resolve(s.g, x, InFuncs(w.op));
      && (w.op.OpGetGlobal? || w.op.OpGetFunc? ==>
          Exec(h, s, i) == if b.Some? then Advance(s, s.ops + [b.value.v]) else ThrowTo(s, UndefinedError(x)))
      && (w.op.OpFreezeNative? || w.op.OpFreezeNativeFunc? ==>
          Exec(h, s, i) == if b.Some? then At(s.(ip := s.ip + 1,
              freeze := s.freeze + [FreezeRec(|s.ops|, FrozenOp(b.value, x), b.value.v)]))
                           else ThrowTo(s, UndefinedError(x)))
  {
    hide ThrowTo, FrozenOp;
    if w.op.OpGetGlobal? { assert i == GetGlobal(c.constants[w.a].name); }
    else if w.op.OpGetFunc? { assert i == GetFunc(c.constants[w.a].name); }
    else if w.op.OpFreezeNative? || w.op.OpFreezeNativeFunc? {
      assert i == Freeze(c.constants[w.a].name, InFuncs(w.op));
    }
  }

  lemma {:induction false} AssignRuns(h: Host, s: Machine.State, c: Chunk, w: Word, i: Instr)
    requires Decode(c.constants, c.fused, w) == Some(i) && (w.op.OpCheckLexical? || w.op.OpSetLexical?)
    ensures IsSymbol(c.constants, w.a)
    ensures var x := c.constants[w.a].name;
      var b := Resolve(s.g, x, false);
      Exec(h, s, i) ==
        if w.op.OpSetLexical? && s.ops == [] then Bad
        else if b.None? then ThrowTo(s, AssignError(x))
        else if w.op.OpCheckLexical? then Advance(s, s.ops)
        else At(s.(ip := s.ip + 1, g := s.g.(vars := s.g.vars[x := Binding(s.ops[|s.ops| - 1], false)])))
  {
    hide ThrowTo, AssignError;
    var x := c.constants[w.a].name;
    assert i == if w.op.OpCheckLexical? then CheckLexical(x) else SetLexical(x);
    assert x in s.g.vars <==> Resolve(s.g, x, false).Some?;
  }

  lemma {:induction false} FusedRuns(h: Host, s: Machine.State, c: Chunk, f: FusedOp, i: Instr)
    requires DecFused(c.constants, f) == Some(i)
    requires ArgOk(f.a, |c.constants|, |s.slots|) && ArgOk(f.b, |c.constants|, |s.slots|)
    ensures IsSymbol(c.constants, f.sym)
    ensures var x := c.constants[f.sym].name;
      var a, b := Machine.ReadOperand(s, DecArg(c.constants, f.a).value), Machine.ReadOperand(s,
          DecArg(c.constants, f.b).value);
      && a.Some? && b.Some?
      && Exec(h, s, i) == match Resolve(s.g, x, f.func)
           case None => ThrowTo(s, UndefinedError(x))
           case Some(v) => Deliver(s, s.ops, if v.canonical then h.native(f.op, [a.value, b.value])
               else h.apply(v.v, [a.value, b.value]))
  {
    hide ThrowTo, Deliver;
  }

  /** An error reaches the same handler whether or not what the call consumed is still there. */
  lemma {:induction false} ThrowBelow(s: Machine.State, keep: seq<Value>, w: Value)
    requires keep <= s.ops
    ensures ThrowTo(s.(ops := keep), w) == Bad || ThrowTo(s.(ops := keep), w) == ThrowTo(s, w)
  {
    if s.handlers != [] {
      var h := s.handlers[|s.handlers| - 1];
      if h.ops <= |keep| { assert s.ops[..h.ops] == keep[..h.ops]; }
    }
  }

  /** The name a native opcode resolves when nothing was frozen for it. */
  function OperatorOf(op: NativeOp): (x: string)
    ensures NativeOf(x) == Some(op)
  {
    match op
    case Add => "+"
    case Sub => "-"
    case Mul => "*"
    case Div => "/"
    case Lt => "<"
    case Gt => ">"
    case Le => "<="
    case Ge => ">="
    case Eq => "="
  }

  /** Where a call delivers depends on what lay below it, not on what it consumed. */
  lemma {:induction false} DeliversOver(s: Machine.State, ops: seq<Value>, keep: seq<Value>, o: Outcome)
    ensures Deliver(s.(ops := ops), keep, o) == Deliver(s, keep, o)
  {
  }

  lemma {:induction false} Splices(c: Chunk, stack: seq<Slot>, boxes: Boxes, base: nat, caps: seq<nat>, d: nat,
      v: Value)
    requires StackOk(c, stack, boxes, base, caps) && base + c.locals <= d <= |stack|
    ensures var floor, now := base + c.locals, stack[..d] + [Plain(v)] + stack[d..];
      && StackOk(c, now, boxes, base, caps)
      && Vals(boxes, now[base..floor]) == Vals(boxes, stack[base..floor])
      && Vals(boxes, now[floor..]) == Vals(boxes, stack[floor..])[..d - floor] + [v] + Vals(boxes,
          stack[floor..])[d - floor..]
  {
    var floor, now := base + c.locals, stack[..d] + [Plain(v)] + stack[d..];
    assert now[base..floor] == stack[base..floor];
    assert now[floor..] == stack[floor..][..d - floor] + [Plain(v)] + stack[floor..][d - floor..];
  }

  /** Where a word may lead, short of a handler. */
  function Nexts(w: Word, ip: nat): set<nat> {
    match w.op
    case OpJump => {ip + 1 + w.a}
    case OpJumpIfFalse => {ip + 1, ip + 1 + w.a}
    case OpLoop => {w.a}
    case OpReturn => {}
    case OpThrow => {}
    case _ => {ip + 1}
  }

  // ---- slots bound before they are read ----

  /** At each place in the code, slots that were bound on every way there. */
  type Bindings = map<nat, set<nat>>

  /** The captured slots an instruction reads are among the bound ones. */
  predicate Needs(c: Chunk, w: Word, s: set<nat>) {
    match w.op
    case OpGetCell => w.a in s
    case OpSetCell => w.a in s
    case OpFused => w.a < |c.fused| ==> NeedsArg(c, c.fused[w.a].a, s) && NeedsArg(c, c.fused[w.a].b, s)
    case OpClosure =>
      w.a < |c.subs| ==>
        forall i :: 0 <= i < |c.subs[w.a].caps| && c.subs[w.a].caps[i].FromSlot? ==> c.subs[w.a].caps[i].slot in s
    case _ => true
  }

  predicate NeedsArg(c: Chunk, a: FusedArg, s: set<nat>) {
    a.SlotArg? && Marked(c.captured, a.i) ==> a.i in s
  }

  /** The captured slots of s are among t, or are the one the instruction binds. */
  predicate Covers(c: Chunk, s: set<nat>, t: set<nat>, w: Word) {
    forall i :: i in s && Marked(c.captured, i) ==> i in t || (w.op.OpBindCell? && i == w.a)
  }

  predicate FlowsTo(c: Chunk, bound: Bindings, ip: nat)
    requires ip < |c.code|
  {
    var w := c.code[ip];
    && ip in bound && Needs(c, w, bound[ip])
    && (forall t :: t in Nexts(w, ip) ==> t in bound && Covers(c, bound[t], bound[ip], w))
    && (w.op.OpSetupTry? ==> w.a in bound && Covers(c, bound[w.a], bound[ip], w))
  }

  /** The bindings hold at entry, of the parameters, and along every way through the code, and every
      captured slot is bound where it is read. */
  predicate Annotates(c: Chunk, bound: Bindings) {
    && 0 in bound && (forall i :: i in bound[0] ==> i < c.params)
    && forall ip :: 0 <= ip < |c.code| ==> FlowsTo(c, bound, ip)
  }

  predicate AllBoxed(c: Chunk, stack: seq<Slot>, base: nat, s: set<nat>) {
    forall i :: i in s && Marked(c.captured, i) && i < c.locals ==> base + i < |stack| && stack[base + i].Boxed?
  }

  /** The cell a closure captures, from a frame's boxed slots or its own captured cells. */
  function CellOf(stack: seq<Slot>, base: nat, caps: seq<nat>, d: CapDesc): nat {
    match d
    case FromCap(i) => if i < |caps| then caps[i] else 0
    case FromSlot(i) => if base + i < |stack| && stack[base + i].Boxed? then stack[base + i].id else 0
  }

  function CellsOf(stack: seq<Slot>, base: nat, caps: seq<nat>, ds: seq<CapDesc>): seq<nat> {
    seq(|ds|, i requires 0 <= i < |ds| => CellOf(stack, base, caps, ds[i]))
  }

  lemma {:induction false} SamePrefix(a: seq<Slot>, b: seq<Slot>, n: nat)
    requires n <= |a| && n <= |b| && a[..n] == b[..n]
    ensures forall i :: 0 <= i < n ==> a[i] == b[i]
  {
    forall i | 0 <= i < n ensures a[i] == b[i] { assert a[i] == a[..n][i]; }
  }

  /** The instructions that only read the frame. */
  predicate Loads(op: Opcode) {
    || op.OpNil? || op.OpTrue? || op.OpFalse? || op.OpConst? || op.OpGetLocal? || op.OpGetCell?
    || op.OpFreezeNative? || op.OpFreezeNativeFunc?
  }

  // ---- the machine ----

  class VM {
    const chunk: Chunk
    const host: Host
    const base: nat
    /** The cells the frame's own closure captured, and the value of a closure over some cells. */
    const caps: seq<nat>
    const close: (nat, seq<nat>) -> Value
    var ip: nat
    var stack: seq<Slot>
    var boxes: Boxes
    var nextBox: nat
    var handlers: seq<AbsHandler>
    var freezeStack: seq<FreezeRec>
    var g: Globals

    /** A frame entered with its arguments on top of what lies below it: the captured ones are
        boxed at once. */
    constructor (chunk: Chunk, host: Host, below: seq<Slot>, args: seq<Value>, boxes: Boxes, nextBox: nat,
        caps: seq<nat>, close: (nat, seq<nat>) -> Value, g: Globals)
      requires Shaped(chunk) && |args| <= chunk.locals
      requires |caps| == |chunk.caps| && forall k :: 0 <= k < |caps| ==> caps[k] in boxes
      requires forall id :: id in boxes ==> id < nextBox
      ensures Valid() && fresh(this) && this.chunk == chunk && this.host == host && base == |below|
      ensures State() == Machine.State(0, args + seq(chunk.locals - |args|, _ => Nil), [], [], [], g)
      ensures handlers == [] && freezeStack == [] && ip == 0 && this.g == g && this.caps == caps && this.close == close
      ensures args == [] ==> this.boxes == boxes && stack == below + seq(chunk.locals, _ => Plain(Nil))
      ensures forall i :: 0 <= i < |args| && Marked(chunk.captured, i) ==> stack[base + i].Boxed?
    {
      this.chunk, this.host, base, this.caps, this.close := chunk, host, |below|, caps, close;
      this.g, ip, this.boxes, this.nextBox, handlers, freezeStack := g, 0, boxes, nextBox, [], [];
      stack := below + seq(|args|, i requires 0 <= i < |args| => Plain(args[i]));
      new;
      ReserveLocals();
      assert forall i :: base <= i < Floor() ==> stack[i] == Plain(if i - base < |args| then args[i - base] else Nil);
      BoxCaptured(|args|);
      assert stack[Floor()..] == [];
    }

    /** Boxes the captured ones of the first n slots. */
    method BoxCaptured(n: nat)
      requires StackOk(chunk, stack, boxes, base, caps) && n <= chunk.locals
      requires forall id :: id in boxes ==> id < nextBox
      modifies this`stack, this`boxes, this`nextBox
      ensures StackOk(chunk, stack, boxes, base, caps) && (forall id :: id in boxes ==> id < nextBox)
      ensures |stack| == |old(stack)| && Vals(boxes, stack[base..Floor()]) == old(Vals(boxes, stack[base..Floor()]))
      ensures forall i :: 0 <= i < n && Marked(chunk.captured, i) ==> stack[base + i].Boxed?
      ensures n == 0 ==> stack == old(stack) && boxes == old(boxes)
    {
      hide StackOk, Vals;
      Floored();
      for i := 0 to n
        invariant StackOk(chunk, stack, boxes, base, caps) && (forall id :: id in boxes ==> id < nextBox)
        invariant |stack| == |old(stack)| && Vals(boxes, stack[base..Floor()]) == old(Vals(boxes, stack[base..Floor()]))
        invariant forall j :: 0 <= j < i && Marked(chunk.captured, j) ==> stack[base + j].Boxed?
        invariant i == 0 ==> stack == old(stack) && boxes == old(boxes)
      {
        if Marked(chunk.captured, i) { BoxSlot(i); }
      }
    }

    lemma Floored()
      requires StackOk(chunk, stack, boxes, base, caps)
      ensures Floor() <= |stack|
    {
    }

    /** Replaces a slot's value with a fresh box of it. */
    method BoxSlot(i: nat)
      requires StackOk(chunk, stack, boxes, base, caps) && i < chunk.locals && Marked(chunk.captured, i)
      requires forall id :: id in boxes ==> id < nextBox
      modifies this`stack, this`boxes, this`nextBox
      ensures StackOk(chunk, stack, boxes, base, caps) && (forall id :: id in boxes ==> id < nextBox)
      ensures |stack| == |old(stack)| && Vals(boxes, stack[base..Floor()]) == old(Vals(boxes, stack[base..Floor()]))
      ensures stack[base + i].Boxed? && forall j :: 0 <= j < |stack| && j != base + i ==> stack[j] == old(stack[j])
    {
      var v := Val(boxes, stack[base + i]);
      BindsBox(chunk, stack, boxes, base, caps, i, nextBox, v);
      assert Vals(boxes, stack[base..Floor()])[i] == v;
      stack, boxes, nextBox := stack[base + i := Boxed(nextBox)], boxes[nextBox := v], nextBox + 1;
    }

    function Floor(): nat {
      base + chunk.locals
    }

    ghost predicate Valid()
      reads this
    {
      && Shaped(chunk) && StackOk(chunk, stack, boxes, base, caps)
      && (forall i :: 0 <= i < |handlers| ==> handlers[i].stackDepth >= Floor())
      && (forall i :: 0 <= i < |freezeStack| ==> freezeStack[i].depth >= Floor())
      && (forall id :: id in boxes ==> id < nextBox)
    }

    /** The frame as the one-frame machine sees it. */
    ghost function State(): Machine.State
      reads this
      requires Valid()
    {
      Machine.State(ip, Vals(boxes, stack[base..Floor()]), Vals(boxes, stack[Floor()..]),
        Rel(handlers, Floor()), RelFreeze(freezeStack, Floor()), g)
    }

    /** What a step or a run ended in is what the one-frame machine says. */
    ghost predicate Matches(r: Result, run: Run)
      reads this
    {
      match run
      case At(s) => r.Running? && Valid() && State() == s
      case Uncaught(w, slots, g1) => r == Threw(w) && Valid() && State().slots == slots && g == g1
      case Done(v, g1) => r == Returned(v) && g == g1 && base <= |stack| && stack == stack[..base]
      case Bad => r.Running? ==> Valid()
    }

    /** The slots hold what they held, plain or boxed. */
    twostate predicate SlotsKept()
      reads this
    {
      boxes == old(boxes) && Floor() <= |stack| && Floor() <= |old(stack)| && stack[..Floor()] == old(stack)[..Floor()]
    }

    /** The innermost handler was taken. */
    twostate predicate Caught()
      reads this
    {
      && old(handlers) != [] && ip == old(handlers)[|old(handlers)| - 1].addr
      && handlers == old(handlers)[..|old(handlers)| - 1]
    }

    /** On to the next instruction, or to the innermost handler; the slots hold what they held. */
    twostate predicate Went()
      reads this
    {
      SlotsKept() && ((ip == old(ip) + 1 && handlers == old(handlers)) || Caught())
    }

    /** The frame's slots exist and nothing lies above them. */
    method ReserveLocals()
      requires base <= |stack|
      modifies this`stack
      ensures |stack| == if chunk.locals == 0 then |old(stack)| else Floor()
      ensures stack[..base] == old(stack)[..base]
      ensures forall i :: base <= i < |stack| ==> stack[i] == if i < |old(stack)| then old(stack)[i] else Plain(Nil)
    {
      if chunk.locals == 0 { return; }
      while |stack| < Floor()
        invariant |old(stack)| <= |stack| && (|stack| <= Floor() || stack == old(stack))
        invariant forall i :: 0 <= i < |stack| ==> stack[i] == if i < |old(stack)| then old(stack)[i] else Plain(Nil)
        decreases Floor() - |stack|
      {
        stack := stack + [Plain(Nil)];
      }
      stack := stack[..Floor()];
    }

    method Push(v: Value)
      requires Valid()
      modifies this`stack
      ensures Valid() && State() == old(State()).(ops := old(State()).ops + [v]) && |stack| == |old(stack)| + 1
      ensures SlotsKept()
    {
      hide StackOk, Vals;
      Pushes(chunk, stack, boxes, base, caps, v);
      stack := stack + [Plain(v)];
    }

    /** The top operand. */
    method Peek() returns (v: Value)
      requires Valid() && |stack| > Floor()
      ensures State().ops != [] && v == State().ops[|State().ops| - 1]
    {
      v := Val(boxes, stack[|stack| - 1]);
      assert stack[Floor()..][|stack| - Floor() - 1] == stack[|stack| - 1];
    }

    method Cut(k: nat)
      requires Valid() && Floor() <= k <= |stack|
      modifies this`stack
      ensures Valid() && State() == old(State()).(ops := old(State()).ops[..k - Floor()]) && |stack| == k
      ensures SlotsKept()
    {
      hide StackOk, Vals;
      Cuts(chunk, stack, boxes, base, caps, k);
      stack := stack[..k];
    }

    /** Unwinds to the innermost handler, if there is one. */
    method Throw(w: Value) returns (r: Result)
      requires Valid()
      modifies this
      ensures Matches(r, ThrowTo(old(State()), w)) && SlotsKept()
      ensures r.Running? ==> Caught()
    {
      hide StackOk, Vals, Shaped;
      Sizes();
      if handlers == [] { return Threw(w); }
      var h := handlers[|handlers| - 1];
      ghost var was := State();
      if h.stackDepth > |stack| || h.freezeDepth > |freezeStack| { return Broken; }
      handlers := handlers[..|handlers| - 1];
      Cut(h.stackDepth);
      freezeStack := freezeStack[..h.freezeDepth];
      Push(w);
      ip := h.addr;
      assert State() == was.(ip := h.addr, ops := was.ops[..h.stackDepth - Floor()] + [w],
          handlers := was.handlers[..|was.handlers| - 1], freeze := was.freeze[..h.freezeDepth]);
      return Running;
    }

    lemma Sizes()
      requires Valid()
      ensures Floor() <= |stack| && |State().ops| == |stack| - Floor() && |State().slots| == chunk.locals
      ensures |State().freeze| == |freezeStack|
    {
      hide Vals;
    }

    /** The end of every ordinary instruction. */
    method Next(ghost s: Machine.State) returns (r: Result)
      requires Valid() && State() == s
      modifies this`ip
      ensures Matches(r, At(s.(ip := s.ip + 1))) && r.Running? && ip == old(ip) + 1
    {
      hide StackOk, Vals, Shaped, Rel, RelFreeze;
      ip := ip + 1;
      return Running;
    }

    // Constants, Pop and Dup.
    method StepData(w: Word, ghost i: Instr) returns (r: Result)
      requires Valid() && Decode(chunk.constants, chunk.fused, w) == Some(i)
      requires w.op.OpNil? || w.op.OpTrue? || w.op.OpFalse? || w.op.OpConst? || w.op.OpPop? || w.op.OpDup?
      modifies this
      ensures Matches(r, Exec(host, old(State()), i))
      ensures SlotsKept() && (r.Running? ==> Went())
    {
      hide StackOk, Vals, Shaped, Rel, RelFreeze, Exec, Decode;
      DataRuns(host, State(), chunk, w, i);
      Sizes();
      if w.op.OpPop? || w.op.OpDup? {
        if |stack| <= Floor() { return Broken; }
        if w.op.OpPop? { Cut(|stack| - 1); } else { var v := Peek(); Push(v); }
      } else if w.op.OpConst? {
        Push(chunk.constants[w.a]);
      } else {
        Push(if w.op.OpNil? then Nil else Bool(w.op.OpTrue?));
      }
      r := Next(State());
    }

    /** A cell instruction on a slot no box was bound to, or a closure over one: the machine
        refuses it. */
    ghost predicate Unboxed(w: Word)
      reads this
      requires Valid()
    {
      if w.op.OpClosure? then
        w.a < |chunk.subs| && exists i :: 0 <= i < |chunk.subs[w.a].caps| && Loose(chunk.subs[w.a].caps[i])
      else (w.op.OpGetCell? || w.op.OpSetCell?) && w.a < chunk.locals && stack[base + w.a].Plain?
    }

    predicate Loose(d: CapDesc)
      reads this
    {
      d.FromSlot? && base + d.slot < |stack| && stack[base + d.slot].Plain?
    }

    /** What was boxed is boxed, and so is a slot just bound. */
    twostate predicate BoxesKept(w: Word)
      reads this
    {
      && |stack| >= Floor() && |old(stack)| >= Floor()
      && (forall i :: base <= i < Floor() && old(stack)[i].Boxed? ==> stack[i].Boxed?)
      && (w.op.OpBindCell? && w.a < chunk.locals ==> stack[base + w.a].Boxed?)
    }

    method Store(w: Word, top: Value)
      requires Valid() && ShapedWord(chunk, w) && !Unboxed(w)
      requires w.op.OpSetLocal? || w.op.OpSetCell? || w.op.OpBindCell?
      modifies this`stack, this`boxes, this`nextBox
      ensures Valid() && w.a < chunk.locals == |old(State()).slots|
      ensures State() == old(State()).(slots := old(State()).slots[w.a := top])
      ensures |stack| == |old(stack)| && BoxesKept(w)
    {
      hide StackOk, Vals, Shaped, Rel, RelFreeze;
      Sizes();
      var slot := base + w.a;
      if w.op.OpSetLocal? {
        NotBoxed(w.a);
        Stores(chunk, stack, boxes, base, caps, w.a, top);
        stack := stack[slot := Plain(top)];
      } else if w.op.OpSetCell? {
        StoresBox(chunk, stack, boxes, base, caps, w.a, top);
        boxes := boxes[stack[slot].id := top];
      } else {
        BindsBox(chunk, stack, boxes, base, caps, w.a, nextBox, top);
        stack, boxes, nextBox := stack[slot := Boxed(nextBox)], boxes[nextBox := top], nextBox + 1;
      }
    }

    lemma NotBoxed(i: nat)
      requires Valid() && i < chunk.locals && !Marked(chunk.captured, i)
      ensures base + i < |stack| && stack[base + i].Plain?
    {
    }

    lemma SlotRead(i: nat)
      requires Valid() && i < chunk.locals
      ensures base + i < |stack| && i < |State().slots| && Val(boxes, stack[base + i]) == State().slots[i]
    {
      assert stack[base..Floor()][i] == stack[base + i];
    }

    // Locals, plain and boxed.
    method StepSlot(w: Word, ghost i: Instr) returns (r: Result)
      requires Valid() && Decode(chunk.constants, chunk.fused, w) == Some(i) && ShapedWord(chunk, w)
      requires w.op.OpGetLocal? || w.op.OpSetLocal? || w.op.OpGetCell? || w.op.OpSetCell? || w.op.OpBindCell?
      modifies this
      ensures if old(Unboxed(w)) then r.Broken? && unchanged(this) else Matches(r, Exec(host, old(State()), i))
      ensures w.op.OpGetLocal? || w.op.OpGetCell? ==> SlotsKept()
      ensures r.Running? ==> ip == old(ip) + 1 && handlers == old(handlers) && BoxesKept(w)
    {
      hide StackOk, Vals, Shaped, Rel, RelFreeze, Exec, Decode;
      SlotRead(w.a);
      SlotRuns(host, State(), chunk, w, i);
      Sizes();
      var slot := base + w.a;
      if slot >= |stack| { return Broken; }
      if (w.op.OpGetCell? || w.op.OpSetCell?) && stack[slot].Plain? { return Broken; }
      if w.op.OpGetLocal? || w.op.OpGetCell? {
        Push(Val(boxes, stack[slot]));
      } else {
        if |stack| <= Floor() { return Broken; }
        var top := Peek();
        Store(w, top);
      }
      r := Next(State());
    }

    // Jumps and Return.
    method StepJump(w: Word, ghost i: Instr) returns (r: Result)
      requires Valid() && Decode(chunk.constants, chunk.fused, w) == Some(i)
      requires w.op.OpJump? || w.op.OpLoop? || w.op.OpJumpIfFalse? || w.op.OpReturn?
      modifies this
      ensures Matches(r, Exec(host, old(State()), i))
      ensures r.Running? ==> SlotsKept() && handlers == old(handlers) && ip in Nexts(w, old(ip))
    {
      hide StackOk, Vals, Shaped, Rel, RelFreeze, Exec, Decode;
      JumpRuns(host, State(), chunk, w, i);
      Sizes();
      if w.op.OpJump? {
        ip := ip + 1 + w.a;
        return Running;
      } else if w.op.OpLoop? {
        ip := w.a;
        return Running;
      }
      if |stack| <= Floor() { return Broken; }
      var top := Peek();
      if w.op.OpReturn? {
        stack := stack[..base];
        return Returned(top);
      }
      Cut(|stack| - 1);
      ip := ip + 1 + if Truthy(top) then 0 else w.a;
      return Running;
    }

    /** A handler more or less, or the innermost taken. */
    twostate predicate Turned(w: Word)
      reads this
    {
      var n := |old(handlers)|;
      if w.op.OpSetupTry? then
        ip == old(ip) + 1 && |handlers| == n + 1 && handlers[..n] == old(handlers) && handlers[n].addr == w.a
      else if w.op.OpPopTry? then
        ip == old(ip) + 1 && handlers == if n == 0 then [] else old(handlers)[..n - 1]
      else Caught()
    }

    // SetupTry, PopTry and Throw.
    method StepTry(w: Word, ghost i: Instr) returns (r: Result)
      requires Valid() && Decode(chunk.constants, chunk.fused, w) == Some(i)
      requires w.op.OpSetupTry? || w.op.OpPopTry? || w.op.OpThrow?
      modifies this
      ensures Matches(r, Exec(host, old(State()), i))
      ensures r.Running? ==> SlotsKept() && Turned(w)
    {
      hide StackOk, Vals, Shaped, Exec, Decode, ThrowTo;
      ghost var was := State();
      TryRuns(host, was, chunk, w, i);
      Sizes();
      if w.op.OpSetupTry? {
        handlers := handlers + [AbsHandler(w.a, |stack|, |freezeStack|)];
        assert State().handlers == was.handlers + [Handler(w.a, |was.ops|, |was.freeze|)];
      } else if w.op.OpPopTry? {
        if handlers != [] { handlers := handlers[..|handlers| - 1]; }
        assert State().handlers == if was.handlers == [] then [] else was.handlers[..|was.handlers| - 1];
      } else {
        if |stack| <= Floor() { return Broken; }
        var top := Peek();
        Cut(|stack| - 1);
        r := Throw(top);
        return;
      }
      r := Next(State());
    }

    // Names of the root scope: read, or frozen as an operator's head.
    method StepName(w: Word, ghost i: Instr) returns (r: Result)
      requires Valid() && Decode(chunk.constants, chunk.fused, w) == Some(i) && NamesOp(w.op)
      requires !w.op.OpCheckLexical? && !w.op.OpSetLexical?
      modifies this
      ensures Matches(r, Exec(host, old(State()), i))
      ensures SlotsKept() && (r.Running? ==> Went())
    {
      hide StackOk, Vals, Shaped, Exec, Decode, ThrowTo, Rel;
      ghost var was := State();
      NameRuns(host, was, chunk, w, i);
      Sizes();
      var x := chunk.constants[w.a].name;
      var b := Resolve(g, x, InFuncs(w.op));
      if b.None? {
        r := Throw(UndefinedError(x));
        return;
      }
      if w.op.OpGetGlobal? || w.op.OpGetFunc? {
        Push(b.value.v);
      } else {
        freezeStack := freezeStack + [FreezeRec(|stack|, FrozenOp(b.value, x), b.value.v)];
        assert State().freeze == was.freeze + [FreezeRec(|was.ops|, FrozenOp(b.value, x), b.value.v)];
      }
      r := Next(State());
    }

    // Names of the root scope: checked, or assigned.
    method StepAssign(w: Word, ghost i: Instr) returns (r: Result)
      requires Valid() && Decode(chunk.constants, chunk.fused, w) == Some(i)
      requires w.op.OpCheckLexical? || w.op.OpSetLexical?
      modifies this
      ensures Matches(r, Exec(host, old(State()), i))
      ensures SlotsKept() && (r.Running? ==> Went())
    {
      hide StackOk, Vals, Shaped, Exec, Decode, ThrowTo, Rel, RelFreeze;
      ghost var was := State();
      AssignRuns(host, was, chunk, w, i);
      Sizes();
      var x := chunk.constants[w.a].name;
      if w.op.OpSetLexical? && |stack| <= Floor() { return Broken; }
      if Resolve(g, x, false).None? {
        r := Throw(AssignError(x));
        return;
      }
      if w.op.OpSetLexical? {
        var top := Peek();
        g := g.(vars := g.vars[x := Binding(top, false)]);
      }
      r := Next(State());
    }

    /** Calls the function below argc arguments. */
    method Call(argc: nat) returns (r: Result)
      requires Valid() && |stack| > Floor() + argc
      modifies this
      ensures var s := old(State());
        var n := |s.ops|;
        n > argc && Matches(r, Deliver(s, s.ops[..n - argc - 1], host.apply(s.ops[n - argc - 1], s.ops[n - argc..])))
      ensures r.Running? ==> Went()
    {
      hide StackOk, Vals, Shaped, Rel, RelFreeze, ThrowTo;
      ghost var was := State();
      Sizes();
      var at := |stack| - argc - 1;
      Operands(at);
      var fn, args := Val(boxes, stack[at]), Vals(boxes, stack[at + 1..]);
      var o := host.apply(fn, args);
      match o {
        case Ok(v) =>
          Cut(at);
          Push(v);
          r := Next(State());
        case Err(w) =>
          ThrowBelow(was, was.ops[..at - Floor()], w);
          r := Throw(w);
      }
    }

    lemma Operands(at: nat)
      requires Valid() && Floor() <= at <= |stack|
      ensures |State().ops| == |stack| - Floor()
      ensures at < |stack| ==> Val(boxes, stack[at]) == State().ops[at - Floor()]
      ensures at < |stack| ==> Vals(boxes, stack[at + 1..]) == State().ops[at + 1 - Floor()..]
      ensures Vals(boxes, stack[at..]) == State().ops[at - Floor()..]
    {
      assert stack[at..] == stack[Floor()..][at - Floor()..];
      if at < |stack| { assert stack[at + 1..] == stack[Floor()..][at + 1 - Floor()..]; }
    }

    /** Puts an operator under argc arguments and calls it. */
    method CallSpliced(argc: nat, v: Value) returns (r: Result)
      requires Valid() && |stack| >= Floor() + argc
      modifies this
      ensures var s := old(State());
        var n := |s.ops|;
        n >= argc && Matches(r, Deliver(s, s.ops[..n - argc], host.apply(v, s.ops[n - argc..])))
      ensures r.Running? ==> Went()
    {
      hide StackOk, Vals, Shaped, Rel, RelFreeze, Deliver;
      ghost var was := State();
      Sizes();
      var d := |stack| - argc;
      Splices(chunk, stack, boxes, base, caps, d, v);
      stack := stack[..d] + [Plain(v)] + stack[d..];
      ghost var k := d - Floor();
      ghost var ops := was.ops[..k] + [v] + was.ops[k..];
      assert State() == was.(ops := ops);
      assert ops[..k] == was.ops[..k] && ops[k] == v && ops[k + 1..] == was.ops[k..];
      DeliversOver(was, ops, was.ops[..k], host.apply(v, was.ops[k..]));
      r := Call(argc);
    }

    /** The result of a native operation over the topmost argc operands, or its error. */
    method Finish(argc: nat, o: Outcome) returns (r: Result)
      requires Valid() && |stack| >= Floor() + argc
      modifies this
      ensures var s := old(State());
        |s.ops| >= argc && Matches(r, Deliver(s, s.ops[..|s.ops| - argc], o))
      ensures r.Running? ==> Went()
    {
      hide StackOk, Vals, Shaped, Rel, RelFreeze, ThrowTo;
      ghost var was := State();
      Sizes();
      match o {
        case Ok(v) =>
          Cut(|stack| - argc);
          Push(v);
          r := Next(State());
        case Err(w) =>
          ThrowBelow(was, was.ops[..|was.ops| - argc], w);
          r := Throw(w);
      }
    }

    /** Runs the opcode when its frozen head was canonical, calls the head's value when not, and
        resolves the operator's own name when nothing was frozen here. */
    method DispatchNative(op: NativeOp, argc: nat) returns (r: Result)
      requires Valid()
      modifies this
      ensures Matches(r, StepNative(host, old(State()), op, argc))
      ensures r.Running? ==> Went()
    {
      hide StackOk, Vals, Shaped, Rel, Deliver, ThrowTo;
      ghost var was := State();
      Sizes();
      if Floor() + argc > |stack| { return Broken; }
      var d := |stack| - argc;
      if freezeStack != [] && freezeStack[|freezeStack| - 1].depth == d {
        Operands(d);
        var args := Vals(boxes, stack[d..]);
        var rec := TakeFrozen();
        if rec.op == Some(op) {
          r := Finish(argc, host.native(op, args));
        } else {
          r := CallSpliced(argc, rec.val);
        }
      } else {
        NotFrozen(op, argc, d);
        r := Recover(op, argc);
      }
    }

    method TakeFrozen() returns (rec: FreezeRec)
      requires Valid() && freezeStack != []
      modifies this`freezeStack
      ensures Valid() && rec == old(freezeStack)[|old(freezeStack)| - 1]
      ensures var was := old(State());
        var m := |was.freeze|;
        && m > 0 && was.freeze[m - 1] == FreezeRec(rec.depth - Floor(), rec.op, rec.val)
        && State() == was.(freeze := was.freeze[..m - 1])
    {
      hide StackOk, Vals, Shaped, Rel;
      rec := freezeStack[|freezeStack| - 1];
      freezeStack := freezeStack[..|freezeStack| - 1];
    }

    lemma NotFrozen(op: NativeOp, argc: nat, d: nat)
      requires Valid() && d + argc == |stack| && d >= Floor()
      requires freezeStack == [] || freezeStack[|freezeStack| - 1].depth != d
      ensures StepNative(host, State(), op, argc) == Bad
    {
      hide StackOk, Vals, Shaped, Rel, Deliver;
      Sizes();
    }

    /** Nothing was frozen here: the operator's own name is resolved and called. */
    method Recover(op: NativeOp, argc: nat) returns (r: Result)
      requires Valid() && |stack| >= Floor() + argc
      modifies this
      ensures Matches(r, Bad) && (r.Running? ==> Went())
    {
      hide StackOk, Vals, Shaped, Rel, RelFreeze, Deliver, ThrowTo;
      var b := Resolve(g, OperatorOf(op), false);
      if b.None? { r := Throw(UndefinedError(OperatorOf(op))); } else { r := CallSpliced(argc, b.value.v); }
    }

    /** A constant, or a slot read through its box if it has one. */
    method ReadOperand(a: FusedArg) returns (v: Option<Value>)
      requires Valid() && ArgOk(a, |chunk.constants|, chunk.locals)
      ensures var d := DecArg(chunk.constants, a); d.Some? && v == Machine.ReadOperand(State(), d.value) && v.Some?
    {
      hide StackOk, Vals, Shaped, Rel, RelFreeze;
      match a {
        case ConstArg(i) => return Some(chunk.constants[i]);
        case SlotArg(i) =>
          SlotRead(i);
          if base + i >= |stack| { return None; }
          return Some(Val(boxes, stack[base + i]));
      }
    }

    method DispatchFused(f: FusedOp, ghost i: Instr) returns (r: Result)
      requires Valid() && DecFused(chunk.constants, f) == Some(i)
      requires ArgOk(f.a, |chunk.constants|, chunk.locals) && ArgOk(f.b, |chunk.constants|, chunk.locals)
      modifies this
      ensures Matches(r, Exec(host, old(State()), i))
      ensures r.Running? ==> Went()
    {
      hide StackOk, Vals, Shaped, Rel, RelFreeze, Deliver, ThrowTo, Exec, DecFused, DecArg;
      Sizes();
      FusedRuns(host, State(), chunk, f, i);
      var x := chunk.constants[f.sym].name;
      var b := Resolve(g, x, f.func);
      if b.None? {
        r := Throw(UndefinedError(x));
        return;
      }
      var va := ReadOperand(f.a);
      var vb := ReadOperand(f.b);
      if va.None? || vb.None? { return Broken; }
      if b.value.canonical {
        assert State().ops[..|State().ops|] == State().ops;
        r := Finish(0, host.native(f.op, [va.value, vb.value]));
      } else {
        r := CallOperator(b.value.v, va.value, vb.value);
      }
    }

    /** Calls a rebound operator on the two operands. */
    method CallOperator(v: Value, a: Value, b: Value) returns (r: Result)
      requires Valid()
      modifies this
      ensures Matches(r, Deliver(old(State()), old(State()).ops, host.apply(v, [a, b])))
      ensures r.Running? ==> Went()
    {
      hide StackOk, Vals, Shaped, Rel, RelFreeze, Deliver;
      ghost var was := State();
      Sizes();
      Push(v);
      Push(a);
      Push(b);
      ghost var ops := was.ops + [v] + [a] + [b];
      ghost var n := |ops|;
      assert ops[..n - 3] == was.ops && ops[n - 3] == v && ops[n - 2..] == [a, b];
      DeliversOver(was, ops, was.ops, host.apply(v, [a, b]));
      r := Call(2);
    }

    // Captured cells.
    method StepCapture(w: Word) returns (r: Result, ghost v: Value)
      requires Valid() && (w.op.OpGetCap? || w.op.OpSetCap?)
      modifies this
      ensures Matches(r, ExecWord(host, chunk, old(State()), w, v))
      ensures r.Running? ==> w.a < |caps| && caps[w.a] in old(boxes) && caps[w.a] in boxes
      ensures r.Running? && w.op.OpGetCap? ==> v == old(boxes)[caps[w.a]] && boxes == old(boxes)
      ensures r.Running? && w.op.OpSetCap? ==>
        old(State()).ops != [] && boxes == old(boxes)[caps[w.a] := old(State()).ops[|old(State()).ops| - 1]]
      ensures r.Running? ==> ip == old(ip) + 1 && handlers == old(handlers) && BoxesKept(w)
    {
      hide StackOk, Vals, Shaped, Rel, RelFreeze;
      v := Nil;
      Sizes();
      CapKnown(w.a);
      if w.a >= |caps| { return Broken, v; }
      if w.op.OpGetCap? {
        v := boxes[caps[w.a]];
        Push(boxes[caps[w.a]]);
        SamePrefix(stack, old(stack), Floor());
      } else {
        if |stack| <= Floor() { return Broken, v; }
        var top := Peek();
        StoresCap(chunk, stack, boxes, base, caps, w.a, top);
        boxes := boxes[caps[w.a] := top];
      }
      r := Next(State());
    }

    lemma CapKnown(i: nat)
      requires Valid()
      ensures |caps| == |chunk.caps| && (i < |caps| ==> caps[i] in boxes)
    {
    }

    /** Makes a closure over the boxes of captured slots and over the frame's own captures. */
    method StepClosure(w: Word) returns (r: Result, ghost v: Value)
      requires Valid() && w.op.OpClosure? && ShapedWord(chunk, w)
      modifies this
      ensures if old(Unboxed(w)) then r.Broken? && unchanged(this)
              else Matches(r, ExecWord(host, chunk, old(State()), w, v))
      ensures r.Running? ==>
        w.a < |chunk.subs| && v == close(w.a, CellsOf(old(stack), base, caps, chunk.subs[w.a].caps))
      ensures r.Running? ==> Went()
    {
      hide StackOk, Vals, Shaped, Rel, RelFreeze;
      v := Nil;
      Sizes();
      CapKnown(0);
      if w.a >= |chunk.subs| { return Broken, v; }
      var descs := chunk.subs[w.a].caps;
      var cells: seq<nat> := [];
      for i := 0 to |descs|
        invariant unchanged(this) && |cells| == i
        invariant forall j :: 0 <= j < i ==> cells[j] == CellOf(stack, base, caps, descs[j]) && !Loose(descs[j])
      {
        match descs[i] {
          case FromCap(k) => cells := cells + [caps[k]];
          case FromSlot(k) =>
            if stack[base + k].Plain? {
              assert Loose(descs[i]);
              return Broken, v;
            }
            cells := cells + [stack[base + k].id];
        }
      }
      assert cells == CellsOf(stack, base, caps, descs);
      v := close(w.a, cells);
      Push(close(w.a, cells));
      r := Next(State());
    }

    /** Where control went: to a word the instruction leads to or to a handler that was there, and
        no handler is new but the one it installed. */
    twostate predicate Moved(w: Word)
      reads this
    {
      && (ip in Nexts(w, old(ip)) || exists h :: h in old(handlers) && ip == h.addr)
      && (forall h :: h in handlers ==> h in old(handlers) || (w.op.OpSetupTry? && h.addr == w.a))
    }

    /** One instruction: fetch, then the work of its kind. What a closure or capture instruction
        pushes is v. */
    method Step() returns (r: Result, ghost v: Value)
      requires Valid() && ip < |chunk.code|
      modifies this
      ensures if old(Unboxed(chunk.code[ip])) then r.Broken? && unchanged(this)
              else Matches(r, StepWord(host, chunk, old(State()), v))
      ensures Loads(chunk.code[old(ip)].op) ==> SlotsKept()
      ensures r.Running? ==> Moved(chunk.code[old(ip)]) && BoxesKept(chunk.code[old(ip)])
    {
      hide StackOk, Vals, Shaped, Rel, RelFreeze, Exec, StepNative, Decode, DecFused, Matches, ExecWord;
      var w := chunk.code[ip];
      v := Nil;
      Fetches();
      if w.op.OpClosure? {
        r, v := StepClosure(w);
      } else if w.op.OpGetCap? || w.op.OpSetCap? {
        r, v := StepCapture(w);
      } else {
        r := StepPlain(w);
      }
    }

    /** An instruction of the one-frame machine. */
    method StepPlain(w: Word) returns (r: Result)
      requires Valid() && ip < |chunk.code| && w == chunk.code[ip] && !Captures(w.op) && ShapedWord(chunk, w)
      modifies this
      ensures if old(Unboxed(w)) then r.Broken? && unchanged(this)
              else Matches(r, StepWord(host, chunk, old(State()), Nil))
      ensures Loads(w.op) ==> SlotsKept()
      ensures r.Running? ==> Moved(w) && BoxesKept(w)
    {
      hide StackOk, Vals, Shaped, Rel, RelFreeze, Exec, StepNative, Decode, DecFused, Matches;
      if Decode(chunk.constants, chunk.fused, w).None? {
        Undecoded(w);
        Sizes();
        return Broken;
      }
      ghost var i := Decode(chunk.constants, chunk.fused, w).value;
      WordRuns(host, chunk, State(), i, Nil);
      if w.op.OpNil? || w.op.OpTrue? || w.op.OpFalse? || w.op.OpConst? || w.op.OpPop? || w.op.OpDup? {
        r := StepData(w, i);
      } else if w.op.OpCheckLexical? || w.op.OpSetLexical? {
        r := StepAssign(w, i);
      } else if NamesOp(w.op) {
        r := StepName(w, i);
      } else if w.op.OpJump? || w.op.OpLoop? || w.op.OpJumpIfFalse? || w.op.OpReturn? {
        r := StepJump(w, i);
      } else if w.op.OpSetupTry? || w.op.OpPopTry? || w.op.OpThrow? {
        r := StepTry(w, i);
      } else if w.op.OpCall? || w.op.OpNative? || w.op.OpFused? {
        r := StepCall(w, i);
      } else {
        r := StepSlot(w, i);
      }
    }

    lemma Undecoded(w: Word)
      requires Valid() && ip < |chunk.code| && w == chunk.code[ip] && !Captures(w.op)
      requires Decode(chunk.constants, chunk.fused, w).None?
      ensures StepWord(host, chunk, State(), Nil) == Bad && Matches(Broken, Bad) && !Unboxed(w)
    {
      hide StackOk, Vals, Rel, RelFreeze, Shaped;
    }

    // Calls of every kind.
    method StepCall(w: Word, ghost i: Instr) returns (r: Result)
      requires Valid() && Decode(chunk.constants, chunk.fused, w) == Some(i) && ShapedWord(chunk, w)
      requires w.op.OpCall? || w.op.OpNative? || w.op.OpFused?
      modifies this
      ensures Matches(r, Exec(host, old(State()), i))
      ensures r.Running? ==> Went()
    {
      hide StackOk, Vals, Shaped, Rel, RelFreeze, Exec, StepNative, Decode, DecFused, Matches;
      CallKinds(w, i);
      if w.op.OpCall? {
        Sizes();
        CallRuns(State(), w, i);
        if |stack| <= Floor() + w.a {
          OffTheRails(Broken);
          return Broken;
        }
        r := Call(w.a);
      } else if w.op.OpNative? {
        r := DispatchNative(w.op.native, w.a);
      } else {
        r := DispatchFused(chunk.fused[w.a], i);
      }
    }

    lemma CallKinds(w: Word, i: Instr)
      requires Valid() && Decode(chunk.constants, chunk.fused, w) == Some(i)
      ensures w.op.OpFused? ==> w.a < |chunk.fused| && DecFused(chunk.constants, chunk.fused[w.a]) == Some(i)
      ensures w.op.OpNative? ==> Exec(host, State(), i) == StepNative(host, State(), w.op.native, w.a)
    {
      hide StackOk, Vals, Rel, RelFreeze, StepNative, DecFused, Shaped;
    }

    /** What is fetched is shaped as compiled code is. */
    lemma Fetches()
      requires Valid() && ip < |chunk.code|
      ensures State().ip == ip && ShapedWord(chunk, chunk.code[ip])
      ensures forall v :: StepWord(host, chunk, State(), v) == ExecWord(host, chunk, State(), chunk.code[ip], v)
      ensures Captures(chunk.code[ip].op) && !chunk.code[ip].op.OpClosure? ==> !Unboxed(chunk.code[ip])
    {
      hide StackOk, Vals, Rel, RelFreeze, ExecWord, ShapedWord;
    }

    lemma CallRuns(s: Machine.State, w: Word, i: Instr)
      requires w.op.OpCall? && Decode(chunk.constants, chunk.fused, w) == Some(i)
      ensures var n := |s.ops|;
        Exec(host, s, i) == if n < w.a + 1 then Bad
            else Deliver(s, s.ops[..n - w.a - 1], host.apply(s.ops[n - w.a - 1], s.ops[n - w.a..]))
    {
      hide Deliver;
    }

    /** Runs until the frame is left or the step budget is spent: what it ends in is what running
        the words ends in, unless that has no answer or it is stuck at a cell instruction or closure
        on a slot no box was bound to; in code that binds every captured slot first it never is. */
    method Run(budget: nat, ghost bound: Bindings) returns (r: Result, ghost given: seq<Value>, ghost stuck: bool)
      requires Valid()
      modifies this
      ensures |given| <= budget
      ensures var run := RunWords(host, chunk, old(State()), given);
        && (if stuck then r.Broken? && Stuck() && (run == Bad || run == At(State())) else Matches(r, run))
        && (r.Running? ==> |given| == budget || run == Bad)
      ensures old(Bound(bound)) && Annotates(chunk, bound) ==> !stuck && (r.Running? ==> Bound(bound))
    {
      hide Valid, State, Matches, StepWord, Unboxed, Bound, Annotates;
      var left: nat := budget;
      ghost var start, annotated := State(), Bound(bound) && Annotates(chunk, bound);
      given, stuck := [], false;
      while left > 0
        invariant Valid() && left + |given| <= budget && (annotated ==> Bound(bound))
        invariant var run := RunWords(host, chunk, start, given);
          run == Bad || (run == At(State()) && left + |given| == budget)
        decreases left
      {
        Positions();
        if ip >= |chunk.code| {
          OffTheRails(Broken);
          if RunWords(host, chunk, start, given) != Bad {
            RunWordsNext(host, chunk, start, given, State(), Nil);
            given := given + [Nil];
          }
          return Broken, given, false;
        }
        ghost var was, run, at, stack0, hs := State(), RunWords(host, chunk, start, given), ip, stack, handlers;
        stuck := Unboxed(chunk.code[ip]);
        if annotated {
          NeverUnboxed(bound);
          BoundIs(bound);
        }
        ghost var v;
        r, v := Step();
        if r.Broken? { OffTheRails(r); }
        if !stuck && run != Bad {
          RunWordsNext(host, chunk, start, given, was, v);
          given := given + [v];
        }
        if !r.Running? {
          if !stuck { Stops(r, StepWord(host, chunk, was, v)); }
          return;
        }
        Goes(r, StepWord(host, chunk, was, v));
        if annotated { StaysBound(bound, at, stack0, hs); }
        left := left - 1;
      }
      AtEnd();
      return Running, given, false;
    }

    /** Every slot the bindings promise here, or at a handler, is boxed if it is captured. */
    ghost predicate Bound(bound: Bindings)
      reads this
    {
      && Valid() && ip in bound && AllBoxed(chunk, stack, base, bound[ip])
      && forall h :: h in handlers ==> h.addr in bound && AllBoxed(chunk, stack, base, bound[h.addr])
    }

    /** A frame just entered with its arguments has what the bindings promise. */
    lemma StartsBound(bound: Bindings)
      requires Valid() && Annotates(chunk, bound) && ip == 0 && handlers == [] && chunk.params <= chunk.locals
      requires forall i :: 0 <= i < chunk.params && Marked(chunk.captured, i) ==> stack[base + i].Boxed?
      ensures Bound(bound)
    {
      hide Shaped;
    }

    lemma BoundIs(bound: Bindings)
      requires Bound(bound)
      ensures Floor() <= |stack| && ip in bound && AllBoxed(chunk, stack, base, bound[ip])
      ensures forall h :: h in handlers ==> h.addr in bound && AllBoxed(chunk, stack, base, bound[h.addr])
    {
    }

    lemma NeverUnboxed(bound: Bindings)
      requires Bound(bound) && Annotates(chunk, bound) && ip < |chunk.code|
      ensures !Unboxed(chunk.code[ip])
    {
      hide StackOk;
      var w := chunk.code[ip];
      assert ShapedWord(chunk, w) && FlowsTo(chunk, bound, ip);
    }

    lemma StaysBound(bound: Bindings, at: nat, was: seq<Slot>, hs: seq<AbsHandler>)
      requires Valid() && Annotates(chunk, bound) && at < |chunk.code| && at in bound && |was| >= Floor()
      requires AllBoxed(chunk, was, base, bound[at])
      requires forall h :: h in hs ==> h.addr in bound && AllBoxed(chunk, was, base, bound[h.addr])
      requires var w := chunk.code[at];
        && |stack| >= Floor()
        && (forall i :: base <= i < Floor() && was[i].Boxed? ==> stack[i].Boxed?)
        && (w.op.OpBindCell? && w.a < chunk.locals ==> stack[base + w.a].Boxed?)
        && (ip in Nexts(w, at) || exists h :: h in hs && ip == h.addr)
        && (forall h :: h in handlers ==> h in hs || (w.op.OpSetupTry? && h.addr == w.a))
      ensures Bound(bound)
    {
      hide StackOk, Shaped, Valid;
      var w := chunk.code[at];
      assert FlowsTo(chunk, bound, at);
      forall t: nat | t in bound && Covers(chunk, bound[t], bound[at], w)
        ensures AllBoxed(chunk, stack, base, bound[t])
      {}
    }

    /** The machine stands at a cell instruction or closure on a slot no box was bound to. */
    ghost predicate Stuck()
      reads this
    {
      Valid() && ip < |chunk.code| && Unboxed(chunk.code[ip])
    }

    lemma OffTheRails(r: Result)
      requires r.Broken?
      ensures Matches(r, Bad)
    {
    }

    lemma Positions()
      requires Valid()
      ensures State().ip == ip && (ip >= |chunk.code| ==> forall v :: StepWord(host, chunk, State(), v) == Bad)
    {
      hide StackOk, Vals, Rel, RelFreeze;
    }

    lemma Stops(r: Result, run: Machine.Run)
      requires !r.Running?
      ensures Matches(r, Bad)
      ensures Matches(r, run) ==> !run.At?
    {
    }

    lemma Goes(r: Result, run: Machine.Run)
      requires r.Running? && Matches(r, run)
      ensures Valid() && (run == Bad || (run.At? && State() == run.s))
    {
    }

    lemma AtEnd()
      requires Valid()
      ensures Matches(Running, At(State())) && Matches(Running, Bad)
    {
    }
  }
}
