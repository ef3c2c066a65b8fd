/** The reference semantics: evaluation by recursion over the form. */
module TreeWalker {
  import opened Forms

  /** A chain of scopes, innermost first. Without closures a scope is owned by the form that
      opened it, so the chain is threaded through evaluation. */
  datatype Env = Root(g: Globals) | Child(vars: map<string, Value>, parent: Env)

  function Lookup(e: Env, x: string): Option<Value> {
    match e
    case Root(g) => if x in g.vars then Some(g.vars[x].v) else None
    case Child(vars, parent) => if x in vars then Some(vars[x]) else Lookup(parent, x)
  }

  /** Rebinds x in the scope that owns it; a rebound root binding is no longer canonical. */
  function Rebind(e: Env, x: string, v: Value): Env {
    match e
    case Root(g) => Root(g.(vars := g.vars[x := Binding(v, false)]))
    case Child(vars, parent) =>
      if x in vars then Child(vars[x := v], parent) else Child(vars, Rebind(parent, x, v))
  }

  function GlobalsOf(e: Env): Globals {
    match e
    case Root(g) => g
    case Child(_, parent) => GlobalsOf(parent)
  }

  /** Binds x in the scope e itself. */
  function BindLocal(e: Env, x: string, v: Value): Env {
    match e
    case Root(_) => Rebind(e, x, v)
    case Child(vars, parent) => Child(vars[x := v], parent)
  }

  function Parent(e: Env): Env {
    if e.Child? then e.parent else e
  }

  /** Binds each name in turn: the last of a repeated name wins. */
  function BindAll(vars: map<string, Value>, names: seq<string>, vs: seq<Value>): map<string, Value>
    requires |names| == |vs|
    decreases |names|
  {
    if names == [] then vars else BindAll(vars[names[0] := vs[0]], names[1..], vs[1..])
  }

  /** The outcome of a form, with the scopes as it left them, at the form's own depth; or the
      number of loop iterations granted to it, all of them spent. */
  datatype Res =
    | OutOfFuel(spent: nat)
    | Val(v: Value, e: Env)
    | Thrown(w: Value, e: Env)
    | Again(args: seq<Value>, e: Env)

  datatype ArgsRes = Vals(vs: seq<Value>, e: Env) | Stop(r: Res)

  /** Leaves the innermost scope. */
  function Leave(r: Res): Res {
    match r
    case OutOfFuel(m) => OutOfFuel(m)
    case Val(v, e) => Val(v, Parent(e))
    case Thrown(w, e) => Thrown(w, Parent(e))
    case Again(args, e) => Again(args, Parent(e))
  }

  function FromOutcome(o: Outcome, e: Env): Res {
    match o
    case Ok(v) => Val(v, e)
    case Err(w) => Thrown(w, e)
  }

  function Eval(h: Host, lisp2: bool, f: Form, e: Env, k: nat): Res
    decreases k, f, 0
  {
    match f
    case Const(v) => Val(v, e)
    case Quote(v) => Val(v, e)
    case Var(x) =>
      (match Lookup(e, x)
       case Some(v) => Val(v, e)
       case None => Thrown(UndefinedError(x), e))
    case Do(body) => EvalBody(h, lisp2, body, e, k)
    case If(test, thn, els) =>
      (match Eval(h, lisp2, test, e, k)
       case Val(v, e1) =>
         if Truthy(v) then Eval(h, lisp2, thn, e1, k)
         else (match els case Some(f2) => Eval(h, lisp2, f2, e1, k) case None => Val(Nil, e1))
       case r => r)
    case When(test, body) =>
      (match Eval(h, lisp2, test, e, k)
       case Val(v, e1) => if Truthy(v) then EvalBody(h, lisp2, body, e1, k) else Val(Nil, e1)
       case r => r)
    case Cond(clauses) => EvalClauses(h, lisp2, clauses, e, k)
    case And(args) =>
      (match args
       case End => Val(Bool(true), e)
       case Cons(a, rest) =>
         match Eval(h, lisp2, a, e, k)
         case Val(v, e1) => EvalAnd(h, lisp2, v, rest, e1, k)
         case r => r)
    case Or(args) =>
      (match args
       case End => Val(Nil, e)
       case Cons(a, rest) =>
         match Eval(h, lisp2, a, e, k)
         case Val(v, e1) => EvalOr(h, lisp2, v, rest, e1, k)
         case r => r)
    case Not(arg) =>
      (match Eval(h, lisp2, arg, e, k)
       case Val(v, e1) => Val(Bool(!Truthy(v)), e1)
       case r => r)
    case Let(binds, body) =>
      Leave(match EvalBinds(h, lisp2, binds, Child(map[], e), k)
            case Val(_, e1) => EvalBody(h, lisp2, body, e1, k)
            case r => r)
    case Assign(x, rhs) =>
      if Lookup(e, x).None? then Thrown(AssignError(x), e)
      else (match Eval(h, lisp2, rhs, e, k)
            case Val(v, e1) => Val(v, Rebind(e1, x, v))
            case r => r)
    case Throw(arg) =>
      (match Eval(h, lisp2, arg, e, k)
       case Val(v, e1) => Thrown(v, e1)
       case r => r)
    case Try(body, err, handler) =>
      (match EvalBody(h, lisp2, body, e, k)
       case Thrown(w, e1) => Leave(EvalBody(h, lisp2, handler, Child(map[err := w], e1), k))
       case r => r)
    case Loop(binds, body) =>
      (match EvalInits(h, lisp2, binds, e, k)
       case Vals(vs, e1) =>
         Leave(Iterate(h, lisp2, Names(binds), body, Child(BindAll(map[], Names(binds), vs), e1), k))
       case Stop(r) => r)
    case Recur(args) =>
      (match EvalArgs(h, lisp2, args, e, k)
       case Vals(vs, e1) => Again(vs, e1)
       case Stop(r) => r)
    case Call(head, args) =>
      (match EvalHead(h, lisp2, head, e, k)
       case Val(fn, e1) =>
         (match EvalArgs(h, lisp2, args, e1, k)
          case Vals(vs, e2) => FromOutcome(h.apply(fn, vs), e2)
          case Stop(r) => r)
       case r => r)
    case Lambda(_, _) => OutOfFuel(k) // closures have no outcome here
  }

  /** Under Lisp-2 a symbol in head position names a function cell. */
  function EvalHead(h: Host, lisp2: bool, head: Form, e: Env, k: nat): Res
    decreases k, head, 1
  {
    if lisp2 && head.Var? then
      var fs := GlobalsOf(e).funcs;
      if head.name in fs then Val(fs[head.name].v, e) else Thrown(UndefinedError(head.name), e)
    else
      Eval(h, lisp2, head, e, k)
  }

  function EvalBody(h: Host, lisp2: bool, fs: Forms, e: Env, k: nat): Res
    decreases k, fs, 0
  {
    match fs
    case End => Val(Nil, e)
    case Cons(f, tail) =>
      if tail.End? then Eval(h, lisp2, f, e, k)
      else
        match Eval(h, lisp2, f, e, k)
        case Val(_, e1) => EvalBody(h, lisp2, tail, e1, k)
        case r => r
  }

  function EvalArgs(h: Host, lisp2: bool, fs: Forms, e: Env, k: nat): (r: ArgsRes)
    ensures r.Vals? ==> |r.vs| == Length(fs)
    decreases k, fs, 0
  {
    match fs
    case End => Vals([], e)
    case Cons(f, tail) =>
      match Eval(h, lisp2, f, e, k)
      case Val(v, e1) =>
        (match EvalArgs(h, lisp2, tail, e1, k)
         case Vals(vs, e2) => Vals([v] + vs, e2)
         case Stop(r) => Stop(r))
      case r => Stop(r)
  }

  /** let and let*: each initializer sees the bindings before it. */
  function EvalBinds(h: Host, lisp2: bool, bs: Binds, e: Env, k: nat): Res
    decreases k, bs, 0
  {
    match bs
    case NoBinds => Val(Nil, e)
    case Bind(x, init, rest) =>
      match Eval(h, lisp2, init, e, k)
      case Val(v, e1) => EvalBinds(h, lisp2, rest, BindLocal(e1, x, v), k)
      case r => r
  }

  /** loop: every initializer is evaluated in the enclosing scope. */
  function EvalInits(h: Host, lisp2: bool, bs: Binds, e: Env, k: nat): (r: ArgsRes)
    ensures r.Vals? ==> |r.vs| == |Names(bs)|
    decreases k, bs, 0
  {
    match bs
    case NoBinds => Vals([], e)
    case Bind(_, init, rest) =>
      match Eval(h, lisp2, init, e, k)
      case Val(v, e1) =>
        (match EvalInits(h, lisp2, rest, e1, k)
         case Vals(vs, e2) => Vals([v] + vs, e2)
         case Stop(r) => Stop(r))
      case r => Stop(r)
  }

  function EvalClauses(h: Host, lisp2: bool, cs: Clauses, e: Env, k: nat): Res
    decreases k, cs, 0
  {
    match cs
    case NoClauses => Val(Nil, e)
    case Clause(test, body, rest) =>
      if IsElse(test) then EvalBody(h, lisp2, body, e, k)
      else
        match Eval(h, lisp2, test, e, k)
        case Val(v, e1) =>
          if Truthy(v) then EvalBody(h, lisp2, body, e1, k) else EvalClauses(h, lisp2, rest, e1, k)
        case r => r
  }

  function EvalAnd(h: Host, lisp2: bool, v: Value, args: Forms, e: Env, k: nat): Res
    decreases k, args, 0
  {
    if args.End? || !Truthy(v) then Val(v, e)
    else
      match Eval(h, lisp2, args.head, e, k)
      case Val(v1, e1) => EvalAnd(h, lisp2, v1, args.tail, e1, k)
      case r => r
  }

  function EvalOr(h: Host, lisp2: bool, v: Value, args: Forms, e: Env, k: nat): Res
    decreases k, args, 0
  {
    if args.End? || Truthy(v) then Val(v, e)
    else
      match Eval(h, lisp2, args.head, e, k)
      case Val(v1, e1) => EvalOr(h, lisp2, v1, args.tail, e1, k)
      case r => r
  }

  function Rebound(e: Env, names: seq<string>, vs: seq<Value>): Env
    requires |names| == |vs|
  {
    match e
    case Root(_) => e
    case Child(vars, parent) => Child(BindAll(vars, names, vs), parent)
  }

  function Spend(r: Res): Res {
    match r
    case OutOfFuel(m) => OutOfFuel(m + 1)
    case _ => r
  }

  /** The loop proper: run the body, and again with the recur arguments while it yields them. */
  function Iterate(h: Host, lisp2: bool, names: seq<string>, body: Forms, e: Env, k: nat): Res
    decreases k, body, 1
  {
    match EvalBody(h, lisp2, body, e, k)
    case Again(args, e1) =>
      if |args| != |names| then Thrown(RecurArityError(), e1)
      else if k == 0 then OutOfFuel(0)
      else Spend(Iterate(h, lisp2, names, body, Rebound(e1, names, args), k - 1))
    case r => r
  }
}
