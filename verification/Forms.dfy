/** Values, and the forms both evaluators accept, after special-form dispatch: bindings, cond
    clauses and catch clauses are already destructured. */
module Forms {

  datatype Option<+T> = None | Some(value: T)

  datatype Value =
    | Nil
    | Bool(b: bool)
    | Int(i: int)
    | Str(s: string)
    | Sym(name: string)
    | Key(name: string)
    | List(items: seq<Value>)
    | Vec(items: seq<Value>)
    | Fn(name: string)

  /** The values a fused instruction may take as an operand. */
  predicate Scalar(v: Value) {
    v.Nil? || v.Bool? || v.Int? || v.Str? || v.Key?
  }

  /** nil and false are the only falsy values. */
  predicate Truthy(v: Value) {
    match v
    case Nil => false
    case Bool(b) => b
    case _ => true
  }

  /** The nine operators the compiler and the VM know natively. */
  datatype NativeOp = Add | Sub | Mul | Div | Lt | Gt | Le | Ge | Eq

  function NativeOf(name: string): Option<NativeOp> {
    if name == "+" then Some(Add)
    else if name == "-" then Some(Sub)
    else if name == "*" then Some(Mul)
    else if name == "/" then Some(Div)
    else if name == "<" then Some(Lt)
    else if name == ">" then Some(Gt)
    else if name == "<=" then Some(Le)
    else if name == ">=" then Some(Ge)
    else if name == "=" then Some(Eq)
    else None
  }

  datatype Form =
    | Const(v: Value)
    | Quote(v: Value)
    | Var(name: string)
    | Do(body: Forms)
    | If(test: Form, thn: Form, els: Option<Form>)
    | When(test: Form, body: Forms)
    | Cond(clauses: Clauses)
    | And(args: Forms)
    | Or(args: Forms)
    | Not(arg: Form)
    | Let(binds: Binds, body: Forms)
    | Assign(name: string, rhs: Form)
    | Throw(arg: Form)
    | Try(body: Forms, err: string, handler: Forms)
    | Loop(binds: Binds, body: Forms)
    | Recur(args: Forms)
    | Call(head: Form, args: Forms)
    | Lambda(params: seq<string>, body: Forms)

  datatype Forms = End | Cons(head: Form, tail: Forms)
  datatype Binds = NoBinds | Bind(name: string, init: Form, rest: Binds)
  datatype Clauses = NoClauses | Clause(test: Form, body: Forms, rest: Clauses)

  predicate IsElse(f: Form) {
    f == Const(Key("else"))
  }

  function Length(fs: Forms): nat {
    match fs
    case End => 0
    case Cons(_, tail) => 1 + Length(tail)
  }

  function Names(bs: Binds): seq<string> {
    match bs
    case NoBinds => []
    case Bind(name, _, rest) => [name] + Names(rest)
  }

  /** What calling a function yields: a value, or the value a catch clause binds. */
  datatype Outcome = Ok(v: Value) | Err(w: Value)

  /** The host side of a run: how a callable is applied, and what a native opcode computes. */
  datatype Host = Host(apply: (Value, seq<Value>) -> Outcome, native: (NativeOp, seq<Value>) -> Outcome)

  datatype Binding = Binding(v: Value, canonical: bool)

  /** The root scope: the value cells, and the function cells of a Lisp-2 dialect. */
  datatype Globals = Globals(vars: map<string, Binding>, funcs: map<string, Binding>)

  /** A canonical binding of a native operator computes what the native opcode computes. */
  ghost predicate Faithful(h: Host, m: map<string, Binding>) {
    forall name :: name in m && m[name].canonical && NativeOf(name).Some? ==>
      Computes(h, m[name].v, NativeOf(name).value)
  }

  ghost predicate Computes(h: Host, f: Value, op: NativeOp) {
    forall args :: h.apply(f, args) == h.native(op, args)
  }

  ghost predicate CanonicalFaithful(h: Host, g: Globals) {
    Faithful(h, g.vars) && Faithful(h, g.funcs)
  }

  /** The text an error carries into a catch clause. */
  function UndefinedError(name: string): Value {
    Str("UndefinedError: undefined: " + name)
  }

  function AssignError(name: string): Value {
    Str("EvalError: set!: cannot mutate undefined variable \"" + name + "\"")
  }

  function RecurArityError(): Value {
    Str("EvalError: recur: wrong number of args")
  }
}
