/** How the scope chain of the tree-walker lies in the reserved slots of a frame. */
module ScopeSlots {
  import opened Forms
  import opened TreeWalker
  import opened CodeGen

  /** The layout of the slots, innermost first: a scope opens, a name takes the next slot of the
      scope it is bound in, a pad is a nameless reserved slot holding v. */
  datatype Shape = Bottom | Opened(p: Shape) | Named(x: string, p: Shape) | Pad(v: Value, p: Shape)

  function Flat(sh: Shape): seq<string> {
    match sh
    case Bottom => []
    case Opened(p) => Flat(p)
    case Named(x, p) => Flat(p) + [x]
    case Pad(_, p) => Flat(p) + [""]
  }

  function NamedAll(sh: Shape, names: seq<string>): (r: Shape)
    ensures Flat(r) == Flat(sh) + names
    decreases |names|
  {
    if names == [] then sh else NamedAll(Named(names[0], sh), names[1..])
  }

  function PadAll(sh: Shape, vs: seq<Value>): (r: Shape)
    ensures |Flat(r)| == |Flat(sh)| + |vs|
    decreases |vs|
  {
    if vs == [] then sh else PadAll(Pad(vs[0], sh), vs[1..])
  }

  /** Every visible binding of e is in its slot. Within a scope the latest slot of a name is the
      binding; hidden are the names bound later in the scope being walked. */
  ghost predicate Rel(e: Env, sh: Shape, slots: seq<Value>, hidden: set<string>)
    decreases sh
  {
    && |Flat(sh)| <= |slots|
    && match sh
       case Bottom => e.Root?
       case Opened(p) => e.Child? && e.vars.Keys == hidden && Rel(e.parent, p, slots, {})
       case Named(x, p) =>
         && x != "" && e.Child? && x in e.vars
         && (x !in hidden ==> e.vars[x] == slots[|Flat(p)|])
         && Rel(e, p, slots, hidden + {x})
       case Pad(v, p) => slots[|Flat(p)|] == v && Rel(e, p, slots, hidden)
  }

  /** sh is some bindings in a scope opened over p. */
  predicate Within(sh: Shape, p: Shape) {
    match sh
    case Bottom => false
    case Opened(q) => q == p
    case Named(_, q) => Within(q, p)
    case Pad(_, q) => Within(q, p)
  }

  lemma {:induction false} Frame(e: Env, sh: Shape, slots: seq<Value>, slots': seq<Value>, hidden: set<string>)
    requires Rel(e, sh, slots, hidden)
    requires |Flat(sh)| <= |slots'| && slots'[..|Flat(sh)|] == slots[..|Flat(sh)|]
    ensures Rel(e, sh, slots', hidden)
    decreases sh
  {
    if sh.Bottom? { return; }
    assert forall i :: 0 <= i < |Flat(sh)| ==> slots'[i] == slots[i] by {
      forall i | 0 <= i < |Flat(sh)| ensures slots'[i] == slots[i] {
        assert slots'[..|Flat(sh)|][i] == slots[..|Flat(sh)|][i];
      }
    }
    assert slots'[..|Flat(sh.p)|] == slots[..|Flat(sh.p)|];
    match sh
    case Opened(p) => Frame(e.parent, p, slots, slots', {});
    case Named(x, p) => Frame(e, p, slots, slots', hidden + {x});
    case Pad(v, p) => Frame(e, p, slots, slots', hidden);
  }

  /** A name resolves to the slot holding its binding, or to no slot and the root. */
  lemma {:induction false} Resolves(e: Env, sh: Shape, slots: seq<Value>, hidden: set<string>, x: string)
    requires Rel(e, sh, slots, hidden) && x != "" && x !in hidden
    ensures match ResolveLocal(Flat(sh), x)
            case Some(i) => i < |Flat(sh)| && Lookup(e, x) == Some(slots[i])
            case None => Lookup(e, x) == Lookup(Root(GlobalsOf(e)), x)
    decreases sh
  {
    match sh
    case Bottom =>
    case Opened(p) => Resolves(e.parent, p, slots, {}, x);
    case Named(y, p) =>
      assert Flat(sh)[..|Flat(sh)| - 1] == Flat(p);
      if y != x { Resolves(e, p, slots, hidden + {y}, x); }
    case Pad(v, p) =>
      assert Flat(sh)[..|Flat(sh)| - 1] == Flat(p);
      Resolves(e, p, slots, hidden, x);
  }

  /** Binding x in the innermost scope hides its earlier slots of that name. */
  lemma {:induction false} Hide(e: Env, sh: Shape, slots: seq<Value>, hidden: set<string>, x: string, v: Value)
    requires Rel(e, sh, slots, hidden) && e.Child?
    ensures Rel(BindLocal(e, x, v), sh, slots, hidden + {x})
    decreases sh
  {
    match sh
    case Bottom =>
    case Opened(p) =>
    case Named(y, p) =>
      Hide(e, p, slots, hidden + {y}, x, v);
      assert hidden + {y} + {x} == hidden + {x} + {y};
    case Pad(w, p) => Hide(e, p, slots, hidden, x, v);
  }

  /** set! of a local is a store to its slot. */
  lemma {:induction false} Assigns(e: Env, sh: Shape, slots: seq<Value>, hidden: set<string>, x: string, v: Value)
    requires Rel(e, sh, slots, hidden) && x != "" && x !in hidden
    requires ResolveLocal(Flat(sh), x).Some?
    ensures ResolveLocal(Flat(sh), x).value < |slots|
    ensures Rel(Rebind(e, x, v), sh, slots[ResolveLocal(Flat(sh), x).value := v], hidden)
    ensures GlobalsOf(Rebind(e, x, v)) == GlobalsOf(e)
    decreases sh
  {
    Resolves(e, sh, slots, hidden, x);
    var i := ResolveLocal(Flat(sh), x).value;
    match sh
    case Bottom =>
    case Opened(p) => Assigns(e.parent, p, slots, {}, x, v);
    case Named(y, p) =>
      assert Flat(sh)[..|Flat(sh)| - 1] == Flat(p);
      if y == x {
        Hide(e, p, slots, hidden + {x}, x, v);
        assert hidden + {x} + {x} == hidden + {x};
        assert slots[i := v][..|Flat(p)|] == slots[..|Flat(p)|];
        Frame(BindLocal(e, x, v), p, slots, slots[i := v], hidden + {x});
      } else {
        Assigns(e, p, slots, hidden + {y}, x, v);
        Resolves(e, p, slots, hidden + {y}, x);
      }
    case Pad(w, p) =>
      assert Flat(sh)[..|Flat(sh)| - 1] == Flat(p);
      Assigns(e, p, slots, hidden, x, v);
      Resolves(e, p, slots, hidden, x);
  }

  /** set! of a name no slot holds rebinds the root. */
  lemma {:induction false} AssignsRoot(e: Env, sh: Shape, slots: seq<Value>, hidden: set<string>, x: string, v: Value)
    requires Rel(e, sh, slots, hidden) && x != "" && x !in hidden
    requires ResolveLocal(Flat(sh), x).None?
    ensures Rel(Rebind(e, x, v), sh, slots, hidden)
    ensures GlobalsOf(Rebind(e, x, v)) == Rebind(Root(GlobalsOf(e)), x, v).g
    decreases sh
  {
    match sh
    case Bottom =>
    case Opened(p) => AssignsRoot(e.parent, p, slots, {}, x, v);
    case Named(y, p) =>
      assert Flat(sh)[..|Flat(sh)| - 1] == Flat(p);
      AssignsRoot(e, p, slots, hidden + {y}, x, v);
    case Pad(w, p) =>
      assert Flat(sh)[..|Flat(sh)| - 1] == Flat(p);
      AssignsRoot(e, p, slots, hidden, x, v);
  }

  /** A new binding takes the next slot. */
  lemma {:induction false} BindsNext(e: Env, sh: Shape, slots: seq<Value>, x: string, v: Value)
    requires Rel(e, sh, slots, {}) && e.Child? && x != "" && |Flat(sh)| < |slots|
    ensures Rel(BindLocal(e, x, v), Named(x, sh), slots[|Flat(sh)| := v], {})
  {
    var slots' := slots[|Flat(sh)| := v];
    assert slots'[..|Flat(sh)|] == slots[..|Flat(sh)|];
    Frame(e, sh, slots, slots', {});
    Hide(e, sh, slots', {}, x, v);
    assert {} + {x} == {x};
  }

  /** The enclosing scopes are where they were. */
  lemma {:induction false} Leaves(e: Env, sh: Shape, slots: seq<Value>, hidden: set<string>, p: Shape)
    requires Rel(e, sh, slots, hidden) && Within(sh, p)
    ensures e.Child? && Rel(e.parent, p, slots, {})
    decreases sh
  {
    match sh
    case Opened(q) =>
    case Named(x, q) => Leaves(e, q, slots, hidden + {x}, p);
    case Pad(v, q) => Leaves(e, q, slots, hidden, p);
  }

  lemma {:induction false} WithinNames(sh: Shape, names: seq<string>, p: Shape)
    requires Within(sh, p)
    ensures Within(NamedAll(sh, names), p)
    decreases |names|
  {
    if names != [] { WithinNames(Named(names[0], sh), names[1..], p); }
  }

  /** Values already in the next slots become bindings by naming the slots. */
  lemma {:induction false} NameSlots(vars: map<string, Value>, e: Env, sh: Shape, slots: seq<Value>, names: seq<string>,
      vs: seq<Value>)
    requires Rel(Child(vars, e), sh, slots, {}) && |names| == |vs|
    requires |Flat(sh)| + |vs| <= |slots|
    requires slots[|Flat(sh)|..|Flat(sh)| + |vs|] == vs
    requires forall i :: 0 <= i < |names| ==> names[i] != ""
    ensures Rel(Child(BindAll(vars, names, vs), e), NamedAll(sh, names), slots, {})
    decreases |names|
  {
    if names != [] {
      assert vs[0] == slots[|Flat(sh)|..|Flat(sh)| + |vs|][0];
      assert slots[|Flat(sh)| := vs[0]] == slots;
      BindsNext(Child(vars, e), sh, slots, names[0], vs[0]);
      assert slots[|Flat(sh)| + 1..|Flat(sh)| + |vs|] == slots[|Flat(sh)|..|Flat(sh)| + |vs|][1..];
      NameSlots(vars[names[0] := vs[0]], e, Named(names[0], sh), slots, names[1..], vs[1..]);
    }
  }

  /** The pads of a loop's initializers hold their values. */
  lemma {:induction false} Pads(e: Env, sh: Shape, slots: seq<Value>, vs: seq<Value>)
    requires Rel(e, PadAll(sh, vs), slots, {})
    ensures Rel(e, sh, slots, {}) && |Flat(sh)| + |vs| <= |slots|
    ensures slots[|Flat(sh)|..|Flat(sh)| + |vs|] == vs
    decreases |vs|
  {
    if vs != [] {
      Pads(e, Pad(vs[0], sh), slots, vs[1..]);
      assert slots[|Flat(sh)|..|Flat(sh)| + |vs|] == [slots[|Flat(sh)|]] + slots[|Flat(sh)| + 1..|Flat(sh)| + |vs|];
    }
  }

  /** The names bound in the innermost scope are exactly those its slots carry. */
  lemma {:induction false} KeysOf(e: Env, sh: Shape, names: seq<string>, slots: seq<Value>, hidden: set<string>)
    requires Rel(e, NamedAll(sh, names), slots, {})
    requires forall s, hid :: Rel(e, sh, s, hid) ==> e.Child? && e.vars.Keys == hid + hidden
    ensures e.Child? && e.vars.Keys == hidden + set x | x in names
    decreases |names|
  {
    if names == [] {
      assert (set x | x in names) == {};
    } else {
      var sh1 := Named(names[0], sh);
      forall s, hid | Rel(e, sh1, s, hid) ensures e.Child? && e.vars.Keys == hid + (hidden + {names[0]}) {
        assert Rel(e, sh, s, hid + {names[0]});
      }
      KeysOf(e, sh1, names[1..], slots, hidden + {names[0]});
      assert (set x | x in names) == {names[0]} + set x | x in names[1..];
    }
  }

  /** Rebinding every name of a scope forgets what they held. */
  lemma {:induction false} Overwrites(m: map<string, Value>, m': map<string, Value>, names: seq<string>, vs: seq<Value>)
    requires |names| == |vs|
    requires forall x :: x !in names ==> (x in m <==> x in m') && (x in m ==> m[x] == m'[x])
    ensures BindAll(m, names, vs) == BindAll(m', names, vs)
    decreases |names|
  {
    if names == [] {
      assert m == m';
    } else {
      Overwrites(m[names[0] := vs[0]], m'[names[0] := vs[0]], names[1..], vs[1..]);
    }
  }

  lemma {:induction false} Forgets(vars: map<string, Value>, e: Env, p: Shape, names: seq<string>, slots: seq<Value>,
      vs: seq<Value>)
    requires Rel(Child(vars, e), NamedAll(Opened(p), names), slots, {}) && |names| == |vs|
    ensures Rel(e, p, slots, {})
    ensures BindAll(vars, names, vs) == BindAll(map[], names, vs)
  {
    var e1 := Child(vars, e);
    WithinNames(Opened(p), names, p);
    Leaves(e1, NamedAll(Opened(p), names), slots, {}, p);
    forall s, hid | Rel(e1, Opened(p), s, hid) ensures e1.Child? && vars.Keys == hid + {} {}
    KeysOf(e1, Opened(p), names, slots, {});
    forall x | x !in names ensures x !in vars {
      assert x !in (set y | y in names);
    }
    Overwrites(vars, map[], names, vs);
  }

  /** recur rebinds the loop's names in the loop's slots. */
  lemma {:induction false} Rebinds(vars: map<string, Value>, e: Env, p: Shape, names: seq<string>, slots: seq<Value>,
      slots': seq<Value>, vs: seq<Value>)
    requires Rel(Child(vars, e), NamedAll(Opened(p), names), slots, {}) && |names| == |vs|
    requires |slots'| == |slots| && |Flat(p)| + |vs| <= |slots| && slots'[..|Flat(p)|] == slots[..|Flat(p)|]
    requires slots'[|Flat(p)|..|Flat(p)| + |vs|] == vs
    requires forall i :: 0 <= i < |names| ==> names[i] != ""
    ensures Rel(Child(BindAll(vars, names, vs), e), NamedAll(Opened(p), names), slots', {})
  {
    Forgets(vars, e, p, names, slots, vs);
    Frame(e, p, slots, slots', {});
    NameSlots(map[], e, Opened(p), slots', names, vs);
  }
}
