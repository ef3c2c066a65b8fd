/** A registration operation rolled back while others write to the same root. */
module Rollback {
  import opened Forms
  import opened Cells

  datatype Op =
    | PutVar(name: string, c: Content, ifVacant: bool)
    | PutFunc(name: string, c: Content, ifVacant: bool)
    | PutBoth(name: string, c: Content, ifVacant: bool)
    | Unbind(name: string)
    | MergeIn(items: seq<Item>)
    | Compact

  function Apply(r: Root, view: bool, op: Op): Root {
    match op
    case PutVar(name, c, ifVacant) => SetVar(r, view, name, c, ifVacant)
    case PutFunc(name, c, ifVacant) => SetFunc(r, view, name, c, ifVacant)
    case PutBoth(name, c, ifVacant) => SetBoth(r, view, name, c, ifVacant)
    case Unbind(name) => Delete(r, view, name)
    case MergeIn(items) => Merge(r, view, items)
    case Compact => Rebuild(r)
  }

  // ---- sequences of stores ----

  ghost predicate ByView(r: Root, r': Root) {
    Sound(r') && Later(r, r') && r'.journal.Some? && forall k :: SameAbort(r, r', k)
  }

  ghost predicate Foreign(r: Root, r': Root) {
    Sound(r') && Later(r, r') && r'.journal == r.journal && forall k :: Disowns(r, r', k)
  }

  /** What one kind of writer does; a view whose operation is over is an ordinary writer. */
  ghost predicate Writes(r: Root, r': Root, view: bool) {
    if view && r.journal.Some? then ByView(r, r') else Foreign(r, r')
  }

  lemma {:induction false} Nothing(r: Root, view: bool)
    requires Sound(r)
    ensures Writes(r, r, view)
  {
    hide Sound;
  }

  lemma {:induction false} LaterOn(r: Root, r1: Root, r2: Root)
    requires Later(r, r1) && Later(r1, r2)
    ensures Later(r, r2)
  {
  }

  /** The same cell at the same version holds the same. */
  lemma {:induction false} SameStamp(r: Root, r': Root, k: Key)
    requires Later(r, r') && Stamp(r, k) == Stamp(r', k)
    ensures Holds(r', k) == Holds(r, k)
  {
  }

  lemma {:induction false} StampOn(r: Root, r1: Root, r2: Root, k: Key)
    requires Later(r, r1) && Later(r1, r2)
    requires Bound(r, k) ==> Bound(r1, k) && r1.bound[k] == r.bound[k]
    requires Bound(r1, k) ==> Bound(r2, k) && r2.bound[k] == r1.bound[k]
    ensures Stamp(r2, k) == Stamp(r, k) <==> Stamp(r1, k) == Stamp(r, k) && Stamp(r2, k) == Stamp(r1, k)
  {
  }

  lemma {:induction false} Then(r: Root, r1: Root, r2: Root, view: bool)
    requires Writes(r, r1, view) && Writes(r1, r2, view)
    ensures Writes(r, r2, view)
  {
    hide Sound, Later, Expected, Holds, Stamp;
    LaterOn(r, r1, r2);
    if view && r.journal.Some? {
      forall k ensures SameAbort(r, r2, k) { assert SameAbort(r, r1, k) && SameAbort(r1, r2, k); }
    } else {
      forall k ensures Disowns(r, r2, k) {
        assert Disowns(r, r1, k) && Disowns(r1, r2, k);
        StampOn(r, r1, r2, k);
        if Stamp(r2, k) == Stamp(r1, k) { SameStamp(r1, r2, k); }
      }
    }
  }

  lemma {:induction false} Stores(r: Root, view: bool, k: Key, v: Option<Value>, canonical: bool)
    requires Sound(r) && (v.None? ==> !canonical)
    ensures Writes(r, Store(r, view, k, v, canonical), view)
  {
    StoreOk(r, view, k, v, canonical);
    StoreLater(r, view, k, v, canonical);
    forall x ensures if view && r.journal.Some? then SameAbort(r, Store(r, view, k, v, canonical), x)
        else Disowns(r, Store(r, view, k, v, canonical), x) {
      if view && r.journal.Some? { ViewStore(r, k, v, canonical, x); } else { ForeignStore(r, k, v, canonical, x); }
    }
    hide Sound, Later;
  }

  lemma {:induction false} NewGen(r: Root, r': Root, view: bool, g: nat)
    requires Writes(r, r', view)
    ensures Writes(r, r'.(gen := g), view)
  {
    var r2 := r'.(gen := g);
    forall k
      ensures Owned(r2, k) == Owned(r', k) && Expected(r2, k) == Expected(r', k)
      ensures Stamp(r2, k) == Stamp(r', k) && Holds(r2, k) == Holds(r', k)
    {
    }
    if view && r.journal.Some? {
      forall k ensures SameAbort(r, r2, k) { assert SameAbort(r, r', k); }
    } else {
      forall k ensures Disowns(r, r2, k) { assert Disowns(r, r', k); }
    }
  }

  lemma {:induction false} DeletesKey(r: Root, view: bool, k: Key)
    requires Sound(r)
    ensures Writes(r, DeleteKey(r, view, k), view)
  {
    hide Sound, Writes;
    Nothing(r, view);
    Stores(r, view, k, None, false);
  }

  lemma {:induction false} Good(r: Root, r': Root, view: bool)
    requires Writes(r, r', view)
    ensures Sound(r') && r'.journal.Some? == r.journal.Some? && Later(r, r')
  {
    hide Sound, Later;
  }

  lemma {:induction false} Merges(r: Root, view: bool, items: seq<Item>)
    requires Sound(r)
    ensures Writes(r, MergeAll(r, view, items), view)
    decreases |items|
  {
    hide Sound, Writes, Store;
    if items == [] {
      Nothing(r, view);
    } else {
      var it := items[0];
      Stores(r, view, it.k, Some(it.c.v), it.c.canonical);
      var r1 := Store(r, view, it.k, Some(it.c.v), it.c.canonical);
      var r2 := r1.(gen := if Bound(r, it.k) then r.gen else r.gen + 1);
      NewGen(r, r1, view, r2.gen);
      Good(r, r2, view);
      Merges(r2, view, items[1..]);
      Then(r, r2, MergeAll(r, view, items), view);
    }
  }

  /** Everything but a rebuild is a sequence of stores. */
  lemma {:induction false} Applies(r: Root, view: bool, op: Op)
    requires Sound(r) && !op.Compact?
    ensures Writes(r, Apply(r, view, op), view)
  {
    hide Sound, Writes, Store, Bound, Live, NewNames;
    Nothing(r, view);
    match op
    case PutVar(name, c, _) =>
      var k := Ref(name, false);
      Stores(r, view, k, Some(c.v), c.canonical);
      NewGen(r, Store(r, view, k, Some(c.v), c.canonical), view, if Live(r, k) then r.gen else r.gen + 1);
    case PutFunc(name, c, _) => Stores(r, view, Ref(name, true), Some(c.v), c.canonical);
    case PutBoth(name, c, _) =>
      var k := Ref(name, false);
      Stores(r, view, k, Some(c.v), c.canonical);
      var r1 := Store(r, view, k, Some(c.v), c.canonical).(gen := if Live(r, k) then r.gen else r.gen + 1);
      NewGen(r, Store(r, view, k, Some(c.v), c.canonical), view, r1.gen);
      Good(r, r1, view);
      Stores(r1, view, Ref(name, true), Some(c.v), c.canonical);
      Then(r, r1, Store(r1, view, Ref(name, true), Some(c.v), c.canonical), view);
    case Unbind(name) =>
      var r1 := DeleteKey(r, view, Ref(name, false));
      DeletesKey(r, view, Ref(name, false));
      Good(r, r1, view);
      DeletesKey(r1, view, Ref(name, true));
      Then(r, r1, DeleteKey(r1, view, Ref(name, true)), view);
    case MergeIn(items) => Merges(r, view, items);
  }

  // ---- rebuild, abort ----

  lemma {:induction false} RebuildKeeps(r: Root)
    requires Sound(r)
    ensures var r' := Rebuild(r);
            && Sound(r') && Later(r, r') && r'.journal == r.journal
            && forall k :: Expected(r', k) == Expected(r, k) && Holds(r', k) == Holds(r, k)
  {
    var r' := Rebuild(r);
    forall k ensures Owned(r', k) == Owned(r, k) && Expected(r', k) == Expected(r, k) && Holds(r', k) == Holds(r, k) {}
  }

  lemma {:induction false} Minus(m: map<Key, nat>, gone: set<Key>, m': map<Key, nat>)
    requires gone <= m.Keys && m' == map k | k in m && k !in gone :: m[k]
    ensures |m'| == |m| - |gone|
  {
    assert m'.Keys == m.Keys - gone;
  }

  lemma {:induction false} AbortSlots(r: Root)
    requires Sound(r) && r.journal.Some?
    ensures Abort(r).slots == |Abort(r).bound|
  {
    hide AbortCell, CellsOk, JournalOk;
    var owned := set k | k in r.journal.value && Owned(r, k);
    var gone := set k | k in owned && Removed(r, k);
    Minus(r.bound, gone, Abort(r).bound);
  }

  lemma {:induction false} AbortCellAt(r: Root, id: nat)
    requires Sound(r) && id < |r.cells|
    ensures var c, c' := r.cells[id], AbortCell(r, id);
            && c'.home == c.home && c.version <= c'.version && (c'.version == c.version ==> c' == c)
            && (c'.v.None? ==> !c'.canonical)
            && (c'.v.Some? ==> c.home in r.bound && r.bound[c.home] == id && !Removed(r, c.home))
  {
  }

  lemma {:induction false} AbortShape(r: Root)
    requires Sound(r) && r.journal.Some?
    ensures var r' := Abort(r);
            && |r'.cells| == |r.cells| && (forall id :: 0 <= id < |r.cells| ==> r'.cells[id] == AbortCell(r, id))
            && (forall k :: k in r'.bound <==> k in r.bound && !Removed(r, k))
            && (forall k :: k in r'.bound ==> r'.bound[k] == r.bound[k])
  {
    hide AbortCell, JournalOk;
  }

  lemma {:induction false} AbortCells(r: Root)
    requires Sound(r) && r.journal.Some?
    ensures CellsOk(Abort(r)) && Later(r, Abort(r))
  {
    hide AbortCell, Abort, Removed, JournalOk, Owned;
    AbortShape(r);
    var r' := Abort(r);
    forall id | 0 <= id < |r.cells|
      ensures var c, c' := r.cells[id], r'.cells[id];
              && c'.home == c.home && c.version <= c'.version && (c'.version == c.version ==> c' == c)
              && (c'.v.None? ==> !c'.canonical) && (c'.v.Some? ==> c.home in r'.bound && r.bound[c.home] == id)
    {
      AbortCellAt(r, id);
    }
  }

  lemma {:induction false} AbortHolds(r: Root, k: Key)
    requires Sound(r) && r.journal.Some?
    ensures Holds(Abort(r), k) == Expected(r, k)
  {
    if Bound(r, k) {
      OwnCell(r, k);
      assert Abort(r).cells[r.bound[k]] == AbortCell(r, r.bound[k]);
    }
    hide CellsOk, JournalOk;
  }

  /** After an abort every binding is what the journal expected, and the root is sound again. */
  lemma {:induction false} AbortRestores(r: Root)
    requires Sound(r)
    ensures var r' := Abort(r);
            Sound(r') && Later(r, r') && r'.journal.None? && forall k :: Holds(r', k) == Expected(r, k)
  {
    if r.journal.Some? {
      AbortSlots(r);
      AbortCells(r);
      forall k ensures Holds(Abort(r), k) == Expected(r, k) { AbortHolds(r, k); }
      hide CellsOk, Later, Expected, Holds;
    }
  }

  // ---- whole operations ----

  datatype Step = Step(view: bool, op: Op)

  function Run(r: Root, steps: seq<Step>): Root {
    if steps == [] then r
    else
      var last := steps[|steps| - 1];
      Apply(Run(r, steps[..|steps| - 1]), last.view, last.op)
  }

  /** A step wrote k: k leads to another cell, or its cell was written. */
  predicate Effective(r: Root, r': Root, k: Key) {
    Bound(r', k) && Stamp(r', k) != Stamp(r, k)
  }

  /** What the last effective foreign write to k left, or what k held at the start. */
  function Left(r: Root, steps: seq<Step>, k: Key): Option<Content> {
    if steps == [] then Holds(r, k)
    else
      var n := |steps| - 1;
      var before, after := Run(r, steps[..n]), Run(r, steps);
      if !steps[n].view && Effective(before, after, k) then Holds(after, k) else Left(r, steps[..n], k)
  }

  lemma {:induction false} StepExpects(r: Root, s: Step, k: Key)
    requires Sound(r) && r.journal.Some?
    ensures var r' := Apply(r, s.view, s.op);
            && Sound(r') && r'.journal.Some? && Later(r, r')
            && Expected(r', k) == if !s.view && Effective(r, r', k) then Holds(r', k) else Expected(r, k)
  {
    hide Sound, Later, Expected, Holds;
    var r' := Apply(r, s.view, s.op);
    if s.op.Compact? {
      RebuildKeeps(r);
      RebuildStamps(r, k);
    } else {
      Applies(r, s.view, s.op);
      hide Apply;
      if s.view { assert SameAbort(r, r', k); } else { assert Disowns(r, r', k); }
    }
  }

  lemma {:induction false} RebuildStamps(r: Root, k: Key)
    requires Sound(r)
    ensures !Effective(r, Rebuild(r), k)
  {
  }

  lemma {:induction false} RunExpects(r: Root, steps: seq<Step>, k: Key)
    requires Sound(r) && r.journal == Some(map[])
    ensures var r' := Run(r, steps);
            Sound(r') && r'.journal.Some? && Later(r, r') && Expected(r', k) == Left(r, steps, k)
    decreases |steps|
  {
    if steps == [] {
    } else {
      hide Sound, Later, Expected, Holds, Apply, Effective;
      var n := |steps| - 1;
      RunExpects(r, steps[..n], k);
      StepExpects(Run(r, steps[..n]), steps[n], k);
      LaterOn(r, Run(r, steps[..n]), Run(r, steps));
    }
  }

  /** Rollback under interference: after any interleaving of writes through the view and foreign
      writes, an abort leaves in every binding exactly what the last effective foreign write left
      there, or what it held before the operation; and the slot count is exact again. */
  lemma {:induction false} RollbackExact(r: Root, steps: seq<Step>, k: Key)
    requires Sound(r) && r.journal.None?
    ensures var r' := Abort(Run(Begin(r), steps));
            && Holds(r', k) == Left(Begin(r), steps, k)
            && Sound(r') && r'.journal.None? && r'.slots == |r'.bound| && Later(r, r')
  {
    RunExpects(Begin(r), steps, k);
    hide Later, Expected, Holds, Run;
    AbortRestores(Run(Begin(r), steps));
    LaterOn(Begin(r), Run(Begin(r), steps), Abort(Run(Begin(r), steps)));
    BeginLater(r);
    LaterOn(r, Begin(r), Abort(Run(Begin(r), steps)));
  }

  lemma {:induction false} BeginLater(r: Root)
    ensures Later(r, Begin(r))
  {
  }
}
