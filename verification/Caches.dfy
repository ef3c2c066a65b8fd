/** Cached resolutions of a root's bindings: the site cache of a compiled chunk and the call cache
    of the engine, read in states later than the one they were filled in. */
module Caches {
  import opened Forms
  import opened Cells
  import opened Rollback

  // ---- runs that may begin and end operations ----

  datatype Event = Wrote(view: bool, op: Op) | Began | Completed | Aborted

  function Next(r: Root, e: Event): Root {
    match e
    case Wrote(view, op) => Apply(r, view, op)
    case Began => Begin(r)
    case Completed => Complete(r)
    case Aborted => Abort(r)
  }

  function History(r: Root, es: seq<Event>): Root {
    if es == [] then r else Next(History(r, es[..|es| - 1]), es[|es| - 1])
  }

  lemma {:induction false} NextSound(r: Root, e: Event)
    requires Sound(r)
    ensures Sound(Next(r, e)) && Later(r, Next(r, e))
  {
    hide Later, Sound;
    match e
    case Wrote(view, op) =>
      if op.Compact? {
        RebuildKeeps(r);
      } else {
        Applies(r, view, op);
        Good(r, Apply(r, view, op), view);
      }
    case Began =>
      BeginLater(r);
      EndsSound(r);
    case Completed =>
      CompleteLater(r);
      EndsSound(r);
    case Aborted => AbortRestores(r);
  }

  lemma {:induction false} EndsSound(r: Root)
    requires Sound(r)
    ensures Sound(Begin(r)) && Sound(Complete(r))
  {
  }

  lemma {:induction false} CompleteLater(r: Root)
    ensures Later(r, Complete(r))
  {
  }

  /** Whatever happens to a root, its cells stay apart, its slot count is the number of bindings,
      and its cells only move forward. */
  lemma {:induction false} HistorySound(r: Root, es: seq<Event>)
    requires Sound(r)
    ensures Sound(History(r, es)) && Later(r, History(r, es))
    decreases |es|
  {
    if es == [] {
    } else {
      hide Sound, Later, Next;
      var n := |es| - 1;
      HistorySound(r, es[..n]);
      NextSound(History(r, es[..n]), es[n]);
      LaterOn(r, History(r, es[..n]), History(r, es));
    }
  }

  /** Retained slots are exact, and no two names share a cell. */
  lemma {:induction false} RetainedExact(limit: nat, es: seq<Event>, k: Key, k': Key)
    ensures var r := History(NewRoot(limit), es);
            && r.slots == |r.bound|
            && (k in r.bound && k' in r.bound && k != k' ==> r.bound[k] != r.bound[k'])
  {
    SoundNew(limit);
    HistorySound(NewRoot(limit), es);
    hide Later, History;
  }

  // ---- snapshots ----

  /** A cached resolution: the cell k led to, what it held and at which version, and a generation.
      Where the cell held nothing when it was read, there is no content and no version. */
  datatype Snapshot = Snapshot(k: Key, cell: nat, c: Option<Content>, ver: nat, gen: nat)

  /** The cell as it is now. It was resolved before, and the generation is read at yet another
      moment, so it may be any. */
  function Take(r: Root, k: Key, cell: nat, gen: nat): Snapshot
    requires cell < |r.cells|
  {
    var c := r.cells[cell];
    Snapshot(k, cell, Reading(c), if c.v.Some? then c.version else 0, gen)
  }

  /** What holds of a cell from when a name leads to it on. */
  predicate Led(r: Root, k: Key, cell: nat) {
    cell < |r.cells| && r.cells[cell].home == k && r.cells[cell].version > 0
  }

  /** What holds of a snapshot from when it is taken on. */
  predicate Fits(r: Root, s: Snapshot) {
    && Led(r, s.k, s.cell)
    && (s.c.Some? ==> s.ver <= r.cells[s.cell].version)
    && (s.c.Some? && s.ver == r.cells[s.cell].version ==> Reading(r.cells[s.cell]) == s.c)
  }

  lemma {:induction false} LiveLeads(r: Root, k: Key)
    requires Sound(r) && Live(r, k)
    ensures Led(r, k, r.bound[k])
  {
  }

  lemma {:induction false} LedOn(r: Root, r': Root, k: Key, cell: nat)
    requires Led(r, k, cell) && Later(r, r')
    ensures Led(r', k, cell)
  {
  }

  lemma {:induction false} FitsOn(r: Root, r': Root, s: Snapshot)
    requires Fits(r, s) && Later(r, r')
    ensures Fits(r', s)
  {
  }

  /** The name is resolved, its cell read some events later, and the snapshot kept for some more. */
  lemma {:induction false} Kept(r: Root, k: Key, gen: nat, es: seq<Event>, es': seq<Event>)
    requires Sound(r) && Live(r, k)
    ensures r.bound[k] < |History(r, es).cells|
    ensures var r' := History(History(r, es), es');
      Sound(r') && Fits(r', Take(History(r, es), k, r.bound[k], gen))
  {
    hide Sound, Later, History;
    LiveLeads(r, k);
    HistorySound(r, es);
    var r1 := History(r, es);
    LedOn(r, r1, k, r.bound[k]);
    HistorySound(r1, es');
    FitsOn(r1, History(r1, es'), Take(r1, k, r.bound[k], gen));
  }

  /** A cell that is live is still where its name leads. */
  lemma {:induction false} LiveIsCurrent(r: Root, s: Snapshot)
    requires Sound(r) && Fits(r, s)
    ensures Reading(r.cells[s.cell]).Some? ==> Holds(r, s.k) == Reading(r.cells[s.cell])
  {
  }

  // ---- the site cache ----

  /** Reading through a site, which is filled only from a live cell: the snapshot while generation
      and version match, the cell itself after it was written, a new lookup otherwise. */
  function ReadSite(r: Root, s: Snapshot): Option<Content>
    requires s.cell < |r.cells|
  {
    var ver := r.cells[s.cell].version;
    if s.gen == r.gen && ver == s.ver then s.c
    else if ver != s.ver then
      if r.cells[s.cell].v.Some? then Reading(r.cells[s.cell]) else Holds(r, s.k)
    else Holds(r, s.k)
  }

  /** A site filled at any moment of any history reads what a lookup would, in either namespace. */
  lemma {:induction false} SiteSound(r: Root, k: Key, gen: nat, es: seq<Event>, es': seq<Event>)
    requires Sound(r) && Live(r, k)
    ensures var r1 := History(r, es);
      && r.bound[k] < |r1.cells|
      && var s, r' := Take(r1, k, r.bound[k], gen), History(r1, es');
      && s.cell < |r'.cells| && (s.c.Some? ==> ReadSite(r', s) == Holds(r', k))
  {
    hide Sound, Later, History;
    Kept(r, k, gen, es, es');
    LiveIsCurrent(History(History(r, es), es'), Take(History(r, es), k, r.bound[k], gen));
  }

  // ---- the call cache ----

  /** What a call of name invokes: under Lisp-2 the function cell, then the value cell. */
  function Callee(r: Root, name: string, lisp2: bool): Option<Value> {
    var f, v := Holds(r, Ref(name, true)), Holds(r, Ref(name, false));
    var c := if lisp2 && f.Some? then f else v;
    if c.Some? then Some(c.value.v) else None
  }

  /** A call through a cache entry, which is never the Lisp-2 fallback to the value cell: on the
      lean path the cached value, if there is one, at an unchanged version, on the other the cell's
      own value; anything else resolves anew. */
  function CallThrough(r: Root, s: Snapshot, name: string, lisp2: bool, lean: bool): Option<Value>
    requires s.cell < |r.cells|
  {
    var c := r.cells[s.cell];
    if s.gen != r.gen then Callee(r, name, lisp2)
    else if lean && c.version == s.ver && s.c.Some? then Some(s.c.value.v)
    else if !lean && c.v.Some? then c.v
    else Callee(r, name, lisp2)
  }

  /** An entry resolved at one moment, read at a later one, live or not, and used at a third calls
      what resolving the name then would. */
  lemma {:induction false} CallSound(r: Root, name: string, lisp2: bool, gen: nat, lean: bool, es: seq<Event>,
      es': seq<Event>)
    requires Sound(r) && Live(r, Ref(name, lisp2))
    ensures var k, r1 := Ref(name, lisp2), History(r, es);
      && r.bound[k] < |r1.cells|
      && var s, r' := Take(r1, k, r.bound[k], gen), History(r1, es');
      && s.cell < |r'.cells| && CallThrough(r', s, name, lisp2, lean) == Callee(r', name, lisp2)
  {
    hide Sound, Later, History;
    var k := Ref(name, lisp2);
    Kept(r, k, gen, es, es');
    LiveIsCurrent(History(History(r, es), es'), Take(History(r, es), k, r.bound[k], gen));
  }

  lemma {:induction false} ValueBound(name: string, v: Value)
    ensures var r := SetVar(NewRoot(0), false, name, Content(v, false), false);
      && Sound(r) && r.limit == 0 && Ref(name, true) !in r.bound
      && Holds(r, Ref(name, false)) == Some(Content(v, false))
  {
    hide Sound;
    SoundNew(0);
    StoreOk(NewRoot(0), false, Ref(name, false), Some(v), false);
    BumpSound(Store(NewRoot(0), false, Ref(name, false), Some(v), false));
  }

  lemma {:induction false} BumpSound(r: Root)
    requires Sound(r)
    ensures Sound(r.(gen := r.gen + 1))
  {
  }

  /** Binding the function cell adds a cell and moves no generation. */
  lemma {:induction false} FuncBound(r: Root, name: string, f: Value)
    requires Ref(name, true) !in r.bound && r.limit == 0
    ensures var r' := SetFunc(r, false, name, Content(f, false), false);
      && r'.gen == r.gen && |r'.cells| >= |r.cells| && Holds(r', Ref(name, true)) == Some(Content(f, false))
      && forall id :: 0 <= id < |r.cells| && id != NewCell(r, Ref(name, true)) ==> r'.cells[id] == r.cells[id]
  {
  }

  /** Caching the fallback would be wrong: a function cell bound later does not move the
      generation. */
  lemma {:induction false} FallbackNotCacheable(name: string, v: Value, f: Value)
    requires v != f
    ensures var r := SetVar(NewRoot(0), false, name, Content(v, false), false);
            && Sound(r) && Live(r, Ref(name, false))
            && var s, r' := Take(r, Ref(name, false), r.bound[Ref(name, false)], r.gen),
                History(r, [Wrote(false, PutFunc(name, Content(f, false), false))]);
            s.cell < |r'.cells| && CallThrough(r', s, name, true, true) == Some(v) && Callee(r', name, true) == Some(f)
  {
    hide Sound, SetVar, SetFunc;
    var r := SetVar(NewRoot(0), false, name, Content(v, false), false);
    ValueBound(name, v);
    FuncBound(r, name, f);
    var es := [Wrote(false, PutFunc(name, Content(f, false), false))];
    assert es[..0] == [] && History(r, []) == r;
    assert History(r, es) == SetFunc(r, false, name, Content(f, false), false);
  }
}
