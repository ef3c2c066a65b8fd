/** A root environment's bindings: storage cells shared by identity, and the journal of the
    registration operation that may be running on it. */
module Cells {
  import opened Forms

  /** A binding: a name in the value or in the function namespace. */
  datatype Key = Ref(name: string, fn: bool)

  /** A storage cell. v is None once the binding is deleted. home is the binding the cell was made
      for; the program does not store it. */
  datatype Cell = Cell(home: Key, v: Option<Value>, canonical: bool, version: nat)

  /** The journal's before-image of a binding and the operation's last write to it. */
  datatype Ent = Ent(prior: Option<nat>, v: Option<Value>, canonical: bool, last: nat, lastVer: nat, slots: nat)

  /** Cells are identified by their index; cell 0 is the one stored inline, free until its first
      write. limit is the most bindings allowed, 0 for no limit. */
  datatype Root = Root(
    cells: seq<Cell>, bound: map<Key, nat>, slots: int, limit: nat, gen: nat, epoch: nat,
    journal: Option<map<Key, Ent>>)

  function NewRoot(limit: nat): Root {
    Root([Cell(Ref("", false), None, false, 0)], map[], 0, limit, 0, 0, None)
  }

  // ---- what a binding holds ----

  datatype Content = Content(v: Value, canonical: bool)

  function Reading(c: Cell): Option<Content> {
    match c.v case Some(v) => Some(Content(v, c.canonical)) case None => None
  }

  predicate Bound(r: Root, k: Key) {
    k in r.bound && r.bound[k] < |r.cells|
  }

  function CellOf(r: Root, k: Key): Cell
    requires Bound(r, k)
  {
    r.cells[r.bound[k]]
  }

  function Holds(r: Root, k: Key): Option<Content> {
    if Bound(r, k) then Reading(CellOf(r, k)) else None
  }

  // ---- the journal ----

  /** The operation's last write to k is still the current state of k. */
  predicate Owned(r: Root, k: Key) {
    && r.journal.Some? && k in r.journal.value && Bound(r, k)
    && var e := r.journal.value[k];
    r.bound[k] == e.last && CellOf(r, k).version == e.lastVer
  }

  /** The before-image is taken at the first write, and again after a foreign write. */
  function Before(r: Root, k: Key): Ent {
    if Owned(r, k) then r.journal.value[k]
    else
      var kept := if r.journal.Some? && k in r.journal.value then r.journal.value[k].slots else 0;
      if Bound(r, k) then Ent(Some(r.bound[k]), CellOf(r, k).v, CellOf(r, k).canonical, 0, 0, kept)
      else Ent(None, None, false, 0, 0, kept)
  }

  // ---- writes ----

  /** The cell for a new binding: the inline one while it is unused, otherwise a new one. */
  function NewCell(r: Root, k: Key): nat {
    if !k.fn && r.cells != [] && r.cells[0].version == 0 then 0 else |r.cells|
  }

  predicate Fits(r: Root, more: nat) {
    r.limit == 0 || r.slots + more <= r.limit
  }

  function CellOr(cells: seq<Cell>, id: nat, k: Key): Cell {
    if id < |cells| then cells[id] else Cell(k, None, false, 0)
  }

  function SetCell(cells: seq<Cell>, id: nat, c: Cell): seq<Cell> {
    if id < |cells| then cells[id := c] else cells + [c]
  }

  /** Writes k's cell, creating it if there is none, and bumps its version. */
  function Store(r: Root, view: bool, k: Key, v: Option<Value>, canonical: bool): Root {
    var added := !Bound(r, k);
    var id := if added then NewCell(r, k) else r.bound[k];
    var ver := CellOr(r.cells, id, k).version + 1;
    var j := if view && r.journal.Some?
             then Some(r.journal.value[k := Before(r, k).(
               last := id, lastVer := ver, slots := if added then 1 else Before(r, k).slots)])
             else r.journal;
    r.(cells := SetCell(r.cells, id, Cell(k, v, canonical, ver)),
       bound := r.bound[k := id], slots := if added then r.slots + 1 else r.slots, journal := j)
  }

  predicate Live(r: Root, k: Key) {
    Holds(r, k).Some?
  }

  function NewNames(r: Root, ks: seq<Key>): nat {
    if ks == [] then 0 else (if Bound(r, ks[0]) then 0 else 1) + NewNames(r, ks[1..])
  }

  /** A new or revived name in the value namespace moves the generation. */
  function SetVar(r: Root, view: bool, name: string, c: Content, ifVacant: bool): Root {
    var k := Ref(name, false);
    if ifVacant && Live(r, k) then r
    else if !Bound(r, k) && !Fits(r, 1) then r
    else Store(r, view, k, Some(c.v), c.canonical).(gen := if Live(r, k) then r.gen else r.gen + 1)
  }

  function SetFunc(r: Root, view: bool, name: string, c: Content, ifVacant: bool): Root {
    var k := Ref(name, true);
    if ifVacant && Live(r, k) then r
    else if !Bound(r, k) && !Fits(r, 1) then r
    else Store(r, view, k, Some(c.v), c.canonical)
  }

  /** Both cells or neither. */
  function SetBoth(r: Root, view: bool, name: string, c: Content, ifVacant: bool): Root {
    var v, f := Ref(name, false), Ref(name, true);
    var more := NewNames(r, [v, f]);
    if ifVacant && (Live(r, v) || Live(r, f)) then r
    else if more > 0 && !Fits(r, more) then r
    else Store(Store(r, view, v, Some(c.v), c.canonical).(gen := if Live(r, v) then r.gen else r.gen + 1), view, f,
        Some(c.v), c.canonical)
  }

  /** Deleting a dead binding is not a write. */
  function DeleteKey(r: Root, view: bool, k: Key): Root {
    if Bound(r, k) && (CellOf(r, k).v.Some? || CellOf(r, k).canonical) then Store(r, view, k, None, false) else r
  }

  function Delete(r: Root, view: bool, name: string): Root {
    DeleteKey(DeleteKey(r, view, Ref(name, false)), view, Ref(name, true))
  }

  predicate Stays(r: Root, k: Key) {
    Live(r, k) || Owned(r, k)
  }

  /** Dead bindings go, but for those an abort would restore in place. */
  function Rebuild(r: Root): Root {
    var kept := map k | k in r.bound && Stays(r, k) :: r.bound[k];
    r.(bound := kept, slots := |kept|, gen := r.gen + 1)
  }

  datatype Item = Item(k: Key, c: Content)

  function Keys(items: seq<Item>): seq<Key> {
    seq(|items|, i requires 0 <= i < |items| => items[i].k)
  }

  /** A merge lands whole or not at all; only a new cell moves the generation. */
  function Merge(r: Root, view: bool, items: seq<Item>): Root {
    var more := NewNames(r, Keys(items));
    if more > 0 && !Fits(r, more) then r else MergeAll(r, view, items)
  }

  function MergeAll(r: Root, view: bool, items: seq<Item>): Root
    decreases |items|
  {
    if items == [] then r
    else
      var it := items[0];
      MergeAll(Store(r, view, it.k, Some(it.c.v), it.c.canonical).(gen := if Bound(r, it.k) then r.gen else r.gen + 1),
          view, items[1..])
  }

  // ---- the operation ----

  function Begin(r: Root): Root {
    if r.journal.Some? then r else r.(journal := Some(map[]))
  }

  function Complete(r: Root): Root {
    r.(journal := None)
  }

  /** The binding the operation created and still owns: abort removes it. */
  predicate Removed(r: Root, k: Key) {
    Owned(r, k) && r.journal.value[k].prior.None?
  }

  function AbortCell(r: Root, id: nat): Cell
    requires id < |r.cells|
  {
    var c := r.cells[id];
    if Owned(r, c.home) && r.bound[c.home] == id then
      var e := r.journal.value[c.home];
      if e.prior.None? then Cell(c.home, None, false, c.version + 1) else Cell(c.home, e.v, e.canonical, c.version + 1)
    else c
  }

  /** Every owned binding goes back to its before-image. */
  function Abort(r: Root): Root {
    if r.journal.None? then r
    else
      var owned := set k | k in r.journal.value && Owned(r, k);
      var gone := set k | k in owned && Removed(r, k);
      r.(cells := seq(|r.cells|, id requires 0 <= id < |r.cells| => AbortCell(r, id)),
         bound := map k | k in r.bound && k !in gone :: r.bound[k],
         slots := r.slots - |gone|,
         gen := if owned != {} then r.gen + 1 else r.gen,
         epoch := if owned != {} then r.epoch + 1 else r.epoch,
         journal := None)
  }

  // ---- what every step keeps ----

  /** Every cell belongs to one binding: a bound name leads to a cell of its own, and a live cell
      is where its name leads. So no two names share a cell, and a dropped cell stays dead. */
  predicate CellsOk(r: Root) {
    && r.cells != []
    && (forall k :: k in r.bound ==>
         r.bound[k] < |r.cells| && r.cells[r.bound[k]].home == k && r.cells[r.bound[k]].version > 0)
    && (forall id :: 0 <= id < |r.cells| ==>
          && (r.cells[id].v.Some? ==> r.cells[id].home in r.bound && r.bound[r.cells[id].home] == id)
          && (r.cells[id].v.None? ==> !r.cells[id].canonical)
          && (id > 0 ==> r.cells[id].version > 0))
  }

  predicate JournalOk(r: Root) {
    r.journal.Some? ==> forall k :: k in r.journal.value ==>
      var e := r.journal.value[k];
      && e.last < |r.cells| && r.cells[e.last].home == k && 0 < e.lastVer <= r.cells[e.last].version
      && (e.prior.None? ==> e.slots == 1 && e.v.None?) && (e.prior.Some? ==> e.prior.value == e.last)
      && (e.v.None? ==> !e.canonical)
  }

  predicate Sound(r: Root) {
    CellsOk(r) && JournalOk(r) && r.slots == |r.bound|
  }

  lemma {:induction false} SoundNew(limit: nat)
    ensures Sound(NewRoot(limit))
  {
  }

  lemma {:induction false} SizePut(m: map<Key, nat>, k: Key, v: nat)
    ensures |m[k := v]| == |m| + if k in m then 0 else 1
  {
    if k in m {
      assert m[k := v].Keys == m.Keys;
    } else {
      assert m[k := v].Keys == m.Keys + {k};
    }
  }

  /** The cell a store writes is k's own, or one no binding uses. */
  lemma {:induction false} StoreAt(r: Root, view: bool, k: Key, v: Option<Value>, canonical: bool) returns (id: nat)
    requires CellsOk(r)
    ensures var r' := Store(r, view, k, v, canonical);
            && Bound(r', k) && r'.bound == r.bound[k := id] && id <= |r.cells|
            && r'.cells == SetCell(r.cells, id, Cell(k, v, canonical, CellOr(r.cells, id, k).version + 1))
            && (Bound(r, k) ==>
                 id == r.bound[k] && CellOr(r.cells, id, k).home == k && CellOr(r.cells, id, k).version > 0)
            && (!Bound(r, k) ==>
                 CellOr(r.cells, id, k).version == 0 && k !in r.bound && forall x :: x in r.bound ==> r.bound[x] != id)
  {
    hide Before;
    id := Store(r, view, k, v, canonical).bound[k];
  }

  /** What a store does, cell by cell. */
  lemma {:induction false} StoreCells(r: Root, view: bool, k: Key, v: Option<Value>, canonical: bool)
    requires Sound(r) && (v.None? ==> !canonical)
    ensures var r' := Store(r, view, k, v, canonical);
            && CellsOk(r') && Bound(r', k) && |r.cells| <= |r'.cells| && r'.slots == |r'.bound|
            && (var id := r'.bound[k];
                && r'.cells[id] == Cell(k, v, canonical, if id < |r.cells| then r.cells[id].version + 1 else 1)
                && (id < |r.cells| ==> r.cells[id].home == k || r.cells[id].version == 0)
                && (Bound(r, k) <==> id < |r.cells| && r.cells[id].version > 0) && (Bound(r, k) ==> r.bound[k] == id)
                && (forall i :: 0 <= i < |r.cells| && i != id ==> r'.cells[i] == r.cells[i])
                && |r'.cells| == if id < |r.cells| then |r.cells| else |r.cells| + 1)
  {
    var id := StoreAt(r, view, k, v, canonical);
    var r' := Store(r, view, k, v, canonical);
    SizePut(r.bound, k, id);
    assert r'.slots == if Bound(r, k) then r.slots else r.slots + 1;
    hide Store;
    StoredOk(r, r', k, v, canonical, id);
  }

  lemma {:induction false} StoredOk(r: Root, r': Root, k: Key, v: Option<Value>, canonical: bool, id: nat)
    requires CellsOk(r) && (v.None? ==> !canonical) && r'.bound == r.bound[k := id] && id <= |r.cells|
    requires r'.cells == SetCell(r.cells, id, Cell(k, v, canonical, CellOr(r.cells, id, k).version + 1))
    requires Bound(r, k) ==> id == r.bound[k]
    requires !Bound(r, k) ==> k !in r.bound && forall x :: x in r.bound ==> r.bound[x] != id
    ensures CellsOk(r')
  {
  }

  lemma {:induction false} StoreOk(r: Root, view: bool, k: Key, v: Option<Value>, canonical: bool)
    requires Sound(r) && (v.None? ==> !canonical)
    ensures Sound(Store(r, view, k, v, canonical))
  {
    var r' := Store(r, view, k, v, canonical);
    StoreCells(r, view, k, v, canonical);
    hide CellsOk;
    if r.journal.Some? {
      forall x | x in r'.journal.value && x != k
        ensures x in r.journal.value && r'.journal.value[x] == r.journal.value[x]
      {}
      BeforeOk(r, k);
    }
  }

  lemma {:induction false} BeforeOk(r: Root, k: Key)
    requires Sound(r)
    ensures var e := Before(r, k);
            && (e.v.None? ==> !e.canonical) && (e.prior.None? ==> e.v.None?) && (!Bound(r, k) ==> e.prior.None?)
            && (Bound(r, k) ==> (e.prior.Some? ==> e.prior.value == r.bound[k]) && (e.prior.None? ==> e.slots == 1))
  {
  }

  // ---- later states ----

  /** Cells only move forward: an unchanged version means an unchanged cell. */
  predicate Later(r: Root, r': Root) {
    && |r.cells| <= |r'.cells|
    && forall id :: 0 <= id < |r.cells| ==>
         && r.cells[id].version <= r'.cells[id].version
         && (r.cells[id].version == r'.cells[id].version ==> r'.cells[id] == r.cells[id])
         && (r.cells[id].version > 0 ==> r'.cells[id].home == r.cells[id].home)
  }

  /** Where k leads and how often its cell was written. */
  function Stamp(r: Root, k: Key): Option<(nat, nat)> {
    if Bound(r, k) then Some((r.bound[k], CellOf(r, k).version)) else None
  }

  /** What k would hold after an abort. */
  function Expected(r: Root, k: Key): Option<Content> {
    if Owned(r, k) then
      var e := r.journal.value[k];
      match e.v case Some(v) => Some(Content(v, e.canonical)) case None => None
    else Holds(r, k)
  }

  /** Bindings are kept and nothing an abort would do has changed. */
  predicate SameAbort(r: Root, r': Root, k: Key) {
    Expected(r', k) == Expected(r, k) && (Bound(r, k) ==> Bound(r', k) && r'.bound[k] == r.bound[k])
  }

  /** A foreign write disowns the bindings it touches and no others. */
  predicate Disowns(r: Root, r': Root, k: Key) {
    && Expected(r', k) == (if Stamp(r', k) == Stamp(r, k) then Expected(r, k) else Holds(r', k))
    && (Bound(r, k) ==> Bound(r', k) && r'.bound[k] == r.bound[k])
  }

  lemma {:induction false} StoreLater(r: Root, view: bool, k: Key, v: Option<Value>, canonical: bool)
    requires Sound(r) && (v.None? ==> !canonical)
    ensures Later(r, Store(r, view, k, v, canonical))
  {
    hide Store, Sound;
    StoreCells(r, view, k, v, canonical);
  }

  lemma {:induction false} StoreElsewhere(r: Root, view: bool, k: Key, v: Option<Value>, canonical: bool, x: Key)
    requires Sound(r) && (v.None? ==> !canonical) && x != k
    ensures var r' := Store(r, view, k, v, canonical);
            && (Bound(r', x) <==> Bound(r, x))
            && (Bound(r, x) ==> r'.bound[x] == r.bound[x] && CellOf(r', x) == CellOf(r, x))
            && (Owned(r', x) <==> Owned(r, x)) && Expected(r', x) == Expected(r, x)
  {
    StoreCells(r, view, k, v, canonical);
    hide Before, CellsOk, JournalOk;
    var r' := Store(r, view, k, v, canonical);
    if Bound(r, x) { OwnCell(r, x); }
  }

  lemma {:induction false} OwnCell(r: Root, k: Key)
    requires Sound(r) && Bound(r, k)
    ensures CellOf(r, k).home == k && CellOf(r, k).version > 0
  {
  }

  /** A write through the view does not change what an abort restores. */
  lemma {:induction false} ViewStore(r: Root, k: Key, v: Option<Value>, canonical: bool, x: Key)
    requires Sound(r) && (v.None? ==> !canonical) && r.journal.Some?
    ensures SameAbort(r, Store(r, true, k, v, canonical), x)
  {
    StoreCells(r, true, k, v, canonical);
    hide CellsOk, JournalOk;
    if x != k { StoreElsewhere(r, true, k, v, canonical, x); }
  }

  lemma {:induction false} ForeignStore(r: Root, k: Key, v: Option<Value>, canonical: bool, x: Key)
    requires Sound(r) && (v.None? ==> !canonical)
    ensures Disowns(r, Store(r, false, k, v, canonical), x)
  {
    StoreCells(r, false, k, v, canonical);
    var r' := Store(r, false, k, v, canonical);
    if x != k {
      StoreElsewhere(r, false, k, v, canonical, x);
    } else if Owned(r', k) {
      NotOwned(r, k);
    }
  }

  lemma {:induction false} NotOwned(r: Root, k: Key)
    requires Sound(r) && r.journal.Some? && k in r.journal.value
    ensures r.journal.value[k].last < |r.cells|
    ensures r.journal.value[k].lastVer <= r.cells[r.journal.value[k].last].version
  {
  }
}
