/** The root environment as the program writes it: cells, map and journal changed in place. */
module RootEnv {
  import opened Forms
  import opened Cells
  import opened Rollback

  class Env {
    var cells: seq<Cell>
    var bound: map<Key, nat>
    var slots: int
    const limit: nat
    var gen: nat
    var epoch: nat
    var journal: Option<map<Key, Ent>>

    function State(): Root
      reads this
    {
      Root(cells, bound, slots, limit, gen, epoch, journal)
    }

    constructor (limit: nat)
      ensures State() == NewRoot(limit) && Sound(State())
    {
      cells, bound, slots := [Cell(Ref("", false), None, false, 0)], map[], 0;
      this.limit, gen, epoch, journal := limit, 0, 0, None;
      new;
      SoundNew(limit);
    }

    /** The before-image of k, unless the operation's last write to it is still current. */
    method Record(k: Key)
      requires journal.Some?
      modifies this`journal
      ensures journal == Some(old(journal).value[k := Before(old(State()), k)])
    {
      var j := journal.value;
      var has := k in bound && bound[k] < |cells|;
      if k in j && has && bound[k] == j[k].last && cells[bound[k]].version == j[k].lastVer {
        assert j[k := j[k]] == j;
        return;
      }
      var kept := if k in j then j[k].slots else 0;
      var ent := Ent(None, None, false, 0, 0, kept);
      if has { ent := Ent(Some(bound[k]), cells[bound[k]].v, cells[bound[k]].canonical, 0, 0, kept); }
      journal := Some(j[k := ent]);
    }

    method AfterWrite(k: Key, id: nat, reserved: nat)
      requires journal.Some? && k in journal.value && id < |cells|
      modifies this`journal
      ensures var e := old(journal).value[k];
              journal == Some(old(journal).value[k := e.(last := id, lastVer := cells[id].version,
                  slots := if reserved != 0 then reserved else e.slots)])
    {
      var e := journal.value[k].(last := id, lastVer := cells[id].version);
      if reserved != 0 { e := e.(slots := reserved); }
      journal := Some(journal.value[k := e]);
    }

    /** Reserves a slot for a new binding, writes the cell and journals the write. */
    method Write(view: bool, k: Key, v: Option<Value>, canonical: bool)
      requires Sound(State()) && (v.None? ==> !canonical)
      modifies this
      ensures State() == Store(old(State()), view, k, v, canonical) && Sound(State()) && gen == old(gen)
    {
      hide Sound, Before, NewCell;
      ghost var r := State();
      StoreOk(r, view, k, v, canonical);
      BoundIs(r, k);
      var added := k !in bound;
      var j := view && journal.Some?;
      if j { Record(k); }
      if added { slots := slots + 1; }
      var id := LocalCell(k, r);
      cells := cells[id := Cell(k, v, canonical, cells[id].version + 1)];
      if j { AfterWrite(k, id, if added then 1 else 0); }
      Lays(r, State(), view, k, v, canonical, id, added);
    }

    /** The cell for k, created if there is none: inline while that cell is unused. */
    method LocalCell(k: Key, ghost r: Root) returns (id: nat)
      requires Sound(r) && cells == r.cells && bound == r.bound
      modifies this`cells, this`bound
      ensures id < |cells| && bound == r.bound[k := id]
      ensures id == if Bound(r, k) then r.bound[k] else NewCell(r, k)
      ensures cells == if id < |r.cells| then r.cells else r.cells + [Cell(k, None, false, 0)]
    {
      if k in bound {
        assert bound[k := bound[k]] == bound;
        return bound[k];
      }
      if !k.fn && cells[0].version == 0 {
        id := 0;
      } else {
        id := |cells|;
        cells := cells + [Cell(k, None, false, 0)];
      }
      bound := bound[k := id];
    }

    method IsLive(k: Key) returns (live: bool)
      ensures live == Live(State(), k)
    {
      live := k in bound && bound[k] < |cells| && cells[bound[k]].v.Some?;
    }

    /** Binds a value cell; refused when it is a new binding and there is no room. */
    method SetVarLocked(view: bool, name: string, c: Content, ifVacant: bool) returns (written: bool)
      requires Sound(State())
      modifies this
      ensures State() == SetVar(old(State()), view, name, c, ifVacant) && Sound(State())
      ensures written <==>
        && !(ifVacant && Live(old(State()), Ref(name, false)))
        && (Bound(old(State()), Ref(name, false)) || Fits(old(State()), 1))
    {
      hide Sound, Store;
      var k := Ref(name, false);
      BoundIs(State(), k);
      var live := IsLive(k);
      if ifVacant && live { return false; }
      if k !in bound && limit != 0 && slots + 1 > limit { return false; }
      Write(view, k, Some(c.v), c.canonical);
      if !live {
        GenSound(State(), gen + 1);
        gen := gen + 1;
      }
      return true;
    }

    method SetFuncCellLocked(view: bool, name: string, c: Content, ifVacant: bool) returns (written: bool)
      requires Sound(State())
      modifies this
      ensures State() == SetFunc(old(State()), view, name, c, ifVacant) && Sound(State())
      ensures written <==>
        && !(ifVacant && Live(old(State()), Ref(name, true)))
        && (Bound(old(State()), Ref(name, true)) || Fits(old(State()), 1))
    {
      hide Sound, Store;
      var k := Ref(name, true);
      BoundIs(State(), k);
      var live := IsLive(k);
      if ifVacant && live { return false; }
      if k !in bound && limit != 0 && slots + 1 > limit { return false; }
      Write(view, k, Some(c.v), c.canonical);
      return true;
    }

    /** Binds both cells under one reservation, or neither. */
    method SetBothLocked(view: bool, name: string, c: Content, ifVacant: bool) returns (written: bool)
      requires Sound(State())
      modifies this
      ensures State() == SetBoth(old(State()), view, name, c, ifVacant) && Sound(State())
      ensures var r, v, f := old(State()), Ref(name, false), Ref(name, true);
        written <==>
          && !(ifVacant && (Live(r, v) || Live(r, f)))
          && (NewNames(r, [v, f]) == 0 || Fits(r, NewNames(r, [v, f])))
    {
      hide Sound, Store;
      var v, f := Ref(name, false), Ref(name, true);
      BoundIs(State(), v);
      BoundIs(State(), f);
      var liveVar := IsLive(v);
      var liveFunc := IsLive(f);
      if ifVacant && (liveVar || liveFunc) { return false; }
      var more := (if v in bound then 0 else 1) + (if f in bound then 0 else 1);
      TwoNames(State(), v, f);
      if more > 0 && limit != 0 && slots + more > limit { return false; }
      Write(view, v, Some(c.v), c.canonical);
      if !liveVar {
        GenSound(State(), gen + 1);
        gen := gen + 1;
      }
      Write(view, f, Some(c.v), c.canonical);
      return true;
    }

    method DeleteCell(view: bool, k: Key)
      requires Sound(State())
      modifies this
      ensures State() == DeleteKey(old(State()), view, k) && Sound(State())
    {
      hide Sound, Store;
      BoundIs(State(), k);
      if k in bound {
        var c := cells[bound[k]];
        if c.v.Some? || c.canonical { Write(view, k, None, false); }
      }
    }

    method DeleteName(view: bool, name: string)
      requires Sound(State())
      modifies this
      ensures State() == Delete(old(State()), view, name) && Sound(State())
    {
      DeleteCell(view, Ref(name, false));
      DeleteCell(view, Ref(name, true));
    }

    /** The operation's last write to k is still k's current state. */
    method Pins(k: Key) returns (pinned: bool)
      ensures pinned == Owned(State(), k)
    {
      pinned := journal.Some? && k in journal.value && k in bound && bound[k] < |cells| &&
        bound[k] == journal.value[k].last && cells[bound[k]].version == journal.value[k].lastVer;
    }

    /** The bindings a rebuild keeps. */
    method Survivors() returns (kept: map<Key, nat>)
      ensures forall k :: k in kept <==> k in bound && Stays(State(), k)
      ensures forall k :: k in kept ==> kept[k] == bound[k]
    {
      hide Stays, Live, Owned;
      ghost var r := State();
      kept := map[];
      var todo := bound.Keys;
      while todo != {}
        invariant todo <= bound.Keys
        invariant forall k :: k in kept <==> k in bound && k !in todo && Stays(r, k)
        invariant forall k :: k in kept ==> kept[k] == bound[k]
        decreases todo
      {
        var k :| k in todo;
        var live := IsLive(k);
        var pinned := Pins(k);
        StaysIs(r, k);
        if live || pinned { kept := kept[k := bound[k]]; }
        todo := todo - {k};
      }
    }

    /** Drops the dead bindings the running operation does not pin. */
    method Rebuild() returns (freed: int)
      requires Sound(State())
      modifies this`bound, this`slots, this`gen
      ensures State() == Cells.Rebuild(old(State())) && Sound(State())
      ensures freed == |old(bound)| - |bound|
    {
      hide Sound, Stays, Cells.Rebuild;
      RebuildSound(State());
      var kept := Survivors();
      RebuildIs(State(), kept);
      freed := |bound| - |kept|;
      bound, slots, gen := kept, |kept|, gen + 1;
    }

    /** A root runs one operation at a time. */
    method BeginRegistration() returns (ok: bool)
      requires Sound(State())
      modifies this`journal
      ensures State() == Begin(old(State())) && Sound(State()) && ok == old(journal).None?
    {
      if journal.Some? { return false; }
      journal := Some(map[]);
      return true;
    }

    method Complete()
      requires Sound(State())
      modifies this`journal
      ensures State() == Cells.Complete(old(State())) && Sound(State())
    {
      journal := None;
    }

    /** Puts k back to its before-image if the operation still owns it. The map and the cell of k
        have not been touched since r. */
    method Restore(k: Key, ghost r: Root) returns (owned: bool)
      requires Sound(r) && journal.Some? && journal == r.journal && k in journal.value && |cells| == |r.cells|
      requires (k in bound <==> k in r.bound)
      requires (k in bound ==> bound[k] == r.bound[k] && cells[bound[k]] == r.cells[bound[k]])
      modifies this`cells, this`bound, this`slots
      ensures owned == Owned(r, k) && |cells| == |old(cells)|
      ensures forall id :: 0 <= id < |cells| && (!owned || id != r.bound[k]) ==> cells[id] == old(cells)[id]
      ensures owned ==> r.bound[k] < |cells| && cells[r.bound[k]] == AbortCell(r, r.bound[k])
      ensures bound == if Removed(r, k) then old(bound) - {k} else old(bound)
      ensures slots == if Removed(r, k) then old(slots) - 1 else old(slots)
    {
      JournalAt(r, k);
      hide Sound;
      var ent := journal.value[k];
      if k !in bound || bound[k] != ent.last || cells[ent.last].version != ent.lastVer { return false; }
      var c := cells[ent.last];
      if ent.prior.None? {
        slots := slots - ent.slots;
        cells := cells[ent.last := Cell(c.home, None, false, c.version + 1)];
        bound := bound - {k};
      } else {
        cells := cells[ent.last := Cell(c.home, ent.v, ent.canonical, c.version + 1)];
      }
      return true;
    }

    method RestoreNext(k: Key, ghost r: Root, ghost done: set<Key>, ghost restored: bool) returns (was: bool)
      requires Sound(r) && journal.Some? && k in journal.value && journal == r.journal && k !in done
      requires Partway(r, State(), done, restored)
      modifies this`cells, this`bound, this`slots
      ensures Partway(r, State(), done + {k}, restored || was)
    {
      hide Sound, Owned, Removed, AbortCell, Partway;
      ghost var s := State();
      Untouched(r, s, done, restored, k);
      was := Restore(k, r);
      Restores(r, s, State(), done, restored, k);
    }

    method RestoreAll(ghost r: Root) returns (restored: bool)
      requires Sound(r) && State() == r && journal.Some?
      modifies this`cells, this`bound, this`slots
      ensures Partway(r, State(), journal.value.Keys, restored)
    {
      Starts(r);
      hide Sound, Partway;
      var todo := journal.value.Keys;
      restored := false;
      ghost var done: set<Key> := {};
      while todo != {}
        invariant done + todo == journal.value.Keys && done !! todo && Partway(r, State(), done, restored)
        decreases todo
      {
        var k :| k in todo;
        var was := RestoreNext(k, r, done, restored);
        restored := restored || was;
        todo, done := todo - {k}, done + {k};
      }
    }

    /** Rolls back the operation's writes and ends it. */
    method Abort()
      requires Sound(State())
      modifies this
      ensures State() == Cells.Abort(old(State())) && Sound(State())
    {
      hide Sound, Cells.Abort, Partway;
      ghost var r := State();
      AbortSound(r);
      if journal.None? { return; }
      var restored := RestoreAll(r);
      Finishes(r, State(), journal.value.Keys, restored);
      if restored { gen, epoch := gen + 1, epoch + 1; }
      journal := None;
    }
  }

  // ---- an abort halfway through the journal ----

  ghost function Gone(r: Root, done: set<Key>): set<Key> {
    set k | k in done && Removed(r, k)
  }

  ghost predicate Done(r: Root, done: set<Key>, id: nat)
    requires id < |r.cells|
  {
    var h := r.cells[id].home;
    h in done && Owned(r, h) && r.bound[h] == id
  }

  ghost predicate PartCells(r: Root, cells: seq<Cell>, done: set<Key>) {
    && |cells| == |r.cells|
    && forall id :: 0 <= id < |r.cells| ==> cells[id] == if Done(r, done, id) then AbortCell(r, id) else r.cells[id]
  }

  ghost predicate PartBound(r: Root, bound: map<Key, nat>, slots: int, done: set<Key>) {
    && (forall k :: k in bound <==> k in r.bound && k !in Gone(r, done))
    && (forall k :: k in bound ==> bound[k] == r.bound[k])
    && slots == r.slots - |Gone(r, done)|
  }

  ghost predicate AnyOwned(r: Root, done: set<Key>) {
    exists k :: k in done && Owned(r, k)
  }

  /** The bindings in done are back to their before-images, the others are as they were in r. */
  ghost predicate Partway(r: Root, s: Root, done: set<Key>, restored: bool) {
    && s.journal == r.journal && s.gen == r.gen && s.epoch == r.epoch && s.limit == r.limit
    && PartCells(r, s.cells, done) && PartBound(r, s.bound, s.slots, done) && restored == AnyOwned(r, done)
  }

  lemma {:induction false} Starts(r: Root)
    ensures Partway(r, r, {}, false)
  {
    assert Gone(r, {}) == {};
  }

  lemma {:induction false} AbortSound(r: Root)
    requires Sound(r)
    ensures Sound(Cells.Abort(r)) && (r.journal.None? ==> Cells.Abort(r) == r)
  {
    AbortRestores(r);
  }

  lemma {:induction false} Untouched(r: Root, s: Root, done: set<Key>, restored: bool, k: Key)
    requires Sound(r) && Partway(r, s, done, restored) && k !in done
    ensures |s.cells| == |r.cells| && (k in s.bound <==> k in r.bound)
    ensures k in s.bound ==>
      s.bound[k] == r.bound[k] && s.bound[k] < |s.cells| && s.cells[s.bound[k]] == r.cells[s.bound[k]]
  {
    hide AbortCell;
    assert k !in Gone(r, done);
    if k in r.bound { KeysApart(r); }
  }

  lemma {:induction false} GoneNext(r: Root, done: set<Key>, k: Key)
    requires k !in done
    ensures k !in Gone(r, done) && Gone(r, done + {k}) == if Removed(r, k) then Gone(r, done) + {k} else Gone(r, done)
  {
    hide Removed;
  }

  lemma {:induction false} DoneNext(r: Root, done: set<Key>, k: Key, id: nat)
    requires Sound(r) && id < |r.cells| && k !in done
    ensures Done(r, done + {k}, id) <==> Done(r, done, id) || (Owned(r, k) && r.bound[k] == id)
  {
    RemovedOwned(r, k);
    if Owned(r, k) { KeysApart(r); }
    hide Owned;
  }

  lemma {:induction false} RestoresCells(r: Root, cells: seq<Cell>, cells': seq<Cell>, done: set<Key>, k: Key)
    requires Sound(r) && PartCells(r, cells, done) && k !in done && |cells'| == |cells|
    requires forall id :: 0 <= id < |cells| && (!Owned(r, k) || id != r.bound[k]) ==> cells'[id] == cells[id]
    requires Owned(r, k) ==> r.bound[k] < |cells'| && cells'[r.bound[k]] == AbortCell(r, r.bound[k])
    ensures PartCells(r, cells', done + {k})
  {
    RemovedOwned(r, k);
    forall id | 0 <= id < |r.cells|
      ensures Done(r, done + {k}, id) <==> Done(r, done, id) || (Owned(r, k) && r.bound[k] == id)
    {
      DoneNext(r, done, k, id);
    }
    hide Sound, Owned, AbortCell, Done;
  }

  lemma {:induction false} RestoresBound(r: Root, bound: map<Key, nat>, slots: int, done: set<Key>, k: Key)
    requires PartBound(r, bound, slots, done) && k !in done
    ensures if Removed(r, k) then PartBound(r, bound - {k}, slots - 1, done + {k})
        else PartBound(r, bound, slots, done + {k})
  {
    GoneNext(r, done, k);
    hide Removed, Gone;
  }

  lemma {:induction false} AnyNext(r: Root, done: set<Key>, k: Key)
    ensures AnyOwned(r, done + {k}) == (AnyOwned(r, done) || Owned(r, k))
  {
    hide Owned;
    if Owned(r, k) { assert k in done + {k}; }
    if x :| x in done && Owned(r, x) { assert x in done + {k}; }
  }

  lemma {:induction false} Restores(r: Root, s: Root, s': Root, done: set<Key>, restored: bool, k: Key)
    requires Sound(r) && Partway(r, s, done, restored) && k !in done
    requires s' == s.(cells := s'.cells, bound := s'.bound, slots := s'.slots) && |s'.cells| == |s.cells|
    requires forall id :: 0 <= id < |s.cells| && (!Owned(r, k) || id != r.bound[k]) ==> s'.cells[id] == s.cells[id]
    requires Owned(r, k) ==> r.bound[k] < |s'.cells| && s'.cells[r.bound[k]] == AbortCell(r, r.bound[k])
    requires s'.bound == if Removed(r, k) then s.bound - {k} else s.bound
    requires s'.slots == if Removed(r, k) then s.slots - 1 else s.slots
    ensures Partway(r, s', done + {k}, restored || Owned(r, k))
  {
    RemovedOwned(r, k);
    hide Sound, Owned, Removed, AbortCell, PartCells, PartBound, AnyOwned;
    RestoresCells(r, s.cells, s'.cells, done, k);
    RestoresBound(r, s.bound, s.slots, done, k);
    AnyNext(r, done, k);
  }

  lemma {:induction false} DoneAll(r: Root, done: set<Key>, id: nat)
    requires Sound(r) && r.journal.Some? && done == r.journal.value.Keys && id < |r.cells|
    ensures AbortCell(r, id) == if Done(r, done, id) then AbortCell(r, id) else r.cells[id]
  {
  }

  lemma {:induction false} OwnedAll(r: Root, done: set<Key>)
    requires r.journal.Some? && done == r.journal.value.Keys
    ensures var owned := set k | k in r.journal.value && Owned(r, k);
            && Gone(r, done) == (set k | k in owned && Removed(r, k))
            && (AnyOwned(r, done) <==> owned != {})
  {
    RemovedAreOwned(r);
    hide Owned, Removed;
    var owned := set k | k in r.journal.value && Owned(r, k);
    if k :| k in done && Owned(r, k) { assert k in owned; }
  }

  lemma {:induction false} RemovedAreOwned(r: Root)
    ensures forall k :: Removed(r, k) ==> Owned(r, k)
  {
    hide Owned;
  }

  lemma {:induction false} FinishesCells(r: Root, cells: seq<Cell>, done: set<Key>)
    requires Sound(r) && r.journal.Some? && done == r.journal.value.Keys && PartCells(r, cells, done)
    ensures Cells.Abort(r).cells == cells
  {
    AbortShape(r);
    forall id | 0 <= id < |r.cells| ensures AbortCell(r, id) == if Done(r, done, id) then AbortCell(r, id)
        else r.cells[id] {
      DoneAll(r, done, id);
    }
    hide Sound, Owned, Removed, AbortCell, Done, Cells.Abort;
  }

  lemma {:induction false} FinishesBound(r: Root, bound: map<Key, nat>, slots: int, done: set<Key>)
    requires r.journal.Some? && done == r.journal.value.Keys && PartBound(r, bound, slots, done)
    ensures Cells.Abort(r).bound == bound && Cells.Abort(r).slots == slots
  {
    OwnedAll(r, done);
    hide Owned, Removed, AbortCell, Gone;
    assert Cells.Abort(r).bound == bound;
  }

  lemma {:induction false} Finishes(r: Root, s: Root, done: set<Key>, restored: bool)
    requires Sound(r) && r.journal.Some? && done == r.journal.value.Keys && Partway(r, s, done, restored)
    ensures Cells.Abort(r) == s.(gen := if restored then s.gen + 1 else s.gen, epoch := if restored then s.epoch + 1
        else s.epoch, journal := None)
  {
    OwnedAll(r, done);
    FinishesCells(r, s.cells, done);
    FinishesBound(r, s.bound, s.slots, done);
    hide Sound, Owned, Removed, AbortCell, Gone, PartCells, PartBound, AnyOwned;
  }

  lemma {:induction false} RebuildSound(r: Root)
    requires Sound(r)
    ensures Sound(Cells.Rebuild(r))
  {
    RebuildKeeps(r);
  }

  lemma {:induction false} RebuildIs(r: Root, kept: map<Key, nat>)
    requires forall k :: k in kept <==> k in r.bound && Stays(r, k)
    requires forall k :: k in kept ==> kept[k] == r.bound[k]
    ensures Cells.Rebuild(r) == r.(bound := kept, slots := |kept|, gen := r.gen + 1)
  {
    hide Stays;
    assert kept == map k | k in r.bound && Stays(r, k) :: r.bound[k];
  }

  lemma {:induction false} JournalAt(r: Root, k: Key)
    requires Sound(r) && r.journal.Some? && k in r.journal.value
    ensures var e := r.journal.value[k];
            && e.last < |r.cells| && (e.prior.None? ==> e.slots == 1)
            && (k in r.bound ==> Bound(r, k) && CellOf(r, k).home == k)
  {
  }

  lemma {:induction false} RemovedOwned(r: Root, k: Key)
    ensures Removed(r, k) ==> Owned(r, k)
    ensures Owned(r, k) ==> k in r.bound
  {
  }

  /** Different names lead to different cells. */
  lemma {:induction false} KeysApart(r: Root)
    requires Sound(r)
    ensures forall k :: k in r.bound ==> r.bound[k] < |r.cells| && r.cells[r.bound[k]].home == k
  {
  }

  lemma {:induction false} GenSound(r: Root, g: nat)
    requires Sound(r)
    ensures Sound(r.(gen := g))
  {
  }

  lemma {:induction false} StaysIs(r: Root, k: Key)
    ensures Stays(r, k) == (Live(r, k) || Owned(r, k))
  {
  }

  lemma {:induction false} TwoNames(r: Root, v: Key, f: Key)
    ensures NewNames(r, [v, f]) == (if Bound(r, v) then 0 else 1) + (if Bound(r, f) then 0 else 1)
  {
    assert [v, f][1..] == [f] && [f][1..] == [];
    assert NewNames(r, [f]) == (if Bound(r, f) then 0 else 1) + NewNames(r, []);
  }

  lemma {:induction false} BoundIs(r: Root, k: Key)
    requires Sound(r)
    ensures k in r.bound <==> Bound(r, k)
  {
  }

  /** The steps of a write add up to a store. */
  lemma {:induction false} Lays(r: Root, r': Root, view: bool, k: Key, v: Option<Value>, canonical: bool, id: nat,
      added: bool)
    requires added == !Bound(r, k) && id == if added then NewCell(r, k) else r.bound[k]
    requires r'.bound == r.bound[k := id] && r'.slots == (if added then r.slots + 1 else r.slots)
    requires id <= |r.cells|
    requires r'.cells == SetCell(r.cells, id, Cell(k, v, canonical, CellOr(r.cells, id, k).version + 1))
    requires r'.limit == r.limit && r'.gen == r.gen && r'.epoch == r.epoch
    requires if view && r.journal.Some? then
               var e := Before(r, k);
               r'.journal == Some(r.journal.value[k := e][k := e.(last := id, lastVer := r'.cells[id].version,
                   slots := if added then 1 else e.slots)])
             else r'.journal == r.journal
    ensures r' == Store(r, view, k, v, canonical)
  {
    hide Before, NewCell;
    if view && r.journal.Some? {
      var j, e := r.journal.value, Before(r, k);
      var e' := e.(last := id, lastVer := r'.cells[id].version, slots := if added then 1 else e.slots);
      assert j[k := e][k := e'] == j[k := e'];
    }
  }
}
