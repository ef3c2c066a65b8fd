/** A root environment without its machinery: what the names hold now, and what they would hold if
    the running registration were undone, as two maps. Cells, versions and the journal refine it. */
module PlainBindings {
  import opened Forms
  import opened Cells
  import opened Rollback
  import opened Caches

  /** names are those that take up a slot, deleted ones included; mine are those the running
      registration wrote last, and made those among them that it brought into being. */
  datatype Plain = Plain(
    now: map<Key, Content>, back: map<Key, Content>, names: set<Key>, mine: set<Key>, made: set<Key>,
    running: bool, limit: nat, gen: nat, epoch: nat)

  function NewPlain(limit: nat): Plain {
    Plain(map[], map[], {}, {}, {}, false, limit, 0, 0)
  }

  /** The last item under a name wins. */
  function Merged(items: seq<Item>): map<Key, Content> {
    if items == [] then map[] else map[items[0].k := items[0].c] + Merged(items[1..])
  }

  function Unknown(names: set<Key>, items: seq<Item>): nat {
    if items == [] then 0 else (if items[0].k in names then 0 else 1) + Unknown(names, items[1..])
  }

  predicate Room(p: Plain, more: nat) {
    more == 0 || p.limit == 0 || |p.names| + more <= p.limit
  }

  function New(p: Plain, k: Key): nat {
    if k in p.names then 0 else 1
  }

  /** What a write puts under which names, unless it finds them taken or there is no room. */
  function Puts(p: Plain, op: Op): map<Key, Content> {
    match op
    case PutVar(x, c, ifVacant) =>
      var k := Ref(x, false);
      if (ifVacant && k in p.now) || !Room(p, New(p, k)) then map[] else map[k := c]
    case PutFunc(x, c, ifVacant) =>
      var k := Ref(x, true);
      if (ifVacant && k in p.now) || !Room(p, New(p, k)) then map[] else map[k := c]
    case PutBoth(x, c, ifVacant) =>
      var v, f := Ref(x, false), Ref(x, true);
      if (ifVacant && (v in p.now || f in p.now)) || !Room(p, New(p, v) + New(p, f)) then map[]
      else map[v := c, f := c]
    case Unbind(_) => map[]
    case MergeIn(items) => if Room(p, Unknown(p.names, items)) then Merged(items) else map[]
    case Compact => map[]
  }

  /** What a write takes away. */
  function Takes(p: Plain, op: Op): set<Key> {
    if op.Unbind? then {Ref(op.name, false), Ref(op.name, true)} * p.now.Keys else {}
  }

  /** How far a write moves the generation. */
  function Moves(p: Plain, op: Op): nat {
    match op
    case PutVar(x, _, _) => if Ref(x, false) in Puts(p, op) && Ref(x, false) !in p.now then 1 else 0
    case PutFunc(_, _, _) => 0
    case PutBoth(x, _, _) => if Ref(x, false) in Puts(p, op) && Ref(x, false) !in p.now then 1 else 0
    case Unbind(_) => 0
    case MergeIn(_) => |Puts(p, op).Keys - p.names|
    case Compact => 1
  }

  /** A write through the registration leaves alone what undoing it would bring back; anyone else's
      write is there to stay. */
  function Written(p: Plain, view: bool, puts: map<Key, Content>, takes: set<Key>): Plain {
    var keys, own := puts.Keys + takes, view && p.running;
    p.(now := (p.now - takes) + puts,
       back := if own then p.back else (p.back - takes) + puts,
       names := p.names + puts.Keys,
       mine := if own then p.mine + keys else p.mine - keys,
       made := if own then p.made + (keys - p.names) else p.made - keys)
  }

  function Then(p: Plain, e: Event): Plain {
    match e
    case Wrote(view, op) =>
      var q := Written(p, view, Puts(p, op), Takes(p, op)).(gen := p.gen + Moves(p, op));
      if op.Compact? then q.(names := p.now.Keys + p.mine) else q
    case Began => p.(running := true)
    case Completed => p.(back := p.now, mine := {}, made := {}, running := false)
    case Aborted =>
      var moved := if p.mine == {} then 0 else 1;
      Plain(p.back, p.back, p.names - p.made, {}, {}, false, p.limit, p.gen + moved, p.epoch + moved)
  }

  function After(p: Plain, es: seq<Event>): Plain {
    if es == [] then p else Then(After(p, es[..|es| - 1]), es[|es| - 1])
  }

  // ---- the root as plain bindings ----

  function Now(r: Root): map<Key, Content> {
    map k | k in r.bound && Holds(r, k).Some? :: Holds(r, k).value
  }

  function Back(r: Root): map<Key, Content> {
    map k | k in r.bound && Expected(r, k).Some? :: Expected(r, k).value
  }

  function Mine(r: Root): set<Key> {
    set k | k in r.bound && Owned(r, k)
  }

  function Made(r: Root): set<Key> {
    set k | k in r.bound && Removed(r, k)
  }

  function Seen(r: Root): Plain {
    Plain(Now(r), Back(r), r.bound.Keys, Mine(r), Made(r), r.journal.Some?, r.limit, r.gen, r.epoch)
  }

  function At(m: map<Key, Content>, k: Key): Option<Content> {
    if k in m then Some(m[k]) else None
  }

  lemma {:induction false} NowIs(r: Root, k: Key)
    ensures At(Now(r), k) == Holds(r, k)
  {
  }

  lemma {:induction false} BackIs(r: Root, k: Key)
    ensures At(Back(r), k) == Expected(r, k)
  {
  }

  lemma {:induction false} SameMap(a: map<Key, Content>, b: map<Key, Content>)
    requires forall k :: At(a, k) == At(b, k)
    ensures a == b
  {
    forall k ensures k in a <==> k in b { assert At(a, k) == At(b, k); }
    forall k | k in a ensures a[k] == b[k] { assert At(a, k) == At(b, k); }
  }

  lemma {:induction false} OwnedIs(r: Root, k: Key)
    ensures (k in Mine(r) <==> Owned(r, k)) && (k in Made(r) <==> Removed(r, k))
  {
  }

  /** What a write leaves under one name. */
  lemma {:induction false} WrittenAt(p: Plain, view: bool, puts: map<Key, Content>, takes: set<Key>, k: Key)
    ensures var q, own := Written(p, view, puts, takes), view && p.running;
      && At(q.now, k) == (if k in puts then Some(puts[k]) else if k in takes then None else At(p.now, k))
      && At(q.back, k) ==
        (if own then At(p.back, k) else if k in puts then Some(puts[k]) else if k in takes then None else At(p.back, k))
      && (k in q.mine <==> if k in puts || k in takes then own else k in p.mine)
      && (k in q.made <==> if k in puts || k in takes then own && (k in p.made || k !in p.names) else k in p.made)
      && (k in q.names <==> k in p.names || k in puts)
  {
  }

  lemma {:induction false} WrittenKeeps(p: Plain, view: bool, puts: map<Key, Content>, takes: set<Key>)
    ensures var q := Written(p, view, puts, takes);
      q.running == p.running && q.limit == p.limit && q.gen == p.gen && q.epoch == p.epoch
  {
  }

  /** Two plain bindings that agree name by name. */
  lemma {:induction false} SamePlain(p: Plain, q: Plain)
    requires forall k :: At(p.now, k) == At(q.now, k)
    requires forall k :: At(p.back, k) == At(q.back, k)
    requires forall k :: k in p.mine <==> k in q.mine
    requires forall k :: k in p.made <==> k in q.made
    requires forall k :: k in p.names <==> k in q.names
    requires p.running == q.running && p.limit == q.limit && p.gen == q.gen && p.epoch == q.epoch
    ensures p == q
  {
    hide At;
    SameMap(p.now, q.now);
    SameMap(p.back, q.back);
  }

  // ---- one store ----

  function Reads(v: Option<Value>, canonical: bool): Option<Content> {
    if v.Some? then Some(Content(v.value, canonical)) else None
  }

  lemma {:induction false} StoreHere(r: Root, view: bool, k: Key, v: Option<Value>, canonical: bool)
    requires Sound(r) && (v.None? ==> !canonical)
    ensures var r', own := Store(r, view, k, v, canonical), view && r.journal.Some?;
      && r'.bound.Keys == r.bound.Keys + {k} && Holds(r', k) == Reads(v, canonical)
      && Expected(r', k) == (if own then Expected(r, k) else Reads(v, canonical))
      && (Owned(r', k) <==> own) && (Removed(r', k) <==> own && (Removed(r, k) || k !in r.bound))
  {
    hide CellsOk, JournalOk;
    StoreCells(r, view, k, v, canonical);
    var r' := Store(r, view, k, v, canonical);
    if r.journal.Some? && k in r.journal.value { NotOwned(r, k); }
    BoundIs(r, k);
    if view && r.journal.Some? { ViewStore(r, k, v, canonical, k); } else { ForeignStore(r, k, v, canonical, k); }
  }

  lemma {:induction false} BoundIs(r: Root, k: Key)
    requires Sound(r)
    ensures Bound(r, k) <==> k in r.bound
  {
  }

  lemma {:induction false} StoreThere(r: Root, view: bool, k: Key, v: Option<Value>, canonical: bool, x: Key)
    requires Sound(r) && (v.None? ==> !canonical) && x != k
    ensures var r' := Store(r, view, k, v, canonical);
      && (x in r'.bound <==> x in r.bound) && Holds(r', x) == Holds(r, x) && Expected(r', x) == Expected(r, x)
      && (Owned(r', x) <==> Owned(r, x)) && (Removed(r', x) <==> Removed(r, x))
  {
    StoreElsewhere(r, view, k, v, canonical, x);
    hide CellsOk, JournalOk, Before;
  }

  lemma {:induction false} SeenIs(r: Root)
    ensures var p := Seen(r);
      && p.now == Now(r) && p.back == Back(r) && p.mine == Mine(r) && p.made == Made(r) && p.names == r.bound.Keys
      && p.running == r.journal.Some? && p.limit == r.limit && p.gen == r.gen && p.epoch == r.epoch
  {
  }

  /** A store is a write under one name. */
  lemma {:induction false} StoreIs(r: Root, view: bool, k: Key, c: Content)
    requires Sound(r)
    ensures Seen(Store(r, view, k, Some(c.v), c.canonical)) == Written(Seen(r), view, map[k := c], {})
  {
    hide *;
    var r', p := Store(r, view, k, Some(c.v), c.canonical), Seen(r);
    var q := Written(p, view, map[k := c], {});
    StoreKeeps(r, view, k, Some(c.v), c.canonical);
    WrittenKeeps(p, view, map[k := c], {});
    SeenIs(r);
    SeenIs(r');
    forall x
      ensures At(Now(r'), x) == At(q.now, x) && At(Back(r'), x) == At(q.back, x)
      ensures (x in Mine(r') <==> x in q.mine) && (x in Made(r') <==> x in q.made) && (x in r'.bound <==> x in q.names)
    {
      StoredAt(r, view, k, Some(c.v), c.canonical, x);
      WrittenAt(p, view, map[k := c], {}, x);
      Readings(r, x);
      Readings(r', x);
    }
    SamePlain(Seen(r'), q);
  }

  lemma {:induction false} Readings(r: Root, k: Key)
    ensures At(Now(r), k) == Holds(r, k) && At(Back(r), k) == Expected(r, k)
    ensures (k in Mine(r) <==> Owned(r, k)) && (k in Made(r) <==> Removed(r, k))
  {
    hide *;
    NowIs(r, k);
    BackIs(r, k);
    OwnedIs(r, k);
  }

  lemma {:induction false} StoredAt(r: Root, view: bool, k: Key, v: Option<Value>, canonical: bool, x: Key)
    requires Sound(r) && (v.None? ==> !canonical)
    ensures var r', own := Store(r, view, k, v, canonical), view && r.journal.Some?;
      && (x in r'.bound <==> x in r.bound || x == k)
      && Holds(r', x) == (if x == k then (if v.Some? then Some(Content(v.value, canonical)) else None) else Holds(r, x))
      && Expected(r', x) == (if x == k && !own then Holds(r', x) else Expected(r, x))
      && (Owned(r', x) <==> if x == k then own else Owned(r, x))
      && (Removed(r', x) <==> if x == k then own && (Removed(r, x) || x !in r.bound) else Removed(r, x))
  {
    hide Sound, Store, Holds, Expected, Owned, Removed;
    if x == k { StoreHere(r, view, k, v, canonical); } else { StoreThere(r, view, k, v, canonical, x); }
  }

  lemma {:induction false} StoreKeeps(r: Root, view: bool, k: Key, v: Option<Value>, canonical: bool)
    ensures var r' := Store(r, view, k, v, canonical);
      r'.journal.Some? == r.journal.Some? && r'.limit == r.limit && r'.gen == r.gen && r'.epoch == r.epoch
  {
  }

  /** So is a delete, if there is something to delete. */
  lemma {:induction false} DropIs(r: Root, view: bool, k: Key)
    requires Sound(r)
    ensures Seen(DeleteKey(r, view, k)) == Written(Seen(r), view, map[], {k} * Now(r).Keys)
  {
    hide *;
    DropsLive(r, view, k);
    var r', p := DeleteKey(r, view, k), Seen(r);
    if k in Now(r) {
      assert {k} * Now(r).Keys == {k};
      var q := Written(p, view, map[], {k});
      StoreKeeps(r, view, k, None, false);
      WrittenKeeps(p, view, map[], {k});
      SeenIs(r);
      SeenIs(r');
      forall x
        ensures At(Now(r'), x) == At(q.now, x) && At(Back(r'), x) == At(q.back, x)
        ensures (x in Mine(r') <==> x in q.mine) && (x in Made(r') <==> x in q.made)
        ensures (x in r'.bound <==> x in q.names)
      {
        StoredAt(r, view, k, None, false, x);
        WrittenAt(p, view, map[], {k}, x);
        Readings(r, x);
        Readings(r', x);
      }
      SamePlain(Seen(r'), q);
    } else {
      assert {k} * Now(r).Keys == {};
      Puts0(p, view);
    }
  }

  lemma {:induction false} DropsLive(r: Root, view: bool, k: Key)
    requires Sound(r)
    ensures if k in Now(r) then k in r.bound && DeleteKey(r, view, k) == Store(r, view, k, None, false)
            else DeleteKey(r, view, k) == r
    ensures k in Now(r) ==> DeleteKey(r, view, k) != r
  {
    if k in Now(r) { StoreCells(r, view, k, None, false); }
  }

  lemma {:induction false} NewGenSeen(r: Root, g: nat)
    ensures Seen(r.(gen := g)) == Seen(r).(gen := g)
    ensures Sound(r) ==> Sound(r.(gen := g))
  {
    var r' := r.(gen := g);
    forall k ensures Owned(r', k) == Owned(r, k) && Removed(r', k) == Removed(r, k) {}
    forall k ensures Holds(r', k) == Holds(r, k) && Expected(r', k) == Expected(r, k) {}
    assert Now(r') == Now(r);
    assert Back(r') == Back(r);
    assert Mine(r') == Mine(r);
    assert Made(r') == Made(r);
  }

  // ---- several ----

  lemma {:induction false} TwoPuts(p: Plain, view: bool, a: map<Key, Content>, b: map<Key, Content>)
    ensures Written(Written(p, view, a, {}), view, b, {}) == Written(p, view, a + b, {})
  {
    hide Written, At;
    var p1 := Written(p, view, a, {});
    var q, w := Written(p1, view, b, {}), Written(p, view, a + b, {});
    WrittenKeeps(p, view, a, {});
    WrittenKeeps(p1, view, b, {});
    WrittenKeeps(p, view, a + b, {});
    forall k
      ensures At(q.now, k) == At(w.now, k) && At(q.back, k) == At(w.back, k) && (k in q.mine <==> k in w.mine)
      ensures (k in q.made <==> k in w.made) && (k in q.names <==> k in w.names)
    {
      WrittenAt(p, view, a, {}, k);
      WrittenAt(p1, view, b, {}, k);
      WrittenAt(p, view, a + b, {}, k);
    }
    SamePlain(q, w);
  }

  lemma {:induction false} TwoTakes(p: Plain, view: bool, a: set<Key>, b: set<Key>)
    requires a <= p.names && b <= p.names
    ensures Written(Written(p, view, map[], a), view, map[], b) == Written(p, view, map[], a + b)
  {
    hide Written, At;
    var p1 := Written(p, view, map[], a);
    var q, w := Written(p1, view, map[], b), Written(p, view, map[], a + b);
    WrittenKeeps(p, view, map[], a);
    WrittenKeeps(p1, view, map[], b);
    WrittenKeeps(p, view, map[], a + b);
    forall k
      ensures At(q.now, k) == At(w.now, k) && At(q.back, k) == At(w.back, k) && (k in q.mine <==> k in w.mine)
      ensures (k in q.made <==> k in w.made) && (k in q.names <==> k in w.names)
    {
      WrittenAt(p, view, map[], a, k);
      WrittenAt(p1, view, map[], b, k);
      WrittenAt(p, view, map[], a + b, k);
    }
    SamePlain(q, w);
  }

  lemma {:induction false} Puts0(p: Plain, view: bool)
    ensures Written(p, view, map[], {}) == p
  {
    var q := Written(p, view, map[], {});
    assert q.now == p.now;
    assert q.back == p.back;
  }

  /** A new generation does not matter to a write. */
  lemma {:induction false} WrittenGen(p: Plain, view: bool, puts: map<Key, Content>, takes: set<Key>, g: nat)
    ensures Written(p.(gen := g), view, puts, takes) == Written(p, view, puts, takes).(gen := g)
  {
  }

  lemma {:induction false} FewerNew(names: set<Key>, k: Key, m: map<Key, Content>, c: Content)
    ensures |(map[k := c] + m).Keys - names| == (if k in names then 0 else 1) + |m.Keys - (names + {k})|
  {
    var others := m.Keys - (names + {k});
    assert (map[k := c] + m).Keys - names == if k in names then others else others + {k};
  }

  lemma {:induction false} MergeIs(r: Root, view: bool, items: seq<Item>)
    requires Sound(r)
    ensures var p, m := Seen(r), Merged(items);
      Seen(MergeAll(r, view, items)) == Written(p, view, m, {}).(gen := p.gen + |m.Keys - p.names|)
    decreases |items|
  {
    hide *;
    var p := Seen(r);
    if items == [] {
      MergeNothing(r, view);
    } else {
      var it, rest := items[0], Merged(items[1..]);
      var m := map[it.k := it.c];
      var g := if Bound(r, it.k) then r.gen else r.gen + 1;
      var r1 := Store(r, view, it.k, Some(it.c.v), it.c.canonical).(gen := g);
      PutIs(r, view, it.k, it.c, g);
      MergeUnfolds(r, view, items);
      MergeIs(r1, view, items[1..]);
      WrittenGen(Written(p, view, m, {}), view, rest, {}, g);
      TwoPuts(p, view, m, rest);
      BoundIs(r, it.k);
      NamesSeen(r);
      NamesWritten(p, view, m);
      MergeCounts(p, it, rest, g);
    }
  }

  lemma {:induction false} MergeCounts(p: Plain, it: Item, rest: map<Key, Content>, g: nat)
    requires g == if it.k in p.names then p.gen else p.gen + 1
    ensures var m := map[it.k := it.c]; g + |rest.Keys - (p.names + m.Keys)| == p.gen + |(m + rest).Keys - p.names|
  {
    FewerNew(p.names, it.k, rest, it.c);
    assert p.names + map[it.k := it.c].Keys == p.names + {it.k};
  }

  lemma {:induction false} MergeNothing(r: Root, view: bool)
    ensures var p, m := Seen(r), Merged([]);
      Seen(MergeAll(r, view, [])) == Written(p, view, m, {}).(gen := p.gen + |m.Keys - p.names|)
  {
    hide Written, Seen;
    Puts0(Seen(r), view);
    assert Merged([]).Keys - Seen(r).names == {};
  }

  lemma {:induction false} MergeUnfolds(r: Root, view: bool, items: seq<Item>)
    requires items != []
    ensures var it := items[0];
      var r1 := Store(r, view, it.k, Some(it.c.v), it.c.canonical);
      MergeAll(r, view, items) == MergeAll(r1.(gen := if Bound(r, it.k) then r.gen else r.gen + 1), view, items[1..])
    ensures Merged(items) == map[items[0].k := items[0].c] + Merged(items[1..])
  {
    hide Store, Bound;
  }

  lemma {:induction false} NamesSeen(r: Root)
    ensures Seen(r).names == r.bound.Keys && Seen(r).gen == r.gen
  {
  }

  lemma {:induction false} NamesWritten(p: Plain, view: bool, m: map<Key, Content>)
    ensures Written(p, view, m, {}).names == p.names + m.Keys
  {
  }

  lemma {:induction false} UnknownIs(r: Root, items: seq<Item>)
    requires Sound(r)
    ensures NewNames(r, Keys(items)) == Unknown(r.bound.Keys, items)
    decreases |items|
  {
    hide Sound;
    if items == [] {
    } else {
      BoundIs(r, items[0].k);
      assert Keys(items)[0] == items[0].k && Keys(items)[1..] == Keys(items[1..]);
      UnknownIs(r, items[1..]);
    }
  }

  // ---- every operation ----

  lemma {:induction false} RoomIs(r: Root, more: nat)
    requires Sound(r)
    ensures Room(Seen(r), more) <==> more == 0 || Cells.Fits(r, more)
  {
  }

  /** A put under one name, with the generation it moves to. */
  lemma {:induction false} PutIs(r: Root, view: bool, k: Key, c: Content, g: nat)
    requires Sound(r)
    ensures var r' := Store(r, view, k, Some(c.v), c.canonical).(gen := g);
      Seen(r') == Written(Seen(r), view, map[k := c], {}).(gen := g) && Sound(r')
  {
    hide Sound, Store, Seen, Written;
    StoreIs(r, view, k, c);
    StoreOk(r, view, k, Some(c.v), c.canonical);
    NewGenSeen(Store(r, view, k, Some(c.v), c.canonical), g);
  }

  /** Nothing put, nothing taken, the generation where it was. */
  lemma {:induction false} Unchanged(r: Root, view: bool)
    ensures Written(Seen(r), view, map[], {}).(gen := r.gen) == Seen(r)
  {
    hide Written;
    Puts0(Seen(r), view);
  }

  lemma {:induction false} VarIs(r: Root, view: bool, op: Op)
    requires Sound(r) && op.PutVar?
    ensures Seen(Apply(r, view, op)) == Then(Seen(r), Wrote(view, op))
  {
    hide Sound, Store, Written, Cells.Fits, Room, Now, Back, Mine, Made, Bound, Holds;
    var k, p := Ref(op.name, false), Seen(r);
    BoundIs(r, k);
    NowIs(r, k);
    RoomIs(r, 1);
    RoomIs(r, 0);
    Unchanged(r, view);
    PutIs(r, view, k, op.c, if Live(r, k) then r.gen else r.gen + 1);
  }

  lemma {:induction false} FuncIs(r: Root, view: bool, op: Op)
    requires Sound(r) && op.PutFunc?
    ensures Seen(Apply(r, view, op)) == Then(Seen(r), Wrote(view, op))
  {
    hide Sound, Written, Cells.Fits, Room, Now, Back, Mine, Made, Bound, Holds;
    var k, p := Ref(op.name, true), Seen(r);
    BoundIs(r, k);
    NowIs(r, k);
    RoomIs(r, 1);
    RoomIs(r, 0);
    Unchanged(r, view);
    PutIs(r, view, k, op.c, r.gen);
    StoreKeeps(r, view, k, Some(op.c.v), op.c.canonical);
    hide Store;
  }

  lemma {:induction false} BothIs(r: Root, view: bool, op: Op)
    requires Sound(r) && op.PutBoth?
    ensures Seen(Apply(r, view, op)) == Then(Seen(r), Wrote(view, op))
  {
    hide Sound, Written, Cells.Fits, Room, Now, Back, Mine, Made, Bound, Holds, Store, Live;
    var v, f, p := Ref(op.name, false), Ref(op.name, true), Seen(r);
    var g := if Live(r, v) then r.gen else r.gen + 1;
    var more := NewNames(r, [v, f]);
    NamesOfTwo(r, v, f);
    LiveIs(r, v);
    LiveIs(r, f);
    RoomIs(r, more);
    Unchanged(r, view);
    PutIs(r, view, v, op.c, g);
    var r1 := Store(r, view, v, Some(op.c.v), op.c.canonical).(gen := g);
    PutIs(r1, view, f, op.c, g);
    StoreKeeps(r1, view, f, Some(op.c.v), op.c.canonical);
    var r2 := Store(r1, view, f, Some(op.c.v), op.c.canonical);
    assert r2.(gen := g) == r2;
    WrittenGen(Written(p, view, map[v := op.c], {}), view, map[f := op.c], {}, g);
    TwoPuts(p, view, map[v := op.c], map[f := op.c]);
    assert map[v := op.c] + map[f := op.c] == map[v := op.c, f := op.c];
  }

  lemma {:induction false} LiveIs(r: Root, k: Key)
    ensures Live(r, k) <==> k in Seen(r).now
  {
    NowIs(r, k);
  }

  lemma {:induction false} NamesOfTwo(r: Root, a: Key, b: Key)
    requires Sound(r)
    ensures NewNames(r, [a, b]) == (if a in r.bound then 0 else 1) + if b in r.bound then 0 else 1
  {
    hide Sound;
    BoundIs(r, a);
    BoundIs(r, b);
    assert [a, b][1..] == [b];
    assert NewNames(r, [b]) == if Bound(r, b) then 0 else 1;
  }

  lemma {:induction false} UnbindIs(r: Root, view: bool, op: Op)
    requires Sound(r) && op.Unbind?
    ensures Seen(Apply(r, view, op)) == Then(Seen(r), Wrote(view, op))
  {
    hide *;
    var v, f, p := Ref(op.name, false), Ref(op.name, true), Seen(r);
    var r1 := DeleteKey(r, view, v);
    DropIs(r, view, v);
    DeletesKey(r, view, v);
    Good(r, r1, view);
    DropIs(r1, view, f);
    SeenIs(r);
    SeenIs(r1);
    NowNamed(r);
    DropElsewhere(p, view, v, f);
    TwoTakes(p, view, {v} * p.now.Keys, {f} * p.now.Keys);
    UnbindUnfolds(r, view, op);
  }

  lemma {:induction false} NowNamed(r: Root)
    ensures Now(r).Keys <= r.bound.Keys
  {
  }

  lemma {:induction false} UnbindUnfolds(r: Root, view: bool, op: Op)
    requires op.Unbind?
    ensures var v, f, p := Ref(op.name, false), Ref(op.name, true), Seen(r);
      && Apply(r, view, op) == DeleteKey(DeleteKey(r, view, v), view, f)
      && Then(p, Wrote(view, op)) == Written(p, view, map[], {v} * p.now.Keys + {f} * p.now.Keys)
  {
    hide Seen, Written, DeleteKey;
    var v, f, p := Ref(op.name, false), Ref(op.name, true), Seen(r);
    assert Takes(p, op) == {v} * p.now.Keys + {f} * p.now.Keys;
    WrittenKeeps(p, view, map[], Takes(p, op));
  }

  lemma {:induction false} DropElsewhere(p: Plain, view: bool, v: Key, f: Key)
    requires v != f
    ensures {f} * Written(p, view, map[], {v} * p.now.Keys).now.Keys == {f} * p.now.Keys
  {
  }

  lemma {:induction false} MergeInIs(r: Root, view: bool, op: Op)
    requires Sound(r) && op.MergeIn?
    ensures Seen(Apply(r, view, op)) == Then(Seen(r), Wrote(view, op))
  {
    hide Sound, Written, Store, Now, Back, Mine, Made, MergeAll, Merged, Room, Cells.Fits;
    UnknownIs(r, op.items);
    RoomIs(r, Unknown(r.bound.Keys, op.items));
    MergeIs(r, view, op.items);
    Unchanged(r, view);
    var none: map<Key, Content> := map[];
    assert none.Keys - Seen(r).names == {};
  }

  lemma {:induction false} CompactAt(r: Root, k: Key)
    requires Sound(r)
    ensures var r' := Rebuild(r);
      && Owned(r', k) == Owned(r, k) && Removed(r', k) == Removed(r, k)
      && Expected(r', k) == Expected(r, k) && Holds(r', k) == Holds(r, k)
      && (k in r'.bound <==> Holds(r, k).Some? || Owned(r, k))
  {
    hide CellsOk, JournalOk;
  }

  /** Two roots that agree name by name, but for names that hold nothing and are nobody's. */
  lemma {:induction false} SameSeen(r: Root, r': Root)
    requires forall k :: Owned(r', k) == Owned(r, k) && Removed(r', k) == Removed(r, k)
    requires forall k :: Expected(r', k) == Expected(r, k) && Holds(r', k) == Holds(r, k)
    ensures Now(r') == Now(r) && Back(r') == Back(r) && Mine(r') == Mine(r) && Made(r') == Made(r)
  {
    hide *;
    forall k
      ensures At(Now(r'), k) == At(Now(r), k) && At(Back(r'), k) == At(Back(r), k)
      ensures (k in Mine(r') <==> k in Mine(r)) && (k in Made(r') <==> k in Made(r))
    {
      Readings(r, k);
      Readings(r', k);
    }
    SameMap(Now(r'), Now(r));
    SameMap(Back(r'), Back(r));
  }

  lemma {:induction false} CompactIs(r: Root, view: bool)
    requires Sound(r)
    ensures Seen(Apply(r, view, Compact)) == Then(Seen(r), Wrote(view, Compact))
  {
    hide Written, Holds, Expected, Owned, Removed, Sound, Now, Back, Mine, Made, Rebuild;
    var r', p := Rebuild(r), Seen(r);
    Puts0(p, view);
    forall k
      ensures Owned(r', k) == Owned(r, k) && Removed(r', k) == Removed(r, k)
      ensures Expected(r', k) == Expected(r, k) && Holds(r', k) == Holds(r, k)
      ensures k in r'.bound <==> k in Now(r).Keys + Mine(r)
    {
      CompactAt(r, k);
      Readings(r, k);
    }
    SameSeen(r, r');
    RebuildKeepsRest(r);
    assert r'.bound.Keys == Now(r).Keys + Mine(r);
  }

  lemma {:induction false} RebuildKeepsRest(r: Root)
    ensures var r' := Rebuild(r);
      r'.journal == r.journal && r'.limit == r.limit && r'.gen == r.gen + 1 && r'.epoch == r.epoch
  {
  }

  // ---- the registration ----

  lemma {:induction false} BeginIs(r: Root)
    ensures Seen(Begin(r)) == Then(Seen(r), Began)
  {
    hide Now, Back, Mine, Made;
    var r' := Begin(r);
    forall k
      ensures Owned(r', k) == Owned(r, k) && Removed(r', k) == Removed(r, k)
      ensures Expected(r', k) == Expected(r, k) && Holds(r', k) == Holds(r, k)
    {
    }
    hide Holds, Expected, Owned, Removed;
    SameSeen(r, r');
  }

  lemma {:induction false} CompleteIs(r: Root)
    ensures Seen(Complete(r)) == Then(Seen(r), Completed)
  {
    var r' := Complete(r);
    forall k ensures Holds(r', k) == Holds(r, k) && Expected(r', k) == Holds(r, k) && !Owned(r', k) {}
    assert Now(r') == Now(r);
    assert Back(r') == Now(r);
    assert Mine(r') == {};
    assert Made(r') == {};
  }

  lemma {:induction false} NoJournal(r: Root)
    requires r.journal.None?
    ensures Now(r) == Back(r) && Mine(r) == {} && Made(r) == {}
  {
  }

  lemma {:induction false} AbortIs(r: Root)
    requires Sound(r)
    ensures Seen(Abort(r)) == Then(Seen(r), Aborted)
  {
    hide Expected, Holds, Now, Back, Mine, Made, Sound, Abort, Owned, Removed, At;
    var r' := Abort(r);
    AbortRestores(r);
    NoJournal(r');
    AbortCounts(r);
    forall k ensures At(Now(r'), k) == At(Back(r), k) {
      NowIs(r', k);
      BackIs(r, k);
    }
    SameMap(Now(r'), Back(r));
  }

  lemma {:induction false} AbortCounts(r: Root)
    requires Sound(r)
    ensures var r', moved := Abort(r), if Mine(r) == {} then 0 else 1;
      && r'.bound.Keys == r.bound.Keys - Made(r) && r'.gen == r.gen + moved && r'.epoch == r.epoch + moved
      && r'.limit == r.limit
  {
    hide Expected, Holds, AbortCell, CellsOk, JournalOk;
    if r.journal.None? {
      NoJournal(r);
    } else {
      AbortShape(r);
      var owned := set k | k in r.journal.value && Owned(r, k);
      assert owned == Mine(r);
    }
  }

  // ---- whole histories ----

  /** Whatever is done to a root, its cells, versions and journal keep the plain bindings. */
  lemma {:induction false} NextIs(r: Root, e: Event)
    requires Sound(r)
    ensures Seen(Next(r, e)) == Then(Seen(r), e)
  {
    hide *;
    match e {
      case Began =>
        BeginIs(r);
        NextUnfolds(r, e);
      case Completed =>
        CompleteIs(r);
        NextUnfolds(r, e);
      case Aborted =>
        AbortIs(r);
        NextUnfolds(r, e);
      case Wrote(view, op) =>
        NextUnfolds(r, e);
        match op {
          case PutVar(_, _, _) => VarIs(r, view, op);
          case PutFunc(_, _, _) => FuncIs(r, view, op);
          case PutBoth(_, _, _) => BothIs(r, view, op);
          case Unbind(_) => UnbindIs(r, view, op);
          case MergeIn(_) => MergeInIs(r, view, op);
          case Compact => CompactIs(r, view);
        }
    }
  }

  lemma {:induction false} NextUnfolds(r: Root, e: Event)
    ensures Next(r, e) ==
      match e
      case Wrote(view, op) => Apply(r, view, op)
      case Began => Begin(r)
      case Completed => Complete(r)
      case Aborted => Abort(r)
  {
  }

  /** After any history the root holds what the plain bindings hold after it. */
  lemma {:induction false} HistoryIs(r: Root, es: seq<Event>)
    requires Sound(r)
    ensures Seen(History(r, es)) == After(Seen(r), es)
    decreases |es|
  {
    hide Sound, Seen, Then, Next;
    if es == [] {
    } else {
      var n := |es| - 1;
      HistoryIs(r, es[..n]);
      HistorySound(r, es[..n]);
      NextIs(History(r, es[..n]), es[n]);
    }
  }

  lemma {:induction false} StartIs(limit: nat)
    ensures Seen(NewRoot(limit)) == NewPlain(limit)
  {
  }

  /** What a name holds after one write: what was put there, nothing if it was taken away, and
      otherwise what it held; whoever writes. */
  lemma {:induction false} HoldsAfter(r: Root, view: bool, op: Op, k: Key)
    requires Sound(r)
    ensures Holds(Apply(r, view, op), k) ==
      if k in Puts(Seen(r), op) then Some(Puts(Seen(r), op)[k])
      else if k in Takes(Seen(r), op) then None
      else Holds(r, k)
  {
    hide Sound, Holds, Puts, Takes, Apply, Back, Mine, Made, Now;
    NextIs(r, Wrote(view, op));
    NextUnfolds(r, Wrote(view, op));
    NowIs(r, k);
    NowIs(Apply(r, view, op), k);
  }

  // ---- the limit ----

  /** What the names and the two maps have to do with each other. */
  ghost predicate Tidy(p: Plain) {
    (forall k :: Neat(p, k)) && (p.limit > 0 ==> |p.names| <= p.limit)
  }

  predicate Neat(p: Plain, k: Key) {
    && (k in p.now || k in p.mine ==> k in p.names) && (k in p.made ==> k in p.mine && k !in p.back)
    && (k in p.back ==> k in p.now || k in p.mine)
  }

  lemma {:induction false} Subset(a: set<Key>, b: set<Key>)
    requires a <= b
    ensures |a| <= |b|
  {
    assert b == a + (b - a);
  }

  lemma {:induction false} Union(a: set<Key>, b: set<Key>)
    ensures |a + b| == |a| + |b - a|
  {
    assert a + b == a + (b - a);
  }

  lemma {:induction false} MergedFew(names: set<Key>, items: seq<Item>)
    ensures |Merged(items).Keys - names| <= Unknown(names, items)
    decreases |items|
  {
    if items == [] {
      assert Merged(items).Keys - names == {};
    } else {
      var rest, k := Merged(items[1..]), items[0].k;
      MergedFew(names, items[1..]);
      FewerNew(names, k, rest, items[0].c);
      Subset(rest.Keys - (names + {k}), rest.Keys - names);
    }
  }

  lemma {:induction false} NewOne(names: set<Key>, k: Key)
    ensures |{k} - names| == if k in names then 0 else 1
  {
    assert {k} - names == if k in names then {} else {k};
  }

  lemma {:induction false} NewTwo(names: set<Key>, a: Key, b: Key)
    ensures |{a, b} - names| == (if a in names then 0 else 1) + if b in names || a == b then 0 else 1
  {
    NewOne(names, a);
    NewOne(names, b);
    assert {a, b} - names == ({a} - names) + ({b} - names);
    if a == b { assert {a, b} == {a}; }
  }

  /** A write puts no more new names than there is room for. */
  lemma {:induction false} PutsFit(p: Plain, op: Op)
    requires Tidy(p)
    ensures p.limit > 0 ==> |p.names + Puts(p, op).Keys| <= p.limit
  {
    hide Merged;
    Union(p.names, Puts(p, op).Keys);
    PutsRoom(p, op);
    assert p.names + {} == p.names;
  }

  lemma {:induction false} PutsRoom(p: Plain, op: Op)
    ensures var ks := Puts(p, op).Keys; ks == {} || exists more :: |ks - p.names| <= more && Room(p, more)
  {
    hide Puts, Room, Merged;
    match op
    case PutVar(x, c, _) => VarRoom(p, op);
    case PutFunc(x, c, _) => FuncRoom(p, op);
    case PutBoth(x, c, _) => BothRoom(p, op);
    case MergeIn(items) => MergeRoom(p, op);
    case Unbind(_) => NonePut(p, op);
    case Compact => NonePut(p, op);
  }

  lemma {:induction false} NonePut(p: Plain, op: Op)
    requires op.Unbind? || op.Compact?
    ensures Puts(p, op).Keys == {}
  {
  }

  lemma {:induction false} VarRoom(p: Plain, op: Op)
    requires op.PutVar?
    ensures var ks := Puts(p, op).Keys; ks == {} || exists more :: |ks - p.names| <= more && Room(p, more)
  {
    hide Room;
    OnePut(p, Puts(p, op).Keys, Ref(op.name, false), Ref(op.name, false), New(p, Ref(op.name, false)));
  }

  lemma {:induction false} FuncRoom(p: Plain, op: Op)
    requires op.PutFunc?
    ensures var ks := Puts(p, op).Keys; ks == {} || exists more :: |ks - p.names| <= more && Room(p, more)
  {
    hide Room;
    OnePut(p, Puts(p, op).Keys, Ref(op.name, true), Ref(op.name, true), New(p, Ref(op.name, true)));
  }

  lemma {:induction false} BothRoom(p: Plain, op: Op)
    requires op.PutBoth?
    ensures var ks := Puts(p, op).Keys; ks == {} || exists more :: |ks - p.names| <= more && Room(p, more)
  {
    hide Room;
    var v, f := Ref(op.name, false), Ref(op.name, true);
    OnePut(p, Puts(p, op).Keys, v, f, New(p, v) + New(p, f));
  }

  lemma {:induction false} MergeRoom(p: Plain, op: Op)
    requires op.MergeIn?
    ensures var ks := Puts(p, op).Keys; ks == {} || exists more :: |ks - p.names| <= more && Room(p, more)
  {
    hide Room, Merged;
    MergedFew(p.names, op.items);
    var ks, more := Puts(p, op).Keys, Unknown(p.names, op.items);
    assert ks == {} || (|ks - p.names| <= more && Room(p, more));
  }

  lemma {:induction false} OnePut(p: Plain, ks: set<Key>, a: Key, b: Key, more: nat)
    requires more == New(p, a) + if a == b then 0 else New(p, b)
    requires ks == {} || (ks == {a, b} && Room(p, more))
    ensures ks == {} || exists more :: |ks - p.names| <= more && Room(p, more)
  {
    hide Room;
    if ks != {} {
      NewTwo(p.names, a, b);
      assert |ks - p.names| <= more && Room(p, more);
    }
  }

  lemma {:induction false} WriteNeat(p: Plain, view: bool, puts: map<Key, Content>, takes: set<Key>, k: Key)
    requires Neat(p, k) && (k in takes ==> k in p.now)
    ensures Neat(Written(p, view, puts, takes), k)
  {
    hide Written, At;
    var q := Written(p, view, puts, takes);
    WrittenAt(p, view, puts, takes, k);
    AtIn(p.now, k);
    AtIn(p.back, k);
    AtIn(q.now, k);
    AtIn(q.back, k);
  }

  lemma {:induction false} WriteTidy(p: Plain, view: bool, puts: map<Key, Content>, takes: set<Key>)
    requires Tidy(p) && takes <= p.now.Keys && (p.limit > 0 ==> |p.names + puts.Keys| <= p.limit)
    ensures Tidy(Written(p, view, puts, takes))
  {
    hide Written, Neat;
    forall k ensures Neat(Written(p, view, puts, takes), k) { WriteNeat(p, view, puts, takes, k); }
    WrittenNames(p, view, puts, takes);
  }

  lemma {:induction false} WrittenNames(p: Plain, view: bool, puts: map<Key, Content>, takes: set<Key>)
    ensures Written(p, view, puts, takes).names == p.names + puts.Keys && Written(p, view, puts, takes).limit == p.limit
  {
  }

  lemma {:induction false} AtIn(m: map<Key, Content>, k: Key)
    ensures At(m, k).Some? <==> k in m
  {
  }

  lemma {:induction false} StepTidy(p: Plain, e: Event)
    requires Tidy(p)
    ensures Tidy(Then(p, e)) && Then(p, e).limit == p.limit
  {
    if e.Wrote? {
      WroteTidy(p, e.view, e.op);
    } else {
      Subset(p.names - p.made, p.names);
      forall k ensures Neat(Then(p, e), k) { assert Neat(p, k); }
    }
  }

  lemma {:induction false} WroteTidy(p: Plain, view: bool, op: Op)
    requires Tidy(p)
    ensures Tidy(Then(p, Wrote(view, op))) && Then(p, Wrote(view, op)).limit == p.limit
  {
    hide Puts, Moves, Written, Neat;
    if op.Compact? {
      CompactPuts(p);
      Puts0(p, view);
      CompactTidy(p, p.gen + Moves(p, op));
    } else {
      PutsFit(p, op);
      WriteTidy(p, view, Puts(p, op), Takes(p, op));
      WrittenNames(p, view, Puts(p, op), Takes(p, op));
      GenTidy(Written(p, view, Puts(p, op), Takes(p, op)), p.gen + Moves(p, op));
    }
  }

  lemma {:induction false} GenTidy(p: Plain, g: nat)
    requires Tidy(p)
    ensures Tidy(p.(gen := g))
  {
    forall k ensures Neat(p.(gen := g), k) { assert Neat(p, k); }
  }

  lemma {:induction false} CompactTidy(p: Plain, g: nat)
    requires Tidy(p)
    ensures Tidy(p.(gen := g).(names := p.now.Keys + p.mine))
  {
    var q, kept := p.(gen := g).(names := p.now.Keys + p.mine), p.now.Keys + p.mine;
    forall k ensures Neat(q, k) && (k in kept ==> k in p.names) { assert Neat(p, k); }
    Subset(kept, p.names);
  }

  lemma {:induction false} CompactPuts(p: Plain)
    ensures Puts(p, Compact) == map[] && Takes(p, Compact) == {}
  {
  }

  /** A limit is never passed, whatever happens. */
  lemma {:induction false} WithinLimit(limit: nat, es: seq<Event>)
    ensures Tidy(After(NewPlain(limit), es)) && After(NewPlain(limit), es).limit == limit
    ensures limit > 0 ==> |History(NewRoot(limit), es).bound| <= limit
    decreases |es|
  {
    hide Then, Seen;
    if es == [] {
    } else {
      var n := |es| - 1;
      WithinLimit(limit, es[..n]);
      StepTidy(After(NewPlain(limit), es[..n]), es[n]);
    }
    SoundNew(limit);
    StartIs(limit);
    HistoryIs(NewRoot(limit), es);
    NamesSeen(History(NewRoot(limit), es));
  }
}
