/** The persistent trie behind a large map: 32-way nodes compacted by two bitmaps, and flat
    collision nodes where the hash has no bits left to tell keys apart. */
module Hamt {
  import opened Forms
  import opened Bitmaps

  datatype HashKey = HashKey(typ: nat, num: nat, str: string)
  datatype Entry = Entry(hk: HashKey, k: Value, v: Value)
  datatype Node = Node(data: nat, kids: nat, entries: seq<Entry>, children: seq<Node>)

  /** The five hash bits level lvl discriminates on. */
  function Frag(h: nat, lvl: nat): (f: nat)
    ensures f < 32
  {
    if lvl == 0 then h % 32 else Frag(h / 32, lvl - 1)
  }

  /** Levels 0 to 6 use up a 32-bit hash. */
  const DEPTH: nat := 7

  predicate IsCollision(n: Node) {
    n.data == 0 && n.kids == 0 && n.entries != []
  }

  function IndexOf(entries: seq<Entry>, hk: HashKey): (r: Option<nat>)
    ensures r.Some? ==> r.value < |entries| && entries[r.value].hk == hk
    ensures r.None? ==> forall i :: 0 <= i < |entries| ==> entries[i].hk != hk
  {
    if entries == [] then None
    else if entries[0].hk == hk then Some(0)
    else match IndexOf(entries[1..], hk) case Some(i) => Some(i + 1) case None => None
  }

  function Insert<T>(s: seq<T>, i: nat, x: T): seq<T>
    requires i <= |s|
  {
    s[..i] + [x] + s[i..]
  }

  function Remove<T>(s: seq<T>, i: nat): seq<T>
    requires i < |s|
  {
    s[..i] + s[i + 1..]
  }

  /** The arrays are as long as their bitmaps are populated, and no slot is in both. */
  predicate Packed(n: Node) {
    && Below(n.data, 32) && Below(n.kids, 32)
    && |n.entries| == Ones(n.data, 32) && |n.children| == Ones(n.kids, 32)
    && forall f :: 0 <= f < 32 ==> !(BitAt(n.data, f) && BitAt(n.kids, f))
  }

  function EntryAt(n: Node, f: nat): (e: Entry)
    requires Packed(n) && f < 32 && BitAt(n.data, f)
    ensures Ones(n.data, f) < |n.entries| && e == n.entries[Ones(n.data, f)]
  {
    OnesAt(n.data, f, 32);
    n.entries[Ones(n.data, f)]
  }

  function ChildAt(n: Node, f: nat): (c: Node)
    requires Packed(n) && f < 32 && BitAt(n.kids, f)
    ensures Ones(n.kids, f) < |n.children| && c == n.children[Ones(n.kids, f)]
  {
    OnesAt(n.kids, f, 32);
    n.children[Ones(n.kids, f)]
  }

  /** Every node that is not a collision node is packed. */
  predicate Shaped(n: Node) {
    if IsCollision(n) then n.children == []
    else Packed(n) && forall i :: 0 <= i < |n.children| ==> Shaped(n.children[i])
  }

  // ---- the operations ----

  function Get(n: Node, hk: HashKey, h: nat, lvl: nat): Option<Entry>
    requires Shaped(n)
  {
    if IsCollision(n) then
      match IndexOf(n.entries, hk) case Some(i) => Some(n.entries[i]) case None => None
    else
      var f := Frag(h, lvl);
      if BitAt(n.data, f) then
        var e := EntryAt(n, f);
        if e.hk == hk then Some(e) else None
      else if BitAt(n.kids, f) then Get(ChildAt(n, f), hk, h, lvl + 1)
      else None
  }

  /** The subtree of two entries with distinct keys. */
  function Merge(a: Entry, ha: nat, b: Entry, hb: nat, lvl: nat): Node
    decreases DEPTH - lvl
  {
    if lvl >= DEPTH then Node(0, 0, [a, b], [])
    else
      var fa, fb := Frag(ha, lvl), Frag(hb, lvl);
      if fa == fb then Node(0, SetBit(0, fa), [], [Merge(a, ha, b, hb, lvl + 1)])
      else Node(SetBit(SetBit(0, fa), fb), 0, if fa < fb then [a, b] else [b, a], [])
  }

  /** The node with e in it, and whether its key is new. */
  function Assoc(n: Node, e: Entry, h: nat, lvl: nat, hash: HashKey -> nat): (Node, bool)
    requires Shaped(n)
  {
    if IsCollision(n) then
      match IndexOf(n.entries, e.hk)
      case Some(i) => (n.(entries := n.entries[i := e]), false)
      case None => (n.(entries := n.entries + [e]), true)
    else
      var f := Frag(h, lvl);
      if BitAt(n.data, f) then
        var cur := EntryAt(n, f);
        var i := Ones(n.data, f);
        if cur.hk == e.hk then (n.(entries := n.entries[i := e]), false)
        else
          OnesMono(n.kids, f, 32);
          (Node(ClearBit(n.data, f), SetBit(n.kids, f), Remove(n.entries, i),
                Insert(n.children, Ones(n.kids, f), Merge(cur, hash(cur.hk), e, h, lvl + 1))), true)
      else if BitAt(n.kids, f) then
        var (child, added) := Assoc(ChildAt(n, f), e, h, lvl + 1, hash);
        (n.(children := n.children[Ones(n.kids, f) := child]), added)
      else
        OnesMono(n.data, f, 32);
        (n.(data := SetBit(n.data, f), entries := Insert(n.entries, Ones(n.data, f), e)), true)
  }

  /** The node without hk, none if nothing is left of it, and whether the key was there. */
  function Dissoc(n: Node, hk: HashKey, h: nat, lvl: nat): (Option<Node>, bool)
    requires Shaped(n)
  {
    if IsCollision(n) then
      match IndexOf(n.entries, hk)
      case Some(i) => if |n.entries| == 1 then (None, true) else (Some(n.(entries := Remove(n.entries, i))), true)
      case None => (Some(n), false)
    else
      var f := Frag(h, lvl);
      if BitAt(n.data, f) then
        if EntryAt(n, f).hk != hk then (Some(n), false)
        else if n.data == SetBit(0, f) && n.kids == 0 then (None, true)
        else
          (Some(n.(data := ClearBit(n.data, f), entries := Remove(n.entries, Ones(n.data, f)))), true)
      else if BitAt(n.kids, f) then
        match Dissoc(ChildAt(n, f), hk, h, lvl + 1)
        case (Some(child), removed) =>
          if removed then (Some(n.(children := n.children[Ones(n.kids, f) := child])), true) else (Some(n), false)
        case (None, _) =>
          if n.data == 0 && n.kids == SetBit(0, f) then (None, true)
          else (Some(n.(kids := ClearBit(n.kids, f), children := Remove(n.children, Ones(n.kids, f)))), true)
      else (Some(n), false)
  }

  // ---- what a node holds ----

  /** x is somewhere in the node: the reference, by full scan. */
  predicate In(n: Node, x: Entry) {
    x in n.entries || exists i :: 0 <= i < |n.children| && In(n.children[i], x)
  }

  predicate Distinct(entries: seq<Entry>) {
    forall i, j :: 0 <= i < j < |entries| ==> entries[i].hk != entries[j].hk
  }

  predicate NonEmpty(n: Node) {
    n.entries != [] || n.children != []
  }

  datatype Slot = Vacant | Holds(e: Entry) | Leads(c: Node)

  /** The uncompacted view: what slot f holds. */
  function SlotAt(n: Node, f: nat): (s: Slot)
    requires Packed(n) && f < 32
    ensures s.Leads? ==> s.c in n.children
  {
    if BitAt(n.data, f) then Holds(EntryAt(n, f)) else if BitAt(n.kids, f) then Leads(ChildAt(n, f)) else Vacant
  }

  predicate InSlot(s: Slot, x: Entry) {
    match s
    case Vacant => false
    case Holds(e) => e == x
    case Leads(c) => In(c, x)
  }

  /** The shape every node keeps: collision nodes only where the hash is used up, compacted arrays
      elsewhere, every entry in the slot its hash names, no empty node below the root. */
  ghost predicate Wf(n: Node, lvl: nat, hash: HashKey -> nat)
    decreases n, 1
  {
    && Shaped(n)
    && if IsCollision(n) then lvl >= DEPTH && Distinct(n.entries)
       else lvl < DEPTH && forall f :: 0 <= f < 32 ==> SlotWf(n, f, lvl, hash)
  }

  ghost predicate SlotWf(n: Node, f: nat, lvl: nat, hash: HashKey -> nat)
    requires Packed(n) && f < 32
    decreases n, 0
  {
    var s := SlotAt(n, f);
    && (forall x :: InSlot(s, x) ==> Frag(hash(x.hk), lvl) == f)
    && (s.Leads? ==> Wf(s.c, lvl + 1, hash) && NonEmpty(s.c))
  }

  lemma {:induction false} NoCollision(n: Node)
    requires Packed(n)
    ensures !IsCollision(n)
  {
    OnesZero(32);
  }

  lemma {:induction false} InSomeSlot(n: Node, x: Entry) returns (f: nat)
    requires Packed(n) && In(n, x)
    ensures f < 32 && InSlot(SlotAt(n, f), x)
  {
    if x in n.entries {
      var i :| 0 <= i < |n.entries| && n.entries[i] == x;
      f := BitOf(n.data, 32, i);
    } else {
      var i :| 0 <= i < |n.children| && In(n.children[i], x);
      f := BitOf(n.kids, 32, i);
    }
  }

  lemma {:induction false} InFromSlot(n: Node, x: Entry, f: nat)
    requires Packed(n) && f < 32 && InSlot(SlotAt(n, f), x)
    ensures In(n, x)
  {
  }

  /** What a node holds is what the slot its hash names holds. */
  lemma {:induction false} InAt(n: Node, x: Entry, lvl: nat, hash: HashKey -> nat)
    requires Wf(n, lvl, hash) && Packed(n)
    ensures In(n, x) <==> InSlot(SlotAt(n, Frag(hash(x.hk), lvl)), x)
  {
    NoCollision(n);
    hide In;
    if In(n, x) {
      var f := InSomeSlot(n, x);
      assert SlotWf(n, f, lvl, hash);
    } else if InSlot(SlotAt(n, Frag(hash(x.hk), lvl)), x) {
      InFromSlot(n, x, Frag(hash(x.hk), lvl));
    }
  }

  /** get finds exactly the entries that are there. */
  lemma {:induction false} GetFinds(n: Node, x: Entry, lvl: nat, hash: HashKey -> nat)
    requires Wf(n, lvl, hash)
    ensures Get(n, x.hk, hash(x.hk), lvl) == Some(x) <==> In(n, x)
    decreases n
  {
    if IsCollision(n) {
      var r := IndexOf(n.entries, x.hk);
    } else {
      InAt(n, x, lvl, hash);
      var f := Frag(hash(x.hk), lvl);
      assert SlotWf(n, f, lvl, hash);
      if !BitAt(n.data, f) && BitAt(n.kids, f) { GetFinds(ChildAt(n, f), x, lvl + 1, hash); }
    }
  }

  /** A key is held at most once. */
  lemma {:induction false} Unique(n: Node, x: Entry, y: Entry, lvl: nat, hash: HashKey -> nat)
    requires Wf(n, lvl, hash) && In(n, x) && In(n, y) && x.hk == y.hk
    ensures x == y
  {
    hide In, Wf, Get;
    GetFinds(n, x, lvl, hash) by { assert Wf(n, lvl, hash); }
    GetFinds(n, y, lvl, hash);
  }

  // ---- one slot at a time ----

  /** n' is n but for slot f, which holds s. */
  predicate Updates(n: Node, n': Node, f: nat, s: Slot)
    requires Packed(n) && f < 32
  {
    && Packed(n') && SlotAt(n', f) == s
    && forall g :: 0 <= g < 32 && g != f ==> SlotAt(n', g) == SlotAt(n, g)
  }

  /** Places of different set bits differ, in bit order. */
  lemma {:induction false} Places(x: nat, f: nat, g: nat)
    requires BitAt(x, f) && g < 32 && f < 32
    ensures g <= f ==> Ones(x, g) <= Ones(x, f)
    ensures f < g ==> Ones(x, f) < Ones(x, g)
    ensures Ones(x, g) <= Ones(x, 32) && Ones(x, f) < Ones(x, 32)
  {
    if f < g { OnesAt(x, f, g); } else { OnesMono(x, g, f); }
    OnesMono(x, g, 32);
    OnesAt(x, f, 32);
  }

  lemma {:induction false} SetEntry(n: Node, f: nat, e: Entry)
    requires Packed(n) && f < 32 && BitAt(n.data, f)
    ensures Ones(n.data, f) < |n.entries|
    ensures Updates(n, n.(entries := n.entries[Ones(n.data, f) := e]), f, Holds(e))
  {
    Places(n.data, f, f);
    var n' := n.(entries := n.entries[Ones(n.data, f) := e]);
    forall g | 0 <= g < 32 && g != f ensures SlotAt(n', g) == SlotAt(n, g) {
      Places(n.data, f, g);
      if BitAt(n.data, g) { Places(n.data, g, f); }
    }
  }

  lemma {:induction false} SetChild(n: Node, f: nat, c: Node)
    requires Packed(n) && f < 32 && BitAt(n.kids, f)
    ensures Ones(n.kids, f) < |n.children|
    ensures Updates(n, n.(children := n.children[Ones(n.kids, f) := c]), f, Leads(c))
  {
    Places(n.kids, f, f);
    var n' := n.(children := n.children[Ones(n.kids, f) := c]);
    forall g | 0 <= g < 32 && g != f ensures SlotAt(n', g) == SlotAt(n, g) {
      Places(n.kids, f, g);
      if BitAt(n.kids, g) { Places(n.kids, g, f); }
    }
  }

  lemma {:induction false} AddEntry(n: Node, f: nat, e: Entry)
    requires Packed(n) && f < 32 && SlotAt(n, f).Vacant?
    ensures Ones(n.data, f) <= |n.entries|
    ensures Updates(n, n.(data := SetBit(n.data, f), entries := Insert(n.entries, Ones(n.data, f), e)), f, Holds(e))
  {
    OnesMono(n.data, f, 32);
    var i, d := Ones(n.data, f), SetBit(n.data, f);
    var n' := n.(data := d, entries := Insert(n.entries, i, e));
    BelowSet(n.data, f, 32);
    OnesSet(n.data, f, 32);
    forall g | 0 <= g < 32 ensures BitAt(d, g) == (g == f || BitAt(n.data, g)) { BitSet(n.data, f, g); }
    OnesSet(n.data, f, f);
    forall g | 0 <= g < 32 && g != f ensures SlotAt(n', g) == SlotAt(n, g) {
      OnesSet(n.data, f, g);
      if BitAt(n.data, g) { Places(n.data, g, f); }
    }
  }

  lemma {:induction false} AddChild(n: Node, f: nat, c: Node)
    requires Packed(n) && f < 32 && SlotAt(n, f).Vacant?
    ensures Ones(n.kids, f) <= |n.children|
    ensures Updates(n, n.(kids := SetBit(n.kids, f), children := Insert(n.children, Ones(n.kids, f), c)), f, Leads(c))
  {
    OnesMono(n.kids, f, 32);
    var i, d := Ones(n.kids, f), SetBit(n.kids, f);
    var n' := n.(kids := d, children := Insert(n.children, i, c));
    BelowSet(n.kids, f, 32);
    OnesSet(n.kids, f, 32);
    forall g | 0 <= g < 32 ensures BitAt(d, g) == (g == f || BitAt(n.kids, g)) { BitSet(n.kids, f, g); }
    OnesSet(n.kids, f, f);
    forall g | 0 <= g < 32 && g != f ensures SlotAt(n', g) == SlotAt(n, g) {
      OnesSet(n.kids, f, g);
      if BitAt(n.kids, g) { Places(n.kids, g, f); }
    }
  }

  lemma {:induction false} DropEntry(n: Node, f: nat)
    requires Packed(n) && f < 32 && BitAt(n.data, f)
    ensures Ones(n.data, f) < |n.entries|
    ensures Updates(n, n.(data := ClearBit(n.data, f), entries := Remove(n.entries, Ones(n.data, f))), f, Vacant)
  {
    Places(n.data, f, f);
    var i, d := Ones(n.data, f), ClearBit(n.data, f);
    var n' := n.(data := d, entries := Remove(n.entries, i));
    BelowClear(n.data, f, 32);
    OnesClear(n.data, f, 32);
    forall g | 0 <= g < 32 ensures BitAt(d, g) == (g != f && BitAt(n.data, g)) { BitClear(n.data, f, g); }
    forall g | 0 <= g < 32 && g != f ensures SlotAt(n', g) == SlotAt(n, g) {
      OnesClear(n.data, f, g);
      Places(n.data, f, g);
      if BitAt(n.data, g) { Places(n.data, g, f); }
    }
  }

  lemma {:induction false} DropChild(n: Node, f: nat)
    requires Packed(n) && f < 32 && BitAt(n.kids, f)
    ensures Ones(n.kids, f) < |n.children|
    ensures Updates(n, n.(kids := ClearBit(n.kids, f), children := Remove(n.children, Ones(n.kids, f))), f, Vacant)
  {
    Places(n.kids, f, f);
    var i, d := Ones(n.kids, f), ClearBit(n.kids, f);
    var n' := n.(kids := d, children := Remove(n.children, i));
    BelowClear(n.kids, f, 32);
    OnesClear(n.kids, f, 32);
    forall g | 0 <= g < 32 ensures BitAt(d, g) == (g != f && BitAt(n.kids, g)) { BitClear(n.kids, f, g); }
    forall g | 0 <= g < 32 && g != f ensures SlotAt(n', g) == SlotAt(n, g) {
      OnesClear(n.kids, f, g);
      Places(n.kids, f, g);
      if BitAt(n.kids, g) { Places(n.kids, g, f); }
    }
  }

  /** The entries held by n' are those of n, but for slot f. */
  predicate Holding(n: Node, n': Node, s: Slot, lvl: nat, f: nat, hash: HashKey -> nat, x: Entry) {
    In(n', x) <==> if Frag(hash(x.hk), lvl) == f then InSlot(s, x) else In(n, x)
  }

  /** Changing one slot for a good one keeps the shape and changes what that slot holds. */
  lemma {:induction false} Updated(n: Node, n': Node, f: nat, s: Slot, lvl: nat, hash: HashKey -> nat)
    requires Packed(n) && Wf(n, lvl, hash) && f < 32 && Updates(n, n', f, s)
    requires forall x :: InSlot(s, x) ==> Frag(hash(x.hk), lvl) == f
    requires s.Leads? ==> Wf(s.c, lvl + 1, hash) && NonEmpty(s.c)
    ensures Wf(n', lvl, hash)
    ensures forall x :: Holding(n, n', s, lvl, f, hash, x)
  {
    hide In, Packed;
    NoCollision(n);
    NoCollision(n');
    forall g | 0 <= g < 32 ensures SlotWf(n', g, lvl, hash) { assert SlotWf(n, g, lvl, hash); }
    ShapedBySlots(n', lvl, hash);
    forall x ensures Holding(n, n', s, lvl, f, hash, x) {
      InAt(n, x, lvl, hash);
      InAt(n', x, lvl, hash);
    }
  }

  lemma {:induction false} ShapedBySlots(n: Node, lvl: nat, hash: HashKey -> nat)
    requires Packed(n) && !IsCollision(n) && forall g :: 0 <= g < 32 ==> SlotWf(n, g, lvl, hash)
    ensures Shaped(n)
  {
    forall i | 0 <= i < |n.children| ensures Shaped(n.children[i]) {
      var g := BitOf(n.kids, 32, i);
      assert SlotWf(n, g, lvl, hash);
      assert !BitAt(n.data, g);
    }
  }

  // ---- assoc ----

  /** n' holds e and what n holds under other keys. */
  ghost predicate Put(n: Node, n': Node, e: Entry) {
    forall x :: In(n', x) <==> x == e || (In(n, x) && x.hk != e.hk)
  }

  ghost predicate Absent(n: Node, hk: HashKey) {
    forall x :: In(n, x) ==> x.hk != hk
  }

  /** A node of two entries whose hashes part here. */
  lemma {:induction false} TwoEntries(a: Entry, b: Entry, lvl: nat, hash: HashKey -> nat)
    requires lvl < DEPTH && Frag(hash(a.hk), lvl) < Frag(hash(b.hk), lvl)
    ensures var fa, fb := Frag(hash(a.hk), lvl), Frag(hash(b.hk), lvl);
            && SetBit(SetBit(0, fa), fb) == SetBit(SetBit(0, fb), fa)
            && var n := Node(SetBit(SetBit(0, fa), fb), 0, [a, b], []);
            Wf(n, lvl, hash) && forall x :: In(n, x) <==> x == a || x == b
  {
    hide Wf, Packed;
    var fa, fb, empty := Frag(hash(a.hk), lvl), Frag(hash(b.hk), lvl), Node(0, 0, [], []);
    EmptyWf(lvl, hash);
    OnesZero(fa);
    OnesZero(fb);
    NoBit(fa);
    OnesSet(0, fa, fb);
    var m := Node(SetBit(0, fa), 0, [a], []);
    assert Insert(empty.entries, 0, a) == [a] && Insert([a], 1, b) == [a, b];
    AddEntry(empty, fa, a);
    Updated(empty, m, fa, Holds(a), lvl, hash);
    AddEntry(m, fb, b);
    Updated(m, Node(SetBit(SetBit(0, fa), fb), 0, [a, b], []), fb, Holds(b), lvl, hash);
    SetsCommute(0, fa, fb);
  }

  lemma {:induction false} MergeHolds(a: Entry, b: Entry, lvl: nat, hash: HashKey -> nat)
    requires a.hk != b.hk && lvl <= DEPTH
    ensures var n := Merge(a, hash(a.hk), b, hash(b.hk), lvl);
            Wf(n, lvl, hash) && NonEmpty(n) && forall x :: In(n, x) <==> x == a || x == b
    decreases DEPTH - lvl
  {
    if lvl < DEPTH {
      var fa, fb := Frag(hash(a.hk), lvl), Frag(hash(b.hk), lvl);
      if fa < fb {
        TwoEntries(a, b, lvl, hash);
      } else if fb < fa {
        TwoEntries(b, a, lvl, hash);
      } else {
        hide Wf, Packed, IsCollision, Shaped;
        MergeHolds(a, b, lvl + 1, hash);
        EmptyWf(lvl, hash);
        OnesZero(fa);
        var n, c, empty := Merge(a, hash(a.hk), b, hash(b.hk), lvl), Merge(a, hash(a.hk), b, hash(b.hk),
            lvl + 1), Node(0, 0, [], []);
        AddChild(empty, fa, c);
        Updated(empty, n, fa, Leads(c), lvl, hash);
        forall x ensures In(n, x) <==> x == a || x == b { assert Holding(empty, n, Leads(c), lvl, fa, hash, x); }
      }
    }
  }

  lemma {:induction false} EmptyWf(lvl: nat, hash: HashKey -> nat)
    requires lvl < DEPTH
    ensures var n := Node(0, 0, [], []);
      Packed(n) && Wf(n, lvl, hash) && (forall f :: 0 <= f < 32 ==> SlotAt(n, f).Vacant?)
  {
    OnesZero(32);
    forall f | 0 <= f < 32 ensures !BitAt(0, f) { NoBit(f); }
    ZeroBelow(32);
  }

  lemma {:induction false} NoBit(f: nat)
    ensures !BitAt(0, f)
    decreases f
  {
    if f > 0 { NoBit(f - 1); }
  }

  lemma {:induction false} ZeroBelow(n: nat)
    ensures Below(0, n)
    decreases n
  {
    if n > 0 { ZeroBelow(n - 1); }
  }

  lemma {:induction false} CollisionPut(n: Node, e: Entry, lvl: nat, hash: HashKey -> nat)
    requires Wf(n, lvl, hash) && IsCollision(n)
    ensures var (n', added) := Assoc(n, e, hash(e.hk), lvl, hash);
            Wf(n', lvl, hash) && NonEmpty(n') && Put(n, n', e) && (added <==> Absent(n, e.hk))
  {
    var n' := Assoc(n, e, hash(e.hk), lvl, hash).0;
    match IndexOf(n.entries, e.hk)
    case Some(i) =>
      assert In(n, n.entries[i]);
      forall x ensures In(n', x) <==> x == e || (In(n, x) && x.hk != e.hk) {
        if In(n, x) && x.hk != e.hk {
          var j :| 0 <= j < |n.entries| && n.entries[j] == x;
          assert n'.entries[j] == x;
        }
        if x == e { assert n'.entries[i] == x; }
      }
    case None =>
      forall x ensures In(n', x) <==> x == e || (In(n, x) && x.hk != e.hk) {
        if x == e { assert n'.entries[|n.entries|] == e; }
      }
  }

  /** A slot changed so that it holds e and its old entries under other keys. */
  lemma {:induction false} PutBySlot(n: Node, n': Node, f: nat, s: Slot, e: Entry, lvl: nat, hash: HashKey -> nat)
    requires Packed(n) && Wf(n, lvl, hash) && f == Frag(hash(e.hk), lvl) && Updates(n, n', f, s)
    requires forall x :: InSlot(s, x) <==> x == e || (InSlot(SlotAt(n, f), x) && x.hk != e.hk)
    requires s.Leads? ==> Wf(s.c, lvl + 1, hash) && NonEmpty(s.c)
    requires !s.Vacant?
    ensures Wf(n', lvl, hash) && NonEmpty(n') && Put(n, n', e)
    ensures Absent(n, e.hk) <==> forall x :: InSlot(SlotAt(n, f), x) ==> x.hk != e.hk
  {
    hide In, Packed;
    NoCollision(n);
    assert SlotWf(n, f, lvl, hash);
    Updated(n, n', f, s, lvl, hash);
    forall x ensures In(n', x) <==> x == e || (In(n, x) && x.hk != e.hk) {
      assert Holding(n, n', s, lvl, f, hash, x);
      InAt(n, x, lvl, hash);
    }
    forall x ensures In(n, x) <==> InSlot(SlotAt(n, Frag(hash(x.hk), lvl)), x) { InAt(n, x, lvl, hash); }
    Occupied(n', f);
  }

  lemma {:induction false} Occupied(n: Node, f: nat)
    requires Packed(n) && f < 32 && !SlotAt(n, f).Vacant?
    ensures NonEmpty(n)
  {
  }

  /** assoc is map update: the new entry replaces what its key held, every other entry stays, and
      the flag says whether the key is new. */
  lemma {:induction false} AssocPuts(n: Node, e: Entry, lvl: nat, hash: HashKey -> nat)
    requires Wf(n, lvl, hash)
    ensures var (n', added) := Assoc(n, e, hash(e.hk), lvl, hash);
            Wf(n', lvl, hash) && NonEmpty(n') && Put(n, n', e) && (added <==> Absent(n, e.hk))
    decreases n
  {
    hide In, Packed, Absent, Put;
    if IsCollision(n) {
      CollisionPut(n, e, lvl, hash);
    } else {
      var f, n' := Frag(hash(e.hk), lvl), Assoc(n, e, hash(e.hk), lvl, hash).0;
      assert SlotWf(n, f, lvl, hash);
      if BitAt(n.data, f) {
        var cur := EntryAt(n, f);
        if cur.hk == e.hk {
          SetEntry(n, f, e);
          PutBySlot(n, n', f, Holds(e), e, lvl, hash);
          assert InSlot(SlotAt(n, f), cur);
        } else {
          var c := Merge(cur, hash(cur.hk), e, hash(e.hk), lvl + 1);
          MergeHolds(cur, e, lvl + 1, hash);
          EntryToChild(n, f, c);
          PutBySlot(n, n', f, Leads(c), e, lvl, hash);
        }
      } else if BitAt(n.kids, f) {
        var c := ChildAt(n, f);
        AssocPuts(c, e, lvl + 1, hash);
        var c' := Assoc(c, e, hash(e.hk), lvl + 1, hash).0;
        SetChild(n, f, c');
        PutIn(c, c', e);
        PutBySlot(n, n', f, Leads(c'), e, lvl, hash);
        AbsentIn(c, e.hk);
      } else {
        AddEntry(n, f, e);
        PutBySlot(n, n', f, Holds(e), e, lvl, hash);
      }
    }
  }

  lemma {:induction false} PutIn(c: Node, c': Node, e: Entry)
    requires Put(c, c', e)
    ensures forall x :: In(c', x) <==> x == e || (In(c, x) && x.hk != e.hk)
  {
    hide In;
  }

  lemma {:induction false} AbsentIn(c: Node, hk: HashKey)
    ensures Absent(c, hk) <==> forall x :: In(c, x) ==> x.hk != hk
  {
    hide In;
  }

  lemma {:induction false} EntryToChild(n: Node, f: nat, c: Node)
    requires Packed(n) && f < 32 && BitAt(n.data, f)
    ensures Ones(n.data, f) < |n.entries| && Ones(n.kids, f) <= |n.children|
    ensures Updates(n, Node(ClearBit(n.data, f), SetBit(n.kids, f), Remove(n.entries, Ones(n.data, f)),
        Insert(n.children, Ones(n.kids, f), c)), f, Leads(c))
  {
    DropEntry(n, f);
    AddChild(n.(data := ClearBit(n.data, f), entries := Remove(n.entries, Ones(n.data, f))), f, c);
  }

  // ---- dissoc ----

  /** What dissoc leaves: everything but hk, and nothing at all rather than an empty node. */
  ghost predicate Drops(n: Node, r: Option<Node>, hk: HashKey) {
    match r
    case Some(n') => forall x :: In(n', x) <==> In(n, x) && x.hk != hk
    case None => forall x :: In(n, x) ==> x.hk == hk
  }

  lemma {:induction false} RemoveHolds(entries: seq<Entry>, i: nat, x: Entry)
    requires i < |entries| && Distinct(entries)
    ensures x in Remove(entries, i) <==> x in entries && x.hk != entries[i].hk
    ensures Distinct(Remove(entries, i))
  {
    var r := Remove(entries, i);
    if x in entries && x.hk != entries[i].hk {
      var j :| 0 <= j < |entries| && entries[j] == x;
      assert r[if j < i then j else j - 1] == x;
    }
    if x in r {
      var j :| 0 <= j < |r| && r[j] == x;
      assert entries[if j < i then j else j + 1] == x;
    }
  }

  lemma {:induction false} CollisionDrop(n: Node, hk: HashKey, lvl: nat, hash: HashKey -> nat)
    requires Wf(n, lvl, hash) && IsCollision(n)
    ensures var (r, removed) := Dissoc(n, hk, hash(hk), lvl);
            && Drops(n, r, hk) && (removed <==> !Absent(n, hk)) && (!removed ==> r == Some(n))
            && (r.Some? ==> Wf(r.value, lvl, hash) && NonEmpty(r.value))
  {
    hide Distinct, Remove;
    match IndexOf(n.entries, hk)
    case None =>
    case Some(i) =>
      assert In(n, n.entries[i]);
      forall x
        ensures (x in Remove(n.entries, i) <==> x in n.entries && x.hk != hk) && Distinct(Remove(n.entries, i))
      {
        RemoveHolds(n.entries, i, x);
      }
      RemoveHolds(n.entries, i, n.entries[i]);
      if |n.entries| > 1 { RemoveLength(n.entries, i); }
  }

  lemma {:induction false} RemoveLength(entries: seq<Entry>, i: nat)
    requires i < |entries|
    ensures |Remove(entries, i)| == |entries| - 1
  {
  }

  lemma {:induction false} DropBySlot(n: Node, n': Node, f: nat, s: Slot, hk: HashKey, lvl: nat, hash: HashKey -> nat)
    requires Packed(n) && Wf(n, lvl, hash) && f == Frag(hash(hk), lvl) && Updates(n, n', f, s)
    requires forall x :: InSlot(s, x) <==> InSlot(SlotAt(n, f), x) && x.hk != hk
    requires s.Leads? ==> Wf(s.c, lvl + 1, hash) && NonEmpty(s.c)
    ensures Wf(n', lvl, hash) && Drops(n, Some(n'), hk)
  {
    hide In, Packed;
    NoCollision(n);
    assert SlotWf(n, f, lvl, hash);
    Updated(n, n', f, s, lvl, hash);
    forall x ensures In(n', x) <==> In(n, x) && x.hk != hk {
      assert Holding(n, n', s, lvl, f, hash, x);
      InAt(n, x, lvl, hash);
    }
  }

  /** Whether hk is in n is decided by its slot. */
  lemma {:induction false} AbsentBySlot(n: Node, hk: HashKey, lvl: nat, hash: HashKey -> nat)
    requires Packed(n) && Wf(n, lvl, hash)
    ensures Absent(n, hk) <==> forall x :: InSlot(SlotAt(n, Frag(hash(hk), lvl)), x) ==> x.hk != hk
  {
    hide In, Packed;
    var f := Frag(hash(hk), lvl);
    NoCollision(n);
    assert SlotWf(n, f, lvl, hash);
    forall x ensures In(n, x) <==> InSlot(SlotAt(n, Frag(hash(x.hk), lvl)), x) { InAt(n, x, lvl, hash); }
  }

  /** One slot is all there is. */
  lemma {:induction false} LastSlot(n: Node, f: nat)
    requires Packed(n) && f < 32
    ensures BitAt(n.data, f) && n.data == SetBit(0, f) && n.kids == 0 ==> |n.entries| == 1 && n.children == []
    ensures BitAt(n.kids, f) && n.kids == SetBit(0, f) && n.data == 0 ==> |n.children| == 1 && n.entries == []
    ensures BitAt(n.data, f) && !(n.data == SetBit(0, f) && n.kids == 0) ==> |n.entries| > 1 || n.children != []
    ensures BitAt(n.kids, f) && !(n.kids == SetBit(0, f) && n.data == 0) ==> |n.children| > 1 || n.entries != []
  {
    OnesZero(32);
    if BitAt(n.data, f) { OneBit(n.data, f, 32); OnesAt(n.data, f, 32); }
    if BitAt(n.kids, f) { OneBit(n.kids, f, 32); OnesAt(n.kids, f, 32); }
    if |n.children| == 0 { NoOnes(n.kids, 32); }
    if |n.entries| == 0 { NoOnes(n.data, 32); }
  }

  /** dissoc is map removal; a subtree emptied by it disappears. */
  lemma {:induction false} DissocDrops(n: Node, hk: HashKey, lvl: nat, hash: HashKey -> nat)
    requires Wf(n, lvl, hash)
    ensures var (r, removed) := Dissoc(n, hk, hash(hk), lvl);
            && Drops(n, r, hk) && (removed <==> !Absent(n, hk)) && (!removed ==> r == Some(n))
            && (r.Some? ==> Wf(r.value, lvl, hash) && (NonEmpty(n) ==> NonEmpty(r.value)))
    decreases n
  {
    hide In, Packed, Absent, Drops;
    if IsCollision(n) {
      CollisionDrop(n, hk, lvl, hash);
    } else {
      var f, r := Frag(hash(hk), lvl), Dissoc(n, hk, hash(hk), lvl).0;
      assert SlotWf(n, f, lvl, hash);
      AbsentBySlot(n, hk, lvl, hash);
      LastSlot(n, f);
      if BitAt(n.data, f) {
        assert InSlot(SlotAt(n, f), EntryAt(n, f));
        if EntryAt(n, f).hk != hk {
          KeepsAll(n, hk);
        } else if n.data == SetBit(0, f) && n.kids == 0 {
          OnlyEntry(n, hk);
        } else {
          DropEntry(n, f);
          DropBySlot(n, r.value, f, Vacant, hk, lvl, hash);
        }
      } else if BitAt(n.kids, f) {
        DissocChild(n, hk, lvl, hash);
      } else {
        KeepsAll(n, hk);
      }
    }
  }

  lemma {:induction false} KeepsAll(n: Node, hk: HashKey)
    requires Absent(n, hk)
    ensures Drops(n, Some(n), hk)
  {
  }

  lemma {:induction false} OnlyEntry(n: Node, hk: HashKey)
    requires |n.entries| == 1 && n.children == [] && n.entries[0].hk == hk
    ensures Drops(n, None, hk)
  {
  }

  lemma {:induction false} OnlyChild(n: Node, hk: HashKey)
    requires |n.children| == 1 && n.entries == [] && Drops(n.children[0], None, hk)
    ensures Drops(n, None, hk)
  {
  }

  lemma {:induction false} DissocChild(n: Node, hk: HashKey, lvl: nat, hash: HashKey -> nat)
    requires Packed(n) && Wf(n, lvl, hash) && SlotAt(n, Frag(hash(hk), lvl)).Leads?
    ensures var (r, removed) := Dissoc(n, hk, hash(hk), lvl);
            && Drops(n, r, hk) && (removed <==> !Absent(n, hk)) && (!removed ==> r == Some(n))
            && (r.Some? ==> Wf(r.value, lvl, hash) && (NonEmpty(n) ==> NonEmpty(r.value)))
    decreases n, 0
  {
    NoCollision(n);
    hide In, Packed, Absent, Drops, IsCollision;
    var f, r := Frag(hash(hk), lvl), Dissoc(n, hk, hash(hk), lvl).0;
    assert SlotWf(n, f, lvl, hash);
    AbsentBySlot(n, hk, lvl, hash);
    LastSlot(n, f);
    var c := ChildAt(n, f);
    DissocDrops(c, hk, lvl + 1, hash);
    var (rc, removed) := Dissoc(c, hk, hash(hk), lvl + 1);
    AbsentIn(c, hk);
    DropsIn(c, rc, hk);
    if !removed {
      KeepsAll(n, hk);
    } else if rc.Some? {
      SetChild(n, f, rc.value);
      DropBySlot(n, r.value, f, Leads(rc.value), hk, lvl, hash);
    } else if n.data == 0 && n.kids == SetBit(0, f) {
      OnlyChild(n, hk);
    } else {
      DropChild(n, f);
      DropBySlot(n, r.value, f, Vacant, hk, lvl, hash);
    }
  }

  lemma {:induction false} DropsIn(c: Node, r: Option<Node>, hk: HashKey)
    requires Drops(c, r, hk)
    ensures r.Some? ==> forall x :: In(r.value, x) <==> In(c, x) && x.hk != hk
    ensures r.None? ==> forall x :: In(c, x) ==> x.hk == hk
  {
    hide In;
  }

  // ---- as a map ----

  ghost function Keys(n: Node): set<HashKey> {
    (set i | 0 <= i < |n.entries| :: n.entries[i].hk) +
    (set i, k | 0 <= i < |n.children| && k in Keys(n.children[i]) :: k)
  }

  lemma {:induction false} KeysIn(n: Node, k: HashKey)
    ensures k in Keys(n) <==> exists x :: In(n, x) && x.hk == k
    decreases n
  {
    if k in Keys(n) {
      if i :| 0 <= i < |n.entries| && n.entries[i].hk == k {
        assert In(n, n.entries[i]);
      } else {
        var i :| 0 <= i < |n.children| && k in Keys(n.children[i]);
        KeysIn(n.children[i], k);
        var x :| In(n.children[i], x) && x.hk == k;
        assert In(n, x);
      }
    }
    if x :| In(n, x) && x.hk == k {
      if x in n.entries {
        var i :| 0 <= i < |n.entries| && n.entries[i] == x;
      } else {
        var i :| 0 <= i < |n.children| && In(n.children[i], x);
        KeysIn(n.children[i], k);
      }
    }
  }

  ghost predicate IsEntry(n: Node, x: Entry, k: HashKey) {
    In(n, x) && x.hk == k
  }

  /** What the trie denotes. */
  ghost function Contents(n: Node): map<HashKey, Entry> {
    map k | k in Keys(n) && exists x :: IsEntry(n, x, k) :: var x :| IsEntry(n, x, k); x
  }

  ghost predicate Denotes(n: Node, m: map<HashKey, Entry>) {
    forall x :: In(n, x) <==> x.hk in m && m[x.hk] == x
  }

  lemma {:induction false} ContentsDenotes(n: Node, lvl: nat, hash: HashKey -> nat)
    requires Wf(n, lvl, hash)
    ensures Denotes(n, Contents(n)) && Keyed(Contents(n))
  {
    hide In, Wf;
    forall x ensures In(n, x) <==> x.hk in Contents(n) && Contents(n)[x.hk] == x {
      KeysIn(n, x.hk);
      if In(n, x) {
        assert IsEntry(n, x, x.hk);
        Unique(n, x, Contents(n)[x.hk], lvl, hash);
      }
    }
  }

  /** Every entry is under its own key. */
  ghost predicate Keyed(m: map<HashKey, Entry>) {
    forall k :: k in m ==> m[k].hk == k
  }

  lemma {:induction false} DenotesOne(n: Node, m: map<HashKey, Entry>, m': map<HashKey, Entry>)
    requires Denotes(n, m) && Denotes(n, m') && Keyed(m) && Keyed(m')
    ensures m == m'
  {
    hide In;
    forall k ensures k in m <==> k in m' {
      if k in m { assert In(n, m[k]); }
      if k in m' { assert In(n, m'[k]); }
    }
    forall k | k in m ensures m[k] == m'[k] { assert In(n, m[k]); }
  }

  lemma {:induction false} GetIs(n: Node, m: map<HashKey, Entry>, hk: HashKey, lvl: nat, hash: HashKey -> nat)
    requires Wf(n, lvl, hash) && Denotes(n, m) && Keyed(m)
    ensures Get(n, hk, hash(hk), lvl) == if hk in m then Some(m[hk]) else None
  {
    hide In, Wf;
    var r := Get(n, hk, hash(hk), lvl) by { ShapedWf(n, lvl, hash); }
    ShapedWf(n, lvl, hash);
    if hk in m {
      assert In(n, m[hk]);
      GetFinds(n, m[hk], lvl, hash);
    } else if r.Some? {
      GetKey(n, hk, hash(hk), lvl);
      GetFinds(n, r.value, lvl, hash);
    }
  }

  lemma {:induction false} ShapedWf(n: Node, lvl: nat, hash: HashKey -> nat)
    requires Wf(n, lvl, hash)
    ensures Shaped(n)
  {
  }

  lemma {:induction false} GetKey(n: Node, hk: HashKey, h: nat, lvl: nat)
    requires Shaped(n)
    ensures Get(n, hk, h, lvl).Some? ==> Get(n, hk, h, lvl).value.hk == hk
    decreases n
  {
    if !IsCollision(n) {
      var f := Frag(h, lvl);
      if !BitAt(n.data, f) && BitAt(n.kids, f) { GetKey(ChildAt(n, f), hk, h, lvl + 1); }
    }
  }

  lemma {:induction false} AssocIs(n: Node, m: map<HashKey, Entry>, e: Entry, lvl: nat, hash: HashKey -> nat)
    requires Wf(n, lvl, hash) && Denotes(n, m) && Keyed(m)
    ensures Shaped(n)
    ensures var (n', added) := Assoc(n, e, hash(e.hk), lvl, hash);
            Wf(n', lvl, hash) && Denotes(n', m[e.hk := e]) && Keyed(m[e.hk := e]) && added == (e.hk !in m)
  {
    hide In, Wf, Assoc;
    ShapedWf(n, lvl, hash);
    AssocPuts(n, e, lvl, hash);
    var (n', added) := Assoc(n, e, hash(e.hk), lvl, hash);
    AbsentIn(n, e.hk);
    if e.hk in m { assert In(n, m[e.hk]); }
  }

  lemma {:induction false} DissocIs(n: Node, m: map<HashKey, Entry>, hk: HashKey, lvl: nat, hash: HashKey -> nat)
    requires Wf(n, lvl, hash) && Denotes(n, m) && Keyed(m)
    ensures Shaped(n)
    ensures var (r, removed) := Dissoc(n, hk, hash(hk), lvl);
            && (r.Some? ==> Wf(r.value, lvl, hash) && Denotes(r.value, m - {hk})) && (r.None? ==> m - {hk} == map[])
            && Keyed(m - {hk}) && removed == (hk in m) && (r.None? <==> hk in m && m - {hk} == map[])
  {
    hide In, Wf, Dissoc;
    ShapedWf(n, lvl, hash);
    DissocDrops(n, hk, lvl, hash);
    var (r, removed) := Dissoc(n, hk, hash(hk), lvl);
    AbsentIn(n, hk);
    if hk in m { assert In(n, m[hk]); }
    if r.None? {
      forall k | k in m ensures k == hk { assert In(n, m[k]); }
    } else if hk in m {
      Held(n, m[hk]);
      var x := Inhabited(r.value, lvl, hash);
      assert x.hk in m - {hk};
    }
  }

  lemma {:induction false} Held(n: Node, x: Entry)
    requires In(n, x)
    ensures NonEmpty(n)
  {
  }

  /** A node that is not empty holds something. */
  lemma {:induction false} Inhabited(n: Node, lvl: nat, hash: HashKey -> nat) returns (x: Entry)
    requires Wf(n, lvl, hash) && NonEmpty(n)
    ensures In(n, x)
    decreases n
  {
    if n.entries != [] {
      x := n.entries[0];
    } else {
      NoCollisionOf(n);
      var f := BitOf(n.kids, 32, 0);
      assert SlotWf(n, f, lvl, hash);
      x := Inhabited(n.children[0], lvl + 1, hash);
    }
  }

  lemma {:induction false} NoCollisionOf(n: Node)
    requires n.entries == []
    ensures !IsCollision(n)
  {
  }

  // ---- whole runs ----

  datatype Update = Bind(e: Entry) | Unbind(hk: HashKey)

  /** One update of a root; an emptied root is replaced by an empty node on its next use. */
  ghost function Step(n: Node, u: Update, hash: HashKey -> nat): Node {
    if !Shaped(n) then n
    else
      match u
      case Bind(e) => Assoc(n, e, hash(e.hk), 0, hash).0
      case Unbind(hk) => (match Dissoc(n, hk, hash(hk), 0).0 case Some(n') => n' case None => Node(0, 0, [], []))
  }

  ghost function Run(us: seq<Update>, hash: HashKey -> nat): Node {
    if us == [] then Node(0, 0, [], []) else Step(Run(us[..|us| - 1], hash), us[|us| - 1], hash)
  }

  /** The same updates of a mathematical map. */
  ghost function Reference(us: seq<Update>): map<HashKey, Entry> {
    if us == [] then map[]
    else
      var m := Reference(us[..|us| - 1]);
      match us[|us| - 1]
      case Bind(e) => m[e.hk := e]
      case Unbind(hk) => m - {hk}
  }

  /** Whatever the hash function and the history, the trie keeps its shape and get is lookup in
      the map the history describes. */
  lemma {:induction false} RunMatches(us: seq<Update>, hk: HashKey, hash: HashKey -> nat)
    ensures Wf(Run(us, hash), 0, hash) && Denotes(Run(us, hash), Reference(us)) && Keyed(Reference(us))
    ensures Shaped(Run(us, hash))
    ensures Get(Run(us, hash), hk, hash(hk), 0) == if hk in Reference(us) then Some(Reference(us)[hk]) else None
    decreases |us|
  {
    hide In, Wf, Assoc, Dissoc, Get, Shaped;
    EmptyWf(0, hash);
    EmptyDenotes();
    if us != [] {
      var n, m := Run(us[..|us| - 1], hash), Reference(us[..|us| - 1]);
      RunMatches(us[..|us| - 1], hk, hash);
      match us[|us| - 1]
      case Bind(e) => AssocIs(n, m, e, 0, hash);
      case Unbind(k) => DissocIs(n, m, k, 0, hash);
    }
    GetIs(Run(us, hash), Reference(us), hk, 0, hash) by { ShapedWf(Run(us, hash), 0, hash); }
    ShapedWf(Run(us, hash), 0, hash);
  }

  lemma {:induction false} EmptyDenotes()
    ensures Denotes(Node(0, 0, [], []), map[]) && Keyed(map[])
  {
  }
}
