/** What it is for two literals to be the same to the constant pool, said without its equality:
    zeros have no sign and maps have no order. */
module Literals {
  import opened Forms
  import opened Interning
  import Hamt

  /** A value with the signs of its zeros and the orders of its maps forgotten. */
  datatype Norm =
    | Atom(v: Datum)
    | ZeroFloat
    | Items(vec: bool, items: seq<Norm>)
    | Table(entries: map<Hamt.HashKey, Norm>)

  function Normal(v: Datum): Norm {
    match v
    case DFloat(f) => if f.Zero? then ZeroFloat else Atom(v)
    case DList(items) => Items(false, NormalAll(items))
    case DVec(items) => Items(true, NormalAll(items))
    case DMap(entries) => Table(NormalEntries(entries))
    case _ => Atom(v)
  }

  function NormalAll(vs: seq<Datum>): (r: seq<Norm>)
    ensures |r| == |vs| && forall i :: 0 <= i < |vs| ==> r[i] == Normal(vs[i])
  {
    if vs == [] then [] else [Normal(vs[0])] + NormalAll(vs[1..])
  }

  function NormalEntries(es: seq<Entry>): map<Hamt.HashKey, Norm> {
    if es == [] then map[] else NormalEntries(es[1..])[es[0].hk := NormalEntry(es[0])]
  }

  function NormalEntry(e: Entry): Norm {
    Normal(e.v)
  }

  predicate Same(a: Datum, b: Datum) {
    Normal(a) == Normal(b)
  }

  /** No lambda, macro or host value inside. */
  predicate HostFree(v: Datum) {
    match v
    case DHost(_) => false
    case DList(items) => forall i :: 0 <= i < |items| ==> HostFree(items[i])
    case DVec(items) => forall i :: 0 <= i < |items| ==> HostFree(items[i])
    case DMap(entries) => forall i :: 0 <= i < |entries| ==> HostFree(entries[i].v)
    case _ => true
  }

  predicate NaNFree(v: Datum) {
    match v
    case DFloat(f) => !f.NaN?
    case DList(items) => forall i :: 0 <= i < |items| ==> NaNFree(items[i])
    case DVec(items) => forall i :: 0 <= i < |items| ==> NaNFree(items[i])
    case DMap(entries) => forall i :: 0 <= i < |entries| ==> NaNFree(entries[i].v)
    case _ => true
  }

  /** Nested no deeper than comparing goes, from a given depth on. */
  predicate Nests(v: Datum, depth: nat) {
    && depth <= EQUALITY_DEPTH
    && match v
       case DList(items) => forall i :: 0 <= i < |items| ==> Nests(items[i], depth + 1)
       case DVec(items) => forall i :: 0 <= i < |items| ==> Nests(items[i], depth + 1)
       case DMap(entries) => forall i :: 0 <= i < |entries| ==> Nests(entries[i].v, depth + 1)
       case _ => true
  }

  predicate Comparable(v: Datum, depth: nat) {
    NaNFree(v) && Nests(v, depth)
  }

  /** Two values, the first without host values, are equal exactly when they are the same, hold no
      NaN and are not nested too deep. */
  lemma {:induction false} EqualsExactly(h: Hosts, a: Datum, b: Datum, depth: nat)
    requires HostFree(a) && Wf(a) && Wf(b)
    ensures Equals(h, a, b, depth) <==> Same(a, b) && Comparable(a, depth)
    decreases a
  {
    hide EqualItems, EqualEntries, NormalEntries, NormalAll;
    if (a.DList? && b.DList?) || (a.DVec? && b.DVec?) {
      ListsExactly(h, a, b, depth);
    } else if a.DMap? && b.DMap? {
      MapsExactly(h, a, b, depth);
    }
  }

  lemma {:induction false} ListsExactly(h: Hosts, a: Datum, b: Datum, depth: nat)
    requires (a.DList? && b.DList?) || (a.DVec? && b.DVec?)
    requires HostFree(a) && Wf(a) && Wf(b)
    ensures Equals(h, a, b, depth) <==> Same(a, b) && Comparable(a, depth)
    decreases a, 0
  {
    hide EqualItems, EqualEntries, NormalEntries, NormalAll;
    ItemsExactly(h, a.items, b.items, depth + 1);
  }

  lemma {:induction false} ItemsExactly(h: Hosts, a: seq<Datum>, b: seq<Datum>, depth: nat)
    requires forall i :: 0 <= i < |a| ==> HostFree(a[i]) && Wf(a[i])
    requires forall i :: 0 <= i < |b| ==> Wf(b[i])
    ensures EqualItems(h, a, b, depth) <==>
      NormalAll(a) == NormalAll(b) && forall i :: 0 <= i < |a| ==> NaNFree(a[i]) && Nests(a[i], depth)
    decreases a
  {
    hide Equals, HostFree, Wf, Normal, NaNFree, Nests;
    if a == [] || b == [] {
      assert |NormalAll(a)| == |a| && |NormalAll(b)| == |b|;
    } else {
      EqualsExactly(h, a[0], b[0], depth);
      ItemsExactly(h, a[1..], b[1..], depth);
      assert forall i :: 0 < i < |a| ==> a[i] == a[1..][i - 1];
      NormalSplits(a, b);
    }
  }

  lemma {:induction false} NormalSplits(a: seq<Datum>, b: seq<Datum>)
    requires a != [] && b != []
    ensures NormalAll(a) == NormalAll(b) <==> Normal(a[0]) == Normal(b[0]) && NormalAll(a[1..]) == NormalAll(b[1..])
  {
    hide Normal;
    var x, y := NormalAll(a), NormalAll(b);
    assert x == [x[0]] + x[1..] && y == [y[0]] + y[1..];
    assert x[1..] == NormalAll(a[1..]) && y[1..] == NormalAll(b[1..]);
  }

  // ---- maps ----

  lemma {:induction false} EntriesAre(es: seq<Entry>, hk: Hamt.HashKey)
    ensures hk in NormalEntries(es) <==> Find(es, hk).Some?
    ensures hk in NormalEntries(es) ==> NormalEntries(es)[hk] == Normal(Find(es, hk).value)
    decreases |es|
  {
    hide Normal;
    if es == [] {
    } else {
      EntriesAre(es[1..], hk);
    }
  }

  lemma {:induction false} FindIs(es: seq<Entry>, i: nat)
    requires Unique(es) && i < |es|
    ensures Find(es, es[i].hk) == Some(es[i].v)
    decreases |es|
  {
    if i > 0 { FindIs(es[1..], i - 1); }
  }

  lemma {:induction false} EntriesCount(es: seq<Entry>)
    requires Unique(es)
    ensures |NormalEntries(es)| == |es|
    decreases |es|
  {
    hide Normal;
    if es == [] {
    } else {
      EntriesCount(es[1..]);
      EntriesAre(es[1..], es[0].hk);
      if Find(es[1..], es[0].hk).Some? {
        FindAt(es[1..], es[0].hk);
        assert false;
      }
      var m := NormalEntries(es[1..]);
      assert m[es[0].hk := NormalEntry(es[0])].Keys == m.Keys + {es[0].hk};
    }
  }

  /** Entry by entry, over the first map. */
  lemma {:induction false} EntriesExactly(h: Hosts, a: seq<Entry>, b: seq<Entry>, depth: nat)
    requires forall i :: 0 <= i < |a| ==> HostFree(a[i].v) && Wf(a[i].v)
    requires forall i :: 0 <= i < |b| ==> Wf(b[i].v)
    ensures EqualEntries(h, a, b, depth) <==> forall i :: 0 <= i < |a| ==>
      && Find(b, a[i].hk).Some? && Same(a[i].v, Find(b, a[i].hk).value)
      && NaNFree(a[i].v) && Nests(a[i].v, depth)
    decreases a
  {
    hide Equals, HostFree, Wf, Same, NaNFree, Nests, Find;
    if a == [] {
    } else {
      EntriesExactly(h, a[1..], b, depth);
      if Find(b, a[0].hk).Some? {
        FindAt(b, a[0].hk);
        EntryExactly(h, a[0], Find(b, a[0].hk).value, depth);
      }
      assert forall i :: 0 < i < |a| ==> a[i] == a[1..][i - 1];
    }
  }

  lemma {:induction false} EntryExactly(h: Hosts, e: Entry, b: Datum, depth: nat)
    requires HostFree(e.v) && Wf(e.v) && Wf(b)
    ensures EqualEntry(h, e, b, depth) <==> Same(e.v, b) && NaNFree(e.v) && Nests(e.v, depth)
    decreases e
  {
    hide Equals, HostFree, Wf, Same, NaNFree, Nests;
    EqualsExactly(h, e.v, b, depth);
  }

  /** As many entries, each with its like in the other, make the same table. */
  lemma {:induction false} TablesExactly(a: seq<Entry>, b: seq<Entry>)
    requires Unique(a) && Unique(b)
    ensures NormalEntries(a) == NormalEntries(b) <==>
      |a| == |b| && forall i :: 0 <= i < |a| ==> Find(b, a[i].hk).Some? && Same(a[i].v, Find(b, a[i].hk).value)
  {
    hide Normal, NormalEntries, Find;
    var x, y := NormalEntries(a), NormalEntries(b);
    EntriesCount(a);
    EntriesCount(b);
    forall i | 0 <= i < |a| ensures a[i].hk in x && x[a[i].hk] == Normal(a[i].v) {
      FindIs(a, i);
      EntriesAre(a, a[i].hk);
    }
    forall hk ensures (hk in y <==> Find(b, hk).Some?) && (hk in y ==> y[hk] == Normal(Find(b, hk).value)) {
      EntriesAre(b, hk);
    }
    if |a| == |b| && forall i :: 0 <= i < |a| ==> Find(b, a[i].hk).Some? && Same(a[i].v, Find(b, a[i].hk).value) {
      forall hk | hk in x ensures hk in y && x[hk] == y[hk] {
        EntriesAre(a, hk);
        FindAt(a, hk);
      }
      SameKeys(x, y);
    }
  }

  lemma {:induction false} SameKeys(x: map<Hamt.HashKey, Norm>, y: map<Hamt.HashKey, Norm>)
    requires |x| == |y| && forall k :: k in x ==> k in y && x[k] == y[k]
    ensures x == y
  {
    assert x.Keys <= y.Keys && |y.Keys - x.Keys| == |y.Keys| - |x.Keys|;
    assert y.Keys == x.Keys + (y.Keys - x.Keys);
  }

  lemma {:induction false} MapsExactly(h: Hosts, a: Datum, b: Datum, depth: nat)
    requires a.DMap? && b.DMap? && HostFree(a) && Wf(a) && Wf(b)
    ensures Equals(h, a, b, depth) <==> Same(a, b) && Comparable(a, depth)
    decreases a, 0
  {
    hide EqualEntries, NormalEntries;
    EntriesExactly(h, a.entries, b.entries, depth + 1);
    TablesExactly(a.entries, b.entries);
  }

  // ---- the pool of literals ----

  /** A value without host values has a fingerprint. */
  lemma {:induction false} Printed(h: Hosts, v: Datum, depth: nat)
    requires HostFree(v)
    ensures Fingerprint(h, v, depth).safe
    decreases v
  {
    hide FoldItems, FoldEntries, Mix, Xor, HashText, OfInt;
    if depth <= FINGERPRINT_DEPTH {
      match v {
        case DList(items) => PrintedAll(h, items, depth + 1, Print(11, true));
        case DVec(items) => PrintedAll(h, items, depth + 1, Print(12, true));
        case DMap(es) => PrintedEntries(h, es, depth + 1, Print(Mix(14, OfInt(|es|)), true));
        case _ =>
      }
    }
  }

  lemma {:induction false} PrintedAll(h: Hosts, vs: seq<Datum>, depth: nat, acc: Print)
    requires acc.safe && forall i :: 0 <= i < |vs| ==> HostFree(vs[i])
    ensures FoldItems(h, vs, depth, acc).safe
    decreases vs
  {
    hide Fingerprint, Mix, HostFree;
    if vs == [] {
    } else {
      Printed(h, vs[0], depth);
      var p := Fingerprint(h, vs[0], depth);
      PrintedAll(h, vs[1..], depth, Print(Mix(acc.hash, p.hash), true));
    }
  }

  lemma {:induction false} PrintedEntries(h: Hosts, es: seq<Entry>, depth: nat, acc: Print)
    requires acc.safe && forall i :: 0 <= i < |es| ==> HostFree(es[i].v)
    ensures FoldEntries(h, es, depth, acc).safe
    decreases es
  {
    hide Fingerprint, Mix, Xor, HostFree, EntryPrint;
    if es == [] {
    } else {
      PrintedEntry(h, es[0], depth);
      var p := EntryPrint(h, es[0], depth);
      PrintedEntries(h, es[1..], depth, Print(Xor(acc.hash, p.hash), true));
    }
  }

  lemma {:induction false} PrintedEntry(h: Hosts, e: Entry, depth: nat)
    requires HostFree(e.v)
    ensures EntryPrint(h, e, depth).safe
    decreases e
  {
    hide Fingerprint, Mix, HostFree, HashKeyOf;
    Printed(h, e.v, depth);
  }

  /** A literal: a well-formed value without host values that the pool can compare. */
  predicate Literal(v: Datum) {
    Wf(v) && HostFree(v) && Comparable(v, 0)
  }

  lemma {:induction false} LiteralsEqual(h: Hosts, a: Datum, b: Datum)
    requires Literal(a) && Literal(b)
    ensures Equals(h, a, b, 0) <==> Same(a, b)
  {
    hide Wf, HostFree, Comparable, Same, Equals;
    EqualsExactly(h, a, b, 0);
  }

  /** What a value is compared with gives the same answer for its like. */
  lemma {:induction false} FirstAlike(h: Hosts, constants: seq<Datum>, list: seq<nat>, v: Datum, w: Datum)
    requires Literal(v) && Literal(w) && Same(v, w) && forall i :: 0 <= i < |constants| ==> Literal(constants[i])
    ensures First(h, constants, list, v) == First(h, constants, list, w)
    decreases |list|
  {
    hide Literal, Equals;
    if list == [] {
    } else {
      FirstAlike(h, constants, list[1..], v, w);
      if list[0] < |constants| {
        LiteralsEqual(h, constants[list[0]], v);
        LiteralsEqual(h, constants[list[0]], w);
      }
    }
  }

  /** Two literals put into a pool of literals, one after the other, get the same index if and only
      if they are the same; whatever constants there were keep theirs. */
  method AddTwo(pool: Pool, v: Datum, w: Datum) returns (i: nat, j: nat)
    requires pool.Valid() && Literal(v) && Literal(w)
    requires forall k :: 0 <= k < |pool.constants| ==> Literal(pool.constants[k])
    modifies pool
    ensures pool.Valid() && old(pool.constants) <= pool.constants
    ensures i < |pool.constants| && j < |pool.constants|
    ensures Same(pool.constants[i], v) && Same(pool.constants[j], w)
    ensures i == j <==> Same(v, w)
  {
    hide Wf, HostFree, Comparable, Normal, Equals, Fingerprint, First, Honest;
    var h := pool.hosts;
    Printed(h, v, 0);
    Printed(h, w, 0);
    LiteralsEqual(h, v, v);
    LiteralsEqual(h, v, w);
    ghost var were := pool.constants;
    i := pool.AddConstant(v);
    LiteralsEqual(h, pool.constants[i], v);
    LiteralsEqual(h, pool.constants[i], w);
    ghost var now, buckets, slow := pool.constants, pool.buckets, pool.slow;
    if Same(v, w) {
      Agree(h, v, w, 0, 0);
      FirstAlike(h, now, Bucket(h, buckets, v), v, w);
      FirstAlike(h, now, slow, v, w);
    }
    j := pool.AddConstant(w);
    LiteralsEqual(h, pool.constants[j], w);
    if Same(v, w) && i >= |were| { AloneEqual(h, were, v, w, j); }
  }

  /** The same literal put twice into any pool, host values or not, gets one index. */
  method AddTwice(pool: Pool, v: Datum) returns (i: nat, j: nat)
    requires pool.Valid() && Literal(v)
    modifies pool
    ensures pool.Valid() && old(pool.constants) <= pool.constants && |pool.constants| <= |old(pool.constants)| + 1
    ensures i == j < |pool.constants| && Equals(pool.hosts, pool.constants[i], v, 0)
  {
    hide Wf, HostFree, Comparable, Normal, Equals, Fingerprint, First, Honest;
    Printed(pool.hosts, v, 0);
    LiteralsEqual(pool.hosts, v, v);
    ghost var were := pool.constants;
    i := pool.AddConstant(v);
    ghost var now := pool.constants;
    assert Equals(pool.hosts, now[i], v, 0) && Held(pool.hosts, now, v);
    j := pool.AddConstant(v);
  }

  /** The like of a literal the pool did not hold is found nowhere else. */
  lemma {:induction false} AloneEqual(h: Hosts, constants: seq<Datum>, v: Datum, w: Datum, j: nat)
    requires Literal(v) && Literal(w) && Same(v, w) && !Held(h, constants, v) && j <= |constants|
    requires forall k :: 0 <= k < |constants| ==> Literal(constants[k])
    requires Equals(h, (constants + [v])[j], w, 0)
    ensures j == |constants|
  {
    hide Literal, Equals;
    if j < |constants| {
      LiteralsEqual(h, constants[j], w);
      LiteralsEqual(h, constants[j], v);
    }
  }
}
