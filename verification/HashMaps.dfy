/** The map value: a sorted slice while small, a plain map while it is being built, a persistent
    trie once something has been derived from it. */
module HashMaps {
  import opened Forms
  import opened Arithmetic
  import opened Hamt

  // ---- keys ----

  function ToHashKey(v: Value): Option<HashKey> {
    match v
    case Bool(b) => Some(HashKey(0, if b then 1 else 0, ""))
    case Int(i) => Some(HashKey(2, i % TWO64, ""))
    case Key(name) => Some(HashKey(3, 0, name))
    case Nil => Some(HashKey(4, 0, ""))
    case Str(s) => Some(HashKey(5, 0, s))
    case Sym(name) => Some(HashKey(6, 0, name))
    case _ => None
  }

  predicate IsInt64(v: Value) {
    v.Int? ==> -(TWO64 / 2) <= v.i < TWO64 / 2
  }

  /** Everything but lists, vectors and functions is hashable, and key identity is value equality. */
  lemma {:induction false} KeyIdentity(a: Value, b: Value)
    requires IsInt64(a) && IsInt64(b)
    ensures ToHashKey(a).None? <==> a.List? || a.Vec? || a.Fn?
    ensures ToHashKey(a).Some? || ToHashKey(b).Some? ==> (ToHashKey(a) == ToHashKey(b) <==> a == b)
  {
    if a.Int? && b.Int? {
      assert forall i :: -(TWO64 / 2) <= i < TWO64 / 2 ==> i % TWO64 == if i < 0 then i + TWO64 else i;
    }
  }

  predicate StrLess(a: string, b: string) {
    if b == "" then false
    else if a == "" then true
    else a[0] < b[0] || (a[0] == b[0] && StrLess(a[1..], b[1..]))
  }

  /** The order of entries: by type group, then number, then text. */
  predicate Less(a: HashKey, b: HashKey) {
    if a.typ != b.typ then a.typ < b.typ
    else if a.num != b.num then a.num < b.num
    else StrLess(a.str, b.str)
  }

  /** Text is ordered by its first difference, a prefix before what goes on it. */
  lemma {:induction false} StrLessIs(a: string, b: string)
    ensures StrLess(a, b) <==> exists n: nat ::
      n <= |a| && n < |b| && a[..n] == b[..n] && (n == |a| || a[n] < b[n])
    decreases |a|
  {
    if StrLess(a, b) {
      var n := FirstDifference(a, b);
      assert n <= |a| && n < |b| && a[..n] == b[..n] && (n == |a| || a[n] < b[n]);
    }
    if n: nat :| n <= |a| && n < |b| && a[..n] == b[..n] && (n == |a| || a[n] < b[n]) {
      LessFrom(a, b, n);
    }
  }

  lemma {:induction false} FirstDifference(a: string, b: string) returns (n: nat)
    requires StrLess(a, b)
    ensures n <= |a| && n < |b| && a[..n] == b[..n] && (n == |a| || a[n] < b[n])
    decreases |a|
  {
    if a == "" || a[0] < b[0] {
      n := 0;
    } else {
      var m := FirstDifference(a[1..], b[1..]);
      n := m + 1;
      assert a[..n] == [a[0]] + a[1..][..m] && b[..n] == [b[0]] + b[1..][..m];
    }
  }

  lemma {:induction false} LessFrom(a: string, b: string, n: nat)
    requires n <= |a| && n < |b| && a[..n] == b[..n] && (n == |a| || a[n] < b[n])
    ensures StrLess(a, b)
    decreases n
  {
    if n > 0 {
      assert a[0] == a[..n][0] == b[..n][0] == b[0];
      assert a[1..][..n - 1] == a[..n][1..] && b[1..][..n - 1] == b[..n][1..];
      LessFrom(a[1..], b[1..], n - 1);
    }
  }

  /** The place of a value's kind among the keys of a map. */
  function Rank(v: Value): nat {
    match v
    case Bool(_) => 0
    case Int(_) => 1
    case Key(_) => 2
    case Nil => 3
    case Str(_) => 4
    case _ => 5
  }

  /** Keys come in the order booleans, integers, keywords, nil, strings, symbols; false before true,
      integers from zero up and then the negative ones from the least up, names and text as text. */
  lemma {:induction false} KeyOrder(a: Value, b: Value)
    requires ToHashKey(a).Some? && ToHashKey(b).Some? && IsInt64(a) && IsInt64(b)
    ensures Less(ToHashKey(a).value, ToHashKey(b).value) <==>
      || Rank(a) < Rank(b)
      || (a.Bool? && b.Bool? && !a.b && b.b)
      || (a.Int? && b.Int? && ((a.i >= 0 > b.i) || (a.i < b.i && (a.i >= 0 <==> b.i >= 0))))
      || (a.Str? && b.Str? && StrLess(a.s, b.s))
      || (((a.Key? && b.Key?) || (a.Sym? && b.Sym?)) && StrLess(a.name, b.name))
  {
    if a.Int? && b.Int? {
      assert forall i :: -(TWO64 / 2) <= i < TWO64 / 2 ==> i % TWO64 == if i < 0 then i + TWO64 else i;
    }
    NotLess("");
  }

  lemma {:induction false} NotLess(a: string)
    ensures !StrLess(a, a)
    decreases |a|
  {
    if a != "" { NotLess(a[1..]); }
  }

  lemma {:induction false} StrOrder(a: string, b: string, c: string)
    ensures !(StrLess(a, b) && StrLess(b, a)) && !StrLess(a, a)
    ensures StrLess(a, b) && StrLess(b, c) ==> StrLess(a, c)
    ensures a != b ==> StrLess(a, b) || StrLess(b, a)
    decreases |a| + |b| + |c|
  {
    if a != "" && b != "" {
      assert a == [a[0]] + a[1..] && b == [b[0]] + b[1..];
      StrOrder(a[1..], b[1..], if c != "" then c[1..] else "");
    }
    NotLess(a);
  }

  lemma {:induction false} Order(a: HashKey, b: HashKey, c: HashKey)
    ensures !(Less(a, b) && Less(b, a)) && !Less(a, a)
    ensures Less(a, b) && Less(b, c) ==> Less(a, c)
    ensures a != b ==> Less(a, b) || Less(b, a)
  {
    StrOrder(a.str, b.str, c.str);
  }

  predicate Sorted(es: seq<Entry>) {
    forall i, j :: 0 <= i < j < |es| ==> Less(es[i].hk, es[j].hk)
  }

  function MapOf(es: seq<Entry>): map<HashKey, Entry> {
    if es == [] then map[] else MapOf(es[..|es| - 1])[es[|es| - 1].hk := es[|es| - 1]]
  }

  lemma {:induction false} SortedMap(es: seq<Entry>)
    requires Sorted(es)
    ensures Keyed(MapOf(es)) && |MapOf(es)| == |es|
    ensures forall k :: k in MapOf(es) <==> exists i :: 0 <= i < |es| && es[i].hk == k
    ensures forall i :: 0 <= i < |es| ==> MapOf(es)[es[i].hk] == es[i]
    decreases |es|
  {
    if es != [] {
      var es1, last := es[..|es| - 1], es[|es| - 1];
      SortedMap(es1);
      forall i | 0 <= i < |es1| ensures es1[i].hk != last.hk { Order(es[i].hk, last.hk, last.hk); }
      forall k ensures k in MapOf(es) <==> exists i :: 0 <= i < |es| && es[i].hk == k {
        if k in MapOf(es1) {
          var i :| 0 <= i < |es1| && es1[i].hk == k;
          assert es[i].hk == k;
        }
        if i :| 0 <= i < |es| && es[i].hk == k {
          assert i < |es1| ==> es1[i].hk == k;
        }
      }
      forall i | 0 <= i < |es| ensures MapOf(es)[es[i].hk] == es[i] {
        if i < |es1| { assert es1[i] == es[i]; }
      }
    }
  }

  const SMALL: nat := 8

  /** Whichever large form is active; memo is a converted trie kept beside the builder map. */
  datatype Large = Large(m: Option<map<HashKey, Entry>>, root: Option<Node>, count: nat, memo: Option<Node>)

  ghost function LargeModel(l: Large): map<HashKey, Entry> {
    if l.root.Some? then Contents(l.root.value) else if l.m.Some? then l.m.value else map[]
  }

  ghost predicate LargeOk(l: Large, hash: HashKey -> nat) {
    && !(l.root.Some? && l.m.Some?)
    && (l.root.Some? ==> Wf(l.root.value, 0, hash) && l.memo.None?)
    && (l.m.Some? ==> Keyed(l.m.value))
    && (l.m.None? ==> l.count == |LargeModel(l)|)
    && (l.memo.Some? ==> Wf(l.memo.value, 0, hash) && Denotes(l.memo.value, LargeModel(l)))
  }

  datatype SetOutcome = Stored | Unhashable | NilMap

  class HashMap {
    var entries: seq<Entry>
    var large: Option<Large>
    const hash: HashKey -> nat

    ghost predicate Valid()
      reads this
    {
      match large
      case None => Sorted(entries) && |entries| <= SMALL
      case Some(l) => entries == [] && LargeOk(l, hash)
    }

    ghost function Model(): map<HashKey, Entry>
      reads this
    {
      match large
      case None => MapOf(entries)
      case Some(l) => LargeModel(l)
    }

    constructor (hash: HashKey -> nat)
      ensures Valid() && Model() == map[] && this.hash == hash && large.None?
    {
      this.entries, this.large, this.hash := [], None, hash;
    }

    constructor Small(entries: seq<Entry>, hash: HashKey -> nat)
      requires Sorted(entries) && |entries| <= SMALL
      ensures Valid() && Model() == MapOf(entries) && this.hash == hash && large.None?
    {
      this.entries, this.large, this.hash := entries, None, hash;
    }

    constructor Trie(root: Option<Node>, count: nat, hash: HashKey -> nat)
      requires root.Some? ==> Wf(root.value, 0, hash)
      requires count == |LargeModel(Large(None, root, count, None))|
      ensures Valid() && Model() == LargeModel(Large(None, root, count, None)) && this.hash == hash
      ensures large == Some(Large(None, root, count, None))
    {
      this.entries, this.large, this.hash := [], Some(Large(None, root, count, None)), hash;
    }

    /** Where hk is among the small entries, or where it would go. */
    method Find(hk: HashKey) returns (i: nat, found: bool)
      requires Valid() && large.None?
      ensures i <= |entries| && (found ==> i < |entries| && entries[i].hk == hk)
      ensures !found ==> forall j :: 0 <= j < i ==> Less(entries[j].hk, hk)
      ensures !found ==> forall j :: i <= j < |entries| ==> Less(hk, entries[j].hk)
      ensures found == (hk in Model())
    {
      SortedMap(entries);
      i := 0;
      while i < |entries|
        invariant i <= |entries| && forall j :: 0 <= j < i ==> Less(entries[j].hk, hk) && entries[j].hk != hk
      {
        if entries[i].hk == hk { return i, true; }
        if Less(hk, entries[i].hk) {
          forall j | i <= j < |entries| ensures Less(hk, entries[j].hk) && entries[j].hk != hk {
            Order(hk, entries[i].hk, entries[j].hk);
          }
          return i, false;
        }
        Order(entries[i].hk, hk, hk);
        i := i + 1;
      }
      return i, false;
    }

    method Get(key: Value) returns (v: Option<Value>)
      requires Valid()
      ensures match ToHashKey(key)
              case None => v == None
              case Some(hk) => v == if hk in Model() then Some(Model()[hk].v) else None
    {
      var key' := ToHashKey(key);
      if key'.None? { return None; }
      var hk := key'.value;
      if large.Some? {
        var l := large.value;
        if l.root.Some? {
          ContentsDenotes(l.root.value, 0, hash);
          GetIs(l.root.value, Contents(l.root.value), hk, 0, hash);
          var e := Hamt.Get(l.root.value, hk, hash(hk), 0);
          return if e.Some? then Some(e.value.v) else None;
        }
        if l.m.Some? && hk in l.m.value { return Some(l.m.value[hk].v); }
        return None;
      }
      var i, found := Find(hk);
      SortedMap(entries);
      return if found then Some(entries[i].v) else None;
    }

    method Len() returns (n: nat)
      requires Valid()
      ensures n == |Model()|
    {
      if large.Some? {
        var l := large.value;
        return if l.root.Some? then l.count else if l.m.Some? then |l.m.value| else 0;
      }
      SortedMap(entries);
      return |entries|;
    }

    lemma SmallIsSmall()
      requires Valid() && |Model()| > SMALL
      ensures large.Some?
    {
      if large.None? { SmallSize(entries); }
    }

    /** The trie form of a large map; a builder map is converted once and keeps the result. */
    method TrieRoot() returns (root: Node, count: nat)
      requires Valid() && large.Some?
      modifies this
      ensures Valid() && large.Some? && Model() == old(Model()) && IsEmptied() == old(IsEmptied())
      ensures Wf(root, 0, hash) && Denotes(root, Model()) && Keyed(Model()) && count == |Model()|
    {
      var l := large.value;
      if l.root.Some? {
        ContentsDenotes(l.root.value, 0, hash);
        return l.root.value, l.count;
      }
      var m := if l.m.Some? then l.m.value else map[];
      if l.memo.Some? { return l.memo.value, |m|; }
      root := BuildTrie(m, hash);
      large := Some(l.(memo := Some(root)));
      count := |m|;
    }

    /** A trie that dissoc emptied: neither large form is present. */
    predicate IsEmptied()
      reads this
    {
      large.Some? && large.value.root.None? && large.value.m.None?
    }

    method Assoc(key: Value, val: Value) returns (r: Option<HashMap>)
      requires Valid()
      modifies this
      ensures Valid() && Model() == old(Model()) && IsEmptied() == old(IsEmptied()) && large.Some? == old(large.Some?)
      ensures match ToHashKey(key)
              case None => r.None?
              case Some(hk) =>
                && r.Some? && fresh(r.value) && r.value.Valid() && r.value.hash == hash
                && r.value.Model() == Model()[hk := Entry(hk, key, val)]
    {
      hide Sorted, MapOf, Less, Contents, Denotes, Keyed, Wf, Hamt.Assoc, Hamt.Dissoc, ToHashKey;
      var key' := ToHashKey(key);
      if key'.None? { return None; }
      var hk := key'.value;
      var e := Entry(hk, key, val);
      if large.Some? {
        var root, count := TrieRoot();
        AssocIs(root, Model(), e, 0, hash);
        var (next, added) := Hamt.Assoc(root, e, hash(hk), 0, hash);
        TrieDenotes(next, Model()[hk := e], hash);
        var h := new HashMap.Trie(Some(next), if added then count + 1 else count, hash);
        return Some(h);
      }
      var i, found := Find(hk);
      SmallSize(entries);
      if found {
        Replaced(entries, i, e);
        var h := new HashMap.Small(entries[i := e], hash);
        return Some(h);
      }
      if |entries| >= SMALL {
        var root := TrieOf(entries, e, hash);
        TrieDenotes(root, Model()[hk := e], hash);
        var h := new HashMap.Trie(Some(root), |entries| + 1, hash);
        return Some(h);
      }
      Inserted(entries, i, e);
      var h := new HashMap.Small(entries[..i] + [e] + entries[i..], hash);
      return Some(h);
    }

    method Dissoc(key: Value) returns (r: Option<HashMap>)
      requires Valid()
      modifies this
      ensures Valid() && Model() == old(Model()) && IsEmptied() == old(IsEmptied()) && large.Some? == old(large.Some?)
      ensures match ToHashKey(key)
              case None => r.None?
              case Some(hk) =>
                && r.Some? && fresh(r.value) && r.value.Valid() && r.value.hash == hash
                && r.value.Model() == Model() - {hk} && (large.Some? ==> r.value.large.Some?)
                && r.value.IsEmptied() == (large.Some? && hk in Model() && |Model()| == 1)
    {
      hide Sorted, MapOf, Less, Contents, Denotes, Keyed, Wf, Hamt.Assoc, Hamt.Dissoc, ToHashKey;
      var key' := ToHashKey(key);
      if key'.None? { return None; }
      var hk := key'.value;
      if large.Some? {
        var root, count := TrieRoot();
        ghost var m := Model();
        DissocIs(root, m, hk, 0, hash);
        var (next, removed) := Hamt.Dissoc(root, hk, hash(hk), 0);
        if next.Some? { TrieDenotes(next.value, m - {hk}, hash); }
        RemovedSize(m, hk);
        var h := new HashMap.Trie(next, if removed then count - 1 else count, hash);
        return Some(h);
      }
      var kept := Without(entries, hk);
      var h := new HashMap.Small(kept, hash);
      return Some(h);
    }

    /** Insertion in place, for a map still being built. It needs a form to insert into: on an
        emptied trie there is none. */
    method Set(key: Value, val: Value) returns (r: SetOutcome)
      requires Valid()
      modifies this
      ensures Valid()
      ensures match ToHashKey(key)
              case None => r == Unhashable
              case Some(hk) => r == if old(IsEmptied()) then NilMap else Stored
      ensures Model() == if r == Stored then old(Model())[ToHashKey(key).value := Entry(ToHashKey(key).value, key, val)]
          else old(Model())
      ensures r == Stored ==> !IsEmptied()
    {
      hide Sorted, MapOf, Less, Contents, Denotes, Keyed, Wf, Hamt.Assoc, Hamt.Dissoc, ToHashKey;
      var key' := ToHashKey(key);
      if key'.None? { return Unhashable; }
      var hk := key'.value;
      var e := Entry(hk, key, val);
      if large.Some? {
        var l := large.value.(memo := None);
        large := Some(l);
        if l.root.Some? {
          ContentsDenotes(l.root.value, 0, hash);
          AssocIs(l.root.value, Contents(l.root.value), e, 0, hash);
          var (root, added) := Hamt.Assoc(l.root.value, e, hash(hk), 0, hash);
          TrieDenotes(root, Contents(l.root.value)[hk := e], hash);
          large := Some(l.(root := Some(root), count := if added then l.count + 1 else l.count));
          return Stored;
        }
        if l.m.None? { return NilMap; }
        KeyedPut(l.m.value, e);
        large := Some(l.(m := Some(l.m.value[hk := e])));
        return Stored;
      }
      var i, found := Find(hk);
      SmallSize(entries);
      if found {
        Replaced(entries, i, e);
        entries := entries[i := e];
      } else if |entries| >= SMALL {
        var m := ToMap(entries);
        KeyedPut(m, e);
        large := Some(Large(Some(m[hk := e]), None, 0, None));
        entries := [];
      } else {
        Inserted(entries, i, e);
        entries := entries[..i] + [e] + entries[i..];
      }
      return Stored;
    }
  }

  // ---- conversions ----

  lemma {:induction false} TrieDenotes(n: Node, m: map<HashKey, Entry>, hash: HashKey -> nat)
    requires Wf(n, 0, hash) && Denotes(n, m) && Keyed(m)
    ensures Contents(n) == m
  {
    ContentsDenotes(n, 0, hash);
    DenotesOne(n, m, Contents(n));
  }

  lemma {:induction false} RemovedSize(m: map<HashKey, Entry>, hk: HashKey)
    ensures |m - {hk}| == if hk in m then |m| - 1 else |m|
    ensures m - {hk} == map[] <==> |m - {hk}| == 0
  {
    var d := m - {hk};
    if hk in m {
      assert m == d[hk := m[hk]];
    } else {
      assert m == d;
    }
  }

  lemma {:induction false} MapsEqual(es: seq<Entry>, m: map<HashKey, Entry>)
    requires Sorted(es)
    requires forall k :: k in m <==> exists i :: 0 <= i < |es| && es[i].hk == k
    requires forall i :: 0 <= i < |es| ==> es[i].hk in m && m[es[i].hk] == es[i]
    ensures MapOf(es) == m
  {
    SortedMap(es);
    forall k | k in m ensures k in MapOf(es) && MapOf(es)[k] == m[k] {
      var i :| 0 <= i < |es| && es[i].hk == k;
    }
  }

  lemma {:induction false} Replaced(es: seq<Entry>, i: nat, e: Entry)
    requires Sorted(es) && i < |es| && es[i].hk == e.hk
    ensures Sorted(es[i := e]) && MapOf(es[i := e]) == MapOf(es)[e.hk := e]
  {
    SortedMap(es);
    var m, es' := MapOf(es)[e.hk := e], es[i := e];
    forall j | 0 <= j < |es| && j != i ensures es[j].hk != e.hk { Order(es[j].hk, e.hk, e.hk); }
    forall k ensures k in m <==> exists j :: 0 <= j < |es'| && es'[j].hk == k {
      if k in m {
        var j :| 0 <= j < |es| && es[j].hk == k;
        assert es'[j].hk == k;
      }
      if j :| 0 <= j < |es'| && es'[j].hk == k { assert es[j].hk == k; }
    }
    MapsEqual(es', m);
  }

  lemma {:induction false} InsertSorted(es: seq<Entry>, i: nat, e: Entry)
    requires Sorted(es) && i <= |es|
    requires forall j :: 0 <= j < i ==> Less(es[j].hk, e.hk)
    requires forall j :: i <= j < |es| ==> Less(e.hk, es[j].hk)
    ensures Sorted(es[..i] + [e] + es[i..])
  {
    hide Less;
    var es' := es[..i] + [e] + es[i..];
    forall j, k | 0 <= j < k < |es'| ensures Less(es'[j].hk, es'[k].hk) {
      var j', k' := if j < i then j else j - 1, if k < i then k else k - 1;
      assert j != i ==> es'[j] == es[j'];
      assert k != i ==> es'[k] == es[k'];
    }
  }

  lemma {:induction false} Inserted(es: seq<Entry>, i: nat, e: Entry)
    requires Sorted(es) && i <= |es|
    requires forall j :: 0 <= j < i ==> Less(es[j].hk, e.hk)
    requires forall j :: i <= j < |es| ==> Less(e.hk, es[j].hk)
    ensures Sorted(es[..i] + [e] + es[i..]) && MapOf(es[..i] + [e] + es[i..]) == MapOf(es)[e.hk := e]
  {
    hide Less, Sorted, MapOf;
    SortedMap(es);
    InsertSorted(es, i, e);
    var m, es' := MapOf(es)[e.hk := e], es[..i] + [e] + es[i..];
    assert es'[i] == e;
    forall j | 0 <= j < |es| ensures es[j].hk != e.hk && es[j] == es'[if j < i then j else j + 1] {
      Order(es[j].hk, e.hk, e.hk);
    }
    forall j | 0 <= j < |es'| ensures es'[j].hk in m && m[es'[j].hk] == es'[j] {
      if j != i { assert es'[j] == es[if j < i then j else j - 1]; }
    }
    forall k | k in m ensures exists j :: 0 <= j < |es'| && es'[j].hk == k {
      if k != e.hk {
        var j :| 0 <= j < |es| && es[j].hk == k;
        assert es'[if j < i then j else j + 1].hk == k;
      }
    }
    MapsEqual(es', m);
  }

  lemma {:induction false} SmallSize(es: seq<Entry>)
    requires Sorted(es)
    ensures |MapOf(es)| == |es| && Keyed(MapOf(es))
  {
    SortedMap(es);
  }

  lemma {:induction false} KeyedPut(m: map<HashKey, Entry>, e: Entry)
    requires Keyed(m)
    ensures Keyed(m[e.hk := e])
  {
  }

  lemma {:induction false} Snoc(es: seq<Entry>, x: Entry)
    ensures MapOf(es + [x]) == MapOf(es)[x.hk := x]
    ensures Sorted(es) && (forall j :: 0 <= j < |es| ==> Less(es[j].hk, x.hk)) ==> Sorted(es + [x])
  {
    assert (es + [x])[..|es|] == es;
  }

  lemma {:induction false} SortedAt(es: seq<Entry>)
    requires Sorted(es)
    ensures forall i, j :: 0 <= i < j < |es| ==> Less(es[i].hk, es[j].hk)
  {
  }

  /** The small entries but hk. */
  method Without(es: seq<Entry>, hk: HashKey) returns (kept: seq<Entry>)
    requires Sorted(es)
    ensures Sorted(kept) && |kept| <= |es| && MapOf(kept) == MapOf(es) - {hk}
  {
    hide Less, MapOf, Sorted;
    SortedAt(es);
    kept := [];
    NoneKept(hk);
    for i := 0 to |es|
      invariant Sorted(kept) && |kept| <= i && MapOf(kept) == MapOf(es[..i]) - {hk}
      invariant forall j, k :: 0 <= j < |kept| && i <= k < |es| ==> Less(kept[j].hk, es[k].hk)
    {
      assert es[..i + 1] == es[..i] + [es[i]];
      Snoc(es[..i], es[i]);
      PutMinus(MapOf(es[..i]), es[i], hk);
      if es[i].hk != hk {
        Snoc(kept, es[i]);
        kept := kept + [es[i]];
      }
    }
    assert es[..|es|] == es;
  }

  lemma {:induction false} PutMinus(m: map<HashKey, Entry>, x: Entry, hk: HashKey)
    ensures m[x.hk := x] - {hk} == if x.hk == hk then m - {hk} else (m - {hk})[x.hk := x]
  {
  }

  lemma {:induction false} NoneKept(hk: HashKey)
    ensures Sorted([]) && MapOf([]) == MapOf([]) - {hk}
  {
  }

  method ToMap(es: seq<Entry>) returns (m: map<HashKey, Entry>)
    ensures m == MapOf(es)
  {
    m := map[];
    for j := 0 to |es|
      invariant m == MapOf(es[..j])
    {
      assert es[..j + 1][..j] == es[..j];
      m := m[es[j].hk := es[j]];
    }
    assert es[..|es|] == es;
  }

  /** The trie of small entries plus one more. */
  method TrieOf(es: seq<Entry>, extra: Entry, hash: HashKey -> nat) returns (root: Node)
    requires Sorted(es)
    ensures Wf(root, 0, hash) && Denotes(root, MapOf(es)[extra.hk := extra]) && Keyed(MapOf(es)[extra.hk := extra])
  {
    root := Node(0, 0, [], []);
    EmptyWf(0, hash);
    for i := 0 to |es|
      invariant Wf(root, 0, hash) && Denotes(root, MapOf(es[..i])) && Keyed(MapOf(es[..i]))
    {
      assert es[..i + 1][..i] == es[..i];
      AssocIs(root, MapOf(es[..i]), es[i], 0, hash);
      root := Hamt.Assoc(root, es[i], hash(es[i].hk), 0, hash).0;
    }
    assert es[..|es|] == es;
    AssocIs(root, MapOf(es), extra, 0, hash);
    root := Hamt.Assoc(root, extra, hash(extra.hk), 0, hash).0;
  }

  /** The trie of a builder map, whatever order its entries are inserted in. */
  method BuildTrie(m: map<HashKey, Entry>, hash: HashKey -> nat) returns (root: Node)
    requires Keyed(m)
    ensures Wf(root, 0, hash) && Denotes(root, m)
  {
    root := Node(0, 0, [], []);
    EmptyWf(0, hash);
    ghost var done: map<HashKey, Entry> := map[];
    var todo := m.Keys;
    while todo != {}
      invariant todo <= m.Keys && done.Keys == m.Keys - todo && (forall k :: k in done ==> done[k] == m[k])
      invariant Wf(root, 0, hash) && Denotes(root, done) && Keyed(done)
      decreases |todo|
    {
      var k :| k in todo;
      AssocIs(root, done, m[k], 0, hash);
      root := Hamt.Assoc(root, m[k], hash(m[k].hk), 0, hash).0;
      done := done[k := m[k]];
      todo := todo - {k};
    }
    assert done == m;
  }

  ghost function FirstKeys(n: nat): set<HashKey> {
    set j: nat | j < n :: HashKey(2, j, "")
  }

  lemma {:induction false} NextKey(m: map<HashKey, Entry>, n: nat, e: Entry)
    requires n < TWO64 && m.Keys == FirstKeys(n) && |m| == n
    ensures ToHashKey(Int(n)) == Some(HashKey(2, n, "")) && HashKey(2, n, "") !in m
    ensures m[HashKey(2, n, "") := e].Keys == FirstKeys(n + 1) && |m[HashKey(2, n, "") := e]| == n + 1
  {
    assert FirstKeys(n + 1) == FirstKeys(n) + {HashKey(2, n, "")};
  }

  lemma {:induction false} LastKey(m: map<HashKey, Entry>, n: nat)
    requires n < TWO64 && m.Keys == FirstKeys(n + 1) && |m| == n + 1
    ensures ToHashKey(Int(n)) == Some(HashKey(2, n, "")) && HashKey(2, n, "") in m
    ensures (m - {HashKey(2, n, "")}).Keys == FirstKeys(n) && |m - {HashKey(2, n, "")}| == n
  {
    assert FirstKeys(n) == FirstKeys(n + 1) - {HashKey(2, n, "")};
    RemovedSize(m, HashKey(2, n, ""));
  }

  /** A map grown past the small form. */
  method Fill(hash: HashKey -> nat) returns (h: HashMap)
    ensures fresh(h) && h.Valid() && h.large.Some? && h.Model().Keys == FirstKeys(SMALL + 1) && |h.Model()| == SMALL + 1
  {
    h := new HashMap(hash);
    NoKeys();
    hide FirstKeys, ToHashKey, HashMap.Valid, HashMap.Model;
    for i := 0 to SMALL + 1
      invariant fresh(h) && h.Valid() && h.Model().Keys == FirstKeys(i) && |h.Model()| == i && !h.IsEmptied()
    {
      NextKey(h.Model(), i, Entry(HashKey(2, i, ""), Int(i), Nil));
      var _ := h.Set(Int(i), Nil);
    }
    h.SmallIsSmall();
  }

  /** The one map Set cannot write to is reachable: remove every key of a large map. */
  method EmptiedTrieRefusesSet(hash: HashKey -> nat) returns (r: SetOutcome)
    ensures r == NilMap
  {
    var h := Fill(hash);
    hide FirstKeys, ToHashKey, HashMap.Valid, HashMap.Model, HashMap.IsEmptied;
    for i := SMALL + 1 downto 0
      invariant fresh(h) && h.Valid() && h.large.Some? && h.Model().Keys == FirstKeys(i) && |h.Model()| == i
      invariant i == 0 ==> h.IsEmptied()
    {
      h := DropLast(h, i);
    }
    LastKeyOf();
    r := h.Set(Int(0), Nil);
  }

  method DropLast(h: HashMap, i: nat) returns (h': HashMap)
    requires i < TWO64 && h.Valid() && h.large.Some? && h.Model().Keys == FirstKeys(i + 1) && |h.Model()| == i + 1
    modifies h
    ensures fresh(h') && h'.Valid() && h'.large.Some? && h'.Model().Keys == FirstKeys(i) && |h'.Model()| == i
    ensures i == 0 ==> h'.IsEmptied()
  {
    hide FirstKeys, ToHashKey, HashMap.Valid, HashMap.Model, HashMap.IsEmptied;
    ghost var m := h.Model();
    LastKey(m, i);
    var g := h.Dissoc(Int(i));
    h' := g.value;
  }

  lemma {:induction false} NoKeys()
    ensures FirstKeys(0) == {}
  {
  }

  lemma {:induction false} LastKeyOf()
    ensures ToHashKey(Int(0)).Some?
  {
  }
}
