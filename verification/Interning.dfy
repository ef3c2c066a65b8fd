/** Constant interning: a structural fingerprint that equal values share, and the index over it
    that must find what a scan of the whole pool would find. */
module Interning {
  import opened Forms
  import opened Arithmetic
  import Hamt

  const EQUALITY_DEPTH: nat := 1024
  const FINGERPRINT_DEPTH: nat := 64

  /** A float as equality sees it: the two zeros, the values that equal nothing, the rest. */
  datatype Flt = Zero(negative: bool) | NaN(payload: nat) | Number(word: nat)

  /** A value of the constant pool. A map holds its entries in whatever order it iterates. */
  datatype Datum =
    | DNil
    | DBool(b: bool)
    | DInt(i: int)
    | DFloat(f: Flt)
    | DStr(s: string)
    | DSym(s: string)
    | DKey(s: string)
    | DFunc(s: string)
    | DList(items: seq<Datum>)
    | DVec(items: seq<Datum>)
    | DMap(entries: seq<Entry>)
    | DHost(id: nat)            // lambdas, macros and host values

  datatype Entry = Entry(hk: Hamt.HashKey, v: Datum)

  /** What host values decide for themselves: which values they equal, and their fingerprint. */
  datatype Hosts = Hosts(eq: (nat, Datum) -> bool, fp: nat -> Option<nat>)

  // ---- equality ----

  predicate FloatEq(a: Flt, b: Flt) {
    match (a, b)
    case (Zero(_), Zero(_)) => true
    case (Number(x), Number(y)) => x == y
    case _ => false
  }

  function Find(es: seq<Entry>, hk: Hamt.HashKey): Option<Datum> {
    if es == [] then None
    else if es[0].hk == hk then Some(es[0].v)
    else Find(es[1..], hk)
  }

  predicate Equals(h: Hosts, a: Datum, b: Datum, depth: nat)
    decreases a
  {
    depth <= EQUALITY_DEPTH &&
    match a
    case DHost(id) => h.eq(id, b)
    case DFloat(f) => b.DFloat? && FloatEq(f, b.f)
    case DList(items) => b.DList? && EqualItems(h, items, b.items, depth + 1)
    case DVec(items) => b.DVec? && EqualItems(h, items, b.items, depth + 1)
    case DMap(entries) => b.DMap? && |entries| == |b.entries| && EqualEntries(h, entries, b.entries, depth + 1)
    case _ => a == b
  }

  predicate EqualItems(h: Hosts, a: seq<Datum>, b: seq<Datum>, depth: nat)
    decreases a
  {
    if a == [] || b == [] then a == [] && b == []
    else Equals(h, a[0], b[0], depth) && EqualItems(h, a[1..], b[1..], depth)
  }

  /** Every entry has an equal one under its key. */
  predicate EqualEntries(h: Hosts, a: seq<Entry>, b: seq<Entry>, depth: nat)
    decreases a
  {
    if a == [] then true
    else
      var other := Find(b, a[0].hk);
      other.Some? && EqualEntry(h, a[0], other.value, depth) && EqualEntries(h, a[1..], b, depth)
  }

  predicate EqualEntry(h: Hosts, e: Entry, b: Datum, depth: nat)
    decreases e
  {
    Equals(h, e.v, b, depth)
  }

  // ---- fingerprints ----

  /** Bitwise exclusive or. */
  function Xor(a: nat, b: nat): nat {
    if a == 0 && b == 0 then 0 else (a % 2 + b % 2) % 2 + 2 * Xor(a / 2, b / 2)
  }

  /** On 64-bit words; the shift is by 29. */
  function Mix(h: nat, x: nat): nat {
    var m := (Xor(h, x) * 0x9E37_79B9_7F4A_7C15) % TWO64;
    Xor(m, m / 0x2000_0000)
  }

  function HashText(s: string): nat {
    if s == "" then 0xCBF2_9CE4_8422_2325
    else (Xor(HashText(s[..|s| - 1]), s[|s| - 1] as int % 256) * 0x100_0000_01B3) % TWO64
  }

  function OfInt(i: int): nat {
    i % TWO64
  }

  function HashKeyOf(hk: Hamt.HashKey): nat {
    Mix(OfInt(hk.typ), Mix(OfInt(hk.num), HashText(hk.str)))
  }

  /** The two zeros are given one pattern. */
  function FloatBits(f: Flt): nat {
    match f
    case Zero(_) => 0
    case NaN(p) => p
    case Number(b) => b
  }

  datatype Print = Print(hash: nat, safe: bool)

  function Fingerprint(h: Hosts, v: Datum, depth: nat): Print
    decreases v
  {
    if depth > FINGERPRINT_DEPTH then Print(0x9E37_79B9_7F4A_7C15, true)
    else match v
      case DNil => Print(2, true)
      case DBool(b) => Print(if b then 3 else 4, true)
      case DInt(i) => Print(Mix(5, OfInt(i)), true)
      case DFloat(f) => Print(Mix(6, FloatBits(f)), true)
      case DStr(s) => Print(Mix(7, HashText(s)), true)
      case DSym(s) => Print(Mix(8, HashText(s)), true)
      case DKey(s) => Print(Mix(9, HashText(s)), true)
      case DFunc(s) => Print(Mix(10, HashText(s)), true)
      case DList(items) => FoldItems(h, items, depth + 1, Print(11, true))
      case DVec(items) => FoldItems(h, items, depth + 1, Print(12, true))
      case DMap(entries) => FoldEntries(h, entries, depth + 1, Print(Mix(14, OfInt(|entries|)), true))
      case DHost(id) => if h.fp(id).Some? then Print(h.fp(id).value, true) else Print(0, false)
  }

  function FoldItems(h: Hosts, items: seq<Datum>, depth: nat, acc: Print): Print
    decreases items
  {
    if items == [] then acc
    else
      var p := Fingerprint(h, items[0], depth);
      FoldItems(h, items[1..], depth, Print(Mix(acc.hash, p.hash), acc.safe && p.safe))
  }

  function FoldEntries(h: Hosts, es: seq<Entry>, depth: nat, acc: Print): Print
    decreases es
  {
    if es == [] then acc
    else
      var p := EntryPrint(h, es[0], depth);
      FoldEntries(h, es[1..], depth, Print(Xor(acc.hash, p.hash), acc.safe && p.safe))
  }

  function EntryPrint(h: Hosts, e: Entry, depth: nat): Print
    decreases e
  {
    var p := Fingerprint(h, e.v, depth);
    Print(Mix(Mix(15, HashKeyOf(e.hk)), p.hash), p.safe)
  }

  // ---- well-formed values ----

  predicate Unique(es: seq<Entry>) {
    forall i, j :: 0 <= i < j < |es| ==> es[i].hk != es[j].hk
  }

  predicate Wf(v: Datum) {
    match v
    case DList(items) => forall i :: 0 <= i < |items| ==> Wf(items[i])
    case DVec(items) => forall i :: 0 <= i < |items| ==> Wf(items[i])
    case DMap(entries) => Unique(entries) && forall i :: 0 <= i < |entries| ==> Wf(entries[i].v)
    case _ => true
  }

  /** The promise a host value with a fingerprint makes. */
  ghost predicate Honest(h: Hosts) {
    forall id: nat, v: Datum, depth: nat ::
      h.fp(id).Some? && h.eq(id, v) && depth <= FINGERPRINT_DEPTH && Fingerprint(h, v, depth).safe ==>
      Fingerprint(h, v, depth).hash == h.fp(id).value
  }

  // ---- equal values share a fingerprint ----

  /** The keys and contributions of a map's entries. */
  function Parts(h: Hosts, es: seq<Entry>, depth: nat): seq<(Hamt.HashKey, nat)> {
    seq(|es|, i requires 0 <= i < |es| => (es[i].hk, EntryPrint(h, es[i], depth).hash))
  }

  function XorAll(ps: seq<(Hamt.HashKey, nat)>): nat {
    if ps == [] then 0 else Xor(ps[0].1, XorAll(ps[1..]))
  }

  lemma {:induction false} XorParts(a: nat, b: nat)
    ensures Xor(a, b) % 2 == (a % 2 + b % 2) % 2 && Xor(a, b) / 2 == Xor(a / 2, b / 2)
  {
    hide Xor;
    Halves((a % 2 + b % 2) % 2, Xor(a / 2, b / 2));
    XorUnfold(a, b);
  }

  lemma {:induction false} XorUnfold(a: nat, b: nat)
    ensures Xor(a, b) == (a % 2 + b % 2) % 2 + 2 * Xor(a / 2, b / 2)
  {
    if a == 0 && b == 0 { assert Xor(0, 0) == 0; }
  }

  lemma {:induction false} Halves(bit: nat, rest: nat)
    requires bit < 2
    ensures (bit + 2 * rest) % 2 == bit && (bit + 2 * rest) / 2 == rest
  {
  }

  lemma {:induction false} XorCommutes(a: nat, b: nat)
    ensures Xor(a, b) == Xor(b, a)
    decreases a + b
  {
    if a != 0 || b != 0 { XorCommutes(a / 2, b / 2); }
  }

  lemma {:induction false} XorZero(a: nat)
    ensures Xor(a, 0) == a
  {
    if a != 0 { XorZero(a / 2); }
  }

  lemma {:induction false} ParityAssoc(a: nat, b: nat, c: nat)
    ensures ((a % 2 + b % 2) % 2 + c % 2) % 2 == (a % 2 + (b % 2 + c % 2) % 2) % 2
  {
  }

  lemma {:induction false} XorAssoc(a: nat, b: nat, c: nat)
    ensures Xor(Xor(a, b), c) == Xor(a, Xor(b, c))
    decreases a + b + c
  {
    hide Xor;
    if a == 0 && b == 0 && c == 0 {
      XorZero(0);
    } else {
      XorAssoc(a / 2, b / 2, c / 2);
      XorParts(a, b);
      XorParts(b, c);
      XorParts(Xor(a, b), c);
      XorParts(a, Xor(b, c));
      ParityAssoc(a, b, c);
    }
  }

  lemma {:induction false} Shuffle(a: nat, b: nat, c: nat)
    ensures Xor(Xor(a, b), c) == Xor(a, Xor(b, c))
    ensures Xor(a, Xor(b, c)) == Xor(b, Xor(a, c))
    ensures Xor(a, 0) == a
  {
    hide Xor;
    XorAssoc(a, b, c);
    XorAssoc(b, a, c);
    XorCommutes(a, b);
    XorZero(a);
  }

  lemma {:induction false} XorWithout(ps: seq<(Hamt.HashKey, nat)>, j: nat)
    requires j < |ps|
    ensures XorAll(ps) == Xor(ps[j].1, XorAll(ps[..j] + ps[j + 1..]))
  {
    hide Xor;
    if j == 0 {
      assert ps[..0] + ps[1..] == ps[1..];
    } else {
      var rest := ps[..j] + ps[j + 1..];
      XorWithout(ps[1..], j - 1);
      assert rest[1..] == ps[1..][..j - 1] + ps[1..][j..];
      Shuffle(ps[0].1, ps[j].1, XorAll(rest[1..]));
    }
  }

  predicate UniqueParts(ps: seq<(Hamt.HashKey, nat)>) {
    forall i, j :: 0 <= i < j < |ps| ==> ps[i].0 != ps[j].0
  }

  /** Two lists of contributions, one per key, that agree key by key fold to the same value in
      whatever order they come. */
  lemma {:induction false} XorAgrees(ps: seq<(Hamt.HashKey, nat)>, qs: seq<(Hamt.HashKey, nat)>)
    requires |ps| == |qs| && UniqueParts(ps) && UniqueParts(qs)
    requires forall i :: 0 <= i < |ps| ==> ps[i] in qs
    ensures XorAll(ps) == XorAll(qs)
    decreases |ps|
  {
    hide Xor;
    if ps != [] {
      var j :| 0 <= j < |qs| && qs[j] == ps[0];
      var rest := qs[..j] + qs[j + 1..];
      XorWithout(qs, j);
      forall i | 0 <= i < |ps| - 1 ensures ps[1..][i] in rest {
        var k :| 0 <= k < |qs| && qs[k] == ps[i + 1];
        assert ps[0].0 != ps[i + 1].0;
        assert rest[if k < j then k else k - 1] == qs[k];
      }
      XorAgrees(ps[1..], rest);
    }
  }

  lemma {:induction false} FoldXor(h: Hosts, es: seq<Entry>, depth: nat, acc: Print)
    ensures FoldEntries(h, es, depth, acc).hash == Xor(acc.hash, XorAll(Parts(h, es, depth)))
    ensures FoldEntries(h, es, depth, acc).safe <==>
      acc.safe && forall i :: 0 <= i < |es| ==> EntryPrint(h, es[i], depth).safe
    decreases |es|
  {
    hide EntryPrint, Xor;
    if es == [] {
      Shuffle(acc.hash, 0, 0);
    } else {
      var p := EntryPrint(h, es[0], depth);
      FoldXor(h, es[1..], depth, Print(Xor(acc.hash, p.hash), acc.safe && p.safe));
      assert Parts(h, es, depth)[1..] == Parts(h, es[1..], depth);
      Shuffle(acc.hash, p.hash, XorAll(Parts(h, es[1..], depth)));
      assert forall i :: 0 < i < |es| ==> es[i] == es[1..][i - 1];
    }
  }

  lemma {:induction false} FindAt(es: seq<Entry>, hk: Hamt.HashKey)
    requires Find(es, hk).Some?
    ensures exists j :: 0 <= j < |es| && es[j].hk == hk && es[j].v == Find(es, hk).value
  {
    if es[0].hk != hk {
      FindAt(es[1..], hk);
      var j :| 0 <= j < |es| - 1 && es[1..][j].hk == hk && es[1..][j].v == Find(es[1..], hk).value;
      assert es[j + 1].hk == hk;
    } else {
      assert es[0].hk == hk;
    }
  }

  lemma {:induction false} FoldSafe(h: Hosts, items: seq<Datum>, depth: nat, acc: Print)
    requires FoldItems(h, items, depth, acc).safe
    ensures acc.safe && (items != [] ==> Fingerprint(h, items[0], depth).safe)
    decreases |items|
  {
    hide Fingerprint, Mix;
    if items != [] {
      var p := Fingerprint(h, items[0], depth);
      FoldSafe(h, items[1..], depth, Print(Mix(acc.hash, p.hash), acc.safe && p.safe));
    }
  }

  lemma {:induction false} EqualAt(h: Hosts, a: seq<Entry>, b: seq<Entry>, depth: nat, i: nat)
    requires EqualEntries(h, a, b, depth) && i < |a|
    ensures Find(b, a[i].hk).Some? && Equals(h, a[i].v, Find(b, a[i].hk).value, depth)
    decreases |a|
  {
    hide Equals, Find;
    if i > 0 { EqualAt(h, a[1..], b, depth, i - 1); }
  }

  predicate AllWf(items: seq<Datum>) {
    forall i :: 0 <= i < |items| ==> Wf(items[i])
  }

  /** Values that are equal at some depth have equal fingerprints at every depth, the
      truncation included. */
  lemma {:induction false} Agree(h: Hosts, a: Datum, b: Datum, depth: nat, at: nat)
    requires Honest(h) && Wf(a) && Wf(b) && Equals(h, a, b, depth)
    requires Fingerprint(h, a, at).safe && Fingerprint(h, b, at).safe
    ensures Fingerprint(h, a, at).hash == Fingerprint(h, b, at).hash
    decreases a
  {
    hide Mix, Xor, HashText, OfInt, EqualItems, EqualEntries, FoldItems, FoldEntries, AllWf;
    if at <= FINGERPRINT_DEPTH {
      match a {
        case DList(items) => AllOf(a); AllOf(b); AgreeItems(h, items, b.items, depth + 1, at + 1, Print(11, true));
        case DVec(items) => AllOf(a); AllOf(b); AgreeItems(h, items, b.items, depth + 1, at + 1, Print(12, true));
        case DMap(entries) => AgreeEntries(h, a, b, depth + 1, at + 1, Print(Mix(14, OfInt(|entries|)), true));
        case DHost(id) =>
        case _ =>
      }
    }
  }

  lemma {:induction false} AllOf(v: Datum)
    requires Wf(v)
    ensures v.DList? || v.DVec? ==> AllWf(v.items)
  {
  }

  lemma {:induction false} AgreeItems(h: Hosts, a: seq<Datum>, b: seq<Datum>, depth: nat, at: nat, acc: Print)
    requires Honest(h) && AllWf(a) && AllWf(b) && EqualItems(h, a, b, depth)
    requires FoldItems(h, a, at, acc).safe && FoldItems(h, b, at, acc).safe
    ensures FoldItems(h, a, at, acc) == FoldItems(h, b, at, acc)
    decreases a
  {
    hide Honest, Wf, Equals, Fingerprint, Mix;
    if a != [] {
      FoldSafe(h, a, at, acc);
      FoldSafe(h, b, at, acc);
      Agree(h, a[0], b[0], depth, at);
      var p := Fingerprint(h, a[0], at);
      AgreeItems(h, a[1..], b[1..], depth, at, Print(Mix(acc.hash, p.hash), acc.safe && p.safe));
    }
  }

  lemma {:induction false} AgreeEntry(h: Hosts, e: Entry, f: Entry, depth: nat, at: nat)
    requires Honest(h) && Wf(e.v) && Wf(f.v) && e.hk == f.hk && Equals(h, e.v, f.v, depth)
    requires EntryPrint(h, e, at).safe && EntryPrint(h, f, at).safe
    ensures EntryPrint(h, e, at).hash == EntryPrint(h, f, at).hash
    decreases e
  {
    hide Honest, Wf, Equals, Fingerprint, Mix, HashKeyOf;
    Agree(h, e.v, f.v, depth, at);
  }

  lemma {:induction false} AgreeEntries(h: Hosts, a: Datum, b: Datum, depth: nat, at: nat, acc: Print)
    requires Honest(h) && a.DMap? && b.DMap? && Wf(a) && Wf(b) && |a.entries| == |b.entries|
    requires EqualEntries(h, a.entries, b.entries, depth)
    requires FoldEntries(h, a.entries, at, acc).safe && FoldEntries(h, b.entries, at, acc).safe
    ensures FoldEntries(h, a.entries, at, acc).hash == FoldEntries(h, b.entries, at, acc).hash
    decreases a, 0
  {
    hide Honest, Equals, EntryPrint, EqualEntries, FoldEntries, Find, XorAll, Xor;
    var es, fs := a.entries, b.entries;
    FoldXor(h, es, at, acc);
    FoldXor(h, fs, at, acc);
    var ps, qs := Parts(h, es, at), Parts(h, fs, at);
    forall i | 0 <= i < |ps| ensures ps[i] in qs {
      EqualAt(h, es, fs, depth, i);
      FindAt(fs, es[i].hk);
      var j :| 0 <= j < |fs| && fs[j].hk == es[i].hk && fs[j].v == Find(fs, es[i].hk).value;
      AgreeEntry(h, es[i], fs[j], depth, at);
      assert qs[j] == ps[i];
    }
    XorAgrees(ps, qs);
  }

  // ---- the pool ----

  ghost predicate Held(h: Hosts, constants: seq<Datum>, v: Datum) {
    exists i :: 0 <= i < |constants| && Equals(h, constants[i], v, 0)
  }

  /** Every constant is listed: in the bucket of its fingerprint, or in the slow list. */
  ghost predicate Listed(h: Hosts, constants: seq<Datum>, buckets: map<nat, seq<nat>>, slow: seq<nat>, i: nat)
    requires i < |constants|
  {
    var p := Fingerprint(h, constants[i], 0);
    if p.safe then p.hash in buckets && i in buckets[p.hash] else i in slow
  }

  ghost predicate Indexed(h: Hosts, constants: seq<Datum>, upto: nat, buckets: map<nat, seq<nat>>, slow: seq<nat>)
    requires upto <= |constants|
  {
    forall i :: 0 <= i < upto ==> Listed(h, constants, buckets, slow, i)
  }

  /** Listing one more constant keeps the others listed. */
  lemma {:induction false} ListsNext(h: Hosts, constants: seq<Datum>, i: nat, buckets: map<nat, seq<nat>>,
      slow: seq<nat>)
    requires i < |constants| && Indexed(h, constants, i, buckets, slow)
    ensures var p := Fingerprint(h, constants[i], 0);
      if p.safe
      then Indexed(h, constants, i + 1, buckets[p.hash := (if p.hash in buckets then buckets[p.hash] else []) + [i]],
          slow)
      else Indexed(h, constants, i + 1, buckets, slow + [i])
  {
    hide Fingerprint;
    var p := Fingerprint(h, constants[i], 0);
    var list := if p.hash in buckets then buckets[p.hash] else [];
    assert (list + [i])[|list|] == i && (slow + [i])[|slow|] == i;
    var b, s := buckets, slow;
    if p.safe { b := buckets[p.hash := list + [i]]; } else { s := slow + [i]; }
    forall j | 0 <= j < i + 1 ensures Listed(h, constants, b, s, j) {
      var q := Fingerprint(h, constants[j], 0);
      if j < i {
        assert Listed(h, constants, buckets, slow, j);
        assert (j in list ==> j in list + [i]) && (j in slow ==> j in slow + [i]);
        if q.safe && p.safe && q.hash == p.hash {
          assert b[q.hash] == list + [i];
        }
      } else {
        assert j == i && i in list + [i] && i in slow + [i];
      }
    }
  }

  lemma {:induction false} ListsAfter(h: Hosts, constants: seq<Datum>, v: Datum, buckets: map<nat, seq<nat>>,
      slow: seq<nat>)
    requires Indexed(h, constants, |constants|, buckets, slow)
    ensures Indexed(h, constants + [v], |constants|, buckets, slow)
  {
    hide Fingerprint;
    forall i | 0 <= i < |constants| ensures Listed(h, constants + [v], buckets, slow, i) {
      assert Listed(h, constants, buckets, slow, i);
    }
  }

  /** A constant equal to v is on one of the two lists that are searched for v. */
  lemma {:induction false} Searched(h: Hosts, constants: seq<Datum>, buckets: map<nat, seq<nat>>, slow: seq<nat>,
      v: Datum, i: nat)
    requires Honest(h) && Indexed(h, constants, |constants|, buckets, slow) && Fingerprint(h, v, 0).safe
    requires AllWf(constants) && Wf(v) && i < |constants| && Equals(h, constants[i], v, 0)
    ensures i in slow || (Fingerprint(h, v, 0).hash in buckets && i in buckets[Fingerprint(h, v, 0).hash])
  {
    hide Honest, Fingerprint, Equals, Wf;
    assert Listed(h, constants, buckets, slow, i);
    if Fingerprint(h, constants[i], 0).safe { Agree(h, constants[i], v, 0, 0); }
  }

  /** The first constant on the list that equals v. */
  function First(h: Hosts, constants: seq<Datum>, list: seq<nat>, v: Datum): Option<nat> {
    if list == [] then None
    else if list[0] < |constants| && Equals(h, constants[list[0]], v, 0) then Some(list[0])
    else First(h, constants, list[1..], v)
  }

  lemma {:induction false} FirstIs(h: Hosts, constants: seq<Datum>, list: seq<nat>, v: Datum)
    ensures var r := First(h, constants, list, v);
      && (r.Some? ==> r.value in list && r.value < |constants| && Equals(h, constants[r.value], v, 0))
      && (r.None? ==> forall i :: i in list && i < |constants| ==> !Equals(h, constants[i], v, 0))
    decreases |list|
  {
    hide Equals;
    if list == [] {
    } else {
      FirstIs(h, constants, list[1..], v);
      assert forall i :: i in list <==> i == list[0] || i in list[1..];
    }
  }

  function Bucket(h: Hosts, buckets: map<nat, seq<nat>>, v: Datum): seq<nat> {
    var p := Fingerprint(h, v, 0);
    if p.hash in buckets then buckets[p.hash] else []
  }

  class Pool {
    const hosts: Hosts
    var constants: seq<Datum>
    var built: bool
    var buckets: map<nat, seq<nat>>
    var slow: seq<nat>

    /** A pool that may hold constants before it has an index. */
    constructor (hosts: Hosts, constants: seq<Datum>)
      requires Honest(hosts) && AllWf(constants)
      ensures Valid() && this.hosts == hosts && this.constants == constants
    {
      this.hosts, this.constants, built, buckets, slow := hosts, constants, false, map[], [];
    }

    ghost predicate Valid()
      reads this
    {
      Honest(hosts) && AllWf(constants) && if built then Indexed(hosts, constants, |constants|, buckets, slow)
          else buckets == map[] && slow == []
    }

    method IndexConstant(i: nat)
      requires i < |constants| && Indexed(hosts, constants, i, buckets, slow)
      modifies this`buckets, this`slow
      ensures Indexed(hosts, constants, i + 1, buckets, slow)
    {
      hide Fingerprint, Indexed;
      ListsNext(hosts, constants, i, buckets, slow);
      var p := Fingerprint(hosts, constants[i], 0);
      if p.safe {
        buckets := buckets[p.hash := (if p.hash in buckets then buckets[p.hash] else []) + [i]];
      } else {
        slow := slow + [i];
      }
    }

    method EnsureIndex()
      requires Valid()
      modifies this`built, this`buckets, this`slow
      ensures Valid() && built && (old(built) ==> buckets == old(buckets) && slow == old(slow))
    {
      hide Fingerprint, Honest, Wf;
      if built { return; }
      built, buckets := true, map[];
      for i := 0 to |constants|
        invariant built && Indexed(hosts, constants, i, buckets, slow)
      {
        IndexConstant(i);
      }
    }

    method FindIn(list: seq<nat>, v: Datum) returns (r: Option<nat>)
      ensures r == First(hosts, constants, list, v)
    {
      hide Equals;
      for k := 0 to |list|
        invariant First(hosts, constants, list, v) == First(hosts, constants, list[k..], v)
      {
        var i := list[k];
        assert list[k..][0] == i && list[k..][1..] == list[k + 1..];
        if i < |constants| && Equals(hosts, constants[i], v, 0) { return Some(i); }
      }
      return None;
    }

    /** The first equal constant of v's bucket, or of the slow list. */
    method FindConstant(v: Datum) returns (r: Option<nat>)
      requires Valid() && built && Wf(v) && Fingerprint(hosts, v, 0).safe
      ensures r.Some? <==> Held(hosts, constants, v)
      ensures r.Some? ==> r.value < |constants| && Equals(hosts, constants[r.value], v, 0)
      ensures var a := First(hosts, constants, Bucket(hosts, buckets, v), v);
        r == if a.Some? then a else First(hosts, constants, slow, v)
    {
      hide Equals, Fingerprint, Honest, Wf, Indexed, First;
      var p := Fingerprint(hosts, v, 0);
      var list := if p.hash in buckets then buckets[p.hash] else [];
      r := FindIn(list, v);
      FirstIs(hosts, constants, list, v);
      FirstIs(hosts, constants, slow, v);
      if r.None? { r := FindIn(slow, v); }
      if r.None? {
        forall i | 0 <= i < |constants| ensures !Equals(hosts, constants[i], v, 0) {
          if Equals(hosts, constants[i], v, 0) { Searched(hosts, constants, buckets, slow, v, i); }
        }
      }
    }

    method Scan(v: Datum) returns (r: Option<nat>)
      ensures r.Some? <==> Held(hosts, constants, v)
      ensures r.Some? ==> r.value < |constants| && Equals(hosts, constants[r.value], v, 0)
    {
      hide Equals;
      for i := 0 to |constants|
        invariant forall j :: 0 <= j < i ==> !Equals(hosts, constants[j], v, 0)
      {
        if Equals(hosts, constants[i], v, 0) { return Some(i); }
      }
      return None;
    }

    /** An equal constant is reused exactly when the pool holds one, and otherwise v is added. */
    method AddConstant(v: Datum) returns (idx: nat)
      requires Valid() && Wf(v)
      modifies this
      ensures Valid()
      ensures Held(hosts, old(constants), v) ==>
        constants == old(constants) && idx < |constants| && Equals(hosts, constants[idx], v, 0)
      ensures !Held(hosts, old(constants), v) ==> constants == old(constants) + [v] && idx == |old(constants)|
      ensures Held(hosts, old(constants), v) && Fingerprint(hosts, v, 0).safe ==>
        var a := First(hosts, constants, Bucket(hosts, buckets, v), v);
        && Some(idx) == (if a.Some? then a else First(hosts, constants, slow, v))
        && built && (old(built) ==> buckets == old(buckets) && slow == old(slow))
      ensures Fingerprint(hosts, v, 0).safe ==> built
    {
      hide Equals, Fingerprint, Honest, Wf, Indexed, Held, First;
      var p := Fingerprint(hosts, v, 0);
      var found: Option<nat>;
      if p.safe {
        EnsureIndex();
        found := FindConstant(v);
      } else {
        found := Scan(v);
      }
      if found.Some? { return found.value; }
      if built { ListsAfter(hosts, constants, v, buckets, slow); }
      idx := |constants|;
      constants := constants + [v];
      if p.safe {
        IndexConstant(idx);
      } else if built {
        ListsNext(hosts, constants, idx, buckets, slow);
        slow := slow + [idx];
      }
    }
  }

  // ---- what interning changes ----

  /** Values without maps and host values. */
  predicate Tree(v: Datum) {
    match v
    case DList(items) => forall i :: 0 <= i < |items| ==> Tree(items[i])
    case DVec(items) => forall i :: 0 <= i < |items| ==> Tree(items[i])
    case DMap(_) => false
    case DHost(_) => false
    case _ => true
  }

  predicate HasZero(v: Datum) {
    match v
    case DFloat(f) => f.Zero?
    case DList(items) => exists i :: 0 <= i < |items| && HasZero(items[i])
    case DVec(items) => exists i :: 0 <= i < |items| && HasZero(items[i])
    case _ => false
  }

  /** The same value with the sign of every zero turned round. */
  function Flip(v: Datum): Datum {
    match v
    case DFloat(f) => if f.Zero? then DFloat(Zero(!f.negative)) else v
    case DList(items) => DList(FlipAll(items))
    case DVec(items) => DVec(FlipAll(items))
    case _ => v
  }

  function FlipAll(vs: seq<Datum>): (r: seq<Datum>)
    ensures |r| == |vs| && forall i :: 0 <= i < |vs| ==> r[i] == Flip(vs[i])
  {
    if vs == [] then [] else [Flip(vs[0])] + FlipAll(vs[1..])
  }

  lemma {:induction false} FlipTree(h: Hosts, v: Datum, depth: nat)
    requires Tree(v)
    ensures Tree(Flip(v)) && (HasZero(v) <==> Flip(v) != v)
    ensures Equals(h, v, v, depth) ==> Equals(h, Flip(v), v, depth)
    decreases v
  {
    hide EqualItems;
    if v.DList? || v.DVec? {
      forall i | 0 <= i < |v.items|
        ensures Tree(Flip(v.items[i])) && (HasZero(v.items[i]) <==> Flip(v.items[i]) != v.items[i])
      {
        FlipTree(h, v.items[i], depth + 1);
      }
      FlipItems(h, v.items, depth + 1);
    }
  }

  lemma {:induction false} FlipItems(h: Hosts, vs: seq<Datum>, depth: nat)
    requires forall i :: 0 <= i < |vs| ==> Tree(vs[i])
    ensures EqualItems(h, vs, vs, depth) ==> EqualItems(h, FlipAll(vs), vs, depth)
    decreases vs
  {
    hide Equals, Flip, Tree;
    if vs != [] {
      FlipTree(h, vs[0], depth);
      FlipItems(h, vs[1..], depth);
      assert FlipAll(vs)[1..] == FlipAll(vs[1..]);
    }
  }

  lemma {:induction false} EqualIsSame(h: Hosts, a: Datum, b: Datum, depth: nat)
    requires Tree(a) && Tree(b) && !HasZero(b) && Equals(h, a, b, depth)
    ensures a == b
    decreases a
  {
    hide EqualItems;
    if a.DList? || a.DVec? { EqualItemsSame(h, a.items, b.items, depth + 1); }
  }

  lemma {:induction false} EqualItemsSame(h: Hosts, a: seq<Datum>, b: seq<Datum>, depth: nat)
    requires EqualItems(h, a, b, depth)
    requires (forall i :: 0 <= i < |a| ==> Tree(a[i])) && forall i :: 0 <= i < |b| ==> Tree(b[i]) && !HasZero(b[i])
    ensures a == b
    decreases a
  {
    hide Equals, Tree, HasZero;
    if a != [] {
      EqualIsSame(h, a[0], b[0], depth);
      EqualItemsSame(h, a[1..], b[1..], depth);
      assert a == [a[0]] + a[1..] && b == [b[0]] + b[1..];
    }
  }

  /** Reusing an equal constant gives back the very value asked for, whatever the pool holds,
      exactly when the value holds no zero or equals nothing: a negative zero is otherwise
      replaced by a positive one that came before it, and the other way round. */
  lemma {:induction false} ReuseExact(h: Hosts, v: Datum)
    requires Tree(v)
    ensures (forall c :: Tree(c) && Equals(h, c, v, 0) ==> c == v) <==> !(HasZero(v) && Equals(h, v, v, 0))
  {
    hide Equals, Tree, HasZero, Flip;
    FlipTree(h, v, 0);
    forall c | Tree(c) && Equals(h, c, v, 0) && (!HasZero(v) || !Equals(h, v, v, 0)) ensures c == v {
      if HasZero(v) { EqualToItself(h, c, v, 0); } else { EqualIsSame(h, c, v, 0); }
    }
  }

  /** What equals anything equals itself. */
  lemma {:induction false} EqualToItself(h: Hosts, a: Datum, b: Datum, depth: nat)
    requires Tree(a) && Tree(b) && Equals(h, a, b, depth)
    ensures Equals(h, b, b, depth)
    decreases a
  {
    hide EqualItems;
    if a.DList? || a.DVec? { ItemsEqualThemselves(h, a.items, b.items, depth + 1); }
  }

  lemma {:induction false} ItemsEqualThemselves(h: Hosts, a: seq<Datum>, b: seq<Datum>, depth: nat)
    requires EqualItems(h, a, b, depth)
    requires (forall i :: 0 <= i < |a| ==> Tree(a[i])) && forall i :: 0 <= i < |b| ==> Tree(b[i])
    ensures EqualItems(h, b, b, depth)
    decreases a
  {
    hide Equals, Tree;
    if a != [] {
      EqualToItself(h, a[0], b[0], depth);
      ItemsEqualThemselves(h, a[1..], b[1..], depth);
    }
  }
}
