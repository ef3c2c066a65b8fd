/** The persistent vector: a flat slice while short, then a 32-way trie of full leaves with a tail
    buffer. Height h stands for the source's shift 5 * h. */
module Vectors {
  import opened Forms

  datatype VecNode = VecNode(kids: seq<VecNode>, vals: seq<Value>)

  const WIDTH: nat := 32

  function Pow(h: nat): (p: nat)
    ensures p > 0
  {
    if h == 0 then 1 else WIDTH * Pow(h - 1)
  }

  /** The slot an index takes at height h. */
  function Digit(i: nat, h: nat): (d: nat)
    ensures d < WIDTH
  {
    (i / Pow(h)) % WIDTH
  }

  // ---- arithmetic ----

  lemma {:induction false} MulMono(a: int, b: int, s: nat)
    requires a <= b
    ensures a * s <= b * s
  {
  }

  lemma {:induction false} NoMultiple(x: int, s: nat, y: int)
    requires x * s == y && 0 < y + s && y < s
    ensures x == 0
  {
    if x > 0 { MulMono(1, x, s); }
    if x < 0 { MulMono(x, -1, s); }
  }

  lemma {:induction false} DivUnique(i: nat, s: nat, q: nat, r: nat)
    requires s > 0 && r < s && i == q * s + r
    ensures i / s == q && i % s == r
  {
    Quotient(i, s);
    var q', r' := i / s, i % s;
    Distribute(q', q, s);
    NoMultiple(q' - q, s, r - r');
  }

  lemma {:induction false} Distribute(a: int, b: int, s: nat)
    ensures (a - b) * s == a * s - b * s
  {
  }

  lemma {:induction false} Regroup(a: nat, c: nat, s: nat, d: nat)
    ensures a * (WIDTH * s) + (c * s + d) == (WIDTH * a + c) * s + d
  {
    assert a * (WIDTH * s) == (WIDTH * a) * s;
  }

  lemma {:induction false} Quotient(i: nat, s: nat)
    requires s > 0
    ensures i == (i / s) * s + i % s && i % s < s
  {
  }

  lemma {:induction false} Cancel(c: nat, s: nat, d: nat, w: nat)
    requires c * s + d < w * s
    ensures c < w
  {
    if c >= w { MulMono(w, c, s); }
  }

  lemma {:induction false} Digits(i: nat, s: nat, a: nat, c: nat, d: nat)
    requires s > 0 && d < s && c < WIDTH && i == (WIDTH * a + c) * s + d
    ensures (i / s) % WIDTH == c && i % s == d
  {
    var q := WIDTH * a + c;
    DivUnique(i, s, q, d);
    assert q % WIDTH == c;
  }

  lemma {:induction false} DigitParts(i: nat, s: nat, w: nat, a: nat, b: nat, c: nat, d: nat)
    requires s > 0 && w == WIDTH * s && i == a * w + b && b < w && b == c * s + d && d < s
    ensures c < WIDTH && (i / s) % WIDTH == c && i % s == d
  {
    Regroup(a, c, s, d);
    Cancel(c, s, d, WIDTH);
    Digits(i, s, a, c, d);
  }

  lemma {:induction false} Divided(i: nat, s: nat) returns (q: nat, r: nat)
    requires s > 0
    ensures q == i / s && r == i % s && i == q * s + r && r < s
  {
    q, r := i / s, i % s;
  }

  /** Dropping the digits above h does not change digit h. */
  lemma {:induction false} DigitMod(i: nat, s: nat, w: nat)
    requires s > 0 && w == WIDTH * s
    ensures (i / s) % WIDTH == (i % w) / s && (i % w) % s == i % s
  {
    var a, b := Divided(i, w);
    var c, d := Divided(b, s);
    DigitParts(i, s, w, a, b, c, d);
  }

  lemma {:induction false} DigitOf(i: nat, h: nat)
    ensures Pow(h + 1) == WIDTH * Pow(h) && Digit(i, h) == (i % Pow(h + 1)) / Pow(h)
    ensures (i % Pow(h + 1)) % Pow(h) == i % Pow(h)
  {
    DigitMod(i, Pow(h), Pow(h + 1));
  }

  // ---- what a node holds ----

  /** A subtree's elements in order. */
  function Flat(n: VecNode, h: nat): seq<Value>
    decreases h, 0
  {
    if h == 0 then n.vals else FlatAll(n.kids, h - 1)
  }

  function FlatAll(kids: seq<VecNode>, h: nat): seq<Value>
    decreases h, 1, |kids|
  {
    if kids == [] then [] else Flat(kids[0], h) + FlatAll(kids[1..], h)
  }

  /** A subtree of height h holding len elements: leaves full, every child but the last full. */
  predicate Good(n: VecNode, h: nat, len: nat)
    decreases h
  {
    if h == 0 then n.kids == [] && |n.vals| == WIDTH && len == WIDTH
    else
      var last := |n.kids| - 1;
      && n.vals == [] && 0 <= last < WIDTH && last * Pow(h) < len
      && (forall i :: 0 <= i < last ==> Good(n.kids[i], h - 1, Pow(h)))
      && Good(n.kids[last], h - 1, len - last * Pow(h))
  }

  lemma {:induction false} GoodSize(n: VecNode, h: nat, len: nat)
    requires Good(n, h, len)
    ensures 0 < len <= Pow(h + 1) && len % WIDTH == 0
    decreases h
  {
    if h > 0 {
      var last, s := |n.kids| - 1, Pow(h);
      var m := len - last * s;
      GoodSize(n.kids[last], h - 1, m);
      Within(last, s, m);
      Multiple(last, h);
      SumMod(last * s, m);
    }
  }

  lemma {:induction false} Within(last: nat, s: nat, m: nat)
    requires last < WIDTH && m <= s
    ensures last * s + m <= WIDTH * s
  {
    assert last * s <= (WIDTH - 1) * s;
  }

  lemma {:induction false} SumMod(a: nat, b: nat)
    requires a % WIDTH == 0 && b % WIDTH == 0
    ensures (a + b) % WIDTH == 0
  {
  }

  lemma {:induction false} Multiple(q: nat, h: nat)
    requires h > 0
    ensures (q * Pow(h)) % WIDTH == 0
  {
    var p := Pow(h - 1);
    assert q * (WIDTH * p) == (q * p) * WIDTH;
    DivUnique(q * Pow(h), WIDTH, q * p, 0);
  }

  lemma {:induction false} FlatSnoc(kids: seq<VecNode>, n: VecNode, h: nat)
    ensures FlatAll(kids + [n], h) == FlatAll(kids, h) + Flat(n, h)
    decreases |kids|
  {
    if kids == [] {
      assert kids + [n] == [n] && [n][1..] == [];
    } else {
      assert (kids + [n])[1..] == kids[1..] + [n];
      FlatSnoc(kids[1..], n, h);
    }
  }

  lemma {:induction false} DivStep(i: nat, s: nat)
    requires 0 < s <= i
    ensures i / s == (i - s) / s + 1 && i % s == (i - s) % s
  {
    var q, r := (i - s) / s, (i - s) % s;
    Quotient(i - s, s);
    assert (q + 1) * s == q * s + s;
    DivUnique(i, s, q + 1, r);
  }

  lemma {:induction false} FlatAllIs(kids: seq<VecNode>, h: nat)
    ensures FlatAll(kids, h) == if kids == [] then [] else Flat(kids[0], h) + FlatAll(kids[1..], h)
  {
  }

  /** Where an element of equal-sized children lies. */
  lemma {:induction false} FlatIndex(kids: seq<VecNode>, h: nat, s: nat, i: nat)
    requires s > 0 && kids != [] && i < |FlatAll(kids, h)|
    requires forall k :: 0 <= k < |kids| - 1 ==> |Flat(kids[k], h)| == s
    requires |Flat(kids[|kids| - 1], h)| <= s
    ensures i / s < |kids| && i % s < |Flat(kids[i / s], h)|
    ensures FlatAll(kids, h)[i] == Flat(kids[i / s], h)[i % s]
    decreases |kids|
  {
    hide FlatAll, Flat;
    FlatAllIs(kids, h);
    FlatAllIs(kids[1..], h);
    if i < |Flat(kids[0], h)| {
      DivUnique(i, s, 0, i);
    } else {
      FlatIndex(kids[1..], h, s, i - s);
      DivStep(i, s);
      assert kids[1..][(i - s) / s] == kids[i / s];
    }
  }

  lemma {:induction false} FlatSize(n: VecNode, h: nat, len: nat)
    requires Good(n, h, len)
    ensures |Flat(n, h)| == len
    decreases h, 1
  {
    if h > 0 { FlatSizes(n.kids, h - 1, Pow(h), len); }
  }

  lemma {:induction false} FlatSizes(kids: seq<VecNode>, h: nat, s: nat, len: nat)
    requires kids != [] && (|kids| - 1) * s < len
    requires forall i :: 0 <= i < |kids| - 1 ==> Good(kids[i], h, s)
    requires Good(kids[|kids| - 1], h, len - (|kids| - 1) * s)
    ensures |FlatAll(kids, h)| == len
    ensures forall i :: 0 <= i < |kids| - 1 ==> |Flat(kids[i], h)| == s
    ensures |Flat(kids[|kids| - 1], h)| == len - (|kids| - 1) * s
    decreases h + 1, 0, |kids|
  {
    hide Good;
    assert FlatAll(kids, h) == Flat(kids[0], h) + FlatAll(kids[1..], h);
    if |kids| == 1 {
      FlatSize(kids[0], h, len);
      assert FlatAll(kids[1..], h) == [];
    } else {
      hide FlatAll;
      FlatSize(kids[0], h, s);
      var n := |kids| - 2;
      assert (n + 1) * s == n * s + s;
      FlatSizes(kids[1..], h, s, len - s);
      forall i | 0 <= i < |kids| - 1 ensures |Flat(kids[i], h)| == s {
        if i > 0 { assert kids[i] == kids[1..][i - 1]; }
      }
    }
  }

  // ---- lookup ----

  /** The descent of At: one digit of i per level. */
  function AtNode(n: VecNode, h: nat, i: nat): Option<Value>
    decreases h
  {
    if h == 0 then
      if i % WIDTH < |n.vals| then Some(n.vals[i % WIDTH]) else None
    else if Digit(i, h) < |n.kids| then AtNode(n.kids[Digit(i, h)], h - 1, i)
    else None
  }

  lemma {:induction false} AtIs(n: VecNode, h: nat, len: nat, i: nat)
    requires Good(n, h, len) && i % Pow(h + 1) < len
    ensures |Flat(n, h)| == len && AtNode(n, h, i) == Some(Flat(n, h)[i % Pow(h + 1)])
    decreases h
  {
    FlatSize(n, h, len);
    if h > 0 {
      var j, s, last := i % Pow(h + 1), Pow(h), |n.kids| - 1;
      DigitOf(i, h);
      FlatSizes(n.kids, h - 1, Pow(h), len);
      GoodSize(n.kids[last], h - 1, len - last * s);
      FlatIndex(n.kids, h - 1, s, j);
      var q := j / s;
      FlatSizeAt(n, h, len, q);
      AtIs(n.kids[q], h - 1, if q < last then s else len - last * s, i);
    }
  }

  lemma {:induction false} FlatSizeAt(n: VecNode, h: nat, len: nat, q: nat)
    requires h > 0 && Good(n, h, len) && q < |n.kids|
    ensures var last := |n.kids| - 1;
            var m := if q < last then Pow(h) else len - last * Pow(h);
            Good(n.kids[q], h - 1, m) && |Flat(n.kids[q], h - 1)| == m
  {
    FlatSizes(n.kids, h - 1, Pow(h), len);
  }

  // ---- growth ----

  /** A chain of single-child nodes down to a new leaf. */
  function NewPath(h: nat, leaf: VecNode): VecNode {
    if h == 0 then leaf else VecNode([NewPath(h - 1, leaf)], [])
  }

  /** Copies the path to the next free place and puts the leaf there. */
  function PushLeaf(n: VecNode, h: nat, trieLen: nat, leaf: VecNode): VecNode
    requires h > 0
  {
    var idx := Digit(trieLen, h);
    if h == 1 then VecNode(n.kids + [leaf], [])
    else if idx < |n.kids| then VecNode(n.kids[idx := PushLeaf(n.kids[idx], h - 1, trieLen, leaf)], [])
    else VecNode(n.kids + [NewPath(h - 1, leaf)], [])
  }

  /** The elements of a trie that may be empty. */
  function RootFlat(root: Option<VecNode>, h: nat): seq<Value> {
    match root case Some(n) => Flat(n, h) case None => []
  }

  predicate RootGood(root: Option<VecNode>, h: nat, len: nat) {
    match root case Some(n) => Good(n, h, len) case None => h == 0 && len == 0
  }

  /** A full tail becomes a leaf; a root at capacity gets a level above it. */
  function PushTail(root: Option<VecNode>, h: nat, trieLen: nat, tail: seq<Value>): (VecNode, nat)
    requires RootGood(root, h, trieLen) && |tail| == WIDTH
  {
    var leaf := VecNode([], tail);
    match root
    case None => (leaf, 0)
    case Some(n) =>
      GoodSize(n, h, trieLen);
      FullAt(h, trieLen);
      if trieLen / WIDTH >= Pow(h) then (VecNode([n, NewPath(h, leaf)], []), h + 1)
      else (PushLeaf(n, h, trieLen, leaf), h)
  }

  lemma {:induction false} NewPathGood(h: nat, leaf: VecNode)
    requires Good(leaf, 0, WIDTH)
    ensures Good(NewPath(h, leaf), h, WIDTH) && Flat(NewPath(h, leaf), h) == leaf.vals
    decreases h
  {
    if h > 0 {
      NewPathGood(h - 1, leaf);
      var n := NewPath(h, leaf);
      assert FlatAll(n.kids[1..], h - 1) == [];
    }
  }

  /** One more child, after full ones. */
  lemma {:induction false} Appends(n: VecNode, h: nat, len: nat, kid: VecNode, m: nat)
    requires h > 0 && Good(n, h, len) && len == |n.kids| * Pow(h) && |n.kids| < WIDTH
    requires Good(kid, h - 1, m) && m > 0
    ensures Good(VecNode(n.kids + [kid], []), h, len + m)
    ensures Flat(VecNode(n.kids + [kid], []), h) == Flat(n, h) + Flat(kid, h - 1)
  {
    var k, s, n' := |n.kids|, Pow(h), VecNode(n.kids + [kid], []);
    assert (k - 1) * s + s == k * s;
    forall i | 0 <= i < k ensures Good(n'.kids[i], h - 1, s) { assert n'.kids[i] == n.kids[i]; }
    FlatSnoc(n.kids, kid, h - 1);
  }

  /** The last child replaced by one that holds more. */
  lemma {:induction false} Replaces(n: VecNode, h: nat, len: nat, kid: VecNode, m: nat, more: seq<Value>)
    requires h > 0 && Good(n, h, len) && Good(kid, h - 1, m) && m > 0
    requires Flat(kid, h - 1) == Flat(n.kids[|n.kids| - 1], h - 1) + more
    ensures var last := |n.kids| - 1;
            var n' := VecNode(n.kids[last := kid], []);
            Good(n', h, last * Pow(h) + m) && Flat(n', h) == Flat(n, h) + more
  {
    hide FlatAll, Pow;
    var last := |n.kids| - 1;
    var n', init := VecNode(n.kids[last := kid], []), n.kids[..last];
    assert n.kids == init + [n.kids[last]] && n'.kids == init + [kid];
    FlatSnoc(init, n.kids[last], h - 1);
    FlatSnoc(init, kid, h - 1);
    forall i | 0 <= i < last ensures Good(n'.kids[i], h - 1, Pow(h)) { assert n'.kids[i] == n.kids[i]; }
  }

  lemma {:induction false} PushLeafGood(n: VecNode, h: nat, len: nat, trieLen: nat, leaf: VecNode)
    requires h > 0 && Good(n, h, len) && len < Pow(h + 1) && trieLen % Pow(h + 1) == len && Good(leaf, 0, WIDTH)
    ensures Good(PushLeaf(n, h, trieLen, leaf), h, len + WIDTH)
    ensures Flat(PushLeaf(n, h, trieLen, leaf), h) == Flat(n, h) + leaf.vals
    decreases h
  {
    hide Flat, FlatAll, Digit;
    var last, s := |n.kids| - 1, Pow(h);
    var m := len - last * s;
    LastKid(n, h, len);
    DigitOf(trieLen, h);
    if m == s {
      assert len == (last + 1) * s + 0;
      DivUnique(len, s, last + 1, 0);
      Cancel(last + 1, s, 0, WIDTH);
      NewPathGood(h - 1, leaf);
      Appends(n, h, len, NewPath(h - 1, leaf), WIDTH);
    } else {
      DivUnique(len, s, last, m);
      LeafFull(n, h, len);
      PushLeafGood(n.kids[last], h - 1, m, trieLen, leaf);
      Replaces(n, h, len, PushLeaf(n.kids[last], h - 1, trieLen, leaf), m + WIDTH, leaf.vals);
    }
  }

  lemma {:induction false} LastKid(n: VecNode, h: nat, len: nat)
    requires h > 0 && Good(n, h, len)
    ensures var last := |n.kids| - 1;
            0 <= last && Good(n.kids[last], h - 1, len - last * Pow(h)) && 0 < len - last * Pow(h) <= Pow(h)
  {
    var last := |n.kids| - 1;
    GoodSize(n.kids[last], h - 1, len - last * Pow(h));
  }

  /** Just above the leaves every child is full. */
  lemma {:induction false} LeafFull(n: VecNode, h: nat, len: nat)
    requires h > 0 && Good(n, h, len) && len - (|n.kids| - 1) * Pow(h) != Pow(h)
    ensures h > 1
  {
  }

  /** The pushed tail is the last leaf, and the trie gains a level exactly when it was full. */
  lemma {:induction false} PushTailGood(root: Option<VecNode>, h: nat, trieLen: nat, tail: seq<Value>)
    requires RootGood(root, h, trieLen) && |tail| == WIDTH
    ensures var (n, h') := PushTail(root, h, trieLen, tail);
            && Good(n, h', trieLen + WIDTH) && Flat(n, h') == RootFlat(root, h) + tail
            && (root.Some? ==> h' == if trieLen == Pow(h + 1) then h + 1 else h)
  {
    var leaf := VecNode([], tail);
    if root.Some? {
      var n := root.value;
      GoodSize(n, h, trieLen);
      FullAt(h, trieLen);
      if trieLen == Pow(h + 1) {
        NewPathGood(h, leaf);
        var top := VecNode([n], []);
        assert FlatAll(top.kids[1..], h) == [];
        Appends(top, h + 1, trieLen, NewPath(h, leaf), WIDTH);
        assert [n] + [NewPath(h, leaf)] == [n, NewPath(h, leaf)];
      } else {
        DivUnique(trieLen, Pow(h + 1), 0, trieLen);
        PushLeafGood(n, h, trieLen, trieLen, leaf);
      }
    }
  }

  /** The capacity test: a multiple of the width fills height h at its power. */
  lemma {:induction false} FullAt(h: nat, trieLen: nat)
    requires 0 < trieLen <= Pow(h + 1) && trieLen % WIDTH == 0
    ensures trieLen / WIDTH >= Pow(h) <==> trieLen == Pow(h + 1)
    ensures h == 0 ==> trieLen == Pow(h + 1)
  {
    var p := Pow(h);
    assert Pow(h + 1) == WIDTH * p;
  }

  // ---- the vector ----

  datatype Vector = Vector(flat: seq<Value>, root: Option<VecNode>, height: nat, count: nat, tail: seq<Value>)

  predicate Valid(v: Vector) {
    && |v.tail| <= WIDTH
    && match v.root
       case None => v.tail == [] && v.count == 0
       case Some(n) => v.flat == [] && |v.tail| <= v.count && Good(n, v.height, v.count - |v.tail|)
  }

  function Elements(v: Vector): seq<Value> {
    match v.root case None => v.flat case Some(n) => Flat(n, v.height) + v.tail
  }

  /** Bulk construction never builds a trie. */
  function NewVector(items: seq<Value>): (v: Vector)
    ensures Valid(v) && Elements(v) == items
  {
    Vector(items, None, 0, 0, [])
  }

  method Len(v: Vector) returns (n: nat)
    requires Valid(v)
    ensures n == |Elements(v)|
  {
    if v.root.Some? { FlatSize(v.root.value, v.height, v.count - |v.tail|); }
    n := if v.root.Some? then v.count else |v.flat|;
  }

  /** The element at i; out of range there is none. */
  method At(v: Vector, i: nat) returns (x: Option<Value>)
    requires Valid(v)
    ensures x == if i < |Elements(v)| then Some(Elements(v)[i]) else None
  {
    if v.root.None? { return if i < |v.flat| then Some(v.flat[i]) else None; }
    var trieLen := v.count - |v.tail|;
    FlatSize(v.root.value, v.height, trieLen);
    if i >= v.count { return None; }
    if i >= trieLen { return Some(v.tail[i - trieLen]); }
    GoodSize(v.root.value, v.height, trieLen);
    DivUnique(i, Pow(v.height + 1), 0, i);
    AtIs(v.root.value, v.height, trieLen, i);
    var node, h := v.root.value, v.height;
    while h > 0
      invariant AtNode(node, h, i) == AtNode(v.root.value, v.height, i)
    {
      node := node.kids[Digit(i, h)];
      h := h - 1;
    }
    return Some(node.vals[i % WIDTH]);
  }

  method BuildFromFlat(flat: seq<Value>) returns (root: Option<VecNode>, h: nat, trieLen: nat, tail: seq<Value>)
    ensures RootGood(root, h, trieLen) && |tail| < WIDTH && RootFlat(root, h) + tail == flat
    ensures trieLen + |tail| == |flat|
  {
    hide Good, Flat, FlatAll, Pow, PushTail;
    var full := |flat| / WIDTH * WIDTH;
    root, h, trieLen := None, 0, 0;
    while trieLen < full
      invariant trieLen <= full && trieLen % WIDTH == 0
      invariant RootGood(root, h, trieLen) && RootFlat(root, h) == flat[..trieLen]
    {
      var chunk := flat[trieLen..trieLen + WIDTH];
      PushTailGood(root, h, trieLen, chunk);
      var (n, h') := PushTail(root, h, trieLen, chunk);
      assert flat[..trieLen] + chunk == flat[..trieLen + WIDTH];
      root, h, trieLen := Some(n), h', trieLen + WIDTH;
    }
    tail := flat[full..];
    assert flat[..full] + flat[full..] == flat;
  }

  /** One element goes into the tail, which is pushed first if it is full. */
  method Append(root: Option<VecNode>, h: nat, trieLen: nat, tail: seq<Value>, x: Value)
    returns (root': Option<VecNode>, h': nat, trieLen': nat, tail': seq<Value>)
    requires RootGood(root, h, trieLen) && |tail| <= WIDTH
    ensures RootGood(root', h', trieLen') && |tail'| <= WIDTH
    ensures RootFlat(root', h') + tail' == RootFlat(root, h) + tail + [x]
    ensures if |tail| == WIDTH then root'.Some? else root' == root && |tail'| == |tail| + 1
  {
    hide Good, Flat, FlatAll, Pow, PushTail;
    if |tail| < WIDTH { return root, h, trieLen, tail + [x]; }
    PushTailGood(root, h, trieLen, tail);
    var (n, k) := PushTail(root, h, trieLen, tail);
    return Some(n), k, trieLen + WIDTH, [x];
  }

  /** Appends vs; the receiver is a value and stays as it is. */
  method Conj(v: Vector, vs: seq<Value>) returns (r: Vector)
    requires Valid(v)
    ensures Valid(r) && Elements(r) == Elements(v) + vs
    ensures r.root.Some? <==> v.root.Some? || |v.flat| + |vs| > WIDTH
  {
    hide Good, Flat, FlatAll, Pow;
    if v.root.None? && |v.flat| + |vs| <= WIDTH { return NewVector(v.flat + vs); }
    var root, h, tail := v.root, v.height, v.tail;
    var trieLen: nat := v.count - |v.tail|;
    if v.root.None? { root, h, trieLen, tail := BuildFromFlat(v.flat); }
    ghost var before := Elements(v);
    assert vs[..0] == [];
    for i := 0 to |vs|
      invariant RootGood(root, h, trieLen) && |tail| <= WIDTH && RootFlat(root, h) + tail == before + vs[..i]
      invariant root.None? ==> v.root.None? && |tail| == |v.flat| + i
    {
      root, h, trieLen, tail := Append(root, h, trieLen, tail, vs[i]);
      assert vs[..i + 1] == vs[..i] + [vs[i]];
    }
    assert vs[..|vs|] == vs;
    r := Vector([], root, h, trieLen + |tail|, tail);
  }

  function KidLen(n: VecNode, h: nat, len: nat, k: nat): nat
    requires h > 0 && Good(n, h, len) && k < |n.kids|
  {
    if k < |n.kids| - 1 then Pow(h) else len - (|n.kids| - 1) * Pow(h)
  }

  /** Each child is good, and its elements come right after those of the children before it. */
  lemma {:induction false} KidAfter(n: VecNode, h: nat, len: nat, k: nat)
    requires h > 0 && Good(n, h, len) && k < |n.kids|
    ensures Good(n.kids[k], h - 1, KidLen(n, h, len, k))
    ensures FlatAll(n.kids[..k + 1], h - 1) == FlatAll(n.kids[..k], h - 1) + Flat(n.kids[k], h - 1)
    ensures |FlatAll(n.kids[..k], h - 1)| + KidLen(n, h, len, k) <= len
  {
    hide Good, Pow, FlatAll, Flat;
    FlatSizeAt(n, h, len, k);
    assert n.kids[..k + 1] == n.kids[..k] + [n.kids[k]];
    FlatSnoc(n.kids[..k], n.kids[k], h - 1);
    FlatKids(n, h, len);
    assert n.kids == n.kids[..k + 1] + n.kids[k + 1..];
    FlatSplit(n.kids[..k + 1], n.kids[k + 1..], h - 1);
  }

  lemma {:induction false} FlatKids(n: VecNode, h: nat, len: nat)
    requires h > 0 && Good(n, h, len)
    ensures |FlatAll(n.kids, h - 1)| == len
  {
    FlatSizes(n.kids, h - 1, Pow(h), len);
  }

  lemma {:induction false} FlatSplit(a: seq<VecNode>, b: seq<VecNode>, h: nat)
    ensures FlatAll(a + b, h) == FlatAll(a, h) + FlatAll(b, h)
    decreases |a|
  {
    if a == [] {
      assert a + b == b;
    } else {
      assert (a + b)[1..] == a[1..] + b;
      FlatSplit(a[1..], b, h);
    }
  }

  method CopyTo(vals: seq<Value>, out: array<Value>, at: nat)
    requires at + |vals| <= out.Length
    modifies out
    ensures out[..at + |vals|] == old(out[..at]) + vals
  {
    for k := 0 to |vals|
      invariant out[..at + k] == old(out[..at]) + vals[..k]
    {
      out[at + k] := vals[k];
    }
  }

  /** Writes a subtree's elements into out from position at on. */
  method Flatten(n: VecNode, h: nat, len: nat, out: array<Value>, at: nat) returns (i: nat)
    requires Good(n, h, len) && at + len <= out.Length
    modifies out
    ensures i == len && at + len <= out.Length && out[..at + len] == old(out[..at]) + Flat(n, h)
    decreases h
  {
    hide Good, Flat, FlatAll, Pow;
    FlatSize(n, h, len);
    if h == 0 {
      LeafFlat(n, len);
      CopyTo(n.vals, out, at);
      return |n.vals|;
    }
    i := 0;
    FlatWhole(n, h);
    ghost var was := out[..at];
    assert was + [] == was;
    for k := 0 to |n.kids|
      invariant i == |FlatAll(n.kids[..k], h - 1)| && at + i <= out.Length
      invariant out[..at + i] == was + FlatAll(n.kids[..k], h - 1)
    {
      KidAfter(n, h, len, k);
      ghost var done, kid := FlatAll(n.kids[..k], h - 1), Flat(n.kids[k], h - 1);
      var j := Flatten(n.kids[k], h - 1, KidLen(n, h, len, k), out, at + i);
      FlatSize(n.kids[k], h - 1, j);
      assert was + done + kid == was + (done + kid);
      i := i + j;
    }
  }

  lemma {:induction false} LeafFlat(n: VecNode, len: nat)
    requires Good(n, 0, len)
    ensures |n.vals| == len && Flat(n, 0) == n.vals
  {
  }

  lemma {:induction false} FlatWhole(n: VecNode, h: nat)
    requires h > 0
    ensures FlatAll(n.kids[..0], h - 1) == [] && FlatAll(n.kids[..|n.kids|], h - 1) == Flat(n, h)
  {
    assert n.kids[..|n.kids|] == n.kids;
  }

  method ToSlice(v: Vector) returns (s: seq<Value>)
    requires Valid(v)
    ensures s == Elements(v)
  {
    if v.root.None? { return v.flat; }
    var trieLen := v.count - |v.tail|;
    var out := new Value[v.count](_ => Nil);
    var i := Flatten(v.root.value, v.height, trieLen, out, 0);
    s := out[..i] + v.tail;
  }
}
