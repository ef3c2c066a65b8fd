/** One stripe of the chunk cache: a map from keys to entries and a doubly linked list of the same
    entries, most recently used first. */
module LruStripe {

  datatype CacheKey = CacheKey(source: nat, form: nat, epoch: nat)

  class Entry {
    const key: CacheKey
    const chunk: int
    var prev: Entry?
    var next: Entry?

    constructor (key: CacheKey, chunk: int)
      ensures this.key == key && this.chunk == chunk
    {
      this.key, this.chunk := key, chunk;
      prev, next := null, null;
    }
  }

  /** The entry right after e in the order of ranks, or null after the last. */
  ghost predicate Follows(rank: map<Entry, int>, e: Entry, n: Entry?)
    requires e in rank
  {
    if n == null then forall x :: x in rank ==> rank[x] <= rank[e]
    else n in rank && rank[e] < rank[n] && forall x :: x in rank ==> rank[x] <= rank[e] || rank[n] <= rank[x]
  }

  ghost predicate Precedes(rank: map<Entry, int>, e: Entry, p: Entry?)
    requires e in rank
  {
    if p == null then forall x :: x in rank ==> rank[e] <= rank[x]
    else p in rank && rank[p] < rank[e] && forall x :: x in rank ==> rank[x] <= rank[p] || rank[e] <= rank[x]
  }

  ghost predicate Injective(rank: map<Entry, int>) {
    forall x, y :: x in rank && y in rank && x != y ==> rank[x] != rank[y]
  }

  ghost predicate First(rank: map<Entry, int>, e: Entry?) {
    if e == null then rank == map[] else e in rank && Precedes(rank, e, null)
  }

  ghost predicate Last(rank: map<Entry, int>, e: Entry?) {
    if e == null then rank == map[] else e in rank && Follows(rank, e, null)
  }

  // ---- taking an entry out of the order, putting one first ----

  lemma {:induction false} Neighbours(rank: map<Entry, int>, d: Entry, p: Entry?, n: Entry?, x: Entry)
    requires Injective(rank) && d in rank && Precedes(rank, d, p) && Follows(rank, d, n) && x in rank
    ensures Follows(rank, x, d) <==> x == p
    ensures Precedes(rank, x, d) <==> x == n
    ensures p != d && n != d && (p != null ==> p != n)
  {
  }

  lemma {:induction false} OneNeighbour(rank: map<Entry, int>, x: Entry, y: Entry?, z: Entry?)
    requires Injective(rank) && x in rank
    ensures Follows(rank, x, y) && Follows(rank, x, z) ==> y == z
    ensures Precedes(rank, x, y) && Precedes(rank, x, z) ==> y == z
  {
  }

  lemma {:induction false} DropKeeps(rank: map<Entry, int>, d: Entry, x: Entry, y: Entry?)
    requires d in rank && x in rank && x != d && y != d
    ensures Follows(rank, x, y) ==> Follows(rank - {d}, x, y)
    ensures Precedes(rank, x, y) ==> Precedes(rank - {d}, x, y)
  {
  }

  lemma {:induction false} DropJoins(rank: map<Entry, int>, d: Entry, p: Entry?, n: Entry?)
    requires Injective(rank) && d in rank && Precedes(rank, d, p) && Follows(rank, d, n)
    ensures Injective(rank - {d})
    ensures p != null ==> p in rank - {d} && Follows(rank - {d}, p, n)
    ensures n != null ==> n in rank - {d} && Precedes(rank - {d}, n, p)
    ensures p == null ==> First(rank - {d}, n)
    ensures n == null ==> Last(rank - {d}, p)
  {
    var r := rank - {d};
    if p == null && n == null {
      forall x | x in rank ensures x == d {}
      assert r == map[];
    }
  }

  lemma {:induction false} DropEnds(rank: map<Entry, int>, d: Entry, h: Entry?)
    requires d in rank && h != d
    ensures First(rank, h) ==> First(rank - {d}, h)
    ensures Last(rank, h) ==> Last(rank - {d}, h)
  {
  }

  lemma {:induction false} EndsUnique(rank: map<Entry, int>, d: Entry, p: Entry?, n: Entry?, head: Entry?, tail: Entry?)
    requires Injective(rank) && d in rank && Precedes(rank, d, p) && Follows(rank, d, n) && First(rank, head)
    requires Last(rank, tail)
    ensures (p == null <==> head == d) && (n == null <==> tail == d)
  {
  }

  lemma {:induction false} AddFirst(rank: map<Entry, int>, e: Entry, head: Entry?, tail: Entry?, r: int)
    requires Injective(rank) && e !in rank && First(rank, head) && Last(rank, tail)
    requires r == if head == null then 0 else rank[head] - 1
    ensures var rank' := rank[e := r];
            && Injective(rank') && First(rank', e) && Follows(rank', e, head) && Precedes(rank', e, null)
            && (head != null ==> Precedes(rank', head, e) && Last(rank', tail)) && (head == null ==> Last(rank', e))
  {
  }

  lemma {:induction false} AddKeeps(rank: map<Entry, int>, e: Entry, head: Entry?, r: int, x: Entry, y: Entry?)
    requires e !in rank && First(rank, head) && head != null && r == rank[head] - 1 && x in rank
    ensures Follows(rank, x, y) ==> Follows(rank[e := r], x, y)
    ensures Precedes(rank, x, y) && y != null ==> Precedes(rank[e := r], x, y)
    ensures Injective(rank) && Precedes(rank, x, null) ==> x == head
  {
  }

  lemma {:induction false} OneLess(cache: map<CacheKey, Entry>, k: CacheKey)
    requires k in cache
    ensures |cache - {k}| == |cache| - 1
  {
    assert (cache - {k}).Keys == cache.Keys - {k};
    assert |(cache - {k}).Keys| == |cache.Keys| - 1;
  }

  lemma {:induction false} HeadIn(rank: map<Entry, int>, head: Entry?)
    requires First(rank, head)
    ensures head != null ==> head in rank
  {
  }

  lemma {:induction false} NotEmpty(rank: map<Entry, int>, head: Entry?, x: Entry)
    requires First(rank, head) && x in rank
    ensures head != null
  {
  }

  /** The same order with e in it. */
  ghost predicate Adds(rank: map<Entry, int>, rank': map<Entry, int>, e: Entry) {
    rank'.Keys == rank.Keys + {e} && forall x :: x in rank ==> rank'[x] == rank[x]
  }

  class Stripe {
    var cache: map<CacheKey, Entry>
    var head: Entry?
    var tail: Entry?
    ghost var rank: map<Entry, int>   // the place of each entry in the list

    /** The links run through the entries in rank order, both ways. */
    ghost predicate Chained()
      reads this, rank.Keys
    {
      && Injective(rank) && First(rank, head) && Last(rank, tail)
      && forall e :: e in rank ==> Follows(rank, e, e.next) && Precedes(rank, e, e.prev)
    }

    /** The list holds exactly the map's entries, each under its own key. */
    ghost predicate Valid()
      reads this, rank.Keys
    {
      && Chained()
      && (forall e :: e in rank ==> e.key in cache && cache[e.key] == e)
      && (forall k :: k in cache ==> cache[k] in rank && cache[k].key == k)
    }

    constructor ()
      ensures Valid() && cache == map[]
    {
      cache, head, tail, rank := map[], null, null, map[];
    }

    method InsertHead(entry: Entry)
      requires Chained() && entry !in rank
      modifies this`head, this`tail, this`rank, entry, rank.Keys
      ensures Chained() && First(rank, entry) && Adds(old(rank), rank, entry)
    {
      hide Injective, First, Last, Follows, Precedes;
      HeadIn(rank, head);
      ghost var r := if head == null then 0 else rank[head] - 1;
      AddFirst(rank, entry, head, tail, r);
      KeepsOrder(entry, r);
      entry.prev := null;
      entry.next := head;
      if head != null { head.prev := entry; } else { tail := entry; }
      head := entry;
      rank := rank[entry := r];
    }

    /** The links of the other entries fit the order with entry in front. */
    lemma KeepsOrder(entry: Entry, r: int)
      requires Chained() && entry !in rank && (head != null ==> head in rank && r == rank[head] - 1)
      ensures forall x :: x in rank ==>
        Follows(rank[entry := r], x, x.next) && (x != head ==> Precedes(rank[entry := r], x, x.prev))
    {
      hide Injective, First, Last, Follows, Precedes;
      forall x | x in rank
        ensures Follows(rank[entry := r], x, x.next) && (x != head ==> Precedes(rank[entry := r], x, x.prev))
      {
        NotEmpty(rank, head, x);
        AddKeeps(rank, entry, head, r, x, x.next);
        AddKeeps(rank, entry, head, r, x, x.prev);
      }
    }

    method Unlink(entry: Entry)
      requires Chained() && entry in rank
      modifies this`head, this`tail, this`rank, rank.Keys
      ensures Chained() && rank == old(rank) - {entry}
    {
      hide Injective, First, Last, Follows, Precedes;
      ghost var p, n, left := entry.prev, entry.next, rank - {entry};
      DropJoins(rank, entry, p, n);
      EndsUnique(rank, entry, p, n, head, tail);
      DropEnds(rank, entry, if head == entry then null else head);
      DropEnds(rank, entry, if tail == entry then null else tail);
      forall x | x in left
        ensures (x.next == entry <==> x == p) && (x.prev == entry <==> x == n)
        ensures x != p ==> Follows(left, x, x.next)
        ensures x != n ==> Precedes(left, x, x.prev)
      {
        Neighbours(rank, entry, p, n, x);
        OneNeighbour(rank, x, x.next, entry);
        OneNeighbour(rank, x, x.prev, entry);
        if x.next != entry { DropKeeps(rank, entry, x, x.next); }
        if x.prev != entry { DropKeeps(rank, entry, x, x.prev); }
      }
      if entry.prev != null { entry.prev.next := entry.next; } else { head := entry.next; }
      if entry.next != null { entry.next.prev := entry.prev; } else { tail := entry.prev; }
      entry.prev := null;
      entry.next := null;
      rank := rank - {entry};
    }

    /** Makes entry the most recently used; the others keep their order. */
    method MoveToHead(entry: Entry)
      requires Valid() && entry in rank
      modifies this`head, this`tail, this`rank, rank.Keys
      ensures Valid() && rank.Keys == old(rank).Keys && First(rank, entry)
      ensures forall x :: x in rank && x != entry ==> rank[x] == old(rank)[x]
    {
      hide Injective, First, Last, Follows, Precedes;
      if entry == head { return; }
      Unlink(entry);
      InsertHead(entry);
    }

    /** A hit moves the entry to the front. */
    method Get(key: CacheKey) returns (found: bool, chunk: int)
      requires Valid()
      modifies this`head, this`tail, this`rank, rank.Keys
      ensures Valid() && found == (key in cache) && rank.Keys == old(rank).Keys
      ensures found ==> chunk == cache[key].chunk && First(rank, cache[key])
      ensures !found ==> rank == old(rank)
      ensures forall x :: x in rank && !(found && x == cache[key]) ==> rank[x] == old(rank)[x]
    {
      hide Injective, First, Last, Follows, Precedes;
      if key !in cache { return false, 0; }
      var entry := cache[key];
      MoveToHead(entry);
      return true, entry.chunk;
    }

    /** Publishes a chunk under a key that has none. */
    method Insert(key: CacheKey, chunk: int)
      requires Valid() && key !in cache
      modifies this, rank.Keys
      ensures Valid() && key in cache && fresh(cache[key]) && cache == old(cache)[key := cache[key]]
      ensures cache[key].chunk == chunk
      ensures First(rank, cache[key]) && Adds(old(rank), rank, cache[key])
    {
      hide Injective, First, Last, Follows, Precedes;
      var entry := new Entry(key, chunk);
      cache := cache[key := entry];
      InsertHead(entry);
    }

    method Detach(entry: Entry)
      requires Valid() && entry in rank
      modifies this, rank.Keys
      ensures Valid() && cache == old(cache) - {entry.key} && rank == old(rank) - {entry} && |cache| == |old(cache)| - 1
    {
      hide Injective, First, Last, Follows, Precedes;
      OneLess(cache, entry.key);
      cache := cache - {entry.key};
      Unlink(entry);
    }

    /** The least recently used entry goes. */
    method EvictTail() returns (victim: Entry)
      requires Valid() && cache != map[]
      modifies this, rank.Keys
      ensures Valid() && victim in old(rank) && old(Last(rank, victim)) && rank == old(rank) - {victim}
      ensures cache == old(cache) - {victim.key}
    {
      NotEmptyTail();
      hide Injective, First, Last, Follows, Precedes;
      victim := tail;
      Detach(victim);
    }

    lemma NotEmptyTail()
      requires Valid() && cache != map[]
      ensures tail != null && tail in rank
    {
      var k :| k in cache;
      assert cache[k] in rank;
    }

    /** Removes precisely the entries older than epoch. */
    method FlushEpoch(epoch: nat) returns (n: nat)
      requires Valid()
      modifies this, rank.Keys
      ensures Valid() && forall k :: k in cache <==> k in old(cache) && k.epoch >= epoch
      ensures forall k :: k in cache ==> cache[k] == old(cache)[k]
      ensures forall x :: x in rank ==> x in old(rank) && rank[x] == old(rank)[x]
      ensures n == |old(cache)| - |cache|
    {
      hide Injective, First, Last, Follows, Precedes, Swept, Before, Flushed, Valid, Chained;
      ghost var cache0, rank0 := cache, rank;
      n := 0;
      var entry := tail;
      StartsSweep(epoch);
      while entry != null
        invariant Valid() && Flushed(cache0, rank0, cache, rank, epoch) && rank.Keys <= rank0.Keys
        invariant (entry != null ==> entry in rank) && Swept(rank, entry, epoch) && n + |cache| == |cache0|
        decreases Before(rank, entry)
      {
        var prev := entry.prev;
        PrevIn(entry);
        Sweeps(rank, entry, prev, epoch);
        if entry.key.epoch < epoch {
          DropsFlushed(cache0, rank0, cache, rank, entry, epoch);
          Detach(entry);
          n := n + 1;
        }
        entry := prev;
      }
      EndsSweep(cache0, rank0, epoch);
    }

    lemma StartsSweep(epoch: nat)
      requires Valid()
      ensures Flushed(cache, rank, cache, rank, epoch) && Swept(rank, tail, epoch) && (tail != null ==> tail in rank)
    {
      AllBeforeTail(rank, tail, epoch);
    }

    lemma EndsSweep(cache0: map<CacheKey, Entry>, rank0: map<Entry, int>, epoch: nat)
      requires Valid() && Swept(rank, null, epoch) && Flushed(cache0, rank0, cache, rank, epoch)
      ensures forall k :: k in cache <==> k in cache0 && k.epoch >= epoch
      ensures forall k :: k in cache ==> cache[k] == cache0[k]
      ensures forall x :: x in rank ==> x in rank0 && rank[x] == rank0[x]
    {
      forall k | k in cache ensures k.epoch >= epoch { assert cache[k] in rank; }
    }

    lemma PrevIn(e: Entry)
      requires Valid() && e in rank
      ensures Injective(rank) && Precedes(rank, e, e.prev) && (e.prev != null ==> e.prev in rank && e.prev != e)
    {
    }
  }

  // ---- a sweep from the tail ----

  /** Only entries older than epoch are gone, and the rest are as they were. */
  ghost predicate Flushed(cache0: map<CacheKey, Entry>, rank0: map<Entry, int>, cache: map<CacheKey, Entry>,
      rank: map<Entry, int>, epoch: nat) {
    && (forall k :: k in cache ==> k in cache0 && cache[k] == cache0[k])
    && (forall k :: k in cache0 && k !in cache ==> k.epoch < epoch)
    && (forall x :: x in rank ==> x in rank0 && rank[x] == rank0[x])
  }

  lemma {:induction false} DropsFlushed(cache0: map<CacheKey, Entry>, rank0: map<Entry, int>, cache: map<CacheKey,
      Entry>, rank: map<Entry, int>, e: Entry, epoch: nat)
    requires Flushed(cache0, rank0, cache, rank, epoch) && e.key.epoch < epoch
    ensures Flushed(cache0, rank0, cache - {e.key}, rank - {e}, epoch)
  {
  }

  /** What is older than epoch is at or before e. */
  ghost predicate Swept(rank: map<Entry, int>, e: Entry?, epoch: nat) {
    forall x :: x in rank && x.key.epoch < epoch ==> e != null && e in rank && rank[x] <= rank[e]
  }

  /** The entries not yet visited. */
  ghost function Before(rank: map<Entry, int>, e: Entry?): set<Entry> {
    if e == null || e !in rank then {} else set x | x in rank && rank[x] <= rank[e]
  }

  lemma {:induction false} AllBeforeTail(rank: map<Entry, int>, tail: Entry?, epoch: nat)
    requires Last(rank, tail)
    ensures Swept(rank, tail, epoch) && (tail != null ==> tail in rank)
  {
  }

  lemma {:induction false} Sweeps(rank: map<Entry, int>, e: Entry, p: Entry?, epoch: nat)
    requires Injective(rank) && e in rank && Swept(rank, e, epoch) && Precedes(rank, e, p)
    ensures Swept(rank - {e}, p, epoch) && Before(rank - {e}, p) < Before(rank, e) && Before(rank, p) < Before(rank, e)
    ensures e.key.epoch >= epoch ==> Swept(rank, p, epoch)
  {
    assert e in Before(rank, e);
  }
}
