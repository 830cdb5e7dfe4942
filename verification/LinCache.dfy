/** The memo table of the search: buckets of (bitset, state) pairs keyed by a hash of the bitset.
    Stored bitsets are separate arrays, so later edits of the live bitset do not reach them. */
module LinCache {
  import opened LinBitset
  import opened LinPopcount

  datatype CacheEntry<S> = CacheEntry(linearized: array<bv64>, state: S)

  /** What a stored pair stands for. */
  datatype Config<S> = Config(done: set<nat>, state: S)

  /** Bucket keys are the numeric values of the 64-bit hashes. */
  type Cache<S> = map<nat, seq<CacheEntry<S>>>

  function Xor(a: bv64, b: bv64): bv64
  {
    a ^ b
  }

  function XorAll(start: bv64, s: seq<bv64>): bv64
  {
    if s == [] then start else Xor(XorAll(start, s[..|s| - 1]), s[|s| - 1])
  }

  /** The bucket of a bitset depends on its contents only. */
  function Hash(s: seq<bv64>): nat
  {
    XorAll(PopAll(s), s) as nat
  }

  method HashOf(b: array<bv64>) returns (key: nat)
    ensures key == Hash(b[..])
  {
    hide PopWord, Add, Xor, PopAll;
    var hash := Popcnt(b);
    for i := 0 to b.Length
      invariant hash == XorAll(PopAll(b[..]), b[..i])
    {
      assert b[..i + 1][..i] == b[..i];
      hash := Xor(hash, b[i]);
    }
    assert b[..b.Length] == b[..];
    key := hash as nat;
  }

  /** How many words have bit `j`. */
  ghost function Column(s: seq<bv64>, j: nat): nat
  {
    if s == [] then 0 else Column(s[..|s| - 1], j) + if Overlap(s[|s| - 1], Mask(j)) then 1 else 0
  }

  lemma XorApart(v: bv64, w: bv64, m: bv64)
    requires OneHot(m) && Overlap(v, m) && !Overlap(w, m)
    ensures Differ(v, w, m) && Differ(w, v, m)
  {
  }

  lemma XorBit(v: bv64, w: bv64, m: bv64)
    requires OneHot(m)
    ensures Differ(v, w, m) <==> Overlap(v, m) != Overlap(w, m)
  {
    hide Differ, Overlap, OneHot;
    if Overlap(v, m) == Overlap(w, m) {
      XorOneHot(v, w, m);
    } else if Overlap(v, m) {
      XorApart(v, w, m);
    } else {
      XorApart(w, v, m);
    }
  }

  lemma XorOverlap(v: bv64, w: bv64, m: bv64)
    ensures Overlap(Xor(v, w), m) <==> Differ(v, w, m)
  {
  }

  lemma XorStep(x: bv64, w: bv64, p: bv64, m: bv64)
    requires OneHot(m)
    ensures Differ(Xor(x, w), p, m) <==> Differ(x, p, m) != Overlap(w, m)
  {
    hide Differ, Xor, Overlap, OneHot;
    XorBit(Xor(x, w), p, m);
    XorOverlap(x, w, m);
    XorBit(x, w, m);
    XorBit(x, p, m);
  }

  lemma XorSame(p: bv64, m: bv64)
    ensures !Differ(p, p, m)
  {
  }

  lemma {:induction false} XorParity(start: bv64, s: seq<bv64>, j: nat)
    requires j < 64
    ensures Differ(XorAll(start, s), start, Mask(j)) <==> Column(s, j) % 2 == 1
  {
    hide Differ, Xor, Overlap, Mask, OneHot;
    if s == [] {
      XorSame(start, Mask(j));
    } else {
      var k := |s| - 1;
      XorParity(start, s[..k], j);
      MaskOneHot(j);
      XorStep(XorAll(start, s[..k]), s[k], start, Mask(j));
    }
  }

  /** A bit of the hash differs from that of the count exactly if an odd number of words have it. */
  lemma HashParity(s: seq<bv64>, j: nat) returns (h: bv64)
    requires j < 64
    ensures Hash(s) == h as nat && (Differ(h, PopAll(s), Mask(j)) <==> Column(s, j) % 2 == 1)
  {
    hide Differ, Xor, Overlap, Mask, PopAll;
    h := XorAll(PopAll(s), s);
    XorParity(PopAll(s), s, j);
  }

  ghost function Arrays<S>(cache: Cache<S>): set<array<bv64>>
  {
    set h: nat, i: nat | h in cache && i < |cache[h]| :: cache[h][i].linearized
  }

  ghost function Meaning<S>(e: CacheEntry<S>): Config<S>
    reads e.linearized
  {
    Config(Bits(e.linearized[..]), e.state)
  }

  ghost predicate Stored<S>(cache: Cache<S>, c: Config<S>, h: nat, i: nat)
    reads Arrays(cache)
  {
    h in cache && i < |cache[h]| && Meaning(cache[h][i]) == c
  }

  /** The table holds exactly the configurations `seen`, each in the bucket of its hash. */
  ghost predicate Holds<S>(cache: Cache<S>, chunks: nat, seen: set<Config<S>>)
    reads Arrays(cache)
  {
    (forall h: nat, i: nat :: h in cache && i < |cache[h]| ==>
       cache[h][i].linearized.Length == chunks && Hash(cache[h][i].linearized[..]) == h && Meaning(cache[h][i]) in seen) &&
    (forall c :: c in seen ==> exists h: nat, i: nat :: Stored(cache, c, h, i))
  }

  lemma EmptyCache<S>(cache: Cache<S>, chunks: nat)
    requires cache == map[]
    ensures Holds(cache, chunks, {}) && Arrays(cache) == {}
  {
  }

  method CacheContains<S(==)>(cache: Cache<S>, entry: CacheEntry<S>, ghost seen: set<Config<S>>) returns (found: bool)
    requires Holds(cache, entry.linearized.Length, seen)
    ensures found <==> Meaning(entry) in seen
  {
    hide Hash, Bits, Holds;
    assert forall a :: a in Arrays(cache) ==> allocated(a);
    var h := HashOf(entry.linearized);
    if h !in cache {
      NotInBucket(cache, entry, h, seen);
      return false;
    }
    for i := 0 to |cache[h]|
      invariant Holds(cache, entry.linearized.Length, seen)
      invariant forall j: nat :: j < i ==> Meaning(cache[h][j]) != Meaning(entry)
    {
      InBucket(cache, entry.linearized.Length, h, i, seen);
      var same := Equals(entry.linearized, cache[h][i].linearized);
      if same && entry.state == cache[h][i].state {
        return true;
      }
    }
    NotInBucket(cache, entry, h, seen);
    return false;
  }

  lemma InBucket<S>(cache: Cache<S>, chunks: nat, h: nat, i: nat, seen: set<Config<S>>)
    requires Holds(cache, chunks, seen) && h in cache && i < |cache[h]|
    ensures cache[h][i].linearized.Length == chunks && Meaning(cache[h][i]) in seen
  {
  }

  /** Equal bitsets share a bucket, so a miss there is a miss everywhere. */
  lemma NotInBucket<S>(cache: Cache<S>, entry: CacheEntry<S>, h: nat, seen: set<Config<S>>)
    requires Holds(cache, entry.linearized.Length, seen) && h == Hash(entry.linearized[..])
    requires h in cache ==> forall j: nat :: j < |cache[h]| ==> Meaning(cache[h][j]) != Meaning(entry)
    ensures Meaning(entry) !in seen
  {
    hide Hash, Bits;
    if Meaning(entry) in seen {
      var g: nat, i: nat :| Stored(cache, Meaning(entry), g, i);
      BitsInjective(cache[g][i].linearized[..], entry.linearized[..]);
      assert false;
    }
  }

  /** Appends an entry to its bucket. */
  method CacheAdd<S>(cache: Cache<S>, entry: CacheEntry<S>, ghost seen: set<Config<S>>) returns (cache': Cache<S>)
    requires Holds(cache, entry.linearized.Length, seen)
    ensures Holds(cache', entry.linearized.Length, seen + {Meaning(entry)})
    ensures Arrays(cache') == Arrays(cache) + {entry.linearized}
  {
    hide Hash, Bits;
    assert forall a :: a in Arrays(cache) ==> allocated(a);
    var h := HashOf(entry.linearized);
    assert Holds(cache, entry.linearized.Length, seen);
    var bucket: seq<CacheEntry<S>> := if h in cache then cache[h] else [];
    cache' := cache[h := bucket + [entry]];
    AddKeeps(cache, entry, h, seen);
  }

  lemma AddKeeps<S>(cache: Cache<S>, entry: CacheEntry<S>, h: nat, seen: set<Config<S>>)
    requires Holds(cache, entry.linearized.Length, seen) && h == Hash(entry.linearized[..])
    ensures var cache': Cache<S> := cache[h := (if h in cache then cache[h] else []) + [entry]];
            Holds(cache', entry.linearized.Length, seen + {Meaning(entry)}) &&
            Arrays(cache') == Arrays(cache) + {entry.linearized}
  {
    hide Hash, Bits;
    var bucket: seq<CacheEntry<S>> := if h in cache then cache[h] else [];
    var cache': Cache<S> := cache[h := bucket + [entry]];
    assert Arrays(cache') == Arrays(cache) + {entry.linearized} by {
      assert cache'[h][|bucket|].linearized == entry.linearized;
      forall g: nat, i: nat | g in cache && i < |cache[g]|
        ensures cache[g][i].linearized in Arrays(cache')
      {
        assert cache'[g][i] == cache[g][i];
      }
    }
    assert Stored(cache', Meaning(entry), h, |bucket|);
    forall c | c in seen
      ensures exists g: nat, i: nat :: Stored(cache', c, g, i)
    {
      var g: nat, i: nat :| Stored(cache, c, g, i);
      assert Stored(cache', c, g, i);
    }
  }

  /** Looks up the configuration that adds operation `id` to the live bitset, and records it, with a
      bitset of its own, if it is new. */
  method Memoize<S(==)>(cache: Cache<S>, linearized: array<bv64>, id: nat, state: S, ghost seen: set<Config<S>>)
    returns (hit: bool, cache': Cache<S>)
    requires Holds(cache, linearized.Length, seen) && linearized !in Arrays(cache) && id < WORD * linearized.Length
    ensures hit <==> Config(Bits(linearized[..]) + {id}, state) in seen
    ensures Holds(cache', linearized.Length, seen + {Config(Bits(linearized[..]) + {id}, state)})
    ensures linearized !in Arrays(cache') && forall a :: a in Arrays(cache') ==> a in Arrays(cache) || fresh(a)
  {
    hide Bits, Holds;
    assert forall a :: a in Arrays(cache) ==> allocated(a);
    var newLinearized := Clone(linearized);
    Set(newLinearized, id);
    assert Holds(cache, linearized.Length, seen);
    var entry := CacheEntry(newLinearized, state);
    hit := CacheContains(cache, entry, seen);
    cache' := cache;
    if !hit {
      cache' := CacheAdd(cache, entry, seen);
    } else {
      assert seen == seen + {Meaning(entry)};
    }
  }
}
