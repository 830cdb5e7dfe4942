/** A whole job: map, partition by hash, sort and group in each bucket, merge. */
module MrJob {
  import opened Common
  import opened MrGroup

  function Flatten(lists: seq<seq<KeyValue>>): seq<KeyValue>
  {
    if lists == [] then [] else Flatten(lists[..|lists| - 1]) + lists[|lists| - 1]
  }

  ghost function TotalSize(lists: seq<seq<KeyValue>>): nat
  {
    if lists == [] then 0 else TotalSize(lists[..|lists| - 1]) + |lists[|lists| - 1]|
  }

  /** Every list stands in the flat one, after all lists before it, and nothing else does. */
  lemma {:induction false} FlattenAt(lists: seq<seq<KeyValue>>, i: nat)
    requires i < |lists|
    ensures |Flatten(lists)| == TotalSize(lists)
    ensures TotalSize(lists[..i]) + |lists[i]| <= TotalSize(lists)
    ensures forall j :: 0 <= j < |lists[i]| ==> Flatten(lists)[TotalSize(lists[..i]) + j] == lists[i][j]
  {
    var k := |lists| - 1;
    FlattenSize(lists[..k]);
    if i < k {
      FlattenAt(lists[..k], i);
      assert lists[..k][..i] == lists[..i];
    }
  }

  lemma {:induction false} FlattenSize(lists: seq<seq<KeyValue>>)
    ensures |Flatten(lists)| == TotalSize(lists)
  {
    if lists != [] {
      FlattenSize(lists[..|lists| - 1]);
    }
  }

  /** The reduce task a key belongs to. */
  function Route(hash: string -> nat, n: nat, key: string): (r: nat)
    requires n > 0
    ensures r < n
  {
    hash(key) % n
  }

  /** The pairs of one reduce task, in order. */
  function Bucket(kvs: seq<KeyValue>, hash: string -> nat, n: nat, r: nat): seq<KeyValue>
    requires n > 0
  {
    if kvs == [] then []
    else
      var last := kvs[|kvs| - 1];
      Bucket(kvs[..|kvs| - 1], hash, n, r) + if Route(hash, n, last.key) == r then [last] else []
  }

  /** A bucket lists the pairs whose key has its remainder, as often and in the order they occur. */
  lemma {:induction false} BucketPicks(kvs: seq<KeyValue>, hash: string -> nat, n: nat, r: nat)
    requires n > 0
    ensures Picks(Bucket(kvs, hash, n, r), kvs, (kv: KeyValue) => hash(kv.key) % n == r)
  {
    hide Picks;
    var keep := (kv: KeyValue) => hash(kv.key) % n == r;
    if kvs == [] {
      PicksNone(keep);
    } else {
      var front, last := kvs[..|kvs| - 1], kvs[|kvs| - 1];
      BucketPicks(front, hash, n, r);
      PicksNext(Bucket(front, hash, n, r), front, last, keep);
      assert front + [last] == kvs;
    }
  }

  // ---------------------------------------------------------------- map

  /** Writes each pair to the file of its bucket. */
  method DoMap(kvs: seq<KeyValue>, hash: string -> nat, n: nat) returns (files: seq<seq<KeyValue>>)
    requires n > 0
    ensures |files| == n && forall r :: 0 <= r < n ==> files[r] == Bucket(kvs, hash, n, r)
    ensures forall r :: 0 <= r < n ==> Picks(files[r], kvs, (kv: KeyValue) => hash(kv.key) % n == r)
  {
    hide Picks;
    files := seq(n, _ => []);
    for i := 0 to |kvs|
      invariant |files| == n && forall r :: 0 <= r < n ==> files[r] == Bucket(kvs[..i], hash, n, r)
    {
      var idx := Route(hash, n, kvs[i].key);
      assert kvs[..i + 1][..i] == kvs[..i];
      files := files[idx := files[idx] + [kvs[i]]];
    }
    assert kvs[..|kvs|] == kvs;
    forall r: nat | r < n
      ensures Picks(files[r], kvs, (kv: KeyValue) => hash(kv.key) % n == r)
    {
      BucketPicks(kvs, hash, n, r);
    }
  }

  // ---------------------------------------------------------------- reduce

  /** What `sort.Slice` promises: the same pairs, in key order; equal keys may change places. */
  ghost predicate SortsPairs(f: seq<KeyValue> -> seq<KeyValue>)
  {
    forall s :: multiset(f(s)) == multiset(s) && SortedPairs(f(s))
  }

  function InsertPair(kvs: seq<KeyValue>, kv: KeyValue): (r: seq<KeyValue>)
    ensures multiset(r) == multiset(kvs) + multiset{kv}
  {
    if kvs == [] || KeyLe(kv.key, kvs[0].key) then [kv] + kvs
    else
      assert kvs == [kvs[0]] + kvs[1..];
      [kvs[0]] + InsertPair(kvs[1..], kv)
  }

  function SortPairs(kvs: seq<KeyValue>): (r: seq<KeyValue>)
    ensures multiset(r) == multiset(kvs)
  {
    if kvs == [] then []
    else
      assert kvs == [kvs[0]] + kvs[1..];
      InsertPair(SortPairs(kvs[1..]), kvs[0])
  }

  lemma {:induction false} InsertSorts(kvs: seq<KeyValue>, kv: KeyValue)
    requires SortedPairs(kvs)
    ensures SortedPairs(InsertPair(kvs, kv))
  {
    hide KeyLe;
    if kvs != [] {
      var rest := kvs[1..];
      if KeyLe(kv.key, kvs[0].key) {
        forall j | 0 < j < |kvs|
          ensures KeyLe(kv.key, kvs[j].key)
        {
          KeyTransitive(kv.key, kvs[0].key, kvs[j].key);
        }
      } else {
        KeyTotal(kv.key, kvs[0].key);
        InsertSorts(rest, kv);
        forall x | x in InsertPair(rest, kv)
          ensures KeyLe(kvs[0].key, x.key)
        {
          assert x in multiset(rest) + multiset{kv};
        }
      }
    }
  }

  /** The promise can be kept: insertion sort does. */
  lemma SortExists()
    ensures SortsPairs(SortPairs)
  {
    forall s: seq<KeyValue>
      ensures SortedPairs(SortPairs(s))
    {
      SortIsSorted(s);
    }
  }

  lemma {:induction false} SortIsSorted(s: seq<KeyValue>)
    ensures SortedPairs(SortPairs(s))
  {
    if s != [] {
      SortIsSorted(s[1..]);
      InsertSorts(SortPairs(s[1..]), s[0]);
    }
  }

  /** Collects the bucket's files, sorts and groups; without pairs it writes no file. */
  method DoReduce(inputs: seq<seq<KeyValue>>, sort: seq<KeyValue> -> seq<KeyValue>, reduceF: (string, seq<string>) -> string)
    returns (file: Option<seq<KeyValue>>, ghost calls: seq<Call>)
    requires SortsPairs(sort)
    ensures file.None? <==> Flatten(inputs) == []
    ensures file.Some? ==> Groups(calls, sort(Flatten(inputs))) && file.value == Results(calls, reduceF)
  {
    var kvs: seq<KeyValue> := [];
    calls := [];
    for i := 0 to |inputs|
      invariant kvs == Flatten(inputs[..i])
    {
      assert inputs[..i + 1][..i] == inputs[..i];
      for j := 0 to |inputs[i]|
        invariant kvs == Flatten(inputs[..i]) + inputs[i][..j]
      {
        kvs := kvs + [inputs[i][j]];
      }
    }
    assert inputs[..|inputs|] == inputs;
    var sorted := sort(kvs);
    assert |sorted| == |multiset(sorted)| == |multiset(kvs)| == |kvs|;
    if |sorted| == 0 {
      return None, [];
    }
    var out;
    out, calls := ReduceSorted(sorted, reduceF);
    file := Some(out);
  }

  // ---------------------------------------------------------------- merge

  /** Entering the pairs one by one; a later pair of a key replaces an earlier one. */
  function Entered(kvs: seq<KeyValue>): map<string, string>
  {
    if kvs == [] then map[]
    else
      var last := kvs[|kvs| - 1];
      Entered(kvs[..|kvs| - 1])[last.key := last.value]
  }

  /** The last value of a key stays. */
  lemma {:induction false} LastStays(kvs: seq<KeyValue>, key: string)
    ensures var vs := ValuesOf(kvs, key);
            (key in Entered(kvs) <==> vs != []) && (vs != [] ==> Entered(kvs)[key] == vs[|vs| - 1])
  {
    if kvs != [] {
      LastStays(kvs[..|kvs| - 1], key);
    }
  }

  ghost predicate IncreasingKeys(keys: seq<string>)
  {
    forall i, j :: 0 <= i < j < |keys| ==> KeyLess(keys[i], keys[j])
  }

  function InsertKey(keys: seq<string>, key: string): (r: seq<string>)
    ensures forall k :: k in r <==> k in keys || k == key
  {
    if keys == [] || KeyLess(key, keys[0]) then [key] + keys
    else
      assert keys == [keys[0]] + keys[1..];
      [keys[0]] + InsertKey(keys[1..], key)
  }

  lemma {:induction false} InsertKeeps(keys: seq<string>, key: string)
    requires IncreasingKeys(keys) && key !in keys
    ensures IncreasingKeys(InsertKey(keys, key))
  {
    hide KeyLe;
    if keys != [] {
      KeyTotal(key, keys[0]);
      if KeyLess(key, keys[0]) {
        forall j | 0 < j < |keys|
          ensures KeyLess(key, keys[j])
        {
          KeyLessTransitive(key, keys[0], keys[j]);
        }
      } else {
        InsertKeeps(keys[1..], key);
        assert forall k :: k in keys[1..] ==> KeyLess(keys[0], k);
        assert InsertKey(keys, key) == [keys[0]] + InsertKey(keys[1..], key);
      }
    }
  }

  /** The lines of the output: every key of the map once, in order, with its value. */
  ghost predicate Table(lines: seq<KeyValue>, m: map<string, string>)
  {
    Increasing(lines) && (forall i :: 0 <= i < |lines| ==> lines[i].key in m && lines[i].value == m[lines[i].key]) &&
    forall k :: k in m ==> HasKey(lines, k)
  }

  /** Reads the outputs of all reduce tasks and writes the table; a missing output ends the program. */
  method Merge(files: seq<Option<seq<KeyValue>>>) returns (lines: Option<seq<KeyValue>>)
    ensures lines.None? <==> exists r :: 0 <= r < |files| && files[r].None?
    ensures lines.Some? ==> Table(lines.value, Entered(Flatten(Opened(files))))
  {
    var kvs: map<string, string> := map[];
    for i := 0 to |files|
      invariant forall r :: 0 <= r < i ==> files[r].Some?
      invariant kvs == Entered(Flatten(Opened(files[..i])))
    {
      if files[i].None? {
        return None;
      }
      assert Opened(files[..i + 1])[..i] == Opened(files[..i]);
      kvs := EnterAll(kvs, files[i].value, Flatten(Opened(files[..i])));
    }
    assert files[..|files|] == files;
    var keys := KeysInOrder(kvs);
    lines := Some(Lines(keys, kvs));
    forall k | k in kvs
      ensures HasKey(lines.value, k)
    {
      var i :| 0 <= i < |keys| && keys[i] == k;
      assert lines.value[i].key == k;
    }
  }

  function Content(file: Option<seq<KeyValue>>): seq<KeyValue>
  {
    if file.Some? then file.value else []
  }

  function Opened(files: seq<Option<seq<KeyValue>>>): seq<seq<KeyValue>>
  {
    seq(|files|, i requires 0 <= i < |files| => Content(files[i]))
  }

  function Lines(keys: seq<string>, m: map<string, string>): seq<KeyValue>
    requires forall k :: k in keys ==> k in m
  {
    seq(|keys|, i requires 0 <= i < |keys| => KeyValue(keys[i], m[keys[i]]))
  }

  lemma EnteredNext(s: seq<KeyValue>, kv: KeyValue)
    ensures Entered(s + [kv]) == Entered(s)[kv.key := kv.value]
  {
    assert (s + [kv])[..|s|] == s;
  }

  method EnterAll(m: map<string, string>, file: seq<KeyValue>, ghost before: seq<KeyValue>) returns (kvs: map<string, string>)
    requires m == Entered(before)
    ensures kvs == Entered(before + file)
  {
    hide Entered;
    kvs := m;
    assert before + file[..0] == before;
    for j := 0 to |file|
      invariant kvs == Entered(before + file[..j])
    {
      EnteredNext(before + file[..j], file[j]);
      assert before + file[..j] + [file[j]] == before + file[..j + 1];
      kvs := kvs[file[j].key := file[j].value];
    }
    assert file[..|file|] == file;
  }

  /** The keys in any order, then sorted. */
  method KeysInOrder(m: map<string, string>) returns (keys: seq<string>)
    ensures IncreasingKeys(keys) && forall k :: k in keys <==> k in m
  {
    keys := [];
    var rest := m.Keys;
    while rest != {}
      invariant rest <= m.Keys && IncreasingKeys(keys) && forall k :: k in keys <==> k in m && k !in rest
      decreases |rest|
    {
      var k :| k in rest;
      InsertKeeps(keys, k);
      keys := InsertKey(keys, k);
      rest := rest - {k};
    }
  }
}
