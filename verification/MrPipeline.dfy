/** The pipeline computes the direct group-by, whatever the number of buckets, the hash and the sort. */
module MrPipeline {
  import opened Common
  import opened MrGroup
  import opened MrJob

  // ---------------------------------------------------------------- following one key through the pipeline

  lemma {:induction false} BucketValues(kvs: seq<KeyValue>, hash: string -> nat, n: nat, r: nat, key: string)
    requires n > 0
    ensures ValuesOf(Bucket(kvs, hash, n, r), key) == if Route(hash, n, key) == r then ValuesOf(kvs, key) else []
  {
    if kvs != [] {
      var front, last := kvs[..|kvs| - 1], kvs[|kvs| - 1];
      BucketValues(front, hash, n, r, key);
      if Route(hash, n, last.key) == r {
        ValuesStep(Bucket(front, hash, n, r), last, key);
      } else {
        assert Bucket(kvs, hash, n, r) == Bucket(front, hash, n, r);
      }
    }
  }

  lemma {:induction false} BucketAppend(a: seq<KeyValue>, b: seq<KeyValue>, hash: string -> nat, n: nat, r: nat)
    requires n > 0
    ensures Bucket(a + b, hash, n, r) == Bucket(a, hash, n, r) + Bucket(b, hash, n, r)
  {
    if b == [] {
      assert a + b == a;
    } else {
      BucketAppend(a, b[..|b| - 1], hash, n, r);
      assert (a + b)[..|a + b| - 1] == a + b[..|b| - 1];
    }
  }

  /** What a reduce task collects from all map tasks is its bucket of everything emitted. */
  lemma {:induction false} CollectedIsBucket(emitted: seq<seq<KeyValue>>, inputs: seq<seq<KeyValue>>,
                                             hash: string -> nat, n: nat, r: nat)
    requires n > 0 && |inputs| == |emitted| && forall i :: 0 <= i < |inputs| ==> inputs[i] == Bucket(emitted[i], hash, n, r)
    ensures Flatten(inputs) == Bucket(Flatten(emitted), hash, n, r)
  {
    if emitted != [] {
      var k := |emitted| - 1;
      CollectedIsBucket(emitted[..k], inputs[..k], hash, n, r);
      BucketAppend(Flatten(emitted[..k]), emitted[k], hash, n, r);
    }
  }

  /** A key that only one list holds keeps its values. */
  lemma {:induction false} FlattenValues(lists: seq<seq<KeyValue>>, key: string, r: nat)
    requires forall q :: 0 <= q < |lists| && q != r ==> ValuesOf(lists[q], key) == []
    ensures ValuesOf(Flatten(lists), key) == if r < |lists| then ValuesOf(lists[r], key) else []
  {
    if lists != [] {
      var k := |lists| - 1;
      FlattenValues(lists[..k], key, r);
      ValuesAppend(Flatten(lists[..k]), lists[k], key);
    }
  }

  // ---------------------------------------------------------------- what the job computes

  /** `value` is `reduceF` of the values emitted for the key, in some order. */
  ghost predicate ReducedFrom(all: seq<KeyValue>, reduceF: (string, seq<string>) -> string, key: string, value: string)
  {
    exists vs: seq<string> :: multiset(vs) == multiset(ValuesOf(all, key)) && value == reduceF(key, vs)
  }

  /** Every emitted key once, in order, reduced from exactly its emitted values. */
  ghost predicate GroupsBy(lines: seq<KeyValue>, all: seq<KeyValue>, reduceF: (string, seq<string>) -> string)
  {
    Increasing(lines) && (forall k :: HasKey(lines, k) <==> HasKey(all, k)) &&
    forall i :: 0 <= i < |lines| ==> ReducedFrom(all, reduceF, lines[i].key, lines[i].value)
  }

  /** Reduce task `r` has written its output, or nothing if its bucket is empty. */
  ghost predicate TaskOutput(file: Option<seq<KeyValue>>, bucket: seq<KeyValue>, sort: seq<KeyValue> -> seq<KeyValue>,
                             reduceF: (string, seq<string>) -> string)
  {
    (file.None? <==> bucket == []) &&
    (file.Some? ==> exists calls :: Groups(calls, sort(bucket)) && file.value == Results(calls, reduceF))
  }

  ghost predicate TaskOutputs(files: seq<Option<seq<KeyValue>>>, all: seq<KeyValue>, hash: string -> nat, n: nat,
                              sort: seq<KeyValue> -> seq<KeyValue>, reduceF: (string, seq<string>) -> string)
    requires n > 0
  {
    |files| <= n && forall r :: 0 <= r < |files| ==> TaskOutput(files[r], Bucket(all, hash, n, r), sort, reduceF)
  }

  lemma SortedKeyValues(kvs: seq<KeyValue>, sort: seq<KeyValue> -> seq<KeyValue>, key: string)
    requires SortsPairs(sort)
    ensures multiset(ValuesOf(sort(kvs), key)) == multiset(ValuesOf(kvs, key)) && (HasKey(sort(kvs), key) <==> HasKey(kvs, key))
  {
    PermutedValues(sort(kvs), kvs, key);
    NoValues(sort(kvs), key);
    NoValues(kvs, key);
    var a, b := ValuesOf(sort(kvs), key), ValuesOf(kvs, key);
    assert |a| == |multiset(a)| == |multiset(b)| == |b|;
  }

  /** `reduceF` is called once for each key of the bucket, with exactly the values emitted for the key. */
  lemma CallsExact(calls: seq<Call>, all: seq<KeyValue>, hash: string -> nat, n: nat, r: nat, sort: seq<KeyValue> -> seq<KeyValue>)
    requires n > 0 && SortsPairs(sort) && Groups(calls, sort(Bucket(all, hash, n, r)))
    ensures forall i :: 0 <= i < |calls| ==> multiset(calls[i].values) == multiset(ValuesOf(all, calls[i].key))
    ensures forall k :: Called(calls, k) <==> HasKey(all, k) && hash(k) % n == r
    ensures forall i, j :: 0 <= i < j < |calls| ==> calls[i].key != calls[j].key
  {
    var bucket := Bucket(all, hash, n, r);
    forall k: string
      ensures Called(calls, k) <==> HasKey(all, k) && Route(hash, n, k) == r
      ensures Called(calls, k) ==> multiset(ValuesOf(sort(bucket), k)) == multiset(ValuesOf(all, k))
    {
      BucketValues(all, hash, n, r, k);
      NoValues(bucket, k);
      NoValues(all, k);
      SortedKeyValues(bucket, sort, k);
      if HasKey(sort(bucket), k) {
        var i :| 0 <= i < |sort(bucket)| && sort(bucket)[i].key == k;
        assert Called(calls, sort(bucket)[i].key);
      }
    }
    forall i | 0 <= i < |calls|
      ensures multiset(calls[i].values) == multiset(ValuesOf(all, calls[i].key))
    {
      assert Called(calls, calls[i].key);
    }
  }

  /** One task's output and one key: nothing for a foreign key, one reduced value for its own. */
  lemma TaskValues(file: Option<seq<KeyValue>>, all: seq<KeyValue>, hash: string -> nat, n: nat, r: nat,
                   sort: seq<KeyValue> -> seq<KeyValue>, reduceF: (string, seq<string>) -> string, key: string)
    requires n > 0 && SortsPairs(sort) && TaskOutput(file, Bucket(all, hash, n, r), sort, reduceF)
    ensures var vs := ValuesOf(Content(file), key);
            if Route(hash, n, key) == r && HasKey(all, key) then |vs| == 1 && ReducedFrom(all, reduceF, key, vs[0]) else vs == []
  {
    var bucket := Bucket(all, hash, n, r);
    BucketValues(all, hash, n, r, key);
    NoValues(bucket, key);
    NoValues(all, key);
    if file.Some? {
      var calls :| Groups(calls, sort(bucket)) && file.value == Results(calls, reduceF);
      ReducedValues(calls, sort(bucket), reduceF, key);
      SortedKeyValues(bucket, sort, key);
    }
  }

  /** After the merge every key has the one value its task computed. */
  lemma MergedKey(files: seq<Option<seq<KeyValue>>>, all: seq<KeyValue>, hash: string -> nat, n: nat,
                  sort: seq<KeyValue> -> seq<KeyValue>, reduceF: (string, seq<string>) -> string, key: string)
    requires n > 0 && SortsPairs(sort) && |files| == n && TaskOutputs(files, all, hash, n, sort, reduceF)
    ensures var m := Entered(Flatten(Opened(files)));
            (key in m <==> HasKey(all, key)) && (key in m ==> ReducedFrom(all, reduceF, key, m[key]))
  {
    hide SortsPairs, TaskOutput, ReducedFrom, HasKey, Bucket, Route, Flatten, ValuesOf, Entered, Content;
    var lists := Opened(files);
    var r := Route(hash, n, key);
    forall q | 0 <= q < n
      ensures var vs := ValuesOf(lists[q], key);
              if q == r && HasKey(all, key) then |vs| == 1 && ReducedFrom(all, reduceF, key, vs[0]) else vs == []
    {
      TaskValues(files[q], all, hash, n, q, sort, reduceF, key);
    }
    FlattenValues(lists, key, r);
    LastStays(Flatten(lists), key);
  }

  lemma JobComputes(files: seq<Option<seq<KeyValue>>>, lines: seq<KeyValue>, all: seq<KeyValue>, hash: string -> nat, n: nat,
                    sort: seq<KeyValue> -> seq<KeyValue>, reduceF: (string, seq<string>) -> string)
    requires n > 0 && SortsPairs(sort) && |files| == n && TaskOutputs(files, all, hash, n, sort, reduceF)
    requires Table(lines, Entered(Flatten(Opened(files))))
    ensures GroupsBy(lines, all, reduceF)
  {
    hide SortsPairs, TaskOutputs, ReducedFrom, Entered, Flatten, Opened;
    forall k: string
      ensures HasKey(lines, k) <==> HasKey(all, k)
    {
      MergedKey(files, all, hash, n, sort, reduceF, k);
    }
    forall i | 0 <= i < |lines|
      ensures ReducedFrom(all, reduceF, lines[i].key, lines[i].value)
    {
      MergedKey(files, all, hash, n, sort, reduceF, lines[i].key);
    }
  }

  /** What the map function emits, by map task. */
  function MapOutputs(inputs: seq<string>, mapF: string -> seq<KeyValue>): seq<seq<KeyValue>>
  {
    seq(|inputs|, i requires 0 <= i < |inputs| => mapF(inputs[i]))
  }

  function Emitted(inputs: seq<string>, mapF: string -> seq<KeyValue>): seq<KeyValue>
  {
    Flatten(MapOutputs(inputs, mapF))
  }

  /** Map task `j` has written its pairs to the files of their buckets. */
  ghost predicate Mapped(files: seq<seq<KeyValue>>, kvs: seq<KeyValue>, hash: string -> nat, n: nat)
    requires n > 0
  {
    |files| == n && forall r :: 0 <= r < n ==> files[r] == Bucket(kvs, hash, n, r)
  }

  method MapAll(inputs: seq<string>, n: nat, mapF: string -> seq<KeyValue>, hash: string -> nat)
    returns (mapped: seq<seq<seq<KeyValue>>>)
    requires n > 0
    ensures |mapped| == |inputs|
    ensures forall j :: 0 <= j < |inputs| ==> Mapped(mapped[j], mapF(inputs[j]), hash, n)
  {
    mapped := [];
    for i := 0 to |inputs|
      invariant |mapped| == i && forall j :: 0 <= j < i ==> Mapped(mapped[j], mapF(inputs[j]), hash, n)
    {
      var out := DoMap(mapF(inputs[i]), hash, n);
      mapped := mapped + [out];
    }
  }

  /** Reduce task `r` reads its file from every map task. */
  method ReduceTask(mapped: seq<seq<seq<KeyValue>>>, r: nat, n: nat, hash: string -> nat, sort: seq<KeyValue> -> seq<KeyValue>,
                    reduceF: (string, seq<string>) -> string, ghost emitted: seq<seq<KeyValue>>)
    returns (file: Option<seq<KeyValue>>)
    requires r < n && SortsPairs(sort) && |mapped| == |emitted|
    requires forall j :: 0 <= j < |emitted| ==> Mapped(mapped[j], emitted[j], hash, n)
    ensures TaskOutput(file, Bucket(Flatten(emitted), hash, n, r), sort, reduceF)
  {
    hide SortsPairs, Groups, Results, Route;
    assert forall j :: 0 <= j < |emitted| ==> |mapped[j]| == n && mapped[j][r] == Bucket(emitted[j], hash, n, r);
    hide Mapped;
    var mine := seq(|mapped|, i requires 0 <= i < |mapped| => mapped[i][r]);
    CollectedIsBucket(emitted, mine, hash, n, r);
    ghost var calls;
    file, calls := DoReduce(mine, sort, reduceF);
  }

  method ReduceAll(mapped: seq<seq<seq<KeyValue>>>, n: nat, hash: string -> nat, sort: seq<KeyValue> -> seq<KeyValue>,
                   reduceF: (string, seq<string>) -> string, ghost emitted: seq<seq<KeyValue>>)
    returns (files: seq<Option<seq<KeyValue>>>)
    requires n > 0 && SortsPairs(sort) && |mapped| == |emitted|
    requires forall j :: 0 <= j < |emitted| ==> Mapped(mapped[j], emitted[j], hash, n)
    ensures |files| == n && TaskOutputs(files, Flatten(emitted), hash, n, sort, reduceF)
  {
    hide SortsPairs, TaskOutput, Mapped, Route;
    files := [];
    for r := 0 to n
      invariant |files| == r && TaskOutputs(files, Flatten(emitted), hash, n, sort, reduceF)
    {
      var file := ReduceTask(mapped, r, n, hash, sort, reduceF, emitted);
      files := files + [file];
    }
  }

  ghost predicate HasEmptyBucket(all: seq<KeyValue>, hash: string -> nat, n: nat)
    requires n > 0
  {
    exists r :: 0 <= r < n && Bucket(all, hash, n, r) == []
  }

  lemma MissingFile(files: seq<Option<seq<KeyValue>>>, all: seq<KeyValue>, hash: string -> nat, n: nat,
                    sort: seq<KeyValue> -> seq<KeyValue>, reduceF: (string, seq<string>) -> string)
    requires n > 0 && |files| == n && TaskOutputs(files, all, hash, n, sort, reduceF)
    ensures (exists r :: 0 <= r < n && files[r].None?) <==> HasEmptyBucket(all, hash, n)
  {
    forall r | 0 <= r < n
      ensures files[r].None? <==> Bucket(all, hash, n, r) == []
    {
      assert TaskOutput(files[r], Bucket(all, hash, n, r), sort, reduceF);
    }
  }

  /** Some map task emits this key. */
  ghost predicate Emits(inputs: seq<string>, mapF: string -> seq<KeyValue>, key: string)
  {
    exists i, j :: EmitsAt(inputs, mapF, key, i, j)
  }

  ghost predicate EmitsAt(inputs: seq<string>, mapF: string -> seq<KeyValue>, key: string, i: int, j: int)
  {
    0 <= i < |inputs| && 0 <= j < |mapF(inputs[i])| && mapF(inputs[i])[j].key == key
  }

  /** What is emitted is what the map tasks emit, taken together. */
  lemma {:induction false} EmittedKeys(inputs: seq<string>, mapF: string -> seq<KeyValue>, key: string)
    ensures HasKey(Emitted(inputs, mapF), key) <==> Emits(inputs, mapF, key)
  {
    if inputs != [] {
      var k := |inputs| - 1;
      EmittedKeys(inputs[..k], mapF, key);
      var front, last := Emitted(inputs[..k], mapF), mapF(inputs[k]);
      assert MapOutputs(inputs, mapF)[..k] == MapOutputs(inputs[..k], mapF);
      assert Emitted(inputs, mapF) == front + last;
      EitherHas(front, last, key);
      if HasKey(last, key) {
        var j :| 0 <= j < |last| && last[j].key == key;
        assert EmitsAt(inputs, mapF, key, k, j);
      }
      if i, j :| EmitsAt(inputs[..k], mapF, key, i, j) {
        assert EmitsAt(inputs, mapF, key, i, j);
      }
      if i, j :| EmitsAt(inputs, mapF, key, i, j) {
        assert i < k ==> EmitsAt(inputs[..k], mapF, key, i, j);
        assert i == k ==> HasKey(last, key);
      }
    }
  }

  lemma EitherHas(a: seq<KeyValue>, b: seq<KeyValue>, key: string)
    ensures HasKey(a + b, key) <==> HasKey(a, key) || HasKey(b, key)
  {
    ValuesAppend(a, b, key);
    NoValues(a, key);
    NoValues(b, key);
    NoValues(a + b, key);
  }

  /** No key that is emitted belongs to task `r`. */
  ghost predicate Idle(inputs: seq<string>, mapF: string -> seq<KeyValue>, hash: string -> nat, n: nat, r: nat)
    requires n > 0
  {
    forall key :: Emits(inputs, mapF, key) ==> hash(key) % n != r
  }

  lemma EmptyBucketIff(inputs: seq<string>, mapF: string -> seq<KeyValue>, hash: string -> nat, n: nat, r: nat)
    requires n > 0
    ensures Bucket(Emitted(inputs, mapF), hash, n, r) == [] <==> Idle(inputs, mapF, hash, n, r)
  {
    var all := Emitted(inputs, mapF);
    var bucket := Bucket(all, hash, n, r);
    forall key: string
      ensures HasKey(bucket, key) <==> Emits(inputs, mapF, key) && hash(key) % n == r
    {
      EmittedKeys(inputs, mapF, key);
      BucketValues(all, hash, n, r, key);
      NoValues(bucket, key);
      NoValues(all, key);
    }
    if bucket != [] {
      assert HasKey(bucket, bucket[0].key);
    }
  }

  /** A job run one task after the other. It fails exactly if some bucket is empty, because that bucket's
      output file is missing when the outputs are merged. */
  method Sequential(inputs: seq<string>, n: nat, mapF: string -> seq<KeyValue>, hash: string -> nat,
                    sort: seq<KeyValue> -> seq<KeyValue>, reduceF: (string, seq<string>) -> string)
    returns (lines: Option<seq<KeyValue>>)
    requires n > 0 && SortsPairs(sort)
    ensures lines.None? <==> HasEmptyBucket(Emitted(inputs, mapF), hash, n)
    ensures lines.None? <==> exists r: nat :: r < n && Idle(inputs, mapF, hash, n, r)
    ensures lines.Some? ==> GroupsBy(lines.value, Emitted(inputs, mapF), reduceF)
    ensures lines.Some? ==> forall key :: HasKey(lines.value, key) <==> Emits(inputs, mapF, key)
  {
    hide SortsPairs, GroupsBy, Table, TaskOutputs, HasEmptyBucket;
    var mapped := MapAll(inputs, n, mapF, hash);
    var files := ReduceAll(mapped, n, hash, sort, reduceF, MapOutputs(inputs, mapF));
    ghost var all := Emitted(inputs, mapF);
    MissingFile(files, all, hash, n, sort, reduceF);
    FailsIff(inputs, mapF, hash, n);
    lines := Merge(files);
    if lines.Some? {
      JobComputes(files, lines.value, all, hash, n, sort, reduceF);
      LinesEmitted(lines.value, inputs, mapF, reduceF);
    }
  }

  lemma FailsIff(inputs: seq<string>, mapF: string -> seq<KeyValue>, hash: string -> nat, n: nat)
    requires n > 0
    ensures HasEmptyBucket(Emitted(inputs, mapF), hash, n) <==> exists r: nat :: r < n && Idle(inputs, mapF, hash, n, r)
  {
    hide Bucket, Idle;
    forall r: nat | r < n
      ensures Bucket(Emitted(inputs, mapF), hash, n, r) == [] <==> Idle(inputs, mapF, hash, n, r)
    {
      EmptyBucketIff(inputs, mapF, hash, n, r);
    }
  }

  lemma LinesEmitted(lines: seq<KeyValue>, inputs: seq<string>, mapF: string -> seq<KeyValue>,
                     reduceF: (string, seq<string>) -> string)
    requires GroupsBy(lines, Emitted(inputs, mapF), reduceF)
    ensures forall key :: HasKey(lines, key) <==> Emits(inputs, mapF, key)
  {
    forall key: string
      ensures HasKey(lines, key) <==> Emits(inputs, mapF, key)
    {
      EmittedKeys(inputs, mapF, key);
    }
  }

  // ---------------------------------------------------------------- the direct computation

  /** `reduceF` does not depend on the order of the values. */
  ghost predicate OrderInsensitive(reduceF: (string, seq<string>) -> string)
  {
    forall k, a, b :: multiset(a) == multiset(b) ==> reduceF(k, a) == reduceF(k, b)
  }

  function Keys(kvs: seq<KeyValue>): set<string>
  {
    set kv | kv in kvs :: kv.key
  }

  /** Group by key and reduce, without tasks, buckets or files. */
  function Direct(all: seq<KeyValue>, reduceF: (string, seq<string>) -> string): map<string, string>
  {
    map k | k in Keys(all) :: reduceF(k, ValuesOf(all, k))
  }

  lemma KeysHave(kvs: seq<KeyValue>, key: string)
    ensures key in Keys(kvs) <==> HasKey(kvs, key)
  {
    if HasKey(kvs, key) {
      var i :| 0 <= i < |kvs| && kvs[i].key == key;
      assert kvs[i] in kvs;
    }
  }

  /** For an order-insensitive reduction the output is the table of the direct group-by. */
  lemma JobIsDirect(lines: seq<KeyValue>, all: seq<KeyValue>, reduceF: (string, seq<string>) -> string)
    requires GroupsBy(lines, all, reduceF) && OrderInsensitive(reduceF)
    ensures Table(lines, Direct(all, reduceF))
  {
    forall i | 0 <= i < |lines|
      ensures lines[i].key in Direct(all, reduceF) && lines[i].value == Direct(all, reduceF)[lines[i].key]
    {
      assert HasKey(lines, lines[i].key);
      KeysHave(all, lines[i].key);
      assert ReducedFrom(all, reduceF, lines[i].key, lines[i].value);
    }
    forall k | k in Direct(all, reduceF)
      ensures HasKey(lines, k)
    {
      KeysHave(all, k);
    }
  }

  lemma {:induction false} TableUnique(a: seq<KeyValue>, b: seq<KeyValue>, m: map<string, string>)
    requires Table(a, m) && Table(b, m)
    ensures a == b
  {
    hide KeyLe;
    if a == [] || b == [] {
      assert b != [] ==> HasKey(a, b[0].key);
      assert a != [] ==> HasKey(b, a[0].key);
    } else {
      var x, y := a[|a| - 1], b[|b| - 1];
      LastIsLargest(a, m, y.key);
      LastIsLargest(b, m, x.key);
      KeyAntisymmetric(x.key, y.key);
      WithoutLast(a, m);
      WithoutLast(b, m);
      TableUnique(a[..|a| - 1], b[..|b| - 1], m - {x.key});
      assert a == a[..|a| - 1] + [x] && b == b[..|b| - 1] + [y];
    }
  }

  lemma LastIsLargest(a: seq<KeyValue>, m: map<string, string>, key: string)
    requires Table(a, m) && a != [] && key in m
    ensures KeyLe(key, a[|a| - 1].key)
  {
    var i :| 0 <= i < |a| && a[i].key == key;
    if i < |a| - 1 {
      assert KeyLess(a[i].key, a[|a| - 1].key);
    } else {
      KeyTotal(key, key);
    }
  }

  lemma DistinctLast(a: seq<KeyValue>)
    requires Increasing(a) && a != []
    ensures forall i :: 0 <= i < |a| - 1 ==> a[i].key != a[|a| - 1].key
  {
    hide KeyLe;
    assert forall i :: 0 <= i < |a| - 1 ==> KeyLess(a[i].key, a[|a| - 1].key);
  }

  lemma WithoutLast(a: seq<KeyValue>, m: map<string, string>)
    requires Table(a, m) && a != []
    ensures Table(a[..|a| - 1], m - {a[|a| - 1].key})
  {
    hide KeyLess;
    var front := a[..|a| - 1];
    assert forall i :: 0 <= i < |front| ==> front[i] == a[i] && front[i].key != a[|a| - 1].key by {
      DistinctLast(a);
    }
    forall k | k in m && k != a[|a| - 1].key
      ensures HasKey(front, k)
    {
      var i :| 0 <= i < |a| && a[i].key == k;
      assert front[i].key == k;
    }
  }

  /** Two runs of a job over the same inputs, with any numbers of buckets, hashes and sorts, agree. */
  lemma SameOutput(a: seq<KeyValue>, b: seq<KeyValue>, all: seq<KeyValue>, reduceF: (string, seq<string>) -> string)
    requires GroupsBy(a, all, reduceF) && GroupsBy(b, all, reduceF) && OrderInsensitive(reduceF)
    ensures a == b
  {
    JobIsDirect(a, all, reduceF);
    JobIsDirect(b, all, reduceF);
    TableUnique(a, b, Direct(all, reduceF));
  }
}
