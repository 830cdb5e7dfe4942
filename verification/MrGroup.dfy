/** Keys in order, the values of a key, and grouping a sorted list of pairs by key. */
module MrGroup {
  import opened Common

  datatype KeyValue = KeyValue(key: string, value: string)

  /** Lexicographic order. */
  predicate KeyLe(a: string, b: string)
  {
    a == "" || (b != "" && (a[0] < b[0] || (a[0] == b[0] && KeyLe(a[1..], b[1..]))))
  }

  predicate KeyLess(a: string, b: string)
  {
    KeyLe(a, b) && a != b
  }

  /** The first key is a prefix of the second, or smaller at the first place where they differ. */
  lemma {:induction false} KeyLeIs(a: string, b: string)
    ensures KeyLe(a, b) <==> a <= b || exists i :: DifferAt(a, b, i) && a[i] < b[i]
  {
    if a != "" && b != "" && a[0] == b[0] {
      KeyLeIs(a[1..], b[1..]);
      assert a[1..] <= b[1..] <==> a <= b;
      forall i | DifferAt(a, b, i)
        ensures DifferAt(a[1..], b[1..], i - 1)
      {
        assert a[1..][..i - 1] == a[..i][1..] && b[1..][..i - 1] == b[..i][1..];
      }
      forall i | DifferAt(a[1..], b[1..], i)
        ensures DifferAt(a, b, i + 1)
      {
        assert a[..i + 1] == [a[0]] + a[1..][..i] && b[..i + 1] == [b[0]] + b[1..][..i];
      }
      if i :| DifferAt(a[1..], b[1..], i) && a[1..][i] < b[1..][i] {
        assert DifferAt(a, b, i + 1) && a[i + 1] < b[i + 1];
      }
      if i :| DifferAt(a, b, i) && a[i] < b[i] {
        assert DifferAt(a[1..], b[1..], i - 1) && a[1..][i - 1] < b[1..][i - 1];
      }
    } else if a != "" && b != "" {
      assert DifferAt(a, b, 0);
      forall i | 0 < i <= |a| && i <= |b|
        ensures a[..i] != b[..i]
      {
        assert a[..i][0] != b[..i][0];
      }
    }
  }

  ghost predicate DifferAt(a: string, b: string, i: int)
  {
    0 <= i < |a| && i < |b| && a[..i] == b[..i] && a[i] != b[i]
  }

  lemma {:induction false} KeyTotal(a: string, b: string)
    ensures KeyLe(a, b) || KeyLe(b, a)
  {
    if a != "" && b != "" {
      KeyTotal(a[1..], b[1..]);
    }
  }

  lemma {:induction false} KeyAntisymmetric(a: string, b: string)
    requires KeyLe(a, b) && KeyLe(b, a)
    ensures a == b
  {
    if a != "" && b != "" {
      KeyAntisymmetric(a[1..], b[1..]);
      assert a == [a[0]] + a[1..] && b == [b[0]] + b[1..];
    }
  }

  lemma {:induction false} KeyTransitive(a: string, b: string, c: string)
    requires KeyLe(a, b) && KeyLe(b, c)
    ensures KeyLe(a, c)
  {
    if a != "" && a[0] == b[0] == c[0] {
      KeyTransitive(a[1..], b[1..], c[1..]);
    }
  }

  lemma KeyLessTransitive(a: string, b: string, c: string)
    requires KeyLe(a, b) && KeyLess(b, c)
    ensures KeyLess(a, c)
  {
    KeyTransitive(a, b, c);
    if a == c {
      KeyAntisymmetric(b, c);
    }
  }

  ghost predicate SortedPairs(kvs: seq<KeyValue>)
  {
    forall i, j :: 0 <= i < j < |kvs| ==> KeyLe(kvs[i].key, kvs[j].key)
  }

  /** Each key once, in increasing order. */
  ghost predicate Increasing(kvs: seq<KeyValue>)
  {
    forall i, j :: 0 <= i < j < |kvs| ==> KeyLess(kvs[i].key, kvs[j].key)
  }

  // ---------------------------------------------------------------- the values of a key

  function ValuesOf(kvs: seq<KeyValue>, key: string): seq<string>
  {
    if kvs == [] then []
    else
      var last := kvs[|kvs| - 1];
      ValuesOf(kvs[..|kvs| - 1], key) + if last.key == key then [last.value] else []
  }

  ghost predicate HasKey(kvs: seq<KeyValue>, key: string)
  {
    exists i :: 0 <= i < |kvs| && kvs[i].key == key
  }

  /** The values are those of the key's pairs, as often and in the order they occur. */
  lemma {:induction false} ValuesAre(kvs: seq<KeyValue>, key: string) returns (part: seq<KeyValue>)
    ensures Picks(part, kvs, (kv: KeyValue) => kv.key == key)
    ensures |ValuesOf(kvs, key)| == |part| && forall i :: 0 <= i < |part| ==> ValuesOf(kvs, key)[i] == part[i].value
  {
    hide Picks;
    var keep := (kv: KeyValue) => kv.key == key;
    if kvs == [] {
      part := [];
      PicksNone(keep);
    } else {
      var front, last := kvs[..|kvs| - 1], kvs[|kvs| - 1];
      var rest := ValuesAre(front, key);
      PicksNext(rest, front, last, keep);
      assert front + [last] == kvs;
      part := rest + if last.key == key then [last] else [];
    }
  }

  lemma ValuesStep(kvs: seq<KeyValue>, kv: KeyValue, key: string)
    ensures ValuesOf(kvs + [kv], key) == ValuesOf(kvs, key) + if kv.key == key then [kv.value] else []
  {
    assert (kvs + [kv])[..|kvs|] == kvs;
  }

  lemma {:induction false} ValuesAppend(a: seq<KeyValue>, b: seq<KeyValue>, key: string)
    ensures ValuesOf(a + b, key) == ValuesOf(a, key) + ValuesOf(b, key)
  {
    if b == [] {
      assert a + b == a;
    } else {
      ValuesAppend(a, b[..|b| - 1], key);
      assert a + b == (a + b[..|b| - 1]) + [b[|b| - 1]];
      ValuesStep(a + b[..|b| - 1], b[|b| - 1], key);
    }
  }

  lemma {:induction false} NoValues(kvs: seq<KeyValue>, key: string)
    ensures ValuesOf(kvs, key) == [] <==> !HasKey(kvs, key)
  {
    if kvs != [] {
      var front := kvs[..|kvs| - 1];
      NoValues(front, key);
      if HasKey(front, key) {
        var i :| 0 <= i < |front| && front[i].key == key;
        assert kvs[i].key == key;
      }
      if HasKey(kvs, key) && kvs[|kvs| - 1].key != key {
        var i :| 0 <= i < |kvs| && kvs[i].key == key;
        assert front[i].key == key;
      }
    }
  }

  /** The values of a key are counted by its pairs. */
  lemma {:induction false} ValueCount(kvs: seq<KeyValue>, key: string, value: string)
    ensures multiset(ValuesOf(kvs, key))[value] == multiset(kvs)[KeyValue(key, value)]
  {
    if kvs != [] {
      var front, last := kvs[..|kvs| - 1], kvs[|kvs| - 1];
      ValueCount(front, key, value);
      assert kvs == front + [last];
      assert multiset(kvs) == multiset(front) + multiset{last};
    }
  }

  /** Reordering the pairs only reorders the values of each key. */
  lemma PermutedValues(a: seq<KeyValue>, b: seq<KeyValue>, key: string)
    requires multiset(a) == multiset(b)
    ensures multiset(ValuesOf(a, key)) == multiset(ValuesOf(b, key))
  {
    forall v: string
      ensures multiset(ValuesOf(a, key))[v] == multiset(ValuesOf(b, key))[v]
    {
      ValueCount(a, key, v);
      ValueCount(b, key, v);
    }
  }

  // ---------------------------------------------------------------- grouping

  datatype Call = Call(key: string, values: seq<string>)

  /** `calls` holds each key of the pairs once, in increasing order, with all its values. */
  ghost predicate Groups(calls: seq<Call>, kvs: seq<KeyValue>)
  {
    (forall i, j :: 0 <= i < j < |calls| ==> KeyLess(calls[i].key, calls[j].key)) &&
    (forall i :: 0 <= i < |calls| ==> calls[i].values == ValuesOf(kvs, calls[i].key) && HasKey(kvs, calls[i].key)) &&
    forall i :: 0 <= i < |kvs| ==> Called(calls, kvs[i].key)
  }

  function Results(calls: seq<Call>, reduceF: (string, seq<string>) -> string): seq<KeyValue>
  {
    seq(|calls|, i requires 0 <= i < |calls| => KeyValue(calls[i].key, reduceF(calls[i].key, calls[i].values)))
  }

  ghost predicate Called(calls: seq<Call>, key: string)
  {
    exists i :: 0 <= i < |calls| && calls[i].key == key
  }

  /** Another pair of the last key goes into the last group. */
  lemma GroupSame(calls: seq<Call>, values: seq<string>, done: seq<KeyValue>, kv: KeyValue)
    requires Groups(calls + [Call(kv.key, values)], done)
    ensures Groups(calls + [Call(kv.key, values + [kv.value])], done + [kv])
  {
    hide ValuesOf, KeyLe;
    var old' := calls + [Call(kv.key, values)];
    var calls' := calls + [Call(kv.key, values + [kv.value])];
    var done' := done + [kv];
    forall i | 0 <= i < |calls'|
      ensures calls'[i].key == old'[i].key && calls'[i].values == ValuesOf(done', calls'[i].key) && HasKey(done', calls'[i].key)
    {
      ValuesStep(done, kv, old'[i].key);
      assert old'[|calls|].key == kv.key;
      KeyStays(done, kv, old'[i].key);
    }
    forall i | 0 <= i < |done'|
      ensures Called(calls', done'[i].key)
    {
      assert calls'[|calls|].key == kv.key;
      if i < |done| {
        assert Called(old', done[i].key);
        var j :| 0 <= j < |old'| && old'[j].key == done[i].key;
        assert calls'[j].key == done[i].key;
      }
    }
  }

  /** A pair with a larger key opens a new group. */
  lemma GroupNext(calls: seq<Call>, done: seq<KeyValue>, kv: KeyValue)
    requires Groups(calls, done) && forall i :: 0 <= i < |calls| ==> KeyLess(calls[i].key, kv.key)
    ensures Groups(calls + [Call(kv.key, [kv.value])], done + [kv])
  {
    hide ValuesOf, KeyLe;
    var calls' := calls + [Call(kv.key, [kv.value])];
    var done' := done + [kv];
    ValuesStep(done, kv, kv.key);
    NoValues(done, kv.key);
    forall i | 0 <= i < |done|
      ensures done[i].key != kv.key
    {
      assert Called(calls, done[i].key);
    }
    assert done'[|done|].key == kv.key;
    forall i | 0 <= i < |calls|
      ensures calls[i].values == ValuesOf(done', calls[i].key) && HasKey(done', calls[i].key)
    {
      ValuesStep(done, kv, calls[i].key);
      KeyStays(done, kv, calls[i].key);
    }
    forall i | 0 <= i < |done'|
      ensures Called(calls', done'[i].key)
    {
      if i < |done| {
        assert Called(calls, done[i].key);
        var j :| 0 <= j < |calls| && calls[j].key == done[i].key;
        assert calls'[j].key == done[i].key;
      } else {
        assert calls'[|calls|].key == kv.key;
      }
    }
  }

  lemma KeyStays(done: seq<KeyValue>, kv: KeyValue, key: string)
    requires HasKey(done, key) || kv.key == key
    ensures HasKey(done + [kv], key)
  {
    assert (done + [kv])[|done|] == kv;
    if HasKey(done, key) {
      var i :| 0 <= i < |done| && done[i].key == key;
      assert (done + [kv])[i].key == key;
    }
  }

  lemma ResultsStep(calls: seq<Call>, c: Call, reduceF: (string, seq<string>) -> string)
    ensures Results(calls + [c], reduceF) == Results(calls, reduceF) + [KeyValue(c.key, reduceF(c.key, c.values))]
  {
  }

  lemma {:induction false} ResultsHold(calls: seq<Call>, reduceF: (string, seq<string>) -> string, key: string, m: nat)
    requires m <= |calls| && forall i, j :: 0 <= i < j < |calls| ==> KeyLess(calls[i].key, calls[j].key)
    ensures var vs := ValuesOf(Results(calls[..m], reduceF), key);
            (!Called(calls[..m], key) ==> vs == []) &&
            forall i :: 0 <= i < m && calls[i].key == key ==> vs == [reduceF(key, calls[i].values)]
  {
    hide KeyLe;
    if m > 0 {
      ResultsHold(calls, reduceF, key, m - 1);
      assert calls[..m] == calls[..m - 1] + [calls[m - 1]];
      ResultsStep(calls[..m - 1], calls[m - 1], reduceF);
      ValuesStep(Results(calls[..m - 1], reduceF), Results(calls[..m], reduceF)[m - 1], key);
      if Called(calls[..m - 1], key) {
        var i :| 0 <= i < m - 1 && calls[..m - 1][i].key == key;
        assert calls[..m][i].key == key;
      } else {
        assert forall i :: 0 <= i < m - 1 ==> calls[i].key == calls[..m - 1][i].key;
        assert calls[..m][m - 1] == calls[m - 1];
      }
    }
  }

  /** The results hold each key once, reduced from all its values. */
  lemma ReducedValues(calls: seq<Call>, kvs: seq<KeyValue>, reduceF: (string, seq<string>) -> string, key: string)
    requires Groups(calls, kvs)
    ensures ValuesOf(Results(calls, reduceF), key) == if HasKey(kvs, key) then [reduceF(key, ValuesOf(kvs, key))] else []
  {
    ResultsHold(calls, reduceF, key, |calls|);
    assert calls[..|calls|] == calls;
    if HasKey(kvs, key) {
      var i :| 0 <= i < |kvs| && kvs[i].key == key;
      assert Called(calls, kvs[i].key);
    }
  }

  lemma ResultsIncrease(calls: seq<Call>, kvs: seq<KeyValue>, reduceF: (string, seq<string>) -> string)
    requires Groups(calls, kvs)
    ensures Increasing(Results(calls, reduceF))
  {
    hide KeyLess;
  }

  /** One pass over the sorted pairs: `reduceF` is called for each run of equal keys. */
  method ReduceSorted(kvs: seq<KeyValue>, reduceF: (string, seq<string>) -> string)
    returns (out: seq<KeyValue>, ghost calls: seq<Call>)
    requires kvs != [] && SortedPairs(kvs)
    ensures Groups(calls, kvs) && out == Results(calls, reduceF)
    ensures Increasing(out)
    ensures forall key :: ValuesOf(out, key) == if HasKey(kvs, key) then [reduceF(key, ValuesOf(kvs, key))] else []
  {
    hide Groups, Results, KeyLe, ValuesOf, HasKey, Increasing;
    out, calls := [], [];
    var values: seq<string> := [];
    var curKey := kvs[0].key;
    FirstGroup(kvs[0], reduceF);
    assert kvs[..1] == [kvs[0]];
    for i := 0 to |kvs|
      invariant i == 0 ==> calls == [] && values == [] && curKey == kvs[0].key
      invariant i > 0 ==> Groups(calls + [Call(curKey, values)], kvs[..i]) && curKey == kvs[i - 1].key
      invariant out == Results(calls, reduceF)
    {
      var kv := kvs[i];
      assert kvs[..i + 1] == kvs[..i] + [kv];
      if curKey == kv.key {
        if i > 0 {
          GroupSame(calls, values, kvs[..i], kv);
        }
        values := values + [kv.value];
        assert i == 0 ==> values == [kv.value] && calls + [Call(curKey, values)] == [Call(kv.key, [kv.value])];
      } else {
        LargerThanAll(calls, Call(curKey, values), kvs[..i], kv);
        GroupNext(calls + [Call(curKey, values)], kvs[..i], kv);
        ResultsStep(calls, Call(curKey, values), reduceF);
        out := out + [KeyValue(curKey, reduceF(curKey, values))];
        calls := calls + [Call(curKey, values)];
        curKey := kv.key;
        values := [kv.value];
      }
    }
    assert kvs[..|kvs|] == kvs;
    ResultsStep(calls, Call(curKey, values), reduceF);
    out := out + [KeyValue(curKey, reduceF(curKey, values))];
    calls := calls + [Call(curKey, values)];
    ResultsIncrease(calls, kvs, reduceF);
    forall key: string
      ensures ValuesOf(out, key) == if HasKey(kvs, key) then [reduceF(key, ValuesOf(kvs, key))] else []
    {
      ReducedValues(calls, kvs, reduceF, key);
    }
  }

  lemma FirstGroup(kv: KeyValue, reduceF: (string, seq<string>) -> string)
    ensures Groups([Call(kv.key, [kv.value])], [kv]) && Results([], reduceF) == []
  {
    GroupNext([], [], kv);
    assert [] + [kv] == [kv];
    assert [] + [Call(kv.key, [kv.value])] == [Call(kv.key, [kv.value])];
  }

  lemma LargerThanAll(calls: seq<Call>, last: Call, done: seq<KeyValue>, kv: KeyValue)
    requires Groups(calls + [last], done) && KeyLess(last.key, kv.key)
    ensures forall i :: 0 <= i < |calls + [last]| ==> KeyLess((calls + [last])[i].key, kv.key)
  {
    var all := calls + [last];
    forall i | 0 <= i < |all|
      ensures KeyLess(all[i].key, kv.key)
    {
      if i < |calls| {
        assert KeyLess(all[i].key, all[|calls|].key);
        KeyLessTransitive(all[i].key, last.key, kv.key);
      }
    }
  }
}
