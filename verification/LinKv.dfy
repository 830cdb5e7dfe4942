/** The key/value model, the locality of linearizability across keys, and the whole check. */
module LinKv {
  import opened Common
  import opened FiniteSets
  import opened LinSpec
  import opened LinNodes
  import opened LinSearch
  import opened LinHistory
  import opened LinChecker

  const GET: nat := 0
  const PUT: nat := 1

  /** Inputs and outputs of key/value operations; op codes other than 0 and 1 append. */
  datatype KvValue = KvInput(op: nat, key: string, value: string) | KvOutput(value: string)

  type KvOp = Operation<KvValue>

  /** Inputs are key/value inputs and outputs are key/value outputs. */
  ghost predicate Typed(history: seq<KvOp>)
  {
    forall i :: 0 <= i < |history| ==> history[i].input.KvInput? && history[i].output.KvOutput?
  }

  function KvStep(st: string, input: KvValue, output: KvValue): (bool, string)
  {
    if !input.KvInput? || !output.KvOutput? then (false, st)
    else if input.op == GET then (output.value == st, st)
    else if input.op == PUT then (true, input.value)
    else (true, st + input.value)
  }

  /** The model of a single key, as the checker runs it on one partition. */
  const KV: Model<string, KvValue> := Model("", KvStep)

  type Store = map<string, string>

  function Lookup(store: Store, key: string): string
  {
    if key in store then store[key] else ""
  }

  /** The service itself: one store for all keys, missing keys reading as empty. */
  function StoreStep(store: Store, input: KvValue, output: KvValue): (bool, Store)
  {
    if !input.KvInput? then (false, store)
    else
      var (ok, st) := KvStep(Lookup(store, input.key), input, output);
      (ok, store[input.key := st])
  }

  const STORE: Model<Store, KvValue> := Model(map[], StoreStep)

  // ---------------------------------------------------------------- what a store answers

  ghost predicate PutTo(op: KvOp, key: string)
  {
    op.input.KvInput? && op.input.key == key && op.input.op == 1
  }

  ghost predicate AppendTo(op: KvOp, key: string)
  {
    op.input.KvInput? && op.input.key == key && op.input.op > 1
  }

  /** The last put to the key among the first `i` operations, or -1. */
  ghost function LastPut(order: seq<KvOp>, key: string, i: nat): (p: int)
    requires i <= |order|
    ensures -1 <= p < i && (p >= 0 ==> PutTo(order[p], key)) && forall j :: p < j < i ==> !PutTo(order[j], key)
  {
    if i == 0 then -1 else if PutTo(order[i - 1], key) then i - 1 else LastPut(order, key, i - 1)
  }

  /** The values of the appends to the key from `from` up to `i`, one after the other. */
  ghost function Appends(order: seq<KvOp>, key: string, from: int, i: int): string
    requires 0 <= from && i <= |order|
    decreases i - from
  {
    if from >= i then "" else Appends(order, key, from, i - 1) + if AppendTo(order[i - 1], key) then order[i - 1].input.value else ""
  }

  /** What the key holds before operation `i`: the value last put, and what was appended since. */
  ghost function ValueAt(order: seq<KvOp>, key: string, i: nat): string
    requires i <= |order|
  {
    var p := LastPut(order, key, i);
    (if p < 0 then "" else order[p].input.value) + Appends(order, key, p + 1, i)
  }

  ghost predicate AnsweredAt(order: seq<KvOp>, i: nat)
    requires i < |order|
  {
    order[i].input.KvInput? && order[i].output.KvOutput? &&
    (order[i].input.op == 0 ==> order[i].output.value == ValueAt(order, order[i].input.key, i))
  }

  /** Every get has the answer it should have; puts and appends may answer anything. */
  ghost predicate Answered(order: seq<KvOp>)
  {
    forall i: nat :: i < |order| ==> AnsweredAt(order, i)
  }

  /** The store after the first `i` operations. */
  ghost function StoreAfter(order: seq<KvOp>, i: nat): Store
    requires i <= |order|
  {
    if i == 0 then map[] else StoreStep(StoreAfter(order, i - 1), order[i - 1].input, order[i - 1].output).1
  }

  lemma ValueNext(order: seq<KvOp>, key: string, i: nat)
    requires i < |order|
    ensures ValueAt(order, key, i + 1) ==
            if PutTo(order[i], key) then order[i].input.value
            else ValueAt(order, key, i) + if AppendTo(order[i], key) then order[i].input.value else ""
  {
  }

  /** What one operation does to a key. */
  lemma LookupNext(store: Store, op: KvOp, key: string)
    requires op.input.KvInput? && op.output.KvOutput?
    ensures Lookup(StoreStep(store, op.input, op.output).1, key) ==
            if PutTo(op, key) then op.input.value else Lookup(store, key) + if AppendTo(op, key) then op.input.value else ""
  {
  }

  lemma {:induction false} StoreHolds(order: seq<KvOp>, i: nat, key: string)
    requires i <= |order| && forall j :: 0 <= j < i ==> order[j].input.KvInput? && order[j].output.KvOutput?
    ensures Lookup(StoreAfter(order, i), key) == ValueAt(order, key, i)
  {
    hide ValueAt, StoreStep, PutTo, AppendTo;
    if i > 0 {
      StoreHolds(order, i - 1, key);
      ValueNext(order, key, i - 1);
      LookupNext(StoreAfter(order, i - 1), order[i - 1], key);
    } else {
      NothingPut(order, key);
    }
  }

  lemma NothingPut(order: seq<KvOp>, key: string)
    ensures ValueAt(order, key, 0) == ""
  {
  }

  lemma OneAnswer(order: seq<KvOp>, i: nat)
    requires i < |order| && forall j :: 0 <= j < i ==> order[j].input.KvInput? && order[j].output.KvOutput?
    ensures StoreStep(StoreAfter(order, i), order[i].input, order[i].output).0 <==> AnsweredAt(order, i)
    ensures AnsweredAt(order, i) ==> order[i].input.KvInput? && order[i].output.KvOutput?
  {
    hide ValueAt, StoreAfter;
    if order[i].input.KvInput? {
      StoreHolds(order, i, order[i].input.key);
    }
  }

  lemma {:induction false} LegalFrom(order: seq<KvOp>, i: nat)
    requires i <= |order| && forall j :: 0 <= j < i ==> order[j].input.KvInput? && order[j].output.KvOutput?
    ensures Legal(STORE, StoreAfter(order, i), order[i..]) <==> forall j: nat :: i <= j < |order| ==> AnsweredAt(order, j)
    decreases |order| - i
  {
    hide StoreStep, AnsweredAt;
    if i < |order| {
      assert order[i..][0] == order[i] && order[i..][1..] == order[i + 1..];
      OneAnswer(order, i);
      if AnsweredAt(order, i) {
        LegalFrom(order, i + 1);
      }
    }
  }

  /** An order is legal for the store exactly if every get answers what its key then holds. */
  lemma LegalMeans(order: seq<KvOp>)
    ensures Legal(STORE, map[], order) <==> Answered(order)
  {
    hide AnsweredAt;
    LegalFrom(order, 0);
    assert order[0..] == order;
  }

  /** Some order of the operations respects real time and explains all answers. */
  ghost predicate Explains(order: seq<KvOp>, pool: set<KvOp>)
  {
    Distinct(order) && Elements(order) == pool && RespectsRealTime(order) && Answered(order)
  }

  lemma StoreVerdict(history: seq<KvOp>)
    ensures Linearizable(STORE, history) <==> exists order :: Explains(order, Elements(history))
  {
    hide Answered, Legal;
    forall order: seq<KvOp>
      ensures Linearizes(STORE, STORE.init, order, Elements(history)) <==> Explains(order, Elements(history))
    {
      LegalMeans(order);
    }
  }

  // ---------------------------------------------------------------- locality

  ghost predicate Proper(pool: set<KvOp>)
  {
    forall op :: op in pool ==> op.input.KvInput? && op.output.KvOutput? && op.call < op.ret
  }

  ghost function OfKey(pool: set<KvOp>, key: string): set<KvOp>
    requires Proper(pool)
  {
    set op | op in pool && op.input.key == key
  }

  ghost predicate KeyLinearizable(store: Store, pool: set<KvOp>, key: string)
    requires Proper(pool)
  {
    exists order :: Linearizes(KV, Lookup(store, key), order, OfKey(pool, key))
  }

  ghost predicate PoolLinearizable(store: Store, pool: set<KvOp>)
  {
    exists order :: Linearizes(STORE, store, order, pool)
  }

  /** The first operation of an order leaves the order of the others. */
  lemma DropFirst<S, V>(m: Model<S, V>, s: S, order: seq<Operation<V>>, pool: set<Operation<V>>)
    requires Linearizes(m, s, order, pool) && order != []
    ensures order[0] in pool && m.step(s, order[0].input, order[0].output).0
    ensures Linearizes(m, m.step(s, order[0].input, order[0].output).1, order[1..], pool - {order[0]})
    ensures forall x :: x in pool && x != order[0] ==> !(x.ret < order[0].call)
  {
    var tail := order[1..];
    assert order[0] in Elements(order);
    assert forall x :: x in order <==> x == order[0] || x in tail;
    assert order[0] !in tail;
    forall x | x in pool && x != order[0]
      ensures !(x.ret < order[0].call)
    {
      assert x in Elements(order);
    }
  }

  lemma AddFirst<S, V>(m: Model<S, V>, s: S, y: Operation<V>, tail: seq<Operation<V>>, pool: set<Operation<V>>)
    requires y in pool && m.step(s, y.input, y.output).0
    requires Linearizes(m, m.step(s, y.input, y.output).1, tail, pool - {y})
    requires forall x :: x in pool && x != y ==> !(x.ret < y.call)
    ensures Linearizes(m, s, [y] + tail, pool)
  {
    var order := [y] + tail;
    assert order[1..] == tail;
    assert Elements(order) == {y} + Elements(tail);
    forall j | 0 <= j < |tail|
      ensures tail[j] != y && !(tail[j].ret < y.call)
    {
      assert tail[j] in Elements(tail);
    }
  }

  /** A global order, restricted to one key, is an order of that key. */
  lemma {:induction false} Restrict(store: Store, pool: set<KvOp>, order: seq<KvOp>, key: string)
    requires Proper(pool) && Linearizes(STORE, store, order, pool)
    ensures KeyLinearizable(store, pool, key)
    decreases |order|
  {
    if order == [] {
      assert OfKey(pool, key) == {};
      assert Linearizes(KV, Lookup(store, key), [], OfKey(pool, key));
    } else {
      var y := order[0];
      DropFirst(STORE, store, order, pool);
      var store' := StoreStep(store, y.input, y.output).1;
      Restrict(store', pool - {y}, order[1..], key);
      var tail: seq<KvOp> :| Linearizes(KV, Lookup(store', key), tail, OfKey(pool - {y}, key));
      if y.input.key == key {
        assert OfKey(pool - {y}, key) == OfKey(pool, key) - {y};
        AddFirst(KV, Lookup(store, key), y, tail, OfKey(pool, key));
      } else {
        assert OfKey(pool - {y}, key) == OfKey(pool, key);
        assert Linearizes(KV, Lookup(store, key), tail, OfKey(pool, key));
      }
    }
  }

  lemma {:induction false} EarliestReturn(pool: set<KvOp>) returns (x: KvOp)
    requires pool != {}
    ensures x in pool && forall z :: z in pool ==> x.ret <= z.ret
  {
    x :| x in pool;
    if pool != {x} {
      var y := EarliestReturn(pool - {x});
      if y.ret < x.ret { x := y; }
    }
  }

  /** After the head of its key's order is executed, every key still has an order. */
  lemma ExecuteHead(store: Store, pool: set<KvOp>, order: seq<KvOp>, k: string, key: string)
    requires Proper(pool) && order != [] && Linearizes(KV, Lookup(store, k), order, OfKey(pool, k))
    requires KeyLinearizable(store, pool, key)
    ensures Proper(pool - {order[0]})
    ensures KeyLinearizable(StoreStep(store, order[0].input, order[0].output).1, pool - {order[0]}, key)
  {
    var y := order[0];
    var store' := StoreStep(store, y.input, y.output).1;
    DropFirst(KV, Lookup(store, k), order, OfKey(pool, k));
    if key == k {
      assert OfKey(pool - {y}, k) == OfKey(pool, k) - {y};
      assert Linearizes(KV, Lookup(store', k), order[1..], OfKey(pool - {y}, k));
    } else {
      assert OfKey(pool - {y}, key) == OfKey(pool, key);
      assert Lookup(store', key) == Lookup(store, key);
    }
  }

  /** Orders of all keys merge into one: execute the head of the key that holds the earliest return. */
  lemma {:induction false} Merge(store: Store, pool: set<KvOp>)
    requires Proper(pool) && forall key :: KeyLinearizable(store, pool, key)
    ensures PoolLinearizable(store, pool)
    decreases pool
  {
    if pool == {} {
      assert Linearizes(STORE, store, [], pool);
    } else {
      var x := EarliestReturn(pool);
      var k := x.input.key;
      assert KeyLinearizable(store, pool, k);
      var order: seq<KvOp> :| Linearizes(KV, Lookup(store, k), order, OfKey(pool, k));
      assert x in Elements(order);
      var y := order[0];
      DropFirst(KV, Lookup(store, k), order, OfKey(pool, k));
      assert y.call <= x.ret;
      var store' := StoreStep(store, y.input, y.output).1;
      forall key
        ensures KeyLinearizable(store', pool - {y}, key)
      {
        ExecuteHead(store, pool, order, k, key);
      }
      Merge(store', pool - {y});
      var tail: seq<KvOp> :| Linearizes(STORE, store', tail, pool - {y});
      AddFirst(STORE, store, y, tail, pool);
    }
  }

  /** Locality: the operations are linearizable against the store exactly when every key's
      operations are linearizable against its value. */
  lemma Locality(store: Store, pool: set<KvOp>)
    requires Proper(pool)
    ensures PoolLinearizable(store, pool) <==> forall key :: KeyLinearizable(store, pool, key)
  {
    if PoolLinearizable(store, pool) {
      var order: seq<KvOp> :| Linearizes(STORE, store, order, pool);
      forall key
        ensures KeyLinearizable(store, pool, key)
      {
        Restrict(store, pool, order, key);
      }
    }
    if forall key :: KeyLinearizable(store, pool, key) {
      Merge(store, pool);
    }
  }

  // ---------------------------------------------------------------- partition

  /** The operations of one key, in history order. */
  ghost function SubHistory(history: seq<KvOp>, key: string): seq<KvOp>
    requires Typed(history)
  {
    if history == [] then []
    else
      var n := |history| - 1;
      if history[n].input.key == key then SubHistory(history[..n], key) + [history[n]] else SubHistory(history[..n], key)
  }

  ghost function KeysOf(history: seq<KvOp>): set<string>
    requires Typed(history)
  {
    set op | op in history :: op.input.key
  }

  lemma {:induction false} SubHistoryMembers(history: seq<KvOp>, key: string)
    requires Typed(history)
    ensures forall op :: op in SubHistory(history, key) <==> op in history && op.input.key == key
  {
    if history != [] {
      var n := |history| - 1;
      SubHistoryMembers(history[..n], key);
      assert history == history[..n] + [history[n]];
    }
  }

  lemma TimesAppend(history: seq<KvOp>, n: nat, sub: seq<KvOp>)
    requires n < |history| && DistinctTimes(history) && DistinctTimes(sub)
    requires forall i :: 0 <= i < |sub| ==> exists j :: 0 <= j < n && sub[i] == history[j]
    ensures DistinctTimes(sub + [history[n]])
  {
  }

  lemma {:induction false} SubHistoryTimes(history: seq<KvOp>, key: string)
    requires Typed(history) && DistinctTimes(history)
    ensures DistinctTimes(SubHistory(history, key))
  {
    if history != [] {
      var n := |history| - 1;
      var sub := SubHistory(history[..n], key);
      assert DistinctTimes(history[..n]);
      hide DistinctTimes;
      SubHistoryTimes(history[..n], key);
      SubHistoryMembers(history[..n], key);
      forall i | 0 <= i < |sub|
        ensures exists j :: 0 <= j < n && sub[i] == history[j]
      {
        assert sub[i] in history[..n];
      }
      TimesAppend(history, n, sub);
    } else {
      assert SubHistory(history, key) == [];
    }
  }

  lemma SubHistoryFacts(history: seq<KvOp>, key: string)
    requires Typed(history) && DistinctTimes(history)
    ensures Proper(Elements(history))
    ensures Elements(SubHistory(history, key)) == OfKey(Elements(history), key)
    ensures DistinctTimes(SubHistory(history, key))
  {
    hide SubHistory;
    SubHistoryMembers(history, key);
    SubHistoryTimes(history, key);
  }

  /** A sub-history lists the operations of its key as often and in the order they occur. */
  lemma {:induction false} SubHistoryPicks(history: seq<KvOp>, key: string)
    requires Typed(history)
    ensures Picks(SubHistory(history, key), history, (op: KvOp) => op.input.KvInput? && op.input.key == key)
  {
    hide Picks;
    var keep := (op: KvOp) => op.input.KvInput? && op.input.key == key;
    if history == [] {
      PicksNone(keep);
    } else {
      var n := |history| - 1;
      SubHistoryPicks(history[..n], key);
      PicksNext(SubHistory(history[..n], key), history[..n], history[n], keep);
      assert history[..n] + [history[n]] == history;
      assert SubHistory(history[..n], key) + [] == SubHistory(history[..n], key);
    }
  }

  /** The map holds the sub-history of every key that occurs. */
  ghost predicate Grouped(history: seq<KvOp>, m: map<string, seq<KvOp>>)
  {
    Typed(history) && m.Keys == KeysOf(history) && (forall key :: key in m ==> m[key] == SubHistory(history, key)) &&
    (forall key :: key !in m ==> SubHistory(history, key) == [])
  }

  lemma NothingYet(history: seq<KvOp>)
    requires history == []
    ensures Grouped(history, map[])
  {
  }

  lemma SubHistoryNext(history: seq<KvOp>, n: nat, key: string)
    requires Typed(history) && n < |history|
    ensures SubHistory(history[..n + 1], key) ==
            SubHistory(history[..n], key) + if history[n].input.key == key then [history[n]] else []
  {
    assert history[..n + 1][..n] == history[..n];
  }

  lemma GroupedNext(history: seq<KvOp>, n: nat, m: map<string, seq<KvOp>>)
    requires Typed(history) && n < |history| && Grouped(history[..n], m)
    ensures var key := history[n].input.key;
            Grouped(history[..n + 1], m[key := (if key in m then m[key] else []) + [history[n]]])
  {
    hide SubHistory;
    assert history[..n + 1] == history[..n] + [history[n]];
    forall key
      ensures SubHistory(history[..n + 1], key) ==
              SubHistory(history[..n], key) + if history[n].input.key == key then [history[n]] else []
    {
      SubHistoryNext(history, n, key);
    }
    assert KeysOf(history[..n + 1]) == KeysOf(history[..n]) + {history[n].input.key} by {
      assert forall op :: op in history[..n + 1] <==> op in history[..n] || op == history[n];
    }
  }

  method GroupByKey(history: seq<KvOp>) returns (m: map<string, seq<KvOp>>)
    requires Typed(history)
    ensures Grouped(history, m)
  {
    hide SubHistory;
    m := map[];
    NothingYet(history[..0]);
    for n := 0 to |history|
      invariant Grouped(history[..n], m)
    {
      var key := history[n].input.key;
      GroupedNext(history, n, m);
      m := m[key := (if key in m then m[key] else []) + [history[n]]];
    }
    assert history[..|history|] == history;
  }

  lemma NoElements<T>()
    ensures Elements<T>([]) == {}
  {
  }

  lemma OneMore<T>(s: seq<T>, x: T)
    ensures Elements(s + [x]) == Elements(s) + {x}
  {
  }

  /** The values of a map, in an unspecified order, each key once. */
  method Values(m: map<string, seq<KvOp>>) returns (parts: seq<seq<KvOp>>, ghost keys: seq<string>)
    ensures Elements(keys) == m.Keys && |parts| == |keys| == |m.Keys|
    ensures forall i :: 0 <= i < |parts| ==> keys[i] in m && parts[i] == m[keys[i]]
    ensures forall key :: key in m ==> m[key] in parts
  {
    hide Elements;
    parts, keys := [], [];
    var left := m.Keys;
    NoElements<string>();
    ghost var taken: set<string> := {};
    while left != {}
      invariant left + taken == m.Keys && left !! taken && Elements(keys) == taken && |parts| == |keys| == |taken|
      invariant forall i :: 0 <= i < |parts| ==> keys[i] in m && parts[i] == m[keys[i]]
      invariant forall key :: key in taken ==> m[key] in parts
      decreases left
    {
      var key :| key in left;
      left, taken := left - {key}, taken + {key};
      OneMore(keys, key);
      parts, keys := parts + [m[key]], keys + [key];
    }
  }

  /** One sub-history per key that occurs, in an unspecified order. */
  method Partition(history: seq<KvOp>) returns (parts: seq<seq<KvOp>>, ghost keys: seq<string>)
    requires Typed(history)
    ensures Elements(keys) == KeysOf(history) && |parts| == |keys|
    ensures forall i :: 0 <= i < |parts| ==> parts[i] == SubHistory(history, keys[i])
    ensures |parts| == |KeysOf(history)| && forall key :: key in KeysOf(history) ==> SubHistory(history, key) in parts
  {
    hide SubHistory, Elements;
    var m := GroupByKey(history);
    parts, keys := Values(m);
  }

  // ---------------------------------------------------------------- the whole check

  /** Checks one (sub-)history against a model; `kill` is what each look at the shared flag sees. */
  method CheckHistory<S(==), V(!new)>(m: Model<S, V>, history: seq<Operation<V>>, kill: nat -> bool)
    returns (ok: bool, looks: nat)
    requires DistinctTimes(history)
    ensures ok ==> Linearizable(m, history)
    ensures !ok ==> !Linearizable(m, history) || (looks > 0 && kill(looks - 1))
    ensures Unset(kill, if ok || looks == 0 then looks else looks - 1)
  {
    hide Linearizable, Describes, Arranged;
    var entries := MakeEntries(history);
    ghost var ops := Positions(history, entries);
    PositionsArranged(history, entries);
    var root; ghost var nodes;
    root, nodes := MakeLinkedEntries(entries, ops);
    assert SameShape(ops, history) by { PositionsShape(history, entries); }
    DescribedWellTimed(nodes, ops);
    SameShapeLinearizable(m, ops, history);
    ok, looks := CheckSingle(m, root, kill, nodes, ops);
  }

  lemma PositionsShape<V>(history: seq<Operation<V>>, entries: seq<Entry<V>>)
    requires DistinctTimes(history) && SortedByTime(entries) && multiset(entries) == multiset(Pairs(history))
    ensures SameShape(Positions(history, entries), history)
  {
    forall a, b | 0 <= a < |history| && 0 <= b < |history|
      ensures Positions(history, entries)[a].ret < Positions(history, entries)[b].call <==> history[a].ret < history[b].call
    {
      PositionsKeepOrder(history, entries, a, b);
    }
  }

  /** The loop that collects the results of `parts` partitions, and the flag it shares with them. */
  datatype Collector = Collector(parts: nat, count: nat, ok: bool, kill: bool, returned: bool)

  function Collecting(parts: nat): Collector
  {
    Collector(parts, 0, true, false, false)
  }

  function Receive(c: Collector, result: bool): Collector
  {
    var ok := c.ok && result;
    if !ok then c.(ok := false, kill := true, returned := true)
    else c.(count := c.count + 1, returned := c.count + 1 >= c.parts)
  }

  /** The loop's state after it has read these results. */
  function Collected(parts: nat, results: seq<bool>): Collector
  {
    if results == [] then Collecting(parts) else Receive(Collected(parts, results[..|results| - 1]), results[|results| - 1])
  }

  /** While it reads, the loop returns exactly at the first failure or, if there are partitions, when all have
      succeeded; the flag is set only when it returns false, so every result that is read was computed while
      the flag was unset. */
  lemma {:induction false} CollectorAnswer(parts: nat, results: seq<bool>)
    requires |results| <= parts && forall i :: 0 <= i < |results| ==> !Collected(parts, results[..i]).returned
    ensures var c := Collected(parts, results);
            (c.ok <==> false !in results) && (c.kill <==> !c.ok) && c.parts == parts &&
            (c.ok ==> c.count == |results|) && (c.returned <==> !c.ok || 0 < |results| == parts)
  {
    if results != [] {
      var n := |results| - 1;
      assert results == results[..n] + [results[n]];
      forall i | 0 <= i < n
        ensures results[..n][..i] == results[..i]
      {
      }
      CollectorAnswer(parts, results[..n]);
      assert !Collected(parts, results[..n]).returned;
    }
  }

  /** Reads the partitions' results in whatever order they arrive, until the loop returns. */
  method Collect(parts: seq<seq<KvOp>>) returns (c: Collector, pending: set<nat>, ghost results: seq<bool>)
    requires forall i :: 0 <= i < |parts| ==> DistinctTimes(parts[i])
    ensures c == Collected(|parts|, results) && |results| + |pending| == |parts| && pending <= Ids(|parts|)
    ensures forall i :: 0 <= i < |results| ==> !Collected(|parts|, results[..i]).returned
    ensures c.returned || pending == {}
    ensures if false in results then !Passed(parts, {}) else Passed(parts, pending)
  {
    hide DistinctTimes, Passed;
    c, pending, results := Collecting(|parts|), Ids(|parts|), [];
    assert Passed(parts, pending) by { NonePassed(parts, pending); }
    while !c.returned && pending != {}
      invariant c == Collected(|parts|, results) && |results| + |pending| == |parts| && pending <= Ids(|parts|)
      invariant forall i :: 0 <= i < |results| ==> !Collected(|parts|, results[..i]).returned
      invariant if false in results then !Passed(parts, {}) else Passed(parts, pending)
      decreases pending
    {
      var i :| i in pending;
      assert false !in results && !c.kill by { CollectorAnswer(|parts|, results); }
      var flag := c.kill;
      var result, _ := CheckHistory(KV, parts[i], _ => flag);
      PassedNext(parts, pending, i, result);
      ReadOne(|parts|, results, result);
      pending := pending - {i};
      c := Receive(c, result);
      results := results + [result];
    }
  }

  lemma ReadOne(parts: nat, results: seq<bool>, result: bool)
    requires forall i :: 0 <= i < |results| ==> !Collected(parts, results[..i]).returned
    requires !Collected(parts, results).returned
    ensures Collected(parts, results + [result]) == Receive(Collected(parts, results), result)
    ensures forall i :: 0 <= i < |results| + 1 ==> !Collected(parts, (results + [result])[..i]).returned
  {
    assert (results + [result])[..|results|] == results;
    forall i | 0 <= i < |results|
      ensures (results + [result])[..i] == results[..i]
    {
    }
  }

  /** Checks all partitions. Those whose results are not read when the loop returns see the flag at arbitrary
      looks (`late`). None stands for a loop that never returns. */
  method CheckOperations(history: seq<KvOp>, late: (nat, nat) -> bool) returns (verdict: Option<bool>)
    requires DistinctTimes(history) && Typed(history)
    ensures history == [] <==> verdict == None
    ensures verdict.Some? ==> (verdict.value <==> Linearizable(STORE, history))
    ensures verdict.Some? ==> (verdict.value <==> exists order :: Explains(order, Elements(history)))
  {
    hide Linearizable, DistinctTimes;
    var parts; ghost var keys;
    parts, keys := Partition(history);
    forall i | 0 <= i < |parts|
      ensures DistinctTimes(parts[i])
    {
      SubHistoryFacts(history, keys[i]);
    }
    var c, pending; ghost var results;
    c, pending, results := Collect(parts);
    CollectorAnswer(|parts|, results);
    Whole(history, keys, parts);
    StoreVerdict(history);
    NoParts(history);
    verdict := if c.returned then Some(c.ok) else None;
    var _, _ := Unread(parts, pending, late);
  }

  ghost predicate Passed(parts: seq<seq<KvOp>>, pending: set<nat>)
  {
    forall i: nat :: i < |parts| && i !in pending ==> Linearizable(KV, parts[i])
  }

  lemma NonePassed(parts: seq<seq<KvOp>>, pending: set<nat>)
    requires pending == Ids(|parts|)
    ensures Passed(parts, pending)
  {
  }

  lemma PassedNext(parts: seq<seq<KvOp>>, pending: set<nat>, i: nat, result: bool)
    requires i in pending && i < |parts| && (result <==> Linearizable(KV, parts[i])) && Passed(parts, pending)
    ensures if result then Passed(parts, pending - {i}) else !Passed(parts, {})
  {
    hide Linearizable;
  }

  lemma NoParts(history: seq<KvOp>)
    requires Typed(history)
    ensures |KeysOf(history)| == 0 <==> history == []
  {
    if history != [] {
      assert history[0].input.key in KeysOf(history);
    }
  }

  /** What a partition answers that looks at the flag: true only if it is right, and a wrong false only if its
      last look saw the flag set. */
  ghost predicate LateResult(part: seq<KvOp>, result: bool, looks: nat, flag: nat -> bool)
  {
    if result then Linearizable(KV, part) else !Linearizable(KV, part) || (looks > 0 && flag(looks - 1))
  }

  /** The partitions that are still running when the answer is given: each of them ends. */
  method Unread(parts: seq<seq<KvOp>>, unread: set<nat>, late: (nat, nat) -> bool) returns (results: map<nat, bool>, looks: map<nat, nat>)
    requires forall i :: i in unread ==> i < |parts| && DistinctTimes(parts[i])
    ensures results.Keys == unread == looks.Keys
    ensures forall i :: i in unread ==> LateResult(parts[i], results[i], looks[i], (t: nat) => late(i, t))
  {
    hide Linearizable, DistinctTimes;
    var left := unread;
    results, looks := map[], map[];
    while left != {}
      invariant left <= unread && results.Keys == unread - left == looks.Keys
      invariant forall i :: i in unread - left ==> LateResult(parts[i], results[i], looks[i], (t: nat) => late(i, t))
      decreases left
    {
      var i :| i in left;
      var result, n := CheckHistory(KV, parts[i], (t: nat) => late(i, t));
      left, results, looks := left - {i}, results[i := result], looks[i := n];
    }
  }

  /** The partitions decide the whole history. */
  lemma Whole(history: seq<KvOp>, keys: seq<string>, parts: seq<seq<KvOp>>)
    requires DistinctTimes(history) && Typed(history)
    requires Elements(keys) == KeysOf(history) && |parts| == |keys|
    requires forall i :: 0 <= i < |parts| ==> parts[i] == SubHistory(history, keys[i])
    ensures Linearizable(STORE, history) <==> forall i :: 0 <= i < |parts| ==> Linearizable(KV, parts[i])
  {
    hide Linearizes, DistinctTimes;
    var pool := Elements(history);
    SubHistoryFacts(history, "");
    forall key
      ensures Elements(SubHistory(history, key)) == OfKey(pool, key)
      ensures KeyLinearizable(map[], pool, key) <==> Linearizable(KV, SubHistory(history, key))
    {
      KeyVerdict(history, key);
    }
    forall key | key !in keys
      ensures KeyLinearizable(map[], pool, key)
    {
      assert key !in Elements(keys);
      assert OfKey(pool, key) == {};
      NoOperations(Lookup(map[], key), OfKey(pool, key));
    }
    Locality(map[], pool);
  }

  lemma KeyVerdict(history: seq<KvOp>, key: string)
    requires DistinctTimes(history) && Typed(history)
    ensures Proper(Elements(history)) && Elements(SubHistory(history, key)) == OfKey(Elements(history), key)
    ensures KeyLinearizable(map[], Elements(history), key) <==> Linearizable(KV, SubHistory(history, key))
  {
    hide Linearizes, DistinctTimes;
    SubHistoryFacts(history, key);
    assert Lookup(map[], key) == KV.init;
  }

  lemma NoOperations(st: string, pool: set<KvOp>)
    requires pool == {}
    ensures Linearizes(KV, st, [], pool)
  {
  }
}
