/** The checker's other interface: a list of call and return events, told apart by caller-chosen ids. */
module LinEvents {
  import opened Common
  import opened FiniteSets
  import opened LinSpec
  import opened LinNodes
  import opened LinSearch
  import opened LinHistory
  import opened LinChecker
  import opened LinKv

  datatype Event<V> = Event(isReturn: bool, value: V, id: nat)

  /** The events at `p` and `q` are the call and the return of one operation. */
  ghost predicate Match<V>(events: seq<Event<V>>, p: int, q: int)
  {
    0 <= p < q < |events| && !events[p].isReturn && events[q].isReturn && events[p].id == events[q].id
  }

  ghost function OpAt<V>(events: seq<Event<V>>, p: int, q: int): Operation<V>
    requires Match(events, p, q)
  {
    Operation(events[p].value, p, events[q].value, q)
  }

  /** The operations that the events tell of, timed by their places in the list. */
  ghost function OpsOf<V>(events: seq<Event<V>>): set<Operation<V>>
  {
    set p, q | 0 <= p < |events| && 0 <= q < |events| && Match(events, p, q) :: OpAt(events, p, q)
  }

  ghost predicate EventsLinearizable<S, V(!new)>(m: Model<S, V>, events: seq<Event<V>>)
  {
    exists order :: Linearizes(m, m.init, order, OpsOf(events))
  }

  /** Every call has a return and every return a call, and no id is used twice. */
  ghost predicate Complete<V>(events: seq<Event<V>>)
  {
    (forall p :: 0 <= p < |events| ==> HasMatch(events, p)) &&
    (forall p, q :: 0 <= p < q < |events| ==> !(events[p].isReturn == events[q].isReturn && events[p].id == events[q].id))
  }

  ghost predicate HasMatch<V>(events: seq<Event<V>>, p: int)
  {
    exists q :: Match(events, p, q) || Match(events, q, p)
  }

  // ---------------------------------------------------------------- renumbering

  /** The same events, with other ids that tell operations apart as before. */
  ghost predicate Renumbered<V>(e: seq<Event<V>>, events: seq<Event<V>>)
  {
    |e| == |events| &&
    (forall i :: 0 <= i < |e| ==> e[i].isReturn == events[i].isReturn && e[i].value == events[i].value) &&
    (forall i, j :: 0 <= i < |e| && 0 <= j < |e| ==> (e[i].id == e[j].id <==> events[i].id == events[j].id))
  }

  /** The ids are 0 to `n - 1`. */
  ghost predicate Compact<V>(e: seq<Event<V>>, n: nat)
  {
    (forall p :: 0 <= p < |e| ==> e[p].id < n) && (forall id: nat :: id < n ==> Occurs(e, id))
  }

  ghost predicate Occurs<V>(e: seq<Event<V>>, id: nat)
  {
    exists p :: 0 <= p < |e| && e[p].id == id
  }

  /** Renumbering changes nothing: the events tell of the same operations. */
  lemma RenumberKeeps<V>(e: seq<Event<V>>, events: seq<Event<V>>)
    requires Renumbered(e, events)
    ensures OpsOf(e) == OpsOf(events) && (Complete(events) ==> Complete(e))
  {
    forall p, q | Match(e, p, q) || Match(events, p, q)
      ensures Match(e, p, q) && Match(events, p, q) && OpAt(e, p, q) == OpAt(events, p, q)
    {
    }
    assert OpsOf(e) == OpsOf(events);
    if Complete(events) {
      forall p | 0 <= p < |e|
        ensures HasMatch(e, p)
      {
        assert HasMatch(events, p);
        var q :| Match(events, p, q) || Match(events, q, p);
        assert Match(e, p, q) || Match(e, q, p);
      }
    }
  }

  method Renumber<V>(events: seq<Event<V>>) returns (e: seq<Event<V>>, ghost n: nat)
    ensures Renumbered(e, events) && Compact(e, n)
  {
    e := [];
    var m: map<nat, nat> := map[];
    var id := 0;
    for i := 0 to |events|
      invariant |e| == i && forall k :: 0 <= k < i ==> events[k].id in m && e[k] == events[k].(id := m[events[k].id])
      invariant (forall x :: x in m ==> m[x] < id) && forall x, y :: x in m && y in m && m[x] == m[y] ==> x == y
      invariant forall v: nat :: v < id ==> Occurs(e, v)
    {
      var v, e0 := events[i], e;
      if v.id in m {
        e := e + [Event(v.isReturn, v.value, m[v.id])];
      } else {
        e := e + [Event(v.isReturn, v.value, id)];
        m := m[v.id := id];
        assert e[i].id == id;
        id := id + 1;
      }
      forall v: nat | v < id
        ensures Occurs(e, v)
      {
        if Occurs(e0, v) {
          var p :| 0 <= p < |e0| && e0[p].id == v;
          assert e[p].id == v;
        }
      }
    }
    n := id;
  }

  method ConvertEntries<V>(events: seq<Event<V>>) returns (entries: seq<Entry<V>>)
    ensures Converted(events, entries)
  {
    entries := [];
    for i := 0 to |events|
      invariant |entries| == i && forall k :: 0 <= k < i ==> entries[k] == Entry(events[k].isReturn, events[k].value, events[k].id, -1)
    {
      entries := entries + [Entry(events[i].isReturn, events[i].value, events[i].id, -1)];
    }
  }

  ghost predicate Converted<V>(events: seq<Event<V>>, entries: seq<Entry<V>>)
  {
    |entries| == |events| &&
    forall k :: 0 <= k < |entries| ==>
      entries[k].isReturn == events[k].isReturn && entries[k].value == events[k].value && entries[k].id == events[k].id
  }

  // ---------------------------------------------------------------- the operations by id

  ghost predicate MatchOf<V>(e: seq<Event<V>>, id: nat, p: int, q: int)
  {
    Match(e, p, q) && e[p].id == id
  }

  lemma MatchById<V>(e: seq<Event<V>>, n: nat, id: nat)
    requires Complete(e) && Compact(e, n) && id < n
    ensures exists p, q :: MatchOf(e, id, p, q)
  {
    assert Occurs(e, id);
    var p :| 0 <= p < |e| && e[p].id == id;
    assert HasMatch(e, p);
    var q :| Match(e, p, q) || Match(e, q, p);
    assert MatchOf(e, id, p, q) || MatchOf(e, id, q, p);
  }

  ghost function OpById<V>(e: seq<Event<V>>, n: nat, id: nat): (op: Operation<V>)
    requires Complete(e) && Compact(e, n) && id < n
    ensures MatchOf(e, id, op.call, op.ret) && op == OpAt(e, op.call, op.ret)
  {
    MatchById(e, n, id);
    var p, q :| MatchOf(e, id, p, q);
    OpAt(e, p, q)
  }

  ghost function OpsById<V>(e: seq<Event<V>>, n: nat): seq<Operation<V>>
    requires Complete(e) && Compact(e, n)
  {
    seq(n, id requires 0 <= id < n => OpById(e, n, id))
  }

  /** Two events for each id. */
  ghost function Code<V>(e: Event<V>): nat
  {
    2 * e.id + if e.isReturn then 1 else 0
  }

  ghost function Codes<V>(e: seq<Event<V>>): seq<nat>
  {
    seq(|e|, p requires 0 <= p < |e| => Code(e[p]))
  }

  lemma TwoEach<V>(e: seq<Event<V>>, n: nat)
    requires Complete(e) && Compact(e, n)
    ensures |e| == 2 * n
  {
    var codes := Codes(e);
    assert Distinct(codes);
    DistinctSize(codes);
    forall c: nat | c < 2 * n
      ensures c in Elements(codes)
    {
      var op := OpById(e, n, c / 2);
      assert codes[op.call] == 2 * (c / 2) && codes[op.ret] == 2 * (c / 2) + 1;
    }
    assert Elements(codes) == Ids(2 * n);
  }

  lemma {:induction false} DistinctSize<T>(s: seq<T>)
    requires Distinct(s)
    ensures |Elements(s)| == |s|
  {
    if s != [] {
      var k := |s| - 1;
      DistinctSize(s[..k]);
      assert Elements(s) == Elements(s[..k]) + {s[k]};
    }
  }

  lemma EventsArranged<V>(e: seq<Event<V>>, n: nat, entries: seq<Entry<V>>)
    requires Complete(e) && Compact(e, n) && Converted(e, entries)
    ensures Arranged(entries, OpsById(e, n))
  {
    var ops := OpsById(e, n);
    TwoEach(e, n);
    forall id: nat | id < |ops|
      ensures PlacedEntry(entries, ops, id)
    {
      assert MatchOf(e, id, ops[id].call, ops[id].ret);
    }
    forall p | 0 <= p < |entries|
      ensures entries[p].id < |ops| && p == EntryPos(ops, entries[p])
    {
      var op := ops[e[p].id];
      assert MatchOf(e, e[p].id, op.call, op.ret);
    }
  }

  /** However the operations are arranged, they are those the events tell of. */
  lemma ArrangedOps<V>(events: seq<Event<V>>, entries: seq<Entry<V>>, ops: seq<Operation<V>>)
    requires Converted(events, entries) && Arranged(entries, ops)
    ensures Elements(ops) == OpsOf(events) && WellTimed(ops)
  {
    forall id: nat | id < |ops|
      ensures ops[id] in OpsOf(events)
    {
      assert PlacedEntry(entries, ops, id);
      assert Match(events, ops[id].call, ops[id].ret);
    }
    forall op | op in OpsOf(events)
      ensures op in ops
    {
      var p, q :| 0 <= p < |events| && 0 <= q < |events| && Match(events, p, q) && op == OpAt(events, p, q);
      assert PlacedEntry(entries, ops, entries[p].id) && p == EntryPos(ops, entries[p]) && q == EntryPos(ops, entries[q]);
      assert op == ops[entries[p].id];
    }
    forall i: nat, j: nat | i < j < |ops|
      ensures ops[i] != ops[j]
    {
      assert PlacedEntry(entries, ops, i) && PlacedEntry(entries, ops, j);
    }
  }

  // ---------------------------------------------------------------- the check

  /** Checks an event list as one partition, so that no result but its own is read and the flag stays unset. */
  method CheckEvents<S(==), V(!new)>(m: Model<S, V>, events: seq<Event<V>>) returns (ok: bool)
    requires Complete(events)
    ensures ok <==> EventsLinearizable(m, events)
  {
    hide Complete, Compact, Arranged, Describes, Linearizes, OpsOf, Renumbered, Converted;
    var e; ghost var n;
    e, n := Renumber(events);
    RenumberKeeps(e, events);
    var entries := ConvertEntries(e);
    ghost var ops := OpsById(e, n);
    EventsArranged(e, n, entries);
    ArrangedOps(e, entries, ops);
    var root; ghost var nodes;
    root, nodes := MakeLinkedEntries(entries, ops);
    var looks;
    ok, looks := CheckSingle(m, root, _ => false, nodes, ops);
  }

  /** Both interfaces agree: the events of a timed history, in time order, have the verdict of the history. */
  lemma InterfacesAgree<S, V(!new)>(m: Model<S, V>, history: seq<Operation<V>>, entries: seq<Entry<V>>, events: seq<Event<V>>)
    requires DistinctTimes(history) && SortedByTime(entries) && multiset(entries) == multiset(Pairs(history))
    requires Converted(events, entries)
    ensures EventsLinearizable(m, events) <==> Linearizable(m, history)
  {
    hide Linearizes, Arranged, OpsOf, Converted;
    var ops := Positions(history, entries);
    PositionsArranged(history, entries);
    ArrangedOps(events, entries, ops);
    PositionsShape(history, entries);
    SameShapeLinearizable(m, ops, history);
  }

  // ---------------------------------------------------------------- key/value events

  ghost predicate OfOneKey(events: seq<Event<KvValue>>, key: string)
  {
    forall p :: 0 <= p < |events| ==>
      if events[p].isReturn then events[p].value.KvOutput? else events[p].value.KvInput? && events[p].value.key == key
  }

  /** The key/value model does not split event lists by key. For the events of one key that is no difference. */
  lemma OneKey(events: seq<Event<KvValue>>, key: string)
    requires OfOneKey(events, key)
    ensures EventsLinearizable(KV, events) <==> EventsLinearizable(STORE, events)
  {
    hide Linearizes;
    var pool := OpsOf(events);
    assert Proper(pool) && OfKey(pool, key) == pool;
    forall other | other != key
      ensures KeyLinearizable(map[], pool, other)
    {
      assert OfKey(pool, other) == {};
      NoOperations(Lookup(map[], other), OfKey(pool, other));
    }
    Locality(map[], pool);
    assert Lookup(map[], key) == KV.init;
    assert KeyLinearizable(map[], pool, key) <==> EventsLinearizable(KV, events);
    assert PoolLinearizable(map[], pool) <==> EventsLinearizable(STORE, events);
  }

  ghost function TwoKeys(a: string, b: string): seq<Event<KvValue>>
  {
    [Event(false, KvInput(PUT, a, "x"), 0), Event(true, KvOutput(""), 0),
     Event(false, KvInput(GET, b, ""), 1), Event(true, KvOutput(""), 1)]
  }

  lemma TwoKeyOps(a: string, b: string)
    ensures OpsOf(TwoKeys(a, b)) == {Operation(KvInput(PUT, a, "x"), 0, KvOutput(""), 1), Operation(KvInput(GET, b, ""), 2, KvOutput(""), 3)}
  {
    var events := TwoKeys(a, b);
    assert Match(events, 0, 1) && Match(events, 2, 3);
  }

  /** For any two keys it is: a store that answers every request as it should is refused. */
  lemma KeysMixed(a: string, b: string)
    requires a != b
    ensures Complete(TwoKeys(a, b)) && EventsLinearizable(STORE, TwoKeys(a, b)) && !EventsLinearizable(KV, TwoKeys(a, b))
  {
    var events := TwoKeys(a, b);
    var put, get := Operation(KvInput(PUT, a, "x"), 0, KvOutput(""), 1), Operation(KvInput(GET, b, ""), 2, KvOutput(""), 3);
    TwoKeyOps(a, b);
    assert Match(events, 0, 1) && Match(events, 2, 3);
    StoreOrder(put, get, a, b);
    forall order: seq<KvOp>
      ensures !Linearizes(KV, KV.init, order, {put, get})
    {
      NoKvOrder(put, get, order, a, b);
    }
  }

  lemma StoreOrder(put: KvOp, get: KvOp, a: string, b: string)
    requires a != b && put == Operation(KvInput(PUT, a, "x"), 0, KvOutput(""), 1) && get == Operation(KvInput(GET, b, ""), 2, KvOutput(""), 3)
    ensures Linearizes(STORE, STORE.init, [put, get], {put, get})
  {
    assert [put, get][1..] == [get];
    assert Legal(STORE, map[a := "x"], [get]) by { assert [get][1..] == []; }
  }

  lemma NoKvOrder(put: KvOp, get: KvOp, order: seq<KvOp>, a: string, b: string)
    requires put == Operation(KvInput(PUT, a, "x"), 0, KvOutput(""), 1) && get == Operation(KvInput(GET, b, ""), 2, KvOutput(""), 3)
    ensures !Linearizes(KV, KV.init, order, {put, get})
  {
    if Distinct(order) && Elements(order) == {put, get} && RespectsRealTime(order) {
      DistinctSize(order);
      assert order[0] in Elements(order) && order[1] in Elements(order);
      assert order == [put, get];
      assert order[1..] == [get];
      assert !Legal(KV, "x", [get]);
    }
  }
}
