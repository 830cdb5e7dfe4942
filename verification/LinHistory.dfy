/** From timestamped operations to the linked entry list. */
module LinHistory {
  import opened Common
  import opened FiniteSets
  import opened LinSpec
  import opened LinNodes
  import opened LinSearch

  datatype Entry<V> = Entry(isReturn: bool, value: V, id: nat, time: int)

  /** Every timestamp of the history occurs once, and calls precede their returns. */
  ghost predicate DistinctTimes<V>(history: seq<Operation<V>>)
  {
    (forall i :: 0 <= i < |history| ==> history[i].call < history[i].ret) &&
    (forall i, j :: 0 <= i < |history| && 0 <= j < |history| ==> history[i].call != history[j].ret) &&
    (forall i, j :: 0 <= i < j < |history| ==> history[i].call != history[j].call && history[i].ret != history[j].ret)
  }

  // ---------------------------------------------------------------- sorting by time

  ghost predicate SortedByTime<V>(s: seq<Entry<V>>)
  {
    forall i, j :: 0 <= i < j < |s| ==> s[i].time <= s[j].time
  }

  function InsertByTime<V>(e: Entry<V>, s: seq<Entry<V>>): (r: seq<Entry<V>>)
    ensures multiset(r) == multiset(s) + multiset{e}
  {
    if s == [] || e.time <= s[0].time then [e] + s
    else
      assert s == [s[0]] + s[1..];
      [s[0]] + InsertByTime(e, s[1..])
  }

  lemma InsertedFrom<V>(e: Entry<V>, s: seq<Entry<V>>, i: nat)
    requires i < |InsertByTime(e, s)|
    ensures InsertByTime(e, s)[i] == e || InsertByTime(e, s)[i] in s
  {
    hide InsertByTime;
    var x := InsertByTime(e, s)[i];
    assert x in multiset(InsertByTime(e, s));
    assert x in multiset(s) || x == e;
  }

  lemma {:induction false} InsertKeepsSorted<V>(e: Entry<V>, s: seq<Entry<V>>)
    requires SortedByTime(s)
    ensures SortedByTime(InsertByTime(e, s))
  {
    if s != [] && s[0].time < e.time {
      var r := InsertByTime(e, s[1..]);
      InsertKeepsSorted(e, s[1..]);
      forall i: nat | i < |r|
        ensures s[0].time <= r[i].time
      {
        InsertedFrom(e, s[1..], i);
      }
      SortedAfter(s[0], r);
    }
  }

  lemma SortedAfter<V>(first: Entry<V>, r: seq<Entry<V>>)
    requires SortedByTime(r) && forall i :: 0 <= i < |r| ==> first.time <= r[i].time
    ensures SortedByTime([first] + r)
  {
  }

  /** Stands for the library sort: some rearrangement of the entries in time order. */
  function SortByTime<V>(s: seq<Entry<V>>): (r: seq<Entry<V>>)
    ensures SortedByTime(r) && multiset(r) == multiset(s)
  {
    if s == [] then []
    else
      assert s == [s[0]] + s[1..];
      InsertKeepsSorted(s[0], SortByTime(s[1..]));
      InsertByTime(s[0], SortByTime(s[1..]))
  }

  ghost function CallEntry<V>(history: seq<Operation<V>>, id: nat): Entry<V>
    requires id < |history|
  {
    Entry(false, history[id].input, id, history[id].call)
  }

  ghost function ReturnEntry<V>(history: seq<Operation<V>>, id: nat): Entry<V>
    requires id < |history|
  {
    Entry(true, history[id].output, id, history[id].ret)
  }

  /** The two entries of every operation, in id order. */
  ghost function Pairs<V>(history: seq<Operation<V>>): seq<Entry<V>>
  {
    seq(2 * |history|, i requires 0 <= i < 2 * |history| =>
      if i % 2 == 0 then CallEntry(history, i / 2) else ReturnEntry(history, i / 2))
  }

  /** The entries of the history's operations, in time order. */
  method MakeEntries<V>(history: seq<Operation<V>>) returns (entries: seq<Entry<V>>)
    ensures SortedByTime(entries) && multiset(entries) == multiset(Pairs(history))
  {
    entries := [];
    for id := 0 to |history|
      invariant |entries| == 2 * id && entries == Pairs(history)[..2 * id]
    {
      var elem := history[id];
      entries := entries + [Entry(false, elem.input, id, elem.call)];
      entries := entries + [Entry(true, elem.output, id, elem.ret)];
    }
    assert Pairs(history)[..2 * |history|] == Pairs(history);
    entries := SortByTime(entries);
  }

  // ---------------------------------------------------------------- positions

  /** `ops` gives the position of every operation's call and return in `entries`. */
  ghost predicate Arranged<V>(entries: seq<Entry<V>>, ops: seq<Operation<V>>)
  {
    |entries| == 2 * |ops| &&
    (forall id: nat :: id < |ops| ==> PlacedEntry(entries, ops, id)) &&
    (forall p :: 0 <= p < |entries| ==> entries[p].id < |ops| && p == EntryPos(ops, entries[p]))
  }

  ghost function EntryPos<V>(ops: seq<Operation<V>>, e: Entry<V>): int
    requires e.id < |ops|
  {
    if e.isReturn then ops[e.id].ret else ops[e.id].call
  }

  ghost predicate PlacedEntry<V>(entries: seq<Entry<V>>, ops: seq<Operation<V>>, id: nat)
    requires id < |ops|
  {
    0 <= ops[id].call < ops[id].ret < |entries| &&
    var call, ret := entries[ops[id].call], entries[ops[id].ret];
    !call.isReturn && call.id == id && call.value == ops[id].input &&
    ret.isReturn && ret.id == id && ret.value == ops[id].output
  }

  lemma {:induction false} DistinctOnce<T>(s: seq<T>, x: T)
    requires Distinct(s)
    ensures multiset(s)[x] <= 1
  {
    if s != [] {
      assert s == [s[0]] + s[1..];
      DistinctOnce(s[1..], x);
      assert s[0] !in s[1..];
    }
  }

  lemma OnceDistinct<T>(s: seq<T>, i: nat, j: nat)
    requires i < j < |s| && s[i] == s[j]
    ensures multiset(s)[s[i]] >= 2
  {
    assert s == s[..j] + [s[j]] + s[j + 1..];
    assert s[i] in s[..j];
  }

  lemma PairsDistinct<V>(history: seq<Operation<V>>)
    requires DistinctTimes(history)
    ensures forall i, j :: 0 <= i < j < |Pairs(history)| ==> Pairs(history)[i].time != Pairs(history)[j].time
  {
    forall i, j | 0 <= i < j < |Pairs(history)|
      ensures Pairs(history)[i].time != Pairs(history)[j].time
    {
      var a, b := i / 2, j / 2;
      assert history[a].call < history[a].ret;
    }
  }

  /** With distinct timestamps the sort can only give one order: strictly increasing time. */
  lemma StrictlySorted<V>(history: seq<Operation<V>>, entries: seq<Entry<V>>)
    requires DistinctTimes(history) && SortedByTime(entries) && multiset(entries) == multiset(Pairs(history))
    ensures forall p, q :: 0 <= p < q < |entries| ==> entries[p].time < entries[q].time
  {
    PairsDistinct(history);
    forall p, q | 0 <= p < q < |entries|
      ensures entries[p].time < entries[q].time
    {
      if entries[p].time == entries[q].time {
        assert entries[p] in multiset(Pairs(history)) && entries[q] in multiset(Pairs(history));
        var i :| 0 <= i < |Pairs(history)| && Pairs(history)[i] == entries[p];
        var j :| 0 <= j < |Pairs(history)| && Pairs(history)[j] == entries[q];
        assert i == j;
        OnceDistinct(entries, p, q);
        DistinctOnce(Pairs(history), entries[p]);
        assert false;
      }
    }
  }

  ghost function PosOf<V>(entries: seq<Entry<V>>, e: Entry<V>): (p: int)
    requires e in entries
    ensures 0 <= p < |entries| && entries[p] == e
  {
    var p :| 0 <= p < |entries| && entries[p] == e;
    p
  }

  lemma EntryPresent<V>(history: seq<Operation<V>>, entries: seq<Entry<V>>, id: nat)
    requires multiset(entries) == multiset(Pairs(history)) && id < |history|
    ensures CallEntry(history, id) in entries && ReturnEntry(history, id) in entries
  {
    var pairs := Pairs(history);
    assert pairs[2 * id] == CallEntry(history, id) && pairs[2 * id + 1] == ReturnEntry(history, id);
    assert pairs[2 * id] in multiset(entries) && pairs[2 * id + 1] in multiset(entries);
  }

  /** The history with every timestamp replaced by its position among the sorted entries. */
  ghost function Positions<V>(history: seq<Operation<V>>, entries: seq<Entry<V>>): (ops: seq<Operation<V>>)
    requires multiset(entries) == multiset(Pairs(history))
    ensures |ops| == |history|
  {
    seq(|history|, id requires 0 <= id < |history| =>
      EntryPresent(history, entries, id);
      Operation(history[id].input, PosOf(entries, CallEntry(history, id)), history[id].output, PosOf(entries, ReturnEntry(history, id))))
  }

  lemma PositionsArranged<V>(history: seq<Operation<V>>, entries: seq<Entry<V>>)
    requires DistinctTimes(history) && SortedByTime(entries) && multiset(entries) == multiset(Pairs(history))
    ensures Arranged(entries, Positions(history, entries))
  {
    var ops := Positions(history, entries);
    StrictlySorted(history, entries);
    forall id: nat | id < |ops|
      ensures PlacedEntry(entries, ops, id)
    {
      EntryPresent(history, entries, id);
      assert history[id].call < history[id].ret;
    }
    assert |entries| == |multiset(entries)| == |multiset(Pairs(history))| == 2 * |ops|;
    forall p | 0 <= p < |entries|
      ensures entries[p].id < |ops| && p == EntryPos(ops, entries[p])
    {
      assert entries[p] in multiset(Pairs(history));
      var i :| 0 <= i < |Pairs(history)| && Pairs(history)[i] == entries[p];
      EntryPresent(history, entries, i / 2);
    }
  }

  /** In the entry list, a's return stands before b's call exactly when a returned before b was called. */
  lemma PositionsKeepOrder<V>(history: seq<Operation<V>>, entries: seq<Entry<V>>, a: nat, b: nat)
    requires DistinctTimes(history) && SortedByTime(entries) && multiset(entries) == multiset(Pairs(history))
    requires a < |history| && b < |history|
    ensures Positions(history, entries)[a].ret < Positions(history, entries)[b].call <==> history[a].ret < history[b].call
  {
    StrictlySorted(history, entries);
    EntryPresent(history, entries, a);
    EntryPresent(history, entries, b);
  }

  // ---------------------------------------------------------------- real-time order is all that matters

  ghost predicate SameShape<V>(ops: seq<Operation<V>>, history: seq<Operation<V>>)
  {
    |ops| == |history| &&
    (forall id :: 0 <= id < |ops| ==> ops[id].input == history[id].input && ops[id].output == history[id].output) &&
    (forall a, b :: 0 <= a < |ops| && 0 <= b < |ops| ==> (ops[a].ret < ops[b].call <==> history[a].ret < history[b].call))
  }

  lemma {:induction false} SameShapeCompletable<S, V>(m: Model<S, V>, ops: seq<Operation<V>>, history: seq<Operation<V>>, done: set<nat>, s: S)
    requires SameShape(ops, history) && done <= Ids(|ops|)
    ensures Completable(m, ops, done, s) <==> Completable(m, history, done, s)
    decreases Ids(|ops|) - done
  {
    forall id: nat
      ensures CompletableBy(m, ops, done, s, id) <==> CompletableBy(m, history, done, s, id)
    {
      SameCandidate(m, ops, history, done, s, id);
      hide Candidate, SameShape, After;
      if id < |ops| && id !in done {
        assert id in Ids(|ops|) - done;
        SameShapeCompletable(m, ops, history, done + {id}, After(m, ops, s, id));
      }
    }
  }

  lemma SameCandidate<S, V>(m: Model<S, V>, ops: seq<Operation<V>>, history: seq<Operation<V>>, done: set<nat>, s: S, id: nat)
    requires SameShape(ops, history)
    ensures |ops| == |history| && (Candidate(m, ops, done, s, id) <==> Candidate(m, history, done, s, id))
    ensures Candidate(m, ops, done, s, id) ==> id < |ops| && id !in done
    ensures id < |ops| ==> After(m, ops, s, id) == After(m, history, s, id)
  {
  }

  lemma SameShapeLinearizable<S, V(!new)>(m: Model<S, V>, ops: seq<Operation<V>>, history: seq<Operation<V>>)
    requires SameShape(ops, history) && WellTimed(ops) && WellTimed(history)
    ensures Linearizable(m, ops) <==> Linearizable(m, history)
  {
    hide Linearizable;
    SearchDecides(m, ops);
    SearchDecides(m, history);
    SameShapeCompletable(m, ops, history, {}, m.init);
  }

  // ---------------------------------------------------------------- the linked list

  /** `nodes` are the entries from position `i` on: node `k` stands for entry `i + k`. */
  ghost predicate Suffix<V>(entries: seq<Entry<V>>, ops: seq<Operation<V>>, nodes: seq<Node<V>>, i: nat)
    requires Arranged(entries, ops)
  {
    i + |nodes| == |entries| && Distinct(nodes) &&
    forall k: nat :: k < |nodes| ==> Stands(ops, nodes, i, nodes[k], entries[i + k])
  }

  ghost predicate Stands<V>(ops: seq<Operation<V>>, nodes: seq<Node<V>>, i: nat, x: Node<V>, e: Entry<V>)
    requires e.id < |ops|
  {
    x.id == e.id && x.value == Some(e.value) &&
    x.mate == if e.isReturn then null else NodeAt(nodes, ops[e.id].ret - i)
  }

  method MakeLinkedEntries<V>(entries: seq<Entry<V>>, ghost ops: seq<Operation<V>>) returns (root: Node?<V>, ghost nodes: seq<Node<V>>)
    requires Arranged(entries, ops)
    ensures Linked(nodes) && root == NodeAt(nodes, 0) && Describes(nodes, ops)
    ensures fresh(nodes)
  {
    hide Suffix, Mates, Linked;
    root, nodes := null, [];
    var mates: map<nat, Node<V>> := map[];
    var i: nat := |entries|;
    MatesKnown(entries, ops, nodes, mates, i);
    while i > 0
      invariant i <= |entries| && Suffix(entries, ops, nodes, i) && Linked(nodes) && Distinct(nodes) && root == NodeAt(nodes, 0)
      invariant fresh(nodes) && Mates(ops, nodes, mates, i)
    {
      i := i - 1;
      var elem := entries[i];
      ghost var mates0 := mates;
      MateKnown(entries, ops, nodes, mates, i);
      var entry;
      if elem.isReturn {
        entry := new Node<V>(Some(elem.value), null, elem.id);
        mates := mates[elem.id := entry];
      } else {
        entry := new Node<V>(Some(elem.value), mates[elem.id], elem.id);
      }
      assert Linked(nodes);
      entry := InsertBefore(entry, root, nodes, 0);
      assert nodes[..0] + [entry] + nodes[0..] == [entry] + nodes;
      Prepend(entries, ops, nodes, mates0, i, entry);
      nodes := [entry] + nodes;
      root := entry;
    }
    SuffixDescribes(entries, ops, nodes);
  }

  lemma MateKnown<V>(entries: seq<Entry<V>>, ops: seq<Operation<V>>, nodes: seq<Node<V>>, mates: map<nat, Node<V>>, i: nat)
    requires Arranged(entries, ops) && i < |entries| && Suffix(entries, ops, nodes, i + 1) && Mates(ops, nodes, mates, i + 1)
    ensures !entries[i].isReturn ==> entries[i].id in mates
  {
    assert PlacedEntry(entries, ops, entries[i].id);
  }

  /** Adding the node of entry `i` in front of those of the later entries. */
  lemma Prepend<V>(entries: seq<Entry<V>>, ops: seq<Operation<V>>, nodes: seq<Node<V>>, mates: map<nat, Node<V>>, i: nat, x: Node<V>)
    requires Arranged(entries, ops) && i < |entries| && Suffix(entries, ops, nodes, i + 1) && Mates(ops, nodes, mates, i + 1)
    requires x !in nodes && x.id == entries[i].id && x.value == Some(entries[i].value)
    requires if entries[i].isReturn then x.mate == null else x.id in mates && x.mate == mates[x.id]
    ensures Suffix(entries, ops, [x] + nodes, i) && Distinct([x] + nodes)
    ensures Mates(ops, [x] + nodes, if entries[i].isReturn then mates[x.id := x] else mates, i)
  {
    PrependSuffix(entries, ops, nodes, mates, i, x);
    PrependMates(entries, ops, nodes, mates, i, x);
  }

  lemma PrependSuffix<V>(entries: seq<Entry<V>>, ops: seq<Operation<V>>, nodes: seq<Node<V>>, mates: map<nat, Node<V>>, i: nat, x: Node<V>)
    requires Arranged(entries, ops) && i < |entries| && Suffix(entries, ops, nodes, i + 1) && Mates(ops, nodes, mates, i + 1)
    requires x !in nodes && x.id == entries[i].id && x.value == Some(entries[i].value)
    requires if entries[i].isReturn then x.mate == null else x.id in mates && x.mate == mates[x.id]
    ensures Suffix(entries, ops, [x] + nodes, i) && Distinct([x] + nodes)
  {
    var nodes' := [x] + nodes;
    assert PlacedEntry(entries, ops, x.id);
    assert Stands(ops, nodes', i, nodes'[0], entries[i + 0]);
    forall k: nat | 1 <= k < |nodes'|
      ensures Stands(ops, nodes', i, nodes'[k], entries[i + k])
    {
      assert Stands(ops, nodes, i + 1, nodes[k - 1], entries[(i + 1) + (k - 1)]);
      assert PlacedEntry(entries, ops, entries[i + k].id);
    }
  }

  lemma PrependMates<V>(entries: seq<Entry<V>>, ops: seq<Operation<V>>, nodes: seq<Node<V>>, mates: map<nat, Node<V>>, i: nat, x: Node<V>)
    requires Arranged(entries, ops) && i < |entries| && Mates(ops, nodes, mates, i + 1) && x.id == entries[i].id
    ensures Mates(ops, [x] + nodes, if entries[i].isReturn then mates[x.id := x] else mates, i)
  {
    assert PlacedEntry(entries, ops, x.id);
    forall id: nat | id < |ops| && ops[id].ret == i
      ensures id == x.id && entries[i].isReturn
    {
      assert PlacedEntry(entries, ops, id);
    }
  }

  /** The return nodes made so far can be found by operation id. */
  ghost predicate Mates<V>(ops: seq<Operation<V>>, nodes: seq<Node<V>>, mates: map<nat, Node<V>>, i: nat)
  {
    forall id: nat :: id < |ops| && ops[id].ret >= i ==> id in mates && mates[id] == NodeAt(nodes, ops[id].ret - i)
  }

  lemma MatesKnown<V>(entries: seq<Entry<V>>, ops: seq<Operation<V>>, nodes: seq<Node<V>>, mates: map<nat, Node<V>>, i: nat)
    requires Arranged(entries, ops) && i == |entries|
    ensures Mates(ops, nodes, mates, i) && Suffix(entries, ops, [], i) && Linked<V>([])
  {
    forall id: nat | id < |ops|
      ensures ops[id].ret < i
    {
      assert PlacedEntry(entries, ops, id);
    }
  }

  lemma SuffixDescribes<V>(entries: seq<Entry<V>>, ops: seq<Operation<V>>, nodes: seq<Node<V>>)
    requires Arranged(entries, ops) && Suffix(entries, ops, nodes, 0)
    ensures Describes(nodes, ops)
  {
    forall id: nat | id < |ops|
      ensures Placed(nodes, ops, id)
    {
      assert PlacedEntry(entries, ops, id);
      assert Stands(ops, nodes, 0, nodes[ops[id].call], entries[0 + ops[id].call]);
      assert Stands(ops, nodes, 0, nodes[ops[id].ret], entries[0 + ops[id].ret]);
    }
    forall p | 0 <= p < |nodes|
      ensures nodes[p].id < |ops| && Pos(ops, nodes[p]) == p
    {
      assert Stands(ops, nodes, 0, nodes[p], entries[0 + p]);
      assert entries[0 + p].id < |ops| && PlacedEntry(entries, ops, entries[0 + p].id);
    }
  }
}
