/** The abstract state of the backtracking search: a path of configurations, each with its entry
    list and the position reached in it, and the steps the search takes on it. */
module LinSearch {
  import opened Common
  import opened FiniteSets
  import opened LinSpec
  import opened LinNodes
  import opened LinCache

  /** Where an entry stands in the history: its own position, found from its operation. */
  ghost function Pos<V>(ops: seq<Operation<V>>, x: Node<V>): int
    requires x.id < |ops|
  {
    if x.mate != null then ops[x.id].call else ops[x.id].ret
  }

  /** The nodes spell the history: operation `id` has its call entry at position `ops[id].call` and
      its return entry, the call's mate, at position `ops[id].ret`, and there are no other entries. */
  ghost predicate Describes<V>(nodes: seq<Node<V>>, ops: seq<Operation<V>>)
  {
    Distinct(nodes) && |nodes| == 2 * |ops| &&
    (forall id: nat :: id < |ops| ==> Placed(nodes, ops, id)) &&
    (forall p :: 0 <= p < |nodes| ==> nodes[p].id < |ops| && Pos(ops, nodes[p]) == p)
  }

  ghost predicate Placed<V>(nodes: seq<Node<V>>, ops: seq<Operation<V>>, id: nat)
    requires id < |ops|
  {
    0 <= ops[id].call < ops[id].ret < |nodes| &&
    var call, ret := nodes[ops[id].call], nodes[ops[id].ret];
    call.id == id && call.mate == ret && call.value == Some(ops[id].input) &&
    ret.id == id && ret.mate == null && ret.value == Some(ops[id].output)
  }

  lemma DescribedWellTimed<V>(nodes: seq<Node<V>>, ops: seq<Operation<V>>)
    requires Describes(nodes, ops)
    ensures WellTimed(ops)
  {
    forall i, j | 0 <= i < j < |ops|
      ensures ops[i] != ops[j]
    {
      assert Placed(nodes, ops, i) && Placed(nodes, ops, j);
    }
    forall i | 0 <= i < |ops|
      ensures ops[i].call < ops[i].ret
    {
      assert Placed(nodes, ops, i);
    }
  }

  /** `list` is the head followed by the entries of the operations outside `done`, in order. */
  ghost predicate Covers<V>(list: seq<Node<V>>, head: Node<V>, nodes: seq<Node<V>>, ops: seq<Operation<V>>, done: set<nat>)
  {
    |list| >= 1 && list[0] == head && head !in nodes &&
    (forall i :: 1 <= i < |list| ==> list[i] in nodes && list[i].id < |ops| && list[i].id !in done) &&
    (forall i, j :: 1 <= i < j < |list| ==> Pos(ops, list[i]) < Pos(ops, list[j])) &&
    (forall p :: 0 <= p < |nodes| && nodes[p].id !in done ==> nodes[p] in list)
  }

  /** One configuration on the search path. All entries of `list` before index `c` have been tried;
      if the path goes on, it does so by the operation at `c`, whose return is at `r` once the call is out. */
  datatype Level<!S, !V> = Level(list: seq<Node<V>>, done: set<nat>, state: S, c: nat, r: nat)

  ghost predicate DeadBefore<S, V>(m: Model<S, V>, ops: seq<Operation<V>>, l: Level<S, V>)
    requires l.done <= Ids(|ops|)
  {
    forall i :: 1 <= i < l.c && i < |l.list| ==>
      l.list[i].mate != null && !CompletableBy(m, ops, l.done, l.state, l.list[i].id)
  }

  ghost predicate LevelOk<S, V>(m: Model<S, V>, head: Node<V>, nodes: seq<Node<V>>, ops: seq<Operation<V>>, l: Level<S, V>)
  {
    l.done <= Ids(|ops|) && Covers(l.list, head, nodes, ops, l.done) && Distinct(l.list) &&
    1 <= l.c <= |l.list| && DeadBefore(m, ops, l)
  }

  /** `l` goes on by an operation that leads to the configuration of `l'`. */
  ghost predicate Descends<S, V>(m: Model<S, V>, ops: seq<Operation<V>>, l: Level<S, V>, l': Level<S, V>)
  {
    l.c <= l.r < |l.list| - 1 && l.list[l.c].mate != null &&
    l.list[l.c].mate == Without(l.list, l.c)[l.r] &&
    l'.list == Without(Without(l.list, l.c), l.r) &&
    var id := l.list[l.c].id;
    Candidate(m, ops, l.done, l.state, id) &&
    l'.done == l.done + {id} && l'.state == After(m, ops, l.state, id)
  }

  ghost predicate Path<S, V>(m: Model<S, V>, head: Node<V>, nodes: seq<Node<V>>, ops: seq<Operation<V>>, levels: seq<Level<S, V>>)
  {
    levels != [] && levels[0].list == [head] + nodes && levels[0].done == {} && levels[0].state == m.init &&
    (forall j :: 0 <= j < |levels| ==> LevelOk(m, head, nodes, ops, levels[j])) &&
    (forall j :: 0 < j < |levels| ==> Descends(m, ops, levels[j - 1], levels[j]))
  }

  ghost function ConfigOf<S, V>(l: Level<S, V>): Config<S>
  {
    Config(l.done, l.state)
  }

  ghost predicate OnPath<S, V>(levels: seq<Level<S, V>>, c: Config<S>)
  {
    exists j :: 1 <= j < |levels| && c == ConfigOf(levels[j])
  }

  /** Every memoized configuration is on the path or has no completion. */
  ghost predicate SeenOk<S, V>(m: Model<S, V>, ops: seq<Operation<V>>, levels: seq<Level<S, V>>, seen: set<Config<S>>)
  {
    seen <= Reach(m, ops, |ops|) &&
    forall c :: c in seen ==> c.done <= Ids(|ops|) && (OnPath(levels, c) || !Completable(m, ops, c.done, c.state))
  }

  /** The configurations that at most `k` operations lead to. */
  ghost function Reach<S, V>(m: Model<S, V>, ops: seq<Operation<V>>, k: nat): set<Config<S>>
  {
    if k == 0 then {Config({}, m.init)}
    else Reach(m, ops, k - 1) + Successors(m, ops, Reach(m, ops, k - 1))
  }

  ghost function Successors<S, V>(m: Model<S, V>, ops: seq<Operation<V>>, before: set<Config<S>>): set<Config<S>>
  {
    set c, id | c in before && id in Ids(|ops|) :: Config(c.done + {id}, After(m, ops, c.state, id))
  }

  lemma {:induction false} ReachGrows<S, V>(m: Model<S, V>, ops: seq<Operation<V>>, j: nat, k: nat)
    requires j <= k
    ensures Reach(m, ops, j) <= Reach(m, ops, k)
    decreases k - j
  {
    hide Successors;
    if j < k {
      ReachGrows(m, ops, j, k - 1);
    }
  }

  lemma ReachNext<S, V>(m: Model<S, V>, ops: seq<Operation<V>>, k: nat, c: Config<S>, id: nat)
    requires c in Reach(m, ops, k) && id < |ops|
    ensures Config(c.done + {id}, After(m, ops, c.state, id)) in Reach(m, ops, k + 1)
  {
    hide Reach;
    assert id in Ids(|ops|);
    assert Config(c.done + {id}, After(m, ops, c.state, id)) in Successors(m, ops, Reach(m, ops, k));
    ReachUnfold(m, ops, k);
  }

  lemma ReachUnfold<S, V>(m: Model<S, V>, ops: seq<Operation<V>>, k: nat)
    ensures Reach(m, ops, k + 1) == Reach(m, ops, k) + Successors(m, ops, Reach(m, ops, k))
  {
    hide Successors;
  }

  lemma {:induction false} PathReached<S, V>(m: Model<S, V>, head: Node<V>, nodes: seq<Node<V>>, ops: seq<Operation<V>>,
                                           levels: seq<Level<S, V>>, j: nat)
    requires Path(m, head, nodes, ops, levels) && j < |levels|
    ensures ConfigOf(levels[j]) in Reach(m, ops, j) && |levels[j].done| == j
  {
    hide LevelOk, Successors;
    if j > 0 {
      var l := levels[j - 1];
      PathReached(m, head, nodes, ops, levels, j - 1);
      assert Descends(m, ops, l, levels[j]);
      ReachNext(m, ops, j - 1, ConfigOf(l), l.list[l.c].id);
    }
  }

  // ---------------------------------------------------------------- lists

  lemma MateFollows<V>(list: seq<Node<V>>, head: Node<V>, nodes: seq<Node<V>>, ops: seq<Operation<V>>, done: set<nat>, c: nat)
    returns (r: nat)
    requires Describes(nodes, ops) && Covers(list, head, nodes, ops, done) && Distinct(list)
    requires 1 <= c < |list| && list[c].mate != null
    ensures c <= r < |list| - 1 && Without(list, c)[r] == list[c].mate
    ensures list[c].mate.id == list[c].id && list[c].mate.mate == null
    ensures list[c].value == Some(ops[list[c].id].input) && list[c].mate.value == Some(ops[list[c].id].output)
  {
    var id := list[c].id;
    var p :| 0 <= p < |nodes| && nodes[p] == list[c];
    assert Placed(nodes, ops, id);
    var mate := nodes[ops[id].ret];
    assert Pos(ops, mate) == ops[id].ret > Pos(ops, list[c]);
    var i :| 0 <= i < |list| && list[i] == mate;
    assert i > c;
    r := i - 1;
  }

  /** Taking out a call and its return leaves exactly the other entries, in order. */
  lemma LiftCovers<V>(list: seq<Node<V>>, head: Node<V>, nodes: seq<Node<V>>, ops: seq<Operation<V>>, done: set<nat>, c: nat, r: nat)
    requires Describes(nodes, ops) && Covers(list, head, nodes, ops, done) && Distinct(list)
    requires 1 <= c <= r < |list| - 1 && list[c].mate != null && Without(list, c)[r] == list[c].mate
    ensures Covers(Without(Without(list, c), r), head, nodes, ops, done + {list[c].id})
    ensures Distinct(Without(Without(list, c), r))
  {
    hide Describes, Covers;
    WithoutDistinct(list, c);
    WithoutDistinct(Without(list, c), r);
    LiftedAt(list, c, r);
    assert list[r + 1] == list[c].mate;
    PairOut(list, Without(Without(list, c), r), head, nodes, ops, done, c, r);
  }

  lemma PairOut<V>(list: seq<Node<V>>, list2: seq<Node<V>>, head: Node<V>, nodes: seq<Node<V>>, ops: seq<Operation<V>>,
                   done: set<nat>, c: nat, r: nat)
    requires Describes(nodes, ops) && Covers(list, head, nodes, ops, done) && Distinct(list)
    requires 1 <= c <= r < |list| - 1 && list[c].mate != null && list[r + 1] == list[c].mate
    requires |list2| == |list| - 2 && forall i :: 0 <= i < |list2| ==> list2[i] == list[LiftIndex(c, r, i)]
    ensures Covers(list2, head, nodes, ops, done + {list[c].id})
  {
    hide Describes;
    var id := list[c].id;
    forall i | 1 <= i < |list2|
      ensures list2[i] in nodes && list2[i].id < |ops| && list2[i].id !in done && list2[i].id != id
    {
      OtherOperation(nodes, ops, list[c], list[LiftIndex(c, r, i)]);
    }
    forall p | 0 <= p < |nodes| && nodes[p].id !in done + {id}
      ensures nodes[p] in list2
    {
      NodeStays(list, list2, head, nodes, ops, done, c, r, p);
    }
  }

  lemma NodeStays<V>(list: seq<Node<V>>, list2: seq<Node<V>>, head: Node<V>, nodes: seq<Node<V>>, ops: seq<Operation<V>>,
                     done: set<nat>, c: nat, r: nat, p: nat)
    requires Describes(nodes, ops) && Covers(list, head, nodes, ops, done) && Distinct(list)
    requires 1 <= c <= r < |list| - 1 && list[c].mate != null && list[r + 1] == list[c].mate
    requires |list2| == |list| - 2 && forall i :: 0 <= i < |list2| ==> list2[i] == list[LiftIndex(c, r, i)]
    requires p < |nodes| && nodes[p].id !in done + {list[c].id}
    ensures nodes[p] in list2
  {
    hide Describes;
    SameOperation(nodes, ops, list[c]);
    hide Covers, Distinct;
    var i :| 0 <= i < |list| && list[i] == nodes[p];
    var k := if i < c then i else if i <= r then i - 1 else i - 2;
    assert LiftIndex(c, r, k) == i;
  }

  lemma SameOperation<V>(nodes: seq<Node<V>>, ops: seq<Operation<V>>, call: Node<V>)
    requires Describes(nodes, ops) && call in nodes && call.mate != null
    ensures call.mate.id == call.id
  {
    assert Placed(nodes, ops, call.id);
    var q :| 0 <= q < |nodes| && nodes[q] == call;
    assert Pos(ops, nodes[q]) == q;
  }

  ghost function LiftIndex(c: nat, r: nat, i: nat): nat
  {
    if i < c then i else if i < r then i + 1 else i + 2
  }

  lemma LiftedAt<T>(list: seq<T>, c: nat, r: nat)
    requires c <= r < |list| - 1
    ensures var list2 := Without(Without(list, c), r);
            |list2| == |list| - 2 && forall i :: 0 <= i < |list2| ==> list2[i] == list[LiftIndex(c, r, i)]
  {
  }

  lemma OtherOperation<V>(nodes: seq<Node<V>>, ops: seq<Operation<V>>, call: Node<V>, x: Node<V>)
    requires Describes(nodes, ops) && call in nodes && x in nodes && call.mate != null
    requires x != call && x != call.mate
    ensures x.id != call.id
  {
    assert Placed(nodes, ops, call.id);
    var p :| 0 <= p < |nodes| && nodes[p] == x;
    var q :| 0 <= q < |nodes| && nodes[q] == call;
    assert Pos(ops, nodes[p]) == p && Pos(ops, nodes[q]) == q;
  }

  // ---------------------------------------------------------------- what the current entry shows

  ghost function Top<S, V>(levels: seq<Level<S, V>>): Level<S, V>
    requires levels != []
  {
    levels[|levels| - 1]
  }

  lemma StartPath<S, V>(m: Model<S, V>, head: Node<V>, nodes: seq<Node<V>>, ops: seq<Operation<V>>)
    requires Describes(nodes, ops) && head !in nodes
    ensures var levels := [Level([head] + nodes, {}, m.init, 1, 0)];
            Path(m, head, nodes, ops, levels) && SeenOk(m, ops, levels, {})
  {
    var l := Level([head] + nodes, {}, m.init, 1, 0);
    assert Covers(l.list, head, nodes, ops, {}) by {
      assert forall i :: 1 <= i < |l.list| ==> l.list[i] == nodes[i - 1];
    }
    assert LevelOk(m, head, nodes, ops, l);
  }

  lemma TopFacts<S, V>(m: Model<S, V>, head: Node<V>, nodes: seq<Node<V>>, ops: seq<Operation<V>>, levels: seq<Level<S, V>>)
    requires Path(m, head, nodes, ops, levels)
    ensures LevelOk(m, head, nodes, ops, Top(levels))
    ensures var l := Top(levels);
            l.done <= Ids(|ops|) && Distinct(l.list) && l.list != [] && l.list[0] == head && 1 <= l.c <= |l.list| &&
            forall x :: x in l.list ==> x == head || x in nodes
  {
  }

  /** What the current entry tells when it is a call. */
  lemma CallFacts<S, V>(m: Model<S, V>, head: Node<V>, nodes: seq<Node<V>>, ops: seq<Operation<V>>, levels: seq<Level<S, V>>)
    returns (r: nat)
    requires Describes(nodes, ops) && Path(m, head, nodes, ops, levels)
    requires Top(levels).c < |Top(levels).list| && Top(levels).list[Top(levels).c].mate != null
    ensures var l := Top(levels);
            var x := l.list[l.c];
            l.c <= r < |l.list| - 1 && Without(l.list, l.c)[r] == x.mate &&
            x.id < |ops| && x.id !in l.done && Minimal(ops, l.done, x.id) &&
            x.value == Some(ops[x.id].input) && x.mate.value == Some(ops[x.id].output)
  {
    hide LevelOk, Describes;
    var l := Top(levels);
    TopFacts(m, head, nodes, ops, levels);
    FrontIsMinimal(m, head, nodes, ops, l);
    r := LevelMate(m, head, nodes, ops, l);
  }

  lemma LevelMate<S, V>(m: Model<S, V>, head: Node<V>, nodes: seq<Node<V>>, ops: seq<Operation<V>>, l: Level<S, V>)
    returns (r: nat)
    requires Describes(nodes, ops) && LevelOk(m, head, nodes, ops, l)
    requires l.c < |l.list| && l.list[l.c].mate != null && l.list[l.c].id < |ops|
    ensures l.c <= r < |l.list| - 1 && Without(l.list, l.c)[r] == l.list[l.c].mate
    ensures l.list[l.c].value == Some(ops[l.list[l.c].id].input) && l.list[l.c].mate.value == Some(ops[l.list[l.c].id].output)
  {
    hide Describes, Covers;
    r := MateFollows(l.list, head, nodes, ops, l.done, l.c);
  }

  /** With only calls before it, a call is minimal: every remaining return comes later. */
  lemma FrontIsMinimal<S, V>(m: Model<S, V>, head: Node<V>, nodes: seq<Node<V>>, ops: seq<Operation<V>>, l: Level<S, V>)
    requires Describes(nodes, ops) && LevelOk(m, head, nodes, ops, l)
    requires l.c < |l.list| && l.list[l.c].mate != null
    ensures l.list[l.c].id < |ops| && l.list[l.c].id !in l.done
    ensures Minimal(ops, l.done, l.list[l.c].id)
  {
    var id := l.list[l.c].id;
    forall x: nat | x < |ops| && x !in l.done
      ensures ops[id].call <= ops[x].ret
    {
      assert Placed(nodes, ops, x);
      var ret := nodes[ops[x].ret];
      assert ret in l.list;
      var i :| 0 <= i < |l.list| && l.list[i] == ret;
      assert ret in nodes;
      assert i > l.c;
      assert Pos(ops, l.list[l.c]) < Pos(ops, l.list[i]);
    }
  }

  /** At a return, every operation that could come next has been tried. */
  lemma ReturnIsDead<S, V>(m: Model<S, V>, head: Node<V>, nodes: seq<Node<V>>, ops: seq<Operation<V>>, l: Level<S, V>)
    requires Describes(nodes, ops) && LevelOk(m, head, nodes, ops, l)
    requires l.c < |l.list| && l.list[l.c].mate == null
    ensures !Completable(m, ops, l.done, l.state)
  {
    var x := l.list[l.c];
    assert l.done != Ids(|ops|) by { assert x.id in Ids(|ops|); }
    forall id: nat
      ensures !CompletableBy(m, ops, l.done, l.state, id)
    {
      if Candidate(m, ops, l.done, l.state, id) {
        assert Placed(nodes, ops, id) && Placed(nodes, ops, x.id);
        var call := nodes[ops[id].call];
        assert call in l.list;
        var i :| 0 <= i < |l.list| && l.list[i] == call;
        assert call in nodes;
        assert ops[id].call <= Pos(ops, x);
        assert i < l.c;
      }
    }
  }

  lemma EmptyIsDone<V>(list: seq<Node<V>>, head: Node<V>, nodes: seq<Node<V>>, ops: seq<Operation<V>>, done: set<nat>)
    requires Describes(nodes, ops) && Covers(list, head, nodes, ops, done) && done <= Ids(|ops|) && |list| == 1
    ensures done == Ids(|ops|)
  {
    forall id: nat | id < |ops|
      ensures id in done
    {
      assert Placed(nodes, ops, id);
      assert nodes[ops[id].call] in nodes;
    }
  }

  /** A path whose last configuration is complete shows a completion of the first. */
  lemma {:induction false} PathCompletes<S, V>(m: Model<S, V>, head: Node<V>, nodes: seq<Node<V>>, ops: seq<Operation<V>>,
                                             levels: seq<Level<S, V>>, j: nat)
    requires Path(m, head, nodes, ops, levels) && j < |levels|
    requires Top(levels).done == Ids(|ops|)
    ensures levels[j].done <= Ids(|ops|) && Completable(m, ops, levels[j].done, levels[j].state)
    decreases |levels| - j
  {
    assert LevelOk(m, head, nodes, ops, levels[j]);
    if j < |levels| - 1 {
      var l := levels[j];
      PathCompletes(m, head, nodes, ops, levels, j + 1);
      assert Descends(m, ops, levels[j + 1 - 1], levels[j + 1]);
      assert CompletableBy(m, ops, l.done, l.state, l.list[l.c].id);
    }
  }

  // ---------------------------------------------------------------- steps

  ghost function Advance<S, V>(levels: seq<Level<S, V>>): (levels': seq<Level<S, V>>)
    requires levels != []
    ensures |levels'| == |levels| && Top(levels') == Top(levels).(c := Top(levels).c + 1)
  {
    levels[|levels| - 1 := Top(levels).(c := Top(levels).c + 1)]
  }

  ghost function Push<S, V>(m: Model<S, V>, ops: seq<Operation<V>>, levels: seq<Level<S, V>>, r: nat): (levels': seq<Level<S, V>>)
    requires levels != [] && Top(levels).c <= r < |Top(levels).list| - 1 && Top(levels).list[Top(levels).c].id < |ops|
    ensures |levels'| == |levels| + 1 && Top(levels').c == 1
    ensures Top(levels').list == Without(Without(Top(levels).list, Top(levels).c), r)
    ensures ConfigOf(Top(levels')) == var id := Top(levels).list[Top(levels).c].id;
                                      Config(Top(levels).done + {id}, After(m, ops, Top(levels).state, id))
  {
    var l := Top(levels);
    var id := l.list[l.c].id;
    levels[|levels| - 1 := l.(r := r)] +
    [Level(Without(Without(l.list, l.c), r), l.done + {id}, After(m, ops, l.state, id), 1, 0)]
  }

  ghost function Pop<S, V>(levels: seq<Level<S, V>>): (levels': seq<Level<S, V>>)
    requires |levels| >= 2
    ensures |levels'| == |levels| - 1
    ensures var l := levels[|levels| - 2]; Top(levels') == l.(c := l.c + 1)
  {
    Advance(levels[..|levels| - 1])
  }

  lemma AdvanceKeeps<S, V>(m: Model<S, V>, head: Node<V>, nodes: seq<Node<V>>, ops: seq<Operation<V>>,
                           levels: seq<Level<S, V>>, seen: set<Config<S>>)
    requires Describes(nodes, ops) && Path(m, head, nodes, ops, levels) && SeenOk(m, ops, levels, seen)
    requires Top(levels).c < |Top(levels).list| && Top(levels).list[Top(levels).c].mate != null
    requires Top(levels).done <= Ids(|ops|)
    requires !CompletableBy(m, ops, Top(levels).done, Top(levels).state, Top(levels).list[Top(levels).c].id)
    ensures Path(m, head, nodes, ops, Advance(levels)) && SeenOk(m, ops, Advance(levels), seen)
  {
    hide LevelOk, Reach, Describes;
    var levels' := Advance(levels);
    AdvanceLevel(m, head, nodes, ops, Top(levels));
    AdvancePath(m, head, nodes, ops, levels);
    forall c | c in seen && OnPath(levels, c)
      ensures OnPath(levels', c)
    {
      var j :| 1 <= j < |levels| && c == ConfigOf(levels[j]);
      assert c == ConfigOf(levels'[j]);
    }
  }

  lemma AdvanceLevel<S, V>(m: Model<S, V>, head: Node<V>, nodes: seq<Node<V>>, ops: seq<Operation<V>>, l: Level<S, V>)
    requires LevelOk(m, head, nodes, ops, l) && l.c < |l.list| && l.list[l.c].mate != null
    requires !CompletableBy(m, ops, l.done, l.state, l.list[l.c].id)
    ensures LevelOk(m, head, nodes, ops, l.(c := l.c + 1))
  {
    hide Covers, CompletableBy;
  }

  lemma AdvancePath<S, V>(m: Model<S, V>, head: Node<V>, nodes: seq<Node<V>>, ops: seq<Operation<V>>, levels: seq<Level<S, V>>)
    requires Path(m, head, nodes, ops, levels) && LevelOk(m, head, nodes, ops, Top(Advance(levels)))
    ensures Path(m, head, nodes, ops, Advance(levels))
  {
    hide LevelOk;
    var levels' := Advance(levels);
    forall j | 0 < j < |levels'|
      ensures Descends(m, ops, levels'[j - 1], levels'[j])
    {
      assert Descends(m, ops, levels[j - 1], levels[j]);
    }
  }

  /** A candidate whose configuration is memoized is dead: that configuration has one more operation
      than the last one on the path, so it is not on the path. */
  lemma SeenIsDead<S, V>(m: Model<S, V>, head: Node<V>, nodes: seq<Node<V>>, ops: seq<Operation<V>>,
                         levels: seq<Level<S, V>>, seen: set<Config<S>>, id: nat)
    requires Path(m, head, nodes, ops, levels) && SeenOk(m, ops, levels, seen)
    requires id < |ops| && id !in Top(levels).done
    requires Config(Top(levels).done + {id}, After(m, ops, Top(levels).state, id)) in seen
    ensures Top(levels).done <= Ids(|ops|) && !CompletableBy(m, ops, Top(levels).done, Top(levels).state, id)
  {
    var l := Top(levels);
    assert LevelOk(m, head, nodes, ops, l);
    var c := Config(l.done + {id}, After(m, ops, l.state, id));
    PathReached(m, head, nodes, ops, levels, |levels| - 1);
    if OnPath(levels, c) {
      var j :| 1 <= j < |levels| && c == ConfigOf(levels[j]);
      PathReached(m, head, nodes, ops, levels, j);
      assert false;
    }
  }

  lemma PushKeeps<S, V>(m: Model<S, V>, head: Node<V>, nodes: seq<Node<V>>, ops: seq<Operation<V>>,
                        levels: seq<Level<S, V>>, seen: set<Config<S>>, r: nat)
    requires Describes(nodes, ops) && Path(m, head, nodes, ops, levels) && SeenOk(m, ops, levels, seen)
    requires var l := Top(levels);
             l.c <= r < |l.list| - 1 && l.list[l.c].mate != null && Without(l.list, l.c)[r] == l.list[l.c].mate &&
             Candidate(m, ops, l.done, l.state, l.list[l.c].id)
    ensures var levels' := Push(m, ops, levels, r);
            Path(m, head, nodes, ops, levels') && SeenOk(m, ops, levels', seen + {ConfigOf(Top(levels'))})
  {
    var l, levels' := Top(levels), Push(m, ops, levels, r);
    var id := l.list[l.c].id;
    assert LevelOk(m, head, nodes, ops, l);
    LiftCovers(l.list, head, nodes, ops, l.done, l.c, r);
    assert LevelOk(m, head, nodes, ops, l.(r := r));
    assert LevelOk(m, head, nodes, ops, Top(levels'));
    PushPath(m, head, nodes, ops, levels, r);
    PushSeen(m, head, nodes, ops, levels, seen, r);
  }

  lemma PushPath<S, V>(m: Model<S, V>, head: Node<V>, nodes: seq<Node<V>>, ops: seq<Operation<V>>, levels: seq<Level<S, V>>, r: nat)
    requires Path(m, head, nodes, ops, levels)
    requires var l := Top(levels);
             l.c <= r < |l.list| - 1 && l.list[l.c].mate != null && Without(l.list, l.c)[r] == l.list[l.c].mate &&
             Candidate(m, ops, l.done, l.state, l.list[l.c].id) && LevelOk(m, head, nodes, ops, l.(r := r))
    requires LevelOk(m, head, nodes, ops, Top(Push(m, ops, levels, r)))
    ensures Path(m, head, nodes, ops, Push(m, ops, levels, r))
  {
    hide LevelOk;
    var levels' := Push(m, ops, levels, r);
    forall j | 0 < j < |levels'|
      ensures Descends(m, ops, levels'[j - 1], levels'[j])
    {
      if j < |levels| {
        assert Descends(m, ops, levels[j - 1], levels[j]);
      }
    }
  }

  lemma PushSeen<S, V>(m: Model<S, V>, head: Node<V>, nodes: seq<Node<V>>, ops: seq<Operation<V>>,
                       levels: seq<Level<S, V>>, seen: set<Config<S>>, r: nat)
    requires SeenOk(m, ops, levels, seen) && levels != []
    requires Top(levels).c <= r < |Top(levels).list| - 1 && Top(levels).list[Top(levels).c].id < |ops|
    requires Path(m, head, nodes, ops, Push(m, ops, levels, r))
    ensures SeenOk(m, ops, Push(m, ops, levels, r), seen + {ConfigOf(Top(Push(m, ops, levels, r)))})
  {
    hide Reach, Push, Completable;
    var levels' := Push(m, ops, levels, r);
    var n := |levels'| - 1;
    assert levels'[n].done <= Ids(|ops|) by { TopFacts(m, head, nodes, ops, levels'); }
    PathReached(m, head, nodes, ops, levels', n);
    SubsetSize(levels'[n].done, Ids(|ops|));
    ReachGrows(m, ops, n, |ops|);
    forall c | c in seen && OnPath(levels, c)
      ensures OnPath(levels', c)
    {
      PushOnPath(m, ops, levels, r, c);
    }
    assert OnPath(levels', ConfigOf(levels'[n]));
  }

  lemma PushOnPath<S, V>(m: Model<S, V>, ops: seq<Operation<V>>, levels: seq<Level<S, V>>, r: nat, c: Config<S>)
    requires levels != [] && Top(levels).c <= r < |Top(levels).list| - 1 && Top(levels).list[Top(levels).c].id < |ops|
    requires OnPath(levels, c)
    ensures OnPath(Push(m, ops, levels, r), c)
  {
    var j :| 1 <= j < |levels| && c == ConfigOf(levels[j]);
    assert c == ConfigOf(Push(m, ops, levels, r)[j]);
  }

  /** Backing out of a configuration whose candidates are exhausted. */
  lemma PopKeeps<S, V>(m: Model<S, V>, head: Node<V>, nodes: seq<Node<V>>, ops: seq<Operation<V>>,
                       levels: seq<Level<S, V>>, seen: set<Config<S>>)
    requires Describes(nodes, ops) && Path(m, head, nodes, ops, levels) && SeenOk(m, ops, levels, seen) && |levels| >= 2
    requires Top(levels).c < |Top(levels).list| && Top(levels).list[Top(levels).c].mate == null
    ensures Path(m, head, nodes, ops, Pop(levels)) && SeenOk(m, ops, Pop(levels), seen)
  {
    var n := |levels| - 1;
    var below := levels[..n];
    var l := levels[n - 1];
    assert LevelOk(m, head, nodes, ops, levels[n]) && LevelOk(m, head, nodes, ops, l);
    ReturnIsDead(m, head, nodes, ops, levels[n]);
    assert Descends(m, ops, levels[n - 1], levels[n]);
    assert Path(m, head, nodes, ops, below);
    assert SeenOk(m, ops, below, seen) by {
      forall c | c in seen
        ensures OnPath(below, c) || !Completable(m, ops, c.done, c.state)
      {
        if OnPath(levels, c) {
          var j :| 1 <= j < |levels| && c == ConfigOf(levels[j]);
          assert j < n ==> c == ConfigOf(below[j]);
        }
      }
    }
    assert !CompletableBy(m, ops, l.done, l.state, l.list[l.c].id);
    AdvanceKeeps(m, head, nodes, ops, below, seen);
  }
}
