/** The linearizability checker proper: the backtracking search on the linked entry list. */
module LinChecker {
  import opened Common
  import opened FiniteSets
  import opened LinSpec
  import opened LinNodes
  import opened LinBitset
  import opened LinCache
  import opened LinSearch

  const HEAD_ID: nat := 0xFFFF_FFFF_FFFF_FFFF

  datatype CallsEntry<!S, !V> = CallsEntry(entry: Node<V>, state: S)

  /** The undo stack records the operation and the state of every level below the current one. */
  ghost predicate Recorded<S, V>(calls: seq<CallsEntry<S, V>>, levels: seq<Level<S, V>>)
  {
    |levels| == |calls| + 1 &&
    forall j :: 0 <= j < |calls| ==>
      levels[j].c < |levels[j].list| && calls[j] == CallsEntry(levels[j].list[levels[j].c], levels[j].state)
  }

  /** The operations of the levels below are out of the current list. */
  lemma {:induction false} Aside<S, V>(m: Model<S, V>, head: Node<V>, nodes: seq<Node<V>>, ops: seq<Operation<V>>,
                                     levels: seq<Level<S, V>>, j: nat, k: nat)
    requires Describes(nodes, ops) && Path(m, head, nodes, ops, levels) && j < k < |levels|
    ensures var l := levels[j];
            l.c < |l.list| && l.list[l.c].mate != null && l.list[l.c].id in levels[k].done &&
            l.list[l.c] !in levels[k].list && l.list[l.c].mate !in levels[k].list
    decreases k - j
  {
    hide LevelOk;
    var l := levels[j];
    if j + 1 < k {
      Aside(m, head, nodes, ops, levels, j, k - 1);
    }
    assert Descends(m, ops, levels[j + 1 - 1], levels[j + 1]);
    assert Descends(m, ops, levels[k - 1], levels[k]);
    LevelAside(m, head, nodes, ops, l, levels[k]);
  }

  lemma LevelAside<S, V>(m: Model<S, V>, head: Node<V>, nodes: seq<Node<V>>, ops: seq<Operation<V>>, l: Level<S, V>, top: Level<S, V>)
    requires Describes(nodes, ops) && LevelOk(m, head, nodes, ops, l) && LevelOk(m, head, nodes, ops, top)
    requires l.c <= l.r < |l.list| - 1 && l.list[l.c].mate != null && l.list[l.c].mate == Without(l.list, l.c)[l.r]
    requires l.list[l.c].id in top.done
    ensures l.list[l.c] !in top.list && l.list[l.c].mate !in top.list
  {
    hide Describes, DeadBefore;
    SameOperation(nodes, ops, l.list[l.c]);
    assert l.list[l.c].mate == l.list[l.r + 1];
  }

  /** No list below the current one is affected by relinking the nodes of the current one. */
  ghost predicate Parked<S, V>(calls: seq<CallsEntry<S, V>>, levels: seq<Level<S, V>>, k: nat)
    requires |calls| < |levels| && k <= |calls|
    reads set j | 0 <= j < k :: calls[j].entry
    reads set j | 0 <= j < k && calls[j].entry.mate != null :: calls[j].entry.mate
  {
    forall j :: 0 <= j < k ==> Lifted(calls[j].entry, levels[j].list, levels[j].c, levels[j].r)
  }

  lemma AllAside<S, V>(m: Model<S, V>, head: Node<V>, nodes: seq<Node<V>>, ops: seq<Operation<V>>,
                       calls: seq<CallsEntry<S, V>>, levels: seq<Level<S, V>>, k: nat)
    requires Describes(nodes, ops) && Path(m, head, nodes, ops, levels) && Recorded(calls, levels) && k < |levels|
    ensures forall j :: 0 <= j < k ==> calls[j].entry !in levels[k].list && calls[j].entry.mate !in levels[k].list
  {
    hide Path, Describes;
    forall j | 0 <= j < k
      ensures calls[j].entry !in levels[k].list && calls[j].entry.mate !in levels[k].list
    {
      Aside(m, head, nodes, ops, levels, j, k);
    }
  }

  lemma Verdict<S, V(!new)>(m: Model<S, V>, head: Node<V>, nodes: seq<Node<V>>, ops: seq<Operation<V>>, levels: seq<Level<S, V>>)
    requires Describes(nodes, ops) && Path(m, head, nodes, ops, levels)
    ensures |Top(levels).list| == 1 ==> Linearizable(m, ops)
    ensures |levels| == 1 && Top(levels).c < |Top(levels).list| && Top(levels).list[Top(levels).c].mate == null
            ==> !Linearizable(m, ops)
  {
    hide Describes, Linearizable, Completable;
    TopFacts(m, head, nodes, ops, levels);
    DescribedWellTimed(nodes, ops);
    SearchDecides(m, ops);
    if |Top(levels).list| == 1 {
      EmptyIsDone(Top(levels).list, head, nodes, ops, Top(levels).done);
      PathCompletes(m, head, nodes, ops, levels, 0);
    } else if |levels| == 1 && Top(levels).c < |Top(levels).list| && Top(levels).list[Top(levels).c].mate == null {
      ReturnIsDead(m, head, nodes, ops, Top(levels));
    }
  }

  lemma Admissible<S, V>(m: Model<S, V>, ops: seq<Operation<V>>, l: Level<S, V>, id: nat)
    requires id < |ops| && id !in l.done && Minimal(ops, l.done, id) && m.step(l.state, ops[id].input, ops[id].output).0
    ensures Candidate(m, ops, l.done, l.state, id)
  {
  }

  lemma NotAdmissible<S, V>(m: Model<S, V>, ops: seq<Operation<V>>, l: Level<S, V>, id: nat)
    requires id < |ops| && l.done <= Ids(|ops|) && !m.step(l.state, ops[id].input, ops[id].output).0
    ensures !CompletableBy(m, ops, l.done, l.state, id)
  {
  }

  /** Marks the operation as linearized and lifts its entries. */
  method Take<S, V>(entry: Node<V>, linearized: array<bv64>, ghost m: Model<S, V>, ghost head: Node<V>, ghost nodes: seq<Node<V>>,
                    ghost ops: seq<Operation<V>>, ghost calls: seq<CallsEntry<S, V>>, ghost levels: seq<Level<S, V>>, ghost r: nat,
                    ghost cache: Cache<S>, ghost seen: set<Config<S>>)
    requires Holds(cache, linearized.Length, seen) && linearized !in Arrays(cache)
    requires Describes(nodes, ops) && Path(m, head, nodes, ops, levels) && Recorded(calls, levels)
    requires var l := Top(levels);
             0 < l.c <= r < |l.list| - 1 && l.list[l.c] == entry && entry.mate == Without(l.list, l.c)[r] &&
             Distinct(l.list) && Linked(l.list) && entry.id < |ops|
    requires Parked(calls, levels, |calls|) && entry.id < WORD * linearized.Length && Bits(linearized[..]) == Top(levels).done
    modifies linearized, head, nodes
    ensures Holds(cache, linearized.Length, seen)
    ensures var levels' := Push(m, ops, levels, r);
            Linked(Top(levels').list) && head.next == NodeAt(Top(levels').list, 1) && Bits(linearized[..]) == Top(levels').done &&
            Parked(calls + [CallsEntry(entry, Top(levels).state)], levels', |calls| + 1)
  {
    hide Path, Describes, Bits, Linked, Lifted, Holds, LevelOk, Push, Distinct;
    assert forall a :: a in Arrays(cache) ==> allocated(a);
    hide Arrays;
    ghost var l := Top(levels);
    TopFacts(m, head, nodes, ops, levels);
    AllAside(m, head, nodes, ops, calls, levels, |calls|);
    assert forall i :: 0 <= i < |l.list| ==> l.list[i] == head || l.list[i] in nodes;
    Set(linearized, entry.id);
    Lift(entry, l.list, l.c, r);
    Follow(Without(Without(l.list, l.c), r), 0);
    ParkedPush(m, ops, calls, levels, r);
  }

  lemma ParkedPush<S, V>(m: Model<S, V>, ops: seq<Operation<V>>, calls: seq<CallsEntry<S, V>>, levels: seq<Level<S, V>>, r: nat)
    requires Recorded(calls, levels) && Parked(calls, levels, |calls|)
    requires var l := Top(levels);
             l.c <= r < |l.list| - 1 && l.list[l.c].id < |ops| && Lifted(l.list[l.c], l.list, l.c, r)
    ensures Parked(calls + [CallsEntry(Top(levels).list[Top(levels).c], Top(levels).state)], Push(m, ops, levels, r), |calls| + 1)
  {
    hide Lifted;
  }

  /** Undoes the latest `Take`. */
  method PutBack<S, V>(entry: Node<V>, linearized: array<bv64>, ghost m: Model<S, V>, ghost head: Node<V>, ghost nodes: seq<Node<V>>,
                       ghost ops: seq<Operation<V>>, ghost calls: seq<CallsEntry<S, V>>, ghost levels: seq<Level<S, V>>,
                       ghost cache: Cache<S>, ghost seen: set<Config<S>>)
    requires Holds(cache, linearized.Length, seen) && linearized !in Arrays(cache)
    requires Describes(nodes, ops) && Path(m, head, nodes, ops, levels) && Recorded(calls, levels) && calls != []
    requires entry == calls[|calls| - 1].entry && Linked(Top(levels).list) && Parked(calls, levels, |calls|)
    requires |ops| <= WORD * linearized.Length && Bits(linearized[..]) == Top(levels).done
    modifies linearized, head, nodes
    ensures Holds(cache, linearized.Length, seen)
    ensures Linked(Top(Pop(levels)).list) && entry.next == NodeAt(Top(Pop(levels)).list, Top(Pop(levels)).c)
    ensures Bits(linearized[..]) == Top(Pop(levels)).done
    ensures Parked(calls[..|calls| - 1], Pop(levels), |calls| - 1)
  {
    hide Path, Describes, Bits, Linked, Lifted, Holds;
    assert forall a :: a in Arrays(cache) ==> allocated(a);
    ghost var k := |calls| - 1;
    ghost var below := levels[k];
    AllAside(m, head, nodes, ops, calls, levels, k);
    BelowFacts(m, head, nodes, ops, levels);
    assert forall i :: 0 <= i < |below.list| ==> below.list[i] == head || below.list[i] in nodes;
    Clear(linearized, entry.id);
    Unlift(entry, below.list, below.c, below.r);
    Follow(below.list, below.c);
  }

  lemma BelowFacts<S, V>(m: Model<S, V>, head: Node<V>, nodes: seq<Node<V>>, ops: seq<Operation<V>>, levels: seq<Level<S, V>>)
    requires Path(m, head, nodes, ops, levels) && |levels| >= 2
    ensures var l := levels[|levels| - 2];
            (forall x :: x in l.list ==> x == head || x in nodes) && 1 <= l.c &&
            Distinct(l.list) && l.c <= l.r < |l.list| - 1 && Top(levels).list == Without(Without(l.list, l.c), l.r) &&
            l.list[l.c].id < |ops| && l.list[l.c].id !in l.done && Top(levels).done == l.done + {l.list[l.c].id}
  {
    assert LevelOk(m, head, nodes, ops, levels[|levels| - 2]);
    assert Descends(m, ops, levels[|levels| - 2], levels[|levels| - 1]);
  }

  /** Everything the loop maintains: the entry list is the one of the last level, with the operations
      of the undo stack lifted out, the bitset and the state are those of the last level, and the
      memo table holds `seen`. */
  ghost predicate Inv<S, V>(m: Model<S, V>, head: Node<V>, nodes: seq<Node<V>>, ops: seq<Operation<V>>,
                            entry: Node?<V>, state: S, linearized: array<bv64>, cache: Cache<S>,
                            calls: seq<CallsEntry<S, V>>, levels: seq<Level<S, V>>, seen: set<Config<S>>)
    reads *
  {
    Path(m, head, nodes, ops, levels) && SeenOk(m, ops, levels, seen) && Recorded(calls, levels) &&
    Linked(Top(levels).list) && entry == NodeAt(Top(levels).list, Top(levels).c) && state == Top(levels).state &&
    (|Top(levels).list| > 1 ==> entry != null) && Parked(calls, levels, |calls|) &&
    |ops| <= WORD * linearized.Length && Bits(linearized[..]) == Top(levels).done &&
    Holds(cache, linearized.Length, seen) && linearized !in Arrays(cache)
  }

  /** Either a new configuration was memoized, or the entry moved on in the same list. */
  ghost predicate Progress<S, V>(levels: seq<Level<S, V>>, seen: set<Config<S>>, levels': seq<Level<S, V>>, seen': set<Config<S>>)
  {
    levels != [] && levels' != [] &&
    (seen < seen' ||
     (seen' == seen && |levels'| == |levels| && Top(levels') == Top(levels).(c := Top(levels).c + 1) &&
      Top(levels').c <= |Top(levels).list|))
  }

  /** Linearizes the current call next and starts over at the front of the remaining entries. */
  method Descend<S, V(!new)>(m: Model<S, V>, headEntry: Node<V>, entry: Node<V>, newState: S, linearized: array<bv64>,
                           ghost cache': Cache<S>, ghost calls: seq<CallsEntry<S, V>>, ghost nodes: seq<Node<V>>, ghost ops: seq<Operation<V>>,
                           ghost levels: seq<Level<S, V>>, ghost seen: set<Config<S>>, ghost r: nat)
    returns (entry': Node?<V>, ghost levels': seq<Level<S, V>>)
    requires Describes(nodes, ops) && Path(m, headEntry, nodes, ops, levels) && SeenOk(m, ops, levels, seen) && Recorded(calls, levels)
    requires Linked(Top(levels).list) && Parked(calls, levels, |calls|)
    requires |ops| <= WORD * linearized.Length && Bits(linearized[..]) == Top(levels).done && linearized !in Arrays(cache')
    requires var l := Top(levels);
             0 < l.c <= r < |l.list| - 1 && entry == l.list[l.c] && entry.mate != null && Without(l.list, l.c)[r] == entry.mate &&
             Candidate(m, ops, l.done, l.state, entry.id) && newState == After(m, ops, l.state, entry.id) &&
             Holds(cache', linearized.Length, seen + {Config(l.done + {entry.id}, newState)})
    modifies headEntry, nodes, linearized
    ensures var l := Top(levels);
            Inv(m, headEntry, nodes, ops, entry', newState, linearized, cache', calls + [CallsEntry(entry, l.state)],
                levels', seen + {Config(l.done + {entry.id}, newState)})
  {
    hide Path, SeenOk, Holds, Arrays, Bits, LevelOk, Describes, Parked, Distinct, Without, Minimal, Linked, Push;
    ghost var l := Top(levels);
    TopFacts(m, headEntry, nodes, ops, levels);
    PushKeeps(m, headEntry, nodes, ops, levels, seen, r);
    Take(entry, linearized, m, headEntry, nodes, ops, calls, levels, r, cache', seen + {Config(l.done + {entry.id}, newState)});
    RecordPush(m, ops, calls, levels, r);
    levels' := Push(m, ops, levels, r);
    entry' := headEntry.next;
  }

  /** The current entry is a call: linearize it next if the model allows it and the resulting
      configuration is new, otherwise move on. */
  method TryCall<S(==), V(!new)>(m: Model<S, V>, headEntry: Node<V>, entry: Node<V>, state: S, linearized: array<bv64>, cache: Cache<S>,
                               calls: seq<CallsEntry<S, V>>, ghost nodes: seq<Node<V>>, ghost ops: seq<Operation<V>>,
                               ghost levels: seq<Level<S, V>>, ghost seen: set<Config<S>>)
    returns (entry': Node?<V>, state': S, cache': Cache<S>, calls': seq<CallsEntry<S, V>>,
             ghost levels': seq<Level<S, V>>, ghost seen': set<Config<S>>)
    requires Describes(nodes, ops) && Inv(m, headEntry, nodes, ops, entry, state, linearized, cache, calls, levels, seen)
    requires entry.mate != null
    modifies headEntry, nodes, linearized
    ensures Inv(m, headEntry, nodes, ops, entry', state', linearized, cache', calls', levels', seen')
    ensures Progress(levels, seen, levels', seen')
  {
    hide Path, SeenOk, Holds, Arrays, Bits, Reach, CompletableBy, Candidate, LevelOk,
      Describes, Parked, Distinct, Without, Minimal, Linked, Advance, Push;
    ghost var l := Top(levels);
    TopFacts(m, headEntry, nodes, ops, levels);
    ghost var r := CallFacts(m, headEntry, nodes, ops, levels);
    Follow(l.list, l.c);
    var matching := entry.mate;
    var (good, newState) := m.step(state, entry.value.value, matching.value.value);
    if good {
      ghost var config := Config(l.done + {entry.id}, newState);
      var hit;
      assert forall j :: 0 <= j < |calls| ==> allocated(calls[j].entry) && allocated(calls[j].entry.mate);
      hit, cache' := Memoize(cache, linearized, entry.id, newState, seen);
      seen' := seen + {config};
      assert Parked(calls, levels, |calls|);
      assert Linked(l.list);
      if !hit {
        Admissible(m, ops, l, entry.id);
        calls' := calls + [CallsEntry(entry, state)];
        state' := newState;
        entry', levels' := Descend(m, headEntry, entry, newState, linearized, cache', calls, nodes, ops, levels, seen, r);
        return;
      }
      SeenIsDead(m, headEntry, nodes, ops, levels, seen, entry.id);
      assert seen' == seen;
    } else {
      NotAdmissible(m, ops, l, entry.id);
      cache', seen' := cache, seen;
    }
    AdvanceKeeps(m, headEntry, nodes, ops, levels, seen);
    ParkedBelow(calls, levels);
    state', calls' := state, calls;
    levels' := Advance(levels);
    entry' := entry.next;
  }

  /** The current entry is a return: undo the latest operation and go on after its call. */
  method Backtrack<S, V(!new)>(m: Model<S, V>, headEntry: Node<V>, entry: Node<V>, state: S, linearized: array<bv64>,
                             calls: seq<CallsEntry<S, V>>, ghost cache: Cache<S>, ghost nodes: seq<Node<V>>, ghost ops: seq<Operation<V>>,
                             ghost levels: seq<Level<S, V>>, ghost seen: set<Config<S>>)
    returns (entry': Node?<V>, state': S, calls': seq<CallsEntry<S, V>>, ghost levels': seq<Level<S, V>>)
    requires Describes(nodes, ops) && Inv(m, headEntry, nodes, ops, entry, state, linearized, cache, calls, levels, seen)
    requires entry.mate == null && calls != []
    modifies headEntry, nodes, linearized
    ensures Inv(m, headEntry, nodes, ops, entry', state', linearized, cache, calls', levels', seen)
    ensures |calls'| < |calls|
  {
    hide Path, SeenOk, Holds, Arrays, Bits, Reach, CompletableBy, Candidate, LevelOk,
      Describes, Parked, Distinct, Without, Linked, Pop;
    TopFacts(m, headEntry, nodes, ops, levels);
    PopKeeps(m, headEntry, nodes, ops, levels, seen);
    RecordPop(calls, levels);
    BelowFacts(m, headEntry, nodes, ops, levels);
    var callsTop := calls[|calls| - 1];
    state' := callsTop.state;
    PutBack(callsTop.entry, linearized, m, headEntry, nodes, ops, calls, levels, cache, seen);
    calls' := calls[..|calls| - 1];
    levels' := Pop(levels);
    entry' := callsTop.entry.next;
  }

  lemma StepsDown<S, V>(m: Model<S, V>, head: Node<V>, nodes: seq<Node<V>>, ops: seq<Operation<V>>,
                        levels: seq<Level<S, V>>, seen: set<Config<S>>, levels': seq<Level<S, V>>, seen': set<Config<S>>)
    requires Path(m, head, nodes, ops, levels) && SeenOk(m, ops, levels', seen') && Progress(levels, seen, levels', seen')
    ensures Reach(m, ops, |ops|) - seen' < Reach(m, ops, |ops|) - seen ||
            (seen' == seen && |levels'| == |levels| &&
             0 <= |Top(levels').list| - Top(levels').c < |Top(levels).list| - Top(levels).c)
  {
    hide Path, Reach;
    if seen < seen' {
      var c :| c in seen' && c !in seen;
      assert c in Reach(m, ops, |ops|) - seen;
    }
  }

  /** The first looks at the flag all saw it unset. */
  ghost predicate Unset(kill: nat -> bool, looks: nat)
  {
    forall t: nat :: t < looks ==> !kill(t)
  }

  lemma NoLooks(kill: nat -> bool)
    ensures Unset(kill, 0)
  {
  }

  lemma LookedAgain(kill: nat -> bool, looks: nat)
    requires Unset(kill, looks) && !kill(looks)
    ensures Unset(kill, looks + 1)
  {
  }

  lemma NotLooked(kill: nat -> bool, looks: nat)
    requires Unset(kill, looks + 1)
    ensures Unset(kill, looks)
  {
  }

  /** The search loop. It looks at the kill flag once in each iteration; look `t` sees `kill(t)`, and ends the loop
      with false if the flag is set. */
  method Search<S(==), V(!new)>(m: Model<S, V>, headEntry: Node<V>, subhistory: Node?<V>, linearized: array<bv64>, kill: nat -> bool,
                              ghost nodes: seq<Node<V>>, ghost ops: seq<Operation<V>>)
    returns (ok: bool, looks: nat)
    requires Describes(nodes, ops) && Linked([headEntry] + nodes) && headEntry !in nodes && subhistory == NodeAt(nodes, 0)
    requires |ops| <= WORD * linearized.Length && Bits(linearized[..]) == {}
    modifies headEntry, nodes, linearized
    ensures ok ==> Linearizable(m, ops)
    ensures !ok ==> !Linearizable(m, ops) || (looks > 0 && kill(looks - 1))
    ensures Unset(kill, if ok || looks == 0 then looks else looks - 1)
  {
    hide Path, SeenOk, Holds, Arrays, Bits, Reach, Linearizable, LevelOk, Describes, Parked, Distinct, Linked, Progress, Unset;
    var cache: Cache<S> := map[];
    var calls: seq<CallsEntry<S, V>> := [];
    var state := m.init;
    var entry := subhistory;
    looks := 0;
    NoLooks(kill);

    ghost var seen: set<Config<S>> := {};
    ghost var levels := [Level([headEntry] + nodes, {}, m.init, 1, 0)];
    StartPath(m, headEntry, nodes, ops);
    EmptyCache(cache, linearized.Length);
    NothingParked(calls, levels);

    while headEntry.next != null
      invariant Inv(m, headEntry, nodes, ops, entry, state, linearized, cache, calls, levels, seen)
      invariant Unset(kill, looks)
      decreases Reach(m, ops, |ops|) - seen, |calls|, |Top(levels).list| - Top(levels).c
    {
      TopFacts(m, headEntry, nodes, ops, levels);
      Follow(Top(levels).list, 0);
      looks := looks + 1;
      if kill(looks - 1) {
        return false, looks;
      }
      LookedAgain(kill, looks - 1);
      if entry.mate != null {
        ghost var levels0, seen0 := levels, seen;
        entry, state, cache, calls, levels, seen :=
          TryCall(m, headEntry, entry, state, linearized, cache, calls, nodes, ops, levels, seen);
        StepsDown(m, headEntry, nodes, ops, levels0, seen0, levels, seen);
      } else {
        if |calls| == 0 {
          Verdict(m, headEntry, nodes, ops, levels);
          NotLooked(kill, looks - 1);
          return false, looks;
        }
        entry, state, calls, levels := Backtrack(m, headEntry, entry, state, linearized, calls, cache, nodes, ops, levels, seen);
      }
    }
    TopFacts(m, headEntry, nodes, ops, levels);
    Follow(Top(levels).list, 0);
    Verdict(m, headEntry, nodes, ops, levels);
    return true, looks;
  }

  lemma ParkedBelow<S, V>(calls: seq<CallsEntry<S, V>>, levels: seq<Level<S, V>>)
    requires Recorded(calls, levels) && Parked(calls, levels, |calls|)
    ensures Parked(calls, Advance(levels), |calls|) && Recorded(calls, Advance(levels))
  {
  }

  lemma RecordPush<S, V>(m: Model<S, V>, ops: seq<Operation<V>>, calls: seq<CallsEntry<S, V>>, levels: seq<Level<S, V>>, r: nat)
    requires Recorded(calls, levels)
    requires Top(levels).c <= r < |Top(levels).list| - 1 && Top(levels).list[Top(levels).c].id < |ops|
    ensures Recorded(calls + [CallsEntry(Top(levels).list[Top(levels).c], Top(levels).state)], Push(m, ops, levels, r))
  {
  }

  lemma RecordPop<S, V>(calls: seq<CallsEntry<S, V>>, levels: seq<Level<S, V>>)
    requires Recorded(calls, levels) && calls != []
    ensures var l := levels[|levels| - 2];
            l.c < |l.list| && calls[|calls| - 1] == CallsEntry(l.list[l.c], l.state)
    ensures Recorded(calls[..|calls| - 1], Pop(levels))
  {
  }

  lemma Follow<V>(list: seq<Node<V>>, i: nat)
    requires Linked(list) && i < |list|
    ensures list[i].next == NodeAt(list, i + 1)
  {
  }

  lemma NothingParked<S, V>(calls: seq<CallsEntry<S, V>>, levels: seq<Level<S, V>>)
    requires calls == [] && levels != []
    ensures Parked(calls, levels, 0)
  {
  }

  /** Decides whether the history spelled by the list starting at `subhistory` is linearizable. */
  method CheckSingle<S(==), V(!new)>(m: Model<S, V>, subhistory: Node?<V>, kill: nat -> bool,
                                   ghost nodes: seq<Node<V>>, ghost ops: seq<Operation<V>>)
    returns (ok: bool, looks: nat)
    requires Describes(nodes, ops) && Linked(nodes) && subhistory == NodeAt(nodes, 0)
    modifies nodes
    ensures ok ==> Linearizable(m, ops)
    ensures !ok ==> !Linearizable(m, ops) || (looks > 0 && kill(looks - 1))
    ensures Unset(kill, if ok || looks == 0 then looks else looks - 1)
  {
    var length := Length(subhistory, nodes);
    var linearized := NewBitset(length / 2);
    var head := new Node<V>(None, null, HEAD_ID);
    var headEntry := InsertBefore(head, subhistory, nodes, 0);
    assert nodes[..0] + [head] + nodes[0..] == [head] + nodes;
    ok, looks := Search(m, headEntry, subhistory, linearized, kill, nodes, ops);
  }
}
