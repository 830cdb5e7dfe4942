/** What the checker decides: sequential models, operation histories and linearizability, and the
    recursive form of linearizability that a backtracking search explores. */
module LinSpec {
  import opened Common
  import opened FiniteSets

  /** A sequential object. `step(state, input, output)` says whether the object could answer `input`
      with `output` in `state`, and gives the state that follows. Values of any kind are `V`. */
  datatype Model<!S, !V> = Model(init: S, step: (S, V, V) -> (bool, S))

  datatype Operation<V> = Operation(input: V, call: int, output: V, ret: int)

  /** Executing the operations one after the other from `s` gives exactly their outputs. */
  ghost predicate Legal<S, V>(m: Model<S, V>, s: S, order: seq<Operation<V>>)
  {
    order == [] ||
    (m.step(s, order[0].input, order[0].output).0 &&
     Legal(m, m.step(s, order[0].input, order[0].output).1, order[1..]))
  }

  /** No operation is placed before one that had returned when it was called. */
  ghost predicate RespectsRealTime<V>(order: seq<Operation<V>>)
  {
    forall i, j :: 0 <= i < j < |order| ==> !(order[j].ret < order[i].call)
  }

  function Elements<T>(s: seq<T>): set<T>
  {
    set x | x in s
  }

  /** `order` lists every operation of the pool once, legally from `s` and respecting real time. */
  ghost predicate Linearizes<S, V>(m: Model<S, V>, s: S, order: seq<Operation<V>>, pool: set<Operation<V>>)
  {
    Distinct(order) && Elements(order) == pool && RespectsRealTime(order) && Legal(m, s, order)
  }

  /** Some total order of the history's operations is legal and respects real time. */
  ghost predicate Linearizable<S, V(!new)>(m: Model<S, V>, history: seq<Operation<V>>)
  {
    exists order :: Linearizes(m, m.init, order, Elements(history))
  }

  ghost predicate WellTimed<V>(history: seq<Operation<V>>)
  {
    Distinct(history) && forall i :: 0 <= i < |history| ==> history[i].call < history[i].ret
  }

  // ---------------------------------------------------------------- the search space

  /** No operation outside `done` returned before `id` was called. */
  ghost predicate Minimal<V>(ops: seq<Operation<V>>, done: set<nat>, id: nat)
    requires id < |ops|
  {
    forall x: nat :: x < |ops| && x !in done ==> ops[id].call <= ops[x].ret
  }

  ghost predicate Candidate<S, V>(m: Model<S, V>, ops: seq<Operation<V>>, done: set<nat>, s: S, id: nat)
  {
    id < |ops| && id !in done && Minimal(ops, done, id) && m.step(s, ops[id].input, ops[id].output).0
  }

  function After<S, V>(m: Model<S, V>, ops: seq<Operation<V>>, s: S, id: nat): S
    requires id < |ops|
  {
    m.step(s, ops[id].input, ops[id].output).1
  }

  /** The operations outside `done` can be executed to the end from state `s`, each time picking one
      that no remaining operation precedes. */
  ghost predicate Completable<S, V>(m: Model<S, V>, ops: seq<Operation<V>>, done: set<nat>, s: S)
    requires done <= Ids(|ops|)
    decreases Ids(|ops|) - done
  {
    done == Ids(|ops|) || exists id: nat :: CompletableBy(m, ops, done, s, id)
  }

  ghost predicate CompletableBy<S, V>(m: Model<S, V>, ops: seq<Operation<V>>, done: set<nat>, s: S, id: nat)
    requires done <= Ids(|ops|)
    decreases Ids(|ops|) - done, 0
  {
    Candidate(m, ops, done, s, id) &&
    (assert id in Ids(|ops|) - done; Completable(m, ops, done + {id}, After(m, ops, s, id)))
  }

  // ---------------------------------------------------------------- search space and orders agree

  /** The operations whose ids are outside `done`. */
  ghost function Rest<V>(ops: seq<Operation<V>>, done: set<nat>): set<Operation<V>>
  {
    set id: nat | id < |ops| && id !in done :: ops[id]
  }

  lemma RestWithout<V>(ops: seq<Operation<V>>, done: set<nat>, id: nat)
    requires Distinct(ops) && id < |ops| && id !in done
    ensures Rest(ops, done) == Rest(ops, done + {id}) + {ops[id]}
    ensures ops[id] !in Rest(ops, done + {id})
  {
    forall op | op in Rest(ops, done)
      ensures op in Rest(ops, done + {id}) + {ops[id]}
    {
      var x: nat :| x < |ops| && x !in done && ops[x] == op;
      assert x == id || ops[x] in Rest(ops, done + {id});
    }
  }

  lemma LegalCons<S, V>(m: Model<S, V>, ops: seq<Operation<V>>, done: set<nat>, s: S, id: nat, tail: seq<Operation<V>>)
    requires WellTimed(ops) && id < |ops| && id !in done
    requires Linearizes(m, After(m, ops, s, id), tail, Rest(ops, done + {id}))
    requires Candidate(m, ops, done, s, id)
    ensures Linearizes(m, s, [ops[id]] + tail, Rest(ops, done))
  {
    var order := [ops[id]] + tail;
    assert order[1..] == tail;
    RestWithout(ops, done, id);
    assert Elements(order) == {ops[id]} + Elements(tail);
    forall j | 0 <= j < |tail|
      ensures tail[j] != ops[id] && !(tail[j].ret < ops[id].call)
    {
      assert tail[j] in Elements(tail);
    }
  }

  lemma {:induction false} CompletableGivesOrder<S, V>(m: Model<S, V>, ops: seq<Operation<V>>, done: set<nat>, s: S)
    returns (order: seq<Operation<V>>)
    requires WellTimed(ops) && done <= Ids(|ops|) && Completable(m, ops, done, s)
    ensures Linearizes(m, s, order, Rest(ops, done))
    decreases Ids(|ops|) - done
  {
    if done == Ids(|ops|) {
      order := [];
    } else {
      var id: nat :| CompletableBy(m, ops, done, s, id);
      assert id in Ids(|ops|) - done;
      var tail := CompletableGivesOrder(m, ops, done + {id}, After(m, ops, s, id));
      LegalCons(m, ops, done, s, id, tail);
      order := [ops[id]] + tail;
    }
  }

  lemma FirstIsCandidate<S, V>(m: Model<S, V>, ops: seq<Operation<V>>, done: set<nat>, s: S, order: seq<Operation<V>>)
    returns (id: nat)
    requires WellTimed(ops) && order != [] && Linearizes(m, s, order, Rest(ops, done))
    ensures Candidate(m, ops, done, s, id)
    ensures Linearizes(m, After(m, ops, s, id), order[1..], Rest(ops, done + {id}))
  {
    var op, tail := order[0], order[1..];
    assert op in Elements(order);
    id :| id < |ops| && id !in done && ops[id] == op;
    forall x: nat | x < |ops| && x !in done
      ensures ops[id].call <= ops[x].ret
    {
      assert ops[x] in Rest(ops, done);
      assert ops[x] in order;
    }
    RestWithout(ops, done, id);
    assert forall o :: o in order <==> o == op || o in tail;
    assert op !in tail;
  }

  lemma {:induction false} OrderGivesCompletable<S, V>(m: Model<S, V>, ops: seq<Operation<V>>, done: set<nat>, s: S,
                                                     order: seq<Operation<V>>)
    requires WellTimed(ops) && done <= Ids(|ops|) && Linearizes(m, s, order, Rest(ops, done))
    ensures Completable(m, ops, done, s)
    decreases |order|
  {
    if order != [] {
      var id := FirstIsCandidate(m, ops, done, s, order);
      OrderGivesCompletable(m, ops, done + {id}, After(m, ops, s, id), order[1..]);
      assert CompletableBy(m, ops, done, s, id);
    } else {
      forall id: nat | id < |ops| ensures id in done {
        if id !in done {
          RestWithout(ops, done, id);
          assert false;
        }
      }
      assert done == Ids(|ops|);
    }
  }

  /** The recursive search succeeds from the start exactly on the linearizable histories. */
  lemma SearchDecides<S, V(!new)>(m: Model<S, V>, ops: seq<Operation<V>>)
    requires WellTimed(ops)
    ensures Completable(m, ops, {}, m.init) <==> Linearizable(m, ops)
  {
    assert Rest(ops, {}) == Elements(ops) by {
      forall op | op in ops ensures op in Rest(ops, {}) {
        var id :| 0 <= id < |ops| && ops[id] == op;
      }
    }
    if Completable(m, ops, {}, m.init) {
      var order := CompletableGivesOrder(m, ops, {}, m.init);
    }
    if Linearizable(m, ops) {
      var order :| Linearizes(m, m.init, order, Elements(ops));
      OrderGivesCompletable(m, ops, {}, m.init, order);
    }
  }
}
