/** One clock timer shared by all unacknowledged packets: a list of deadlines, of which the first is armed. */
module RdtTimer {
  import opened Common
  import opened RdtBase

  datatype Record = Record(key: nat, endT: real)

  ghost predicate Sorted(rs: seq<Record>)
  {
    forall i, j :: 0 <= i < j < |rs| ==> rs[i].endT <= rs[j].endT
  }

  ghost predicate DistinctKeys(rs: seq<Record>)
  {
    forall i, j :: 0 <= i < j < |rs| ==> rs[i].key != rs[j].key
  }

  function KeysOf(rs: seq<Record>): set<nat>
  {
    set r | r in rs :: r.key
  }

  lemma KeyAt(rs: seq<Record>, key: nat) returns (i: nat)
    requires key in KeysOf(rs)
    ensures i < |rs| && rs[i].key == key
  {
    var r :| r in rs && r.key == key;
    i :| 0 <= i < |rs| && rs[i] == r;
  }

  lemma NoneWith(rs: seq<Record>, key: nat)
    requires forall j :: 0 <= j < |rs| ==> rs[j].key != key
    ensures KeysOf(rs) - {key} == KeysOf(rs) && forall r :: r in rs ==> r.key != key
  {
  }

  lemma {:induction false} KeyCount(rs: seq<Record>)
    requires DistinctKeys(rs)
    ensures |KeysOf(rs)| == |rs|
  {
    if rs != [] {
      var last := rs[|rs| - 1];
      var front := rs[..|rs| - 1];
      KeyCount(front);
      assert KeysOf(rs) == KeysOf(front) + {last.key};
      if last.key in KeysOf(front) {
        var i := KeyAt(front, last.key);
        assert false;
      }
    }
  }

  function Inserted<T>(s: seq<T>, i: nat, x: T): (r: seq<T>)
    requires i <= |s|
    ensures |r| == |s| + 1
  {
    s[..i] + [x] + s[i..]
  }

  function Removed<T>(s: seq<T>, i: nat): (r: seq<T>)
    requires i < |s|
    ensures |r| == |s| - 1
  {
    s[..i] + s[i + 1..]
  }

  lemma OnlyNew<T>(s: seq<T>, i: nat, x: T)
    requires i <= |s|
    ensures forall y :: y in Inserted(s, i, x) ==> y in s || y == x
  {
  }

  lemma OnlyFewer<T>(s: seq<T>, i: nat)
    requires i < |s|
    ensures forall y :: y in Removed(s, i) ==> y in s
  {
  }

  /** Where a deadline goes: before the first that is not earlier. */
  lemma InsertAt(rs: seq<Record>, i: nat, r: Record)
    requires i <= |rs| && Sorted(rs) && DistinctKeys(rs) && r.key !in KeysOf(rs)
    requires (forall j :: 0 <= j < i ==> rs[j].endT < r.endT) && (i < |rs| ==> r.endT <= rs[i].endT)
    ensures var rs' := Inserted(rs, i, r);
            Sorted(rs') && DistinctKeys(rs') && KeysOf(rs') == KeysOf(rs) + {r.key} && forall x :: x in rs' <==> x in rs || x == r
  {
    var rs' := Inserted(rs, i, r);
    InsertSorted(rs, i, r);
    forall j | 0 <= j < |rs|
      ensures rs[j].key != r.key
    {
      assert rs[j] in rs;
    }
    assert DistinctKeys(rs');
    hide Sorted, DistinctKeys;
    assert forall x :: x in rs' <==> x in rs || x == r by {
      assert rs == rs[..i] + rs[i..];
    }
  }

  lemma InsertSorted(rs: seq<Record>, i: nat, r: Record)
    requires i <= |rs| && Sorted(rs)
    requires (forall j :: 0 <= j < i ==> rs[j].endT < r.endT) && (i < |rs| ==> r.endT <= rs[i].endT)
    ensures Sorted(Inserted(rs, i, r))
  {
  }

  lemma RemoveAt(rs: seq<Record>, i: nat)
    requires i < |rs| && Sorted(rs) && DistinctKeys(rs)
    ensures var rs' := Removed(rs, i);
            Sorted(rs') && DistinctKeys(rs') && KeysOf(rs') == KeysOf(rs) - {rs[i].key} && (i > 0 ==> rs'[0] == rs[0]) &&
            forall x :: x in rs' <==> x in rs && x.key != rs[i].key
  {
    var rs' := Removed(rs, i);
    assert Sorted(rs') && DistinctKeys(rs');
    hide Sorted, DistinctKeys;
    RemoveMembers(rs, i);
    assert rs[i] in rs;
  }

  lemma RemoveMembers(rs: seq<Record>, i: nat)
    requires i < |rs| && DistinctKeys(rs)
    ensures forall x :: x in Removed(rs, i) <==> x in rs && x.key != rs[i].key
  {
    var rs' := Removed(rs, i);
    forall x | x in rs'
      ensures x in rs && x.key != rs[i].key
    {
      var j :| 0 <= j < |rs'| && rs'[j] == x;
      assert x == rs[if j < i then j else j + 1];
    }
    assert rs == rs[..i] + [rs[i]] + rs[i + 1..];
  }

  /** A link of the list of deadlines. */
  class RecordNode {
    const record: Record
    var next: RecordNode?

    constructor (record: Record)
      ensures this.record == record && next == null
    {
      this.record := record;
      next := null;
    }
  }

  /** The node before place `i`, and the one at it. */
  ghost function Before(head: RecordNode, nodes: seq<RecordNode>, i: nat): RecordNode
    requires i <= |nodes|
  {
    if i == 0 then head else nodes[i - 1]
  }

  ghost function At(nodes: seq<RecordNode>, i: nat): RecordNode?
  {
    if i < |nodes| then nodes[i] else null
  }

  ghost predicate Linked(head: RecordNode, nodes: seq<RecordNode>)
    reads head, nodes
  {
    head !in nodes && Distinct(nodes) && forall i: nat :: i <= |nodes| ==> Before(head, nodes, i).next == At(nodes, i)
  }

  ghost predicate Carries(nodes: seq<RecordNode>, records: seq<Record>)
  {
    |nodes| == |records| && forall i :: 0 <= i < |nodes| ==> nodes[i].record == records[i]
  }

  lemma CarriesInsert(nodes: seq<RecordNode>, records: seq<Record>, i: nat, node: RecordNode)
    requires Carries(nodes, records) && i <= |nodes|
    ensures Carries(Inserted(nodes, i, node), Inserted(records, i, node.record))
  {
  }

  lemma CarriesRemove(nodes: seq<RecordNode>, records: seq<Record>, i: nat)
    requires Carries(nodes, records) && i < |nodes|
    ensures Carries(Removed(nodes, i), Removed(records, i))
  {
  }

  /** Where the list ends after an insertion or a removal. */
  lemma LastAfterInsert(head: RecordNode, nodes: seq<RecordNode>, i: nat, node: RecordNode)
    requires Linked(head, nodes) && i <= |nodes|
    ensures Before(head, nodes, i) == Before(head, nodes, |nodes|) <==> i == |nodes|
    ensures Before(head, Inserted(nodes, i, node), |nodes| + 1) == if i == |nodes| then node else Before(head, nodes, |nodes|)
  {
  }

  lemma LastAfterRemove(head: RecordNode, nodes: seq<RecordNode>, i: nat)
    requires Linked(head, nodes) && i < |nodes|
    ensures nodes[i] == Before(head, nodes, |nodes|) <==> i + 1 == |nodes|
    ensures Before(head, Removed(nodes, i), |nodes| - 1) ==
            if i + 1 == |nodes| then Before(head, nodes, i) else Before(head, nodes, |nodes|)
  {
  }

  lemma Follow(head: RecordNode, nodes: seq<RecordNode>, i: nat)
    requires Linked(head, nodes) && i <= |nodes|
    ensures Before(head, nodes, i).next == At(nodes, i) && Before(head, nodes, 0) == head
    ensures At(nodes, i) == null <==> i == |nodes|
    ensures i < |nodes| ==> At(nodes, i) == nodes[i] == Before(head, nodes, i + 1)
  {
  }

  /** Links a new node between `p` and its successor. */
  method InsertAfter(head: RecordNode, p: RecordNode, node: RecordNode, ghost nodes: seq<RecordNode>, ghost i: nat)
    requires Linked(head, nodes) && i <= |nodes| && p == Before(head, nodes, i) && node !in nodes && node != head
    modifies p, node
    ensures Linked(head, Inserted(nodes, i, node))
  {
    ghost var nodes' := Inserted(nodes, i, node);
    var next := p.next;
    p.next := node;
    node.next := next;
    assert Distinct(nodes') && head !in nodes';
    forall j: nat | j <= |nodes'|
      ensures Before(head, nodes', j).next == At(nodes', j)
    {
      if j < i {
        assert Before(head, nodes', j) == Before(head, nodes, j) && At(nodes', j) == At(nodes, j);
      } else if j > i + 1 {
        assert Before(head, nodes', j) == Before(head, nodes, j - 1) && At(nodes', j) == At(nodes, j - 1);
      }
    }
  }

  /** Unlinks the successor of `p`. */
  method RemoveAfter(head: RecordNode, p: RecordNode, r: RecordNode, ghost nodes: seq<RecordNode>, ghost i: nat)
    requires Linked(head, nodes) && i < |nodes| && p == Before(head, nodes, i) && r == nodes[i]
    modifies p
    ensures Linked(head, Removed(nodes, i))
  {
    ghost var nodes' := Removed(nodes, i);
    assert r == Before(head, nodes, i + 1);
    p.next := r.next;
    assert Distinct(nodes') && head !in nodes';
    forall j: nat | j <= |nodes'|
      ensures Before(head, nodes', j).next == At(nodes', j)
    {
      if j <= i {
        assert Before(head, nodes', j) == Before(head, nodes, j);
      } else {
        assert Before(head, nodes', j) == Before(head, nodes, j + 1) && At(nodes', j) == At(nodes, j + 1);
      }
    }
  }

  class VirtualTimer {
    const maxTimers: nat
    const head: RecordNode
    var timerN: nat
    var tail: RecordNode
    /** When the clock will call back; starting it again replaces the previous time. */
    var armed: Option<real>

    /** The links after the head, and the deadlines in them. */
    ghost var nodes: seq<RecordNode>
    ghost var records: seq<Record>
    ghost var repr: set<RecordNode>

    /** The list is well formed: linked from the head, the tail is its last node, and it is counted. */
    ghost predicate Formed()
      reads this, repr
    {
      head in repr && (forall n :: n in nodes ==> n in repr) &&
      Linked(head, nodes) && tail == Before(head, nodes, |nodes|) && timerN == |nodes| && Carries(nodes, records)
    }

    ghost predicate Ordered()
      reads this, repr
    {
      Formed() && Sorted(records) && DistinctKeys(records) && |records| <= maxTimers
    }

    /** The clock is armed for the earliest deadline, and only if there is one. */
    ghost predicate Valid()
      reads this, repr
    {
      Ordered() && armed == if records == [] then None else Some(records[0].endT)
    }

    constructor (maxTimers: nat)
      ensures Valid() && this.maxTimers == maxTimers && records == [] && fresh(repr)
    {
      this.maxTimers := maxTimers;
      var h := new RecordNode(Record(0, 0.0));
      head, tail := h, h;
      timerN, armed := 0, None;
      nodes, records, repr := [], [], {h};
    }

    /** The first node whose deadline is not before `endT`, and the one before it. */
    method FindPlace(endT: real) returns (p: RecordNode, r: RecordNode?, ghost i: nat)
      requires Formed()
      ensures i <= |records| == |nodes| && p == Before(head, nodes, i) && r == At(nodes, i) && (p == head || p in nodes)
      ensures (forall j :: 0 <= j < i ==> records[j].endT < endT) && (i < |records| ==> endT <= records[i].endT)
    {
      hide Before, At;
      i := 0;
      Follow(head, nodes, 0);
      p, r := head, head.next;
      while r != null && r.record.endT < endT
        invariant i <= |nodes| && p == Before(head, nodes, i) && r == At(nodes, i) && (p == head || p in nodes)
        invariant forall j :: 0 <= j < i ==> records[j].endT < endT
        decreases |nodes| - i
      {
        Follow(head, nodes, i);
        Follow(head, nodes, i + 1);
        p, r := r, r.next;
        i := i + 1;
      }
      Follow(head, nodes, i);
    }

    /** The node with this key, if there is one, and the one before it. */
    method FindKey(key: nat) returns (p: RecordNode, r: RecordNode?, ghost i: nat)
      requires Formed()
      ensures i <= |records| == |nodes| && p == Before(head, nodes, i) && r == At(nodes, i) && (p == head || p in nodes)
      ensures (forall j :: 0 <= j < i ==> records[j].key != key) && (i < |records| ==> records[i].key == key)
    {
      hide Before, At;
      i := 0;
      Follow(head, nodes, 0);
      p, r := head, head.next;
      while r != null && r.record.key != key
        invariant i <= |nodes| && p == Before(head, nodes, i) && r == At(nodes, i) && (p == head || p in nodes)
        invariant forall j :: 0 <= j < i ==> records[j].key != key
        decreases |nodes| - i
      {
        Follow(head, nodes, i);
        Follow(head, nodes, i + 1);
        p, r := r, r.next;
        i := i + 1;
      }
      Follow(head, nodes, i);
    }

    method Start(key: nat, time: real, now: real)
      requires Ordered() && key !in KeysOf(records) && |records| < maxTimers
      modifies this, repr
      ensures Valid() && KeysOf(records) == old(KeysOf(records)) + {key}
      ensures forall r :: r in records <==> r in old(records) || r == Record(key, now + time)
      ensures fresh(repr - old(repr))
    {
      hide Sorted, DistinctKeys, KeysOf, Before, At, Linked, Carries, Inserted, Removed;
      var endT := now + time;
      var newR := new RecordNode(Record(key, endT));
      var p, r, i := FindPlace(endT);
      InsertAt(records, i, newR.record);
      Link(p, newR, i);
      FirstDeadline();
      armed := Some(now + (head.next.record.endT - now));
    }

    /** Puts a new node at place `i`, after `p`, into the list. */
    method Link(p: RecordNode, node: RecordNode, ghost i: nat)
      requires Formed() && i <= |nodes| == |records| && p == Before(head, nodes, i) && (p == head || p in nodes)
      requires node !in nodes && node != head
      modifies this`timerN, this`tail, this`nodes, this`records, this`repr, p, node
      ensures Formed() && records == Inserted(old(records), i, node.record) && nodes == Inserted(old(nodes), i, node)
      ensures repr == old(repr) + {node}
    {
      hide Before, At, Linked, Carries, Inserted;
      CarriesInsert(nodes, records, i, node);
      LastAfterInsert(head, nodes, i, node);
      OnlyNew(nodes, i, node);
      timerN := timerN + 1;
      InsertAfter(head, p, node, nodes, i);
      if p == tail {
        tail := node;
      }
      nodes, records := Inserted(nodes, i, node), Inserted(records, i, node.record);
      repr := repr + {node};
    }

    /** The node at place `i`, if there is one. */
    lemma Found(r: RecordNode?, i: nat)
      requires Formed() && i <= |records| == |nodes| && r == At(nodes, i)
      ensures r == null <==> i == |records|
      ensures i < |records| ==> r == nodes[i] && r.record == records[i] && (r == head.next <==> i == 0)
    {
      FirstDeadline();
    }

    lemma FirstDeadline()
      requires Formed()
      ensures |nodes| == |records| && head.next == At(nodes, 0) && (records == [] <==> head.next == null)
      ensures records == [] <==> head == tail
      ensures records != [] ==> head.next == nodes[0] && nodes[0].record == records[0]
    {
      Follow(head, nodes, 0);
      if records != [] {
        LastAfterInsert(head, nodes, 0, head);
      }
    }

    /** Takes the node at place `i`, after `p`, out of the list. */
    method Unlink(p: RecordNode, r: RecordNode, ghost i: nat)
      requires Formed() && i < |nodes| == |records| && p == Before(head, nodes, i) && r == nodes[i] && (p == head || p in nodes)
      modifies this`timerN, this`tail, this`nodes, this`records, p
      ensures Formed() && records == Removed(old(records), i) && nodes == Removed(old(nodes), i)
    {
      hide Before, At, Linked, Carries, Removed;
      CarriesRemove(nodes, records, i);
      LastAfterRemove(head, nodes, i);
      OnlyFewer(nodes, i);
      RemoveAfter(head, p, r, nodes, i);
      timerN := timerN - 1;
      if r == tail {
        tail := p;
      }
      nodes, records := Removed(nodes, i), Removed(records, i);
    }

    /** Removes the deadline of `key`, if there is one. */
    method End(key: nat, now: real)
      requires Valid()
      modifies this, repr
      ensures Valid() && KeysOf(records) == old(KeysOf(records)) - {key}
      ensures (forall r :: r in records <==> r in old(records) && r.key != key) && repr == old(repr)
    {
      hide Sorted, DistinctKeys, KeysOf, Before, At, Linked, Carries, Inserted, Removed;
      var p, r, i := FindKey(key);
      Found(r, i);
      if r == null {
        NoneWith(records, key);
        return;
      }
      RemoveAt(records, i);
      var endHead := r == head.next;
      Unlink(p, r, i);
      FirstDeadline();
      if endHead {
        if head.next != null {
          armed := Some(now + (head.next.record.endT - now));
        } else {
          armed := None;
        }
      }
    }

    /** The clock has fired: takes out the earliest deadline. */
    method Fire() returns (key: nat)
      requires Valid() && records != []
      modifies this, repr
      ensures Ordered() && key == old(records[0].key) && key in old(KeysOf(records))
      ensures KeysOf(records) == old(KeysOf(records)) - {key} && records == old(records[1..]) && repr == old(repr)
    {
      FirstDeadline();
      assert records[0] in records;
      RemoveAt(records, 0);
      var r := head.next;
      key := r.record.key;
      Unlink(head, r, 0);
      armed := None;
    }

    /** After the expired packet has been dealt with, the clock is set for the next deadline. */
    method Rearm(now: real)
      requires Ordered()
      modifies this`armed
      ensures Valid()
    {
      FirstDeadline();
      if head == tail {
        armed := None;
      } else {
        armed := Some(now + (head.next.record.endT - now));
      }
    }
  }
}
