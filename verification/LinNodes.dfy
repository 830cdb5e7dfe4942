/** The doubly linked entry list of the checker, and the in-place removal and restoration of an
    operation's call and return. */
module LinNodes {
  import opened Common
  import opened LinSpec

  /** A call entry points to its return through `mate`; a return entry has no mate. */
  class Node<V> {
    const value: Option<V>
    const mate: Node?<V>
    const id: nat
    var next: Node?<V>
    var prev: Node?<V>

    constructor (value: Option<V>, mate: Node?<V>, id: nat)
      ensures this.value == value && this.mate == mate && this.id == id
      ensures next == null && prev == null
    {
      this.value, this.mate, this.id := value, mate, id;
      next, prev := null, null;
    }
  }

  /** The nodes are chained in this order, in both directions. */
  ghost predicate Linked<V>(list: seq<Node<V>>)
    reads list
  {
    (forall i {:trigger list[i].next} :: 0 <= i < |list| ==> list[i].next == NodeAt(list, i + 1)) &&
    (forall i {:trigger list[i].prev} :: 0 <= i < |list| ==> list[i].prev == NodeAt(list, i - 1))
  }

  ghost function NodeAt<V>(list: seq<Node<V>>, i: int): Node?<V>
  {
    if 0 <= i < |list| then list[i] else null
  }

  ghost function Without<T>(list: seq<T>, i: nat): seq<T>
    requires i < |list|
  {
    list[..i] + list[i + 1..]
  }

  /** The links of a node that has been taken out of `list`, still aimed at its old neighbours. */
  ghost predicate Dangles<V>(x: Node<V>, list: seq<Node<V>>, i: nat)
    reads x
  {
    i < |list| && list[i] == x && x.next == NodeAt(list, i + 1) && x.prev == NodeAt(list, i - 1)
  }

  /** The state of an operation's two nodes between `Lift` and `Unlift`: the call's links describe
      the full list, the return's links describe the list without the call. */
  ghost predicate Lifted<V>(entry: Node<V>, list: seq<Node<V>>, c: nat, r: nat)
    reads entry, entry.mate
  {
    0 < c <= r < |list| - 1 && entry.mate != null &&
    Dangles(entry, list, c) && Dangles(entry.mate, Without(list, c), r)
  }

  lemma WithoutDistinct<T>(list: seq<T>, i: nat)
    requires i < |list| && Distinct(list)
    ensures Distinct(Without(list, i))
    ensures list[i] !in Without(list, i)
  {
  }

  method InsertBefore<V>(n: Node<V>, mark: Node?<V>, ghost list: seq<Node<V>>, ghost k: nat) returns (r: Node<V>)
    requires Linked(list) && Distinct(list) && n !in list && n.next == null && n.prev == null
    requires k <= |list| && mark == NodeAt(list, k) && (mark == null ==> list == [])
    modifies n, list
    ensures r == n && Linked(list[..k] + [n] + list[k..])
  {
    if mark != null {
      var beforeMark := mark.prev;
      mark.prev := n;
      n.next := mark;
      if beforeMark != null {
        n.prev := beforeMark;
        beforeMark.next := n;
      }
    }
    return n;
  }

  method Length<V>(n: Node?<V>, ghost list: seq<Node<V>>) returns (l: nat)
    requires Linked(list) && n == NodeAt(list, 0)
    ensures l == |list|
  {
    l := 0;
    var x := n;
    while x != null
      invariant l <= |list| && x == NodeAt(list, l)
      decreases |list| - l
    {
      x := x.next;
      l := l + 1;
    }
  }

  /** Bypasses one node; its own links keep aiming at its neighbours. */
  method Unlink<V>(x: Node<V>, ghost list: seq<Node<V>>, ghost i: nat)
    requires Linked(list) && Distinct(list) && 0 < i < |list| && list[i] == x
    modifies Without(list, i)
    ensures Linked(Without(list, i)) && Dangles(x, list, i)
  {
    ghost var rest := Without(list, i);
    WithoutDistinct(list, i);
    assert x.prev == list[i - 1] == rest[i - 1];
    assert i + 1 < |list| ==> x.next == list[i + 1] == rest[i];
    x.prev.next := x.next;
    if x.next != null {
      x.next.prev := x.prev;
    }
    forall j | 0 <= j < |rest|
      ensures rest[j].next == NodeAt(rest, j + 1) && rest[j].prev == NodeAt(rest, j - 1)
    {
      assert rest[j] == if j < i then list[j] else list[j + 1];
    }
  }

  /** Puts back a bypassed node between the neighbours its links aim at. */
  method Relink<V>(x: Node<V>, ghost list: seq<Node<V>>, ghost i: nat)
    requires Distinct(list) && 0 < i && Dangles(x, list, i)
    requires Linked(Without(list, i))
    modifies Without(list, i)
    ensures Linked(list)
  {
    ghost var rest := Without(list, i);
    WithoutDistinct(list, i);
    assert x.prev == list[i - 1] == rest[i - 1];
    assert i + 1 < |list| ==> x.next == list[i + 1] == rest[i];
    x.prev.next := x;
    if x.next != null {
      x.next.prev := x;
    }
    forall j | 0 <= j < |list|
      ensures list[j].next == NodeAt(list, j + 1) && list[j].prev == NodeAt(list, j - 1)
    {
      assert j != i ==> list[j] == rest[if j < i then j else j - 1];
    }
  }

  /** Takes a call and its return out of the list. */
  method Lift<V>(entry: Node<V>, ghost list: seq<Node<V>>, ghost c: nat, ghost r: nat)
    requires Linked(list) && Distinct(list) && 0 < c <= r < |list| - 1
    requires list[c] == entry && entry.mate == Without(list, c)[r]
    modifies list
    ensures Linked(Without(Without(list, c), r))
    ensures Lifted(entry, list, c, r)
  {
    WithoutDistinct(list, c);
    Unlink(entry, list, c);
    Unlink(entry.mate, Without(list, c), r);
  }

  /** Puts back what the matching `Lift` took out, restoring every link. */
  method Unlift<V>(entry: Node<V>, ghost list: seq<Node<V>>, ghost c: nat, ghost r: nat)
    requires Distinct(list) && Lifted(entry, list, c, r)
    requires Linked(Without(Without(list, c), r))
    modifies list
    ensures Linked(list)
  {
    WithoutDistinct(list, c);
    Relink(entry.mate, Without(list, c), r);
    Relink(entry, list, c);
  }
}
