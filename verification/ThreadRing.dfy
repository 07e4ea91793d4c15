/**
  The scheduler's lists as the driver keeps them: nodes linked forwards and
  backwards in a circle through a sentinel. Each operation relinks a few pointers;
  what it does to the list as a sequence is proved.
*/
module ThreadRing {
  import opened Words
  import opened SchedState

  class Node {
    var flink: Node?
    var blink: Node?
    var item: Thread

    constructor (item: Thread)
      ensures this.item == item && flink == null && blink == null
    {
      this.item := item;
      flink, blink := null, null;
    }
  }

  /** The circle: the sentinel at position 0 and again at the end, the list between. */
  ghost function On(head: Node, nodes: seq<Node>, k: nat): Node
    requires k < |nodes| + 2
  {
    if k == 0 || k == |nodes| + 1 then head else nodes[k - 1]
  }

  ghost predicate Apart(head: Node, nodes: seq<Node>) {
    head !in nodes && forall i, j :: 0 <= i < j < |nodes| ==> nodes[i] != nodes[j]
  }

  /** Every node once, each linked to its neighbours on the circle. */
  ghost predicate Linked(head: Node, nodes: seq<Node>)
    reads head, nodes
  {
    && Apart(head, nodes)
    && (forall k: nat :: k <= |nodes| ==> On(head, nodes, k).flink == On(head, nodes, k + 1))
    && (forall k: nat :: 1 <= k <= |nodes| + 1 ==> On(head, nodes, k).blink == On(head, nodes, k - 1))
  }

  ghost function Items(nodes: seq<Node>): (s: seq<Thread>)
    reads nodes`item
    ensures |s| == |nodes|
  {
    if nodes == [] then [] else Items(nodes[..|nodes| - 1]) + [nodes[|nodes| - 1].item]
  }

  lemma {:induction false} ItemAt(nodes: seq<Node>, k: nat)
    requires k < |nodes|
    ensures Items(nodes)[k] == nodes[k].item
  {
    if k < |nodes| - 1 {
      ItemAt(nodes[..|nodes| - 1], k);
    }
  }

  lemma ItemsInsert(nodes: seq<Node>, k: nat, t: Node)
    requires k <= |nodes|
    ensures Items(InsertAt(nodes, k, t)) == InsertAt(Items(nodes), k, t.item)
  {
    hide Items, InsertAt;
    var r := InsertAt(nodes, k, t);
    forall i | 0 <= i < |r|
      ensures Items(r)[i] == InsertAt(Items(nodes), k, t.item)[i]
    {
      ItemAt(r, i);
      if i < k { ItemAt(nodes, i); }
      if i > k { ItemAt(nodes, i - 1); }
    }
  }

  lemma ItemsRemove(nodes: seq<Node>, k: nat)
    requires k < |nodes|
    ensures Items(RemoveAt(nodes, k)) == RemoveAt(Items(nodes), k)
  {
    hide Items, RemoveAt;
    var r := RemoveAt(nodes, k);
    forall i | 0 <= i < |r|
      ensures Items(r)[i] == RemoveAt(Items(nodes), k)[i]
    {
      ItemAt(r, i);
      ItemAt(nodes, if i < k then i else i + 1);
    }
  }

  lemma Neighbours(head: Node, nodes: seq<Node>, k: nat)
    requires Linked(head, nodes) && k <= |nodes|
    ensures On(head, nodes, k).flink == On(head, nodes, k + 1)
    ensures On(head, nodes, k + 1).blink == On(head, nodes, k)
    ensures On(head, nodes, k + 1) == head <==> k == |nodes|
  {
  }

  lemma InsertMembers<T>(s: seq<T>, k: nat, x: T)
    requires k <= |s|
    ensures forall y :: y in InsertAt(s, k, x) <==> y in s || y == x
    ensures multiset(InsertAt(s, k, x)) == multiset(s) + multiset{x}
  {
    assert s == s[..k] + s[k..];
  }

  lemma RemoveMembers<T>(s: seq<T>, k: nat)
    requires k < |s|
    ensures forall y :: y in RemoveAt(s, k) ==> y in s
    ensures multiset(RemoveAt(s, k)) + multiset{s[k]} == multiset(s)
  {
    assert s == s[..k] + [s[k]] + s[k + 1..];
  }

  /** `list_insert_before`: `at` is at position `k + 1` of the circle, `before` is its neighbour. */
  method InsertBefore(head: Node, ghost nodes: seq<Node>, before: Node, at: Node, t: Node, ghost k: nat)
    requires Linked(head, nodes) && k <= |nodes| && t != head && t !in nodes
    requires before == On(head, nodes, k) && at == On(head, nodes, k + 1)
    modifies before`flink, at`blink, t`flink, t`blink
    ensures Linked(head, InsertAt(nodes, k, t))
  {
    hide InsertAt;
    t.flink := at;
    t.blink := before;
    before.flink := t;
    at.blink := t;
    assert forall i: nat :: i <= |nodes| && i != k ==> On(head, nodes, i).flink == On(head, nodes, i + 1);
    assert forall i: nat :: 1 <= i <= |nodes| + 1 && i != k + 1 ==> On(head, nodes, i).blink == On(head, nodes, i - 1);
    Spliced(head, nodes, t, k);
  }

  lemma Spliced(head: Node, nodes: seq<Node>, t: Node, k: nat)
    requires Apart(head, nodes) && k <= |nodes| && t != head && t !in nodes
    requires forall i: nat :: i <= |nodes| && i != k ==> On(head, nodes, i).flink == On(head, nodes, i + 1)
    requires forall i: nat :: 1 <= i <= |nodes| + 1 && i != k + 1 ==> On(head, nodes, i).blink == On(head, nodes, i - 1)
    requires On(head, nodes, k).flink == t && t.blink == On(head, nodes, k)
    requires On(head, nodes, k + 1).blink == t && t.flink == On(head, nodes, k + 1)
    ensures Linked(head, InsertAt(nodes, k, t))
  {
    InsertMembers(nodes, k, t);
    hide InsertAt;
    var r := InsertAt(nodes, k, t);
    assert Apart(head, r);
    assert forall i: nat {:trigger On(head, r, i)} :: i < |r| + 2 ==>
        On(head, r, i) == if i <= k then On(head, nodes, i) else if i == k + 1 then t else On(head, nodes, i - 1);
    hide On, Apart;
    forall i: nat | i <= |r|
      ensures On(head, r, i).flink == On(head, r, i + 1)
      ensures On(head, r, i + 1).blink == On(head, r, i)
    {
      if i < k {
        assert On(head, nodes, i + 1).blink == On(head, nodes, i);
      } else if i > k + 1 {
        assert On(head, nodes, i).blink == On(head, nodes, i - 1);
      }
    }
    assert forall i: nat :: 1 <= i <= |r| + 1 ==> On(head, r, i).blink == On(head, r, (i - 1) + 0);
  }

  /** `list_unlink`: `t` is at position `k + 1` of the circle, between its neighbours. */
  method Unlink(head: Node, ghost nodes: seq<Node>, before: Node, t: Node, after: Node, ghost k: nat)
    requires Linked(head, nodes) && k < |nodes| && t == nodes[k]
    requires before == On(head, nodes, k) && after == On(head, nodes, k + 2)
    modifies before`flink, after`blink, t`flink, t`blink
    ensures Linked(head, RemoveAt(nodes, k)) && t.flink == null && t.blink == null
  {
    hide RemoveAt;
    before.flink := after;
    after.blink := before;
    t.flink, t.blink := null, null;
    assert forall i: nat :: i <= |nodes| && i != k && i != k + 1 ==> On(head, nodes, i).flink == On(head, nodes, i + 1);
    assert forall i: nat :: 1 <= i <= |nodes| + 1 && i != k + 1 && i != k + 2 ==>
        On(head, nodes, i).blink == On(head, nodes, i - 1);
    Parted(head, nodes, k);
  }

  lemma Parted(head: Node, nodes: seq<Node>, k: nat)
    requires Apart(head, nodes) && k < |nodes|
    requires forall i: nat :: i <= |nodes| && i != k && i != k + 1 ==>
                 On(head, nodes, i).flink == On(head, nodes, i + 1)
    requires forall i: nat :: 1 <= i <= |nodes| + 1 && i != k + 1 && i != k + 2 ==>
                 On(head, nodes, i).blink == On(head, nodes, i - 1)
    requires On(head, nodes, k).flink == On(head, nodes, k + 2) && On(head, nodes, k + 2).blink == On(head, nodes, k)
    ensures Linked(head, RemoveAt(nodes, k)) && nodes[k] !in RemoveAt(nodes, k)
  {
    RemoveMembers(nodes, k);
    hide RemoveAt;
    var r := RemoveAt(nodes, k);
    assert Apart(head, r);
    assert forall i: nat {:trigger On(head, r, i)} :: i < |r| + 2 ==>
        On(head, r, i) == if i <= k then On(head, nodes, i) else On(head, nodes, i + 1);
    hide On, Apart;
    forall i: nat | i <= |r|
      ensures On(head, r, i).flink == On(head, r, i + 1)
      ensures On(head, r, i + 1).blink == On(head, r, i)
    {
      if i < k {
        assert On(head, nodes, i + 1).blink == On(head, nodes, i);
      } else if i > k {
        assert On(head, nodes, i + 2).blink == On(head, nodes, i + 1);
      }
    }
    assert forall i: nat :: 1 <= i <= |r| + 1 ==> On(head, r, i).blink == On(head, r, (i - 1) + 0);
  }

  lemma Gone<T>(s: seq<T>, k: nat)
    requires k < |s| && forall i, j :: 0 <= i < j < |s| ==> s[i] != s[j]
    ensures s[k] !in RemoveAt(s, k)
  {
  }

  /** One list of threads. */
  class Ring {
    const head: Node
    ghost var nodes: seq<Node>

    ghost predicate Valid()
      reads this, head, nodes
    {
      Linked(head, nodes)
    }

    /** `list_init`. */
    constructor (sentinel: Thread)
      ensures Valid() && nodes == [] && fresh(head)
    {
      var h := new Node(sentinel);
      head := h;
      nodes := [];
      new;
      head.flink := head;
      head.blink := head;
    }

    /** `list_empty`. */
    method IsEmpty() returns (empty: bool)
      requires Valid()
      ensures empty <==> nodes == []
    {
      Neighbours(head, nodes, 0);
      empty := head.flink == head;
    }

    /** Walk to the first thread due strictly later, or round to the sentinel. */
    method Scan(wake: u64) returns (at: Node, ghost k: nat)
      requires Valid()
      ensures k == Position(Items(nodes), wake) && at == On(head, nodes, k + 1)
    {
      hide Linked, Items, Position;
      k := 0;
      Neighbours(head, nodes, 0);
      at := head.flink;
      PositionFrom(Items(nodes), wake, 0);
      while at != head && wake >= at.item.wake
        invariant k <= |nodes| && at == On(head, nodes, k + 1) && (at == head <==> k == |nodes|)
        invariant Position(Items(nodes), wake) == k + Position(Items(nodes)[k..], wake)
        decreases |nodes| - k
        modifies {}
      {
        ItemAt(nodes, k);
        PositionFrom(Items(nodes), wake, k);
        Neighbours(head, nodes, k + 1);
        at := at.flink;
        k := k + 1;
      }
      PositionFrom(Items(nodes), wake, k);
      if k < |nodes| {
        ItemAt(nodes, k);
      }
    }

    /** Link a node in before the first thread due strictly later. */
    method Insert(t: Node)
      requires Valid() && t != head && t !in nodes
      modifies this`nodes, head, t, nodes
      ensures Valid() && multiset(nodes) == multiset(old(nodes)) + multiset{t}
      ensures Items(nodes) == InsertAt(old(Items(nodes)), Position(old(Items(nodes)), t.item.wake), t.item)
      ensures t.item == old(t.item)
    {
      hide Linked, Items, Position, InsertAt;
      var at, k := Scan(t.item.wake);
      Neighbours(head, nodes, k);
      InsertBefore(head, nodes, at.blink, at, t, k);
      ItemsInsert(nodes, k, t);
      InsertMembers(nodes, k, t);
      nodes := InsertAt(nodes, k, t);
    }

    /** `core_sched_queue`, on the list that stands for the host's ready sequence. */
    method Enqueue(ghost h: Host, t: Node, stamp: nat)
      requires Valid() && t != head && t !in nodes
      requires Items(nodes) == h.ready && stamp == h.stamp
      modifies this`nodes, head, t, nodes
      ensures Valid() && multiset(nodes) == multiset(old(nodes)) + multiset{t}
      ensures Items(nodes) == Queue(h, old(t.item)).ready
    {
      hide Linked, Items, Position, InsertAt;
      t.item := t.item.(stamp := stamp);
      assert Items(nodes) == h.ready;
      Insert(t);
    }

    /** `find_thread`. */
    method Find(id: nat) returns (t: Node?)
      requires Valid()
      ensures var k := FindThread(Items(nodes), id);
              if k == |nodes| then t == null else t == nodes[k]
    {
      hide Linked, Items, FindThread;
      ghost var k := 0;
      Neighbours(head, nodes, 0);
      var at := head.flink;
      FindFrom(Items(nodes), id, 0);
      while at != head && at.item.id != id
        invariant k <= |nodes| && at == On(head, nodes, k + 1) && (at == head <==> k == |nodes|)
        invariant FindThread(Items(nodes), id) == k + FindThread(Items(nodes)[k..], id)
        decreases |nodes| - k
        modifies {}
      {
        ItemAt(nodes, k);
        FindFrom(Items(nodes), id, k);
        Neighbours(head, nodes, k + 1);
        at := at.flink;
        k := k + 1;
      }
      FindFrom(Items(nodes), id, k);
      if k < |nodes| {
        ItemAt(nodes, k);
      }
      t := if at == head then null else at;
    }

    /** Unlink the node at position `k` of the list. */
    method Remove(t: Node, ghost k: nat)
      requires Valid() && k < |nodes| && nodes[k] == t
      modifies this`nodes, head, nodes
      ensures Valid() && nodes == RemoveAt(old(nodes), k) && t !in nodes && t != head
      ensures Items(nodes) == RemoveAt(old(Items(nodes)), k) && t.item == old(t.item)
      ensures multiset(nodes) + multiset{t} == multiset(old(nodes))
    {
      Neighbours(head, nodes, k);
      Neighbours(head, nodes, k + 1);
      Gone(nodes, k);
      hide Linked, Items, RemoveAt;
      Unlink(head, nodes, t.blink, t, t.flink, k);
      ItemsRemove(nodes, k);
      RemoveMembers(nodes, k);
      nodes := RemoveAt(nodes, k);
    }

    /** `thread_release`: insert at the head. */
    method PushFront(t: Node)
      requires Valid() && t != head && t !in nodes
      modifies this`nodes, head, t, nodes
      ensures Valid() && nodes == [t] + old(nodes) && Items(nodes) == [t.item] + old(Items(nodes))
      ensures t.item == old(t.item)
    {
      hide Linked, Items, InsertAt;
      Neighbours(head, nodes, 0);
      var at := head.flink;
      InsertBefore(head, nodes, at.blink, at, t, 0);
      ItemsInsert(nodes, 0, t);
      Fronted(nodes, t);
      Fronted(Items(nodes), t.item);
      nodes := InsertAt(nodes, 0, t);
    }

    lemma Fronted<T>(s: seq<T>, x: T)
      ensures InsertAt(s, 0, x) == [x] + s
      ensures s != [] ==> RemoveAt(s, 0) == s[1..]
    {
    }

    /** Take the first node off the list. */
    method PopFront() returns (t: Node)
      requires Valid() && nodes != []
      modifies this`nodes, head, nodes
      ensures Valid() && t == old(nodes[0]) && nodes == old(nodes)[1..] && Items(nodes) == old(Items(nodes))[1..]
      ensures t.item == old(t.item) && t.item == old(Items(nodes))[0] && t !in nodes && t != head
    {
      hide Linked, Items, RemoveAt;
      Neighbours(head, nodes, 0);
      t := head.flink;
      Fronted(nodes, head);
      Fronted(Items(nodes), t.item);
      ItemAt(nodes, 0);
      Remove(t, 0);
    }

    /** `free_list`: unlink the nodes one by one, head first, and release each. */
    method FreeAll() returns (released: seq<Thread>)
      requires Valid()
      modifies this`nodes, head, nodes
      ensures Valid() && nodes == [] && released == old(Items(nodes))
    {
      hide Linked, Items, Valid;
      released := [];
      var empty := IsEmpty();
      ghost var done := 0;
      while !empty
        invariant Valid() && (empty <==> nodes == [])
        invariant done <= |old(nodes)| && nodes == old(nodes)[done..] && Items(nodes) == old(Items(nodes))[done..]
        invariant released == old(Items(nodes))[..done]
        decreases |nodes|
      {
        var t := PopFront();
        released := released + [t.item];
        done := done + 1;
        empty := IsEmpty();
      }
    }
  }
}
