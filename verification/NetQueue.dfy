/** The intrusive FIFO of utils.cpp.

    An item carries its own link, and the link doubles as a membership flag: a
    sentinel says that the item is in no queue at all.  Many queues share one
    universe of items (a task queue and the batch stolen from it, a context's
    event queue and its queue of external events), so every operation is stated
    against all the queues of the universe, not only against its receiver. */
module NetQueues {
  import opened Sequences

  datatype Link = NotInQueue | End | To(item: NetQueueItem)
  {
    /** The link read as a pointer, where the list's end is null. */
    function Target(): NetQueueItem? {
      if To? then item else null
    }
  }

  class NetQueueItem {
    var next: Link
    ghost var owner: NetQueue?   // the queue that holds the item, if any

    constructor ()
      ensures next == NotInQueue && owner == null
    {
      next, owner := NotInQueue, null;
    }

    predicate IsInQueue()
      reads this
    {
      next != NotInQueue
    }
  }

  /** The sequence without its occurrences of x. */
  ghost function Without<T>(s: seq<T>, x: T): seq<T> {
    if s == [] then []
    else if s[0] == x then Without(s[1..], x)
    else [s[0]] + Without(s[1..], x)
  }

  lemma {:induction false} WithoutSplit<T>(s: seq<T>, k: nat)
    requires k < |s| && Distinct(s)
    ensures Without(s, s[k]) == Cut(s, k)
  {
    if k == 0 {
      WithoutAbsent(s[1..], s[0]);
    } else {
      WithoutSplit(s[1..], k - 1);
      assert s[..k] + s[k+1..] == [s[0]] + (s[1..][..k-1] + s[1..][k..]);
    }
  }

  lemma {:induction false} WithoutAbsent<T>(s: seq<T>, x: T)
    requires x !in s
    ensures Without(s, x) == s
  {
    if s != [] {
      WithoutAbsent(s[1..], x);
      assert s == [s[0]] + s[1..];
    }
  }

  lemma DistinctJoin<T>(a: seq<T>, b: seq<T>)
    requires Distinct(a) && Distinct(b) && forall x :: x in a ==> x !in b
    ensures Distinct(a + b)
  {
    forall i, j | 0 <= i < j < |a + b| ensures (a + b)[i] != (a + b)[j] {
      if i < |a| <= j {
        assert a[i] in a && b[j - |a|] in b;
      }
    }
  }

  lemma {:induction false} WithoutKeeps<T>(s: seq<T>, x: T)
    ensures forall i :: 0 <= i < |Without(s, x)| ==> Without(s, x)[i] in s && Without(s, x)[i] != x
    ensures forall i :: 0 <= i < |s| && s[i] != x ==> s[i] in Without(s, x)
    ensures Distinct(s) ==> Distinct(Without(s, x))
  {
    if s != [] {
      WithoutKeeps(s[1..], x);
      if Distinct(s) && s[0] != x {
        assert Distinct(s[1..]);
        DistinctJoin([s[0]], Without(s[1..], x));
      }
    }
  }

  ghost function Cut<T>(s: seq<T>, k: nat): (r: seq<T>)
    requires k < |s|
    ensures |r| == |s| - 1
    ensures forall i :: 0 <= i < |r| ==> r[i] == s[if i < k then i else i + 1]
    ensures Distinct(s) ==> Distinct(r)
  {
    s[..k] + s[k+1..]
  }

  ghost function LinkAfter(s: seq<NetQueueItem>, i: nat): Link
    requires i < |s|
  {
    if i + 1 < |s| then To(s[i + 1]) else End
  }

  class NetQueue {
    var head: NetQueueItem?
    var tail: NetQueueItem?
    ghost var items: seq<NetQueueItem>

    /** The pointers form exactly the acyclic list `items`. */
    ghost predicate Valid()
      reads this, items
    {
      && Distinct(items)
      && (items == [] ==> head == null && tail == null)
      && (items != [] ==> head == items[0] && tail == items[|items| - 1])
      && (forall x :: x in items ==> x.owner == this && x.next != NotInQueue)
      && (forall i {:trigger LinkAfter(items, i)} :: 0 <= i < |items| ==> items[i].next == LinkAfter(items, i))
    }

    constructor ()
      ensures Valid() && items == []
    {
      head, tail, items := null, null, [];
    }

    method Empty() returns (r: bool)
      requires Valid()
      ensures r <==> items == []
    {
      r := head == null;
    }

    method Push(item: NetQueueItem)
      requires Valid()
      requires item.IsInQueue() <==> item.owner != null
      modifies this, item, if tail == null then {} else {tail}
      ensures Valid() && item.IsInQueue()
      ensures old(item.IsInQueue()) ==>
                items == old(items) && item.owner == old(item.owner) && item.next == old(item.next)
      ensures !old(item.IsInQueue()) ==> items == old(items) + [item] && item.owner == this
    {
      if item.next != NotInQueue {
        return;
      }
      assert item !in items;
      item.next := End;
      if head == null {
        head := item;
      }
      if tail != null {
        tail.next := To(item);
      }
      tail := item;
      items := items + [item];
      item.owner := this;
      assert forall i :: 0 <= i < |items| - 2 ==> LinkAfter(items, i) == LinkAfter(old(items), i);
    }

    method Pop() returns (r: NetQueueItem?)
      requires Valid()
      modifies this, if head == null then {} else {head}
      ensures Valid()
      ensures old(items) == [] ==> r == null && items == []
      ensures old(items) != [] ==>
                r == old(items)[0] && items == old(items)[1..] && !r.IsInQueue() && r.owner == null
    {
      if head == null {
        return null;
      }
      r := head;
      assert r == items[0] && r.next == LinkAfter(items, 0);
      head := r.next.Target();
      if head == null {
        tail := null;
      }
      r.next := NotInQueue;
      items := items[1..];
      r.owner := null;
      assert forall i :: 0 <= i < |items| ==> LinkAfter(items, i) == LinkAfter(old(items), i + 1);
    }

    method Remove(item: NetQueueItem)
      requires Valid()
      modifies this, items, item
      ensures Valid()
      ensures items == Without(old(items), item)
      ensures item in old(items) ==> !item.IsInQueue() && item.owner == null
      ensures item !in old(items) ==> unchanged(this) && unchanged(old(items)) && unchanged(item)
      ensures forall x :: x in old(items) && x != item ==> x.owner == this
    {
      if item.next == NotInQueue {
          WithoutAbsent(items, item);
        return;
      }
      var prev: NetQueueItem? := null;
      var it := head;
      ghost var k := 0;
      while it != null && it != item
        invariant 0 <= k <= |items|
        invariant it == if k < |items| then items[k] else null
        invariant prev == if k == 0 then null else items[k - 1]
        invariant item !in items[..k]
        decreases |items| - k
      {
        assert it.next == LinkAfter(items, k);
        prev := it;
        it := it.next.Target();
        k := k + 1;
      }
      if it == item {
        WithoutSplit(items, k);
        Unlink(prev, item, k);
      } else {
        WithoutAbsent(items, item);
      }
    }

    /** The body of Remove's scan once it has reached the item, at position k. */
    method Unlink(prev: NetQueueItem?, item: NetQueueItem, ghost k: nat)
      requires Valid() && k < |items| && item == items[k]
      requires prev == if k == 0 then null else items[k - 1]
      modifies this, item, if prev == null then {} else {prev}
      ensures Valid() && items == Cut(old(items), k)
      ensures !item.IsInQueue() && item.owner == null
      ensures prev != null ==> prev.owner == this
    {
      assert item.next == LinkAfter(items, k);
      if head == item {
        head := item.next.Target();
      }
      if tail == item {
        tail := prev;
      }
      if prev != null {
        prev.next := item.next;
      }
      item.next := NotInQueue;
      item.owner := null;
      items := Cut(items, k);
      Unlinked(prev, item, k);
    }

    twostate lemma Unlinked(new prev: NetQueueItem?, new item: NetQueueItem, k: nat)
      requires old(Valid()) && k < old(|items|) && item == old(items)[k] && items == Cut(old(items), k)
      requires prev == if k == 0 then null else old(items)[k - 1]
      requires head == if k == 0 then old(item.next.Target()) else old(head)
      requires tail == if old(tail) == item then prev else old(tail)
      requires prev != null ==> prev.next == old(item.next) && prev.owner == old(prev.owner)
      requires forall x :: x in old(items) && x != item && x != prev ==>
                 x.next == old(x.next) && x.owner == old(x.owner)
      ensures Valid()
    {
      var was := old(items);
      assert old(was[k].next) == LinkAfter(was, k);
      forall i | 0 <= i < |items|
        ensures items[i].owner == this && items[i].next == LinkAfter(items, i) != NotInQueue
      {
        var j := if i < k then i else i + 1;
        assert items[i] == was[j] && was[j] != item && was[j] in was;
        assert old(was[j].next) == LinkAfter(was, j);
        assert was[j] == prev <==> j + 1 == k;
      }
    }

    /** Copy the queue's two pointers into a fresh queue, then reset this one:
        how a worker takes a whole batch of tasks, and a context its external events. */
    method Steal() returns (batch: NetQueue)
      requires Valid()
      modifies this, items`owner
      ensures fresh(batch) && batch.Valid() && Valid()
      ensures batch.items == old(items) && items == []
    {
      batch := new NetQueue();
      batch.head, batch.tail, batch.items := head, tail, items;
      forall x | x in items {
        x.owner := batch;
      }
      head, tail, items := null, null, [];
    }
  }

  /** The same operations among all the queues `all.0` over the items `all.1`. */

  method PushIn(q: NetQueue, item: NetQueueItem, ghost all: (set<NetQueue>, set<NetQueueItem>))
    requires q in all.0 && item in all.1 && Universe(all.0, all.1)
    modifies q, all.1
    ensures Universe(all.0, all.1)
    ensures q.items == if old(item.owner) != null then old(q.items) else old(q.items) + [item]
    ensures forall r :: r in all.0 && r != q ==> r.items == old(r.items)
  {
    assert Placed(all.0, item);
    q.Push(item);
    UniverseKept(all, q, item);
  }

  method PopIn(q: NetQueue, ghost all: (set<NetQueue>, set<NetQueueItem>)) returns (r: NetQueueItem?)
    requires q in all.0 && Universe(all.0, all.1)
    modifies q, all.1
    ensures Universe(all.0, all.1)
    ensures old(q.items) == [] ==> r == null && q.items == []
    ensures old(q.items) != [] ==> r == old(q.items)[0] && q.items == old(q.items)[1..] && r.owner == null
    ensures forall r :: r in all.0 && r != q ==> r.items == old(r.items)
  {
    r := q.Pop();
    if r != null {
      assert old(q.items) == [r] + q.items;
      UniverseKept(all, q, r);
    }
  }

  method RemoveIn(q: NetQueue, item: NetQueueItem, ghost all: (set<NetQueue>, set<NetQueueItem>))
    requires q in all.0 && item in all.1 && Universe(all.0, all.1)
    modifies q, all.1
    ensures Universe(all.0, all.1)
    ensures q.items == Without(old(q.items), item)
    ensures forall r :: r in all.0 && r != q ==> r.items == old(r.items)
  {
    assert Placed(all.0, item);
    q.Remove(item);
    if item !in old(q.items) {
      UniverseSame(all);
    } else {
      WithoutKeeps(old(q.items), item);
      UniverseKept(all, q, item);
    }
  }

  method StealIn(q: NetQueue, ghost all: (set<NetQueue>, set<NetQueueItem>)) returns (batch: NetQueue)
    requires q in all.0 && Universe(all.0, all.1)
    modifies q, all.1
    ensures fresh(batch) && Universe(all.0 + {batch}, all.1)
    ensures batch.items == old(q.items) && q.items == []
    ensures forall r :: r in all.0 && r != q ==> r.items == old(r.items)
  {
    batch := q.Steal();
  }

  /** All queues over one universe of items: every list is well formed, an item
      is in the queue that owns it and in no other, and the sentinel marks
      exactly the items that are in no queue. */
  ghost predicate Universe(qs: set<NetQueue>, universe: set<NetQueueItem>)
    reads qs, universe
  {
    && (forall q, x :: q in qs && x in q.items ==> x in universe)
    && (forall q :: q in qs ==> q.Valid())
    && (forall x :: x in universe ==> Placed(qs, x))
  }

  ghost predicate Placed(qs: set<NetQueue>, x: NetQueueItem)
    reads qs, x
  {
    && (x.next == NotInQueue <==> x.owner == null)
    && (x.owner != null ==> x.owner in qs && x in x.owner.items)
  }

  /** What an operation on queue q with argument `item` leaves alone. */
  twostate predicate Local(qs: set<NetQueue>, universe: set<NetQueueItem>, new q: NetQueue, new item: NetQueueItem)
    requires q in qs && item in universe
    reads qs, universe, q
  {
    && (forall r :: r in qs && r != q ==> r.head == old(r.head) && r.tail == old(r.tail) && r.items == old(r.items))
    && (forall x :: x in universe && x != item && x !in old(q.items) ==>
          x.next == old(x.next) && x.owner == old(x.owner))
    && (forall x :: x in old(q.items) && x != item ==> x in q.items)
    && (forall x :: x in q.items && x != item ==> x in old(q.items))
  }

  twostate lemma OthersStayValid(all: (set<NetQueue>, set<NetQueueItem>), new q: NetQueue, new item: NetQueueItem,
      new r: NetQueue)
    requires q in all.0 && r in all.0 && r != q && item in all.1 && old(Universe(all.0, all.1))
    requires Local(all.0, all.1, q, item)
    requires (item.next == old(item.next) && item.owner == old(item.owner)) || old(item.owner) == null
        || old(item.owner) == q
    ensures r.Valid()
  {
    assert old(r.Valid()) && old(q.Valid());
    forall i | 0 <= i < |r.items|
      ensures r.items[i].owner == r && r.items[i].next == LinkAfter(r.items, i) != NotInQueue
    {
      var x := r.items[i];
      assert x == old(r.items)[i] && old(x.owner) == r && x in all.1;
      assert x !in old(q.items);
    }
  }

  twostate lemma OthersStayPlaced(all: (set<NetQueue>, set<NetQueueItem>), new q: NetQueue, new item: NetQueueItem,
      new x: NetQueueItem)
    requires q in all.0 && item in all.1 && x in all.1 && x != item && old(Universe(all.0, all.1))
    requires q.Valid() && Local(all.0, all.1, q, item)
    ensures Placed(all.0, x)
  {
    assert old(Placed(all.0, x));
    if x in old(q.items) {
      assert x in q.items && old(x.owner) == q;
    } else {
      assert x.owner != q;
    }
  }

  twostate lemma UniverseSame(all: (set<NetQueue>, set<NetQueueItem>))
    requires old(Universe(all.0, all.1))
    requires forall r :: r in all.0 ==> r.head == old(r.head) && r.tail == old(r.tail) && r.items == old(r.items)
    requires forall x :: x in all.1 ==> x.next == old(x.next) && x.owner == old(x.owner)
    ensures Universe(all.0, all.1)
  {
    forall r | r in all.0 ensures r.Valid() {
      assert old(r.Valid());
    }
    forall x | x in all.1 ensures Placed(all.0, x) {
      assert old(Placed(all.0, x));
    }
  }

  /** An operation on one queue keeps the whole universe well formed. */
  twostate lemma UniverseKept(all: (set<NetQueue>, set<NetQueueItem>), new q: NetQueue, new item: NetQueueItem)
    requires q in all.0 && item in all.1 && old(Universe(all.0, all.1))
    requires q.Valid() && Local(all.0, all.1, q, item)
    requires (item.next == old(item.next) && item.owner == old(item.owner)) || old(item.owner) == null
        || old(item.owner) == q
    requires Placed(all.0, item)
    ensures Universe(all.0, all.1)
  {
    forall r | r in all.0 && r != q {
      OthersStayValid(all, q, item, r);
    }
    forall x | x in all.1 && x != item {
      OthersStayPlaced(all, q, item, x);
    }
  }
}
