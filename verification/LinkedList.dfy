/** The doubly linked list with pooled nodes (kit/utils/linked_list.go). */
module LinkedList {

  /** A value of type `any`. */
  datatype Any = Nil | Of(value: int)

  const INT32_MIN: int := -0x8000_0000
  const INT32_MAX: int := 0x7fff_ffff

  /** 32-bit two's complement wrap-around. */
  function Wrap(n: int): (r: int)
    ensures INT32_MIN <= n <= INT32_MAX ==> r == n
    ensures INT32_MIN <= r <= INT32_MAX && (r - n) % 0x1_0000_0000 == 0
  {
    (n - INT32_MIN) % 0x1_0000_0000 + INT32_MIN
  }

  lemma WrapPred(n: int)
    ensures Wrap(Wrap(n) - 1) == Wrap(n - 1)
  {
  }

  lemma WrapSucc(n: int)
    ensures Wrap(Wrap(n) + 1) == Wrap(n + 1)
  {
  }

  class Node {
    var next: Node?
    var prev: Node?
    var data: Any

    constructor ()
      ensures next == null && prev == null && data == Nil
    {
      next, prev, data := null, null, Nil;
    }
  }

  /** The pool of released nodes, shared by all lists. */
  class NodePool {
    var free: set<Node>

    constructor ()
      ensures free == {}
    {
      free := {};
    }

    /** Released nodes are blank. */
    ghost predicate Valid()
      reads this, free
    {
      forall n :: n in free ==> n.next == null && n.prev == null && n.data == Nil
    }

    /** A released node or a new one; which, and which released one, is not determined. */
    method Acquire() returns (n: Node)
      requires Valid()
      modifies this
      ensures Valid() && free == old(free) - {n} && (n in old(free) || fresh(n))
      ensures n.next == null && n.prev == null && n.data == Nil
    {
      if * {
        n := new Node();
      } else if free == {} {
        n := new Node();
      } else {
        n :| n in free;
        free := free - {n};
      }
    }

    method Release(n: Node)
      requires Valid()
      modifies this, n
      ensures Valid() && free == old(free) + {n}
    {
      n.next, n.prev, n.data := null, null, Nil;
      free := free + {n};
    }
  }

  /** What Get and RemoveAt do: come back, with a node or nil, or follow a nil node. */
  datatype Found = Panic | At(node: Node?)

  class LinkedList {
    const pool: NodePool
    var head: Node?
    var tail: Node?
    var size: int
    ghost var nodes: seq<Node>     // the nodes from head to tail
    ghost var contents: seq<Any>   // their data

    /** The links of the nodes `ns` are mutually inverse and lead from head to tail and back. */
    ghost predicate Linked(ns: seq<Node>)
      reads this`head, this`tail, ns`next, ns`prev
    {
      && (forall i, j :: 0 <= i < j < |ns| ==> ns[i] != ns[j])
      && head == (if ns == [] then null else ns[0])
      && tail == (if ns == [] then null else ns[|ns| - 1])
      && (forall i {:trigger ns[i].next} :: 0 <= i < |ns| ==> ns[i].next == if i + 1 < |ns| then ns[i + 1] else null)
      && (forall i {:trigger ns[i].prev} :: 0 <= i < |ns| ==> ns[i].prev == if i > 0 then ns[i - 1] else null)
    }

    /** The list consists of the nodes `ns`, and its size is their number, in 32 bits. */
    ghost predicate Chain(ns: seq<Node>)
      reads this`head, this`tail, this`size, ns`next, ns`prev
    {
      Linked(ns) && size == Wrap(|ns|)
    }

    /** The list consists of `nodes`, which hold `contents`. */
    ghost predicate Holds()
      reads this, nodes
    {
      && Chain(nodes)
      && DataOf(nodes, contents)
    }

    static ghost predicate DataOf(ns: seq<Node>, data: seq<Any>)
      reads ns`data
    {
      |data| == |ns| && forall i :: 0 <= i < |ns| ==> ns[i].data == data[i]
    }

    /** The list is a chain of nodes none of which is in the pool. */
    ghost predicate Valid()
      reads this, nodes, pool, pool.free
    {
      && Holds()
      && pool.Valid()
      && forall n :: n in nodes ==> n !in pool.free
    }

    constructor (pool: NodePool)
      requires pool.Valid()
      ensures Valid() && this.pool == pool && contents == []
    {
      this.pool := pool;
      head, tail, size, nodes, contents := null, null, 0, [], [];
    }

    /** The list and the pool share out only nodes they had, and new ones: other lists on the
        same pool are not touched. */
    twostate predicate OwnNodesOnly()
      reads this, pool
    {
      && (forall n :: n in nodes ==> n in old(nodes) || n in old(pool.free) || fresh(n))
      && (forall n :: n in pool.free ==> n in old(nodes) || n in old(pool.free))
    }

    method Append(data: Any)
      requires Valid()
      modifies this, nodes, pool, pool.free
      ensures Valid() && contents == old(contents) + [data]
      ensures OwnNodesOnly()
    {
      var n := pool.Acquire();
      n.data := data;
      LinkLast(n);
    }

    /** Hangs a blank node behind the tail. */
    method LinkLast(n: Node)
      requires Holds() && n !in nodes && n.next == null && n.prev == null
      modifies this, nodes`next, n`prev
      ensures Holds() && nodes == old(nodes) + [n] && contents == old(contents) + [n.data]
    {
      size := Wrap(size + 1);
      if tail == null {
        tail, head := n, n;
      } else {
        var o := tail;
        tail := n;
        tail.prev := o;
        o.next := tail;
      }
      WrapSucc(|nodes|);
      ghost var more := nodes + [n];
      assert forall i {:trigger more[i]} :: 0 <= i < |nodes| ==> more[i] == nodes[i];
      assert Linked(more);
      nodes, contents := more, contents + [n.data];
    }

    method Prepend(data: Any)
      requires Valid()
      modifies this, nodes, pool, pool.free
      ensures Valid() && contents == [data] + old(contents)
      ensures OwnNodesOnly()
    {
      var n := pool.Acquire();
      n.data := data;
      LinkFirst(n);
    }

    /** Hangs a blank node before the head. */
    method LinkFirst(n: Node)
      requires Holds() && n !in nodes && n.next == null && n.prev == null
      modifies this, nodes`prev, n`next
      ensures Holds() && nodes == [n] + old(nodes) && contents == [n.data] + old(contents)
    {
      size := Wrap(size + 1);
      if head == null {
        tail, head := n, n;
      } else {
        var o := head;
        head := n;
        head.next := o;
        o.prev := head;
      }
      WrapSucc(|nodes|);
      ghost var more := [n] + nodes;
      assert forall i {:trigger more[i]} :: 0 < i < |more| ==> more[i] == nodes[i - 1];
      assert Linked(more);
      nodes, contents := more, [n.data] + contents;
    }

    /** Takes the first element; an empty list yields nil. */
    method PickHeadData() returns (data: Any)
      requires Valid()
      modifies this, nodes, pool, pool.free
      ensures Valid() && OwnNodesOnly()
      ensures old(contents) == [] ==> data == Nil && contents == []
      ensures old(contents) != [] ==> [data] + contents == old(contents)
      ensures old(contents) != [] ==> nodes == old(nodes)[1..] && pool.free == old(pool.free) + {old(nodes)[0]}
    {
      if head == null {
        return Nil;
      }
      var n := head;
      UnlinkFirst();
      data := n.data;
      pool.Release(n);
    }

    /** Moves the head to the second node. */
    method UnlinkFirst()
      requires Holds() && nodes != []
      modifies this, nodes`prev
      ensures Holds() && nodes == old(nodes)[1..] && contents == old(contents)[1..]
    {
      if head.next != null {
        head := head.next;
        head.prev := null;
      } else {
        head, tail := null, null;
      }
      size := Wrap(size - 1);
      WrapPred(|nodes|);
      ghost var rest := nodes[1..];
      assert forall i {:trigger rest[i]} :: 0 <= i < |rest| ==> rest[i] == nodes[i + 1];
      assert Linked(rest);
      nodes, contents := rest, contents[1..];
    }

    /** Takes the last element; an empty list yields nil. */
    method PickTailData() returns (data: Any)
      requires Valid()
      modifies this, nodes, pool, pool.free
      ensures Valid() && OwnNodesOnly()
      ensures old(contents) == [] ==> data == Nil && contents == []
      ensures old(contents) != [] ==> contents + [data] == old(contents)
      ensures old(contents) != [] ==> nodes == old(nodes)[..|old(nodes)| - 1]
      ensures old(contents) != [] ==> pool.free == old(pool.free) + {old(nodes)[|old(nodes)| - 1]}
    {
      if tail == null {
        return Nil;
      }
      var n := tail;
      UnlinkLast();
      data := n.data;
      pool.Release(n);
    }

    /** Takes the last node off the list. */
    method UnlinkLast()
      requires Holds() && nodes != []
      modifies this, nodes`next
      ensures Holds() && nodes == old(nodes)[..|old(nodes)| - 1] && contents == old(contents)[..|old(contents)| - 1]
    {
      DropTail();
      size := Wrap(size - 1);
      WrapPred(|nodes|);
      nodes, contents := nodes[..|nodes| - 1], contents[..|contents| - 1];
    }

    /** Moves the tail to the last but one node. */
    method DropTail()
      requires Linked(nodes) && nodes != []
      modifies this`head, this`tail, nodes`next
      ensures Linked(nodes[..|nodes| - 1])
    {
      if tail.prev != null {
        tail := tail.prev;
        tail.next := null;
      } else {
        head, tail := null, null;
      }
      ghost var rest := nodes[..|nodes| - 1];
      assert forall i {:trigger rest[i]} :: 0 <= i < |rest| ==> rest[i] == nodes[i];
    }

    /** The node `k` links away from an end of a chain of `n` nodes, `k` past the chain's end
        being nil and anything further a nil dereference. */
    ghost function Walk(ns: seq<Node>, fromHead: bool, index: int): Found
    {
      var k := if index > 0 then index else 0;
      if k < |ns| then At(if fromHead then ns[k] else ns[|ns| - 1 - k])
      else if k == |ns| then At(null)
      else Panic
    }

    /** The node at an index. The test on the doubled size makes this a walk from the head for
        all indices of lists shorter than 2^30, and a walk from the tail otherwise. */
    method Get(index: int) returns (r: Found)
      requires Valid() && INT32_MIN <= index <= INT32_MAX
      ensures r == Walk(nodes, index < Wrap(2 * size), index)
      ensures 0 <= index < |nodes| < 0x4000_0000 ==> r == At(nodes[index])
    {
      var n, i;
      if index < Wrap(2 * size) {
        n, i := head, index;
        while i > 0
          invariant index >= 0 ==> 0 <= i <= index && index - i <= |nodes|
          invariant index < 0 ==> i == index
          invariant n == if nodes == [] || (i >= 0 && index - i >= |nodes|) then null
                         else nodes[if i < 0 then 0 else index - i]
        {
          if n == null {
            return Panic;
          }
          n := n.next;
          i := i - 1;
        }
      } else {
        n, i := tail, index;
        while i > 0
          invariant index >= 0 ==> 0 <= i <= index && index - i <= |nodes|
          invariant index < 0 ==> i == index
          invariant n == if nodes == [] || (i >= 0 && index - i >= |nodes|) then null
                         else nodes[|nodes| - 1 - if i < 0 then 0 else index - i]
        {
          if n == null {
            return Panic;
          }
          n := n.prev;
          i := i - 1;
        }
      }
      return At(n);
    }

    /** Unlinks the node Get finds. Strictly between the ends that deletes exactly its element;
        at an end, where head or tail still points to the node, it leaves no list at all. */
    method RemoveAt(index: int) returns (panicked: bool, ghost j: int)
      requires Valid() && INT32_MIN <= index <= INT32_MAX
      modifies this`size, this`nodes, this`contents, nodes`next, nodes`prev
      ensures panicked <==> old(Walk(nodes, index < Wrap(2 * size), index)) in {Panic, At(null)}
      ensures panicked ==> Valid() && nodes == old(nodes)
      ensures !panicked ==> 0 <= j < |old(nodes)| && At(old(nodes)[j]) == old(Walk(nodes, index < Wrap(2 * size), index))
      ensures !panicked && |old(nodes)| < 0x4000_0000 && index >= 0 ==> j == index
      ensures !panicked && 0 < j < |old(nodes)| - 1 ==>
                Valid() && nodes == old(nodes)[..j] + old(nodes)[j + 1..] && contents == old(contents)[..j] + old(contents)[j + 1..]
      ensures !panicked && (j == 0 || j == |old(nodes)| - 1) ==> forall ns: seq<Node> :: !Chain(ns)
    {
      var r;
      r, j := Find(index);
      if r == Panic || r.node == null {
        return true, j;
      }
      Unlink(r.node, j);
      return false, j;
    }

    /** What Get finds, and where in the list it is. */
    method Find(index: int) returns (r: Found, ghost j: int)
      requires Valid() && INT32_MIN <= index <= INT32_MAX
      ensures r == Walk(nodes, index < Wrap(2 * size), index)
      ensures r.At? && r.node != null ==> 0 <= j < |nodes| && r.node == nodes[j]
      ensures r.At? && r.node != null && |nodes| < 0x4000_0000 && index >= 0 ==> j == index
    {
      GetFromHead(|nodes|, index);
      r := Get(index);
      ghost var k := if index > 0 then index else 0;
      j := if index < Wrap(2 * size) then k else |nodes| - 1 - k;
    }

    lemma GetFromHead(n: nat, index: int)
      ensures 0 <= index < n < 0x4000_0000 ==> index < Wrap(2 * Wrap(n))
    {
    }

    /** What RemoveAt does under the lock. */
    method Unlink(n: Node, ghost j: int)
      requires Holds() && 0 <= j < |nodes| && nodes[j] == n
      modifies this`size, this`nodes, this`contents, nodes`next, nodes`prev
      ensures 0 < j < |old(nodes)| - 1 ==>
                Holds() && nodes == old(nodes)[..j] + old(nodes)[j + 1..] && contents == old(contents)[..j] + old(contents)[j + 1..]
      ensures j == 0 || j == |old(nodes)| - 1 ==> forall ns: seq<Node> :: !Chain(ns)
    {
      Relink(n, j);
      size := Wrap(size - 1);
      WrapPred(|nodes|);
      if 0 < j < |nodes| - 1 {
        Forget(j);
      } else {
        NoChainAtAnEnd(n, if |nodes| == 1 then n else if j == 0 then nodes[1] else nodes[j - 1]);
      }
    }

    /** Takes a node that is no longer linked out of the description of the list. */
    ghost method Forget(j: nat)
      requires j < |nodes| && DataOf(nodes, contents) && Chain(nodes[..j] + nodes[j + 1..])
      modifies this`nodes, this`contents
      ensures Holds() && nodes == old(nodes)[..j] + old(nodes)[j + 1..] && contents == old(contents)[..j] + old(contents)[j + 1..]
    {
      DataWithout(nodes, contents, j);
      nodes, contents := nodes[..j] + nodes[j + 1..], contents[..j] + contents[j + 1..];
    }

    lemma DataWithout(ns: seq<Node>, data: seq<Any>, j: nat)
      requires j < |ns| && DataOf(ns, data)
      ensures DataOf(ns[..j] + ns[j + 1..], data[..j] + data[j + 1..])
    {
    }

    method Relink(n: Node, ghost j: int)
      requires Linked(nodes) && 0 <= j < |nodes| && nodes[j] == n
      modifies nodes`next, nodes`prev
      ensures 0 < j < |nodes| - 1 ==> Linked(nodes[..j] + nodes[j + 1..])
      ensures n.next == old(n.next) && n.prev == old(n.prev)
      ensures j == 0 && |nodes| > 1 ==> nodes[1].prev == null
      ensures j == |nodes| - 1 && |nodes| > 1 ==> nodes[j - 1].next == null
    {
      if n.next != null {
        n.next.prev := n.prev;
      }
      if n.prev != null {
        n.prev.next := n.next;
      }
    }

    /** With a first or last node whose neighbour does not link back, or that has no neighbour in
        a list of size 0, nothing is a chain. */
    lemma NoChainAtAnEnd(n: Node, m: Node)
      requires (head == n && n.next == m && m.prev == null) || (tail == n && n.prev == m && m.next == null) ||
               (head == n && n.next == null && size == 0)
      ensures forall ns: seq<Node> :: !Chain(ns)
    {
      forall ns: seq<Node> ensures !Chain(ns) {
        LinkedAtEnds(ns);
      }
    }

    lemma LinkedAtEnds(ns: seq<Node>)
      ensures Chain(ns) && head != null && head.next != null ==> head.next.prev == head
      ensures Chain(ns) && tail != null && tail.prev != null ==> tail.prev.next == tail
      ensures Chain(ns) && head != null && head.next == null ==> size == 1
    {
      if Chain(ns) && |ns| > 1 {
        assert ns[0].next == ns[1] && ns[1].prev == ns[0];
        assert ns[|ns| - 1].prev == ns[|ns| - 2] && ns[|ns| - 2].next == ns[|ns| - 1];
      }
    }

    /** Takes elements off the front until one is nil. */
    method Reset()
      requires Valid()
      modifies this, nodes, pool, pool.free
      ensures Valid() && OwnNodesOnly()
      ensures contents == AfterNil(old(contents))
    {
      ghost var owned := (set n | n in nodes) + pool.free;
      ghost var all := contents;
      ghost var target := AfterNil(all);
      var data := PickHeadData();
      AfterNilStep(all, data, contents);
      while data != Nil
        invariant Valid()
        invariant forall n :: n in nodes ==> n in owned
        invariant forall n :: n in pool.free ==> n in owned
        invariant target == if data == Nil then contents else AfterNil(contents)
        decreases |nodes|, data != Nil
      {
        ghost var before := contents;
        data := PickHeadData();
        AfterNilStep(before, data, contents);
      }
    }
  }

  /** What is left of a list of elements after its first nil one. */
  function AfterNil(s: seq<Any>): (r: seq<Any>)
  {
    if s == [] then [] else if s[0] == Nil then s[1..] else AfterNil(s[1..])
  }

  lemma AfterNilStep(s: seq<Any>, data: Any, rest: seq<Any>)
    requires if s == [] then data == Nil && rest == [] else [data] + rest == s
    ensures AfterNil(s) == if data == Nil then rest else AfterNil(rest)
  {
    if s != [] {
      assert s[0] == data && s[1..] == rest;
    }
  }

  /** Reset empties exactly the lists that hold no nil element before their last one. */
  lemma {:induction false} ResetEmpties(s: seq<Any>)
    ensures AfterNil(s) == [] <==> forall i :: 0 <= i < |s| - 1 ==> s[i] != Nil
  {
    if s != [] && s[0] != Nil {
      ResetEmpties(s[1..]);
      assert forall i :: 0 < i < |s| - 1 ==> s[i] == s[1..][i - 1];
      assert forall i :: 0 <= i < |s[1..]| - 1 ==> s[1..][i] == s[i + 1];
    }
  }
}
