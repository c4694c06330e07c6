/**
 * The circular doubly-linked list of c/hello (list.c). A list is a ring of nodes
 * threaded through `next` and `prev`, entered at a header node whose data is NULL;
 * every other node owns a copy of a string. The ring is described by a ghost
 * sequence of its nodes, header first, following `next`.
 */
module HelloList {
  import opened Wrappers

  class Node {
    var next: Node
    var prev: Node
    /** The node's string (`that`); None for the header. It is set once, when the node is made. */
    const data: Option<string>

    /**
     * list_ctor: a node linked to itself, holding a copy of `that` (strdup),
     * or NULL when `that` is NULL.
     */
    constructor (that: Option<string>)
      ensures next == this && prev == this && data == that
    {
      next := this;
      prev := this;
      data := that;
    }
  }

  /** Position after i, and before i, in a ring of n nodes. */
  function Succ(n: int, i: int): int { if i + 1 >= n then 0 else i + 1 }
  function Pred(n: int, i: int): int { if i <= 0 then n - 1 else i - 1 }

  /** No node appears twice. */
  predicate Distinct<T(==)>(s: seq<T>) {
    forall i, j :: 0 <= i < j < |s| ==> s[i] != s[j]
  }

  /**
   * `nodes` is a ring in the heap, in `next` order: distinct nodes, each one's
   * next and prev its neighbours, the last one's next the first.
   */
  ghost predicate Linked(nodes: seq<Node>)
    reads nodes
  {
    && |nodes| >= 1 && Distinct(nodes)
    && (forall i {:trigger nodes[i].next} :: 0 <= i < |nodes| ==> nodes[i].next == nodes[Succ(|nodes|, i)])
    && (forall i {:trigger nodes[i].prev} :: 0 <= i < |nodes| ==> nodes[i].prev == nodes[Pred(|nodes|, i)])
  }

  /** The header (first) holds NULL and every other node a string. */
  predicate Labelled(nodes: seq<Node>) {
    && |nodes| >= 1
    && nodes[0].data == None
    && (forall i :: 1 <= i < |nodes| ==> nodes[i].data.Some?)
  }

  /** A list: a ring entered at its header. */
  ghost predicate IsList(nodes: seq<Node>)
    reads nodes
  {
    Linked(nodes) && Labelled(nodes)
  }

  /** The strings on the list, first to last. */
  function Contents(nodes: seq<Node>): (cs: seq<string>)
    requires Labelled(nodes)
    ensures |cs| == |nodes| - 1
    ensures forall i :: 1 <= i < |nodes| ==> nodes[i].data == Some(cs[i - 1])
  {
    seq(|nodes| - 1, i requires 0 <= i < |nodes| - 1 => nodes[i + 1].data.value)
  }

  /** Putting a node that is not yet in a sequence of distinct nodes anywhere keeps them distinct. */
  lemma InsertDistinct<T>(nodes: seq<T>, q: int, n: T)
    requires Distinct(nodes) && 0 <= q <= |nodes| && n !in nodes
    ensures Distinct(nodes[..q] + [n] + nodes[q..])
  {
    var ring := nodes[..q] + [n] + nodes[q..];
    forall i, j | 0 <= i < j < |ring|
      ensures ring[i] != ring[j]
    {
      if i == q {
        assert ring[j] in nodes;
      } else if j == q {
        assert ring[i] in nodes;
      } else {
        var a := if i < q then i else i - 1;
        var b := if j < q then j else j - 1;
        assert ring[i] == nodes[a] && ring[j] == nodes[b];
      }
    }
  }

  /** Leaving one node out keeps the rest distinct. */
  lemma RemoveDistinct<T>(nodes: seq<T>, j: int)
    requires Distinct(nodes) && 0 <= j < |nodes|
    ensures Distinct(nodes[..j] + nodes[j + 1..])
  {
    var ring := nodes[..j] + nodes[j + 1..];
    forall a, b | 0 <= a < b < |ring|
      ensures ring[a] != ring[b]
    {
      var a' := if a < j then a else a + 1;
      var b' := if b < j then b else b + 1;
      assert ring[a] == nodes[a'] && ring[b] == nodes[b'];
    }
  }

  /** The ring after linking a new node before position k: before the header means at the end. */
  function InsertedAt(nodes: seq<Node>, k: int, n: Node): seq<Node>
    requires 0 <= k < |nodes|
  {
    if k == 0 then nodes + [n] else nodes[..k] + [n] + nodes[k..]
  }

  /**
   * Linking a node that holds `s` in before position k adds `s` to the contents:
   * at the end when k is the header, in front of the k-th item otherwise.
   */
  lemma InsertContents(nodes: seq<Node>, k: int, n: Node)
    requires Labelled(nodes) && 0 <= k < |nodes| && n.data.Some?
    ensures Labelled(InsertedAt(nodes, k, n))
    ensures k == 0 ==> Contents(InsertedAt(nodes, k, n)) == Contents(nodes) + [n.data.value]
    ensures k > 0 ==> Contents(InsertedAt(nodes, k, n)) == Contents(nodes)[..k - 1] + [n.data.value] + Contents(nodes)[k - 1..]
  {
    var ring := InsertedAt(nodes, k, n);
    var q := if k == 0 then |nodes| else k;
    assert ring == nodes[..q] + [n] + nodes[q..];
    assert forall i :: 0 <= i < q ==> ring[i] == nodes[i];
    assert forall i :: q < i < |ring| ==> ring[i] == nodes[i - 1];
    var before, after := Contents(nodes), Contents(ring);
    assert forall i :: 0 <= i < q - 1 ==> after[i] == before[i];
    assert forall i :: q <= i < |after| ==> after[i] == before[i - 1];
    if k == 0 {
      assert after == before + [n.data.value];
    } else {
      assert after == before[..k - 1] + [n.data.value] + before[k - 1..];
    }
  }

  /** Unlinking the item at position j removes exactly the j-th string from the contents. */
  lemma RemoveContents(nodes: seq<Node>, j: int)
    requires Labelled(nodes) && 1 <= j < |nodes|
    ensures Labelled(nodes[..j] + nodes[j + 1..])
    ensures Contents(nodes[..j] + nodes[j + 1..]) == Contents(nodes)[..j - 1] + Contents(nodes)[j..]
  {
    var ring := nodes[..j] + nodes[j + 1..];
    assert forall i :: 0 <= i < j ==> ring[i] == nodes[i];
    assert forall i :: j <= i < |ring| ==> ring[i] == nodes[i + 1];
    var before, after := Contents(nodes), Contents(ring);
    assert forall i :: 0 <= i < j - 1 ==> after[i] == before[i];
    assert forall i :: j - 1 <= i < |after| ==> after[i] == before[i + 1];
    assert after == before[..j - 1] + before[j..];
  }

  /** list_data: the node's string, NULL for the header. */
  method Data(l: Node, ghost nodes: seq<Node>, ghost k: int) returns (s: Option<string>)
    requires Labelled(nodes) && 0 <= k < |nodes| && nodes[k] == l
    ensures s == None <==> k == 0
    ensures k > 0 ==> s == Some(Contents(nodes)[k - 1])
  {
    s := l.data;
  }

  /**
   * list_next: the following node. On the header it is the first item (or the
   * header again when the list is empty); on the last item it is the header.
   */
  method Next(l: Node, ghost nodes: seq<Node>, ghost k: int) returns (r: Node)
    requires Linked(nodes) && 0 <= k < |nodes| && nodes[k] == l
    ensures r == nodes[Succ(|nodes|, k)]
    ensures k == 0 && |nodes| > 1 ==> r == nodes[1]
    ensures k == |nodes| - 1 ==> r == nodes[0]
  {
    r := l.next;
  }

  /**
   * list_prev: the preceding node. On the header it is the last item; on the
   * first item it is the header.
   */
  method Prev(l: Node, ghost nodes: seq<Node>, ghost k: int) returns (r: Node)
    requires Linked(nodes) && 0 <= k < |nodes| && nodes[k] == l
    ensures r == nodes[Pred(|nodes|, k)]
    ensures k == 0 ==> r == nodes[|nodes| - 1]
    ensures k == 1 ==> r == nodes[0]
  {
    r := l.prev;
  }

  /** list_new: a header linked to itself, with NULL data: the empty list. */
  method New() returns (l: Node, ghost nodes: seq<Node>)
    ensures fresh(l) && nodes == [l]
    ensures IsList(nodes) && Contents(nodes) == []
  {
    l := new Node(None);
    nodes := [l];
  }

  /**
   * list_link: splice the self-linked node `n` in just before `l`; n.next is l and
   * n.prev is l's old predecessor.
   */
  method Link(n: Node, l: Node, ghost nodes: seq<Node>, ghost k: int) returns (r: Node)
    requires Linked(nodes) && 0 <= k < |nodes| && nodes[k] == l
    requires n !in nodes && n.next == n && n.prev == n
    modifies n, l, l.prev
    ensures r == n && n.next == l && n.prev == old(l.prev)
    ensures Linked(InsertedAt(nodes, k, n))
  {
    ghost var m := |nodes|;
    ghost var q := if k == 0 then m else k;
    var p := l.prev;
    assert p == nodes[q - 1];
    n.next := l;
    n.prev := p;
    p.next := n;
    l.prev := n;
    r := n;
    ghost var ring := InsertedAt(nodes, k, n);
    assert ring == nodes[..q] + [n] + nodes[q..];
    InsertDistinct(nodes, q, n);
    forall i {:trigger ring[i].next} | 0 <= i < |ring|
      ensures ring[i].next == ring[Succ(|ring|, i)]
    {
      if i < q - 1 {
        assert ring[i] == nodes[i] && nodes[i] != p && nodes[i] != n;
        assert ring[i + 1] == nodes[i + 1];
      } else if i > q {
        assert ring[i] == nodes[i - 1] && nodes[i - 1] != p && nodes[i - 1] != n;
        if i < m {
          assert ring[i + 1] == nodes[i];
        } else {
          assert ring[0] == nodes[0];
        }
      } else if i == q {
        assert ring[Succ(|ring|, i)] == nodes[Succ(m, q - 1)];
      }
    }
    forall i {:trigger ring[i].prev} | 0 <= i < |ring|
      ensures ring[i].prev == ring[Pred(|ring|, i)]
    {
      if i < q {
        assert ring[i] == nodes[i] && nodes[i] != n;
        if i != k {
          assert nodes[i] != l;
          if i > 0 {
            assert ring[i - 1] == nodes[i - 1];
          }
        }
      } else if i > q {
        assert ring[i] == nodes[i - 1] && nodes[i - 1] != n;
        if i - 1 != k {
          assert nodes[i - 1] != l;
          assert ring[i - 1] == nodes[i - 2];
        }
      }
    }
  }

  /**
   * list_insert: a new node holding a copy of `s`, linked just before `l`. At the
   * header this appends; at an item it inserts in front of that item.
   */
  method Insert(l: Node, s: string, ghost nodes: seq<Node>, ghost k: int) returns (n: Node, ghost nodes': seq<Node>)
    requires IsList(nodes) && 0 <= k < |nodes| && nodes[k] == l
    modifies l, l.prev
    ensures fresh(n) && n.data == Some(s) && n.next == l && n.prev == old(l.prev)
    ensures nodes' == InsertedAt(nodes, k, n) && IsList(nodes')
    ensures k == 0 ==> Contents(nodes') == Contents(nodes) + [s]
    ensures k > 0 ==> Contents(nodes') == Contents(nodes)[..k - 1] + [s] + Contents(nodes)[k - 1..]
  {
    var node := new Node(Some(s));
    n := Link(node, l, nodes, k);
    nodes' := InsertedAt(nodes, k, n);
    InsertContents(nodes, k, n);
  }

  /**
   * list_find: walk forward from the node after `l` until the header, and answer
   * the first node holding `s`, or NULL. From the header it searches the whole list;
   * it never looks past the header.
   */
  method Find(l: Node, s: string, ghost nodes: seq<Node>, ghost k: int) returns (f: Node?, ghost j: int)
    requires IsList(nodes) && 0 <= k < |nodes| && nodes[k] == l
    ensures f == null ==> forall i :: k < i < |nodes| ==> nodes[i].data != Some(s)
    ensures f != null ==>
      k < j < |nodes| && f == nodes[j] && nodes[j].data == Some(s)
      && forall i :: k < i < j ==> nodes[i].data != Some(s)
  {
    var cur := l.next;
    ghost var i := Succ(|nodes|, k);
    while cur.data.Some?
      invariant (i == 0 || k < i < |nodes|) && cur == nodes[i]
      invariant forall m :: k < m < (if i == 0 then |nodes| else i) ==> nodes[m].data != Some(s)
      decreases if i == 0 then 0 else |nodes| - i
    {
      if cur.data.value == s {
        return cur, i;
      }
      cur := cur.next;
      i := Succ(|nodes|, i);
    }
    return null, 0;
  }

  /**
   * list_del: unlink `l` by joining its neighbours; the node is released. Answers
   * NULL when `l` was linked only to itself, else its former predecessor.
   */
  method Del(l: Node, ghost nodes: seq<Node>, ghost j: int) returns (p: Node?)
    requires Linked(nodes) && 0 <= j < |nodes| && nodes[j] == l
    requires j >= 1 || |nodes| == 1
    modifies l.next, l.prev
    ensures |nodes| == 1 ==> p == null
    ensures |nodes| > 1 ==> p == nodes[j - 1] && Linked(nodes[..j] + nodes[j + 1..])
  {
    ghost var m := |nodes|;
    var n := l.next;
    var q := l.prev;
    n.prev := q;
    q.next := n;
    p := if l == q then null else q;
    if m > 1 {
      ghost var sj := Succ(m, j);
      assert q == nodes[j - 1] && n == nodes[sj] && q != l;
      ghost var ring := nodes[..j] + nodes[j + 1..];
      RemoveDistinct(nodes, j);
      assert forall i :: 0 <= i < j ==> ring[i] == nodes[i];
      assert forall i :: j <= i < m - 1 ==> ring[i] == nodes[i + 1];
      forall i {:trigger ring[i].next} | 0 <= i < |ring|
        ensures ring[i].next == ring[Succ(|ring|, i)]
      {
        if i < j - 1 {
          assert nodes[i] != q;
        } else if i >= j {
          assert nodes[i + 1] != q;
        }
      }
      forall i {:trigger ring[i].prev} | 0 <= i < |ring|
        ensures ring[i].prev == ring[Pred(|ring|, i)]
      {
        if i < j {
          assert i != sj ==> nodes[i] != n;
        } else {
          assert i + 1 != sj ==> nodes[i + 1] != n;
        }
      }
    }
  }

  /**
   * list_delete: find the next node after `l` holding `s`; if there is one, unlink
   * it and answer its predecessor, otherwise answer NULL and change nothing.
   */
  method Delete(l: Node, s: string, ghost nodes: seq<Node>, ghost k: int) returns (p: Node?, ghost nodes': seq<Node>)
    requires IsList(nodes) && 0 <= k < |nodes| && nodes[k] == l
    modifies set x | x in nodes
    ensures IsList(nodes')
    ensures p == null ==>
      && nodes' == nodes
      && (forall i :: k < i < |nodes| ==> nodes[i].data != Some(s))
      && (forall i :: 0 <= i < |nodes| ==> nodes[i].next == old(nodes[i].next) && nodes[i].prev == old(nodes[i].prev))
    ensures p != null ==>
      exists j ::
        && k < j < |nodes| && nodes[j].data == Some(s)
        && (forall i :: k < i < j ==> nodes[i].data != Some(s))
        && p == nodes[j - 1] && nodes' == nodes[..j] + nodes[j + 1..]
        && Contents(nodes') == Contents(nodes)[..j - 1] + Contents(nodes)[j..]
  {
    var f;
    ghost var j;
    f, j := Find(l, s, nodes, k);
    if f == null {
      return null, nodes;
    }
    assert f.next == nodes[Succ(|nodes|, j)] && f.prev == nodes[j - 1];
    p := Del(f, nodes, j);
    nodes' := nodes[..j] + nodes[j + 1..];
    RemoveContents(nodes, j);
  }

  /**
   * list_free: delete the node after `l` until `l` is alone, then `l` itself. The
   * nodes go in ring order, starting after `l`; `l` is released last.
   */
  method Free(l: Node, ghost nodes: seq<Node>) returns (ghost freed: seq<Node>)
    requires Linked(nodes) && nodes[0] == l
    modifies set x | x in nodes
    ensures freed == nodes[1..] + [l]
  {
    var cur: Node? := l;
    ghost var ring := nodes;
    freed := [];
    while cur != null
      invariant cur != null ==> Linked(ring) && ring[0] == l && cur == l && freed + ring[1..] == nodes[1..]
      invariant cur == null ==> freed == nodes[1..] + [l]
      invariant forall x :: x in ring ==> x in nodes
      decreases if cur == null then 0 else |ring|
    {
      var victim := cur.next;
      assert victim == ring[Succ(|ring|, 0)];
      if victim == cur {
        assert |ring| == 1;
        assert victim.next == ring[0] && victim.prev == ring[0] && ring[0] in nodes;
        cur := Del(victim, ring, 0);
        freed := freed + [l];
      } else {
        assert victim == ring[1];
        assert victim.next == ring[Succ(|ring|, 1)] && victim.prev == ring[0];
        assert victim.next in nodes && victim.prev in nodes;
        cur := Del(victim, ring, 1);
        freed := freed + [ring[1]];
        ghost var rest := ring[..1] + ring[2..];
        assert rest[0] == ring[0] && rest[1..] == ring[2..];
        assert ring[1..] == [ring[1]] + ring[2..];
        assert forall x :: x in rest ==> x in ring;
        ring := rest;
      }
    }
  }
}
