/**
 * `traverse_tree`: the depth-first generator both code-generation passes
 * iterate over. It yields a node, then everything under its first child,
 * then everything under its second child, and so on.
 */
module Traversal {
  import opened Syntax

  function Preorder(n: Node): (r: seq<Node>)
    decreases n
    ensures |r| == Size(n) && r[0] == n
  {
    [n] + PreorderOf(n.children)
  }

  /** The concatenated traversals of a sequence of sibling trees. */
  function PreorderOf(ns: seq<Node>): (r: seq<Node>)
    decreases ns
    ensures |r| == SizeOf(ns)
  {
    if |ns| == 0 then [] else Preorder(ns[0]) + PreorderOf(ns[1..])
  }

  lemma {:induction false} SizeOfConcat(a: seq<Node>, b: seq<Node>)
    ensures SizeOf(a + b) == SizeOf(a) + SizeOf(b)
  {
    if |a| == 0 {
      assert a + b == b;
    } else {
      assert (a + b)[1..] == a[1..] + b;
      SizeOfConcat(a[1..], b);
    }
  }

  lemma {:induction false} PreorderOfConcat(a: seq<Node>, b: seq<Node>)
    ensures PreorderOf(a + b) == PreorderOf(a) + PreorderOf(b)
  {
    if |a| == 0 {
      assert a + b == b;
    } else {
      assert (a + b)[1..] == a[1..] + b;
      PreorderOfConcat(a[1..], b);
    }
  }

  /**
   * Child `k`'s traversal is a contiguous block of its parent's, placed
   * right after the node itself and the traversals of the earlier children.
   */
  lemma PreorderChild(n: Node, k: nat)
    requires k < |n.children|
    ensures var off := 1 + SizeOf(n.children[..k]);
            off + Size(n.children[k]) <= Size(n)
            && Preorder(n)[off .. off + Size(n.children[k])] == Preorder(n.children[k])
  {
    var before, c, after := PreorderOf(n.children[..k]), Preorder(n.children[k]), PreorderOf(n.children[k + 1..]);
    assert |before| == SizeOf(n.children[..k]) && |c| == Size(n.children[k]);
    PreorderAround(n, k);
    SliceMiddle(n, before, c, after);
  }

  /** The traversal of `n`, cut around its child `k`. */
  lemma PreorderAround(n: Node, k: nat)
    requires k < |n.children|
    ensures Preorder(n) == [n] + (PreorderOf(n.children[..k]) + (Preorder(n.children[k]) + PreorderOf(n.children[k + 1..])))
  {
    var cs := n.children;
    var tail := [cs[k]] + cs[k + 1..];
    assert cs == cs[..k] + tail;
    PreorderOfConcat(cs[..k], tail);
    assert tail[0] == cs[k] && tail[1..] == cs[k + 1..];
    assert PreorderOf(tail) == Preorder(cs[k]) + PreorderOf(cs[k + 1..]);
  }

  lemma SliceMiddle<T>(x: T, a: seq<T>, b: seq<T>, c: seq<T>)
    ensures 1 + |a| + |b| <= |[x] + (a + (b + c))|
    ensures ([x] + (a + (b + c)))[1 + |a| .. 1 + |a| + |b|] == b
  {
  }

  /** A node or one of its descendants. */
  predicate InTree(x: Node, n: Node)
    decreases n
  {
    x == n || exists k | 0 <= k < |n.children| :: InTree(x, n.children[k])
  }

  /** The traversal yields exactly the nodes of the tree. */
  lemma {:induction false} PreorderMembers(x: Node, n: Node)
    ensures x in Preorder(n) <==> InTree(x, n)
    decreases n, 1
  {
    PreorderOfMembers(x, n.children);
  }

  lemma {:induction false} PreorderOfMembers(x: Node, ns: seq<Node>)
    ensures x in PreorderOf(ns) <==> exists k | 0 <= k < |ns| :: InTree(x, ns[k])
    decreases ns, 0
  {
    if |ns| > 0 {
      PreorderMembers(x, ns[0]);
      PreorderOfMembers(x, ns[1..]);
      if exists k | 0 <= k < |ns| :: InTree(x, ns[k]) {
        var k :| 0 <= k < |ns| && InTree(x, ns[k]);
        if k > 0 { assert ns[1..][k - 1] == ns[k]; }
      }
      if exists k | 0 <= k < |ns[1..]| :: InTree(x, ns[1..][k]) {
        var k :| 0 <= k < |ns[1..]| && InTree(x, ns[1..][k]);
        assert ns[1..][k] == ns[k + 1];
      }
    }
  }
}
