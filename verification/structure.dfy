/** The storage behind every `Node`: an arena in which a node id indexes the
    node's kind, payload, parent back-reference and ordered child list, and
    the finiteness notions that make walking up or down the arena terminate. */
module Structure {
  import opened Wrappers
  import opened CodeElements
  import opened Nodes

  /** A node's identity: its index in the arena. */
  type Id = nat

  datatype NodeState = NodeState(kind: Kind, element: Option<CodeElement>, parent: Option<Id>, children: seq<Id>)

  /** A node whose payload has the type its kind's constructor takes. */
  type Node = n: NodeState | Accepts(n.kind, n.element) witness NodeState(Root, None, None, [])

  /** All nodes ever constructed; nodes are never freed. */
  type Arena = seq<Node>

  /** Every parent and child reference names a node of the arena. */
  predicate Closed(a: Arena) {
    forall n :: 0 <= n < |a| ==>
      && (a[n].parent.Some? ==> a[n].parent.value < |a|)
      && (forall c :: c in a[n].children ==> c < |a|)
  }

  /** The arena with the child list of `n` replaced; nothing else changes. */
  function SetChildren(a: Arena, n: Id, kids: seq<Id>): (r: Arena)
    requires n < |a|
    ensures |r| == |a| && r[n].children == kids
    ensures forall m :: 0 <= m < |a| ==>
      && r[m].kind == a[m].kind && r[m].element == a[m].element && r[m].parent == a[m].parent
      && (m != n ==> r[m].children == a[m].children)
  {
    a[n := a[n].(children := kids)]
  }

  /** The arena with the parent reference of `n` replaced; nothing else changes. */
  function SetParent(a: Arena, n: Id, parent: Option<Id>): (r: Arena)
    requires n < |a|
    ensures |r| == |a| && r[n].parent == parent
    ensures forall m :: 0 <= m < |a| ==>
      && r[m].kind == a[m].kind && r[m].element == a[m].element && r[m].children == a[m].children
      && (m != n ==> r[m].parent == a[m].parent)
  {
    a[n := a[n].(parent := parent)]
  }

  /** The parent chain from `n` has at most `h` nodes, all in the arena. */
  predicate Above(a: Arena, n: Id, h: nat)
    decreases h
  {
    n < |a| && h > 0 && (a[n].parent.None? || Above(a, a[n].parent.value, h - 1))
  }

  /** Every downward path from `n` has at most `h` nodes, all in the arena. */
  predicate Below(a: Arena, n: Id, h: nat)
    decreases h
  {
    n < |a| && h > 0 && forall c :: c in a[n].children ==> Below(a, c, h - 1)
  }

  /** Following `Parent` from `n` reaches a parentless node. */
  ghost predicate Rooted(a: Arena, n: Id) {
    exists h :: Above(a, n, h)
  }

  /** The subtree below `n` is finite (no child list leads back up). */
  ghost predicate Finite(a: Arena, n: Id) {
    exists h :: Below(a, n, h)
  }

  /** Every node is rooted and has a finite subtree, and all references stay
      inside the arena. */
  ghost predicate WellFormed(a: Arena) {
    && Closed(a)
    && forall n :: 0 <= n < |a| ==> Rooted(a, n) && Finite(a, n)
  }

  lemma {:induction false} AboveMonotone(a: Arena, n: Id, h: nat, h': nat)
    requires Above(a, n, h) && h <= h'
    ensures Above(a, n, h')
    decreases h
  {
    if a[n].parent.Some? {
      AboveMonotone(a, a[n].parent.value, h - 1, h' - 1);
    }
  }

  lemma {:induction false} BelowMonotone(a: Arena, n: Id, h: nat, h': nat)
    requires Below(a, n, h) && h <= h'
    ensures Below(a, n, h')
    decreases h
  {
    forall c | c in a[n].children
      ensures Below(a, c, h' - 1)
    {
      BelowMonotone(a, c, h - 1, h' - 1);
    }
  }

  ghost function LeastAbove(a: Arena, n: Id, h: nat): (d: nat)
    requires Above(a, n, h)
    ensures Above(a, n, d) && forall k: nat :: k < d ==> !Above(a, n, k)
    decreases h
  {
    if h > 0 && Above(a, n, h - 1) then LeastAbove(a, n, h - 1)
    else
      assert forall k: nat :: k < h ==> !Above(a, n, k) by {
        forall k: nat | k < h && Above(a, n, k)
          ensures false
        {
          AboveMonotone(a, n, k, h - 1);
        }
      }
      h
  }

  ghost function LeastBelow(a: Arena, n: Id, h: nat): (d: nat)
    requires Below(a, n, h)
    ensures Below(a, n, d) && forall k: nat :: k < d ==> !Below(a, n, k)
    decreases h
  {
    if h > 0 && Below(a, n, h - 1) then LeastBelow(a, n, h - 1)
    else
      assert forall k: nat :: k < h ==> !Below(a, n, k) by {
        forall k: nat | k < h && Below(a, n, k)
          ensures false
        {
          BelowMonotone(a, n, k, h - 1);
        }
      }
      h
  }

  /** Number of nodes on the parent chain from `n`, `n` included. */
  ghost function Depth(a: Arena, n: Id): (d: nat)
    requires Rooted(a, n)
    ensures Above(a, n, d) && forall k: nat :: k < d ==> !Above(a, n, k)
  {
    var h :| Above(a, n, h);
    LeastAbove(a, n, h)
  }

  /** Number of nodes on the longest downward path from `n`. */
  ghost function Height(a: Arena, n: Id): (d: nat)
    requires Finite(a, n)
    ensures Below(a, n, d) && forall k: nat :: k < d ==> !Below(a, n, k)
  {
    var h :| Below(a, n, h);
    LeastBelow(a, n, h)
  }

  /** Walking up one step stays rooted and gets closer to the top. */
  lemma ParentStep(a: Arena, n: Id)
    requires Rooted(a, n) && a[n].parent.Some?
    ensures Rooted(a, a[n].parent.value)
    ensures Depth(a, a[n].parent.value) < Depth(a, n)
  {
    var d := Depth(a, n);
    var p := a[n].parent.value;
    assert Above(a, p, d - 1);
  }

  /** Walking down one step stays finite and gets closer to the leaves. */
  lemma ChildStep(a: Arena, n: Id, c: Id)
    requires Finite(a, n) && c in a[n].children
    ensures Finite(a, c)
    ensures Height(a, c) < Height(a, n)
  {
    var h := Height(a, n);
    assert Below(a, c, h - 1);
  }

  /** `n` and its ancestors, nearest first. */
  ghost function Ancestors(a: Arena, n: Id): (r: seq<Id>)
    requires Rooted(a, n)
    ensures |r| >= 1 && r[0] == n
    ensures forall i :: 0 <= i < |r| ==> r[i] < |a| && Rooted(a, r[i])
    decreases Depth(a, n)
  {
    match a[n].parent
    case None => [n]
    case Some(p) =>
      ParentStep(a, n);
      [n] + Ancestors(a, p)
  }

  /** The nodes of the subtree of `n` in pre-order: `n`, then each child's
      subtree from the first child to the last. */
  function Preorder(a: Arena, n: Id): (r: seq<Id>)
    requires Finite(a, n)
    ensures |r| >= 1 && r[0] == n
    ensures forall m :: m in r ==> m < |a| && Finite(a, m)
    decreases Height(a, n), 1
  {
    [n] + PreorderFrom(a, n, 0)
  }

  /** The subtrees of the children of `n` from position `i` on, in pre-order. */
  function PreorderFrom(a: Arena, n: Id, i: nat): (r: seq<Id>)
    requires Finite(a, n) && i <= |a[n].children|
    ensures forall m :: m in r ==> m < |a| && Finite(a, m)
    decreases Height(a, n), 0, |a[n].children| - i
  {
    if i == |a[n].children| then []
    else
      ChildStep(a, n, a[n].children[i]);
      Preorder(a, a[n].children[i]) + PreorderFrom(a, n, i + 1)
  }

  /** Every child's subtree lies inside the parent's pre-order listing. */
  lemma {:induction false} PreorderFromCovers(a: Arena, n: Id, i: nat, j: nat)
    requires Finite(a, n) && i <= j < |a[n].children|
    ensures Finite(a, a[n].children[j]) && forall m :: m in Preorder(a, a[n].children[j]) ==> m in PreorderFrom(a, n, i)
    decreases j - i
  {
    ChildStep(a, n, a[n].children[i]);
    if i < j {
      PreorderFromCovers(a, n, i + 1, j);
    }
  }

  lemma ChildPreorderCovered(a: Arena, n: Id, j: nat)
    requires Finite(a, n) && j < |a[n].children|
    ensures Finite(a, a[n].children[j]) && forall m :: m in Preorder(a, a[n].children[j]) ==> m in Preorder(a, n)
  {
    PreorderFromCovers(a, n, 0, j);
  }

  /** Every node of the subtree of `n` has a terminating parent chain, so its
      address can be computed. */
  ghost predicate Searchable(a: Arena, n: Id) {
    Finite(a, n) && forall m :: m in Preorder(a, n) ==> Rooted(a, m)
  }

  lemma ChildSearchable(a: Arena, n: Id, j: nat)
    requires Searchable(a, n) && j < |a[n].children|
    ensures Searchable(a, a[n].children[j])
  {
    ChildStep(a, n, a[n].children[j]);
    ChildPreorderCovered(a, n, j);
  }

  /** In a well-formed arena every node can be searched from. */
  lemma WellFormedSearchable(a: Arena, n: Id)
    requires WellFormed(a) && n < |a|
    ensures Searchable(a, n)
  {
  }
}
