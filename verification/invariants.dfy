/** Which mutations keep an arena well formed (closed, every parent chain
    ending at a root, every subtree finite). Removal always does; adding
    does when the added node is a freshly constructed leaf, which is how the
    builder uses it. */
module Invariants {
  import opened Wrappers
  import opened CodeElements
  import opened Nodes
  import opened Structure
  import opened Tree

  lemma {:induction false} AboveAfterRemove(a: Arena, p: Id, c: Id, m: Id, h: nat)
    requires p < |a| && c < |a| && Above(a, m, h)
    ensures Above(RemoveChild(a, p, c), m, h)
    decreases h
  {
    var r := RemoveChild(a, p, c);
    if r[m].parent.Some? {
      AboveAfterRemove(a, p, c, a[m].parent.value, h - 1);
    }
  }

  lemma {:induction false} BelowAfterRemove(a: Arena, p: Id, c: Id, m: Id, h: nat)
    requires p < |a| && c < |a| && Below(a, m, h)
    ensures Below(RemoveChild(a, p, c), m, h)
    decreases h
  {
    var r := RemoveChild(a, p, c);
    forall x | x in r[m].children
      ensures Below(r, x, h - 1)
    {
      assert x in a[m].children;
      BelowAfterRemove(a, p, c, x, h - 1);
    }
  }

  /** `Remove(node)` keeps a well-formed arena well formed: it only drops a
      child reference and clears a parent reference. */
  lemma RemoveKeepsWellFormed(a: Arena, p: Id, c: Id)
    requires WellFormed(a) && p < |a| && c < |a|
    ensures WellFormed(RemoveChild(a, p, c))
  {
    var r := RemoveChild(a, p, c);
    forall m | 0 <= m < |r|
      ensures Rooted(r, m) && Finite(r, m)
    {
      assert Rooted(a, m);
      var h: nat :| Above(a, m, h);
      AboveAfterRemove(a, p, c, m, h);
      assert Finite(a, m);
      var g: nat :| Below(a, m, g);
      BelowAfterRemove(a, p, c, m, g);
    }
  }

  /** `Remove()` keeps a well-formed arena well formed. */
  lemma DetachKeepsWellFormed(a: Arena, n: Id)
    requires WellFormed(a) && n < |a|
    ensures WellFormed(Detach(a, n))
  {
    if a[n].parent.Some? {
      RemoveKeepsWellFormed(a, a[n].parent.value, n);
    }
  }

  lemma {:induction false} AboveAfterGrow(a: Arena, b: Arena, m: Id, h: nat)
    requires |a| <= |b| && b[..|a|] == a && Above(a, m, h)
    ensures Above(b, m, h)
    decreases h
  {
    assert b[m] == a[m];
    if a[m].parent.Some? {
      AboveAfterGrow(a, b, a[m].parent.value, h - 1);
    }
  }

  lemma {:induction false} BelowAfterGrow(a: Arena, b: Arena, m: Id, h: nat)
    requires |a| <= |b| && b[..|a|] == a && Below(a, m, h)
    ensures Below(b, m, h)
    decreases h
  {
    assert b[m] == a[m];
    forall x | x in b[m].children
      ensures Below(b, x, h - 1)
    {
      BelowAfterGrow(a, b, x, h - 1);
    }
  }

  /** Constructing a node keeps the arena well formed, and no existing node
      refers to the new one. */
  lemma ConstructKeepsWellFormed(a: Arena, k: Kind, e: Option<CodeElement>)
    requires WellFormed(a) && Accepts(k, e) && Constructible(k)
    ensures var (b, n) := Construct(a, k, e);
      && WellFormed(b)
      && forall m :: 0 <= m < |b| ==> b[m].parent != Some(n) && n !in b[m].children
  {
    var (b, n) := Construct(a, k, e);
    forall m | 0 <= m < |b|
      ensures Rooted(b, m) && Finite(b, m)
    {
      if m == n {
        assert Above(b, m, 1) && Below(b, m, 1);
      } else {
        assert b[m] == a[m];
        assert Rooted(a, m);
        var h: nat :| Above(a, m, h);
        AboveAfterGrow(a, b, m, h);
        assert Finite(a, m);
        var g: nat :| Below(a, m, g);
        BelowAfterGrow(a, b, m, g);
      }
    }
    forall m | 0 <= m < |b|
      ensures b[m].parent != Some(n) && n !in b[m].children
    {
      if m < |a| {
        assert b[m] == a[m];
      }
    }
  }

  /** A node that no node names as its parent. */
  predicate Unclaimed(a: Arena, c: Id) {
    forall m :: 0 <= m < |a| ==> a[m].parent != Some(c)
  }

  lemma {:induction false} AboveAfterAddLeaf(a: Arena, p: Id, c: Id, m: Id, h: nat)
    requires p < |a| && c < |a| && m != c && Unclaimed(a, c) && Above(a, m, h)
    ensures Above(Add(a, p, c), m, h)
    decreases h
  {
    if a[m].parent.Some? {
      AboveAfterAddLeaf(a, p, c, a[m].parent.value, h - 1);
    }
  }

  lemma {:induction false} BelowAfterAddLeaf(a: Arena, p: Id, c: Id, m: Id, h: nat)
    requires p < |a| && c < |a| && p != c && a[c].children == [] && Below(a, m, h)
    ensures Below(Add(a, p, c), m, h + 1)
    decreases h
  {
    var r := Add(a, p, c);
    assert r[c].children == [];
    forall x | x in r[m].children
      ensures Below(r, x, h)
    {
      if x in a[m].children {
        BelowAfterAddLeaf(a, p, c, x, h - 1);
      } else {
        assert x == c;
      }
    }
  }

  /** Adding a leaf that nobody names as parent under a node other than
      itself keeps the arena well formed. */
  lemma AddLeafKeepsWellFormed(a: Arena, p: Id, c: Id)
    requires WellFormed(a) && p < |a| && c < |a| && p != c
    requires a[c].children == [] && Unclaimed(a, c)
    ensures WellFormed(Add(a, p, c))
  {
    var r := Add(a, p, c);
    forall m | 0 <= m < |r|
      ensures Rooted(r, m) && Finite(r, m)
    {
      assert Finite(a, m);
      var g: nat :| Below(a, m, g);
      BelowAfterAddLeaf(a, p, c, m, g);
      if m == c {
        assert Rooted(a, p);
        var h: nat :| Above(a, p, h);
        AboveAfterAddLeaf(a, p, c, p, h);
        assert Above(r, c, h + 1);
      } else {
        assert Rooted(a, m);
        var h: nat :| Above(a, m, h);
        AboveAfterAddLeaf(a, p, c, m, h);
      }
    }
  }
}
