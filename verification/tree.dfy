/** The generic `Node` operations over an arena: adding and removing
    children, the computed address (`URI`), lookup by address suffix, the
    kind-narrowing lookup, and the indented dump. */
module Tree {
  import opened Wrappers
  import opened Seqs
  import opened CodeElements
  import opened Nodes
  import opened Structure

  // ---------------------------------------------------------------- mutation

  /** `new K(payload)`: a node of kind `k` carrying `e`, with no parent and
      no children, at the next free id. */
  function Construct(a: Arena, k: Kind, e: Option<CodeElement>): (r: (Arena, Id))
    requires Accepts(k, e) && Constructible(k)
    ensures r.1 == |a| && |r.0| == |a| + 1 && r.0[..|a|] == a
    ensures r.0[r.1] == NodeState(k, e, None, [])
  {
    (a + [NodeState(k, e, None, [])], |a|)
  }

  /** `parent.Add(child)`: appends `c` to the children of `p`, then points the
      parent reference of `c` at `p`. A previous parent keeps `c` in its list. */
  function Add(a: Arena, p: Id, c: Id): (r: Arena)
    requires p < |a| && c < |a|
    ensures |r| == |a|
    ensures r[p].children == a[p].children + [c]
    ensures r[c].parent == Some(p)
    ensures forall m :: 0 <= m < |a| ==> r[m].kind == a[m].kind && r[m].element == a[m].element
    ensures forall m :: 0 <= m < |a| && m != c ==> r[m].parent == a[m].parent
    ensures forall m :: 0 <= m < |a| && m != p ==> r[m].children == a[m].children
  {
    SetParent(SetChildren(a, p, a[p].children + [c]), c, Some(p))
  }

  /** `parent.Remove(child)`: drops the first occurrence of `c` from the
      children of `p`, then clears the parent reference of `c`, whether or
      not `c` was a child of `p`. */
  function RemoveChild(a: Arena, p: Id, c: Id): (r: Arena)
    requires p < |a| && c < |a|
    ensures |r| == |a|
    ensures r[p].children == RemoveFirst(a[p].children, c)
    ensures r[c].parent == None
    ensures forall m :: 0 <= m < |a| ==> r[m].kind == a[m].kind && r[m].element == a[m].element
    ensures forall m :: 0 <= m < |a| && m != c ==> r[m].parent == a[m].parent
    ensures forall m :: 0 <= m < |a| && m != p ==> r[m].children == a[m].children
  {
    SetParent(SetChildren(a, p, RemoveFirst(a[p].children, c)), c, None)
  }

  /** `node.Remove()`: nothing for a parentless node, otherwise removal from
      the parent named by its back-reference. */
  function Detach(a: Arena, n: Id): (r: Arena)
    requires n < |a| && (a[n].parent.Some? ==> a[n].parent.value < |a|)
    ensures |r| == |a| && r[n].parent == None
    ensures a[n].parent.None? ==> r == a
    ensures a[n].parent.Some? ==>
      var p := a[n].parent.value;
      multiset(r[p].children) == multiset(a[p].children) - multiset{n}
    ensures forall m :: 0 <= m < |a| && m != n ==> r[m].parent == a[m].parent
  {
    match a[n].parent
    case None => a
    case Some(p) => RemoveChild(a, p, n)
  }

  /** Adding a parentless node that is not yet a child, then removing it
      again, gives back the arena unchanged. */
  lemma AddThenRemoveRestores(a: Arena, p: Id, c: Id)
    requires p < |a| && c < |a|
    requires c !in a[p].children && a[c].parent.None?
    ensures RemoveChild(Add(a, p, c), p, c) == a
  {
    var r := RemoveChild(Add(a, p, c), p, c);
    var s := a[p].children + [c];
    assert IndexOf(s, c) == |a[p].children|;
    forall m | 0 <= m < |a|
      ensures r[m] == a[m]
    {
    }
  }

  /** Removing a node that is not a child of `p` leaves every child list as
      it was; only the node's parent reference is cleared. */
  lemma RemoveAbsentOnlyClearsParent(a: Arena, p: Id, c: Id)
    requires p < |a| && c < |a| && c !in a[p].children
    ensures RemoveChild(a, p, c) == a[c := a[c].(parent := None)]
  {
  }

  /** `Remove()` is idempotent: a second call finds no parent. */
  lemma DetachIdempotent(a: Arena, n: Id)
    requires n < |a| && (a[n].parent.Some? ==> a[n].parent.value < |a|)
    ensures Detach(Detach(a, n), n) == Detach(a, n)
  {
  }

  /** Adding a node that still has a parent, without removing it first,
      leaves it in the old parent's child list as well: it is listed twice
      while its back-reference names only the new parent. */
  lemma AddWithoutDetachDuplicates(a: Arena, q: Id, p: Id, c: Id)
    requires q < |a| && p < |a| && c < |a| && p != q
    requires a[c].parent == Some(q) && c in a[q].children
    ensures var r := Add(a, p, c);
      && c in r[q].children
      && c in r[p].children
      && r[c].parent == Some(p)
  {
  }

  // ---------------------------------------------------------------- addresses

  /** `node.ID`: null exactly for the root and the division; a definition
      is addressed by its name. */
  function NodeId(n: Node): (r: Option<string>)
    ensures r.None? <==> n.kind == Root || n.kind == DataDivision
    ensures IsA(n.kind, DataDefinitionClass) ==> r == Some(Name(n.kind, n.element))
  {
    ID(n.kind, n.element)
  }

  /** `URI`: null when the node has no ID; otherwise its ID, prefixed by the
      parent's URI and a dot when that is not null. */
  function URI(a: Arena, n: Id): (r: Option<string>)
    requires Rooted(a, n)
    ensures r.None? <==> NodeId(a[n]).None?
    decreases Depth(a, n)
  {
    match NodeId(a[n])
    case None => None
    case Some(id) =>
      match a[n].parent
      case None => Some(id)
      case Some(p) =>
        ParentStep(a, n);
        match URI(a, p)
        case None => Some(id)
        case Some(puri) => Some(puri + "." + id)
  }

  /** The IDs of a parent chain (given nearest first), topmost first, cut at
      the first node without an ID. */
  function Segments(a: Arena, chain: seq<Id>): seq<string>
    requires forall i :: 0 <= i < |chain| ==> chain[i] < |a|
  {
    if chain == [] || NodeId(a[chain[0]]).None? then []
    else Segments(a, chain[1..]) + [NodeId(a[chain[0]]).value]
  }

  /** The address is the dot-join of the IDs from just below the nearest
      ancestor without an ID down to the node, and there is none when the
      node itself has no ID. */
  lemma {:induction false} UriJoinsSegments(a: Arena, n: Id)
    requires Rooted(a, n)
    ensures var segs := Segments(a, Ancestors(a, n));
      URI(a, n) == if segs == [] then None else Some(Join(segs, "."))
    decreases Depth(a, n)
  {
    var chain := Ancestors(a, n);
    if NodeId(a[n]).Some? && a[n].parent.Some? {
      var p := a[n].parent.value;
      ParentStep(a, n);
      UriJoinsSegments(a, p);
      assert chain[1..] == Ancestors(a, p);
      var ps := Segments(a, Ancestors(a, p));
      var segs := ps + [NodeId(a[n]).value];
      assert Segments(a, chain) == segs;
      if ps != [] {
        assert segs[..|segs| - 1] == ps;
      }
    }
  }

  /** The address only reads the parent chain: an arena that agrees on the
      kind, payload and parent of every node of the chain gives the same
      address. */
  lemma {:induction false} UriReadsOnlyAncestors(a: Arena, b: Arena, n: Id)
    requires Rooted(a, n)
    requires forall i :: 0 <= i < |Ancestors(a, n)| ==>
      var m := Ancestors(a, n)[i];
      m < |b| && b[m].kind == a[m].kind && b[m].element == a[m].element && b[m].parent == a[m].parent
    ensures Rooted(b, n) && Depth(b, n) == Depth(a, n) && URI(b, n) == URI(a, n)
    decreases Depth(a, n)
  {
    var chain := Ancestors(a, n);
    assert chain[0] == n;
    match a[n].parent
    case None =>
      assert Above(a, n, 1) && Above(b, n, 1);
    case Some(p) =>
      ParentStep(a, n);
      assert Ancestors(a, p) == chain[1..];
      UriReadsOnlyAncestors(a, b, p);
      assert Above(b, n, Depth(b, p) + 1);
      assert Above(b, p, Depth(b, n) - 1);
      assert Depth(b, n) == Depth(b, p) + 1;
      assert Above(a, n, Depth(a, p) + 1);
      assert Above(a, p, Depth(a, n) - 1);
      assert Depth(a, n) == Depth(a, p) + 1;
  }

  /** After `p.Add(c)` the address of `c` is built on the address of `p`,
      provided `c` is not itself an ancestor of `p`. */
  lemma UriAfterAdd(a: Arena, p: Id, c: Id)
    requires Rooted(a, p) && c < |a| && c !in Ancestors(a, p)
    ensures Rooted(Add(a, p, c), c)
    ensures var r := Add(a, p, c);
      URI(r, c) == match NodeId(a[c])
        case None => None
        case Some(id) => if URI(a, p).None? then Some(id) else Some(URI(a, p).value + "." + id)
  {
    var r := Add(a, p, c);
    forall i | 0 <= i < |Ancestors(a, p)|
      ensures var m := Ancestors(a, p)[i];
        m < |r| && r[m].kind == a[m].kind && r[m].element == a[m].element && r[m].parent == a[m].parent
    {
    }
    UriReadsOnlyAncestors(a, r, p);
    assert Above(r, c, Depth(r, p) + 1);
  }

  // ---------------------------------------------------------------- lookup

  /** `URI != null && URI.EndsWith(uri)`. */
  function Matches(a: Arena, m: Id, uri: string): bool
    requires Rooted(a, m)
  {
    match URI(a, m)
    case Some(u) => EndsWith(u, uri)
    case None => false
  }

  /** `r` is the first node of `s` that matches `uri`, or none of them does. */
  ghost predicate IsFirstMatch(a: Arena, s: seq<Id>, uri: string, r: Option<Id>)
    requires forall m :: m in s ==> Rooted(a, m)
  {
    match r
    case None => forall j :: 0 <= j < |s| ==> !Matches(a, s[j], uri)
    case Some(m) =>
      exists i :: 0 <= i < |s| && s[i] == m && Matches(a, s[i], uri) && forall j :: 0 <= j < i ==> !Matches(a, s[j], uri)
  }

  /** `Get(uri)`: this node if its URI ends with `uri`, else the first hit
      among the children's subtrees, taken left to right. */
  function Get(a: Arena, n: Id, uri: string): (r: Option<Id>)
    requires Searchable(a, n)
    ensures r.Some? ==> r.value in Preorder(a, n) && Rooted(a, r.value) && Matches(a, r.value, uri)
    decreases Height(a, n), 1
  {
    if Matches(a, n, uri) then Some(n) else GetFrom(a, n, 0, uri)
  }

  /** The `foreach` over the children of `n`, from position `i` on. */
  function GetFrom(a: Arena, n: Id, i: nat, uri: string): (r: Option<Id>)
    requires Searchable(a, n) && i <= |a[n].children|
    ensures r.Some? ==> r.value in PreorderFrom(a, n, i) && Rooted(a, r.value) && Matches(a, r.value, uri)
    decreases Height(a, n), 0, |a[n].children| - i
  {
    if i == |a[n].children| then None
    else
      ChildSearchable(a, n, i);
      ChildStep(a, n, a[n].children[i]);
      match Get(a, a[n].children[i], uri)
      case Some(m) => Some(m)
      case None => GetFrom(a, n, i + 1, uri)
  }

  lemma FirstMatchInPrefix(a: Arena, s: seq<Id>, t: seq<Id>, uri: string, m: Id)
    requires forall x :: x in s + t ==> Rooted(a, x)
    requires IsFirstMatch(a, s, uri, Some(m))
    ensures IsFirstMatch(a, s + t, uri, Some(m))
  {
    var i :| 0 <= i < |s| && s[i] == m && Matches(a, s[i], uri) && forall j :: 0 <= j < i ==> !Matches(a, s[j], uri);
    assert (s + t)[i] == m;
  }

  lemma FirstMatchAfterPrefix(a: Arena, s: seq<Id>, t: seq<Id>, uri: string, r: Option<Id>)
    requires forall x :: x in s + t ==> Rooted(a, x)
    requires IsFirstMatch(a, s, uri, None) && IsFirstMatch(a, t, uri, r)
    ensures IsFirstMatch(a, s + t, uri, r)
  {
    if r.Some? {
      var i :| 0 <= i < |t| && t[i] == r.value && Matches(a, t[i], uri) && forall j :: 0 <= j < i ==> !Matches(a, t[j], uri);
      assert (s + t)[|s| + i] == r.value;
      forall j | 0 <= j < |s| + i
        ensures !Matches(a, (s + t)[j], uri)
      {
        if j >= |s| {
          assert (s + t)[j] == t[j - |s|];
        }
      }
    } else {
      forall j | 0 <= j < |s + t|
        ensures !Matches(a, (s + t)[j], uri)
      {
        if j >= |s| {
          assert (s + t)[j] == t[j - |s|];
        }
      }
    }
  }

  /** A node that matches, with no match before it, is the first match. */
  lemma FirstMatchIsEarliest(a: Arena, s: seq<Id>, uri: string, r: Option<Id>, k: nat)
    requires forall m :: m in s ==> Rooted(a, m)
    requires IsFirstMatch(a, s, uri, r)
    requires k < |s| && Matches(a, s[k], uri)
    requires forall j :: 0 <= j < k ==> !Matches(a, s[j], uri)
    ensures r == Some(s[k])
  {
    var i :| 0 <= i < |s| && s[i] == r.value && Matches(a, s[i], uri) && forall j :: 0 <= j < i ==> !Matches(a, s[j], uri);
    assert i == k;
  }

  /** `Get(uri)` returns the first node of the subtree, in pre-order, whose
      URI ends with `uri`; it returns null exactly when no node does. */
  lemma {:induction false} GetIsFirstMatch(a: Arena, n: Id, uri: string)
    requires Searchable(a, n)
    ensures IsFirstMatch(a, Preorder(a, n), uri, Get(a, n, uri))
    decreases Height(a, n), 1
  {
    var P := Preorder(a, n);
    GetFromIsFirstMatch(a, n, 0, uri);
    if Matches(a, n, uri) {
      assert P[0] == n;
    } else {
      assert IsFirstMatch(a, [n], uri, None);
      FirstMatchAfterPrefix(a, [n], PreorderFrom(a, n, 0), uri, GetFrom(a, n, 0, uri));
    }
  }

  lemma {:induction false} GetFromIsFirstMatch(a: Arena, n: Id, i: nat, uri: string)
    requires Searchable(a, n) && i <= |a[n].children|
    ensures forall m :: m in PreorderFrom(a, n, i) ==> Rooted(a, m)
    ensures IsFirstMatch(a, PreorderFrom(a, n, i), uri, GetFrom(a, n, i, uri))
    decreases Height(a, n), 0, |a[n].children| - i
  {
    if i < |a[n].children| {
      PreorderFromCovers(a, n, 0, i);
      if i + 1 < |a[n].children| {
        PreorderFromCovers(a, n, 0, i + 1);
      }
      var c := a[n].children[i];
      ChildSearchable(a, n, i);
      ChildStep(a, n, c);
      PreorderFromInside(a, n, i);
      GetIsFirstMatch(a, c, uri);
      GetFromIsFirstMatch(a, n, i + 1, uri);
      var s := Preorder(a, c);
      var t := PreorderFrom(a, n, i + 1);
      match Get(a, c, uri)
      case Some(m) => FirstMatchInPrefix(a, s, t, uri, m);
      case None => FirstMatchAfterPrefix(a, s, t, uri, GetFrom(a, n, i + 1, uri));
    }
  }

  /** Every node listed after position `i` lies in the pre-order of `n`. */
  lemma PreorderFromInside(a: Arena, n: Id, i: nat)
    requires Finite(a, n) && i <= |a[n].children|
    ensures forall m :: m in PreorderFrom(a, n, i) ==> m in Preorder(a, n)
    decreases |a[n].children| - i
  {
    if i < |a[n].children| {
      ChildStep(a, n, a[n].children[i]);
      PreorderFromCovers(a, n, 0, i);
      PreorderFromInside(a, n, i + 1);
      PreorderFromTail(a, n, 0, i + 1);
    }
  }

  lemma {:induction false} PreorderFromTail(a: Arena, n: Id, i: nat, j: nat)
    requires Finite(a, n) && i <= j <= |a[n].children|
    ensures forall m :: m in PreorderFrom(a, n, j) ==> m in PreorderFrom(a, n, i)
    decreases j - i
  {
    if i < j {
      PreorderFromTail(a, n, i + 1, j);
      ChildStep(a, n, a[n].children[i]);
    }
  }

  /** Every address is found from above: looking up the URI of a node of the
      subtree finds a node, no later in pre-order than that node, whose URI
      ends with it. The hit need not be the node itself (see
      `SuffixLookupCanMissTheNode`). */
  lemma GetFindsEveryAddress(a: Arena, n: Id, k: nat)
    requires Searchable(a, n) && k < |Preorder(a, n)|
    requires URI(a, Preorder(a, n)[k]).Some?
    ensures var r := Get(a, n, URI(a, Preorder(a, n)[k]).value);
      r.Some? && exists i :: 0 <= i <= k && Preorder(a, n)[i] == r.value
  {
    var P := Preorder(a, n);
    var u := URI(a, P[k]).value;
    GetIsFirstMatch(a, n, u);
    assert Matches(a, P[k], u);
    var r := Get(a, n, u);
    assert r.Some?;
    var i :| 0 <= i < |P| && P[i] == r.value && Matches(a, P[i], u) && forall j :: 0 <= j < i ==> !Matches(a, P[j], u);
    assert i <= k;
  }

  /** `Get<N>(uri)`: the `Get` hit when it is of class `cls`; null when there
      is no hit and also when the hit has another class. */
  function GetAs(a: Arena, n: Id, uri: string, cls: NodeClass): (r: Option<Id>)
    requires Searchable(a, n)
    ensures r.Some? <==> Get(a, n, uri).Some? && IsA(a[Get(a, n, uri).value].kind, cls)
    ensures r.Some? ==> r == Get(a, n, uri)
  {
    match Get(a, n, uri)
    case None => None
    case Some(m) => if IsA(a[m].kind, cls) then Some(m) else None
  }

  /** Asking for the base class `Node` is plain `Get`. */
  lemma GetAsNodeIsGet(a: Arena, n: Id, uri: string)
    requires Searchable(a, n)
    ensures GetAs(a, n, uri, NodeBase) == Get(a, n, uri)
  {
    var r := Get(a, n, uri);
    if r.Some? {
      AbstractClassMembers(a[r.value].kind);
    }
  }

  // ---------------------------------------------------------------- dump

  /** What a node's dump line shows: its payload's text, or "?" without one. */
  function Label(n: Node): string {
    match n.element
    case None => "?"
    case Some(e) => Text(e)
  }

  /** `Dump(str, depth)`: two spaces per depth level, the label and a line
      break, then the children one level deeper. */
  function Dump(a: Arena, n: Id, depth: nat): string
    requires Finite(a, n)
    decreases Height(a, n), 1
  {
    Spaces(2 * depth) + Label(a[n]) + "\n" + DumpFrom(a, n, 0, depth + 1)
  }

  function DumpFrom(a: Arena, n: Id, i: nat, depth: nat): string
    requires Finite(a, n) && i <= |a[n].children|
    decreases Height(a, n), 0, |a[n].children| - i
  {
    if i == |a[n].children| then ""
    else
      ChildStep(a, n, a[n].children[i]);
      Dump(a, a[n].children[i], depth) + DumpFrom(a, n, i + 1, depth)
  }

  /** `ToString()`: the outline from depth 0, rendered one line per entry. */
  function ToString(a: Arena, n: Id): (r: string)
    requires Finite(a, n)
    ensures r == Render(a, Outline(a, n, 0))
  {
    DumpRendersOutline(a, n, 0);
    Dump(a, n, 0)
  }

  /** One dump line: a node and its depth below the node dumped. */
  datatype Line = Line(node: Id, depth: nat)

  /** The lines of a dump starting at `depth`, as data. */
  function Outline(a: Arena, n: Id, depth: nat): (r: seq<Line>)
    requires Finite(a, n)
    ensures |r| >= 1 && r[0] == Line(n, depth)
    ensures InArena(a, r) && forall l :: l in r ==> l.depth >= depth
    decreases Height(a, n), 1
  {
    [Line(n, depth)] + OutlineFrom(a, n, 0, depth + 1)
  }

  function OutlineFrom(a: Arena, n: Id, i: nat, depth: nat): (r: seq<Line>)
    requires Finite(a, n) && i <= |a[n].children|
    ensures InArena(a, r) && forall l :: l in r ==> l.depth >= depth
    decreases Height(a, n), 0, |a[n].children| - i
  {
    if i == |a[n].children| then []
    else
      ChildStep(a, n, a[n].children[i]);
      Outline(a, a[n].children[i], depth) + OutlineFrom(a, n, i + 1, depth)
  }

  /** The text of one line: `2 * depth` spaces, the label, a line break. */
  function LineText(a: Arena, l: Line): string
    requires l.node < |a|
  {
    Spaces(2 * l.depth) + Label(a[l.node]) + "\n"
  }

  /** Whether every line names a node of the arena. */
  predicate InArena(a: Arena, lines: seq<Line>) {
    forall i :: 0 <= i < |lines| ==> lines[i].node < |a|
  }

  function Render(a: Arena, lines: seq<Line>): string
    requires InArena(a, lines)
  {
    if lines == [] then "" else LineText(a, lines[0]) + Render(a, lines[1..])
  }

  lemma {:induction false} RenderAppend(a: Arena, xs: seq<Line>, ys: seq<Line>)
    requires InArena(a, xs) && InArena(a, ys)
    ensures InArena(a, xs + ys) && Render(a, xs + ys) == Render(a, xs) + Render(a, ys)
  {
    if xs == [] {
      assert xs + ys == ys;
    } else {
      var zs := xs + ys;
      assert InArena(a, zs) by {
        forall i | 0 <= i < |zs|
          ensures zs[i].node < |a|
        {
          if i < |xs| { assert zs[i] == xs[i]; } else { assert zs[i] == ys[i - |xs|]; }
        }
      }
      assert zs[0] == xs[0];
      assert zs[1..] == xs[1..] + ys;
      RenderAppend(a, xs[1..], ys);
      calc {
        Render(a, zs);
        LineText(a, xs[0]) + Render(a, xs[1..] + ys);
        LineText(a, xs[0]) + (Render(a, xs[1..]) + Render(a, ys));
        (LineText(a, xs[0]) + Render(a, xs[1..])) + Render(a, ys);
      }
    }
  }

  /** The dump is the outline rendered one line per entry. */
  lemma {:induction false} DumpRendersOutline(a: Arena, n: Id, depth: nat)
    requires Finite(a, n)
    ensures Dump(a, n, depth) == Render(a, Outline(a, n, depth))
    decreases Height(a, n), 1
  {
    DumpFromRendersOutline(a, n, 0, depth + 1);
    var o := Outline(a, n, depth);
    assert o[1..] == OutlineFrom(a, n, 0, depth + 1);
  }

  lemma {:induction false} DumpFromRendersOutline(a: Arena, n: Id, i: nat, depth: nat)
    requires Finite(a, n) && i <= |a[n].children|
    ensures DumpFrom(a, n, i, depth) == Render(a, OutlineFrom(a, n, i, depth))
    decreases Height(a, n), 0, |a[n].children| - i
  {
    if i < |a[n].children| {
      var c := a[n].children[i];
      ChildStep(a, n, c);
      DumpRendersOutline(a, c, depth);
      DumpFromRendersOutline(a, n, i + 1, depth);
      RenderAppend(a, Outline(a, c, depth), OutlineFrom(a, n, i + 1, depth));
    }
  }

  /** Line `y` shows a child of line `x`'s node, one level deeper. */
  predicate ChildLine(a: Arena, x: Line, y: Line) {
    x.node < |a| && y.node in a[x.node].children && y.depth == x.depth + 1
  }

  /** Line `y` shows a child of `parent` at `depth`. */
  predicate TopLine(a: Arena, parent: Id, depth: nat, y: Line) {
    parent < |a| && y.node in a[parent].children && y.depth == depth
  }

  /** Each line after the first sits one level below an earlier line whose
      node lists it as a child. */
  ghost predicate IndentedUnder(a: Arena, o: seq<Line>) {
    forall k :: 0 < k < |o| ==> HasParentLine(a, o, k)
  }

  /** Some line before line `k` shows the parent of line `k`'s node. */
  ghost predicate HasParentLine(a: Arena, o: seq<Line>, k: nat)
    requires k < |o|
  {
    exists j :: 0 <= j < k && ChildLine(a, o[j], o[k])
  }

  /** Each line is a child of `parent` at `depth`, or sits one level below
      an earlier line whose node lists it as a child. */
  ghost predicate IndentedBelow(a: Arena, o: seq<Line>, parent: Id, depth: nat) {
    forall k :: 0 <= k < |o| ==> TopLine(a, parent, depth, o[k]) || HasParentLine(a, o, k)
  }

  /** Line `k` of `o` has its parent line at `j`, so it has one. */
  lemma ParentLineWitness(a: Arena, o: seq<Line>, j: nat, k: nat)
    requires j < k < |o| && ChildLine(a, o[j], o[k])
    ensures HasParentLine(a, o, k)
  {
  }

  /** A parent line stays a parent line when lines are appended. */
  lemma ParentLineBeforeMore(a: Arena, xs: seq<Line>, ys: seq<Line>, k: nat)
    requires k < |xs| && HasParentLine(a, xs, k)
    ensures HasParentLine(a, xs + ys, k)
  {
    var j :| 0 <= j < k && ChildLine(a, xs[j], xs[k]);
    assert (xs + ys)[j] == xs[j] && (xs + ys)[k] == xs[k];
    ParentLineWitness(a, xs + ys, j, k);
  }

  /** A parent line stays a parent line when lines are prepended. */
  lemma ParentLineAfterMore(a: Arena, xs: seq<Line>, ys: seq<Line>, k: nat)
    requires k < |ys| && HasParentLine(a, ys, k)
    ensures HasParentLine(a, xs + ys, |xs| + k)
  {
    var j :| 0 <= j < k && ChildLine(a, ys[j], ys[k]);
    assert (xs + ys)[|xs| + j] == ys[j] && (xs + ys)[|xs| + k] == ys[k];
    ParentLineWitness(a, xs + ys, |xs| + j, |xs| + k);
  }

  /** Line `k` of `[head] + r`, given the fact `IndentedBelow` states for its line in `r`. */
  lemma IndentedConsAt(a: Arena, head: Line, r: seq<Line>, k: nat)
    requires 0 < k <= |r|
    requires TopLine(a, head.node, head.depth + 1, r[k - 1]) || HasParentLine(a, r, k - 1)
    ensures HasParentLine(a, [head] + r, k)
  {
    if TopLine(a, head.node, head.depth + 1, r[k - 1]) {
      assert ([head] + r)[0] == head && ([head] + r)[k] == r[k - 1];
      ParentLineWitness(a, [head] + r, 0, k);
    } else {
      ParentLineAfterMore(a, [head], r, k - 1);
    }
  }

  /** A line followed by lines that sit below its node at the next depth. */
  lemma IndentedCons(a: Arena, head: Line, r: seq<Line>)
    requires IndentedBelow(a, r, head.node, head.depth + 1)
    ensures IndentedUnder(a, [head] + r)
  {
    forall k | 0 < k < |[head] + r|
      ensures HasParentLine(a, [head] + r, k)
    {
      IndentedConsAt(a, head, r, k);
    }
  }

  /** A child's outline followed by the lines of later siblings. */
  lemma IndentedAppend(a: Arena, oc: seq<Line>, rest: seq<Line>, n: Id, depth: nat)
    requires |oc| >= 1 && TopLine(a, n, depth, oc[0])
    requires IndentedUnder(a, oc) && IndentedBelow(a, rest, n, depth)
    ensures IndentedBelow(a, oc + rest, n, depth)
  {
    var o := oc + rest;
    forall k | 0 <= k < |o|
      ensures TopLine(a, n, depth, o[k]) || HasParentLine(a, o, k)
    {
      if k == 0 {
        assert o[0] == oc[0];
      } else if k < |oc| {
        ParentLineBeforeMore(a, oc, rest, k);
      } else if TopLine(a, n, depth, rest[k - |oc|]) {
        assert o[k] == rest[k - |oc|];
      } else {
        ParentLineAfterMore(a, oc, rest, k - |oc|);
      }
    }
  }

  /** The outline lists exactly the pre-order nodes, in that order. */
  lemma {:induction false} OutlineFollowsPreorder(a: Arena, n: Id, depth: nat)
    requires Finite(a, n)
    ensures var o := Outline(a, n, depth); var p := Preorder(a, n);
      |o| == |p| && forall i :: 0 <= i < |o| ==> o[i].node == p[i]
    decreases Height(a, n), 1
  {
    OutlineFromFollowsPreorder(a, n, 0, depth + 1);
  }

  lemma {:induction false} OutlineFromFollowsPreorder(a: Arena, n: Id, i: nat, depth: nat)
    requires Finite(a, n) && i <= |a[n].children|
    ensures var o := OutlineFrom(a, n, i, depth); var p := PreorderFrom(a, n, i);
      |o| == |p| && forall k :: 0 <= k < |o| ==> o[k].node == p[k]
    decreases Height(a, n), 0, |a[n].children| - i
  {
    if i < |a[n].children| {
      var c := a[n].children[i];
      ChildStep(a, n, c);
      OutlineFollowsPreorder(a, c, depth);
      OutlineFromFollowsPreorder(a, n, i + 1, depth);
    }
  }

  /** The outline's indentation follows the tree: the first line is at the
      starting depth and every later line is one level below an earlier
      line whose node lists it as a child. */
  lemma {:induction false} OutlineIndentsUnderParents(a: Arena, n: Id, depth: nat)
    requires Finite(a, n)
    ensures Outline(a, n, depth)[0].depth == depth && IndentedUnder(a, Outline(a, n, depth))
    decreases Height(a, n), 1
  {
    OutlineFromIndentsUnderParents(a, n, 0, depth + 1);
    var r := OutlineFrom(a, n, 0, depth + 1);
    assert Outline(a, n, depth) == [Line(n, depth)] + r;
    IndentedCons(a, Line(n, depth), r);
  }

  lemma {:induction false} OutlineFromIndentsUnderParents(a: Arena, n: Id, i: nat, depth: nat)
    requires Finite(a, n) && i <= |a[n].children|
    ensures IndentedBelow(a, OutlineFrom(a, n, i, depth), n, depth)
    decreases Height(a, n), 0, |a[n].children| - i
  {
    if i < |a[n].children| {
      var c := a[n].children[i];
      ChildStep(a, n, c);
      OutlineIndentsUnderParents(a, c, depth);
      OutlineFromIndentsUnderParents(a, n, i + 1, depth);
      IndentedAppend(a, Outline(a, c, depth), OutlineFrom(a, n, i + 1, depth), n, depth);
    }
  }
}
