/** Replaying a construction in which every node is entered right after the
    nodes that precede it in pre-order: the arena grows one prefix at a time
    of the finished tree, and the finished tree is well formed. */
module Replay {
  import opened Wrappers
  import opened CodeElements
  import opened Nodes
  import opened Structure
  import opened Tree
  import opened Builder
  import Seqs

  /** Strictly increasing ids. */
  predicate Increasing(cs: seq<Id>) {
    forall i, j :: 0 <= i < j < |cs| ==> cs[i] < cs[j]
  }

  /** The ids of `cs` below `n`, in their order. */
  function IdsBelow(cs: seq<Id>, n: nat): (r: seq<Id>)
    ensures forall c :: c in r <==> c in cs && c < n
  {
    if cs == [] then []
    else (if cs[0] < n then [cs[0]] else []) + IdsBelow(cs[1..], n)
  }

  lemma {:induction false} IdsBelowNone(cs: seq<Id>, n: nat)
    requires forall c :: c in cs ==> n <= c
    ensures IdsBelow(cs, n) == []
  {
    if cs != [] {
      assert cs[0] in cs && forall c :: c in cs[1..] ==> c in cs;
      IdsBelowNone(cs[1..], n);
    }
  }

  lemma {:induction false} IdsBelowAll(cs: seq<Id>, n: nat)
    requires forall c :: c in cs ==> c < n
    ensures IdsBelow(cs, n) == cs
  {
    if cs != [] {
      assert cs[0] in cs && forall c :: c in cs[1..] ==> c in cs;
      IdsBelowAll(cs[1..], n);
      assert cs == [cs[0]] + cs[1..];
    }
  }

  /** Raising the bound by one appends `n` when `cs` holds it, and nothing
      otherwise: in an increasing list `n` follows every id below it. */
  lemma {:induction false} IdsBelowNext(cs: seq<Id>, n: nat)
    requires Increasing(cs)
    ensures IdsBelow(cs, n + 1) == IdsBelow(cs, n) + (if n in cs then [n] else [])
  {
    if cs != [] {
      IncreasingTail(cs);
      if cs[0] < n {
        IdsBelowNext(cs[1..], n);
        IdsBelowKeepsHead(cs, n);
      } else {
        IdsBelowNone(cs[1..], n + 1);
        IdsBelowNone(cs[1..], n);
        assert IdsBelow(cs, n) == [];
      }
    }
  }

  /** The tail of an increasing list is increasing and above its head. */
  lemma IncreasingTail(cs: seq<Id>)
    requires Increasing(cs) && cs != []
    ensures Increasing(cs[1..]) && forall c :: c in cs[1..] ==> cs[0] < c
  {
    forall c | c in cs[1..]
      ensures cs[0] < c
    {
      var k :| 0 <= k < |cs[1..]| && cs[1..][k] == c;
      assert cs[k + 1] == c;
    }
  }

  /** A head below `n` is kept under both bounds, so raising the bound acts
      on the tail alone. */
  lemma IdsBelowKeepsHead(cs: seq<Id>, n: nat)
    requires cs != [] && cs[0] < n
    requires IdsBelow(cs[1..], n + 1) == IdsBelow(cs[1..], n) + (if n in cs[1..] then [n] else [])
    ensures IdsBelow(cs, n + 1) == IdsBelow(cs, n) + (if n in cs then [n] else [])
  {
    var x, rest := cs[0], cs[1..];
    var tail: seq<Id> := if n in cs then [n] else [];
    assert n in cs <==> n in rest by {
      assert cs == [x] + rest;
    }
    calc {
      IdsBelow(cs, n + 1);
      [x] + IdsBelow(rest, n + 1);
      [x] + (IdsBelow(rest, n) + tail);
      { Seqs.AppendAssoc([x], IdsBelow(rest, n), tail); }
      [x] + IdsBelow(rest, n) + tail;
      IdsBelow(cs, n) + tail;
    }
  }

  /** Node `m` is numbered in order: its parent precedes it and lists it,
      and its children follow it, point back at it and are increasing. */
  predicate NumberedAt(a: Arena, m: Id)
    requires m < |a|
  {
    && (a[m].parent.Some? ==> a[m].parent.value < m && m in a[a[m].parent.value].children)
    && Increasing(a[m].children)
    && forall i :: 0 <= i < |a[m].children| ==> m < a[m].children[i] < |a| && a[a[m].children[i]].parent == Some(m)
  }

  /** Every node is numbered in order. */
  ghost predicate Numbered(a: Arena) {
    forall m {:trigger NumberedAt(a, m)} :: 0 <= m < |a| ==> NumberedAt(a, m)
  }

  /** The arena once the nodes `0 .. n-1` are built and linked. */
  function Prefix(a: Arena, n: nat): (r: Arena)
    requires n <= |a|
    ensures |r| == n
    ensures forall i :: 0 <= i < n ==> r[i].parent == a[i].parent
  {
    seq(n, i requires 0 <= i < n => a[i].(children := IdsBelow(a[i].children, n)))
  }

  /** A numbered arena is well formed: the parent chain of `m` has at most
      `m + 1` nodes and the paths down from `m` at most `|a| - m`. */
  lemma NumberedWellFormed(a: Arena)
    requires Numbered(a)
    ensures WellFormed(a)
  {
    forall m | 0 <= m < |a|
      ensures (a[m].parent.Some? ==> a[m].parent.value < |a|) && forall c :: c in a[m].children ==> c < |a|
      ensures Rooted(a, m) && Finite(a, m)
    {
      assert NumberedAt(a, m);
      NumberedAbove(a, m);
      NumberedBelow(a, m);
    }
  }

  lemma {:induction false} NumberedAbove(a: Arena, m: Id)
    requires Numbered(a) && m < |a|
    ensures Above(a, m, m + 1)
  {
    assert NumberedAt(a, m);
    if a[m].parent.Some? {
      var p := a[m].parent.value;
      NumberedAbove(a, p);
      AboveMonotone(a, p, p + 1, m);
    }
  }

  lemma {:induction false} NumberedBelow(a: Arena, m: Id)
    requires Numbered(a) && m < |a|
    ensures Below(a, m, |a| - m)
    decreases |a| - m
  {
    assert NumberedAt(a, m);
    forall c | c in a[m].children
      ensures Below(a, c, |a| - m - 1)
    {
      NumberedBelow(a, c);
      BelowMonotone(a, c, |a| - c, |a| - m - 1);
    }
  }

  /** A fresh program holds the first node of a numbered arena whose root
      is a payload-less `Root`. */
  lemma NewProgramIsPrefix(a: Arena)
    requires Numbered(a) && |a| > 0
    requires a[0].kind == Root && a[0].element.None?
    ensures NewProgram().arena == Prefix(a, 1)
  {
    assert NumberedAt(a, 0);
    IdsBelowNone(a[0].children, 1);
    assert Prefix(a, 1)[0] == NodeState(Root, None, None, []);
  }

  /** Once every node is built, the prefix is the whole arena. */
  lemma PrefixComplete(a: Arena)
    requires Numbered(a)
    ensures Prefix(a, |a|) == a
  {
    forall i | 0 <= i < |a|
      ensures Prefix(a, |a|)[i] == a[i]
    {
      assert NumberedAt(a, i);
      IdsBelowAll(a[i].children, |a|);
    }
  }

  /** `EnterNew` on a state with a cursor, spelled out as sequence operations:
      the new leaf is appended with the current node as its parent, and its id
      is appended to the current node's children. */
  lemma EnterNewAppends(s: Program, k: Kind, e: Option<CodeElement>)
    requires Accepts(k, e) && Constructible(k)
    requires s.current.Some? && s.current.value < |s.arena|
    ensures var c := s.current.value;
      EnterNew(s, k, e) == Success(Program(
        s.arena[c := s.arena[c].(children := s.arena[c].children + [|s.arena|])]
          + [NodeState(k, e, Some(c), [])],
        s.root, Some(|s.arena|)))
  {
    var c := s.current.value;
    var r := EnterNew(s, k, e).value;
    var b := s.arena[c := s.arena[c].(children := s.arena[c].children + [|s.arena|])]
      + [NodeState(k, e, Some(c), [])];
    assert |r.arena| == |b|;
    forall m | 0 <= m < |b| ensures r.arena[m] == b[m] {
    }
    assert r.arena == b;
    assert r.root == s.root && r.current == Some(|s.arena|);
  }

  /** Building node `n` appends it to its parent's children in the prefix
      and leaves every other earlier node as it was. */
  lemma PrefixGrows(a: Arena, n: nat, i: nat)
    requires n < |a| && a[n].parent.Some? && i < n && NumberedAt(a, i) && NumberedAt(a, n)
    ensures var p := a[n].parent.value;
      Prefix(a, n + 1)[i] == if i == p then Prefix(a, n)[i].(children := Prefix(a, n)[i].children + [n]) else Prefix(a, n)[i]
  {
    IdsBelowNext(a[i].children, n);
    if i != a[n].parent.value {
      assert n !in a[i].children;
    }
  }

  /** Node `n` enters the prefix as a leaf: its children come later. */
  lemma PrefixLast(a: Arena, n: nat)
    requires n < |a| && NumberedAt(a, n)
    ensures Prefix(a, n + 1)[n] == NodeState(a[n].kind, a[n].element, a[n].parent, [])
  {
    IdsBelowNone(a[n].children, n + 1);
  }

  /** The prefix that also holds `n`: `n` appended as a leaf under its
      parent. */
  lemma PrefixAppend(a: Arena, n: nat)
    requires Numbered(a) && n < |a| && a[n].parent.Some? && a[n].parent.value < n
    ensures var p := a[n].parent.value;
      Prefix(a, n + 1) == Prefix(a, n)[p := Prefix(a, n)[p].(children := Prefix(a, n)[p].children + [n])]
        + [NodeState(a[n].kind, a[n].element, Some(p), [])]
  {
    var p := a[n].parent.value;
    var before := Prefix(a, n);
    var linked := before[p := before[p].(children := before[p].children + [n])];
    var leaf := NodeState(a[n].kind, a[n].element, Some(p), []);
    var b := linked + [leaf];
    assert |b| == n + 1;
    forall i | 0 <= i < n + 1
      ensures b[i] == Prefix(a, n + 1)[i]
    {
      if i == n {
        assert b[i] == leaf;
        assert NumberedAt(a, n);
        PrefixLast(a, n);
      } else {
        assert b[i] == linked[i];
        assert NumberedAt(a, i) && NumberedAt(a, n);
        PrefixGrows(a, n, i);
      }
    }
    assert b == Prefix(a, n + 1);
  }

  /** Entering node `n` of a numbered arena from its parent, when the nodes
      before it are built, builds the prefix that also holds `n`. */
  lemma EnterNewExtendsPrefix(s: Program, a: Arena, n: nat)
    requires Numbered(a) && n < |a| && a[n].parent.Some? && a[n].parent.value < n
    requires Constructible(a[n].kind)
    requires s.arena == Prefix(a, n) && s.current == a[n].parent
    ensures EnterNew(s, a[n].kind, a[n].element) == Success(Program(Prefix(a, n + 1), s.root, Some(n)))
  {
    EnterNewAppends(s, a[n].kind, a[n].element);
    assert NumberedAt(a, n);
    PrefixAppend(a, n);
  }

  /** One statement of a construction script: `Enter(new K(e))` or `Exit()`. */
  datatype Step = In(kind: Kind, element: Option<CodeElement>) | Out

  /** A statement the C# compiler accepts: the payload has the type the
      kind's constructor takes. */
  type Stmt = st: Step | st.In? ==> Accepts(st.kind, st.element) && Constructible(st.kind) witness Out

  /** Runs the statements in order, stopping at the first failure. */
  function Run(s: Program, steps: seq<Stmt>): (r: Result<Program, Misuse>)
    requires Valid(s)
    ensures r.Success? ==> Valid(r.value) && r.value.root == s.root
    decreases |steps|
  {
    if steps == [] then Success(s)
    else
      match steps[0]
      case In(k, e) =>
        var t :- EnterNew(s, k, e);
        EnterNewKeepsValid(s, k, e);
        Run(t, steps[1..])
      case Out =>
        var t :- Exit(s);
        ExitKeepsValid(s);
        Run(t, steps[1..])
  }

  /** Running `x + y` runs `x`, then `y` from where `x` stopped. */
  lemma {:induction false} RunAppend(s: Program, x: seq<Stmt>, y: seq<Stmt>)
    requires Valid(s)
    ensures Run(s, x + y) == (match Run(s, x) case Success(t) => Run(t, y) case Failure(e) => Failure(e))
    decreases |x|
  {
    if x == [] {
      assert x + y == y;
    } else {
      assert (x + y)[0] == x[0] && (x + y)[1..] == x[1..] + y;
      match x[0]
      case In(k, e) =>
        if s.current.Some? {
          EnterNewKeepsValid(s, k, e);
          RunAppend(EnterNew(s, k, e).value, x[1..], y);
        }
      case Out =>
        if s.current.Some? {
          ExitKeepsValid(s);
          RunAppend(Exit(s).value, x[1..], y);
        }
    }
  }

  /** Two runs that succeed one after the other make one run. */
  lemma RunThen(s: Program, x: seq<Stmt>, y: seq<Stmt>, t: Program, u: Program)
    requires Valid(s) && Run(s, x) == Success(t) && Run(t, y) == Success(u)
    ensures Run(s, x + y) == Success(u)
  {
    RunAppend(s, x, y);
  }

  /** Every kind in the arena is one a constructor produces. */
  predicate AllConstructible(a: Arena) {
    forall m :: 0 <= m < |a| ==> Constructible(a[m].kind)
  }

  /** The statement that enters node `n`. */
  function EnterOf(a: Arena, n: Id): (st: Stmt)
    requires AllConstructible(a) && n < |a|
    ensures st == In(a[n].kind, a[n].element)
  {
    In(a[n].kind, a[n].element)
  }

  /** `Enter(head)`, then `body`, then `Exit()`. */
  function Block(head: Stmt, body: seq<Stmt>): seq<Stmt> {
    [head] + body + [Out]
  }

  /** The script that builds the subtree of `n` top-down: enter `n`, build
      each child's subtree in order, exit. A child id that does not follow
      `n` contributes nothing; in a numbered arena there is none. */
  ghost function Walk(a: Arena, n: Id): seq<Stmt>
    requires AllConstructible(a) && n < |a|
    decreases |a| - n, 1
  {
    Block(EnterOf(a, n), WalkFrom(a, n, 0))
  }

  ghost function WalkFrom(a: Arena, n: Id, i: nat): seq<Stmt>
    requires AllConstructible(a) && n < |a| && i <= |a[n].children|
    decreases |a| - n, 0, |a[n].children| - i
  {
    if i == |a[n].children| then []
    else
      var c := a[n].children[i];
      (if n < c < |a| then Walk(a, c) else []) + WalkFrom(a, n, i + 1)
  }

  /** The id that follows the subtree of `n` in pre-order. As in `Walk`, a
      last child that does not follow `n` is not followed. */
  ghost function Next(a: Arena, n: Id): (r: nat)
    ensures n < r && (n < |a| ==> r <= |a|)
    decreases |a| - n
  {
    if |a| <= n || a[n].children == [] then n + 1
    else
      var c := a[n].children[|a[n].children| - 1];
      if n < c < |a| then Next(a, c) else n + 1
  }

  /** The id that follows `n` and the subtrees of its first `i` children. */
  ghost function Start(a: Arena, n: Id, i: nat): nat
    requires n < |a| && i <= |a[n].children|
  {
    if i == 0 then n + 1 else Next(a, a[n].children[i - 1])
  }

  /** Ids are handed out in pre-order: the first child of `n` is `n + 1`,
      and each further child follows the subtree of the one before it. */
  ghost predicate PreorderNumbered(a: Arena) {
    && Numbered(a)
    && forall n, i {:trigger Start(a, n, i)} :: 0 <= n < |a| && 0 <= i < |a[n].children| ==> a[n].children[i] == Start(a, n, i)
  }

  /** Entering node `n` from its parent builds the prefix that holds `n`. */
  lemma RunEnter(s: Program, a: Arena, n: Id)
    requires Numbered(a) && AllConstructible(a) && n < |a| && a[n].parent.Some?
    requires Valid(s) && s.arena == Prefix(a, n) && s.current == a[n].parent
    ensures Run(s, [EnterOf(a, n)]) == Success(Program(Prefix(a, n + 1), s.root, Some(n)))
  {
    assert NumberedAt(a, n);
    EnterNewExtendsPrefix(s, a, n);
    EnterNewKeepsValid(s, a[n].kind, a[n].element);
    assert [EnterOf(a, n)][1..] == [];
  }

  /** `Exit()` as a one-statement script. */
  lemma RunExit(s: Program)
    requires Valid(s) && s.current.Some?
    ensures Run(s, [Out]) == Success(s.(current := s.arena[s.current.value].parent))
  {
    ExitKeepsValid(s);
    assert [Out][1..] == [];
  }

  /** Running one statement, then a script, then `Exit()`, chains the three
      runs. */
  lemma RunEnclosed(s: Program, first: Stmt, body: seq<Stmt>, t: Program, u: Program)
    requires Valid(s) && Run(s, [first]) == Success(t)
    requires Valid(t) && Run(t, body) == Success(u)
    requires Valid(u) && u.current.Some?
    ensures Run(s, Block(first, body)) == Success(u.(current := u.arena[u.current.value].parent))
  {
    assert [first] + body + [Out] == [first] + (body + [Out]);
    RunAppend(s, [first], body + [Out]);
    RunAppend(t, body, [Out]);
    RunExit(u);
  }

  /** Replaying the walk of `n`, from its parent once the ids before `n`
      are built, builds exactly the ids of the subtree of `n` and returns the
      cursor to the parent. */
  lemma {:induction false} WalkBuilds(s: Program, a: Arena, n: Id)
    requires PreorderNumbered(a) && AllConstructible(a) && n < |a| && a[n].parent.Some?
    requires Valid(s) && s.arena == Prefix(a, n) && s.current == a[n].parent
    ensures Run(s, Walk(a, n)) == Success(Program(Prefix(a, Next(a, n)), s.root, a[n].parent))
    decreases |a| - n, 1
  {
    RunEnter(s, a, n);
    var t := Program(Prefix(a, n + 1), s.root, Some(n));
    assert NumberedAt(a, n);
    assert Building(t, a, n, 0);
    WalkFromBuilds(t, a, n, 0);
    var u := Program(Prefix(a, Next(a, n)), s.root, Some(n));
    RunEnclosed(s, EnterOf(a, n), WalkFrom(a, n, 0), t, u);
  }

  /** The replay has entered `n` and built the subtrees of its first `i`
      children: every id before `Start(a, n, i)` is built. */
  ghost predicate Building(s: Program, a: Arena, n: Id, i: nat) {
    && PreorderNumbered(a) && AllConstructible(a) && n < |a| && NumberedAt(a, n)
    && i <= |a[n].children| && Start(a, n, i) <= |a|
    && Valid(s) && s.current == Some(n) && s.arena == Prefix(a, Start(a, n, i))
  }

  lemma {:induction false} WalkFromBuilds(s: Program, a: Arena, n: Id, i: nat)
    requires Building(s, a, n, i)
    ensures Run(s, WalkFrom(a, n, i)) == Success(Program(Prefix(a, Next(a, n)), s.root, Some(n)))
    decreases |a| - n, 0, |a[n].children| - i, 1
  {
    var cs := a[n].children;
    if i == |cs| {
      WalkFromEnd(s, a, n);
    } else {
      var t := WalkChildBuilds(s, a, n, i);
      WalkFromBuilds(t, a, n, i + 1);
      WalkFromStep(s, a, n, i, t, Program(Prefix(a, Next(a, n)), s.root, Some(n)));
    }
  }

  /** The walk of the children from `i` on is the walk of child `i`, then
      the walk of the rest. */
  lemma WalkFromStep(s: Program, a: Arena, n: Id, i: nat, t: Program, u: Program)
    requires AllConstructible(a) && n < |a| && i < |a[n].children| && n < a[n].children[i] < |a|
    requires Valid(s) && Run(s, Walk(a, a[n].children[i])) == Success(t)
    requires Run(t, WalkFrom(a, n, i + 1)) == Success(u)
    ensures Run(s, WalkFrom(a, n, i)) == Success(u)
  {
    var c := a[n].children[i];
    assert WalkFrom(a, n, i) == Walk(a, c) + WalkFrom(a, n, i + 1);
    RunThen(s, Walk(a, c), WalkFrom(a, n, i + 1), t, u);
  }

  /** Once every child of `n` is built, nothing is left to replay. */
  lemma WalkFromEnd(s: Program, a: Arena, n: Id)
    requires n < |a| && Building(s, a, n, |a[n].children|)
    ensures Run(s, WalkFrom(a, n, |a[n].children|)) == Success(Program(Prefix(a, Next(a, n)), s.root, Some(n)))
  {
    assert WalkFrom(a, n, |a[n].children|) == [];
    StartAtEnd(a, n);
    assert s == Program(Prefix(a, Next(a, n)), s.root, Some(n));
  }

  /** Replaying the walk of child `i` of `n` builds the ids up to where
      that child's subtree ends. */
  lemma {:induction false} WalkChildBuilds(s: Program, a: Arena, n: Id, i: nat) returns (t: Program)
    requires Building(s, a, n, i) && i < |a[n].children|
    ensures Building(t, a, n, i + 1)
    ensures Run(s, Walk(a, a[n].children[i])) == Success(t)
    decreases |a| - n, 0, |a[n].children| - i, 0
  {
    var c := a[n].children[i];
    assert n < c < |a| && a[c].parent == Some(n);
    assert c == Start(a, n, i);
    WalkBuilds(s, a, c);
    t := Program(Prefix(a, Next(a, c)), s.root, Some(n));
  }

  /** The ids `lo`, `lo + 1`, ..., `hi - 1`. */
  function Range(lo: nat, hi: nat): (r: seq<Id>)
    requires lo <= hi
    ensures |r| == hi - lo && forall i :: 0 <= i < |r| ==> r[i] == lo + i
    decreases hi - lo
  {
    if lo == hi then [] else [lo] + Range(lo + 1, hi)
  }

  lemma RangeAppend(x: nat, y: nat, z: nat)
    requires x <= y <= z
    ensures Range(x, y) + Range(y, z) == Range(x, z)
  {
  }

  /** In an arena numbered in pre-order, the pre-order listing of `n` (the
      order `Get` and the dump visit nodes in) is the run of ids from `n` up
      to where its subtree ends. */
  lemma {:induction false} PreorderIsRange(a: Arena, n: Id)
    requires PreorderNumbered(a) && n < |a|
    ensures Finite(a, n) && Preorder(a, n) == Range(n, Next(a, n))
    decreases |a| - n, 1
  {
    NumberedWellFormed(a);
    PreorderFromIsRange(a, n, 0);
  }

  lemma {:induction false} PreorderFromIsRange(a: Arena, n: Id, i: nat)
    requires PreorderNumbered(a) && n < |a| && i <= |a[n].children|
    ensures Finite(a, n) && Start(a, n, i) <= Next(a, n)
    ensures PreorderFrom(a, n, i) == Range(Start(a, n, i), Next(a, n))
    decreases |a| - n, 0, |a[n].children| - i
  {
    assert Finite(a, n) by { NumberedWellFormed(a); }
    var cs := a[n].children;
    if i == |cs| {
      StartAtEnd(a, n);
    } else {
      var c := cs[i];
      assert n < c < |a| && c == Start(a, n, i) by { assert NumberedAt(a, n); }
      PreorderIsRange(a, c);
      PreorderFromIsRange(a, n, i + 1);
      RangeAppend(c, Next(a, c), Next(a, n));
    }
  }

  /** The subtree of `n` ends where the subtree of its last child does. */
  lemma StartAtEnd(a: Arena, n: Id)
    requires n < |a| && NumberedAt(a, n)
    ensures Start(a, n, |a[n].children|) == Next(a, n)
  {
    var cs := a[n].children;
    if cs != [] {
      assert NumberedAt(a, n);
      assert n < cs[|cs| - 1] < |a|;
    }
  }
}
