/** The strong views: `StrongParent` for kinds implementing `Child<P>` and
    `StrongChildren` for kinds implementing `Parent<C>`, both narrowing the
    generic references with a checked cast. */
module Views {
  import opened Wrappers
  import opened Nodes
  import opened Structure
  import opened Tree

  /** The `InvalidCastException` of a failed narrowing, naming the node the
      cast was applied to. */
  datatype CastError = InvalidCast(node: Id)

  /** `(P)node.Parent`: a null parent narrows to null; a parent of another
      class makes the cast fail. */
  function StrongParent(a: Arena, n: Id): (r: Result<Option<Id>, CastError>)
    requires n < |a| && DeclaredParent(a[n].kind).Some?
    requires a[n].parent.Some? ==> a[n].parent.value < |a|
    ensures r.Success? <==> a[n].parent.None? || IsA(a[a[n].parent.value].kind, DeclaredParent(a[n].kind).value)
    ensures r.Success? ==> r.value == a[n].parent
    ensures r.Failure? ==> r.error == InvalidCast(a[n].parent.value)
  {
    match a[n].parent
    case None => Success(None)
    case Some(p) =>
      if IsA(a[p].kind, DeclaredParent(a[n].kind).value) then Success(Some(p)) else Failure(InvalidCast(p))
  }

  /** The loop of `StrongChildren`: casts each id of `cs` to `cls` in order
      and stops at the first one that does not fit. */
  function NarrowAll(a: Arena, cs: seq<Id>, cls: NodeClass): (r: Result<seq<Id>, CastError>)
    requires forall i :: 0 <= i < |cs| ==> cs[i] < |a|
    ensures r.Success? <==> forall i :: 0 <= i < |cs| ==> IsA(a[cs[i]].kind, cls)
    ensures r.Success? ==> r.value == cs
    ensures r.Failure? ==>
      exists i :: 0 <= i < |cs| && r.error == InvalidCast(cs[i]) && !IsA(a[cs[i]].kind, cls)
        && forall j :: 0 <= j < i ==> IsA(a[cs[j]].kind, cls)
  {
    if cs == [] then Success([])
    else if !IsA(a[cs[0]].kind, cls) then Failure(InvalidCast(cs[0]))
    else
      match NarrowAll(a, cs[1..], cls)
      case Success(rest) => Success([cs[0]] + rest)
      case Failure(err) =>
        var k :| 0 <= k < |cs[1..]| && err == InvalidCast(cs[1..][k])
          && !IsA(a[cs[1..][k]].kind, cls) && forall j :: 0 <= j < k ==> IsA(a[cs[1..][j]].kind, cls);
        assert cs[k + 1] == cs[1..][k];
        Failure(err)
  }

  /** `StrongChildren()`: a fresh list holding, at every index, the child at
      that index, provided every child has the declared class. */
  function StrongChildren(a: Arena, n: Id): (r: Result<seq<Id>, CastError>)
    requires n < |a| && DeclaredChildren(a[n].kind).Some?
    requires forall i :: 0 <= i < |a[n].children| ==> a[n].children[i] < |a|
    ensures r.Success? <==> forall i :: 0 <= i < |a[n].children| ==> IsA(a[a[n].children[i]].kind, DeclaredChildren(a[n].kind).value)
    ensures r.Success? ==> |r.value| == |a[n].children|
    ensures r.Success? ==> forall i :: 0 <= i < |r.value| ==> r.value[i] == a[n].children[i]
  {
    NarrowAll(a, a[n].children, DeclaredChildren(a[n].kind).value)
  }

  /** The children a section declares are exactly the ones whose own
      `StrongParent` succeeds, while a definition nested in another
      definition always fails it. */
  lemma StrongParentUnderDeclaringParent(a: Arena, n: Id)
    requires n < |a| && a[n].parent.Some? && a[n].parent.value < |a|
    requires DeclaredChildren(a[a[n].parent.value].kind).Some?
    requires IsA(a[n].kind, DeclaredChildren(a[a[n].parent.value].kind).value)
    ensures DeclaredParent(a[n].kind).Some?
    ensures StrongParent(a, n).Success? <==> IsA(a[a[n].parent.value].kind, DataSectionClass)
  {
    DeclarationsAgreeOnlyUnderSections(a[a[n].parent.value].kind, a[n].kind);
  }

  /** The strong view is a snapshot: after `n.Add(c)` a new call sees `c` at
      the end, while a list obtained before is the old one. */
  lemma StrongChildrenAfterAdd(a: Arena, n: Id, c: Id)
    requires n < |a| && c < |a| && DeclaredChildren(a[n].kind).Some?
    requires forall i :: 0 <= i < |a[n].children| ==> a[n].children[i] < |a|
    requires StrongChildren(a, n).Success? && IsA(a[c].kind, DeclaredChildren(a[n].kind).value)
    ensures var r := Add(a, n, c);
      StrongChildren(r, n) == Success(StrongChildren(a, n).value + [c])
  {
    var r := Add(a, n, c);
    var cls := DeclaredChildren(a[n].kind).value;
    assert forall i :: 0 <= i < |r[n].children| ==> IsA(r[r[n].children[i]].kind, cls) by {
      forall i | 0 <= i < |r[n].children|
        ensures IsA(r[r[n].children[i]].kind, cls)
      {
        if i < |a[n].children| {
          assert r[n].children[i] == a[n].children[i];
        }
      }
    }
  }
}
