/** The `Program` cursor that builds a tree top-down: `Enter` adds a node
    under the current one and descends into it, `Exit` climbs back to the
    current node's parent. */
module Builder {
  import opened Wrappers
  import opened CodeElements
  import opened Nodes
  import opened Structure
  import opened Tree
  import opened Invariants

  /** The arena together with the `Root` and `Current` properties. */
  datatype Program = Program(arena: Arena, root: Id, current: Option<Id>)

  /** The `NullReferenceException` raised when `Current` is null. */
  datatype Misuse = NullCurrent

  /** A program state the cursor can work on. */
  ghost predicate Valid(s: Program) {
    && WellFormed(s.arena)
    && s.root < |s.arena|
    && (s.current.Some? ==> s.current.value < |s.arena|)
  }

  /** The constructor: a fresh `Root` that is also the current node. */
  function NewProgram(): (s: Program)
    ensures Valid(s) && s.current == Some(s.root)
    ensures s.arena[s.root].kind == Root && s.arena[s.root].element.None?
    ensures s.arena[s.root].parent.None? && s.arena[s.root].children == []
  {
    var s := Program([NodeState(Root, None, None, [])], 0, Some(0));
    assert Above(s.arena, 0, 1) && Below(s.arena, 0, 1);
    s
  }

  /** `Enter(node)`: `Current.Add(node)`, then `node` becomes current. */
  function Enter(s: Program, n: Id): (r: Result<Program, Misuse>)
    requires n < |s.arena| && (s.current.Some? ==> s.current.value < |s.arena|)
    ensures r.Failure? <==> s.current.None?
    ensures r.Success? ==>
      && r.value.arena == Add(s.arena, s.current.value, n)
      && r.value.current == Some(n) && r.value.root == s.root
  {
    match s.current
    case None => Failure(NullCurrent)
    case Some(c) => Success(s.(arena := Add(s.arena, c, n), current := Some(n)))
  }

  /** `Exit()`: `Current` becomes its parent, which is null at the top. */
  function Exit(s: Program): (r: Result<Program, Misuse>)
    requires s.current.Some? ==> s.current.value < |s.arena|
    ensures r.Failure? <==> s.current.None?
    ensures r.Success? ==>
      && r.value.current == s.arena[s.current.value].parent
      && r.value.arena == s.arena && r.value.root == s.root
  {
    match s.current
    case None => Failure(NullCurrent)
    case Some(c) => Success(s.(current := s.arena[c].parent))
  }

  /** `Enter(new K(e))`: constructs the node, then enters it. */
  function EnterNew(s: Program, k: Kind, e: Option<CodeElement>): (r: Result<Program, Misuse>)
    requires Accepts(k, e) && Constructible(k)
    requires s.current.Some? ==> s.current.value < |s.arena|
    ensures r.Failure? <==> s.current.None?
    ensures r.Success? ==> |r.value.arena| == |s.arena| + 1 && r.value.current == Some(|s.arena|)
    ensures r.Success? ==> r.value.arena[|s.arena|].kind == k && r.value.arena[|s.arena|].element == e
  {
    var (a, n) := Construct(s.arena, k, e);
    Enter(s.(arena := a), n)
  }

  /** `Exit()` keeps a valid state valid. */
  lemma ExitKeepsValid(s: Program)
    requires Valid(s) && s.current.Some?
    ensures Exit(s).Success? && Valid(Exit(s).value)
  {
  }

  /** On a valid state with a current node, `Enter(new K(e))` succeeds and
      the state stays valid: the new node is a leaf hung under a rooted node. */
  lemma EnterNewKeepsValid(s: Program, k: Kind, e: Option<CodeElement>)
    requires Accepts(k, e) && Constructible(k)
    requires Valid(s) && s.current.Some?
    ensures EnterNew(s, k, e).Success? && Valid(EnterNew(s, k, e).value)
  {
    var (a, n) := Construct(s.arena, k, e);
    ConstructKeepsWellFormed(s.arena, k, e);
    AddLeafKeepsWellFormed(a, s.current.value, n);
  }

  /** `Enter(n); Exit()` returns the cursor to where it was. */
  lemma EnterThenExit(s: Program, n: Id)
    requires n < |s.arena| && s.current.Some? && s.current.value < |s.arena|
    ensures Enter(s, n).Success?
    ensures Exit(Enter(s, n).value) == Success(Enter(s, n).value.(current := s.current))
  {
  }

  /** `Exit()` on a parentless current node does not fail: `Current` becomes
      null, and it is the next `Enter` that fails. */
  lemma ExitAtTopLosesCursor(s: Program, n: Id)
    requires s.current.Some? && s.current.value < |s.arena| && s.arena[s.current.value].parent.None?
    requires n < |s.arena|
    ensures Exit(s) == Success(s.(current := None))
    ensures Enter(Exit(s).value, n) == Failure(NullCurrent)
  {
  }
}
