/** The tree the demo driver builds, and what lookups, strong views and the
    dump give on it. */
module Scenario {
  import opened Wrappers
  import opened Seqs
  import opened CodeElements
  import opened Nodes
  import opened Structure
  import opened Tree
  import opened Builder
  import opened Replay

  /** A data description entry without a picture, under `parent`. */
  function DescNode(name: string, level: nat, parent: Id, children: seq<Id>): Node {
    NodeState(DataDescription, Some(DataDescriptionEntry(name, level, None)), Some(parent), children)
  }

  function CondNode(name: string, level: nat, parent: Id): Node {
    NodeState(DataCondition, Some(DataConditionEntry(name, level)), Some(parent), [])
  }

  function TypeNode(name: string, level: nat, size: int, parent: Id, children: seq<Id>): Node {
    NodeState(TypeDescription(false), Some(TypeDescriptionEntry(name, level, size)), Some(parent), children)
  }

  function SectionNode(k: Kind, header: CodeElement, children: seq<Id>): Node
    requires Accepts(k, Some(header))
  {
    NodeState(k, Some(header), Some(1), children)
  }

  function RootNode(children: seq<Id>): Node {
    NodeState(Root, None, None, children)
  }

  function DivisionNode(children: seq<Id>): Node {
    NodeState(DataDivision, Some(DataDivisionHeader), Some(0), children)
  }

  /** The arena after the driver's construction sequence. Ids follow the
      order of construction, which is also the pre-order of the tree:
      0 root, 1 division, 2 working, 3 POINT2D (4 x, 5 y), 6 linkage,
      7 x (8 a (9 b), 10 c), 11 y, 12 z, 13 b, 14 c, 15 POINT3D (16 x, 17 y, 18 z). */
  function ScenarioArena(): (a: Arena)
    ensures |a| == 19
  {
    seq(19, i requires 0 <= i => ScenarioNode(i))
  }

  /** Node `i` of the scenario arena. */
  function ScenarioNode(i: nat): Node {
    match i
    case 0 => RootNode([1])
    case 1 => DivisionNode([2, 6])
    case 2 => SectionNode(WorkingStorageSection, WorkingStorageSectionHeader, [3])
    case 3 => TypeNode("POINT2D", 1, 2, 2, [4, 5])
    case 4 => DescNode("x", 2, 3, [])
    case 5 => DescNode("y", 2, 3, [])
    case 6 => SectionNode(LinkageSection, LinkageSectionHeader, [7, 11, 12, 13, 14, 15])
    case 7 => DescNode("x", 1, 6, [8, 10])
    case 8 => DescNode("a", 5, 7, [9])
    case 9 => DescNode("b", 10, 8, [])
    case 10 => DescNode("c", 5, 7, [])
    case 11 => DescNode("y", 1, 6, [])
    case 12 => DescNode("z", 1, 6, [])
    case 13 => CondNode("b", 88, 6)
    case 14 => CondNode("c", 88, 6)
    case 15 => TypeNode("POINT3D", 1, 3, 6, [16, 17, 18])
    case 16 => DescNode("x", 2, 15, [])
    case 17 => DescNode("y", 2, 15, [])
    case _ => DescNode("z", 2, 15, [])
  }

  /** `Enter(new DataDescription(new DataDescriptionEntry { Level, Name }))`. */
  function EnterDesc(name: string, level: nat): Stmt {
    In(DataDescription, Some(DataDescriptionEntry(name, level, None)))
  }

  /** `Enter(new DataCondition(new DataConditionEntry { Level, Name }))`. */
  function EnterCond(name: string, level: nat): Stmt {
    In(DataCondition, Some(DataConditionEntry(name, level)))
  }

  /** `Enter(new TypeDescription(new TypeDefinitionEntry { Level, Name, Size }))`. */
  function EnterType(name: string, level: nat, size: int): Stmt {
    In(TypeDescription(false), Some(TypeDescriptionEntry(name, level, size)))
  }

  /** `Enter` of a division or section node with its header. */
  function EnterHeader(k: Kind, header: CodeElement): Stmt
    requires Accepts(k, Some(header)) && Constructible(k)
  {
    In(k, Some(header))
  }

  /** `Enter(head)` immediately followed by `Exit()`. */
  function Leaf(head: Stmt): seq<Stmt> {
    Block(head, [])
  }

  /** The statements of the driver's construction sequence, in order, each
      `Enter` grouped with the statements up to its matching `Exit`. */
  function MainScript(): seq<Stmt> {
    Block(EnterHeader(DataDivision, DataDivisionHeader),
      Block(EnterHeader(WorkingStorageSection, WorkingStorageSectionHeader),
        Block(EnterType("POINT2D", 1, 2),
          Leaf(EnterDesc("x", 2)) + Leaf(EnterDesc("y", 2))))
      + Block(EnterHeader(LinkageSection, LinkageSectionHeader),
        Block(EnterDesc("x", 1),
          Block(EnterDesc("a", 5), Leaf(EnterDesc("b", 10)))
          + Leaf(EnterDesc("c", 5)))
        + Leaf(EnterDesc("y", 1))
        + Leaf(EnterDesc("z", 1))
        + Leaf(EnterCond("b", 88))
        + Leaf(EnterCond("c", 88))
        + Block(EnterType("POINT3D", 1, 3),
          Leaf(EnterDesc("x", 2)) + Leaf(EnterDesc("y", 2)) + Leaf(EnterDesc("z", 2)))))
  }

  /** The parent and child links of the scenario tree, stated on any arena
      so that proofs about the links need not evaluate the nodes. */
  predicate ScenarioShape(a: Arena) {
    && |a| == 19
    && a[0].parent == None && a[0].children == [1]
    && a[1].parent == Some(0) && a[1].children == [2, 6]
    && a[2].parent == Some(1) && a[2].children == [3]
    && a[3].parent == Some(2) && a[3].children == [4, 5]
    && a[4].parent == Some(3) && a[4].children == []
    && a[5].parent == Some(3) && a[5].children == []
    && a[6].parent == Some(1) && a[6].children == [7, 11, 12, 13, 14, 15]
    && a[7].parent == Some(6) && a[7].children == [8, 10]
    && a[8].parent == Some(7) && a[8].children == [9]
    && a[9].parent == Some(8) && a[9].children == []
    && a[10].parent == Some(7) && a[10].children == []
    && a[11].parent == Some(6) && a[11].children == []
    && a[12].parent == Some(6) && a[12].children == []
    && a[13].parent == Some(6) && a[13].children == []
    && a[14].parent == Some(6) && a[14].children == []
    && a[15].parent == Some(6) && a[15].children == [16, 17, 18]
    && a[16].parent == Some(15) && a[16].children == []
    && a[17].parent == Some(15) && a[17].children == []
    && a[18].parent == Some(15) && a[18].children == []
  }

  /** The scenario arena has the scenario's links. */
  lemma ScenarioArenaShape()
    ensures ScenarioShape(ScenarioArena())
  {
    ArenaLinks0();
    ArenaLinks1();
    ArenaLinks2();
    ArenaLinks3();
    ArenaLinks4();
  }

  /** The links of the scenario arena, five nodes at a time: each literal
      fact is proved in a small lemma so that no single proof grows large. */
  lemma ArenaLinks0()
    ensures var a := ScenarioArena();
      && a[0].parent == None && a[0].children == [1]
      && a[1].parent == Some(0) && a[1].children == [2, 6]
      && a[2].parent == Some(1) && a[2].children == [3]
      && a[3].parent == Some(2) && a[3].children == [4, 5]
  {
  }

  lemma ArenaLinks1()
    ensures var a := ScenarioArena();
      && a[4].parent == Some(3) && a[4].children == []
      && a[5].parent == Some(3) && a[5].children == []
      && a[6].parent == Some(1) && a[6].children == [7, 11, 12, 13, 14, 15]
      && a[7].parent == Some(6) && a[7].children == [8, 10]
  {
  }

  lemma ArenaLinks2()
    ensures var a := ScenarioArena();
      && a[8].parent == Some(7) && a[8].children == [9]
      && a[9].parent == Some(8) && a[9].children == []
      && a[10].parent == Some(7) && a[10].children == []
      && a[11].parent == Some(6) && a[11].children == []
  {
  }

  lemma ArenaLinks3()
    ensures var a := ScenarioArena();
      && a[12].parent == Some(6) && a[12].children == []
      && a[13].parent == Some(6) && a[13].children == []
      && a[14].parent == Some(6) && a[14].children == []
      && a[15].parent == Some(6) && a[15].children == [16, 17, 18]
  {
  }

  lemma ArenaLinks4()
    ensures var a := ScenarioArena();
      && a[16].parent == Some(15) && a[16].children == []
      && a[17].parent == Some(15) && a[17].children == []
      && a[18].parent == Some(15) && a[18].children == []
  {
  }

  /** No node of the scenario is a strongly typed type description. */
  lemma ScenarioConstructible()
    ensures AllConstructible(ScenarioArena())
  {
  }

  /** An arena with the scenario's links is numbered in order. */
  lemma ShapeNumbered(a: Arena)
    requires ScenarioShape(a)
    ensures Numbered(a)
  {
    forall m | 0 <= m < |a|
      ensures NumberedAt(a, m)
    {
      if m < 6 {
        ShapeNumberedLow(a, m);
      } else if m == 6 {
        ShapeNumberedLinkage(a);
      } else if m < 12 {
        ShapeNumberedMiddle(a, m);
      } else {
        ShapeNumberedHigh(a, m);
      }
    }
  }

  lemma ShapeNumberedLow(a: Arena, m: Id)
    requires ScenarioShape(a) && m < 6
    ensures NumberedAt(a, m)
  {
  }

  lemma ShapeNumberedLinkage(a: Arena)
    requires ScenarioShape(a)
    ensures NumberedAt(a, 6)
  {
  }

  lemma ShapeNumberedMiddle(a: Arena, m: Id)
    requires ScenarioShape(a) && 7 <= m < 12
    ensures NumberedAt(a, m)
  {
  }

  lemma ShapeNumberedHigh(a: Arena, m: Id)
    requires ScenarioShape(a) && 12 <= m < 19
    ensures NumberedAt(a, m)
  {
  }

  /** Where each subtree of the scenario ends. */
  lemma ShapeNext(a: Arena)
    requires ScenarioShape(a)
    ensures Next(a, 0) == 19
    ensures Next(a, 1) == 19
    ensures Next(a, 2) == 6
    ensures Next(a, 3) == 6
    ensures Next(a, 4) == 5
    ensures Next(a, 5) == 6
    ensures Next(a, 6) == 19
    ensures Next(a, 7) == 11
    ensures Next(a, 8) == 10
    ensures Next(a, 9) == 10
    ensures Next(a, 10) == 11
    ensures Next(a, 11) == 12
    ensures Next(a, 12) == 13
    ensures Next(a, 13) == 14
    ensures Next(a, 14) == 15
    ensures Next(a, 15) == 19
    ensures Next(a, 16) == 17
    ensures Next(a, 17) == 18
    ensures Next(a, 18) == 19
  {
    assert Next(a, 18) == 19;
    assert Next(a, 17) == 18;
    assert Next(a, 16) == 17;
    assert Next(a, 15) == 19;
    assert Next(a, 14) == 15;
    assert Next(a, 13) == 14;
    assert Next(a, 12) == 13;
    assert Next(a, 11) == 12;
    assert Next(a, 10) == 11;
    assert Next(a, 9) == 10;
    assert Next(a, 8) == 10;
    assert Next(a, 7) == 11;
    assert Next(a, 6) == 19;
    assert Next(a, 5) == 6;
    assert Next(a, 4) == 5;
    assert Next(a, 3) == 6;
    assert Next(a, 2) == 6;
    assert Next(a, 1) == 19;
    assert Next(a, 0) == 19;
  }

  /** An arena with the scenario's links is numbered in pre-order. */
  lemma ShapePreorder(a: Arena)
    requires ScenarioShape(a)
    ensures PreorderNumbered(a)
  {
    ShapeNumbered(a);
    ShapeStarts(a);
  }

  /** Each child of the scenario starts where its previous sibling's
      subtree ends. */
  lemma ShapeStarts(a: Arena)
    requires ScenarioShape(a)
    ensures forall n, i {:trigger Start(a, n, i)} :: 0 <= n < |a| && 0 <= i < |a[n].children| ==> a[n].children[i] == Start(a, n, i)
  {
    forall n, i | 0 <= n < |a| && 0 <= i < |a[n].children|
      ensures a[n].children[i] == Start(a, n, i)
    {
      if n == 6 {
        LinkageStarts(a, i);
      } else if n == 15 {
        RecordStarts(a, i);
      } else {
        OtherStarts(a, n, i);
      }
    }
  }

  lemma LinkageStarts(a: Arena, i: nat)
    requires ScenarioShape(a) && i < 6
    ensures a[6].children[i] == Start(a, 6, i)
  {
    ShapeNext(a);
    assert i in {0, 1, 2, 3, 4, 5};
  }

  lemma RecordStarts(a: Arena, i: nat)
    requires ScenarioShape(a) && i < 3
    ensures a[15].children[i] == Start(a, 15, i)
  {
    ShapeNext(a);
    assert i in {0, 1, 2};
  }

  lemma OtherStarts(a: Arena, n: Id, i: nat)
    requires ScenarioShape(a) && n < 19 && n != 6 && n != 15 && i < |a[n].children|
    ensures a[n].children[i] == Start(a, n, i)
  {
    ShapeNext(a);
    assert n in {0, 1, 2, 3, 7, 8};
  }

  /** The walk of a leaf of the scenario enters and exits it. */
  lemma LeafWalks(a: Arena)
    requires ScenarioShape(a) && AllConstructible(a)
    ensures Walk(a, 4) == Leaf(EnterOf(a, 4))
    ensures Walk(a, 5) == Leaf(EnterOf(a, 5))
    ensures Walk(a, 9) == Leaf(EnterOf(a, 9))
    ensures Walk(a, 10) == Leaf(EnterOf(a, 10))
    ensures Walk(a, 11) == Leaf(EnterOf(a, 11))
    ensures Walk(a, 12) == Leaf(EnterOf(a, 12))
    ensures Walk(a, 13) == Leaf(EnterOf(a, 13))
    ensures Walk(a, 14) == Leaf(EnterOf(a, 14))
    ensures Walk(a, 16) == Leaf(EnterOf(a, 16))
    ensures Walk(a, 17) == Leaf(EnterOf(a, 17))
    ensures Walk(a, 18) == Leaf(EnterOf(a, 18))
  {
  }

  /** The walks of the division, the working-storage section, `POINT2D` and `a`. */
  lemma UpperWalks(a: Arena)
    requires ScenarioShape(a) && AllConstructible(a)
    ensures Walk(a, 1) == Block(EnterOf(a, 1), Walk(a, 2) + Walk(a, 6))
    ensures Walk(a, 2) == Block(EnterOf(a, 2), Walk(a, 3))
    ensures Walk(a, 3) == Block(EnterOf(a, 3), Walk(a, 4) + Walk(a, 5))
    ensures Walk(a, 8) == Block(EnterOf(a, 8), Walk(a, 9))
  {
    assert WalkFrom(a, 1, 1) == Walk(a, 6);
    assert WalkFrom(a, 1, 0) == Walk(a, 2) + Walk(a, 6);
    assert WalkFrom(a, 2, 0) == Walk(a, 3);
    assert WalkFrom(a, 3, 1) == Walk(a, 5);
    assert WalkFrom(a, 3, 0) == Walk(a, 4) + Walk(a, 5);
    assert WalkFrom(a, 8, 0) == Walk(a, 9);
  }

  /** The walks of the linkage record `x` and of `POINT3D`. */
  lemma RecordWalks(a: Arena)
    requires ScenarioShape(a) && AllConstructible(a)
    ensures Walk(a, 7) == Block(EnterOf(a, 7), Walk(a, 8) + Walk(a, 10))
    ensures Walk(a, 15) == Block(EnterOf(a, 15), Walk(a, 16) + Walk(a, 17) + Walk(a, 18))
  {
    assert WalkFrom(a, 7, 1) == Walk(a, 10);
    assert WalkFrom(a, 7, 0) == Walk(a, 8) + Walk(a, 10);
    assert WalkFrom(a, 15, 2) == Walk(a, 18);
    assert WalkFrom(a, 15, 1) == Walk(a, 17) + Walk(a, 18);
    AppendAssoc(Walk(a, 16), Walk(a, 17), Walk(a, 18));
    assert WalkFrom(a, 15, 0) == Walk(a, 16) + Walk(a, 17) + Walk(a, 18);
  }

  /** The walk of the linkage section. */
  lemma LinkageWalk(a: Arena)
    requires ScenarioShape(a) && AllConstructible(a)
    ensures Walk(a, 6) == Block(EnterOf(a, 6), Walk(a, 7) + Walk(a, 11) + Walk(a, 12) + Walk(a, 13) + Walk(a, 14) + Walk(a, 15))
  {
    assert WalkFrom(a, 6, 5) == Walk(a, 15);
    assert WalkFrom(a, 6, 4) == Walk(a, 14) + Walk(a, 15);
    AppendAssoc(Walk(a, 13), Walk(a, 14), Walk(a, 15));
    assert WalkFrom(a, 6, 3) == Walk(a, 13) + Walk(a, 14) + Walk(a, 15);
    AppendAssoc(Walk(a, 12), Walk(a, 13) + Walk(a, 14), Walk(a, 15));
    AppendAssoc(Walk(a, 12), Walk(a, 13), Walk(a, 14));
    assert WalkFrom(a, 6, 2) == Walk(a, 12) + Walk(a, 13) + Walk(a, 14) + Walk(a, 15);
    AppendAssoc(Walk(a, 11), Walk(a, 12) + Walk(a, 13) + Walk(a, 14), Walk(a, 15));
    AppendAssoc(Walk(a, 11), Walk(a, 12) + Walk(a, 13), Walk(a, 14));
    AppendAssoc(Walk(a, 11), Walk(a, 12), Walk(a, 13));
    assert WalkFrom(a, 6, 1) == Walk(a, 11) + Walk(a, 12) + Walk(a, 13) + Walk(a, 14) + Walk(a, 15);
    AppendAssoc(Walk(a, 7), Walk(a, 11) + Walk(a, 12) + Walk(a, 13) + Walk(a, 14), Walk(a, 15));
    AppendAssoc(Walk(a, 7), Walk(a, 11) + Walk(a, 12) + Walk(a, 13), Walk(a, 14));
    AppendAssoc(Walk(a, 7), Walk(a, 11) + Walk(a, 12), Walk(a, 13));
    AppendAssoc(Walk(a, 7), Walk(a, 11), Walk(a, 12));
    assert WalkFrom(a, 6, 0) == Walk(a, 7) + Walk(a, 11) + Walk(a, 12) + Walk(a, 13) + Walk(a, 14) + Walk(a, 15);
  }

  /** Replaying the walk of the division on an arena with the scenario's
      links, from a new program, builds that whole arena and leaves the
      cursor on the root; the arena is then well formed. */
  lemma ShapeBuilds(a: Arena)
    requires ScenarioShape(a) && AllConstructible(a)
    requires a[0].kind == Root && a[0].element.None?
    ensures WellFormed(a)
    ensures Run(NewProgram(), Walk(a, 1)) == Success(Program(a, 0, Some(0)))
  {
    ShapePreorder(a);
    ShapeNext(a);
    NewProgramIsPrefix(a);
    WalkBuilds(NewProgram(), a, 1);
    PrefixComplete(a);
    NumberedWellFormed(a);
  }

  /** The statement that enters each node of the data division, stated on
      any arena. */
  predicate ScenarioEnters(a: Arena)
    requires |a| == 19 && AllConstructible(a)
  {
    && EnterOf(a, 1) == EnterHeader(DataDivision, DataDivisionHeader)
    && EnterOf(a, 2) == EnterHeader(WorkingStorageSection, WorkingStorageSectionHeader)
    && EnterOf(a, 3) == EnterType("POINT2D", 1, 2)
    && EnterOf(a, 4) == EnterDesc("x", 2)
    && EnterOf(a, 5) == EnterDesc("y", 2)
    && EnterOf(a, 6) == EnterHeader(LinkageSection, LinkageSectionHeader)
    && EnterOf(a, 7) == EnterDesc("x", 1)
    && EnterOf(a, 8) == EnterDesc("a", 5)
    && EnterOf(a, 9) == EnterDesc("b", 10)
    && EnterOf(a, 10) == EnterDesc("c", 5)
    && EnterOf(a, 11) == EnterDesc("y", 1)
    && EnterOf(a, 12) == EnterDesc("z", 1)
    && EnterOf(a, 13) == EnterCond("b", 88)
    && EnterOf(a, 14) == EnterCond("c", 88)
    && EnterOf(a, 15) == EnterType("POINT3D", 1, 3)
    && EnterOf(a, 16) == EnterDesc("x", 2)
    && EnterOf(a, 17) == EnterDesc("y", 2)
    && EnterOf(a, 18) == EnterDesc("z", 2)
  }

  /** The scenario arena's nodes are entered by the driver's statements. */
  lemma ScenarioArenaEnters()
    ensures AllConstructible(ScenarioArena()) && ScenarioEnters(ScenarioArena())
  {
    ScenarioConstructible();
    ArenaEnters0();
    ArenaEnters1();
    ArenaEnters2();
    ArenaEnters3();
  }

  /** The enter statements of the scenario arena, a few nodes at a time, so
      that each proof over the literal arena stays small. */
  lemma ArenaEnters0()
    requires AllConstructible(ScenarioArena())
    ensures var a := ScenarioArena();
      && EnterOf(a, 1) == EnterHeader(DataDivision, DataDivisionHeader)
      && EnterOf(a, 2) == EnterHeader(WorkingStorageSection, WorkingStorageSectionHeader)
      && EnterOf(a, 3) == EnterType("POINT2D", 1, 2)
      && EnterOf(a, 4) == EnterDesc("x", 2)
      && EnterOf(a, 5) == EnterDesc("y", 2)
  {
  }

  lemma ArenaEnters1()
    requires AllConstructible(ScenarioArena())
    ensures var a := ScenarioArena();
      && EnterOf(a, 6) == EnterHeader(LinkageSection, LinkageSectionHeader)
      && EnterOf(a, 7) == EnterDesc("x", 1)
      && EnterOf(a, 8) == EnterDesc("a", 5)
      && EnterOf(a, 9) == EnterDesc("b", 10)
      && EnterOf(a, 10) == EnterDesc("c", 5)
  {
  }

  lemma ArenaEnters2()
    requires AllConstructible(ScenarioArena())
    ensures var a := ScenarioArena();
      && EnterOf(a, 11) == EnterDesc("y", 1)
      && EnterOf(a, 12) == EnterDesc("z", 1)
      && EnterOf(a, 13) == EnterCond("b", 88)
      && EnterOf(a, 14) == EnterCond("c", 88)
  {
  }

  lemma ArenaEnters3()
    requires AllConstructible(ScenarioArena())
    ensures var a := ScenarioArena();
      && EnterOf(a, 15) == EnterType("POINT3D", 1, 3)
      && EnterOf(a, 16) == EnterDesc("x", 2)
      && EnterOf(a, 17) == EnterDesc("y", 2)
      && EnterOf(a, 18) == EnterDesc("z", 2)
  {
  }

  /** The driver's statements are the walk of the data division of any
      arena with the scenario's links and nodes. */
  lemma ShapeScript(a: Arena)
    requires ScenarioShape(a) && AllConstructible(a) && ScenarioEnters(a)
    ensures MainScript() == Walk(a, 1)
  {
    LeafWalks(a);
    UpperWalks(a);
    RecordWalks(a);
    LinkageWalk(a);
  }

  /** The driver's statements are the walk of the data division of the
      scenario arena. */
  lemma MainScriptIsWalk()
    ensures AllConstructible(ScenarioArena())
    ensures MainScript() == Walk(ScenarioArena(), 1)
  {
    ScenarioArenaShape();
    ScenarioArenaEnters();
    ShapeScript(ScenarioArena());
  }

  /** The root of the scenario arena is the program's own root. */
  lemma ScenarioRoot()
    ensures ScenarioArena()[0] == RootNode([1])
  {
  }

  /** The driver's construction sequence, from a new program, builds the
      scenario arena, a well-formed tree, and leaves the cursor on the root. */
  lemma MainBuildsScenario()
    ensures WellFormed(ScenarioArena())
    ensures Run(NewProgram(), MainScript()) == Success(Program(ScenarioArena(), 0, Some(0)))
  {
    ScenarioArenaShape();
    ScenarioArenaEnters();
    ScenarioRoot();
    ShapeScript(ScenarioArena());
    ShapeBuilds(ScenarioArena());
  }
}
