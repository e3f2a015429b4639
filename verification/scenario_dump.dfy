/** The text `ToString` gives on the tree the demo driver builds, and on the
    two nodes its first lookups find. */
module ScenarioDump {
  import opened Wrappers
  import opened Seqs
  import opened Structure
  import opened Tree
  import opened Scenario
  import opened ScenarioQueries

  // ---------------------------------------------------------------- outline

  /** The outline of the scenario tree from the root: the nodes in pre-order,
      each with its depth. */
  function ScenarioOutline(): seq<Line> {
    [Line(0, 0), Line(1, 1),
     Line(2, 2), Line(3, 3), Line(4, 4), Line(5, 4),
     Line(6, 2), Line(7, 3), Line(8, 4), Line(9, 5), Line(10, 4),
     Line(11, 3), Line(12, 3), Line(13, 3), Line(14, 3),
     Line(15, 3), Line(16, 4), Line(17, 4), Line(18, 4)]
  }

  /** A node without children is outlined by its own line. */
  lemma LeafOutline(a: Arena, n: Id, depth: nat)
    requires Finite(a, n) && a[n].children == []
    ensures Outline(a, n, depth) == [Line(n, depth)]
  {
  }

  /** The outline of children `i..` is the outline of child `i` followed by the rest. */
  lemma OutlineFromStep(a: Arena, n: Id, i: nat, depth: nat)
    requires Finite(a, n) && i < |a[n].children|
    ensures Finite(a, a[n].children[i])
    ensures OutlineFrom(a, n, i, depth) == Outline(a, a[n].children[i], depth) + OutlineFrom(a, n, i + 1, depth)
  {
    ChildStep(a, n, a[n].children[i]);
  }

  /** `POINT2D` and its two fields, at depth 3 below the root. */
  lemma Point2dOutline(a: Arena)
    requires ScenarioShape(a) && Finite(a, 3)
    ensures Outline(a, 3, 3) == [Line(3, 3), Line(4, 4), Line(5, 4)]
  {
    OutlineFromStep(a, 3, 0, 4);
    OutlineFromStep(a, 3, 1, 4);
    LeafOutline(a, 4, 4);
    LeafOutline(a, 5, 4);
  }

  /** The working-storage section at depth 2. */
  lemma WorkingOutline(a: Arena)
    requires ScenarioShape(a) && Finite(a, 2)
    ensures Outline(a, 2, 2) == [Line(2, 2), Line(3, 3), Line(4, 4), Line(5, 4)]
  {
    OutlineFromStep(a, 2, 0, 3);
    Point2dOutline(a);
  }

  /** The record `x` with `a` (holding `b`) and `c`, at depth 3. */
  lemma RecordOutline(a: Arena)
    requires ScenarioShape(a) && Finite(a, 7)
    ensures Outline(a, 7, 3) == [Line(7, 3), Line(8, 4), Line(9, 5), Line(10, 4)]
  {
    OutlineFromStep(a, 7, 0, 4);
    OutlineFromStep(a, 7, 1, 4);
    OutlineFromStep(a, 8, 0, 5);
    LeafOutline(a, 9, 5);
    LeafOutline(a, 10, 4);
  }

  /** `POINT3D` and its three fields, at depth 3. */
  lemma Point3dOutline(a: Arena)
    requires ScenarioShape(a) && Finite(a, 15)
    ensures Outline(a, 15, 3) == [Line(15, 3), Line(16, 4), Line(17, 4), Line(18, 4)]
  {
    OutlineFromStep(a, 15, 0, 4);
    OutlineFromStep(a, 15, 1, 4);
    OutlineFromStep(a, 15, 2, 4);
    LeafOutline(a, 16, 4);
    LeafOutline(a, 17, 4);
    LeafOutline(a, 18, 4);
  }

  /** The linkage section's children from the first flat entry on. */
  lemma LinkageRestOutline(a: Arena)
    requires ScenarioShape(a) && Finite(a, 6)
    ensures OutlineFrom(a, 6, 1, 3) ==
      [Line(11, 3), Line(12, 3), Line(13, 3), Line(14, 3), Line(15, 3), Line(16, 4), Line(17, 4), Line(18, 4)]
  {
    OutlineFromStep(a, 6, 1, 3);
    OutlineFromStep(a, 6, 2, 3);
    OutlineFromStep(a, 6, 3, 3);
    OutlineFromStep(a, 6, 4, 3);
    OutlineFromStep(a, 6, 5, 3);
    LeafOutline(a, 11, 3);
    LeafOutline(a, 12, 3);
    LeafOutline(a, 13, 3);
    LeafOutline(a, 14, 3);
    Point3dOutline(a);
  }

  /** The linkage section's lines: its own, the record's, then the rest. */
  lemma LinkageLines(r: seq<Line>, rest: seq<Line>)
    requires r == [Line(7, 3), Line(8, 4), Line(9, 5), Line(10, 4)]
    requires rest == [Line(11, 3), Line(12, 3), Line(13, 3), Line(14, 3), Line(15, 3), Line(16, 4), Line(17, 4), Line(18, 4)]
    ensures [Line(6, 2)] + (r + rest) ==
      [Line(6, 2), Line(7, 3), Line(8, 4), Line(9, 5), Line(10, 4),
       Line(11, 3), Line(12, 3), Line(13, 3), Line(14, 3),
       Line(15, 3), Line(16, 4), Line(17, 4), Line(18, 4)]
  {
  }

  /** The linkage section at depth 2. */
  lemma LinkageOutline(a: Arena)
    requires ScenarioShape(a) && Finite(a, 6)
    ensures Outline(a, 6, 2) ==
      [Line(6, 2), Line(7, 3), Line(8, 4), Line(9, 5), Line(10, 4),
       Line(11, 3), Line(12, 3), Line(13, 3), Line(14, 3),
       Line(15, 3), Line(16, 4), Line(17, 4), Line(18, 4)]
  {
    OutlineFromStep(a, 6, 0, 3);
    RecordOutline(a);
    LinkageRestOutline(a);
    LinkageLines(Outline(a, 7, 3), OutlineFrom(a, 6, 1, 3));
  }

  /** The tree's lines: the root's, the division's, then the two sections'. */
  lemma RootLines(w: seq<Line>, l: seq<Line>)
    requires w == [Line(2, 2), Line(3, 3), Line(4, 4), Line(5, 4)]
    requires l == [Line(6, 2), Line(7, 3), Line(8, 4), Line(9, 5), Line(10, 4),
       Line(11, 3), Line(12, 3), Line(13, 3), Line(14, 3),
       Line(15, 3), Line(16, 4), Line(17, 4), Line(18, 4)]
    ensures [Line(0, 0)] + (([Line(1, 1)] + (w + (l + []))) + []) == ScenarioOutline()
  {
  }

  /** The whole tree from the root. */
  lemma RootOutline(a: Arena)
    requires ScenarioShape(a) && Finite(a, 0)
    ensures Outline(a, 0, 0) == ScenarioOutline()
  {
    OutlineFromStep(a, 0, 0, 1);
    OutlineFromStep(a, 1, 0, 2);
    OutlineFromStep(a, 1, 1, 2);
    WorkingOutline(a);
    LinkageOutline(a);
    RootLines(Outline(a, 2, 2), Outline(a, 6, 2));
  }

  // ---------------------------------------------------------------- text

  /** One line of expected dump text: its indentation level and what follows
      the indentation. */
  datatype Row = Row(level: nat, text: string)

  /** Rows written out as `Dump` lays text out: two spaces per level, the
      text, then a line break. */
  function Indented(rows: seq<Row>): string {
    if rows == [] then "" else Spaces(2 * rows[0].level) + rows[0].text + "\n" + Indented(rows[1..])
  }

  /** Whether each outline line sits at its row's level and shows its row's text. */
  predicate Shows(a: Arena, lines: seq<Line>, rows: seq<Row>) {
    && |lines| == |rows|
    && forall k :: 0 <= k < |lines| ==>
         lines[k].node < |a| && lines[k].depth == rows[k].level && Label(a[lines[k].node]) == rows[k].text
  }

  /** Rendering outline lines gives the rows they show. */
  lemma {:induction false} RenderShows(a: Arena, lines: seq<Line>, rows: seq<Row>)
    requires Shows(a, lines, rows)
    ensures InArena(a, lines) && Render(a, lines) == Indented(rows)
  {
    if lines != [] {
      assert Shows(a, lines[1..], rows[1..]) by {
        forall k | 0 <= k < |lines| - 1
          ensures lines[1..][k] == lines[k + 1] && rows[1..][k] == rows[k + 1]
        {
        }
      }
      RenderShows(a, lines[1..], rows[1..]);
    }
  }

  /** The dump of the scenario tree from the root, row by row. */
  function ScenarioRows(): seq<Row> {
    [Row(0, "?"),
     Row(1, "DataDivisionHeader"),
     Row(2, "WorkingStorageSectionHeader"),
     Row(3, "01 POINT2D"),
     Row(4, "02 x"),
     Row(4, "02 y"),
     Row(2, "LinkageSectionHeader"),
     Row(3, "01 x"),
     Row(4, "05 a"),
     Row(5, "10 b"),
     Row(4, "05 c"),
     Row(3, "01 y"),
     Row(3, "01 z"),
     Row(3, "88 b"),
     Row(3, "88 c"),
     Row(3, "01 POINT3D"),
     Row(4, "02 x"),
     Row(4, "02 y"),
     Row(4, "02 z")]
  }

  /** The dump label of each node of the scenario, stated on any arena so
      that proofs about the dump need not evaluate the nodes. */
  predicate ScenarioLabels(a: Arena)
    requires |a| == 19
  {
    && Label(a[0]) == "?"
    && Label(a[1]) == "DataDivisionHeader"
    && Label(a[2]) == "WorkingStorageSectionHeader"
    && Label(a[3]) == "01 POINT2D"
    && Label(a[4]) == "02 x"
    && Label(a[5]) == "02 y"
    && Label(a[6]) == "LinkageSectionHeader"
    && Label(a[7]) == "01 x"
    && Label(a[8]) == "05 a"
    && Label(a[9]) == "10 b"
    && Label(a[10]) == "05 c"
    && Label(a[11]) == "01 y"
    && Label(a[12]) == "01 z"
    && Label(a[13]) == "88 b"
    && Label(a[14]) == "88 c"
    && Label(a[15]) == "01 POINT3D"
    && Label(a[16]) == "02 x"
    && Label(a[17]) == "02 y"
    && Label(a[18]) == "02 z"
  }

  /** The scenario arena has the scenario's labels. */
  lemma ScenarioArenaLabels()
    ensures ScenarioLabels(ScenarioArena())
  {
    ArenaLabels0();
    ArenaLabels1();
    ArenaLabels2();
    ArenaLabels3();
    ArenaLabels4();
    ArenaLabels5();
    ArenaLabels6();
  }

  /** The labels of the scenario arena, a few nodes at a time: each literal
      fact is proved in a small lemma so that no single proof grows large. */
  lemma ArenaLabels0()
    ensures var a := ScenarioArena();
      Label(a[0]) == "?" && Label(a[1]) == "DataDivisionHeader" && Label(a[2]) == "WorkingStorageSectionHeader"
  {
  }

  lemma ArenaLabels1()
    ensures var a := ScenarioArena();
      Label(a[3]) == "01 POINT2D" && Label(a[4]) == "02 x" && Label(a[5]) == "02 y"
  {
  }

  lemma ArenaLabels2()
    ensures var a := ScenarioArena();
      Label(a[6]) == "LinkageSectionHeader" && Label(a[7]) == "01 x" && Label(a[8]) == "05 a"
  {
  }

  lemma ArenaLabels3()
    ensures var a := ScenarioArena();
      Label(a[9]) == "10 b" && Label(a[10]) == "05 c" && Label(a[11]) == "01 y"
  {
  }

  lemma ArenaLabels4()
    ensures var a := ScenarioArena();
      Label(a[12]) == "01 z" && Label(a[13]) == "88 b" && Label(a[14]) == "88 c"
  {
  }

  lemma ArenaLabels5()
    ensures var a := ScenarioArena();
      Label(a[15]) == "01 POINT3D" && Label(a[16]) == "02 x"
  {
  }

  lemma ArenaLabels6()
    ensures var a := ScenarioArena();
      Label(a[17]) == "02 y" && Label(a[18]) == "02 z"
  {
  }

  /** On an arena with the scenario's labels, the scenario outline shows the
      scenario rows. */
  lemma OutlineShowsRows(a: Arena)
    requires |a| == 19 && ScenarioLabels(a)
    ensures Shows(a, ScenarioOutline(), ScenarioRows())
  {
    var o, r := ScenarioOutline(), ScenarioRows();
    forall k | 0 <= k < |o|
      ensures o[k].node < |a| && o[k].depth == r[k].level && Label(a[o[k].node]) == r[k].text
    {
      assert k == 0 || k == 1 || k == 2 || k == 3 || k == 4 || k == 5 || k == 6 || k == 7 || k == 8 || k == 9
        || k == 10 || k == 11 || k == 12 || k == 13 || k == 14 || k == 15 || k == 16 || k == 17 || k == 18;
    }
  }

  /** A node whose outline shows some rows dumps as those rows. */
  lemma DumpShows(a: Arena, n: Id, lines: seq<Line>, rows: seq<Row>)
    requires Finite(a, n) && Outline(a, n, 0) == lines && Shows(a, lines, rows)
    ensures ToString(a, n) == Indented(rows)
  {
    RenderShows(a, lines, rows);
  }

  /** On an arena with the scenario's links and labels, the dump from the
      root is the scenario rows. */
  lemma ShapeRootDump(a: Arena)
    requires ScenarioShape(a) && ScenarioLabels(a) && Finite(a, 0)
    ensures ToString(a, 0) == Indented(ScenarioRows())
  {
    RootOutline(a);
    OutlineShowsRows(a);
    DumpShows(a, 0, ScenarioOutline(), ScenarioRows());
  }

  /** A node without children dumps as its own line, at level 0. */
  lemma LeafDump(a: Arena, n: Id, text: string, line: string)
    requires Finite(a, n) && a[n].children == [] && Label(a[n]) == text && line == text + "\n"
    ensures ToString(a, n) == line
  {
    assert DumpFrom(a, n, 0, 1) == "" && Spaces(0) == "";
    assert Dump(a, n, 0) == "" + text + "\n" + "";
    assert "" + text + "\n" + "" == text + "\n";
    assert ToString(a, n) == Dump(a, n, 0);
  }

  /** The line a node labelled `02 x` dumps as. */
  lemma XLine()
    ensures "02 x" + "\n" == "02 x\n"
  {
  }

  /** On an arena with the scenario's links and labels: the dump from the
      root is the scenario rows, and nodes 4 and 16 dump as one line each. */
  lemma ShapeDumps(a: Arena)
    requires ScenarioShape(a) && ScenarioLabels(a)
    requires Finite(a, 0) && Finite(a, 4) && Finite(a, 16)
    ensures ToString(a, 0) == Indented(ScenarioRows())
    ensures ToString(a, 4) == "02 x\n" && ToString(a, 16) == "02 x\n"
  {
    ShapeRootDump(a);
    HitDumps(a);
  }

  /** Nodes 4 and 16, both leaves labelled `02 x`, dump as one line each. */
  lemma HitDumps(a: Arena)
    requires |a| == 19 && Finite(a, 4) && Finite(a, 16)
    requires a[4].children == [] && a[16].children == []
    requires Label(a[4]) == "02 x" && Label(a[16]) == "02 x"
    ensures ToString(a, 4) == "02 x\n" && ToString(a, 16) == "02 x\n"
  {
    XLine();
    LeafDump(a, 4, "02 x", "02 x\n");
    LeafDump(a, 16, "02 x", "02 x\n");
  }

  /** The first three things `Main` prints: the dump of the whole tree, then
      the dumps of the nodes `Get("x")` and `Get("POINT3D.x")` find, each a
      single line. */
  lemma MainDumps()
    ensures var a := ScenarioArena();
      && Searchable(a, 0) && Finite(a, 4) && Finite(a, 16)
      && ToString(a, 0) == Indented(ScenarioRows())
      && Get(a, 0, "x") == Some(4) && ToString(a, 4) == "02 x\n"
      && Get(a, 0, "POINT3D.x") == Some(16) && ToString(a, 16) == "02 x\n"
  {
    var a := ScenarioArena();
    ScenarioArenaShape();
    ScenarioArenaLabels();
    MainLookups();
    assert Finite(a, 4) && Finite(a, 16) by {
      assert WellFormed(a);
    }
    ShapeDumps(a);
  }
}
