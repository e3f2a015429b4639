/** What addresses, lookups and the strong views give on the tree the demo
    driver builds. */
module ScenarioQueries {
  import opened Wrappers
  import opened Seqs
  import opened CodeElements
  import opened Nodes
  import opened Structure
  import opened Tree
  import opened Views
  import opened Replay
  import opened Scenario

  /** An arena with the scenario's links is well formed, and searching it
      from the root visits the ids in increasing order. */
  lemma ShapeSearchable(a: Arena)
    requires ScenarioShape(a)
    ensures WellFormed(a) && Searchable(a, 0)
    ensures Preorder(a, 0) == Range(0, 19)
  {
    ShapePreorder(a);
    ShapeNext(a);
    NumberedWellFormed(a);
    WellFormedSearchable(a, 0);
    PreorderIsRange(a, 0);
  }

  lemma ScenarioSearchable()
    ensures WellFormed(ScenarioArena()) && Searchable(ScenarioArena(), 0)
    ensures Preorder(ScenarioArena(), 0) == Range(0, 19)
  {
    ScenarioArenaShape();
    ShapeSearchable(ScenarioArena());
  }

  /** The ID each node of the scenario contributes to addresses. */
  predicate ScenarioIds(a: Arena)
    requires |a| == 19
  {
    && NodeId(a[0]) == None
    && NodeId(a[1]) == None
    && NodeId(a[2]) == Some("working")
    && NodeId(a[3]) == Some("POINT2D")
    && NodeId(a[4]) == Some("x")
    && NodeId(a[5]) == Some("y")
    && NodeId(a[6]) == Some("linkage")
    && NodeId(a[7]) == Some("x")
    && NodeId(a[8]) == Some("a")
    && NodeId(a[9]) == Some("b")
    && NodeId(a[10]) == Some("c")
    && NodeId(a[11]) == Some("y")
    && NodeId(a[12]) == Some("z")
    && NodeId(a[13]) == Some("b")
    && NodeId(a[14]) == Some("c")
    && NodeId(a[15]) == Some("POINT3D")
    && NodeId(a[16]) == Some("x")
    && NodeId(a[17]) == Some("y")
    && NodeId(a[18]) == Some("z")
  }

  lemma ScenarioArenaIds()
    ensures ScenarioIds(ScenarioArena())
  {
    ArenaIds0();
    ArenaIds1();
    ArenaIds2();
    ArenaIds3();
    ArenaIds4();
    ArenaIds5();
    ArenaIds6();
  }

  /** The IDs of the scenario arena, three nodes at a time, so that each
      proof over the literal arena stays small. */
  lemma ArenaIds0()
    ensures var a := ScenarioArena();
      && NodeId(a[0]) == None
      && NodeId(a[1]) == None
      && NodeId(a[2]) == Some("working")
  {
  }

  lemma ArenaIds1()
    ensures var a := ScenarioArena();
      && NodeId(a[3]) == Some("POINT2D")
      && NodeId(a[4]) == Some("x")
      && NodeId(a[5]) == Some("y")
  {
  }

  lemma ArenaIds2()
    ensures var a := ScenarioArena();
      && NodeId(a[6]) == Some("linkage")
      && NodeId(a[7]) == Some("x")
      && NodeId(a[8]) == Some("a")
  {
  }

  lemma ArenaIds3()
    ensures var a := ScenarioArena();
      && NodeId(a[9]) == Some("b")
      && NodeId(a[10]) == Some("c")
      && NodeId(a[11]) == Some("y")
  {
  }

  lemma ArenaIds4()
    ensures var a := ScenarioArena();
      && NodeId(a[12]) == Some("z")
      && NodeId(a[13]) == Some("b")
      && NodeId(a[14]) == Some("c")
  {
  }

  lemma ArenaIds5()
    ensures var a := ScenarioArena();
      && NodeId(a[15]) == Some("POINT3D")
      && NodeId(a[16]) == Some("x")
  {
  }

  lemma ArenaIds6()
    ensures var a := ScenarioArena();
      && NodeId(a[17]) == Some("y")
      && NodeId(a[18]) == Some("z")
  {
  }

  /** One step of `URI`: a node with an ID below a parent with an address. */
  lemma UriStep(a: Arena, n: Id, p: Id, puri: string, id: string)
    requires Rooted(a, n) && a[n].parent == Some(p)
    requires NodeId(a[n]) == Some(id)
    requires Rooted(a, p) && URI(a, p) == Some(puri)
    ensures URI(a, n) == Some(puri + "." + id)
  {
  }

  lemma WorkingDots()
    ensures "working" + "." + "POINT2D" == "working.POINT2D"
    ensures "working.POINT2D" + "." + "x" == "working.POINT2D.x"
    ensures "working.POINT2D" + "." + "y" == "working.POINT2D.y"
  {
  }

  /** The addresses of the working-storage section and its entries. */
  lemma WorkingUris(a: Arena)
    requires ScenarioShape(a) && ScenarioIds(a) && WellFormed(a)
    ensures URI(a, 0) == None && URI(a, 1) == None
    ensures URI(a, 2) == Some("working")
    ensures URI(a, 3) == Some("working.POINT2D")
    ensures URI(a, 4) == Some("working.POINT2D.x")
    ensures URI(a, 5) == Some("working.POINT2D.y")
  {
    assert URI(a, 1) == None;
    assert URI(a, 2) == Some("working");
    WorkingDots();
    UriStep(a, 3, 2, "working", "POINT2D");
    UriStep(a, 4, 3, "working.POINT2D", "x");
    UriStep(a, 5, 3, "working.POINT2D", "y");
  }

  lemma LinkageDots()
    ensures "linkage" + "." + "x" == "linkage.x"
    ensures "linkage.x" + "." + "a" == "linkage.x.a"
    ensures "linkage.x.a" + "." + "b" == "linkage.x.a.b"
    ensures "linkage.x" + "." + "c" == "linkage.x.c"
    ensures "linkage" + "." + "y" == "linkage.y"
    ensures "linkage" + "." + "z" == "linkage.z"
    ensures "linkage" + "." + "b" == "linkage.b"
    ensures "linkage" + "." + "c" == "linkage.c"
  {
  }

  /** The addresses of the linkage section and of its entries outside `POINT3D`. */
  lemma LinkageUris(a: Arena)
    requires ScenarioShape(a) && ScenarioIds(a) && WellFormed(a)
    ensures URI(a, 6) == Some("linkage")
    ensures URI(a, 7) == Some("linkage.x")
    ensures URI(a, 8) == Some("linkage.x.a")
    ensures URI(a, 9) == Some("linkage.x.a.b")
    ensures URI(a, 10) == Some("linkage.x.c")
    ensures URI(a, 11) == Some("linkage.y")
    ensures URI(a, 12) == Some("linkage.z")
    ensures URI(a, 13) == Some("linkage.b")
    ensures URI(a, 14) == Some("linkage.c")
  {
    assert URI(a, 1) == None;
    LinkageDots();
    assert URI(a, 6) == Some("linkage");
    UriStep(a, 7, 6, "linkage", "x");
    UriStep(a, 8, 7, "linkage.x", "a");
    UriStep(a, 9, 8, "linkage.x.a", "b");
    UriStep(a, 10, 7, "linkage.x", "c");
    UriStep(a, 11, 6, "linkage", "y");
    UriStep(a, 12, 6, "linkage", "z");
    UriStep(a, 13, 6, "linkage", "b");
    UriStep(a, 14, 6, "linkage", "c");
  }

  lemma Point3dDots()
    ensures "linkage" + "." + "POINT3D" == "linkage.POINT3D"
    ensures "linkage.POINT3D" + "." + "x" == "linkage.POINT3D.x"
    ensures "linkage.POINT3D" + "." + "y" == "linkage.POINT3D.y"
    ensures "linkage.POINT3D" + "." + "z" == "linkage.POINT3D.z"
  {
  }

  /** The addresses of `POINT3D` and its fields. */
  lemma Point3dUris(a: Arena)
    requires ScenarioShape(a) && ScenarioIds(a) && WellFormed(a)
    ensures URI(a, 15) == Some("linkage.POINT3D")
    ensures URI(a, 16) == Some("linkage.POINT3D.x")
    ensures URI(a, 17) == Some("linkage.POINT3D.y")
    ensures URI(a, 18) == Some("linkage.POINT3D.z")
  {
    assert URI(a, 1) == None;
    assert URI(a, 6) == Some("linkage");
    Point3dDots();
    UriStep(a, 15, 6, "linkage", "POINT3D");
    UriStep(a, 16, 15, "linkage.POINT3D", "x");
    UriStep(a, 17, 15, "linkage.POINT3D", "y");
    UriStep(a, 18, 15, "linkage.POINT3D", "z");
  }

  /** The addresses of the working-storage section and its entries. */
  ghost predicate WorkingAddresses(a: Arena)
    requires |a| == 19 && WellFormed(a)
  {
    && URI(a, 0) == None
    && URI(a, 1) == None
    && URI(a, 2) == Some("working")
    && URI(a, 3) == Some("working.POINT2D")
    && URI(a, 4) == Some("working.POINT2D.x")
    && URI(a, 5) == Some("working.POINT2D.y")
  }

  /** The addresses of the linkage section and its entries outside `POINT3D`. */
  ghost predicate LinkageAddresses(a: Arena)
    requires |a| == 19 && WellFormed(a)
  {
    && URI(a, 6) == Some("linkage")
    && URI(a, 7) == Some("linkage.x")
    && URI(a, 8) == Some("linkage.x.a")
    && URI(a, 9) == Some("linkage.x.a.b")
    && URI(a, 10) == Some("linkage.x.c")
    && URI(a, 11) == Some("linkage.y")
    && URI(a, 12) == Some("linkage.z")
    && URI(a, 13) == Some("linkage.b")
    && URI(a, 14) == Some("linkage.c")
  }

  /** The addresses of `POINT3D` and its fields. */
  ghost predicate Point3dAddresses(a: Arena)
    requires |a| == 19 && WellFormed(a)
  {
    && URI(a, 15) == Some("linkage.POINT3D")
    && URI(a, 16) == Some("linkage.POINT3D.x")
    && URI(a, 17) == Some("linkage.POINT3D.y")
    && URI(a, 18) == Some("linkage.POINT3D.z")
  }

  /** The address of every node of the scenario. */
  ghost predicate ScenarioUris(a: Arena)
    requires |a| == 19 && WellFormed(a)
  {
    WorkingAddresses(a) && LinkageAddresses(a) && Point3dAddresses(a)
  }

  lemma ShapeUris(a: Arena)
    requires ScenarioShape(a) && ScenarioIds(a) && WellFormed(a)
    ensures ScenarioUris(a)
  {
    WorkingUris(a);
    LinkageUris(a);
    Point3dUris(a);
  }

  /** What the lookups below rely on: the addresses of the scenario's
      nodes and the pre-order the search follows. */
  ghost predicate Known(a: Arena) {
    && |a| == 19 && WellFormed(a)
    && Searchable(a, 0) && Preorder(a, 0) == Range(0, 19)
    && ScenarioUris(a)
  }

  lemma ScenarioKnown()
    ensures Known(ScenarioArena())
  {
    var a := ScenarioArena();
    ScenarioArenaShape();
    ScenarioArenaIds();
    ShapeSearchable(a);
    ShapeUris(a);
  }

  /** A lookup from the root hits node `k` when `k` matches and no node
      before it does. */
  lemma FirstHit(a: Arena, uri: string, k: Id)
    requires |a| == 19 && WellFormed(a) && Searchable(a, 0) && Preorder(a, 0) == Range(0, 19)
    requires k < 19 && Matches(a, k, uri)
    requires forall j :: 0 <= j < k ==> !Matches(a, j, uri)
    ensures Get(a, 0, uri) == Some(k)
  {
    var P := Preorder(a, 0);
    assert forall m :: m in P ==> Rooted(a, m) by {
      forall m | m in P
        ensures Rooted(a, m)
      {
        var i :| 0 <= i < |P| && P[i] == m;
      }
    }
    GetIsFirstMatch(a, 0, uri);
    FirstMatchIsEarliest(a, P, uri, Get(a, 0, uri), k);
  }

  lemma GetXLiterals()
    ensures EndsWith("working.POINT2D.x", "x")
    ensures !EndsWith("working", "x")
    ensures !EndsWith("working.POINT2D", "x")
  {
    NotEndsWithAt("working", "x", 0);
    NotEndsWithAt("working.POINT2D", "x", 0);
    assert "working.POINT2D.x"[16..] == "x";
  }

  /** `Get("x")` from the root hits `working.POINT2D.x`, the first match in pre-order, not `linkage.x`. */
  lemma GetX(a: Arena)
    requires Known(a)
    ensures Get(a, 0, "x") == Some(4)
  {
    GetXLiterals();
    forall j | 0 <= j < 4
      ensures !Matches(a, j, "x")
    {
      assert j in {0, 1, 2, 3};
    }
    FirstHit(a, "x", 4);
  }

  lemma GetPoint3dXLiterals()
    ensures EndsWith("linkage.POINT3D.x", "POINT3D.x")
    ensures !EndsWith("working", "POINT3D.x")
    ensures !EndsWith("working.POINT2D", "POINT3D.x")
    ensures !EndsWith("working.POINT2D.x", "POINT3D.x")
    ensures !EndsWith("working.POINT2D.y", "POINT3D.x")
    ensures !EndsWith("linkage", "POINT3D.x")
    ensures !EndsWith("linkage.x", "POINT3D.x")
    ensures !EndsWith("linkage.x.a", "POINT3D.x")
    ensures !EndsWith("linkage.x.a.b", "POINT3D.x")
    ensures !EndsWith("linkage.x.c", "POINT3D.x")
    ensures !EndsWith("linkage.y", "POINT3D.x")
    ensures !EndsWith("linkage.z", "POINT3D.x")
    ensures !EndsWith("linkage.b", "POINT3D.x")
    ensures !EndsWith("linkage.c", "POINT3D.x")
    ensures !EndsWith("linkage.POINT3D", "POINT3D.x")
  {
    assert "linkage.POINT3D.x"[8..] == "POINT3D.x";
    GetPoint3dXMisses1();
    GetPoint3dXMisses2();
    GetPoint3dXMisses3();
    GetPoint3dXMisses4();
    GetPoint3dXMisses5();
  }

  /** The addresses that do not end with `POINT3D.x`, three at a time: the
      string facts are split so that each proof stays small. */
  lemma GetPoint3dXMisses1()
    ensures !EndsWith("working", "POINT3D.x")
    ensures !EndsWith("working.POINT2D", "POINT3D.x")
    ensures !EndsWith("working.POINT2D.x", "POINT3D.x")
  {
    NotEndsWithAt("working.POINT2D", "POINT3D.x", 0);
    NotEndsWithAt("working.POINT2D.x", "POINT3D.x", 5);
  }

  lemma GetPoint3dXMisses2()
    ensures !EndsWith("working.POINT2D.y", "POINT3D.x")
    ensures !EndsWith("linkage", "POINT3D.x")
    ensures !EndsWith("linkage.x", "POINT3D.x")
  {
    NotEndsWithAt("working.POINT2D.y", "POINT3D.x", 5);
    NotEndsWithAt("linkage.x", "POINT3D.x", 0);
  }

  lemma GetPoint3dXMisses3()
    ensures !EndsWith("linkage.x.a", "POINT3D.x")
    ensures !EndsWith("linkage.x.a.b", "POINT3D.x")
    ensures !EndsWith("linkage.x.c", "POINT3D.x")
  {
    NotEndsWithAt("linkage.x.a", "POINT3D.x", 0);
    NotEndsWithAt("linkage.x.a.b", "POINT3D.x", 0);
    NotEndsWithAt("linkage.x.c", "POINT3D.x", 0);
  }

  lemma GetPoint3dXMisses4()
    ensures !EndsWith("linkage.y", "POINT3D.x")
    ensures !EndsWith("linkage.z", "POINT3D.x")
    ensures !EndsWith("linkage.b", "POINT3D.x")
  {
    NotEndsWithAt("linkage.y", "POINT3D.x", 0);
    NotEndsWithAt("linkage.z", "POINT3D.x", 0);
    NotEndsWithAt("linkage.b", "POINT3D.x", 0);
  }

  lemma GetPoint3dXMisses5()
    ensures !EndsWith("linkage.c", "POINT3D.x")
    ensures !EndsWith("linkage.POINT3D", "POINT3D.x")
  {
    NotEndsWithAt("linkage.c", "POINT3D.x", 0);
    NotEndsWithAt("linkage.POINT3D", "POINT3D.x", 0);
  }

  /** `Get("POINT3D.x")` from the root hits the field `x` of `POINT3D`. */
  lemma GetPoint3dX(a: Arena)
    requires Known(a)
    ensures Get(a, 0, "POINT3D.x") == Some(16)
  {
    GetPoint3dXLiterals();
    forall j | 0 <= j < 16
      ensures !Matches(a, j, "POINT3D.x")
    {
      assert j in {0, 1, 2, 3, 4, 5, 6, 7, 8, 9, 10, 11, 12, 13, 14, 15};
    }
    FirstHit(a, "POINT3D.x", 16);
  }

  lemma GetPoint3dLiterals()
    ensures EndsWith("linkage.POINT3D", "POINT3D")
    ensures !EndsWith("working", "POINT3D")
    ensures !EndsWith("working.POINT2D", "POINT3D")
    ensures !EndsWith("working.POINT2D.x", "POINT3D")
    ensures !EndsWith("working.POINT2D.y", "POINT3D")
    ensures !EndsWith("linkage", "POINT3D")
    ensures !EndsWith("linkage.x", "POINT3D")
    ensures !EndsWith("linkage.x.a", "POINT3D")
    ensures !EndsWith("linkage.x.a.b", "POINT3D")
    ensures !EndsWith("linkage.x.c", "POINT3D")
    ensures !EndsWith("linkage.y", "POINT3D")
    ensures !EndsWith("linkage.z", "POINT3D")
    ensures !EndsWith("linkage.b", "POINT3D")
    ensures !EndsWith("linkage.c", "POINT3D")
  {
    assert "linkage.POINT3D"[8..] == "POINT3D";
    GetPoint3dMisses1();
    GetPoint3dMisses2();
    GetPoint3dMisses3();
    GetPoint3dMisses4();
    GetPoint3dMisses5();
  }

  /** The addresses that do not end with `POINT3D`, three at a time: the
      string facts are split so that each proof stays small. */
  lemma GetPoint3dMisses1()
    ensures !EndsWith("working", "POINT3D")
    ensures !EndsWith("working.POINT2D", "POINT3D")
    ensures !EndsWith("working.POINT2D.x", "POINT3D")
  {
    NotEndsWithAt("working", "POINT3D", 0);
    NotEndsWithAt("working.POINT2D", "POINT3D", 5);
    NotEndsWithAt("working.POINT2D.x", "POINT3D", 0);
  }

  lemma GetPoint3dMisses2()
    ensures !EndsWith("working.POINT2D.y", "POINT3D")
    ensures !EndsWith("linkage", "POINT3D")
    ensures !EndsWith("linkage.x", "POINT3D")
  {
    NotEndsWithAt("working.POINT2D.y", "POINT3D", 0);
    NotEndsWithAt("linkage", "POINT3D", 0);
    NotEndsWithAt("linkage.x", "POINT3D", 0);
  }

  lemma GetPoint3dMisses3()
    ensures !EndsWith("linkage.x.a", "POINT3D")
    ensures !EndsWith("linkage.x.a.b", "POINT3D")
    ensures !EndsWith("linkage.x.c", "POINT3D")
  {
    NotEndsWithAt("linkage.x.a", "POINT3D", 0);
    NotEndsWithAt("linkage.x.a.b", "POINT3D", 0);
    NotEndsWithAt("linkage.x.c", "POINT3D", 0);
  }

  lemma GetPoint3dMisses4()
    ensures !EndsWith("linkage.y", "POINT3D")
    ensures !EndsWith("linkage.z", "POINT3D")
    ensures !EndsWith("linkage.b", "POINT3D")
  {
    NotEndsWithAt("linkage.y", "POINT3D", 0);
    NotEndsWithAt("linkage.z", "POINT3D", 0);
    NotEndsWithAt("linkage.b", "POINT3D", 0);
  }

  lemma GetPoint3dMisses5()
    ensures !EndsWith("linkage.c", "POINT3D")
  {
    NotEndsWithAt("linkage.c", "POINT3D", 0);
  }

  /** `Get("POINT3D")` from the root hits the type description `POINT3D`. */
  lemma GetPoint3d(a: Arena)
    requires Known(a)
    ensures Get(a, 0, "POINT3D") == Some(15)
  {
    GetPoint3dLiterals();
    forall j | 0 <= j < 15
      ensures !Matches(a, j, "POINT3D")
    {
      assert j in {0, 1, 2, 3, 4, 5, 6, 7, 8, 9, 10, 11, 12, 13, 14};
    }
    FirstHit(a, "POINT3D", 15);
  }

  lemma GetPoint2dLiterals()
    ensures EndsWith("working.POINT2D", "POINT2D")
    ensures !EndsWith("working", "POINT2D")
  {
    NotEndsWithAt("working", "POINT2D", 0);
    assert "working.POINT2D"[8..] == "POINT2D";
  }

  /** `Get("POINT2D")` from the root hits the type description `POINT2D`. */
  lemma GetPoint2d(a: Arena)
    requires Known(a)
    ensures Get(a, 0, "POINT2D") == Some(3)
  {
    GetPoint2dLiterals();
    forall j | 0 <= j < 3
      ensures !Matches(a, j, "POINT2D")
    {
      assert j in {0, 1, 2};
    }
    FirstHit(a, "POINT2D", 3);
  }

  lemma GetLinkageLiterals()
    ensures EndsWith("linkage", "linkage")
    ensures !EndsWith("working", "linkage")
    ensures !EndsWith("working.POINT2D", "linkage")
    ensures !EndsWith("working.POINT2D.x", "linkage")
    ensures !EndsWith("working.POINT2D.y", "linkage")
  {
    NotEndsWithAt("working", "linkage", 0);
    NotEndsWithAt("working.POINT2D", "linkage", 0);
    NotEndsWithAt("working.POINT2D.x", "linkage", 0);
    NotEndsWithAt("working.POINT2D.y", "linkage", 0);
    assert "linkage"[0..] == "linkage";
  }

  /** `Get("linkage")` from the root hits the linkage section. */
  lemma GetLinkage(a: Arena)
    requires Known(a)
    ensures Get(a, 0, "linkage") == Some(6)
  {
    GetLinkageLiterals();
    forall j | 0 <= j < 6
      ensures !Matches(a, j, "linkage")
    {
      assert j in {0, 1, 2, 3, 4, 5};
    }
    FirstHit(a, "linkage", 6);
  }

  lemma GetWorkingLiterals()
    ensures EndsWith("working", "working")
  {
    assert "working"[0..] == "working";
  }

  /** `Get("working")` from the root hits the working-storage section. */
  lemma GetWorking(a: Arena)
    requires Known(a)
    ensures Get(a, 0, "working") == Some(2)
  {
    GetWorkingLiterals();
    forall j | 0 <= j < 2
      ensures !Matches(a, j, "working")
    {
      assert j in {0, 1};
    }
    FirstHit(a, "working", 2);
  }

  /** The kind of each node of the scenario. */
  predicate ScenarioKinds(a: Arena)
    requires |a| == 19
  {
    && a[0].kind == Root
    && a[1].kind == DataDivision
    && a[2].kind == WorkingStorageSection
    && a[3].kind == TypeDescription(false)
    && a[4].kind == DataDescription
    && a[5].kind == DataDescription
    && a[6].kind == LinkageSection
    && a[7].kind == DataDescription
    && a[8].kind == DataDescription
    && a[9].kind == DataDescription
    && a[10].kind == DataDescription
    && a[11].kind == DataDescription
    && a[12].kind == DataDescription
    && a[13].kind == DataCondition
    && a[14].kind == DataCondition
    && a[15].kind == TypeDescription(false)
    && a[16].kind == DataDescription
    && a[17].kind == DataDescription
    && a[18].kind == DataDescription
  }

  lemma ScenarioArenaKinds()
    ensures ScenarioKinds(ScenarioArena())
  {
    ArenaKinds0();
    ArenaKinds1();
    ArenaKinds2();
    ArenaKinds3();
  }

  /** The kinds of the scenario arena, a few nodes at a time, so that each
      proof over the literal arena stays small. */
  lemma ArenaKinds0()
    ensures var a := ScenarioArena();
      && a[0].kind == Root
      && a[1].kind == DataDivision
      && a[2].kind == WorkingStorageSection
      && a[3].kind == TypeDescription(false)
      && a[4].kind == DataDescription
  {
  }

  lemma ArenaKinds1()
    ensures var a := ScenarioArena();
      && a[5].kind == DataDescription
      && a[6].kind == LinkageSection
      && a[7].kind == DataDescription
      && a[8].kind == DataDescription
      && a[9].kind == DataDescription
  {
  }

  lemma ArenaKinds2()
    ensures var a := ScenarioArena();
      && a[10].kind == DataDescription
      && a[11].kind == DataDescription
      && a[12].kind == DataDescription
      && a[13].kind == DataCondition
      && a[14].kind == DataCondition
  {
  }

  lemma ArenaKinds3()
    ensures var a := ScenarioArena();
      && a[15].kind == TypeDescription(false)
      && a[16].kind == DataDescription
      && a[17].kind == DataDescription
      && a[18].kind == DataDescription
  {
  }

  /** The views of `POINT3D`: it is not strongly typed, its strong parent
      is the shared linkage section and its strong children are its three
      fields. */
  predicate Point3dViews(a: Arena)
    requires ScenarioShape(a) && ScenarioKinds(a)
  {
    && !IsStrong(a[15].kind)
    && DeclaredParent(a[15].kind) == Some(DataSectionClass)
    && StrongParent(a, 15) == Success(Some(6))
    && IsA(a[6].kind, DataSectionClass) && IsShared(a[6].kind)
    && DeclaredChildren(a[15].kind) == Some(DataDescriptionClass)
    && StrongChildren(a, 15) == Success([16, 17, 18])
  }

  /** The views of `POINT2D`: its strong parent is the unshared
      working-storage section and its strong children are its two fields. */
  predicate Point2dViews(a: Arena)
    requires ScenarioShape(a) && ScenarioKinds(a)
  {
    && DeclaredParent(a[3].kind) == Some(DataSectionClass)
    && StrongParent(a, 3) == Success(Some(2))
    && IsA(a[2].kind, DataSectionClass) && !IsShared(a[2].kind)
    && DeclaredChildren(a[3].kind) == Some(DataDescriptionClass)
    && StrongChildren(a, 3) == Success([4, 5])
  }

  /** The views inside the linkage section: its strong children are its
      six entries, starting with `x`, and the strong parent of a definition
      nested in a record or a type description cannot be read. */
  predicate LinkageViews(a: Arena)
    requires ScenarioShape(a) && ScenarioKinds(a)
  {
    && DeclaredChildren(a[6].kind) == Some(DataDefinitionClass)
    && StrongChildren(a, 6) == Success([7, 11, 12, 13, 14, 15])
    && DeclaredParent(a[8].kind) == Some(DataSectionClass)
    && StrongParent(a, 8) == Failure(InvalidCast(7))
    && DeclaredParent(a[16].kind) == Some(DataSectionClass)
    && StrongParent(a, 16) == Failure(InvalidCast(15))
  }

  /** The class facts the views of the scenario turn on. */
  lemma ScenarioClasses()
    ensures DeclaredParent(TypeDescription(false)) == Some(DataSectionClass)
    ensures DeclaredParent(DataDescription) == Some(DataSectionClass)
    ensures IsA(LinkageSection, DataSectionClass) && IsA(WorkingStorageSection, DataSectionClass)
    ensures !IsA(DataDescription, DataSectionClass) && !IsA(TypeDescription(false), DataSectionClass)
    ensures DeclaredChildren(LinkageSection) == Some(DataDefinitionClass)
    ensures DeclaredChildren(TypeDescription(false)) == Some(DataDescriptionClass)
    ensures IsA(DataDescription, DataDefinitionClass) && IsA(DataCondition, DataDefinitionClass)
    ensures IsA(TypeDescription(false), DataDefinitionClass) && IsA(DataDescription, DataDescriptionClass)
    ensures IsA(TypeDescription(false), TypeDescriptionClass)
  {
  }

  /** When every child has the declared class, the strong children are the
      children. */
  lemma StrongChildrenAll(a: Arena, n: Id, cls: NodeClass)
    requires n < |a| && DeclaredChildren(a[n].kind) == Some(cls)
    requires forall i :: 0 <= i < |a[n].children| ==> a[n].children[i] < |a| && IsA(a[a[n].children[i]].kind, cls)
    ensures StrongChildren(a, n) == Success(a[n].children)
  {
  }

  lemma ShapePoint3dViews(a: Arena)
    requires ScenarioShape(a) && ScenarioKinds(a)
    ensures Point3dViews(a)
  {
    ScenarioClasses();
    forall i | 0 <= i < 3
      ensures a[15].children[i] < |a| && IsA(a[a[15].children[i]].kind, DataDescriptionClass)
    {
      assert i in {0, 1, 2};
    }
    StrongChildrenAll(a, 15, DataDescriptionClass);
  }

  lemma ShapePoint2dViews(a: Arena)
    requires ScenarioShape(a) && ScenarioKinds(a)
    ensures Point2dViews(a)
  {
    ScenarioClasses();
    forall i | 0 <= i < 2
      ensures a[3].children[i] < |a| && IsA(a[a[3].children[i]].kind, DataDescriptionClass)
    {
      assert i in {0, 1};
    }
    StrongChildrenAll(a, 3, DataDescriptionClass);
  }

  lemma ShapeLinkageViews(a: Arena)
    requires ScenarioShape(a) && ScenarioKinds(a)
    ensures LinkageViews(a)
  {
    ScenarioClasses();
    LinkageEntriesAreDefinitions(a);
    StrongChildrenAll(a, 6, DataDefinitionClass);
  }

  lemma LinkageEntriesAreDefinitions(a: Arena)
    requires ScenarioShape(a) && ScenarioKinds(a)
    ensures forall i :: 0 <= i < |a[6].children| ==> a[6].children[i] < |a| && IsA(a[a[6].children[i]].kind, DataDefinitionClass)
  {
    ScenarioClasses();
    forall i | 0 <= i < 6
      ensures a[6].children[i] < |a| && IsA(a[a[6].children[i]].kind, DataDefinitionClass)
    {
      assert i in {0, 1, 2, 3, 4, 5};
    }
  }

  /** A typed lookup hits what the plain lookup hits when that node has
      the class asked for. */
  lemma TypedHit(a: Arena, uri: string, cls: NodeClass, m: Id)
    requires Searchable(a, 0) && Get(a, 0, uri) == Some(m)
    requires m < |a| && IsA(a[m].kind, cls)
    ensures GetAs(a, 0, uri, cls) == Some(m)
  {
  }

  /** The two lookups the driver prints once the tree is built, with the
      addresses of their hits: `x` is the field of `POINT2D`, the first
      match in pre-order, and `POINT3D.x` the field of `POINT3D`. */
  lemma MainLookups()
    ensures var a := ScenarioArena();
      && WellFormed(a) && Searchable(a, 0)
      && Get(a, 0, "x") == Some(4) && URI(a, 4) == Some("working.POINT2D.x")
      && Get(a, 0, "POINT3D.x") == Some(16) && URI(a, 16) == Some("linkage.POINT3D.x")
  {
    var a := ScenarioArena();
    ScenarioKnown();
    GetX(a);
    GetPoint3dX(a);
  }

  /** The typed lookups of the two type descriptions the driver builds,
      each found as a `TypeDescription`. */
  lemma MainTypeLookups()
    ensures var a := ScenarioArena();
      && Searchable(a, 0)
      && GetAs(a, 0, "POINT3D", TypeDescriptionClass) == Some(15)
      && GetAs(a, 0, "POINT2D", TypeDescriptionClass) == Some(3)
  {
    var a := ScenarioArena();
    ScenarioKnown();
    ScenarioArenaKinds();
    ScenarioClasses();
    GetPoint3d(a);
    GetPoint2d(a);
    TypedHit(a, "POINT3D", TypeDescriptionClass, 15);
    TypedHit(a, "POINT2D", TypeDescriptionClass, 3);
  }

  /** The typed lookups of the two sections the driver builds, each found
      as a `DataSection`. */
  lemma MainSectionLookups()
    ensures var a := ScenarioArena();
      && Searchable(a, 0)
      && GetAs(a, 0, "linkage", DataSectionClass) == Some(6)
      && GetAs(a, 0, "working", DataSectionClass) == Some(2)
  {
    var a := ScenarioArena();
    ScenarioKnown();
    ScenarioArenaKinds();
    ScenarioClasses();
    GetLinkage(a);
    GetWorking(a);
    TypedHit(a, "linkage", DataSectionClass, 6);
    TypedHit(a, "working", DataSectionClass, 2);
  }

  /** The strong views the driver reads on the tree it builds. */
  lemma MainViews()
    ensures var a := ScenarioArena();
      && ScenarioShape(a) && ScenarioKinds(a)
      && Point3dViews(a) && Point2dViews(a) && LinkageViews(a)
  {
    var a := ScenarioArena();
    ScenarioArenaShape();
    ScenarioArenaKinds();
    ShapePoint3dViews(a);
    ShapePoint2dViews(a);
    ShapeLinkageViews(a);
  }

  /** Two siblings under the root, addressed `ax` and `x`. */
  function SuffixArena(): (a: Arena)
    ensures |a| == 3
  {
    [RootNode([1, 2]), DescNode("ax", 1, 0, []), DescNode("x", 1, 0, [])]
  }

  /** A lookup compares addresses character by character, not segment by
      segment: looking up `x`, the full address of the second sibling,
      hits the first one, whose address `ax` also ends with `x`. */
  lemma SuffixLookupCanMissTheNode()
    ensures var a := SuffixArena();
      && WellFormed(a) && Searchable(a, 0)
      && URI(a, 1) == Some("ax") && URI(a, 2) == Some("x")
      && Get(a, 0, "x") == Some(1)
  {
    var a := SuffixArena();
    forall m | 0 <= m < 3
      ensures NumberedAt(a, m)
    {
    }
    NumberedWellFormed(a);
    WellFormedSearchable(a, 0);
    assert URI(a, 1) == Some("ax");
    assert "ax"[1..] == "x";
  }
}
