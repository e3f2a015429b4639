/** The concrete node kinds (`Root` and the classes derived from `Node` for
    the data division), the class hierarchy casts are checked against, and
    what each kind contributes: payload type, identifier and flags, and the
    parent and child kinds it declares. */
module Nodes {
  import opened Wrappers
  import opened CodeElements

  /** The runtime class of a node. A type description carries its
      `IsStrong` flag, which only construction sets. */
  datatype Kind =
    | Root
    | DataDivision
    | WorkingStorageSection
    | LocalStorageSection
    | LinkageSection
    | DataDescription
    | DataCondition
    | TypeDescription(isStrong: bool)

  /** Every node class, abstract ones included, as a cast target. */
  datatype NodeClass =
    | NodeBase
    | RootClass
    | DataDivisionClass
    | DataSectionClass
    | WorkingStorageSectionClass
    | LocalStorageSectionClass
    | LinkageSectionClass
    | DataDefinitionClass
    | DataDescriptionClass
    | DataConditionClass
    | TypeDescriptionClass

  function ClassOf(k: Kind): NodeClass {
    match k
    case Root => RootClass
    case DataDivision => DataDivisionClass
    case WorkingStorageSection => WorkingStorageSectionClass
    case LocalStorageSection => LocalStorageSectionClass
    case LinkageSection => LinkageSectionClass
    case DataDescription => DataDescriptionClass
    case DataCondition => DataConditionClass
    case TypeDescription(_) => TypeDescriptionClass
  }

  /** The declared base class; `Node` has none. */
  function BaseOf(c: NodeClass): Option<NodeClass> {
    match c
    case NodeBase => None
    case WorkingStorageSectionClass | LocalStorageSectionClass | LinkageSectionClass => Some(DataSectionClass)
    case DataDescriptionClass | DataConditionClass | TypeDescriptionClass => Some(DataDefinitionClass)
    case _ => Some(NodeBase)
  }

  /** Distance from `Node` in the class hierarchy. */
  function Rank(c: NodeClass): nat {
    match c
    case NodeBase => 0
    case RootClass | DataDivisionClass | DataSectionClass | DataDefinitionClass => 1
    case _ => 2
  }

  /** `c` is `d` or derives from it. */
  predicate Inherits(c: NodeClass, d: NodeClass)
    decreases Rank(c)
  {
    c == d || (BaseOf(c).Some? && Rank(BaseOf(c).value) < Rank(c) && Inherits(BaseOf(c).value, d))
  }

  /** A cast of a node of kind `k` to class `c` succeeds. */
  predicate IsA(k: Kind, c: NodeClass) {
    Inherits(ClassOf(k), c)
  }

  /** The abstract classes group exactly the kinds one expects. */
  lemma AbstractClassMembers(k: Kind)
    ensures IsA(k, NodeBase)
    ensures IsA(k, DataSectionClass) <==> k in {WorkingStorageSection, LocalStorageSection, LinkageSection}
    ensures IsA(k, DataDefinitionClass) <==> k.DataDescription? || k.DataCondition? || k.TypeDescription?
    ensures forall c :: c != NodeBase && c != DataSectionClass && c != DataDefinitionClass ==> (IsA(k, c) <==> c == ClassOf(k))
  {
  }

  /** The payload a kind's constructor takes: none for `Root`, the matching
      header for the division and the sections, the matching entry for the
      definitions. */
  predicate Accepts(k: Kind, e: Option<CodeElement>) {
    match k
    case Root => e.None?
    case DataDivision => e == Some(DataDivisionHeader)
    case WorkingStorageSection => e == Some(WorkingStorageSectionHeader)
    case LocalStorageSection => e == Some(LocalStorageSectionHeader)
    case LinkageSection => e == Some(LinkageSectionHeader)
    case DataDescription => e.Some? && e.value.DataDescriptionEntry?
    case DataCondition => e.Some? && e.value.DataConditionEntry?
    case TypeDescription(_) => e.Some? && e.value.TypeDescriptionEntry?
  }

  /** A freshly constructed node of kind `k`: type descriptions start out
      not strongly typed. */
  predicate Constructible(k: Kind) {
    k.TypeDescription? ==> !k.isStrong
  }

  /** `DataDefinition.Name`: the payload's name. */
  function Name(k: Kind, e: Option<CodeElement>): string
    requires Accepts(k, e) && IsA(k, DataDefinitionClass)
  {
    e.value.name
  }

  /** `ID`: the segment a node contributes to addresses. Only `Root` and the
      division keep the base class's null; a definition's ID is its name. */
  function ID(k: Kind, e: Option<CodeElement>): (r: Option<string>)
    requires Accepts(k, e)
    ensures r.None? <==> k == Root || k == DataDivision
    ensures IsA(k, DataDefinitionClass) ==> r == Some(Name(k, e))
  {
    match k
    case WorkingStorageSection => Some("working")
    case LocalStorageSection => Some("local")
    case LinkageSection => Some("linkage")
    case DataDescription | DataCondition | TypeDescription(_) => Some(e.value.name)
    case _ => None
  }

  /** The three section IDs tell the sections apart and contain no dot, so
      a section's address names it unambiguously. */
  lemma SectionIdsDistinct(k1: Kind, k2: Kind, e1: Option<CodeElement>, e2: Option<CodeElement>)
    requires IsA(k1, DataSectionClass) && IsA(k2, DataSectionClass)
    requires Accepts(k1, e1) && Accepts(k2, e2)
    ensures ID(k1, e1) == ID(k2, e2) <==> k1 == k2
    ensures '.' !in ID(k1, e1).value
  {
  }

  /** `DataSection.IsShared`: true only for the linkage section. */
  function IsShared(k: Kind): (r: bool)
    requires IsA(k, DataSectionClass)
    ensures r <==> k == LinkageSection
  {
    match k
    case LinkageSection => true
    case _ => false
  }

  /** `TypeDescription.IsStrong`. */
  function IsStrong(k: Kind): bool
    requires k.TypeDescription?
  {
    k.isStrong
  }

  /** The `P` of `Child<P>` a kind implements: sections declare a division
      parent, definitions a section parent. */
  function DeclaredParent(k: Kind): Option<NodeClass> {
    if IsA(k, DataSectionClass) then Some(DataDivisionClass)
    else if IsA(k, DataDefinitionClass) then Some(DataSectionClass)
    else None
  }

  /** The `C` of `Parent<C>` a kind implements: sections declare definition
      children, descriptions and type descriptions declare description
      children. */
  function DeclaredChildren(k: Kind): Option<NodeClass> {
    if IsA(k, DataSectionClass) then Some(DataDefinitionClass)
    else if k == DataDescription || k.TypeDescription? then Some(DataDescriptionClass)
    else None
  }

  /** The two declarations agree only one level down from a section: a child
      of the declared child kind declares a parent kind that the declaring
      node satisfies exactly when the declaring node is a section. Nested
      descriptions therefore declare a parent they never have. */
  lemma DeclarationsAgreeOnlyUnderSections(k: Kind, child: Kind)
    requires DeclaredChildren(k).Some? && IsA(child, DeclaredChildren(k).value)
    ensures DeclaredParent(child).Some?
    ensures IsA(k, DeclaredParent(child).value) <==> IsA(k, DataSectionClass)
  {
  }
}
