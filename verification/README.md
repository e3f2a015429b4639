# genetreecs in Dafny

This project models the generic code-element tree of genetreecs in Dafny. In that library, a tree of `Node`s holds COBOL data-division payloads (`CodeElement`s). A node has a weakly typed parent and child list, which `Add` and `Remove` change. A node is addressed by a dotted URI built from its ancestors' IDs. `Get` finds a node by URI suffix in pre-order. `Get<N>` does the same with a cast to the class asked for. `ToString` dumps the tree as indented text. `StrongParent` and `StrongChildren` give views typed by the class a node declares for its parent or children. The `Program` cursor builds a tree top-down with `Enter` and `Exit`. The driver in `Main` builds one fixed tree and queries it.

Modelling choices:

- Nodes live in an arena (`Structure.Arena = seq<Node>`). A node's id is its index in the arena. C# object references become ids.
- Construction appends a node, and nodes are never freed.
- `Structure.Node` is a subset type. It keeps only nodes whose payload has the type the kind's C# constructor takes (`Nodes.Accepts`), so reading the strongly typed payload never fails.
- Parent chains and child lists may be cyclic in the C# code. The model bounds them with fuel predicates (`Above`, `Below`). A node is `Rooted` when its parent chain ends and `Finite` when its subtree does. `URI`, `Get` and `Dump` require these.
- The C# class hierarchy is `Nodes.NodeClass` with `Nodes.IsA`. A C# cast that throws `InvalidCastException` becomes a `Failure(InvalidCast(node))`.
- The `NullReferenceException` that `Enter` and `Exit` raise when `Current` is null becomes `Failure(NullCurrent)`.
- `Replay` describes a construction script as data: a sequence of `Enter` and `Exit` statements. It proves that replaying a pre-order script from a new program builds, one prefix at a time, the arena that the script describes.
- `Scenario` and `ScenarioQueries` apply this to the driver's construction sequence. They also prove the driver's lookups and views on the resulting tree. `ScenarioDump` proves the text `ToString` gives for that tree and for the nodes of the first two lookups.

Three behaviours of the code are easy to misread. The model keeps each as written:

- **URIs across nodes without an ID.** `URI` (`src/Program.cs:37-44`) uses a parent's URI only when it is not null. Otherwise the node's URI is its own ID. So the working-storage section's URI is `working` even though its division has no ID, and a URI stops at the nearest ancestor without an ID.
- **Finding a node by its own URI.** `Get` matches by character suffix (`src/Program.cs:49`). An earlier node in pre-order whose URI merely ends with the same characters wins. `ScenarioQueries.SuffixLookupCanMissTheNode` exhibits this, and `Tree.GetFindsEveryAddress` states what does hold.
- **Exit at the root.** `Exit` (`src/Program.cs:158-161`) sets `Current` to the root's parent, which is null, and reports nothing. The next `Enter` or `Exit` then fails with a null reference (`Current.Add`, `Current.Parent`). `Builder.ExitAtTopLosesCursor` and `Builder.Exit` state this.

## Model

| member | source | states |
|---|---|---|
| CodeElements.DefaultEntryText | src/CodeElements.cs:12-13 | a definition entry built with the parameterless constructor prints as `01 ?` (name "?", level 1) |
| CodeElements.LevelTextRoundTrip | src/CodeElements.cs:13 | the level text is all digits, at least two wide, reads back as the level, and starts with `0` exactly when the level is below 10 |
| CodeElements.LevelTextTwoDigits | src/CodeElements.cs:13 | for a level below 100 the text is exactly its tens digit then its units digit |
| CodeElements.LevelTextWidth | src/CodeElements.cs:13 | the `{0:00}` format is exactly two characters wide if and only if the level is below 100 |
| CodeElements.EntryTextRoundTrip | src/CodeElements.cs:13 | a definition entry's text parses back into its level and its name |
| CodeElements.TextStartsWithDigitIffDefinition | src/CodeElements.cs:1-14 | every payload prints non-empty text, and it starts with a digit exactly for definition entries (headers print their class name) |
| CodeElements.DecimalRoundTrip | src/CodeElements.cs:13 | the decimal digits of a level read back as the level |
| Nodes.AbstractClassMembers | src/Nodes.cs:2-38 | every kind is a `Node`; `DataSection` covers exactly the three sections and `DataDefinition` exactly the description, condition and type description; every concrete class has only its own kind |
| Nodes.ID | src/Nodes.cs:10-27 | the ID is null exactly for the root and the division; a definition's ID is its payload's name |
| Nodes.SectionIdsDistinct | src/Nodes.cs:10-22 | two sections have the same ID if and only if they are the same kind, and no section ID contains a dot |
| Nodes.IsShared | src/Nodes.cs:6-22 | a data section is shared if and only if it is the linkage section |
| Nodes.DeclarationsAgreeOnlyUnderSections | src/Nodes.cs:6-35 | a child that has the class its parent declares for children declares a parent class, and the parent has that class exactly when the parent is a section (nested descriptions declare a section parent they never have) |
| Tree.Construct | src/Program.cs:9-13 | a new node gets the next id, with its kind and payload, no parent and no children, and the arena before it is unchanged |
| Tree.Add | src/Program.cs:20-23 | the child is appended to the parent's child list and its parent becomes the parent; nothing else changes |
| Tree.RemoveChild | src/Program.cs:26-29 | the first occurrence of the node leaves the parent's child list and the node's parent is cleared, even when it was not a child; nothing else changes |
| Tree.Detach | src/Program.cs:31-33 | a node with no parent is left as it is; otherwise at most one occurrence of it leaves the parent's child list and its parent is cleared; no other parent link changes |
| Tree.AddThenRemoveRestores | src/Program.cs:20-29 | adding an unattached node that is not yet a child, then removing it, gives back the original arena |
| Tree.RemoveAbsentOnlyClearsParent | src/Program.cs:25-29 | removing a node that is not a child leaves every child list unchanged and only clears that node's parent |
| Tree.DetachIdempotent | src/Program.cs:31-33 | detaching twice is the same as detaching once |
| Tree.AddWithoutDetachDuplicates | src/Program.cs:20-23 | adding a node that already has a parent does not detach it: it ends up in both child lists and its parent link names only the new parent |
| Tree.URI | src/Program.cs:37-44 | the URI is null exactly when the node's own ID is null |
| Tree.UriJoinsSegments | src/Program.cs:37-44 | the URI is the dot-join of the IDs from the node up to, but not including, its nearest ancestor without an ID, root side first; it is null when the node itself has no ID |
| Tree.UriReadsOnlyAncestors | src/Program.cs:37-44 | the URI depends only on the kind, payload and parent of the node and its ancestors |
| Tree.UriAfterAdd | src/Program.cs:20-44 | after `Add`, the child's URI is its ID, prefixed by the new parent's URI and a dot when that is not null |
| Tree.Get | src/Program.cs:45-55 | a hit is a node of the searched subtree whose URI is not null and ends with the query |
| Tree.GetIsFirstMatch | src/Program.cs:45-55 | `Get` returns the first node in pre-order whose URI ends with the query, and null when there is none |
| Tree.FirstMatchIsEarliest | src/Program.cs:48-55 | when the k-th node in pre-order matches and none before it does, that node is the result |
| Tree.GetFindsEveryAddress | src/Program.cs:47-55 | looking up the URI of a node of the subtree always hits, and hits that node or one before it in pre-order |
| Tree.GetAs | src/Program.cs:56-60 | the typed lookup hits exactly when the plain lookup hits a node of the class asked for, and then gives that node |
| Tree.GetAsNodeIsGet | src/Program.cs:56-60 | looking up as `Node` is the plain lookup |
| Tree.DumpRendersOutline | src/Program.cs:64-74 | the dump is one line per outline entry: two spaces per depth, the payload text or `?`, and a line break |
| Tree.OutlineFollowsPreorder | src/Program.cs:69-74 | the dump's lines list exactly the pre-order nodes, in that order |
| Tree.OutlineIndentsUnderParents | src/Program.cs:69-74 | the dump's first line is at the starting depth, and every later line is exactly one level deeper than an earlier line whose node lists it as a child; with `Tree.DumpRendersOutline`, that fixes each line's indent of two spaces per level |
| Tree.Dump | src/Program.cs:69-74 | the private `Dump(str, i)`; `Tree.DumpRendersOutline`, `Tree.OutlineFollowsPreorder` and `Tree.OutlineIndentsUnderParents` state its text |
| Tree.ToString | src/Program.cs:64-68 | `ToString` is the outline from depth 0 rendered one line per entry; the lemmas named for `Tree.Dump` fix that outline's order and indentation |
| Tree.NodeId | src/Program.cs:36 | the virtual `ID` of a node is null exactly for the root and the division, and a definition's ID is its name |
| CodeElements.Text | src/CodeElements.cs:1-13 | `ToString` of a payload; `CodeElements.TextStartsWithDigitIffDefinition`, `CodeElements.EntryTextRoundTrip` and `CodeElements.DefaultEntryText` state its values |
| CodeElements.LevelText | src/CodeElements.cs:13 | the `{0:00}` rendering of a level; `CodeElements.LevelTextRoundTrip`, `CodeElements.LevelTextTwoDigits` and `CodeElements.LevelTextWidth` state its values |
| Nodes.DeclaredParent | src/Nodes.cs:6-35 | the `P` of `Child<P>` (division for sections, section for definitions); `Nodes.DeclarationsAgreeOnlyUnderSections` and `Views.StrongParent` state what it decides |
| Nodes.DeclaredChildren | src/Nodes.cs:6-35 | the `C` of `Parent<C>` (definitions for sections, descriptions for descriptions and type descriptions); `Nodes.DeclarationsAgreeOnlyUnderSections` and `Views.StrongChildren` state what it decides |
| Nodes.Name | src/Nodes.cs:26-27 | `DataDefinition.Name`, the payload's name; `Nodes.ID` states that a definition's ID is this name |
| Nodes.IsStrong | src/Nodes.cs:37 | `TypeDescription.IsStrong`; nodes start with it false (`Nodes.Constructible`), and `ScenarioQueries.MainViews` reads it for `POINT3D` |
| Views.StrongParent | src/Program.cs:107-111 | the strong parent succeeds exactly when there is no parent or the parent has the declared parent class, and then it is the parent; otherwise the cast fails on the parent |
| Views.StrongChildren | src/Program.cs:130-138 | the strong children succeed exactly when every child has the declared child class, and then they are the children in order |
| Views.NarrowAll | src/Program.cs:135-137 | casting the list succeeds exactly when every element has the class and then returns the list; otherwise it fails on the first element that does not have it |
| Views.StrongParentUnderDeclaringParent | src/Program.cs:107-138 | for a child of the declared class under a declaring parent, the strong parent works exactly when the parent is a section |
| Views.StrongChildrenAfterAdd | src/Program.cs:130-138 | adding a node of the declared class appends it to the strong children |
| Builder.NewProgram | src/Program.cs:149-152 | a new program holds a fresh root, with no payload, parent or children, which is also the current node |
| Builder.Enter | src/Program.cs:154-157 | `Enter` fails exactly when there is no current node; otherwise it adds the node under the current one and makes it current |
| Builder.Exit | src/Program.cs:158-161 | `Exit` fails exactly when there is no current node; otherwise the current node's parent becomes current and the tree is unchanged |
| Builder.EnterNew | src/Program.cs:154-157 | entering a freshly built node appends exactly one node, with the given kind and payload, and makes it current |
| Builder.ExitKeepsValid | src/Program.cs:158-161 | `Exit` keeps a well-formed program well formed |
| Builder.EnterNewKeepsValid | src/Program.cs:154-157 | entering a freshly built node keeps the tree well formed |
| Builder.EnterThenExit | src/Program.cs:154-161 | `Enter` then `Exit` returns the cursor to where it was |
| Builder.ExitAtTopLosesCursor | src/Program.cs:158-161 | `Exit` at a node with no parent leaves no current node, and the next `Enter` fails |
| Invariants.ConstructKeepsWellFormed | src/Program.cs:9-13 | constructing a node keeps the arena well formed, and nothing refers to the new node |
| Invariants.AddLeafKeepsWellFormed | src/Program.cs:20-23 | adding an unclaimed leaf under another node keeps the arena well formed |
| Invariants.RemoveKeepsWellFormed | src/Program.cs:26-29 | `Remove(node)` keeps the arena well formed |
| Invariants.DetachKeepsWellFormed | src/Program.cs:31-33 | `Remove()` keeps the arena well formed |
| Seqs.RemoveFirst | src/Program.cs:27 | `List.Remove` drops exactly the first occurrence and keeps the order of the rest; an absent element leaves the list unchanged |
| Structure.WellFormedSearchable | src/Program.cs:48-55 | in a well-formed arena every node can be searched |
| Replay.Run | src/Program.cs:154-161 | a script that runs to the end leaves a well-formed program with the same root |
| Replay.EnterNewExtendsPrefix | src/Program.cs:154-157 | entering the next node of a numbered tree from its parent turns the built prefix into the next prefix |
| Replay.WalkBuilds | src/Program.cs:154-161 | replaying the enter/exit script of a subtree in pre-order builds exactly the nodes of that subtree and returns the cursor to its parent |
| Replay.PreorderIsRange | src/Program.cs:50-53 | in a tree numbered in pre-order, the pre-order of a subtree is the consecutive ids from the node to the end of its subtree |
| Replay.NumberedWellFormed | src/Program.cs:154-161 | a tree whose every node's parent precedes it and whose children follow it is well formed |
| Scenario.MainScriptIsWalk | src/Program.cs:169-194 | the driver's construction sequence is the pre-order enter/exit walk of the data division of the scenario tree |
| Scenario.MainBuildsScenario | src/Program.cs:169-194 | the driver's construction sequence, run on a new program, succeeds, builds the scenario tree, which is well formed, and leaves the cursor on the root |
| ScenarioQueries.MainLookups | src/Program.cs:197-198 | `Get("x")` hits the `x` under `POINT2D` (URI `working.POINT2D.x`), the first match in pre-order; `Get("POINT3D.x")` hits the level-2 `x` under `POINT3D` (URI `linkage.POINT3D.x`), not the level-1 `x` of the linkage section |
| ScenarioQueries.MainTypeLookups | src/Program.cs:200-203 | `Get<TypeDescription>` of `POINT3D` and of `POINT2D` hits the two type descriptions |
| ScenarioQueries.MainSectionLookups | src/Program.cs:207-219 | `Get<DataSection>` of `linkage` and of `working` hits the two sections |
| ScenarioQueries.MainViews | src/Program.cs:201-209 | `POINT3D` is not strongly typed, its strong parent is the linkage section, which is shared, and its strong children are its `x`, `y`, `z`. `POINT2D`'s strong parent is the unshared working-storage section and its strong children are `x`, `y`. The linkage section's strong children are its six entries, starting with `x`. Inside a record or a type description, the strong parent cast fails |
| ScenarioQueries.SuffixLookupCanMissTheNode | src/Program.cs:47-49 | with siblings whose URIs are `ax` and `x`, looking up `x` hits `ax`: the match is by character suffix, not by URI segment |
| ScenarioDump.RenderShows | src/Program.cs:69-74 | rendering outline lines that sit at given levels and show given texts gives exactly those rows, each indented two spaces per level and ended by a line break (an independent layout definition, `ScenarioDump.Indented`) |
| ScenarioDump.MainDumps | src/Program.cs:196-198 | the driver's tree dumps as its 19 rows in pre-order (`?` for the payload-less root at level 0, then `DataDivisionHeader`, the two section headers at level 2, and each entry as its two-digit level and name one level below its parent), and the nodes `Get("x")` and `Get("POINT3D.x")` find each dump as the single line `02 x` |

## Left out

- The console output of `Main` and `OnNode` (`src/Program.cs:163-166`, `196-224`) is I/O. The model proves the strings and values that `Main` passes to `WriteLine` at lines 196-209, namely the dump of the tree, the one-line dumps of the two hits, the lookups, URIs, flags and strong views. It does not model the console itself, the line break `WriteLine` adds, `OnNode`'s output or the `ReadLine`.
- The add, remove and move of `toto` in `Main` (`src/Program.cs:210-222`) are not replayed on the scenario tree. `Views.StrongChildrenAfterAdd`, `Tree.AddThenRemoveRestores` and `Invariants.DetachKeepsWellFormed` state the general behaviour those lines print.
- `CodeElementHolderExtension.CodeElement<T>` (`src/Program.cs:91-95`) is not a separate function. The `Structure.Node` subset type guarantees that the payload has its kind's type, so the cast cannot fail. `Nodes.Name` and `Nodes.ID` read the payload directly.
- The `ArgumentException` branches of the extension methods cannot happen: every holder, child and parent in the model is a node.
- Null payloads on non-root nodes, a null `Name`, `Add(null)`, `Remove(null)` and a null query to `Get`/`Get<N>` are left out. Payloads are non-null by construction, names and queries are non-null strings, and node arguments are arena ids. In the C# code, `Remove(null)` throws `NullReferenceException` at `node.Parent = null` (`src/Program.cs:28`). A null query throws `ArgumentNullException` from `URI.EndsWith` (`src/Program.cs:49`) at the first visited node with a URI, which in the driver's tree is the working-storage section.
- Negative levels are left out. The level is a `nat`, so the `{0:00}` form of a negative number (`-01`) is not modelled.
- `Picture` and `Size` are stored but never read by the core, so no contract mentions them. `Size`'s default is 0.
- `ToString` of the base `CodeElement` uses reflection (`GetType().Name`). The model uses a fixed table of class names.
- `EndsWith` in `Get` is culture-sensitive in .NET. The model compares characters ordinally.
- `AppendLine` writes `Environment.NewLine`. The model writes `"\n"`.
- Reference identity and aliasing of C# objects are modelled as arena ids. Two `Add`s of the same node are allowed and shown to duplicate it (`Tree.AddWithoutDetachDuplicates`).
- Invariants.AddLeafKeepsWellFormed: well-formedness is proved for adding an unclaimed leaf, which is every `Add` the cursor makes. An arbitrary `Add` can create a cycle in the C# code; there the model only states the link changes (`Tree.Add`).
- Cyclic arenas are not covered. `URI` and `Get` require finite parent chains and subtrees, so the model says nothing about cyclic arenas on which the C# `URI` (which stops at the first node without an ID) or `Get` (which returns at its first match) still terminates. Only `ToString` always recurses without end on a cyclic child list.
- `TypeDescription.IsStrong` has an internal setter that no core code calls. The model keeps the flag in the kind, and nodes are constructed with it false.
- Replay.WalkBuilds: the walk and the subtree bounds it uses (`Walk`, `Next`, `Start`) are ghost definitions used only to state the construction theorem.
- Tree.GetFindsEveryAddress: the lookup of a node's own URI is only shown to hit that node or an earlier one, because the character-suffix match can hit an earlier node (`ScenarioQueries.SuffixLookupCanMissTheNode`).
