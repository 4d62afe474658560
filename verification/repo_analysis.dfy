/**
  `analyzeRepository`: a depth-first walk over the file tree that counts files
  and folders, collects file languages, and notes whether a tests folder or a
  README.md is present; React is reported when JSX or TSX files were seen.
 */
module RepoAnalysis {
  import opened FileTree

  datatype Stats = Stats(
    totalFiles: nat,
    totalFolders: nat,
    languages: set<string>,
    hasTests: bool,
    hasDocumentation: bool,
    hasCICD: bool,
    frameworks: set<string>)

  const EmptyStats := Stats(0, 0, {}, false, false, false, {})

  const TestFolderNames: set<string> := {"tests", "__tests__"}
  const DocumentationName := "README.md"
  const React := "React"

  /** What visiting one node records, before any descent into its children.
      `if (item.language)` skips an empty label. */
  function Step(st: Stats, n: Node): Stats
  {
    match n
    case Folder(name, _, _) =>
      st.(totalFolders := st.totalFolders + 1, hasTests := st.hasTests || name in TestFolderNames)
    case File(name, _, language) =>
      st.(totalFiles := st.totalFiles + 1,
          languages := if language != "" then st.languages + {language} else st.languages,
          hasDocumentation := st.hasDocumentation || name == DocumentationName)
  }

  /** `traverse`: each item in order, a folder's children right after it. */
  function Traverse(items: seq<Node>, st: Stats): Stats
    decreases items
  {
    if |items| == 0 then st
    else
      var here := Step(st, items[0]);
      var below := if items[0].Folder? then Traverse(items[0].children, here) else here;
      Traverse(items[1..], below)
  }

  /** The same steps over a flat list of nodes. */
  function FoldSteps(ns: seq<Node>, st: Stats): Stats
    decreases |ns|
  {
    if |ns| == 0 then st else FoldSteps(ns[1..], Step(st, ns[0]))
  }

  lemma {:induction false} FoldStepsConcat(a: seq<Node>, b: seq<Node>, st: Stats)
    ensures FoldSteps(a + b, st) == FoldSteps(b, FoldSteps(a, st))
    decreases |a|
  {
    if |a| > 0 {
      assert (a + b)[1..] == a[1..] + b;
      FoldStepsConcat(a[1..], b, Step(st, a[0]));
    } else {
      assert a + b == b;
    }
  }

  lemma FoldStepsCons(n: Node, rest: seq<Node>, st: Stats)
    ensures FoldSteps([n] + rest, st) == FoldSteps(rest, Step(st, n))
  {
    assert ([n] + rest)[1..] == rest;
  }

  /** The walk visits the nodes in the order `Flatten` lists them. */
  lemma {:induction false} TraverseIsFold(items: seq<Node>, st: Stats)
    ensures Traverse(items, st) == FoldSteps(Flatten(items), st)
    decreases items
  {
    if |items| > 0 {
      var n := items[0];
      var here := Step(st, n);
      var sub := if n.Folder? then Flatten(n.children) else [];
      var later := Flatten(items[1..]);
      var below := if n.Folder? then Traverse(n.children, here) else here;
      if n.Folder? {
        TraverseIsFold(n.children, here);
      }
      assert below == FoldSteps(sub, here);
      TraverseIsFold(items[1..], below);
      FlattenCons(items);
      FoldStepsConcat(sub, later, here);
      FoldStepsCons(n, sub + later, st);
    }
  }

  /* --------------------------------------------- reference definitions */

  function CountFiles(ns: seq<Node>): (r: nat)
    ensures r <= |ns|
    decreases |ns|
  {
    if |ns| == 0 then 0 else (if ns[0].File? then 1 else 0) + CountFiles(ns[1..])
  }

  function FileLanguages(ns: seq<Node>): set<string>
  {
    set n | n in ns && n.File? && n.language != "" :: n.language
  }

  predicate HasTestFolder(ns: seq<Node>)
  {
    exists n :: n in ns && n.Folder? && n.name in TestFolderNames
  }

  predicate HasReadme(ns: seq<Node>)
  {
    exists n :: n in ns && n.File? && n.name == DocumentationName
  }

  lemma {:induction false} FoldStepsFacts(ns: seq<Node>, st: Stats)
    ensures var r := FoldSteps(ns, st);
      && r.totalFiles == st.totalFiles + CountFiles(ns)
      && r.totalFolders == st.totalFolders + (|ns| - CountFiles(ns))
      && r.languages == st.languages + FileLanguages(ns)
      && r.hasTests == (st.hasTests || HasTestFolder(ns))
      && r.hasDocumentation == (st.hasDocumentation || HasReadme(ns))
      && r.hasCICD == st.hasCICD
      && r.frameworks == st.frameworks
    decreases |ns|
  {
    if |ns| > 0 {
      var n := ns[0];
      FoldStepsFacts(ns[1..], Step(st, n));
      assert forall m :: m in ns <==> m == n || m in ns[1..] by {
        assert ns == [n] + ns[1..];
      }
      assert FileLanguages(ns) == (if n.File? && n.language != "" then {n.language} else {}) + FileLanguages(ns[1..]);
    }
  }

  /** `analyzeRepository`, stated against the flat list of all nodes: the two
      counts split the nodes into files and folders, the languages are those
      of the files (empty labels skipped), the flags record a tests folder and
      a README.md file anywhere in the tree, CI/CD is never detected, and React
      is reported exactly when a JSX or TSX language was seen. */
  function AnalyzeRepository(files: seq<Node>): (st: Stats)
    ensures st.totalFiles == CountFiles(Flatten(files))
    ensures st.totalFiles + st.totalFolders == |Flatten(files)|
    ensures st.languages == FileLanguages(Flatten(files))
    ensures st.hasTests <==> HasTestFolder(Flatten(files))
    ensures st.hasDocumentation <==> HasReadme(Flatten(files))
    ensures !st.hasCICD
    ensures React in st.frameworks <==> ("jsx" in st.languages || "tsx" in st.languages)
    ensures st.frameworks <= {React}
  {
    TraverseIsFold(files, EmptyStats);
    FoldStepsFacts(Flatten(files), EmptyStats);
    var st := Traverse(files, EmptyStats);
    st.(frameworks := if "jsx" in st.languages || "tsx" in st.languages then {React} else {})
  }
}
