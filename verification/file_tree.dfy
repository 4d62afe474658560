/**
  The nested file tree the Dashboard builds from GitHub's flat, recursive tree
  listing: each entry's path is split on '/', and its parts are walked down
  from the root, creating the nodes that do not exist yet.
 */
module FileTree {
  import opened Base
  import opened Strings
  import opened Languages

  /** A node of the tree. Files carry a language and no children; folders
      carry children and no language. */
  datatype Node =
    | File(name: string, path: string, language: string)
    | Folder(name: string, path: string, children: seq<Node>)

  /** One entry of the listing: its path, and whether its type is 'blob'. */
  datatype TreeEntry = TreeEntry(path: string, isBlob: bool)

  /** The label of a file: the language of the text after its last '.'. */
  function FileLanguage(name: string): string
  {
    GetLanguageFromExt(LastPiece(name, '.'))
  }

  /** `level.find(n => n.name === name)`, as a position. */
  function FindByName(level: seq<Node>, name: string): (r: Option<nat>)
    ensures r.None? <==> forall k :: 0 <= k < |level| ==> level[k].name != name
    ensures r.Some? ==> r.value < |level| && level[r.value].name == name
    ensures r.Some? ==> forall k :: 0 <= k < r.value ==> level[k].name != name
    decreases |level|
  {
    if |level| == 0 then None
    else if level[0].name == name then Some(0)
    else
      match FindByName(level[1..], name)
      case None => None
      case Some(k) => Some(k + 1)
  }

  /** The walk of one entry from part `i` on, starting at `level`. A missing
      part is created (a file when it is the last part of a blob, a folder
      otherwise); an existing folder is entered; an existing file is not, and
      the remaining parts are then placed at the same level. */
  function InsertParts(level: seq<Node>, parts: seq<string>, i: nat, isBlob: bool): seq<Node>
    requires i <= |parts|
    decreases |parts| - i
  {
    if i == |parts| then level
    else
      var part := parts[i];
      match FindByName(level, part)
      case None =>
        var path := Join(parts[..i + 1], "/");
        if i == |parts| - 1 && isBlob then level + [File(part, path, FileLanguage(part))]
        else level + [Folder(part, path, InsertParts([], parts, i + 1, isBlob))]
      case Some(k) =>
        if level[k].Folder? then
          level[k := level[k].(children := InsertParts(level[k].children, parts, i + 1, isBlob))]
        else InsertParts(level, parts, i + 1, isBlob)
  }

  function InsertEntry(root: seq<Node>, e: TreeEntry): seq<Node>
  {
    InsertParts(root, Split(e.path, '/'), 0, e.isBlob)
  }

  /** The tree of a listing, entries taken in the order given. */
  function BuildTree(entries: seq<TreeEntry>): seq<Node>
    decreases |entries|
  {
    if |entries| == 0 then []
    else InsertEntry(BuildTree(entries[..|entries| - 1]), entries[|entries| - 1])
  }

  /** Every node of a forest, parents before their children. */
  function Flatten(level: seq<Node>): seq<Node>
    decreases level
  {
    if |level| == 0 then []
    else [level[0]] + (if level[0].Folder? then Flatten(level[0].children) else []) + Flatten(level[1..])
  }

  lemma FlattenCons(items: seq<Node>)
    requires |items| > 0
    ensures Flatten(items) ==
      [items[0]] + ((if items[0].Folder? then Flatten(items[0].children) else []) + Flatten(items[1..]))
  {
  }

  /* ------------------------------------------------------ sibling names */

  predicate UniqueNames(level: seq<Node>)
  {
    forall i, j :: 0 <= i < j < |level| ==> level[i].name != level[j].name
  }

  /** No two siblings share a name, at any depth. */
  predicate WellFormed(level: seq<Node>)
    decreases level
  {
    && UniqueNames(level)
    && forall k :: 0 <= k < |level| && level[k].Folder? ==> WellFormed(level[k].children)
  }

  lemma {:induction false} InsertKeepsWellFormed(level: seq<Node>, parts: seq<string>, i: nat, isBlob: bool)
    requires i <= |parts| && WellFormed(level)
    ensures WellFormed(InsertParts(level, parts, i, isBlob))
    decreases |parts| - i
  {
    if i < |parts| {
      var r := InsertParts(level, parts, i, isBlob);
      match FindByName(level, parts[i])
      case None =>
        if !(i == |parts| - 1 && isBlob) {
          InsertKeepsWellFormed([], parts, i + 1, isBlob);
        }
        assert r[..|level|] == level && r[|level|].name == parts[i];
        assert forall k :: 0 <= k < |level| ==> r[k] == level[k];
      case Some(k) =>
        if level[k].Folder? {
          InsertKeepsWellFormed(level[k].children, parts, i + 1, isBlob);
          assert forall m :: 0 <= m < |r| ==> r[m].name == level[m].name;
          assert forall m :: 0 <= m < |r| && m != k ==> r[m] == level[m];
        } else {
          InsertKeepsWellFormed(level, parts, i + 1, isBlob);
        }
    }
  }

  /** In the built tree no two siblings share a name. */
  lemma {:induction false} BuildTreeWellFormed(entries: seq<TreeEntry>)
    ensures WellFormed(BuildTree(entries))
    decreases |entries|
  {
    if |entries| > 0 {
      var e := entries[|entries| - 1];
      BuildTreeWellFormed(entries[..|entries| - 1]);
      InsertKeepsWellFormed(BuildTree(entries[..|entries| - 1]), Split(e.path, '/'), 0, e.isBlob);
    }
  }

  /* ------------------------------------------------------------- files */

  /** A file node as a blob entry produces it: its path is the entry's path,
      its name the path's last part, its language that of its extension. */
  predicate FileFromBlob(n: Node, blobs: set<string>)
  {
    n.File? && n.path in blobs && n.name == LastPiece(n.path, '/') && n.language == FileLanguage(n.name)
  }

  predicate FilesFrom(level: seq<Node>, blobs: set<string>)
    decreases level
  {
    forall k :: 0 <= k < |level| ==>
      && (level[k].File? ==> FileFromBlob(level[k], blobs))
      && (level[k].Folder? ==> FilesFrom(level[k].children, blobs))
  }

  lemma FilesFromAppend(level: seq<Node>, n: Node, blobs: set<string>)
    requires FilesFrom(level, blobs)
    requires n.File? ==> FileFromBlob(n, blobs)
    requires n.Folder? ==> FilesFrom(n.children, blobs)
    ensures FilesFrom(level + [n], blobs)
  {
    assert forall k :: 0 <= k < |level| ==> (level + [n])[k] == level[k];
  }

  lemma FilesFromUpdate(level: seq<Node>, k: nat, children: seq<Node>, blobs: set<string>)
    requires k < |level| && level[k].Folder?
    requires FilesFrom(level, blobs) && FilesFrom(children, blobs)
    ensures FilesFrom(level[k := level[k].(children := children)], blobs)
  {
    var r := level[k := level[k].(children := children)];
    assert forall m :: 0 <= m < |r| && m != k ==> r[m] == level[m];
  }

  lemma {:induction false} InsertKeepsFiles(level: seq<Node>, parts: seq<string>, path: string, i: nat,
                                            isBlob: bool, blobs: set<string>)
    requires parts == Split(path, '/') && i <= |parts| && FilesFrom(level, blobs)
    requires isBlob ==> path in blobs
    ensures FilesFrom(InsertParts(level, parts, i, isBlob), blobs)
    decreases |parts| - i
  {
    if i < |parts| {
      match FindByName(level, parts[i])
      case None =>
        var newPath := Join(parts[..i + 1], "/");
        if i == |parts| - 1 && isBlob {
          assert parts[..i + 1] == parts;
          JoinSplit(path, '/');
          FilesFromAppend(level, File(parts[i], newPath, FileLanguage(parts[i])), blobs);
        } else {
          InsertKeepsFiles([], parts, path, i + 1, isBlob, blobs);
          FilesFromAppend(level, Folder(parts[i], newPath, InsertParts([], parts, i + 1, isBlob)), blobs);
        }
      case Some(k) =>
        if level[k].Folder? {
          InsertKeepsFiles(level[k].children, parts, path, i + 1, isBlob, blobs);
          FilesFromUpdate(level, k, InsertParts(level[k].children, parts, i + 1, isBlob), blobs);
        } else {
          InsertKeepsFiles(level, parts, path, i + 1, isBlob, blobs);
        }
    }
  }

  /** The paths of the blob entries. */
  function BlobPaths(entries: seq<TreeEntry>): set<string>
  {
    set j | 0 <= j < |entries| && entries[j].isBlob :: entries[j].path
  }

  lemma {:induction false} BuildTreeFiles(entries: seq<TreeEntry>, blobs: set<string>)
    requires BlobPaths(entries) <= blobs
    ensures FilesFrom(BuildTree(entries), blobs)
    decreases |entries|
  {
    if |entries| > 0 {
      var init := entries[..|entries| - 1];
      var e := entries[|entries| - 1];
      assert BlobPaths(init) <= BlobPaths(entries) by {
        forall j | 0 <= j < |init| && init[j].isBlob
          ensures init[j].path in BlobPaths(entries)
        {
          assert init[j] == entries[j];
        }
      }
      assert e.isBlob ==> e.path in BlobPaths(entries);
      BuildTreeFiles(init, blobs);
      InsertKeepsFiles(BuildTree(init), Split(e.path, '/'), e.path, 0, e.isBlob, blobs);
    }
  }

  lemma {:induction false} FlattenFiles(level: seq<Node>, blobs: set<string>)
    requires FilesFrom(level, blobs)
    ensures forall n :: n in Flatten(level) && n.File? ==> FileFromBlob(n, blobs)
    decreases level
  {
    if |level| > 0 {
      if level[0].Folder? {
        FlattenFiles(level[0].children, blobs);
      }
      FlattenFiles(level[1..], blobs);
    }
  }

  /** A node is a file only as the last part of a blob entry: its path is that
      entry's path, its name the path's last part, and its language is looked
      up from the name's extension. */
  lemma FilesComeFromBlobs(entries: seq<TreeEntry>)
    ensures forall n :: n in Flatten(BuildTree(entries)) && n.File? ==>
      && (exists j :: 0 <= j < |entries| && entries[j].isBlob && n.path == entries[j].path)
      && n.name == LastPiece(n.path, '/')
      && n.language == GetLanguageFromExt(LastPiece(n.name, '.'))
  {
    BuildTreeFiles(entries, BlobPaths(entries));
    FlattenFiles(BuildTree(entries), BlobPaths(entries));
  }

  /* ------------------------------------------------------------- paths */

  /** Each node's path is the '/'-join of the names from the root down to it. */
  predicate PathsFrom(level: seq<Node>, prefix: seq<string>)
    decreases level
  {
    forall k :: 0 <= k < |level| ==>
      && level[k].path == Join(prefix + [level[k].name], "/")
      && (level[k].Folder? ==> PathsFrom(level[k].children, prefix + [level[k].name]))
  }

  predicate ProperPrefix(a: seq<string>, b: seq<string>)
  {
    |a| < |b| && b[..|a|] == a
  }

  /** No blob's parts are a proper prefix of another entry's parts: a file is
      never listed as if it were a directory. */
  predicate NoBlobPrefix(entries: seq<TreeEntry>)
  {
    forall a, b :: 0 <= a < |entries| && 0 <= b < |entries| && entries[a].isBlob ==>
      !ProperPrefix(Split(entries[a].path, '/'), Split(entries[b].path, '/'))
  }

  lemma PathsFromAppend(level: seq<Node>, n: Node, prefix: seq<string>)
    requires PathsFrom(level, prefix)
    requires n.path == Join(prefix + [n.name], "/")
    requires n.Folder? ==> PathsFrom(n.children, prefix + [n.name])
    ensures PathsFrom(level + [n], prefix)
  {
    assert forall k :: 0 <= k < |level| ==> (level + [n])[k] == level[k];
  }

  lemma PathsFromUpdate(level: seq<Node>, k: nat, children: seq<Node>, prefix: seq<string>)
    requires k < |level| && level[k].Folder?
    requires PathsFrom(level, prefix) && PathsFrom(children, prefix + [level[k].name])
    ensures PathsFrom(level[k := level[k].(children := children)], prefix)
  {
    var r := level[k := level[k].(children := children)];
    assert forall m :: 0 <= m < |r| && m != k ==> r[m] == level[m];
  }

  /** A file met before the last part would be a blob whose parts are a proper
      prefix of the entry being inserted. */
  lemma FileOnTheWay(level: seq<Node>, parts: seq<string>, i: nat, k: nat, blobs: set<string>)
    requires i < |parts| - 1 && k < |level| && level[k].File? && level[k].name == parts[i]
    requires forall q :: 0 <= q < |parts| ==> '/' !in parts[q]
    requires PathsFrom(level, parts[..i]) && FilesFrom(level, blobs)
    ensures level[k].path in blobs && ProperPrefix(Split(level[k].path, '/'), parts)
  {
    assert parts[..i] + [parts[i]] == parts[..i + 1];
    assert forall q :: 0 <= q < i + 1 ==> parts[..i + 1][q] == parts[q];
    SplitJoin(parts[..i + 1], '/');
  }

  lemma {:induction false} InsertKeepsPaths(level: seq<Node>, parts: seq<string>, i: nat, isBlob: bool,
                                            blobs: set<string>)
    requires i <= |parts| && forall q :: 0 <= q < |parts| ==> '/' !in parts[q]
    requires PathsFrom(level, parts[..i]) && FilesFrom(level, blobs)
    requires forall b :: b in blobs ==> !ProperPrefix(Split(b, '/'), parts)
    ensures PathsFrom(InsertParts(level, parts, i, isBlob), parts[..i])
    decreases |parts| - i
  {
    if i < |parts| {
      assert parts[..i] + [parts[i]] == parts[..i + 1];
      match FindByName(level, parts[i])
      case None =>
        var newPath := Join(parts[..i + 1], "/");
        if i == |parts| - 1 && isBlob {
          PathsFromAppend(level, File(parts[i], newPath, FileLanguage(parts[i])), parts[..i]);
        } else {
          InsertKeepsPaths([], parts, i + 1, isBlob, blobs);
          PathsFromAppend(level, Folder(parts[i], newPath, InsertParts([], parts, i + 1, isBlob)), parts[..i]);
        }
      case Some(k) =>
        if level[k].Folder? {
          InsertKeepsPaths(level[k].children, parts, i + 1, isBlob, blobs);
          PathsFromUpdate(level, k, InsertParts(level[k].children, parts, i + 1, isBlob), parts[..i]);
        } else if i < |parts| - 1 {
          FileOnTheWay(level, parts, i, k, blobs);
          assert false;
        }
    }
  }

  lemma {:induction false} BuildTreePaths(entries: seq<TreeEntry>)
    requires NoBlobPrefix(entries)
    ensures PathsFrom(BuildTree(entries), [])
    decreases |entries|
  {
    if |entries| > 0 {
      var init := entries[..|entries| - 1];
      var e := entries[|entries| - 1];
      assert NoBlobPrefix(init) by {
        forall a, b | 0 <= a < |init| && 0 <= b < |init| && init[a].isBlob
          ensures !ProperPrefix(Split(init[a].path, '/'), Split(init[b].path, '/'))
        {
          assert init[a] == entries[a] && init[b] == entries[b];
        }
      }
      BuildTreePaths(init);
      BuildTreeFiles(init, BlobPaths(init));
      assert Split(e.path, '/')[..0] == [];
      InsertKeepsPaths(BuildTree(init), Split(e.path, '/'), 0, e.isBlob, BlobPaths(init));
    }
  }

  /* ---------------------------------------------------------- coverage */

  /** Some node at any depth of the forest has path `p`. */
  predicate HasPath(level: seq<Node>, p: string)
    decreases level
  {
    exists k :: 0 <= k < |level| &&
      (level[k].path == p || (level[k].Folder? && HasPath(level[k].children, p)))
  }

  lemma HasPathAppend(level: seq<Node>, n: Node, p: string)
    requires HasPath(level, p)
    ensures HasPath(level + [n], p)
  {
    var k :| 0 <= k < |level| &&
      (level[k].path == p || (level[k].Folder? && HasPath(level[k].children, p)));
    assert (level + [n])[k] == level[k];
  }

  lemma HasPathUpdate(level: seq<Node>, k: nat, children: seq<Node>, p: string)
    requires k < |level| && level[k].Folder? && HasPath(level, p)
    requires HasPath(level[k].children, p) ==> HasPath(children, p)
    ensures HasPath(level[k := level[k].(children := children)], p)
  {
    var r := level[k := level[k].(children := children)];
    var m :| 0 <= m < |level| &&
      (level[m].path == p || (level[m].Folder? && HasPath(level[m].children, p)));
    assert r[m].path == level[m].path;
    if m != k {
      assert r[m] == level[m];
    }
  }

  /** Placing an entry removes no node and changes no path. */
  lemma {:induction false} InsertKeepsHasPath(level: seq<Node>, parts: seq<string>, i: nat, isBlob: bool,
                                              p: string)
    requires i <= |parts| && HasPath(level, p)
    ensures HasPath(InsertParts(level, parts, i, isBlob), p)
    decreases |parts| - i
  {
    if i < |parts| {
      match FindByName(level, parts[i])
      case None =>
        var newPath := Join(parts[..i + 1], "/");
        if i == |parts| - 1 && isBlob {
          HasPathAppend(level, File(parts[i], newPath, FileLanguage(parts[i])), p);
        } else {
          HasPathAppend(level, Folder(parts[i], newPath, InsertParts([], parts, i + 1, isBlob)), p);
        }
      case Some(k) =>
        if level[k].Folder? {
          if HasPath(level[k].children, p) {
            InsertKeepsHasPath(level[k].children, parts, i + 1, isBlob, p);
          }
          HasPathUpdate(level, k, InsertParts(level[k].children, parts, i + 1, isBlob), p);
        } else {
          InsertKeepsHasPath(level, parts, i + 1, isBlob, p);
        }
    }
  }

  /** Placing an entry leaves a node whose path is the join of its parts. */
  lemma {:induction false} InsertPlacesPath(level: seq<Node>, parts: seq<string>, i: nat, isBlob: bool,
                                            blobs: set<string>)
    requires i < |parts| && forall q :: 0 <= q < |parts| ==> '/' !in parts[q]
    requires PathsFrom(level, parts[..i]) && FilesFrom(level, blobs)
    requires forall b :: b in blobs ==> !ProperPrefix(Split(b, '/'), parts)
    ensures HasPath(InsertParts(level, parts, i, isBlob), Join(parts, "/"))
    decreases |parts| - i
  {
    var target := Join(parts, "/");
    assert parts[..i] + [parts[i]] == parts[..i + 1];
    var r := InsertParts(level, parts, i, isBlob);
    match FindByName(level, parts[i])
    case None =>
      var newPath := Join(parts[..i + 1], "/");
      if i == |parts| - 1 {
        assert parts[..i + 1] == parts;
        assert r[|level|].path == newPath;
      } else {
        InsertPlacesPath([], parts, i + 1, isBlob, blobs);
        assert r[|level|] == Folder(parts[i], newPath, InsertParts([], parts, i + 1, isBlob));
      }
    case Some(k) =>
      if level[k].Folder? {
        var children := InsertParts(level[k].children, parts, i + 1, isBlob);
        if i == |parts| - 1 {
          assert parts[..i + 1] == parts;
          assert r[k].path == level[k].path;
        } else {
          InsertPlacesPath(level[k].children, parts, i + 1, isBlob, blobs);
          assert r[k] == level[k].(children := children);
        }
      } else if i == |parts| - 1 {
        assert parts[..i + 1] == parts;
        assert r == InsertParts(level, parts, i + 1, isBlob) == level;
        assert r[k].path == target;
      } else {
        FileOnTheWay(level, parts, i, k, blobs);
        assert false;
      }
  }

  lemma NoBlobPrefixInit(entries: seq<TreeEntry>)
    requires |entries| > 0 && NoBlobPrefix(entries)
    ensures NoBlobPrefix(entries[..|entries| - 1])
  {
    var init := entries[..|entries| - 1];
    forall a, b | 0 <= a < |init| && 0 <= b < |init| && init[a].isBlob
      ensures !ProperPrefix(Split(init[a].path, '/'), Split(init[b].path, '/'))
    {
      assert init[a] == entries[a] && init[b] == entries[b];
    }
  }

  lemma LastBelowNoBlob(entries: seq<TreeEntry>)
    requires |entries| > 0 && NoBlobPrefix(entries)
    ensures forall b :: b in BlobPaths(entries[..|entries| - 1]) ==>
      !ProperPrefix(Split(b, '/'), Split(entries[|entries| - 1].path, '/'))
  {
    var init := entries[..|entries| - 1];
    forall b | b in BlobPaths(init)
      ensures !ProperPrefix(Split(b, '/'), Split(entries[|entries| - 1].path, '/'))
    {
      var a :| 0 <= a < |init| && init[a].isBlob && init[a].path == b;
      assert init[a] == entries[a];
    }
  }

  /** Inserting an entry into a tree that keeps the path and file properties
      leaves a node with the entry's path. */
  lemma InsertEntryPlaces(root: seq<Node>, e: TreeEntry, blobs: set<string>)
    requires PathsFrom(root, []) && FilesFrom(root, blobs)
    requires forall b :: b in blobs ==> !ProperPrefix(Split(b, '/'), Split(e.path, '/'))
    ensures HasPath(InsertEntry(root, e), e.path)
  {
    var parts := Split(e.path, '/');
    assert parts[..0] == [];
    InsertPlacesPath(root, parts, 0, e.isBlob, blobs);
    JoinSplit(e.path, '/');
  }

  /** The last entry of a listing without blob prefixes has a node with its path. */
  lemma BuildTreePlacesLast(entries: seq<TreeEntry>)
    requires |entries| > 0 && NoBlobPrefix(entries)
    ensures HasPath(BuildTree(entries), entries[|entries| - 1].path)
  {
    var init := entries[..|entries| - 1];
    var root := BuildTree(init);
    var blobs := BlobPaths(init);
    NoBlobPrefixInit(entries);
    LastBelowNoBlob(entries);
    BuildTreePaths(init);
    BuildTreeFiles(init, blobs);
    InsertEntryPlaces(root, entries[|entries| - 1], blobs);
  }

  /** Every entry of a listing without blob prefixes has a node with its path. */
  lemma {:induction false} BuildTreeCovers(entries: seq<TreeEntry>, j: nat)
    requires NoBlobPrefix(entries) && j < |entries|
    ensures HasPath(BuildTree(entries), entries[j].path)
    decreases |entries|
  {
    if j == |entries| - 1 {
      BuildTreePlacesLast(entries);
    } else {
      var init := entries[..|entries| - 1];
      var e := entries[|entries| - 1];
      NoBlobPrefixInit(entries);
      BuildTreeCovers(init, j);
      assert init[j] == entries[j];
      InsertKeepsHasPath(BuildTree(init), Split(e.path, '/'), 0, e.isBlob, entries[j].path);
    }
  }

  lemma {:induction false} HasPathInFlatten(level: seq<Node>, p: string)
    requires HasPath(level, p)
    ensures exists n :: n in Flatten(level) && n.path == p
    decreases level
  {
    var k :| 0 <= k < |level| &&
      (level[k].path == p || (level[k].Folder? && HasPath(level[k].children, p)));
    FlattenCons(level);
    if k == 0 {
      if level[0].path != p {
        HasPathInFlatten(level[0].children, p);
      }
    } else {
      assert level[1..][k - 1] == level[k];
      HasPathInFlatten(level[1..], p);
    }
  }

  lemma EntryInFlatten(entries: seq<TreeEntry>, j: nat)
    requires NoBlobPrefix(entries) && j < |entries|
    ensures exists n :: n in Flatten(BuildTree(entries)) && n.path == entries[j].path
  {
    BuildTreeCovers(entries, j);
    HasPathInFlatten(BuildTree(entries), entries[j].path);
  }

  /** No entry is lost: when no blob path is a proper prefix of another
      entry's path, every entry's path is the path of some node of the tree. */
  lemma {:induction false} ListingEndsUpInTree(entries: seq<TreeEntry>)
    requires NoBlobPrefix(entries)
    ensures forall j :: 0 <= j < |entries| ==>
      exists n :: n in Flatten(BuildTree(entries)) && n.path == entries[j].path
  {
    var flat := Flatten(BuildTree(entries));
    forall j | 0 <= j < |entries|
      ensures exists n :: n in flat && n.path == entries[j].path
    {
      EntryInFlatten(entries, j);
    }
  }
}
