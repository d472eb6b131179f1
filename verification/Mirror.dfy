/**
 The workspace mirror (pi-workspace-mirror.ts): the host's configuration files are made
 equal to the sandbox's. Paths are sequences of names, the file system is a map from
 paths to nodes, and the four loops of the sync run on it in place. The order in which
 a loop visits its entries is left open.
 */
module Mirror {
  import opened Prelude

  type Path = seq<string>
  type Bytes = seq<int>

  datatype Node = Dir | File(bytes: Bytes)

  type Tree = map<Path, Node>

  /** Every entry lies in a directory; the root is implicit. */
  ghost predicate IsTree(t: Tree) {
    forall p :: p in t ==> p != [] && (|p| > 1 ==> IsDir(t, Parent(p)))
  }

  predicate IsDir(t: Tree, p: Path) {
    p in t && t[p].Dir?
  }

  predicate IsFile(t: Tree, p: Path) {
    p in t && t[p].File?
  }

  function Parent(p: Path): Path
    requires p != []
  {
    p[..|p| - 1]
  }

  predicate IsConfigDir(name: string) {
    name == ".pi" || name == ".agents"
  }

  predicate IsContextName(name: string) {
    name == "AGENTS.md" || name == "AGENTS.MD"
  }

  /** What Pi's resource loader reads: the configuration directories and the context files at the root. */
  predicate InScope(p: Path) {
    p != [] && (IsConfigDir(p[0]) || (|p| == 1 && IsContextName(p[0])))
  }

  /** Everything in or under `.pi` and `.agents`, and `AGENTS.md` in either spelling at the root. */
  lemma ScopeIsExactly(p: Path)
    ensures InScope(p) <==>
      (p != [] && (p[0] == ".pi" || p[0] == ".agents")) || p == ["AGENTS.md"] || p == ["AGENTS.MD"]
  {
  }

  /** A configuration directory that is a regular file, or a context file that is a directory. */
  predicate Stray(t: Tree, p: Path) {
    p in t && |p| == 1 && ((IsConfigDir(p[0]) && t[p].File?) || (IsContextName(p[0]) && t[p].Dir?))
  }

  /** The configuration directories are directories if they exist, the context files are files. */
  ghost predicate WellKinded(t: Tree) {
    forall p :: p in t ==> !Stray(t, p)
  }

  lemma {:induction false} AncestorIsDir(t: Tree, p: Path, k: nat)
    requires IsTree(t) && p in t && 0 < k < |p|
    ensures IsDir(t, p[..k])
    decreases |p| - k
  {
    if k + 1 == |p| {
      assert Parent(p) == p[..k];
    } else {
      AncestorIsDir(t, p, k + 1);
      assert Parent(p[..k + 1]) == p[..k];
    }
  }

  /** The two trees agree within the scope. */
  ghost predicate Mirrors(host: Tree, remote: Tree) {
    forall p :: InScope(p) ==> (p in host <==> p in remote) && (p in host ==> host[p] == remote[p])
  }

  /** The two trees agree within the scope, but for the stray entries of a third. */
  ghost predicate MirrorsBeside(strays: Tree, host: Tree, remote: Tree) {
    forall p :: InScope(p) && !Stray(strays, p) ==>
      (p in host <==> p in remote) && (p in host ==> host[p] == remote[p])
  }

  ghost predicate KeepsStrays(host: Tree, start: Tree) {
    forall p :: Stray(start, p) ==> p in host && host[p] == start[p]
  }

  /** Nothing outside the scope differs. */
  ghost predicate SameOutside(a: Tree, b: Tree) {
    forall p :: !InScope(p) ==> (p in a <==> p in b) && (p in a ==> a[p] == b[p])
  }

  /** What the sandbox lists: a tree of scoped entries. */
  ghost predicate IsListing(remote: Tree, dirs: seq<Path>, files: seq<Path>) {
    && IsTree(remote) && WellKinded(remote)
    && (forall p :: p in remote ==> InScope(p))
    && Elems(dirs) == (set p | p in remote && remote[p].Dir?)
    && Elems(files) == (set p | p in remote && remote[p].File?)
  }

  // ----- buildRequiredDirectories -----

  /** `path.dirname` of a relative path; the empty sequence stands for ".". */
  function DirName(p: Path): Path {
    if p == [] then [] else p[..|p| - 1]
  }

  /** The listed directories and every directory above a listed file. */
  ghost predicate Requires(dirs: seq<Path>, files: seq<Path>, d: Path) {
    d in dirs || (d != [] && exists f :: f in files && d < f)
  }

  lemma RequiresOneMore(dirs: seq<Path>, files: seq<Path>, file: Path, d: Path)
    ensures Requires(dirs, files + [file], d) <==> Requires(dirs, files, d) || (d != [] && d < file)
  {
    if d != [] && d < file {
      assert (files + [file])[|files|] == file && file in files + [file];
    }
    if d != [] && exists f :: f in files && d < f {
      var f :| f in files && d < f;
      assert f in files + [file];
    }
    if d != [] && exists f :: f in files + [file] && d < f {
      var f :| f in files + [file] && d < f;
      assert f in files || f == file;
    }
  }

  method BuildRequiredDirectories(dirs: seq<Path>, files: seq<Path>) returns (directories: set<Path>)
    ensures forall d :: d in directories <==> Requires(dirs, files, d)
  {
    directories := set d | d in dirs;
    for i := 0 to |files|
      invariant forall d :: d in directories <==> Requires(dirs, files[..i], d)
    {
      var current := DirName(files[i]);
      ghost var before := directories;
      assert files[..i + 1] == files[..i] + [files[i]];
      while current != []
        invariant current <= files[i] && (files[i] != [] ==> |current| < |files[i]|)
        invariant forall d :: d in directories <==> d in before || (|current| < |d| < |files[i]| && d < files[i])
        decreases |current|
      {
        directories := directories + {current};
        forall d ensures d in directories <==> d in before || (|DirName(current)| < |d| < |files[i]| && d < files[i]) {
          if |d| == |current| && d < files[i] {
            assert d == current;
          }
        }
        current := DirName(current);
      }
      forall d ensures d in directories <==> Requires(dirs, files[..i + 1], d) {
        RequiresOneMore(dirs, files[..i], files[i], d);
      }
    }
    assert files[..|files|] == files;
  }

  /** For a listing of a tree these are exactly its directories. */
  lemma RequiredAreRemote(remote: Tree, dirs: seq<Path>, files: seq<Path>, d: Path)
    requires IsListing(remote, dirs, files)
    ensures Requires(dirs, files, d) <==> IsDir(remote, d)
  {
    assert d in dirs <==> d in Elems(dirs);
    if d != [] && exists f :: f in files && d < f {
      var f :| f in files && d < f;
      assert f in Elems(files) && f[..|d|] == d;
      AncestorIsDir(remote, f, |d|);
    }
  }

  // ----- the host file system -----

  class HostTree {
    var nodes: Tree
    var changes: nat     // deletions, created directories and written files

    constructor (nodes: Tree)
      ensures this.nodes == nodes && changes == 0
    {
      this.nodes, changes := nodes, 0;
    }

    /** `rm(path, { force: true })` of a file. */
    method RemoveFile(p: Path)
      modifies this
      ensures nodes == old(nodes) - {p}
      ensures changes == old(changes) + 1
    {
      nodes := nodes - {p};
      changes := changes + 1;
    }

    /** `rm(path, { recursive: true, force: true })`. */
    method RemoveTree(d: Path)
      modifies this
      ensures nodes == old(nodes) - set p | p in old(nodes) && d <= p
      ensures changes == old(changes) + 1
    {
      nodes := nodes - set p | p in nodes && d <= p;
      changes := changes + 1;
    }

    /** `mkdir(path, { recursive: true })`; it fails when a file is in the way. */
    method MakeDirs(d: Path) returns (ok: bool)
      requires IsTree(nodes)
      modifies this
      ensures ok <==> Clear(old(nodes), d)
      ensures nodes == if ok then WithDirs(old(nodes), d) else old(nodes)
      ensures Ancestors(d) <= old(nodes).Keys ==> nodes == old(nodes) && changes == old(changes)
    {
      for i := 0 to |d|
        invariant nodes == WithDirs(old(nodes), d[..i]) && Clear(old(nodes), d[..i])
        invariant Ancestors(d) <= old(nodes).Keys ==> nodes == old(nodes) && changes == old(changes)
      {
        var p := d[..i + 1];
        OneMoreDir(old(nodes), d, i);
        if p in nodes && nodes[p].File? {
          return false;
        }
        if p !in nodes {
          nodes := nodes[p := Dir];
          changes := changes + 1;
        }
      }
      assert d[..|d|] == d;
      return true;
    }

    /** `writeFile`, into a directory that exists; it fails over a directory. */
    method WriteFile(p: Path, bytes: Bytes) returns (ok: bool)
      requires p != [] && (|p| > 1 ==> IsDir(nodes, Parent(p)))
      modifies this
      ensures ok <==> !IsDir(old(nodes), p)
      ensures nodes == if ok then old(nodes)[p := File(bytes)] else old(nodes)
      ensures changes == old(changes) + if ok then 1 else 0
    {
      if p in nodes && nodes[p].Dir? {
        return false;
      }
      nodes := nodes[p := File(bytes)];
      changes := changes + 1;
      return true;
    }
  }

  /** The directory itself and those above it. */
  function Ancestors(d: Path): set<Path> {
    set k | 0 < k <= |d| :: d[..k]
  }

  /** No file is in the way of the directory. */
  ghost predicate Clear(t: Tree, d: Path) {
    forall p :: p in Ancestors(d) ==> !IsFile(t, p)
  }

  function WithDirs(t: Tree, d: Path): Tree {
    t + map p | p in Ancestors(d) :: Dir
  }

  lemma AncestorsGrow(d: Path, i: nat)
    requires i < |d|
    ensures Ancestors(d[..i + 1]) == Ancestors(d[..i]) + {d[..i + 1]}
  {
    forall p ensures p in Ancestors(d[..i + 1]) <==> p in Ancestors(d[..i]) || p == d[..i + 1] {
      if p in Ancestors(d[..i + 1]) {
        var k :| 0 < k <= i + 1 && p == d[..i + 1][..k];
        assert p == d[..k];
        if k <= i {
          assert p == d[..i][..k];
        }
      }
      if p in Ancestors(d[..i]) {
        var k :| 0 < k <= i && p == d[..i][..k];
        assert p == d[..i + 1][..k];
      }
      assert d[..i + 1][..i + 1] == d[..i + 1];
    }
  }

  lemma PrefixIsAncestor(d: Path, i: nat)
    requires i < |d|
    ensures d[..i + 1] in Ancestors(d)
    ensures forall p :: p in Ancestors(d[..i]) ==> |p| <= i
  {
  }

  /** An entry of the tree lies in directories. */
  lemma AncestorsAreDirs(t: Tree, d: Path, i: nat)
    requires IsTree(t) && i < |d| && d[..i + 1] in t
    ensures WithDirs(t, d[..i]) == t
  {
    forall q | q in Ancestors(d[..i]) ensures IsDir(t, q) {
      var k :| 0 < k <= i && q == d[..i][..k];
      assert q == d[..i + 1][..k];
      AncestorIsDir(t, d[..i + 1], k);
    }
  }

  lemma WithOneMoreDir(t: Tree, d: Path, i: nat)
    requires i < |d|
    ensures WithDirs(t, d[..i + 1]) == WithDirs(t, d[..i])[d[..i + 1] := Dir]
  {
    AncestorsGrow(d, i);
    var p, made := d[..i + 1], WithDirs(t, d[..i]);
    forall q ensures q in WithDirs(t, p) <==> q in made || q == p {
    }
  }

  /** `mkdir` one level further down. */
  lemma OneMoreDir(t: Tree, d: Path, i: nat)
    requires IsTree(t) && i < |d| && Clear(t, d[..i])
    ensures d[..i + 1] in Ancestors(d)
    ensures d[..i + 1] in WithDirs(t, d[..i]) <==> d[..i + 1] in t
    ensures d[..i + 1] in t ==> WithDirs(t, d[..i]) == t
    ensures WithDirs(t, d[..i + 1]) == WithDirs(t, d[..i])[d[..i + 1] := Dir]
    ensures Clear(t, d[..i + 1]) <==> !IsFile(t, d[..i + 1])
  {
    WithOneMoreDir(t, d, i);
    PrefixIsAncestor(d, i);
    AncestorsGrow(d, i);
    if d[..i + 1] in t {
      AncestorsAreDirs(t, d, i);
    }
  }

  lemma MadeIsTree(t: Tree, d: Path)
    requires IsTree(t) && Clear(t, d)
    ensures IsTree(WithDirs(t, d))
  {
    var n := WithDirs(t, d);
    forall p | p in n ensures p != [] && (|p| > 1 ==> IsDir(n, Parent(p))) {
      if p in Ancestors(d) && |p| > 1 {
        assert Parent(p) == d[..|p| - 1] && Parent(p) in Ancestors(d);
      } else if |p| > 1 {
        assert IsDir(t, Parent(p));
      }
    }
  }

  // ----- collectHostScopedEntries -----

  function Below(t: Tree, d: Path): set<Path> {
    set p | p in t && d < p
  }

  /** The entries of one directory, as `readdir` lists them. */
  function ChildrenOf(t: Tree, d: Path): set<Path> {
    set p | p in t && |p| == |d| + 1 && d < p
  }

  lemma BelowByChild(t: Tree, d: Path, p: Path)
    requires IsTree(t) && p in t && d < p
    ensures p[..|d| + 1] in ChildrenOf(t, d)
  {
    if |p| > |d| + 1 {
      AncestorIsDir(t, p, |d| + 1);
    } else {
      assert p[..|d| + 1] == p;
    }
  }

  lemma OnlyDirsHaveChildren(t: Tree, c: Path, p: Path)
    requires IsTree(t) && c != [] && c < p && p in t
    ensures IsDir(t, c)
  {
    AncestorIsDir(t, p, |c|);
    assert p[..|c|] == c;
  }

  lemma ChildBelowIsSmaller(t: Tree, d: Path, c: Path)
    requires c in ChildrenOf(t, d)
    ensures Below(t, c) < Below(t, d)
  {
    assert c in Below(t, d) && c !in Below(t, c);
    forall p | p in Below(t, c) ensures p in Below(t, d) {
      assert d == c[..|d|] && c == p[..|c|] && p[..|d|] == d;
    }
  }

  /** What `collectHostSubtree` must add for the given part of a directory. */
  ghost predicate Collected(t: Tree, d: Path, pending: set<Path>, dirs: set<Path>, files: set<Path>) {
    forall p :: p in Below(t, d) && p[..|d| + 1] !in pending ==>
      (t[p].Dir? ==> p in dirs) && (t[p].File? ==> p in files)
  }

  ghost predicate OnlyFrom(t: Tree, d: Path, oldDirs: set<Path>, oldFiles: set<Path>, dirs: set<Path>,
                           files: set<Path>) {
    && oldDirs <= dirs && oldFiles <= files
    && (forall p :: p in dirs && p !in oldDirs ==> p in Below(t, d) && t[p].Dir?)
    && (forall p :: p in files && p !in oldFiles ==> p in Below(t, d) && t[p].File?)
  }

  method CollectHostSubtree(t: Tree, d: Path, oldDirs: set<Path>, oldFiles: set<Path>)
    returns (dirs: set<Path>, files: set<Path>)
    requires IsTree(t)
    ensures Collected(t, d, {}, dirs, files) && OnlyFrom(t, d, oldDirs, oldFiles, dirs, files)
    decreases Below(t, d)
  {
    dirs, files := oldDirs, oldFiles;
    var pending := ChildrenOf(t, d);
    forall p | p in Below(t, d) ensures p[..|d| + 1] in pending {
      BelowByChild(t, d, p);
    }
    while pending != {}
      invariant pending <= ChildrenOf(t, d)
      invariant Collected(t, d, pending, dirs, files) && OnlyFrom(t, d, oldDirs, oldFiles, dirs, files)
      decreases |pending|
    {
      var entry :| entry in pending;
      ghost var before, dirs0, files0 := pending, dirs, files;
      pending := pending - {entry};
      if t[entry].Dir? {
        dirs := dirs + {entry};
        ChildBelowIsSmaller(t, d, entry);
        dirs, files := CollectHostSubtree(t, entry, dirs, files);
      } else {
        files := files + {entry};
      }
      EntryCollected(t, d, before, entry, dirs0, files0, dirs, files);
    }
  }

  /** One directory entry and everything under it. */
  lemma EntryCollected(t: Tree, d: Path, pending: set<Path>, entry: Path,
                       dirs0: set<Path>, files0: set<Path>, dirs: set<Path>, files: set<Path>)
    requires IsTree(t) && entry in ChildrenOf(t, d)
    requires Collected(t, d, pending, dirs0, files0)
    requires if t[entry].Dir? then Collected(t, entry, {}, dirs, files) &&
             OnlyFrom(t, entry, dirs0 + {entry}, files0, dirs, files)
             else dirs == dirs0 && files == files0 + {entry}
    ensures Collected(t, d, pending - {entry}, dirs, files)
    ensures forall oldDirs, oldFiles :: OnlyFrom(t, d, oldDirs, oldFiles, dirs0, files0) ==>
            OnlyFrom(t, d, oldDirs, oldFiles, dirs, files)
  {
    forall p | p in Below(t, d) && p[..|d| + 1] !in pending - {entry}
      ensures (t[p].Dir? ==> p in dirs) && (t[p].File? ==> p in files)
    {
      if p[..|d| + 1] == entry {
        if p == entry {
        } else {
          assert entry < p;
          OnlyDirsHaveChildren(t, entry, p);
          assert p in Below(t, entry);
        }
      }
    }
    ChildBelowIsSmaller(t, d, entry);
    assert entry in Below(t, d);
  }

  /** The scoped directories and files of the host, stray entries apart, and nothing else. */
  method CollectHostScopedEntries(t: Tree) returns (dirs: set<Path>, files: set<Path>)
    requires IsTree(t)
    ensures forall p :: p in dirs <==> InScope(p) && IsDir(t, p) && !Stray(t, p)
    ensures forall p :: p in files <==> InScope(p) && IsFile(t, p) && !Stray(t, p)
  {
    dirs, files := CollectConfigDirs(t, [".pi", ".agents"]);
    files := CollectContextFiles(t, ["AGENTS.md", "AGENTS.MD"], files);
    forall p
      ensures InScope(p) <==> StartsWithOneOf(p, [".pi", ".agents"]) || (|p| == 1 && p[0] in ["AGENTS.md", "AGENTS.MD"])
    {
    }
    forall p | IsDir(t, p) && InScope(p) && !Stray(t, p) ensures StartsWithOneOf(p, [".pi", ".agents"]) {
    }
  }

  /** The directories and files under the configuration directories read so far. */
  ghost predicate CollectedConfig(t: Tree, names: seq<string>, dirs: set<Path>, files: set<Path>) {
    && (forall p :: p in dirs <==> IsDir(t, p) && StartsWithOneOf(p, names))
    && (forall p :: p in files <==> IsFile(t, p) && StartsWithOneOf(p, names) && !Stray(t, p))
  }

  method CollectConfigDirs(t: Tree, names: seq<string>) returns (dirs: set<Path>, files: set<Path>)
    requires IsTree(t) && forall i :: 0 <= i < |names| ==> IsConfigDir(names[i])
    ensures CollectedConfig(t, names, dirs, files)
  {
    dirs, files := {}, {};
    for i := 0 to |names|
      invariant CollectedConfig(t, names[..i], dirs, files)
    {
      var d := [names[i]];
      ghost var dirs0, files0 := dirs, files;
      if d in t && t[d].Dir? {
        dirs, files := CollectHostSubtree(t, d, dirs + {d}, files);
      }
      ConfigDirCollected(t, names[i], dirs0, files0, dirs, files);
      OneMoreConfigDir(t, names[..i], names[i], dirs0, files0, dirs, files);
      assert names[..i + 1] == names[..i] + [names[i]];
    }
    assert names[..|names|] == names;
  }

  lemma OneMoreConfigDir(t: Tree, names: seq<string>, name: string, dirs0: set<Path>, files0: set<Path>,
                         dirs: set<Path>, files: set<Path>)
    requires CollectedConfig(t, names, dirs0, files0)
    requires forall p :: p in dirs <==> p in dirs0 || (IsDir(t, p) && p != [] && p[0] == name)
    requires forall p :: p in files <==> p in files0 || (IsFile(t, p) && p != [] && p[0] == name && !Stray(t, p))
    ensures CollectedConfig(t, names + [name], dirs, files)
  {
  }

  method CollectContextFiles(t: Tree, names: seq<string>, oldFiles: set<Path>) returns (files: set<Path>)
    ensures forall p :: p in files <==> p in oldFiles || (IsFile(t, p) && |p| == 1 && p[0] in names)
  {
    files := oldFiles;
    for i := 0 to |names|
      invariant forall p :: p in files <==> p in oldFiles || (IsFile(t, p) && |p| == 1 && p[0] in names[..i])
    {
      var p := [names[i]];
      assert names[..i + 1] == names[..i] + [names[i]];
      assert forall q :: |q| == 1 && q[0] == names[i] ==> q == p;
      if p in t && t[p].File? {
        files := files + {p};
      }
    }
    assert names[..|names|] == names;
  }

  predicate StartsWithOneOf(p: Path, names: seq<string>) {
    p != [] && p[0] in names
  }

  lemma ConfigDirCollected(t: Tree, name: string, dirs0: set<Path>, files0: set<Path>, dirs: set<Path>,
                           files: set<Path>)
    requires IsTree(t) && IsConfigDir(name)
    requires if IsDir(t, [name]) then Collected(t, [name], {}, dirs, files) &&
             OnlyFrom(t, [name], dirs0 + {[name]}, files0, dirs, files)
             else dirs == dirs0 && files == files0
    ensures forall p :: p in dirs <==> p in dirs0 || (IsDir(t, p) && p != [] && p[0] == name)
    ensures forall p :: p in files <==> p in files0 || (IsFile(t, p) && p != [] && p[0] == name && !Stray(t, p))
  {
    forall p | p in t && p != [] && p[0] == name && !Stray(t, p)
      ensures IsDir(t, [name]) && (p == [name] || p in Below(t, [name]))
    {
      if p != [name] {
        OnlyDirsHaveChildren(t, [name], p);
      }
    }
  }

  // ----- the loops of the sync -----

  /** A directory of the set lies at or above the path. */
  ghost predicate AtOrUnder(dirs: set<Path>, p: Path) {
    exists d :: d in dirs && d <= p
  }

  method RemoveStaleFiles(host: HostTree, hostFiles: set<Path>, remoteFiles: set<Path>)
    modifies host
    ensures host.nodes == old(host.nodes) - (hostFiles - remoteFiles)
    ensures hostFiles <= remoteFiles ==> host.changes == old(host.changes)
  {
    var pending := hostFiles;
    while pending != {}
      invariant pending <= hostFiles
      invariant host.nodes == old(host.nodes) - ((hostFiles - pending) - remoteFiles)
      invariant hostFiles <= remoteFiles ==> host.changes == old(host.changes)
      decreases |pending|
    {
      var p :| p in pending;
      pending := pending - {p};
      if p !in remoteFiles {
        host.RemoveFile(p);
      }
    }
    assert hostFiles - pending == hostFiles;
  }

  method RemoveStaleDirs(host: HostTree, removable: set<Path>)
    modifies host
    ensures forall p :: p in host.nodes <==> p in old(host.nodes) && !AtOrUnder(removable, p)
    ensures forall p :: p in host.nodes ==> host.nodes[p] == old(host.nodes)[p]
    ensures removable == {} ==> host.changes == old(host.changes)
  {
    var pending := removable;
    ghost var done: set<Path> := {};
    while pending != {}
      invariant done + pending == removable && done !! pending
      invariant forall p :: p in host.nodes <==> p in old(host.nodes) && !AtOrUnder(done, p)
      invariant forall p :: p in host.nodes ==> host.nodes[p] == old(host.nodes)[p]
      invariant removable == {} ==> host.changes == old(host.changes)
      decreases |pending|
    {
      var d :| d in pending;
      pending := pending - {d};
      ghost var before := host.nodes;
      host.RemoveTree(d);
      forall p ensures AtOrUnder(done + {d}, p) <==> AtOrUnder(done, p) || d <= p {
        if AtOrUnder(done, p) {
          var e :| e in done && e <= p;
          assert e in done + {d};
        }
        if d <= p {
          assert d in done + {d};
        }
      }
      done := done + {d};
    }
    assert done == removable;
  }

  /** The directories to make include those above them. */
  ghost predicate Closed(dirs: set<Path>) {
    forall d, k :: d in dirs && 0 < k <= |d| ==> d[..k] in dirs
  }

  /** False when a file is in the way of a directory. */
  method MakeRequired(host: HostTree, required: set<Path>) returns (ok: bool)
    requires Closed(required) && [] !in required && IsTree(host.nodes)
    modifies host
    ensures ok <==> forall d :: d in required ==> !IsFile(old(host.nodes), d)
    ensures GrownBy(host.nodes, old(host.nodes), required)
    ensures ok ==> required <= host.nodes.Keys
    ensures required <= old(host.nodes).Keys ==> host.nodes == old(host.nodes) && host.changes == old(host.changes)
  {
    var pending := required;
    ghost var start := host.nodes;
    while pending != {}
      invariant pending <= required
      invariant GrownBy(host.nodes, start, required) && required - pending <= host.nodes.Keys
      invariant forall d :: d in required && d !in pending ==> !IsFile(start, d)
      invariant required <= start.Keys ==> host.nodes == start && host.changes == old(host.changes)
      decreases |pending|
    {
      var d :| d in pending;
      pending := pending - {d};
      AncestorsRequired(required, d);
      GrowsByOne(host.nodes, start, required, d);
      var made := host.MakeDirs(d);
      if !made {
        return false;
      }
    }
    return true;
  }

  /** The tree with some of the directories added. */
  ghost predicate GrownBy(t: Tree, start: Tree, required: set<Path>) {
    && (forall p :: p in start ==> p in t && t[p] == start[p])
    && (forall p :: p in t && p !in start ==> p in required && t[p].Dir?)
    && IsTree(t)
  }

  lemma AncestorsRequired(required: set<Path>, d: Path)
    requires Closed(required) && d in required && d != []
    ensures Ancestors(d) <= required && d in Ancestors(d)
  {
    assert d[..|d|] == d;
  }

  lemma GrowsByOne(t: Tree, start: Tree, required: set<Path>, d: Path)
    requires GrownBy(t, start, required) && Ancestors(d) <= required && d in Ancestors(d)
    ensures Clear(t, d) <==> Clear(start, d)
    ensures Clear(t, d) ==> GrownBy(WithDirs(t, d), start, required)
  {
    forall p | p in Ancestors(d) ensures IsFile(t, p) <==> IsFile(start, p) {
    }
    if Clear(t, d) {
      MadeIsTree(t, d);
    }
  }

  /** The files of the listing, where the sandbox still had them. */
  ghost predicate ContentsOf(remote: Tree, contents: map<Path, Bytes>) {
    forall p :: p in contents ==> IsFile(remote, p) && remote[p].bytes == contents[p]
  }

  /** Ready for the files: every directory is there. */
  ghost predicate Prepared(host: Tree, remote: Tree) {
    IsTree(host) && forall p :: IsDir(remote, p) ==> IsDir(host, p)
  }

  lemma ReadyToWrite(host: Tree, remote: Tree, p: Path)
    requires Prepared(host, remote) && IsTree(remote) && IsFile(remote, p)
    ensures p != [] && (|p| > 1 ==> IsDir(host, Parent(p)))
    ensures Clear(host, DirName(p)) && Ancestors(DirName(p)) <= host.Keys
  {
    forall k | 0 < k <= |DirName(p)| ensures IsDir(host, DirName(p)[..k]) {
      AncestorIsDir(remote, p, k);
      assert DirName(p)[..k] == p[..k];
    }
  }

  lemma WriteKeepsPrepared(host: Tree, remote: Tree, p: Path, bytes: Bytes)
    requires Prepared(host, remote) && IsTree(remote) && IsFile(remote, p) && !IsDir(host, p)
    ensures Prepared(host[p := File(bytes)], remote)
  {
    ReadyToWrite(host, remote, p);
    var n := host[p := File(bytes)];
    forall q | q in n ensures q != [] && (|q| > 1 ==> IsDir(n, Parent(q))) {
      if q != p && |q| > 1 {
        assert IsDir(host, Parent(q));
      }
    }
  }

  /** One file: written unless it is there with these bytes; false when a directory is in its place. */
  method WriteIfChanged(host: HostTree, ghost remote: Tree, file: Path, content: Bytes) returns (ok: bool)
    requires Prepared(host.nodes, remote) && IsTree(remote) && IsFile(remote, file)
    modifies host
    ensures Prepared(host.nodes, remote)
    ensures ok <==> !IsDir(old(host.nodes), file)
    ensures host.nodes == if ok then old(host.nodes)[file := File(content)] else old(host.nodes)
    ensures file in old(host.nodes) && old(host.nodes)[file] == File(content) ==> host.changes == old(host.changes)
  {
    ReadyToWrite(host.nodes, remote, file);
    var shouldWrite := !(file in host.nodes && host.nodes[file] == File(content));
    if shouldWrite {
      if !IsDir(host.nodes, file) {
        WriteKeepsPrepared(host.nodes, remote, file, content);
      }
      var made := host.MakeDirs(DirName(file));
      ok := host.WriteFile(file, content);
    } else {
      assert host.nodes == host.nodes[file := File(content)];
      ok := true;
    }
  }

  ghost predicate Holds(host: Tree, remote: Tree, contents: map<Path, Bytes>, files: seq<Path>) {
    forall f :: f in files ==> f in contents && f in host && f in remote && host[f] == remote[f]
  }

  ghost predicate SameBut(host: Tree, start: Tree, files: seq<Path>) {
    forall p :: p !in files ==> (p in host <==> p in start) && (p in host ==> host[p] == start[p])
  }

  /** The given files are written, with no directory in their place, and nothing else is changed. */
  ghost predicate Written(host: Tree, start: Tree, remote: Tree, contents: map<Path, Bytes>, files: seq<Path>) {
    && Holds(host, remote, contents, files) && SameBut(host, start, files) && KeepsDirs(host, start)
    && forall f :: f in files ==> !IsDir(start, f)
  }

  lemma OneMoreFile(host: Tree, start: Tree, remote: Tree, contents: map<Path, Bytes>, files: seq<Path>, file: Path)
    requires Written(host, start, remote, contents, files) && !IsDir(host, file)
    requires file in contents && file in remote && remote[file] == File(contents[file])
    ensures Written(host[file := File(contents[file])], start, remote, contents, files + [file])
  {
    var n := host[file := File(contents[file])];
    forall p ensures IsDir(n, p) <==> IsDir(start, p) {
      assert IsDir(host, p) <==> IsDir(start, p);
    }
  }

  /** Writing stopped before the last file. */
  lemma WrittenBefore(host: Tree, start: Tree, remote: Tree, contents: map<Path, Bytes>, files: seq<Path>, i: nat)
    requires i <= |files| && Written(host, start, remote, contents, files[..i])
    ensures SameBut(host, start, files)
  {
  }

  /** The last loop; false when the sandbox no longer has one of the files or a directory is in its place. */
  method WriteFiles(host: HostTree, ghost remote: Tree, files: seq<Path>, contents: map<Path, Bytes>)
    returns (ok: bool)
    requires Prepared(host.nodes, remote) && IsTree(remote) && ContentsOf(remote, contents)
    requires forall f :: f in files ==> IsFile(remote, f)
    modifies host
    ensures Prepared(host.nodes, remote)
    ensures ok <==> forall f :: f in files ==> f in contents && !IsDir(old(host.nodes), f)
    ensures ok ==> Holds(host.nodes, remote, contents, files)
    ensures SameBut(host.nodes, old(host.nodes), files) && KeepsDirs(host.nodes, old(host.nodes))
    ensures AlreadyThere(old(host.nodes), remote, files) ==>
            host.nodes == old(host.nodes) && host.changes == old(host.changes)
  {
    ghost var start := host.nodes;
    for i := 0 to |files|
      invariant Prepared(host.nodes, remote)
      invariant Written(host.nodes, start, remote, contents, files[..i])
      invariant AlreadyThere(start, remote, files) ==> host.nodes == start && host.changes == old(host.changes)
    {
      var file := files[i];
      assert files[..i + 1] == files[..i] + [file] && file in files;
      WrittenBefore(host.nodes, start, remote, contents, files, i);
      if file !in contents {
        return false;
      }
      if !IsDir(host.nodes, file) {
        OneMoreFile(host.nodes, start, remote, contents, files[..i], file);
      }
      var written := WriteIfChanged(host, remote, file, contents[file]);
      if !written {
        return false;
      }
    }
    assert files[..|files|] == files;
    return true;
  }

  ghost predicate AlreadyThere(host: Tree, remote: Tree, files: seq<Path>) {
    forall f :: f in files ==> f in host && f in remote && host[f] == remote[f]
  }

  /** No directory comes or goes. */
  ghost predicate KeepsDirs(host: Tree, start: Tree) {
    forall p :: IsDir(host, p) <==> IsDir(start, p)
  }

  // ----- the whole sync -----

  /**
   The host tree after the stale entries are gone: what is left in scope exists remotely with the
   same kind, or is stray.
   */
  ghost predicate Pruned(start: Tree, host: Tree, remote: Tree) {
    && IsTree(host) && SameOutside(host, start) && KeepsStrays(host, start)
    && (forall p :: InScope(p) && p in host && !Stray(start, p) ==> p in remote && (host[p].Dir? <==> remote[p].Dir?))
  }

  lemma ScopedDirsHoldScoped(t: Tree, d: Path, p: Path)
    requires InScope(d) && IsDir(t, d) && !Stray(t, d) && d <= p
    ensures InScope(p) && !Stray(t, p)
  {
    assert p[0] == d[0];
    assert |p| == 1 ==> p == d;
  }

  /** What is left after the stale files, then the stale directories with all they hold, are removed. */
  lemma PruningPrunes(start: Tree, mid: Tree, host: Tree, remote: Tree, hostFiles: set<Path>, removable: set<Path>)
    requires IsTree(start) && IsTree(remote)
    requires forall p :: p in hostFiles <==> InScope(p) && IsFile(start, p) && !Stray(start, p)
    requires mid == start - (hostFiles - set p | IsFile(remote, p) && p in remote)
    requires forall d :: d in removable <==> InScope(d) && IsDir(start, d) && !Stray(start, d) && !IsDir(remote, d)
    requires forall p :: p in host <==> p in mid && !AtOrUnder(removable, p)
    requires forall p :: p in host ==> host[p] == mid[p]
    ensures Pruned(start, host, remote)
  {
    forall p | p in host ensures p != [] && (|p| > 1 ==> IsDir(host, Parent(p))) {
      if |p| > 1 {
        ParentSurvives(start, mid, host, hostFiles, removable, p);
      }
    }
    forall p | InScope(p) && p in host && !Stray(start, p) ensures p in remote && (host[p].Dir? <==> remote[p].Dir?) {
      if start[p].Dir? {
        assert p in removable ==> AtOrUnder(removable, p);
      }
    }
    forall p | (!InScope(p) || Stray(start, p)) && p in start ensures p in host {
      if AtOrUnder(removable, p) {
        var d :| d in removable && d <= p;
        ScopedDirsHoldScoped(start, d, p);
      }
    }
  }

  lemma ParentSurvives(start: Tree, mid: Tree, host: Tree, hostFiles: set<Path>, removable: set<Path>, p: Path)
    requires IsTree(start) && p in host && |p| > 1
    requires mid.Keys <= start.Keys && forall q :: q in mid ==> mid[q] == start[q]
    requires forall q :: q in start && q !in mid ==> q in hostFiles
    requires forall q :: q in hostFiles ==> IsFile(start, q)
    requires forall q :: q in host <==> q in mid && !AtOrUnder(removable, q)
    requires forall q :: q in host ==> host[q] == mid[q]
    ensures IsDir(host, Parent(p))
  {
    assert IsDir(start, Parent(p));
  }

  /** A stray entry on the host where the sandbox has one of the other kind makes the sync fail. */
  ghost predicate NoStrayInTheWay(start: Tree, remote: Tree) {
    forall p :: Stray(start, p) ==> p !in remote
  }

  lemma MakingPrepares(start: Tree, pruned: Tree, host: Tree, remote: Tree, required: set<Path>, made: bool)
    requires IsTree(remote) && WellKinded(remote) && (forall p :: p in remote ==> InScope(p))
    requires Pruned(start, pruned, remote) && GrownBy(host, pruned, required)
    requires forall d :: d in required <==> IsDir(remote, d)
    requires made <==> forall d :: d in required ==> !IsFile(pruned, d)
    requires made ==> required <= host.Keys
    ensures made <==> forall p :: Stray(start, p) ==> !IsDir(remote, p)
    ensures if made then Pruned(start, host, remote) && Prepared(host, remote)
            else SameOutside(host, start) && KeepsStrays(host, start)
  {
    if p :| Stray(start, p) && IsDir(remote, p) {
      assert !Stray(remote, p);
      assert p in required && IsFile(pruned, p);
    }
    if made {
      forall p | IsDir(remote, p) ensures IsDir(host, p) {
        assert p in required;
      }
    }
  }

  /** A directory stands in the place of a file only where it is stray. */
  lemma FilesInTheWay(start: Tree, prepared: Tree, remote: Tree, f: Path)
    requires WellKinded(remote) && InScope(f) && IsFile(remote, f) && Pruned(start, prepared, remote)
    ensures IsDir(prepared, f) <==> Stray(start, f)
  {
    assert !Stray(remote, f);
  }

  lemma RequiredIsClosed(remote: Tree, required: set<Path>)
    requires IsTree(remote) && forall d :: d in required <==> IsDir(remote, d)
    ensures Closed(required)
  {
    forall d, k | d in required && 0 < k <= |d| ensures d[..k] in required {
      if k < |d| {
        AncestorIsDir(remote, d, k);
      } else {
        assert d[..k] == d;
      }
    }
  }

  ghost predicate HostEntries(start: Tree, hostDirs: set<Path>, hostFiles: set<Path>) {
    && (forall p :: p in hostDirs <==> InScope(p) && IsDir(start, p) && !Stray(start, p))
    && (forall p :: p in hostFiles <==> InScope(p) && IsFile(start, p) && !Stray(start, p))
  }

  ghost predicate RemoteEntries(remote: Tree, required: set<Path>, remoteFiles: set<Path>) {
    && (forall p :: p in required <==> IsDir(remote, p))
    && (forall p :: p in remoteFiles <==> IsFile(remote, p))
  }

  /** The first two loops. */
  method RemoveStale(host: HostTree, ghost remote: Tree, hostDirs: set<Path>, hostFiles: set<Path>,
                     required: set<Path>, remoteFiles: set<Path>)
    requires IsTree(host.nodes) && IsTree(remote)
    requires HostEntries(host.nodes, hostDirs, hostFiles) && RemoteEntries(remote, required, remoteFiles)
    modifies host
    ensures Pruned(old(host.nodes), host.nodes, remote)
    ensures hostFiles <= remoteFiles && hostDirs <= required ==>
              host.nodes == old(host.nodes) && host.changes == old(host.changes)
  {
    ghost var start := host.nodes;
    var removable := hostDirs - required;
    RemoveStaleFiles(host, hostFiles, remoteFiles);
    ghost var mid := host.nodes;
    RemoveStaleDirs(host, removable);
    assert hostFiles - remoteFiles == hostFiles - set p | IsFile(remote, p) && p in remote;
    PruningPrunes(start, mid, host.nodes, remote, hostFiles, removable);
    if hostFiles <= remoteFiles && hostDirs <= required {
      assert hostFiles - remoteFiles == {} && removable == {};
      assert mid == start;
      assert host.nodes == mid;
    }
  }

  /**
   `syncHostWorkspaceFromSandbox`, for every host tree and every listing of the sandbox's
   scoped entries; false stands for the errors it throws: a file disappeared from the
   sandbox, or a stray entry is in the way of one of its own. On success the scoped part
   of the host equals the remote one, files, bytes and directories, including where a
   file took the place of a directory or the other way round; only stray entries stay as
   they were, so the trees are equal exactly when there were none. Whatever happens,
   nothing outside the scope is touched. A host that already agrees is not written to, so
   a second sync writes nothing.
   */
  method Sync(host: HostTree, ghost remote: Tree, dirs: seq<Path>, files: seq<Path>, contents: map<Path, Bytes>)
    returns (ok: bool)
    requires IsTree(host.nodes) && IsListing(remote, dirs, files) && ContentsOf(remote, contents)
    modifies host
    ensures ok <==> (forall f :: f in files ==> f in contents) && NoStrayInTheWay(old(host.nodes), remote)
    ensures ok ==> MirrorsBeside(old(host.nodes), host.nodes, remote)
    ensures ok ==> (Mirrors(host.nodes, remote) <==> WellKinded(old(host.nodes)))
    ensures SameOutside(host.nodes, old(host.nodes)) && KeepsStrays(host.nodes, old(host.nodes)) && IsTree(host.nodes)
    ensures Mirrors(old(host.nodes), remote) ==> host.nodes == old(host.nodes) && host.changes == old(host.changes)
  {
    ghost var start := host.nodes;
    var hostDirs, hostFiles := CollectHostScopedEntries(host.nodes);
    var remoteFiles := set f | f in files;
    var required := BuildRequiredDirectories(dirs, files);
    forall d ensures d in required <==> IsDir(remote, d) {
      RequiredAreRemote(remote, dirs, files, d);
    }
    ListedFiles(remote, dirs, files, remoteFiles);
    ghost var agrees := Mirrors(start, remote);
    if agrees {
      NothingStale(start, remote, hostDirs, hostFiles, required, remoteFiles);
      assert AlreadyThere(start, remote, files);
    }
    RemoveStale(host, remote, hostDirs, hostFiles, required, remoteFiles);
    ghost var pruned := host.nodes;
    RequiredIsClosed(remote, required);
    var made := MakeRequired(host, required);
    ghost var prepared := host.nodes;
    MakingPrepares(start, pruned, prepared, remote, required, made);
    assert agrees ==> prepared == start && host.changes == old(host.changes);
    SucceedsWhenNothingIsInTheWay(start, prepared, remote, files, contents, made);
    if !made {
      return false;
    }
    ok := WriteFiles(host, remote, files, contents);
    WritingFillsIn(prepared, host.nodes, start, remote, files);
    if ok {
      EndsEqual(prepared, host.nodes, start, remote, files);
    }
  }

  lemma ListedFiles(remote: Tree, dirs: seq<Path>, files: seq<Path>, remoteFiles: set<Path>)
    requires IsListing(remote, dirs, files) && remoteFiles == set f | f in files
    ensures remoteFiles == set p | IsFile(remote, p) && p in remote
    ensures forall f :: f in files <==> IsFile(remote, f)
    ensures forall f :: f in files ==> InScope(f)
  {
    assert forall f :: f in files <==> f in Elems(files);
  }

  lemma SucceedsWhenNothingIsInTheWay(start: Tree, prepared: Tree, remote: Tree, files: seq<Path>,
                                      contents: map<Path, Bytes>, made: bool)
    requires WellKinded(remote) && (forall p :: p in remote ==> InScope(p))
    requires forall f :: f in files <==> IsFile(remote, f)
    requires made <==> forall p :: Stray(start, p) ==> !IsDir(remote, p)
    requires made ==> Pruned(start, prepared, remote)
    ensures (made && forall f :: f in files ==> f in contents && !IsDir(prepared, f))
       <==> (forall f :: f in files ==> f in contents) && NoStrayInTheWay(start, remote)
  {
    if made {
      forall f | f in files ensures IsDir(prepared, f) <==> Stray(start, f) {
        FilesInTheWay(start, prepared, remote, f);
      }
    }
  }

  lemma WritingFillsIn(prepared: Tree, host: Tree, start: Tree, remote: Tree, files: seq<Path>)
    requires Pruned(start, prepared, remote) && (forall f :: f in files <==> IsFile(remote, f))
    requires WellKinded(remote) && forall p :: p in remote ==> InScope(p)
    requires SameBut(host, prepared, files) && KeepsDirs(host, prepared)
    ensures SameOutside(host, start) && KeepsStrays(host, start)
  {
    forall p | Stray(start, p) ensures p in host && host[p] == start[p] {
      if p in files {
        FilesInTheWay(start, prepared, remote, p);
        assert IsDir(host, p);
      }
    }
  }

  lemma EndsEqual(prepared: Tree, host: Tree, start: Tree, remote: Tree, files: seq<Path>)
    requires Pruned(start, prepared, remote) && Prepared(host, remote) && KeepsStrays(host, start)
    requires WellKinded(remote) && forall p :: p in remote ==> InScope(p)
    requires forall f :: f in files <==> IsFile(remote, f)
    requires forall f :: f in files ==> f in host && f in remote && host[f] == remote[f]
    requires SameBut(host, prepared, files)
    ensures MirrorsBeside(start, host, remote)
    ensures Mirrors(host, remote) <==> WellKinded(start)
  {
    forall p | InScope(p) && !Stray(start, p)
      ensures (p in host <==> p in remote) && (p in host ==> host[p] == remote[p])
    {
      assert p in remote ==> IsDir(remote, p) || p in files;
      assert p in files <==> IsFile(remote, p);
    }
    if !WellKinded(start) {
      var p :| p in start && Stray(start, p);
      assert InScope(p) && host[p] == start[p];
      assert p in remote ==> !Stray(remote, p);
    }
  }

  /** A host that agrees has nothing stale, and every directory of the sandbox. */
  lemma NothingStale(start: Tree, remote: Tree, hostDirs: set<Path>, hostFiles: set<Path>, required: set<Path>,
                     remoteFiles: set<Path>)
    requires Mirrors(start, remote) && WellKinded(remote) && (forall p :: p in remote ==> InScope(p))
    requires HostEntries(start, hostDirs, hostFiles) && RemoteEntries(remote, required, remoteFiles)
    ensures hostFiles <= remoteFiles && hostDirs <= required && required <= start.Keys
  {
  }
}
