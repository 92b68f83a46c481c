/** The directory tree under the root, and what walking it visits. */
module Tree {
  import opened Options
  import opened Paths

  type Path = seq<string>

  // Files and directories by their segments below the root.
  datatype FS = FS(files: map<Path, string>, dirs: set<Path>)

  // A directory is there for everything, and no path is both.
  ghost predicate WellPlaced(fs: FS) {
    && [] in fs.dirs
    && (forall p :: p in fs.files ==> p != [] && p[..|p| - 1] in fs.dirs && p !in fs.dirs)
    && (forall d :: d in fs.dirs && d != [] ==> d[..|d| - 1] in fs.dirs)
  }

  predicate HasSuffix(s: string, suffix: string) {
    |suffix| <= |s| && s[|s| - |suffix|..] == suffix
  }

  // The file names walkObjects reads: "*.json", not starting with a dot.
  predicate Visible(name: string) {
    HasSuffix(name, ".json") && !Dotted(name)
  }

  predicate Under(dir: Path, p: Path) {
    |dir| < |p| && p[..|dir|] == dir
  }

  // What a walk from dir visits.
  ghost predicate Visits(fs: FS, dir: Path, p: Path) {
    p in fs.files && Under(dir, p) && Visible(p[|p| - 1])
  }

  // os.ReadDir: the names directly in a directory.
  function ReadDir(fs: FS, dir: Path): set<string> {
    (set p | p in fs.files && |p| == |dir| + 1 && p[..|dir|] == dir :: p[|dir|])
    + (set d | d in fs.dirs && |d| == |dir| + 1 && d[..|dir|] == dir :: d[|dir|])
  }

  ghost predicate Distinct(paths: seq<Path>) {
    forall i, j :: 0 <= i < j < |paths| ==> paths[i] != paths[j]
  }

  // The walk of one entry: a file to read, a directory to enter, or nothing.
  ghost predicate Entry(fs: FS, dir: Path, name: string, p: Path) {
    Visits(fs, dir, p) && p[|dir|] == name
  }

  // Every ancestor of a file is a directory.
  lemma {:induction false} AncestorIsDir(fs: FS, p: Path, n: nat)
    requires WellPlaced(fs) && (p in fs.files || p in fs.dirs) && n < |p|
    ensures p[..n] in fs.dirs
    decreases |p|
  {
    var parent := p[..|p| - 1];
    if n < |parent| {
      AncestorIsDir(fs, parent, n);
      assert parent[..n] == p[..n];
    }
  }

  lemma NothingUnder(fs: FS, dir: Path)
    requires WellPlaced(fs) && dir !in fs.dirs
    ensures forall p :: !Visits(fs, dir, p)
  {
    forall p | Visits(fs, dir, p) ensures false { AncestorIsDir(fs, p, |dir|); }
  }

  lemma FirstIsListed(fs: FS, dir: Path, p: Path)
    requires WellPlaced(fs) && Visits(fs, dir, p)
    ensures p[|dir|] in ReadDir(fs, dir)
  {
    var first := p[..|dir| + 1];
    assert first[..|dir|] == dir && first[|dir|] == p[|dir|];
    if |p| == |dir| + 1 {
      assert first == p;
    } else {
      AncestorIsDir(fs, p, |dir| + 1);
    }
  }

  lemma EntryOfDir(fs: FS, dir: Path, name: string, p: Path)
    requires WellPlaced(fs) && dir + [name] in fs.dirs
    ensures Visits(fs, dir + [name], p) <==> Entry(fs, dir, name, p)
  {
    var path := dir + [name];
    if Visits(fs, path, p) {
      assert p[..|dir|] == p[..|path|][..|dir|] == dir;
      assert p[|dir|] == p[..|path|][|dir|];
    }
    if Entry(fs, dir, name, p) {
      assert p[..|dir| + 1] == path;
      assert |p| == |path| ==> p == path;
    }
  }

  lemma EntryOfFile(fs: FS, dir: Path, name: string, p: Path)
    requires WellPlaced(fs) && dir + [name] !in fs.dirs
    ensures Entry(fs, dir, name, p) <==> p == dir + [name] && p in fs.files && Visible(name)
  {
    var path := dir + [name];
    if Entry(fs, dir, name, p) {
      assert p[..|dir| + 1] == path;
      if |p| > |path| { AncestorIsDir(fs, p, |path|); }
      assert p == path;
    }
  }

  lemma DistinctConcat(a: seq<Path>, b: seq<Path>)
    requires Distinct(a) && Distinct(b) && forall p :: p in a ==> p !in b
    ensures Distinct(a + b)
  {
    forall i, j | 0 <= i < j < |a + b| ensures (a + b)[i] != (a + b)[j] {
      if i < |a| <= j { assert a[i] in a && b[j - |a|] in b; }
    }
  }

  // walkObjects: every visible file below dir, each once. The ghost depth bounds how
  // deep directories are nested.
  method WalkObjects(fs: FS, dir: Path, ghost depth: nat) returns (visited: seq<Path>)
    requires WellPlaced(fs) && |dir| <= depth && forall d :: d in fs.dirs ==> |d| <= depth
    ensures Distinct(visited)
    ensures forall p :: p in visited <==> Visits(fs, dir, p)
    decreases depth - |dir|, 1
  {
    visited := [];
    if dir !in fs.dirs {
      NothingUnder(fs, dir);
      return;
    }
    var todo := ReadDir(fs, dir);
    while todo != {}
      invariant Distinct(visited)
      invariant forall p :: p in visited <==> Visits(fs, dir, p) && p[|dir|] in ReadDir(fs, dir) - todo
      invariant todo <= ReadDir(fs, dir)
      decreases |todo|
    {
      var name :| name in todo;
      var found := WalkEntry(fs, dir, name, depth);
      DistinctConcat(visited, found);
      visited := visited + found;
      todo := todo - {name};
    }
    forall p | Visits(fs, dir, p) ensures p[|dir|] in ReadDir(fs, dir) { FirstIsListed(fs, dir, p); }
  }

  // The body of the loop: enter a directory, read a visible file, skip anything else.
  method WalkEntry(fs: FS, dir: Path, name: string, ghost depth: nat) returns (found: seq<Path>)
    requires WellPlaced(fs) && |dir| <= depth && forall d :: d in fs.dirs ==> |d| <= depth
    ensures Distinct(found)
    ensures forall p :: p in found <==> Entry(fs, dir, name, p)
    decreases depth - |dir|, 0
  {
    var path := dir + [name];
    if path in fs.dirs {
      found := WalkObjects(fs, path, depth);
      forall p ensures p in found <==> Entry(fs, dir, name, p) { EntryOfDir(fs, dir, name, p); }
    } else {
      forall p ensures Entry(fs, dir, name, p) <==> p == path && p in fs.files && Visible(name) {
        EntryOfFile(fs, dir, name, p);
      }
      found := if Visible(name) && path in fs.files then [path] else [];
    }
  }
}
