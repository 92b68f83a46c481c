/** The directory tree as a flat map of objects: what listings and counts see of it. */
module Layout {
  import opened Options
  import opened Paths
  import opened Tree

  type Objects = map<Address, string>

  // The addresses a server uses: resources are either namespaced or not, and no
  // resource is named like the counter's files.
  predicate Served(namespaced: set<string>, a: Address) {
    WellFormed(a) && !Dotted(a.resource) && (a.ns != "" <==> a.resource in namespaced)
  }

  function TmpParts(a: Address): Path {
    var p := PathParts(a);
    p[..|p| - 1] + [p[|p| - 1] + ".tmp"]
  }

  function AddressOf(p: Path): Address {
    if |p| == 0 then Address("", "", "")
    else
      var last := p[|p| - 1];
      var name := if HasSuffix(last, ".json") then last[..|last| - 5] else last;
      Address(p[0], if |p| == 3 then p[1] else "", name)
  }

  // The steps of atomicWrite, Remove and the counter's persist on the tree.
  datatype Change =
    | MakeDir(a: Address)
    | WriteTmp(a: Address, data: string)
    | RemoveTmp(a: Address)
    | RenameTmp(a: Address)
    | RemoveFile(a: Address)
    | WriteVersionTmp(text: string)
    | RenameVersion

  function Applied(fs: FS, c: Change): FS {
    match c
    case MakeDir(a) => fs.(dirs := fs.dirs + {[], [a.resource], DirParts(a.resource, a.ns)})
    case WriteTmp(a, data) =>
      FS(fs.files[TmpParts(a) := data], fs.dirs + {[], [a.resource], DirParts(a.resource, a.ns)})
    case RemoveTmp(a) => fs.(files := fs.files - {TmpParts(a)})
    case RenameTmp(a) =>
      if TmpParts(a) in fs.files
      then fs.(files := (fs.files - {TmpParts(a)})[PathParts(a) := fs.files[TmpParts(a)]]) else fs
    case RemoveFile(a) => fs.(files := fs.files - {PathParts(a)})
    case WriteVersionTmp(text) => fs.(files := fs.files[[".rv.tmp"] := text])
    case RenameVersion =>
      if [".rv.tmp"] in fs.files
      then fs.(files := (fs.files - {[".rv.tmp"]})[[".rv"] := fs.files[[".rv.tmp"]]]) else fs
  }

  function Stored(fs: FS, objs: Objects, c: Change): Objects {
    match c
    case RenameTmp(a) => if TmpParts(a) in fs.files then objs[a := fs.files[TmpParts(a)]] else objs
    case RemoveFile(a) => objs - {a}
    case _ => objs
  }

  predicate FileShape(namespaced: set<string>, p: Path) {
    || (|p| == 1 && Dotted(p[0]))
    || (|p| == 2 && p[0] !in namespaced)
    || (|p| == 3 && p[0] in namespaced)
  }

  predicate DirShape(namespaced: set<string>, d: Path) {
    || d == []
    || (|d| == 1 && !Dotted(d[0]))
    || (|d| == 2 && d[0] in namespaced)
  }

  // A ".json" file is the file of the stored object at its address.
  ghost predicate FileOk(namespaced: set<string>, fs: FS, objs: Objects, p: Path)
    requires p in fs.files
  {
    && FileShape(namespaced, p)
    && p[..|p| - 1] in fs.dirs
    && (HasSuffix(p[|p| - 1], ".json") ==>
          var a := AddressOf(p);
          Served(namespaced, a) && PathParts(a) == p && a in objs && objs[a] == fs.files[p])
  }

  // The tree holds exactly the stored objects, besides temporary files and the version.
  ghost predicate Holds(namespaced: set<string>, fs: FS, objs: Objects) {
    && FilesOk(namespaced, fs, objs)
    && ObjectsOk(namespaced, fs, objs)
    && DirsOk(namespaced, fs.dirs)
  }

  lemma HoldsPlaced(namespaced: set<string>, fs: FS, objs: Objects)
    requires Holds(namespaced, fs, objs)
    ensures WellPlaced(fs) && forall d :: d in fs.dirs ==> |d| <= 2
  {
    forall p | p in fs.files ensures p != [] && p[..|p| - 1] in fs.dirs && p !in fs.dirs {
      assert FileOk(namespaced, fs, objs, p);
    }
  }

  lemma PathRoundTrip(namespaced: set<string>, a: Address)
    requires Served(namespaced, a)
    ensures AddressOf(PathParts(a)) == a && FileShape(namespaced, PathParts(a)) && FileShape(namespaced, TmpParts(a))
    ensures HasSuffix(PathParts(a)[|PathParts(a)| - 1], ".json") && !HasSuffix(TmpParts(a)[|TmpParts(a)| - 1], ".json")
    ensures PathParts(a)[..|PathParts(a)| - 1] == TmpParts(a)[..|TmpParts(a)| - 1] == DirParts(a.resource, a.ns)
  {
    var last := a.name + ".json";
    assert last[..|last| - 5] == a.name;
    SuffixEnds(last + ".tmp", ".json");
  }

  lemma SuffixEnds(s: string, suffix: string)
    requires suffix != ""
    ensures HasSuffix(s, suffix) ==> s[|s| - 1] == suffix[|suffix| - 1]
  {
    if HasSuffix(s, suffix) {
      assert s[|s| - |suffix|..][|suffix| - 1] == s[|s| - 1];
    }
  }

  // Files of different addresses, and temporary files, do not collide.
  lemma OtherPath(namespaced: set<string>, a: Address, b: Address)
    requires Served(namespaced, a) && Served(namespaced, b)
    ensures TmpParts(a) != PathParts(b) && PathParts(b) != [".rv"] && PathParts(b) != [".rv.tmp"]
    ensures a != b ==> PathParts(a) != PathParts(b)
  {
    PathRoundTrip(namespaced, a);
    PathRoundTrip(namespaced, b);
  }

  ghost predicate ObjectOk(namespaced: set<string>, fs: FS, objs: Objects, a: Address)
    requires a in objs
  {
    Served(namespaced, a) && PathParts(a) in fs.files && fs.files[PathParts(a)] == objs[a]
  }

  ghost predicate DirsOk(namespaced: set<string>, dirs: set<Path>) {
    && [] in dirs
    && (forall d :: d in dirs ==> DirShape(namespaced, d) && (d != [] ==> d[..|d| - 1] in dirs))
  }

  lemma DirsGrow(namespaced: set<string>, dirs: set<Path>, a: Address)
    requires DirsOk(namespaced, dirs) && Served(namespaced, a)
    ensures DirsOk(namespaced, dirs + {[], [a.resource], DirParts(a.resource, a.ns)})
  {
    assert [a.resource][..0] == [];
    assert [a.resource, a.ns][..1] == [a.resource];
  }

  // An untouched file stays as it should be while its object, if it has one, stays.
  lemma FileStays(namespaced: set<string>, fs: FS, objs: Objects, fs': FS, objs': Objects, p: Path)
    requires p in fs.files && p in fs'.files && fs'.files[p] == fs.files[p] && FileOk(namespaced, fs, objs, p)
    requires fs.dirs <= fs'.dirs
    requires HasSuffix(p[|p| - 1], ".json") ==> AddressOf(p) in objs' && objs'[AddressOf(p)] == objs[AddressOf(p)]
    ensures FileOk(namespaced, fs', objs', p)
  {
  }

  lemma ObjectStays(namespaced: set<string>, fs: FS, objs: Objects, fs': FS, objs': Objects, a: Address)
    requires a in objs && a in objs' && objs'[a] == objs[a] && ObjectOk(namespaced, fs, objs, a)
    requires PathParts(a) in fs.files ==> PathParts(a) in fs'.files && fs'.files[PathParts(a)] == fs.files[PathParts(a)]
    ensures ObjectOk(namespaced, fs', objs', a)
  {
  }

  ghost predicate FilesOk(namespaced: set<string>, fs: FS, objs: Objects) {
    forall p :: p in fs.files ==> FileOk(namespaced, fs, objs, p)
  }

  ghost predicate ObjectsOk(namespaced: set<string>, fs: FS, objs: Objects) {
    forall a :: a in objs ==> ObjectOk(namespaced, fs, objs, a)
  }

  lemma WrittenFiles(namespaced: set<string>, fs: FS, objs: Objects, a: Address, data: string)
    requires FilesOk(namespaced, fs, objs) && Served(namespaced, a)
    ensures FilesOk(namespaced, Applied(fs, WriteTmp(a, data)), objs)
  {
    var fs' := Applied(fs, WriteTmp(a, data));
    PathRoundTrip(namespaced, a);
    forall p | p in fs'.files ensures FileOk(namespaced, fs', objs, p) {
      if p != TmpParts(a) { FileStays(namespaced, fs, objs, fs', objs, p); }
    }
  }

  lemma WrittenObjects(namespaced: set<string>, fs: FS, objs: Objects, a: Address, data: string)
    requires ObjectsOk(namespaced, fs, objs) && Served(namespaced, a)
    ensures ObjectsOk(namespaced, Applied(fs, WriteTmp(a, data)), objs)
  {
    var fs' := Applied(fs, WriteTmp(a, data));
    forall b | b in objs ensures ObjectOk(namespaced, fs', objs, b) {
      assert ObjectOk(namespaced, fs, objs, b);
      OtherPath(namespaced, a, b);
      ObjectStays(namespaced, fs, objs, fs', objs, b);
    }
  }

  lemma RenamedFiles(namespaced: set<string>, fs: FS, objs: Objects, a: Address)
    requires FilesOk(namespaced, fs, objs) && Served(namespaced, a) && TmpParts(a) in fs.files
    ensures FilesOk(namespaced, Applied(fs, RenameTmp(a)), Stored(fs, objs, RenameTmp(a)))
  {
    var fs', objs' := Applied(fs, RenameTmp(a)), Stored(fs, objs, RenameTmp(a));
    PathRoundTrip(namespaced, a);
    assert FileOk(namespaced, fs, objs, TmpParts(a));
    forall p | p in fs'.files ensures FileOk(namespaced, fs', objs', p) {
      if p != PathParts(a) {
        assert FileOk(namespaced, fs, objs, p);
        FileStays(namespaced, fs, objs, fs', objs', p);
      }
    }
  }

  lemma RenamedObjects(namespaced: set<string>, fs: FS, objs: Objects, a: Address)
    requires ObjectsOk(namespaced, fs, objs) && Served(namespaced, a) && TmpParts(a) in fs.files
    ensures ObjectsOk(namespaced, Applied(fs, RenameTmp(a)), Stored(fs, objs, RenameTmp(a)))
  {
    var fs', objs' := Applied(fs, RenameTmp(a)), Stored(fs, objs, RenameTmp(a));
    forall b | b in objs' ensures ObjectOk(namespaced, fs', objs', b) {
      if b != a {
        assert ObjectOk(namespaced, fs, objs, b);
        OtherPath(namespaced, a, b);
        ObjectStays(namespaced, fs, objs, fs', objs', b);
      }
    }
  }

  lemma DirMade(namespaced: set<string>, fs: FS, objs: Objects, a: Address)
    requires FilesOk(namespaced, fs, objs) && ObjectsOk(namespaced, fs, objs)
    ensures FilesOk(namespaced, Applied(fs, MakeDir(a)), objs) && ObjectsOk(namespaced, Applied(fs, MakeDir(a)), objs)
  {
    var fs' := Applied(fs, MakeDir(a));
    forall p | p in fs'.files ensures FileOk(namespaced, fs', objs, p) {
      FileStays(namespaced, fs, objs, fs', objs, p);
    }
    forall b | b in objs ensures ObjectOk(namespaced, fs', objs, b) {
      assert ObjectOk(namespaced, fs, objs, b);
    }
  }

  lemma TmpRemoved(namespaced: set<string>, fs: FS, objs: Objects, a: Address)
    requires FilesOk(namespaced, fs, objs) && ObjectsOk(namespaced, fs, objs) && Served(namespaced, a)
    ensures FilesOk(namespaced, Applied(fs, RemoveTmp(a)), objs) && ObjectsOk(namespaced, Applied(fs, RemoveTmp(a)), objs)
  {
    var fs' := Applied(fs, RemoveTmp(a));
    forall p | p in fs'.files ensures FileOk(namespaced, fs', objs, p) {
      FileStays(namespaced, fs, objs, fs', objs, p);
    }
    forall b | b in objs ensures ObjectOk(namespaced, fs', objs, b) {
      assert ObjectOk(namespaced, fs, objs, b);
      OtherPath(namespaced, a, b);
    }
  }

  lemma RemovedFiles(namespaced: set<string>, fs: FS, objs: Objects, a: Address)
    requires FilesOk(namespaced, fs, objs) && Served(namespaced, a)
    ensures FilesOk(namespaced, Applied(fs, RemoveFile(a)), Stored(fs, objs, RemoveFile(a)))
  {
    var fs', objs' := Applied(fs, RemoveFile(a)), Stored(fs, objs, RemoveFile(a));
    forall p | p in fs'.files ensures FileOk(namespaced, fs', objs', p) {
      assert FileOk(namespaced, fs, objs, p);
      FileStays(namespaced, fs, objs, fs', objs', p);
    }
  }

  lemma RemovedObjects(namespaced: set<string>, fs: FS, objs: Objects, a: Address)
    requires ObjectsOk(namespaced, fs, objs) && Served(namespaced, a)
    ensures ObjectsOk(namespaced, Applied(fs, RemoveFile(a)), Stored(fs, objs, RemoveFile(a)))
  {
    var fs', objs' := Applied(fs, RemoveFile(a)), Stored(fs, objs, RemoveFile(a));
    forall b | b in objs' ensures ObjectOk(namespaced, fs', objs', b) {
      assert ObjectOk(namespaced, fs, objs, b) && b != a;
      OtherPath(namespaced, a, b);
      assert PathParts(b) in fs'.files;
    }
  }

  predicate OnVersion(c: Change) {
    c.WriteVersionTmp? || c.RenameVersion?
  }

  lemma VersionedFiles(namespaced: set<string>, fs: FS, objs: Objects, c: Change)
    requires FilesOk(namespaced, fs, objs) && [] in fs.dirs && OnVersion(c)
    ensures FilesOk(namespaced, Applied(fs, c), objs)
  {
    var fs' := Applied(fs, c);
    forall p | p in fs'.files ensures FileOk(namespaced, fs', objs, p) {
      if p == [".rv"] || p == [".rv.tmp"] {
        VersionFileOk(namespaced, fs', objs, p);
      } else {
        assert FileOk(namespaced, fs, objs, p);
        FileStays(namespaced, fs, objs, fs', objs, p);
      }
    }
  }

  lemma VersionedObjects(namespaced: set<string>, fs: FS, objs: Objects, c: Change)
    requires ObjectsOk(namespaced, fs, objs) && OnVersion(c)
    ensures ObjectsOk(namespaced, Applied(fs, c), objs)
  {
    var fs' := Applied(fs, c);
    forall b | b in objs ensures ObjectOk(namespaced, fs', objs, b) {
      assert ObjectOk(namespaced, fs, objs, b);
      OtherPath(namespaced, b, b);
    }
  }

  lemma VersionFileOk(namespaced: set<string>, fs: FS, objs: Objects, p: Path)
    requires p in fs.files && [] in fs.dirs && (p == [".rv"] || p == [".rv.tmp"])
    ensures FileOk(namespaced, fs, objs, p)
  {
    SuffixEnds(p[0], ".json");
    assert p[..0] == [];
  }

  // --- Runs ---

  predicate ServedChange(namespaced: set<string>, c: Change) {
    !OnVersion(c) ==> Served(namespaced, c.a)
  }

  function Run(changes: seq<Change>): (FS, Objects) {
    if changes == [] then (FS(map[], {[]}), map[])
    else
      var (fs, objs) := Run(changes[..|changes| - 1]);
      var c := changes[|changes| - 1];
      (Applied(fs, c), Stored(fs, objs, c))
  }

  // After any run, interrupted writes included, the tree holds exactly the stored
  // objects.
  lemma {:induction false} RunHolds(namespaced: set<string>, changes: seq<Change>)
    requires forall i :: 0 <= i < |changes| ==> ServedChange(namespaced, changes[i])
    ensures Holds(namespaced, Run(changes).0, Run(changes).1)
  {
    if changes != [] {
      var n := |changes| - 1;
      RunHolds(namespaced, changes[..n]);
      var (fs, objs) := Run(changes[..n]);
      var c := changes[n];
      match c {
        case MakeDir(a) =>
          DirMade(namespaced, fs, objs, a);
          DirsGrow(namespaced, fs.dirs, a);
        case RemoveTmp(a) => TmpRemoved(namespaced, fs, objs, a);
        case WriteTmp(a, data) =>
          WrittenFiles(namespaced, fs, objs, a, data);
          WrittenObjects(namespaced, fs, objs, a, data);
          DirsGrow(namespaced, fs.dirs, a);
        case RenameTmp(a) =>
          if TmpParts(a) in fs.files {
            RenamedFiles(namespaced, fs, objs, a);
            RenamedObjects(namespaced, fs, objs, a);
          }
        case RemoveFile(a) =>
          RemovedFiles(namespaced, fs, objs, a);
          RemovedObjects(namespaced, fs, objs, a);
        case _ =>
          VersionedFiles(namespaced, fs, objs, c);
          VersionedObjects(namespaced, fs, objs, c);
      }
    }
  }

  lemma RunAppend(changes: seq<Change>, c: Change)
    ensures Run(changes + [c]) == (Applied(Run(changes).0, c), Stored(Run(changes).0, Run(changes).1, c))
  {
    assert (changes + [c])[..|changes|] == changes;
  }

  lemma AppliedShows(fs: FS, objs: Objects, a: Address, data: string, b: Address)
    requires FileAt(fs, b) == ObjectAt(objs, b) && (a != b ==> PathParts(a) != PathParts(b))
    requires TmpParts(a) != PathParts(b) && TmpParts(a) != PathParts(a)
    ensures var c := RemoveFile(a);
            FileAt(Applied(fs, c), b) == ObjectAt(Stored(fs, objs, c), b) == if b == a then None else FileAt(fs, b)
    ensures var written := Applied(fs, WriteTmp(a, data));
            FileAt(Applied(written, RenameTmp(a)), b) == ObjectAt(Stored(written, objs, RenameTmp(a)), b)
              == if b == a then Some(data) else FileAt(fs, b)
  {
  }

  // A removal takes the object away, a write that is carried through stores its data, and
  // neither changes any other object.
  lemma ChangeShows(namespaced: set<string>, changes: seq<Change>, a: Address, data: string, b: Address)
    requires forall i :: 0 <= i < |changes| ==> ServedChange(namespaced, changes[i])
    requires Served(namespaced, a) && Served(namespaced, b)
    ensures var now := Run(changes + [RemoveFile(a)]);
            FileAt(now.0, b) == ObjectAt(now.1, b) == if b == a then None else FileAt(Run(changes).0, b)
    ensures var now := Run(changes + [WriteTmp(a, data)] + [RenameTmp(a)]);
            FileAt(now.0, b) == ObjectAt(now.1, b) == if b == a then Some(data) else FileAt(Run(changes).0, b)
  {
    RunAppend(changes, RemoveFile(a));
    RunAppend(changes, WriteTmp(a, data));
    RunAppend(changes + [WriteTmp(a, data)], RenameTmp(a));
    assert FileAt(Run(changes).0, b) == ObjectAt(Run(changes).1, b) by {
      RunHolds(namespaced, changes);
      FileIsObject(namespaced, Run(changes).0, Run(changes).1, b);
    }
    OtherPath(namespaced, a, b);
    OtherPath(namespaced, a, a);
    AppliedShows(Run(changes).0, Run(changes).1, a, data, b);
  }

  // --- What a walk sees ---

  predicate InPrefix(a: Address, resource: string, ns: string) {
    a.resource == resource && (ns == "" || a.ns == ns)
  }

  lemma WalkOfRootSees(namespaced: set<string>, fs: FS, objs: Objects, a: Address)
    requires Holds(namespaced, fs, objs) && a in objs
    ensures Visits(fs, [], PathParts(a)) <==> !Dotted(a.name)
  {
    assert ObjectOk(namespaced, fs, objs, a);
    assert PathParts(a)[..0] == [];
    NameVisible(a.name);
  }

  lemma NameVisible(name: string)
    requires name != ""
    ensures Visible(name + ".json") <==> !Dotted(name)
  {
    var s := name + ".json";
    assert s[|s| - 5..] == ".json";
  }

  // A walk of the root, a resource or a namespace directory visits the file of a stored
  // object exactly when the object is in the prefix and its name does not start with a dot.
  // Get reads the same file whatever the name.
  lemma WalkSees(namespaced: set<string>, fs: FS, objs: Objects, resource: string, ns: string, a: Address)
    requires Holds(namespaced, fs, objs) && a in objs
    ensures Visits(fs, DirParts(resource, ns), PathParts(a))
       <==> (resource == "" || InPrefix(a, resource, ns)) && !Dotted(a.name)
    ensures a.name != "" && (Dotted(a.name) <==> a.name[0] == '.')
    ensures InPrefix(a, resource, ns) <==> a.resource == resource && (ns == "" || a.ns == ns)
  {
    assert ObjectOk(namespaced, fs, objs, a);
    if resource == "" {
      WalkOfRootSees(namespaced, fs, objs, a);
    } else {
      NameVisible(a.name);
      UnderPrefix(resource, ns, a);
    }
  }

  lemma UnderPrefix(resource: string, ns: string, a: Address)
    requires resource != "" && WellFormed(a)
    ensures Under(DirParts(resource, ns), PathParts(a)) <==> InPrefix(a, resource, ns)
  {
    assert PathParts(a)[..1] == [a.resource];
    if a.ns != "" { assert PathParts(a)[..2] == [a.resource, a.ns]; }
  }

  // And it visits nothing else: no temporary file, no version file.
  lemma WalkSeesOnly(namespaced: set<string>, fs: FS, objs: Objects, dir: Path, p: Path)
    requires Holds(namespaced, fs, objs) && Visits(fs, dir, p)
    ensures AddressOf(p) in objs && PathParts(AddressOf(p)) == p
  {
    assert FileOk(namespaced, fs, objs, p);
  }

  // --- Counting ---

  function Listed(objs: Objects, resource: string, ns: string): set<Address> {
    set a | a in objs && InPrefix(a, resource, ns) && !Dotted(a.name)
  }

  function ListedUnder(objs: Objects, resource: string, ns: string): set<Address> {
    if resource == "" then AllListed(objs) else Listed(objs, resource, ns)
  }

  function AllListed(objs: Objects): set<Address> {
    set a | a in objs && !Dotted(a.name)
  }

  function AddressesOf(visited: seq<Path>): set<Address> {
    set p | p in visited :: AddressOf(p)
  }

  lemma {:induction false} AddressesSize(visited: seq<Path>)
    requires Distinct(visited) && forall p :: p in visited ==> PathParts(AddressOf(p)) == p
    ensures |AddressesOf(visited)| == |visited|
  {
    if visited != [] {
      var n := |visited| - 1;
      var q := visited[n];
      AddressesSize(visited[..n]);
      forall p | p in visited[..n] ensures AddressOf(p) != AddressOf(q) {
        assert PathParts(AddressOf(p)) == p && PathParts(AddressOf(q)) == q;
      }
      assert AddressesOf(visited) == AddressesOf(visited[..n]) + {AddressOf(q)};
    }
  }

  lemma SameAddresses(namespaced: set<string>, fs: FS, objs: Objects, visited: seq<Path>, listed: set<Address>)
    requires Holds(namespaced, fs, objs) && listed <= objs.Keys
    requires forall p :: p in visited ==> AddressOf(p) in objs && PathParts(AddressOf(p)) == p
    requires forall a :: a in objs ==> (PathParts(a) in visited <==> a in listed)
    ensures AddressesOf(visited) == listed
  {
    forall a | a in listed ensures a in AddressesOf(visited) {
      assert ObjectOk(namespaced, fs, objs, a);
      PathRoundTrip(namespaced, a);
      assert PathParts(a) in visited;
    }
  }

  // The number of files a walk of a prefix visits is the number of listed objects.
  lemma CountIsSize(namespaced: set<string>, fs: FS, objs: Objects, resource: string, ns: string, visited: seq<Path>)
    requires Holds(namespaced, fs, objs) && Distinct(visited)
    requires forall p :: p in visited <==> Visits(fs, DirParts(resource, ns), p)
    ensures |visited| == |ListedUnder(objs, resource, ns)|
  {
    forall p | p in visited ensures AddressOf(p) in objs && PathParts(AddressOf(p)) == p {
      WalkSeesOnly(namespaced, fs, objs, DirParts(resource, ns), p);
    }
    AddressesSize(visited);
    forall a | a in objs ensures PathParts(a) in visited <==> a in ListedUnder(objs, resource, ns) {
      WalkSees(namespaced, fs, objs, resource, ns, a);
    }
    SameAddresses(namespaced, fs, objs, visited, ListedUnder(objs, resource, ns));
  }

  function SumOfCounts(objs: Objects, resources: seq<string>): nat {
    if resources == [] then 0
    else |Listed(objs, resources[|resources| - 1], "")| + SumOfCounts(objs, resources[..|resources| - 1])
  }

  function Without(objs: Objects, resource: string): Objects {
    map a | a in objs && a.resource != resource :: objs[a]
  }

  lemma {:induction false} SumSkips(objs: Objects, resources: seq<string>, resource: string)
    requires resource !in resources
    ensures SumOfCounts(Without(objs, resource), resources) == SumOfCounts(objs, resources)
  {
    if resources != [] {
      var last := resources[|resources| - 1];
      SumSkips(objs, resources[..|resources| - 1], resource);
      assert Listed(Without(objs, resource), last, "") == Listed(objs, last, "");
    }
  }

  // The object count of Stats is the sum of the counts of the resources.
  lemma {:induction false} StatsIsSum(objs: Objects, resources: seq<string>)
    requires forall i, j :: 0 <= i < j < |resources| ==> resources[i] != resources[j]
    requires forall a :: a in objs ==> a.resource in resources
    ensures |AllListed(objs)| == SumOfCounts(objs, resources)
    decreases |resources|
  {
    if resources == [] {
      assert AllListed(objs) == {};
    } else {
      var n := |resources| - 1;
      var last := resources[n];
      var others := Without(objs, last);
      forall a | a in others ensures a.resource in resources[..n] {
        var i :| 0 <= i <= n && resources[i] == a.resource;
        assert resources[..n][i] == a.resource;
      }
      StatsIsSum(others, resources[..n]);
      SumSkips(objs, resources[..n], last);
      assert AllListed(objs) == AllListed(others) + Listed(objs, last, "");
      assert AllListed(others) !! Listed(objs, last, "");
    }
  }

  // --- Operations on a tree that a run has left ---

  ghost predicate LeftBy(namespaced: set<string>, changes: seq<Change>, fs: FS) {
    fs == Run(changes).0 && forall i :: 0 <= i < |changes| ==> ServedChange(namespaced, changes[i])
  }

  function FileAt(fs: FS, a: Address): Option<string> {
    if PathParts(a) in fs.files then Some(fs.files[PathParts(a)]) else None
  }

  function ObjectAt(objs: Objects, a: Address): Option<string> {
    if a in objs then Some(objs[a]) else None
  }

  // The file at an address is the object stored there.
  lemma FileIsObject(namespaced: set<string>, fs: FS, objs: Objects, a: Address)
    requires Holds(namespaced, fs, objs)
    ensures FileAt(fs, a) == ObjectAt(objs, a)
  {
    if a in objs { assert ObjectOk(namespaced, fs, objs, a); }
    var p := PathParts(a);
    if p in fs.files {
      assert FileOk(namespaced, fs, objs, p);
      assert p[|p| - 1][..|p[|p| - 1]| - 5] == a.name;
      assert AddressOf(p) == a;
    }
  }

  // Get: the object of the key, if it is one and there is one.
  method Get(fs: FS, key: string, ghost namespaced: set<string>, ghost changes: seq<Change>) returns (data: Option<string>)
    requires LeftBy(namespaced, changes, fs)
    ensures var objs := Run(changes).1;
      data == match ParseKey(key)
              case None => None
              case Some(a) => if a in objs then Some(objs[a]) else None
  {
    var address := ParseKey(key);
    RunHolds(namespaced, changes);
    if address.Some? {
      FileIsObject(namespaced, fs, Run(changes).1, address.value);
    }
    if address.None? || address.value.name == "" {
      return None;
    }
    data := FileAt(fs, address.value);
  }

  // The walk of a directory in such a tree.
  method Walk(fs: FS, resource: string, ns: string, ghost namespaced: set<string>, ghost changes: seq<Change>)
    returns (visited: seq<Path>)
    requires LeftBy(namespaced, changes, fs)
    ensures forall p :: p in visited <==> Visits(fs, DirParts(resource, ns), p)
    ensures |visited| == |ListedUnder(Run(changes).1, resource, ns)|
  {
    RunHolds(namespaced, changes);
    HoldsPlaced(namespaced, fs, Run(changes).1);
    visited := WalkObjects(fs, DirParts(resource, ns), 2);
    CountIsSize(namespaced, fs, Run(changes).1, resource, ns, visited);
  }

  // Count: of a single object, whether Get finds it; of a prefix, how many objects Get finds
  // there whose names do not start with a dot.
  method Count(fs: FS, key: string, ghost namespaced: set<string>, ghost changes: seq<Change>) returns (n: nat)
    requires LeftBy(namespaced, changes, fs)
    ensures var p, objs := ParsePrefix(key), Run(changes).1;
      n == if p.single then (if Address(p.resource, p.ns, p.name) in objs then 1 else 0)
           else |ListedUnder(objs, p.resource, p.ns)|
  {
    var p := ParsePrefix(key);
    if p.single {
      RunHolds(namespaced, changes);
      FileIsObject(namespaced, fs, Run(changes).1, Address(p.resource, p.ns, p.name));
      return if FileAt(fs, Address(p.resource, p.ns, p.name)).Some? then 1 else 0;
    }
    var visited := Walk(fs, p.resource, p.ns, namespaced, changes);
    n := |visited|;
  }

  function SizeAt(fs: FS, p: Path): nat {
    if p in fs.files then |fs.files[p]| else 0
  }

  function TotalSize(fs: FS, visited: seq<Path>): nat {
    if visited == [] then 0 else TotalSize(fs, visited[..|visited| - 1]) + SizeAt(fs, visited[|visited| - 1])
  }

  // The total counts every stored object that is visited with the length of its data.
  lemma TotalGrows(namespaced: set<string>, fs: FS, objs: Objects, visited: seq<Path>, a: Address)
    requires Holds(namespaced, fs, objs) && a in objs
    ensures TotalSize(fs, []) == 0 && TotalSize(fs, visited + [PathParts(a)]) == TotalSize(fs, visited) + |objs[a]|
  {
    assert ObjectOk(namespaced, fs, objs, a);
    assert (visited + [PathParts(a)])[..|visited|] == visited;
  }

  // Stats: the number of all listed objects, which is the sum of the counts of the
  // resources, and their average size rounded down.
  method Stats(fs: FS, ghost namespaced: set<string>, ghost changes: seq<Change>, ghost resources: seq<string>)
    returns (count: nat, average: nat, ghost visited: seq<Path>)
    requires LeftBy(namespaced, changes, fs)
    requires forall i, j :: 0 <= i < j < |resources| ==> resources[i] != resources[j]
    requires forall a :: a in Run(changes).1 ==> a.resource in resources
    ensures count == |AllListed(Run(changes).1)| == SumOfCounts(Run(changes).1, resources)
    ensures |visited| == count && forall p :: p in visited <==> Visits(fs, [], p)
    ensures if count == 0 then average == 0
            else average * count <= TotalSize(fs, visited) < average * count + count
  {
    var walked := Walk(fs, "", "", namespaced, changes);
    visited := walked;
    count := 0;
    var total := 0;
    for i := 0 to |walked|
      invariant count == i && total == TotalSize(fs, walked[..i])
    {
      assert walked[i] in walked && walked[..i + 1][..i] == walked[..i];
      count, total := count + 1, total + SizeAt(fs, walked[i]);
    }
    assert walked[..|walked|] == walked;
    average := 0;
    if count > 0 {
      average := total / count;
    }
    StatsIsSum(Run(changes).1, resources);
  }

  // The key of an object without a namespace: Get finds the object, while Count and the
  // snapshot of a watch find nothing, because they look for a directory of that name.
  lemma OwnKeyUnseen(namespaced: set<string>, changes: seq<Change>, a: Address)
    requires forall i :: 0 <= i < |changes| ==> ServedChange(namespaced, changes[i])
    requires a in Run(changes).1
    ensures WellFormed(a) && FileAt(Run(changes).0, a) == Some(Run(changes).1[a])
    ensures a.ns == "" ==>
              var p := ParsePrefix(BuildKey(a));
              && !p.single && ListedUnder(Run(changes).1, p.resource, p.ns) == {}
              && forall q :: !Visits(Run(changes).0, DirParts(p.resource, p.ns), q)
  {
    var (fs, objs) := Run(changes);
    RunHolds(namespaced, changes);
    assert ObjectOk(namespaced, fs, objs, a);
    FileIsObject(namespaced, fs, objs, a);
    if a.ns == "" {
      ParsePrefixes(a);
      forall b | b in objs ensures !InPrefix(b, a.resource, a.name) {
        assert ObjectOk(namespaced, fs, objs, b);
      }
      forall q | q in fs.files ensures !Under([a.resource, a.name], q) {
        assert FileOk(namespaced, fs, objs, q);
        assert |q| >= 2 ==> q[..2][0] == q[0];
      }
    }
  }
}
