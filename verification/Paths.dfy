/** Storage keys and the file paths of objects. */
module Paths {
  import opened Options

  // A storage key names a resource, a namespace (empty for cluster scope) and an object.
  datatype Address = Address(resource: string, ns: string, name: string)

  function TrimLeft(s: string): string {
    if s != "" && s[0] == '/' then TrimLeft(s[1..]) else s
  }

  function TrimRight(s: string): string {
    if s != "" && s[|s| - 1] == '/' then TrimRight(s[..|s| - 1]) else s
  }

  // strings.Trim(s, "/").
  function Trim(s: string): string {
    TrimRight(TrimLeft(s))
  }

  // strings.Split(s, "/").
  function Split(s: string): (parts: seq<string>)
    ensures |parts| > 0
  {
    if s == "" then [""]
    else
      var rest := Split(s[1..]);
      if s[0] == '/' then [""] + rest else [[s[0]] + rest[0]] + rest[1..]
  }

  function Join(parts: seq<string>): string
    requires |parts| > 0
  {
    if |parts| == 1 then parts[0] else parts[0] + "/" + Join(parts[1..])
  }

  // A path segment a key may use.
  predicate Segment(s: string) {
    s != "" && '/' !in s && s != "." && s != ".."
  }

  predicate WellFormed(a: Address) {
    Segment(a.resource) && Segment(a.name) && (a.ns == "" || Segment(a.ns))
  }

  // A file name that walks skip.
  predicate Dotted(s: string) {
    s != "" && s[0] == '.'
  }

  // parseKey.
  function ParseKey(key: string): Option<Address> {
    var k := Trim(key);
    if k == "" then None
    else
      var parts := Split(k);
      match |parts|
      case 1 => Some(Address(parts[0], "", ""))
      case 2 => Some(Address(parts[0], "", parts[1]))
      case 3 => Some(Address(parts[0], parts[1], parts[2]))
      case _ => None
  }

  datatype Prefix = Prefix(resource: string, ns: string, single: bool, name: string)

  // parsePrefix.
  function ParsePrefix(key: string): Prefix {
    var k := Trim(key);
    if k == "" then Prefix("", "", false, "")
    else
      var parts := Split(k);
      match |parts|
      case 1 => Prefix(parts[0], "", false, "")
      case 2 => Prefix(parts[0], parts[1], false, "")
      case _ => Prefix(parts[0], parts[1], true, parts[2])
  }

  // The segments of a key, as the registry builds it.
  function KeyParts(a: Address): seq<string> {
    if a.ns == "" then [a.resource, a.name] else [a.resource, a.ns, a.name]
  }

  function BuildKey(a: Address): string {
    "/" + Join(KeyParts(a))
  }

  // objectPath below the root, as segments; and resourceDir.
  function PathParts(a: Address): seq<string> {
    if a.ns == "" then [a.resource, a.name + ".json"] else [a.resource, a.ns, a.name + ".json"]
  }

  function DirParts(resource: string, ns: string): seq<string> {
    if resource == "" then [] else if ns == "" then [resource] else [resource, ns]
  }

  function ObjectPath(root: string, a: Address): string {
    root + "/" + Join(PathParts(a))
  }

  lemma {:induction false} SplitPlain(s: string)
    requires '/' !in s
    ensures Split(s) == [s]
  {
    if s != "" {
      SplitPlain(s[1..]);
      assert [s[0]] + s[1..] == s;
    }
  }

  lemma {:induction false} SplitSlash(s: string, rest: string)
    requires '/' !in s
    ensures Split(s + "/" + rest) == [s] + Split(rest)
  {
    var whole := s + "/" + rest;
    if s == "" {
      assert whole[1..] == rest;
    } else {
      assert whole[1..] == s[1..] + "/" + rest;
      SplitSlash(s[1..], rest);
      assert [s[0]] + s[1..] == s;
    }
  }

  lemma {:induction false} SplitJoin(parts: seq<string>)
    requires |parts| > 0 && forall i :: 0 <= i < |parts| ==> '/' !in parts[i]
    ensures Split(Join(parts)) == parts
  {
    if |parts| == 1 {
      SplitPlain(parts[0]);
    } else {
      SplitJoin(parts[1..]);
      SplitSlash(parts[0], Join(parts[1..]));
    }
  }

  // A join of segments starts and ends with a character that is not a slash.
  lemma {:induction false} JoinEnds(parts: seq<string>)
    requires |parts| > 0 && forall i :: 0 <= i < |parts| ==> parts[i] != "" && '/' !in parts[i]
    ensures var j := Join(parts); j != "" && j[0] != '/' && j[|j| - 1] != '/'
  {
    assert parts[0][0] in parts[0];
    if |parts| == 1 {
      assert parts[0][|parts[0]| - 1] in parts[0];
    } else {
      JoinEnds(parts[1..]);
    }
  }

  lemma TrimKey(parts: seq<string>)
    requires |parts| > 0 && forall i :: 0 <= i < |parts| ==> parts[i] != "" && '/' !in parts[i]
    ensures Trim("/" + Join(parts)) == Join(parts) && Trim("/" + Join(parts) + "/") == Join(parts)
  {
    var j := Join(parts);
    JoinEnds(parts);
    assert ("/" + j)[1..] == j && TrimLeft(j) == j;
    assert ("/" + j + "/")[1..] == j + "/" && TrimLeft(j + "/") == j + "/";
    assert (j + "/")[..|j|] == j;
  }

  // Keys name what they were built from, with or without a trailing slash.
  lemma ParseBuild(a: Address)
    requires WellFormed(a)
    ensures ParseKey(BuildKey(a)) == Some(a) && ParseKey(BuildKey(a) + "/") == Some(a)
  {
    TrimKey(KeyParts(a));
    SplitJoin(KeyParts(a));
  }

  lemma JoinTwo(x: string, y: string)
    ensures Join([x, y]) == x + "/" + y
  {
  }

  lemma JoinThree(x: string, y: string, z: string)
    ensures Join([x, y, z]) == x + "/" + (y + "/" + z)
  {
    assert [x, y, z][1..] == [y, z];
    JoinTwo(y, z);
  }

  // The text of keys and of the paths of their files.
  lemma KeyTexts(root: string, a: Address)
    ensures a.ns == "" ==>
              && BuildKey(a) == "/" + (a.resource + "/" + a.name)
              && ObjectPath(root, a) == root + "/" + (a.resource + "/" + (a.name + ".json"))
    ensures a.ns != "" ==>
              && BuildKey(a) == "/" + (a.resource + "/" + (a.ns + "/" + a.name))
              && ObjectPath(root, a) == root + "/" + (a.resource + "/" + (a.ns + "/" + (a.name + ".json")))
  {
    if a.ns == "" {
      JoinTwo(a.resource, a.name);
      JoinTwo(a.resource, a.name + ".json");
    } else {
      JoinThree(a.resource, a.ns, a.name);
      JoinThree(a.resource, a.ns, a.name + ".json");
    }
  }

  // A key of a resource names no object, longer keys than those of objects are refused, and so
  // is an empty one. A prefix of any length is read by its first three segments.
  lemma ParseOthers(parts: seq<string>)
    requires |parts| > 0 && forall i :: 0 <= i < |parts| ==> parts[i] != "" && '/' !in parts[i]
    ensures |parts| == 1 ==> ParseKey("/" + Join(parts)) == Some(Address(parts[0], "", ""))
    ensures |parts| > 3 ==> ParseKey("/" + Join(parts)) == None
    ensures ParseKey("") == ParseKey("/") == None
    ensures |parts| > 2 ==> ParsePrefix("/" + Join(parts)) == Prefix(parts[0], parts[1], true, parts[2])
  {
    SegmentsParse(parts);
    assert "/"[1..] == "";
  }

  lemma SegmentsParse(parts: seq<string>)
    requires |parts| > 0 && forall i :: 0 <= i < |parts| ==> parts[i] != "" && '/' !in parts[i]
    ensures Split(Trim("/" + Join(parts))) == parts && Trim("/" + Join(parts)) != ""
  {
    TrimKey(parts);
    SplitJoin(parts);
    JoinEnds(parts);
  }

  lemma NamespacePrefix(resource: string, ns: string)
    requires resource != "" && '/' !in resource && ns != "" && '/' !in ns
    ensures ParsePrefix("/" + resource + "/" + ns) == Prefix(resource, ns, false, "")
  {
    SegmentsParse([resource, ns]);
    assert Join([resource, ns]) == resource + "/" + ns;
    assert "/" + resource + "/" + ns == "/" + Join([resource, ns]);
  }

  // How the key of an object reads as a prefix. That of an object without a namespace
  // passes for the prefix of a namespace.
  lemma ParsePrefixes(a: Address)
    requires WellFormed(a)
    ensures ParsePrefix("/" + a.resource) == Prefix(a.resource, "", false, "")
    ensures a.ns != "" ==> ParsePrefix("/" + a.resource + "/" + a.ns) == Prefix(a.resource, a.ns, false, "")
    ensures ParsePrefix(BuildKey(a))
         == if a.ns != "" then Prefix(a.resource, a.ns, true, a.name) else Prefix(a.resource, a.name, false, "")
  {
    SegmentsParse([a.resource]);
    if a.ns != "" {
      NamespacePrefix(a.resource, a.ns);
    }
    SegmentsParse(KeyParts(a));
  }

  // matchesKey, the test of a watch for the objects of its events.
  predicate MatchesKey(p: Prefix, recursive: bool, ns: string, name: string) {
    if p.single then ns == p.ns && name == p.name
    else recursive && (p.ns == "" || ns == p.ns)
  }

  // A watch of an object's own key gets the events about it exactly when it has a
  // namespace.
  lemma OwnKeyMatches(a: Address, recursive: bool)
    requires WellFormed(a)
    ensures MatchesKey(ParsePrefix(BuildKey(a)), recursive, a.ns, a.name) <==> a.ns != ""
  {
    ParsePrefixes(a);
  }

  // What a watch is told of: all of a resource, a namespace of it, or one object.
  lemma PrefixMatches(a: Address, recursive: bool, ns: string, name: string)
    requires WellFormed(a)
    ensures MatchesKey(ParsePrefix("/" + a.resource), recursive, ns, name) <==> recursive
    ensures a.ns != "" ==>
              (MatchesKey(ParsePrefix("/" + a.resource + "/" + a.ns), recursive, ns, name) <==> recursive && ns == a.ns)
    ensures a.ns != "" ==>
              (MatchesKey(ParsePrefix(BuildKey(a)), recursive, ns, name) <==> ns == a.ns && name == a.name)
  {
    ParsePrefixes(a);
  }

  lemma PathPartsInjective(a: Address, b: Address)
    requires WellFormed(a) && WellFormed(b) && PathParts(a) == PathParts(b)
    ensures a == b
  {
    var n := |PathParts(a)| - 1;
    var s := PathParts(a)[n];
    assert s == a.name + ".json" == b.name + ".json";
    assert a.name == s[..|s| - 5] == b.name;
  }

  // Distinct keys have distinct files: a key that parses to an address determines the
  // path, and the path the address.
  lemma ObjectPathInjective(root: string, a: Address, b: Address)
    requires WellFormed(a) && WellFormed(b) && ObjectPath(root, a) == ObjectPath(root, b)
    ensures a == b
  {
    var n := |root| + 1;
    assert Join(PathParts(a)) == ObjectPath(root, a)[n..] == Join(PathParts(b));
    SplitJoin(PathParts(a));
    SplitJoin(PathParts(b));
    PathPartsInjective(a, b);
  }
}
