/** Stored objects, the requests that change them, and the events that announce
    the changes. Every part of the model that handles objects uses these. */
module Objects {
  import opened Json
  import opened Options
  import Paths

  datatype Key = Key(ns: string, name: string)

  // The body stands for everything an object holds except its resourceVersion.
  datatype Obj = Obj(body: Json, rv: nat)

  type Files = map<Key, Obj>

  function Get(files: Files, k: Key): Option<Obj> {
    if k in files then Some(files[k]) else None
  }

  // What Newer() constructs: the argument of an update callback when no file exists.
  const EMPTY_OBJECT := Obj(JObj(map[]), 0)

  datatype Op =
    | Create(body: Json)
    | Update(pre: Obj -> bool, f: Obj -> Option<Obj>, ignoreNotFound: bool)
    | Delete(pre: Obj -> bool)

  datatype Reason = KeyExists | NotFound | PreconditionFailed | CallbackFailed | Unchanged

  datatype Plan = Finish(reason: Reason) | Write(draft: Obj) | Erase

  // The decision a request takes once it has read the current file under the key
  // lock. A request that finishes here takes no resourceVersion.
  function Decide(op: Op, cur: Option<Obj>): Plan {
    match op
    case Create(body) =>
      if cur.Some? then Finish(KeyExists) else Write(Obj(body, 0))
    case Update(pre, f, ignoreNotFound) => (
      match cur
      case None =>
        if !ignoreNotFound then Finish(NotFound) else
        (match f(EMPTY_OBJECT)
         case None => Finish(CallbackFailed)
         case Some(o) => Write(o))
      case Some(c) =>
        if !pre(c) then Finish(PreconditionFailed) else
        (match f(c)
         case None => Finish(CallbackFailed)
         case Some(o) => if o == c then Finish(Unchanged) else Write(o)))
    case Delete(pre) => (
      match cur
      case None => Finish(NotFound)
      case Some(c) => if pre(c) then Erase else Finish(PreconditionFailed))
  }

  // The file content a planned change leaves behind, stamped with its version.
  function After(plan: Plan, rv: nat): Option<Obj> {
    match plan
    case Write(o) => Some(o.(rv := rv))
    case Erase => None
    case Finish(_) => None
  }

  datatype EventType = Added | Modified | Deleted

  datatype Event = Event(rv: nat, etype: EventType, key: Key, obj: Obj)

  // The event published for a change: a deletion carries the last object, restamped.
  function EventOf(key: Key, cur: Option<Obj>, plan: Plan, rv: nat): Event {
    var last := if cur.Some? then cur.value else EMPTY_OBJECT;
    match plan
    case Write(o) => Event(rv, if cur.Some? then Modified else Added, key, o.(rv := rv))
    case _ => Event(rv, Deleted, key, last.(rv := rv))
  }

  // What a client's copy of the key becomes when it sees the event.
  function Outcome(ev: Event): Option<Obj> {
    if ev.etype.Deleted? then None else Some(ev.obj)
  }

  // The keys a list or a watch covers.
  datatype Filter = Everything | InNamespace(ns: string) | Exactly(key: Key)

  predicate Matches(filter: Filter, key: Key) {
    match filter
    case Everything => true
    case InNamespace(ns) => key.ns == ns
    case Exactly(k) => k == key
  }

  // Whether a list or a snapshot looks at the file of a key: walks skip names that start
  // with a dot, while a single object is read directly.
  predicate Listable(filter: Filter, key: Key) {
    filter.Exactly? || !Paths.Dotted(key.name)
  }

  // What the listing of a directory offers a walk.
  function InDir(files: Files, ns: string): set<Key> {
    set k | k in files && k.ns == ns && !Paths.Dotted(k.name)
  }

  // The listing of the directory a list or a watch starts from: the files in it, and the
  // namespace directories still to be listed.
  function RootFiles(files: Files, filter: Filter): set<Key> {
    match filter
    case Everything => InDir(files, "")
    case InNamespace(_) => {}
    case Exactly(k) => {k}
  }

  function RootDirs(dirs: set<string>, filter: Filter): set<string> {
    match filter
    case Everything => dirs
    case InNamespace(ns) => {ns}
    case Exactly(_) => {}
  }

  // The buffer of a watch channel.
  const CHANNEL_SIZE := 100

  // What a watch channel carries.
  datatype Signal = Change(ev: Event) | Bookmark(rv: nat) | Expired

  // The initial signal for an object found on disk.
  function Initial(key: Key, obj: Obj): Signal {
    Change(Event(obj.rv, Added, key, obj))
  }

  // Whether a stream has told of a key.
  predicate Told(stream: seq<Signal>, k: Key) {
    stream != [] &&
    var last := stream[|stream| - 1];
    (last.Change? && last.ev.key == k) || Told(stream[..|stream| - 1], k)
  }

  lemma ToldAppend(stream: seq<Signal>, sig: Signal, k: Key)
    ensures Told(stream + [sig], k) <==> Told(stream, k) || (sig.Change? && sig.ev.key == k)
  {
    assert (stream + [sig])[..|stream|] == stream;
  }

  // What a client that started with nothing has of a key it was not told of.
  lemma {:induction false} UntoldView(stream: seq<Signal>, k: Key)
    requires !Told(stream, k)
    ensures ViewAt(None, stream, k) == None
  {
    if stream != [] {
      UntoldView(stream[..|stream| - 1], k);
    }
  }

  // A client's copy of one key after folding a stream over an initial copy.
  function ViewAt(initial: Option<Obj>, stream: seq<Signal>, k: Key): Option<Obj> {
    if stream == [] then initial
    else
      var last := stream[|stream| - 1];
      if last.Change? && last.ev.key == k then Outcome(last.ev)
      else ViewAt(initial, stream[..|stream| - 1], k)
  }

  lemma ViewAppend(initial: Option<Obj>, stream: seq<Signal>, sig: Signal, k: Key)
    ensures ViewAt(initial, stream + [sig], k)
         == if sig.Change? && sig.ev.key == k then Outcome(sig.ev) else ViewAt(initial, stream, k)
  {
    assert (stream + [sig])[..|stream|] == stream;
  }

  // Folding in two pieces is folding the second piece over the view of the first.
  lemma {:induction false} ViewConcat(initial: Option<Obj>, a: seq<Signal>, b: seq<Signal>, k: Key)
    ensures ViewAt(initial, a + b, k) == ViewAt(ViewAt(initial, a, k), b, k)
    decreases |b|
  {
    if b == [] {
      assert a + b == a;
    } else {
      var m := |b| - 1;
      assert a + b == (a + b[..m]) + [b[m]];
      ViewAppend(initial, a + b[..m], b[m], k);
      ViewConcat(initial, a, b[..m], k);
    }
  }
}
