/** A list followed by a watch from the list's version, and a watch resumed in the
    middle of its snapshot, with each request as one step. */
module Lists {
  import opened Atomic
  import opened Decimal
  import opened Json
  import opened Objects
  import opened Options
  import opened Ring
  import opened Watches

  ghost predicate Touched(history: seq<Event>, rv: nat, k: Key) {
    exists i :: 0 <= i < |history| && history[i].rv > rv && history[i].key == k
  }

  lemma TouchedLast(history: seq<Event>, rv: nat, k: Key)
    requires history != []
    ensures var last := history[|history| - 1];
      Touched(history, rv, k) <==> (last.rv > rv && last.key == k) || Touched(history[..|history| - 1], rv, k)
  {
    var prev := history[..|history| - 1];
    if Touched(history, rv, k) {
      var i :| 0 <= i < |history| && history[i].rv > rv && history[i].key == k;
      if i < |prev| { assert prev[i] == history[i]; }
    }
    if Touched(prev, rv, k) {
      var i :| 0 <= i < |prev| && prev[i].rv > rv && prev[i].key == k;
      assert history[i] == prev[i];
    }
  }

  lemma ViewSelectLast(base: Option<Obj>, history: seq<Event>, k: Key)
    requires history != []
    ensures var last := history[|history| - 1];
      ViewAt(base, Select(history, Everything), k)
        == if last.key == k then Outcome(last) else ViewAt(base, Select(history[..|history| - 1], Everything), k)
  {
    var prev, last := history[..|history| - 1], history[|history| - 1];
    assert history == prev + [last];
    SelectAppend(prev, last, Everything);
    ViewAppend(base, Select(prev, Everything), Change(last), k);
  }

  lemma ViewStreamLast(copy: Option<Obj>, history: seq<Event>, rv: nat, filter: Filter, k: Key)
    requires history != [] && Matches(filter, k)
    ensures var last := history[|history| - 1];
      ViewAt(copy, Stream(history, rv, filter), k)
        == if last.rv > rv && last.key == k then Outcome(last)
           else ViewAt(copy, Stream(history[..|history| - 1], rv, filter), k)
  {
    var prev, last := history[..|history| - 1], history[|history| - 1];
    StreamLast(history, rv, filter);
    ViewAppend(copy, Stream(prev, rv, filter), Change(last), k);
    assert Stream(prev, rv, filter) + [] == Stream(prev, rv, filter);
  }

  // Folding the events above a version over any copy of a key gives the current file
  // as soon as one of them is about the key, and leaves the copy otherwise.
  lemma {:induction false} FoldAbove(base: Option<Obj>, history: seq<Event>, rv: nat, filter: Filter, copy: Option<Obj>, k: Key)
    requires Ascending(history) && Matches(filter, k)
    ensures ViewAt(copy, Stream(history, rv, filter), k)
         == if Touched(history, rv, k) then ViewAt(base, Select(history, Everything), k) else copy
  {
    if history != [] {
      FoldAbove(base, history[..|history| - 1], rv, filter, copy, k);
      ViewSelectLast(base, history, k);
      ViewStreamLast(copy, history, rv, filter, k);
      TouchedLast(history, rv, k);
      if Touched(history[..|history| - 1], rv, k) { TouchedBelow(history, rv, k); }
    }
  }

  lemma TouchedBelow(history: seq<Event>, rv: nat, k: Key)
    requires history != [] && Ascending(history) && Touched(history[..|history| - 1], rv, k)
    ensures history[|history| - 1].rv > rv
  {
    var i :| 0 <= i < |history| - 1 && history[i].rv > rv && history[i].key == k;
  }

  // --- A list read file by file while requests go on ---

  // GetList: the version is read first, then the root directory is listed, then the
  // namespace directories and the files one by one.
  datatype Lister = Lister(filter: Filter, listRV: nat, started: bool, toList: set<string>, toRead: set<Key>, items: Files)

  datatype Listing = Listing(store: State, l: Lister)

  datatype ListStep = Write(step: Step) | OpenRoot | ListDir(ns: string) | Fetch(key: Key)

  function Begin(s: State, filter: Filter): Listing {
    Listing(s, Lister(filter, s.rv, false, {}, {}, map[]))
  }

  predicate CanList(x: Listing, step: ListStep) {
    match step
    case Write(_) => true
    case OpenRoot => !x.l.started
    case ListDir(ns) => x.l.started && ns in x.l.toList
    case Fetch(key) => x.l.started && key in x.l.toRead
  }

  function ListNext(x: Listing, step: ListStep): Listing {
    var files := x.store.files;
    match step
    case Write(w) => x.(store := Next(x.store, w))
    case OpenRoot =>
      x.(l := x.l.(started := true, toList := RootDirs(x.store.dirs, x.l.filter), toRead := RootFiles(files, x.l.filter)))
    case ListDir(ns) =>
      x.(l := x.l.(toList := x.l.toList - {ns}, toRead := x.l.toRead + InDir(files, ns)))
    case Fetch(key) =>
      x.(l := x.l.(toRead := x.l.toRead - {key}, items := if key in files then x.l.items[key := files[key]] else x.l.items))
  }

  function ListSteps(x: Listing, steps: seq<ListStep>): Option<Listing> {
    if steps == [] then Some(x)
    else
      match ListSteps(x, steps[..|steps| - 1])
      case None => None
      case Some(y) => if CanList(y, steps[|steps| - 1]) then Some(ListNext(y, steps[|steps| - 1])) else None
  }

  predicate Finished(l: Lister) {
    l.started && l.toList == {} && l.toRead == {}
  }

  predicate Dealt(l: Lister, k: Key) {
    l.started && k !in l.toRead && k.ns !in l.toList
  }

  // A key the list has dealt with shows its file, or has been changed since the list's
  // version; then the watch will bring the change. A key it never lists it does not show.
  ghost predicate ItemOk(x: Listing, k: Key) {
    if Dealt(x.l, k) && Listable(x.l.filter, k) then
      Touched(x.store.history, x.l.listRV, k) || Get(x.l.items, k) == Get(x.store.files, k)
    else
      k !in x.l.items
  }

  ghost predicate ListOk(x: Listing) {
    && Valid(x.store) && x.store.openRV <= x.l.listRV <= x.store.rv
    && (x.l.started ==>
          (x.l.filter.Exactly? ==> x.l.toList == {})
          && forall k :: k in x.l.toRead ==> k.ns !in x.l.toList && Listable(x.l.filter, k))
    && (forall k :: Matches(x.l.filter, k) ==> ItemOk(x, k))
  }

  lemma WriteTouches(s: State, step: Step, rv: nat, k: Key)
    requires rv <= s.rv
    ensures var t := Next(s, step);
      && (Touched(s.history, rv, k) ==> Touched(t.history, rv, k))
      && (Touched(t.history, rv, k) || Get(t.files, k) == Get(s.files, k))
  {
    if step.Request? && !Decide(step.op, Get(s.files, step.key)).Finish? {
      var t := Next(s, step);
      assert t.history[..|t.history| - 1] == s.history;
      TouchedLast(t.history, rv, k);
    }
  }

  lemma ListKept(x: Listing, step: ListStep)
    requires ListOk(x) && CanList(x, step)
    ensures ListOk(ListNext(x, step))
  {
    var y := ListNext(x, step);
    if step.Write? { ValidKept(x.store, step.step); }
    forall k | Matches(x.l.filter, k) ensures ItemOk(y, k) {
      assert ItemOk(x, k);
      if step.Write? { WriteTouches(x.store, step.step, x.l.listRV, k); }
    }
  }

  lemma {:induction false} ListRunOk(s: State, filter: Filter, steps: seq<ListStep>)
    requires Valid(s) && ListSteps(Begin(s, filter), steps).Some?
    ensures var x := ListSteps(Begin(s, filter), steps).value;
      ListOk(x) && x.l.filter == filter && x.l.listRV == s.rv
  {
    if steps != [] {
      var prev := steps[..|steps| - 1];
      ListRunOk(s, filter, prev);
      ListKept(ListSteps(Begin(s, filter), prev).value, steps[|steps| - 1]);
    }
  }

  // A key none of the events above a version is about has kept its file since.
  lemma UntouchedKeepsFile(s: State, t: State, rv: nat, k: Key)
    requires Followed(s) && Followed(t) && Later(s, t) && rv <= s.rv && !Touched(t.history, rv, k)
    ensures !Touched(s.history, rv, k) && Get(t.files, k) == Get(s.files, k)
  {
    var more := t.history[|s.history|..];
    assert t.history == s.history + more;
    forall i | 0 <= i < |more| ensures more[i].key != k {
      assert more[i] == t.history[|s.history| + i];
    }
    SelectConcat(s.history, more, Everything);
    ViewConcat(Get(s.base, k), Select(s.history, Everything), Select(more, Everything), k);
    UntouchedView(Get(s.files, k), more, k);
    TouchedLater(s.history, t.history, rv, k);
  }

  lemma TouchedLater(history: seq<Event>, more: seq<Event>, rv: nat, k: Key)
    requires history <= more
    ensures Touched(history, rv, k) ==> Touched(more, rv, k)
  {
    if Touched(history, rv, k) {
      var i :| 0 <= i < |history| && history[i].rv > rv && history[i].key == k;
      assert more[i] == history[i];
    }
  }

  lemma {:induction false} UntouchedView(copy: Option<Obj>, events: seq<Event>, k: Key)
    requires forall i :: 0 <= i < |events| ==> events[i].key != k
    ensures ViewAt(copy, Select(events, Everything), k) == copy
  {
    if events != [] {
      UntouchedView(copy, events[..|events| - 1], k);
      ViewSelectLast(copy, events, k);
    }
  }

  // A finished list and a later watch from the list's version, not told ResourceExpired,
  // give the current file of a key the list covers, although requests went on between any
  // two reads and some listed objects may be newer than the list's version; if and only if
  // the list looks at the key, or it was changed since, or there is no file.
  lemma ListThenWatch(s: State, filter: Filter, steps: seq<ListStep>, capacity: nat, at: State, now: State, k: Key)
    requires Valid(s) && ListSteps(Begin(s, filter), steps).Some? && Matches(filter, k)
    requires var x := ListSteps(Begin(s, filter), steps).value;
      && Finished(x.l) && Later(x.store, at) && Later(x.store, now)
    requires Dated(at) && Valid(now) && Later(at, now) && capacity > 0 && at.rv <= MAX_UINT64
    requires WatchStream(capacity, at, s.rv, filter, now.history).Some?
    ensures var items := ListSteps(Begin(s, filter), steps).value.l.items;
      (ViewAt(Get(items, k), WatchStream(capacity, at, s.rv, filter, now.history).value, k) == Get(now.files, k)) <==>
      (Listable(filter, k) || Touched(now.history, s.rv, k) || k !in now.files)
  {
    ListRunOk(s, filter, steps);
    var x := ListSteps(Begin(s, filter), steps).value;
    StreamIsComplete(capacity, at, s.rv, filter, now);
    FoldAbove(Get(now.base, k), now.history, s.rv, filter, Get(x.l.items, k), k);
    assert ItemOk(x, k);
    if !Touched(now.history, s.rv, k) {
      UntouchedKeepsFile(x.store, now, s.rv, k);
    }
  }

  // --- A watch resumed in the middle of its snapshot ---

  // The object a client has of a key after the first n objects of a snapshot.
  function Copied(files: Files, snapshot: seq<Key>, n: nat, k: Key): Option<Obj>
    requires n <= |snapshot|
  {
    if k in snapshot[..n] then Get(files, k) else None
  }

  ghost predicate IsSnapshot(files: Files, snapshot: seq<Key>, filter: Filter) {
    && (forall i, j :: 0 <= i < j < |snapshot| ==> snapshot[i] != snapshot[j])
    && (forall k :: k in snapshot <==> k in files && Matches(filter, k) && Listable(filter, k))
  }

  function Snapshots(files: Files, snapshot: seq<Key>): seq<Signal>
    requires forall i :: 0 <= i < |snapshot| ==> snapshot[i] in files
  {
    seq(|snapshot|, i requires 0 <= i < |snapshot| => Initial(snapshot[i], files[snapshot[i]]))
  }

  lemma SnapshotsAppend(files: Files, snapshot: seq<Key>, i: nat)
    requires i < |snapshot| && forall j :: 0 <= j < |snapshot| ==> snapshot[j] in files
    ensures Snapshots(files, snapshot[..i + 1]) == Snapshots(files, snapshot[..i]) + [Initial(snapshot[i], files[snapshot[i]])]
  {
  }

  // A snapshot shows the file of a matching key, if there is one, exactly when it looks
  // at it.
  lemma SnapshotView(files: Files, snapshot: seq<Key>, filter: Filter, k: Key)
    requires IsSnapshot(files, snapshot, filter) && Matches(filter, k)
    requires forall j :: 0 <= j < |snapshot| ==> snapshot[j] in files
    ensures ViewAt(None, Snapshots(files, snapshot), k) == Get(files, k) <==> Listable(filter, k) || k !in files
  {
    SnapshotPrefixView(files, snapshot, |snapshot|, k);
    assert snapshot[..|snapshot|] == snapshot;
  }

  lemma {:induction false} SnapshotPrefixView(files: Files, snapshot: seq<Key>, n: nat, k: Key)
    requires n <= |snapshot| && forall j :: 0 <= j < |snapshot| ==> snapshot[j] in files
    ensures ViewAt(None, Snapshots(files, snapshot[..n]), k) == Copied(files, snapshot, n, k)
  {
    if n > 0 {
      SnapshotPrefixView(files, snapshot, n - 1, k);
      SnapshotsAppend(files, snapshot, n - 1);
      ViewAppend(None, Snapshots(files, snapshot[..n - 1]), Initial(snapshot[n - 1], files[snapshot[n - 1]]), k);
    }
  }

  // A snapshot has as many entries as there are matching files that it looks at.
  lemma SnapshotSize(files: Files, snapshot: seq<Key>, filter: Filter)
    requires IsSnapshot(files, snapshot, filter)
    ensures |snapshot| == |set k | k in files && Matches(filter, k) && Listable(filter, k)|
  {
    DistinctSize(snapshot);
    assert (set k | k in files && Matches(filter, k) && Listable(filter, k)) == set k | k in snapshot;
  }

  lemma {:induction false} DistinctSize(keys: seq<Key>)
    requires forall i, j :: 0 <= i < j < |keys| ==> keys[i] != keys[j]
    ensures |keys| == |set k | k in keys|
  {
    if keys != [] {
      var n := |keys| - 1;
      DistinctSize(keys[..n]);
      assert (set k | k in keys) == (set k | k in keys[..n]) + {keys[n]};
    }
  }

  // A file carries the version of the last event about its key.
  lemma FileVersion(s: State, rv: nat, k: Key)
    requires Valid(s) && s.openRV <= rv && k in s.files
    ensures Touched(s.history, rv, k) <==> s.files[k].rv > rv
  {
    FileVersionFrom(s.base, s.openRV, s.history, rv, k);
  }

  lemma {:induction false} FileVersionFrom(base: Files, openRV: nat, history: seq<Event>, rv: nat, k: Key)
    requires Ascending(history) && openRV <= rv
    requires forall i :: 0 <= i < |history| ==> history[i].obj.rv == history[i].rv
    requires forall k :: k in base ==> base[k].rv <= openRV
    ensures var file := ViewAt(Get(base, k), Select(history, Everything), k);
      file.Some? ==> (Touched(history, rv, k) <==> file.value.rv > rv)
  {
    if history != [] {
      FileVersionFrom(base, openRV, history[..|history| - 1], rv, k);
      ViewSelectLast(Get(base, k), history, k);
      TouchedLast(history, rv, k);
      if Touched(history[..|history| - 1], rv, k) { TouchedBelow(history, rv, k); }
    }
  }

  // A client cut off after the n-th object of a snapshot, n > 0, that resumes later from
  // that object's version, and is not refused, ends up with the right copy of every key the
  // snapshot lists exactly when each object it had not received is newer than the one it
  // resumes from, or was changed since. Snapshots come in directory order, so this is not
  // so in general.
  lemma SnapshotCut(capacity: nat, s: State, snapshot: seq<Key>, n: nat, filter: Filter, at: State, now: State)
    requires Valid(s) && capacity > 0 && Dated(at) && at.rv <= MAX_UINT64
    requires Later(s, at) && Later(at, now) && Valid(now) && Later(s, now)
    requires IsSnapshot(s.files, snapshot, filter) && 0 < n <= |snapshot|
    requires s.files[snapshot[n - 1]].rv >= s.openRV
    requires WatchStream(capacity, at, s.files[snapshot[n - 1]].rv, filter, now.history).Some?
    ensures var r := s.files[snapshot[n - 1]].rv;
      var again := WatchStream(capacity, at, r, filter, now.history).value;
      (forall k :: Matches(filter, k) && Listable(filter, k) ==>
         ViewAt(Copied(s.files, snapshot, n, k), again, k) == Get(now.files, k))
        <==> (forall j :: n <= j < |snapshot| ==> s.files[snapshot[j]].rv > r || Touched(now.history, s.rv, snapshot[j]))
  {
    var r := s.files[snapshot[n - 1]].rv;
    var again := WatchStream(capacity, at, r, filter, now.history).value;
    StreamIsComplete(capacity, at, r, filter, now);
    assert snapshot[n - 1] in s.files;
    forall k | Matches(filter, k) && Listable(filter, k)
      ensures ViewAt(Copied(s.files, snapshot, n, k), again, k) == Get(now.files, k)
         <==> (k in s.files && k !in snapshot[..n] ==> s.files[k].rv > r || Touched(now.history, s.rv, k))
    {
      FoldAbove(Get(now.base, k), now.history, r, filter, Copied(s.files, snapshot, n, k), k);
      CutKey(s, now, r, k);
    }
    forall j | n <= j < |snapshot|
      ensures snapshot[j] in s.files && Matches(filter, snapshot[j]) && Listable(filter, snapshot[j]) && snapshot[j] !in snapshot[..n]
    {
      assert snapshot[j] in snapshot;
    }
    forall k | Matches(filter, k) && Listable(filter, k) && k in s.files && k !in snapshot[..n]
      ensures exists j :: n <= j < |snapshot| && snapshot[j] == k
    {
      assert k in snapshot;
    }
  }

  // A key was changed above a version r of the time of s exactly when its file then was
  // newer than r, or it was changed later on; else the file is still the same.
  lemma CutKey(s: State, now: State, r: nat, k: Key)
    requires Valid(s) && Valid(now) && Later(s, now) && s.openRV <= r <= s.rv
    ensures k in s.files ==> (Touched(now.history, r, k) <==> s.files[k].rv > r || Touched(now.history, s.rv, k))
    ensures !Touched(now.history, r, k) ==> Get(now.files, k) == Get(s.files, k)
  {
    if k in s.files { FileVersion(s, r, k); }
    TouchedSplit(s, now, r, k);
    if !Touched(now.history, r, k) { UntouchedKeepsFile(s, now, r, k); }
  }

  lemma TouchedSplit(s: State, now: State, r: nat, k: Key)
    requires Dated(s) && Later(s, now) && r <= s.rv
    ensures Touched(now.history, r, k) <==> Touched(s.history, r, k) || Touched(now.history, s.rv, k)
  {
    if Touched(now.history, r, k) {
      var i :| 0 <= i < |now.history| && now.history[i].rv > r && now.history[i].key == k;
      if i < |s.history| { assert s.history[i] == now.history[i]; }
    }
    TouchedLater(s.history, now.history, r, k);
    if Touched(now.history, s.rv, k) {
      var i :| 0 <= i < |now.history| && now.history[i].rv > s.rv && now.history[i].key == k;
    }
  }

  // It does fail: two objects, made in the order in which they are not listed.
  lemma CutLosesObject() returns (s: State, snapshot: seq<Key>)
    ensures s == Steps(Open(map[], {}, 1), [Request(Key("", "b"), Create(JNull)), Request(Key("", "a"), Create(JNull))])
    ensures IsSnapshot(s.files, snapshot, Everything) && |snapshot| == 2
    ensures WatchStream(1000, s, s.files[snapshot[0]].rv, Everything, s.history) == Some([])
    ensures ViewAt(Copied(s.files, snapshot, 1, snapshot[1]), [], snapshot[1]) != Get(s.files, snapshot[1])
  {
    var a, b := Key("", "a"), Key("", "b");
    var s0 := Open(map[], {}, 1);
    var first, second := Request(b, Create(JNull)), Request(a, Create(JNull));
    var s1 := Next(s0, first);
    assert [first, second][..1] == [first] && [first][..0] == [];
    assert Steps(s0, [first]) == s1;
    s := Next(s1, second);
    snapshot := [a, b];
    assert snapshot[..1] == [a] && s.history[|s.history|..] == [];
  }
}
