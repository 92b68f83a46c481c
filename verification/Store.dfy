/** The store of one resource, with each request carried out alone. */
module Store {
  import opened Broadcaster
  import opened Counter
  import opened Decimal
  import opened Objects
  import opened Options
  import opened Ring
  import Atomic
  import Json
  import Lists

  // NoAnswer: the request never comes back from publish, or panics there.
  datatype Failure = Refused(reason: Reason) | NoVersion | NotWritten | NoAnswer(fate: Fate)

  class Store {
    const counter: Counter
    const broadcast: Broadcaster
    var files: Files
    var dirs: set<string>
    // The files and version at opening, and everything published since.
    ghost const base: Files
    ghost const openRV: nat
    ghost var history: seq<Event>

    ghost function Contents(): Atomic.State
      reads this, counter
    {
      Atomic.State(base, openRV, files, dirs, counter.rv, history)
    }

    // The ring is the tail of the history, and files and history agree.
    ghost predicate Valid()
      reads this, counter, counter.root, broadcast, broadcast.subs
    {
      && counter.Valid()
      && broadcast.Valid()
      && broadcast.capacity > 0
      && broadcast.ring == Trim(history, broadcast.capacity)
      && Atomic.Valid(Contents())
    }

    // Opens a directory whose files are not newer than the counter.
    constructor (counter: Counter, files: Files, dirs: set<string>, capacity: nat)
      requires counter.Valid() && capacity > 0 && "" !in dirs
      requires forall k :: k in files ==> files[k].rv <= counter.rv && (k.ns == "" || k.ns in dirs)
      ensures Valid() && fresh(broadcast) && this.counter == counter && broadcast.capacity == capacity
      ensures Contents() == Atomic.Open(files, dirs, counter.rv)
      ensures this.files == files && this.dirs == dirs && history == []
    {
      this.counter := counter;
      this.files, this.dirs := files, dirs;
      base, openRV, history := files, counter.rv, [];
      broadcast := new Broadcaster(capacity);
      new;
      Atomic.ValidOpen(files, dirs, counter.rv);
    }

    // nextRV.
    method NextRV(fault: Fault) returns (rv: Option<nat>)
      requires Valid() && counter.rv < MAX_UINT64
      modifies counter, counter.root
      ensures Valid()
      ensures rv == if fault == NoFault then Some(old(counter.rv) + 1) else None
      ensures Contents() == if fault == NoFault then Atomic.Next(old(Contents()), Atomic.OtherResource) else old(Contents())
      ensures files == old(files) && dirs == old(dirs) && history == old(history)
      ensures counter.rv == old(counter.rv) + if fault == NoFault then 1 else 0
    {
      Atomic.ValidKept(Contents(), Atomic.OtherResource);
      rv := counter.Next(fault);
      assert broadcast.Valid();
    }

    // What the watchers are sent by a request that comes back: the events it published, if
    // they have room for them.
    twostate predicate Fed()
      reads this, broadcast, broadcast.subs
    {
      && broadcast.subs == old(broadcast.subs) && old(history) <= history
      && forall w :: w in broadcast.subs ==>
           w.sent == old(w.sent) + (if old(w.HasRoom()) then Select(history[|old(history)|..], w.filter) else [])
    }

    twostate lemma NoneFed()
      requires broadcast.subs == old(broadcast.subs) && history == old(history)
      requires forall w :: w in broadcast.subs ==> w.sent == old(w.sent)
      ensures Fed()
    {
      assert history[|old(history)|..] == [];
    }

    // Publishes an event. It is sure to come back when all watchers it concerns have room.
    method Announce(ev: Event) returns (fate: Fate)
      requires broadcast.Valid() && broadcast.ring == Trim(history, broadcast.capacity)
      modifies this`history, broadcast`ring, broadcast.subs
      ensures broadcast.Valid() && broadcast.ring == Trim(history, broadcast.capacity) && broadcast.subs == old(broadcast.subs)
      ensures history == old(history) + [ev]
      ensures old(broadcast.Fits(ev.key)) ==> fate.Returns?
      ensures fate.Returns? ==> Fed()
    {
      TrimAppend(history, ev, broadcast.capacity);
      fate := broadcast.Publish(ev);
      history := history + [ev];
      assert history[|old(history)|..] == [ev];
    }

    // The last part of a request, whose file is in place: the event.
    method Conclude(key: Key, cur: Option<Obj>, plan: Plan, rv: nat, ghost was: Atomic.State) returns (r: Result<Obj, Failure>)
      requires !plan.Finish? && rv == was.rv + 1
      requires counter.Valid() && broadcast.Valid() && broadcast.capacity > 0 && broadcast.ring == Trim(history, broadcast.capacity)
      requires Atomic.Valid(was) && Contents() == Atomic.Perform(was, key, cur, plan).(history := was.history)
      modifies this`history, broadcast`ring, broadcast.subs
      ensures Valid() && broadcast.subs == old(broadcast.subs)
      ensures Contents() == Atomic.Perform(was, key, cur, plan)
      ensures r == Ok(EventOf(key, cur, plan, rv).obj) || r == Err(NoAnswer(Blocks)) || r == Err(NoAnswer(Panics))
      ensures old(broadcast.Fits(key)) ==> CameBack(r)
      ensures CameBack(r) ==> Fed()
    {
      Atomic.PerformKeepsValid(was, key, cur, plan);
      var ev := EventOf(key, cur, plan, rv);
      var fate := Announce(ev);
      r := if fate.Returns? then Ok(ev.obj) else Err(NoAnswer(fate));
    }

    // Whether a request has come back, rather than hang or panic in publish.
    static predicate CameBack(r: Result<Obj, Failure>) {
      !(r.Err? && r.error.NoAnswer?)
    }

    // The second half of a creation or an update: a version, the file, the event.
    method Put(key: Key, cur: Option<Obj>, draft: Obj, fault: Fault, writeFails: bool) returns (r: Result<Obj, Failure>)
      requires Valid() && counter.rv < MAX_UINT64 && Get(files, key) == cur
      modifies this`files, this`dirs, this`history, counter, counter.root, broadcast`ring, broadcast.subs
      ensures Valid() && broadcast.subs == old(broadcast.subs)
      ensures PutBy(key, cur, draft, fault, writeFails, old(Contents()), Contents(), r)
      ensures old(broadcast.Fits(key)) ==> CameBack(r)
      ensures CameBack(r) ==> Fed()
    {
      ghost var was := Contents();
      var rv := NextRV(fault);
      NoneFed();
      if rv == None {
        r := Err(NoVersion);
      } else if writeFails {
        r := Err(NotWritten);
      } else {
        r := WriteAndPublish(key, cur, draft, rv.value, was);
      }
    }

    method WriteAndPublish(key: Key, cur: Option<Obj>, draft: Obj, rv: nat, ghost was: Atomic.State)
      returns (r: Result<Obj, Failure>)
      requires Valid() && Atomic.Valid(was) && rv == was.rv + 1 && Contents() == was.(rv := rv)
      modifies this`files, this`dirs, this`history, broadcast`ring, broadcast.subs
      ensures Valid() && broadcast.subs == old(broadcast.subs)
      ensures PutBy(key, cur, draft, NoFault, false, was, Contents(), r)
      ensures old(broadcast.Fits(key)) ==> CameBack(r)
      ensures CameBack(r) ==> Fed()
    {
      dirs := Atomic.WithDir(dirs, key.ns);
      files := files[key := draft.(rv := rv)];
      r := Conclude(key, cur, Write(draft), rv, was);
    }

    // A key that is taken is refused and stays as it is; one that is free gets the object.
    method Create(key: Key, body: Json.Json, fault: Fault, writeFails: bool) returns (r: Result<Obj, Failure>)
      requires Valid() && counter.rv < MAX_UINT64
      modifies this`files, this`dirs, this`history, counter, counter.root, broadcast`ring, broadcast.subs
      ensures Valid() && broadcast.subs == old(broadcast.subs)
      ensures key in old(files) ==> r == Err(Refused(KeyExists)) && Contents() == old(Contents())
      ensures key !in old(files) && fault != NoFault ==> r == Err(NoVersion) && Contents() == old(Contents())
      ensures key !in old(files) && fault == NoFault && writeFails ==>
                r == Err(NotWritten) && Contents() == old(Contents()).(rv := old(counter.rv) + 1)
      ensures key !in old(files) && fault == NoFault && !writeFails ==>
                Wrote(old(Contents()), Contents(), key, body, Added) && Replied(r, Obj(body, counter.rv))
      ensures r.Ok? ==> r.value == Obj(body, counter.rv) && files == old(files)[key := r.value]
                        && history == old(history) + [Event(counter.rv, Added, key, r.value)]
      ensures Answer(Op.Create(body), key, fault, writeFails, old(Contents()), Contents(), r)
      ensures old(broadcast.Fits(key)) ==> CameBack(r)
      ensures CameBack(r) ==> Fed()
    {
      ghost var was := Contents();
      if key in files {
        CreateAnswered(key, body, fault, writeFails, was, was, Err(Refused(KeyExists)));
        return Err(Refused(KeyExists));
      }
      r := Put(key, None, Obj(body, 0), fault, writeFails);
      PutAnswers(Op.Create(body), key, Obj(body, 0), fault, writeFails, was, Contents(), r);
      CreateAnswered(key, body, fault, writeFails, was, Contents(), r);
    }

    // The removal of an object that was found. The file goes before a version is taken: if
    // none can be had, the removal stays and is never announced.
    method Remove(key: Key, cur: Obj, fault: Fault) returns (r: Result<Obj, Failure>)
      requires Valid() && counter.rv < MAX_UINT64 && Get(files, key) == Some(cur)
      modifies this`files, this`dirs, this`history, counter, counter.root, broadcast`ring, broadcast.subs
      ensures broadcast.subs == old(broadcast.subs)
      ensures fault != NoFault ==>
                r == Err(NoVersion) && Contents() == old(Contents()).(files := old(files) - {key}) && Fed()
      ensures fault == NoFault ==>
                && Valid() && Contents() == Atomic.Perform(old(Contents()), key, Some(cur), Erase)
                && (r == Ok(cur.(rv := counter.rv)) || r == Err(NoAnswer(Blocks)) || r == Err(NoAnswer(Panics)))
      ensures old(broadcast.Fits(key)) ==> CameBack(r)
      ensures CameBack(r) ==> Fed()
    {
      ghost var was := Contents();
      files := files - {key};
      var rv := counter.Next(fault);
      if rv == None {
        return Err(NoVersion);
      }
      r := Conclude(key, Some(cur), Erase, rv.value, was);
    }

    method Delete(key: Key, pre: Obj -> bool, fault: Fault, removeFails: bool) returns (r: Result<Obj, Failure>)
      requires Valid() && counter.rv < MAX_UINT64
      modifies this`files, this`dirs, this`history, counter, counter.root, broadcast`ring, broadcast.subs
      ensures r != Err(NoVersion) ==> Valid()
      ensures broadcast.subs == old(broadcast.subs)
      ensures key !in old(files) ==> r == Err(Refused(NotFound)) && Contents() == old(Contents())
      ensures key in old(files) && !pre(old(files)[key]) ==>
                r == Err(Refused(PreconditionFailed)) && Contents() == old(Contents())
      ensures key in old(files) && pre(old(files)[key]) && removeFails ==> r == Err(NotWritten) && Contents() == old(Contents())
      ensures key in old(files) && pre(old(files)[key]) && !removeFails && fault != NoFault ==>
                r == Err(NoVersion) && Contents() == old(Contents()).(files := old(files) - {key})
      ensures key in old(files) && pre(old(files)[key]) && !removeFails && fault == NoFault ==>
                Erased(old(Contents()), Contents(), key) && Replied(r, Obj(old(files)[key].body, counter.rv))
      ensures r.Ok? ==> r.value == Obj(old(files)[key].body, counter.rv) && files == old(files) - {key}
                        && history == old(history) + [Event(counter.rv, Deleted, key, r.value)]
      ensures Answer(Op.Delete(pre), key, fault, removeFails, old(Contents()), Contents(), r)
      ensures old(broadcast.Fits(key)) ==> CameBack(r)
      ensures CameBack(r) ==> Fed()
    {
      ghost var was := Contents();
      if key !in files {
        r := Err(Refused(NotFound));
      } else if !pre(files[key]) {
        r := Err(Refused(PreconditionFailed));
      } else if removeFails {
        r := Err(NotWritten);
      } else {
        r := Remove(key, files[key], fault);
        if fault == NoFault {
          Answered(Op.Delete(pre), key, was, Contents(), r);
        }
      }
      DeleteAnswered(key, pre, fault, removeFails, was, Contents(), r);
    }

    method GuaranteedUpdate(key: Key, ignoreNotFound: bool, pre: Obj -> bool, tryUpdate: Obj -> Option<Obj>,
                            fault: Fault, writeFails: bool)
      returns (r: Result<Obj, Failure>)
      requires Valid() && counter.rv < MAX_UINT64
      modifies this`files, this`dirs, this`history, counter, counter.root, broadcast`ring, broadcast.subs
      ensures Valid() && broadcast.subs == old(broadcast.subs)
      ensures Answer(Op.Update(pre, tryUpdate, ignoreNotFound), key, fault, writeFails, old(Contents()), Contents(), r)
      ensures key !in old(files) && !ignoreNotFound ==> r == Err(Refused(NotFound)) && Contents() == old(Contents())
      ensures key in old(files) && !pre(old(files)[key]) ==>
                r == Err(Refused(PreconditionFailed)) && Contents() == old(Contents())
      ensures key in old(files) && pre(old(files)[key]) ==>
                Updated(old(Contents()), Contents(), key, tryUpdate(old(files)[key]), Modified, fault, writeFails, r)
      ensures key !in old(files) && ignoreNotFound ==>
                Updated(old(Contents()), Contents(), key, tryUpdate(Obj(Json.JObj(map[]), 0)), Added, fault, writeFails, r)
      ensures r.Ok? ==> r.value.rv == counter.rv && files == old(files)[key := r.value]
                        && history == old(history) + [Event(counter.rv, if key in old(files) then Modified else Added, key, r.value)]
      ensures old(broadcast.Fits(key)) ==> CameBack(r)
      ensures CameBack(r) ==> Fed()
    {
      var found := key in files;
      var cur := EMPTY_OBJECT;
      ghost var was := Contents();
      if found {
        cur := files[key];
      }
      if !found && !ignoreNotFound {
        r := Err(Refused(NotFound));
      } else if found && !pre(cur) {
        r := Err(Refused(PreconditionFailed));
      } else {
        var updated := tryUpdate(cur);
        if updated == None {
          r := Err(Refused(CallbackFailed));
        } else if found && updated.value == cur {
          r := Err(Refused(Unchanged));
        } else {
          r := Put(key, if found then Some(cur) else None, updated.value, fault, writeFails);
          PutAnswers(Op.Update(pre, tryUpdate, ignoreNotFound), key, updated.value, fault, writeFails, was, Contents(), r);
        }
      }
      UpdateAnswered(key, ignoreNotFound, pre, tryUpdate, fault, writeFails, was, Contents(), r);
    }

    // walkObjects: every matching object it looks at once, in whatever order the directories
    // give.
    method Walk(filter: Filter) returns (snapshot: seq<Key>)
      requires Valid()
      ensures Lists.IsSnapshot(files, snapshot, filter)
    {
      var toRead, toList := RootFiles(files, filter), RootDirs(dirs, filter);
      while toList != {}
        invariant forall k :: k in files && Matches(filter, k) && Listable(filter, k) ==> k in toRead || k.ns in toList
        invariant forall k :: k in toRead && k in files ==> Matches(filter, k) && Listable(filter, k)
        invariant filter.Exactly? ==> toList == {}
        invariant forall ns :: ns in toList ==> forall k :: k in files && k.ns == ns ==> Matches(filter, k)
        decreases |toList|
      {
        var ns :| ns in toList;
        toList := toList - {ns};
        toRead := toRead + InDir(files, ns);
      }
      snapshot := [];
      while toRead != {}
        invariant forall k :: k in files && Matches(filter, k) && Listable(filter, k) <==> k in snapshot || (k in toRead && k in files)
        invariant forall k :: k in snapshot ==> k !in toRead
        invariant forall i, j :: 0 <= i < j < |snapshot| ==> snapshot[i] != snapshot[j]
        decreases |toRead|
      {
        var k :| k in toRead;
        toRead := toRead - {k};
        if k in files {
          snapshot := snapshot + [k];
        }
      }
    }

    method GetList(filter: Filter) returns (items: seq<Obj>, listRV: nat, ghost snapshot: seq<Key>)
      requires Valid()
      ensures listRV == counter.rv
      ensures Lists.IsSnapshot(files, snapshot, filter) && |items| == |snapshot|
      ensures forall k :: k in snapshot <==>
                && k in files && (filter.Exactly? || k.name == "" || k.name[0] != '.')
                && (match filter case Everything => true case InNamespace(ns) => k.ns == ns case Exactly(key) => k == key)
      ensures forall i :: 0 <= i < |items| ==> items[i] == files[snapshot[i]]
    {
      listRV := counter.Current();
      var walked := Walk(filter);
      items, snapshot := [], walked;
      for i := 0 to |walked|
        invariant |items| == i
        invariant forall j :: 0 <= j < i ==> items[j] == files[walked[j]]
      {
        assert walked[i] in walked;
        items := items + [files[walked[i]]];
      }
    }

    method Count(filter: Filter) returns (n: nat)
      requires Valid()
      ensures n == |set k | k in files && Matches(filter, k) && Listable(filter, k)|
    {
      var walked := Walk(filter);
      Lists.SnapshotSize(files, walked, filter);
      n := |walked|;
    }

    // Delivers one more signal to a watch that is not subscribed yet.
    method SendOne(w: Watcher, ghost before: seq<Signal>, sig: Signal) returns (fate: Fate)
      requires !w.hooked && Delivered(w, before, Returns)
      modifies w`sent, w`buffered, w`closed
      ensures Delivered(w, before + [sig], fate)
    {
      assert (before + [sig])[..|before|] == before;
      fate := w.Deliver(sig);
    }

    // The snapshot, and the bookmark if one is asked for.
    method SendSnapshot(w: Watcher, bookmark: Option<nat>) returns (fate: Fate, ghost snapshot: seq<Key>)
      requires Valid() && !w.hooked && Delivered(w, [], Returns)
      modifies w`sent, w`buffered, w`closed
      ensures Lists.IsSnapshot(files, snapshot, w.filter)
      ensures Delivered(w, Lists.Snapshots(files, snapshot) + Marks(bookmark), fate)
      ensures var total := |snapshot| + if bookmark.Some? then 1 else 0;
              && (w.closed <==> total > 100) && |w.sent| == (if total > 100 then 100 else total)
              && (forall i :: 0 <= i < |w.sent| && i < |snapshot| ==>
                    var k := snapshot[i]; w.sent[i] == Change(Event(files[k].rv, Added, k, files[k])))
              && (bookmark.Some? && total <= 100 ==> w.sent[|snapshot|] == Bookmark(bookmark.value))
    {
      var walked := Walk(w.filter);
      snapshot := walked;
      ghost var all := Lists.Snapshots(files, walked) + Marks(bookmark);
      for i := 0 to |walked|
        invariant Delivered(w, Lists.Snapshots(files, walked[..i]), Returns)
      {
        assert walked[i] in walked;
        Lists.SnapshotsAppend(files, walked, i);
        fate := SendOne(w, Lists.Snapshots(files, walked[..i]), Initial(walked[i], files[walked[i]]));
        if !fate.Returns? {
          assert Lists.Snapshots(files, walked[..i + 1]) <= all;
          MoreLeft(w, Lists.Snapshots(files, walked[..i + 1]), all, fate);
          return;
        }
      }
      assert walked[..|walked|] == walked;
      assert Lists.Snapshots(files, walked) + [] == Lists.Snapshots(files, walked);
      fate := Returns;
      if bookmark.Some? {
        fate := SendOne(w, Lists.Snapshots(files, walked), Bookmark(bookmark.value));
      }
    }

    // The replay, or the error when the start is too old.
    method SendReplay(w: Watcher, startRV: nat) returns (fate: Fate, ok: bool)
      requires Valid() && w !in broadcast.subs && !w.hooked && Delivered(w, [], Returns)
      modifies w`sent, w`buffered, w`closed, broadcast`subs
      ensures broadcast.subs == old(broadcast.subs)
      ensures match Replay(broadcast.ring, startRV)
              case None => !ok && fate.Returns? && w.sent == [Expired] && w.closed
              case Some(events) => ok && Delivered(w, Select(events, w.filter), fate)
    {
      var events, accepted := broadcast.ReplayLocked(startRV);
      if !accepted {
        fate := w.Deliver(Expired);
        broadcast.Stop(w);
        return Returns, false;
      }
      ok := true;
      fate := SendEvents(w, events);
    }

    method SendEvents(w: Watcher, events: seq<Event>) returns (fate: Fate)
      requires !w.hooked && Delivered(w, [], Returns)
      modifies w`sent, w`buffered, w`closed
      ensures Delivered(w, Select(events, w.filter), fate)
    {
      fate := Returns;
      for i := 0 to |events|
        invariant fate.Returns? && Delivered(w, Select(events[..i], w.filter), fate)
      {
        assert events[..i + 1][..i] == events[..i];
        if Matches(w.filter, events[i].key) {
          fate := SendOne(w, Select(events[..i], w.filter), Change(events[i]));
          if !fate.Returns? {
            SelectPrefix(events, i + 1, w.filter);
            MoreLeft(w, Select(events[..i + 1], w.filter), Select(events, w.filter), fate);
            return;
          }
        }
      }
      assert events[..|events|] == events;
    }

    // A watch with no version or version 0 starts with a snapshot; one with an older version
    // starts with a replay, or with an error when that is refused. It returns an open channel
    // with all of that exactly when the channel has room for it; otherwise the channel is
    // closed, holds the first part, and is subscribed all the same.
    method Watch(filter: Filter, startRV: nat, bookmark: bool) returns (w: Watcher, fate: Fate, ghost snapshot: seq<Key>)
      requires Valid()
      modifies broadcast`subs
      ensures fresh(w) && w.filter == filter && Contents() == old(Contents()) && Valid()
      ensures startRV == 0 ==>
                && Lists.IsSnapshot(files, snapshot, filter)
                && var all := Lists.Snapshots(files, snapshot) + Marks(if bookmark then Some(counter.rv) else None);
                && Delivered(w, all, fate)
                && (fate.Returns? && !w.closed && w.sent == all <==> |all| <= CHANNEL_SIZE)
                && broadcast.subs == (if fate.Returns? then old(broadcast.subs) + {w} else old(broadcast.subs))
      ensures startRV == 0 ==>
                var total := |snapshot| + if bookmark then 1 else 0;
                && (w.closed <==> total > 100) && |w.sent| == (if total > 100 then 100 else total)
                && (forall i :: 0 <= i < |w.sent| && i < |snapshot| ==>
                      var k := snapshot[i]; w.sent[i] == Change(Event(files[k].rv, Added, k, files[k])))
                && (bookmark && total <= 100 ==> w.sent[|snapshot|] == Bookmark(counter.rv))
      ensures startRV > 0 ==>
                match Atomic.WatchStream(broadcast.capacity, Contents(), startRV, filter, history)
                case None => broadcast.subs == old(broadcast.subs) && fate.Returns? && w.sent == [Expired] && w.closed
                case Some(stream) =>
                  && Delivered(w, stream, fate)
                  && (fate.Returns? && !w.closed && w.sent == stream <==> |stream| <= CHANNEL_SIZE)
                  && broadcast.subs == (if fate.Returns? then old(broadcast.subs) + {w} else old(broadcast.subs))
    {
      w := new Watcher(filter);
      fate, snapshot := Returns, [];
      var currentRV := counter.Current();
      if startRV == 0 {
        fate, snapshot := SendSnapshot(w, if bookmark then Some(currentRV) else None);
      } else {
        assert history[|history|..] == [];
        if startRV < currentRV {
          var ok;
          fate, ok := SendReplay(w, startRV);
          if !ok {
            return;
          }
          assert forall events :: Select(events, filter) + [] == Select(events, filter);
        }
      }
      if fate.Returns? {
        broadcast.SubscribeLocked(w);
      }
    }
  }

  function Marks(bookmark: Option<nat>): seq<Signal> {
    if bookmark.Some? then [Bookmark(bookmark.value)] else []
  }

  // What has become of a channel that nobody receives from, and of its sender: it is open
  // and has all the signals, or it is closed and has as many as there was room for. A sender
  // that goes on after that may panic.
  predicate Delivered(w: Watcher, all: seq<Signal>, fate: Fate)
    reads w
  {
    if |all| <= CHANNEL_SIZE then fate.Returns? && !w.closed && w.sent == all && w.buffered == |all|
    else
      && w.closed && w.sent == all[..CHANNEL_SIZE] && w.buffered == CHANNEL_SIZE
      && (fate.Returns? || (fate.Panics? && |all| > CHANNEL_SIZE + 1))
  }

  lemma MoreLeft(w: Watcher, some: seq<Signal>, all: seq<Signal>, fate: Fate)
    requires some <= all && fate.Panics? && Delivered(w, some, fate)
    ensures Delivered(w, all, fate)
  {
    assert all[..|some|] == some;
  }

  lemma {:induction false} SelectPrefix(events: seq<Event>, n: nat, filter: Filter)
    requires n <= |events|
    ensures Select(events[..n], filter) <= Select(events, filter)
  {
    if n < |events| {
      SelectPrefix(events[..|events| - 1], n, filter);
      assert events[..|events| - 1][..n] == events[..n];
    } else {
      assert events[..n] == events;
    }
  }

  // A request that takes effect returns the object, unless it hangs or panics in publish.
  predicate Replied(r: Result<Obj, Failure>, o: Obj) {
    r == Ok(o) || r == Err(NoAnswer(Blocks)) || r == Err(NoAnswer(Panics))
  }

  // The object is stored with the next version, and announced.
  ghost predicate Wrote(before: Atomic.State, after: Atomic.State, key: Key, body: Json.Json, etype: EventType) {
    var o := Obj(body, before.rv + 1);
    after == before.(rv := before.rv + 1, files := before.files[key := o],
                     dirs := if key.ns == "" then before.dirs else before.dirs + {key.ns},
                     history := before.history + [Event(before.rv + 1, etype, key, o)])
  }

  // The object is removed, and announced as it was, with the next version.
  ghost predicate Erased(before: Atomic.State, after: Atomic.State, key: Key)
    requires key in before.files
  {
    var last := Obj(before.files[key].body, before.rv + 1);
    after == before.(rv := before.rv + 1, files := before.files - {key},
                     history := before.history + [Event(before.rv + 1, Deleted, key, last)])
  }

  // What an update comes to once the callback has answered.
  ghost predicate Updated(before: Atomic.State, after: Atomic.State, key: Key, answer: Option<Obj>, etype: EventType,
                          fault: Fault, writeFails: bool, r: Result<Obj, Failure>) {
    if answer.None? then r == Err(Refused(CallbackFailed)) && after == before
    else if key in before.files && before.files[key] == answer.value then r == Err(Refused(Unchanged)) && after == before
    else if fault != NoFault then r == Err(NoVersion) && after == before
    else if writeFails then r == Err(NotWritten) && after == before.(rv := before.rv + 1)
    else Wrote(before, after, key, answer.value.body, etype) && Replied(r, Obj(answer.value.body, before.rv + 1))
  }

  lemma CreateAnswered(key: Key, body: Json.Json, fault: Fault, writeFails: bool,
                       before: Atomic.State, after: Atomic.State, r: Result<Obj, Failure>)
    requires Answer(Op.Create(body), key, fault, writeFails, before, after, r)
    ensures key in before.files ==> r == Err(Refused(KeyExists)) && after == before
    ensures key !in before.files ==> Updated(before, after, key, Some(Obj(body, 0)), Added, fault, writeFails, r)
  {
  }

  lemma DeleteAnswered(key: Key, pre: Obj -> bool, fault: Fault, removeFails: bool,
                       before: Atomic.State, after: Atomic.State, r: Result<Obj, Failure>)
    requires Answer(Op.Delete(pre), key, fault, removeFails, before, after, r)
    ensures key !in before.files ==> r == Err(Refused(NotFound)) && after == before
    ensures key in before.files ==>
              if !pre(before.files[key]) then r == Err(Refused(PreconditionFailed)) && after == before
              else if removeFails then r == Err(NotWritten) && after == before
              else if fault != NoFault then r == Err(NoVersion) && after == before.(files := before.files - {key})
              else Erased(before, after, key) && Replied(r, Obj(before.files[key].body, before.rv + 1))
  {
  }

  lemma UpdateAnswered(key: Key, ignoreNotFound: bool, pre: Obj -> bool, tryUpdate: Obj -> Option<Obj>,
                       fault: Fault, writeFails: bool, before: Atomic.State, after: Atomic.State, r: Result<Obj, Failure>)
    requires Answer(Op.Update(pre, tryUpdate, ignoreNotFound), key, fault, writeFails, before, after, r)
    ensures key !in before.files && !ignoreNotFound ==> r == Err(Refused(NotFound)) && after == before
    ensures key !in before.files && ignoreNotFound ==>
              Updated(before, after, key, tryUpdate(Obj(Json.JObj(map[]), 0)), Added, fault, writeFails, r)
    ensures key in before.files && !pre(before.files[key]) ==> r == Err(Refused(PreconditionFailed)) && after == before
    ensures key in before.files && pre(before.files[key]) ==>
              Updated(before, after, key, tryUpdate(before.files[key]), Modified, fault, writeFails, r)
    ensures r.Ok? ==>
              && r.value.rv == after.rv && after.files == before.files[key := r.value]
              && after.history == before.history
                   + [Event(after.rv, if key in before.files then Modified else Added, key, r.value)]
  {
  }

  // What a request returns and what it leaves behind. A failed version or write leaves
  // no change, except that a removal that gets no version is done but not announced.
  ghost predicate Answer(op: Op, key: Key, fault: Fault, writeFails: bool,
                         before: Atomic.State, after: Atomic.State, r: Result<Obj, Failure>) {
    var plan := Decide(op, Get(before.files, key));
    if plan.Finish? then
      after == before && r == Err(Refused(plan.reason))
    else if plan.Erase? && writeFails then
      after == before && r == Err(NotWritten)
    else if fault != NoFault then
      r == Err(NoVersion) && after == (if plan.Erase? then before.(files := before.files - {key}) else before)
    else if plan.Write? && writeFails then
      r == Err(NotWritten) && after == Atomic.Next(before, Atomic.OtherResource)
    else
      && after == Atomic.Next(before, Atomic.Request(key, op))
      && (r.Ok? ==> r.value == EventOf(key, Get(before.files, key), plan, after.rv).obj)
      && (r.Err? ==> r.error.NoAnswer? && !r.error.fate.Returns?)
  }

  ghost predicate PutBy(key: Key, cur: Option<Obj>, draft: Obj, fault: Fault, writeFails: bool,
                        before: Atomic.State, after: Atomic.State, r: Result<Obj, Failure>) {
    if fault != NoFault then r == Err(NoVersion) && after == before
    else if writeFails then r == Err(NotWritten) && after == Atomic.Next(before, Atomic.OtherResource)
    else
      && after == Atomic.Perform(before, key, cur, Write(draft))
      && (r == Ok(EventOf(key, cur, Write(draft), after.rv).obj) || r == Err(NoAnswer(Blocks)) || r == Err(NoAnswer(Panics)))
  }

  lemma PutAnswers(op: Op, key: Key, draft: Obj, fault: Fault, writeFails: bool,
                   before: Atomic.State, after: Atomic.State, r: Result<Obj, Failure>)
    requires Decide(op, Get(before.files, key)) == Write(draft)
    requires PutBy(key, Get(before.files, key), draft, fault, writeFails, before, after, r)
    ensures Answer(op, key, fault, writeFails, before, after, r)
  {
  }

  // A request that meets no fault.
  lemma Answered(op: Op, key: Key, before: Atomic.State, after: Atomic.State, r: Result<Obj, Failure>)
    requires var cur := Get(before.files, key);
             var plan := Decide(op, cur);
             && !plan.Finish? && after == Atomic.Perform(before, key, cur, plan)
             && (r == Ok(EventOf(key, cur, plan, after.rv).obj) || r == Err(NoAnswer(Blocks)) || r == Err(NoAnswer(Panics)))
    ensures Answer(op, key, NoFault, false, before, after, r)
  {
  }
}
