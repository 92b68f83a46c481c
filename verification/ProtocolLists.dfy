/** Lists in the storage protocol, read file by file between the steps of its threads, and
    watches from the version of a list. */
module ProtocolLists {
  import opened Decimal
  import opened Objects
  import opened Options
  import opened Protocol
  import opened ProtocolChain
  import opened ProtocolChannels
  import opened ProtocolLocks
  import opened ProtocolOrder
  import opened ProtocolPast
  import opened ProtocolStreams
  import opened ProtocolTheorems
  import opened ProtocolVersions
  import opened ProtocolView
  import opened Ring
  import Atomic

  // --- The lister ---

  // GetList. It takes no mutex but the counter's, to read the version, and changes nothing.
  datatype ListPC = ReadVersion | ReadRoot | Scanning

  datatype Lister = Lister(filter: Filter, lpc: ListPC, rv: nat, toList: set<string>, toRead: set<Key>, items: Files)

  datatype ListStep = TakeVersion | OpenRoot | OpenDir(ns: string) | ReadOne(key: Key)

  // A step of a lister, and in which state of a run it is taken.
  datatype Look = Look(at: nat, step: ListStep)

  predicate CanLook(s: State, x: Lister, step: ListStep) {
    match step
    case TakeVersion => x.lpc.ReadVersion? && s.locks.counter == None
    case OpenRoot => x.lpc.ReadRoot?
    case OpenDir(ns) => x.lpc.Scanning? && ns in x.toList
    case ReadOne(key) => x.lpc.Scanning? && key in x.toRead
  }

  function AfterLook(s: State, x: Lister, step: ListStep): Lister {
    match step
    case TakeVersion => x.(lpc := ReadRoot, rv := s.counter)
    case OpenRoot =>
      x.(lpc := Scanning, toList := RootDirs(s.disk.dirs, x.filter), toRead := RootFiles(s.disk.files, x.filter))
    case OpenDir(ns) => x.(toList := x.toList - {ns}, toRead := x.toRead + InDir(s.disk.files, ns))
    case ReadOne(key) =>
      x.(toRead := x.toRead - {key},
         items := if key in s.disk.files then x.items[key := s.disk.files[key]] else x.items)
  }

  function NewLister(filter: Filter): Lister {
    Lister(filter, ReadVersion, 0, {}, {}, map[])
  }

  ghost predicate Looks(states: seq<State>, looks: seq<Look>, xs: seq<Lister>, i: nat)
    requires i < |looks| && |xs| == |looks| + 1
  {
    && looks[i].at < |states| && CanLook(states[looks[i].at], xs[i], looks[i].step)
    && xs[i + 1] == AfterLook(states[looks[i].at], xs[i], looks[i].step)
  }

  // The steps of one list, in the states of a run.
  ghost predicate IsList(states: seq<State>, looks: seq<Look>, xs: seq<Lister>) {
    && |xs| == |looks| + 1 && xs[0] == NewLister(xs[0].filter)
    && (forall i :: 0 <= i < |looks| ==> Looks(states, looks, xs, i))
    && (forall i, j :: 0 <= i <= j < |looks| ==> looks[i].at <= looks[j].at)
  }

  predicate Finished(x: Lister) {
    x.lpc.Scanning? && x.toList == {} && x.toRead == {}
  }

  // The first step takes the version; nothing else does.
  lemma {:induction false} VersionTaken(states: seq<State>, looks: seq<Look>, xs: seq<Lister>, i: nat)
    requires IsList(states, looks, xs) && 0 < i <= |looks|
    ensures looks[0].step.TakeVersion? && looks[0].at < |states| && xs[i].rv == states[looks[0].at].counter
    ensures !xs[i].lpc.ReadVersion? && xs[i].filter == xs[0].filter && states[looks[0].at].locks.counter == None
    decreases i
  {
    if i > 1 { VersionTaken(states, looks, xs, i - 1); }
    assert Looks(states, looks, xs, i - 1) && Looks(states, looks, xs, 0);
  }

  predicate Dealt(x: Lister, k: Key) {
    x.lpc.Scanning? && k !in x.toRead && k.ns !in x.toList
  }

  // Nothing is to be read twice, and what is not dealt with is not among the items.
  ghost predicate ListerOk(x: Lister) {
    && (!x.lpc.Scanning? ==> x.items == map[] && x.toList == {} && x.toRead == {})
    && (x.filter.Exactly? ==> x.toList == {})
    && (forall k :: k in x.toRead ==> k.ns !in x.toList && Listable(x.filter, k))
    && (forall k :: k in x.items ==> Dealt(x, k) && Listable(x.filter, k))
  }

  lemma {:induction false} RunListerOk(states: seq<State>, labels: seq<Label>, looks: seq<Look>, xs: seq<Lister>, i: nat)
    requires IsRun(states, labels) && IsList(states, looks, xs) && i < |xs|
    ensures ListerOk(xs[i])
    decreases i
  {
    if i > 0 {
      RunListerOk(states, labels, looks, xs, i - 1);
      assert Looks(states, looks, xs, i - 1);
      RunInv(states, labels, looks[i - 1].at);
      LookKeepsOk(states[looks[i - 1].at], xs[i - 1], looks[i - 1].step);
    }
  }

  lemma LookKeepsOk(s: State, x: Lister, step: ListStep)
    requires Dirs(s) && ListerOk(x) && CanLook(s, x, step)
    ensures ListerOk(AfterLook(s, x, step))
  {
  }

  lemma NotYet(states: seq<State>, looks: seq<Look>, xs: seq<Lister>, i: nat)
    requires IsList(states, looks, xs) && i < |xs|
    ensures i <= 1 ==> !xs[i].lpc.Scanning?
  {
    if i == 1 {
      VersionTaken(states, looks, xs, 1);
      assert Looks(states, looks, xs, 0);
    }
  }

  // A key that the list is through with has the content its file had at one of the steps.
  lemma {:induction false} LookedAt(states: seq<State>, labels: seq<Label>, looks: seq<Look>, xs: seq<Lister>, i: nat, k: Key)
    returns (j: nat)
    requires IsRun(states, labels) && IsList(states, looks, xs) && i < |xs|
    requires Matches(xs[0].filter, k) && Listable(xs[0].filter, k) && Dealt(xs[i], k)
    ensures 0 < j < i && Looks(states, looks, xs, j) && Get(xs[i].items, k) == Get(states[looks[j].at].disk.files, k)
    decreases i
  {
    NotYet(states, looks, xs, i);
    VersionTaken(states, looks, xs, i - 1);
    RunListerOk(states, labels, looks, xs, i - 1);
    assert Looks(states, looks, xs, i - 1);
    if Dealt(xs[i - 1], k) {
      j := LookedAt(states, labels, looks, xs, i - 1, k);
      StillDealt(states[looks[i - 1].at], xs[i - 1], looks[i - 1].step, k);
    } else {
      j := i - 1;
      RunInv(states, labels, looks[j].at);
      DealtNow(states[looks[j].at], xs[j], looks[j].step, k);
    }
  }

  lemma StillDealt(s: State, x: Lister, step: ListStep, k: Key)
    requires ListerOk(x) && CanLook(s, x, step) && Dealt(x, k)
    ensures Get(AfterLook(s, x, step).items, k) == Get(x.items, k)
  {
  }

  lemma DealtNow(s: State, x: Lister, step: ListStep, k: Key)
    requires Dirs(s) && ListerOk(x) && CanLook(s, x, step) && !x.lpc.ReadVersion?
    requires Matches(x.filter, k) && Listable(x.filter, k) && !Dealt(x, k) && Dealt(AfterLook(s, x, step), k)
    ensures Get(AfterLook(s, x, step).items, k) == Get(s.disk.files, k)
  {
    if step.OpenRoot? { ListedAll(s, x.filter, k); }
  }

  // --- A list, then a watch from its version ---

  // A watch that begins in state m is still subscribed in state n and not being stopped; the
  // process has not crashed in between, and no publisher has panicked before it came to it.
  ghost predicate Watched(states: seq<State>, labels: seq<Label>, m: nat, n: nat) {
    && IsRun(states, labels) && m < n < |states| && Uncrashed(labels, m, n) && Begins(states[m], labels[m])
    && (var w := FeedOf(states[m], labels[m]).w;
        && (forall i :: m < i < n ==> !Loses(states[i], labels[i], w))
        && w in states[n].hub.channels && w in states[n].hub.subs && !states[n].hub.channels[w].stopClosed)
  }

  // The list is finished, the watch has its version and its filter, and began later.
  ghost predicate ListedThenWatched(states: seq<State>, labels: seq<Label>, looks: seq<Look>, xs: seq<Lister>, m: nat, n: nat) {
    && Watched(states, labels, m, n) && IsList(states, looks, xs) && |looks| > 0 && Finished(xs[|looks|])
    && looks[|looks| - 1].at <= m && Uncrashed(labels, looks[0].at, n)
    && StartOf(states[m], labels[m]) == xs[|looks|].rv && FeedOf(states[m], labels[m]).filter == xs[0].filter
  }

  // No change of the key is on its way to the watch.
  ghost predicate Settled(s: State, w: WatchId, k: Key) {
    Holder(s, k).Some? ==> !Changed(Holder(s, k).value) && !Awaits(Holder(s, k).value, w)
  }

  // The last event of the key was published before the watch began, and by that time evicted
  // from the ring, or is not above the version.
  predicate Overlooked(was: State, now: State, r: nat, k: Key) {
    LeftOut(was.hub.ring, |Announced(was.past.log)|, Announced(now.past.log), r, k)
  }

  predicate LeftOut(ring: seq<Event>, before: nat, all: seq<Event>, r: nat, k: Key) {
    && LastEvent(all, k).Some? && before <= |all| && LastEvent(all[before..], k).None?
    && (LastEvent(ring, k).None? || LastEvent(all, k).value.rv <= r)
  }

  // A copy from before the event.
  predicate Older(item: Option<Obj>, ev: Event) {
    if ev.etype.Deleted? then item.Some? else item.None? || item.value.rv < ev.rv
  }

  lemma {:induction false} AnnouncedPrefix(log: seq<Entry>, log': seq<Entry>)
    requires log <= log'
    ensures Announced(log) <= Announced(log')
    decreases |log'|
  {
    if |log| < |log'| {
      var n := |log'| - 1;
      AnnouncedPrefix(log, log'[..n]);
      AnnouncedAppend(log'[..n], log'[n]);
      assert log' == log'[..n] + [log'[n]];
    } else {
      assert log' == log;
    }
  }

  // What is on its way to the watch is not about a settled key.
  lemma UpcomingElse(s: State, w: WatchId, filter: Filter, item: Option<Obj>, k: Key)
    requires Inv(s) && w in s.hub.channels && Settled(s, w, k)
    ensures ViewAt(item, s.hub.channels[w].sent + Upcoming(s, w, filter), k) == ViewAt(item, s.hub.channels[w].sent, k)
  {
    var sent, next := s.hub.channels[w].sent, Upcoming(s, w, filter);
    if next == [] {
      assert sent + next == sent;
    } else {
      var t := s.locks.ring.value;
      assert HoldsKey(s.threads[t]) && Holder(s, s.threads[t].key) == Some(s.threads[t]);
      ViewAppend(item, sent, next[0], k);
      assert sent + next == sent + [next[0]];
    }
  }

  // Events that ascend for the key, told from a version and then live.
  lemma FoldFeed(item: Option<Obj>, ring: seq<Event>, later: seq<Event>, r: nat, filter: Filter, k: Key)
    requires Matches(filter, k) && KeyAscends(ring, k)
    ensures ViewAt(item, Select(Above(ring, r), filter) + Select(later, filter), k)
         == if LastEvent(later, k).Some? then Outcome(LastEvent(later, k).value)
            else if LastEvent(ring, k).Some? && LastEvent(ring, k).value.rv > r then Outcome(LastEvent(ring, k).value)
            else item
  {
    LastAbove(ring, k, r);
    ViewConcat(item, Select(Above(ring, r), filter), Select(later, filter), k);
    ViewOfEvents(item, Above(ring, r), filter, k);
    ViewOfEvents(ViewAt(item, Select(Above(ring, r), filter), k), later, filter, k);
  }

  lemma FoldAll(item: Option<Obj>, ring: seq<Event>, before: seq<Event>, all: seq<Event>, r: nat, filter: Filter, k: Key)
    requires Matches(filter, k) && KeyAscends(ring, k) && before <= all
    requires |ring| <= |before| && ring == before[|before| - |ring|..]
    ensures ViewAt(item, Select(Above(ring, r), filter) + Select(all[|before|..], filter), k)
         == if LastEvent(all, k).None? || LeftOut(ring, |before|, all, r, k) then item else Outcome(LastEvent(all, k).value)
  {
    var gone, later := before[..|before| - |ring|], all[|before|..];
    assert before == gone + ring && all == gone + ring + later;
    FoldFeed(item, ring, later, r, filter, k);
    LastOfBoth(gone + ring, later, k);
    LastOfBoth(gone, ring, k);
  }

  // What a client makes of the list and the watch.
  lemma ViewFed(was: State, now: State, l: Label, item: Option<Obj>, k: Key)
    requires Inv(was) && Inv(now) && LogGrows(was, now) && Begins(was, l)
    requires Fed(now, FeedOf(was, l)) && Matches(FeedOf(was, l).filter, k)
    requires var w := FeedOf(was, l).w; w in now.hub.subs && !now.hub.channels[w].stopClosed && Settled(now, w, k)
    ensures var all := Announced(now.past.log);
      ViewAt(item, now.hub.channels[FeedOf(was, l).w].sent, k)
      == if LastEvent(all, k).None? || Overlooked(was, now, StartOf(was, l), k) then item else Outcome(LastEvent(all, k).value)
  {
    AnnouncedPrefix(was.past.log, now.past.log);
    RingAscends(was, k);
    var f := FeedOf(was, l);
    UpcomingElse(now, f.w, f.filter, item, k);
    FoldAll(item, was.hub.ring, Announced(was.past.log), Announced(now.past.log), StartOf(was, l), f.filter, k);
  }

  lemma RingAscends(s: State, k: Key)
    requires Ordered(s.past.log) && RingOk(s)
    ensures KeyAscends(s.hub.ring, k) && |s.hub.ring| <= |Announced(s.past.log)|
    ensures s.hub.ring == Announced(s.past.log)[|Announced(s.past.log)| - |s.hub.ring|..]
  {
    LogAscends(s, k);
    RestAscends(Announced(s.past.log), |Announced(s.past.log)| - |s.hub.ring|, k);
  }

  lemma RestAscends(events: seq<Event>, d: nat, k: Key)
    requires KeyAscends(events, k) && d <= |events|
    ensures KeyAscends(events[d..], k)
  {
    var rest := events[d..];
    forall i, j | 0 <= i < j < |rest| && rest[i].key == k && rest[j].key == k ensures rest[i].rv < rest[j].rv {
      assert rest[i] == events[d + i] && rest[j] == events[d + j];
    }
  }

  function StartOf(s: State, l: Label): nat
    requires Begins(s, l)
  {
    s.hub.channels[s.threads[l.t].w].startRV
  }

  lemma EventStamped(log: seq<Entry>, base: Files, i: nat)
    requires ChainOk(log, base) && i < |log| && log[i].Published?
    ensures log[i].ev.obj.rv == log[i].ev.rv
  {
    ChainAt(log, base, i);
  }

  // A copy that stems from the past of the key is what its last event left exactly when it is
  // not older than that.
  lemma OlderIff(s: State, k: Key, item: Option<Obj>)
    requires Inv(s) && BaseOlder(s) && LastEvent(Announced(s.past.log), k).Some?
    requires item.Some? ==> Stems(s.past.log, s.past.base, k, item.value)
    ensures item == Outcome(LastEvent(Announced(s.past.log), k).value) <==> !Older(item, LastEvent(Announced(s.past.log), k).value)
  {
    var log := s.past.log;
    var last := LastInLog(log, k);
    EventStamped(log, s.past.base, last);
    if item.Some? && Get(s.past.base, k) == item {
      assert NewAbove(s, 0, s.past.base[k].rv);
    } else if item.Some? {
      var i :| 0 <= i < |log| && Wrote(log[i], k, item.value);
      EventStamped(log, s.past.base, i);
      assert i <= last;
      assert i < last ==> log[i].ev.rv < log[last].ev.rv;
    }
  }

  // What a list shows of a key stems from its past.
  lemma ListedStems(states: seq<State>, labels: seq<Label>, looks: seq<Look>, xs: seq<Lister>, n: nat, k: Key)
    requires IsRun(states, labels) && IsList(states, looks, xs) && |looks| > 0 && Finished(xs[|looks|])
    requires looks[|looks| - 1].at <= n < |states| && Uncrashed(labels, looks[0].at, n) && Matches(xs[0].filter, k)
    requires Holder(states[n], k).Some? ==> !Changed(Holder(states[n], k).value)
    requires k in xs[|looks|].items
    ensures Stems(states[n].past.log, states[n].past.base, k, xs[|looks|].items[k])
  {
    RunListerOk(states, labels, looks, xs, |looks|);
    VersionTaken(states, looks, xs, |looks|);
    var j := LookedAt(states, labels, looks, xs, |looks|, k);
    var at := looks[j].at;
    RunInv(states, labels, at);
    FileStems(states[at], k);
    WillStemThrough(states, labels, at, n, k, xs[|looks|].items[k]);
  }

  // Of a key that no event is about, a list that looks at it shows the file.
  lemma ListedUntouched(states: seq<State>, labels: seq<Label>, looks: seq<Look>, xs: seq<Lister>, n: nat, k: Key)
    requires IsRun(states, labels) && IsList(states, looks, xs) && |looks| > 0 && Finished(xs[|looks|])
    requires looks[|looks| - 1].at <= n < |states| && Uncrashed(labels, looks[0].at, n)
    requires Matches(xs[0].filter, k) && Listable(xs[0].filter, k)
    requires Holder(states[n], k).Some? ==> !Changed(Holder(states[n], k).value)
    requires forall i :: 0 <= i < |states[n].past.log| ==> EntryKey(states[n].past.log[i]) != k
    ensures Get(xs[|looks|].items, k) == Get(states[n].past.base, k)
  {
    VersionTaken(states, looks, xs, |looks|);
    var j := LookedAt(states, labels, looks, xs, |looks|, k);
    var at := looks[j].at;
    RunInv(states, labels, at);
    LogThrough(states, labels, at, n);
    assert KeyAgrees(states[at], k);
    if Holder(states[at], k).Some? && Changed(Holder(states[at], k).value) {
      EntersThrough(states, labels, at, n, k);
    }
    forall i | 0 <= i < |states[at].past.log| ensures EntryKey(states[at].past.log[i]) != k {
      assert states[at].past.log[i] == states[n].past.log[i];
    }
    Untouched(states[at].past.log, states[at].past.base, k);
  }

  lemma {:induction false} Untouched(log: seq<Entry>, base: Files, k: Key)
    requires forall i :: 0 <= i < |log| ==> EntryKey(log[i]) != k
    ensures Latest(log, base, k) == Get(base, k) && !Lost(log, k)
  {
    if log != [] {
      Untouched(log[..|log| - 1], base, k);
    }
  }

  lemma {:induction false} NoEntry(log: seq<Entry>, k: Key)
    requires LastEvent(Announced(log), k).None? && !Lost(log, k)
    ensures forall i :: 0 <= i < |log| ==> EntryKey(log[i]) != k
  {
    if log != [] {
      var n := |log| - 1;
      AnnouncedAppend(log[..n], log[n]);
      assert log == log[..n] + [log[n]];
      var before := Announced(log[..n]);
      if log[n].Published? {
        assert (before + [log[n].ev])[..|before|] == before;
      } else {
        assert before + [] == before;
      }
      NoEntry(log[..n], k);
    }
  }

  // A client with some copy of a settled key resumes watching. It ends up with the file if and
  // only if not both are behind: the last event of the key was published before the watch
  // began and by then evicted or not above its start, and the copy is older than it. Of a key
  // without events, if and only if the copy is what was there at the last start.
  lemma ResumedIff(states: seq<State>, labels: seq<Label>, m: nat, n: nat, copy: Option<Obj>, k: Key)
    requires Watched(states, labels, m, n) && Matches(FeedOf(states[m], labels[m]).filter, k)
    requires copy.Some? ==> Stems(states[n].past.log, states[n].past.base, k, copy.value)
    requires Settled(states[n], FeedOf(states[m], labels[m]).w, k) && !Lost(states[n].past.log, k)
    ensures var last := LastEvent(Announced(states[n].past.log), k);
      (ViewAt(copy, states[n].hub.channels[FeedOf(states[m], labels[m]).w].sent, k) == Get(states[n].disk.files, k)) <==>
      (if last.Some? then !(Overlooked(states[m], states[n], StartOf(states[m], labels[m]), k) && Older(copy, last.value))
       else copy == Get(states[n].past.base, k))
    ensures LastEvent(Announced(states[n].past.log), k).None? ==> Get(states[n].disk.files, k) == Get(states[n].past.base, k)
  {
    var s := states[n];
    RunInv(states, labels, m);
    RunInv(states, labels, n);
    RunBaseOlder(states, labels, n);
    LogThrough(states, labels, m, n);
    WatchIsSent(states, labels, m, n);
    ViewFed(states[m], s, labels[m], copy, k);
    assert KeyAgrees(s, k);
    LatestIsLast(s.past.log, s.past.base, k);
    if LastEvent(Announced(s.past.log), k).Some? { OlderIff(s, k, copy); }
  }

  // A list read file by file between the steps of the writers, and a watch from its version,
  // give the file of a settled key if and only if not both are behind: the last event of the
  // key was published before the watch began and by then evicted or not above the version,
  // and the copy in the list is older than it. Of a key without events, if and only if the
  // list looks at it or there is no file.
  lemma ListThenWatchIff(states: seq<State>, labels: seq<Label>, looks: seq<Look>, xs: seq<Lister>, m: nat, n: nat, k: Key)
    requires ListedThenWatched(states, labels, looks, xs, m, n) && Matches(xs[0].filter, k)
    requires Settled(states[n], FeedOf(states[m], labels[m]).w, k) && !Lost(states[n].past.log, k)
    ensures var item, last := Get(xs[|looks|].items, k), LastEvent(Announced(states[n].past.log), k);
      (ViewAt(item, states[n].hub.channels[FeedOf(states[m], labels[m]).w].sent, k) == Get(states[n].disk.files, k)) <==>
      (if last.Some? then !(Overlooked(states[m], states[n], xs[|looks|].rv, k) && Older(item, last.value))
       else Listable(xs[0].filter, k) || k !in states[n].disk.files)
  {
    var log, item := states[n].past.log, Get(xs[|looks|].items, k);
    if item.Some? { ListedStems(states, labels, looks, xs, n, k); }
    ResumedIff(states, labels, m, n, item, k);
    if LastEvent(Announced(log), k).None? {
      NoEntry(log, k);
      if Listable(xs[0].filter, k) {
        ListedUntouched(states, labels, looks, xs, n, k);
      } else {
        RunListerOk(states, labels, looks, xs, |looks|);
        VersionTaken(states, looks, xs, |looks|);
      }
    }
  }

  // --- When that is sure to work ---

  // No request has a version that it has not announced.
  predicate NonePending(s: State) {
    forall t :: t in s.threads ==> !Pending(s.threads[t])
  }

  // Whatever was evicted from the ring is older than what is first in it.
  predicate EvictedInOrder(s: State) {
    s.hub.ring != [] ==>
      forall i :: 0 <= i < |Announced(s.past.log)| - |s.hub.ring| ==> Announced(s.past.log)[i].rv < s.hub.ring[0].rv
  }

  lemma {:induction false} LatestAt(log: seq<Entry>, base: Files, k: Key, e: nat)
    requires e < |log| && EntryKey(log[e]) == k && forall i :: e < i < |log| ==> EntryKey(log[i]) != k
    ensures Latest(log, base, k) == EntryAfter(log[e]) && (Lost(log, k) <==> log[e].LostRemoval?)
  {
    var n := |log| - 1;
    if e < n {
      LatestAt(log[..n], base, k, e);
    }
  }

  // The last change of a key is its last event, unless it was a removal without a version.
  lemma {:induction false} LastChange(log: seq<Entry>, k: Key, e: nat)
    requires !Lost(log, k) && e < |log| && EntryKey(log[e]) == k
    requires forall i :: e < i < |log| && log[i].Published? ==> log[i].ev.key != k
    ensures forall i :: e < i < |log| ==> EntryKey(log[i]) != k
  {
    var n := |log| - 1;
    if e < n {
      LastChange(log[..n], k, e);
    }
  }

  // Of a key whose last event was published before the list began, the list has the outcome.
  lemma ListHasLast(states: seq<State>, labels: seq<Label>, looks: seq<Look>, xs: seq<Lister>, n: nat, k: Key, e: nat)
    requires IsRun(states, labels) && IsList(states, looks, xs) && |looks| > 0 && Finished(xs[|looks|])
    requires looks[|looks| - 1].at <= n < |states| && Uncrashed(labels, looks[0].at, n)
    requires Matches(xs[0].filter, k) && Listable(xs[0].filter, k)
    requires Holder(states[n], k).Some? ==> !Changed(Holder(states[n], k).value)
    requires var log := states[n].past.log;
      && e < |log| && log[e].Published? && log[e].ev.key == k && (forall i :: e < i < |log| ==> EntryKey(log[i]) != k)
    requires looks[0].at < |states| && e < |states[looks[0].at].past.log|
    ensures Get(xs[|looks|].items, k) == Outcome(states[n].past.log[e].ev)
  {
    VersionTaken(states, looks, xs, |looks|);
    var j := LookedAt(states, labels, looks, xs, |looks|, k);
    var at := looks[j].at;
    assert looks[0].at <= at;
    LogThrough(states, labels, looks[0].at, at);
    LogThrough(states, labels, at, n);
    RunInv(states, labels, at);
    var log := states[at].past.log;
    if Holder(states[at], k).Some? && Changed(Holder(states[at], k).value) {
      EntersThrough(states, labels, at, n, k);
    }
    assert forall i :: 0 <= i < |log| ==> log[i] == states[n].past.log[i];
    LatestAt(log, states[at].past.base, k, e);
    assert KeyAgrees(states[at], k);
  }

  // With no version in flight when the list begins, later events are newer than the list.
  lemma LaterIsNewer(states: seq<State>, labels: seq<Label>, i: nat, n: nat)
    requires IsRun(states, labels) && i <= n < |states| && Uncrashed(labels, i, n)
    requires NonePending(states[i]) && states[i].locks.counter == None
    ensures NewAbove(states[n], |states[i].past.log|, states[i].counter)
  {
    RunInv(states, labels, i);
    forall t | t in states[i].threads && states[i].threads[t].Writer? ensures !states[i].threads[t].pc.Persist? {
      assert !HoldsCounter(states[i].threads[t]);
    }
    NewAboveThrough(states, labels, i, n, |states[i].past.log|, states[i].counter);
  }

  // An event that is left out and not in the ring has been evicted.
  lemma EvictedEvent(ring: seq<Event>, before: seq<Event>, all: seq<Event>, r: nat, k: Key) returns (q: nat)
    requires before <= all && |ring| <= |before| && ring == before[|before| - |ring|..]
    requires LeftOut(ring, |before|, all, r, k) && LastEvent(ring, k).None?
    ensures q < |before| - |ring| && before[q] == LastEvent(all, k).value
  {
    assert all == before + all[|before|..];
    LastOfBoth(before, all[|before|..], k);
    q := LastIsOne(before, k);
    if q >= |before| - |ring| {
      NoneOf(ring, k, q - (|before| - |ring|));
    }
  }

  // A watch that is accepted finds all events above its start in the ring, if those that were
  // evicted went in order.
  lemma NoneEvicted(was: State, all: seq<Event>, l: Label, k: Key)
    requires RingOk(was) && CurrentOk(was) && Begins(was, l) && EvictedInOrder(was) && was.hub.capacity > 0
    requires Announced(was.past.log) <= all && LeftOut(was.hub.ring, |Announced(was.past.log)|, all, StartOf(was, l), k)
    ensures LastEvent(all, k).value.rv <= StartOf(was, l)
  {
    if LastEvent(was.hub.ring, k).None? {
      var q := EvictedEvent(was.hub.ring, Announced(was.past.log), all, StartOf(was, l), k);
      var i := AnnouncedFrom(was.past.log, q);
      assert HasRead(was.threads[l.t]);
    }
  }

  lemma {:induction false} NoneOf(events: seq<Event>, k: Key, p: nat)
    requires LastEvent(events, k).None? && p < |events|
    ensures events[p].key != k
  {
    if p < |events| - 1 {
      NoneOf(events[..|events| - 1], k, p);
    }
  }

  // Whatever is written while the list is read and before the watch begins: if no request had
  // a version in flight when the list read its version, and the ring has evicted in order,
  // then list and watch together give the file of every settled key the list looks at.
  lemma ListThenWatchWorks(states: seq<State>, labels: seq<Label>, looks: seq<Look>, xs: seq<Lister>, m: nat, n: nat, k: Key)
    requires ListedThenWatched(states, labels, looks, xs, m, n) && Matches(xs[0].filter, k) && Listable(xs[0].filter, k)
    requires Settled(states[n], FeedOf(states[m], labels[m]).w, k) && !Lost(states[n].past.log, k)
    requires looks[0].at < |states| && NonePending(states[looks[0].at])
    requires EvictedInOrder(states[m]) && states[m].hub.capacity > 0
    ensures ViewAt(Get(xs[|looks|].items, k), states[n].hub.channels[FeedOf(states[m], labels[m]).w].sent, k)
         == Get(states[n].disk.files, k)
  {
    ListThenWatchIff(states, labels, looks, xs, m, n, k);
    var log := states[n].past.log;
    if LastEvent(Announced(log), k).Some? && Overlooked(states[m], states[n], xs[|looks|].rv, k) {
      VersionTaken(states, looks, xs, |looks|);
      assert looks[0].at <= looks[|looks| - 1].at;
      var e := LastInWindow(states, labels, looks[0].at, m, n, k);
      ListHasLast(states, labels, looks, xs, n, k, e);
      RunInv(states, labels, n);
      RunBaseOlder(states, labels, n);
      if k in xs[|looks|].items { ListedStems(states, labels, looks, xs, n, k); }
      OlderIff(states[n], k, Get(xs[|looks|].items, k));
    }
  }

  // --- Reconnection ---

  // What a client has of a key after part of what a watch was sent stems from the key's past.
  lemma {:induction false} SentStems(item: Option<Obj>, sent: seq<Signal>, n: nat, log: seq<Entry>, base: Files, k: Key)
    requires n <= |sent| && (item.Some? ==> Stems(log, base, k, item.value))
    requires forall i :: 0 <= i < |sent| ==> sent[i].Change? && IsEvent(log, sent[i].ev)
    ensures var copy := ViewAt(item, sent[..n], k); copy.Some? ==> Stems(log, base, k, copy.value)
  {
    if n > 0 {
      SentStems(item, sent, n - 1, log, base, k);
      assert sent[..n][..n - 1] == sent[..n - 1];
      var sig := sent[n - 1];
      if sig.ev.key == k && Outcome(sig.ev).Some? {
        var i :| 0 <= i < |log| && log[i].Published? && log[i].ev == sig.ev;
        assert Wrote(log[i], k, Outcome(sig.ev).value);
      }
    }
  }

  ghost predicate IsEvent(log: seq<Entry>, ev: Event) {
    exists i :: 0 <= i < |log| && log[i].Published? && log[i].ev == ev
  }

  ghost predicate OnlyEvents(signals: seq<Signal>, log: seq<Entry>) {
    forall i :: 0 <= i < |signals| ==> signals[i].Change? && IsEvent(log, signals[i].ev)
  }

  lemma {:induction false} SelectedEvents(events: seq<Event>, filter: Filter, log: seq<Entry>)
    requires forall i :: 0 <= i < |events| ==> IsEvent(log, events[i])
    ensures OnlyEvents(Select(events, filter), log)
  {
    if events != [] {
      SelectedEvents(events[..|events| - 1], filter, log);
    }
  }

  lemma {:induction false} AboveEvents(events: seq<Event>, r: nat, log: seq<Entry>)
    requires forall i :: 0 <= i < |events| ==> IsEvent(log, events[i])
    ensures forall i :: 0 <= i < |Above(events, r)| ==> IsEvent(log, Above(events, r)[i])
  {
    if events != [] {
      AboveEvents(events[..|events| - 1], r, log);
    }
  }

  lemma AnnouncedEvents(log: seq<Entry>)
    ensures forall i :: 0 <= i < |Announced(log)| ==> IsEvent(log, Announced(log)[i])
  {
    forall i | 0 <= i < |Announced(log)| ensures IsEvent(log, Announced(log)[i]) {
      var j := AnnouncedFrom(log, i);
    }
  }

  lemma FeedEvents(ring: seq<Event>, before: seq<Event>, r: nat, filter: Filter, log: seq<Entry>)
    requires before <= Announced(log) && |ring| <= |before| && ring == before[|before| - |ring|..]
    ensures OnlyEvents(Select(Above(ring, r), filter) + Select(Announced(log)[|before|..], filter), log)
  {
    var all, d := Announced(log), |before| - |ring|;
    AnnouncedEvents(log);
    assert forall i :: 0 <= i < |ring| ==> ring[i] == all[d + i];
    AboveEvents(ring, r, log);
    SelectedEvents(Above(ring, r), filter, log);
    SelectedEvents(all[|before|..], filter, log);
  }

  lemma OnlyFirst(sent: seq<Signal>, next: seq<Signal>, whole: seq<Signal>, log: seq<Entry>)
    requires sent + next == whole && OnlyEvents(whole, log)
    ensures OnlyEvents(sent, log)
  {
    forall i | 0 <= i < |sent| ensures sent[i].Change? && IsEvent(log, sent[i].ev) {
      assert sent[i] == whole[i];
    }
  }

  // A watch from a version above 0 is sent nothing but published events.
  lemma SentEvents(was: State, now: State, l: Label)
    requires Ordered(was.past.log) && RingOk(was) && LogGrows(was, now) && Begins(was, l) && Fed(now, FeedOf(was, l))
    requires var w := FeedOf(was, l).w; w in now.hub.subs && !now.hub.channels[w].stopClosed
    ensures OnlyEvents(now.hub.channels[FeedOf(was, l).w].sent, now.past.log)
  {
    var f, log := FeedOf(was, l), now.past.log;
    AnnouncedPrefix(was.past.log, log);
    RingAscends(was, Key("", ""));
    FeedEvents(was.hub.ring, Announced(was.past.log), StartOf(was, l), f.filter, log);
    OnlyFirst(now.hub.channels[f.w].sent, Upcoming(now, f.w, f.filter), f.start + EventsSince(now, f), log);
  }

  // A watch is cut in state c, when the client has received some of what it was sent, and the
  // client watches again from any version. It ends up right under the same condition.
  lemma ReconnectIff(states: seq<State>, labels: seq<Label>, first: nat, c: nat, m: nat, n: nat,
                     item: Option<Obj>, received: nat, k: Key)
    requires Watched(states, labels, first, c) && Watched(states, labels, m, n) && c <= m && Uncrashed(labels, first, n)
    requires Matches(FeedOf(states[m], labels[m]).filter, k)
    requires item.Some? ==> Stems(states[first].past.log, states[first].past.base, k, item.value)
    requires received <= |states[c].hub.channels[FeedOf(states[first], labels[first]).w].sent|
    requires Settled(states[n], FeedOf(states[m], labels[m]).w, k) && !Lost(states[n].past.log, k)
    ensures var last := LastEvent(Announced(states[n].past.log), k);
      var copy := ViewAt(item, states[c].hub.channels[FeedOf(states[first], labels[first]).w].sent[..received], k);
      (ViewAt(copy, states[n].hub.channels[FeedOf(states[m], labels[m]).w].sent, k) == Get(states[n].disk.files, k)) <==>
      (if last.Some? then !(Overlooked(states[m], states[n], StartOf(states[m], labels[m]), k) && Older(copy, last.value))
       else copy == Get(states[n].past.base, k))
  {
    var sent := states[c].hub.channels[FeedOf(states[first], labels[first]).w].sent;
    RunInv(states, labels, first);
    RunInv(states, labels, c);
    LogThrough(states, labels, first, c);
    LogThrough(states, labels, c, n);
    WatchIsSent(states, labels, first, c);
    SentEvents(states[first], states[c], labels[first]);
    var copy := ViewAt(item, sent[..received], k);
    if item.Some? { StemsOn(states[first].past.log, states[c].past.log, states[c].past.base, k, item.value); }
    SentStems(item, sent, received, states[c].past.log, states[c].past.base, k);
    if copy.Some? { StemsOn(states[c].past.log, states[n].past.log, states[n].past.base, k, copy.value); }
    ResumedIff(states, labels, m, n, copy, k);
  }

  // A client that is right about a key in a state with no version in flight, and watches again
  // from a version not above the counter then, is right again, if the ring has evicted in order.
  lemma ReconnectWorks(states: seq<State>, labels: seq<Label>, c: nat, m: nat, n: nat, copy: Option<Obj>, k: Key)
    requires Watched(states, labels, m, n) && c <= m && Uncrashed(labels, c, n)
    requires Matches(FeedOf(states[m], labels[m]).filter, k)
    requires copy == Get(states[c].disk.files, k) && (Holder(states[c], k).Some? ==> !Changed(Holder(states[c], k).value))
    requires NonePending(states[c]) && states[c].locks.counter == None && StartOf(states[m], labels[m]) <= states[c].counter
    requires EvictedInOrder(states[m]) && states[m].hub.capacity > 0
    requires Settled(states[n], FeedOf(states[m], labels[m]).w, k) && !Lost(states[n].past.log, k)
    ensures ViewAt(copy, states[n].hub.channels[FeedOf(states[m], labels[m]).w].sent, k) == Get(states[n].disk.files, k)
  {
    var early, log := states[c].past.log, states[n].past.log;
    RunInv(states, labels, c);
    LogThrough(states, labels, c, n);
    assert KeyAgrees(states[c], k);
    if copy.Some? {
      LatestStems(early, states[c].past.base, k, copy.value);
      StemsOn(early, log, states[c].past.base, k, copy.value);
    }
    ResumedIff(states, labels, m, n, copy, k);
    assert forall i :: 0 <= i < |early| ==> early[i] == log[i];
    if LastEvent(Announced(log), k).None? {
      NoEntry(log, k);
      Untouched(early, states[c].past.base, k);
    } else if Overlooked(states[m], states[n], StartOf(states[m], labels[m]), k) {
      var e := LastInWindow(states, labels, c, m, n, k);
      LatestAt(early, states[c].past.base, k, e);
      RunInv(states, labels, n);
      RunBaseOlder(states, labels, n);
      OlderIff(states[n], k, copy);
    }
  }

  // An overlooked event was published before the state with no version in flight.
  lemma LastInWindow(states: seq<State>, labels: seq<Label>, c: nat, m: nat, n: nat, k: Key) returns (e: nat)
    requires Watched(states, labels, m, n) && c <= m && Uncrashed(labels, c, n) && !Lost(states[n].past.log, k)
    requires NonePending(states[c]) && states[c].locks.counter == None && StartOf(states[m], labels[m]) <= states[c].counter
    requires EvictedInOrder(states[m]) && states[m].hub.capacity > 0
    requires Overlooked(states[m], states[n], StartOf(states[m], labels[m]), k)
    ensures var log := states[n].past.log;
      && e < |states[c].past.log| <= |log| && log[e].Published? && log[e].ev.key == k
      && log[e].ev == LastEvent(Announced(log), k).value && (forall i :: e < i < |log| ==> EntryKey(log[i]) != k)
  {
    var log := states[n].past.log;
    RunInv(states, labels, m);
    RunCurrent(states, labels, m);
    LogThrough(states, labels, m, n);
    LogThrough(states, labels, c, n);
    AnnouncedPrefix(states[m].past.log, log);
    NoneEvicted(states[m], Announced(log), labels[m], k);
    LaterIsNewer(states, labels, c, n);
    e := LastInLog(log, k);
    LastChange(log, k, e);
  }

  // --- A removal without a version ---

  // It follows a write.
  lemma {:induction false} LostAfterWrite(log: seq<Entry>, base: Files, k: Key)
    requires ChainOk(log, base) && Lost(log, k)
    ensures Latest(log, base, k) == None
    ensures LastEvent(Announced(log), k).Some? ==> Outcome(LastEvent(Announced(log), k).value).Some?
  {
    var n := |log| - 1;
    AnnouncedAppend(log[..n], log[n]);
    assert log == log[..n] + [log[n]];
    var before := Announced(log[..n]);
    if log[n].Published? {
      assert (before + [log[n].ev])[..|before|] == before;
    } else {
      assert before + [] == before;
    }
    if EntryKey(log[n]) != k {
      LostAfterWrite(log[..n], base, k);
    } else if Lost(log[..n], k) {
      LostAfterWrite(log[..n], base, k);
    } else {
      LatestIsLast(log[..n], base, k);
    }
  }

  // After one, list and watch are right about the key exactly when neither showed the object.
  lemma LostListThenWatch(states: seq<State>, labels: seq<Label>, looks: seq<Look>, xs: seq<Lister>, m: nat, n: nat, k: Key)
    requires ListedThenWatched(states, labels, looks, xs, m, n) && Matches(xs[0].filter, k)
    requires Settled(states[n], FeedOf(states[m], labels[m]).w, k) && Lost(states[n].past.log, k)
    ensures var item := Get(xs[|looks|].items, k);
      (ViewAt(item, states[n].hub.channels[FeedOf(states[m], labels[m]).w].sent, k) == Get(states[n].disk.files, k)) <==>
      (k !in xs[|looks|].items
       && (LastEvent(Announced(states[n].past.log), k).None? || Overlooked(states[m], states[n], xs[|looks|].rv, k)))
  {
    RunInv(states, labels, m);
    RunInv(states, labels, n);
    LogThrough(states, labels, m, n);
    WatchIsSent(states, labels, m, n);
    ViewFed(states[m], states[n], labels[m], Get(xs[|looks|].items, k), k);
    assert KeyAgrees(states[n], k);
    LostAfterWrite(states[n].past.log, states[n].past.base, k);
  }
}
