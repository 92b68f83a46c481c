/** What the channel of a watch from version 0 is sent, in every interleaving. */
module ProtocolSnapshots {
  import opened Objects
  import opened Options
  import opened Protocol
  import opened ProtocolChannels
  import opened ProtocolLocks
  import opened ProtocolOrder
  import opened ProtocolStreams
  import opened ProtocolTheorems
  import opened ProtocolVersions
  import opened ProtocolView
  import opened Ring
  import Atomic

  // Whether a watch is about a key: about every key, about those of a namespace, or about one.
  predicate Concerns(filter: Filter, k: Key) {
    match filter
    case Everything => true
    case InNamespace(ns) => k.ns == ns
    case Exactly(key) => k == key
  }

  // The scan of a watch has found each object once, under a key that the watch is about, and
  // offers it as an addition.
  ghost predicate Additions(filter: Filter, queue: seq<Signal>) {
    && (forall i :: 0 <= i < |queue| ==>
          queue[i].Change? && queue[i].ev.etype == Added && queue[i].ev.rv == queue[i].ev.obj.rv
          && Concerns(filter, queue[i].ev.key))
    && (forall i, j :: 0 <= i < j < |queue| ==> queue[i].ev.key != queue[j].ev.key)
  }

  ghost predicate Scanned(filter: Filter, toList: set<string>, toRead: set<Key>, queue: seq<Signal>) {
    && Additions(filter, queue)
    && (forall i :: 0 <= i < |queue| ==> queue[i].ev.key !in toRead && queue[i].ev.key.ns !in toList)
    && (forall k :: k in toRead ==> Concerns(filter, k) && k.ns !in toList)
    && (forall k: Key :: k.ns in toList ==> Concerns(filter, k))
  }

  ghost predicate ScanOk(s: State, t: ThreadId)
    requires t in s.threads
  {
    var th := s.threads[t];
    th.Watcher? && th.wpc.Scan? && th.w in s.hub.channels ==>
      Scanned(s.hub.channels[th.w].filter, th.toList, th.toRead, th.queue)
  }

  ghost predicate Scans(s: State) {
    "" !in s.disk.dirs && forall t :: t in s.threads ==> ScanOk(s, t)
  }

  ghost predicate SameFilters(s: State, s': State) {
    forall w :: w in s.hub.channels ==> w in s'.hub.channels && s'.hub.channels[w].filter == s.hub.channels[w].filter
  }

  lemma FiltersKeptByWriter(s: State, t: ThreadId)
    requires t in s.threads && s.threads[t].Writer? && WriterReady(s, s.threads[t])
    ensures SameFilters(s, GoWriter(s, t, s.threads[t]))
  {
    var th := s.threads[t];
    if TakesVersion(th.pc) {
      assert GoVersion(s, t, th).hub == s.hub;
    } else if Publishes(th.pc) {
      assert GoPublish(s, t, th).hub.channels == s.hub.channels;
    } else if StopsInside(th.pc) {
      InsideFrame(s, t);
    }
  }

  lemma FiltersKept(s: State, l: Label)
    requires Enabled(s, l) && !l.Crash?
    ensures SameFilters(s, Do(s, l))
  {
    match l {
      case Go(t) =>
        if s.threads[t].Writer? { FiltersKeptByWriter(s, t); }
        else if s.threads[t].Watcher? { FiltersKeptByWatcher(s, t); }
        else { FiltersKeptByStopper(s, t); }
      case Offer(t, w, how) => FiltersKeptByOffer(s, t, w, how);
      case _ => FiltersKeptByOther(s, l);
    }
  }

  lemma FiltersKeptByWatcher(s: State, t: ThreadId)
    requires t in s.threads && s.threads[t].Watcher? && WatcherReady(s, s.threads[t])
    ensures SameFilters(s, GoWatcher(s, t, s.threads[t]))
  {
  }

  lemma FiltersKeptByStopper(s: State, t: ThreadId)
    requires t in s.threads && s.threads[t].Stopper? && StopperReady(s, s.threads[t])
    ensures SameFilters(s, GoStopper(s, t, s.threads[t]))
  {
  }

  lemma FiltersKeptByOffer(s: State, t: ThreadId, w: WatchId, how: How)
    requires OfferEnabled(s, t, w, how)
    ensures SameFilters(s, Do(s, Offer(t, w, how)))
  {
  }

  lemma FiltersKeptByOther(s: State, l: Label)
    requires Enabled(s, l) && !l.Crash? && !l.Go? && !l.Offer?
    ensures SameFilters(s, Do(s, l))
  {
  }

  // A thread that scans after a step did so before, or has just chosen to.
  lemma OthersScan(s: State, s': State, t: ThreadId)
    requires Scans(s) && SameFilters(s, s') && "" !in s'.disk.dirs
    requires t in s'.threads && s'.threads == s.threads[t := s'.threads[t]] && ScanOk(s', t)
    requires forall u :: u in s.threads && s.threads[u].Watcher? ==> s.threads[u].w in s.hub.channels
    ensures Scans(s')
  {
    forall u | u in s'.threads ensures ScanOk(s', u) {
      if u != t { assert ScanOk(s, u); }
    }
  }

  lemma ScanBegins(s: State, t: ThreadId)
    requires "" !in s.disk.dirs && t in s.threads && s.threads[t].Watcher? && WatcherReady(s, s.threads[t])
    requires s.threads[t].wpc.ChooseStart? && s.threads[t].queue == []
    ensures ScanOk(GoWatcher(s, t, s.threads[t]), t)
  {
  }

  lemma DirListed(filter: Filter, files: Files, toList: set<string>, toRead: set<Key>, queue: seq<Signal>, ns: string)
    requires Scanned(filter, toList, toRead, queue) && ns in toList
    ensures Scanned(filter, toList - {ns}, toRead + InDir(files, ns), queue)
  {
  }

  lemma FileRead(filter: Filter, files: Files, toList: set<string>, toRead: set<Key>, queue: seq<Signal>, key: Key)
    requires Scanned(filter, toList, toRead, queue) && key in toRead
    ensures Scanned(filter, toList, toRead - {key}, queue)
    ensures key in files ==> Scanned(filter, toList, toRead - {key}, queue + [Initial(key, files[key])])
  {
  }

  lemma ScansKept(s: State, l: Label)
    requires Inv(s) && Scans(s) && Enabled(s, l)
    ensures Scans(Do(s, l))
  {
    var s' := Do(s, l);
    if !l.Crash? && !l.Drain? {
      assert s'.threads == s.threads[l.t := s'.threads[l.t]] by {
        OneThread(s, l);
      }
      FiltersKept(s, l);
      DirsKept(s, l);
      forall u | u in s.threads && s.threads[u].Watcher? ensures s.threads[u].w in s.hub.channels {
        assert LinkOk(s, u);
      }
      ScanOkKept(s, l);
      OthersScan(s, s', l.t);
    } else if l.Drain? {
      forall u | u in s'.threads ensures ScanOk(s', u) { assert ScanOk(s, u); }
    }
  }

  lemma DirsKept(s: State, l: Label)
    requires Scans(s) && Enabled(s, l)
    ensures "" !in Do(s, l).disk.dirs
  {
    if l.Go? && s.threads[l.t].Writer? && StopsInside(s.threads[l.t].pc) { InsideFrame(s, l.t); }
  }

  // The thread that moves: it begins to scan, goes on, or does not scan.
  lemma ScanOkKept(s: State, l: Label)
    requires Inv(s) && Scans(s) && Enabled(s, l) && !l.Crash? && !l.Drain? && l.t in Do(s, l).threads
    ensures ScanOk(Do(s, l), l.t)
  {
    match l {
      case ListDir(t, ns) =>
        var th := s.threads[t];
        assert ScanOk(s, t);
        DirListed(s.hub.channels[th.w].filter, s.disk.files, th.toList, th.toRead, th.queue, ns);
      case Fetch(t, key) =>
        var th := s.threads[t];
        assert ScanOk(s, t);
        FileRead(s.hub.channels[th.w].filter, s.disk.files, th.toList, th.toRead, th.queue, key);
      case Go(t) =>
        if s.threads[t].Watcher? && s.threads[t].wpc.ChooseStart? {
          assert WatchOk(s, s.threads[t]);
          ScanBegins(s, t);
        } else { NoScan(s, l); }
      case _ => NoScan(s, l);
    }
  }

  lemma NoScan(s: State, l: Label)
    requires Enabled(s, l) && !l.Crash? && !l.Drain? && !l.ListDir? && !l.Fetch? && l.t in Do(s, l).threads
    requires l.Go? && s.threads[l.t].Watcher? ==> !s.threads[l.t].wpc.ChooseStart?
    ensures !(Do(s, l).threads[l.t].Watcher? && Do(s, l).threads[l.t].wpc.Scan?)
  {
    if l.Go? && s.threads[l.t].Writer? { WriterStays(s, l.t); }
  }

  lemma WriterStays(s: State, t: ThreadId)
    requires t in s.threads && s.threads[t].Writer? && WriterReady(s, s.threads[t])
    ensures t in GoWriter(s, t, s.threads[t]).threads && GoWriter(s, t, s.threads[t]).threads[t].Writer?
  {
    if StopsInside(s.threads[t].pc) { InsideFrame(s, t); }
  }

  lemma {:induction false} RunScans(states: seq<State>, labels: seq<Label>, n: nat)
    requires IsRun(states, labels) && n < |states|
    ensures Scans(states[n])
  {
    if n > 0 {
      RunScans(states, labels, n - 1);
      RunInv(states, labels, n - 1);
      StepAt(states, labels, n - 1);
      ScansKept(states[n - 1], labels[n - 1]);
    }
  }

  // --- The version of the bookmark ---

  // The version a watch has read is one that a restart would reach.
  ghost predicate ReadOk(s: State) {
    forall t :: t in s.threads && HasRead(s.threads[t]) ==> s.threads[t].current <= Durable(s)
  }

  lemma DurableGrows(s: State, l: Label)
    requires Enabled(s, l) && Versions(s) && Versions(Do(s, l))
    ensures Durable(s) <= Durable(Do(s, l))
  {
    if l.Go? && s.threads[l.t].Writer? {
      DurableGrowsByWriter(s, l.t);
    } else {
      assert Do(s, l).disk.rvFile == s.disk.rvFile;
    }
  }

  lemma DurableGrowsByWriter(s: State, t: ThreadId)
    requires t in s.threads && s.threads[t].Writer? && WriterReady(s, s.threads[t])
    requires Versions(s) && Versions(GoWriter(s, t, s.threads[t]))
    ensures Durable(s) <= Durable(GoWriter(s, t, s.threads[t]))
  {
    var th := s.threads[t];
    if StopsInside(th.pc) {
      InsideFrame(s, t);
    } else if th.pc.Persist? {
      assert GoVersion(s, t, th).counter == s.counter;
    } else {
      assert GoWriter(s, t, th).disk.rvFile == s.disk.rvFile;
    }
  }

  lemma ReadByWatcher(s: State, t: ThreadId)
    requires t in s.threads && s.threads[t].Watcher? && WatcherReady(s, s.threads[t])
    ensures var th, th' := s.threads[t], GoWatcher(s, t, s.threads[t]).threads[t];
            HasRead(th') ==> th'.current == if th.wpc.ReadCurrent? then s.counter else th.current
    ensures HasRead(GoWatcher(s, t, s.threads[t]).threads[t]) ==> s.threads[t].wpc.ReadCurrent? || HasRead(s.threads[t])
  {
  }

  lemma ReadByOther(s: State, l: Label)
    requires Enabled(s, l) && !l.Crash? && !l.Drain? && l.t in Do(s, l).threads
    requires l.Go? ==> !s.threads[l.t].Watcher?
    ensures var th' := Do(s, l).threads[l.t];
            HasRead(th') ==> l.t in s.threads && HasRead(s.threads[l.t]) && th'.current == s.threads[l.t].current
  {
    if l.Go? && s.threads[l.t].Writer? { WriterStays(s, l.t); }
  }

  lemma ReadKept(s: State, l: Label)
    requires Enabled(s, l) && CounterHeld(s) && ReadOk(s) && Versions(s) && Versions(Do(s, l))
    ensures ReadOk(Do(s, l))
  {
    DurableGrows(s, l);
    if !l.Crash? && !l.Drain? {
      OneThread(s, l);
      if l.Go? && s.threads[l.t].Watcher? {
        ReadByWatcher(s, l.t);
        if s.threads[l.t].wpc.ReadCurrent? { assert HoldsCounter(s.threads[l.t]) && !Persisting(s); }
      } else {
        ReadByOther(s, l);
      }
    }
  }

  lemma {:induction false} RunRead(states: seq<State>, labels: seq<Label>, n: nat)
    requires IsRun(states, labels) && n < |states|
    ensures ReadOk(states[n])
  {
    if n > 0 {
      RunRead(states, labels, n - 1);
      RunInv(states, labels, n - 1);
      RunInv(states, labels, n);
      StepAt(states, labels, n - 1);
      ReadKept(states[n - 1], labels[n - 1]);
    }
  }

  // --- What is sent ---

  // A watch has read its snapshot and begins to deliver it.
  predicate Delivers(s: State, l: Label) {
    && l.Go? && l.t in s.threads && s.threads[l.t].Watcher? && s.threads[l.t].wpc.Scan?
    && s.threads[l.t].w in s.hub.channels && s.threads[l.t].toList == {} && s.threads[l.t].toRead == {}
  }

  function SnapshotFeed(s: State, l: Label): Feed
    requires Delivers(s, l)
  {
    var th := s.threads[l.t];
    Feed(l.t, th.w, s.hub.channels[th.w].filter, th.queue + (if th.bookmark then [Bookmark(th.current)] else []),
         |Announced(s.past.log)|)
  }

  lemma DeliversFed(s: State, l: Label)
    requires Inv(s) && Enabled(s, l) && Delivers(s, l)
    ensures Fed(Do(s, l), SnapshotFeed(s, l))
  {
    var th := s.threads[l.t];
    assert LinkOk(s, l.t) && ChannelOk(s, th.w) && WatchOk(s, th);
    var start := SnapshotFeed(s, l).start;
    assert s.hub.channels[th.w].sent + start == start;
  }

  lemma {:induction false} SnapshotFed(states: seq<State>, labels: seq<Label>, m: nat, n: nat)
    requires IsRun(states, labels) && m < n < |states| && Delivers(states[m], labels[m])
    requires forall i :: m < i < n ==> !labels[i].Crash? && !Loses(states[i], labels[i], states[m].threads[labels[m].t].w)
    ensures Fed(states[n], SnapshotFeed(states[m], labels[m]))
    decreases n
  {
    if n == m + 1 {
      RunInv(states, labels, m);
      StepAt(states, labels, m);
      DeliversFed(states[m], labels[m]);
    } else {
      SnapshotFed(states, labels, m, n - 1);
      FedNext(states, labels, n - 1, SnapshotFeed(states[m], labels[m]));
    }
  }

  lemma {:induction false} SelectsChanges(events: seq<Event>, filter: Filter, i: nat)
    requires i < |Select(events, filter)|
    ensures Select(events, filter)[i].Change?
  {
    if i < |Select(events[..|events| - 1], filter)| {
      SelectsChanges(events[..|events| - 1], filter, i);
    }
  }

  // In every interleaving, a subscribed watch from version 0 was sent, or is about to be: first
  // each object of its snapshot once, as an addition; then, exactly if it was asked for, one
  // bookmark, whose version is neither below one announced before nor above the counter; then
  // changes only.
  lemma SnapshotIsSent(states: seq<State>, labels: seq<Label>, m: nat, n: nat)
    requires IsRun(states, labels) && m < n < |states| && Delivers(states[m], labels[m])
    requires forall i :: m < i < n ==> !labels[i].Crash? && !Loses(states[i], labels[i], states[m].threads[labels[m].t].w)
    requires var w := states[m].threads[labels[m].t].w;
      w in states[n].hub.channels && w in states[n].hub.subs && !states[n].hub.channels[w].stopClosed
    ensures var th := states[m].threads[labels[m].t];
      var filter := states[m].hub.channels[th.w].filter;
      var stream := states[n].hub.channels[th.w].sent + Upcoming(states[n], th.w, filter);
      var size := |th.queue|;
      && size + (if th.bookmark then 1 else 0) <= |stream|
      && stream[..size] == th.queue && Additions(filter, stream[..size])
      && (th.bookmark ==> stream[size] == Bookmark(th.current))
      && LogBelow(states[m].past.log, th.current) && th.current <= states[m].counter
      && forall i :: 0 <= i < |stream| && stream[i].Bookmark? ==> th.bookmark && i == size
  {
    var s, l := states[m], labels[m];
    var th := s.threads[l.t];
    var f := SnapshotFeed(s, l);
    RunScans(states, labels, m);
    RunCurrent(states, labels, m);
    RunRead(states, labels, m);
    assert ScanOk(s, l.t);
    SnapshotFed(states, labels, m, n);
    var stream := states[n].hub.channels[th.w].sent + Upcoming(states[n], th.w, f.filter);
    var events := EventsSince(states[n], f);
    assert stream == f.start + events;
    forall i | 0 <= i < |stream| && stream[i].Bookmark? ensures th.bookmark && i == |th.queue| {
      if i >= |f.start| {
        SelectsChanges(Announced(states[n].past.log)[f.from..], f.filter, i - |f.start|);
      }
    }
  }
}
