/** What the channel of a watch from a version above 0 is sent, in every interleaving. */
module ProtocolStreams {
  import opened Objects
  import opened Options
  import opened Protocol
  import opened ProtocolChain
  import opened ProtocolChannels
  import opened ProtocolLocks
  import opened ProtocolOrder
  import opened ProtocolPanics
  import opened ProtocolTheorems
  import opened ProtocolVersions
  import opened ProtocolView
  import opened Ring
  import Atomic

  // A watch, the thread that sets it up, the signals it starts with, and how many events
  // had been published then.
  datatype Feed = Feed(t: ThreadId, w: WatchId, filter: Filter, start: seq<Signal>, from: nat)

  // The event that a publisher has not come to the watch with.
  function Upcoming(s: State, w: WatchId, filter: Filter): seq<Signal> {
    if s.locks.ring.Some? && s.locks.ring.value in s.threads && Awaits(s.threads[s.locks.ring.value], w)
       && Matches(filter, s.threads[s.locks.ring.value].key)
    then [Change(OwnEvent(s.threads[s.locks.ring.value]))] else []
  }

  function OwnEvent(th: Thread): Event
    requires th.Writer?
  {
    EventOf(th.key, th.cur, th.plan, Version(th))
  }

  function EventsSince(s: State, f: Feed): seq<Signal>
    requires f.from <= |Announced(s.past.log)|
  {
    Select(Announced(s.past.log)[f.from..], f.filter)
  }

  // Not subscribed yet: the rest of the start is in the hands of the thread.
  predicate SettingUp(s: State, f: Feed) {
    && f.t in s.threads && s.threads[f.t].Watcher? && s.threads[f.t].w == f.w && s.threads[f.t].wpc.Deliver?
    && f.w in s.hub.channels && s.hub.channels[f.w].sent + s.threads[f.t].queue == f.start
    && |Announced(s.past.log)| == f.from
  }

  // The channel was sent its start and then what was published since, in that order, unless
  // it is being stopped.
  ghost predicate Fed(s: State, f: Feed) {
    && f.w in s.hub.channels && s.hub.channels[f.w].filter == f.filter && f.from <= |Announced(s.past.log)|
    && (s.hub.channels[f.w].stopClosed ||
        if f.w in s.hub.subs then s.hub.channels[f.w].sent + Upcoming(s, f.w, f.filter) == f.start + EventsSince(s, f)
        else SettingUp(s, f))
  }

  // A publisher panics before it has come to the watch.
  predicate Loses(s: State, l: Label, w: WatchId) {
    l.Offer? && l.t in s.threads && s.threads[l.t].Writer? && Drops(s, l, w, s.threads[l.t].key)
  }

  // A step after which the feed is as before.
  ghost predicate SameFeed(s: State, s': State, f: Feed) {
    && f.w in s.hub.channels && f.w in s'.hub.channels
    && s'.hub.channels[f.w].filter == s.hub.channels[f.w].filter
    && (s.hub.channels[f.w].stopClosed ==> s'.hub.channels[f.w].stopClosed)
    && Announced(s'.past.log) == Announced(s.past.log)
    && (!s'.hub.channels[f.w].stopClosed ==>
          && s'.hub.channels[f.w].sent == s.hub.channels[f.w].sent && (f.w in s'.hub.subs <==> f.w in s.hub.subs)
          && (f.w in s.hub.subs ==> Upcoming(s', f.w, f.filter) == Upcoming(s, f.w, f.filter))
          && (f.w !in s.hub.subs && f.t in s.threads ==> f.t in s'.threads && s'.threads[f.t] == s.threads[f.t]))
  }

  lemma FedStill(s: State, s': State, f: Feed)
    requires Fed(s, f) && SameFeed(s, s', f)
    ensures Fed(s', f)
  {
  }

  lemma FedByFile(s: State, t: ThreadId, f: Feed)
    requires Locks(s) && Fed(s, f) && WriterAt(s, t) && OnFile(s.threads[t].pc)
    ensures Fed(GoFile(s, t, s.threads[t]), f)
  {
    FedStill(s, GoFile(s, t, s.threads[t]), f);
  }

  lemma FedByVersion(s: State, t: ThreadId, f: Feed)
    requires Locks(s) && Fed(s, f) && WriterAt(s, t) && TakesVersion(s.threads[t].pc)
    ensures Fed(GoVersion(s, t, s.threads[t]), f)
  {
    FedStill(s, GoVersion(s, t, s.threads[t]), f);
  }

  lemma FedByFailure(s: State, l: Label, f: Feed)
    requires Locks(s) && Fed(s, f) && Enabled(s, l) && l.Fail?
    ensures Fed(Do(s, l), f)
  {
    var th := s.threads[l.t];
    AnnouncedAppend(s.past.log, LostRemoval(th.key, th.op, th.cur));
    FedStill(s, Do(s, l), f);
  }

  lemma FedByMutex(s: State, t: ThreadId, f: Feed)
    requires Locks(s) && Fed(s, f) && WriterAt(s, t) && Publishes(s.threads[t].pc) && !s.threads[t].pc.AppendRing?
    ensures Fed(GoPublish(s, t, s.threads[t]), f)
  {
    assert HoldsRing(s.threads[t]) ==> s.locks.ring == Some(t);
    FedStill(s, GoPublish(s, t, s.threads[t]), f);
  }

  // An event that is published is on its way to every subscriber it concerns.
  lemma FedByAppend(s: State, t: ThreadId, f: Feed)
    requires Locks(s) && Fed(s, f) && WriterAt(s, t) && s.threads[t].pc.AppendRing?
    ensures Fed(GoPublish(s, t, s.threads[t]), f)
  {
    var th := s.threads[t];
    var s' := GoPublish(s, t, th);
    var ev := OwnEvent(th);
    var all := Announced(s.past.log);
    assert HoldsRing(th) && s.locks.ring == Some(t);
    AnnouncedAppend(s.past.log, Published(ev, th.op, th.cur, th.start));
    assert Announced(s'.past.log) == all + [ev];
    if !s.hub.channels[f.w].stopClosed {
      assert f.w in s.hub.subs by { if f.w !in s.hub.subs { assert HoldsRing(s.threads[f.t]); } }
      assert (all + [ev])[f.from..] == all[f.from..] + [ev];
      Atomic.SelectAppend(all[f.from..], ev, f.filter);
      assert Upcoming(s, f.w, f.filter) == [];
      assert s'.hub.channels[f.w].sent + [] == s'.hub.channels[f.w].sent;
    }
  }

  lemma FedInside(s: State, t: ThreadId, f: Feed)
    requires Locks(s) && Channels(s) && Fed(s, f) && WriterAt(s, t) && StopsInside(s.threads[t].pc)
    ensures Fed(GoInside(s, t, s.threads[t]), f)
  {
    assert HoldsRing(s.threads[t]) && LinkOk(s, t) && ChannelOk(s, s.threads[t].pc.victim);
    if !s.hub.channels[f.w].stopClosed && f.w !in s.hub.subs { assert HoldsRing(s.threads[f.t]); }
    FedStill(s, GoInside(s, t, s.threads[t]), f);
  }

  lemma FedByWriterOffer(s: State, t: ThreadId, w: WatchId, how: How, f: Feed)
    requires Locks(s) && Channels(s) && Fed(s, f) && OfferEnabled(s, t, w, how) && s.threads[t].Writer?
    requires !Loses(s, Offer(t, w, how), f.w)
    ensures Fed(OfferByWriter(s, t, s.threads[t], w, how), f)
  {
    var s' := OfferByWriter(s, t, s.threads[t], w, how);
    assert HoldsRing(s.threads[t]) && s.locks.ring == Some(t) && ChannelOk(s, w);
    if !s.hub.channels[f.w].stopClosed && f.w !in s.hub.subs { assert HoldsRing(s.threads[f.t]); }
    if w == f.w && how.Send? && !s.hub.channels[w].closed && Matches(f.filter, s.threads[t].key) && !s.hub.channels[w].stopClosed {
      assert Upcoming(s', f.w, f.filter) == [];
      var sig := Change(OwnEvent(s.threads[t]));
      assert Upcoming(s, f.w, f.filter) == [sig];
      assert s'.hub.channels[w].sent == s.hub.channels[w].sent + [sig];
      assert s'.hub.channels[w].sent + [] == s'.hub.channels[w].sent;
    } else {
      FedStill(s, s', f);
    }
  }

  lemma FedByWatcherOffer(s: State, t: ThreadId, how: How, f: Feed)
    requires Locks(s) && Channels(s) && Fed(s, f) && t in s.threads && s.threads[t].Watcher?
    requires OfferEnabled(s, t, s.threads[t].w, how)
    ensures Fed(OfferByWatcher(s, t, s.threads[t], how), f)
  {
    var th := s.threads[t];
    var s' := OfferByWatcher(s, t, th, how);
    assert HoldsRing(th) && LinkOk(s, t) && ChannelOk(s, th.w);
    if th.w == f.w && !s.hub.channels[f.w].stopClosed {
      assert f.w !in s.hub.subs;
      assert HoldsRing(s.threads[f.t]) && f.t == t;
      if how.Send? {
        assert s.hub.channels[f.w].sent + th.queue == (s.hub.channels[f.w].sent + [th.queue[0]]) + th.queue[1..];
      }
    } else {
      FedStill(s, s', f);
    }
  }

  lemma FedBySubscription(s: State, t: ThreadId, f: Feed)
    requires Locks(s) && Channels(s) && Fed(s, f) && t in s.threads && s.threads[t].Watcher? && WatcherReady(s, s.threads[t])
    requires s.threads[t].wpc.Deliver?
    ensures Fed(GoWatcher(s, t, s.threads[t]), f)
  {
    var th := s.threads[t];
    var s' := GoWatcher(s, t, th);
    assert HoldsRing(th) && LinkOk(s, t) && ChannelOk(s, th.w);
    if th.w == f.w && !s.hub.channels[f.w].stopClosed {
      assert HoldsRing(s.threads[f.t]) && f.t == t;
      assert s.hub.channels[f.w].sent + th.queue == s.hub.channels[f.w].sent;
      assert Announced(s'.past.log)[f.from..] == [];
      assert f.start + [] == f.start;
      assert s'.hub.channels[f.w].sent + [] == s'.hub.channels[f.w].sent;
    } else {
      FedStill(s, s', f);
    }
  }

  // The steps of a watch before it delivers.
  lemma FedByOpening(s: State, t: ThreadId, f: Feed)
    requires Locks(s) && Channels(s) && Fed(s, f) && t in s.threads && s.threads[t].Watcher? && WatcherReady(s, s.threads[t])
    requires Opening(s.threads[t].wpc) || s.threads[t].wpc.Scan?
    ensures Fed(GoWatcher(s, t, s.threads[t]), f)
  {
    assert HoldsRing(s.threads[t]) ==> s.locks.ring == Some(t);
    assert LinkOk(s, t) && ChannelOk(s, s.threads[t].w);
    FedStill(s, GoWatcher(s, t, s.threads[t]), f);
  }

  lemma FedByWatcher(s: State, t: ThreadId, f: Feed)
    requires Locks(s) && Channels(s) && Fed(s, f) && t in s.threads && s.threads[t].Watcher? && WatcherReady(s, s.threads[t])
    requires !s.threads[t].wpc.Deliver? && !Opening(s.threads[t].wpc) && !s.threads[t].wpc.Scan?
    ensures Fed(GoWatcher(s, t, s.threads[t]), f)
  {
    assert HoldsRing(s.threads[t]) ==> s.locks.ring == Some(t);
    assert LinkOk(s, t) && ChannelOk(s, s.threads[t].w);
    FedStill(s, GoWatcher(s, t, s.threads[t]), f);
  }

  lemma FedByStopper(s: State, t: ThreadId, f: Feed)
    requires Locks(s) && Channels(s) && Fed(s, f) && t in s.threads && s.threads[t].Stopper? && StopperReady(s, s.threads[t])
    ensures Fed(GoStopper(s, t, s.threads[t]), f)
  {
    assert HoldsRing(s.threads[t]) ==> s.locks.ring == Some(t);
    assert LinkOk(s, t) && ChannelOk(s, s.threads[t].w);
    FedStill(s, GoStopper(s, t, s.threads[t]), f);
  }

  lemma FedByScan(s: State, l: Label, f: Feed)
    requires Locks(s) && Fed(s, f) && Enabled(s, l) && (l.ListDir? || l.Fetch?)
    ensures Fed(Do(s, l), f)
  {
    assert HoldsRing(s.threads[l.t]);
    if !s.hub.channels[f.w].stopClosed && f.w !in s.hub.subs { assert HoldsRing(s.threads[f.t]); }
    FedStill(s, Do(s, l), f);
  }

  lemma FedByOther(s: State, l: Label, f: Feed)
    requires Locks(s) && Fed(s, f) && Enabled(s, l) && (l.NewWriter? || l.NewWatch? || l.NewStop? || l.Drain?)
    ensures Fed(Do(s, l), f)
  {
    FedStill(s, Do(s, l), f);
  }

  lemma FedKept(s: State, l: Label, f: Feed)
    requires Inv(s) && Fed(s, f) && Enabled(s, l) && !l.Crash? && !Loses(s, l, f.w)
    ensures Fed(Do(s, l), f)
  {
    match l {
      case Go(t) =>
        var th := s.threads[t];
        if th.Watcher? {
          if th.wpc.Deliver? { FedBySubscription(s, t, f); }
          else if Opening(th.wpc) || th.wpc.Scan? { FedByOpening(s, t, f); }
          else { FedByWatcher(s, t, f); }
        } else if th.Stopper? { FedByStopper(s, t, f); }
        else {
          assert LinkOk(s, t) && Bare(th);
          if TakesVersion(th.pc) { FedByVersion(s, t, f); }
          else if th.pc.AppendRing? { FedByAppend(s, t, f); }
          else if Publishes(th.pc) { FedByMutex(s, t, f); }
          else if StopsInside(th.pc) { FedInside(s, t, f); }
          else { FedByFile(s, t, f); }
        }
      case Fail(t) => FedByFailure(s, l, f);
      case Offer(t, w, how) =>
        if s.threads[t].Writer? { FedByWriterOffer(s, t, w, how, f); }
        else { FedByWatcherOffer(s, t, how, f); }
      case ListDir(_, _) | Fetch(_, _) => FedByScan(s, l, f);
      case _ => FedByOther(s, l, f);
    }
  }

  // --- How a watch starts ---

  // The version a watch has read is not below what is published.
  predicate HasRead(th: Thread) {
    th.Watcher? && (th.wpc.UnlockCurrent? || th.wpc.ChooseStart? || th.wpc.Scan?)
  }

  ghost predicate CurrentOk(s: State) {
    forall t :: t in s.threads && HasRead(s.threads[t]) ==> LogBelow(s.past.log, s.threads[t].current)
  }

  lemma CurrentRead(s: State, t: ThreadId)
    requires Locks(s) && Versions(s) && CurrentOk(s) && t in s.threads && s.threads[t].Watcher? && WatcherReady(s, s.threads[t])
    requires s.threads[t].wpc.ReadCurrent?
    ensures CurrentOk(GoWatcher(s, t, s.threads[t]))
  {
    assert HoldsCounter(s.threads[t]) && !Persisting(s);
  }

  lemma CurrentKeptByWatcher(s: State, t: ThreadId)
    requires CurrentOk(s) && t in s.threads && s.threads[t].Watcher? && WatcherReady(s, s.threads[t])
    requires !s.threads[t].wpc.ReadCurrent?
    ensures CurrentOk(GoWatcher(s, t, s.threads[t]))
  {
    var s' := GoWatcher(s, t, s.threads[t]);
    WatcherOnly(s, t);
    assert HasRead(s'.threads[t]) ==> HasRead(s.threads[t]) && s'.threads[t].current == s.threads[t].current;
  }

  lemma CurrentKeptByStopper(s: State, t: ThreadId)
    requires CurrentOk(s) && t in s.threads && s.threads[t].Stopper? && StopperReady(s, s.threads[t])
    ensures CurrentOk(GoStopper(s, t, s.threads[t]))
  {
  }

  lemma CurrentKeptByWriter(s: State, t: ThreadId)
    requires Locks(s) && CurrentOk(s) && t in s.threads && s.threads[t].Writer? && WriterReady(s, s.threads[t])
    ensures CurrentOk(GoWriter(s, t, s.threads[t]))
  {
    if s.threads[t].pc.AppendRing? {
      assert HoldsRing(s.threads[t]);
      forall u | u in s.threads ensures !HasRead(s.threads[u]) {
        if HasRead(s.threads[u]) { assert HoldsRing(s.threads[u]); }
      }
    }
  }

  lemma CurrentKept(s: State, l: Label)
    requires Inv(s) && CurrentOk(s) && Enabled(s, l)
    ensures CurrentOk(Do(s, l))
  {
    if l.Go? {
      if s.threads[l.t].Watcher? {
        if s.threads[l.t].wpc.ReadCurrent? { CurrentRead(s, l.t); } else { CurrentKeptByWatcher(s, l.t); }
      }
      else if s.threads[l.t].Stopper? { CurrentKeptByStopper(s, l.t); }
      else { CurrentKeptByWriter(s, l.t); }
    } else {
      CurrentKeptByOther(s, l);
    }
  }

  lemma CurrentKeptByOther(s: State, l: Label)
    requires CurrentOk(s) && Enabled(s, l) && !l.Go?
    ensures CurrentOk(Do(s, l))
  {
  }

  lemma {:induction false} RunCurrent(states: seq<State>, labels: seq<Label>, n: nat)
    requires IsRun(states, labels) && n < |states|
    ensures CurrentOk(states[n])
  {
    if n > 0 {
      RunCurrent(states, labels, n - 1);
      RunInv(states, labels, n - 1);
      StepAt(states, labels, n - 1);
      CurrentKept(states[n - 1], labels[n - 1]);
    }
  }

  // A watch from a version above 0 chooses its start, and the version is not too old for the ring.
  predicate Begins(s: State, l: Label) {
    && l.Go? && l.t in s.threads && s.threads[l.t].Watcher? && s.threads[l.t].wpc.ChooseStart?
    && s.threads[l.t].w in s.hub.channels
    && s.hub.channels[s.threads[l.t].w].startRV > 0
    && (s.hub.channels[s.threads[l.t].w].startRV >= s.threads[l.t].current
        || Replay(s.hub.ring, s.hub.channels[s.threads[l.t].w].startRV).Some?)
  }

  function FeedOf(s: State, l: Label): Feed
    requires Begins(s, l)
  {
    var w := s.threads[l.t].w;
    var ch := s.hub.channels[w];
    Feed(l.t, w, ch.filter, Select(Above(s.hub.ring, ch.startRV), ch.filter), |Announced(s.past.log)|)
  }

  lemma RingBelow(s: State, n: int)
    requires RingOk(s) && LogBelow(s.past.log, n)
    ensures forall i :: 0 <= i < |s.hub.ring| ==> s.hub.ring[i].rv <= n
  {
    var all := Announced(s.past.log);
    forall i | 0 <= i < |s.hub.ring| ensures s.hub.ring[i].rv <= n {
      var j := AnnouncedFrom(s.past.log, |all| - |s.hub.ring| + i);
    }
  }

  lemma BeginsFed(s: State, l: Label)
    requires Inv(s) && CurrentOk(s) && Enabled(s, l) && Begins(s, l)
    ensures Fed(Do(s, l), FeedOf(s, l))
  {
    var th := s.threads[l.t];
    var ch := s.hub.channels[th.w];
    assert LinkOk(s, l.t) && ChannelOk(s, th.w) && WatchOk(s, th);
    RingBelow(s, th.current);
    if ch.startRV >= th.current {
      Atomic.AboveNone(s.hub.ring, ch.startRV);
    }
    var start := FeedOf(s, l).start;
    assert ch.sent + start == start;
  }

  // In every interleaving, a watch that was accepted has been sent exactly the events above its
  // start that the ring held when it began, and then all matching events published since, in
  // that order; but for one that its publisher has not come to it with. This holds until it
  // is stopped, the process crashes, or a publisher panics before coming to it.
  lemma WatchIsSent(states: seq<State>, labels: seq<Label>, m: nat, n: nat)
    requires IsRun(states, labels) && m < n < |states| && Begins(states[m], labels[m])
    requires forall i :: m < i < n ==> !labels[i].Crash? && !Loses(states[i], labels[i], states[m].threads[labels[m].t].w)
    ensures Fed(states[n], FeedOf(states[m], labels[m]))
    decreases n
  {
    if n == m + 1 {
      FedFirst(states, labels, m);
    } else {
      WatchIsSent(states, labels, m, n - 1);
      FedNext(states, labels, n - 1, FeedOf(states[m], labels[m]));
    }
  }

  lemma FedFirst(states: seq<State>, labels: seq<Label>, m: nat)
    requires IsRun(states, labels) && m < |labels| && Begins(states[m], labels[m])
    ensures Fed(states[m + 1], FeedOf(states[m], labels[m]))
  {
    RunInv(states, labels, m);
    RunCurrent(states, labels, m);
    StepAt(states, labels, m);
    BeginsFed(states[m], labels[m]);
  }

  lemma FedNext(states: seq<State>, labels: seq<Label>, n: nat, f: Feed)
    requires IsRun(states, labels) && n < |labels| && Fed(states[n], f)
    requires !labels[n].Crash? && !Loses(states[n], labels[n], f.w)
    ensures Fed(states[n + 1], f)
  {
    RunInv(states, labels, n);
    StepAt(states, labels, n);
    FedKept(states[n], labels[n], f);
  }

  // --- A watch that is refused ---

  predicate Refusing(th: Thread) {
    th.Watcher? && (th.wpc.Refuse? || th.wpc.SendExpired?)
  }

  // It has been sent nothing, and no channel holds more than it was sent.
  ghost predicate RefusedOk(s: State) {
    && (forall w :: w in s.hub.channels ==> s.hub.channels[w].buffered <= |s.hub.channels[w].sent|)
    && (forall t :: t in s.threads && Refusing(s.threads[t]) ==>
          s.threads[t].w in s.hub.channels && s.hub.channels[s.threads[t].w].sent == [])
  }

  predicate Tells(s: State, l: Label, w: WatchId) {
    (l.Offer? && l.w == w)
    || (l.Go? && l.t in s.threads && s.threads[l.t].Watcher? && s.threads[l.t].w == w && s.threads[l.t].wpc.SendExpired?)
  }

  ghost predicate ChannelKept(s: State, s': State, w: WatchId)
    requires w in s.hub.channels
  {
    w in s'.hub.channels && s'.hub.channels[w].sent == s.hub.channels[w].sent
    && s'.hub.channels[w].buffered <= s.hub.channels[w].buffered
  }

  lemma KeptByWriter(s: State, t: ThreadId, w: WatchId)
    requires w in s.hub.channels && t in s.threads && s.threads[t].Writer? && WriterReady(s, s.threads[t])
    ensures ChannelKept(s, GoWriter(s, t, s.threads[t]), w)
  {
    var th := s.threads[t];
    if TakesVersion(th.pc) {
      assert GoVersion(s, t, th).hub == s.hub;
    } else if Publishes(th.pc) {
      assert GoPublish(s, t, th).hub.channels == s.hub.channels;
    } else if StopsInside(th.pc) {
      InsideFrame(s, t);
    }
  }

  lemma KeptByWatcher(s: State, t: ThreadId, w: WatchId)
    requires w in s.hub.channels && t in s.threads && s.threads[t].Watcher? && WatcherReady(s, s.threads[t])
    requires !s.threads[t].wpc.SendExpired? || s.threads[t].w != w
    ensures ChannelKept(s, GoWatcher(s, t, s.threads[t]), w)
  {
  }

  lemma KeptByStopper(s: State, t: ThreadId, w: WatchId)
    requires w in s.hub.channels && t in s.threads && s.threads[t].Stopper? && StopperReady(s, s.threads[t])
    ensures ChannelKept(s, GoStopper(s, t, s.threads[t]), w)
  {
  }

  lemma KeptByOther(s: State, l: Label, w: WatchId)
    requires w in s.hub.channels && Enabled(s, l) && !l.Go? && !l.Crash? && !Tells(s, l, w)
    ensures ChannelKept(s, Do(s, l), w)
  {
  }

  lemma KeptUntold(s: State, l: Label, w: WatchId)
    requires w in s.hub.channels && Enabled(s, l) && !l.Crash? && !Tells(s, l, w)
    ensures ChannelKept(s, Do(s, l), w)
  {
    if !l.Go? { KeptByOther(s, l, w); }
    else if s.threads[l.t].Writer? { KeptByWriter(s, l.t, w); }
    else if s.threads[l.t].Watcher? { KeptByWatcher(s, l.t, w); }
    else { KeptByStopper(s, l.t, w); }
  }

  lemma ToldFits(s: State, l: Label, w: WatchId)
    requires w in s.hub.channels && Enabled(s, l) && Tells(s, l, w)
    requires s.hub.channels[w].buffered <= |s.hub.channels[w].sent|
    ensures w in Do(s, l).hub.channels && Do(s, l).hub.channels[w].buffered <= |Do(s, l).hub.channels[w].sent|
  {
  }

  // Nobody else sends to it.
  lemma NotTold(s: State, l: Label, t: ThreadId)
    requires Channels(s) && Enabled(s, l) && t in s.threads && Refusing(s.threads[t]) && !(l.Go? && l.t == t)
    ensures !Tells(s, l, s.threads[t].w)
  {
    assert LinkOk(s, t) && ChannelOk(s, s.threads[t].w);
    assert l.Offer? ==> LinkOk(s, l.t);
  }

  lemma RefusingByOne(s: State, l: Label)
    requires Enabled(s, l) && !l.Crash? && !l.Drain? && l.t in Do(s, l).threads && Refusing(Do(s, l).threads[l.t])
    ensures l.Go? && s.threads[l.t].Watcher? && (s.threads[l.t].wpc.ChooseStart? || s.threads[l.t].wpc.Refuse?)
    ensures Do(s, l).threads[l.t].w == s.threads[l.t].w
  {
    if l.Go? && s.threads[l.t].Writer? {
      if StopsInside(s.threads[l.t].pc) { InsideFrame(s, l.t); }
    }
  }

  lemma OneThread(s: State, l: Label)
    requires Enabled(s, l) && !l.Crash? && !l.Drain?
    ensures MovesTo(s, Do(s, l), l.t)
  {
    if l.Go? {
      var th := s.threads[l.t];
      if th.Watcher? { WatcherMoves(s, l.t); }
      else if th.Stopper? { StopperMoves(s, l.t); }
      else if TakesVersion(th.pc) { VersionMoves(s, l.t); }
      else if Publishes(th.pc) { PublishMoves(s, l.t); }
      else if StopsInside(th.pc) { InsideMoves(s, l.t); }
      else { FileMoves(s, l.t); }
    } else {
      OtherMoves(s, l);
    }
  }

  lemma RefusingKept(s: State, l: Label, t: ThreadId)
    requires Channels(s) && View(s) && RefusedOk(s) && Enabled(s, l) && !l.Crash?
    requires t in Do(s, l).threads && Refusing(Do(s, l).threads[t])
    ensures var w := Do(s, l).threads[t].w; w in Do(s, l).hub.channels && Do(s, l).hub.channels[w].sent == []
  {
    var s' := Do(s, l);
    if !l.Drain? { OneThread(s, l); }
    if !l.Drain? && t == l.t {
      RefusingByOne(s, l);
      assert LinkOk(s, t) && WatchOk(s, s.threads[t]);
      KeptUntold(s, l, s.threads[t].w);
    } else {
      assert s'.threads[t] == s.threads[t];
      NotTold(s, l, t);
      KeptUntold(s, l, s.threads[t].w);
    }
  }

  lemma RefusedKept(s: State, l: Label)
    requires Inv(s) && RefusedOk(s) && Enabled(s, l)
    ensures RefusedOk(Do(s, l))
  {
    if !l.Crash? {
      var s' := Do(s, l);
      forall w | w in s'.hub.channels ensures s'.hub.channels[w].buffered <= |s'.hub.channels[w].sent| {
        if w in s.hub.channels {
          if Tells(s, l, w) { ToldFits(s, l, w); } else { KeptUntold(s, l, w); }
        } else {
          NewIsEmpty(s, l, w);
        }
      }
      forall t | t in s'.threads && Refusing(s'.threads[t])
        ensures s'.threads[t].w in s'.hub.channels && s'.hub.channels[s'.threads[t].w].sent == []
      {
        RefusingKept(s, l, t);
      }
    }
  }

  lemma NewIsEmpty(s: State, l: Label, w: WatchId)
    requires Enabled(s, l) && !l.Crash? && w in Do(s, l).hub.channels && w !in s.hub.channels
    ensures Do(s, l).hub.channels[w].buffered == 0
  {
    if l.Go? && s.threads[l.t].Writer? && StopsInside(s.threads[l.t].pc) { InsideFrame(s, l.t); }
  }

  lemma {:induction false} RunRefused(states: seq<State>, labels: seq<Label>, n: nat)
    requires IsRun(states, labels) && n < |states|
    ensures RefusedOk(states[n])
  {
    if n > 0 {
      RunRefused(states, labels, n - 1);
      RunInv(states, labels, n - 1);
      StepAt(states, labels, n - 1);
      RefusedKept(states[n - 1], labels[n - 1]);
    }
  }

  // A watch is refused exactly when its version is above 0 and below the current one, and lower
  // than that of the oldest event of the ring by more than one.
  lemma RefusedWhen(s: State, t: ThreadId)
    requires Enabled(s, Go(t)) && s.threads[t].Watcher? && s.threads[t].wpc.ChooseStart?
    requires s.threads[t].w in s.hub.channels && s.hub.channels[s.threads[t].w].startRV < 0xFFFF_FFFF_FFFF_FFFF
    ensures var startRV := s.hub.channels[s.threads[t].w].startRV; var s' := Do(s, Go(t));
      t in s'.threads && s'.threads[t].Watcher?
      && (s'.threads[t].wpc.Refuse? <==>
            0 < startRV < s.threads[t].current && s.hub.ring != [] && startRV + 1 < s.hub.ring[0].rv)
  {
  }

  // In every run, a refused watch is sent the error and nothing else, unless it was stopped
  // already.
  lemma RefusedIsTold(states: seq<State>, labels: seq<Label>, n: nat)
    requires IsRun(states, labels) && n < |labels| && labels[n].Go? && labels[n].t in states[n].threads
    requires var th := states[n].threads[labels[n].t];
      && th.Watcher? && th.wpc.SendExpired? && th.w in states[n].hub.channels && !states[n].hub.channels[th.w].closed
    ensures var w := states[n].threads[labels[n].t].w;
      w in states[n + 1].hub.channels && states[n + 1].hub.channels[w].sent == [Expired]
  {
    RunRefused(states, labels, n);
    StepAt(states, labels, n);
  }
}
