/** A watch from version 0 tracks the files: its snapshot, read file by file between
    the steps of the writers, and the live events after it. */
module ProtocolView {
  import opened Objects
  import opened Options
  import opened Protocol
  import opened ProtocolChain
  import opened ProtocolChannels
  import opened ProtocolLocks

  // The last change of the key was a removal that could not be announced.
  predicate Lost(log: seq<Entry>, k: Key) {
    log != [] &&
    var last := log[|log| - 1];
    if EntryKey(last) == k then last.LostRemoval? else Lost(log[..|log| - 1], k)
  }

  lemma LostAppend(log: seq<Entry>, e: Entry, k: Key)
    ensures Lost(log + [e], k) == if EntryKey(e) == k then e.LostRemoval? else Lost(log, k)
  {
    assert (log + [e])[..|log|] == log;
  }

  predicate Awaits(th: Thread, w: WatchId) {
    th.Writer? && Fanning(th.pc) && w in th.todo
  }

  // A new content of the key is on its way to watcher w.
  ghost predicate Coming(s: State, w: WatchId, k: Key) {
    Holder(s, k).Some? &&
    var th := Holder(s, k).value;
    th.Writer? && th.plan.Write? && (Changed(th) || Awaits(th, w))
  }

  // Why a removal has not been announced to watcher w: it is under way, or never will be.
  ghost predicate Due(s: State, w: WatchId, k: Key) {
    || Lost(s.past.log, k)
    || (Holder(s, k).Some? &&
        var th := Holder(s, k).value;
        (Changed(th) && th.plan.Erase?) || Awaits(th, w))
  }

  // What a watch can know of a key: it lists it, or was told of it.
  predicate Known(filter: Filter, stream: seq<Signal>, k: Key) {
    Listable(filter, k) || Told(stream, k)
  }

  ghost predicate Shows(s: State, w: WatchId, ch: Channel, stream: seq<Signal>, k: Key) {
    Matches(ch.filter, k) && Known(ch.filter, stream, k) && k !in ch.missed ==>
      && (k in ch.unseen ==> ViewAt(None, stream, k).Some? && Due(s, w, k))
      && (!Coming(s, w, k) ==>
            if k in ch.unseen then Get(s.disk.files, k) == None else ViewAt(None, stream, k) == Get(s.disk.files, k))
  }

  // The keys the snapshot of a watch has dealt with.
  predicate Covered(th: Thread, k: Key)
    requires th.Watcher?
  {
    th.wpc.Deliver? || (k !in th.toRead && k.ns !in th.toList)
  }

  // The first part of a watch: nothing sent, nothing queued.
  predicate Opening(wpc: WatchPC) {
    wpc.LockForWatch? || wpc.LockCurrent? || wpc.ReadCurrent? || wpc.UnlockCurrent? || wpc.ChooseStart?
  }

  ghost predicate ScanShows(s: State, th: Thread, k: Key)
    requires th.Watcher? && th.w in s.hub.channels
  {
    var ch := s.hub.channels[th.w];
    var stream := ch.sent + th.queue;
    if Covered(th, k) then Shows(s, th.w, ch, stream, k) else !Told(stream, k)
  }

  ghost predicate WatchOk(s: State, th: Thread)
    requires th.Watcher? && th.w in s.hub.channels
  {
    var ch := s.hub.channels[th.w];
    && (Opening(th.wpc) ==> th.queue == [] && ch.sent == [])
    && (th.wpc.Scan? ==>
          ch.sent == [] && ch.startRV == 0 && (ch.filter.Exactly? ==> th.toList == {})
          && forall k :: k in th.toRead ==> k.ns !in th.toList)
    && (ch.startRV == 0 && !ch.stopClosed && (th.wpc.Scan? || th.wpc.Deliver?) ==>
          forall k :: ScanShows(s, th, k))
  }

  ghost predicate SubscriberOk(s: State, w: WatchId)
    requires w in s.hub.channels
  {
    var ch := s.hub.channels[w];
    w in s.hub.subs && ch.startRV == 0 && !ch.stopClosed ==>
      forall k :: Shows(s, w, ch, ch.sent, k)
  }

  // Every file's namespace has a directory, and so has the one about to be renamed to.
  ghost predicate Dirs(s: State) {
    && "" !in s.disk.dirs
    && (forall k :: k in s.disk.files ==> k.ns == "" || k.ns in s.disk.dirs)
    && (forall t :: t in s.threads && s.threads[t].Writer? && s.threads[t].pc.Rename? ==>
          s.threads[t].key.ns == "" || s.threads[t].key.ns in s.disk.dirs)
  }

  ghost predicate View(s: State) {
    && Dirs(s)
    && (forall w :: w in s.hub.channels ==> SubscriberOk(s, w))
    && (forall t :: t in s.threads && s.threads[t].Watcher? && s.threads[t].w in s.hub.channels ==>
          WatchOk(s, s.threads[t]))
  }

  // A step that leaves the file as it was, unless a new content is coming, and what is due.
  ghost predicate Calm(s: State, s': State, w: WatchId, k: Key) {
    && (!Coming(s', w, k) ==> !Coming(s, w, k) && Get(s'.disk.files, k) == Get(s.disk.files, k))
    && (Due(s, w, k) ==> Due(s', w, k))
  }

  lemma CalmFile(s: State, t: ThreadId, w: WatchId, k: Key)
    requires KeysHeld(s) && WriterAt(s, t)
    requires OnFile(s.threads[t].pc) && !(s.threads[t].pc.RemoveFile? && k == s.threads[t].key)
    requires KeyAgrees(s, s.threads[t].key)
    ensures Calm(s, GoFile(s, t, s.threads[t]), w, k)
  {
    var th := s.threads[t];
    if k == th.key {
      assert Holder(s, k) == if th.pc.LockKey? then None else Some(th);
    }
  }

  lemma CalmVersion(s: State, t: ThreadId, w: WatchId, k: Key)
    requires KeysHeld(s) && WriterAt(s, t) && TakesVersion(s.threads[t].pc)
    requires KeyAgrees(s, s.threads[t].key)
    ensures Calm(s, GoVersion(s, t, s.threads[t]), w, k)
  {
    if k == s.threads[t].key {
      assert Holder(s, k) == Some(s.threads[t]);
    }
  }

  lemma CalmPublish(s: State, t: ThreadId, w: WatchId, k: Key)
    requires KeysHeld(s) && WriterAt(s, t) && Publishes(s.threads[t].pc)
    requires s.threads[t].pc.AppendRing? ==> w in s.hub.subs
    requires KeyAgrees(s, s.threads[t].key)
    ensures Calm(s, GoPublish(s, t, s.threads[t]), w, k)
  {
    var th := s.threads[t];
    LostAppend(s.past.log, Published(EventOf(th.key, th.cur, th.plan, Version(th)), th.op, th.cur, th.start), k);
    if k == th.key {
      assert Holder(s, k) == Some(th);
    }
  }

  lemma CalmFailure(s: State, t: ThreadId, w: WatchId, k: Key)
    requires KeysHeld(s) && t in s.threads && s.threads[t].Writer?
    requires var pc := s.threads[t].pc; pc.RemoveFile? || pc.Persist? || pc.WriteTmp? || pc.Rename?
    requires KeyAgrees(s, s.threads[t].key)
    ensures Calm(s, FailWriter(s, t, s.threads[t]), w, k)
  {
    var th := s.threads[t];
    LostAppend(s.past.log, LostRemoval(th.key, th.op, th.cur), k);
    if k == th.key {
      assert Holder(s, k) == Some(th);
    }
  }

  // A writer's step that sends nothing.
  ghost predicate Silent(s: State, s': State, t: ThreadId) {
    && s'.hub.channels == s.hub.channels && s'.hub.subs == s.hub.subs
    && t in s.threads && s.threads[t].Writer?
    && t in s'.threads && s'.threads == s.threads[t := s'.threads[t]] && s'.threads[t].Writer?
  }

  // The watches a step must keep calm: the subscribed ones, and those being set up.
  predicate Followed(s: State, w: WatchId) {
    w in s.hub.subs || (s.locks.ring.Some? && s.locks.ring.value in s.threads
                        && s.threads[s.locks.ring.value].Watcher? && s.threads[s.locks.ring.value].w == w)
  }

  lemma ViewKeptWhenCalm(s: State, s': State, t: ThreadId)
    requires RingHeld(s) && Channels(s) && View(s) && Silent(s, s', t) && Dirs(s')
    requires forall w, k :: Followed(s, w) ==> Calm(s, s', w, k)
    ensures View(s')
  {
    forall w | w in s'.hub.channels ensures SubscriberOk(s', w) {
      assert SubscriberOk(s, w);
      var ch := s.hub.channels[w];
      forall k ensures w in s.hub.subs && ch.startRV == 0 && !ch.stopClosed ==> Shows(s', w, ch, ch.sent, k) {
        if w in s.hub.subs && ch.startRV == 0 && !ch.stopClosed {
          assert Shows(s, w, ch, ch.sent, k);
          assert Calm(s, s', w, k);
        }
      }
    }
    forall u | u in s'.threads && s'.threads[u].Watcher? && s'.threads[u].w in s'.hub.channels
      ensures WatchOk(s', s'.threads[u])
    {
      var th := s.threads[u];
      assert WatchOk(s, th);
      if th.wpc.Scan? || th.wpc.Deliver? {
        assert HoldsRing(th) && Followed(s, th.w);
        forall k ensures s.hub.channels[th.w].startRV == 0 && !s.hub.channels[th.w].stopClosed ==> ScanShows(s', th, k) {
          if s.hub.channels[th.w].startRV == 0 && !s.hub.channels[th.w].stopClosed {
            assert ScanShows(s, th, k);
            assert Calm(s, s', th.w, k);
          }
        }
      }
    }
  }

  lemma ViewKeptByFile(s: State, t: ThreadId)
    requires Locks(s) && Chain(s) && Channels(s) && View(s) && WriterAt(s, t)
    requires OnFile(s.threads[t].pc)
    ensures View(GoFile(s, t, s.threads[t]))
  {
    var s' := GoFile(s, t, s.threads[t]);
    assert KeyAgrees(s, s.threads[t].key);
    DirsKeptByFile(s, t);
    if s.threads[t].pc.RemoveFile? {
      ViewKeptByRemoval(s, t);
    } else {
      forall w, k ensures Calm(s, s', w, k) { CalmFile(s, t, w, k); }
      ViewKeptWhenCalm(s, s', t);
    }
  }

  // A removal is noted for every watch that had shown the file.
  lemma RemovalShows(s: State, t: ThreadId, w: WatchId, ch: Channel, stream: seq<Signal>, k: Key)
    requires KeysHeld(s) && WriterAt(s, t) && s.threads[t].pc.RemoveFile? && KeyAgrees(s, s.threads[t].key)
    requires Shows(s, w, ch, stream, k)
    ensures Shows(GoFile(s, t, s.threads[t]), w, ch.(unseen := ch.unseen + {s.threads[t].key}), stream, k)
  {
    var th := s.threads[t];
    if k == th.key {
      assert Holder(s, k) == Some(th);
    } else {
      CalmFile(s, t, w, k);
    }
  }

  lemma ViewKeptByRemoval(s: State, t: ThreadId)
    requires Locks(s) && Chain(s) && Channels(s) && View(s) && WriterAt(s, t) && s.threads[t].pc.RemoveFile?
    requires Dirs(GoFile(s, t, s.threads[t]))
    ensures View(GoFile(s, t, s.threads[t]))
  {
    var s' := GoFile(s, t, s.threads[t]);
    assert KeyAgrees(s, s.threads[t].key);
    forall w | w in s'.hub.channels ensures SubscriberOk(s', w) {
      var ch := s.hub.channels[w];
      assert SubscriberOk(s, w);
      if w in s.hub.subs && ch.startRV == 0 && !ch.stopClosed {
        forall k ensures Shows(s', w, s'.hub.channels[w], ch.sent, k) { RemovalShows(s, t, w, ch, ch.sent, k); }
      }
    }
    forall u | u in s'.threads && s'.threads[u].Watcher? && s'.threads[u].w in s'.hub.channels
      ensures WatchOk(s', s'.threads[u])
    {
      ScanKeptByRemoval(s, t, u);
    }
  }

  lemma ScanKeptByRemoval(s: State, t: ThreadId, u: ThreadId)
    requires KeysHeld(s) && WriterAt(s, t) && s.threads[t].pc.RemoveFile? && KeyAgrees(s, s.threads[t].key)
    requires u in s.threads && s.threads[u].Watcher? && s.threads[u].w in s.hub.channels && WatchOk(s, s.threads[u])
    ensures WatchOk(GoFile(s, t, s.threads[t]), s.threads[u])
  {
    var th := s.threads[u];
    var s' := GoFile(s, t, s.threads[t]);
    var ch := s.hub.channels[th.w];
    if ch.startRV == 0 && !ch.stopClosed && (th.wpc.Scan? || th.wpc.Deliver?) {
      forall k ensures ScanShows(s', th, k) {
        assert ScanShows(s, th, k);
        if Covered(th, k) { RemovalShows(s, t, th.w, ch, ch.sent + th.queue, k); }
      }
    }
  }

  lemma DirsKeptByFile(s: State, t: ThreadId)
    requires Dirs(s) && WriterAt(s, t)
    requires OnFile(s.threads[t].pc)
    ensures Dirs(GoFile(s, t, s.threads[t]))
    ensures !s.threads[t].pc.RemoveFile? ==> Silent(s, GoFile(s, t, s.threads[t]), t)
  {
  }

  lemma ViewKeptByVersion(s: State, t: ThreadId)
    requires Locks(s) && Chain(s) && Channels(s) && View(s) && WriterAt(s, t) && TakesVersion(s.threads[t].pc)
    ensures View(GoVersion(s, t, s.threads[t]))
  {
    var s' := GoVersion(s, t, s.threads[t]);
    assert KeyAgrees(s, s.threads[t].key);
    forall w, k ensures Calm(s, s', w, k) { CalmVersion(s, t, w, k); }
    ViewKeptWhenCalm(s, s', t);
  }

  lemma ViewKeptByPublish(s: State, t: ThreadId)
    requires Locks(s) && Chain(s) && Channels(s) && View(s) && WriterAt(s, t) && Publishes(s.threads[t].pc)
    ensures View(GoPublish(s, t, s.threads[t]))
  {
    var s' := GoPublish(s, t, s.threads[t]);
    assert KeyAgrees(s, s.threads[t].key);
    forall w, k | Followed(s, w) ensures Calm(s, s', w, k) {
      assert s.threads[t].pc.AppendRing? ==> HoldsRing(s.threads[t]);
      CalmPublish(s, t, w, k);
    }
    ViewKeptWhenCalm(s, s', t);
  }

  lemma ViewKeptByFailure(s: State, t: ThreadId)
    requires Locks(s) && Chain(s) && Channels(s) && View(s) && t in s.threads && s.threads[t].Writer?
    requires var pc := s.threads[t].pc; pc.RemoveFile? || pc.Persist? || pc.WriteTmp? || pc.Rename?
    ensures View(FailWriter(s, t, s.threads[t]))
  {
    var s' := FailWriter(s, t, s.threads[t]);
    assert KeyAgrees(s, s.threads[t].key);
    forall w, k ensures Calm(s, s', w, k) { CalmFailure(s, t, w, k); }
    ViewKeptWhenCalm(s, s', t);
  }

  // A Stop inside a publish ends the view of the watch it stops, and no other.
  lemma ViewKeptInside(s: State, t: ThreadId)
    requires Locks(s) && Chain(s) && Channels(s) && View(s) && WriterAt(s, t) && StopsInside(s.threads[t].pc)
    ensures View(GoInside(s, t, s.threads[t]))
  {
    var s' := GoInside(s, t, s.threads[t]);
    var v := s.threads[t].pc.victim;
    InsideFrame(s, t);
    assert LinkOk(s, t) && ChannelOk(s, v);
    forall w | w in s'.hub.channels ensures SubscriberOk(s', w) {
      assert SubscriberOk(s, w);
      var ch := s.hub.channels[w];
      if w != v && w in s.hub.subs && ch.startRV == 0 && !ch.stopClosed {
        forall k ensures Shows(s', w, ch, ch.sent, k) {
          assert Shows(s, w, ch, ch.sent, k);
          CalmInside(s, t, w, k);
        }
      }
    }
    forall u | u in s'.threads && s'.threads[u].Watcher? && s'.threads[u].w in s'.hub.channels
      ensures WatchOk(s', s'.threads[u])
    {
      assert WatchOk(s, s.threads[u]);
      assert HoldsRing(s.threads[t]);
    }
  }

  lemma CalmInside(s: State, t: ThreadId, w: WatchId, k: Key)
    requires KeysHeld(s) && WriterAt(s, t) && StopsInside(s.threads[t].pc) && w != s.threads[t].pc.victim
    ensures Calm(s, GoInside(s, t, s.threads[t]), w, k)
  {
    InsideFrame(s, t);
    if k == s.threads[t].key {
      assert Holder(s, k) == Some(s.threads[t]);
    }
  }

  // The event of a change shows the change.
  lemma EventShows(s: State, t: ThreadId)
    requires KeysHeld(s) && Chain(s) && t in s.threads && s.threads[t].Writer? && s.threads[t].pc.FanOut?
    ensures var th := s.threads[t];
      Outcome(EventOf(th.key, th.cur, th.plan, Version(th))) == Get(s.disk.files, th.key)
  {
    var th := s.threads[t];
    assert KeyAgrees(s, th.key) && Holder(s, th.key) == Some(th);
  }

  lemma CalmOffer(s: State, t: ThreadId, w: WatchId, how: How, w': WatchId, k: Key)
    requires KeysHeld(s) && w in s.hub.channels
    requires t in s.threads && s.threads[t].Writer? && s.threads[t].pc.FanOut?
    requires w' != w || k != s.threads[t].key
    requires !(how.Send? && s.hub.channels[w].closed)
    ensures Calm(s, OfferByWriter(s, t, s.threads[t], w, how), w', k)
  {
    if k == s.threads[t].key {
      assert Holder(s, k) == Some(s.threads[t]);
    }
  }

  // A publisher that panics has told all but the subscribers it had not come to.
  lemma SubscriberKeptByPanic(s: State, t: ThreadId, w: WatchId, w': WatchId)
    requires Locks(s) && Channels(s) && View(s) && OfferEnabled(s, t, w, Send) && s.threads[t].Writer?
    requires s.hub.channels[w].closed && w' in s.hub.channels
    ensures SubscriberOk(Unwound(s, t, s.threads[t], w), w')
  {
    var th := s.threads[t];
    var s' := Unwound(s, t, th, w);
    var ch, ch' := s.hub.channels[w'], s'.hub.channels[w'];
    assert SubscriberOk(s, w') && ChannelOk(s, w);
    if w' in s.hub.subs && ch.startRV == 0 && !ch.stopClosed {
      forall k ensures Shows(s', w', ch', ch.sent, k) {
        assert Shows(s, w', ch, ch.sent, k);
        if k == th.key {
          assert Holder(s, k) == Some(th);
        } else {
          assert Holder(s', k) == Holder(s, k);
        }
      }
    }
  }

  lemma SubscriberKeptByOffer(s: State, t: ThreadId, w: WatchId, how: How, w': WatchId)
    requires Locks(s) && Chain(s) && Channels(s) && View(s) && OfferEnabled(s, t, w, how) && s.threads[t].Writer?
    requires w' in s.hub.channels && !(how.Send? && s.hub.channels[w].closed)
    ensures SubscriberOk(OfferByWriter(s, t, s.threads[t], w, how), w')
  {
    var th := s.threads[t];
    var s' := OfferByWriter(s, t, th, w, how);
    var ch := s'.hub.channels[w'];
    assert SubscriberOk(s, w') && ChannelOk(s, w');
    EventShows(s, t);
    if w' in s.hub.subs && ch.startRV == 0 && !ch.stopClosed {
      forall k ensures Shows(s', w', ch, ch.sent, k) {
        assert Shows(s, w', s.hub.channels[w'], s.hub.channels[w'].sent, k);
        if w' != w || k != th.key { CalmOffer(s, t, w, how, w', k); }
        if w' == w {
          ViewAppend(None, s.hub.channels[w].sent, Change(EventOf(th.key, th.cur, th.plan, Version(th))), k);
          ToldAppend(s.hub.channels[w].sent, Change(EventOf(th.key, th.cur, th.plan, Version(th))), k);
        }
      }
    }
  }

  lemma ViewKeptByWriterOffer(s: State, t: ThreadId, w: WatchId, how: How)
    requires Locks(s) && Chain(s) && Channels(s) && View(s) && OfferEnabled(s, t, w, how) && s.threads[t].Writer?
    ensures View(OfferByWriter(s, t, s.threads[t], w, how))
  {
    var s' := OfferByWriter(s, t, s.threads[t], w, how);
    forall w' | w' in s'.hub.channels ensures SubscriberOk(s', w') {
      if how.Send? && s.hub.channels[w].closed { SubscriberKeptByPanic(s, t, w, w'); }
      else { SubscriberKeptByOffer(s, t, w, how, w'); }
    }
    forall u | u in s'.threads && s'.threads[u].Watcher? && s'.threads[u].w in s'.hub.channels
      ensures WatchOk(s', s'.threads[u])
    {
      assert WatchOk(s, s.threads[u]) && LinkOk(s, u) && LinkOk(s, t) && ChannelOk(s, w);
      assert HoldsRing(s.threads[t]);
    }
  }

  // --- Steps of watches ---

  lemma DirsKeptByWatcher(s: State, t: ThreadId)
    requires Dirs(s) && t in s.threads && s.threads[t].Watcher? && WatcherReady(s, s.threads[t])
    ensures Dirs(GoWatcher(s, t, s.threads[t]))
  {
  }

  // A step that changes one watch thread and one channel leaves the rest of the view.
  ghost predicate OnlyWatch(s: State, s': State, t: ThreadId, w: WatchId) {
    && s'.disk == s.disk && s'.past == s.past && s'.locks.keys == s.locks.keys
    && t in s'.threads && s'.threads == s.threads[t := s'.threads[t]]
    && !s'.threads[t].Writer? && (t in s.threads ==> !s.threads[t].Writer?)
    && (forall w' :: w' != w ==>
          && (w' in s'.hub.channels <==> w' in s.hub.channels)
          && (w' in s.hub.channels ==> s'.hub.channels[w'] == s.hub.channels[w'])
          && (w' in s'.hub.subs <==> w' in s.hub.subs))
  }

  lemma QuietKept(s: State, s': State, t: ThreadId, w': WatchId, w: WatchId, k: Key)
    requires KeysHeld(s) && OnlyWatch(s, s', t, w')
    ensures Coming(s', w, k) == Coming(s, w, k) && Due(s', w, k) == Due(s, w, k)
  {
    assert Holder(s', k) == Holder(s, k);
  }

  lemma ViewKeptElsewhere(s: State, s': State, t: ThreadId, w: WatchId)
    requires KeysHeld(s) && View(s) && OnlyWatch(s, s', t, w)
    requires w in s'.hub.channels ==> SubscriberOk(s', w)
    requires forall u :: u in s'.threads && s'.threads[u].Watcher? && s'.threads[u].w == w && w in s'.hub.channels ==>
               WatchOk(s', s'.threads[u])
    requires s'.threads[t].Watcher? ==> s'.threads[t].w == w
    ensures View(s')
  {
    forall w', k ensures Coming(s', w', k) == Coming(s, w', k) && Due(s', w', k) == Due(s, w', k) {
      QuietKept(s, s', t, w, w', k);
    }
    forall w' | w' in s'.hub.channels ensures SubscriberOk(s', w') {
      if w' != w {
        assert SubscriberOk(s, w');
        var ch := s.hub.channels[w'];
        assert forall k :: Shows(s', w', ch, ch.sent, k) == Shows(s, w', ch, ch.sent, k);
      }
    }
    forall u | u in s'.threads && s'.threads[u].Watcher? && s'.threads[u].w in s'.hub.channels
      ensures WatchOk(s', s'.threads[u])
    {
      if s'.threads[u].w != w {
        assert WatchOk(s, s.threads[u]);
        assert forall k :: ScanShows(s', s'.threads[u], k) == ScanShows(s, s.threads[u], k);
      }
    }
  }

  // The listing of the root: what it leaves out does not exist, or is never listed.
  lemma ListedAll(s: State, filter: Filter, k: Key)
    requires Dirs(s) && Matches(filter, k) && k !in RootFiles(s.disk.files, filter) && k.ns !in RootDirs(s.disk.dirs, filter)
    ensures k !in s.disk.files || !Listable(filter, k)
  {
  }

  // The watch has chosen where to start, and nothing is on its way yet.
  lemma ScanStarts(s: State, t: ThreadId)
    requires Locks(s) && Channels(s) && View(s)
    requires t in s.threads && s.threads[t].Watcher? && s.threads[t].wpc.ChooseStart? && WatcherReady(s, s.threads[t])
    ensures var s' := GoWatcher(s, t, s.threads[t]); WatchOk(s', s'.threads[t])
  {
    var th := s.threads[t];
    var s' := GoWatcher(s, t, th);
    var th' := s'.threads[t];
    var ch := s.hub.channels[th.w];
    assert WatchOk(s, th);
    if ch.startRV == 0 {
      assert ch.sent + th'.queue == [];
      forall k ensures ScanShows(s', th', k) {
        if Matches(ch.filter, k) && Covered(th', k) { ListedAll(s, ch.filter, k); }
      }
    }
  }

  lemma ScanEnds(s: State, t: ThreadId)
    requires Locks(s) && Channels(s) && View(s)
    requires t in s.threads && s.threads[t].Watcher? && s.threads[t].wpc.Scan? && WatcherReady(s, s.threads[t])
    ensures var s' := GoWatcher(s, t, s.threads[t]); WatchOk(s', s'.threads[t])
  {
    var th := s.threads[t];
    var s' := GoWatcher(s, t, th);
    var th' := s'.threads[t];
    var ch := s.hub.channels[th.w];
    assert WatchOk(s, th) && OnlyWatch(s, s', t, th.w);
    if !ch.stopClosed {
      forall k ensures ScanShows(s', th', k) {
        assert ScanShows(s, th, k);
        QuietKept(s, s', t, th.w, th.w, k);
        if th.bookmark {
          assert ch.sent + th'.queue == (ch.sent + th.queue) + [Bookmark(th.current)];
          ViewAppend(None, ch.sent + th.queue, Bookmark(th.current), k);
          ToldAppend(ch.sent + th.queue, Bookmark(th.current), k);
        } else {
          assert th'.queue == th.queue;
        }
      }
    }
  }

  // With everything delivered the watch subscribes: the view is the channel's own.
  lemma Subscribes(s: State, t: ThreadId)
    requires Locks(s) && Channels(s) && View(s)
    requires t in s.threads && s.threads[t].Watcher? && s.threads[t].wpc.Deliver? && WatcherReady(s, s.threads[t])
    ensures SubscriberOk(GoWatcher(s, t, s.threads[t]), s.threads[t].w)
  {
    var th := s.threads[t];
    var s' := GoWatcher(s, t, th);
    var ch := s.hub.channels[th.w];
    assert WatchOk(s, th) && OnlyWatch(s, s', t, th.w);
    if ch.startRV == 0 && !ch.stopClosed {
      forall k ensures Shows(s', th.w, s'.hub.channels[th.w], ch.sent, k) {
        assert ScanShows(s, th, k) && ch.sent + th.queue == ch.sent;
        QuietKept(s, s', t, th.w, th.w, k);
      }
    }
  }

  lemma ViewKeptByWatcher(s: State, t: ThreadId)
    requires Locks(s) && Channels(s) && View(s)
    requires t in s.threads && s.threads[t].Watcher? && WatcherReady(s, s.threads[t])
    ensures View(GoWatcher(s, t, s.threads[t]))
  {
    var th := s.threads[t];
    var s' := GoWatcher(s, t, th);
    WatcherOnly(s, t);
    DirsKeptByWatcher(s, t);
    assert WatchOk(s, th) && LinkOk(s, t) && ChannelOk(s, th.w) && SubscriberOk(s, th.w);
    if th.wpc.ChooseStart? { ScanStarts(s, t); }
    else if th.wpc.Scan? { ScanEnds(s, t); }
    if th.wpc.Deliver? { Subscribes(s, t); }
    else { SubscriberKeptByWatcher(s, t); }
    ViewKeptElsewhere(s, s', t, th.w);
  }

  lemma SubscriberKeptByWatcher(s: State, t: ThreadId)
    requires KeysHeld(s) && t in s.threads && s.threads[t].Watcher? && WatcherReady(s, s.threads[t]) && !s.threads[t].wpc.Deliver?
    requires LinkOk(s, t) && ChannelOk(s, s.threads[t].w) && SubscriberOk(s, s.threads[t].w)
    ensures SubscriberOk(GoWatcher(s, t, s.threads[t]), s.threads[t].w)
  {
    WatcherOnly(s, t);
    SubscriberKept(s, GoWatcher(s, t, s.threads[t]), t, s.threads[t].w);
  }

  lemma WatcherOnly(s: State, t: ThreadId)
    requires t in s.threads && s.threads[t].Watcher? && WatcherReady(s, s.threads[t])
    ensures var s' := GoWatcher(s, t, s.threads[t]);
      && OnlyWatch(s, s', t, s.threads[t].w)
      && s'.threads[t].Watcher? && s'.threads[t].w == s.threads[t].w
      && s.threads[t].w in s'.hub.channels
  {
  }

  // A step that sends nothing to w and leaves it as subscribed as it was, or less.
  lemma SubscriberKept(s: State, s': State, t: ThreadId, w: WatchId)
    requires KeysHeld(s) && OnlyWatch(s, s', t, w) && w in s.hub.channels && w in s'.hub.channels && SubscriberOk(s, w)
    requires w in s'.hub.subs ==> w in s.hub.subs && s'.hub.channels[w].sent == s.hub.channels[w].sent
    requires s'.hub.channels[w].filter == s.hub.channels[w].filter && s'.hub.channels[w].startRV == s.hub.channels[w].startRV
    requires w in s'.hub.subs ==> s'.hub.channels[w].unseen == s.hub.channels[w].unseen
    requires w in s'.hub.subs ==> s'.hub.channels[w].missed == s.hub.channels[w].missed
    requires s.hub.channels[w].stopClosed ==> s'.hub.channels[w].stopClosed
    ensures SubscriberOk(s', w)
  {
    var ch := s'.hub.channels[w];
    if w in s'.hub.subs && ch.startRV == 0 && !ch.stopClosed {
      forall k ensures Shows(s', w, ch, ch.sent, k) {
        assert Shows(s, w, s.hub.channels[w], ch.sent, k);
        QuietKept(s, s', t, w, w, k);
      }
    }
  }

  lemma ViewKeptByWatcherOffer(s: State, t: ThreadId, how: How)
    requires Locks(s) && Channels(s) && View(s)
    requires t in s.threads && s.threads[t].Watcher?
    requires OfferEnabled(s, t, s.threads[t].w, how)
    ensures View(OfferByWatcher(s, t, s.threads[t], how))
  {
    var th := s.threads[t];
    var s' := OfferByWatcher(s, t, th, how);
    var ch := s.hub.channels[th.w];
    assert WatchOk(s, th) && LinkOk(s, t) && ChannelOk(s, th.w) && SubscriberOk(s, th.w);
    assert OnlyWatch(s, s', t, th.w);
    SubscriberKept(s, s', t, th.w);
    if ch.startRV == 0 && !s'.hub.channels[th.w].stopClosed {
      assert s'.hub.channels[th.w].sent + s'.threads[t].queue == ch.sent + th.queue;
      forall k ensures ScanShows(s', s'.threads[t], k) {
        assert ScanShows(s, th, k);
        QuietKept(s, s', t, th.w, th.w, k);
      }
    }
    ViewKeptElsewhere(s, s', t, th.w);
  }

  lemma ViewKeptByListing(s: State, t: ThreadId, ns: string)
    requires Locks(s) && Channels(s) && View(s) && Enabled(s, ListDir(t, ns))
    ensures View(Do(s, ListDir(t, ns)))
  {
    var th := s.threads[t];
    var s' := Do(s, ListDir(t, ns));
    var th' := s'.threads[t];
    assert LinkOk(s, t) && WatchOk(s, th) && SubscriberOk(s, th.w) && OnlyWatch(s, s', t, th.w);
    if !s.hub.channels[th.w].stopClosed {
      forall k ensures ScanShows(s', th', k) {
        assert ScanShows(s, th, k);
        if !Covered(th, k) { UntoldView(s.hub.channels[th.w].sent + th.queue, k); }
        QuietKept(s, s', t, th.w, th.w, k);
      }
    }
    SubscriberKept(s, s', t, th.w);
    ViewKeptElsewhere(s, s', t, th.w);
  }

  lemma ViewKeptByFetch(s: State, t: ThreadId, key: Key)
    requires Locks(s) && Channels(s) && View(s) && Enabled(s, Fetch(t, key))
    ensures View(Do(s, Fetch(t, key)))
  {
    var th := s.threads[t];
    var s' := Do(s, Fetch(t, key));
    var th' := s'.threads[t];
    var ch := s.hub.channels[th.w];
    assert LinkOk(s, t) && WatchOk(s, th) && SubscriberOk(s, th.w) && OnlyWatch(s, s', t, th.w);
    if !ch.stopClosed {
      forall k ensures ScanShows(s', th', k) {
        assert ScanShows(s, th, k);
        if !Covered(th, k) { UntoldView(ch.sent + th.queue, k); }
        QuietKept(s, s', t, th.w, th.w, k);
        if key in s.disk.files {
          var sig := Initial(key, s.disk.files[key]);
          assert ch.sent + th'.queue == (ch.sent + th.queue) + [sig];
          ViewAppend(None, ch.sent + th.queue, sig, k);
          ToldAppend(ch.sent + th.queue, sig, k);
        }
      }
    }
    SubscriberKept(s, s', t, th.w);
    ViewKeptElsewhere(s, s', t, th.w);
  }

  lemma ViewKeptByStopper(s: State, t: ThreadId)
    requires Locks(s) && Channels(s) && View(s)
    requires t in s.threads && s.threads[t].Stopper? && StopperReady(s, s.threads[t])
    ensures View(GoStopper(s, t, s.threads[t]))
  {
    var w := s.threads[t].w;
    var s' := GoStopper(s, t, s.threads[t]);
    StopperOnly(s, t);
    assert SubscriberOk(s, w);
    SubscriberKept(s, s', t, w);
    forall u | u in s'.threads && s'.threads[u].Watcher? && s'.threads[u].w == w ensures WatchOk(s', s'.threads[u]) {
      WatchKeptByStop(s, s', t, u);
    }
    ViewKeptElsewhere(s, s', t, w);
  }

  // What a Stop call does to the channel it stops.
  ghost predicate StopsChannel(ch: Channel, ch': Channel) {
    && ch'.sent == ch.sent && ch'.filter == ch.filter && ch'.startRV == ch.startRV && ch'.unseen == ch.unseen && ch'.missed == ch.missed
    && (ch.stopClosed ==> ch'.stopClosed)
  }

  lemma StopperOnly(s: State, t: ThreadId)
    requires t in s.threads && s.threads[t].Stopper? && StopperReady(s, s.threads[t])
    ensures var s' := GoStopper(s, t, s.threads[t]); var w := s.threads[t].w;
      && OnlyWatch(s, s', t, w) && s'.threads[t].Stopper? && w in s'.hub.channels
      && StopsChannel(s.hub.channels[w], s'.hub.channels[w])
      && s'.hub.subs <= s.hub.subs
  {
  }

  lemma WatchKeptByStop(s: State, s': State, t: ThreadId, u: ThreadId)
    requires KeysHeld(s) && View(s) && u in s.threads && u != t && s.threads[u].Watcher?
    requires var w := s.threads[u].w;
      && OnlyWatch(s, s', t, w) && w in s.hub.channels && w in s'.hub.channels
      && StopsChannel(s.hub.channels[w], s'.hub.channels[w])
    ensures WatchOk(s', s.threads[u])
  {
    var th := s.threads[u];
    var ch' := s'.hub.channels[th.w];
    assert WatchOk(s, th);
    if ch'.startRV == 0 && !ch'.stopClosed && (th.wpc.Scan? || th.wpc.Deliver?) {
      forall k ensures ScanShows(s', th, k) {
        assert ScanShows(s, th, k);
        QuietKept(s, s', t, th.w, th.w, k);
      }
    }
  }

  // A new request, watch or Stop call changes nothing a view depends on.
  lemma ViewKeptByNew(s: State, l: Label)
    requires Locks(s) && Channels(s) && View(s) && Enabled(s, l)
    requires l.NewWriter? || l.NewStop? || l.NewWatch?
    ensures View(Do(s, l))
  {
    var s' := Do(s, l);
    forall w, k ensures Coming(s', w, k) == Coming(s, w, k) && Due(s', w, k) == Due(s, w, k) {
      assert Holder(s', k) == Holder(s, k);
    }
    forall w | w in s'.hub.channels ensures SubscriberOk(s', w) {
      if w in s.hub.channels {
        var ch := s.hub.channels[w];
        assert SubscriberOk(s, w);
        assert forall k :: Shows(s', w, ch, ch.sent, k) == Shows(s, w, ch, ch.sent, k);
      }
    }
    forall u | u in s'.threads && s'.threads[u].Watcher? && s'.threads[u].w in s'.hub.channels
      ensures WatchOk(s', s'.threads[u])
    {
      if u in s.threads {
        assert LinkOk(s, u) && WatchOk(s, s.threads[u]);
        assert forall k :: ScanShows(s', s.threads[u], k) == ScanShows(s, s.threads[u], k);
      }
    }
  }

  // Taking a signal out of the channel does not change what was sent.
  lemma ViewKeptByDrain(s: State, w: WatchId)
    requires View(s) && w in s.hub.channels && s.hub.channels[w].buffered > 0
    ensures var ch := s.hub.channels[w];
      View(s.(hub := s.hub.(channels := s.hub.channels[w := ch.(buffered := ch.buffered - 1)])))
  {
    var ch := s.hub.channels[w];
    var s' := s.(hub := s.hub.(channels := s.hub.channels[w := ch.(buffered := ch.buffered - 1)]));
    forall v | v in s'.hub.channels ensures SubscriberOk(s', v) {
      assert SubscriberOk(s, v);
      assert forall k :: Shows(s', v, s'.hub.channels[v], s.hub.channels[v].sent, k)
                      == Shows(s, v, s.hub.channels[v], s.hub.channels[v].sent, k);
    }
    forall u | u in s'.threads && s'.threads[u].Watcher? && s'.threads[u].w in s'.hub.channels
      ensures WatchOk(s', s'.threads[u])
    {
      assert WatchOk(s, s.threads[u]);
      assert forall k :: ScanShows(s', s.threads[u], k) == ScanShows(s, s.threads[u], k);
    }
  }

  lemma ViewKept(s: State, l: Label)
    requires Enabled(s, l) && Locks(s) && Chain(s) && Channels(s) && View(s)
    requires l.Go? && s.threads[l.t].Writer? ==> WriterAt(s, l.t)
    ensures View(Do(s, l))
  {
    match l {
      case Go(t) =>
        var th := s.threads[t];
        if th.Watcher? { ViewKeptByWatcher(s, t); }
        else if th.Stopper? { ViewKeptByStopper(s, t); }
        else if TakesVersion(th.pc) { ViewKeptByVersion(s, t); }
        else if Publishes(th.pc) { ViewKeptByPublish(s, t); }
        else if StopsInside(th.pc) { ViewKeptInside(s, t); }
        else { ViewKeptByFile(s, t); }
      case Fail(t) => ViewKeptByFailure(s, t);
      case Offer(t, w, how) =>
        if s.threads[t].Writer? { ViewKeptByWriterOffer(s, t, w, how); }
        else { ViewKeptByWatcherOffer(s, t, how); }
      case ListDir(t, ns) => ViewKeptByListing(s, t, ns);
      case Fetch(t, key) => ViewKeptByFetch(s, t, key);
      case Drain(w) => ViewKeptByDrain(s, w);
      case Crash =>
      case _ => ViewKeptByNew(s, l);
    }
  }
}
