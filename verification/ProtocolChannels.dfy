/** Watch channels: who may still send on a channel, and when it is closed. */
module ProtocolChannels {
  import opened Objects
  import opened Options
  import opened Protocol
  import opened ProtocolLocks

  predicate Closing(spc: StopPC) {
    spc.RunHook? || spc.Unsubscribe? || spc.UnlockHook? || spc.CloseChannel?
  }

  // The thread that carries out a shutdown under way: a Stop call past its Once, or a
  // publisher that met a full buffer.
  predicate Runs(s: State, w: WatchId, t: ThreadId) {
    t in s.threads &&
    match s.threads[t]
    case Stopper(own, spc) => own == w && Closing(spc)
    case Writer(_, _, pc, _, _, _, _, _) => pc == StopHook(w)
    case Watcher(_, _, _, _, _, _, _) => false
  }

  predicate Unsubscribed(s: State, w: WatchId)
    requires w in s.hub.channels
  {
    s.hub.channels[w].hooked && w !in s.hub.subs
  }

  // A channel is closed only after its watcher left the subscriptions, unless Stop ran
  // before there was a subscription to leave.
  predicate ChannelOk(s: State, w: WatchId)
    requires w in s.hub.channels
  {
    var ch := s.hub.channels[w];
    && (ch.stopClosed <==> !ch.once.Fresh?)
    && (ch.closed ==> ch.stopClosed && (ch.early || Unsubscribed(s, w)))
    && (ch.once.Done? ==> ch.closed)
    && (ch.early ==> ch.stopClosed)
    && (w in s.hub.subs ==> ch.hooked)
    && (ch.once.Running? ==> Runs(s, w, ch.once.runner))
  }

  predicate BeforeHook(wpc: WatchPC) {
    !wpc.UnlockWatch? && !wpc.Watching?
  }

  predicate LinkOk(s: State, t: ThreadId)
    requires t in s.threads
  {
    match s.threads[t]
    case Writer(_, _, pc, _, _, _, _, todo) =>
      && (Fanning(pc) ==> todo <= s.hub.subs)
      && (pc.StopEnter? || pc.StopHook? ==>
            pc.victim in s.hub.channels && pc.victim in todo && s.hub.channels[pc.victim].hooked
            && !s.hub.channels[pc.victim].early)
      && (pc.StopHook? ==> s.hub.channels[pc.victim].once == Running(t))
    case Watcher(w, _, wpc, _, _, _, _) =>
      w in s.hub.channels && (BeforeHook(wpc) ==> !s.hub.channels[w].hooked)
    case Stopper(w, spc) =>
      && w in s.hub.channels
      && (Closing(spc) ==> s.hub.channels[w].once == Running(t))
      && (spc.Unsubscribe? ==> s.hub.channels[w].hooked)
      && (spc.UnlockHook? || spc.CloseChannel? ==> s.hub.channels[w].early || Unsubscribed(s, w))
  }

  ghost predicate Channels(s: State) {
    && s.hub.subs <= s.hub.channels.Keys
    && (forall w :: w in s.hub.channels ==> ChannelOk(s, w))
    && (forall t :: t in s.threads ==> LinkOk(s, t))
    && (forall t, u :: t in s.threads && u in s.threads && t != u && s.threads[t].Watcher? && s.threads[u].Watcher? ==>
          s.threads[t].w != s.threads[u].w)
  }

  // Whatever else a step changes, the channels are in the same stage of their lives.
  predicate SameLife(ch: Channel, ch': Channel) {
    ch'.once == ch.once && ch'.stopClosed == ch.stopClosed && ch'.closed == ch.closed && ch'.hooked == ch.hooked
    && ch'.early == ch.early
  }

  ghost predicate SameLives(s: State, s': State) {
    && s'.hub.subs == s.hub.subs && s'.hub.channels.Keys == s.hub.channels.Keys
    && forall w :: w in s.hub.channels ==> SameLife(s.hub.channels[w], s'.hub.channels[w])
  }

  lemma ChannelsKeptByLives(s: State, s': State, t: ThreadId)
    requires Channels(s) && SameLives(s, s')
    requires t in s.threads && t in s'.threads && s'.threads == s.threads[t := s'.threads[t]] && LinkOk(s', t)
    requires forall w :: Runs(s, w, t) ==> Runs(s', w, t)
    requires s'.threads[t].Watcher? ==> s.threads[t].Watcher? && s'.threads[t].w == s.threads[t].w
    ensures Channels(s')
  {
    forall w | w in s'.hub.channels ensures ChannelOk(s', w) {
      assert ChannelOk(s, w) && SameLife(s.hub.channels[w], s'.hub.channels[w]);
    }
    forall u | u in s'.threads && u != t ensures LinkOk(s', u) {
      assert LinkOk(s, u);
    }
  }

  lemma ChannelsKeptByFile(s: State, t: ThreadId)
    requires Channels(s)
    requires t in s.threads && s.threads[t].Writer? && WriterReady(s, s.threads[t])
    requires OnFile(s.threads[t].pc)
    ensures Channels(GoFile(s, t, s.threads[t]))
  {
    ChannelsKeptByLives(s, GoFile(s, t, s.threads[t]), t);
  }

  lemma ChannelsKeptByVersion(s: State, t: ThreadId)
    requires Channels(s) && t in s.threads && s.threads[t].Writer? && TakesVersion(s.threads[t].pc)
    ensures Channels(GoVersion(s, t, s.threads[t]))
  {
  }

  lemma ChannelsKeptByPublish(s: State, t: ThreadId)
    requires Channels(s) && t in s.threads && s.threads[t].Writer? && Publishes(s.threads[t].pc)
    ensures Channels(GoPublish(s, t, s.threads[t]))
  {
  }

  lemma ChannelsKeptInside(s: State, t: ThreadId)
    requires RingHeld(s) && Channels(s)
    requires t in s.threads && s.threads[t].Writer? && WriterReady(s, s.threads[t])
    requires StopsInside(s.threads[t].pc)
    ensures Channels(GoInside(s, t, s.threads[t]))
  {
    var w := s.threads[t].pc.victim;
    assert LinkOk(s, t) && ChannelOk(s, w);
    assert HoldsRing(s.threads[t]);
  }

  lemma ChannelsKeptByFailure(s: State, t: ThreadId)
    requires Channels(s) && t in s.threads && s.threads[t].Writer?
    requires var pc := s.threads[t].pc; pc.RemoveFile? || pc.Persist? || pc.WriteTmp? || pc.Rename?
    ensures Channels(FailWriter(s, t, s.threads[t]))
  {
  }

  lemma ChannelsKeptByWriterOffer(s: State, t: ThreadId, w: WatchId, how: How)
    requires RingHeld(s) && Channels(s) && Enabled(s, Offer(t, w, how)) && s.threads[t].Writer?
    ensures Channels(OfferByWriter(s, t, s.threads[t], w, how))
  {
  }

  lemma ChannelsKeptByWatcherOffer(s: State, t: ThreadId, how: How)
    requires Channels(s) && t in s.threads && s.threads[t].Watcher?
    requires s.threads[t].wpc.Deliver? && s.threads[t].queue != [] && s.threads[t].w in s.hub.channels
    requires CanOffer(s.hub.channels[s.threads[t].w], how)
    ensures Channels(OfferByWatcher(s, t, s.threads[t], how))
  {
    var s' := OfferByWatcher(s, t, s.threads[t], how);
    assert LinkOk(s, t);
  }

  // A step of a watch that leaves the channels alone.
  lemma ChannelsKeptByWatcherMove(s: State, t: ThreadId)
    requires Channels(s) && t in s.threads && s.threads[t].Watcher? && WatcherReady(s, s.threads[t])
    requires var wpc := s.threads[t].wpc; !wpc.Deliver? && !wpc.SendExpired? && !wpc.StopExpired?
    ensures Channels(GoWatcher(s, t, s.threads[t]))
  {
    assert LinkOk(s, t);
    ChannelsKeptByLives(s, GoWatcher(s, t, s.threads[t]), t);
  }

  lemma ChannelsKeptBySubscription(s: State, t: ThreadId)
    requires Channels(s) && t in s.threads && s.threads[t].Watcher? && WatcherReady(s, s.threads[t])
    requires s.threads[t].wpc.Deliver?
    ensures Channels(GoWatcher(s, t, s.threads[t]))
  {
    assert LinkOk(s, t) && ChannelOk(s, s.threads[t].w);
  }

  lemma ChannelsKeptByExpiry(s: State, t: ThreadId)
    requires Channels(s) && t in s.threads && s.threads[t].Watcher? && WatcherReady(s, s.threads[t])
    requires s.threads[t].wpc.SendExpired?
    ensures Channels(GoWatcher(s, t, s.threads[t]))
  {
    assert LinkOk(s, t) && ChannelOk(s, s.threads[t].w);
    ChannelsKeptByLives(s, GoWatcher(s, t, s.threads[t]), t);
  }

  lemma ChannelsKeptByRefusal(s: State, t: ThreadId)
    requires Channels(s) && t in s.threads && s.threads[t].Watcher? && WatcherReady(s, s.threads[t])
    requires s.threads[t].wpc.StopExpired?
    ensures Channels(GoWatcher(s, t, s.threads[t]))
  {
    assert LinkOk(s, t) && ChannelOk(s, s.threads[t].w);
  }

  // No publisher is fanning out while the hook holds the broadcaster mutex.
  lemma ChannelsKeptByUnsubscribe(s: State, t: ThreadId)
    requires RingHeld(s) && Channels(s) && t in s.threads && s.threads[t].Stopper? && StopperReady(s, s.threads[t])
    requires s.threads[t].spc.Unsubscribe?
    ensures Channels(GoStopper(s, t, s.threads[t]))
  {
    assert LinkOk(s, t) && ChannelOk(s, s.threads[t].w);
    assert HoldsRing(s.threads[t]);
  }

  lemma ChannelsKeptByUnlockHook(s: State, t: ThreadId)
    requires Channels(s) && t in s.threads && s.threads[t].Stopper? && StopperReady(s, s.threads[t])
    requires s.threads[t].spc.UnlockHook?
    ensures Channels(GoStopper(s, t, s.threads[t]))
  {
    assert LinkOk(s, t);
    ChannelsKeptByLives(s, GoStopper(s, t, s.threads[t]), t);
  }

  lemma ChannelsKeptByClose(s: State, t: ThreadId)
    requires Channels(s) && t in s.threads && s.threads[t].Stopper? && StopperReady(s, s.threads[t])
    requires s.threads[t].spc.CloseChannel?
    ensures Channels(GoStopper(s, t, s.threads[t]))
  {
    assert LinkOk(s, t) && ChannelOk(s, s.threads[t].w);
  }

  lemma ChannelsKeptByEntry(s: State, t: ThreadId)
    requires RingHeld(s) && Channels(s) && t in s.threads && s.threads[t].Stopper? && StopperReady(s, s.threads[t])
    requires s.threads[t].spc.EnterOnce?
    ensures Channels(GoStopper(s, t, s.threads[t]))
  {
    assert LinkOk(s, t) && ChannelOk(s, s.threads[t].w);
  }

  lemma ChannelsKeptByHook(s: State, t: ThreadId)
    requires RingHeld(s) && Channels(s) && t in s.threads && s.threads[t].Stopper? && StopperReady(s, s.threads[t])
    requires s.threads[t].spc.RunHook?
    ensures Channels(GoStopper(s, t, s.threads[t]))
  {
    assert LinkOk(s, t) && ChannelOk(s, s.threads[t].w);
  }

  lemma ChannelsKeptByScan(s: State, l: Label)
    requires Enabled(s, l) && Channels(s) && (l.ListDir? || l.Fetch?)
    ensures Channels(Do(s, l))
  {
    assert LinkOk(s, l.t);
    ChannelsKeptByLives(s, Do(s, l), l.t);
  }

  lemma ChannelsKeptByOther(s: State, l: Label)
    requires Enabled(s, l) && Channels(s) && !l.Go? && !l.Fail? && !l.Offer? && !l.ListDir? && !l.Fetch?
    ensures Channels(Do(s, l))
  {
  }

  lemma ChannelsKept(s: State, l: Label)
    requires Enabled(s, l) && Locks(s) && Channels(s)
    ensures Channels(Do(s, l))
  {
    match l {
      case Go(t) =>
        var th := s.threads[t];
        if th.Watcher? {
          if th.wpc.Deliver? { ChannelsKeptBySubscription(s, t); }
          else if th.wpc.SendExpired? { ChannelsKeptByExpiry(s, t); }
          else if th.wpc.StopExpired? { ChannelsKeptByRefusal(s, t); }
          else { ChannelsKeptByWatcherMove(s, t); }
        } else if th.Stopper? {
          if th.spc.EnterOnce? { ChannelsKeptByEntry(s, t); }
          else if th.spc.RunHook? { ChannelsKeptByHook(s, t); }
          else if th.spc.Unsubscribe? { ChannelsKeptByUnsubscribe(s, t); }
          else if th.spc.UnlockHook? { ChannelsKeptByUnlockHook(s, t); }
          else { ChannelsKeptByClose(s, t); }
        }
        else if TakesVersion(th.pc) { ChannelsKeptByVersion(s, t); }
        else if Publishes(th.pc) { ChannelsKeptByPublish(s, t); }
        else if StopsInside(th.pc) { ChannelsKeptInside(s, t); }
        else { ChannelsKeptByFile(s, t); }
      case Fail(t) => ChannelsKeptByFailure(s, t);
      case Offer(t, w, how) =>
        if s.threads[t].Writer? { ChannelsKeptByWriterOffer(s, t, w, how); }
        else { ChannelsKeptByWatcherOffer(s, t, how); }
      case ListDir(_, _) => ChannelsKeptByScan(s, l);
      case Fetch(_, _) => ChannelsKeptByScan(s, l);
      case _ => ChannelsKeptByOther(s, l);
    }
  }
}
