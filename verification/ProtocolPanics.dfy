/** When a send on a closed channel makes a thread panic, and what that costs the others. */
module ProtocolPanics {
  import opened Objects
  import opened Options
  import opened Protocol
  import opened ProtocolChain
  import opened ProtocolChannels
  import opened ProtocolLocks
  import opened ProtocolTheorems

  // A send on a closed channel.
  predicate SendsOnClosed(s: State, l: Label) {
    match l
    case Offer(_, w, how) => how.Send? && w in s.hub.channels && s.hub.channels[w].closed
    case Go(t) =>
      && t in s.threads && s.threads[t].Watcher? && s.threads[t].wpc.SendExpired?
      && s.threads[t].w in s.hub.channels && s.hub.channels[s.threads[t].w].closed
    case _ => false
  }

  // --- Runs without panics ---

  // The signals that a watch starts with: what it has to deliver once it knows its start.
  function StartsWith(s: State, l: Label, s': State): seq<Signal> {
    if l.Go? && l.t in s.threads && s.threads[l.t].Watcher? && (s.threads[l.t].wpc.ChooseStart? || s.threads[l.t].wpc.Scan?)
       && l.t in s'.threads && s'.threads[l.t].Watcher?
    then s'.threads[l.t].queue else []
  }

  // Stop is called, and contexts are cancelled, only after Watch has returned; and no watch
  // starts with more signals than its channel has room for.
  predicate Orderly(s: State, l: Label, s': State) {
    && (l.NewStop? ==> l.w in s.hub.channels && s.hub.channels[l.w].handed)
    && |StartsWith(s, l, s')| <= CHANNEL_SIZE
  }

  ghost predicate ChannelCalm(s: State, w: WatchId)
    requires w in s.hub.channels
  {
    var ch := s.hub.channels[w];
    && (ch.early ==> ch.handed && w !in s.hub.subs)
    && (!ch.handed ==> ch.once.Fresh? && !ch.closed)
    && (!ch.handed && w in s.hub.subs ==> Finishing(s, w))
  }

  // The watch is subscribed, and about to release the broadcaster mutex.
  predicate Finishing(s: State, w: WatchId) {
    s.locks.ring.Some? && s.locks.ring.value in s.threads &&
    var th := s.threads[s.locks.ring.value];
    th.Watcher? && th.wpc.UnlockWatch? && th.w == w
  }

  predicate ThreadCalm(s: State, th: Thread) {
    match th
    case Writer(_, _, _, _, _, _, _, _) => true
    case Watcher(w, _, wpc, _, _, _, queue) =>
      w in s.hub.channels && !wpc.Died? &&
      var ch := s.hub.channels[w];
      && (!wpc.Watching? ==> !ch.handed)
      && (wpc.Deliver? ==> ch.buffered + |queue| <= CHANNEL_SIZE)
      && (!wpc.Deliver? && !wpc.UnlockWatch? && !wpc.StopExpired? && !wpc.Watching? ==> ch.buffered == 0)
    case Stopper(w, _) => w in s.hub.channels && s.hub.channels[w].handed
  }

  ghost predicate Calmed(s: State) {
    && (forall w :: w in s.hub.channels ==> ChannelCalm(s, w))
    && (forall t :: t in s.threads ==> ThreadCalm(s, s.threads[t]))
  }

  lemma NothingSentOnClosed(s: State, l: Label)
    requires Inv(s) && Calmed(s) && Enabled(s, l)
    ensures !SendsOnClosed(s, l)
  {
    if l.Offer? || l.Go? {
      assert LinkOk(s, l.t) && ThreadCalm(s, s.threads[l.t]);
      var w := if l.Offer? then l.w else if s.threads[l.t].Watcher? then s.threads[l.t].w else 0;
      if w in s.hub.channels {
        assert ChannelOk(s, w) && ChannelCalm(s, w);
      }
    }
  }

  // A step of one thread that leaves the channels as they are, but for what the proofs note.
  predicate SameStage(ch: Channel, ch': Channel) {
    SameLife(ch, ch') && ch'.handed == ch.handed && ch'.buffered == ch.buffered
  }

  ghost predicate SameStages(s: State, s': State) {
    && s'.hub.subs == s.hub.subs && s'.hub.channels.Keys == s.hub.channels.Keys
    && forall w :: w in s.hub.channels ==> SameStage(s.hub.channels[w], s'.hub.channels[w])
  }

  lemma CalmedByStages(s: State, s': State, t: ThreadId)
    requires Calmed(s) && SameStages(s, s')
    requires t in s'.threads && s'.threads == s.threads[t := s'.threads[t]] && ThreadCalm(s', s'.threads[t])
    requires forall w :: w in s.hub.channels && Finishing(s, w) ==> Finishing(s', w)
    ensures Calmed(s')
  {
    forall w | w in s'.hub.channels ensures ChannelCalm(s', w) {
      assert ChannelCalm(s, w) && SameStage(s.hub.channels[w], s'.hub.channels[w]);
    }
    forall u | u in s'.threads && u != t ensures ThreadCalm(s', s'.threads[u]) {
      assert ThreadCalm(s, s.threads[u]);
    }
  }

  lemma CalmedByFile(s: State, t: ThreadId)
    requires Locks(s) && Calmed(s) && WriterAt(s, t) && OnFile(s.threads[t].pc)
    ensures Calmed(GoFile(s, t, s.threads[t]))
  {
    CalmedByStages(s, GoFile(s, t, s.threads[t]), t);
  }

  lemma CalmedByVersion(s: State, t: ThreadId)
    requires Locks(s) && Calmed(s) && WriterAt(s, t) && TakesVersion(s.threads[t].pc)
    ensures Calmed(GoVersion(s, t, s.threads[t]))
  {
    CalmedByStages(s, GoVersion(s, t, s.threads[t]), t);
  }

  lemma CalmedByPublish(s: State, t: ThreadId)
    requires Locks(s) && Calmed(s) && WriterAt(s, t) && Publishes(s.threads[t].pc)
    ensures Calmed(GoPublish(s, t, s.threads[t]))
  {
    assert HoldsRing(s.threads[t]) ==> s.locks.ring == Some(t);
    CalmedByStages(s, GoPublish(s, t, s.threads[t]), t);
  }

  lemma CalmedInside(s: State, t: ThreadId)
    requires Locks(s) && Channels(s) && Calmed(s) && WriterAt(s, t) && StopsInside(s.threads[t].pc)
    ensures Calmed(GoInside(s, t, s.threads[t]))
  {
    var v := s.threads[t].pc.victim;
    var s' := GoInside(s, t, s.threads[t]);
    assert HoldsRing(s.threads[t]) && LinkOk(s, t) && ChannelOk(s, v) && ChannelCalm(s, v);
    forall w | w in s'.hub.channels ensures ChannelCalm(s', w) { assert ChannelCalm(s, w); }
    forall u | u in s'.threads ensures ThreadCalm(s', s'.threads[u]) { assert ThreadCalm(s, s.threads[u]); }
  }

  lemma CalmedByFailure(s: State, l: Label)
    requires Locks(s) && Calmed(s) && Enabled(s, l) && l.Fail?
    ensures Calmed(Do(s, l))
  {
    CalmedByStages(s, Do(s, l), l.t);
  }

  lemma CalmedByWriterOffer(s: State, t: ThreadId, w: WatchId, how: How)
    requires Locks(s) && Channels(s) && Calmed(s) && OfferEnabled(s, t, w, how) && s.threads[t].Writer?
    requires !(how.Send? && s.hub.channels[w].closed)
    ensures Calmed(OfferByWriter(s, t, s.threads[t], w, how))
  {
    var s' := OfferByWriter(s, t, s.threads[t], w, how);
    assert HoldsRing(s.threads[t]) && LinkOk(s, t) && ChannelOk(s, w);
    forall v | v in s'.hub.channels ensures ChannelCalm(s', v) { assert ChannelCalm(s, v); }
    forall u | u in s'.threads ensures ThreadCalm(s', s'.threads[u]) {
      assert ThreadCalm(s, s.threads[u]) && LinkOk(s, u);
      if s.threads[u].Watcher? && s.threads[u].w == w { assert ChannelCalm(s, w); }
    }
  }

  lemma CalmedByWatcherOffer(s: State, t: ThreadId, how: How)
    requires Locks(s) && Channels(s) && Calmed(s) && t in s.threads && s.threads[t].Watcher?
    requires OfferEnabled(s, t, s.threads[t].w, how) && !(how.Send? && s.hub.channels[s.threads[t].w].closed)
    ensures Calmed(OfferByWatcher(s, t, s.threads[t], how))
  {
    var w := s.threads[t].w;
    var s' := OfferByWatcher(s, t, s.threads[t], how);
    assert HoldsRing(s.threads[t]) && LinkOk(s, t) && ThreadCalm(s, s.threads[t]) && ChannelOk(s, w) && ChannelCalm(s, w);
    forall v | v in s'.hub.channels ensures ChannelCalm(s', v) { assert ChannelCalm(s, v); }
    forall u | u in s'.threads ensures ThreadCalm(s', s'.threads[u]) { assert ThreadCalm(s, s.threads[u]); }
  }

  // A step of a watch that does not end in a subscription or a return.
  lemma CalmedByWatcherMove(s: State, t: ThreadId)
    requires Locks(s) && Calmed(s) && t in s.threads && s.threads[t].Watcher? && WatcherReady(s, s.threads[t])
    requires var wpc := s.threads[t].wpc;
      && !wpc.Deliver? && !wpc.UnlockWatch? && !wpc.SendExpired? && !wpc.StopExpired? && !wpc.ChooseStart? && !wpc.Scan?
    ensures Calmed(GoWatcher(s, t, s.threads[t]))
  {
    assert ThreadCalm(s, s.threads[t]);
    assert HoldsRing(s.threads[t]) ==> s.locks.ring == Some(t);
    CalmedByStages(s, GoWatcher(s, t, s.threads[t]), t);
  }

  // The watch has its signals together.
  lemma CalmedByStart(s: State, t: ThreadId)
    requires Locks(s) && Calmed(s) && t in s.threads && s.threads[t].Watcher? && WatcherReady(s, s.threads[t])
    requires s.threads[t].wpc.ChooseStart? || s.threads[t].wpc.Scan?
    requires Orderly(s, Go(t), GoWatcher(s, t, s.threads[t]))
    ensures Calmed(GoWatcher(s, t, s.threads[t]))
  {
    assert ThreadCalm(s, s.threads[t]);
    assert HoldsRing(s.threads[t]) ==> s.locks.ring == Some(t);
    CalmedByStages(s, GoWatcher(s, t, s.threads[t]), t);
  }

  lemma CalmedByWatcher(s: State, t: ThreadId)
    requires Locks(s) && Channels(s) && Calmed(s) && t in s.threads && s.threads[t].Watcher? && WatcherReady(s, s.threads[t])
    requires var wpc := s.threads[t].wpc; wpc.Deliver? || wpc.UnlockWatch? || wpc.SendExpired? || wpc.StopExpired?
    requires !SendsOnClosed(s, Go(t))
    ensures Calmed(GoWatcher(s, t, s.threads[t]))
  {
    var w := s.threads[t].w;
    var s' := GoWatcher(s, t, s.threads[t]);
    assert ThreadCalm(s, s.threads[t]) && LinkOk(s, t) && ChannelOk(s, w) && ChannelCalm(s, w);
    assert HoldsRing(s.threads[t]) ==> s.locks.ring == Some(t);
    forall v | v in s'.hub.channels ensures ChannelCalm(s', v) { assert ChannelCalm(s, v); }
    forall u | u in s'.threads ensures ThreadCalm(s', s'.threads[u]) { assert ThreadCalm(s, s.threads[u]); }
  }

  lemma CalmedByStopper(s: State, t: ThreadId)
    requires Locks(s) && Channels(s) && Calmed(s) && t in s.threads && s.threads[t].Stopper? && StopperReady(s, s.threads[t])
    ensures Calmed(GoStopper(s, t, s.threads[t]))
  {
    var w := s.threads[t].w;
    var s' := GoStopper(s, t, s.threads[t]);
    assert ThreadCalm(s, s.threads[t]) && LinkOk(s, t) && ChannelOk(s, w) && ChannelCalm(s, w);
    assert HoldsRing(s.threads[t]) ==> s.locks.ring == Some(t);
    forall v | v in s'.hub.channels ensures ChannelCalm(s', v) { assert ChannelCalm(s, v); }
    forall u | u in s'.threads ensures ThreadCalm(s', s'.threads[u]) { assert ThreadCalm(s, s.threads[u]); }
  }

  lemma CalmedByScan(s: State, l: Label)
    requires Locks(s) && Calmed(s) && Enabled(s, l) && (l.ListDir? || l.Fetch?)
    ensures Calmed(Do(s, l))
  {
    assert ThreadCalm(s, s.threads[l.t]);
    CalmedByStages(s, Do(s, l), l.t);
  }

  lemma CalmedByOther(s: State, l: Label)
    requires Locks(s) && Channels(s) && Calmed(s) && Enabled(s, l) && Orderly(s, l, Do(s, l))
    requires l.NewWriter? || l.NewWatch? || l.NewStop? || l.Drain?
    ensures Calmed(Do(s, l))
  {
    var s' := Do(s, l);
    forall v | v in s'.hub.channels ensures ChannelCalm(s', v) {
      if v in s.hub.channels { assert ChannelCalm(s, v); }
    }
    forall u | u in s'.threads ensures ThreadCalm(s', s'.threads[u]) {
      if u in s.threads { assert ThreadCalm(s, s.threads[u]); }
    }
  }

  lemma CalmedKept(s: State, l: Label)
    requires Inv(s) && Calmed(s) && Enabled(s, l) && Orderly(s, l, Do(s, l))
    ensures Calmed(Do(s, l))
  {
    NothingSentOnClosed(s, l);
    match l {
      case Go(t) =>
        var th := s.threads[t];
        if th.Watcher? {
          if th.wpc.Deliver? || th.wpc.UnlockWatch? || th.wpc.SendExpired? || th.wpc.StopExpired? { CalmedByWatcher(s, t); }
          else if th.wpc.ChooseStart? || th.wpc.Scan? { CalmedByStart(s, t); }
          else { CalmedByWatcherMove(s, t); }
        } else if th.Stopper? { CalmedByStopper(s, t); }
        else if TakesVersion(th.pc) { CalmedByVersion(s, t); }
        else if Publishes(th.pc) { CalmedByPublish(s, t); }
        else if StopsInside(th.pc) { CalmedInside(s, t); }
        else { CalmedByFile(s, t); }
      case Fail(t) => CalmedByFailure(s, l);
      case Offer(t, w, how) =>
        if s.threads[t].Writer? { CalmedByWriterOffer(s, t, w, how); }
        else { CalmedByWatcherOffer(s, t, how); }
      case ListDir(_, _) | Fetch(_, _) => CalmedByScan(s, l);
      case Crash =>
      case _ => CalmedByOther(s, l);
    }
  }

  // Nothing but a send on a closed channel panics.
  lemma PanicsOnly(s: State, l: Label)
    requires Enabled(s, l) && !SendsOnClosed(s, l)
    ensures Do(s, l).panicked ==> s.panicked
  {
  }

  lemma {:induction false} RunCalmed(states: seq<State>, labels: seq<Label>, n: nat)
    requires IsRun(states, labels) && n < |states| && forall i :: 0 <= i < n ==> Orderly(states[i], labels[i], states[i + 1])
    ensures Calmed(states[n]) && !states[n].panicked
  {
    if n > 0 {
      RunCalmed(states, labels, n - 1);
      RunInv(states, labels, n - 1);
      StepAt(states, labels, n - 1);
      CalmedNext(states[n - 1], labels[n - 1]);
    }
  }

  lemma CalmedNext(s: State, l: Label)
    requires Inv(s) && Calmed(s) && Enabled(s, l) && Orderly(s, l, Do(s, l)) && !s.panicked
    ensures Calmed(Do(s, l)) && !Do(s, l).panicked
  {
    CalmedKept(s, l);
    NothingSentOnClosed(s, l);
    PanicsOnly(s, l);
  }

  // As long as each watch is stopped only once Watch has returned it, and starts with no more
  // signals than its channel has room for, nothing panics, in any run.
  lemma OrderlyNeverPanics(states: seq<State>, labels: seq<Label>, n: nat)
    requires IsRun(states, labels) && n < |states|
    requires forall i :: 0 <= i < n ==> Orderly(states[i], labels[i], states[i + 1])
    ensures !states[n].panicked
  {
    RunCalmed(states, labels, n);
  }

  // --- What a panic costs ---

  // A publisher of the key panics before it has come to the watch.
  predicate Drops(s: State, l: Label, w: WatchId, k: Key) {
    && l.Offer? && l.how.Send? && l.t in s.threads && s.threads[l.t].Writer? && s.threads[l.t].key == k
    && l.w in s.hub.channels && s.hub.channels[l.w].closed && w in s.threads[l.t].todo && w != l.w
  }

  // The keys a watch has missed are the same or fewer.
  ghost predicate MissesLess(s: State, s': State) {
    forall w :: w in s'.hub.channels ==>
      if w in s.hub.channels then s'.hub.channels[w].missed <= s.hub.channels[w].missed else s'.hub.channels[w].missed == {}
  }

  lemma WatcherMissesLess(s: State, t: ThreadId)
    requires t in s.threads && s.threads[t].Watcher? && WatcherReady(s, s.threads[t])
    ensures MissesLess(s, GoWatcher(s, t, s.threads[t]))
  {
  }

  lemma StopperMissesLess(s: State, t: ThreadId)
    requires t in s.threads && s.threads[t].Stopper? && StopperReady(s, s.threads[t])
    ensures MissesLess(s, GoStopper(s, t, s.threads[t]))
  {
  }

  lemma WriterMissesLess(s: State, t: ThreadId)
    requires t in s.threads && s.threads[t].Writer? && WriterReady(s, s.threads[t])
    ensures MissesLess(s, GoWriter(s, t, s.threads[t]))
  {
  }

  lemma MissedBy(s: State, l: Label, w: WatchId, k: Key)
    requires Enabled(s, l) && w in Do(s, l).hub.channels && k in Do(s, l).hub.channels[w].missed
    ensures (w in s.hub.channels && k in s.hub.channels[w].missed) || Drops(s, l, w, k)
  {
    if l.Go? {
      if s.threads[l.t].Watcher? { WatcherMissesLess(s, l.t); }
      else if s.threads[l.t].Stopper? { StopperMissesLess(s, l.t); }
      else { WriterMissesLess(s, l.t); }
    }
  }

  lemma MissedPrior(states: seq<State>, labels: seq<Label>, n: nat, w: WatchId, k: Key)
    requires IsRun(states, labels) && n < |labels|
    requires w in states[n + 1].hub.channels && k in states[n + 1].hub.channels[w].missed
    ensures (w in states[n].hub.channels && k in states[n].hub.channels[w].missed) || Drops(states[n], labels[n], w, k)
  {
    StepAt(states, labels, n);
    MissedBy(states[n], labels[n], w, k);
  }

  // A watch misses an event only by a panic of its publisher, who had not come to it yet.
  lemma {:induction false} MissedSince(states: seq<State>, labels: seq<Label>, n: nat, w: WatchId, k: Key) returns (i: nat)
    requires IsRun(states, labels) && n < |states|
    requires w in states[n].hub.channels && k in states[n].hub.channels[w].missed
    ensures i < n && Drops(states[i], labels[i], w, k)
  {
    if n > 0 {
      MissedPrior(states, labels, n - 1, w, k);
      i := n - 1;
      if w in states[n - 1].hub.channels && k in states[n - 1].hub.channels[w].missed {
        i := MissedSince(states, labels, n - 1, w, k);
      }
    }
  }
}
