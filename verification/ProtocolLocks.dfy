/** Who holds which mutex. */
module ProtocolLocks {
  import opened Objects
  import opened Options
  import opened Protocol

  predicate HoldsKey(th: Thread) {
    th.Writer? && th.pc != LockKey && th.pc != Returned
  }

  predicate HoldsRing(th: Thread) {
    match th
    case Writer(_, _, pc, _, _, _, _, _) => (pc.AppendRing? || Fanning(pc))
    case Watcher(_, _, wpc, _, _, _, _) =>
      (wpc.LockCurrent? || wpc.ReadCurrent? || wpc.UnlockCurrent? || wpc.ChooseStart? || wpc.Scan? || wpc.Deliver?
       || wpc.UnlockWatch? || wpc.Refuse? || wpc.Died?)
    case Stopper(_, spc) => (spc.Unsubscribe? || spc.UnlockHook?)
  }

  predicate HoldsCounter(th: Thread) {
    match th
    case Writer(_, _, pc, _, _, _, _, _) => (pc.Bump? || pc.Persist? || pc.UnlockCounter?)
    case Watcher(_, _, wpc, _, _, _, _) => (wpc.ReadCurrent? || wpc.UnlockCurrent?)
    case Stopper(_, _) => false
  }

  // Each mutex is held by exactly the thread whose position says so.
  ghost predicate KeysHeld(s: State) {
    && (forall t :: t in s.threads && HoldsKey(s.threads[t]) ==>
          s.threads[t].key in s.locks.keys && s.locks.keys[s.threads[t].key] == t)
    && (forall k :: k in s.locks.keys ==>
          s.locks.keys[k] in s.threads && HoldsKey(s.threads[s.locks.keys[k]]) && s.threads[s.locks.keys[k]].key == k)
  }

  ghost predicate RingHeld(s: State) {
    && (forall t :: t in s.threads && HoldsRing(s.threads[t]) ==> s.locks.ring == Some(t))
    && (s.locks.ring.Some? ==> s.locks.ring.value in s.threads && HoldsRing(s.threads[s.locks.ring.value]))
  }

  ghost predicate CounterHeld(s: State) {
    && (forall t :: t in s.threads && HoldsCounter(s.threads[t]) ==> s.locks.counter == Some(t))
    && (s.locks.counter.Some? ==> s.locks.counter.value in s.threads && HoldsCounter(s.threads[s.locks.counter.value]))
  }

  ghost predicate Locks(s: State) {
    KeysHeld(s) && RingHeld(s) && CounterHeld(s)
  }

  // How one thread's move may change a mutex: keep, take or give back.
  ghost predicate Passes(held: bool, holds: bool, lock: Option<ThreadId>, lock': Option<ThreadId>, t: ThreadId) {
    || (held == holds && lock' == lock)
    || (!held && holds && lock == None && lock' == Some(t))
    || (held && !holds && lock' == None)
  }

  ghost predicate PassesKey(s: State, s': State, t: ThreadId, th': Thread) {
    var held := t in s.threads && HoldsKey(s.threads[t]);
    || (held && HoldsKey(th') && th'.key == s.threads[t].key && s'.locks.keys == s.locks.keys)
    || (!held && !HoldsKey(th') && s'.locks.keys == s.locks.keys)
    || (!held && HoldsKey(th') && th'.key !in s.locks.keys && s'.locks.keys == s.locks.keys[th'.key := t])
    || (held && !HoldsKey(th') && s'.locks.keys == s.locks.keys - {s.threads[t].key})
  }

  ghost predicate Moves(s: State, s': State, t: ThreadId, th': Thread) {
    && s'.threads == s.threads[t := th']
    && PassesKey(s, s', t, th')
    && Passes(t in s.threads && HoldsRing(s.threads[t]), HoldsRing(th'), s.locks.ring, s'.locks.ring, t)
    && Passes(t in s.threads && HoldsCounter(s.threads[t]), HoldsCounter(th'), s.locks.counter, s'.locks.counter, t)
  }

  ghost predicate MovesTo(s: State, s': State, t: ThreadId) {
    t in s'.threads && Moves(s, s', t, s'.threads[t])
  }

  lemma MoveKeepsLocks(s: State, s': State, t: ThreadId)
    requires Locks(s) && MovesTo(s, s', t)
    ensures Locks(s')
  {
  }

  lemma FileMoves(s: State, t: ThreadId)
    requires t in s.threads && s.threads[t].Writer? && WriterReady(s, s.threads[t])
    requires OnFile(s.threads[t].pc)
    ensures MovesTo(s, GoFile(s, t, s.threads[t]), t)
  {
  }

  lemma VersionMoves(s: State, t: ThreadId)
    requires t in s.threads && s.threads[t].Writer? && WriterReady(s, s.threads[t]) && TakesVersion(s.threads[t].pc)
    ensures MovesTo(s, GoVersion(s, t, s.threads[t]), t)
  {
  }

  lemma PublishMoves(s: State, t: ThreadId)
    requires t in s.threads && s.threads[t].Writer? && WriterReady(s, s.threads[t]) && Publishes(s.threads[t].pc)
    ensures MovesTo(s, GoPublish(s, t, s.threads[t]), t)
  {
  }

  // A Stop inside a publish changes the watch it stops, and where the publisher is.
  lemma InsideFrame(s: State, t: ThreadId)
    requires t in s.threads && s.threads[t].Writer? && WriterReady(s, s.threads[t]) && StopsInside(s.threads[t].pc)
    ensures var s' := GoInside(s, t, s.threads[t]);
      && s' == s.(hub := s'.hub, threads := s'.threads)
      && s'.hub.ring == s.hub.ring && s'.hub.capacity == s.hub.capacity
      && t in s'.threads && s'.threads == s.threads[t := s'.threads[t]] && s'.threads[t].Writer?
      && s'.threads[t] == s.threads[t].(pc := s'.threads[t].pc, todo := s'.threads[t].todo) && Fanning(s'.threads[t].pc)
  {
  }

  lemma InsideMoves(s: State, t: ThreadId)
    requires t in s.threads && s.threads[t].Writer? && WriterReady(s, s.threads[t]) && StopsInside(s.threads[t].pc)
    ensures MovesTo(s, GoInside(s, t, s.threads[t]), t)
  {
  }

  lemma WatcherMoves(s: State, t: ThreadId)
    requires t in s.threads && s.threads[t].Watcher? && WatcherReady(s, s.threads[t])
    ensures MovesTo(s, GoWatcher(s, t, s.threads[t]), t)
  {
  }

  lemma StopperMoves(s: State, t: ThreadId)
    requires t in s.threads && s.threads[t].Stopper? && StopperReady(s, s.threads[t])
    ensures MovesTo(s, GoStopper(s, t, s.threads[t]), t)
  {
  }

  lemma OfferMoves(s: State, l: Label)
    requires Enabled(s, l) && l.Offer?
    ensures MovesTo(s, Do(s, l), l.t)
  {
  }

  lemma FailMoves(s: State, l: Label)
    requires Enabled(s, l) && l.Fail?
    ensures MovesTo(s, Do(s, l), l.t)
  {
  }

  lemma ScanMoves(s: State, l: Label)
    requires Enabled(s, l) && (l.ListDir? || l.Fetch?)
    ensures MovesTo(s, Do(s, l), l.t)
  {
  }

  lemma NewMoves(s: State, l: Label)
    requires Enabled(s, l) && (l.NewWriter? || l.NewWatch? || l.NewStop?)
    ensures MovesTo(s, Do(s, l), l.t)
  {
  }

  lemma OtherMoves(s: State, l: Label)
    requires Enabled(s, l) && !l.Go? && !l.Drain? && !l.Crash?
    ensures MovesTo(s, Do(s, l), l.t)
  {
    match l {
      case Offer(_, _, _) => OfferMoves(s, l);
      case Fail(_) => FailMoves(s, l);
      case ListDir(_, _) | Fetch(_, _) => ScanMoves(s, l);
      case _ => NewMoves(s, l);
    }
  }

  lemma LocksKept(s: State, l: Label)
    requires Locks(s) && Enabled(s, l)
    ensures Locks(Do(s, l))
  {
    if l.Go? {
      var th := s.threads[l.t];
      if th.Watcher? { WatcherMoves(s, l.t); }
      else if th.Stopper? { StopperMoves(s, l.t); }
      else if TakesVersion(th.pc) { VersionMoves(s, l.t); }
      else if Publishes(th.pc) { PublishMoves(s, l.t); }
      else if StopsInside(th.pc) { InsideMoves(s, l.t); }
      else { FileMoves(s, l.t); }
      MoveKeepsLocks(s, Do(s, l), l.t);
    } else if !l.Drain? && !l.Crash? {
      OtherMoves(s, l);
      MoveKeepsLocks(s, Do(s, l), l.t);
    }
  }
}
