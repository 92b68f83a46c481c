/** Every file is what the announced changes made of it, each change starts from the
    result of the one before, and announcements are ordered by version. */
module ProtocolChain {
  import opened Objects
  import opened Options
  import opened Protocol
  import opened ProtocolLocks

  // What an announced change left in the file.
  function EntryAfter(e: Entry): Option<Obj> {
    match e
    case Published(ev, _, _, _) => Outcome(ev)
    case LostRemoval(_, _, _) => None
  }

  // The file content after the announced changes.
  function Latest(log: seq<Entry>, base: Files, k: Key): Option<Obj> {
    if log == [] then Get(base, k)
    else if EntryKey(log[|log| - 1]) == k then EntryAfter(log[|log| - 1])
    else Latest(log[..|log| - 1], base, k)
  }

  lemma LatestAppend(log: seq<Entry>, e: Entry, base: Files, k: Key)
    ensures Latest(log + [e], base, k) == if EntryKey(e) == k then EntryAfter(e) else Latest(log, base, k)
  {
    assert (log + [e])[..|log|] == log;
  }

  // The entry is the effect of its request on the state just before it.
  ghost predicate EntryOk(e: Entry, before: Option<Obj>) {
    match e
    case Published(ev, op, cur, _) =>
      cur == before && !Decide(op, cur).Finish? && ev == EventOf(ev.key, cur, Decide(op, cur), ev.rv)
    case LostRemoval(_, op, cur) =>
      cur == before && Decide(op, cur).Erase?
  }

  ghost predicate ChainOk(log: seq<Entry>, base: Files) {
    log != [] ==>
      var prev := log[..|log| - 1];
      var last := log[|log| - 1];
      ChainOk(prev, base) && EntryOk(last, Latest(prev, base, EntryKey(last)))
  }

  lemma ChainAppend(log: seq<Entry>, e: Entry, base: Files)
    requires ChainOk(log, base) && EntryOk(e, Latest(log, base, EntryKey(e)))
    ensures ChainOk(log + [e], base)
  {
    assert (log + [e])[..|log|] == log;
  }

  // The writer has acted on its decision and the file shows it, but not yet the log.
  ghost predicate Changed(th: Thread) {
    th.Writer? &&
    match th.pc
    case LockCounter | Bump | Persist => th.plan.Erase?
    case UnlockCounter => th.plan.Erase? && th.rv.Some?
    case LockRing | AppendRing => true
    case _ => false
  }

  // What the holder of a key knows about it at each position.
  ghost predicate HolderOk(tmp: Option<Obj>, latest: Option<Obj>, th: Thread)
    requires th.Writer?
  {
    var decided := th.cur == latest && th.plan == Decide(th.op, th.cur) && !th.plan.Finish?;
    match th.pc
    case LockKey | Returned => false
    case ReadFile => th.rv == None
    case RemoveFile => th.rv == None && decided && th.plan.Erase?
    case LockCounter | Bump | Persist => th.rv == None && decided
    case UnlockCounter => th.rv.Some? ==> decided
    case WriteTmp => th.rv.Some? && decided && th.plan.Write?
    case Rename => th.rv.Some? && decided && th.plan.Write? && tmp == After(th.plan, Version(th))
    case LockRing | AppendRing => th.rv.Some? && decided
    case FanOut | StopEnter(_) | StopHook(_) => th.rv.Some? && th.plan == Decide(th.op, th.cur) && !th.plan.Finish?
                           && latest == After(th.plan, Version(th))
    case UnlockKey => true
  }

  // The file of a key and the announcements agree, but for a writer in between.
  ghost predicate KeyOk(file: Option<Obj>, tmp: Option<Obj>, latest: Option<Obj>, holder: Option<Thread>) {
    match holder
    case None => file == latest
    case Some(th) =>
      th.Writer? && HolderOk(tmp, latest, th)
      && file == if Changed(th) then After(th.plan, Version(th)) else latest
  }

  ghost function Holder(s: State, k: Key): Option<Thread> {
    if k in s.locks.keys && s.locks.keys[k] in s.threads then Some(s.threads[s.locks.keys[k]]) else None
  }

  ghost predicate KeyAgrees(s: State, k: Key) {
    KeyOk(Get(s.disk.files, k), Get(s.disk.tmps, k), Latest(s.past.log, s.past.base, k), Holder(s, k))
  }

  ghost predicate Chain(s: State) {
    && (forall k :: KeyAgrees(s, k))
    && Unversioned(s)
    && ChainOk(s.past.log, s.past.base)
  }

  // The key's file, temporary file, announcements and holder are as before.
  ghost predicate SameKey(s: State, s': State, k: Key) {
    && Get(s'.disk.files, k) == Get(s.disk.files, k)
    && Get(s'.disk.tmps, k) == Get(s.disk.tmps, k)
    && Latest(s'.past.log, s'.past.base, k) == Latest(s.past.log, s.past.base, k)
    && Holder(s', k) == Holder(s, k)
  }

  ghost predicate WriterAt(s: State, t: ThreadId) {
    t in s.threads && s.threads[t].Writer? && WriterReady(s, s.threads[t])
    && (s.threads[t].pc.LockKey? ==> s.threads[t].rv == None)
  }

  lemma OtherKeyKeptByFile(s: State, t: ThreadId, k: Key)
    requires KeysHeld(s) && WriterAt(s, t) && k != s.threads[t].key
    requires OnFile(s.threads[t].pc)
    ensures SameKey(s, GoFile(s, t, s.threads[t]), k)
  {
  }

  lemma KeyKeptByFile(s: State, t: ThreadId)
    requires KeysHeld(s) && WriterAt(s, t) && KeyAgrees(s, s.threads[t].key)
    requires OnFile(s.threads[t].pc)
    ensures KeyAgrees(GoFile(s, t, s.threads[t]), s.threads[t].key)
  {
    var th := s.threads[t];
    var s' := GoFile(s, t, th);
    assert Holder(s, th.key) == if th.pc.LockKey? then None else Some(th);
    assert Holder(s', th.key) == if th.pc.UnlockKey? then None else Some(s'.threads[t]);
  }

  lemma KeyKeptByVersion(s: State, t: ThreadId, k: Key)
    requires KeysHeld(s) && KeyAgrees(s, k) && WriterAt(s, t) && TakesVersion(s.threads[t].pc)
    ensures KeyAgrees(GoVersion(s, t, s.threads[t]), k)
  {
    if k != s.threads[t].key {
      assert SameKey(s, GoVersion(s, t, s.threads[t]), k);
    }
  }

  lemma KeyKeptByPublish(s: State, t: ThreadId, k: Key)
    requires KeysHeld(s) && KeyAgrees(s, k) && WriterAt(s, t) && Publishes(s.threads[t].pc)
    ensures KeyAgrees(GoPublish(s, t, s.threads[t]), k)
  {
    var th := s.threads[t];
    LatestAppend(s.past.log, Published(EventOf(th.key, th.cur, th.plan, Version(th)), th.op, th.cur, th.start), s.past.base, k);
    if k != th.key {
      assert SameKey(s, GoPublish(s, t, th), k);
    }
  }

  lemma KeyKeptInside(s: State, t: ThreadId, k: Key)
    requires KeysHeld(s) && KeyAgrees(s, k) && WriterAt(s, t) && StopsInside(s.threads[t].pc)
    ensures KeyAgrees(GoInside(s, t, s.threads[t]), k)
  {
    if k != s.threads[t].key {
      assert SameKey(s, GoInside(s, t, s.threads[t]), k);
    }
  }

  lemma KeyKeptByFailure(s: State, t: ThreadId, k: Key)
    requires KeysHeld(s) && KeyAgrees(s, k) && t in s.threads && s.threads[t].Writer?
    requires var pc := s.threads[t].pc; pc.RemoveFile? || pc.Persist? || pc.WriteTmp? || pc.Rename?
    ensures KeyAgrees(FailWriter(s, t, s.threads[t]), k)
  {
    var th := s.threads[t];
    LatestAppend(s.past.log, LostRemoval(th.key, th.op, th.cur), s.past.base, k);
    if k != th.key {
      assert SameKey(s, FailWriter(s, t, th), k);
    } else {
      assert Holder(s, k) == Some(th);
      assert Holder(FailWriter(s, t, th), k).Some?;
    }
  }

  lemma KeyKeptByOffer(s: State, t: ThreadId, w: WatchId, how: How, k: Key)
    requires KeysHeld(s) && KeyAgrees(s, k) && w in s.hub.channels
    requires t in s.threads && s.threads[t].Writer? && s.threads[t].pc.FanOut?
    ensures KeyAgrees(OfferByWriter(s, t, s.threads[t], w, how), k)
  {
  }

  // Labels that act for no writer.
  ghost predicate NoWriter(s: State, l: Label) {
    match l
    case NewWriter(_, _, _) | Fail(_) | Crash => false
    case Go(t) => t in s.threads && !s.threads[t].Writer?
    case Offer(t, _, _) => t in s.threads && !s.threads[t].Writer?
    case _ => true
  }

  // What such a label leaves alone: files, announcements, key mutexes and writers.
  ghost predicate WritersUntouched(s: State, s': State) {
    && s'.disk == s.disk && s'.past == s.past && s'.locks.keys == s.locks.keys && s'.counter == s.counter
    && s'.hub.ring == s.hub.ring && s'.hub.capacity == s.hub.capacity
    && (forall t :: t in s.threads && s.threads[t].Writer? ==> t in s'.threads && s'.threads[t] == s.threads[t])
    && (forall t :: t in s'.threads && s'.threads[t].Writer? ==> t in s.threads && s'.threads[t] == s.threads[t])
  }

  lemma WritersLeftByWatcher(s: State, t: ThreadId)
    requires t in s.threads && s.threads[t].Watcher? && WatcherReady(s, s.threads[t])
    ensures WritersUntouched(s, GoWatcher(s, t, s.threads[t]))
  {
  }

  lemma WritersLeftByStopper(s: State, t: ThreadId)
    requires t in s.threads && s.threads[t].Stopper? && StopperReady(s, s.threads[t])
    ensures WritersUntouched(s, GoStopper(s, t, s.threads[t]))
  {
  }

  lemma WritersLeft(s: State, l: Label)
    requires Enabled(s, l) && NoWriter(s, l)
    ensures WritersUntouched(s, Do(s, l))
  {
    if l.Go? {
      if s.threads[l.t].Watcher? { WritersLeftByWatcher(s, l.t); } else { WritersLeftByStopper(s, l.t); }
    }
  }

  lemma KeyKept(s: State, l: Label, k: Key)
    requires Locks(s) && KeyAgrees(s, k) && Enabled(s, l) && !l.Crash? && !l.NewWriter?
    requires l.Go? && s.threads[l.t].Writer? ==> WriterAt(s, l.t)
    ensures KeyAgrees(Do(s, l), k)
  {
    if NoWriter(s, l) {
      WritersLeft(s, l);
      assert SameKey(s, Do(s, l), k);
    } else if l.Fail? {
      KeyKeptByFailure(s, l.t, k);
    } else if l.Offer? {
      KeyKeptByOffer(s, l.t, l.w, l.how, k);
    } else if TakesVersion(s.threads[l.t].pc) {
      KeyKeptByVersion(s, l.t, k);
    } else if Publishes(s.threads[l.t].pc) {
      KeyKeptByPublish(s, l.t, k);
    } else if StopsInside(s.threads[l.t].pc) {
      KeyKeptInside(s, l.t, k);
    } else {
      if k == s.threads[l.t].key { KeyKeptByFile(s, l.t); } else { OtherKeyKeptByFile(s, l.t, k); }
    }
  }

  // Writers waiting for their key hold no version, and requests that finish without a
  // change never hold one.
  ghost predicate Unversioned(s: State) {
    forall t :: t in s.threads && s.threads[t].Writer? ==> Bare(s.threads[t])
  }

  ghost predicate Bare(th: Thread)
    requires th.Writer?
  {
    && (th.pc.LockKey? ==> th.rv == None)
    && (th.plan.Finish? ==> th.rv == None && (th.pc.LockKey? || th.pc.ReadFile? || th.pc.UnlockKey? || th.pc.Returned?))
  }

  lemma BareKeptByFile(s: State, t: ThreadId)
    requires t in s.threads && s.threads[t].Writer? && WriterReady(s, s.threads[t]) && Unversioned(s)
    requires OnFile(s.threads[t].pc)
    requires s.threads[t].pc.ReadFile? ==> s.threads[t].rv == None
    ensures Unversioned(GoFile(s, t, s.threads[t]))
  {
    assert Bare(s.threads[t]);
  }

  lemma BareKeptByVersion(s: State, t: ThreadId)
    requires t in s.threads && s.threads[t].Writer? && TakesVersion(s.threads[t].pc) && Unversioned(s)
    ensures Unversioned(GoVersion(s, t, s.threads[t]))
  {
    assert Bare(s.threads[t]);
  }

  lemma BareKeptByPublish(s: State, t: ThreadId)
    requires t in s.threads && s.threads[t].Writer? && Publishes(s.threads[t].pc) && Unversioned(s)
    ensures Unversioned(GoPublish(s, t, s.threads[t]))
  {
    assert Bare(s.threads[t]);
  }

  lemma BareKeptInside(s: State, t: ThreadId)
    requires t in s.threads && s.threads[t].Writer? && WriterReady(s, s.threads[t]) && StopsInside(s.threads[t].pc) && Unversioned(s)
    ensures Unversioned(GoInside(s, t, s.threads[t]))
  {
    assert Bare(s.threads[t]);
  }

  lemma BareKeptByFailure(s: State, l: Label)
    requires Enabled(s, l) && (l.Fail? || l.Offer? || l.NewWriter?) && Unversioned(s)
    ensures Unversioned(Do(s, l))
  {
    assert l.t in s.threads && s.threads[l.t].Writer? ==> Bare(s.threads[l.t]);
  }

  lemma UnversionedKept(s: State, l: Label)
    requires Enabled(s, l) && KeysHeld(s) && Unversioned(s)
    requires !NoWriter(s, l) && !l.Crash? && !l.NewWriter? ==> KeyAgrees(s, s.threads[l.t].key)
    ensures Unversioned(Do(s, l))
  {
    if NoWriter(s, l) {
      WritersLeft(s, l);
    } else if l.Go? {
      var th := s.threads[l.t];
      assert th.pc.ReadFile? ==> Holder(s, th.key) == Some(th);
      if TakesVersion(th.pc) {
        BareKeptByVersion(s, l.t);
      } else if Publishes(th.pc) {
        BareKeptByPublish(s, l.t);
      } else if StopsInside(th.pc) {
        BareKeptInside(s, l.t);
      } else {
        BareKeptByFile(s, l.t);
      }
    } else if !l.Crash? {
      BareKeptByFailure(s, l);
    }
  }

  // How a step extends the log of announcements.
  lemma LogKept(s: State, l: Label)
    requires Enabled(s, l) && KeysHeld(s) && ChainOk(s.past.log, s.past.base)
    requires !NoWriter(s, l) && !l.Crash? && !l.NewWriter? ==> KeyAgrees(s, s.threads[l.t].key)
    ensures ChainOk(Do(s, l).past.log, Do(s, l).past.base)
  {
    if NoWriter(s, l) {
      WritersLeft(s, l);
    } else if (l.Go? && s.threads[l.t].pc.AppendRing?) || (l.Fail? && s.threads[l.t].pc.Persist?) {
      var th := s.threads[l.t];
      assert Holder(s, th.key) == Some(th);
      if l.Go? {
        ChainAppend(s.past.log, Published(EventOf(th.key, th.cur, th.plan, Version(th)), th.op, th.cur, th.start), s.past.base);
      } else if th.plan.Erase? {
        ChainAppend(s.past.log, LostRemoval(th.key, th.op, th.cur), s.past.base);
      }
    }
  }

  lemma ChainKept(s: State, l: Label)
    requires Enabled(s, l) && Locks(s) && Chain(s)
    ensures Chain(Do(s, l))
  {
    assert !NoWriter(s, l) && !l.Crash? && !l.NewWriter? ==> KeyAgrees(s, s.threads[l.t].key);
    UnversionedKept(s, l);
    LogKept(s, l);
    forall k ensures KeyAgrees(Do(s, l), k) {
      assert KeyAgrees(s, k);
      if l.Crash? {
      } else if l.NewWriter? {
        assert SameKey(s, Do(s, l), k);
      } else {
        KeyKept(s, l, k);
      }
    }
  }
}
