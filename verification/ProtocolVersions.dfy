/** Versions are issued once, in ascending order, across any number of crashes, and
    nothing stored or announced is newer than the persisted counter. */
module ProtocolVersions {
  import opened Decimal
  import opened Objects
  import opened Options
  import opened Protocol
  import opened ProtocolChain
  import opened ProtocolLocks

  // A writer has bumped the counter in memory and not yet renamed the new .rv file.
  ghost predicate Persisting(s: State) {
    s.locks.counter.Some? && s.locks.counter.value in s.threads
    && s.threads[s.locks.counter.value].Writer? && s.threads[s.locks.counter.value].pc.Persist?
  }

  // The version a restart would start from.
  ghost function Durable(s: State): int {
    if Persisting(s) then s.counter - 1 else s.counter
  }

  ghost predicate FilesBelow(files: Files, n: int) {
    forall k :: k in files ==> files[k].rv <= n
  }

  ghost predicate ThreadsBelow(threads: map<ThreadId, Thread>, n: int) {
    forall t :: t in threads && threads[t].Writer? && threads[t].rv.Some? ==> threads[t].rv.value <= n
  }

  ghost predicate LogBelow(log: seq<Entry>, n: int) {
    forall i :: 0 <= i < |log| && log[i].Published? ==> log[i].ev.rv <= n
  }

  ghost predicate IssuedBelow(issued: seq<nat>, n: int) {
    && (forall i :: 0 <= i < |issued| ==> issued[i] <= n)
    && (forall i, j :: 0 <= i < j < |issued| ==> issued[i] < issued[j])
  }

  ghost predicate Below(s: State, n: int) {
    && FilesBelow(s.disk.files, n) && FilesBelow(s.disk.tmps, n)
    && ThreadsBelow(s.threads, n) && LogBelow(s.past.log, n) && IssuedBelow(s.past.issued, n)
  }

  ghost predicate CounterOk(s: State) {
    && 1 <= Durable(s) && s.counter <= MAX_UINT64
    && LoadRV(s.disk.rvFile) == Some(Durable(s))
    && (Persisting(s) ==> s.disk.rvTmp == Some(FormatUint(s.counter)))
  }

  ghost predicate Versions(s: State) {
    CounterOk(s) && Below(s, Durable(s))
  }

  lemma VersionsKeptByFile(s: State, t: ThreadId)
    requires Locks(s) && Versions(s) && WriterAt(s, t)
    requires OnFile(s.threads[t].pc)
    ensures Versions(GoFile(s, t, s.threads[t]))
  {
    var s' := GoFile(s, t, s.threads[t]);
    assert Persisting(s') == Persisting(s);
  }

  // Taking and releasing the counter's mutex.
  lemma VersionsKeptByMutex(s: State, t: ThreadId)
    requires Locks(s) && Versions(s) && WriterAt(s, t) && (s.threads[t].pc.LockCounter? || s.threads[t].pc.UnlockCounter?)
    requires Fits(s, Go(t)) && (s.threads[t].pc.LockCounter? ==> s.locks.counter == None)
    ensures Versions(GoVersion(s, t, s.threads[t]))
  {
    var s' := GoVersion(s, t, s.threads[t]);
    assert s.threads[t].pc.UnlockCounter? ==> s.locks.counter == Some(t);
    assert !Persisting(s) && !Persisting(s');
  }

  // The new version is only in memory until its file is renamed.
  lemma VersionsKeptByBump(s: State, t: ThreadId)
    requires Locks(s) && Versions(s) && WriterAt(s, t) && s.threads[t].pc.Bump? && Fits(s, Go(t))
    ensures Versions(GoVersion(s, t, s.threads[t]))
  {
    var s' := GoVersion(s, t, s.threads[t]);
    assert s.locks.counter == Some(t);
    assert !Persisting(s) && Persisting(s') && Durable(s') == Durable(s);
  }

  lemma VersionsKeptByPersist(s: State, t: ThreadId)
    requires Locks(s) && Versions(s) && WriterAt(s, t) && s.threads[t].pc.Persist?
    ensures Versions(GoVersion(s, t, s.threads[t]))
  {
    LoadFormatted(s.counter);
    var s' := GoVersion(s, t, s.threads[t]);
    assert s.locks.counter == Some(t);
    assert Persisting(s) && !Persisting(s') && Durable(s') == Durable(s) + 1;
  }

  lemma VersionsKeptByPublish(s: State, t: ThreadId)
    requires Locks(s) && Versions(s) && WriterAt(s, t) && Publishes(s.threads[t].pc)
    ensures Versions(GoPublish(s, t, s.threads[t]))
  {
    assert Persisting(GoPublish(s, t, s.threads[t])) == Persisting(s);
  }

  lemma InsideUntouched(s: State, s': State, t: ThreadId)
    requires Locks(s) && Versions(s) && t in s.threads && s.threads[t].Writer? && StopsInside(s.threads[t].pc)
    requires s' == s.(hub := s'.hub, threads := s'.threads)
    requires t in s'.threads && s'.threads == s.threads[t := s'.threads[t]] && s'.threads[t].Writer?
    requires s'.threads[t].rv == s.threads[t].rv && Fanning(s'.threads[t].pc)
    ensures Versions(s')
  {
    assert Persisting(s') == Persisting(s);
  }

  lemma VersionsKeptInside(s: State, t: ThreadId)
    requires Locks(s) && Versions(s) && WriterAt(s, t) && StopsInside(s.threads[t].pc)
    ensures Versions(GoInside(s, t, s.threads[t]))
  {
    InsideFrame(s, t);
    InsideUntouched(s, GoInside(s, t, s.threads[t]), t);
  }

  lemma VersionsKeptByFailure(s: State, t: ThreadId)
    requires Locks(s) && Versions(s) && t in s.threads && s.threads[t].Writer?
    requires var pc := s.threads[t].pc; pc.RemoveFile? || pc.Persist? || pc.WriteTmp? || pc.Rename?
    ensures Versions(FailWriter(s, t, s.threads[t]))
  {
    var s' := FailWriter(s, t, s.threads[t]);
    if s.threads[t].pc.Persist? {
      assert s.locks.counter == Some(t);
      assert s'.counter == s.counter - 1;
    } else {
      assert Persisting(s') == Persisting(s);
    }
  }

  lemma VersionsKeptByOffer(s: State, t: ThreadId, w: WatchId, how: How)
    requires Locks(s) && Versions(s) && w in s.hub.channels
    requires t in s.threads && s.threads[t].Writer? && s.threads[t].pc.FanOut?
    ensures Versions(OfferByWriter(s, t, s.threads[t], w, how))
  {
    assert Persisting(OfferByWriter(s, t, s.threads[t], w, how)) == Persisting(s);
  }

  // A restart loads the persisted version: the bound on everything stored still holds.
  lemma VersionsKeptByCrash(s: State)
    requires Versions(s)
    ensures Versions(Restarted(s)) && Durable(Restarted(s)) == Durable(s)
  {
  }

  lemma VersionsKept(s: State, l: Label)
    requires Enabled(s, l) && Fits(s, l) && Locks(s) && Locks(Do(s, l)) && Versions(s)
    requires l.Go? && s.threads[l.t].Writer? ==> WriterAt(s, l.t)
    ensures Versions(Do(s, l))
  {
    if NoWriter(s, l) {
      WritersLeft(s, l);
      VersionsKeptWhenUntouched(s, Do(s, l));
    } else if l.NewWriter? {
      assert Persisting(Do(s, l)) == Persisting(s);
    } else if l.Crash? {
      VersionsKeptByCrash(s);
    } else if l.Fail? {
      VersionsKeptByFailure(s, l.t);
    } else if l.Offer? {
      VersionsKeptByOffer(s, l.t, l.w, l.how);
    } else if s.threads[l.t].pc.Bump? {
      VersionsKeptByBump(s, l.t);
    } else if s.threads[l.t].pc.Persist? {
      VersionsKeptByPersist(s, l.t);
    } else if TakesVersion(s.threads[l.t].pc) {
      VersionsKeptByMutex(s, l.t);
    } else if Publishes(s.threads[l.t].pc) {
      VersionsKeptByPublish(s, l.t);
    } else if StopsInside(s.threads[l.t].pc) {
      VersionsKeptInside(s, l.t);
    } else {
      VersionsKeptByFile(s, l.t);
    }
  }

  lemma StillPersisting(s: State, s': State)
    requires Locks(s') && Persisting(s)
    requires forall t :: t in s.threads && s.threads[t].Writer? ==> t in s'.threads && s'.threads[t] == s.threads[t]
    ensures Persisting(s')
  {
    var t := s.locks.counter.value;
    assert t in s.threads && s.threads[t].Writer?;
    assert HoldsCounter(s'.threads[t]);
  }

  lemma VersionsKeptWhenUntouched(s: State, s': State)
    requires Locks(s) && Locks(s') && Versions(s) && WritersUntouched(s, s')
    ensures Versions(s')
  {
    if Persisting(s) { StillPersisting(s, s'); }
    if Persisting(s') { StillPersisting(s', s); }
  }
}
