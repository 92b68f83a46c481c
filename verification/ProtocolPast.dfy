/** What a state of the storage protocol remembers: what is newer than a version, where a
    content stems from, and the last event of a key. */
module ProtocolPast {
  import opened Decimal
  import opened Objects
  import opened Options
  import opened Protocol
  import opened ProtocolChain
  import opened ProtocolChannels
  import opened ProtocolLocks
  import opened ProtocolOrder
  import opened ProtocolProgress
  import opened ProtocolTheorems
  import opened ProtocolVersions
  import opened ProtocolView
  import opened Ring
  import Atomic

  // --- What is newer than a version ---

  // From a point of the log on, events have versions above r, and so will those to come.
  ghost predicate NewAbove(s: State, from: nat, r: nat) {
    && (forall i :: from <= i < |s.past.log| && s.past.log[i].Published? ==> s.past.log[i].ev.rv > r)
    && (forall t :: t in s.threads && Pending(s.threads[t]) ==> Version(s.threads[t]) > r)
    && s.counter >= r
    && (forall t :: t in s.threads && s.threads[t].Writer? && s.threads[t].pc.Persist? ==> s.counter > r)
  }

  lemma NewAboveByFile(s: State, t: ThreadId, from: nat, r: nat)
    requires Locks(s) && NewAbove(s, from, r) && WriterAt(s, t) && OnFile(s.threads[t].pc) && KeyAgrees(s, s.threads[t].key)
    ensures NewAbove(GoFile(s, t, s.threads[t]), from, r)
  {
    var s' := GoFile(s, t, s.threads[t]);
    assert s.threads[t].pc.ReadFile? ==> Holder(s, s.threads[t].key) == Some(s.threads[t]);
    assert Pending(s'.threads[t]) ==> Pending(s.threads[t]) && Version(s'.threads[t]) == Version(s.threads[t]);
  }

  lemma NewAboveByVersion(s: State, t: ThreadId, from: nat, r: nat)
    requires Locks(s) && Versions(s) && NewAbove(s, from, r) && WriterAt(s, t) && TakesVersion(s.threads[t].pc) && Fits(s, Go(t))
    ensures NewAbove(GoVersion(s, t, s.threads[t]), from, r)
  {
    var s' := GoVersion(s, t, s.threads[t]);
    assert HoldsCounter(s.threads[t]) ==> s.locks.counter == Some(t);
    assert Pending(s'.threads[t]) ==>
        (s.threads[t].pc.Persist? && Version(s'.threads[t]) == s.counter)
        || (Pending(s.threads[t]) && Version(s'.threads[t]) == Version(s.threads[t]));
  }

  lemma NewAboveByPublish(s: State, t: ThreadId, from: nat, r: nat)
    requires Locks(s) && NewAbove(s, from, r) && WriterAt(s, t) && Publishes(s.threads[t].pc) && KeyAgrees(s, s.threads[t].key)
    ensures NewAbove(GoPublish(s, t, s.threads[t]), from, r)
  {
    assert Holder(s, s.threads[t].key) == Some(s.threads[t]);
    assert s.threads[t].pc.AppendRing? ==> Pending(s.threads[t]);
  }

  lemma NewAboveInside(s: State, t: ThreadId, from: nat, r: nat)
    requires NewAbove(s, from, r) && WriterAt(s, t) && StopsInside(s.threads[t].pc)
    ensures NewAbove(GoInside(s, t, s.threads[t]), from, r)
  {
    InsideFrame(s, t);
    var s' := GoInside(s, t, s.threads[t]);
    assert !Pending(s'.threads[t]) && !s'.threads[t].pc.Persist?;
    forall u | u in s'.threads && Pending(s'.threads[u]) ensures Version(s'.threads[u]) > r {
      assert s'.threads[u] == s.threads[u];
    }
  }

  lemma NewAboveByFailure(s: State, l: Label, from: nat, r: nat)
    requires Locks(s) && Versions(s) && NewAbove(s, from, r) && Enabled(s, l) && l.Fail? && KeyAgrees(s, s.threads[l.t].key)
    ensures NewAbove(Do(s, l), from, r)
  {
    var th := s.threads[l.t];
    assert Holder(s, th.key) == Some(th);
    if th.pc.Persist? {
      assert HoldsCounter(th) && s.locks.counter == Some(l.t);
      assert Do(s, l).counter == s.counter - 1;
    }
    var s' := Do(s, l);
    forall u | u in s'.threads && s'.threads[u].Writer? && s'.threads[u].pc.Persist? ensures s'.counter > r {
      assert s'.threads[u] == s.threads[u];
      assert th.pc.Persist? ==> HoldsCounter(s.threads[u]);
    }
    forall u | u in s'.threads && Pending(s'.threads[u]) ensures Version(s'.threads[u]) > r {
      assert u != l.t ==> s'.threads[u] == s.threads[u];
    }
  }

  lemma NewAboveByOther(s: State, l: Label, from: nat, r: nat)
    requires NewAbove(s, from, r) && Enabled(s, l) && (l.NewWriter? || (l.Offer? && s.threads[l.t].Writer?))
    ensures NewAbove(Do(s, l), from, r)
  {
  }

  lemma NewAboveKept(s: State, l: Label, from: nat, r: nat)
    requires Inv(s) && NewAbove(s, from, r) && Enabled(s, l) && Fits(s, l) && !l.Crash?
    ensures NewAbove(Do(s, l), from, r)
  {
    if NoWriter(s, l) {
      WritersLeft(s, l);
    } else if l.Fail? {
      assert KeyAgrees(s, s.threads[l.t].key);
      NewAboveByFailure(s, l, from, r);
    } else if !l.Go? {
      NewAboveByOther(s, l, from, r);
    } else {
      var th := s.threads[l.t];
      assert Bare(th) && KeyAgrees(s, th.key);
      if TakesVersion(th.pc) { NewAboveByVersion(s, l.t, from, r); }
      else if Publishes(th.pc) { NewAboveByPublish(s, l.t, from, r); }
      else if StopsInside(th.pc) { NewAboveInside(s, l.t, from, r); }
      else { NewAboveByFile(s, l.t, from, r); }
    }
  }

  // --- The past of a content ---

  // The content was there at the last start, or is that of an event.
  ghost predicate Stems(log: seq<Entry>, base: Files, k: Key, o: Obj) {
    || Get(base, k) == Some(o)
    || exists i :: 0 <= i < |log| && Wrote(log[i], k, o)
  }

  predicate Wrote(e: Entry, k: Key, o: Obj) {
    e.Published? && e.ev.key == k && Outcome(e.ev) == Some(o)
  }

  // Or its event is about to be published.
  ghost predicate WillStem(s: State, k: Key, o: Obj) {
    || Stems(s.past.log, s.past.base, k, o)
    || (Holder(s, k).Some? && Changed(Holder(s, k).value)
        && After(Holder(s, k).value.plan, Version(Holder(s, k).value)) == Some(o))
  }

  lemma {:induction false} LatestStems(log: seq<Entry>, base: Files, k: Key, o: Obj)
    requires Latest(log, base, k) == Some(o)
    ensures Stems(log, base, k, o)
  {
    if log != [] {
      var n := |log| - 1;
      if EntryKey(log[n]) == k {
        assert Wrote(log[n], k, o);
      } else {
        LatestStems(log[..n], base, k, o);
        if Get(base, k) != Some(o) {
          var i :| 0 <= i < n && Wrote(log[..n][i], k, o);
          assert Wrote(log[i], k, o);
        }
      }
    }
  }

  lemma FileStems(s: State, k: Key)
    requires Inv(s) && k in s.disk.files
    ensures WillStem(s, k, s.disk.files[k])
  {
    assert KeyAgrees(s, k);
    if Latest(s.past.log, s.past.base, k) == Some(s.disk.files[k]) {
      LatestStems(s.past.log, s.past.base, k, s.disk.files[k]);
    }
  }

  // --- Between two states of a run without a crash ---

  ghost predicate Uncrashed(labels: seq<Label>, i: nat, n: nat)
    requires n <= |labels|
  {
    forall j :: i <= j < n ==> !labels[j].Crash?
  }

  ghost predicate LogGrows(s: State, s': State) {
    s.past.log <= s'.past.log && s'.past.base == s.past.base
  }

  lemma LogGrowsByWriter(s: State, t: ThreadId)
    requires t in s.threads && s.threads[t].Writer? && WriterReady(s, s.threads[t])
    ensures LogGrows(s, GoWriter(s, t, s.threads[t]))
  {
  }

  lemma LogStep(s: State, l: Label)
    requires Enabled(s, l) && !l.Crash?
    ensures LogGrows(s, Do(s, l))
  {
    if NoWriter(s, l) { WritersLeft(s, l); }
    else if l.Go? { LogGrowsByWriter(s, l.t); }
  }

  lemma LogThrough(states: seq<State>, labels: seq<Label>, i: nat, n: nat)
    requires IsRun(states, labels) && i <= n < |states| && Uncrashed(labels, i, n)
    ensures LogGrows(states[i], states[n])
  {
    forall j | i <= j < n ensures LogGrows(states[j], states[j + 1]) {
      LogNext(states, labels, j);
    }
    GrowsThrough(states, i, n);
  }

  lemma {:induction false} GrowsThrough(states: seq<State>, i: nat, n: nat)
    requires i <= n < |states| && forall j :: i <= j < n ==> LogGrows(states[j], states[j + 1])
    ensures LogGrows(states[i], states[n])
    decreases n
  {
    if i < n {
      GrowsThrough(states, i, n - 1);
      assert LogGrows(states[n - 1], states[n - 1 + 1]);
    }
  }

  lemma LogNext(states: seq<State>, labels: seq<Label>, n: nat)
    requires IsRun(states, labels) && n < |labels| && !labels[n].Crash?
    ensures LogGrows(states[n], states[n + 1])
  {
    StepAt(states, labels, n);
    LogStep(states[n], labels[n]);
  }

  // All that was there at the last start is older than all events since.
  ghost predicate BaseOlder(s: State) {
    forall k :: k in s.past.base ==> NewAbove(s, 0, s.past.base[k].rv)
  }

  lemma BaseOlderKept(s: State, l: Label)
    requires Inv(s) && BaseOlder(s) && Enabled(s, l) && Fits(s, l)
    ensures BaseOlder(Do(s, l))
  {
    if !l.Crash? {
      LogStep(s, l);
      forall k | k in s.past.base ensures NewAbove(Do(s, l), 0, s.past.base[k].rv) {
        NewAboveKept(s, l, 0, s.past.base[k].rv);
      }
    }
  }

  lemma {:induction false} RunBaseOlder(states: seq<State>, labels: seq<Label>, n: nat)
    requires IsRun(states, labels) && n < |states|
    ensures BaseOlder(states[n])
  {
    if n > 0 {
      RunBaseOlder(states, labels, n - 1);
      RunInv(states, labels, n - 1);
      StepAt(states, labels, n - 1);
      BaseOlderKept(states[n - 1], labels[n - 1]);
    }
  }

  lemma {:induction false} NewAboveThrough(states: seq<State>, labels: seq<Label>, i: nat, n: nat, from: nat, r: nat)
    requires IsRun(states, labels) && i <= n < |states| && Uncrashed(labels, i, n) && NewAbove(states[i], from, r)
    ensures NewAbove(states[n], from, r)
    decreases n
  {
    if i < n {
      NewAboveThrough(states, labels, i, n - 1, from, r);
      NewAboveNext(states, labels, n - 1, from, r);
    }
  }

  lemma NewAboveNext(states: seq<State>, labels: seq<Label>, n: nat, from: nat, r: nat)
    requires IsRun(states, labels) && n < |labels| && !labels[n].Crash? && NewAbove(states[n], from, r)
    ensures NewAbove(states[n + 1], from, r)
  {
    RunInv(states, labels, n);
    StepAt(states, labels, n);
    NewAboveKept(states[n], labels[n], from, r);
  }

  // Nobody else moves the holder of a key.
  lemma HolderStays(s: State, l: Label, k: Key)
    requires Locks(s) && Enabled(s, l) && !l.Crash? && k in s.locks.keys && (l.Drain? || l.t != s.locks.keys[k])
    ensures Holder(Do(s, l), k) == Holder(s, k)
  {
    ThreadsStep(s, l);
    if l.Drain? { WritersLeft(s, l); }
  }

  // A change that is on the disk gets its place in the log.
  ghost predicate Enters(s: State, k: Key, from: nat) {
    || (Holder(s, k).Some? && Changed(Holder(s, k).value))
    || exists i :: from <= i < |s.past.log| && EntryKey(s.past.log[i]) == k
  }

  lemma ChangeEnters(s: State, l: Label, k: Key)
    requires Inv(s) && Enabled(s, l) && !l.Crash? && Holder(s, k).Some? && Changed(Holder(s, k).value)
    ensures var s' := Do(s, l);
      || (Holder(s', k) .Some? && Changed(Holder(s', k).value)
          && After(Holder(s', k).value.plan, Version(Holder(s', k).value)) == After(Holder(s, k).value.plan, Version(Holder(s, k).value)))
      || (|s'.past.log| == |s.past.log| + 1 && EntryKey(s'.past.log[|s.past.log|]) == k
          && EntryAfter(s'.past.log[|s.past.log|]) == After(Holder(s, k).value.plan, Version(Holder(s, k).value)))
  {
    var t := s.locks.keys[k];
    assert KeyAgrees(s, k);
    if l.Drain? || l.t != t {
      HolderStays(s, l, k);
    } else if l.Go? {
      ChangeGoes(s, t);
    }
  }

  lemma ChangeGoes(s: State, t: ThreadId)
    requires Locks(s) && t in s.threads && s.threads[t].Writer? && WriterReady(s, s.threads[t]) && Changed(s.threads[t])
    requires KeyAgrees(s, s.threads[t].key) && Holder(s, s.threads[t].key) == Some(s.threads[t])
    ensures var th, s' := s.threads[t], GoWriter(s, t, s.threads[t]);
      || (Holder(s', th.key) .Some? && Changed(Holder(s', th.key).value)
          && After(Holder(s', th.key).value.plan, Version(Holder(s', th.key).value)) == After(th.plan, Version(th)))
      || (|s'.past.log| == |s.past.log| + 1 && EntryKey(s'.past.log[|s.past.log|]) == th.key
          && EntryAfter(s'.past.log[|s.past.log|]) == After(th.plan, Version(th)))
  {
    var s' := GoWriter(s, t, s.threads[t]);
    assert s'.locks.keys == s.locks.keys && s'.threads[t].key == s.threads[t].key;
  }

  lemma EntersKept(s: State, l: Label, k: Key, from: nat)
    requires Inv(s) && Enabled(s, l) && !l.Crash? && from <= |s.past.log| && Enters(s, k, from)
    ensures from <= |Do(s, l).past.log| && Enters(Do(s, l), k, from)
  {
    var s' := Do(s, l);
    LogStep(s, l);
    if Holder(s, k).Some? && Changed(Holder(s, k).value) {
      ChangeEnters(s, l, k);
    } else {
      var i :| from <= i < |s.past.log| && EntryKey(s.past.log[i]) == k;
      assert s'.past.log[i] == s.past.log[i];
    }
  }

  lemma {:induction false} EntersThrough(states: seq<State>, labels: seq<Label>, i: nat, n: nat, k: Key)
    requires IsRun(states, labels) && i <= n < |states| && Uncrashed(labels, i, n)
    requires Holder(states[i], k).Some? && Changed(Holder(states[i], k).value)
    ensures |states[i].past.log| <= |states[n].past.log| && Enters(states[n], k, |states[i].past.log|)
    decreases n
  {
    if i < n {
      EntersThrough(states, labels, i, n - 1, k);
      EntersNext(states, labels, n - 1, k, |states[i].past.log|);
    }
  }

  lemma EntersNext(states: seq<State>, labels: seq<Label>, n: nat, k: Key, from: nat)
    requires IsRun(states, labels) && n < |labels| && !labels[n].Crash?
    requires from <= |states[n].past.log| && Enters(states[n], k, from)
    ensures from <= |states[n + 1].past.log| && Enters(states[n + 1], k, from)
  {
    RunInv(states, labels, n);
    StepAt(states, labels, n);
    EntersKept(states[n], labels[n], k, from);
  }

  lemma StemsOn(log: seq<Entry>, log': seq<Entry>, base: Files, k: Key, o: Obj)
    requires log <= log' && Stems(log, base, k, o)
    ensures Stems(log', base, k, o)
  {
    if Get(base, k) != Some(o) {
      var i :| 0 <= i < |log| && Wrote(log[i], k, o);
      assert Wrote(log'[i], k, o);
    }
  }

  lemma WillStemKept(s: State, l: Label, k: Key, o: Obj)
    requires Inv(s) && Enabled(s, l) && !l.Crash? && WillStem(s, k, o)
    ensures WillStem(Do(s, l), k, o)
  {
    var s' := Do(s, l);
    LogStep(s, l);
    if Stems(s.past.log, s.past.base, k, o) {
      StemsOn(s.past.log, s'.past.log, s.past.base, k, o);
    } else {
      ChangeEnters(s, l, k);
      var n := |s.past.log|;
      if |s'.past.log| == n + 1 && EntryKey(s'.past.log[n]) == k && EntryAfter(s'.past.log[n]) == Some(o) {
        assert Wrote(s'.past.log[n], k, o);
      }
    }
  }

  lemma {:induction false} WillStemThrough(states: seq<State>, labels: seq<Label>, i: nat, n: nat, k: Key, o: Obj)
    requires IsRun(states, labels) && i <= n < |states| && Uncrashed(labels, i, n) && WillStem(states[i], k, o)
    ensures WillStem(states[n], k, o)
    decreases n
  {
    if i < n {
      WillStemThrough(states, labels, i, n - 1, k, o);
      WillStemNext(states, labels, n - 1, k, o);
    }
  }

  lemma WillStemNext(states: seq<State>, labels: seq<Label>, n: nat, k: Key, o: Obj)
    requires IsRun(states, labels) && n < |labels| && !labels[n].Crash? && WillStem(states[n], k, o)
    ensures WillStem(states[n + 1], k, o)
  {
    RunInv(states, labels, n);
    StepAt(states, labels, n);
    WillStemKept(states[n], labels[n], k, o);
  }

  // --- The last event of a key ---

  function LastEvent(events: seq<Event>, k: Key): Option<Event> {
    if events == [] then None
    else if events[|events| - 1].key == k then Some(events[|events| - 1])
    else LastEvent(events[..|events| - 1], k)
  }

  lemma {:induction false} LastOfBoth(a: seq<Event>, b: seq<Event>, k: Key)
    ensures LastEvent(a + b, k) == if LastEvent(b, k).Some? then LastEvent(b, k) else LastEvent(a, k)
    decreases |b|
  {
    if b == [] {
      assert a + b == a;
    } else {
      var n := |b| - 1;
      assert (a + b)[..|a| + n] == a + b[..n];
      LastOfBoth(a, b[..n], k);
    }
  }

  lemma {:induction false} LastIsOne(events: seq<Event>, k: Key) returns (p: nat)
    requires LastEvent(events, k).Some?
    ensures p < |events| && events[p] == LastEvent(events, k).value && events[p].key == k
    ensures forall i :: p < i < |events| ==> events[i].key != k
  {
    var n := |events| - 1;
    if events[n].key == k {
      p := n;
    } else {
      p := LastIsOne(events[..n], k);
    }
  }

  lemma {:induction false} ViewOfEvents(item: Option<Obj>, events: seq<Event>, filter: Filter, k: Key)
    requires Matches(filter, k)
    ensures ViewAt(item, Select(events, filter), k)
         == if LastEvent(events, k).Some? then Outcome(LastEvent(events, k).value) else item
  {
    if events != [] {
      var n := |events| - 1;
      ViewOfEvents(item, events[..n], filter, k);
      assert events == events[..n] + [events[n]];
      Atomic.SelectAppend(events[..n], events[n], filter);
      if Matches(filter, events[n].key) {
        ViewAppend(item, Select(events[..n], filter), Change(events[n]), k);
      } else {
        assert Select(events[..n], filter) + [] == Select(events[..n], filter);
      }
    }
  }

  ghost predicate KeyAscends(events: seq<Event>, k: Key) {
    forall i, j :: 0 <= i < j < |events| && events[i].key == k && events[j].key == k ==> events[i].rv < events[j].rv
  }

  // Of the events above a version, what counts for a key is whether its last one is.
  lemma {:induction false} LastAbove(events: seq<Event>, k: Key, r: nat)
    requires KeyAscends(events, k)
    ensures LastEvent(Above(events, r), k)
         == if LastEvent(events, k).Some? && LastEvent(events, k).value.rv > r then LastEvent(events, k) else None
  {
    if events != [] {
      var n := |events| - 1;
      LastAbove(events[..n], k, r);
      var before := Above(events[..n], r);
      assert Above(events, r) == before + (if events[n].rv > r then [events[n]] else []);
      if events[n].rv > r {
        assert (before + [events[n]])[..|before|] == before;
      } else {
        assert before + [] == before;
        if events[n].key == k && LastEvent(events[..n], k).Some? {
          var p := LastIsOne(events[..n], k);
          assert events[p].rv < events[n].rv;
        }
      }
    }
  }

  lemma LogAscends(s: State, k: Key)
    requires Ordered(s.past.log)
    ensures KeyAscends(Announced(s.past.log), k)
  {
    var all := Announced(s.past.log);
    forall i, j | 0 <= i < j < |all| && all[i].key == k && all[j].key == k ensures all[i].rv < all[j].rv {
      AnnouncedAscend(s.past.log, i, j);
    }
  }

  // What the log says of a key, unless its last change was a removal without a version.
  lemma {:induction false} LatestIsLast(log: seq<Entry>, base: Files, k: Key)
    requires !Lost(log, k)
    ensures Latest(log, base, k) == if LastEvent(Announced(log), k).Some? then Outcome(LastEvent(Announced(log), k).value) else Get(base, k)
  {
    if log != [] {
      var n := |log| - 1;
      AnnouncedAppend(log[..n], log[n]);
      assert log == log[..n] + [log[n]];
      var before := Announced(log[..n]);
      if log[n].Published? {
        assert (before + [log[n].ev])[..|before|] == before;
      } else {
        assert before + [] == before;
      }
      if EntryKey(log[n]) != k {
        LatestIsLast(log[..n], base, k);
      }
    }
  }

  lemma {:induction false} LastInLog(log: seq<Entry>, k: Key) returns (i: nat)
    requires LastEvent(Announced(log), k).Some?
    ensures i < |log| && log[i].Published? && log[i].ev == LastEvent(Announced(log), k).value && log[i].ev.key == k
    ensures forall j :: i < j < |log| && log[j].Published? ==> log[j].ev.key != k
  {
    var n := |log| - 1;
    AnnouncedAppend(log[..n], log[n]);
    assert log == log[..n] + [log[n]];
    var before := Announced(log[..n]);
    if log[n].Published? {
      assert (before + [log[n].ev])[..|before|] == before;
    } else {
      assert before + [] == before;
    }
    if log[n].Published? && log[n].ev.key == k {
      i := n;
    } else {
      i := LastInLog(log[..n], k);
    }
  }
}
