/** The order in which changes are announced. */
module ProtocolOrder {
  import opened Objects
  import opened Options
  import opened Protocol
  import opened ProtocolChain
  import opened ProtocolLocks
  import opened ProtocolVersions
  import opened Ring

  // Announcements of one key ascend by version. An announcement can only have a lower
  // version than an earlier one if its request had begun before that earlier one was
  // made: `start` counts the announcements there were when the request began.
  ghost predicate Ordered(log: seq<Entry>) {
    && (forall i :: 0 <= i < |log| && log[i].Published? ==> log[i].start <= i)
    && (forall i, j | 0 <= i < j < |log| && log[i].Published? && log[j].Published? ::
          log[i].ev.key == log[j].ev.key || i < log[j].start ==> log[i].ev.rv < log[j].ev.rv)
  }

  // A writer that has its version and has not announced it yet.
  predicate Pending(th: Thread) {
    th.Writer? && th.rv.Some? &&
    (th.pc.UnlockCounter? || th.pc.WriteTmp? || th.pc.Rename? || th.pc.LockRing? || th.pc.AppendRing?)
  }

  // Its version is above the announcements that it must come after.
  ghost predicate Ahead(log: seq<Entry>, th: Thread)
    requires th.Writer?
  {
    && th.start <= |log|
    && (Pending(th) ==>
          forall i :: 0 <= i < |log| && log[i].Published? && (log[i].ev.key == th.key || i < th.start) ==>
            log[i].ev.rv < Version(th))
  }

  ghost predicate AllAhead(s: State) {
    forall t :: t in s.threads && s.threads[t].Writer? ==> Ahead(s.past.log, s.threads[t])
  }

  ghost predicate Order(s: State) {
    Ordered(s.past.log) && AllAhead(s)
  }

  lemma OrderKeptByFile(s: State, t: ThreadId)
    requires Locks(s) && Order(s) && WriterAt(s, t) && KeyAgrees(s, s.threads[t].key)
    requires OnFile(s.threads[t].pc)
    ensures Order(GoFile(s, t, s.threads[t]))
  {
    var s' := GoFile(s, t, s.threads[t]);
    assert Ahead(s.past.log, s.threads[t]);
    assert s'.past == s.past && s'.threads == s.threads[t := s'.threads[t]];
    assert Pending(s'.threads[t]) ==> Pending(s.threads[t]) && Version(s'.threads[t]) == Version(s.threads[t]);
  }

  lemma OrderKeptByVersion(s: State, t: ThreadId)
    requires Locks(s) && Order(s) && Versions(s) && WriterAt(s, t) && TakesVersion(s.threads[t].pc)
    ensures Order(GoVersion(s, t, s.threads[t]))
  {
    if s.threads[t].pc.Persist? {
      assert s.locks.counter == Some(t);
    }
  }

  // The announcement of a pending writer extends the log in order.
  lemma OrderedAppend(log: seq<Entry>, th: Thread, e: Entry)
    requires Ordered(log) && th.Writer? && Pending(th) && Ahead(log, th)
    requires e.Published? && e.ev.key == th.key && e.ev.rv == Version(th) && e.start == th.start
    ensures Ordered(log + [e])
  {
  }

  // Announcing one key keeps the writers of other keys ahead.
  lemma AheadAppend(log: seq<Entry>, e: Entry, th: Thread)
    requires th.Writer? && Ahead(log, th) && EntryKey(e) != th.key
    ensures Ahead(log + [e], th)
  {
  }

  lemma OrderKeptByPublish(s: State, t: ThreadId)
    requires Locks(s) && Order(s) && WriterAt(s, t) && Publishes(s.threads[t].pc)
    requires KeyAgrees(s, s.threads[t].key)
    ensures Order(GoPublish(s, t, s.threads[t]))
  {
    var th := s.threads[t];
    var s' := GoPublish(s, t, th);
    if th.pc.AppendRing? {
      var e := Published(EventOf(th.key, th.cur, th.plan, Version(th)), th.op, th.cur, th.start);
      assert Ahead(s.past.log, th) && Holder(s, th.key) == Some(th);
      OrderedAppend(s.past.log, th, e);
      forall u | u in s'.threads && s'.threads[u].Writer? && u != t ensures Ahead(s'.past.log, s'.threads[u]) {
        assert Ahead(s.past.log, s.threads[u]);
        if Pending(s.threads[u]) {
          assert HoldsKey(s.threads[u]) && HoldsKey(th);
          AheadAppend(s.past.log, e, s.threads[u]);
        }
      }
    }
  }

  lemma OrderKeptInside(s: State, t: ThreadId)
    requires Order(s) && WriterAt(s, t) && StopsInside(s.threads[t].pc)
    ensures Order(GoInside(s, t, s.threads[t]))
  {
    assert Ahead(s.past.log, s.threads[t]);
  }

  lemma OrderKeptByFailure(s: State, t: ThreadId)
    requires Locks(s) && Order(s) && t in s.threads && s.threads[t].Writer?
    requires var pc := s.threads[t].pc; pc.RemoveFile? || pc.Persist? || pc.WriteTmp? || pc.Rename?
    requires KeyAgrees(s, s.threads[t].key)
    ensures Order(FailWriter(s, t, s.threads[t]))
  {
  }

  lemma OrderKeptByOffer(s: State, t: ThreadId, w: WatchId, how: How)
    requires Order(s) && w in s.hub.channels
    requires t in s.threads && s.threads[t].Writer? && s.threads[t].pc.FanOut?
    ensures Order(OfferByWriter(s, t, s.threads[t], w, how))
  {
  }

  lemma OrderKept(s: State, l: Label)
    requires Enabled(s, l) && Locks(s) && Order(s) && Versions(s)
    requires l.Go? && s.threads[l.t].Writer? ==> WriterAt(s, l.t)
    requires !NoWriter(s, l) && !l.Crash? && !l.NewWriter? ==> KeyAgrees(s, s.threads[l.t].key)
    ensures Order(Do(s, l))
  {
    if NoWriter(s, l) {
      WritersLeft(s, l);
    } else if l.NewWriter? || l.Crash? {
    } else if l.Fail? {
      OrderKeptByFailure(s, l.t);
    } else if l.Offer? {
      OrderKeptByOffer(s, l.t, l.w, l.how);
    } else if TakesVersion(s.threads[l.t].pc) {
      OrderKeptByVersion(s, l.t);
    } else if Publishes(s.threads[l.t].pc) {
      OrderKeptByPublish(s, l.t);
    } else if StopsInside(s.threads[l.t].pc) {
      OrderKeptInside(s, l.t);
    } else {
      OrderKeptByFile(s, l.t);
    }
  }

  // --- The ring ---

  // The published events, without the lost removals.
  function Announced(log: seq<Entry>): seq<Event> {
    if log == [] then []
    else
      var last := log[|log| - 1];
      Announced(log[..|log| - 1]) + (if last.Published? then [last.ev] else [])
  }

  lemma AnnouncedAppend(log: seq<Entry>, e: Entry)
    ensures Announced(log + [e]) == Announced(log) + (if e.Published? then [e.ev] else [])
  {
    assert (log + [e])[..|log|] == log;
  }

  // The ring is the tail of what was published since the start.
  ghost predicate RingOk(s: State) {
    s.hub.ring == Trim(Announced(s.past.log), s.hub.capacity)
  }

  lemma RingKept(s: State, l: Label)
    requires Enabled(s, l) && RingOk(s)
    ensures RingOk(Do(s, l)) && Do(s, l).hub.capacity == s.hub.capacity
  {
    if NoWriter(s, l) {
      WritersLeft(s, l);
    } else if l.Go? {
      RingKeptByWriter(s, l.t);
    } else if l.Fail? {
      var th := s.threads[l.t];
      AnnouncedAppend(s.past.log, LostRemoval(th.key, th.op, th.cur));
    }
  }

  lemma RingKeptByWriter(s: State, t: ThreadId)
    requires t in s.threads && s.threads[t].Writer? && WriterReady(s, s.threads[t]) && RingOk(s)
    ensures RingOk(GoWriter(s, t, s.threads[t])) && GoWriter(s, t, s.threads[t]).hub.capacity == s.hub.capacity
  {
    var th := s.threads[t];
    if th.pc.AppendRing? {
      var ev := EventOf(th.key, th.cur, th.plan, Version(th));
      AnnouncedAppend(s.past.log, Published(ev, th.op, th.cur, th.start));
      TrimAppend(Announced(s.past.log), ev, s.hub.capacity);
    }
  }

  // Every published event has its place in the log.
  lemma {:induction false} AnnouncedFrom(log: seq<Entry>, a: nat) returns (i: nat)
    requires a < |Announced(log)|
    ensures i < |log| && log[i].Published? && log[i].ev == Announced(log)[a]
  {
    var prev := log[..|log| - 1];
    if a < |Announced(prev)| {
      i := AnnouncedFrom(prev, a);
    } else {
      i := |log| - 1;
    }
  }

  // In an ordered log the events of one key ascend.
  lemma {:induction false} AnnouncedAscend(log: seq<Entry>, a: nat, b: nat)
    requires Ordered(log) && a < b < |Announced(log)| && Announced(log)[a].key == Announced(log)[b].key
    ensures Announced(log)[a].rv < Announced(log)[b].rv
  {
    var n := |log| - 1;
    var prev := log[..n];
    assert Ordered(prev);
    if b < |Announced(prev)| {
      AnnouncedAscend(prev, a, b);
    } else {
      var i := AnnouncedFrom(prev, a);
      assert log[i] == prev[i];
    }
  }
}
