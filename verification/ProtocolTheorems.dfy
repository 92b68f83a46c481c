/** What holds in every run of the storage protocol. */
module ProtocolTheorems {
  import opened Decimal
  import opened Json
  import opened Objects
  import opened Options
  import opened Protocol
  import opened ProtocolChain
  import opened ProtocolChannels
  import opened ProtocolLocks
  import opened ProtocolOrder
  import opened ProtocolVersions
  import opened ProtocolView
  import opened Ring

  ghost predicate Inv(s: State) {
    Locks(s) && Chain(s) && Versions(s) && Order(s) && RingOk(s) && Channels(s) && View(s)
  }

  lemma InvInit(s: State)
    requires Init(s)
    ensures Inv(s)
  {
    assert !Persisting(s);
    assert forall k :: KeyAgrees(s, k);
  }

  lemma InvKept(s: State, l: Label)
    requires Inv(s) && Enabled(s, l) && Fits(s, l)
    ensures Inv(Do(s, l))
  {
    assert l.Go? && s.threads[l.t].Writer? ==> WriterAt(s, l.t);
    assert !NoWriter(s, l) && !l.Crash? && !l.NewWriter? ==> KeyAgrees(s, s.threads[l.t].key);
    LocksKept(s, l);
    ChainKept(s, l);
    VersionsKept(s, l);
    OrderKept(s, l);
    RingKept(s, l);
    ChannelsKept(s, l);
    ViewKept(s, l);
  }

  lemma {:induction false} RunInv(states: seq<State>, labels: seq<Label>, n: nat)
    requires IsRun(states, labels) && n < |states|
    ensures Inv(states[n])
  {
    if n == 0 {
      InvInit(states[0]);
    } else {
      RunInv(states, labels, n - 1);
      StepAt(states, labels, n - 1);
      InvKept(states[n - 1], labels[n - 1]);
    }
  }

  // --- A watch from version 0 tracks the files ---

  // For a subscribed watch from version 0 that is not being stopped, and a matching key of
  // which no new content is on its way to it: folding what its channel was sent gives
  // exactly the file, if and only if no removal of the key is unseen by it. A key that the
  // watch neither lists nor was told of it shows as absent. The exception is a key of which
  // an event was dropped by a panic of its publisher and none has arrived since.
  lemma WatchTracksFiles(states: seq<State>, labels: seq<Label>, n: nat, w: WatchId, k: Key)
    requires IsRun(states, labels) && n < |states|
    requires var s := states[n];
      && w in s.hub.channels && w in s.hub.subs
      && s.hub.channels[w].startRV == 0 && !s.hub.channels[w].stopClosed
      && Matches(s.hub.channels[w].filter, k)
      && !Coming(s, w, k)
    ensures var s := states[n];
      var ch := s.hub.channels[w];
      k in ch.missed ||
      ((ViewAt(None, ch.sent, k) == Get(s.disk.files, k)) <==>
       (if Known(ch.filter, ch.sent, k) then k !in ch.unseen else Get(s.disk.files, k) == None))
  {
    RunInv(states, labels, n);
    assert SubscriberOk(states[n], w);
    var ch := states[n].hub.channels[w];
    assert Shows(states[n], w, ch, ch.sent, k);
    if !Known(ch.filter, ch.sent, k) {
      UntoldView(ch.sent, k);
    }
  }

  // While no request is changing the key, the removals unseen by a watch are those that
  // got no version and so will never be announced.
  lemma UnseenIsLost(states: seq<State>, labels: seq<Label>, n: nat, w: WatchId, k: Key)
    requires IsRun(states, labels) && n < |states|
    requires var s := states[n];
      && w in s.hub.channels && w in s.hub.subs
      && s.hub.channels[w].startRV == 0 && !s.hub.channels[w].stopClosed
      && Matches(s.hub.channels[w].filter, k) && Known(s.hub.channels[w].filter, s.hub.channels[w].sent, k)
      && k in s.hub.channels[w].unseen && k !in s.hub.channels[w].missed
      && (Holder(s, k).Some? ==> !Changed(Holder(s, k).value) && !Awaits(Holder(s, k).value, w))
    ensures Lost(states[n].past.log, k) && Get(states[n].disk.files, k) == None
  {
    RunInv(states, labels, n);
    assert SubscriberOk(states[n], w);
    var ch := states[n].hub.channels[w];
    assert Shows(states[n], w, ch, ch.sent, k);
  }

  // --- No update is lost ---

  // A request's effect on the state it finds.
  function Effect(e: Entry, found: Option<Obj>): Option<Obj> {
    match e
    case Published(ev, op, _, _) => After(Decide(op, found), ev.rv)
    case LostRemoval(_, op, _) => After(Decide(op, found), 0)
  }

  // The requests of one key that took effect, composed in the order of announcement.
  function Composed(log: seq<Entry>, base: Files, k: Key): Option<Obj> {
    if log == [] then Get(base, k)
    else
      var last := log[|log| - 1];
      var found := Composed(log[..|log| - 1], base, k);
      if EntryKey(last) == k then Effect(last, found) else found
  }

  lemma {:induction false} ChainComposes(log: seq<Entry>, base: Files, k: Key)
    requires ChainOk(log, base)
    ensures Composed(log, base, k) == Latest(log, base, k)
  {
    if log != [] {
      ChainComposes(log[..|log| - 1], base, k);
    }
  }

  lemma {:induction false} ChainAt(log: seq<Entry>, base: Files, i: nat)
    requires ChainOk(log, base) && i < |log|
    ensures EntryOk(log[i], Latest(log[..i], base, EntryKey(log[i])))
  {
    var n := |log| - 1;
    if i < n {
      ChainAt(log[..n], base, i);
      assert log[..n][..i] == log[..i];
    }
  }

  // The file of a key is the composition, in ascending order of version, of exactly the
  // requests that took effect; each was decided on the result of the one before.
  lemma NoLostUpdate(states: seq<State>, labels: seq<Label>, n: nat, k: Key)
    requires IsRun(states, labels) && n < |states|
    ensures var s := states[n]; var log := s.past.log;
      && (!(Holder(s, k).Some? && Changed(Holder(s, k).value)) ==>
            Get(s.disk.files, k) == Composed(log, s.past.base, k))
      && (forall i :: 0 <= i < |log| ==> EntryOk(log[i], Composed(log[..i], s.past.base, EntryKey(log[i]))))
      && (forall i, j | 0 <= i < j < |log| && log[i].Published? && log[j].Published? ::
            log[i].ev.key == log[j].ev.key ==> log[i].ev.rv < log[j].ev.rv)
  {
    RunInv(states, labels, n);
    var s := states[n];
    var log := s.past.log;
    ChainComposes(log, s.past.base, k);
    assert KeyAgrees(s, k);
    forall i | 0 <= i < |log| ensures EntryOk(log[i], Composed(log[..i], s.past.base, EntryKey(log[i]))) {
      ChainAt(log, s.past.base, i);
      ChainPrefix(log, s.past.base, i);
      ChainComposes(log[..i], s.past.base, EntryKey(log[i]));
    }
  }

  lemma {:induction false} ChainPrefix(log: seq<Entry>, base: Files, i: nat)
    requires ChainOk(log, base) && i <= |log|
    ensures ChainOk(log[..i], base)
  {
    if i < |log| {
      ChainPrefix(log[..|log| - 1], base, i);
      assert log[..|log| - 1][..i] == log[..i];
    } else {
      assert log[..i] == log;
    }
  }

  // A request that fails, or whose result encodes as before, takes no version; by
  // NoLostUpdate it is not among the announcements either.
  lemma FinishedTakesNoVersion(states: seq<State>, labels: seq<Label>, n: nat, t: ThreadId)
    requires IsRun(states, labels) && n < |states|
    requires t in states[n].threads && states[n].threads[t].Writer? && states[n].threads[t].plan.Finish?
    ensures states[n].threads[t].rv == None
  {
    RunInv(states, labels, n);
  }

  // --- What is decided, and what is announced ---

  // A request is refused, or changes nothing, on reading the file exactly when: a creation, if
  // there is one; a deletion, if there is none or its precondition fails; an update, if there is
  // none and it was not told to go on, if its precondition or its callback fails, or if
  // the callback returns what it got. Then it only releases the key.
  lemma RefusedIff(s: State, t: ThreadId)
    requires Enabled(s, Go(t)) && s.threads[t].Writer? && s.threads[t].pc.ReadFile?
    ensures var th := s.threads[t]; var files, k := s.disk.files, th.key; var s' := Do(s, Go(t));
      && t in s'.threads && s' == s.(threads := s.threads[t := s'.threads[t]]) && s'.threads[t].Writer?
      && (s'.threads[t].pc.UnlockKey? <==>
            match th.op
            case Create(_) => k in files
            case Delete(pre) => k !in files || !pre(files[k])
            case Update(pre, f, ignoreNotFound) =>
              if k in files then !pre(files[k]) || f(files[k]).None? || f(files[k]) == Some(files[k])
              else !ignoreNotFound || f(Obj(JObj(map[]), 0)).None?)
      && (!s'.threads[t].pc.UnlockKey? ==> if th.op.Delete? then s'.threads[t].pc.RemoveFile? else s'.threads[t].pc.LockCounter?)
  {
  }

  // What the request of an entry may have found, and what it left, with its version.
  ghost predicate Follows(op: Op, before: Option<Obj>, rv: nat, after: Option<Obj>) {
    match op
    case Create(body) => before == None && after == Some(Obj(body, rv))
    case Delete(pre) => before.Some? && pre(before.value) && after == None
    case Update(pre, f, ignoreNotFound) =>
      match before
      case None =>
        var made := f(Obj(JObj(map[]), 0));
        ignoreNotFound && made.Some? && after == Some(Obj(made.value.body, rv))
      case Some(c) =>
        pre(c) && f(c).Some? && f(c).value != c && after == Some(Obj(f(c).value.body, rv))
  }

  // In every run, an announced creation found no object, an announced update one that met its
  // precondition, or none if it was told to go on, and an announced deletion one that met its
  // precondition. The event has the version, the new object or the last one, and its type:
  // Added exactly if there was no object, Deleted exactly for a deletion, else Modified. What
  // the request found is what the entries before it had left.
  lemma Announcements(states: seq<State>, labels: seq<Label>, n: nat, i: nat)
    requires IsRun(states, labels) && n < |states| && i < |states[n].past.log|
    ensures var log := states[n].past.log; var e := log[i];
      && e.before == Composed(log[..i], states[n].past.base, EntryKey(e))
      && (e.Published? ==>
            && Follows(e.op, e.before, e.ev.rv, if e.ev.etype == Deleted then None else Some(e.ev.obj))
            && (e.ev.etype == Added <==> e.before == None) && (e.ev.etype == Deleted <==> e.op.Delete?)
            && (e.ev.etype == Deleted ==> e.ev.obj == Obj(e.before.value.body, e.ev.rv)))
      && (e.LostRemoval? ==> e.lostOp.Delete? && e.before.Some? && e.lostOp.pre(e.before.value))
  {
    RunInv(states, labels, n);
    var log, base := states[n].past.log, states[n].past.base;
    ChainAt(log, base, i);
    ChainPrefix(log, base, i);
    ChainComposes(log[..i], base, EntryKey(log[i]));
  }

  // --- Order of publication ---

  // Events of one key are in the ring in strictly ascending order of version, across
  // deletions and re-creations.
  lemma RingAscendsPerKey(states: seq<State>, labels: seq<Label>, n: nat, i: nat, j: nat)
    requires IsRun(states, labels) && n < |states|
    requires i < j < |states[n].hub.ring| && states[n].hub.ring[i].key == states[n].hub.ring[j].key
    ensures states[n].hub.ring[i].rv < states[n].hub.ring[j].rv
  {
    RunInv(states, labels, n);
    var s := states[n];
    var all := Announced(s.past.log);
    var d := |all| - |s.hub.ring|;
    AnnouncedAscend(s.past.log, d + i, d + j);
  }

  // Two announcements are out of order only if their requests overlapped: the later
  // one had begun when the earlier one was announced.
  lemma InversionsOverlap(states: seq<State>, labels: seq<Label>, n: nat, i: nat, j: nat)
    requires IsRun(states, labels) && n < |states|
    requires var log := states[n].past.log;
      && i < j < |log| && log[i].Published? && log[j].Published? && log[j].ev.rv < log[i].ev.rv
    ensures states[n].past.log[i].ev.key != states[n].past.log[j].ev.key
    ensures states[n].past.log[j].start <= i
  {
    RunInv(states, labels, n);
  }

  // --- Versions and crashes ---

  // In every state of every run, through any number of crashes: versions issued so far
  // ascend strictly, a restart would load a version that is not below any of them, nor
  // below any stored object, nor below the version any request holds.
  lemma VersionsSurviveCrashes(states: seq<State>, labels: seq<Label>, n: nat)
    requires IsRun(states, labels) && n < |states|
    ensures var s := states[n];
      && LoadRV(s.disk.rvFile).Some?
      && (forall i, j :: 0 <= i < j < |s.past.issued| ==> s.past.issued[i] < s.past.issued[j])
      && (forall i :: 0 <= i < |s.past.issued| ==> s.past.issued[i] <= LoadRV(s.disk.rvFile).value)
      && (forall k :: k in s.disk.files ==> s.disk.files[k].rv <= LoadRV(s.disk.rvFile).value)
      && (forall t :: t in s.threads && s.threads[t].Writer? ==> Version(s.threads[t]) <= LoadRV(s.disk.rvFile).value)
  {
    RunInv(states, labels, n);
  }

  // The version a step issues exceeds every version issued before and every version in
  // a file or an announcement.
  lemma NewVersionsExceed(states: seq<State>, labels: seq<Label>, n: nat)
    requires IsRun(states, labels) && n < |labels|
    requires |states[n + 1].past.issued| > |states[n].past.issued|
    ensures var s := states[n]; var issued := states[n + 1].past.issued;
      && issued[..|s.past.issued|] == s.past.issued && |issued| == |s.past.issued| + 1
      && var rv := issued[|s.past.issued|];
      && (forall i :: 0 <= i < |s.past.issued| ==> s.past.issued[i] < rv)
      && (forall k :: k in s.disk.files ==> s.disk.files[k].rv < rv)
      && (forall i :: 0 <= i < |s.past.log| && s.past.log[i].Published? ==> s.past.log[i].ev.rv < rv)
  {
    RunInv(states, labels, n);
    var s := states[n];
    var l := labels[n];
    StepAt(states, labels, n);
    IssuedStep(s, l);
    assert s.locks.counter == Some(l.t);
  }

  lemma IssuedStep(s: State, l: Label)
    requires Enabled(s, l)
    ensures var issued := Do(s, l).past.issued;
      if l.Go? && s.threads[l.t].Writer? && s.threads[l.t].pc.Persist? then issued == s.past.issued + [s.counter]
      else issued == s.past.issued
  {
    if NoWriter(s, l) {
      WritersLeft(s, l);
    }
  }
}
