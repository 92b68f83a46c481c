/** Runs of the storage protocol from its start, to states that the invariants allow and
    one would not want. */
module ProtocolRuns {
  import opened Decimal
  import Json
  import opened Objects
  import opened Options
  import opened Protocol
  import opened ProtocolChain
  import opened ProtocolProgress
  import opened Ring
  import Paths

  // No fault, no crash, and no Stop call from outside unless that is allowed.
  predicate Plain(l: Label, stops: bool) {
    !l.Crash? && !l.Fail? && (l.NewStop? ==> stops)
  }

  ghost predicate Linked(s: State, l: Label, s': State, stops: bool) {
    Steps(s, l, s') && Plain(l, stops)
  }

  ghost predicate Path(states: seq<State>, labels: seq<Label>, stops: bool) {
    && |states| == |labels| + 1
    && forall i :: 0 <= i < |labels| ==> Linked(states[i], labels[i], states[i + 1], stops)
  }

  ghost predicate Leads(s: State, s': State, stops: bool) {
    exists states, labels :: Path(states, labels, stops) && states[0] == s && states[|labels|] == s'
  }

  lemma Stays(s: State, stops: bool)
    ensures Leads(s, s, stops)
  {
    assert Path([s], [], stops);
  }

  lemma Moves(a: State, s: State, l: Label, stops: bool)
    requires Leads(a, s, stops) && Enabled(s, l) && Fits(s, l) && Plain(l, stops)
    ensures Leads(a, Do(s, l), stops)
  {
    var states, labels :| Path(states, labels, stops) && states[0] == a && states[|labels|] == s;
    Longer(states, labels, l, Do(s, l), stops);
    var states', labels' := states + [Do(s, l)], labels + [l];
    assert states'[0] == a && states'[|labels'|] == Do(s, l);
  }

  lemma Longer(states: seq<State>, labels: seq<Label>, l: Label, s: State, stops: bool)
    requires Path(states, labels, stops) && Linked(states[|labels|], l, s, stops)
    ensures Path(states + [s], labels + [l], stops)
  {
    var states', labels' := states + [s], labels + [l];
    forall i | 0 <= i < |labels'| ensures Linked(states'[i], labels'[i], states'[i + 1], stops) {
      if i < |labels| {
        assert states'[i] == states[i] && labels'[i] == labels[i] && states'[i + 1] == states[i + 1];
      }
    }
  }

  // A path from an initial state is a run.
  lemma Whole(a: State, s: State, stops: bool) returns (states: seq<State>, labels: seq<Label>)
    requires Init(a) && Leads(a, s, stops)
    ensures IsRun(states, labels) && states[0] == a && states[|labels|] == s
    ensures forall i :: 0 <= i < |labels| ==> Plain(labels[i], stops)
  {
    states, labels :| Path(states, labels, stops) && states[0] == a && states[|labels|] == s;
    PathIsRun(states, labels, stops);
  }

  lemma PathIsRun(states: seq<State>, labels: seq<Label>, stops: bool)
    requires Path(states, labels, stops) && Init(states[0])
    ensures IsRun(states, labels)
    ensures forall i :: 0 <= i < |labels| ==> Plain(labels[i], stops)
  {
    forall i | 0 <= i < |labels| ensures Steps(states[i], labels[i], states[i + 1]) && Plain(labels[i], stops)
    {
      assert Linked(states[i], labels[i], states[i + 1], stops);
    }
  }

  function Start(capacity: nat): (s: State)
  {
    State(Disk(map[], map[], {}, None, None), 1, Hub(capacity, [], {}, map[]), LockTable(map[], None, None), map[],
          false, Past(map[], [], []))
  }

  // --- A creation, in parts ---

  predicate Idle(s: State) {
    !s.panicked && s.locks == LockTable(map[], None, None)
  }

  // Only keys are locked.
  predicate Free(s: State) {
    !s.panicked && s.locks == LockTable(s.locks.keys, None, None)
  }

  const BODY: Json.Json := Json.JNull
  const PLAN: Plan := Write(Obj(BODY, 0))

  function CreatorAt(k: Key, start: nat, pc: WriterPC, rv: Option<nat>, todo: set<WatchId>): Thread {
    Writer(k, Op.Create(BODY), pc, start, None, PLAN, rv, todo)
  }

  function EventFor(k: Key, rv: nat): Event {
    EventOf(k, None, PLAN, rv)
  }

  // One step of a creation: only thread t moves, and the path goes on.
  lemma Goes(a: State, s: State, t: ThreadId, stops: bool) returns (s': State)
    requires Leads(a, s, stops) && Enabled(s, Go(t)) && Fits(s, Go(t))
    ensures s' == Do(s, Go(t)) && Leads(a, s', stops)
  {
    s' := Do(s, Go(t));
    Moves(a, s, Go(t), stops);
  }

  lemma Locks(a: State, s: State, t: ThreadId, k: Key, stops: bool) returns (s': State)
    requires Leads(a, s, stops) && Free(s) && t !in s.threads && k !in s.locks.keys
    ensures Leads(a, s', stops)
    ensures s' == s.(threads := s.threads[t := Writer(k, Op.Create(BODY), ReadFile, |s.past.log|, None, Finish(NotFound), None, {})],
                     locks := LockTable(s.locks.keys[k := t], None, None))
  {
    var s1 := Do(s, NewWriter(t, k, Op.Create(BODY)));
    Moves(a, s, NewWriter(t, k, Op.Create(BODY)), stops);
    s' := Goes(a, s1, t, stops);
    assert s'.threads == s.threads[t := s'.threads[t]];
  }

  // The key is locked, and found free.
  lemma FindsFree(a: State, s: State, t: ThreadId, k: Key, stops: bool) returns (s': State)
    requires Leads(a, s, stops) && Free(s) && t !in s.threads && k !in s.locks.keys && k !in s.disk.files
    ensures Leads(a, s', stops)
    ensures s' == s.(threads := s.threads[t := CreatorAt(k, |s.past.log|, LockCounter, None, {})],
                     locks := LockTable(s.locks.keys[k := t], None, None))
  {
    var s1 := Locks(a, s, t, k, stops);
    s' := Goes(a, s1, t, stops);
    assert s'.threads == s.threads[t := s'.threads[t]];
  }

  lemma Bumps(a: State, s: State, t: ThreadId, k: Key, start: nat, stops: bool) returns (s': State)
    requires Leads(a, s, stops) && !s.panicked && s.counter < MAX_UINT64
    requires t in s.threads && s.threads[t] == CreatorAt(k, start, LockCounter, None, {})
    requires s.locks.counter == None
    ensures Leads(a, s', stops)
    ensures s' == s.(threads := s.threads[t := CreatorAt(k, start, Persist, None, {})],
                     counter := s.counter + 1,
                     locks := s.locks.(counter := Some(t)),
                     disk := s.disk.(rvTmp := s'.disk.rvTmp))
  {
    var s1 := LocksCounter(a, s, t, k, start, stops);
    s' := Goes(a, s1, t, stops);
    assert s'.threads == s.threads[t := s'.threads[t]];
  }

  lemma LocksCounter(a: State, s: State, t: ThreadId, k: Key, start: nat, stops: bool) returns (s': State)
    requires Leads(a, s, stops) && !s.panicked
    requires t in s.threads && s.threads[t] == CreatorAt(k, start, LockCounter, None, {})
    requires s.locks.counter == None
    ensures Leads(a, s', stops)
    ensures s' == s.(threads := s.threads[t := CreatorAt(k, start, Bump, None, {})],
                     locks := s.locks.(counter := Some(t)))
  {
    s' := Goes(a, s, t, stops);
  }

  lemma Persists(a: State, s: State, t: ThreadId, k: Key, start: nat, stops: bool) returns (s': State)
    requires Leads(a, s, stops) && !s.panicked
    requires t in s.threads && s.threads[t] == CreatorAt(k, start, Persist, None, {})
    ensures Leads(a, s', stops)
    ensures s' == s.(threads := s.threads[t := CreatorAt(k, start, WriteTmp, Some(s.counter), {})],
                     locks := s.locks.(counter := None),
                     disk := s.disk.(rvFile := s'.disk.rvFile, rvTmp := s'.disk.rvTmp),
                     past := s.past.(issued := s'.past.issued))
  {
    var s1 := Goes(a, s, t, stops);
    s' := Goes(a, s1, t, stops);
    assert s'.threads == s.threads[t := s'.threads[t]];
  }

  lemma Writes(a: State, s: State, t: ThreadId, k: Key, start: nat, rv: nat, stops: bool) returns (s': State)
    requires Leads(a, s, stops) && !s.panicked && k.ns == ""
    requires t in s.threads && s.threads[t] == CreatorAt(k, start, WriteTmp, Some(rv), {})
    ensures Leads(a, s', stops)
    ensures s' == s.(threads := s.threads[t := CreatorAt(k, start, LockRing, Some(rv), {})],
                     disk := s.disk.(files := s.disk.files[k := Obj(BODY, rv)], tmps := s'.disk.tmps))
  {
    var s1 := Goes(a, s, t, stops);
    s' := Goes(a, s1, t, stops);
    assert s'.threads == s.threads[t := CreatorAt(k, start, LockRing, Some(rv), {})];
  }

  lemma Appends(a: State, s: State, t: ThreadId, k: Key, start: nat, rv: nat, stops: bool) returns (s': State)
    requires Leads(a, s, stops) && !s.panicked && s.locks.ring == None
    requires t in s.threads && s.threads[t] == CreatorAt(k, start, LockRing, Some(rv), {})
    ensures Leads(a, s', stops)
    ensures s' == s.(threads := s.threads[t := CreatorAt(k, start, FanOut, Some(rv), s.hub.subs)],
                     locks := s.locks.(ring := Some(t)),
                     hub := s.hub.(ring := Trim(s.hub.ring + [EventFor(k, rv)], s.hub.capacity)),
                     past := s.past.(log := s.past.log + [Published(EventFor(k, rv), Op.Create(BODY), None, start)]))
  {
    var s1 := Goes(a, s, t, stops);
    s' := Goes(a, s1, t, stops);
    assert s'.threads == s.threads[t := CreatorAt(k, start, FanOut, Some(rv), s.hub.subs)];
  }

  lemma Finishes(a: State, s: State, t: ThreadId, k: Key, start: nat, rv: nat, stops: bool) returns (s': State)
    requires Leads(a, s, stops) && !s.panicked && s.locks == LockTable(s.locks.keys, Some(t), None)
    requires t in s.threads && s.threads[t] == CreatorAt(k, start, FanOut, Some(rv), {})
    ensures Leads(a, s', stops) && (s.locks.keys == map[k := t] ==> Idle(s'))
    ensures s' == s.(threads := s.threads[t := CreatorAt(k, start, Returned, Some(rv), {})],
                     locks := LockTable(s.locks.keys - {k}, None, None))
  {
    var s1 := Goes(a, s, t, stops);
    s' := Goes(a, s1, t, stops);
    assert s'.threads == s.threads[t := CreatorAt(k, start, Returned, Some(rv), {})];
    if s.locks.keys == map[k := t] { assert s.locks.keys - {k} == map[]; }
  }

  // A state in which the creation of k is about to be offered to all subscribers.
  ghost predicate Announcing(s: State, s': State, t: ThreadId, k: Key) {
    && s'.panicked == s.panicked && s'.locks == LockTable(s.locks.keys[k := t], Some(t), None)
    && t in s'.threads && s'.threads == s.threads[t := s'.threads[t]]
    && s'.threads[t] == CreatorAt(k, |s.past.log|, FanOut, Some(s.counter + 1), s.hub.subs)
    && s'.hub == s.hub.(ring := Trim(s.hub.ring + [EventFor(k, s.counter + 1)], s.hub.capacity))
    && s'.past.log == s.past.log + [Published(EventFor(k, s.counter + 1), Op.Create(BODY), None, |s.past.log|)]
    && s'.counter == s.counter + 1
    && s'.disk.files == s.disk.files[k := Obj(BODY, s.counter + 1)] && s'.disk.dirs == s.disk.dirs
  }

  // With a version of its own, but nothing written yet.
  ghost predicate Versioned(s: State, s': State, t: ThreadId, k: Key) {
    && s'.panicked == s.panicked && s'.locks == LockTable(s.locks.keys[k := t], None, None)
    && t in s'.threads && s'.threads == s.threads[t := s'.threads[t]]
    && s'.threads[t] == CreatorAt(k, |s.past.log|, WriteTmp, Some(s.counter + 1), {})
    && s'.hub == s.hub && s'.counter == s.counter + 1
    && s'.disk.files == s.disk.files && s'.disk.dirs == s.disk.dirs && s'.past.log == s.past.log
  }

  ghost predicate Bumped(s: State, s': State, t: ThreadId, k: Key) {
    && s'.panicked == s.panicked && s'.locks == LockTable(s.locks.keys[k := t], None, Some(t))
    && t in s'.threads && s'.threads == s.threads[t := s'.threads[t]]
    && s'.threads[t] == CreatorAt(k, |s.past.log|, Persist, None, {})
    && s'.hub == s.hub && s'.counter == s.counter + 1
    && s'.disk.files == s.disk.files && s'.disk.dirs == s.disk.dirs && s'.past.log == s.past.log
  }

  lemma GetsBumped(a: State, s: State, t: ThreadId, k: Key, stops: bool) returns (s': State)
    requires Leads(a, s, stops) && Free(s) && t !in s.threads && k !in s.locks.keys && k !in s.disk.files && s.counter < MAX_UINT64
    ensures Leads(a, s', stops) && Bumped(s, s', t, k)
  {
    var s1 := FindsFree(a, s, t, k, stops);
    s' := Bumps(a, s1, t, k, |s.past.log|, stops);
    assert s'.threads == s.threads[t := s'.threads[t]];
  }

  lemma GetsVersion(a: State, s: State, t: ThreadId, k: Key, stops: bool) returns (s': State)
    requires Leads(a, s, stops) && Free(s) && t !in s.threads && k !in s.locks.keys && k !in s.disk.files && s.counter < MAX_UINT64
    ensures Leads(a, s', stops) && Versioned(s, s', t, k)
  {
    var s1 := GetsBumped(a, s, t, k, stops);
    s' := Persists(a, s1, t, k, |s.past.log|, stops);
    assert s'.threads == s.threads[t := s'.threads[t]];
  }

  lemma Announces(a: State, s: State, s1: State, t: ThreadId, k: Key, stops: bool) returns (s': State)
    requires Leads(a, s1, stops) && !s.panicked && k.ns == "" && Versioned(s, s1, t, k)
    ensures Leads(a, s', stops) && Announcing(s, s', t, k)
  {
    var s2 := Writes(a, s1, t, k, |s.past.log|, s.counter + 1, stops);
    s' := Appends(a, s2, t, k, |s.past.log|, s.counter + 1, stops);
    assert s'.threads == s.threads[t := s'.threads[t]];
  }

  lemma Creates(a: State, s: State, t: ThreadId, k: Key, stops: bool) returns (s': State)
    requires Leads(a, s, stops) && Free(s) && t !in s.threads && k !in s.locks.keys && k !in s.disk.files && k.ns == "" && s.counter < MAX_UINT64
    ensures Leads(a, s', stops) && Announcing(s, s', t, k)
  {
    var s1 := GetsVersion(a, s, t, k, stops);
    s' := Announces(a, s, s1, t, k, stops);
  }

  // --- A watch of everything, in parts ---

  function WatchAt(w: WatchId, wpc: WatchPC, current: nat, toRead: set<Key>, queue: seq<Signal>): Thread {
    Watcher(w, false, wpc, current, {}, toRead, queue)
  }

  function NewChannel(startRV: nat): Channel {
    Channel(Everything, startRV, Fresh, false, false, false, false, false, [], 0, {}, {})
  }

  lemma Enters(a: State, s: State, t: ThreadId, w: WatchId, startRV: nat, stops: bool) returns (s': State)
    requires Leads(a, s, stops) && Idle(s) && t !in s.threads && w !in s.hub.channels
    ensures Leads(a, s', stops)
    ensures s' == s.(threads := s.threads[t := WatchAt(w, LockCurrent, 0, {}, [])],
                     hub := s.hub.(channels := s.hub.channels[w := NewChannel(startRV)]),
                     locks := LockTable(map[], Some(t), None))
  {
    var s1 := Do(s, NewWatch(t, w, Everything, startRV, false));
    Moves(a, s, NewWatch(t, w, Everything, startRV, false), stops);
    s' := Goes(a, s1, t, stops);
    assert s'.threads == s.threads[t := s'.threads[t]];
  }

  // The watch holds the broadcaster mutex and has read the version.
  lemma Opens(a: State, s: State, t: ThreadId, w: WatchId, startRV: nat, stops: bool) returns (s': State)
    requires Leads(a, s, stops) && Idle(s) && t !in s.threads && w !in s.hub.channels
    ensures Leads(a, s', stops)
    ensures s' == s.(threads := s.threads[t := WatchAt(w, ChooseStart, s.counter, {}, [])],
                     hub := s.hub.(channels := s.hub.channels[w := NewChannel(startRV)]),
                     locks := LockTable(map[], Some(t), None))
  {
    var s1 := Enters(a, s, t, w, startRV, stops);
    var s2 := Goes(a, s1, t, stops);
    var s3 := Goes(a, s2, t, stops);
    s' := Goes(a, s3, t, stops);
    assert s'.threads == s.threads[t := s'.threads[t]];
  }

  // With nothing left to deliver the watch subscribes and returns.
  lemma Subscribes(a: State, s: State, t: ThreadId, w: WatchId, current: nat, stops: bool) returns (s': State)
    requires Leads(a, s, stops) && !s.panicked && s.locks == LockTable(map[], Some(t), None)
    requires t in s.threads && s.threads[t] == WatchAt(w, Deliver, current, {}, []) && w in s.hub.channels
    ensures Leads(a, s', stops) && Idle(s')
    ensures s' == s.(threads := s.threads[t := WatchAt(w, Watching, current, {}, [])],
                     hub := s.hub.(subs := s.hub.subs + {w},
                                   channels := s.hub.channels[w := s.hub.channels[w].(hooked := true, handed := true)]),
                     locks := s'.locks)
  {
    var s1 := Goes(a, s, t, stops);
    s' := Goes(a, s1, t, stops);
    assert s'.threads == s.threads[t := s'.threads[t]];
    assert s'.hub.channels == s.hub.channels[w := s.hub.channels[w].(hooked := true, handed := true)];
  }

  // Whenever no request is under way and a subscriber's channel is closed, a request that
  // creates a matching object can panic.
  lemma ClosedSubscriberPanics(a: State, s: State, w: WatchId, t: ThreadId, k: Key, stops: bool) returns (s': State)
    requires Leads(a, s, stops) && Idle(s) && w in s.hub.subs && w in s.hub.channels && s.hub.channels[w].closed
    requires t !in s.threads && k !in s.disk.files && k.ns == "" && Matches(s.hub.channels[w].filter, k) && s.counter < MAX_UINT64
    ensures Leads(a, s', stops) && s'.panicked
  {
    var s1 := Creates(a, s, t, k, stops);
    s' := Do(s1, Offer(t, w, Send));
    Moves(a, s1, Offer(t, w, Send), stops);
  }

  // --- A Stop call before the subscription ---

  lemma StopBegins(a: State, s: State, u: ThreadId, w: WatchId) returns (s': State)
    requires Leads(a, s, true) && !s.panicked && u !in s.threads && w in s.hub.channels && s.hub.channels[w].once.Fresh?
    ensures Leads(a, s', true)
    ensures s' == s.(threads := s.threads[u := Stopper(w, RunHook)],
                     hub := s.hub.(channels := s.hub.channels[w := s.hub.channels[w].(once := Running(u), stopClosed := true)]))
  {
    var s1 := Do(s, NewStop(u, w));
    Moves(a, s, NewStop(u, w), true);
    s' := Goes(a, s1, u, true);
    assert s'.threads == s.threads[u := Stopper(w, RunHook)];
  }

  lemma StopsEarly(a: State, s: State, u: ThreadId, w: WatchId) returns (s': State)
    requires Leads(a, s, true) && !s.panicked && u !in s.threads && w in s.hub.channels
    requires s.hub.channels[w].once.Fresh? && !s.hub.channels[w].hooked
    ensures Leads(a, s', true)
    ensures s' == s.(threads := s.threads[u := Stopper(w, Stopped)],
                     hub := s.hub.(channels := s.hub.channels[w := StopUnhooked(s.hub.channels[w])]))
  {
    var s1 := StopBegins(a, s, u, w);
    var s2 := Goes(a, s1, u, true);
    s' := Goes(a, s2, u, true);
    assert s'.threads == s.threads[u := Stopper(w, Stopped)];
    assert s'.hub.channels == s.hub.channels[w := StopUnhooked(s.hub.channels[w])];
  }

  lemma StartsScan(a: State, s: State, t: ThreadId, w: WatchId, current: nat, stops: bool) returns (s': State)
    requires Leads(a, s, stops) && !s.panicked && s.disk.dirs == {}
    requires t in s.threads && s.threads[t] == WatchAt(w, ChooseStart, current, {}, [])
    requires w in s.hub.channels && s.hub.channels[w] == NewChannel(0)
    ensures Leads(a, s', stops)
    ensures s' == s.(threads := s.threads[t := WatchAt(w, Scan, current, InDir(s.disk.files, ""), [])])
  {
    s' := Goes(a, s, t, stops);
    assert s'.hub.channels == s.hub.channels;
  }

  // The snapshot of a store without files.
  lemma FindsNothing(a: State, s: State, t: ThreadId, w: WatchId, current: nat, stops: bool) returns (s': State)
    requires Leads(a, s, stops) && !s.panicked && s.disk.files == map[] && s.disk.dirs == {}
    requires t in s.threads && s.threads[t] == WatchAt(w, ChooseStart, current, {}, [])
    requires w in s.hub.channels && s.hub.channels[w] == NewChannel(0)
    ensures Leads(a, s', stops)
    ensures s' == s.(threads := s.threads[t := WatchAt(w, Deliver, current, {}, [])])
  {
    var s1 := StartsScan(a, s, t, w, current, stops);
    assert InDir(s.disk.files, "") == {};
    var none: seq<Signal> := [];
    assert none + [] == none;
    s' := Goes(a, s1, t, stops);
    assert s'.threads == s.threads[t := WatchAt(w, Deliver, current, {}, [])];
  }

  // A watch of an empty store, about to subscribe.
  lemma EmptySnapshot(capacity: nat, stops: bool) returns (s: State)
    ensures Leads(Start(capacity), s, stops) && !s.panicked && s.locks == LockTable(map[], Some(1), None)
    ensures s.threads.Keys == {1} && s.threads[1] == WatchAt(1, Deliver, 1, {}, [])
    ensures s.hub.subs == {} && s.hub.channels.Keys == {1} && s.hub.channels[1] == NewChannel(0)
    ensures s.disk.files == map[] && s.disk.dirs == {} && s.counter == 1 && s.past.log == []
  {
    var s0 := Start(capacity);
    Stays(s0, stops);
    var s1 := Opens(s0, s0, 1, 1, 0, stops);
    s := FindsNothing(s0, s1, 1, 1, 1, stops);
  }

  // The context of a watch is cancelled between its snapshot and its subscription; a
  // request afterwards panics.
  lemma EarlyStopPanics(capacity: nat) returns (states: seq<State>, labels: seq<Label>)
    ensures IsRun(states, labels) && states[|labels|].panicked
  {
    var s0 := Start(capacity);
    var s1 := EmptySnapshot(capacity, true);
    var s2 := StopsEarly(s0, s1, 2, 1);
    var s3 := Subscribes(s0, s2, 1, 1, 1, true);
    var s4 := ClosedSubscriberPanics(s0, s3, 1, 3, Key("", "pod"), true);
    states, labels := Whole(s0, s4, true);
  }

  // Beside it, a second watch of the empty store is subscribed, of which nobody thinks ill.
  lemma WatchBeside(a: State, s: State, t: ThreadId, w: WatchId) returns (s': State)
    requires Leads(a, s, true) && Idle(s) && t !in s.threads && w !in s.hub.channels
    requires s.disk.files == map[] && s.disk.dirs == {}
    ensures Leads(a, s', true) && Idle(s') && s'.disk == s.disk && s'.counter == s.counter && s'.past == s.past
    ensures s'.threads.Keys == s.threads.Keys + {t} && s'.hub.subs == s.hub.subs + {w}
    ensures s'.hub.channels == s.hub.channels[w := NewChannel(0).(hooked := true, handed := true)]
  {
    var s1 := Opens(a, s, t, w, 0, true);
    var s2 := FindsNothing(a, s1, t, w, s.counter, true);
    s' := Subscribes(a, s2, t, w, s.counter, true);
    assert s'.hub.channels == s.hub.channels[w := NewChannel(0).(hooked := true, handed := true)];
  }

  // The publisher panics at the closed channel before it comes to the other one, and unlocks.
  lemma PanicsFirst(a: State, s: State, w: WatchId, v: WatchId, t: ThreadId, k: Key) returns (s': State)
    requires Leads(a, s, true) && Idle(s) && s.hub.subs == {w, v} && w != v && {w, v} <= s.hub.channels.Keys
    requires s.hub.channels[w].closed && Matches(s.hub.channels[w].filter, k) && s.counter < MAX_UINT64
    requires t !in s.threads && k !in s.disk.files && k.ns == ""
    ensures Leads(a, s', true) && s'.locks == LockTable(map[], None, None) && k in s'.disk.files
    ensures s'.hub.subs == s.hub.subs && v in s'.hub.channels
    ensures s'.hub.channels[v] == s.hub.channels[v].(missed := s.hub.channels[v].missed + {k})
  {
    var s1 := Creates(a, s, t, k, true);
    s' := Unwinds(a, s1, w, v, t, k, |s.past.log|, s.counter + 1);
    assert map[k := t] - {k} == map[];
  }

  lemma Unwinds(a: State, s: State, w: WatchId, v: WatchId, t: ThreadId, k: Key, start: nat, rv: nat) returns (s': State)
    requires Leads(a, s, true) && w != v && {w, v} <= s.hub.channels.Keys
    requires s.hub.channels[w].closed && Matches(s.hub.channels[w].filter, k)
    requires t in s.threads && s.threads[t] == CreatorAt(k, start, FanOut, Some(rv), {w, v})
    ensures Leads(a, s', true) && s'.locks == LockTable(s.locks.keys - {k}, None, s.locks.counter)
    ensures s'.disk == s.disk && s'.hub == s.hub.(channels := Missing(s.hub.channels, {w, v} - {w}, k))
  {
    var s1 := Do(s, Offer(t, w, Send));
    Moves(a, s, Offer(t, w, Send), true);
    var s2 := Goes(a, s1, t, true);
    s' := Goes(a, s2, t, true);
  }

  // A stopped watch costs another one an event: nothing is under way, the other is open and
  // subscribed from the start, and does not show the object.
  lemma PanicLosesEvent(capacity: nat) returns (states: seq<State>, labels: seq<Label>, w: WatchId, k: Key)
    ensures IsRun(states, labels)
    ensures var s := states[|labels|];
      && s.locks == LockTable(map[], None, None) && w in s.hub.subs && w in s.hub.channels && k in s.disk.files
      && (var ch := s.hub.channels[w];
          ch.startRV == 0 && !ch.stopClosed && Matches(ch.filter, k) && Listable(ch.filter, k) && ch.sent == [] && k in ch.missed)
  {
    var s0 := Start(capacity);
    var s1 := EmptySnapshot(capacity, true);
    var s2 := StopsEarly(s0, s1, 2, 1);
    var s3 := Subscribes(s0, s2, 1, 1, 1, true);
    w, k := 2, Key("", FreshName(0));
    var s4 := WatchBeside(s0, s3, 3, w);
    var s5 := PanicsFirst(s0, s4, 1, w, 4, k);
    states, labels := Whole(s0, s5, true);
  }

  // --- A store with many objects ---

  // A store of n objects, whose names are no longer than n, before any watch.
  ghost predicate Stocked(s: State, n: nat) {
    && Idle(s) && s.counter == n + 1 && s.hub.subs == {} && s.hub.channels == map[] && s.disk.dirs == {}
    && |s.disk.files| == n
    && (forall k :: k in s.disk.files ==> k.ns == "" && 0 < |k.name| <= n && !Paths.Dotted(k.name))
    && (forall t :: t in s.threads ==> t < n)
  }

  // A name longer than all of them.
  function FreshName(n: nat): (name: string)
    ensures |name| == n + 1 && !Paths.Dotted(name)
  {
    if n == 0 then "a" else FreshName(n - 1) + "a"
  }

  lemma {:induction false} Stocks(capacity: nat, n: nat) returns (s: State)
    requires n < 1000
    ensures Leads(Start(capacity), s, false) && Stocked(s, n)
  {
    if n == 0 {
      s := Start(capacity);
      Stays(s, false);
    } else {
      var s1 := Stocks(capacity, n - 1);
      s := StocksOne(Start(capacity), s1, n - 1);
    }
  }

  lemma StocksOne(a: State, s: State, n: nat) returns (s': State)
    requires Leads(a, s, false) && Stocked(s, n) && n < 1000
    ensures Leads(a, s', false) && Stocked(s', n + 1)
  {
    var k := Key("", FreshName(n));
    var s1 := Creates(a, s, n, k, false);
    s' := Finishes(a, s1, n, k, |s.past.log|, n + 2, false);
    OneMore(s, s1, s', n, k);
  }

  lemma OneMore(s: State, s1: State, s': State, n: nat, k: Key)
    requires Stocked(s, n) && Announcing(s, s1, n, k) && k == Key("", FreshName(n)) && Idle(s')
    requires s'.threads.Keys == s1.threads.Keys && s'.hub == s1.hub && s'.disk == s1.disk && s'.counter == s1.counter
    ensures Stocked(s', n + 1)
  {
    assert s'.disk.files.Keys == s.disk.files.Keys + {k};
  }

  // --- A snapshot that does not fit ---

  // The watch is reading the files, the queue growing by one with each.
  ghost predicate Reading(s: State, t: ThreadId, w: WatchId, n: nat) {
    && !s.panicked && s.locks == LockTable(map[], Some(t), None)
    && t in s.threads && s.threads[t].Watcher? && s.threads[t] == WatchAt(w, Scan, s.threads[t].current, s.threads[t].toRead, s.threads[t].queue)
    && w in s.hub.channels && s.hub.channels[w] == NewChannel(0) && s.hub.subs == {}
    && s.threads[t].toRead <= s.disk.files.Keys && |s.threads[t].toRead| + |s.threads[t].queue| == n
  }

  lemma {:induction false} Reads(a: State, s: State, t: ThreadId, w: WatchId, n: nat) returns (s': State)
    requires Leads(a, s, false) && Reading(s, t, w, n)
    ensures Leads(a, s', false) && Reading(s', t, w, n) && s'.threads[t].toRead == {}
    ensures s'.threads.Keys == s.threads.Keys && s'.disk == s.disk && s'.counter == s.counter
    decreases |s.threads[t].toRead|
  {
    if s.threads[t].toRead == {} {
      s' := s;
    } else {
      var k := ProtocolProgress.Member(s.threads[t].toRead);
      var s1 := Do(s, Fetch(t, k));
      Moves(a, s, Fetch(t, k), false);
      assert s.hub.channels[w].unseen - {k} == {};
      s' := Reads(a, s1, t, w, n);
    }
  }

  // The watch is delivering: b signals are in the channel and q are left.
  ghost predicate Delivering(s: State, t: ThreadId, w: WatchId, b: nat, q: nat) {
    && !s.panicked && s.locks == LockTable(map[], Some(t), None) && s.hub.subs == {}
    && t in s.threads && s.threads[t].Watcher?
    && s.threads[t] == WatchAt(w, Deliver, s.threads[t].current, {}, s.threads[t].queue) && |s.threads[t].queue| == q
    && w in s.hub.channels && s.hub.channels[w].buffered == b && s.hub.channels[w].once.Fresh?
    && !s.hub.channels[w].stopClosed && !s.hub.channels[w].closed && !s.hub.channels[w].hooked
    && s.hub.channels[w].filter == Everything
  }

  lemma {:induction false} Fills(a: State, s: State, t: ThreadId, w: WatchId, b: nat, q: nat) returns (s': State)
    requires Leads(a, s, false) && Delivering(s, t, w, b, q) && b <= CHANNEL_SIZE <= b + q
    ensures Leads(a, s', false) && Delivering(s', t, w, CHANNEL_SIZE, b + q - CHANNEL_SIZE)
    ensures s'.threads.Keys == s.threads.Keys && s'.disk == s.disk && s'.counter == s.counter
    decreases CHANNEL_SIZE - b
  {
    if b == CHANNEL_SIZE {
      s' := s;
    } else {
      var s1 := Do(s, Offer(t, w, Send));
      Moves(a, s, Offer(t, w, Send), false);
      s' := Fills(a, s1, t, w, b + 1, q - 1);
    }
  }

  lemma ReadsAll(a: State, s: State, t: ThreadId, w: WatchId, n: nat) returns (s': State)
    requires Leads(a, s, false) && Stocked(s, n) && t !in s.threads
    ensures Leads(a, s', false) && Delivering(s', t, w, 0, n)
    ensures s'.threads.Keys == s.threads.Keys + {t} && s'.disk == s.disk && s'.counter == s.counter
  {
    var s1 := Opens(a, s, t, w, 0, false);
    var s2 := StartsScan(a, s1, t, w, s.counter, false);
    assert InDir(s.disk.files, "") == s.disk.files.Keys;
    var s3 := Reads(a, s2, t, w, n);
    s' := Goes(a, s3, t, false);
  }

  // A watch of a store with one object more than the channel has room for: its own delivery
  // closes the channel, it subscribes all the same, and the next request panics. Nobody
  // called Stop.
  lemma SnapshotOverflowPanics(capacity: nat) returns (states: seq<State>, labels: seq<Label>)
    ensures IsRun(states, labels) && states[|labels|].panicked
    ensures forall i :: 0 <= i < |labels| ==> Plain(labels[i], false)
  {
    var n := CHANNEL_SIZE + 1;
    var s0 := Start(capacity);
    var s1 := Stocks(capacity, n);
    var s2 := ReadsAll(s0, s1, n, 1, n);
    var s3 := Fills(s0, s2, n, 1, 0, n);
    var s4 := Do(s3, Offer(n, 1, Full));
    Moves(s0, s3, Offer(n, 1, Full), false);
    var s5 := Subscribes(s0, s4, n, 1, s4.threads[n].current, false);
    var s6 := ClosedSubscriberPanics(s0, s5, 1, n + 1, Key("", FreshName(n)), false);
    states, labels := Whole(s0, s6, false);
  }

  // With one object more it may panic over its own signals, and leaves the broadcaster mutex
  // locked for ever, by DeadWatchLocks.
  lemma SnapshotOverflowLocks(capacity: nat) returns (states: seq<State>, labels: seq<Label>, i: nat)
    ensures IsRun(states, labels) && i + 1 == |labels| && Dies(states[i], labels[i])
    ensures forall j :: 0 <= j < |labels| ==> Plain(labels[j], false)
  {
    var n := CHANNEL_SIZE + 2;
    var s0 := Start(capacity);
    var s1 := Stocks(capacity, n);
    var s2 := ReadsAll(s0, s1, n, 1, n);
    var s3 := Fills(s0, s2, n, 1, 0, n);
    var s4 := Do(s3, Offer(n, 1, Full));
    Moves(s0, s3, Offer(n, 1, Full), false);
    states, labels := Whole(s0, s4, false);
    var l := Offer(n, 1, Send);
    i := |labels|;
    states, labels := states + [Do(s4, l)], labels + [l];
  }

  // --- A subscriber that does not keep up ---

  // A store with one subscriber that has taken none of the n events it was sent.
  ghost predicate Behind(s: State, n: nat) {
    && Idle(s) && s.counter == n + 1 && s.hub.subs == {1} && s.hub.channels.Keys == {1}
    && (var ch := s.hub.channels[1];
        ch.filter == Everything && ch.buffered == n && !ch.stopClosed && !ch.closed && ch.hooked)
    && (forall k :: k in s.disk.files ==> |k.name| <= n)
    && (forall t :: t in s.threads ==> t < n + 2)
  }

  lemma {:induction false} FallsBehind(capacity: nat, n: nat) returns (s: State)
    requires n <= CHANNEL_SIZE
    ensures Leads(Start(capacity), s, false) && Behind(s, n)
  {
    if n == 0 {
      var s1 := EmptySnapshot(capacity, false);
      s := Subscribes(Start(capacity), s1, 1, 1, 1, false);
    } else {
      var s1 := FallsBehind(capacity, n - 1);
      s := OneBehind(Start(capacity), s1, n - 1);
    }
  }

  lemma OneBehind(a: State, s: State, n: nat) returns (s': State)
    requires Leads(a, s, false) && Behind(s, n) && n < CHANNEL_SIZE
    ensures Leads(a, s', false) && Behind(s', n + 1)
  {
    var t, k := n + 2, Key("", FreshName(n));
    var s1 := Creates(a, s, t, k, false);
    s' := SendsLast(a, s1, t, k, |s.past.log|, n + 2, n);
    StillBehind(s, s1, s', n, t, k);
  }

  ghost predicate Sent(s: State, s': State, t: ThreadId) {
    && s'.threads.Keys == s.threads.Keys && s'.hub.subs == s.hub.subs && s'.hub.channels.Keys == s.hub.channels.Keys
    && s'.disk == s.disk && s'.counter == s.counter
    && 1 in s.hub.channels
    && (var ch, ch' := s.hub.channels[1], s'.hub.channels[1];
        ch'.filter == ch.filter && ch'.buffered == ch.buffered + 1 && ch'.stopClosed == ch.stopClosed
        && ch'.closed == ch.closed && ch'.hooked == ch.hooked)
  }

  lemma Sends(a: State, s: State, t: ThreadId, k: Key, start: nat, rv: nat, n: nat) returns (s': State)
    requires Leads(a, s, false) && !s.panicked && n < CHANNEL_SIZE
    requires t in s.threads && s.threads[t] == CreatorAt(k, start, FanOut, Some(rv), {1})
    requires 1 in s.hub.channels && s.hub.channels[1].filter == Everything && s.hub.channels[1].buffered == n
    requires !s.hub.channels[1].closed
    ensures Leads(a, s', false) && Sent(s, s', t) && s'.locks == s.locks && !s'.panicked
    ensures s'.threads[t] == CreatorAt(k, start, FanOut, Some(rv), {})
  {
    s' := Do(s, Offer(t, 1, Send));
    Moves(a, s, Offer(t, 1, Send), false);
    var one: set<WatchId> := {1};
    assert one - {1} == {};
  }

  lemma SendsLast(a: State, s: State, t: ThreadId, k: Key, start: nat, rv: nat, n: nat) returns (s': State)
    requires Leads(a, s, false) && !s.panicked && n < CHANNEL_SIZE && s.locks == LockTable(map[k := t], Some(t), None)
    requires t in s.threads && s.threads[t] == CreatorAt(k, start, FanOut, Some(rv), {1})
    requires 1 in s.hub.channels && s.hub.channels[1].filter == Everything && s.hub.channels[1].buffered == n
    requires !s.hub.channels[1].closed
    ensures Leads(a, s', false) && Sent(s, s', t) && Idle(s')
  {
    var s1 := Sends(a, s, t, k, start, rv, n);
    s' := Finishes(a, s1, t, k, start, rv, false);
  }

  lemma StillBehind(s: State, s1: State, s': State, n: nat, t: ThreadId, k: Key)
    requires Behind(s, n) && n < CHANNEL_SIZE && Announcing(s, s1, t, k) && Sent(s1, s', t) && Idle(s')
    requires t == n + 2 && k == Key("", FreshName(n))
    ensures Behind(s', n + 1)
  {
    assert s'.threads.Keys == s.threads.Keys + {t};
  }

  // Another creation would overflow its buffer.
  lemma Overfills(a: State, s: State) returns (s': State, t: ThreadId)
    requires Leads(a, s, false) && Behind(s, CHANNEL_SIZE)
    ensures Leads(a, s', false) && Enabled(s', Offer(t, 1, Full)) && Overflows(s', Offer(t, 1, Full))
  {
    t := CHANNEL_SIZE + 2;
    s' := Creates(a, s, t, Key("", FreshName(CHANNEL_SIZE)), false);
  }

  // A subscriber takes nothing while one event more than its buffer holds is published: the
  // publisher is blocked for ever, by OverflowBlocksForever.
  lemma PublisherBlocks(capacity: nat) returns (states: seq<State>, labels: seq<Label>, i: nat)
    ensures IsRun(states, labels) && i + 1 == |labels| && Overflows(states[i], labels[i])
    ensures Blocked(states[i + 1].threads[labels[i].t])
    ensures forall j :: 0 <= j < |labels| ==> Plain(labels[j], false)
  {
    var s0 := Start(capacity);
    var s1 := FallsBehind(capacity, CHANNEL_SIZE);
    var s2, t := Overfills(s0, s1);
    states, labels := Whole(s0, s2, false);
    var l := Offer(t, 1, Full);
    i := |labels|;
    OverflowBlocks(s2, l);
    states, labels := states + [Do(s2, l)], labels + [l];
  }
}
