/** Runs in which a list and a watch from its version miss an object for good. */
module ProtocolListRuns {
  import opened Decimal
  import opened Objects
  import opened Options
  import opened Protocol
  import opened ProtocolChain
  import opened ProtocolLists
  import opened ProtocolOrder
  import opened ProtocolRuns
  import opened ProtocolStreams
  import opened ProtocolView
  import opened Ring

  lemma Joined(before: seq<State>, first: seq<Label>, after: seq<State>, second: seq<Label>)
    requires IsRun(before, first) && Path(after, second, false) && after[0] == before[|first|]
    requires forall i :: 0 <= i < |first| ==> Plain(first[i], false)
    ensures IsRun(before + after[1..], first + second)
    ensures forall i :: 0 <= i < |first + second| ==> Plain((first + second)[i], false)
  {
    var states, labels := before + after[1..], first + second;
    forall i | 0 <= i < |labels| ensures Steps(states[i], labels[i], states[i + 1]) {
      if i < |first| {
        assert Steps(before[i], first[i], before[i + 1]);
      } else {
        assert Linked(after[i - |first|], second[i - |first|], after[i - |first| + 1], false);
        assert states[i] == after[i - |first|] && states[i + 1] == after[i + 1 - |first|];
      }
    }
    forall i | 0 <= i < |labels| ensures Plain(labels[i], false) {
      if i >= |first| {
        assert Linked(after[i - |first|], second[i - |first|], after[i - |first| + 1], false);
      }
    }
  }

  // A run goes on along a path.
  lemma Extends(states: seq<State>, labels: seq<Label>, s: State) returns (states': seq<State>, labels': seq<Label>)
    requires IsRun(states, labels) && Leads(states[|labels|], s, false)
    requires forall i :: 0 <= i < |labels| ==> Plain(labels[i], false)
    ensures IsRun(states', labels') && states <= states' && labels <= labels' && states'[|labels'|] == s
    ensures forall i :: 0 <= i < |labels'| ==> Plain(labels'[i], false)
  {
    var after, second :| Path(after, second, false) && after[0] == states[|labels|] && after[|second|] == s;
    states', labels' := states + after[1..], labels + second;
    Joined(states, labels, after, second);
  }

  // Or by one step of a thread.
  lemma ThenGo(states: seq<State>, labels: seq<Label>, t: ThreadId, s: State) returns (states': seq<State>, labels': seq<Label>)
    requires IsRun(states, labels) && Steps(states[|labels|], Go(t), s)
    requires forall i :: 0 <= i < |labels| ==> Plain(labels[i], false)
    ensures IsRun(states', labels') && states' == states + [s] && labels' == labels + [Go(t)]
    ensures forall i :: 0 <= i < |labels'| ==> Plain(labels'[i], false)
  {
    states', labels' := states + [s], labels + [Go(t)];
    forall i | 0 <= i < |labels'| ensures Steps(states'[i], labels'[i], states'[i + 1]) {
      if i < |labels| { StepAt(states, labels, i); }
    }
  }

  // --- A watch of something, in parts ---

  function FreshChannel(filter: Filter, startRV: nat): Channel {
    Channel(filter, startRV, Fresh, false, false, false, false, false, [], 0, {}, {})
  }

  // About to choose its start.
  lemma OpensOn(a: State, s: State, t: ThreadId, w: WatchId, filter: Filter, startRV: nat) returns (s': State)
    requires Leads(a, s, false) && Idle(s) && t !in s.threads && w !in s.hub.channels
    ensures Leads(a, s', false)
    ensures s' == s.(threads := s.threads[t := WatchAt(w, ChooseStart, s.counter, {}, [])],
                     hub := s.hub.(channels := s.hub.channels[w := FreshChannel(filter, startRV)]),
                     locks := LockTable(map[], Some(t), None))
  {
    var s1 := Do(s, NewWatch(t, w, filter, startRV, false));
    Moves(a, s, NewWatch(t, w, filter, startRV, false), false);
    var s2 := Goes(a, s1, t, false);
    var s3 := Goes(a, s2, t, false);
    s' := ReadsVersion(a, s3, t, w);
    assert s'.threads == s.threads[t := s'.threads[t]];
  }

  lemma ReadsVersion(a: State, s: State, t: ThreadId, w: WatchId) returns (s': State)
    requires Leads(a, s, false) && t in s.threads && s.threads[t] == WatchAt(w, ReadCurrent, 0, {}, []) && w in s.hub.channels
    ensures Leads(a, s', false)
    ensures s' == s.(threads := s.threads[t := WatchAt(w, ChooseStart, s.counter, {}, [])], locks := s.locks.(counter := None))
  {
    var s1 := Goes(a, s, t, false);
    s' := Goes(a, s1, t, false);
    assert s'.threads == s.threads[t := s'.threads[t]];
  }

  // A watch with nothing to replay, about to choose its start.
  ghost predicate Quiet(s: State, t: ThreadId, w: WatchId) {
    && t in s.threads && s.threads[t].Watcher? && s.threads[t] == WatchAt(w, ChooseStart, s.threads[t].current, {}, [])
    && w in s.hub.channels && s.locks == LockTable(map[], Some(t), None) && Begins(s, Go(t)) && FeedOf(s, Go(t)).start == []
  }

  function AtStep(s: State, t: ThreadId, wpc: WatchPC): State
    requires t in s.threads && s.threads[t].Watcher?
  {
    s.(threads := s.threads[t := s.threads[t].(wpc := wpc)])
  }

  lemma StartsQuietly(s: State, t: ThreadId, w: WatchId)
    requires Quiet(s, t, w)
    ensures Steps(s, Go(t), AtStep(s, t, Deliver))
  {
    var ch := s.hub.channels[w];
    if ch.startRV < s.threads[t].current {
      assert Select(Above(s.hub.ring, ch.startRV), ch.filter) == [];
    }
  }

  function Hooked(s: State, w: WatchId, handed: bool): Hub
    requires w in s.hub.channels
  {
    s.hub.(subs := s.hub.subs + {w}, channels := s.hub.channels[w := s.hub.channels[w].(hooked := true, handed := handed)])
  }

  lemma HooksQuietly(s: State, t: ThreadId, w: WatchId)
    requires t in s.threads && s.threads[t].Watcher? && s.threads[t].w == w && w in s.hub.channels && s.threads[t].queue == []
    requires !s.hub.channels[w].handed
    ensures Steps(AtStep(s, t, Deliver), Go(t), AtStep(s, t, UnlockWatch).(hub := Hooked(s, w, false)))
  {
    var s1 := AtStep(s, t, Deliver);
    assert s1.threads[t := s1.threads[t].(wpc := UnlockWatch)] == AtStep(s, t, UnlockWatch).threads;
  }

  lemma ReturnsQuietly(s: State, t: ThreadId, w: WatchId)
    requires t in s.threads && s.threads[t].Watcher? && s.threads[t].w == w && w in s.hub.channels
    ensures Steps(AtStep(s, t, UnlockWatch).(hub := Hooked(s, w, false)), Go(t),
                  AtStep(s, t, Watching).(hub := Hooked(s, w, true), locks := s.locks.(ring := None)))
  {
    var s2 := AtStep(s, t, UnlockWatch).(hub := Hooked(s, w, false));
    assert s2.threads[t := s2.threads[t].(wpc := Watching)] == AtStep(s, t, Watching).threads;
    assert s2.hub.channels[w := s2.hub.channels[w].(handed := true)] == Hooked(s, w, true).channels;
  }

  // It subscribes: three steps of its own.
  lemma SubscribesQuietly(states: seq<State>, labels: seq<Label>, t: ThreadId, w: WatchId)
    returns (states': seq<State>, labels': seq<Label>)
    requires IsRun(states, labels) && forall i :: 0 <= i < |labels| ==> Plain(labels[i], false)
    requires Quiet(states[|labels|], t, w) && !states[|labels|].hub.channels[w].handed
    ensures IsRun(states', labels') && states <= states' && labels' == labels + [Go(t), Go(t), Go(t)]
    ensures forall i :: 0 <= i < |labels'| ==> Plain(labels'[i], false)
    ensures states'[|labels'|] == AtStep(states[|labels|], t, Watching)
              .(hub := Hooked(states[|labels|], w, true), locks := states[|labels|].locks.(ring := None))
  {
    var s := states[|labels|];
    StartsQuietly(s, t, w);
    states', labels' := ThenGo(states, labels, t, AtStep(s, t, Deliver));
    HooksQuietly(s, t, w);
    states', labels' := ThenGo(states', labels', t, AtStep(s, t, UnlockWatch).(hub := Hooked(s, w, false)));
    ReturnsQuietly(s, t, w);
    states', labels' := ThenGo(states', labels', t, AtStep(s, t, Watching).(hub := Hooked(s, w, true), locks := s.locks.(ring := None)));
    assert labels' == labels + [Go(t), Go(t), Go(t)];
  }

  // Such a watch after such a list.
  lemma Followed(states: seq<State>, labels: seq<Label>, looks: seq<Look>, xs: seq<Lister>, m: nat, t: ThreadId, w: WatchId)
    requires IsRun(states, labels) && forall i :: 0 <= i < |labels| ==> Plain(labels[i], false)
    requires IsList(states, looks, xs) && |looks| > 0 && Finished(xs[|looks|]) && looks[|looks| - 1].at <= m
    requires m + 3 == |labels| && labels[m..] == [Go(t), Go(t), Go(t)] && Begins(states[m], Go(t))
    requires states[m].threads[t].w == w && states[m].hub.channels[w].startRV == xs[|looks|].rv
    requires states[m].hub.channels[w].filter == xs[0].filter
    requires var s := states[|labels|]; w in s.hub.channels && w in s.hub.subs && !s.hub.channels[w].stopClosed
    ensures ListedThenWatched(states, labels, looks, xs, m, |labels|)
  {
    forall i | m <= i < |labels| ensures labels[i] == Go(t) {
      assert labels[i] == labels[m..][i - m];
    }
  }

  // --- A version in flight ---

  // A list of everything in a state without files.
  lemma EmptyList(states: seq<State>, i: nat) returns (looks: seq<Look>, xs: seq<Lister>)
    requires i < |states| && states[i].disk.files == map[] && states[i].disk.dirs == {} && states[i].locks.counter == None
    ensures IsList(states, looks, xs) && |looks| == 2 && Finished(xs[2]) && looks[0].at == looks[1].at == i
    ensures xs[0].filter == Everything && xs[2].rv == states[i].counter && xs[2].items == map[]
  {
    var x := NewLister(Everything);
    var x1 := AfterLook(states[i], x, TakeVersion);
    looks, xs := [Look(i, TakeVersion), Look(i, OpenRoot)], [x, x1, AfterLook(states[i], x1, OpenRoot)];
    assert Looks(states, looks, xs, 0) && Looks(states, looks, xs, 1);
  }

  // A request gets its version in state i, and ends; then a watch from that version begins.
  lemma InFlightRun(capacity: nat, k: Key) returns (states: seq<State>, labels: seq<Label>, i: nat)
    requires k.ns == ""
    ensures IsRun(states, labels) && i <= |labels| && forall j :: 0 <= j < |labels| ==> Plain(labels[j], false)
    ensures var s := states[i];
      s.disk.files == map[] && s.disk.dirs == {} && s.counter == 2 && s.locks.counter == None && !NonePending(s)
    ensures var s := states[|labels|];
      && Quiet(s, 2, 1) && s.hub.channels[1] == FreshChannel(Everything, 2) && k in s.disk.files
      && |s.past.log| == 1 && EntryKey(s.past.log[0]) == k && s.past.log[0].Published? && s.hub.capacity == capacity
  {
    var s0 := Start(capacity);
    Stays(s0, false);
    var s1 := GetsVersion(s0, s0, 1, k, false);
    assert Pending(s1.threads[1]);
    states, labels := Whole(s0, s1, false);
    i := |labels|;
    Stays(s1, false);
    var s2 := Announces(s1, s0, s1, 1, k, false);
    var s3 := Finishes(s1, s2, 1, k, 0, 2, false);
    var s4 := OpensOn(s1, s3, 2, 1, Everything, 2);
    states, labels := Extends(states, labels, s4);
    OneEvent(s4.hub.ring, EventFor(k, 2), capacity, Everything);
  }

  // Nothing in a ring of one event is above its version.
  lemma OneEvent(ring: seq<Event>, ev: Event, capacity: nat, filter: Filter)
    requires ring == Trim([] + [ev], capacity)
    ensures Select(Above(ring, ev.rv), filter) == []
  {
    assert [] + [ev] == [ev] && [ev][..0] == [];
    assert Above([ev], ev.rv) == Above([], ev.rv) + [];
    assert ring == [ev] || ring == [];
  }

  // A request has its version, nothing else: a list taken now has that version and not the
  // object. The request ends; a watch from the version of the list, subscribed while nothing
  // is under way, has been sent nothing. Nothing was ever evicted out of order.
  lemma InFlightMissed(capacity: nat, k: Key) returns (states: seq<State>, labels: seq<Label>, looks: seq<Look>, xs: seq<Lister>,
                                                       m: nat)
    requires k.ns == "" && Listable(Everything, k)
    ensures ListedThenWatched(states, labels, looks, xs, m, |labels|) && xs[0].filter == Everything
    ensures var s, w := states[|labels|], FeedOf(states[m], labels[m]).w;
      && Settled(s, w, k) && !Lost(s.past.log, k) && k in s.disk.files
      && ViewAt(Get(xs[|looks|].items, k), s.hub.channels[w].sent, k) == None
    ensures EvictedInOrder(states[m]) && !NonePending(states[looks[0].at])
  {
    var i;
    states, labels, i := InFlightRun(capacity, k);
    m := |labels|;
    var s := states[m];
    assert EvictedInOrder(s) by { AllInOne(s); }
    states, labels := SubscribesQuietly(states, labels, 2, 1);
    looks, xs := EmptyList(states, i);
    Followed(states, labels, looks, xs, m, 2, 1);
    assert s.past.log[..0] == [];
  }

  lemma AllInOne(s: State)
    requires |s.past.log| == 1
    ensures EvictedInOrder(s)
  {
    assert |Announced(s.past.log)| <= 1 by { assert s.past.log[..0] == []; }
  }

  // --- An eviction out of order ---

  const FIRST: Key := Key("", FreshName(0))
  const SECOND: Key := Key("", FreshName(1))

  // Two requests have versions 2 and 3 at once, and the one with 3 is announced first.
  lemma Crossing(a: State, s0: State) returns (s: State)
    requires s0 == Start(s0.hub.capacity) && a == s0
    ensures Leads(a, s, false) && Idle(s) && s.counter == 3 && s.threads.Keys == {1, 2}
    ensures s.hub == s0.hub.(ring := Trim(Trim([EventFor(SECOND, 3)], s0.hub.capacity) + [EventFor(FIRST, 2)], s0.hub.capacity))
    ensures s.disk.files == map[SECOND := Obj(BODY, 3), FIRST := Obj(BODY, 2)] && !Lost(s.past.log, SECOND)
  {
    Stays(s0, false);
    assert |FIRST.name| == 1 && |SECOND.name| == 2;
    var s1 := GetsVersion(a, s0, 1, FIRST, false);
    var s2 := Creates(a, s1, 2, SECOND, false);
    var s3 := Finishes(a, s2, 2, SECOND, 0, 3, false);
    assert s0.hub.ring + [EventFor(SECOND, 3)] == [EventFor(SECOND, 3)];
    s := FinishesFirst(a, s1, s3);
    assert s.past.log == s2.past.log + [Published(EventFor(FIRST, 2), Op.Create(BODY), None, 0)];
    LostAppend(s1.past.log, Published(EventFor(SECOND, 3), Op.Create(BODY), None, 0), SECOND);
    LostAppend(s2.past.log, Published(EventFor(FIRST, 2), Op.Create(BODY), None, 0), SECOND);
  }

  // The other one follows.
  lemma FinishesFirst(a: State, s1: State, s: State) returns (s': State)
    requires Leads(a, s, false) && Free(s) && s.locks.keys == map[FIRST := 1] && s.hub.subs == {}
    requires 1 in s.threads && s.threads[1] == CreatorAt(FIRST, 0, WriteTmp, Some(2), {})
    ensures Leads(a, s', false) && Idle(s') && s'.counter == s.counter && s'.threads.Keys == s.threads.Keys
    ensures s'.hub == s.hub.(ring := Trim(s.hub.ring + [EventFor(FIRST, 2)], s.hub.capacity))
    ensures s'.disk == s.disk.(files := s.disk.files[FIRST := Obj(BODY, 2)], tmps := s'.disk.tmps)
    ensures s'.past == s.past.(log := s.past.log + [Published(EventFor(FIRST, 2), Op.Create(BODY), None, 0)])
  {
    var s2 := Writes(a, s, 1, FIRST, 0, 2, false);
    var s3 := Appends(a, s2, 1, FIRST, 0, 2, false);
    s' := Finishes(a, s3, 1, FIRST, 0, 2, false);
  }

  // After j more creations; xs are their events.
  ghost predicate Piled(s: State, j: nat, xs: seq<Event>) {
    && Idle(s) && s.hub.subs == {} && s.hub.channels == map[] && s.counter == 3 + j && |xs| == j
    && s.hub.ring == Trim([EventFor(SECOND, 3), EventFor(FIRST, 2)] + xs, s.hub.capacity)
    && (forall i :: 0 <= i < |xs| ==> xs[i].key != SECOND)
    && SECOND in s.disk.files && !Lost(s.past.log, SECOND)
    && (forall k :: k in s.disk.files ==> |k.name| <= j + 2)
    && (forall t :: t in s.threads ==> t < j + 3)
  }

  lemma {:induction false} Piles(capacity: nat, j: nat) returns (s: State, xs: seq<Event>)
    requires capacity > 0 && j + 3 <= MAX_UINT64
    ensures Leads(Start(capacity), s, false) && Piled(s, j, xs) && s.hub.capacity == capacity
  {
    if j == 0 {
      s := Crossing(Start(capacity), Start(capacity));
      xs := [];
      var first, second := EventFor(SECOND, 3), EventFor(FIRST, 2);
      TrimAppend([first], second, capacity);
      assert [first] + [second] == [first, second] && [first, second] + [] == [first, second];
    } else {
      s, xs := Piles(capacity, j - 1);
      s, xs := OneMorePiled(Start(capacity), s, j - 1, xs);
    }
  }

  lemma OneMorePiled(a: State, s: State, j: nat, xs: seq<Event>) returns (s': State, xs': seq<Event>)
    requires Leads(a, s, false) && Piled(s, j, xs) && s.counter < MAX_UINT64
    ensures Leads(a, s', false) && Piled(s', j + 1, xs') && s'.hub.capacity == s.hub.capacity
  {
    var t, k := j + 3, Key("", FreshName(j + 2));
    var s1 := Creates(a, s, t, k, false);
    s' := Finishes(a, s1, t, k, |s.past.log|, s.counter + 1, false);
    var ev := EventFor(k, s.counter + 1);
    xs' := xs + [ev];
    var all := [EventFor(SECOND, 3), EventFor(FIRST, 2)] + xs;
    TrimAppend(all, ev, s.hub.capacity);
    assert all + [ev] == [EventFor(SECOND, 3), EventFor(FIRST, 2)] + xs';
    assert |SECOND.name| == 2 && |k.name| == j + 3;
    LostAppend(s.past.log, Published(ev, Op.Create(BODY), None, |s.past.log|), SECOND);
  }

  lemma {:induction false} SelectNone(events: seq<Event>, r: nat, k: Key)
    requires forall i :: 0 <= i < |events| ==> events[i].key != k
    ensures Select(Above(events, r), Exactly(k)) == []
  {
    if events != [] {
      var n := |events| - 1;
      var before := Above(events[..n], r);
      SelectNone(events[..n], r, k);
      if events[n].rv > r {
        assert (before + [events[n]])[..|before|] == before;
      } else {
        assert before + [] == before;
      }
    }
  }

  // A list of one object that has no file.
  lemma MissingList(states: seq<State>, k: Key) returns (looks: seq<Look>, xs: seq<Lister>)
    requires |states| > 0 && k !in states[0].disk.files && states[0].locks.counter == None
    ensures IsList(states, looks, xs) && |looks| == 3 && Finished(xs[3]) && looks[0].at == looks[2].at == 0
    ensures xs[0].filter == Exactly(k) && xs[3].rv == states[0].counter && xs[3].items == map[]
  {
    var x := NewLister(Exactly(k));
    var x1 := AfterLook(states[0], x, TakeVersion);
    var x2 := AfterLook(states[0], x1, OpenRoot);
    looks := [Look(0, TakeVersion), Look(0, OpenRoot), Look(0, ReadOne(k))];
    xs := [x, x1, x2, AfterLook(states[0], x2, ReadOne(k))];
    assert Looks(states, looks, xs, 0) && Looks(states, looks, xs, 1) && Looks(states, looks, xs, 2);
    assert xs[3].toRead == {};
  }

  lemma JustEvicted(ring: seq<Event>, xs: seq<Event>, capacity: nat)
    requires capacity == |xs| + 1 && ring == Trim([EventFor(SECOND, 3), EventFor(FIRST, 2)] + xs, capacity)
    requires forall i :: 0 <= i < |xs| ==> xs[i].key != SECOND
    ensures ring != [] && ring[0].rv == 2 && Select(Above(ring, 1), Exactly(SECOND)) == []
  {
    var all := [EventFor(SECOND, 3), EventFor(FIRST, 2)] + xs;
    assert ring == all[1..] && ring[0] == EventFor(FIRST, 2);
    assert |FIRST.name| == 1 && |SECOND.name| == 2;
    forall i | 0 <= i < |ring| ensures ring[i].key != SECOND {
      assert ring[i] == all[i + 1];
    }
    SelectNone(ring, 1, SECOND);
  }

  // With the ring full, the event with version 3 has been evicted and that with version 2 is
  // the first in it.
  lemma EvictionRun(capacity: nat) returns (states: seq<State>, labels: seq<Label>)
    requires capacity > 0 && capacity + 2 <= MAX_UINT64
    ensures IsRun(states, labels) && forall j :: 0 <= j < |labels| ==> Plain(labels[j], false)
    ensures states[0] == Start(capacity)
    ensures var s := states[|labels|];
      && Quiet(s, capacity + 2, 1) && s.hub.channels[1] == FreshChannel(Exactly(SECOND), 1) && SECOND in s.disk.files
      && !Lost(s.past.log, SECOND)
  {
    var s, xs := Piles(capacity, capacity - 1);
    JustEvicted(s.hub.ring, xs, capacity);
    var s' := OpensOn(Start(capacity), s, capacity + 2, 1, Exactly(SECOND), 1);
    states, labels := Whole(Start(capacity), s', false);
  }

  // For every capacity: a list at version 1, with no request under way, then two requests
  // whose versions are announced out of order, and so many more that the ring has just
  // evicted the newer one. A watch from the list's version is accepted, as the ring starts
  // at the next version, and the object is never told of.
  lemma EvictedMissed(capacity: nat) returns (states: seq<State>, labels: seq<Label>, looks: seq<Look>, xs: seq<Lister>, m: nat)
    requires capacity > 0 && capacity + 2 <= MAX_UINT64
    ensures ListedThenWatched(states, labels, looks, xs, m, |labels|) && xs[0].filter == Exactly(SECOND)
    ensures var s, w := states[|labels|], FeedOf(states[m], labels[m]).w;
      && Settled(s, w, SECOND) && !Lost(s.past.log, SECOND) && SECOND in s.disk.files
      && ViewAt(Get(xs[|looks|].items, SECOND), s.hub.channels[w].sent, SECOND) == None
    ensures NonePending(states[looks[0].at])
  {
    states, labels := EvictionRun(capacity);
    m := |labels|;
    states, labels := SubscribesQuietly(states, labels, capacity + 2, 1);
    looks, xs := MissingList(states, SECOND);
    Followed(states, labels, looks, xs, m, capacity + 2, 1);
  }
}
