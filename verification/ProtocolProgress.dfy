/** Freedom from deadlock, and the life of a watch channel, over whole runs. */
module ProtocolProgress {
  import opened Objects
  import opened Options
  import opened Protocol
  import opened ProtocolChain
  import opened ProtocolChannels
  import opened ProtocolLocks
  import opened ProtocolTheorems

  predicate Unfinished(th: Thread) {
    match th
    case Writer(_, _, pc, _, _, _, _, _) => !pc.Returned?
    case Watcher(_, _, wpc, _, _, _, _) => !wpc.Watching? && !wpc.Died?
    case Stopper(_, spc) => !spc.Stopped?
  }

  // Inside the Stop of a watcher while it holds the broadcaster mutex that Stop needs.
  predicate Blocked(th: Thread) {
    th.Writer? && StopsInside(th.pc)
  }

  // A publisher offers an event to a subscriber whose buffer is full and whose stopCh is
  // still open.
  predicate Overflows(s: State, l: Label) {
    l.Offer? && l.how.Full? && l.t in s.threads && s.threads[l.t].Writer?
  }

  predicate Dead(th: Thread) {
    th.Watcher? && th.wpc.Died?
  }

  // A Watch call sends a signal of its own on its channel, which is closed.
  predicate Dies(s: State, l: Label) {
    && l.Offer? && l.how.Send? && l.t in s.threads && s.threads[l.t].Watcher?
    && l.w in s.hub.channels && s.hub.channels[l.w].closed
  }

  // A label by which thread t itself moves on, without a fault.
  predicate ActsFor(l: Label, t: ThreadId) {
    (l.Go? || l.Offer? || l.ListDir? || l.Fetch?) && l.t == t
  }

  ghost predicate CanStep(s: State, t: ThreadId) {
    exists l :: ActsFor(l, t) && Enabled(s, l)
  }

  lemma GoSteps(s: State, t: ThreadId)
    requires t in s.threads && Ready(s, s.threads[t])
    ensures CanStep(s, t)
  {
    assert ActsFor(Go(t), t) && Enabled(s, Go(t));
  }

  // The holder of the counter mutex waits for nothing.
  lemma CounterHolderSteps(s: State, t: ThreadId)
    requires Inv(s) && t in s.threads && HoldsCounter(s.threads[t])
    ensures CanStep(s, t)
  {
    assert LinkOk(s, t);
    GoSteps(s, t);
  }

  // What the select in deliver can do: there is always a ready branch.
  lemma OfferSteps(s: State, t: ThreadId, w: WatchId)
    requires Inv(s) && t in s.threads && w in s.hub.channels
    requires match s.threads[t]
      case Writer(_, _, pc, _, _, _, _, todo) => pc.FanOut? && w in todo
      case Watcher(own, _, wpc, _, _, _, queue) => own == w && wpc.Deliver? && queue != []
      case Stopper(_, _) => false
    ensures CanStep(s, t)
  {
    var ch := s.hub.channels[w];
    var how := if s.threads[t].Writer? && !Matches(ch.filter, s.threads[t].key) then Skip
               else if ch.stopClosed then Skip
               else if ch.closed || ch.buffered < CHANNEL_SIZE then Send else Full;
    assert ActsFor(Offer(t, w, how), t) && Enabled(s, Offer(t, w, how));
  }

  lemma Member<T>(members: set<T>) returns (m: T)
    requires members != {}
    ensures m in members
  {
    m :| m in members;
  }

  // The holder of the broadcaster mutex waits at most for the counter mutex, unless it
  // is a publisher that met a full channel or a watch that panicked.
  lemma RingHolderSteps(s: State, t: ThreadId)
    requires Inv(s) && s.locks.counter == None
    requires t in s.threads && HoldsRing(s.threads[t]) && !Blocked(s.threads[t]) && !Dead(s.threads[t])
    ensures CanStep(s, t)
  {
    assert LinkOk(s, t);
    var th := s.threads[t];
    if th.Writer? && th.pc.FanOut? && th.todo != {} {
      var w := Member(th.todo);
      OfferSteps(s, t, w);
    } else if th.Watcher? && th.wpc.Deliver? && th.queue != [] {
      OfferSteps(s, t, th.w);
    } else if th.Watcher? && th.wpc.Scan? && th.toList != {} {
      var ns := Member(th.toList);
      assert ActsFor(ListDir(t, ns), t) && Enabled(s, ListDir(t, ns));
    } else if th.Watcher? && th.wpc.Scan? && th.toRead != {} {
      var key := Member(th.toRead);
      assert ActsFor(Fetch(t, key), t) && Enabled(s, Fetch(t, key));
    } else {
      GoSteps(s, t);
    }
  }

  // The holder of a key mutex waits for no other key mutex.
  lemma KeyHolderSteps(s: State, t: ThreadId)
    requires Inv(s) && s.locks.counter == None && s.locks.ring == None
    requires t in s.threads && HoldsKey(s.threads[t])
    ensures CanStep(s, t)
  {
    var th := s.threads[t];
    assert KeyAgrees(s, th.key) && Holder(s, th.key) == Some(th);
    assert !HoldsRing(th);
    GoSteps(s, t);
  }

  // A thread that holds no mutex waits for a mutex or for a Stop call under way.
  lemma FreeThreadSteps(s: State, t: ThreadId) returns (u: ThreadId)
    requires Inv(s) && s.locks.counter == None && s.locks.ring == None && s.locks.keys == map[]
    requires t in s.threads && Unfinished(s.threads[t])
    requires forall v :: v in s.threads ==> !Blocked(s.threads[v])
    ensures u in s.threads && CanStep(s, u)
  {
    var th := s.threads[t];
    assert LinkOk(s, t);
    u := t;
    if !th.Writer? && s.hub.channels[th.w].once.Running?
       && ((th.Watcher? && th.wpc.StopExpired?) || (th.Stopper? && th.spc.EnterOnce?)) {
      assert ChannelOk(s, th.w);
      u := s.hub.channels[th.w].once.runner;
      assert Runs(s, th.w, u) && LinkOk(s, u);
    }
    assert !HoldsRing(s.threads[u]) && !HoldsCounter(s.threads[u]) && !HoldsKey(s.threads[u]);
    GoSteps(s, u);
  }

  // A publisher gets into such a Stop only by overflow.
  lemma BlockedBy(s: State, l: Label, t: ThreadId)
    requires Inv(s) && Enabled(s, l) && t in Do(s, l).threads && Blocked(Do(s, l).threads[t])
    ensures t in s.threads && !l.Crash? && (Blocked(s.threads[t]) || (Overflows(s, l) && l.t == t))
  {
    if NoWriter(s, l) {
      WritersLeft(s, l);
    } else if !l.Crash? {
      ThreadsStep(s, l);
      if l.Go? && !Blocked(s.threads[l.t]) { UnblockedGoes(s, l.t); }
    }
  }

  lemma UnblockedGoes(s: State, t: ThreadId)
    requires t in s.threads && s.threads[t].Writer? && WriterReady(s, s.threads[t]) && !Blocked(s.threads[t])
    ensures t in GoWriter(s, t, s.threads[t]).threads && !Blocked(GoWriter(s, t, s.threads[t]).threads[t])
  {
  }

  lemma BlockedPrior(states: seq<State>, labels: seq<Label>, n: nat, t: ThreadId)
    requires IsRun(states, labels) && n < |labels|
    requires t in states[n + 1].threads && Blocked(states[n + 1].threads[t])
    ensures t in states[n].threads && !labels[n].Crash?
    ensures Blocked(states[n].threads[t]) || (Overflows(states[n], labels[n]) && labels[n].t == t)
  {
    RunInv(states, labels, n);
    StepAt(states, labels, n);
    BlockedBy(states[n], labels[n], t);
  }

  lemma {:induction false} BlockedSince(states: seq<State>, labels: seq<Label>, n: nat, t: ThreadId) returns (i: nat)
    requires IsRun(states, labels) && n < |states|
    requires t in states[n].threads && Blocked(states[n].threads[t])
    ensures i < n && Overflows(states[i], labels[i]) && labels[i].t == t && forall j :: i <= j < n ==> !labels[j].Crash?
  {
    if n > 0 {
      BlockedPrior(states, labels, n - 1, t);
      i := n - 1;
      if Blocked(states[n - 1].threads[t]) {
        i := BlockedSince(states, labels, n - 1, t);
      }
    }
  }

  // A watch dies only so.
  lemma WatcherLives(s: State, t: ThreadId)
    requires t in s.threads && s.threads[t].Watcher? && WatcherReady(s, s.threads[t])
    ensures t in GoWatcher(s, t, s.threads[t]).threads && !Dead(GoWatcher(s, t, s.threads[t]).threads[t])
  {
  }

  lemma StopperLives(s: State, t: ThreadId)
    requires t in s.threads && s.threads[t].Stopper? && StopperReady(s, s.threads[t])
    ensures t in GoStopper(s, t, s.threads[t]).threads && !Dead(GoStopper(s, t, s.threads[t]).threads[t])
  {
  }

  lemma WriterLives(s: State, t: ThreadId)
    requires t in s.threads && s.threads[t].Writer? && WriterReady(s, s.threads[t])
    ensures t in GoWriter(s, t, s.threads[t]).threads && !Dead(GoWriter(s, t, s.threads[t]).threads[t])
  {
  }

  lemma DeadBy(s: State, l: Label, t: ThreadId)
    requires Inv(s) && Enabled(s, l) && t in Do(s, l).threads && Dead(Do(s, l).threads[t])
    ensures t in s.threads && !l.Crash? && (Dead(s.threads[t]) || (Dies(s, l) && l.t == t))
  {
    if !l.Crash? { ThreadsStep(s, l); }
    if l.Go? {
      if s.threads[l.t].Watcher? { WatcherLives(s, l.t); }
      else if s.threads[l.t].Stopper? { StopperLives(s, l.t); }
      else { WriterLives(s, l.t); }
    }
  }

  lemma DeadPrior(states: seq<State>, labels: seq<Label>, n: nat, t: ThreadId)
    requires IsRun(states, labels) && n < |labels|
    requires t in states[n + 1].threads && Dead(states[n + 1].threads[t])
    ensures t in states[n].threads && (Dead(states[n].threads[t]) || (Dies(states[n], labels[n]) && labels[n].t == t))
  {
    RunInv(states, labels, n);
    StepAt(states, labels, n);
    DeadBy(states[n], labels[n], t);
  }

  lemma {:induction false} DeadSince(states: seq<State>, labels: seq<Label>, n: nat, t: ThreadId) returns (i: nat)
    requires IsRun(states, labels) && n < |states|
    requires t in states[n].threads && Dead(states[n].threads[t])
    ensures i < n && Dies(states[i], labels[i]) && labels[i].t == t
  {
    if n > 0 {
      DeadPrior(states, labels, n - 1, t);
      i := n - 1;
      if Dead(states[n - 1].threads[t]) {
        i := DeadSince(states, labels, n - 1, t);
      }
    }
  }

  // While no publisher has met a full buffer and no watch has panicked over its own signals,
  // some thread can always move on as long as one is unfinished: the key mutexes, the
  // broadcaster mutex and the counter mutex are only ever taken in this order, and all other
  // panics release what they hold.
  lemma DeadlockFree(states: seq<State>, labels: seq<Label>, n: nat, t: ThreadId) returns (u: ThreadId)
    requires IsRun(states, labels) && n < |states|
    requires t in states[n].threads && Unfinished(states[n].threads[t])
    requires forall i :: 0 <= i < n ==> !Overflows(states[i], labels[i]) && !Dies(states[i], labels[i])
    ensures u in states[n].threads && CanStep(states[n], u)
  {
    RunInv(states, labels, n);
    var s := states[n];
    forall v | v in s.threads ensures !Blocked(s.threads[v]) {
      if Blocked(s.threads[v]) { var i := BlockedSince(states, labels, n, v); }
    }
    forall v | v in s.threads ensures !Dead(s.threads[v]) {
      if Dead(s.threads[v]) { var i := DeadSince(states, labels, n, v); }
    }
    if s.locks.counter.Some? {
      u := s.locks.counter.value;
      CounterHolderSteps(s, u);
    } else if s.locks.ring.Some? {
      u := s.locks.ring.value;
      RingHolderSteps(s, u);
    } else if s.locks.keys != map[] {
      var k :| k in s.locks.keys;
      u := s.locks.keys[k];
      KeyHolderSteps(s, u);
    } else {
      u := FreeThreadSteps(s, t);
    }
  }

  // When a publisher gets to a matching subscriber whose buffer is full and whose stopCh is
  // open, it can only call Stop, and otherwise it cannot.
  lemma OverflowIff(s: State, t: ThreadId, w: WatchId)
    requires Inv(s) && t in s.threads && s.threads[t].Writer? && s.threads[t].pc.FanOut? && w in s.threads[t].todo
    ensures w in s.hub.subs && w in s.hub.channels
    ensures var ch := s.hub.channels[w];
      var full := Matches(ch.filter, s.threads[t].key) && ch.buffered >= CHANNEL_SIZE && !ch.stopClosed;
      && (Enabled(s, Offer(t, w, Full)) <==> full)
      && (full ==> !Enabled(s, Offer(t, w, Send)) && !Enabled(s, Offer(t, w, Skip)))
  {
    assert LinkOk(s, t) && ChannelOk(s, w);
  }

  // The hook waits for the broadcaster mutex, which its own thread holds.
  lemma HookWaits(s: State, t: ThreadId)
    requires Inv(s) && t in s.threads && s.threads[t].Writer? && s.threads[t].pc.StopHook?
    ensures s.locks.ring == Some(t) && !CanStep(s, t)
  {
    assert LinkOk(s, t) && HoldsRing(s.threads[t]);
  }

  // At most the publisher gets as far as the hook; a Stop that others began first it waits
  // for in vain, as that waits for the same mutex.
  lemma StillBlocked(s: State, l: Label, t: ThreadId)
    requires Inv(s) && t in s.threads && Blocked(s.threads[t]) && Enabled(s, l) && !l.Crash?
    ensures t in Do(s, l).threads && Blocked(Do(s, l).threads[t])
    ensures Do(s, l).threads[t].key == s.threads[t].key && Do(s, l).threads[t].pc.victim == s.threads[t].pc.victim
  {
    assert LinkOk(s, t) && HoldsRing(s.threads[t]);
    var w := s.threads[t].pc.victim;
    assert ChannelOk(s, w);
    if l.Drain? || l.t != t {
      ThreadsStep(s, l);
    } else {
      assert l == Go(t) && s.threads[t].pc.StopEnter?;
    }
  }

  lemma OverflowBlocks(s: State, l: Label)
    requires Enabled(s, l) && Overflows(s, l)
    ensures l.t in Do(s, l).threads && Blocked(Do(s, l).threads[l.t])
  {
  }

  lemma BlockedNext(states: seq<State>, labels: seq<Label>, n: nat, t: ThreadId)
    requires IsRun(states, labels) && n < |labels| && !labels[n].Crash?
    requires t in states[n].threads && Blocked(states[n].threads[t])
    ensures t in states[n + 1].threads && Blocked(states[n + 1].threads[t])
  {
    RunInv(states, labels, n);
    StepAt(states, labels, n);
    StillBlocked(states[n], labels[n], t);
  }

  lemma BlockedHolds(states: seq<State>, labels: seq<Label>, n: nat, t: ThreadId)
    requires IsRun(states, labels) && n < |states| && t in states[n].threads && Blocked(states[n].threads[t])
    ensures var s := states[n];
      s.locks.ring == Some(t) && s.threads[t].key in s.locks.keys && s.locks.keys[s.threads[t].key] == t
  {
    RunInv(states, labels, n);
    assert HoldsRing(states[n].threads[t]) && HoldsKey(states[n].threads[t]);
  }

  lemma {:induction false} RunBlocked(states: seq<State>, labels: seq<Label>, i: nat, n: nat)
    requires IsRun(states, labels) && i < n < |states| && Overflows(states[i], labels[i])
    requires forall j :: i <= j < n ==> !labels[j].Crash?
    ensures labels[i].t in states[n].threads && Blocked(states[n].threads[labels[i].t])
    decreases n
  {
    if i + 1 == n {
      StepAt(states, labels, i);
      OverflowBlocks(states[i], labels[i]);
    } else {
      RunBlocked(states, labels, i, n - 1);
      BlockedNext(states, labels, n - 1, labels[i].t);
    }
  }

  // A publisher that met a full buffer never gets out of publish: until the process ends it
  // holds the broadcaster mutex and the mutex of its key, whatever the other threads do.
  lemma OverflowBlocksForever(states: seq<State>, labels: seq<Label>, i: nat, n: nat)
    requires IsRun(states, labels) && i < n < |states| && Overflows(states[i], labels[i])
    requires forall j :: i <= j < n ==> !labels[j].Crash?
    ensures var s, t := states[n], labels[i].t;
      && t in s.threads && Blocked(s.threads[t]) && s.locks.ring == Some(t)
      && s.threads[t].key in s.locks.keys && s.locks.keys[s.threads[t].key] == t
  {
    RunBlocked(states, labels, i, n);
    BlockedHolds(states, labels, n, labels[i].t);
  }

  lemma DeadStays(s: State, l: Label, t: ThreadId)
    requires Inv(s) && t in s.threads && Dead(s.threads[t]) && Enabled(s, l) && !l.Crash?
    ensures t in Do(s, l).threads && Dead(Do(s, l).threads[t])
  {
    ThreadsStep(s, l);
  }

  lemma DeadNext(states: seq<State>, labels: seq<Label>, n: nat, t: ThreadId)
    requires IsRun(states, labels) && n < |labels| && !labels[n].Crash?
    requires t in states[n].threads && Dead(states[n].threads[t])
    ensures t in states[n + 1].threads && Dead(states[n + 1].threads[t])
  {
    RunInv(states, labels, n);
    StepAt(states, labels, n);
    DeadStays(states[n], labels[n], t);
  }

  lemma DiesNow(s: State, l: Label)
    requires Enabled(s, l) && Dies(s, l)
    ensures l.t in Do(s, l).threads && Dead(Do(s, l).threads[l.t])
  {
  }

  lemma {:induction false} RunDead(states: seq<State>, labels: seq<Label>, i: nat, n: nat)
    requires IsRun(states, labels) && i < n < |states| && Dies(states[i], labels[i])
    requires forall j :: i <= j < n ==> !labels[j].Crash?
    ensures labels[i].t in states[n].threads && Dead(states[n].threads[labels[i].t])
    decreases n
  {
    if i + 1 == n {
      StepAt(states, labels, i);
      DiesNow(states[i], labels[i]);
    } else {
      RunDead(states, labels, i, n - 1);
      DeadNext(states, labels, n - 1, labels[i].t);
    }
  }

  // A watch that panics over its own signals leaves the broadcaster mutex locked until the
  // process ends: nothing is published any more, and no watch begins or ends.
  lemma DeadWatchLocks(states: seq<State>, labels: seq<Label>, i: nat, n: nat)
    requires IsRun(states, labels) && i < n < |states| && Dies(states[i], labels[i])
    requires forall j :: i <= j < n ==> !labels[j].Crash?
    ensures states[n].locks.ring == Some(labels[i].t)
    ensures SameHub(states[i], states[n])
  {
    forall j | i <= j < n ensures SameHub(states[j], states[j + 1]) {
      if j == i {
        DiesAlone(states, labels, i);
      } else {
        RunDead(states, labels, i, j);
        LockedNext(states, labels, j, labels[i].t);
      }
    }
    HubThrough(states, i, n);
    RunDead(states, labels, i, n);
    DeadHolds(states, labels, n, labels[i].t);
  }

  lemma {:induction false} HubThrough(states: seq<State>, i: nat, n: nat)
    requires i <= n < |states| && forall j :: i <= j < n ==> SameHub(states[j], states[j + 1])
    ensures SameHub(states[i], states[n])
    decreases n
  {
    if i < n {
      HubThrough(states, i, n - 1);
      assert SameHub(states[n - 1], states[n - 1 + 1]);
    }
  }

  lemma DeadHolds(states: seq<State>, labels: seq<Label>, n: nat, t: ThreadId)
    requires IsRun(states, labels) && n < |states| && t in states[n].threads && Dead(states[n].threads[t])
    ensures states[n].locks.ring == Some(t)
  {
    RunInv(states, labels, n);
    assert HoldsRing(states[n].threads[t]);
  }

  ghost predicate SameHub(s: State, s': State) {
    s'.hub.ring == s.hub.ring && s'.hub.subs == s.hub.subs
  }

  lemma DiesAlone(states: seq<State>, labels: seq<Label>, n: nat)
    requires IsRun(states, labels) && n < |labels| && Dies(states[n], labels[n])
    ensures SameHub(states[n], states[n + 1])
  {
    StepAt(states, labels, n);
  }

  lemma LockedNext(states: seq<State>, labels: seq<Label>, n: nat, t: ThreadId)
    requires IsRun(states, labels) && n < |labels| && !labels[n].Crash?
    requires t in states[n].threads && Dead(states[n].threads[t])
    ensures SameHub(states[n], states[n + 1])
  {
    DeadHolds(states, labels, n, t);
    RunInv(states, labels, n);
    StepAt(states, labels, n);
    LockedRing(states[n], labels[n], t);
  }

  // The ring and the subscriptions change in the hands of whoever holds their mutex.
  lemma LockedRing(s: State, l: Label, t: ThreadId)
    requires RingHeld(s) && Enabled(s, l) && !l.Crash? && s.locks.ring == Some(t) && t in s.threads && Dead(s.threads[t])
    ensures SameHub(s, Do(s, l))
  {
    if l.Go? || l.Offer? {
      assert HoldsRing(s.threads[l.t]) ==> l.t == t;
      if l.Go? {
        if s.threads[l.t].Watcher? { HubLeftByWatcher(s, l.t); }
        else if s.threads[l.t].Stopper? { HubLeftByStopper(s, l.t); }
        else { HubLeftByWriter(s, l.t); }
      }
    }
  }

  lemma HubLeftByWatcher(s: State, t: ThreadId)
    requires t in s.threads && s.threads[t].Watcher? && WatcherReady(s, s.threads[t]) && !HoldsRing(s.threads[t])
    ensures SameHub(s, GoWatcher(s, t, s.threads[t]))
  {
  }

  lemma HubLeftByStopper(s: State, t: ThreadId)
    requires t in s.threads && s.threads[t].Stopper? && StopperReady(s, s.threads[t]) && !HoldsRing(s.threads[t])
    ensures SameHub(s, GoStopper(s, t, s.threads[t]))
  {
  }

  lemma HubLeftByWriter(s: State, t: ThreadId)
    requires t in s.threads && s.threads[t].Writer? && WriterReady(s, s.threads[t]) && !HoldsRing(s.threads[t])
    ensures SameHub(s, GoWriter(s, t, s.threads[t]))
  {
  }

  lemma ThreadsStep(s: State, l: Label)
    requires Enabled(s, l) && !l.Crash?
    ensures !l.Drain? ==> MovesTo(s, Do(s, l), l.t)
    ensures l.Drain? ==> Do(s, l).threads == s.threads
  {
    if l.Go? {
      var th := s.threads[l.t];
      if th.Watcher? { WatcherMoves(s, l.t); }
      else if th.Stopper? { StopperMoves(s, l.t); }
      else if TakesVersion(th.pc) { VersionMoves(s, l.t); }
      else if Publishes(th.pc) { PublishMoves(s, l.t); }
      else if StopsInside(th.pc) { InsideMoves(s, l.t); }
      else { FileMoves(s, l.t); }
    } else if !l.Drain? {
      OtherMoves(s, l);
    }
  }

  // --- Channels ---

  // Nothing reaches a watcher after it has left the subscriptions, nor is it ever
  // subscribed again.
  lemma SilentStep(s: State, l: Label, w: WatchId)
    requires Inv(s) && Enabled(s, l) && !l.Crash? && w in s.hub.channels && Unsubscribed(s, w)
    ensures w in Do(s, l).hub.channels && Unsubscribed(Do(s, l), w)
    ensures Do(s, l).hub.channels[w].sent == s.hub.channels[w].sent
  {
    match l {
      case Go(t) => assert LinkOk(s, t); SilentGo(s, t, w);
      case Offer(t, _, _) => assert LinkOk(s, t); SilentOffer(s, l, w);
      case _ => SilentElse(s, l, w);
    }
  }

  lemma SilentOffer(s: State, l: Label, w: WatchId)
    requires Enabled(s, l) && l.Offer? && LinkOk(s, l.t) && w in s.hub.channels && Unsubscribed(s, w)
    ensures w in Do(s, l).hub.channels && Unsubscribed(Do(s, l), w)
    ensures Do(s, l).hub.channels[w].sent == s.hub.channels[w].sent
  {
  }

  lemma SilentElse(s: State, l: Label, w: WatchId)
    requires Enabled(s, l) && !l.Go? && !l.Offer? && !l.Crash? && w in s.hub.channels && Unsubscribed(s, w)
    ensures w in Do(s, l).hub.channels && Unsubscribed(Do(s, l), w)
    ensures Do(s, l).hub.channels[w].sent == s.hub.channels[w].sent
  {
  }

  lemma SilentGo(s: State, t: ThreadId, w: WatchId)
    requires Enabled(s, Go(t)) && LinkOk(s, t) && w in s.hub.channels && Unsubscribed(s, w)
    ensures w in Do(s, Go(t)).hub.channels && Unsubscribed(Do(s, Go(t)), w)
    ensures Do(s, Go(t)).hub.channels[w].sent == s.hub.channels[w].sent
  {
  }

  lemma {:induction false} SilentAfterUnsubscribe(states: seq<State>, labels: seq<Label>, m: nat, n: nat, w: WatchId)
    requires IsRun(states, labels) && m <= n < |states|
    requires forall i :: m <= i < n ==> !labels[i].Crash?
    requires w in states[m].hub.channels && Unsubscribed(states[m], w)
    ensures w in states[n].hub.channels && Unsubscribed(states[n], w)
    ensures states[n].hub.channels[w].sent == states[m].hub.channels[w].sent
    decreases n - m
  {
    if m < n {
      RunInv(states, labels, n - 1);
      SilentAfterUnsubscribe(states, labels, m, n - 1, w);
      StepAt(states, labels, n - 1);
      SilentStep(states[n - 1], labels[n - 1], w);
    }
  }
}
