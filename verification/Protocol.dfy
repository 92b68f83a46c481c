/** The storage protocol, one step at a time: writers, watches and watch shutdowns run
    as threads over the object files, the version counter, the event ring and the watch
    channels, under the key mutexes, the broadcaster mutex and the counter mutex. The
    process may crash between any two steps. A panic ends its own thread only: requests are
    served by HTTP handlers, whose panics the server recovers. */
module Protocol {
  import opened Counter
  import opened Decimal
  import opened Objects
  import opened Options
  import opened Ring

  type ThreadId = int
  type WatchId = int

  // Create, GuaranteedUpdate and Delete. The names say which action comes next.
  datatype WriterPC =
    | LockKey | ReadFile | RemoveFile
    | LockCounter | Bump | Persist | UnlockCounter
    | WriteTmp | Rename
    | LockRing | AppendRing | FanOut | StopEnter(victim: WatchId) | StopHook(victim: WatchId)
    | UnlockKey | Returned

  // Watch.
  datatype WatchPC =
    | LockForWatch | LockCurrent | ReadCurrent | UnlockCurrent
    | ChooseStart | Scan | Deliver | UnlockWatch
    | Refuse | SendExpired | StopExpired | Watching
    | Died  // of a panic, with the broadcaster mutex still locked

  // watcher.Stop.
  datatype StopPC = EnterOnce | RunHook | Unsubscribe | UnlockHook | CloseChannel | Stopped

  datatype Thread =
    | Writer(key: Key, op: Op, pc: WriterPC, start: nat,
             cur: Option<Obj>, plan: Plan, rv: Option<nat>, todo: set<WatchId>)
    | Watcher(w: WatchId, bookmark: bool, wpc: WatchPC, current: nat,
              toList: set<string>, toRead: set<Key>, queue: seq<Signal>)
    | Stopper(w: WatchId, spc: StopPC)

  datatype Once = Fresh | Running(runner: ThreadId) | Done

  // One watcher object. `hooked` says onStop is set, `handed` that Watch has returned it.
  // For the proofs only: `early` says that Stop passed the hook before it was set, `sent`
  // is everything ever put into the channel, `unseen` has the keys whose files were removed
  // since the watch last looked at them or was told of them, and `missed` those of which an
  // event was dropped by a panic of its publisher and none has arrived since.
  datatype Channel = Channel(filter: Filter, startRV: nat, once: Once, stopClosed: bool, closed: bool,
                             hooked: bool, handed: bool, early: bool, sent: seq<Signal>, buffered: nat,
                             unseen: set<Key>, missed: set<Key>)

  // The changes of files in the order they were announced, for the proofs: a published
  // event, or a removal whose version could not be persisted, which is never announced.
  datatype Entry =
    | Published(ev: Event, op: Op, before: Option<Obj>, start: nat)
    | LostRemoval(lostKey: Key, lostOp: Op, before: Option<Obj>)

  datatype Disk = Disk(files: Files, tmps: Files, dirs: set<string>,
                       rvFile: Option<string>, rvTmp: Option<string>)

  // The broadcaster, with every watch channel of the process.
  datatype Hub = Hub(capacity: nat, ring: seq<Event>, subs: set<WatchId>, channels: map<WatchId, Channel>)

  datatype LockTable = LockTable(keys: map<Key, ThreadId>, ring: Option<ThreadId>, counter: Option<ThreadId>)

  // For the proofs only: the files at the last start, the announcements since, and
  // every version ever issued.
  datatype Past = Past(base: Files, log: seq<Entry>, issued: seq<nat>)

  // `panicked` says that some thread has panicked since the last start.
  datatype State = State(disk: Disk, counter: nat, hub: Hub, locks: LockTable,
                         threads: map<ThreadId, Thread>, panicked: bool, past: Past)

  // The outcome of the select in deliver.
  datatype How = Skip | Send | Full

  datatype Label =
    | NewWriter(t: ThreadId, key: Key, op: Op)
    | NewWatch(t: ThreadId, w: WatchId, filter: Filter, startRV: nat, bookmark: bool)
    | NewStop(t: ThreadId, w: WatchId)
    | Go(t: ThreadId)
    | Fail(t: ThreadId)
    | Offer(t: ThreadId, w: WatchId, how: How)
    | ListDir(t: ThreadId, ns: string)
    | Fetch(t: ThreadId, key: Key)
    | Drain(w: WatchId)
    | Crash

  // The version a writer holds; zero, as in the code, while it holds none.
  function Version(th: Thread): nat
    requires th.Writer?
  {
    if th.rv.Some? then th.rv.value else 0
  }

  function EntryKey(e: Entry): Key {
    match e
    case Published(ev, _, _, _) => ev.key
    case LostRemoval(k, _, _) => k
  }

  ghost predicate Init(s: State) {
    && s.disk == Disk(map[], map[], {}, None, None)
    && s.counter == 1
    && s.hub == Hub(s.hub.capacity, [], {}, map[])
    && s.locks == LockTable(map[], None, None)
    && s.threads == map[]
    && !s.panicked
    && s.past == Past(map[], [], [])
  }

  // --- When a label may fire ---

  predicate CanOffer(ch: Channel, how: How) {
    match how
    case Skip => ch.stopClosed
    // A send on a closed channel is always ready, and panics.
    case Send => ch.closed || ch.buffered < CHANNEL_SIZE
    case Full => !ch.stopClosed && !ch.closed && ch.buffered >= CHANNEL_SIZE
  }

  predicate WriterReady(s: State, th: Thread)
    requires th.Writer?
  {
    match th.pc
    case LockKey => th.key !in s.locks.keys
    case LockCounter => s.locks.counter == None
    case LockRing => s.locks.ring == None
    case Rename => th.key in s.disk.tmps
    case WriteTmp => th.plan.Write?
    case FanOut => th.todo == {}
    // stopOnce.Do waits for a Stop under way, and the hook for the broadcaster mutex.
    case StopEnter(w) => w in s.hub.channels && !s.hub.channels[w].once.Running?
    case StopHook(w) => w in s.hub.channels && (s.hub.channels[w].hooked ==> s.locks.ring == None)
    case Returned => false
    case _ => true
  }

  predicate WatcherReady(s: State, th: Thread)
    requires th.Watcher?
  {
    th.w in s.hub.channels &&
    match th.wpc
    case LockForWatch => s.locks.ring == None
    case LockCurrent => s.locks.counter == None
    case Scan => th.toList == {} && th.toRead == {}
    case Deliver => th.queue == []
    case StopExpired => !s.hub.channels[th.w].once.Running?
    case Watching | Died => false
    case _ => true
  }

  predicate StopperReady(s: State, th: Thread)
    requires th.Stopper?
  {
    th.w in s.hub.channels &&
    match th.spc
    case EnterOnce => !s.hub.channels[th.w].once.Running?
    case RunHook => s.hub.channels[th.w].hooked ==> s.locks.ring == None
    case Stopped => false
    case _ => true
  }

  predicate Ready(s: State, th: Thread) {
    match th
    case Writer(_, _, _, _, _, _, _, _) => WriterReady(s, th)
    case Watcher(_, _, _, _, _, _, _) => WatcherReady(s, th)
    case Stopper(_, _) => StopperReady(s, th)
  }

  predicate OfferEnabled(s: State, t: ThreadId, w: WatchId, how: How) {
    t in s.threads && w in s.hub.channels &&
    match s.threads[t]
    case Writer(key, _, pc, _, _, _, _, todo) =>
      pc == FanOut && w in todo &&
      if Matches(s.hub.channels[w].filter, key) then CanOffer(s.hub.channels[w], how) else how == Skip
    case Watcher(own, _, wpc, _, _, _, queue) =>
      wpc == Deliver && own == w && queue != [] && CanOffer(s.hub.channels[w], how)
    case Stopper(_, _) => false
  }

  predicate Enabled(s: State, l: Label) {
    match l
    case Crash => true
    case NewWriter(t, _, _) => t !in s.threads
    case NewWatch(t, w, _, _, _) => t !in s.threads && w !in s.hub.channels
    case NewStop(t, w) => t !in s.threads && w in s.hub.channels
    case Go(t) => t in s.threads && Ready(s, s.threads[t])
    case Fail(t) => t in s.threads && s.threads[t].Writer?
                    && (s.threads[t].pc.RemoveFile? || s.threads[t].pc.Persist? || s.threads[t].pc.WriteTmp? || s.threads[t].pc.Rename?)
    case Offer(t, w, how) => OfferEnabled(s, t, w, how)
    case ListDir(t, ns) => t in s.threads && s.threads[t].Watcher?
                           && s.threads[t].wpc == Scan && ns in s.threads[t].toList && s.threads[t].w in s.hub.channels
    case Fetch(t, key) => t in s.threads && s.threads[t].Watcher?
                          && s.threads[t].wpc == Scan && key in s.threads[t].toRead && s.threads[t].w in s.hub.channels
    case Drain(w) => w in s.hub.channels && s.hub.channels[w].handed && s.hub.channels[w].buffered > 0
  }

  // --- What a label does ---

  function Put(s: State, t: ThreadId, th: Thread): State {
    s.(threads := s.threads[t := th])
  }

  function PutChannel(s: State, t: ThreadId, th: Thread, ch: Channel): State
    requires !th.Writer?
  {
    s.(threads := s.threads[t := th], hub := s.hub.(channels := s.hub.channels[th.w := ch]))
  }

  predicate TakesVersion(pc: WriterPC) {
    pc.LockCounter? || pc.Bump? || pc.Persist? || pc.UnlockCounter?
  }

  predicate Publishes(pc: WriterPC) {
    pc.LockRing? || pc.AppendRing? || pc.FanOut?
  }

  // In a Stop that deliver called.
  predicate StopsInside(pc: WriterPC) {
    pc.StopEnter? || pc.StopHook?
  }

  predicate OnFile(pc: WriterPC) {
    !TakesVersion(pc) && !Publishes(pc) && !StopsInside(pc)
  }

  // In the loop over the subscribers, perhaps inside the Stop of one of them.
  predicate Fanning(pc: WriterPC) {
    pc.FanOut? || StopsInside(pc)
  }

  function Marked(channels: map<WatchId, Channel>, key: Key): map<WatchId, Channel> {
    map w | w in channels :: channels[w].(unseen := channels[w].unseen + {key})
  }

  // The steps on the key mutex and the object file.
  function GoFile(s: State, t: ThreadId, th: Thread): State
    requires th.Writer? && WriterReady(s, th) && OnFile(th.pc)
  {
    match th.pc
    case LockKey =>
      s.(threads := s.threads[t := th.(pc := ReadFile)],
         locks := s.locks.(keys := s.locks.keys[th.key := t]))
    case ReadFile =>
      var cur := Get(s.disk.files, th.key);
      var plan := Decide(th.op, cur);
      var next := match plan case Finish(_) => UnlockKey case Erase => RemoveFile case Write(_) => LockCounter;
      Put(s, t, th.(cur := cur, plan := plan, pc := next))
    case RemoveFile =>
      s.(threads := s.threads[t := th.(pc := LockCounter)],
         disk := s.disk.(files := s.disk.files - {th.key}),
         hub := s.hub.(channels := Marked(s.hub.channels, th.key)))
    case WriteTmp =>
      s.(threads := s.threads[t := th.(pc := Rename)],
         disk := s.disk.(tmps := s.disk.tmps[th.key := th.plan.draft.(rv := Version(th))],
                         dirs := if th.key.ns == "" then s.disk.dirs else s.disk.dirs + {th.key.ns}))
    case Rename =>
      s.(threads := s.threads[t := th.(pc := LockRing)],
         disk := s.disk.(files := s.disk.files[th.key := s.disk.tmps[th.key]], tmps := s.disk.tmps - {th.key}))
    case UnlockKey =>
      s.(threads := s.threads[t := th.(pc := Returned)],
         locks := s.locks.(keys := s.locks.keys - {th.key}))
  }

  // The steps of nextRV: the counter is bumped, persisted and released.
  function GoVersion(s: State, t: ThreadId, th: Thread): State
    requires th.Writer? && TakesVersion(th.pc)
  {
    match th.pc
    case LockCounter =>
      s.(threads := s.threads[t := th.(pc := Bump)],
         locks := s.locks.(counter := Some(t)))
    case Bump =>
      var next := (s.counter + 1) % (MAX_UINT64 + 1);
      s.(threads := s.threads[t := th.(pc := Persist)],
         counter := next,
         disk := s.disk.(rvTmp := Some(FormatUint(next))))
    case Persist =>
      s.(threads := s.threads[t := th.(pc := UnlockCounter, rv := Some(s.counter))],
         disk := s.disk.(rvFile := s.disk.rvTmp, rvTmp := None),
         past := s.past.(issued := s.past.issued + [s.counter]))
    case UnlockCounter =>
      var next := if th.rv == None then UnlockKey else if th.plan.Erase? then LockRing else WriteTmp;
      s.(threads := s.threads[t := th.(pc := next)],
         locks := s.locks.(counter := None))
  }

  // The steps of publish, but for the offers to the watchers.
  function GoPublish(s: State, t: ThreadId, th: Thread): State
    requires th.Writer? && Publishes(th.pc)
  {
    match th.pc
    case LockRing =>
      s.(threads := s.threads[t := th.(pc := AppendRing)],
         locks := s.locks.(ring := Some(t)))
    case AppendRing =>
      var ev := EventOf(th.key, th.cur, th.plan, Version(th));
      s.(threads := s.threads[t := th.(pc := FanOut, todo := s.hub.subs)],
         hub := s.hub.(ring := Trim(s.hub.ring + [ev], s.hub.capacity)),
         past := s.past.(log := s.past.log + [Published(ev, th.op, th.cur, th.start)]))
    case FanOut =>
      s.(threads := s.threads[t := th.(pc := UnlockKey)],
         locks := s.locks.(ring := None))
  }

  // The Stop that deliver calls, in the publisher itself.
  function GoInside(s: State, t: ThreadId, th: Thread): State
    requires th.Writer? && StopsInside(th.pc) && WriterReady(s, th)
  {
    match th.pc
    case StopEnter(w) =>
      if s.hub.channels[w].once.Fresh? then
        s.(threads := s.threads[t := th.(pc := StopHook(w))],
           hub := s.hub.(channels := s.hub.channels[w := s.hub.channels[w].(once := Running(t), stopClosed := true)]))
      else
        Put(s, t, th.(pc := FanOut, todo := th.todo - {w}))
    case StopHook(w) =>
      // Were the mutex free: unsubscribe, release it, close the channel, go on.
      s.(threads := s.threads[t := th.(pc := FanOut, todo := th.todo - {w})],
         hub := s.hub.(channels := s.hub.channels[w := s.hub.channels[w].(closed := true, once := Done)],
                       subs := if s.hub.channels[w].hooked then s.hub.subs - {w} else s.hub.subs))
  }

  function GoWriter(s: State, t: ThreadId, th: Thread): State
    requires th.Writer? && WriterReady(s, th)
  {
    if TakesVersion(th.pc) then GoVersion(s, t, th)
    else if Publishes(th.pc) then GoPublish(s, t, th)
    else if StopsInside(th.pc) then GoInside(s, t, th)
    else GoFile(s, t, th)
  }

  // Stop when onStop is not set: close both channels, no lock taken.
  function StopUnhooked(ch: Channel): Channel {
    ch.(once := Done, stopClosed := true, closed := true, early := true)
  }

  function GoWatcher(s: State, t: ThreadId, th: Thread): State
    requires th.Watcher? && WatcherReady(s, th)
  {
    var ch := s.hub.channels[th.w];
    match th.wpc
    case LockForWatch =>
      s.(threads := s.threads[t := th.(wpc := LockCurrent)],
         locks := s.locks.(ring := Some(t)))
    case LockCurrent =>
      s.(threads := s.threads[t := th.(wpc := ReadCurrent)],
         locks := s.locks.(counter := Some(t)))
    case ReadCurrent =>
      Put(s, t, th.(wpc := UnlockCurrent, current := s.counter))
    case UnlockCurrent =>
      s.(threads := s.threads[t := th.(wpc := ChooseStart)],
         locks := s.locks.(counter := None))
    case ChooseStart =>
      if ch.startRV == 0 then
        PutChannel(s, t, th.(wpc := Scan, toList := RootDirs(s.disk.dirs, ch.filter), toRead := RootFiles(s.disk.files, ch.filter)),
                   ch.(unseen := {}))
      else if ch.startRV < th.current then
        (match Replay(s.hub.ring, ch.startRV)
         case None => Put(s, t, th.(wpc := Refuse))
         case Some(events) => Put(s, t, th.(wpc := Deliver, queue := Select(events, ch.filter))))
      else
        Put(s, t, th.(wpc := Deliver))
    case Scan =>
      Put(s, t, th.(wpc := Deliver, queue := th.queue + (if th.bookmark then [Bookmark(th.current)] else [])))
    case Deliver =>
      s.(threads := s.threads[t := th.(wpc := UnlockWatch)],
         hub := s.hub.(subs := s.hub.subs + {th.w}, channels := s.hub.channels[th.w := ch.(hooked := true)]))
    case UnlockWatch =>
      PutChannel(s, t, th.(wpc := Watching), ch.(handed := true)).(locks := s.locks.(ring := None))
    case Refuse =>
      s.(threads := s.threads[t := th.(wpc := SendExpired)],
         locks := s.locks.(ring := None))
    case SendExpired =>
      if ch.closed then
        Put(s, t, th.(wpc := Watching)).(panicked := true)
      else
        PutChannel(s, t, th.(wpc := StopExpired), if ch.buffered < CHANNEL_SIZE then Sent(ch, Expired) else ch)
    case StopExpired =>
      PutChannel(s, t, th.(wpc := Watching), (if ch.once.Fresh? then StopUnhooked(ch) else ch).(handed := true))
  }

  function GoStopper(s: State, t: ThreadId, th: Thread): State
    requires th.Stopper? && StopperReady(s, th)
  {
    var ch := s.hub.channels[th.w];
    match th.spc
    case EnterOnce =>
      if ch.once.Fresh? then
        PutChannel(s, t, th.(spc := RunHook), ch.(once := Running(t), stopClosed := true))
      else
        Put(s, t, th.(spc := Stopped))
    case RunHook =>
      if ch.hooked then
        s.(threads := s.threads[t := th.(spc := Unsubscribe)],
           locks := s.locks.(ring := Some(t)))
      else
        PutChannel(s, t, th.(spc := CloseChannel), ch.(early := true))
    case Unsubscribe =>
      s.(threads := s.threads[t := th.(spc := UnlockHook)],
         hub := s.hub.(subs := s.hub.subs - {th.w}))
    case UnlockHook =>
      s.(threads := s.threads[t := th.(spc := CloseChannel)],
         locks := s.locks.(ring := None))
    case CloseChannel =>
      PutChannel(s, t, th.(spc := Stopped), ch.(closed := true, once := Done))
  }

  // A step of a writer that fails in the file system. The counter rolls back.
  function FailWriter(s: State, t: ThreadId, th: Thread): State
    requires th.Writer?
  {
    if th.pc.Persist? then
      s.(threads := s.threads[t := th.(pc := UnlockCounter)],
         counter := (s.counter + MAX_UINT64) % (MAX_UINT64 + 1),
         past := if th.plan.Erase? then s.past.(log := s.past.log + [LostRemoval(th.key, th.op, th.cur)]) else s.past)
    else
      Put(s, t, th.(pc := UnlockKey))
  }

  function Sent(ch: Channel, sig: Signal): Channel {
    ch.(sent := ch.sent + [sig], buffered := ch.buffered + 1)
  }

  function Missing(channels: map<WatchId, Channel>, todo: set<WatchId>, key: Key): map<WatchId, Channel> {
    map w | w in channels :: if w in todo then channels[w].(missed := channels[w].missed + {key}) else channels[w]
  }

  // A publisher that sends on a closed channel panics. The subscribers it has not come to get
  // nothing, and its deferred calls unlock the two mutexes: it goes on where the loop ends.
  function Unwound(s: State, t: ThreadId, th: Thread, w: WatchId): State
    requires th.Writer?
  {
    s.(threads := s.threads[t := th.(todo := {})],
       hub := s.hub.(channels := Missing(s.hub.channels, th.todo - {w}, th.key)),
       panicked := true)
  }

  function OfferByWriter(s: State, t: ThreadId, th: Thread, w: WatchId, how: How): State
    requires th.Writer? && w in s.hub.channels
  {
    var ch := s.hub.channels[w];
    var sig := Change(EventOf(th.key, th.cur, th.plan, Version(th)));
    if how.Send? && ch.closed then
      Unwound(s, t, th, w)
    else
      // A full buffer makes deliver call Stop.
      var th' := if how.Full? then th.(pc := StopEnter(w)) else th.(todo := th.todo - {w});
      var ch' := if how.Send? then Sent(ch, sig).(unseen := ch.unseen - {th.key}, missed := ch.missed - {th.key}) else ch;
      s.(threads := s.threads[t := th'],
         hub := s.hub.(channels := s.hub.channels[w := ch']))
  }

  function OfferByWatcher(s: State, t: ThreadId, th: Thread, how: How): State
    requires th.Watcher? && th.w in s.hub.channels && th.queue != []
  {
    var ch := s.hub.channels[th.w];
    if how.Send? && ch.closed then
      // A panic. Watch defers nothing, so the broadcaster mutex stays locked.
      Put(s, t, th.(wpc := Died, queue := [])).(panicked := true)
    else
      var ch' := if how.Full? then StopUnhooked(ch) else if how.Send? then Sent(ch, th.queue[0]) else ch;
      PutChannel(s, t, th.(queue := th.queue[1..]), ch')
  }

  // Everything in memory is lost; a new process opens the same directory.
  function Restarted(s: State): State {
    State(s.disk, if LoadRV(s.disk.rvFile).Some? then LoadRV(s.disk.rvFile).value else 0,
          Hub(s.hub.capacity, [], {}, map[]), LockTable(map[], None, None), map[], false,
          Past(s.disk.files, [], s.past.issued))
  }

  function Do(s: State, l: Label): State
    requires Enabled(s, l)
  {
    match l
    case NewWriter(t, key, op) =>
      Put(s, t, Writer(key, op, LockKey, |s.past.log|, None, Finish(NotFound), None, {}))
    case NewWatch(t, w, filter, startRV, bookmark) =>
      PutChannel(s, t, Watcher(w, bookmark, LockForWatch, 0, {}, {}, []),
                 Channel(filter, startRV, Fresh, false, false, false, false, false, [], 0, {}, {}))
    case NewStop(t, w) =>
      Put(s, t, Stopper(w, EnterOnce))
    case Go(t) => (
      var th := s.threads[t];
      if th.Writer? then GoWriter(s, t, th)
      else if th.Watcher? then GoWatcher(s, t, th)
      else GoStopper(s, t, th))
    case Fail(t) => FailWriter(s, t, s.threads[t])
    case Offer(t, w, how) =>
      if s.threads[t].Writer? then OfferByWriter(s, t, s.threads[t], w, how)
      else OfferByWatcher(s, t, s.threads[t], how)
    case ListDir(t, ns) =>
      var th := s.threads[t];
      var ch := s.hub.channels[th.w];
      PutChannel(s, t, th.(toList := th.toList - {ns}, toRead := th.toRead + InDir(s.disk.files, ns)),
                 ch.(unseen := set k | k in ch.unseen && k.ns != ns))
    case Fetch(t, key) =>
      var th := s.threads[t];
      var ch := s.hub.channels[th.w];
      PutChannel(s, t, th.(toRead := th.toRead - {key},
                           queue := if key in s.disk.files then th.queue + [Initial(key, s.disk.files[key])] else th.queue),
                 ch.(unseen := ch.unseen - {key}))
    case Drain(w) =>
      var ch := s.hub.channels[w];
      s.(hub := s.hub.(channels := s.hub.channels[w := ch.(buffered := ch.buffered - 1)]))
    case Crash => Restarted(s)
  }

  // --- Runs ---

  // The hypothesis about the width of versions: the counter is not bumped at its top.
  predicate Fits(s: State, l: Label) {
    l.Go? && l.t in s.threads && s.threads[l.t].Writer? && s.threads[l.t].pc == Bump ==> s.counter < MAX_UINT64
  }

  ghost predicate Steps(s: State, l: Label, s': State) {
    Enabled(s, l) && Fits(s, l) && s' == Do(s, l)
  }

  ghost predicate IsRun(states: seq<State>, labels: seq<Label>) {
    && |states| == |labels| + 1
    && Init(states[0])
    && forall i :: 0 <= i < |labels| ==> Steps(states[i], labels[i], states[i + 1])
  }

  lemma StepAt(states: seq<State>, labels: seq<Label>, i: nat)
    requires IsRun(states, labels) && i < |labels|
    ensures Steps(states[i], labels[i], states[i + 1])
  {
  }
}
