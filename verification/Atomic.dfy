/** The store with each request as one step, and what a watch receives. */
module Atomic {
  import opened Decimal
  import opened Objects
  import opened Options
  import opened Ring

  // `base` and `openRV` are the files and the version the store was opened with;
  // `history` is everything published since.
  datatype State = State(base: Files, openRV: nat, files: Files, dirs: set<string>, rv: nat, history: seq<Event>)

  datatype Step =
    | Request(key: Key, op: Op)
    | OtherResource  // a store of another resource takes a version from the shared counter

  function Open(files: Files, dirs: set<string>, rv: nat): State {
    State(files, rv, files, dirs, rv, [])
  }

  function Update(files: Files, k: Key, value: Option<Obj>): Files {
    match value
    case None => files - {k}
    case Some(o) => files[k := o]
  }

  function WithDir(dirs: set<string>, ns: string): set<string> {
    if ns == "" then dirs else dirs + {ns}
  }

  // A planned change: the file, the version and the announcement.
  function Perform(s: State, key: Key, cur: Option<Obj>, plan: Plan): State {
    s.(files := Update(s.files, key, After(plan, s.rv + 1)),
       dirs := if plan.Write? then WithDir(s.dirs, key.ns) else s.dirs,
       rv := s.rv + 1,
       history := s.history + [EventOf(key, cur, plan, s.rv + 1)])
  }

  function Next(s: State, step: Step): State {
    match step
    case OtherResource => s.(rv := s.rv + 1)
    case Request(key, op) =>
      var cur := Get(s.files, key);
      var plan := Decide(op, cur);
      if plan.Finish? then s else Perform(s, key, cur, plan)
  }

  function Steps(s: State, steps: seq<Step>): State {
    if steps == [] then s else Next(Steps(s, steps[..|steps| - 1]), steps[|steps| - 1])
  }

  ghost predicate Ascending(events: seq<Event>) {
    forall i, j :: 0 <= i < j < |events| ==> events[i].rv < events[j].rv
  }

  // Versions ascend from the opening on.
  ghost predicate Dated(s: State) {
    && s.openRV <= s.rv
    && Ascending(s.history)
    && (forall i :: 0 <= i < |s.history| ==> s.openRV < s.history[i].rv <= s.rv)
    && (forall i :: 0 <= i < |s.history| ==> s.history[i].obj.rv == s.history[i].rv)
    && (forall k :: k in s.base ==> s.base[k].rv <= s.openRV)
  }

  // The file of each key is what the history made of the file at opening.
  ghost predicate Followed(s: State) {
    forall k :: Get(s.files, k) == ViewAt(Get(s.base, k), Select(s.history, Everything), k)
  }

  // Every file is listed in its namespace's directory and is not newer than the counter.
  ghost predicate Placed(s: State) {
    && "" !in s.dirs
    && (forall k :: k in s.files ==> s.files[k].rv <= s.rv && (k.ns == "" || k.ns in s.dirs))
  }

  ghost predicate Valid(s: State) {
    Dated(s) && Followed(s) && Placed(s)
  }

  lemma SelectAppend(events: seq<Event>, ev: Event, filter: Filter)
    ensures Select(events + [ev], filter) == Select(events, filter) + (if Matches(filter, ev.key) then [Change(ev)] else [])
  {
    assert (events + [ev])[..|events|] == events;
  }

  lemma AboveAppend(events: seq<Event>, ev: Event, rv: nat)
    ensures Above(events + [ev], rv) == Above(events, rv) + (if ev.rv > rv then [ev] else [])
  {
    assert (events + [ev])[..|events|] == events;
  }

  lemma ValidOpen(files: Files, dirs: set<string>, rv: nat)
    requires "" !in dirs && forall k :: k in files ==> files[k].rv <= rv && (k.ns == "" || k.ns in dirs)
    ensures Valid(Open(files, dirs, rv))
  {
  }

  // The state t comes later in the same run than s.
  ghost predicate Later(s: State, t: State) {
    && s.history <= t.history && t.base == s.base && t.openRV == s.openRV && s.rv <= t.rv
    && (forall i :: |s.history| <= i < |t.history| ==> t.history[i].rv > s.rv)
  }

  // A changed key follows the event it publishes; other keys stay.
  lemma FileFollows(s: State, key: Key, cur: Option<Obj>, plan: Plan, k: Key)
    requires Valid(s) && !plan.Finish?
    ensures var t := Perform(s, key, cur, plan);
      Get(t.files, k) == ViewAt(Get(t.base, k), Select(t.history, Everything), k)
  {
    var ev := EventOf(key, cur, plan, s.rv + 1);
    SelectAppend(s.history, ev, Everything);
    ViewAppend(Get(s.base, k), Select(s.history, Everything), Change(ev), k);
  }

  lemma PerformKeepsValid(s: State, key: Key, cur: Option<Obj>, plan: Plan)
    requires Valid(s) && !plan.Finish?
    ensures Valid(Perform(s, key, cur, plan)) && Later(s, Perform(s, key, cur, plan))
  {
    var t := Perform(s, key, cur, plan);
    forall k ensures Get(t.files, k) == ViewAt(Get(t.base, k), Select(t.history, Everything), k) {
      FileFollows(s, key, cur, plan, k);
    }
  }

  lemma ValidKept(s: State, step: Step)
    requires Valid(s)
    ensures Valid(Next(s, step)) && Later(s, Next(s, step))
  {
    if step.Request? {
      var cur := Get(s.files, step.key);
      if !Decide(step.op, cur).Finish? { PerformKeepsValid(s, step.key, cur, Decide(step.op, cur)); }
    }
  }

  lemma {:induction false} ValidSteps(s: State, steps: seq<Step>)
    requires Valid(s)
    ensures Valid(Steps(s, steps)) && Later(s, Steps(s, steps))
  {
    if steps != [] {
      var prev := steps[..|steps| - 1];
      ValidSteps(s, prev);
      ValidKept(Steps(s, prev), steps[|steps| - 1]);
    }
  }

  // --- Streams ---

  // The matching events above a version.
  function Stream(history: seq<Event>, rv: nat, filter: Filter): seq<Signal> {
    Select(Above(history, rv), filter)
  }

  // What a watch from a version above zero is offered: none when it is refused, else the
  // replay at its start, in state `at`, and the live events up to `now`. It gets all of it
  // while its channel has room, and the first part of it otherwise.
  function WatchStream(capacity: nat, at: State, startRV: nat, filter: Filter, now: seq<Event>): Option<seq<Signal>>
    requires at.history <= now
  {
    var live := Select(now[|at.history|..], filter);
    if startRV < at.rv then
      match Replay(Trim(at.history, capacity), startRV)
      case None => None
      case Some(events) => Some(Select(events, filter) + live)
    else
      Some(live)
  }

  lemma {:induction false} SelectConcat(a: seq<Event>, b: seq<Event>, filter: Filter)
    ensures Select(a + b, filter) == Select(a, filter) + Select(b, filter)
    decreases |b|
  {
    if b == [] {
      assert a + b == a;
    } else {
      var n := |b| - 1;
      assert a + b == (a + b[..n]) + [b[n]];
      SelectAppend(a + b[..n], b[n], filter);
      SelectConcat(a, b[..n], filter);
    }
  }

  lemma {:induction false} AboveConcat(a: seq<Event>, b: seq<Event>, rv: nat)
    ensures Above(a + b, rv) == Above(a, rv) + Above(b, rv)
    decreases |b|
  {
    if b == [] {
      assert a + b == a;
    } else {
      var n := |b| - 1;
      assert a + b == (a + b[..n]) + [b[n]];
      AboveAppend(a + b[..n], b[n], rv);
      AboveConcat(a, b[..n], rv);
    }
  }

  lemma {:induction false} AboveAll(events: seq<Event>, rv: nat)
    requires forall i :: 0 <= i < |events| ==> events[i].rv > rv
    ensures Above(events, rv) == events
  {
    if events != [] {
      AboveAll(events[..|events| - 1], rv);
    }
  }

  lemma {:induction false} AboveNone(events: seq<Event>, rv: nat)
    requires forall i :: 0 <= i < |events| ==> events[i].rv <= rv
    ensures Above(events, rv) == []
  {
    if events != [] {
      AboveNone(events[..|events| - 1], rv);
    }
  }
}
