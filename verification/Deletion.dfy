/** Two-phase deletion over whole runs: users, the API server's copy of the pod of one name,
    the informer's cache and the kubelet's passes. */
module Deletion {
  import opened Options
  import opened Strategy
  import Docker
  import PodStatus
  import Reconciler

  type Uid = string

  // A version of the pod. Once it is marked for deletion it has a grace period.
  datatype Copy = Copy(uid: Uid, spec: PodSpec, grace: Option<int>, status: string)

  predicate Marked(p: Copy) {
    p.grace.Some?
  }

  datatype Verdict = Gone | Becomes(copy: Copy) | Stays

  // The registry takes a negative period for one second.
  function Normal(requested: Option<int>): Option<int> {
    if requested.Some? && requested.value < 0 then Some(1) else requested
  }

  // What the generic registry makes of a deletion, given CheckGracefulDelete: a pod that
  // is already marked only has its period shortened, and a period of zero removes it.
  function Decree(p: Copy, asked: Option<int>): Verdict {
    var requested := Normal(asked);
    match p.grace
    case None =>
      var period := Period(requested, p.spec.terminationGrace);
      if period > 0 then Becomes(p.(grace := Some(period))) else Gone
    case Some(grace) =>
      if grace <= 0 || requested == Some(0) then Gone
      else if requested.None? || requested.value >= grace then Stays
      else Becomes(p.(grace := requested))
  }

  // What a terminating pass asked of Docker, and how it took that.
  datatype Work = Work(names: seq<string>, halts: seq<Reconciler.Halt>, calls: seq<Docker.Call>)

  // A pass over a version of the pod that it read from the cache.
  datatype WorkerPass = NoPass | Live(version: nat) | Terminating(version: nat) | Stopped(version: nat, work: Work)

  // history holds every version the name has had, None while there is no pod; the last one
  // is current. cached is the version the informer's cache has.
  datatype State = State(history: seq<Option<Copy>>, used: set<Uid>, cached: nat, pass: WorkerPass)

  datatype Label =
    | UserCreates(uid: Uid, spec: PodSpec)
    | UserUpdates(spec: PodSpec)
    | UserDeletes(requested: Option<int>)
    | CacheMoves(to: nat)
    | PassStarts
    | PassReports(patched: Copy)
    | PassStops(work: Work)
    | PassFails
    | PassDeletes
    | Restart

  const START := State([None], {}, 0, NoPass)

  function Current(s: State): Option<Copy> {
    if s.history == [] then None else s.history[|s.history| - 1]
  }

  // What the kubelet's cache shows.
  function Cached(s: State): Option<Copy> {
    if s.cached < |s.history| then s.history[s.cached] else None
  }

  // The pod as the strategy of the API server sees it, and back.
  function ValueOf(p: Copy): PodValue {
    PodValue(Meta("", "", p.uid, if Marked(p) then Some(0) else None, p.grace), p.spec, p.status)
  }

  function CopyOf(v: PodValue): Copy {
    Copy(v.meta.uid, v.spec, v.meta.deletionGrace, v.status)
  }

  // What is stored when a pod is updated through /status.
  function Prepared(patched: Copy, current: Copy): Copy {
    CopyOf(StatusOnly(ValueOf(patched), ValueOf(current)))
  }

  // The pod as the kubelet sees it.
  function Seen(p: Copy): Reconciler.Pod {
    Reconciler.Pod("", "", p.uid, p.spec.containers, Marked(p), p.grace)
  }

  ghost predicate Enabled(s: State, l: Label) {
    match l
    case UserCreates(uid, _) => Current(s).None? && uid !in s.used
    case UserUpdates(_) => Current(s).Some?
    case UserDeletes(_) => Current(s).Some?
    case CacheMoves(to) => s.cached < to < |s.history|
    case PassStarts => s.pass.NoPass? && Cached(s).Some?
    case PassReports(_) => s.pass.Live?
    case PassStops(work) =>
      && s.pass.Terminating? && Read(s).Some?
      && Reconciler.Terminates(Seen(Read(s).value), work.names, work.halts, [], work.calls)
    case PassFails => !s.pass.NoPass?
    case PassDeletes => s.pass.Stopped? && |s.pass.work.halts| == |s.pass.work.names|
    case Restart => |s.history| > 0
  }

  // The version a pass works from.
  function Read(s: State): Option<Copy> {
    if !s.pass.NoPass? && s.pass.version < |s.history| then s.history[s.pass.version] else None
  }

  function Write(s: State, version: Option<Copy>): State {
    s.(history := s.history + [version])
  }

  function Deleted(s: State, requested: Option<int>): State
    requires Current(s).Some?
  {
    match Decree(Current(s).value, requested)
    case Gone => Write(s, None)
    case Becomes(p) => Write(s, Some(p))
    case Stays => s
  }

  function Do(s: State, l: Label): State
    requires Enabled(s, l)
  {
    match l
    case UserCreates(uid, spec) => Write(s, Some(Copy(uid, spec, None, ""))).(used := s.used + {uid})
    case UserUpdates(spec) => Write(s, Some(Current(s).value.(spec := spec)))
    case UserDeletes(requested) => Deleted(s, requested)
    case CacheMoves(to) => s.(cached := to)
    case PassStarts =>
      s.(pass := if Marked(Cached(s).value) then Terminating(s.cached) else Live(s.cached))
    case PassReports(patched) =>
      // A patch through /status, by name, whatever it makes of the pod; without one it is dropped.
      (if Current(s).Some? then Write(s, Some(Prepared(patched, Current(s).value))) else s).(pass := NoPass)
    case PassStops(work) => s.(pass := Stopped(s.pass.version, work))
    case PassFails => s.(pass := NoPass)
    case PassDeletes =>
      // A deletion with period zero, by name; without a pod it is done already.
      (if Current(s).Some? then Deleted(s, Some(0)) else s).(pass := NoPass)
    case Restart => s.(cached := |s.history| - 1, pass := NoPass)
  }

  ghost predicate IsRun(run: seq<State>, labels: seq<Label>) {
    && |run| == |labels| + 1 && run[0] == START
    && forall i :: 0 <= i < |labels| ==> Enabled(run[i], labels[i]) && run[i + 1] == Do(run[i], labels[i])
  }

  // --- The history of a pod ---

  // The same pod later: once marked it stays so, with at most the same period.
  predicate Follows(p: Option<Copy>, q: Option<Copy>) {
    p.Some? && q.Some? && p.value.uid == q.value.uid && Marked(p.value) ==>
      Marked(q.value) && q.value.grace.value <= p.value.grace.value
  }

  ghost predicate Ordered(history: seq<Option<Copy>>) {
    forall i, j :: 0 <= i <= j < |history| ==> Follows(history[i], history[j])
  }

  ghost predicate Used(history: seq<Option<Copy>>, used: set<Uid>) {
    forall i :: 0 <= i < |history| && history[i].Some? ==> history[i].value.uid in used
  }

  // Between two versions of one pod the name always has that pod, and it changes hands
  // only by way of having none.
  ghost predicate Unbroken(history: seq<Option<Copy>>) {
    && (forall k :: 0 < k < |history| && history[k - 1].Some? && history[k].Some? ==>
          history[k - 1].value.uid == history[k].value.uid)
    && (forall i, k, j :: 0 <= i <= k <= j < |history| && SamePod(history[i], history[j]) ==> history[k].Some?)
  }

  predicate SamePod(p: Option<Copy>, q: Option<Copy>) {
    p.Some? && q.Some? && p.value.uid == q.value.uid
  }

  ghost predicate Inv(s: State) {
    && s.history != [] && s.cached < |s.history|
    && Ordered(s.history) && Unbroken(s.history) && Used(s.history, s.used)
    && (!s.pass.NoPass? ==>
          s.pass.version <= s.cached && Read(s).Some? && Marked(Read(s).value) == !s.pass.Live?)
    && (s.pass.Stopped? ==>
          Reconciler.Terminates(Seen(Read(s).value), s.pass.work.names, s.pass.work.halts, [], s.pass.work.calls))
  }

  // A version that may come next: of the same pod, of a fresh one if there is none, or none.
  predicate Next(s: State, v: Option<Copy>) {
    || v.None?
    || (Current(s).None? && v.value.uid !in s.used)
    || (SamePod(Current(s), v) && Follows(Current(s), v))
  }

  lemma WriteKeepsOrder(s: State, v: Option<Copy>)
    requires s.history != [] && Ordered(s.history) && Used(s.history, s.used) && Next(s, v)
    ensures Ordered(Write(s, v).history)
  {
    var h := Write(s, v).history;
    var n := |s.history|;
    forall i, j | 0 <= i <= j < |h| ensures Follows(h[i], h[j]) {
      if j < n {
        assert Follows(s.history[i], s.history[j]);
      } else if i < n {
        assert Follows(s.history[i], s.history[n - 1]);
      }
    }
  }

  lemma WriteKeepsUnbroken(s: State, v: Option<Copy>)
    requires s.history != [] && Unbroken(s.history) && Used(s.history, s.used) && Next(s, v)
    ensures Unbroken(Write(s, v).history)
  {
    var h := Write(s, v).history;
    var n := |s.history|;
    forall i, k, j | 0 <= i <= k <= j < |h| && SamePod(h[i], h[j]) ensures h[k].Some? {
      if j < n {
        assert SamePod(s.history[i], s.history[j]);
      } else if k < n {
        assert SamePod(s.history[i], s.history[n - 1]);
      }
    }
  }

  lemma DecreeFollows(p: Copy, requested: Option<int>)
    ensures Decree(p, requested).Becomes? ==>
              Decree(p, requested).copy.uid == p.uid && Follows(Some(p), Some(Decree(p, requested).copy))
  {
  }

  lemma WriteKept(s: State, v: Option<Copy>)
    requires Inv(s) && Next(s, v)
    ensures Ordered(Write(s, v).history) && Unbroken(Write(s, v).history)
  {
    WriteKeepsOrder(s, v);
    WriteKeepsUnbroken(s, v);
  }

  lemma DeletedKept(s: State, requested: Option<int>)
    requires Inv(s) && Current(s).Some?
    ensures Ordered(Deleted(s, requested).history) && Unbroken(Deleted(s, requested).history)
  {
    DecreeFollows(Current(s).value, requested);
    match Decree(Current(s).value, requested) {
      case Gone => WriteKept(s, None);
      case Becomes(p) => WriteKept(s, Some(p));
      case Stays =>
    }
  }

  lemma InvKept(s: State, l: Label)
    requires Inv(s) && Enabled(s, l)
    ensures Inv(Do(s, l))
  {
    match l {
      case UserCreates(uid, spec) => WriteKept(s, Some(Copy(uid, spec, None, "")));
      case UserUpdates(spec) => WriteKept(s, Some(Current(s).value.(spec := spec)));
      case UserDeletes(requested) => DeletedKept(s, requested);
      case PassReports(patched) =>
        if Current(s).Some? { WriteKept(s, Some(Prepared(patched, Current(s).value))); }
      case PassDeletes => if Current(s).Some? { DeletedKept(s, Some(0)); }
      case _ =>
    }
  }

  lemma {:induction false} RunInv(run: seq<State>, labels: seq<Label>, i: nat)
    requires IsRun(run, labels) && i < |run|
    ensures Inv(run[i])
    decreases i
  {
    if i > 0 {
      RunInv(run, labels, i - 1);
      InvKept(run[i - 1], labels[i - 1]);
    }
  }

  lemma StepGrows(s: State, l: Label)
    requires Inv(s) && Enabled(s, l)
    ensures Grows(s, Do(s, l))
  {
  }

  predicate Grows(s: State, t: State) {
    s.history <= t.history && s.cached <= t.cached
  }

  lemma {:induction false} GrowsThrough(run: seq<State>, i: nat, j: nat)
    requires i <= j < |run| && forall k :: 0 < k < |run| ==> Grows(run[k - 1], run[k])
    ensures Grows(run[i], run[j])
    decreases j
  {
    if i < j {
      GrowsThrough(run, i, j - 1);
    }
  }

  lemma OnlyGrows(run: seq<State>, labels: seq<Label>, i: nat, j: nat)
    requires IsRun(run, labels) && i <= j < |run|
    ensures Grows(run[i], run[j])
  {
    forall k | 0 < k < |run| ensures Grows(run[k - 1], run[k]) {
      RunInv(run, labels, k - 1);
      StepGrows(run[k - 1], labels[k - 1]);
    }
    GrowsThrough(run, i, j);
  }

  // --- Main results ---

  // Nothing unmarks a pod: no status patch, no update and no further deletion, in any run.
  lemma MarkStays(run: seq<State>, labels: seq<Label>, i: nat, j: nat)
    requires IsRun(run, labels) && i <= j < |run|
    requires Current(run[i]).Some? && Current(run[j]).Some?
    requires Current(run[i]).value.uid == Current(run[j]).value.uid && Marked(Current(run[i]).value)
    ensures Marked(Current(run[j]).value) && Current(run[j]).value.grace.value <= Current(run[i]).value.grace.value
  {
    RunInv(run, labels, i);
    RunInv(run, labels, j);
    OnlyGrows(run, labels, i, j);
    assert Follows(run[j].history[|run[i].history| - 1], run[j].history[|run[j].history| - 1]);
  }

  // Once the cache has the mark, every later pass over the pod is a terminating one.
  lemma LaterPassesTerminate(run: seq<State>, labels: seq<Label>, i: nat, j: nat)
    requires IsRun(run, labels) && i <= j < |labels| && labels[j].PassStarts?
    requires SamePod(Cached(run[i]), Cached(run[j])) && Marked(Cached(run[i]).value)
    ensures run[j + 1].pass == Terminating(run[j].cached)
  {
    RunInv(run, labels, j);
    OnlyGrows(run, labels, i, j);
    assert Follows(run[j].history[run[i].cached], run[j].history[run[j].cached]);
  }

  // The kubelet's deletion comes after its pass found every container of the version it
  // read absent or asked Docker to stop it, with the period of the mark, the last one of the
  // spec first. That version was marked, and so is the pod it removes if it is still the
  // same pod.
  lemma DeletesOnlyWhenHandled(run: seq<State>, labels: seq<Label>, i: nat)
    requires IsRun(run, labels) && i < |labels| && labels[i].PassDeletes?
    ensures var s := run[i];
            && s.pass.Stopped? && Read(s).Some?
            && (var p := Read(s).value;
                && Marked(p)
                && (|p.spec.containers| > 0 ==>
                      Reconciler.HandledInReverse(Reconciler.NamesOf(p.uid, p.spec.containers),
                                                  Reconciler.Seconds(p.grace.value), s.pass.work.calls))
                && (|p.spec.containers| > 0 && -9_223_372_036 <= p.grace.value <= 9_223_372_036 ==>
                      Reconciler.HandledInReverse(Reconciler.NamesOf(p.uid, p.spec.containers),
                                                  p.grace.value * 1_000_000_000, s.pass.work.calls))
                && (Current(s).Some? && Current(s).value.uid == p.uid ==> Marked(Current(s).value)))
  {
    RunInv(run, labels, i);
    var s := run[i];
    assert Follows(s.history[s.pass.version], s.history[|s.history| - 1]);
    var p := Read(s).value;
    if |p.spec.containers| > 0 {
      Reconciler.TerminatesInReverse(Seen(p), s.pass.work.names, s.pass.work.halts, [], s.pass.work.calls);
      Reconciler.SecondsExact(p.grace.value);
      assert s.pass.work.calls[0..] == s.pass.work.calls;
    }
  }

  // A deletion that removes the pod at once.
  predicate Forces(p: Copy, requested: Option<int>) {
    if Marked(p) then requested == Some(0) || p.grace.value <= 0
    else requested == Some(0) || (requested.None? && p.spec.terminationGrace.Some? && p.spec.terminationGrace.value <= 0)
  }

  // A pod is only ever removed by the kubelet's deletion or by a user's forced one. The first
  // unforced deletion marks it with the period asked for, one second if that is negative, else
  // with its own, else with 30 seconds. Later ones only shorten the period.
  lemma RemovedBy(run: seq<State>, labels: seq<Label>, i: nat)
    requires IsRun(run, labels) && i < |labels| && Current(run[i]).Some?
    ensures Current(run[i + 1]).None? <==>
              labels[i].PassDeletes? || (labels[i].UserDeletes? && Forces(Current(run[i]).value, labels[i].requested))
    ensures labels[i].UserDeletes? && Current(run[i + 1]).Some? ==>
              var asked, p, q := labels[i].requested, Current(run[i]).value, Current(run[i + 1]).value;
              q == p.(grace := Some(
                if Marked(p) then (if asked.Some? && asked.value < 0 then (if p.grace.value > 1 then 1 else p.grace.value)
                                   else if asked.Some? && asked.value < p.grace.value then asked.value else p.grace.value)
                else if asked.Some? then (if asked.value < 0 then 1 else asked.value)
                else if p.spec.terminationGrace.Some? then p.spec.terminationGrace.value else 30))
  {
    RunInv(run, labels, i);
  }

  lemma {:induction false} Held(history: seq<Option<Copy>>, i: nat, j: nat)
    requires Unbroken(history) && i <= j < |history|
    requires forall k :: i <= k <= j ==> history[k].Some?
    ensures history[i].value.uid == history[j].value.uid
    decreases j
  {
    if i < j {
      Held(history, i, j - 1);
    }
  }

  // The deletion goes by name. It removes the pod the pass read exactly when the name has
  // not been without a pod since that version.
  lemma RemovesItsOwnPodIff(run: seq<State>, labels: seq<Label>, i: nat)
    requires IsRun(run, labels) && i < |labels| && labels[i].PassDeletes? && Current(run[i]).Some?
    ensures var s := run[i];
            && Current(run[i + 1]).None? && s.pass.version < |s.history|
            && (SamePod(s.history[s.pass.version], Current(s)) <==>
                forall k :: s.pass.version <= k < |s.history| ==> s.history[k].Some?)
  {
    RunInv(run, labels, i);
    RemovedBy(run, labels, i);
    var s := run[i];
    var n := |s.history| - 1;
    if forall k :: s.pass.version <= k <= n ==> s.history[k].Some? {
      Held(s.history, s.pass.version, n);
    } else {
      var k :| s.pass.version <= k <= n && s.history[k].None?;
      assert !SamePod(s.history[s.pass.version], s.history[n]);
    }
  }

  lemma Extended(run: seq<State>, labels: seq<Label>, l: Label, s: State) returns (run': seq<State>, labels': seq<Label>)
    requires IsRun(run, labels) && Enabled(run[|labels|], l) && s == Do(run[|labels|], l)
    ensures run' == run + [s] && labels' == labels + [l] && IsRun(run', labels') && run'[|labels'|] == s
  {
    run', labels' := run + [s], labels + [l];
  }

  predicate UserForces(l: Label) {
    l.UserDeletes? && l.requested == Some(0)
  }

  // A pod with one container, before and after it is marked.
  const SPEC: PodSpec := PodSpec([PodStatus.Container("main", "image")], None)

  function Fresh(uid: Uid): Option<Copy> {
    Some(Copy(uid, SPEC, None, ""))
  }

  function Doomed(uid: Uid): Option<Copy> {
    Some(Copy(uid, SPEC, Some(30), ""))
  }

  lemma MarkedPod(first: Uid) returns (run: seq<State>, labels: seq<Label>)
    ensures IsRun(run, labels) && forall i :: 0 <= i < |labels| ==> !UserForces(labels[i])
    ensures run[|labels|] == State([None, Fresh(first), Doomed(first)], {first}, 2, NoPass)
  {
    run, labels := [START], [];
    assert START.used + {first} == {first};
    run, labels := Extended(run, labels, UserCreates(first, SPEC), State([None, Fresh(first)], {first}, 0, NoPass));
    assert [None, Fresh(first)] + [Doomed(first)] == [None, Fresh(first), Doomed(first)];
    assert Decree(Fresh(first).value, None) == Becomes(Doomed(first).value);
    run, labels := Extended(run, labels, UserDeletes(None), State([None, Fresh(first), Doomed(first)], {first}, 0, NoPass));
    run, labels := Extended(run, labels, CacheMoves(2), State([None, Fresh(first), Doomed(first)], {first}, 2, NoPass));
  }

  // What a terminating pass finds when the container is gone already.
  function Nothing(uid: Uid): Work {
    var name := Reconciler.ContainerName(uid, "main");
    Work([name], [Reconciler.Gone], [Docker.Inspected(name, Docker.Absent)])
  }

  lemma NothingLeft(uid: Uid)
    ensures Reconciler.Terminates(Seen(Doomed(uid).value), Nothing(uid).names, Nothing(uid).halts, [], Nothing(uid).calls)
  {
    var work, cs := Nothing(uid), SPEC.containers;
    assert cs[..0] == [];
    assert Reconciler.NamesOf(uid, cs) == work.names;
    assert work.halts[..0] == [];
    assert Reconciler.HaltTrace(work.names, 30, work.halts[..0]) == [];
  }

  lemma StopsNothing(s: State, uid: Uid)
    requires s.pass.Terminating? && Read(s) == Doomed(uid)
    ensures Enabled(s, PassStops(Nothing(uid)))
  {
    NothingLeft(uid);
  }

  // A terminating pass up to its deletion, from a cache that holds the marked pod.
  lemma HandledPass(run: seq<State>, labels: seq<Label>, first: Uid) returns (run': seq<State>, labels': seq<Label>)
    requires IsRun(run, labels) && forall i :: 0 <= i < |labels| ==> !UserForces(labels[i])
    requires run[|labels|].pass.NoPass? && Cached(run[|labels|]) == Doomed(first)
    ensures IsRun(run', labels') && forall i :: 0 <= i < |labels'| ==> !UserForces(labels'[i])
    ensures run'[|labels'|] == run[|labels|].(pass := Stopped(run[|labels|].cached, Nothing(first)))
  {
    var s := run[|labels|];
    var t := s.(pass := Terminating(s.cached));
    run', labels' := Extended(run, labels, PassStarts, t);
    StopsNothing(t, first);
    run', labels' := Extended(run', labels', PassStops(Nothing(first)), s.(pass := Stopped(s.cached, Nothing(first))));
  }

  // Otherwise it removes another pod. A pod is marked and removed by the kubelet; the cache
  // lags, so a second pass reads the mark; meanwhile a new pod takes the name; the second
  // pass removes it though it was never marked, and no user forced anything.
  lemma StalePassRemovesSuccessor(first: Uid, second: Uid) returns (run: seq<State>, labels: seq<Label>)
    requires first != second
    ensures IsRun(run, labels) && forall i :: 0 <= i < |labels| ==> !UserForces(labels[i])
    ensures var n := |labels| - 1;
            n > 0 && labels[n].PassDeletes? && Current(run[n]) == Fresh(second) && Current(run[n + 1]).None?
  {
    run, labels := MarkedPod(first);
    run, labels := HandledPass(run, labels, first);
    var h := [None, Fresh(first), Doomed(first), None];
    assert h == run[|labels|].history + [None];
    run, labels := Extended(run, labels, PassDeletes, State(h, {first}, 2, NoPass));
    run, labels := HandledPass(run, labels, first);
    var t := run[|labels|];
    var u := t.(history := h + [Fresh(second)], used := {first, second});
    assert t.used + {second} == u.used;
    run, labels := Extended(run, labels, UserCreates(second, SPEC), u);
    run, labels := Extended(run, labels, PassDeletes, u.(history := u.history + [None], pass := NoPass));
  }
}
