/** The status kubelet-lite reports for a pod, from what Docker says of its containers. */
module PodStatus {
  import opened Options

  // Instants, counted from Go's zero time.
  type Time = int
  const ZERO_TIME: Time := 0

  const PLACEHOLDER_POD_IP := "10.0.0.1"
  const PLACEHOLDER_HOST_IP := "127.0.0.1"

  // A container of a pod's spec.
  datatype Container = Container(name: string, image: string)

  // What inspecting a Docker container shows.
  datatype View = View(
    id: string, image: string, imageId: string, running: bool,
    startedAt: Time, finishedAt: Time, exitCode: int, oomKilled: bool)

  // By name in the pod's spec; a container without an entry was not created yet.
  type Views = map<string, View>

  datatype Phase = Pending | Running | Succeeded | Failed

  datatype ContainerState =
    | Waiting(reason: string)
    | Live(startedAt: Time)
    | Terminated(exitCode: int, reason: string, startedAt: Time, finishedAt: Time, containerId: string)

  datatype ContainerStatus = ContainerStatus(
    name: string, image: string, imageId: string, containerId: string, ready: bool, state: ContainerState)

  datatype Message = NoMessage | OutOfMemory(container: string, exitCode: int) | ExitedWith(container: string, exitCode: int)
                   | Because(text: string)

  datatype Status = Status(
    phase: Phase, reason: string, message: Message, hostIP: string, podIP: string,
    startTime: Option<Time>, containers: seq<ContainerStatus>)

  // Conversion to a 32-bit signed integer.
  function Int32(n: int): (r: int)
    ensures -0x8000_0000 <= r < 0x8000_0000 && (n - r) % 0x1_0000_0000 == 0
    ensures -0x8000_0000 <= n < 0x8000_0000 ==> r == n
  {
    (n + 0x8000_0000) % 0x1_0000_0000 - 0x8000_0000
  }

  // --- What a status must say ---

  datatype Standing = Missing | Alive | Completed | Broken

  function StandingOf(views: Views, name: string): Standing {
    if name !in views then Missing
    else if views[name].running then Alive
    else if views[name].exitCode != 0 || views[name].oomKilled then Broken
    else Completed
  }

  ghost predicate Has(cs: seq<Container>, views: Views, st: Standing) {
    exists i :: 0 <= i < |cs| && StandingOf(views, cs[i].name) == st
  }

  // A failed container decides, then a missing one, then a running one.
  ghost function PhaseOf(cs: seq<Container>, views: Views): Phase {
    if Has(cs, views, Broken) then Failed
    else if Has(cs, views, Missing) then Pending
    else if Has(cs, views, Alive) then Running
    else Succeeded
  }

  // When a container counts as started: a running one without a start time started now.
  function StartOf(views: Views, name: string, now: Time): Option<Time> {
    if name !in views then None
    else if views[name].startedAt != ZERO_TIME then Some(views[name].startedAt)
    else if views[name].running then Some(now)
    else None
  }

  ghost predicate EarliestStart(cs: seq<Container>, views: Views, now: Time, start: Option<Time>) {
    match start
    case None => forall i :: 0 <= i < |cs| ==> StartOf(views, cs[i].name, now).None?
    case Some(t) =>
      && (exists i :: 0 <= i < |cs| && StartOf(views, cs[i].name, now) == start)
      && (forall i :: 0 <= i < |cs| ==>
            var other := StartOf(views, cs[i].name, now);
            other.Some? ==> t <= other.value)
  }

  function FailureOf(v: View, name: string): Message {
    if v.oomKilled then OutOfMemory(name, v.exitCode) else ExitedWith(name, v.exitCode)
  }

  // The message of a failed pod is about the last failed container in spec order.
  ghost predicate MessageFits(cs: seq<Container>, views: Views, message: Message) {
    if Has(cs, views, Broken)
    then exists i :: 0 <= i < |cs| && IsLastBroken(cs, views, i) && message == FailureOf(views[cs[i].name], cs[i].name)
    else message == NoMessage
  }

  ghost predicate IsLastBroken(cs: seq<Container>, views: Views, i: int)
    requires 0 <= i < |cs|
  {
    StandingOf(views, cs[i].name) == Broken && forall j :: i < j < |cs| ==> StandingOf(views, cs[j].name) != Broken
  }

  ghost predicate StatusFits(c: Container, views: Views, now: Time, cs: ContainerStatus) {
    && cs.name == c.name
    && cs.ready == (StandingOf(views, c.name) == Alive)
    && (if c.name in views then
          var v := views[c.name];
          && cs.image == v.image && cs.imageId == v.imageId && cs.containerId == "docker://" + v.id
          && (if v.running then cs.state == Live(if v.startedAt == ZERO_TIME then now else v.startedAt)
              else
                && cs.state.Terminated? && cs.state.exitCode == Int32(v.exitCode)
                && cs.state.startedAt == v.startedAt
                && cs.state.finishedAt == (if v.finishedAt == ZERO_TIME then now else v.finishedAt)
                && cs.state.containerId == cs.containerId
                && (cs.state.reason == "Completed" <==> StandingOf(views, c.name) == Completed)
                && (cs.state.reason == "OOMKilled" <==> v.oomKilled)
                && (cs.state.reason == "Error" <==> v.exitCode != 0 && !v.oomKilled))
        else
          && cs.image == c.image && cs.imageId == "" && cs.containerId == ""
          && cs.state == Waiting("ContainerCreating"))
  }

  ghost predicate Reports(cs: seq<Container>, views: Views, now: Time, status: Status) {
    && status.phase == PhaseOf(cs, views)
    && status.reason == "" && MessageFits(cs, views, status.message)
    && status.hostIP == PLACEHOLDER_HOST_IP && status.podIP == PLACEHOLDER_POD_IP
    && EarliestStart(cs, views, now, status.startTime)
    && StatusesFit(cs, views, now, status.containers)
  }

  ghost predicate StatusesFit(cs: seq<Container>, views: Views, now: Time, statuses: seq<ContainerStatus>) {
    |statuses| == |cs| && forall i :: 0 <= i < |cs| ==> StatusFits(cs[i], views, now, statuses[i])
  }

  // --- The flag loop ---

  method ContainerStatusOf(c: Container, views: Views, now: Time) returns (s: ContainerStatus)
    ensures StatusFits(c, views, now, s)
  {
    s := ContainerStatus(c.name, c.image, "", "", false, Waiting("ContainerCreating"));
    if c.name in views {
      var v := views[c.name];
      if v.running {
        var started := v.startedAt;
        if started == ZERO_TIME {
          started := now;
        }
        s := s.(state := Live(started), ready := true);
      } else {
        var reason := "Completed";
        if v.exitCode != 0 {
          reason := "Error";
        }
        if v.oomKilled {
          reason := "OOMKilled";
        }
        var fin := v.finishedAt;
        if fin == ZERO_TIME {
          fin := now;
        }
        s := s.(state := Terminated(Int32(v.exitCode), reason, v.startedAt, fin, "docker://" + v.id), ready := false);
      }
      s := s.(image := v.image, imageId := v.imageId, containerId := "docker://" + v.id);
    }
  }

  function Nonzero(t: Time): Option<Time> {
    if t == ZERO_TIME then None else Some(t)
  }

  // The loop's variables, for the containers seen so far.
  datatype Tally = Tally(anyMissing: bool, anyRunning: bool, anyFailed: bool, failMessage: Message, earliestStart: Time)

  ghost predicate Counts(cs: seq<Container>, views: Views, now: Time, t: Tally) {
    && (t.anyMissing <==> Has(cs, views, Missing))
    && (t.anyRunning <==> Has(cs, views, Alive))
    && (t.anyFailed <==> Has(cs, views, Broken))
    && MessageFits(cs, views, t.failMessage)
    && EarliestStart(cs, views, now, Nonzero(t.earliestStart))
  }

  lemma CountsAppend(cs: seq<Container>, c: Container, views: Views, now: Time, t: Tally, t': Tally)
    requires Counts(cs, views, now, t)
    requires var st := StandingOf(views, c.name);
             && t'.anyMissing == (t.anyMissing || st.Missing?) && t'.anyRunning == (t.anyRunning || st.Alive?)
             && t'.anyFailed == (t.anyFailed || st.Broken?)
             && t'.failMessage == (if st.Broken? then FailureOf(views[c.name], c.name) else t.failMessage)
    requires Nonzero(t'.earliestStart) == Earlier(Nonzero(t.earliestStart), StartOf(views, c.name, now))
    ensures Counts(cs + [c], views, now, t')
  {
    HasAppend(cs, c, views, Missing);
    HasAppend(cs, c, views, Alive);
    HasAppend(cs, c, views, Broken);
    MessageAppend(cs, c, views, t.failMessage);
    StartAppend(cs, c, views, now, Nonzero(t.earliestStart));
  }

  lemma CountsReport(cs: seq<Container>, views: Views, now: Time, t: Tally, s: Status)
    requires Counts(cs, views, now, t) && StatusesFit(cs, views, now, s.containers)
    requires s.reason == "" && s.hostIP == PLACEHOLDER_HOST_IP && s.podIP == PLACEHOLDER_POD_IP
    requires s.phase == if t.anyFailed then Failed else if t.anyMissing then Pending else if t.anyRunning then Running else Succeeded
    requires s.message == (if t.anyFailed then t.failMessage else NoMessage) && s.startTime == Nonzero(t.earliestStart)
    ensures Reports(cs, views, now, s)
  {
  }

  method PodStatusFromViews(cs: seq<Container>, views: Views, now: Time) returns (status: Status)
    requires now > ZERO_TIME
    ensures Reports(cs, views, now, status)
  {
    var anyMissing, anyRunning, anyFailed, allTerminated := false, false, false, true;
    var earliestStart, failMessage := ZERO_TIME, NoMessage;
    var statuses: seq<ContainerStatus> := [];
    for k := 0 to |cs|
      invariant allTerminated <==> !anyMissing && !anyRunning
      invariant Counts(cs[..k], views, now, Tally(anyMissing, anyRunning, anyFailed, failMessage, earliestStart))
      invariant StatusesFit(cs[..k], views, now, statuses)
    {
      var c := cs[k];
      ghost var before := Tally(anyMissing, anyRunning, anyFailed, failMessage, earliestStart);
      var s := ContainerStatusOf(c, views, now);
      StatusesAppend(cs[..k], c, views, now, statuses, s);
      statuses := statuses + [s];
      if c.name !in views {
        anyMissing, allTerminated := true, false;
      } else if views[c.name].running {
        var started := views[c.name].startedAt;
        if started == ZERO_TIME {
          started := now;
        }
        anyRunning, allTerminated := true, false;
        if earliestStart == ZERO_TIME || started < earliestStart {
          earliestStart := started;
        }
      } else {
        var v := views[c.name];
        if v.exitCode != 0 || v.oomKilled {
          anyFailed := true;
          if v.oomKilled {
            failMessage := OutOfMemory(c.name, v.exitCode);
          } else {
            failMessage := ExitedWith(c.name, v.exitCode);
          }
        }
        if v.startedAt != ZERO_TIME && (earliestStart == ZERO_TIME || v.startedAt < earliestStart) {
          earliestStart := v.startedAt;
        }
      }
      assert cs[..k + 1] == cs[..k] + [c];
      CountsAppend(cs[..k], c, views, now, before, Tally(anyMissing, anyRunning, anyFailed, failMessage, earliestStart));
    }
    assert cs[..|cs|] == cs;
    var phase, message := Pending, NoMessage;
    if anyFailed {
      phase, message := Failed, failMessage;
    } else if anyMissing {
      phase := Pending;
    } else if anyRunning {
      phase := Running;
    } else if allTerminated {
      phase := Succeeded;
    } else {
      assert false;
    }
    status := Status(phase, "", message, PLACEHOLDER_HOST_IP, PLACEHOLDER_POD_IP, Nonzero(earliestStart), statuses);
    CountsReport(cs, views, now, Tally(anyMissing, anyRunning, anyFailed, failMessage, earliestStart), status);
  }

  lemma StatusesAppend(cs: seq<Container>, c: Container, views: Views, now: Time,
                       statuses: seq<ContainerStatus>, s: ContainerStatus)
    requires StatusesFit(cs, views, now, statuses) && StatusFits(c, views, now, s)
    ensures StatusesFit(cs + [c], views, now, statuses + [s])
  {
  }

  lemma HasAppend(cs: seq<Container>, c: Container, views: Views, st: Standing)
    ensures Has(cs + [c], views, st) <==> Has(cs, views, st) || StandingOf(views, c.name) == st
  {
    var all := cs + [c];
    assert all[|cs|] == c && forall i :: 0 <= i < |cs| ==> all[i] == cs[i];
    if Has(cs, views, st) {
      var i :| 0 <= i < |cs| && StandingOf(views, cs[i].name) == st;
      assert StandingOf(views, all[i].name) == st;
    } else if StandingOf(views, c.name) == st {
      assert StandingOf(views, all[|cs|].name) == st;
    }
  }

  lemma MessageAppend(cs: seq<Container>, c: Container, views: Views, message: Message)
    requires MessageFits(cs, views, message)
    ensures MessageFits(cs + [c], views,
                        if StandingOf(views, c.name) == Broken then FailureOf(views[c.name], c.name) else message)
  {
    var all := cs + [c];
    HasAppend(cs, c, views, Broken);
    if StandingOf(views, c.name) == Broken {
      assert all[|cs|] == c && IsLastBroken(all, views, |cs|);
    } else if Has(cs, views, Broken) {
      var i :| 0 <= i < |cs| && IsLastBroken(cs, views, i) && message == FailureOf(views[cs[i].name], cs[i].name);
      assert all[i] == cs[i] && IsLastBroken(all, views, i);
    }
  }

  function Earlier(a: Option<Time>, b: Option<Time>): Option<Time> {
    if a.None? then b else if b.None? || a.value <= b.value then a else b
  }

  lemma StartAppend(cs: seq<Container>, c: Container, views: Views, now: Time, start: Option<Time>)
    requires EarliestStart(cs, views, now, start)
    ensures EarliestStart(cs + [c], views, now, Earlier(start, StartOf(views, c.name, now)))
  {
    var all := cs + [c];
    assert all[|cs|] == c && forall i :: 0 <= i < |cs| ==> all[i] == cs[i];
  }

  // --- What follows from reporting ---

  // The contract leaves no freedom: views, spec and clock determine the status.
  lemma ReportsDetermine(cs: seq<Container>, views: Views, now: Time, a: Status, b: Status)
    requires Reports(cs, views, now, a) && Reports(cs, views, now, b)
    ensures a == b
  {
    forall i | 0 <= i < |cs| ensures a.containers[i] == b.containers[i] {
      assert StatusFits(cs[i], views, now, a.containers[i]) && StatusFits(cs[i], views, now, b.containers[i]);
    }
    if Has(cs, views, Broken) {
      var i :| 0 <= i < |cs| && IsLastBroken(cs, views, i) && a.message == FailureOf(views[cs[i].name], cs[i].name);
      var j :| 0 <= j < |cs| && IsLastBroken(cs, views, j) && b.message == FailureOf(views[cs[j].name], cs[j].name);
      assert i == j;
    }
  }

  // The phase and the start time do not depend on the order of the containers.
  lemma OrderIndependent(cs: seq<Container>, ds: seq<Container>, views: Views, now: Time, a: Status, b: Status)
    requires multiset(cs) == multiset(ds)
    requires Reports(cs, views, now, a) && Reports(ds, views, now, b)
    ensures a.phase == b.phase && a.startTime == b.startTime
  {
    HasRearranged(cs, ds, views);
    HasRearranged(ds, cs, views);
    StartRearranged(cs, ds, views, now, a.startTime);
    StartUnique(ds, views, now, a.startTime, b.startTime);
  }

  lemma Elsewhere(cs: seq<Container>, ds: seq<Container>, i: nat) returns (j: nat)
    requires multiset(cs) == multiset(ds) && i < |cs|
    ensures j < |ds| && ds[j] == cs[i]
  {
    assert cs[i] in multiset(ds);
    j :| j < |ds| && ds[j] == cs[i];
  }

  lemma HasRearranged(cs: seq<Container>, ds: seq<Container>, views: Views)
    requires multiset(cs) == multiset(ds)
    ensures forall st :: Has(cs, views, st) ==> Has(ds, views, st)
  {
    forall st | Has(cs, views, st) ensures Has(ds, views, st) {
      var i :| 0 <= i < |cs| && StandingOf(views, cs[i].name) == st;
      var j := Elsewhere(cs, ds, i);
    }
  }

  lemma StartRearranged(cs: seq<Container>, ds: seq<Container>, views: Views, now: Time, start: Option<Time>)
    requires multiset(cs) == multiset(ds) && EarliestStart(cs, views, now, start)
    ensures EarliestStart(ds, views, now, start)
  {
    if start.Some? {
      var i :| 0 <= i < |cs| && StartOf(views, cs[i].name, now) == start;
      var j := Elsewhere(cs, ds, i);
    }
    forall j | 0 <= j < |ds| ensures exists i :: 0 <= i < |cs| && cs[i] == ds[j] {
      var i := Elsewhere(ds, cs, j);
    }
  }

  lemma StartUnique(cs: seq<Container>, views: Views, now: Time, a: Option<Time>, b: Option<Time>)
    requires EarliestStart(cs, views, now, a) && EarliestStart(cs, views, now, b)
    ensures a == b
  {
  }

  // The phase is Succeeded exactly when every container has completed, Running exactly
  // when every container was created, none failed and one still runs.
  lemma PhaseMeaning(cs: seq<Container>, views: Views)
    ensures PhaseOf(cs, views) == Succeeded <==>
              forall i :: 0 <= i < |cs| ==> StandingOf(views, cs[i].name) == Completed
    ensures PhaseOf(cs, views) == Running <==>
              && (exists i :: 0 <= i < |cs| && StandingOf(views, cs[i].name) == Alive)
              && (forall i :: 0 <= i < |cs| ==> StandingOf(views, cs[i].name).Alive? || StandingOf(views, cs[i].name).Completed?)
  {
    forall i | 0 <= i < |cs| ensures Has(cs, views, StandingOf(views, cs[i].name)) {
    }
  }

  // An exit with another code than 0, or for lack of memory.
  predicate HasFailed(views: Views, name: string) {
    name in views && !views[name].running && (views[name].exitCode != 0 || views[name].oomKilled)
  }

  // The phase, in terms of what Docker shows of the containers.
  lemma PhaseReported(cs: seq<Container>, views: Views, now: Time, s: Status)
    requires Reports(cs, views, now, s)
    ensures s.phase == Failed <==> exists i :: 0 <= i < |cs| && HasFailed(views, cs[i].name)
    ensures s.phase == Pending <==>
              && (forall i :: 0 <= i < |cs| ==> !HasFailed(views, cs[i].name))
              && (exists i :: 0 <= i < |cs| && cs[i].name !in views)
    ensures s.phase == Succeeded <==>
              forall i :: 0 <= i < |cs| ==> cs[i].name in views && !views[cs[i].name].running && !HasFailed(views, cs[i].name)
  {
    forall i | 0 <= i < |cs| ensures Has(cs, views, StandingOf(views, cs[i].name)) {
    }
    if s.phase == Failed {
      var i :| 0 <= i < |cs| && StandingOf(views, cs[i].name) == Broken;
      assert HasFailed(views, cs[i].name);
    }
  }

  // The message says of the last container that failed whether it ran out of memory, and its
  // exit code.
  lemma MessageReported(cs: seq<Container>, views: Views, now: Time, s: Status, i: nat)
    requires Reports(cs, views, now, s) && i < |cs|
    requires HasFailed(views, cs[i].name) && forall j :: i < j < |cs| ==> !HasFailed(views, cs[j].name)
    ensures var v := views[cs[i].name];
            s.message == if v.oomKilled then OutOfMemory(cs[i].name, v.exitCode) else ExitedWith(cs[i].name, v.exitCode)
  {
    assert IsLastBroken(cs, views, i);
    var j :| 0 <= j < |cs| && IsLastBroken(cs, views, j) && s.message == FailureOf(views[cs[j].name], cs[j].name);
    assert i == j;
  }

  // The start time is that of the container that started first.
  lemma StartReported(cs: seq<Container>, views: Views, now: Time, s: Status, i: nat)
    requires Reports(cs, views, now, s) && i < |cs| && cs[i].name in views
    ensures var v := views[cs[i].name];
            && (v.startedAt != ZERO_TIME ==> s.startTime.Some? && s.startTime.value <= v.startedAt)
            && (v.startedAt == ZERO_TIME && v.running ==> s.startTime.Some? && s.startTime.value <= now)
    ensures s.startTime.Some? ==>
              exists j :: 0 <= j < |cs| && cs[j].name in views
                && var t := views[cs[j].name].startedAt;
                   s.startTime.value == t != ZERO_TIME || (t == ZERO_TIME && views[cs[j].name].running && s.startTime.value == now)
  {
    assert StartOf(views, cs[i].name, now).Some? ==> s.startTime.Some?;
    if s.startTime.Some? {
      var j :| 0 <= j < |cs| && StartOf(views, cs[j].name, now) == s.startTime;
      assert cs[j].name in views;
    }
  }

  // The status of each container.
  lemma ContainerReported(cs: seq<Container>, views: Views, now: Time, s: Status, i: nat)
    requires Reports(cs, views, now, s) && i < |cs|
    ensures |s.containers| == |cs| && s.hostIP == "127.0.0.1" && s.podIP == "10.0.0.1"
    ensures var c := cs[i];
            s.containers[i] ==
              if c.name !in views then ContainerStatus(c.name, c.image, "", "", false, Waiting("ContainerCreating"))
              else
                var v := views[c.name];
                var id := "docker://" + v.id;
                if v.running then
                  ContainerStatus(c.name, v.image, v.imageId, id, true, Live(if v.startedAt == ZERO_TIME then now else v.startedAt))
                else
                  ContainerStatus(c.name, v.image, v.imageId, id, false, Terminated(
                    Int32(v.exitCode), if v.oomKilled then "OOMKilled" else if v.exitCode != 0 then "Error" else "Completed",
                    v.startedAt, if v.finishedAt == ZERO_TIME then now else v.finishedAt, id))
  {
    assert StatusFits(cs[i], views, now, s.containers[i]);
  }

  // --- Whole runs ---

  // A container goes from absent to running to exited, and stays as it exited.
  predicate Evolves(views: Views, views': Views, name: string) {
    name in views ==>
      && name in views'
      && (!views[name].running ==>
            !views'[name].running && views'[name].exitCode == views[name].exitCode
            && views'[name].oomKilled == views[name].oomKilled)
  }

  predicate Final(p: Phase) {
    p.Succeeded? || p.Failed?
  }

  // From Pending to Running to a final phase, skipping steps but never back.
  predicate Forward(p: Phase, q: Phase) {
    if Final(p) then q == p else p.Pending? || !q.Pending?
  }

  lemma PhaseForward(cs: seq<Container>, views: Views, views': Views)
    requires forall i :: 0 <= i < |cs| ==> Evolves(views, views', cs[i].name)
    ensures Forward(PhaseOf(cs, views), PhaseOf(cs, views'))
  {
    var p, q := PhaseOf(cs, views), PhaseOf(cs, views');
    PhaseMeaning(cs, views);
    PhaseMeaning(cs, views');
    if p.Failed? {
      var i :| 0 <= i < |cs| && StandingOf(views, cs[i].name) == Broken;
      assert Evolves(views, views', cs[i].name);
      assert StandingOf(views', cs[i].name) == Broken;
    } else if q.Pending? {
      var i :| 0 <= i < |cs| && StandingOf(views', cs[i].name) == Missing;
      assert Evolves(views, views', cs[i].name);
      assert StandingOf(views, cs[i].name) == Missing;
    }
  }

  ghost predicate Lives(cs: seq<Container>, history: seq<Views>) {
    forall n, i :: 0 <= n < |history| - 1 && 0 <= i < |cs| ==> Evolves(history[n], history[n + 1], cs[i].name)
  }

  // Along every run in which containers only move forward, the reported phase does too,
  // and a pod that failed or succeeded stays so.
  lemma {:induction false} RunForward(cs: seq<Container>, history: seq<Views>, m: nat, n: nat)
    requires Lives(cs, history) && m <= n < |history|
    ensures Forward(PhaseOf(cs, history[m]), PhaseOf(cs, history[n]))
    decreases n - m
  {
    if m < n {
      RunForward(cs, history, m, n - 1);
      forall i | 0 <= i < |cs| ensures Evolves(history[n - 1], history[n], cs[i].name) {
        assert Evolves(history[n - 1], history[n - 1 + 1], cs[i].name);
      }
      PhaseForward(cs, history[n - 1], history[n]);
    }
  }

  // The status of a pod that could not be started.
  function FailedPodStatus(text: string): Status {
    Status(Failed, "KubeletLite", Because(text), PLACEHOLDER_HOST_IP, "", None, [])
  }
}
