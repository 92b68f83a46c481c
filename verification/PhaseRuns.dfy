/** The phase that the API server shows of a pod, over the live passes of one kubelet: how it
    becomes Failed, and how it ceases to be. */
module PhaseRuns {
  import opened Options
  import opened PodStatus
  import Json
  import Reconciler
  import StatusLoop

  // A live pass: how far it came, what it reports if it is complete, and the reply to its
  // report.
  datatype Attempt = Attempt(steps: seq<Reconciler.Step>, end: Reconciler.End, status: Status, reply: Reconciler.Reply)

  // The failure that the kubelet remembers having reported, and the API server's object.
  datatype State = State(reported: Option<string>, body: Json.Json)

  ghost predicate Attempted(cs: seq<Container>, a: Attempt) {
    && |a.steps| <= |cs|
    && (a.end.Complete? ==> |a.steps| == |cs| && Reports(cs, Reconciler.ViewsOf(cs, a.steps), a.end.now, a.status))
  }

  // The report of a pass, unless it is a failure that was reported before or nothing to report.
  function Sends(reported: Option<string>, a: Attempt): Option<Status> {
    if a.end.Complete? then Some(a.status)
    else
      match Reconciler.FailureText(a.end)
      case None => None
      case Some(msg) => if reported == Some(msg) then None else Some(FailedPodStatus(msg))
  }

  function Do(s: State, a: Attempt): State {
    match Sends(s.reported, a)
    case None => s
    case Some(status) =>
      State(if a.end.Complete? || a.reply.Rejected? then s.reported else Reconciler.FailureText(a.end),
            if a.reply.Done? then Json.MergePatch(s.body, StatusLoop.PatchBody(status)) else s.body)
  }

  function After(s: State, attempts: seq<Attempt>): State {
    if attempts == [] then s else Do(After(s, attempts[..|attempts| - 1]), attempts[|attempts| - 1])
  }

  function Remembered(failedPods: map<string, string>, uid: string): Option<string> {
    if uid in failedPods then Some(failedPods[uid]) else None
  }

  function Requests(pod: Reconciler.Pod, sent: Option<Status>): seq<Reconciler.Request> {
    if sent.Some? then [Reconciler.PatchStatus(pod.ns, pod.name, sent.value)] else []
  }

  // What a pass sent, was answered and remembers, as values.
  datatype Trace = Trace(requests: seq<Reconciler.Request>, replies: seq<Reconciler.Reply>, failed: map<string, string>)

  ghost predicate IsAttempt(pod: Reconciler.Pod, a: Attempt, outcome: Reconciler.Outcome, before: Trace, after: Trace) {
    var s := State(Remembered(before.failed, pod.uid), Json.JNull);
    var sent := Sends(s.reported, a);
    && after.requests == before.requests + Requests(pod, sent)
    && after.replies == before.replies + (if sent.Some? then [a.reply] else [])
    && Remembered(after.failed, pod.uid) == Do(s, a).reported
    && (outcome.Retry? <==> if sent.Some? then a.reply.Rejected? else Reconciler.FailureText(a.end).None?)
  }

  lemma Sent(pod: Reconciler.Pod, a: Attempt, outcome: Reconciler.Outcome, before: Trace, after: Trace)
    requires var sent := Sends(Remembered(before.failed, pod.uid), a);
             && sent.Some? && after.requests == before.requests + Requests(pod, sent)
    requires Reconciler.Answered(before.replies, after.replies, outcome) && a.reply == after.replies[|before.replies|]
    requires after.failed == if a.end.Complete? || outcome.Retry? then before.failed
                             else before.failed[pod.uid := Reconciler.FailureText(a.end).value]
    ensures IsAttempt(pod, a, outcome, before, after)
  {
    assert after.replies == before.replies + [a.reply];
  }

  // A live pass of the reconciler is such an attempt: it sends that report, gets that reply,
  // remembers that failure, and is tried again exactly if the report was rejected or the
  // pass ended early without one.
  twostate lemma LivePassAttempts(r: Reconciler.Reconciler, pod: Reconciler.Pod, outcome: Reconciler.Outcome,
                                  steps: seq<Reconciler.Step>, end: Reconciler.End)
    returns (a: Attempt)
    requires r.LivePass(pod, outcome, steps, end)
    ensures Attempted(pod.containers, a) && a.steps == steps && a.end == end
    ensures IsAttempt(pod, a, outcome, old(Trace(r.kube.requests, r.kube.replies, r.failedPods)),
                      Trace(r.kube.requests, r.kube.replies, r.failedPods))
  {
    var before := old(Trace(r.kube.requests, r.kube.replies, r.failedPods));
    var after := Trace(r.kube.requests, r.kube.replies, r.failedPods);
    var n := |before.replies|;
    var status := FailedPodStatus("");
    if end.Complete? {
      status :| r.kube.Sent(Reconciler.PatchStatus(pod.ns, pod.name, status), outcome)
                && Reports(pod.containers, Reconciler.ViewsOf(pod.containers, steps), end.now, status);
    }
    a := Attempt(steps, end, status, if |after.replies| > n then after.replies[n] else Reconciler.Done);
    if Sends(Remembered(before.failed, pod.uid), a).Some? {
      Sent(pod, a, outcome, before, after);
    }
  }

  // --- When the phase is Failed ---

  predicate ShowsFailed(s: State) {
    Json.Member(Json.Member(s.body, "status"), "phase") == Json.JStr("Failed")
  }

  // A complete pass in which no container has failed, whose report got through.
  ghost predicate Recovers(cs: seq<Container>, a: Attempt) {
    a.end.Complete? && a.reply.Done? && |a.steps| == |cs| && !Has(cs, Reconciler.ViewsOf(cs, a.steps), Broken)
  }

  // A report that got through of a failed container, or of a failed pull or creation with
  // another text than the one remembered.
  ghost predicate Fails(cs: seq<Container>, reported: Option<string>, a: Attempt) {
    && a.reply.Done?
    && (if a.end.Complete? then |a.steps| == |cs| && Has(cs, Reconciler.ViewsOf(cs, a.steps), Broken)
        else Reconciler.FailureText(a.end).Some? && Reconciler.FailureText(a.end) != reported)
  }

  lemma PhaseTexts(p: Phase)
    ensures StatusLoop.PhaseText(p) == StatusLoop.PhaseText(Failed) <==> p == Failed
  {
    var text := StatusLoop.PhaseText(p);
    assert p != Failed ==> |text| != 6;
  }

  // The phase leaves Failed with a pass that recovers and becomes Failed with one that fails;
  // nothing else changes that.
  lemma OnePass(cs: seq<Container>, s: State, a: Attempt)
    requires Attempted(cs, a)
    ensures ShowsFailed(Do(s, a)) <==> Fails(cs, s.reported, a) || (ShowsFailed(s) && !Recovers(cs, a))
  {
    var sent := Sends(s.reported, a);
    if sent.Some? && a.reply.Done? {
      StatusLoop.PhaseStored(s.body, sent.value);
      PhaseTexts(sent.value.phase);
    }
  }

  ghost predicate FailsAt(cs: seq<Container>, s: State, attempts: seq<Attempt>, i: nat)
    requires i < |attempts|
  {
    Fails(cs, After(s, attempts[..i]).reported, attempts[i])
  }

  ghost predicate NoneRecovers(cs: seq<Container>, attempts: seq<Attempt>, from: nat) {
    forall j :: from <= j < |attempts| ==> !Recovers(cs, attempts[j])
  }

  // One of the passes failed, and none has recovered since.
  ghost predicate FailedSince(cs: seq<Container>, s: State, attempts: seq<Attempt>) {
    exists i :: 0 <= i < |attempts| && FailsAt(cs, s, attempts, i) && NoneRecovers(cs, attempts, i + 1)
  }

  lemma NoneMore(cs: seq<Container>, attempts: seq<Attempt>, from: nat)
    requires from < |attempts|
    ensures var n := |attempts| - 1;
            NoneRecovers(cs, attempts, from) <==> NoneRecovers(cs, attempts[..n], from) && !Recovers(cs, attempts[n])
  {
    var n := |attempts| - 1;
    var before := attempts[..n];
    if NoneRecovers(cs, before, from) && !Recovers(cs, attempts[n]) {
      forall j | from <= j < |attempts| ensures !Recovers(cs, attempts[j]) {
        if j < n { assert !Recovers(cs, before[j]); }
      }
    }
  }

  lemma FailedSinceLast(cs: seq<Container>, s: State, attempts: seq<Attempt>)
    requires |attempts| > 0
    ensures var n := |attempts| - 1;
            FailedSince(cs, s, attempts) <==>
              FailsAt(cs, s, attempts, n) || (FailedSince(cs, s, attempts[..n]) && !Recovers(cs, attempts[n]))
  {
    var n := |attempts| - 1;
    var before := attempts[..n];
    forall i | 0 <= i < n
      ensures FailsAt(cs, s, attempts, i) <==> FailsAt(cs, s, before, i)
      ensures NoneRecovers(cs, attempts, i + 1) <==> NoneRecovers(cs, before, i + 1) && !Recovers(cs, attempts[n])
    {
      assert before[..i] == attempts[..i];
      NoneMore(cs, attempts, i + 1);
    }
    assert NoneRecovers(cs, attempts, n + 1);
  }

  // After any run of passes the phase is Failed if and only if one of them failed, or it was
  // Failed before, and none has recovered since.
  lemma {:induction false} FailedIff(cs: seq<Container>, s: State, attempts: seq<Attempt>)
    requires forall i :: 0 <= i < |attempts| ==> Attempted(cs, attempts[i])
    ensures ShowsFailed(After(s, attempts)) <==>
              FailedSince(cs, s, attempts) || (ShowsFailed(s) && NoneRecovers(cs, attempts, 0))
  {
    if attempts != [] {
      var n := |attempts| - 1;
      FailedIff(cs, s, attempts[..n]);
      OnePass(cs, After(s, attempts[..n]), attempts[n]);
      FailedSinceLast(cs, s, attempts);
      NoneMore(cs, attempts, 0);
    }
  }

  // The kubelet forgets no failure when a pass succeeds. So one that comes back with the
  // same text after a recovery is not reported again: the object stays as it was.
  lemma {:induction false} RecurrenceUnseen(s: State, attempts: seq<Attempt>, i: nat, msg: string)
    requires i < |attempts| && Reconciler.FailureText(attempts[i].end) == Some(msg) && !attempts[i].reply.Rejected?
    requires forall j :: i < j < |attempts| ==>
               Reconciler.FailureText(attempts[j].end).None? || Reconciler.FailureText(attempts[j].end) == Some(msg)
    ensures After(s, attempts).reported == Some(msg)
    ensures var n := |attempts| - 1;
            i < n && Reconciler.FailureText(attempts[n].end) == Some(msg) ==> After(s, attempts) == After(s, attempts[..n])
    decreases |attempts|
  {
    var n := |attempts| - 1;
    if i < n {
      RecurrenceUnseen(s, attempts[..n], i, msg);
    }
  }
}
