/** The feedback loop of status reports: the kubelet patches the status, the store announces
    the change, and the announcement makes the kubelet report again. */
module StatusLoop {
  import opened Options
  import opened Json
  import opened Objects
  import opened PodStatus
  import Decimal

  const NANOSECONDS := 1_000_000_000

  // Time stamps are encoded to the second, the zero time as null.
  function TimeJson(t: Time): Json {
    if t == ZERO_TIME then JNull else JNum(t / NANOSECONDS)
  }

  function Text(m: Message): string {
    match m
    case NoMessage => ""
    case OutOfMemory(c, code) => "container \"" + c + "\" OOMKilled (exit code " + Decimal.FormatInt(code) + ")"
    case ExitedWith(c, code) => "container \"" + c + "\" exited with code " + Decimal.FormatInt(code)
    case Because(text) => text
  }

  function PhaseText(p: Phase): string {
    match p
    case Pending => "Pending"
    case Running => "Running"
    case Succeeded => "Succeeded"
    case Failed => "Failed"
  }

  function StateJson(state: ContainerState): Json {
    match state
    case Waiting(reason) => JObj(map["waiting" := JObj(map["reason" := JStr(reason)])])
    case Live(startedAt) => JObj(map["running" := JObj(map["startedAt" := TimeJson(startedAt)])])
    case Terminated(exitCode, reason, startedAt, finishedAt, containerId) =>
      JObj(map["terminated" := JObj(map[
        "exitCode" := JNum(exitCode), "reason" := JStr(reason), "startedAt" := TimeJson(startedAt),
        "finishedAt" := TimeJson(finishedAt), "containerID" := JStr(containerId)])])
  }

  // An empty string is left out.
  function Omitting(name: string, text: string): map<string, Json> {
    if text == "" then map[] else map[name := JStr(text)]
  }

  function ContainerJson(c: ContainerStatus): Json {
    JObj(map["name" := JStr(c.name), "state" := StateJson(c.state), "lastState" := JObj(map[]), "ready" := JBool(c.ready),
             "restartCount" := JNum(0), "image" := JStr(c.image), "imageID" := JStr(c.imageId)]
         + Omitting("containerID", c.containerId))
  }

  function ContainersJson(cs: seq<ContainerStatus>): Json {
    JArr(seq(|cs|, i requires 0 <= i < |cs| => ContainerJson(cs[i])))
  }

  function StatusFields(s: Status): map<string, Json> {
    Omitting("hostIP", s.hostIP) + Omitting("podIP", s.podIP)
    + (if s.startTime.Some? then map["startTime" := TimeJson(s.startTime.value)] else map[])
  }

  function Explanation(s: Status): map<string, Json> {
    Omitting("message", Text(s.message)) + Omitting("reason", s.reason)
  }

  function StatusJson(s: Status): Json {
    JObj((StatusFields(s) + Explanation(s)
          + if s.containers == [] then map[] else map["containerStatuses" := ContainersJson(s.containers)])
         ["phase" := JStr(PhaseText(s.phase))])
  }

  lemma ExplanationShows(s: Status)
    ensures Member(StatusJson(s), "message") == (if Text(s.message) == "" then JNull else JStr(Text(s.message)))
    ensures Member(StatusJson(s), "reason") == (if s.reason == "" then JNull else JStr(s.reason))
    ensures Text(s.message) == "" ==> "message" !in StatusJson(s).fields
    ensures s.reason == "" ==> "reason" !in StatusJson(s).fields
  {
    var m, r := "message", "reason";
    assert |m| == 7 && |r| == 6 && |"phase"| == 5 && m[0] == 'm' && r[0] == 'r';
    assert m !in StatusFields(s);
    assert r !in StatusFields(s);
  }

  lemma FieldKept(fields: map<string, Json>, more: map<string, Json>, most: map<string, Json>, last: string, j: Json, k: string)
    requires k !in more && k !in most && k != last
    ensures Member(JObj((fields + more + most)[last := j]), k) == Member(JObj(fields), k)
  {
  }

  lemma FieldShows(s: Status, k: string)
    requires k != "message" && k != "reason" && k != "containerStatuses" && k != "phase"
    ensures Member(StatusJson(s), k) == Member(JObj(StatusFields(s)), k)
  {
    FieldKept(StatusFields(s), Explanation(s),
              if s.containers == [] then map[] else map["containerStatuses" := ContainersJson(s.containers)],
              "phase", JStr(PhaseText(s.phase)), k);
  }

  // What a report holds besides phase, reason and message. Empty fields are left out.
  lemma FieldsShow(s: Status)
    ensures Member(StatusJson(s), "hostIP") == (if s.hostIP == "" then JNull else JStr(s.hostIP))
    ensures Member(StatusJson(s), "podIP") == (if s.podIP == "" then JNull else JStr(s.podIP))
    ensures s.startTime.Some? && s.startTime.value != 0 ==>
              Member(StatusJson(s), "startTime") == JNum(s.startTime.value / 1_000_000_000)
  {
    var host, pod, start := "hostIP", "podIP", "startTime";
    assert |host| == 6 && |pod| == 5 && |start| == 9 && |"message"| == 7 && |"containerStatuses"| == 17;
    assert host[0] == 'h' && "reason"[0] == 'r' && pod[1] == 'o' && "phase"[1] == 'h' && |"phase"| == 5 && |"reason"| == 6;
    FieldShows(s, host);
    FieldShows(s, pod);
    FieldShows(s, start);
  }

  lemma ContainersShow(s: Status)
    requires s.containers != []
    ensures var shown := Member(StatusJson(s), "containerStatuses");
            && shown.JArr? && |shown.items| == |s.containers|
            && forall i :: 0 <= i < |s.containers| ==> shown.items[i] == ContainerJson(s.containers[i])
  {
    assert |"phase"| == 5 && |"containerStatuses"| == 17;
  }

  // What it holds of a container.
  lemma ContainerShows(c: ContainerStatus)
    ensures var j := ContainerJson(c);
      && Member(j, "name") == JStr(c.name) && Member(j, "image") == JStr(c.image) && Member(j, "imageID") == JStr(c.imageId)
      && Member(j, "ready") == JBool(c.ready) && Member(j, "restartCount") == JNum(0)
      && Member(j, "containerID") == (if c.containerId == "" then JNull else JStr(c.containerId))
      && Member(j, "state") == StateJson(c.state)
  {
    assert |"containerID"| == 11 && |"name"| == 4 && |"state"| == 5 && |"ready"| == 5 && |"image"| == 5 && |"imageID"| == 7 && |"restartCount"| == 12;
    assert "state"[0] == 's' && "ready"[0] == 'r' && "image"[0] == 'i' && |"lastState"| == 9;
  }

  // What it holds of the state of a container; times are seconds, and left open when unknown.
  lemma StateShown(state: ContainerState)
    ensures state.Waiting? ==> Member(Member(StateJson(state), "waiting"), "reason") == JStr(state.reason)
    ensures state.Live? && state.startedAt != 0 ==>
              Member(Member(StateJson(state), "running"), "startedAt") == JNum(state.startedAt / 1_000_000_000)
    ensures state.Terminated? ==>
              var j := Member(StateJson(state), "terminated");
              && Member(j, "exitCode") == JNum(state.exitCode) && Member(j, "reason") == JStr(state.reason)
              && Member(j, "containerID") == JStr(state.containerId)
              && Member(j, "startedAt") == (if state.startedAt == 0 then JNull else JNum(state.startedAt / 1_000_000_000))
              && Member(j, "finishedAt") == (if state.finishedAt == 0 then JNull else JNum(state.finishedAt / 1_000_000_000))
  {
    assert |"exitCode"| == 8 && |"reason"| == 6 && |"containerID"| == 11 && |"startedAt"| == 9 && |"finishedAt"| == 10;
  }

  // --- The request ---

  function PatchBody(s: Status): Json {
    JObj(map["status" := StatusJson(s)])
  }

  // The new object of an update through /status: the patched one, with the metadata and
  // the spec of the old one put back.
  function StatusPatched(body: Json, patch: Json): Json {
    var merged := Fields(MergePatch(body, patch));
    JObj(map k | k in merged.Keys + (Fields(body).Keys * {"metadata", "spec"}) && (k in Fields(body) || (k != "metadata" && k != "spec")) ::
           if k == "metadata" || k == "spec" then Fields(body)[k] else merged[k])
  }

  function StatusUpdate(patch: Json): Op {
    Update((o: Obj) => true, (o: Obj) => Some(Obj(StatusPatched(o.body, patch), o.rv)), false)
  }

  // Whatever a patch through /status asks for, metadata and spec stay.
  lemma OnlyStatusChanges(body: Json, patch: Json, k: string)
    requires k == "metadata" || k == "spec"
    ensures k in Fields(StatusPatched(body, patch)) <==> k in Fields(body)
    ensures k in Fields(body) ==> Fields(StatusPatched(body, patch))[k] == Fields(body)[k]
  {
  }

  // For the kubelet's patches the new object is the merged one.
  lemma KubeletPatch(body: Json, s: Status)
    ensures StatusPatched(body, PatchBody(s)) == MergePatch(body, PatchBody(s))
    ensures Member(MergePatch(body, PatchBody(s)), "status") == MergePatch(Member(body, "status"), StatusJson(s))
  {
    MergeMember(body, PatchBody(s), "status");
    OnlyStatusPatched(body, StatusJson(s));
  }

  lemma OnlyStatusPatched(body: Json, status: Json)
    requires status.JObj?
    ensures var patch := JObj(map["status" := status]); StatusPatched(body, patch) == MergePatch(body, patch)
  {
    var patch := JObj(map["status" := status]);
    var merged := Fields(MergePatch(body, patch));
    assert "metadata" != "status" && "spec" != "status";
    forall k | k == "metadata" || k == "spec"
      ensures (k in merged <==> k in Fields(body)) && (k in merged ==> merged[k] == Fields(body)[k])
    {
    }
    assert Fields(StatusPatched(body, patch)) == merged;
  }

  // What the store decides about a report.
  lemma ReportDecided(cur: Obj, s: Status)
    ensures Decide(StatusUpdate(PatchBody(s)), Some(cur))
         == var merged := MergePatch(cur.body, PatchBody(s));
            if merged == cur.body then Finish(Unchanged) else Write(Obj(merged, cur.rv))
    ensures Decide(StatusUpdate(PatchBody(s)), None) == Finish(NotFound)
  {
    KubeletPatch(cur.body, s);
  }

  // The object once the report is in.
  function Reported(cur: Obj, s: Status, rv: nat): Obj {
    match Decide(StatusUpdate(PatchBody(s)), Some(cur))
    case Write(o) => o.(rv := rv)
    case _ => cur
  }

  lemma ReportedBody(cur: Obj, s: Status, rv: nat)
    ensures Reported(cur, s, rv).body == MergePatch(cur.body, PatchBody(s))
  {
    ReportDecided(cur, s);
  }

  // --- Settling ---

  // A report that was stored already takes no resourceVersion and announces nothing.
  lemma RepeatedReportIsUnchanged(cur: Obj, s: Status, rv: nat)
    ensures Decide(StatusUpdate(PatchBody(s)), Some(Reported(cur, s, rv))) == Finish(Unchanged)
  {
    ReportedBody(cur, s, rv);
    ReportDecided(Reported(cur, s, rv), s);
    MergePatchIdempotent(cur.body, PatchBody(s));
  }

  // Whether some time stamp of the report comes from the clock: a container runs without
  // a start time, or has exited without an end time.
  ghost predicate UsesClock(cs: seq<Container>, views: Views) {
    exists i :: 0 <= i < |cs| && ClockNeeded(views, cs[i].name)
  }

  predicate ClockNeeded(views: Views, name: string) {
    name in views && (if views[name].running then views[name].startedAt else views[name].finishedAt) == ZERO_TIME
  }

  lemma ClockUnused(cs: seq<Container>, views: Views, now: Time, now': Time, s: Status)
    requires !UsesClock(cs, views) && Reports(cs, views, now, s)
    ensures Reports(cs, views, now', s)
  {
    forall i | 0 <= i < |cs|
      ensures StartOf(views, cs[i].name, now) == StartOf(views, cs[i].name, now')
      ensures StatusFits(cs[i], views, now', s.containers[i])
    {
      assert !ClockNeeded(views, cs[i].name);
      assert StatusFits(cs[i], views, now, s.containers[i]);
    }
  }

  predicate SameSecond(t: Time, u: Time) {
    t / NANOSECONDS == u / NANOSECONDS
  }

  lemma ClockShows(cs: seq<Container>, views: Views, now: Time, now': Time, s: Status, s': Status)
    requires UsesClock(cs, views) && Reports(cs, views, now, s) && Reports(cs, views, now', s')
    requires now > ZERO_TIME && now' > ZERO_TIME && !SameSecond(now, now')
    ensures s.containers != [] && s'.containers != [] && ContainersJson(s.containers) != ContainersJson(s'.containers)
  {
    var i :| 0 <= i < |cs| && ClockNeeded(views, cs[i].name);
    var a, b := s.containers[i], s'.containers[i];
    assert StatusFits(cs[i], views, now, a) && StatusFits(cs[i], views, now', b);
    StateDiffers(a.state, b.state, now, now');
    StateShows(a, b);
    ItemsDiffer(s.containers, s'.containers, i);
  }

  lemma ItemsDiffer(cs: seq<ContainerStatus>, ds: seq<ContainerStatus>, i: nat)
    requires i < |cs| == |ds| && ContainerJson(cs[i]) != ContainerJson(ds[i])
    ensures ContainersJson(cs) != ContainersJson(ds)
  {
    assert ContainersJson(cs).items[i] == ContainerJson(cs[i]);
    assert ContainersJson(ds).items[i] == ContainerJson(ds[i]);
  }

  lemma StateShows(a: ContainerStatus, b: ContainerStatus)
    requires StateJson(a.state) != StateJson(b.state)
    ensures ContainerJson(a) != ContainerJson(b)
  {
    assert "state" != "containerID";
    assert Fields(ContainerJson(a))["state"] == StateJson(a.state);
    assert Fields(ContainerJson(b))["state"] == StateJson(b.state);
  }

  lemma StateDiffers(a: ContainerState, b: ContainerState, t: Time, u: Time)
    requires TimeJson(t) != TimeJson(u)
    requires || (a.Live? && b.Live? && a.startedAt == t && b.startedAt == u)
             || (a.Terminated? && b.Terminated? && a.finishedAt == t && b.finishedAt == u)
    ensures StateJson(a) != StateJson(b)
  {
    if a.Live? {
      assert Fields(Fields(StateJson(a))["running"])["startedAt"] == TimeJson(t);
      assert Fields(Fields(StateJson(b))["running"])["startedAt"] == TimeJson(u);
    } else {
      assert Fields(Fields(StateJson(a))["terminated"])["finishedAt"] == TimeJson(t);
      assert Fields(Fields(StateJson(b))["terminated"])["finishedAt"] == TimeJson(u);
    }
  }

  // While Docker shows the same, a report in a later second changes nothing exactly when
  // no time stamp comes from the clock. So the loop settles after the first report in that
  // case, and in the other every second brings another version and another event.
  lemma SettlesIff(cur: Obj, rv: nat, cs: seq<Container>, views: Views, now: Time, now': Time, s: Status, s': Status)
    requires now > ZERO_TIME && now' > ZERO_TIME && !SameSecond(now, now')
    requires Reports(cs, views, now, s) && Reports(cs, views, now', s')
    ensures Decide(StatusUpdate(PatchBody(s')), Some(Reported(cur, s, rv))) == Finish(Unchanged) <==> !UsesClock(cs, views)
  {
    RepeatedReportIsUnchanged(cur, s, rv);
    if UsesClock(cs, views) {
      ClockShows(cs, views, now, now', s, s');
      PatchDecides(cur.body, s, s');
      ReportedBody(cur, s, rv);
      ReportDecided(Reported(cur, s, rv), s');
    } else {
      ClockUnused(cs, views, now, now', s);
      ReportsDetermine(cs, views, now', s, s');
    }
  }

  // Reports with other container statuses leave another object.
  lemma PatchDecides(body: Json, s: Status, s': Status)
    requires s.containers != [] && s'.containers != [] && ContainersJson(s.containers) != ContainersJson(s'.containers)
    ensures var once := MergePatch(body, PatchBody(s)); MergePatch(once, PatchBody(s')) != once
  {
    var once := MergePatch(body, PatchBody(s));
    ContainersPatched(body, s);
    ContainersPatched(once, s');
  }

  lemma ContainersPatched(body: Json, s: Status)
    requires s.containers != []
    ensures Member(Member(MergePatch(body, PatchBody(s)), "status"), "containerStatuses") == ContainersJson(s.containers)
  {
    KubeletPatch(body, s);
    MergeMember(Member(body, "status"), StatusJson(s), "containerStatuses");
  }

  // --- What reports leave behind ---

  // The object after a sequence of reports.
  function AfterAll(body: Json, reports: seq<Status>): Json {
    if reports == [] then body
    else MergePatch(AfterAll(body, reports[..|reports| - 1]), PatchBody(reports[|reports| - 1]))
  }

  function Bodies(reports: seq<Status>): (bodies: seq<Json>)
    ensures |bodies| == |reports| && forall i :: 0 <= i < |reports| ==> bodies[i] == StatusJson(reports[i])
  {
    if reports == [] then [] else Bodies(reports[..|reports| - 1]) + [StatusJson(reports[|reports| - 1])]
  }

  lemma {:induction false} StatusAfterAll(body: Json, reports: seq<Status>)
    ensures Member(AfterAll(body, reports), "status") == MergeAll(Member(body, "status"), Bodies(reports))
  {
    if reports != [] {
      var n := |reports| - 1;
      StatusAfterAll(body, reports[..n]);
      KubeletPatch(AfterAll(body, reports[..n]), reports[n]);
      assert Bodies(reports)[..n] == Bodies(reports[..n]);
    }
  }

  // The two members that explain a failure.
  predicate Explains(k: string) {
    k == "message" || k == "reason"
  }

  // What a report says of such a member, null if nothing.
  function Says(s: Status, k: string): Json {
    Member(StatusJson(s), k)
  }

  lemma ExplainsPlainly(s: Status, k: string)
    requires Explains(k)
    ensures SetsPlainly(StatusJson(s), k) && (k in Fields(StatusJson(s)) <==> Says(s, k) != JNull)
  {
    ExplanationShows(s);
  }

  lemma AllExplainPlainly(reports: seq<Status>, k: string)
    requires Explains(k)
    ensures forall j :: 0 <= j < |reports| ==>
              SetsPlainly(Bodies(reports)[j], k) && (k in Fields(Bodies(reports)[j]) <==> Says(reports[j], k) != JNull)
  {
    forall j | 0 <= j < |reports|
      ensures SetsPlainly(Bodies(reports)[j], k) && (k in Fields(Bodies(reports)[j]) <==> Says(reports[j], k) != JNull)
    {
      ExplainsPlainly(reports[j], k);
    }
  }

  // A merge patch clears nothing it does not name. After any sequence of reports the stored
  // reason, and the stored message, is that of the last report if and only if that report
  // has one, or no report and nothing before them ever gave one.
  lemma ExplanationIsCurrentIff(body: Json, reports: seq<Status>, k: string)
    requires Explains(k) && |reports| > 0
    ensures var last := Says(reports[|reports| - 1], k);
            Member(Member(AfterAll(body, reports), "status"), k) == last <==>
              || last != JNull
              || (Member(Member(body, "status"), k) == JNull && forall j :: 0 <= j < |reports| ==> Says(reports[j], k) == JNull)
  {
    var n := |reports| - 1;
    var bodies := Bodies(reports);
    StatusAfterAll(body, reports);
    AllExplainPlainly(reports, k);
    if Says(reports[n], k) != JNull {
      LastOneSets(Member(body, "status"), bodies, k, n);
    } else {
      NoneSets(Member(body, "status"), bodies, k);
      if forall j :: 0 <= j < |reports| ==> k !in Fields(bodies[j]) {
        forall j | 0 <= j < |reports| ensures Says(reports[j], k) == JNull { assert k !in Fields(bodies[j]); }
      }
    }
  }

  // So the reason and the message of a failure outlive all the reports without one that
  // follow it.
  lemma OldReasonStays(body: Json, reports: seq<Status>, i: nat, k: string)
    requires i < |reports| && Explains(k) && Says(reports[i], k) != JNull
    requires forall j :: i < j < |reports| ==> Says(reports[j], k) == JNull
    ensures Member(Member(AfterAll(body, reports), "status"), k) == Says(reports[i], k)
  {
    StatusAfterAll(body, reports);
    AllExplainPlainly(reports, k);
    forall j | i < j < |reports| ensures k !in Fields(Bodies(reports)[j]) {
      assert Says(reports[j], k) == JNull;
    }
    LastOneSets(Member(body, "status"), Bodies(reports), k, i);
  }

  // Which reports have a reason and a message: those of a failed image pull or creation
  // both, those from inspections no reason, and a message when a container has failed.
  lemma WhoExplains(cs: seq<Container>, views: Views, now: Time, s: Status, text: string)
    requires Reports(cs, views, now, s) && text != ""
    ensures Says(FailedPodStatus(text), "reason") == JStr("KubeletLite") && Says(FailedPodStatus(text), "message") == JStr(text)
    ensures Says(s, "reason") == JNull && (Says(s, "message") != JNull <==> Has(cs, views, Broken))
  {
    ExplanationShows(FailedPodStatus(text));
    ExplanationShows(s);
  }

  // The phase is always that of the last report.
  lemma PhaseStored(body: Json, s: Status)
    ensures Member(Member(MergePatch(body, PatchBody(s)), "status"), "phase") == JStr(PhaseText(s.phase))
    ensures PhaseText(s.phase) == match s.phase case Pending => "Pending" case Running => "Running" case Succeeded => "Succeeded" case Failed => "Failed"
  {
    KubeletPatch(body, s);
    MergeMember(Member(body, "status"), StatusJson(s), "phase");
  }

  // --- From Docker to the API server ---

  // The phase that is stored, in terms of what Docker shows.
  lemma StoredPhase(body: Json, cs: seq<Container>, views: Views, now: Time, s: Status)
    requires Reports(cs, views, now, s)
    ensures var phase := Member(Member(MergePatch(body, PatchBody(s)), "status"), "phase");
            phase == JStr(
              if exists i :: 0 <= i < |cs| && HasFailed(views, cs[i].name) then "Failed"
              else if exists i :: 0 <= i < |cs| && cs[i].name !in views then "Pending"
              else if exists i :: 0 <= i < |cs| && views[cs[i].name].running then "Running"
              else "Succeeded")
  {
    PhaseStored(body, s);
    PhaseReported(cs, views, now, s);
  }

  // The message that is stored when a container has failed: it is about the last one that did.
  lemma StoredMessage(body: Json, cs: seq<Container>, views: Views, now: Time, s: Status, i: nat)
    requires Reports(cs, views, now, s) && i < |cs|
    requires HasFailed(views, cs[i].name) && forall j :: i < j < |cs| ==> !HasFailed(views, cs[j].name)
    ensures var v := views[cs[i].name];
            Member(Member(MergePatch(body, PatchBody(s)), "status"), "message") == JStr(
              if v.oomKilled then "container \"" + cs[i].name + "\" OOMKilled (exit code " + Decimal.FormatInt(v.exitCode) + ")"
              else "container \"" + cs[i].name + "\" exited with code " + Decimal.FormatInt(v.exitCode))
  {
    MessageReported(cs, views, now, s, i);
    ExplanationShows(s);
    KubeletPatch(body, s);
    MergeMember(Member(body, "status"), StatusJson(s), "message");
  }

  // What is stored of each container: whether it is ready, which is whether it runs, and its
  // state.
  lemma StoredContainer(body: Json, cs: seq<Container>, views: Views, now: Time, s: Status, i: nat)
    requires Reports(cs, views, now, s) && i < |cs|
    ensures var shown := Member(Member(MergePatch(body, PatchBody(s)), "status"), "containerStatuses");
            var c := cs[i];
            && shown.JArr? && |shown.items| == |cs| && Member(shown.items[i], "name") == JStr(c.name)
            && Member(shown.items[i], "ready") == JBool(c.name in views && views[c.name].running)
            && (c.name in views ==> Member(shown.items[i], "containerID") == JStr("docker://" + views[c.name].id))
            && (c.name !in views ==>
                  Member(Member(Member(shown.items[i], "state"), "waiting"), "reason") == JStr("ContainerCreating"))
            && (c.name in views && !views[c.name].running ==>
                  var done := Member(Member(shown.items[i], "state"), "terminated");
                  && Member(done, "exitCode") == JNum(Int32(views[c.name].exitCode))
                  && Member(done, "reason") == JStr(
                       if views[c.name].oomKilled then "OOMKilled" else if views[c.name].exitCode != 0 then "Error" else "Completed"))
  {
    ContainerReported(cs, views, now, s, i);
    ContainersPatched(body, s);
    ContainerShows(s.containers[i]);
    StateShown(s.containers[i].state);
  }
}
