/** One pass of the kubelet's worker over a pod: creating the containers of a live pod,
    stopping those of a pod under deletion, and reporting status. */
module Reconciler {
  import opened Options
  import opened PodStatus
  import opened Docker

  const CONTAINER_NAME_PREFIX := "klite_"
  const DEFAULT_GRACE_SECONDS := 30
  const REAP_GRACE_SECONDS := 10

  datatype Pod = Pod(
    ns: string, name: string, uid: string, containers: seq<Container>,
    deleting: bool, deletionGrace: Option<int>)

  function ContainerName(uid: string, name: string): string {
    CONTAINER_NAME_PREFIX + uid + "_" + name
  }

  // The number of characters before the first underscore.
  function UntilUnderscore(s: string): nat {
    if s == "" || s[0] == '_' then 0 else 1 + UntilUnderscore(s[1..])
  }

  lemma {:induction false} UidEnds(uid: string, name: string)
    requires '_' !in uid
    ensures UntilUnderscore(uid + "_" + name) == |uid|
  {
    if uid == "" {
      assert uid + "_" + name == "_" + name;
    } else {
      UidEnds(uid[1..], name);
      assert (uid + "_" + name)[1..] == uid[1..] + "_" + name;
    }
  }

  // Container names of one pod differ as the names in its spec do. Across pods they
  // differ because UIDs contain no underscore.
  lemma ContainerNameInjective(uid: string, name: string, uid': string, name': string)
    requires ContainerName(uid, name) == ContainerName(uid', name')
    requires uid == uid' || ('_' !in uid && '_' !in uid')
    ensures uid == uid' && name == name'
  {
    var s := ContainerName(uid, name);
    var rest, rest' := uid + "_" + name, uid' + "_" + name';
    assert s[|CONTAINER_NAME_PREFIX|..] == rest;
    assert s[|CONTAINER_NAME_PREFIX|..] == rest';
    if uid != uid' {
      UidEnds(uid, name);
      UidEnds(uid', name');
    }
    assert rest[..|uid|] == uid && rest'[..|uid|] == uid';
    assert rest[|uid| + 1..] == name && rest'[|uid| + 1..] == name';
  }

  // The underscore matters: other UIDs collide.
  lemma ContainerNameCollision()
    ensures ContainerName("a_b", "c") == ContainerName("a", "b_c")
  {
  }

  function NamesOf(uid: string, cs: seq<Container>): (names: seq<string>)
    ensures |names| == |cs|
  {
    if cs == [] then []
    else NamesOf(uid, cs[..|cs| - 1]) + [ContainerName(uid, cs[|cs| - 1].name)]
  }

  lemma {:induction false} NameAt(uid: string, cs: seq<Container>, i: nat)
    requires i < |cs|
    ensures NamesOf(uid, cs)[i] == ContainerName(uid, cs[i].name)
    decreases |cs|
  {
    if i < |cs| - 1 {
      NameAt(uid, cs[..|cs| - 1], i);
    }
  }

  // --- Translation of the spec ---

  datatype ContainerSpec = ContainerSpec(name: string, image: string, uid: string, networkMode: string)

  // The first container has its own network namespace, the others join it.
  function NetworkModeOf(uid: string, cs: seq<Container>, i: nat): string
    requires i < |cs|
  {
    if i == 0 then "" else "container:" + ContainerName(uid, cs[0].name)
  }

  function SpecAt(uid: string, cs: seq<Container>, i: nat): ContainerSpec
    requires i < |cs|
  {
    ContainerSpec(cs[i].name, cs[i].image, uid, NetworkModeOf(uid, cs, i))
  }

  ghost predicate Translates(pod: Pod, specs: seq<ContainerSpec>) {
    |specs| == |pod.containers| && forall i :: 0 <= i < |specs| ==> specs[i] == SpecAt(pod.uid, pod.containers, i)
  }

  // Resolving the environment and the volumes of a container may fail, with a text.
  type Resolving = seq<Option<string>>

  function Unresolved(resolving: Resolving, i: nat): Option<string> {
    if i < |resolving| then resolving[i] else None
  }

  ghost predicate Translatable(pod: Pod, resolving: Resolving) {
    |pod.containers| > 0 && forall i :: 0 <= i < |pod.containers| ==> Unresolved(resolving, i).None?
  }

  // A pod without containers is rejected, and so is one with a container that cannot be
  // resolved, for the first of these.
  method ContainerSpecsFromPod(pod: Pod, resolving: Resolving) returns (r: Result<seq<ContainerSpec>, string>)
    ensures r.Ok? <==> Translatable(pod, resolving)
    ensures r.Err? && |pod.containers| > 0 ==>
              exists i :: 0 <= i < |pod.containers| && Unresolved(resolving, i).Some?
                && (forall j :: 0 <= j < i ==> Unresolved(resolving, j).None?)
                && r.error == "container " + pod.containers[i].name + ": " + Unresolved(resolving, i).value
    ensures r.Ok? ==> |pod.containers| > 0 && Translates(pod, r.value)
    ensures r.Ok? ==> |r.value| == |pod.containers|
                      && (forall i :: 0 <= i < |r.value| ==>
                            r.value[i].name == pod.containers[i].name && r.value[i].image == pod.containers[i].image
                            && r.value[i].uid == pod.uid)
                      && r.value[0].networkMode == ""
                      && forall i :: 0 < i < |r.value| ==>
                           r.value[i].networkMode == "container:" + ("klite_" + pod.uid + "_" + pod.containers[0].name)
    ensures |pod.containers| == 0 ==> r == Err("pod " + pod.ns + "/" + pod.name + " has zero containers")
  {
    if |pod.containers| == 0 {
      return Err("pod " + pod.ns + "/" + pod.name + " has zero containers");
    }
    var sandboxName := ContainerName(pod.uid, pod.containers[0].name);
    var specs: seq<ContainerSpec> := [];
    for i := 0 to |pod.containers|
      invariant |specs| == i && forall j :: 0 <= j < i ==> specs[j] == SpecAt(pod.uid, pod.containers, j)
      invariant forall j :: 0 <= j < i ==> Unresolved(resolving, j).None?
    {
      var c := pod.containers[i];
      var failure := Unresolved(resolving, i);
      if failure.Some? {
        return Err("container " + c.name + ": " + failure.value);
      }
      var netMode := "";
      if i > 0 {
        netMode := "container:" + sandboxName;
      }
      specs := specs + [ContainerSpec(c.name, c.image, pod.uid, netMode)];
    }
    return Ok(specs);
  }

  // --- What a pass over a live pod does ---

  // The existing containers of a pod are the first ones of its spec.
  ghost predicate Prefixed(names: seq<string>, existing: set<string>) {
    exists n: nat :: n <= |names| && HasFirst(names, n, existing)
  }

  ghost predicate HasFirst(names: seq<string>, n: nat, existing: set<string>)
    requires n <= |names|
  {
    forall i :: 0 <= i < |names| ==> (names[i] in existing <==> names[i] in names[..n])
  }

  lemma TakeHas(names: seq<string>, n: nat)
    requires n <= |names|
    ensures forall i :: 0 <= i < n ==> names[i] in names[..n]
  {
    forall i | 0 <= i < n ensures names[i] in names[..n] {
      assert names[..n][i] == names[i];
    }
  }

  // Adding the next container, if it is missing, leaves a prefix.
  lemma PrefixGrows(names: seq<string>, i: nat, existing: set<string>, existing': set<string>)
    requires i < |names| && Prefixed(names, existing)
    requires forall j :: 0 <= j < i ==> names[j] in existing
    requires existing' == existing || existing' == existing + {names[i]}
    ensures Prefixed(names, existing')
  {
    var n: nat :| n <= |names| && HasFirst(names, n, existing);
    if names[i] in existing || names[i] !in existing' {
      assert existing' == existing;
      assert HasFirst(names, n, existing');
    } else {
      TakeHas(names, n);
      assert HasFirst(names, i + 1, existing') by {
        forall k | 0 <= k < |names| ensures names[k] in existing' <==> names[k] in names[..i + 1] {
          if names[k] in existing {
            var j :| 0 <= j < n && names[j] == names[k];
            assert names[..i + 1][j] == names[k];
          }
          if names[k] in names[..i + 1] {
            var j :| 0 <= j < i + 1 && names[j] == names[k];
          }
          if names[k] == names[i] { assert names[..i + 1][i] == names[k]; }
        }
      }
    }
  }

  // An attempt to create the i-th container, while those before it exist: it is there
  // afterwards, or nothing has changed.
  ghost predicate Tries(names: seq<string>, i: nat, existing: set<string>, existing': set<string>) {
    && i < |names| && (forall j :: 0 <= j < i ==> names[j] in existing)
    && (existing' == existing || existing' == existing + {names[i]})
  }

  ghost predicate TriesOne(names: seq<string>, existing: set<string>, existing': set<string>) {
    exists i: nat :: Tries(names, i, existing, existing')
  }

  // The later part of a history of containers consists of such attempts.
  ghost predicate OnlyTries(names: seq<string>, before: seq<set<string>>, after: seq<set<string>>) {
    && 0 < |before| && before <= after
    && forall k :: |before| <= k < |after| ==> TriesOne(names, after[k - 1], after[k])
  }

  // The containers after i steps of a pass: those at the start, and some of the pod's
  // among which the first i are all there.
  ghost predicate Grown(names: seq<string>, i: nat, start: set<string>, existing: set<string>,
                        before: seq<set<string>>, after: seq<set<string>>)
  {
    && i <= |names| && (forall j :: 0 <= j < i ==> names[j] in existing)
    && start <= existing && (forall n :: n in existing && n !in start ==> n in names)
    && OnlyTries(names, before, after) && before[|before| - 1] == start && after[|after| - 1] == existing
  }

  // At most the named container is added, and the history tells.
  ghost predicate Adds(name: string, existing: set<string>, existing': set<string>,
                       history: seq<set<string>>, history': seq<set<string>>)
  {
    && history != [] && history <= history' && history[|history| - 1] == existing && history'[|history'| - 1] == existing'
    && forall k :: |history| <= k < |history'| ==>
         history'[k] == existing + {name} || (history'[k] == history'[k - 1] == existing)
  }

  lemma AddsAtMost(name: string, existing: set<string>, existing': set<string>,
                   history: seq<set<string>>, history': seq<set<string>>, k: nat)
    requires Adds(name, existing, existing', history, history') && |history| <= k + 1 <= |history'|
    ensures history'[k] == existing || history'[k] == existing + {name}
  {
    if k >= |history| {
      var previous := history'[k - 1];
    }
  }

  lemma AddsNothing(name: string, existing: set<string>, history: seq<set<string>>)
    requires history != [] && history[|history| - 1] == existing
    ensures Adds(name, existing, existing, history, history + [existing])
  {
  }

  lemma AddsFirst(name: string, existing: set<string>, existing': set<string>, history: seq<set<string>>, history': seq<set<string>>)
    requires history != [] && history[|history| - 1] == existing
    requires Adds(name, existing, existing', history + [existing], history')
    ensures Adds(name, existing, existing', history, history')
  {
  }

  lemma AddsMore(name: string, existing: set<string>, existing': set<string>, existing'': set<string>,
                 history: seq<set<string>>, history': seq<set<string>>)
    requires Adds(name, existing, existing', history, history')
    requires existing'' == existing' || existing'' == existing + {name}
    ensures Adds(name, existing, existing'', history, history' + [existing''])
  {
    AddsAtMost(name, existing, existing', history, history', |history'| - 1);
  }

  lemma GrownStep(names: seq<string>, i: nat, start: set<string>, existing: set<string>, existing': set<string>,
                  before: seq<set<string>>, after: seq<set<string>>, after': seq<set<string>>)
    requires Grown(names, i, start, existing, before, after) && i < |names|
    requires Adds(names[i], existing, existing', after, after')
    ensures Grown(names, i, start, existing', before, after')
    ensures names[i] in existing' ==> Grown(names, i + 1, start, existing', before, after')
  {
    forall k | |after| <= k < |after'| ensures TriesOne(names, after'[k - 1], after'[k]) {
      AddsAtMost(names[i], existing, existing', after, after', k - 1);
      AddsAtMost(names[i], existing, existing', after, after', k);
      assert after'[k] == after'[k - 1] || after'[k] == existing + {names[i]};
      assert Tries(names, i, after'[k - 1], after'[k]);
    }
    forall k | |before| <= k < |after| ensures TriesOne(names, after'[k - 1], after'[k]) {
      assert after'[k] == after[k] && after'[k - 1] == after[k - 1];
    }
    AddsAtMost(names[i], existing, existing', after, after', |after'| - 1);
  }

  // A history of such attempts keeps to prefixes.
  lemma {:induction false} TriesStayPrefixed(names: seq<string>, before: seq<set<string>>, after: seq<set<string>>, k: nat)
    requires OnlyTries(names, before, after) && Prefixed(names, before[|before| - 1])
    requires |before| <= k + 1 <= |after|
    ensures Prefixed(names, after[k])
    decreases k
  {
    if |before| <= k {
      TriesStayPrefixed(names, before, after, k - 1);
      var i: nat :| Tries(names, i, after[k - 1], after[k]);
      PrefixGrows(names, i, after[k - 1], after[k]);
    }
  }

  // What a pass finds or makes for one container, and what the last inspection shows.
  datatype Step = Had(view: View) | Made(view: View)

  // How making a container fails.
  datatype MakeFault = NotPulled(msg: string) | NotCreated(msg: string) | NotInspected(reason: string)

  // A container is created once its image is there, and then inspected again.
  function MakeCalls(spec: ContainerSpec, name: string, r: Result<View, MakeFault>): seq<Call> {
    var pulled := Pulled(spec.image, !(r.Err? && r.error.NotPulled?));
    var created := Created(name, spec.networkMode, !(r.Err? && r.error.NotCreated?));
    match r
    case Ok(v) => [pulled, created, Inspected(name, Found(v))]
    case Err(NotPulled(_)) => [pulled]
    case Err(NotCreated(_)) => [pulled, created]
    case Err(NotInspected(reason)) => [pulled, created, Inspected(name, Unanswered(reason))]
  }

  function CallsOf(uid: string, cs: seq<Container>, i: nat, step: Step): seq<Call>
    requires i < |cs|
  {
    var name := ContainerName(uid, cs[i].name);
    match step
    case Had(v) => [Inspected(name, Found(v))]
    case Made(v) => [Inspected(name, Absent)] + MakeCalls(SpecAt(uid, cs, i), name, Ok(v))
  }

  function TraceOf(uid: string, cs: seq<Container>, steps: seq<Step>): seq<Call>
    requires |steps| <= |cs|
  {
    if steps == [] then []
    else TraceOf(uid, cs, steps[..|steps| - 1]) + CallsOf(uid, cs, |steps| - 1, steps[|steps| - 1])
  }

  ghost predicate MakesMissing(names: seq<string>, steps: seq<Step>, existing: set<string>)
    requires |steps| <= |names|
  {
    forall i :: 0 <= i < |steps| && steps[i].Made? ==> names[i] !in existing
  }

  function ViewsOf(cs: seq<Container>, steps: seq<Step>): Views
    requires |steps| <= |cs|
  {
    if steps == [] then map[]
    else ViewsOf(cs, steps[..|steps| - 1])[cs[|steps| - 1].name := steps[|steps| - 1].view]
  }

  lemma TraceStep(uid: string, cs: seq<Container>, steps: seq<Step>, step: Step)
    requires |steps| < |cs|
    ensures TraceOf(uid, cs, steps + [step]) == TraceOf(uid, cs, steps) + CallsOf(uid, cs, |steps|, step)
    ensures ViewsOf(cs, steps + [step]) == ViewsOf(cs, steps)[cs[|steps|].name := step.view]
  {
    assert (steps + [step])[..|steps|] == steps;
  }

  // The state of a pass after some steps.
  ghost predicate Progress(pod: Pod, steps: seq<Step>, views: Views, start: set<string>, existing: set<string>,
                           before: seq<set<string>>, after: seq<set<string>>)
    requires |steps| <= |pod.containers|
  {
    var names := NamesOf(pod.uid, pod.containers);
    && views == ViewsOf(pod.containers, steps)
    && MakesMissing(names, steps, start)
    && Grown(names, |steps|, start, existing, before, after)
  }

  lemma ProgressStops(pod: Pod, steps: seq<Step>, views: Views,
                      start: set<string>, existing: set<string>, existing': set<string>,
                      before: seq<set<string>>, after: seq<set<string>>, after': seq<set<string>>)
    requires |steps| < |pod.containers| && Progress(pod, steps, views, start, existing, before, after)
    requires Adds(ContainerName(pod.uid, pod.containers[|steps|].name), existing, existing', after, after')
    ensures Progress(pod, steps, views, start, existing', before, after')
  {
    NameAt(pod.uid, pod.containers, |steps|);
    GrownStep(NamesOf(pod.uid, pod.containers), |steps|, start, existing, existing', before, after, after');
  }

  lemma MissingStep(names: seq<string>, steps: seq<Step>, step: Step, start: set<string>)
    requires |steps| < |names| && MakesMissing(names, steps, start)
    requires step.Made? ==> names[|steps|] !in start
    ensures MakesMissing(names, steps + [step], start)
  {
  }

  lemma ProgressStep(pod: Pod, steps: seq<Step>, step: Step, views: Views,
                     start: set<string>, existing: set<string>, existing': set<string>,
                     before: seq<set<string>>, after: seq<set<string>>, after': seq<set<string>>)
    requires |steps| < |pod.containers| && Progress(pod, steps, views, start, existing, before, after)
    requires var name := ContainerName(pod.uid, pod.containers[|steps|].name);
             && Adds(name, existing, existing', after, after') && name in existing'
             && (step.Made? ==> name !in existing)
    ensures Progress(pod, steps + [step], views[pod.containers[|steps|].name := step.view], start, existing', before, after')
  {
    NameAt(pod.uid, pod.containers, |steps|);
    TraceStep(pod.uid, pod.containers, steps, step);
    MissingStep(NamesOf(pod.uid, pod.containers), steps, step, start);
    GrownStep(NamesOf(pod.uid, pod.containers), |steps|, start, existing, existing', before, after, after');
  }

  // How a pass ends.
  datatype End =
    | Complete(now: Time)
    | NoSpecs(msg: string)
    | Uninspected(reason: string)
    | Unmade(fault: MakeFault)

  // A pass that ends while making a container did not find it at the start.
  ghost predicate EndsMissing(pod: Pod, i: nat, failure: Option<End>, start: set<string>) {
    failure.Some? && failure.value.Unmade? && i < |pod.containers| ==>
      ContainerName(pod.uid, pod.containers[i].name) !in start
  }

  // The calls for the container at which a pass ends early.
  function LastCalls(uid: string, cs: seq<Container>, i: nat, end: End): seq<Call> {
    if i >= |cs| then []
    else
      var name := ContainerName(uid, cs[i].name);
      match end
      case Complete(_) => []
      case NoSpecs(_) => []
      case Uninspected(reason) => [Inspected(name, Unanswered(reason))]
      case Unmade(fault) => [Inspected(name, Absent)] + MakeCalls(SpecAt(uid, cs, i), name, Err(fault))
  }

  function StoppedBy(end: End): Option<End> {
    if end.Complete? then None else Some(end)
  }

  function LastOf(pod: Pod, i: nat, failure: Option<End>): seq<Call> {
    if failure.None? then [] else LastCalls(pod.uid, pod.containers, i, failure.value)
  }

  // The calls of the steps, then those of the failure, if there was one.
  ghost predicate Traced(pod: Pod, steps: seq<Step>, failure: Option<End>, before: seq<Call>, after: seq<Call>)
    requires |steps| <= |pod.containers|
  {
    after == before + TraceOf(pod.uid, pod.containers, steps) + LastOf(pod, |steps|, failure)
  }

  lemma TracedStep(pod: Pod, steps: seq<Step>, step: Step, before: seq<Call>, after: seq<Call>, after': seq<Call>)
    requires |steps| < |pod.containers| && Traced(pod, steps, None, before, after)
    requires after' == after + CallsOf(pod.uid, pod.containers, |steps|, step)
    ensures Traced(pod, steps + [step], None, before, after')
  {
    TraceStep(pod.uid, pod.containers, steps, step);
  }

  lemma TracedEnd(pod: Pod, steps: seq<Step>, end: End, before: seq<Call>, after: seq<Call>, after': seq<Call>)
    requires |steps| <= |pod.containers| && Traced(pod, steps, None, before, after)
    requires after' == after + LastCalls(pod.uid, pod.containers, |steps|, end)
    ensures Traced(pod, steps, Some(end), before, after')
  {
  }

  // A creation of the i-th container: it was found absent and its image was pulled just before.
  // The first one has a network of its own. Any other joins that of the first one, which
  // exists at that time.
  ghost predicate CreationAt(pod: Pod, i: nat, history: seq<set<string>>, before: seq<Call>, after: seq<Call>, p: nat)
    requires p < |after| && after[p].Created?
  {
    && i < |pod.containers| && |before| + 2 <= p
    && after[p].name == "klite_" + pod.uid + "_" + pod.containers[i].name
    && after[p - 2] == Inspected(after[p].name, Absent) && after[p - 1] == Pulled(pod.containers[i].image, true)
    && if i == 0 then after[p].networkMode == ""
       else
         var first := "klite_" + pod.uid + "_" + pod.containers[0].name;
         && after[p].networkMode == "container:" + first
         && p < |history| && first in history[p]
  }

  ghost predicate CreatedWell(pod: Pod, history: seq<set<string>>, before: seq<Call>, after: seq<Call>) {
    && before <= after
    && forall p :: |before| <= p < |after| && after[p].Created? ==> exists i :: CreationAt(pod, i, history, before, after, p)
  }

  lemma CreatedWellNone(pod: Pod, history: seq<set<string>>, before: seq<Call>, calls: seq<Call>)
    requires forall call :: call in calls ==> !call.Created?
    ensures CreatedWell(pod, history, before, before + calls)
  {
  }

  lemma CreatedWellOne(pod: Pod, i: nat, before: seq<Call>, r: Result<View, MakeFault>,
                       history: seq<set<string>>, history': seq<set<string>>)
    requires i < |pod.containers| && history <= history' && |history| == |before| + 1 && |history'| >= |before| + 3
    requires i > 0 ==> ContainerName(pod.uid, pod.containers[0].name) in history'[|before| + 2]
    ensures var name := ContainerName(pod.uid, pod.containers[i].name);
            CreatedWell(pod, history', before, before + ([Inspected(name, Absent)] + MakeCalls(SpecAt(pod.uid, pod.containers, i), name, r)))
  {
    var name := ContainerName(pod.uid, pod.containers[i].name);
    var made := [Inspected(name, Absent)] + MakeCalls(SpecAt(pod.uid, pod.containers, i), name, r);
    var after := before + made;
    var pulled := Pulled(pod.containers[i].image, true);
    forall p | |before| <= p < |after| && after[p].Created? ensures exists j :: CreationAt(pod, j, history', before, after, p) {
      assert after[p] == made[p - |before|];
      assert p == |before| + 2 && after[p - 1] == made[1] == pulled && after[p - 2] == made[0];
      assert CreationAt(pod, i, history', before, after, p);
    }
  }

  lemma CreatedWellMore(pod: Pod, a: seq<Call>, b: seq<Call>, c: seq<Call>, history: seq<set<string>>, history': seq<set<string>>)
    requires CreatedWell(pod, history, a, b) && CreatedWell(pod, history', b, c) && history <= history'
    ensures CreatedWell(pod, history', a, c)
  {
    forall p | |a| <= p < |c| && c[p].Created? ensures exists i :: CreationAt(pod, i, history', a, c, p) {
      if p < |b| {
        assert c[p] == b[p];
        var i :| CreationAt(pod, i, history, a, b, p);
        assert b[..p] == c[..p];
        assert CreationAt(pod, i, history', a, c, p);
      } else {
        var i :| CreationAt(pod, i, history', b, c, p);
        assert CreationAt(pod, i, history', a, c, p);
      }
    }
  }

  // The failures that are reported as the status of the pod.
  function FailureText(end: End): Option<string> {
    match end
    case NoSpecs(msg) => Some(msg)
    case Unmade(NotPulled(msg)) => Some(msg)
    case Unmade(NotCreated(msg)) => Some(msg)
    case _ => None
  }

  // --- What stopping the containers of a pod under deletion does ---

  // One container: already absent, or found and asked to stop.
  datatype Halt = Gone | Asked(view: View, ok: bool)

  function HaltCalls(name: string, grace: int, halt: Halt): seq<Call> {
    match halt
    case Gone => [Inspected(name, Absent)]
    case Asked(v, ok) => [Inspected(name, Found(v)), Stopped(name, grace, ok)]
  }

  // The last container in the spec comes first.
  function HaltTrace(names: seq<string>, grace: int, halts: seq<Halt>): seq<Call>
    requires |halts| <= |names|
  {
    if halts == [] then []
    else
      var n := |halts| - 1;
      HaltTrace(names, grace, halts[..n]) + HaltCalls(names[|names| - 1 - n], grace, halts[n])
  }

  // Where in the trace the j-th halt starts.
  function HaltAt(names: seq<string>, grace: int, halts: seq<Halt>, j: nat): nat
    requires |halts| <= |names| && j <= |halts|
  {
    |HaltTrace(names, grace, halts[..j])|
  }

  lemma {:induction false} HaltPrefix(names: seq<string>, grace: int, halts: seq<Halt>, j: nat)
    requires j <= |halts| <= |names|
    ensures HaltTrace(names, grace, halts[..j]) <= HaltTrace(names, grace, halts)
    decreases |halts|
  {
    if j == |halts| {
      assert halts[..j] == halts;
    } else {
      HaltPrefix(names, grace, halts[..|halts| - 1], j);
      assert halts[..|halts| - 1][..j] == halts[..j];
    }
  }

  lemma HaltPlaced(names: seq<string>, grace: int, halts: seq<Halt>, j: nat)
    requires |halts| <= |names| && j < |halts|
    ensures var calls := HaltCalls(names[|names| - 1 - j], grace, halts[j]);
            && HaltTrace(names, grace, halts[..j]) + calls <= HaltTrace(names, grace, halts)
            && HaltAt(names, grace, halts, j + 1) == HaltAt(names, grace, halts, j) + |calls|
  {
    HaltPrefix(names, grace, halts, j + 1);
    assert halts[..j + 1][..j] == halts[..j];
  }

  lemma CallAt(first: seq<Call>, next: seq<Call>, whole: seq<Call>, k: nat)
    requires first + next <= whole && k < |next|
    ensures |first| + k < |whole| && whole[|first| + k] == next[k]
  {
    assert (first + next)[|first| + k] == next[k];
  }

  // Every container is found absent or asked to stop, each after those that follow it
  // in the spec, so the first one, whose network the others share, comes last.
  lemma HaltsInOrder(names: seq<string>, grace: int, halts: seq<Halt>, j: nat)
    requires |halts| <= |names| && j < |halts|
    ensures var trace, p, name := HaltTrace(names, grace, halts), HaltAt(names, grace, halts, j), names[|names| - 1 - j];
            && p < |trace| && HaltAt(names, grace, halts, j + 1) == p + |HaltCalls(name, grace, halts[j])| <= |trace|
            && (halts[j].Gone? ==> trace[p] == Inspected(name, Absent))
            && (halts[j].Asked? ==> p + 1 < |trace| && trace[p] == Inspected(name, Found(halts[j].view))
                                    && trace[p + 1] == Stopped(name, grace, halts[j].ok))
  {
    HaltPlaced(names, grace, halts, j);
    var calls := HaltCalls(names[|names| - 1 - j], grace, halts[j]);
    CallAt(HaltTrace(names, grace, halts[..j]), calls, HaltTrace(names, grace, halts), 0);
    if halts[j].Asked? {
      CallAt(HaltTrace(names, grace, halts[..j]), calls, HaltTrace(names, grace, halts), 1);
    }
  }

  lemma {:induction false} HaltsApart(names: seq<string>, grace: int, halts: seq<Halt>, i: nat, j: nat)
    requires i < j <= |halts| <= |names|
    ensures HaltAt(names, grace, halts, i) < HaltAt(names, grace, halts, j)
    decreases j
  {
    HaltPlaced(names, grace, halts, j - 1);
    if i < j - 1 {
      HaltsApart(names, grace, halts, i, j - 1);
    }
  }

  // At one point of the calls a container was found absent, or found and asked to stop.
  predicate HandledAt(name: string, grace: int, calls: seq<Call>, at: nat) {
    && at < |calls| && calls[at].Inspected? && calls[at].name == name
    && (calls[at].answer.Absent?
        || (calls[at].answer.Found? && at + 1 < |calls| && calls[at + 1].Stopped?
            && calls[at + 1].name == name && calls[at + 1].grace == grace))
  }

  // Every container was, each after those that follow it.
  ghost predicate HandledInReverse(names: seq<string>, grace: int, calls: seq<Call>) {
    exists at: seq<nat> :: HandledInReverseAt(names, grace, calls, at)
  }

  ghost predicate HandledInReverseAt(names: seq<string>, grace: int, calls: seq<Call>, at: seq<nat>) {
    && |at| == |names| && (forall k :: 0 <= k < |names| ==> HandledAt(names[k], grace, calls, at[k]))
    && (forall k, l :: 0 <= k < l < |names| ==> at[l] < at[k])
  }

  lemma HaltHandles(names: seq<string>, grace: int, halts: seq<Halt>, j: nat)
    requires |halts| <= |names| && j < |halts|
    ensures HandledAt(names[|names| - 1 - j], grace, HaltTrace(names, grace, halts), HaltAt(names, grace, halts, j))
  {
    HaltsInOrder(names, grace, halts, j);
  }

  // Where in the trace each container is handled.
  function Places(names: seq<string>, grace: int, halts: seq<Halt>): (at: seq<nat>)
    requires |halts| == |names|
    ensures |at| == |names| && forall k :: 0 <= k < |names| ==> at[k] == HaltAt(names, grace, halts, |names| - 1 - k)
  {
    seq(|names|, k requires 0 <= k < |names| => HaltAt(names, grace, halts, |names| - 1 - k))
  }

  lemma PlacesDescend(names: seq<string>, grace: int, halts: seq<Halt>)
    requires |halts| == |names|
    ensures var at := Places(names, grace, halts); forall k, l :: 0 <= k < l < |names| ==> at[l] < at[k]
  {
    var at := Places(names, grace, halts);
    forall k, l | 0 <= k < l < |names| ensures at[l] < at[k] {
      HaltsApart(names, grace, halts, |names| - 1 - l, |names| - 1 - k);
    }
  }

  lemma HaltsHandle(names: seq<string>, grace: int, halts: seq<Halt>)
    requires |halts| == |names|
    ensures HandledInReverse(names, grace, HaltTrace(names, grace, halts))
  {
    var trace, at := HaltTrace(names, grace, halts), Places(names, grace, halts);
    forall k | 0 <= k < |names| ensures HandledAt(names[k], grace, trace, at[k]) {
      HaltHandles(names, grace, halts, |names| - 1 - k);
    }
    PlacesDescend(names, grace, halts);
    assert HandledInReverseAt(names, grace, trace, at);
  }

  ghost predicate HaltedSoFar(names: seq<string>, grace: int, halts: seq<Halt>, before: seq<Call>, after: seq<Call>)
    requires |halts| <= |names|
  {
    after == before + HaltTrace(names, grace, halts)
  }

  // All the halts, or those before an inspection that failed.
  ghost predicate Halted(names: seq<string>, grace: int, halts: seq<Halt>, before: seq<Call>, after: seq<Call>)
    requires |halts| <= |names|
  {
    if |halts| == |names| then HaltedSoFar(names, grace, halts, before, after)
    else
      && |after| > 0 && HaltedSoFar(names, grace, halts, before, after[..|after| - 1])
      && FailedInspection(after[|after| - 1], names[|names| - 1 - |halts|])
  }

  predicate FailedInspection(c: Call, name: string) {
    c.Inspected? && c.name == name && c.answer.Unanswered?
  }

  lemma HaltedStep(names: seq<string>, grace: int, halts: seq<Halt>, halt: Halt,
                   before: seq<Call>, after: seq<Call>, after': seq<Call>)
    requires |halts| < |names| && HaltedSoFar(names, grace, halts, before, after)
    requires after' == after + HaltCalls(names[|names| - 1 - |halts|], grace, halt)
    ensures HaltedSoFar(names, grace, halts + [halt], before, after')
  {
    assert (halts + [halt])[..|halts|] == halts;
  }

  lemma HaltedExtends(names: seq<string>, grace: int, halts: seq<Halt>, before: seq<Call>, after: seq<Call>)
    requires |halts| <= |names| && Halted(names, grace, halts, before, after)
    ensures before <= after
  {
  }

  // What a terminating pass over a pod asks of Docker: a listing first if the spec has no
  // containers, then the halts.
  ghost predicate Terminates(pod: Pod, names: seq<string>, halts: seq<Halt>, before: seq<Call>, after: seq<Call>) {
    var n := |before| + if |pod.containers| > 0 then 0 else 1;
    && |halts| <= |names| && (|pod.containers| > 0 ==> names == NamesOf(pod.uid, pod.containers))
    && n <= |after| && after[..|before|] == before && (|before| < n ==> after[|before|].Listed?)
    && Halted(names, GraceOf(pod), halts, after[..n], after)
  }

  // A pass that gets through has handled every container of the spec, the first one, whose
  // network the others share, last.
  lemma TerminatesInReverse(pod: Pod, names: seq<string>, halts: seq<Halt>, before: seq<Call>, after: seq<Call>)
    requires Terminates(pod, names, halts, before, after) && |halts| == |names|
    requires |pod.containers| > 0
    ensures before <= after && HandledInReverse(NamesOf(pod.uid, pod.containers), GraceOf(pod), after[|before|..])
    ensures pod.deletionGrace.None? ==> HandledInReverse(NamesOf(pod.uid, pod.containers), 30_000_000_000, after[|before|..])
    ensures pod.deletionGrace.Some? && -9_223_372_036 <= pod.deletionGrace.value <= 9_223_372_036 ==>
              HandledInReverse(NamesOf(pod.uid, pod.containers), pod.deletionGrace.value * 1_000_000_000, after[|before|..])
  {
    HaltsHandle(names, GraceOf(pod), halts);
    SecondsExact(if pod.deletionGrace.Some? then pod.deletionGrace.value else 30);
    assert after[|before|..] == HaltTrace(names, GraceOf(pod), halts);
  }

  // All that a terminating pass asks of Docker: to inspect containers, and to stop those that
  // it has just found.
  predicate HaltingCall(names: seq<string>, grace: int, calls: seq<Call>, p: nat)
    requires p < |calls|
  {
    match calls[p]
    case Inspected(name, _) => name in names
    case Stopped(name, period, _) =>
      p > 0 && calls[p - 1].Inspected? && calls[p - 1].name == name && calls[p - 1].answer.Found? && name in names && period == grace
    case _ => false
  }

  lemma {:induction false} HaltTraceCalls(names: seq<string>, grace: int, halts: seq<Halt>, p: nat)
    requires |halts| <= |names| && p < |HaltTrace(names, grace, halts)|
    ensures HaltingCall(names, grace, HaltTrace(names, grace, halts), p)
  {
    var n := |halts| - 1;
    var first := HaltTrace(names, grace, halts[..n]);
    if p < |first| {
      HaltTraceCalls(names, grace, halts[..n], p);
      assert HaltTrace(names, grace, halts)[p] == first[p];
      assert p > 0 ==> HaltTrace(names, grace, halts)[p - 1] == first[p - 1];
    }
  }

  lemma HaltedCalls(names: seq<string>, grace: int, halts: seq<Halt>, before: seq<Call>, after: seq<Call>, p: nat)
    requires |halts| <= |names| && Halted(names, grace, halts, before, after) && |before| <= p < |after|
    ensures HaltingCall(names, grace, after, p)
  {
    var trace := HaltTrace(names, grace, halts);
    if p < |before| + |trace| {
      HaltTraceCalls(names, grace, halts, p - |before|);
      assert after[p] == trace[p - |before|];
      assert p > |before| ==> after[p - 1] == trace[p - 1 - |before|];
    }
  }

  lemma TerminatingCalls(pod: Pod, names: seq<string>, halts: seq<Halt>, before: seq<Call>, after: seq<Call>, p: nat)
    requires Terminates(pod, names, halts, before, after)
    requires |before| + (if |pod.containers| > 0 then 0 else 1) <= p < |after|
    ensures pod.deletionGrace.None? ==> HaltingCall(names, 30_000_000_000, after, p)
    ensures pod.deletionGrace.Some? && -9_223_372_036 <= pod.deletionGrace.value <= 9_223_372_036 ==>
              HaltingCall(names, pod.deletionGrace.value * 1_000_000_000, after, p)
  {
    var n := |before| + if |pod.containers| > 0 then 0 else 1;
    SecondsExact(if pod.deletionGrace.Some? then pod.deletionGrace.value else 30);
    HaltedCalls(names, GraceOf(pod), halts, after[..n], after, p);
  }

  // Between two points in the calls, each removal directly follows a stop of the same
  // container.
  ghost predicate StopsFirst(before: seq<Call>, after: seq<Call>) {
    && before <= after
    && forall i :: |before| <= i < |after| && after[i].Removed? ==> i > |before| && IsStop(after[i - 1], after[i].name)
  }

  predicate IsStop(c: Call, name: string) {
    c.Stopped? && c.name == name && c.grace == 10_000_000_000
  }

  lemma StopsFirstStep(before: seq<Call>, after: seq<Call>, name: string, stopped: bool, removed: bool)
    requires StopsFirst(before, after)
    ensures StopsFirst(before, after + [Stopped(name, 10_000_000_000, stopped)] + [Removed(name, removed)])
  {
  }

  lemma StopsFirstMore(a: seq<Call>, b: seq<Call>, c: seq<Call>)
    requires StopsFirst(a, b) && StopsFirst(b, c)
    ensures StopsFirst(a, c)
  {
  }

  // What a listing says of one pod.
  ghost predicate LabelledNames(listing: Call, uid: string, boxes: Boxes, names: seq<string>) {
    && listing.Listed?
    && (forall n :: n in names ==> n in boxes && boxes[n].uid == uid)
    && (if listing.ok then forall n :: n in boxes && boxes[n].uid == uid != "" ==> n in names else names == [])
  }

  // Durations are int64 nanoseconds; this is the conversion from seconds.
  function Seconds(n: int): int {
    (n * 1_000_000_000 + 0x8000_0000_0000_0000) % 0x1_0000_0000_0000_0000 - 0x8000_0000_0000_0000
  }

  // It is exact for up to 292 years, and keeps the lowest 64 bits otherwise.
  lemma SecondsExact(n: int)
    ensures -9_223_372_036 <= n <= 9_223_372_036 ==> Seconds(n) == n * 1_000_000_000
    ensures -0x8000_0000_0000_0000 <= Seconds(n) < 0x8000_0000_0000_0000
    ensures exists k: int :: n * 1_000_000_000 == Seconds(n) + 0x1_0000_0000_0000_0000 * k
  {
    var k := (n * 1_000_000_000 + 0x8000_0000_0000_0000) / 0x1_0000_0000_0000_0000;
    assert n * 1_000_000_000 == Seconds(n) + 0x1_0000_0000_0000_0000 * k;
  }

  function GraceOf(pod: Pod): int {
    Seconds(if pod.deletionGrace.Some? then pod.deletionGrace.value else DEFAULT_GRACE_SECONDS)
  }

  // --- The API server as the kubelet uses it ---

  datatype Request =
    | PatchStatus(ns: string, name: string, status: Status)
    | DeletePod(ns: string, name: string, grace: int)

  datatype Reply = Done | PodGone | Rejected

  // One more reply; a pass is tried again exactly if it is a rejection.
  predicate Answered(before: seq<Reply>, after: seq<Reply>, r: Outcome) {
    |after| == |before| + 1 && after[..|before|] == before && (r.Retry? <==> after[|before|].Rejected?)
  }

  // Every request so far, and the replies to them.
  class Kube {
    var requests: seq<Request>
    var replies: seq<Reply>

    constructor ()
      ensures requests == [] && replies == []
    {
      requests, replies := [], [];
    }

    method Send(request: Request) returns (reply: Reply)
      modifies this
      ensures requests == old(requests) + [request] && replies == old(replies) + [reply]
    {
      reply := *;
      requests, replies := requests + [request], replies + [reply];
    }

    // What was sent since: one request, which was answered, or none.
    twostate predicate Sent(request: Request, r: Outcome)
      reads this
    {
      requests == old(requests) + [request] && Answered(old(replies), replies, r)
    }

    twostate predicate Silent()
      reads this
    {
      requests == old(requests) && replies == old(replies)
    }
  }

  datatype Outcome = Success | Retry

  datatype Pass = Skipped | Live(steps: seq<Step>, end: End) | Terminating(names: seq<string>, halts: seq<Halt>)

  class Reconciler {
    const docker: Docker
    const kube: Kube
    // Why a pod was reported failed, by UID.
    var failedPods: map<string, string>

    constructor (docker: Docker, kube: Kube)
      ensures this.docker == docker && this.kube == kube && failedPods == map[]
    {
      this.docker, this.kube, failedPods := docker, kube, map[];
    }

    // A pod that is gone counts as patched.
    method PatchPodStatus(pod: Pod, status: Status) returns (r: Outcome)
      modifies kube
      ensures kube.Sent(PatchStatus(pod.ns, pod.name, status), r)
    {
      var reply := kube.Send(PatchStatus(pod.ns, pod.name, status));
      r := if reply.Rejected? then Retry else Success;
    }

    predicate Reported(uid: string, msg: string)
      reads this
    {
      uid in failedPods && failedPods[uid] == msg
    }

    // A failure is reported once for each reason.
    method MarkFailedOnce(pod: Pod, msg: string) returns (r: Outcome)
      modifies kube, this`failedPods
      ensures old(Reported(pod.uid, msg)) ==>
                r.Success? && kube.Silent() && failedPods == old(failedPods)
      ensures !old(Reported(pod.uid, msg)) ==>
                && kube.Sent(PatchStatus(pod.ns, pod.name, FailedPodStatus(msg)), r)
                && FailedPodStatus(msg) == Status(Failed, "KubeletLite", Because(msg), "127.0.0.1", "", None, [])
                && failedPods == if r.Success? then old(failedPods)[pod.uid := msg] else old(failedPods)
    {
      if pod.uid in failedPods && failedPods[pod.uid] == msg {
        return Success;
      }
      r := PatchPodStatus(pod, FailedPodStatus(msg));
      if r.Success? {
        failedPods := failedPods[pod.uid := msg];
      }
    }

    // What the loop over the specs does for an absent container.
    method MakeContainer(spec: ContainerSpec, name: string) returns (r: Result<View, MakeFault>)
      requires docker.Valid() && name !in docker.boxes
      modifies docker
      ensures docker.Valid() && docker.calls == old(docker.calls) + MakeCalls(spec, name, r)
      ensures Adds(name, old(docker.boxes).Keys, docker.boxes.Keys, old(docker.history), docker.history)
      ensures old(docker.history) + [old(docker.boxes).Keys] <= docker.history
      ensures r.Ok? ==> name in docker.boxes
    {
      var msg: string := *;
      ghost var existing, history := docker.boxes.Keys, docker.history;
      var pulled := docker.EnsurePulled(spec.image);
      AddsNothing(name, existing, history);
      if !pulled {
        return Err(NotPulled(msg));
      }
      var made := docker.CreateAndStart(name, spec.uid, spec.networkMode);
      ghost var existing' := docker.boxes.Keys;
      AddsMore(name, existing, existing, existing', history, history + [existing]);
      if !made {
        return Err(NotCreated(msg));
      }
      var answer := docker.Inspect(name);
      AddsMore(name, existing, existing', existing', history, history + [existing, existing']);
      match answer {
        case Unanswered(reason) => return Err(NotInspected(reason));
        case Found(view) => return Ok(view);
        case Absent => assert false;
      }
    }

    // The body of the loop over the specs.
    method EnsureContainer(pod: Pod, i: nat) returns (r: Result<Step, End>)
      requires docker.Valid() && i < |pod.containers|
      modifies docker
      ensures var name := ContainerName(pod.uid, pod.containers[i].name);
              && docker.Valid()
              && Adds(name, old(docker.boxes).Keys, docker.boxes.Keys, old(docker.history), docker.history)
              && (r.Ok? ==> name in docker.boxes && (r.value.Had? <==> name in old(docker.boxes))
                            && docker.calls == old(docker.calls) + CallsOf(pod.uid, pod.containers, i, r.value))
              && (r.Err? ==> !r.error.Complete? && !r.error.NoSpecs? && (r.error.Unmade? ==> name !in old(docker.boxes))
                             && docker.calls == old(docker.calls) + LastCalls(pod.uid, pod.containers, i, r.error))
      ensures i == 0 || ContainerName(pod.uid, pod.containers[0].name) in old(docker.boxes) ==>
                CreatedWell(pod, docker.history, old(docker.calls), docker.calls)
    {
      var spec := SpecAt(pod.uid, pod.containers, i);
      var name := ContainerName(pod.uid, spec.name);
      var answer := docker.Inspect(name);
      match answer {
        case Unanswered(reason) =>
          AddsNothing(name, old(docker.boxes).Keys, old(docker.history));
          CreatedWellNone(pod, docker.history, old(docker.calls), [Inspected(name, answer)]);
          return Err(Uninspected(reason));
        case Found(view) =>
          AddsNothing(name, old(docker.boxes).Keys, old(docker.history));
          CreatedWellNone(pod, docker.history, old(docker.calls), [Inspected(name, answer)]);
          return Ok(Had(view));
        case Absent =>
          var made := MakeContainer(spec, name);
          AddsFirst(name, old(docker.boxes).Keys, docker.boxes.Keys, old(docker.history), docker.history);
          if i == 0 || ContainerName(pod.uid, pod.containers[0].name) in old(docker.boxes) {
            CreatedWellOne(pod, i, old(docker.calls), made, old(docker.history), docker.history);
          }
          return match made case Ok(view) => Ok(Made(view)) case Err(fault) => Err(Unmade(fault));
      }
    }

    // The loop over the specs, in spec order so that the first container exists before
    // any other joins its network.
    method EnsureContainers(pod: Pod) returns (ghost steps: seq<Step>, views: Views, failure: Option<End>)
      requires docker.Valid()
      modifies docker
      ensures docker.Valid()
      ensures failure.None? <==> |steps| == |pod.containers|
      ensures failure.Some? ==> !failure.value.Complete? && !failure.value.NoSpecs?
      ensures |steps| <= |pod.containers|
              && Progress(pod, steps, views, old(docker.boxes).Keys, docker.boxes.Keys, old(docker.history), docker.history)
              && Traced(pod, steps, failure, old(docker.calls), docker.calls)
              && EndsMissing(pod, |steps|, failure, old(docker.boxes).Keys)
      ensures CreatedWell(pod, docker.history, old(docker.calls), docker.calls)
    {
      steps, views := [], map[];
      ghost var calls, start, before := docker.calls, docker.boxes.Keys, docker.history;
      for i := 0 to |pod.containers|
        invariant docker.Valid() && |steps| == i
        invariant Traced(pod, steps, None, calls, docker.calls)
        invariant CreatedWell(pod, docker.history, calls, docker.calls)
        invariant Progress(pod, steps, views, start, docker.boxes.Keys, before, docker.history)
      {
        ghost var existing, history, called := docker.boxes.Keys, docker.history, docker.calls;
        NameAt(pod.uid, pod.containers, 0);
        var r := EnsureContainer(pod, i);
        CreatedWellMore(pod, calls, called, docker.calls, history, docker.history);
        if r.Err? {
          ProgressStops(pod, steps, views, start, existing, docker.boxes.Keys, before, history, docker.history);
          TracedEnd(pod, steps, r.error, calls, called, docker.calls);
          return steps, views, Some(r.error);
        }
        ProgressStep(pod, steps, r.value, views, start, existing, docker.boxes.Keys, before, history, docker.history);
        TracedStep(pod, steps, r.value, calls, called, docker.calls);
        steps := steps + [r.value];
        views := views[pod.containers[i].name := r.value.view];
      }
      failure := None;
    }

    // What a pass over a live pod reports: its status, or why it failed unless that was
    // said before, or nothing.
    twostate predicate Responds(pod: Pod, steps: seq<Step>, end: End, r: Outcome)
      requires |steps| <= |pod.containers|
      reads this, kube
    {
      && (end.Complete? ==>
            && failedPods == old(failedPods)
            && exists status :: kube.Sent(PatchStatus(pod.ns, pod.name, status), r)
                                && Reports(pod.containers, ViewsOf(pod.containers, steps), end.now, status))
      && (!end.Complete? ==> Explains(pod, FailureText(end), r))
    }

    // What a pass that ends early reports.
    twostate predicate Explains(pod: Pod, failure: Option<string>, r: Outcome)
      reads this, kube
    {
      match failure
      case None => r.Retry? && kube.Silent() && failedPods == old(failedPods)
      case Some(msg) =>
        if old(Reported(pod.uid, msg)) then r.Success? && kube.Silent() && failedPods == old(failedPods)
        else
          && kube.Sent(PatchStatus(pod.ns, pod.name, FailedPodStatus(msg)), r)
          && failedPods == if r.Success? then old(failedPods)[pod.uid := msg] else old(failedPods)
    }

    method ExplainEnd(pod: Pod, end: End) returns (r: Outcome)
      requires !end.Complete?
      modifies kube, this`failedPods
      ensures Explains(pod, FailureText(end), r)
    {
      match end {
        case NoSpecs(msg) => r := MarkFailedOnce(pod, msg);
        case Unmade(NotPulled(msg)) => r := MarkFailedOnce(pod, msg);
        case Unmade(NotCreated(msg)) => r := MarkFailedOnce(pod, msg);
        case _ => r := Retry;
      }
    }

    twostate predicate LivePass(pod: Pod, r: Outcome, steps: seq<Step>, end: End)
      reads this, docker, kube
    {
      && |steps| <= |pod.containers|
      && Progress(pod, steps, ViewsOf(pod.containers, steps), old(docker.boxes).Keys, docker.boxes.Keys,
                  old(docker.history), docker.history)
      && Traced(pod, steps, StoppedBy(end), old(docker.calls), docker.calls)
      && CreatedWell(pod, docker.history, old(docker.calls), docker.calls)
      && EndsMissing(pod, |steps|, StoppedBy(end), old(docker.boxes).Keys)
      && (end.Complete? ==> |steps| == |pod.containers| > 0)
      && (end.Uninspected? || end.Unmade? ==> |steps| < |pod.containers|) && (end.NoSpecs? ==> steps == [])
      && (|pod.containers| == 0 ==> end == NoSpecs("pod " + pod.ns + "/" + pod.name + " has zero containers"))
      && Responds(pod, steps, end, r)
    }

    // A pass over a live pod. Complete passes leave every container of the pod in place;
    // a pass never leaves a gap in the spec order, whatever fails.
    method ReconcileLive(pod: Pod, resolving: Resolving) returns (r: Outcome, ghost steps: seq<Step>, ghost end: End)
      requires docker.Valid()
      modifies docker, kube, this`failedPods
      ensures docker.Valid() && LivePass(pod, r, steps, end)
      ensures end.NoSpecs? <==> !Translatable(pod, resolving)
    {
      steps := [];
      var specs := ContainerSpecsFromPod(pod, resolving);
      if specs.Err? {
        end := NoSpecs(specs.error);
        r := ExplainEnd(pod, NoSpecs(specs.error));
        return;
      }
      var views, failure;
      steps, views, failure := EnsureContainers(pod);
      if failure.Some? {
        end := failure.value;
        r := ExplainEnd(pod, failure.value);
        return;
      }
      var now: Time := *;
      now := if now > ZERO_TIME then now else ZERO_TIME + 1;
      end := Complete(now);
      var status := PodStatusFromViews(pod.containers, views, now);
      r := PatchPodStatus(pod, status);
    }

    // Whatever fails in it, a pass over a live pod only makes attempts to create the next
    // container.
    twostate lemma LivePassLeads(pod: Pod, r: Outcome, steps: seq<Step>, end: End)
      requires LivePass(pod, r, steps, end)
      ensures PassOver(pod, old(docker.boxes).Keys, docker.boxes.Keys)
    {
      ProgressLeads(pod, steps, ViewsOf(pod.containers, steps), old(docker.boxes).Keys, docker.boxes.Keys,
                    old(docker.history), docker.history);
    }

    // The pod is reported as failed, unless it was for the same reason before.
    twostate predicate Fails(pod: Pod, msg: string, r: Outcome)
      reads this, kube
    {
      if old(pod.uid in failedPods && failedPods[pod.uid] == msg) then r.Success? && kube.Silent()
      else kube.Sent(PatchStatus(pod.ns, pod.name, Status(Failed, "KubeletLite", Because(msg), "127.0.0.1", "", None, [])), r)
    }

    // A pass that makes no call, because the spec cannot be translated, or that a failed pull or
    // creation ends, reports the pod as failed. One that ends for want of an answer reports
    // nothing and is tried again.
    twostate lemma FailuresReported(pod: Pod, r: Outcome, steps: seq<Step>, end: End) returns (msg: string)
      requires LivePass(pod, r, steps, end)
      ensures old(docker.calls) <= docker.calls
      ensures docker.calls == old(docker.calls) ==>
                Fails(pod, msg, r) && (|pod.containers| == 0 ==> msg == "pod " + pod.ns + "/" + pod.name + " has zero containers")
      ensures docker.calls != old(docker.calls) ==>
              var last := docker.calls[|docker.calls| - 1];
              && (last.Inspected? || last.Pulled? || last.Created?)
              && (last.Pulled? || last.Created? ==> !last.ok && Fails(pod, msg, r))
              && (last.Inspected? && last.answer.Unanswered? ==> r.Retry? && kube.Silent())
              && (last.Inspected? && !last.answer.Unanswered? ==> |kube.requests| == |old(kube.requests)| + 1)
    {
      msg := if FailureText(end).Some? then FailureText(end).value else "";
      CallsTell(pod, steps, end, old(docker.calls), docker.calls);
      if docker.calls != old(docker.calls) {
        LastCallTells(pod, steps, end, old(docker.calls), docker.calls);
      }
    }

    // Names in spec order, or in Docker's when the spec has none. When the listing fails
    // there are none.
    method ContainerNamesForPod(pod: Pod) returns (names: seq<string>)
      requires docker.Valid()
      modifies docker
      ensures docker.Valid() && Drifted(old(docker.boxes), docker.boxes)
      ensures |pod.containers| > 0 ==> names == NamesOf(pod.uid, pod.containers) && docker.calls == old(docker.calls)
      ensures |pod.containers| == 0 ==>
                && |docker.calls| == |old(docker.calls)| + 1 && docker.calls[..|old(docker.calls)|] == old(docker.calls)
                && LabelledNames(docker.calls[|old(docker.calls)|], pod.uid, docker.boxes, names)
    {
      if |pod.containers| > 0 {
        names := [];
        for i := 0 to |pod.containers|
          invariant names == NamesOf(pod.uid, pod.containers[..i])
        {
          assert pod.containers[..i + 1][..i] == pod.containers[..i];
          names := names + [ContainerName(pod.uid, pod.containers[i].name)];
        }
        assert pod.containers[..|pod.containers|] == pod.containers;
      } else {
        names := ContainerNamesByLabel(pod.uid);
      }
    }

    method ContainerNamesByLabel(uid: string) returns (names: seq<string>)
      requires docker.Valid()
      modifies docker
      ensures docker.Valid() && Drifted(old(docker.boxes), docker.boxes)
      ensures |docker.calls| == |old(docker.calls)| + 1 && docker.calls[..|old(docker.calls)|] == old(docker.calls)
      ensures LabelledNames(docker.calls[|old(docker.calls)|], uid, docker.boxes, names)
    {
      var ok, managed := docker.ListManagedContainers();
      names := [];
      for i := 0 to |managed|
        invariant i == 0 ==> names == []
        invariant forall n :: n in names ==> n in docker.boxes && docker.boxes[n].uid == uid != ""
        invariant forall j :: 0 <= j < i && managed[j].uid == uid ==> managed[j].name in names
      {
        assert managed[i] in managed;
        if managed[i].uid == uid {
          names := names + [managed[i].name];
        }
      }
      forall n | ok && n in docker.boxes && docker.boxes[n].uid == uid != "" ensures n in names {
        assert Managed(uid, n) in managed;
      }
    }

    twostate predicate TerminatingPass(pod: Pod, r: Outcome, names: seq<string>, halts: seq<Halt>)
      reads this, docker, kube
    {
      && Drifted(old(docker.boxes), docker.boxes)
      && Terminates(pod, names, halts, old(docker.calls), docker.calls)
      && (if |halts| == |names| then kube.Sent(DeletePod(pod.ns, pod.name, 0), r) else r.Retry? && kube.Silent())
    }

    // The loop that stops the containers, last one first. A failed inspection ends it.
    method StopContainers(names: seq<string>, grace: int) returns (done: bool, ghost halts: seq<Halt>)
      requires docker.Valid()
      modifies docker
      ensures docker.Valid() && Drifted(old(docker.boxes), docker.boxes)
      ensures |halts| <= |names| && Halted(names, grace, halts, old(docker.calls), docker.calls)
      ensures done <==> |halts| == |names|
    {
      halts := [];
      var i := |names| - 1;
      while i >= 0
        invariant -1 <= i < |names| && |halts| == |names| - 1 - i
        invariant docker.Valid() && Drifted(old(docker.boxes), docker.boxes)
        invariant HaltedSoFar(names, grace, halts, old(docker.calls), docker.calls)
      {
        ghost var called := docker.calls;
        var answer := docker.Inspect(names[i]);
        if answer.Unanswered? {
          assert docker.calls[..|docker.calls| - 1] == called;
          return false, halts;
        }
        ghost var halt := Gone;
        if answer.Found? {
          var ok := docker.Stop(names[i], grace);
          halt := Asked(answer.view, ok);
        }
        HaltedStep(names, grace, halts, halt, old(docker.calls), called, docker.calls);
        halts := halts + [halt];
        i := i - 1;
      }
      done := true;
    }

    // The pod is deleted from the API server only when every container was found absent
    // or asked to stop; until then the pass is tried again.
    method TerminatePod(pod: Pod) returns (r: Outcome, ghost names: seq<string>, ghost halts: seq<Halt>)
      requires docker.Valid()
      modifies docker, kube
      ensures docker.Valid() && TerminatingPass(pod, r, names, halts)
    {
      var list := ContainerNamesForPod(pod);
      names := list;
      ghost var calls := docker.calls;
      var done;
      done, halts := StopContainers(list, GraceOf(pod));
      HaltedExtends(list, GraceOf(pod), halts, calls, docker.calls);
      if !done {
        return Retry, names, halts;
      }
      var reply := kube.Send(DeletePod(pod.ns, pod.name, 0));
      r := if reply.Rejected? then Retry else Success;
    }

    // The worker's pass over a pod of the informer cache: nothing before it has a UID, the
    // terminating pass once it is under deletion, the live one until then.
    method ReconcilePod(pod: Pod, resolving: Resolving) returns (r: Outcome, ghost pass: Pass)
      requires docker.Valid()
      modifies docker, kube, this`failedPods
      ensures docker.Valid()
      ensures match pass
              case Skipped => pod.uid == "" && r.Success? && docker.calls == old(docker.calls)
                              && docker.boxes == old(docker.boxes) && kube.Silent()
              case Live(steps, end) => pod.uid != "" && !pod.deleting && LivePass(pod, r, steps, end)
              case Terminating(names, halts) => pod.uid != "" && pod.deleting && TerminatingPass(pod, r, names, halts)
    {
      if pod.uid == "" {
        return Success, Skipped;
      }
      if pod.deleting {
        ghost var names, halts;
        r, names, halts := TerminatePod(pod);
        return r, Pass.Terminating(names, halts);
      }
      ghost var steps, end;
      r, steps, end := ReconcileLive(pod, resolving);
      return r, Pass.Live(steps, end);
    }

    // --- Removing the containers of a pod that is gone ---

    // What removing the containers of a UID comes to: all are gone, each stopped first, or
    // one could not be removed. A failed listing passes for a pod without containers.
    twostate predicate Reaped(uid: string, r: Outcome)
      reads this, docker
    {
      var n := |old(docker.calls)|;
      && (forall m :: m in old(docker.boxes) && old(docker.boxes)[m].uid != uid ==> m in docker.boxes)
      && (forall m :: m in docker.boxes ==> m in old(docker.boxes) && docker.boxes[m].uid == old(docker.boxes)[m].uid)
      && n < |docker.calls| && docker.calls[..n] == old(docker.calls) && docker.calls[n].Listed?
      && StopsFirst(docker.calls[..n + 1], docker.calls)
      && (if !docker.calls[n].ok then r.Success? && docker.boxes.Keys == old(docker.boxes).Keys
          else if r.Success? then forall m :: m in docker.boxes ==> docker.boxes[m].uid != uid || uid == ""
          else docker.calls[|docker.calls| - 1].Removed? && !docker.calls[|docker.calls| - 1].ok)
    }

    method ReapByUID(uid: string) returns (r: Outcome)
      requires docker.Valid()
      modifies docker
      ensures docker.Valid() && Reaped(uid, r)
    {
      var names := ContainerNamesByLabel(uid);
      ghost var calls, listed := docker.calls, docker.boxes;
      if |names| == 0 {
        return Success;
      }
      var i := |names| - 1;
      while i >= 0
        invariant -1 <= i < |names|
        invariant docker.Valid() && StopsFirst(calls, docker.calls)
        invariant docker.boxes.Keys <= listed.Keys
        invariant forall n :: n in listed && listed[n].uid != uid ==> n in docker.boxes
        invariant forall n :: n in docker.boxes ==> docker.boxes[n].uid == listed[n].uid
        invariant forall j :: i < j < |names| ==> names[j] !in docker.boxes
      {
        ghost var called := docker.calls;
        var stopped, removed := StopAndRemove(names[i]);
        StopsFirstStep(calls, called, names[i], stopped, removed);
        if !removed {
          return Retry;
        }
        i := i - 1;
      }
      return Success;
    }

    // Whether it could be stopped is only logged.
    method StopAndRemove(name: string) returns (ghost stopped: bool, removed: bool)
      requires docker.Valid()
      modifies docker
      ensures docker.Valid()
      ensures docker.calls == old(docker.calls) + [Stopped(name, 10_000_000_000, stopped)] + [Removed(name, removed)]
      ensures old(docker.boxes).Keys - {name} <= docker.boxes.Keys <= old(docker.boxes).Keys
      ensures forall n :: n in docker.boxes ==> docker.boxes[n].uid == old(docker.boxes)[n].uid
      ensures removed ==> name !in docker.boxes
    {
      SecondsExact(REAP_GRACE_SECONDS);
      var ok := docker.Stop(name, Seconds(REAP_GRACE_SECONDS));
      removed := docker.Remove(name);
      stopped := ok;
    }

    // The informer's delete handler; whether it succeeded is only logged.
    method HandleDelete(pod: Pod) returns (ghost r: Outcome)
      requires docker.Valid()
      modifies docker, this`failedPods
      ensures docker.Valid() && failedPods == old(failedPods) - {pod.uid} && Reaped(pod.uid, r)
    {
      failedPods := failedPods - {pod.uid};
      var reaped := ReapByUID(pod.uid);
      r := reaped;
    }

    method RemoveAll(names: seq<string>)
      requires docker.Valid()
      modifies docker
      ensures docker.Valid() && StopsFirst(old(docker.calls), docker.calls)
      ensures Removes(NameSet(names), old(docker.boxes), docker.boxes, docker.calls[|old(docker.calls)|..])
    {
      for i := 0 to |names|
        invariant docker.Valid() && StopsFirst(old(docker.calls), docker.calls)
        invariant Removes(NameSet(names[..i]), old(docker.boxes), docker.boxes, docker.calls[|old(docker.calls)|..])
      {
        ghost var boxes, calls := docker.boxes, docker.calls;
        var stopped, removed := StopAndRemove(names[i]);
        StopsFirstStep(old(docker.calls), calls, names[i], stopped, removed);
        assert NameSet(names[..i + 1]) == NameSet(names[..i]) + {names[i]};
        RemovesOne(NameSet(names[..i]), names[i], old(docker.boxes), boxes, docker.boxes,
                   old(docker.calls), calls, docker.calls, stopped, removed);
      }
      assert names[..|names|] == names;
    }

    method GroupOrphans(managed: seq<Managed>, known: set<string>) returns (groups: Groups)
      ensures Grouped(managed, known, groups)
    {
      groups := map[];
      for i := 0 to |managed|
        invariant Grouped(managed[..i], known, groups)
      {
        var m := managed[i];
        ghost var before := groups;
        if m.uid !in known {
          groups := groups[m.uid := (if m.uid in groups then groups[m.uid] else []) + [m.name]];
        }
        assert managed[..i + 1] == managed[..i] + [m];
        GroupedAppend(managed[..i], m, known, before, groups);
      }
      assert managed[..|managed|] == managed;
    }

    // One pass of the orphan reaper, given the UIDs in the informer cache once Docker has
    // been listed: no container of a known pod goes, every other labelled one does unless
    // its removal failed.
    method ReapOrphans(known: set<string>) returns (r: Outcome)
      requires docker.Valid()
      modifies docker
      ensures docker.Valid() && old(docker.calls) < docker.calls && docker.calls[|old(docker.calls)|].Listed?
      ensures StopsFirst(old(docker.calls), docker.calls)
      ensures docker.boxes.Keys <= old(docker.boxes).Keys
      ensures forall n :: n in old(docker.boxes) && (old(docker.boxes)[n].uid == "" || old(docker.boxes)[n].uid in known) ==>
                n in docker.boxes
      ensures var listing := docker.calls[|old(docker.calls)|];
              if !listing.ok then r.Retry? && docker.boxes.Keys == old(docker.boxes).Keys
              else r.Success? && forall n :: n in docker.boxes ==>
                     || docker.boxes[n].uid == "" || docker.boxes[n].uid in known
                     || Removed(n, false) in docker.calls[|old(docker.calls)|..]
    {
      var ok, managed := docker.ListManagedContainers();
      if !ok {
        return Retry;
      }
      if |managed| == 0 {
        return Success;
      }
      var groups := GroupOrphans(managed, known);
      ghost var boxes, calls := docker.boxes, docker.calls;
      var left := groups.Keys;
      while left != {}
        invariant left <= groups.Keys && docker.Valid() && StopsFirst(calls, docker.calls)
        invariant Removes(NamesIn(groups, groups.Keys - left), boxes, docker.boxes, docker.calls[|calls|..])
        decreases |left|
      {
        var uid :| uid in left;
        ghost var boxes', calls' := docker.boxes, docker.calls;
        RemoveAll(groups[uid]);
        StopsFirstMore(calls, calls', docker.calls);
        RemovesMore(NamesIn(groups, groups.Keys - left), NameSet(groups[uid]), boxes, boxes', docker.boxes, calls, calls', docker.calls);
        assert NamesIn(groups, groups.Keys - (left - {uid})) == NamesIn(groups, groups.Keys - left) + NameSet(groups[uid]);
        left := left - {uid};
      }
      assert groups.Keys - left == groups.Keys;
      ReapedAll(managed, known, groups, boxes, docker.boxes, docker.calls[|calls|..]);
      return Success;
    }
  }

  predicate KnownUid(uid: string, known: set<string>) {
    uid == "" || uid in known
  }

  lemma ReapedAll(managed: seq<Managed>, known: set<string>, groups: Groups, boxes: Boxes, boxes': Boxes, calls: seq<Call>)
    requires Lists(boxes, managed) && Grouped(managed, known, groups)
    requires Removes(NamesIn(groups, groups.Keys), boxes, boxes', calls)
    ensures forall n :: n in boxes && KnownUid(boxes[n].uid, known) ==> n in boxes'
    ensures forall n :: n in boxes' ==> KnownUid(boxes'[n].uid, known) || Removed(n, false) in calls
  {
    forall n | n in NamesIn(groups, groups.Keys) ensures n in boxes && !KnownUid(boxes[n].uid, known) {
      var uid :| uid in groups && n in groups[uid];
      assert Managed(uid, n) in managed;
    }
    forall n | n in boxes' && !KnownUid(boxes'[n].uid, known) ensures Removed(n, false) in calls {
      assert Managed(boxes[n].uid, n) in managed;
      assert n in NamesIn(groups, groups.Keys);
    }
  }

  // The containers grouped by the UID of a pod that is not known.
  type Groups = map<string, seq<string>>

  ghost predicate Grouped(managed: seq<Managed>, known: set<string>, groups: Groups) {
    && (forall uid :: uid in groups ==> uid !in known && forall n :: n in groups[uid] ==> Managed(uid, n) in managed)
    && (forall m :: m in managed && m.uid !in known ==> m.uid in groups && m.name in groups[m.uid])
  }

  lemma GroupedAppend(managed: seq<Managed>, m: Managed, known: set<string>, groups: Groups, groups': Groups)
    requires Grouped(managed, known, groups)
    requires groups' == if m.uid in known then groups
                        else groups[m.uid := (if m.uid in groups then groups[m.uid] else []) + [m.name]]
    ensures Grouped(managed + [m], known, groups')
  {
  }

  function NamesIn(groups: Groups, uids: set<string>): set<string> {
    set uid, n | uid in uids && uid in groups && n in groups[uid] :: n
  }

  lemma RemovesMore(a: set<string>, b: set<string>, start: Boxes, boxes: Boxes, boxes': Boxes,
                    calls0: seq<Call>, calls: seq<Call>, calls': seq<Call>)
    requires calls0 <= calls <= calls'
    requires Removes(a, start, boxes, calls[|calls0|..]) && Removes(b, boxes, boxes', calls'[|calls|..])
    ensures Removes(a + b, start, boxes', calls'[|calls0|..])
  {
    assert calls'[|calls0|..] == calls[|calls0|..] + calls'[|calls|..];
  }

  function NameSet(names: seq<string>): set<string> {
    set n | n in names
  }

  // The named containers are gone, or removing them failed; no other is gone.
  ghost predicate Removes(names: set<string>, boxes: Boxes, boxes': Boxes, calls: seq<Call>) {
    && boxes'.Keys <= boxes.Keys
    && (forall n :: n in boxes && n !in names ==> n in boxes')
    && (forall n :: n in boxes' ==> boxes'[n].uid == boxes[n].uid)
    && (forall n :: n in boxes' && n in names ==> Removed(n, false) in calls)
  }

  lemma RemovesOne(names: set<string>, name: string, start: Boxes, boxes: Boxes, boxes': Boxes,
                   calls0: seq<Call>, calls: seq<Call>, calls': seq<Call>, stopped: bool, removed: bool)
    requires calls0 <= calls && calls' == calls + [Stopped(name, 10_000_000_000, stopped)] + [Removed(name, removed)]
    requires Removes(names, start, boxes, calls[|calls0|..])
    requires boxes.Keys - {name} <= boxes'.Keys <= boxes.Keys && forall n :: n in boxes' ==> boxes'[n].uid == boxes[n].uid
    requires removed ==> name !in boxes'
    ensures Removes(names + {name}, start, boxes', calls'[|calls0|..])
  {
    var added := [Stopped(name, 10_000_000_000, stopped), Removed(name, removed)];
    assert calls' == calls + added;
    assert calls'[|calls0|..] == calls[|calls0|..] + added;
    assert added[1] == Removed(name, removed);
  }

  // --- What follows for the passes over a live pod ---

  // What a pass over the pod may do to the containers: any number of attempts to create
  // one of the pod's whose predecessors exist, some of them failing.
  ghost predicate PassOver(pod: Pod, start: set<string>, end: set<string>) {
    exists after: seq<set<string>> ::
      |after| > 0 && after[|after| - 1] == end && OnlyTries(NamesOf(pod.uid, pod.containers), [start], after)
  }

  lemma ProgressLeads(pod: Pod, steps: seq<Step>, views: Views, start: set<string>, existing: set<string>,
                      before: seq<set<string>>, after: seq<set<string>>)
    requires |steps| <= |pod.containers| && Progress(pod, steps, views, start, existing, before, after)
    ensures PassOver(pod, start, existing)
  {
    var names, n := NamesOf(pod.uid, pod.containers), |before| - 1;
    var later := after[n..];
    assert later[0] == before[n];
    forall k | 1 <= k < |later| ensures TriesOne(names, later[k - 1], later[k]) {
      assert later[k] == after[n + k] && later[k - 1] == after[n + k - 1];
    }
    assert OnlyTries(names, [start], later);
  }

  // Other parties leave the containers of the pod alone.
  ghost predicate Untouched(names: seq<string>, start: set<string>, end: set<string>) {
    forall n :: n in names ==> (n in start <==> n in end)
  }

  // The network a container joins is that of a container which exists.
  lemma SandboxExists(names: seq<string>, existing: set<string>, i: nat)
    requires Prefixed(names, existing) && i < |names| && names[i] in existing
    ensures names[0] in existing
  {
    var n: nat :| n <= |names| && HasFirst(names, n, existing);
    TakeHas(names, n);
  }

  // Over any run of passes over a pod that starts without containers, with whatever
  // happens to other pods in between, its containers are always the first ones of its spec,
  // so that the container whose network the others join is there if any is.
  lemma {:induction false} RunKeepsPrefix(pod: Pod, run: seq<set<string>>, k: nat)
    requires k < |run| && forall n :: n in NamesOf(pod.uid, pod.containers) ==> n !in run[0]
    requires forall i :: 0 < i < |run| ==>
               PassOver(pod, run[i - 1], run[i]) || Untouched(NamesOf(pod.uid, pod.containers), run[i - 1], run[i])
    ensures var names := NamesOf(pod.uid, pod.containers);
      Prefixed(names, run[k]) && forall i :: 0 <= i < |names| && names[i] in run[k] ==> names[0] in run[k]
  {
    var names := NamesOf(pod.uid, pod.containers);
    if k == 0 {
      assert HasFirst(names, 0, run[0]);
    } else {
      RunKeepsPrefix(pod, run, k - 1);
      if Untouched(names, run[k - 1], run[k]) {
        var n: nat :| n <= |names| && HasFirst(names, n, run[k - 1]);
        assert HasFirst(names, n, run[k]);
      } else {
        var after: seq<set<string>> :|
          |after| > 0 && after[|after| - 1] == run[k] && OnlyTries(names, [run[k - 1]], after);
        TriesStayPrefixed(names, [run[k - 1]], after, |after| - 1);
      }
    }
    forall i | 0 <= i < |names| && names[i] in run[k] ensures names[0] in run[k] {
      SandboxExists(names, run[k], i);
    }
  }

  // A complete pass leaves all containers in place.
  lemma CompletePassHasAll(pod: Pod, steps: seq<Step>, views: Views, start: set<string>, existing: set<string>,
                           before: seq<set<string>>, after: seq<set<string>>)
    requires |steps| == |pod.containers| && Progress(pod, steps, views, start, existing, before, after)
    ensures forall c :: c in pod.containers ==> ContainerName(pod.uid, c.name) in existing && c.name in views
  {
    forall c | c in pod.containers ensures ContainerName(pod.uid, c.name) in existing && c.name in views {
      var i :| 0 <= i < |pod.containers| && pod.containers[i] == c;
      NameAt(pod.uid, pod.containers, i);
      ViewsCover(pod.containers, steps, i);
    }
  }

  lemma {:induction false} ViewsCover(cs: seq<Container>, steps: seq<Step>, i: nat)
    requires i < |steps| <= |cs|
    ensures cs[i].name in ViewsOf(cs, steps)
    decreases |steps|
  {
    if i < |steps| - 1 {
      ViewsCover(cs, steps[..|steps| - 1], i);
    }
  }

  // A pass that starts with all containers in place creates none, however it ends: all its
  // calls are inspections.
  lemma NoneCreated(pod: Pod, steps: seq<Step>, end: End, start: set<string>, before: seq<Call>, after: seq<Call>)
    requires |steps| <= |pod.containers| && MakesMissing(NamesOf(pod.uid, pod.containers), steps, start)
    requires Traced(pod, steps, StoppedBy(end), before, after) && EndsMissing(pod, |steps|, StoppedBy(end), start)
    requires forall c :: c in pod.containers ==> ContainerName(pod.uid, c.name) in start
    ensures before <= after && forall call :: call in after[|before|..] ==> call.Inspected?
  {
    forall i | 0 <= i < |steps| ensures steps[i].Had? {
      NameAt(pod.uid, pod.containers, i);
      assert pod.containers[i] in pod.containers;
    }
    OnlyInspections(pod.uid, pod.containers, steps);
    if |steps| < |pod.containers| {
      assert pod.containers[|steps|] in pod.containers;
    }
    var made := TraceOf(pod.uid, pod.containers, steps) + LastOf(pod, |steps|, StoppedBy(end));
    assert after == before + made;
    assert after[|before|..] == made;
  }

  lemma {:induction false} OnlyInspections(uid: string, cs: seq<Container>, steps: seq<Step>)
    requires |steps| <= |cs| && forall i :: 0 <= i < |steps| ==> steps[i].Had?
    ensures forall call :: call in TraceOf(uid, cs, steps) ==> call.Inspected?
  {
    if steps != [] {
      OnlyInspections(uid, cs, steps[..|steps| - 1]);
    }
  }

  lemma CallsTell(pod: Pod, steps: seq<Step>, end: End, before: seq<Call>, after: seq<Call>)
    requires |steps| <= |pod.containers| && Traced(pod, steps, StoppedBy(end), before, after)
    requires end.Uninspected? || end.Unmade? ==> |steps| < |pod.containers|
    requires end.Complete? ==> |steps| > 0
    requires end.NoSpecs? ==> steps == []
    ensures before <= after && (after == before <==> end.NoSpecs?)
    ensures after != before ==> |after| > |before|
  {
    var trace, more := TraceOf(pod.uid, pod.containers, steps), LastOf(pod, |steps|, StoppedBy(end));
    assert after == before + (trace + more);
  }

  lemma LastCallTells(pod: Pod, steps: seq<Step>, end: End, before: seq<Call>, after: seq<Call>)
    requires |steps| <= |pod.containers| && Traced(pod, steps, StoppedBy(end), before, after) && |after| > |before|
    requires end.Uninspected? || end.Unmade? ==> |steps| < |pod.containers|
    requires end.NoSpecs? ==> steps == []
    ensures var last := after[|after| - 1];
            && (end.Complete? ==> last.Inspected? && last.answer.Found?)
            && (end.Uninspected? ==> last.Inspected? && last.answer.Unanswered?)
            && (end.Unmade? ==>
                  match end.fault
                  case NotPulled(_) => last.Pulled? && !last.ok
                  case NotCreated(_) => last.Created? && !last.ok
                  case NotInspected(_) => last.Inspected? && last.answer.Unanswered?)
  {
    var trace, more := TraceOf(pod.uid, pod.containers, steps), LastOf(pod, |steps|, StoppedBy(end));
    assert after == before + (trace + more);
    if more != [] {
      assert after[|after| - 1] == more[|more| - 1];
    } else if steps != [] {
      var calls := CallsOf(pod.uid, pod.containers, |steps| - 1, steps[|steps| - 1]);
      assert trace + more == trace && trace[|trace| - 1] == calls[|calls| - 1];
    }
  }

  // A pass that ends early did so because a call failed: it was the last one.
  lemma EarlyEndShows(pod: Pod, steps: seq<Step>, end: End, before: seq<Call>, after: seq<Call>)
    requires |steps| < |pod.containers| && !end.Complete? && !end.NoSpecs?
    requires Traced(pod, steps, Some(end), before, after)
    ensures |after| > |before| && FailedCall(after[|after| - 1])
  {
  }
}
