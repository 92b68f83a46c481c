/** How the API server prepares deletions and status updates of pods. */
module Strategy {
  import opened Options
  import opened PodStatus

  const DEFAULT_GRACE_PERIOD_SECONDS := 30

  // Metadata as far as deletion goes: the grace period once the pod is marked.
  datatype Meta = Meta(ns: string, name: string, uid: string, deletionTimestamp: Option<int>, deletionGrace: Option<int>)

  datatype PodSpec = PodSpec(containers: seq<Container>, terminationGrace: Option<int>)

  datatype PodValue = PodValue(meta: Meta, spec: PodSpec, status: string)

  class PodObject {
    var meta: Meta
    var spec: PodSpec
    var status: string

    function Value(): PodValue
      reads this
    {
      PodValue(meta, spec, status)
    }

    constructor (meta: Meta, spec: PodSpec, status: string)
      ensures this.meta == meta && this.spec == spec && this.status == status
    {
      this.meta, this.spec, this.status := meta, spec, status;
    }
  }

  class DeleteOptions {
    var gracePeriodSeconds: Option<int>

    constructor (gracePeriodSeconds: Option<int>)
      ensures this.gracePeriodSeconds == gracePeriodSeconds
    {
      this.gracePeriodSeconds := gracePeriodSeconds;
    }
  }

  // The requested period, else the pod's own, else 30 seconds.
  function Period(requested: Option<int>, own: Option<int>): int {
    match (requested, own)
    case (Some(n), _) => n
    case (None, Some(n)) => n
    case (None, None) => DEFAULT_GRACE_PERIOD_SECONDS
  }

  // Fills in the period and says whether deletion is graceful, which it is exactly when
  // the period is positive. Without options, or for an object that is not a pod, it is
  // not, and nothing is filled in.
  method CheckGracefulDelete(obj: PodObject?, options: DeleteOptions?) returns (graceful: bool)
    modifies options
    ensures options == null || obj == null ==> !graceful
    ensures options != null && obj == null ==> options.gracePeriodSeconds == old(options.gracePeriodSeconds)
    ensures options != null && obj != null ==>
              && options.gracePeriodSeconds == Some(Period(old(options.gracePeriodSeconds), obj.spec.terminationGrace))
              && (graceful <==> Period(old(options.gracePeriodSeconds), obj.spec.terminationGrace) > 0)
    ensures options != null && obj != null && old(options.gracePeriodSeconds).Some? ==>
              options.gracePeriodSeconds == old(options.gracePeriodSeconds)
    ensures options != null && obj != null && old(options.gracePeriodSeconds).None? ==>
              options.gracePeriodSeconds == if obj.spec.terminationGrace.Some? then obj.spec.terminationGrace else Some(30)
    ensures options != null && obj != null ==> (graceful <==> options.gracePeriodSeconds.value > 0)
  {
    if options == null {
      return false;
    }
    if obj == null {
      return false;
    }
    var period := DEFAULT_GRACE_PERIOD_SECONDS;
    if obj.spec.terminationGrace.Some? {
      period := obj.spec.terminationGrace.value;
    }
    if options.gracePeriodSeconds.None? {
      options.gracePeriodSeconds := Some(period);
    }
    return options.gracePeriodSeconds.value > 0;
  }

  // What an update through /status makes of the new pod.
  function StatusOnly(newPod: PodValue, oldPod: PodValue): PodValue {
    oldPod.(status := newPod.status)
  }

  // An update through /status: of the new object only the status counts.
  method PrepareStatusUpdate(newPod: PodObject?, oldPod: PodObject?)
    modifies newPod
    ensures newPod != null && oldPod != null ==> newPod.Value() == StatusOnly(old(newPod.Value()), old(oldPod.Value()))
    ensures newPod != null && oldPod != null ==>
              newPod.meta == old(oldPod.meta) && newPod.spec == old(oldPod.spec) && newPod.status == old(newPod.status)
    ensures newPod != null && oldPod == null ==> newPod.Value() == old(newPod.Value())
  {
    if newPod == null || oldPod == null {
      return;
    }
    newPod.spec := oldPod.spec;
    newPod.meta := oldPod.meta;
  }
}
