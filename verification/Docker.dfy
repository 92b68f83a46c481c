/** The Docker daemon as kubelet-lite uses it: named containers, calls that may fail at
    any time, and containers that make progress between the calls. */
module Docker {
  import opened PodStatus

  // A container, labelled with the UID of its pod; other containers have none.
  datatype Box = Box(uid: string, networkMode: string, view: View)

  type Boxes = map<string, Box>

  datatype Answer = Found(view: View) | Absent | Unanswered(reason: string)

  datatype Call =
    | Inspected(name: string, answer: Answer)
    | Pulled(image: string, ok: bool)
    | Created(name: string, networkMode: string, ok: bool)
    | Stopped(name: string, grace: int, ok: bool)
    | Removed(name: string, ok: bool)
    | Listed(ok: bool)

  predicate FailedCall(c: Call) {
    match c
    case Inspected(_, answer) => answer.Unanswered?
    case Pulled(_, ok) => !ok
    case Created(_, _, ok) => !ok
    case Stopped(_, _, ok) => !ok
    case Removed(_, ok) => !ok
    case Listed(ok) => !ok
  }

  // Containers run and exit by themselves; they neither appear nor disappear.
  predicate Drifted(boxes: Boxes, boxes': Boxes) {
    && boxes'.Keys == boxes.Keys
    && forall n :: n in boxes ==>
         && boxes'[n].uid == boxes[n].uid && boxes'[n].networkMode == boxes[n].networkMode
         && (!boxes[n].view.running ==> boxes'[n].view == boxes[n].view)
  }

  class Docker {
    var boxes: Boxes
    // Every call so far.
    var calls: seq<Call>
    // The names there were at the start and after each call.
    ghost var history: seq<set<string>>

    ghost predicate Valid()
      reads this
    {
      |history| == |calls| + 1 && history[|history| - 1] == boxes.Keys
    }

    constructor ()
      ensures Valid() && boxes == map[] && calls == []
    {
      boxes, calls, history := map[], [], [{}];
    }

    method Drift()
      requires Valid()
      modifies this`boxes
      ensures Valid() && Drifted(old(boxes), boxes)
    {
      var next: Boxes := *;
      if Drifted(boxes, next) {
        boxes := next;
      }
    }

    method Inspect(name: string) returns (answer: Answer)
      requires Valid()
      modifies this
      ensures Valid() && Drifted(old(boxes), boxes) && history == old(history) + [boxes.Keys]
      ensures calls == old(calls) + [Inspected(name, answer)]
      ensures answer.Found? ==> name in boxes && answer.view == boxes[name].view
      ensures answer.Absent? ==> name !in boxes
    {
      Drift();
      var fails: bool, reason: string := *, *;
      answer := if fails then Unanswered(reason) else if name in boxes then Found(boxes[name].view) else Absent;
      calls, history := calls + [Inspected(name, answer)], history + [boxes.Keys];
    }

    method EnsurePulled(image: string) returns (ok: bool)
      requires Valid()
      modifies this
      ensures Valid() && Drifted(old(boxes), boxes) && history == old(history) + [boxes.Keys]
      ensures calls == old(calls) + [Pulled(image, ok)]
    {
      Drift();
      ok := *;
      calls, history := calls + [Pulled(image, ok)], history + [boxes.Keys];
    }

    // A container that was created but did not start is removed again, unless that
    // fails too.
    method CreateAndStart(name: string, uid: string, networkMode: string) returns (ok: bool)
      requires Valid()
      modifies this
      ensures Valid() && history == old(history) + [boxes.Keys]
      ensures calls == old(calls) + [Created(name, networkMode, ok)]
      ensures ok ==> name !in old(boxes) && name in boxes
      ensures || boxes == old(boxes)
              || (name !in old(boxes) && name in boxes && boxes == old(boxes)[name := boxes[name]]
                  && boxes[name].uid == uid && boxes[name].networkMode == networkMode)
    {
      var starts: bool, stays: bool, view: View := *, *, *;
      ok := starts && name !in boxes;
      if name !in boxes && (starts || stays) {
        boxes := boxes[name := Box(uid, networkMode, view)];
      }
      calls, history := calls + [Created(name, networkMode, ok)], history + [boxes.Keys];
    }

    // Stopping leaves the container in place, running or not.
    method Stop(name: string, grace: int) returns (ok: bool)
      requires Valid()
      modifies this
      ensures Valid() && Drifted(old(boxes), boxes) && history == old(history) + [boxes.Keys]
      ensures calls == old(calls) + [Stopped(name, grace, ok)]
    {
      Drift();
      ok := *;
      calls, history := calls + [Stopped(name, grace, ok)], history + [boxes.Keys];
    }

    // A missing container counts as removed; a failed removal may have happened.
    method Remove(name: string) returns (ok: bool)
      requires Valid()
      modifies this
      ensures Valid() && history == old(history) + [boxes.Keys]
      ensures calls == old(calls) + [Removed(name, ok)]
      ensures ok ==> name !in boxes
      ensures boxes == old(boxes) || boxes == old(boxes) - {name}
    {
      ok := *;
      var happens: bool := *;
      if ok || happens {
        boxes := boxes - {name};
      }
      calls, history := calls + [Removed(name, ok)], history + [boxes.Keys];
    }

    // The names and pod UIDs of the labelled containers, in an order of Docker's.
    method ListManagedContainers() returns (ok: bool, managed: seq<Managed>)
      requires Valid()
      modifies this
      ensures Valid() && Drifted(old(boxes), boxes) && history == old(history) + [boxes.Keys]
      ensures calls == old(calls) + [Listed(ok)]
      ensures ok ==> Lists(boxes, managed)
      ensures !ok ==> managed == []
    {
      Drift();
      ok, managed := *, [];
      calls, history := calls + [Listed(ok)], history + [boxes.Keys];
      if ok {
        var left := boxes.Keys;
        while left != {}
          invariant left <= boxes.Keys
          invariant forall m :: m in managed ==> m.name in boxes && m.name !in left && boxes[m.name].uid == m.uid != ""
          invariant forall n :: n in boxes && n !in left && boxes[n].uid != "" ==> Managed(boxes[n].uid, n) in managed
          decreases |left|
        {
          var n :| n in left;
          left := left - {n};
          if boxes[n].uid != "" {
            managed := managed + [Managed(boxes[n].uid, n)];
          }
        }
      }
    }
  }

  datatype Managed = Managed(uid: string, name: string)

  ghost predicate Lists(boxes: Boxes, managed: seq<Managed>) {
    && (forall m :: m in managed ==> m.name in boxes && boxes[m.name].uid == m.uid != "")
    && (forall n :: n in boxes && boxes[n].uid != "" ==> Managed(boxes[n].uid, n) in managed)
  }
}
