/** The kubelet's concurrent parties around one Docker daemon: the worker's passes, the
    informer's delete handler and the orphan reaper, with a cache that lags behind the
    API server and restarts of the kubelet at any time. */
module Reaper {
  import opened Options

  type Uid = string

  // A container, by the parts of its name; ContainerNameInjective says they are unique.
  datatype Owned = Owned(uid: Uid, name: string)

  // The delete handler reacts to one deletion at a time; others wait, while the cache moves on.
  datatype Handler = Resting | Notified(uid: Uid) | Reaping(uid: Uid, todo: set<Owned>)

  // A reaper's pass: it lists containers, then reads the cache, then removes. It remembers
  // the listing and the UIDs it read; failed and made record removals that failed and
  // containers the worker made since the listing.
  datatype ReaperPass =
    | Idle
    | Listed(listing: set<Owned>, made: set<Owned>)
    | Removing(listing: set<Owned>, known: set<Uid>, todo: set<Owned>, failed: set<Owned>, made: set<Owned>)

  // created holds every UID ever given to a pod, api those of the pods that exist, cache
  // those of the pods in the informer's cache, and dropped those that left it.
  datatype State = State(
    created: set<Uid>, api: set<Uid>, cache: set<Uid>, dropped: set<Uid>,
    boxes: set<Owned>, worker: Option<Uid>, notices: seq<Uid>, handler: Handler, reaper: ReaperPass)

  datatype Label =
    | CreatePod(uid: Uid)
    | DeletePod(uid: Uid)
    | CacheAdd(uid: Uid)
    | CacheDelete(uid: Uid)
    | HandlerWakes
    | HandlerLists(ok: bool)
    | HandlerRemoves(box: Owned, ok: bool)
    | HandlerRests
    | WorkerStarts(uid: Uid)
    | WorkerMakes(name: string)
    | WorkerEnds
    | ReaperLists
    | ReaperReadsCache
    | ReaperRemoves(box: Owned, ok: bool)
    | ReaperRests
    | Restart

  const START := State({}, {}, {}, {}, {}, None, [], Resting, Idle)

  predicate Enabled(s: State, l: Label) {
    match l
    case CreatePod(uid) => uid !in s.created
    case DeletePod(uid) => uid in s.api
    case CacheAdd(uid) => uid in s.created && uid !in s.cache && uid !in s.dropped
    case CacheDelete(uid) => uid in s.cache && uid !in s.api
    case HandlerWakes => s.handler.Resting? && s.notices != []
    case HandlerLists(_) => s.handler.Notified?
    case HandlerRemoves(box, _) => s.handler.Reaping? && box in s.handler.todo
    case HandlerRests => s.handler.Reaping? && s.handler.todo == {}
    case WorkerStarts(uid) => s.worker.None? && uid in s.cache
    case WorkerMakes(name) => s.worker.Some? && Owned(s.worker.value, name) !in s.boxes
    case WorkerEnds => s.worker.Some?
    case ReaperLists => s.reaper.Idle?
    case ReaperReadsCache => s.reaper.Listed?
    case ReaperRemoves(box, _) => s.reaper.Removing? && box in s.reaper.todo
    case ReaperRests => s.reaper.Removing? && s.reaper.todo == {}
    case Restart => true
  }

  function Orphans(listing: set<Owned>, known: set<Uid>): set<Owned> {
    set b | b in listing && b.uid !in known
  }

  function WithUid(boxes: set<Owned>, uid: Uid): set<Owned> {
    set b | b in boxes && b.uid == uid
  }

  function Noting(p: ReaperPass, box: Owned): ReaperPass {
    match p
    case Idle => p
    case Listed(listing, made) => Listed(listing, made + {box})
    case Removing(listing, known, todo, failed, made) => Removing(listing, known, todo, failed, made + {box})
  }

  function Do(s: State, l: Label): State
    requires Enabled(s, l)
  {
    match l
    case CreatePod(uid) => s.(created := s.created + {uid}, api := s.api + {uid})
    case DeletePod(uid) => s.(api := s.api - {uid})
    case CacheAdd(uid) => s.(cache := s.cache + {uid})
    case CacheDelete(uid) => s.(cache := s.cache - {uid}, dropped := s.dropped + {uid}, notices := s.notices + [uid])
    case HandlerWakes => s.(handler := Notified(s.notices[0]), notices := s.notices[1..])
    case HandlerLists(ok) =>
      s.(handler := if ok then Reaping(s.handler.uid, WithUid(s.boxes, s.handler.uid)) else Resting)
    case HandlerRemoves(box, ok) =>
      if ok then s.(boxes := s.boxes - {box}, handler := s.handler.(todo := s.handler.todo - {box}))
      else s.(handler := Resting)
    case HandlerRests => s.(handler := Resting)
    case WorkerStarts(uid) => s.(worker := Some(uid))
    case WorkerMakes(name) =>
      var box := Owned(s.worker.value, name);
      s.(boxes := s.boxes + {box}, reaper := Noting(s.reaper, box))
    case WorkerEnds => s.(worker := None)
    case ReaperLists => s.(reaper := Listed(s.boxes, {}))
    case ReaperReadsCache =>
      var p := s.reaper;
      s.(reaper := Removing(p.listing, s.cache, Orphans(p.listing, s.cache), {}, p.made))
    case ReaperRemoves(box, ok) =>
      var p := s.reaper.(todo := s.reaper.todo - {box});
      if ok then s.(boxes := s.boxes - {box}, reaper := p) else s.(reaper := p.(failed := p.failed + {box}))
    case ReaperRests => s.(reaper := Idle)
    case Restart =>
      s.(cache := s.api, dropped := s.created - s.api, worker := None, notices := [], handler := Resting,
          reaper := Idle)
  }

  predicate IsRun(run: seq<State>, labels: seq<Label>) {
    && |run| == |labels| + 1 && run[0] == START
    && forall i :: 0 <= i < |labels| ==> Enabled(run[i], labels[i]) && run[i + 1] == Do(run[i], labels[i])
  }

  // --- What every state keeps ---

  // A UID is never both in the cache and past it, and what left the cache was deleted.
  predicate CacheOk(s: State) {
    && s.api <= s.created && s.cache <= s.created && s.dropped <= s.created
    && s.cache !! s.dropped && s.dropped !! s.api
  }

  predicate Seen(s: State, uid: Uid) {
    uid in s.cache || uid in s.dropped
  }

  // Containers belong to pods the cache has had, and a party only ever intends to remove
  // those of pods that left it.
  predicate BoxesOk(s: State) {
    && (forall b :: b in s.boxes ==> Seen(s, b.uid))
    && (s.worker.Some? ==> Seen(s, s.worker.value))
    && (forall uid :: uid in s.notices ==> uid in s.dropped)
    && (!s.handler.Resting? ==> s.handler.uid in s.dropped)
    && (s.handler.Reaping? ==> forall b :: b in s.handler.todo ==> b.uid in s.dropped)
  }

  // What a pass of the reaper has still to do: everything in its listing is of a known pod,
  // on the list, removed, or failed to be removed, unless it was made again since.
  predicate PassOk(s: State) {
    match s.reaper
    case Idle => true
    case Listed(listing, made) =>
      && (forall b :: b in listing ==> Seen(s, b.uid))
      && s.boxes <= listing + made
    case Removing(listing, known, todo, failed, made) =>
      && (forall b :: b in todo ==> b.uid in s.dropped && b in listing)
      && (forall b :: b in s.boxes ==> b.uid in known || b in todo || b in failed || b in made)
  }

  predicate Inv(s: State) {
    CacheOk(s) && BoxesOk(s) && PassOk(s)
  }

  lemma CacheKept(s: State, l: Label)
    requires CacheOk(s) && Enabled(s, l)
    ensures CacheOk(Do(s, l))
  {
  }

  lemma BoxesKept(s: State, l: Label)
    requires Inv(s) && Enabled(s, l)
    ensures BoxesOk(Do(s, l))
  {
  }

  lemma PassKept(s: State, l: Label)
    requires Inv(s) && Enabled(s, l)
    ensures PassOk(Do(s, l))
  {
  }

  lemma {:induction false} RunInv(run: seq<State>, labels: seq<Label>, i: nat)
    requires IsRun(run, labels) && i < |run|
    ensures Inv(run[i])
    decreases i
  {
    if i > 0 {
      RunInv(run, labels, i - 1);
      CacheKept(run[i - 1], labels[i - 1]);
      BoxesKept(run[i - 1], labels[i - 1]);
      PassKept(run[i - 1], labels[i - 1]);
    }
  }

  // --- Safety ---

  // No step of any party, in any run, takes a container away from a pod in the cache; nor
  // from one that exists on the API server.
  lemma NeverTakesFromKnownPods(run: seq<State>, labels: seq<Label>, i: nat, box: Owned)
    requires IsRun(run, labels) && i < |labels|
    requires box in run[i].boxes && box !in run[i + 1].boxes
    ensures box.uid !in run[i].cache && box.uid !in run[i].api && box.uid in run[i].dropped
  {
    RunInv(run, labels, i);
  }

  // --- Completeness ---

  predicate AllKnown(boxes: set<Owned>, known: set<Uid>) {
    forall b :: b in boxes ==> b.uid in known
  }

  // When a pass of the reaper is over, a container that is left belongs to a pod whose UID
  // was known, unless its removal failed or the worker made it during the pass.
  lemma PassIsComplete(run: seq<State>, labels: seq<Label>, i: nat, box: Owned)
    requires IsRun(run, labels) && i < |labels| && labels[i].ReaperRests?
    requires box in run[i].boxes
    ensures box.uid in run[i].reaper.known || box in run[i].reaper.failed || box in run[i].reaper.made
  {
    RunInv(run, labels, i);
  }

  // The steps of one pass: from the listing at step i to the end at step j.
  predicate OnePass(labels: seq<Label>, i: nat, j: nat) {
    && i < j < |labels| && labels[i].ReaperLists? && labels[j].ReaperRests?
    && forall k :: i < k < j ==> !labels[k].ReaperRests? && !labels[k].Restart?
  }

  predicate Undisturbed(labels: seq<Label>, i: nat, j: nat)
    requires j <= |labels|
  {
    forall k :: i <= k < j ==> !labels[k].WorkerMakes? && !(labels[k].ReaperRemoves? && !labels[k].ok)
  }

  lemma {:induction false} QuietPass(run: seq<State>, labels: seq<Label>, i: nat, j: nat, k: nat)
    requires IsRun(run, labels) && OnePass(labels, i, j) && Undisturbed(labels, i, j) && i < k <= j
    ensures !run[k].reaper.Idle? && run[k].reaper.made == {}
    ensures run[k].reaper.Removing? ==> run[k].reaper.failed == {}
    decreases k
  {
    if k == i + 1 {
      assert run[k] == Do(run[i], labels[i]);
    } else {
      QuietPass(run, labels, i, j, k - 1);
      assert run[k] == Do(run[k - 1], labels[k - 1]);
    }
  }

  // A full pass during which the worker makes no container and no removal fails leaves
  // only containers of pods known when the pods were listed.
  lemma QuietPassIsComplete(run: seq<State>, labels: seq<Label>, i: nat, j: nat)
    requires IsRun(run, labels) && OnePass(labels, i, j) && Undisturbed(labels, i, j)
    ensures run[j].reaper.Removing? && AllKnown(run[j].boxes, run[j].reaper.known)
  {
    QuietPass(run, labels, i, j, j);
    RunInv(run, labels, j);
  }

  // A run of the delete handler from its listing at step i to its end at step j, in which no
  // removal fails.
  predicate HandlerPass(labels: seq<Label>, i: nat, j: nat) {
    && i < j < |labels| && labels[i] == HandlerLists(true) && labels[j].HandlerRests?
    && forall k :: i < k < j ==> !labels[k].HandlerRests? && !labels[k].Restart? && !(labels[k].HandlerRemoves? && !labels[k].ok)
  }

  predicate MakesFor(s: State, l: Label, uid: Uid) {
    l.WorkerMakes? && s.worker == Some(uid)
  }

  lemma {:induction false} HandlerReaps(run: seq<State>, labels: seq<Label>, uid: Uid, i: nat, j: nat, k: nat)
    requires IsRun(run, labels) && HandlerPass(labels, i, j) && i < k <= j && run[i].handler == Notified(uid)
    requires forall m :: i < m < j ==> !MakesFor(run[m], labels[m], uid)
    ensures run[k].handler.Reaping? && run[k].handler.uid == uid
    ensures forall b :: b in run[k].boxes && b.uid == uid ==> b in run[k].handler.todo
    decreases k
  {
    if k == i + 1 {
      assert run[k] == Do(run[i], labels[i]);
    } else {
      HandlerReaps(run, labels, uid, i, j, k - 1);
      assert run[k] == Do(run[k - 1], labels[k - 1]) && !MakesFor(run[k - 1], labels[k - 1], uid);
    }
  }

  // A delete handler that gets through leaves no container of the pod that is gone, unless the
  // worker makes one meanwhile.
  lemma HandlerIsComplete(run: seq<State>, labels: seq<Label>, uid: Uid, i: nat, j: nat)
    requires IsRun(run, labels) && HandlerPass(labels, i, j) && run[i].handler == Notified(uid)
    requires forall m :: i < m < j ==> !MakesFor(run[m], labels[m], uid)
    ensures forall b :: b in run[j + 1].boxes ==> b.uid != uid
  {
    HandlerReaps(run, labels, uid, i, j, j);
    assert run[j + 1] == Do(run[j], labels[j]);
  }

  // --- Pods that are gone ---

  predicate Clean(s: State, uid: Uid) {
    uid in s.dropped && s.worker != Some(uid) && forall b :: b in s.boxes ==> b.uid != uid
  }

  // Once the containers of a deleted pod are gone and no pass over it is in flight, none
  // ever comes back.
  lemma {:induction false} StaysClean(run: seq<State>, labels: seq<Label>, uid: Uid, i: nat, j: nat)
    requires IsRun(run, labels) && i <= j < |run| && Clean(run[i], uid)
    ensures Clean(run[j], uid)
    decreases j
  {
    if i < j {
      StaysClean(run, labels, uid, i, j - 1);
      RunInv(run, labels, j - 1);
    }
  }

  lemma Extended(run: seq<State>, labels: seq<Label>, l: Label, s: State) returns (run': seq<State>, labels': seq<Label>)
    requires IsRun(run, labels) && Enabled(run[|labels|], l) && s == Do(run[|labels|], l)
    ensures run' == run + [s] && labels' == labels + [l] && IsRun(run', labels') && run'[|labels'|] == s
  {
    run', labels' := run + [s], labels + [l];
  }

  // A pass under way over a pod without containers, which has been deleted meanwhile.
  lemma PassInFlight(uid: Uid) returns (run: seq<State>, labels: seq<Label>)
    ensures IsRun(run, labels) && labels == [CreatePod(uid), CacheAdd(uid), WorkerStarts(uid), DeletePod(uid)]
    ensures run[|labels|] == State({uid}, {}, {uid}, {}, {}, Some(uid), [], Resting, Idle)
  {
    run, labels := [START], [];
    run, labels := Extended(run, labels, CreatePod(uid), START.(created := {uid}, api := {uid}));
    run, labels := Extended(run, labels, CacheAdd(uid), START.(created := {uid}, api := {uid}, cache := {uid}));
    run, labels := Extended(run, labels, WorkerStarts(uid),
                            START.(created := {uid}, api := {uid}, cache := {uid}, worker := Some(uid)));
    run, labels := Extended(run, labels, DeletePod(uid), State({uid}, {}, {uid}, {}, {}, Some(uid), [], Resting, Idle));
  }

  // The delete handler runs to its end meanwhile.
  lemma HandlerFindsNothing(uid: Uid) returns (run: seq<State>, labels: seq<Label>)
    ensures IsRun(run, labels) && HandlerRests in labels && Restart !in labels
    ensures run[|labels|] == State({uid}, {}, {}, {uid}, {}, Some(uid), [], Resting, Idle)
  {
    run, labels := PassInFlight(uid);
    var none: seq<Uid> := [];
    var gone := State({uid}, {}, {}, {uid}, {}, Some(uid), [], Resting, Idle);
    assert none + [uid] == [uid];
    run, labels := Extended(run, labels, CacheDelete(uid), gone.(notices := [uid]));
    run, labels := Extended(run, labels, HandlerWakes, gone.(handler := Notified(uid)));
    assert WithUid({}, uid) == {};
    run, labels := Extended(run, labels, HandlerLists(true), gone.(handler := Reaping(uid, {})));
    run, labels := Extended(run, labels, HandlerRests, gone);
    assert labels[|labels| - 1] == HandlerRests;
  }

  // A pass in flight while its pod is deleted can leave a container behind although the
  // delete handler runs to its end, with no call failing and no restart; this is what the
  // orphan reaper is for.
  lemma PassInFlightLeaks(uid: Uid, name: string) returns (run: seq<State>, labels: seq<Label>)
    ensures IsRun(run, labels) && HandlerRests in labels && Restart !in labels
    ensures var s := run[|labels|];
            s.worker.None? && s.handler.Resting? && s.notices == [] && uid in s.dropped && Owned(uid, name) in s.boxes
  {
    run, labels := HandlerFindsNothing(uid);
    var left := run[|labels|].(boxes := {Owned(uid, name)});
    run, labels := Extended(run, labels, WorkerMakes(name), left);
    run, labels := Extended(run, labels, WorkerEnds, left.(worker := None));
  }
}
