/** Replays, reconnections and lists, with each request as one step. */
module Watches {
  import opened Atomic
  import opened Decimal
  import opened Json
  import opened Objects
  import opened Options
  import opened Ring

  // --- Replay ---

  // The events no longer in the ring.
  function Evicted(s: State, capacity: nat): seq<Event> {
    s.history[..|s.history| - |Trim(s.history, capacity)|]
  }

  lemma ReplayAnswer(ring: seq<Event>, startRV: nat)
    requires startRV < MAX_UINT64
    ensures Replay(ring, startRV).Some? <==> (ring != [] ==> ring[0].rv <= startRV + 1)
    ensures Replay(ring, startRV).Some? ==> Replay(ring, startRV).value == Above(ring, startRV)
  {
    assert (startRV + 1) % (MAX_UINT64 + 1) == startRV + 1;
  }

  lemma EvictedBelow(s: State, capacity: nat, startRV: nat)
    requires Dated(s) && capacity > 0
    requires var ring := Trim(s.history, capacity); ring != [] ==> ring[0].rv <= startRV + 1
    ensures forall i :: 0 <= i < |Evicted(s, capacity)| ==> Evicted(s, capacity)[i].rv <= startRV
  {
    var ring := Trim(s.history, capacity);
    var gone := Evicted(s, capacity);
    assert ring != [] ==> ring[0] == s.history[|gone|];
  }

  // An accepted replay is exactly what was published since the start version: an
  // acceptance never hides an evicted event, gaps between versions notwithstanding.
  lemma ReplayExact(s: State, capacity: nat, startRV: nat)
    requires Dated(s) && capacity > 0 && s.openRV <= startRV < s.rv <= MAX_UINT64
    requires Replay(Trim(s.history, capacity), startRV).Some?
    ensures Replay(Trim(s.history, capacity), startRV).value == Above(s.history, startRV)
  {
    var ring := Trim(s.history, capacity);
    var gone := Evicted(s, capacity);
    ReplayAnswer(ring, startRV);
    EvictedBelow(s, capacity, startRV);
    assert s.history == gone + ring;
    AboveConcat(gone, ring, startRV);
    AboveNone(gone, startRV);
  }

  // Events that the processes before this one may have published: they made the files at
  // opening of some earlier ones.
  ghost predicate PastOf(past: seq<Event>, s: State) {
    && Ascending(past) && (forall i :: 0 <= i < |past| ==> past[i].rv <= s.openRV)
    && exists early: Files :: Makes(early, past, s.base)
  }

  ghost predicate Makes(early: Files, past: seq<Event>, base: Files) {
    forall k :: Get(base, k) == ViewAt(Get(early, k), Select(past, Everything), k)
  }

  lemma {:induction false} LongestName(keys: set<Key>) returns (n: nat)
    ensures forall k :: k in keys ==> |k.name| <= n
  {
    n := 0;
    if keys != {} {
      var k :| k in keys;
      n := LongestName(keys - {k});
      n := if |k.name| > n then |k.name| else n;
    }
  }

  // The removal of an object that is not there now can always be the last thing that happened.
  lemma PossiblePast(s: State) returns (past: seq<Event>)
    ensures PastOf(past, s) && |past| == 1 && past[0].rv == s.openRV
  {
    var n := LongestName(s.base.Keys);
    var k := Key("", seq(n + 1, i => 'a'));
    assert |k.name| == n + 1 && k !in s.base;
    past := [Event(s.openRV, Deleted, k, EMPTY_OBJECT)];
    assert past[..0] == [];
    assert Makes(s.base[k := EMPTY_OBJECT], past, s.base) by {
      forall j ensures Get(s.base, j) == ViewAt(Get(s.base[k := EMPTY_OBJECT], j), Select(past, Everything), j) {
        assert Select(past, Everything) == [] + [Change(past[0])];
        ViewAppend(Get(s.base[k := EMPTY_OBJECT], j), [], Change(past[0]), j);
      }
    }
  }

  // An accepted replay is right about everything ever published, whatever that may have been,
  // exactly when the start version is not below the version at opening. The ring alone
  // does not tell: an empty ring accepts any start.
  lemma ReplayExactSinceOpening(s: State, capacity: nat, startRV: nat)
    requires Dated(s) && capacity > 0 && startRV < s.rv <= MAX_UINT64
    requires Replay(Trim(s.history, capacity), startRV).Some?
    ensures (forall past :: PastOf(past, s) ==>
              Replay(Trim(s.history, capacity), startRV).value == Above(past + s.history, startRV))
        <==> startRV >= s.openRV
  {
    var ring := Trim(s.history, capacity);
    var replay := Replay(ring, startRV).value;
    if startRV >= s.openRV {
      ReplayExact(s, capacity, startRV);
      forall past | PastOf(past, s) ensures replay == Above(past + s.history, startRV) {
        AboveConcat(past, s.history, startRV);
        AboveNone(past, startRV);
      }
    } else {
      var past := PossiblePast(s);
      AboveConcat(past, s.history, startRV);
      AboveAll(past, startRV);
      AboveShorter(s.history, |s.history| - |ring|, startRV);
      assert PastOf(past, s) && replay != Above(past + s.history, startRV);
    }
  }

  lemma AboveShorter(events: seq<Event>, from: nat, rv: nat)
    requires from <= |events|
    ensures |Above(events[from..], rv)| <= |Above(events, rv)|
  {
    assert events == events[..from] + events[from..];
    AboveConcat(events[..from], events[from..], rv);
  }

  // The start lies in a gap: below the ring by more than one version, with no evicted event
  // above it. Versions in between went to other resources or to requests that failed.
  predicate InGap(s: State, capacity: nat, startRV: nat) {
    var ring, gone := Trim(s.history, capacity), Evicted(s, capacity);
    ring != [] && startRV + 1 < ring[0].rv && (gone == [] || gone[|gone| - 1].rv <= startRV)
  }

  // A start is refused exactly when an event above it has been evicted, if and only if it
  // does not lie in a gap just below the ring; there it is refused needlessly.
  lemma RefusalExact(s: State, capacity: nat, startRV: nat)
    requires Dated(s) && capacity > 0 && startRV < s.rv <= MAX_UINT64
    ensures (Replay(Trim(s.history, capacity), startRV) == None
             <==> exists ev :: ev in Evicted(s, capacity) && ev.rv > startRV)
            <==> !InGap(s, capacity, startRV)
  {
    var ring := Trim(s.history, capacity);
    var gone := Evicted(s, capacity);
    ReplayAnswer(ring, startRV);
    assert ring != [] ==> ring[0] == s.history[|gone|];
    if gone != [] {
      var last := gone[|gone| - 1];
      assert last in gone && last == s.history[|gone| - 1];
      forall ev | ev in gone ensures ev.rv <= last.rv {
        var i :| 0 <= i < |gone| && gone[i] == ev;
        assert gone[i] == s.history[i];
      }
    }
  }

  // It does happen: two versions go to other resources and one to a first object. A watch
  // from before is told that it is too old, though nothing was evicted.
  lemma RefusalMayBeConservative() returns (s: State)
    ensures s == Steps(Open(map[], {}, 1), [OtherResource, OtherResource, Request(Key("", "node"), Create(JNull))])
    ensures Evicted(s, 1000) == [] && Replay(Trim(s.history, 1000), 1) == None && InGap(s, 1000, 1)
  {
    var s0 := Open(map[], {}, 1);
    var steps := [OtherResource, OtherResource, Request(Key("", "node"), Create(JNull))];
    var none, one, two := steps[..0], steps[..1], steps[..2];
    assert one[..0] == none == [] && two[..1] == one;
    assert Steps(s0, one) == Next(Steps(s0, none), OtherResource) == s0.(rv := 2);
    var s2 := Steps(s0, two);
    assert s2 == Next(Steps(s0, one), OtherResource) == s0.(rv := 3);
    s := Next(s2, steps[2]);
    assert s.history == [] + [s.history[0]] && s.history[0].rv == 4;
    ReplayAnswer(s.history, 1);
  }

  // --- Reconnection ---

  lemma StreamExtends(events: seq<Event>, live: seq<Event>, rv: nat, filter: Filter)
    requires forall i :: 0 <= i < |live| ==> live[i].rv > rv
    ensures Stream(events + live, rv, filter) == Stream(events, rv, filter) + Select(live, filter)
  {
    AboveConcat(events, live, rv);
    AboveAll(live, rv);
    SelectConcat(Above(events, rv), live, filter);
  }

  // A later stream continues an earlier one with the live events.
  lemma LaterStream(at: State, now: State, rv: nat, filter: Filter)
    requires Later(at, now) && rv <= at.rv
    ensures Stream(now.history, rv, filter) == Stream(at.history, rv, filter) + Select(now.history[|at.history|..], filter)
  {
    var live := now.history[|at.history|..];
    assert now.history == at.history + live;
    assert forall i :: 0 <= i < |live| ==> live[i] == now.history[|at.history| + i];
    StreamExtends(at.history, live, rv, filter);
  }

  // What an accepted watch is offered is every matching event above its start.
  lemma StreamIsComplete(capacity: nat, at: State, startRV: nat, filter: Filter, now: State)
    requires Dated(at) && Later(at, now) && capacity > 0
    requires at.openRV <= startRV <= at.rv <= MAX_UINT64
    requires WatchStream(capacity, at, startRV, filter, now.history).Some?
    ensures WatchStream(capacity, at, startRV, filter, now.history).value == Stream(now.history, startRV, filter)
  {
    var live := now.history[|at.history|..];
    LaterStream(at, now, startRV, filter);
    if startRV < at.rv {
      ReplayExact(at, capacity, startRV);
    } else {
      AboveNone(at.history, startRV);
      assert Stream(at.history, startRV, filter) + Select(live, filter) == Select(live, filter);
    }
  }

  lemma StreamAppend(events: seq<Event>, ev: Event, rv: nat, filter: Filter)
    ensures Stream(events + [ev], rv, filter)
         == Stream(events, rv, filter) + (if ev.rv > rv && Matches(filter, ev.key) then [Change(ev)] else [])
  {
    AboveAppend(events, ev, rv);
    if ev.rv > rv { SelectAppend(Above(events, rv), ev, filter); }
    assert Above(events, rv) + [] == Above(events, rv);
  }

  lemma StreamLast(events: seq<Event>, rv: nat, filter: Filter)
    requires events != []
    ensures var ev := events[|events| - 1];
      Stream(events, rv, filter)
        == Stream(events[..|events| - 1], rv, filter) + (if ev.rv > rv && Matches(filter, ev.key) then [Change(ev)] else [])
  {
    assert events == events[..|events| - 1] + [events[|events| - 1]];
    StreamAppend(events[..|events| - 1], events[|events| - 1], rv, filter);
  }

  lemma SameStart(a: seq<Signal>, b: seq<Signal>, i: nat)
    requires a <= b && i < |a|
    ensures a[..i + 1] == b[..i + 1] && a[i] == b[i]
  {
  }

  // Each signal of a stream is some event, and the stream up to it is the stream of the
  // events up to that one.
  lemma {:induction false} StreamAt(events: seq<Event>, rv: nat, filter: Filter, i: nat) returns (p: nat)
    requires i < |Stream(events, rv, filter)|
    ensures p < |events| && Stream(events, rv, filter)[i] == Change(events[p]) && events[p].rv > rv
    ensures Stream(events[..p + 1], rv, filter) == Stream(events, rv, filter)[..i + 1]
  {
    var n := |events| - 1;
    StreamLast(events, rv, filter);
    if i < |Stream(events[..n], rv, filter)| {
      p := StreamAt(events[..n], rv, filter, i);
      assert events[..n][..p + 1] == events[..p + 1];
      SameStart(Stream(events[..n], rv, filter), Stream(events, rv, filter), i);
    } else {
      p := n;
      assert events[..n + 1] == events;
    }
  }

  // An event splits an ascending history into what is not above it and what is.
  lemma Split(events: seq<Event>, p: nat) returns (upTo: seq<Event>, after: seq<Event>)
    requires Ascending(events) && p < |events|
    ensures upTo == events[..p + 1] && after == events[p + 1..] && events == upTo + after
    ensures forall j :: 0 <= j < |upTo| ==> upTo[j].rv <= events[p].rv
    ensures forall j :: 0 <= j < |after| ==> after[j].rv > events[p].rv
  {
    upTo, after := events[..p + 1], events[p + 1..];
  }

  lemma CutBefore(events: seq<Event>, rv: nat, filter: Filter, p: nat)
    requires Ascending(events) && p < |events| && events[p].rv > rv
    ensures Stream(events, rv, filter) == Stream(events[..p + 1], rv, filter) + Select(events[p + 1..], filter)
  {
    var upTo, after := Split(events, p);
    StreamExtends(upTo, after, rv, filter);
  }

  lemma CutAfter(events: seq<Event>, filter: Filter, p: nat)
    requires Ascending(events) && p < |events|
    ensures Stream(events, events[p].rv, filter) == Select(events[p + 1..], filter)
  {
    var upTo, after := Split(events, p);
    StreamExtends(upTo, after, events[p].rv, filter);
    AboveNone(upTo, events[p].rv);
    assert Stream(upTo, events[p].rv, filter) == [];
  }

  // Where a stream is cut after an event, what remains is the stream from its version.
  lemma CutStream(events: seq<Event>, rv: nat, filter: Filter, i: nat)
    requires Ascending(events) && i < |Stream(events, rv, filter)|
    ensures var sig := Stream(events, rv, filter)[i];
      && sig.Change? && sig.ev in events && sig.ev.rv > rv
      && Stream(events, sig.ev.rv, filter) == Stream(events, rv, filter)[i + 1..]
  {
    var p := StreamAt(events, rv, filter, i);
    CutBefore(events, rv, filter, p);
    CutAfter(events, filter, p);
  }

  // Reconnecting loses and repeats nothing. A watch from `startRV` is cut after some
  // event, when `cut` was published; the client watches again from that event's version.
  // Unless it is told ResourceExpired, what it has followed by what it is sent now is
  // the stream of a watch that was never cut.
  lemma Reconnect(capacity: nat, at: State, startRV: nat, filter: Filter, cut: State, now: State, first: seq<Signal>)
    requires Dated(at) && Dated(cut) && Dated(now) && Later(at, cut) && Later(cut, now) && Later(at, now)
    requires capacity > 0 && at.openRV <= startRV <= at.rv && now.rv <= MAX_UINT64
    requires var sent := WatchStream(capacity, at, startRV, filter, cut.history); sent.Some? && first <= sent.value
    requires first != []
    ensures first[|first| - 1].Change?
    ensures var again := WatchStream(capacity, cut, first[|first| - 1].ev.rv, filter, now.history);
      again.Some? ==> WatchStream(capacity, at, startRV, filter, now.history) == Some(first + again.value)
  {
    StreamIsComplete(capacity, at, startRV, filter, cut);
    StreamIsComplete(capacity, at, startRV, filter, now);
    ReconnectStream(cut, now, startRV, filter, first);
    CutIsDated(cut, startRV, filter, |first| - 1);
    var r := first[|first| - 1].ev.rv;
    if WatchStream(capacity, cut, r, filter, now.history).Some? {
      StreamIsComplete(capacity, cut, r, filter, now);
    }
  }

  lemma CutIsDated(cut: State, rv: nat, filter: Filter, i: nat)
    requires Dated(cut) && i < |Stream(cut.history, rv, filter)|
    ensures var sig := Stream(cut.history, rv, filter)[i]; sig.Change? && rv < sig.ev.rv <= cut.rv
  {
    CutStream(cut.history, rv, filter, i);
  }

  lemma ReconnectStream(cut: State, now: State, startRV: nat, filter: Filter, first: seq<Signal>)
    requires Ascending(now.history) && Later(cut, now) && startRV <= cut.rv
    requires first != [] && first <= Stream(cut.history, startRV, filter)
    ensures first[|first| - 1].Change?
    ensures Stream(now.history, startRV, filter) == first + Stream(now.history, first[|first| - 1].ev.rv, filter)
  {
    LaterStream(cut, now, startRV, filter);
    CutStream(now.history, startRV, filter, |first| - 1);
    var whole := Stream(now.history, startRV, filter);
    assert whole == first + whole[|first|..];
  }
}
