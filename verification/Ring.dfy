/** What the ring of recent events keeps and what a replay from it returns. */
module Ring {
  import opened Decimal
  import opened Objects
  import opened Options

  // The ring after an append: its last `capacity` events.
  function Trim(ring: seq<Event>, capacity: nat): (r: seq<Event>)
  {
    if |ring| > capacity then ring[|ring| - capacity..] else ring
  }

  // The events above a version, in order.
  function Above(events: seq<Event>, rv: nat): seq<Event> {
    if events == [] then []
    else
      var last := events[|events| - 1];
      Above(events[..|events| - 1], rv) + (if last.rv > rv then [last] else [])
  }

  // The signals a watch with this filter receives for these events.
  function Select(events: seq<Event>, filter: Filter): seq<Signal> {
    if events == [] then []
    else
      var last := events[|events| - 1];
      Select(events[..|events| - 1], filter) + (if Matches(filter, last.key) then [Change(last)] else [])
  }

  // The answer of replayLocked: none when the start version is judged too old. The
  // comparison is made on uint64.
  function Replay(ring: seq<Event>, startRV: nat): Option<seq<Event>> {
    if ring == [] then Some([])
    else if (startRV + 1) % (MAX_UINT64 + 1) < ring[0].rv then None
    else Some(Above(ring, startRV))
  }

  // The ring has the latest events of a history, as many as fit.
  lemma TrimKeeps(history: seq<Event>, capacity: nat)
    ensures var ring := Trim(history, capacity);
            && |ring| == (if |history| < capacity then |history| else capacity)
            && history[|history| - |ring|..] == ring
  {
  }

  // A watch is concerned by an event of every key, of a namespace, or of one key.
  lemma SelectsConcerned(ev: Event, filter: Filter)
    ensures Change(ev) in Select([ev], filter) <==>
              match filter case Everything => true case InNamespace(ns) => ev.key.ns == ns case Exactly(key) => ev.key == key
    ensures Select([ev], filter) == [] || Select([ev], filter) == [Change(ev)]
  {
    assert [ev][..0] == [];
  }

  // Trimming after every append keeps the tail of the whole history.
  lemma TrimAppend(history: seq<Event>, ev: Event, capacity: nat)
    ensures Trim(Trim(history, capacity) + [ev], capacity) == Trim(history + [ev], capacity)
  {
  }
}
