/** The broadcaster: the ring of recent events and the watchers it feeds. */
module Broadcaster {
  import opened Decimal
  import opened Objects
  import opened Options
  import opened Ring

  // What can become of a caller of deliver: it comes back, it waits for ever in a Stop that
  // needs the mutex it holds, or it sends on a closed channel and panics.
  datatype Fate = Returns | Blocks | Panics

  // One watch channel. `sent` is everything put into it, `buffered` counts what has not been
  // taken out, `closed` says that Stop closed it, and `hooked` that onStop is set.
  class Watcher {
    const filter: Filter
    var sent: seq<Signal>
    var buffered: nat
    var closed: bool
    var hooked: bool

    constructor (filter: Filter)
      ensures this.filter == filter && sent == [] && buffered == 0 && !closed && !hooked
    {
      this.filter, sent, buffered, closed, hooked := filter, [], 0, false, false;
    }

    predicate HasRoom()
      reads this
    {
      !closed && buffered < CHANNEL_SIZE
    }

    // What a publisher that comes back has done for this watcher: it got a matching event if
    // it had room, and if not it was closed.
    twostate predicate Offered(ev: Event)
      reads this
    {
      && (Matches(filter, ev.key) ==> old(HasRoom() || closed))
      && sent == old(sent) + (if old(HasRoom()) then Select([ev], filter) else [])
    }

    // The receiver takes a signal.
    method Receive()
      requires buffered > 0
      modifies this`buffered
      ensures buffered == old(buffered) - 1
    {
      buffered := buffered - 1;
    }

    // deliver. After Stop, the select may take either ready case: the closed stopCh, or the
    // closed channel. On a full buffer it calls Stop, whose hook needs the mutex that every
    // caller of deliver holds.
    method Deliver(sig: Signal) returns (fate: Fate)
      modifies this`sent, this`buffered, this`closed
      ensures old(HasRoom()) ==> fate.Returns? && !closed && sent == old(sent) + [sig] && buffered == old(buffered) + 1
      ensures !old(HasRoom()) ==> sent == old(sent) && buffered == old(buffered)
      ensures !old(HasRoom()) && !old(closed) ==>
                if hooked then fate.Blocks? && !closed else fate.Returns? && closed
      ensures old(closed) ==> !fate.Blocks? && closed
    {
      if closed {
        var stopped: bool := *;
        return if stopped then Returns else Panics;
      }
      if buffered < CHANNEL_SIZE {
        sent, buffered := sent + [sig], buffered + 1;
        return Returns;
      }
      if hooked {
        return Blocks;
      }
      closed := true;
      return Returns;
    }

    // What publish does for each subscriber.
    method Offer(ev: Event) returns (fate: Fate)
      requires hooked
      modifies this`sent, this`buffered, this`closed
      ensures closed == old(closed)
      ensures fate.Returns? ==> Offered(ev)
      ensures fate.Blocks? ==> Matches(filter, ev.key) && !closed && old(buffered) >= CHANNEL_SIZE
      ensures fate.Panics? ==> Matches(filter, ev.key) && closed
      ensures old(HasRoom()) ==> fate.Returns?
      ensures !Matches(filter, ev.key) ==> fate.Returns?
    {
      assert [ev][..0] == [];
      fate := Returns;
      if Matches(filter, ev.key) {
        fate := Deliver(Change(ev));
      }
    }
  }

  class Broadcaster {
    const capacity: nat
    var ring: seq<Event>
    var subs: set<Watcher>

    // Who is subscribed has its hook.
    ghost predicate Valid()
      reads this, subs
    {
      forall w :: w in subs ==> w.hooked
    }

    constructor (capacity: nat)
      ensures this.capacity == capacity && ring == [] && subs == {} && Valid()
    {
      this.capacity, ring, subs := capacity, [], {};
    }

    // Whether the event can be given to all whom it concerns.
    ghost predicate Fits(key: Key)
      reads this, subs
    {
      forall w :: w in subs && Matches(w.filter, key) ==> w.HasRoom()
    }

    // Appends to the ring, cuts it to capacity and offers the event to each watcher. It is
    // sure to return exactly when every concerned watcher has room; then each gets the event
    // and nobody else does.
    method Publish(ev: Event) returns (fate: Fate)
      requires Valid()
      modifies this`ring, subs
      ensures Valid() && ring == Trim(old(ring) + [ev], capacity) && subs == old(subs)
      ensures old(Fits(ev.key)) ==> fate.Returns?
      ensures fate.Blocks? ==> exists w :: w in subs && Matches(w.filter, ev.key) && old(!w.closed && w.buffered >= CHANNEL_SIZE)
      ensures fate.Panics? ==> exists w :: w in subs && Matches(w.filter, ev.key) && old(w.closed)
      ensures fate.Returns? ==> forall w :: w in subs ==> w.Offered(ev)
      ensures forall w :: w in subs ==> w.hooked && w.closed == old(w.closed)
    {
      ring := ring + [ev];
      if |ring| > capacity {
        ring := ring[|ring| - capacity..];
      }
      var todo := subs;
      while todo != {}
        invariant todo <= subs == old(subs) && ring == Trim(old(ring) + [ev], capacity)
        invariant forall w :: w in subs ==> w.hooked && w.closed == old(w.closed)
        invariant forall w :: w in todo ==> w.sent == old(w.sent) && w.buffered == old(w.buffered)
        invariant forall w :: w in subs - todo ==> w.Offered(ev)
        decreases |todo|
      {
        var w :| w in todo;
        fate := w.Offer(ev);
        if !fate.Returns? {
          return;
        }
        forall v | v in subs - todo + {w} ensures v.Offered(ev) {
          if v != w { assert v in subs - todo; }
        }
        todo := todo - {w};
      }
      fate := Returns;
    }

    // The events above a version, or not ok when it precedes the ring.
    method ReplayLocked(startRV: nat) returns (events: seq<Event>, ok: bool)
      ensures (if ok then Some(events) else None) == Replay(ring, startRV)
    {
      if |ring| == 0 {
        return [], true;
      }
      var oldest := ring[0].rv;
      if (startRV + 1) % (MAX_UINT64 + 1) < oldest {
        return [], false;
      }
      events, ok := [], true;
      for i := 0 to |ring|
        invariant events == Above(ring[..i], startRV)
      {
        assert ring[..i + 1][..i] == ring[..i];
        if ring[i].rv > startRV {
          events := events + [ring[i]];
        }
      }
      assert ring[..|ring|] == ring;
    }

    // The watcher is fed from now on, and a later Stop ends that.
    method SubscribeLocked(w: Watcher)
      requires Valid()
      modifies this`subs, w`hooked
      ensures Valid() && subs == old(subs) + {w} && w.hooked
    {
      subs := subs + {w};
      w.hooked := true;
    }

    // Stop, from outside the broadcaster: after the first call the channel is closed, and the
    // watcher is out of the subscriptions if it was ever in. Before it was, the channel is
    // closed all the same.
    method Stop(w: Watcher)
      requires Valid()
      modifies this`subs, w`closed
      ensures Valid() && w.closed
      ensures old(w.closed) ==> subs == old(subs)
      ensures !old(w.closed) ==> subs == (if w.hooked then old(subs) - {w} else old(subs))
    {
      if w.closed {
        return;
      }
      if w.hooked {
        subs := subs - {w};
      }
      w.closed := true;
    }
  }
}
