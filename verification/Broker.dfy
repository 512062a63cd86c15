/**
 Coalesced wake-ups (services/control-plane/internal/runs/broker.go) and the event stream that waits
 for them (services/control-plane/internal/httpapi/run_events.go).
 */
module Broker {
  import opened Basics
  import opened RunStore

  /** A channel that holds at most one token. */
  type Channel = nat

  class Broker {
    var subscribers: map<RunId, set<Channel>>
    var full: set<Channel>
    var next: Channel

    /** Channels are used once, belong to one run, and a run without subscribers has no entry. */
    ghost predicate Valid()
      reads this
    {
      && (forall id :: id in subscribers ==> subscribers[id] != {})
      && (forall id, ch :: id in subscribers && ch in subscribers[id] ==> ch < next)
      && (forall i, j, ch :: i in subscribers && j in subscribers && ch in subscribers[i] && ch in subscribers[j] ==> i == j)
      && (forall ch :: ch in full ==> ch < next)
    }

    function Of(id: RunId): set<Channel>
      reads this
    {
      if id in subscribers then subscribers[id] else {}
    }

    constructor ()
      ensures Valid() && subscribers == map[] && full == {}
    {
      subscribers, full, next := map[], {}, 0;
    }

    method Subscribe(id: RunId) returns (ch: Channel)
      requires Valid()
      modifies this
      ensures Valid() && Of(id) == old(Of(id)) + {ch} && ch !in old(Of(id))
      ensures full == old(full) && ch !in full && old(next) <= ch < next
      ensures forall other: RunId :: other != id ==> Of(other) == old(Of(other))
    {
      ch := next;
      subscribers := subscribers[id := Of(id) + {ch}];
      next := next + 1;
    }

    /** The cleanup of a subscription; calling it again changes nothing. */
    method Unsubscribe(id: RunId, ch: Channel)
      requires Valid()
      modifies this`subscribers
      ensures Valid() && Of(id) == old(Of(id)) - {ch}
      ensures forall other: RunId :: other != id ==> Of(other) == old(Of(other))
    {
      if id !in subscribers { return; }
      var left := subscribers[id] - {ch};
      subscribers := if left == {} then subscribers - {id} else subscribers[id := left];
    }

    /** A token for every subscriber of the run that has none; it never blocks and reaches no one else. */
    method Notify(id: RunId)
      requires Valid()
      modifies this`full
      ensures Valid() && full == old(full) + Of(id)
    {
      var rest := Of(id);
      while rest != {}
        invariant Valid() && rest <= Of(id) && full == old(full) + (Of(id) - rest)
        decreases |rest|
      {
        var ch: Channel :| ch in rest;
        full := full + {ch};
        rest := rest - {ch};
      }
    }

    method Receive(ch: Channel)
      requires Valid() && ch in full
      modifies this`full
      ensures Valid() && full == old(full) - {ch}
    {
      full := full - {ch};
    }
  }

  /** What happens around a waiting stream: commits, their notifications, other runs', and poll ticks. */
  datatype Moment = Commit | Notified | NotifiedFor(other: RunId) | Tick

  /**
   One stream of run `id`, counting events. A notification follows each commit attempt, possibly after
   further commits. Whenever the stream waits, everything committed before the last notification has
   been printed; after a tick, everything committed.
   */
  class Waiter {
    const broker: Broker
    const id: RunId
    var committed: nat
    var announced: nat
    var printed: nat
    var channel: Channel

    constructor (broker: Broker, id: RunId, committed: nat, after: nat)
      requires broker.Valid() && after <= committed
      modifies broker
      ensures this.broker == broker && this.id == id && Consistent() && printed == this.committed == committed
      ensures announced <= printed
    {
      this.broker, this.id, this.committed, this.announced, this.printed := broker, id, committed, after, after;
      new;
      // Subscribed before the first durable read.
      channel := broker.Subscribe(id);
      printed := this.committed;
    }

    ghost predicate Consistent()
      reads this, broker
    {
      && broker.Valid() && channel in broker.Of(id)
      && announced <= committed && printed <= committed
      && (printed < announced ==> channel in broker.full)
    }

    method Happen(m: Moment)
      requires Consistent()
      modifies this`committed, this`announced, broker
      ensures Consistent() && printed == old(printed) && old(committed) <= committed
      ensures m == Notified ==> announced == committed
      ensures m != Notified ==> announced == old(announced)
    {
      match m {
        case Commit => committed := committed + 1;
        case Notified =>
          announced := committed;
          broker.Notify(id);
        case NotifiedFor(other) => broker.Notify(other);
        case Tick =>
      }
    }

    /** The select loop: it reads again for every token and every tick. */
    method Wait(moments: seq<Moment>)
      requires Consistent()
      modifies this`committed, this`announced, this`printed, broker
      ensures Consistent() && old(printed) <= printed
      ensures announced <= printed
      ensures moments != [] && moments[|moments| - 1] == Tick ==> printed == committed
    {
      Drain();
      var k := 0;
      while k < |moments|
        invariant 0 <= k <= |moments| && Consistent() && old(printed) <= printed && announced <= printed
        invariant k > 0 && moments[k - 1] == Tick ==> printed == committed
      {
        Happen(moments[k]);
        if moments[k] == Tick { printed := committed; }
        Drain();
        k := k + 1;
      }
    }

    method Drain()
      requires Consistent()
      modifies this`printed, broker
      ensures Consistent() && announced <= printed && (printed == old(printed) || printed == committed)
      ensures old(printed) <= printed
    {
      if channel in broker.full {
        broker.Receive(channel);
        printed := committed;
      }
    }
  }
}
