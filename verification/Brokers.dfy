// The event broker: bounded queues, one per subscriber; a subscriber whose
// queue is full is disconnected. The three brokers of the program are copies.
module Brokers {
  import opened Results

  const SUBSCRIBER_BUFFER := 64

  // A Go channel: closing it leaves what is buffered to be received.
  datatype Channel<E> = Channel(buffer: seq<E>, closed: bool)

  // Every channel ever handed out, and the IDs the broker still publishes to.
  datatype Hub<E> = Hub(channels: map<nat, Channel<E>>, registered: set<nat>, nextId: nat)

  function Offered<E>(c: Channel<E>, event: E): Channel<E> {
    if |c.buffer| < SUBSCRIBER_BUFFER then c.(buffer := c.buffer + [event]) else c.(closed := true)
  }

  function Published<E>(h: Hub<E>, event: E): Hub<E> {
    h.(channels := map id | id in h.channels ::
         if id in h.registered then Offered(h.channels[id], event) else h.channels[id],
       registered := set id | id in h.registered && id in h.channels && |h.channels[id].buffer| < SUBSCRIBER_BUFFER)
  }

  function Subscribed<E>(h: Hub<E>): Hub<E> {
    Hub(h.channels[h.nextId + 1 := Channel([], false)], h.registered + {h.nextId + 1}, h.nextId + 1)
  }

  function Cancelled<E>(h: Hub<E>, id: nat): Hub<E> {
    if id in h.registered && id in h.channels
    then h.(channels := h.channels[id := h.channels[id].(closed := true)], registered := h.registered - {id})
    else h
  }

  function Received<E>(h: Hub<E>, id: nat): Hub<E>
    requires id in h.channels && h.channels[id].buffer != []
  {
    h.(channels := h.channels[id := h.channels[id].(buffer := h.channels[id].buffer[1..])])
  }

  ghost predicate Sound<E>(h: Hub<E>) {
    && h.registered <= h.channels.Keys
    && (forall id :: id in h.channels ==>
          id <= h.nextId && |h.channels[id].buffer| <= SUBSCRIBER_BUFFER
          && (h.channels[id].closed <==> id !in h.registered))
  }

  lemma RegisteredKnown<E>(h: Hub<E>)
    requires Sound(h)
    ensures h.registered <= h.channels.Keys
  {
  }

  lemma PublishedIs<E>(h: Hub<E>, event: E, after: Hub<E>)
    requires h.registered <= h.channels.Keys && after.nextId == h.nextId && after.channels.Keys == h.channels.Keys
    requires forall id :: id in h.channels ==>
      after.channels[id] == if id in h.registered then Offered(h.channels[id], event) else h.channels[id]
    requires forall id :: id in after.registered <==>
      id in h.registered && |h.channels[id].buffer| < SUBSCRIBER_BUFFER
    ensures after == Published(h, event)
  {
    hide Offered;
    assert after.registered == Published(h, event).registered;
    assert after.channels == Published(h, event).channels;
  }

  lemma PublishSound<E>(h: Hub<E>, event: E)
    requires Sound(h)
    ensures Sound(Published(h, event))
  {
  }

  class Broker<E> {
    var channels: map<nat, Channel<E>>
    var registered: set<nat>
    var nextId: nat

    ghost function State(): Hub<E>
      reads this
    {
      Hub(channels, registered, nextId)
    }

    constructor ()
      ensures State() == Hub(map[], {}, 0) && Sound(State())
    {
      channels := map[];
      registered := {};
      nextId := 0;
    }

    // The select with a default: enqueue, or disconnect a full subscriber.
    method Offer(id: nat, event: E)
      requires id in channels
      modifies this
      ensures nextId == old(nextId) && channels == old(channels)[id := Offered(old(channels)[id], event)]
      ensures registered == if |old(channels)[id].buffer| < SUBSCRIBER_BUFFER then old(registered) else old(registered) - {id}
    {
      var subscriber := channels[id];
      if |subscriber.buffer| < SUBSCRIBER_BUFFER {
        channels := channels[id := subscriber.(buffer := subscriber.buffer + [event])];
      } else {
        channels := channels[id := subscriber.(closed := true)];
        registered := registered - {id};
      }
    }

    method Publish(event: E)
      requires Sound(State())
      modifies this
      ensures Sound(State()) && State() == Published(old(State()), event)
    {
      hide Offered, Sound, Published;
      RegisteredKnown(State());
      ghost var was := State();
      var pending := registered;
      while pending != {}
        invariant nextId == was.nextId && channels.Keys == was.channels.Keys
        invariant pending <= was.registered
        invariant forall id :: id in was.channels ==>
          channels[id] == if id in was.registered && id !in pending then Offered(was.channels[id], event) else was.channels[id]
        invariant forall id :: id in registered <==>
          id in was.registered && (id in pending || |was.channels[id].buffer| < SUBSCRIBER_BUFFER)
        decreases |pending|
      {
        var id :| id in pending;
        pending := pending - {id};
        Offer(id, event);
      }
      PublishedIs(was, event, State());
      PublishSound(was, event);
    }

    method Subscribe() returns (id: nat)
      requires Sound(State())
      modifies this
      ensures Sound(State()) && State() == Subscribed(old(State()))
      ensures id == nextId && id !in old(channels)
    {
      nextId := nextId + 1;
      id := nextId;
      channels := channels[id := Channel([], false)];
      registered := registered + {id};
    }

    // The cancel function: a second call, or a call after the broker has already
    // disconnected the subscriber, does nothing.
    method Cancel(id: nat)
      requires Sound(State())
      modifies this
      ensures Sound(State()) && State() == Cancelled(old(State()), id)
      ensures id !in old(registered) ==> State() == old(State())
    {
      if id in registered {
        channels := channels[id := channels[id].(closed := true)];
        registered := registered - {id};
      }
    }

    // The client's receive: the oldest buffered event, or None when the channel
    // is empty (the client waits, or sees it closed).
    method Receive(id: nat) returns (event: Option<E>)
      requires Sound(State()) && id in channels
      modifies this
      ensures Sound(State())
      ensures old(channels[id].buffer) == [] ==> event.None? && State() == old(State())
      ensures old(channels[id].buffer) != [] ==>
        event == Some(old(channels[id].buffer)[0]) && State() == Received(old(State()), id)
    {
      var c := channels[id];
      if c.buffer == [] {
        return None;
      }
      channels := channels[id := c.(buffer := c.buffer[1..])];
      return Some(c.buffer[0]);
    }
  }
}
