// Discovery sockets: a client subscribes, is sent a later snapshot of the
// registry as DeviceDiscovered events, and then its queued and live events.
// Events are published after the registry's lock is released, in the order in
// which they were logged under it.
module Sockets {
  import opened Results
  import opened Registry
  import opened Brokers

  datatype Snapshot = Snapshot(at: nat, listing: seq<Device>)

  // One Serve call: where the published events stood when it subscribed, its
  // snapshot, and the live events written to the connection so far.
  datatype Client = Client(start: nat, snapshot: Option<Snapshot>, written: seq<Event>)

  datatype World = World(devices: Devices, log: seq<Event>, published: nat, hub: Hub<Event>, clients: map<nat, Client>)

  datatype Step =
    | Observe(device: Device, at: int)
    | Expire(now: int, limits: Timeouts, events: seq<Event>)
    | PublishNext
    | Join
    | TakeSnapshot(id: nat, listing: seq<Device>)
    | Forward(id: nat)
    | Leave(id: nat)

  const EMPTY := World(map[], [], 0, Hub(map[], {}, 0), map[])

  ghost predicate Enabled(w: World, step: Step) {
    match step
    case Observe(device, at) => device.id in w.devices ==> !IdentityConflicts(w.devices[device.id], device)
    case Expire(now, limits, events) => SweepLog(w.devices, now, limits, events)
    case PublishNext => w.published < |w.log|
    case Join => true
    case TakeSnapshot(id, listing) => id in w.clients && w.clients[id].snapshot.None? && Lists(w.devices, listing)
    case Forward(id) =>
      id in w.clients && w.clients[id].snapshot.Some? && id in w.hub.channels && w.hub.channels[id].buffer != []
    case Leave(id) => id in w.clients
  }

  function Appended(log: seq<Event>, event: Option<Event>): seq<Event> {
    if event.Some? then log + [event.value] else log
  }

  ghost function Apply(w: World, step: Step): World
    requires Enabled(w, step)
  {
    match step
    case Observe(device, at) =>
      w.(devices := w.devices[device.id := Observed(device, at)], log := Appended(w.log, UpsertEvent(w.devices, device, at)))
    case Expire(now, limits, events) => w.(devices := Swept(w.devices, now, limits), log := w.log + events)
    case PublishNext => w.(hub := Published(w.hub, w.log[w.published]), published := w.published + 1)
    case Join => w.(hub := Subscribed(w.hub), clients := w.clients[w.hub.nextId + 1 := Client(w.published, None, [])])
    case TakeSnapshot(id, listing) =>
      w.(clients := w.clients[id := w.clients[id].(snapshot := Some(Snapshot(|w.log|, listing)))])
    case Forward(id) =>
      w.(hub := Received(w.hub, id),
         clients := w.clients[id := w.clients[id].(written := w.clients[id].written + [w.hub.channels[id].buffer[0]])])
    case Leave(id) => w.(hub := Cancelled(w.hub, id))
  }

  // --- invariants ------------------------------------------------------------------

  // The registry is the fold of its log, up to LastSeen.
  ghost predicate Logged(devices: Devices, log: seq<Event>) {
    WellKept(devices) && Agrees(devices, FoldAll(map[], log))
  }

  // What a client has been and will be sent is a gap-free stretch of the log,
  // reaching up to the last published event while it is subscribed.
  ghost predicate GapFree(log: seq<Event>, published: nat, c: Client, channel: Channel<Event>, subscribed: bool)
    requires published <= |log|
  {
    var reach := c.start + |c.written| + |channel.buffer|;
    && reach <= published && (subscribed ==> reach == published)
    && c.written + channel.buffer == log[c.start..reach]
  }

  ghost predicate SnapshotSound(log: seq<Event>, c: Client) {
    c.snapshot.Some? ==>
      && c.start <= c.snapshot.value.at <= |log|
      && Agrees(FoldAll(map[], Discovered(c.snapshot.value.listing)), FoldAll(map[], log[..c.snapshot.value.at]))
  }

  ghost predicate ClientsSound(w: World) {
    && w.published <= |w.log| && Sound(w.hub) && w.hub.channels.Keys == w.clients.Keys
    && (forall id :: id in w.clients ==>
          GapFree(w.log, w.published, w.clients[id], w.hub.channels[id], id in w.hub.registered))
  }

  ghost predicate SnapshotsSound(log: seq<Event>, clients: map<nat, Client>) {
    forall id :: id in clients ==> clients[id].start <= |log| && SnapshotSound(log, clients[id])
  }

  ghost predicate Inv(w: World) {
    Logged(w.devices, w.log) && ClientsSound(w) && SnapshotsSound(w.log, w.clients)
  }

  // --- the registry and its log ------------------------------------------------------

  lemma {:induction false} FoldJoin(view: Devices, a: seq<Event>, b: seq<Event>)
    ensures FoldAll(view, a + b) == FoldAll(FoldAll(view, a), b)
  {
    if b == [] {
      assert a + b == a;
    } else {
      FoldJoin(view, a, b[..|b| - 1]);
      assert (a + b)[..|a + b| - 1] == a + b[..|b| - 1];
    }
  }

  lemma ObserveLogged(w: World, device: Device, at: int)
    requires Logged(w.devices, w.log)
    ensures Logged(w.devices[device.id := Observed(device, at)], Appended(w.log, UpsertEvent(w.devices, device, at)))
  {
    var view := FoldAll(map[], w.log);
    var event := UpsertEvent(w.devices, device, at);
    UpsertFolds(w.devices, view, device, at);
    if event.Some? {
      assert (w.log + [event.value])[..|w.log|] == w.log;
    }
  }

  lemma ExpireLogged(w: World, now: int, limits: Timeouts, events: seq<Event>)
    requires Logged(w.devices, w.log) && SweepLog(w.devices, now, limits, events)
    ensures Logged(Swept(w.devices, now, limits), w.log + events)
  {
    SweepFolds(w.devices, FoldAll(map[], w.log), now, limits, events);
    FoldJoin(map[], w.log, events);
  }

  // --- snapshots -----------------------------------------------------------------------

  function Discovered(listing: seq<Device>): seq<Event> {
    seq(|listing|, i requires 0 <= i < |listing| => Event(DeviceDiscovered, listing[i], 0))
  }

  lemma {:induction false} SnapshotRebuilds(devices: Devices, listing: seq<Device>, events: seq<Event>)
    requires WellKept(devices) && Lists(devices, listing) && |events| == |listing|
    requires forall i :: 0 <= i < |events| ==> events[i].kind.DeviceDiscovered? && events[i].device == listing[i]
    ensures FoldAll(map[], events) == devices
  {
    forall id ensures Entry(FoldAll(map[], events), id) == Entry(devices, id) {
      FoldIsLatest(map[], events, id);
      if id in devices {
        var i :| 0 <= i < |listing| && listing[i] == devices[id];
        assert events[i].device == devices[id];
        LatestOfDistinct(None, events, id, events[i]);
      } else {
        LatestOfNone(None, events, id);
      }
    }
    EntriesEqual(FoldAll(map[], events), devices);
  }

  lemma AgreesSymmetric(a: Devices, b: Devices)
    requires Agrees(a, b)
    ensures Agrees(b, a)
  {
    forall id ensures SameEntry(Entry(b, id), Entry(a, id)) {
      assert SameEntry(Entry(a, id), Entry(b, id));
    }
  }

  lemma AgreesTransitive(a: Devices, b: Devices, c: Devices)
    requires Agrees(a, b) && Agrees(b, c)
    ensures Agrees(a, c)
  {
    forall id ensures SameEntry(Entry(a, id), Entry(c, id)) {
      assert SameEntry(Entry(a, id), Entry(b, id)) && SameEntry(Entry(b, id), Entry(c, id));
    }
  }

  // --- steps ------------------------------------------------------------------------

  lemma GapFreeExtends(log: seq<Event>, more: seq<Event>, published: nat, c: Client, channel: Channel<Event>,
      subscribed: bool)
    requires published <= |log| && GapFree(log, published, c, channel, subscribed)
    ensures published <= |log + more| && GapFree(log + more, published, c, channel, subscribed)
  {
    var reach := c.start + |c.written| + |channel.buffer|;
    assert (log + more)[c.start..reach] == log[c.start..reach];
  }

  lemma LogGrows(w: World, devices: Devices, more: seq<Event>)
    requires ClientsSound(w) && SnapshotsSound(w.log, w.clients)
    ensures ClientsSound(w.(devices := devices, log := w.log + more))
    ensures SnapshotsSound(w.log + more, w.clients)
  {
    hide GapFree, Sound, FoldAll, Agrees;
    forall id | id in w.clients
      ensures GapFree(w.log + more, w.published, w.clients[id], w.hub.channels[id], id in w.hub.registered)
      ensures SnapshotSound(w.log + more, w.clients[id])
    {
      GapFreeExtends(w.log, more, w.published, w.clients[id], w.hub.channels[id], id in w.hub.registered);
      if w.clients[id].snapshot.Some? {
        var at := w.clients[id].snapshot.value.at;
        assert (w.log + more)[..at] == w.log[..at];
      }
    }
  }

  lemma GapFreePublish(log: seq<Event>, published: nat, c: Client, channel: Channel<Event>, subscribed: bool)
    requires published < |log| && GapFree(log, published, c, channel, subscribed)
    ensures subscribed ==>
      GapFree(log, published + 1, c, Offered(channel, log[published]), |channel.buffer| < SUBSCRIBER_BUFFER)
    ensures !subscribed ==> GapFree(log, published + 1, c, channel, false)
  {
    var reach := c.start + |c.written| + |channel.buffer|;
    assert c.written + (channel.buffer + [log[published]]) == (c.written + channel.buffer) + [log[published]];
    assert subscribed ==> log[c.start..reach + 1] == log[c.start..reach] + [log[published]];
  }

  lemma PublishClients(w: World)
    requires ClientsSound(w) && Enabled(w, PublishNext)
    ensures ClientsSound(Apply(w, PublishNext))
  {
    hide GapFree, Sound, Offered;
    PublishSound(w.hub, w.log[w.published]);
    var hub := Published(w.hub, w.log[w.published]);
    forall id | id in w.clients
      ensures GapFree(w.log, w.published + 1, w.clients[id], hub.channels[id], id in hub.registered)
    {
      GapFreePublish(w.log, w.published, w.clients[id], w.hub.channels[id], id in w.hub.registered);
    }
  }

  lemma JoinClients(w: World)
    requires ClientsSound(w)
    ensures ClientsSound(Apply(w, Join)) && w.hub.nextId + 1 !in w.clients
  {
    var after := Apply(w, Join);
    forall id | id in after.clients
      ensures GapFree(after.log, after.published, after.clients[id], after.hub.channels[id], id in after.hub.registered)
    {
      if id == w.hub.nextId + 1 {
        assert after.log[w.published..w.published] == [];
      } else {
        assert GapFree(w.log, w.published, w.clients[id], w.hub.channels[id], id in w.hub.registered);
      }
    }
  }

  lemma GapFreeForward(log: seq<Event>, published: nat, c: Client, channel: Channel<Event>, subscribed: bool)
    requires published <= |log| && GapFree(log, published, c, channel, subscribed) && channel.buffer != []
    ensures GapFree(log, published, c.(written := c.written + [channel.buffer[0]]),
              channel.(buffer := channel.buffer[1..]), subscribed)
  {
    var buffer := channel.buffer;
    assert buffer == [buffer[0]] + buffer[1..];
    assert c.written + buffer == (c.written + [buffer[0]]) + buffer[1..];
  }

  lemma ForwardClients(w: World, id: nat)
    requires ClientsSound(w) && Enabled(w, Forward(id))
    ensures ClientsSound(Apply(w, Forward(id)))
  {
    hide GapFree;
    var hub, clients := Received(w.hub, id), Apply(w, Forward(id)).clients;
    forall k | k in w.clients
      ensures GapFree(w.log, w.published, clients[k], hub.channels[k], k in hub.registered)
    {
      assert GapFree(w.log, w.published, w.clients[k], w.hub.channels[k], k in w.hub.registered);
      if k == id {
        GapFreeForward(w.log, w.published, w.clients[k], w.hub.channels[k], k in w.hub.registered);
      }
    }
  }

  lemma LeaveClients(w: World, id: nat)
    requires ClientsSound(w)
    ensures ClientsSound(w.(hub := Cancelled(w.hub, id)))
  {
    forall k | k in w.clients
      ensures var hub := Cancelled(w.hub, id); GapFree(w.log, w.published, w.clients[k], hub.channels[k], k in hub.registered)
    {
      assert GapFree(w.log, w.published, w.clients[k], w.hub.channels[k], k in w.hub.registered);
    }
  }

  lemma SnapshotClients(w: World, id: nat, listing: seq<Device>)
    requires Inv(w) && Enabled(w, TakeSnapshot(id, listing))
    ensures Inv(Apply(w, TakeSnapshot(id, listing)))
  {
    hide FoldAll, Agrees, WellKept, Sound, Lists, GapFree;
    var after := Apply(w, TakeSnapshot(id, listing));
    SnapshotRebuilds(w.devices, listing, Discovered(listing));
    assert w.log[..|w.log|] == w.log;
    assert SnapshotSound(after.log, after.clients[id]);
    forall k | k in after.clients && k != id ensures SnapshotSound(after.log, after.clients[k]) {
      assert SnapshotSound(w.log, w.clients[k]);
    }
    forall k | k in w.clients
      ensures GapFree(w.log, w.published, after.clients[k], w.hub.channels[k], k in w.hub.registered)
    {
      assert GapFree(w.log, w.published, w.clients[k], w.hub.channels[k], k in w.hub.registered);
      GapFreeIgnoresSnapshot(w.log, w.published, w.clients[k], w.hub.channels[k], k in w.hub.registered,
        after.clients[k]);
    }
  }

  lemma GapFreeIgnoresSnapshot(log: seq<Event>, published: nat, c: Client, channel: Channel<Event>,
      subscribed: bool, after: Client)
    requires published <= |log| && GapFree(log, published, c, channel, subscribed)
    requires after.start == c.start && after.written == c.written
    ensures GapFree(log, published, after, channel, subscribed)
  {
  }

  lemma StepInv(w: World, step: Step)
    requires Inv(w) && Enabled(w, step)
    ensures Inv(Apply(w, step))
  {
    hide Logged, ClientsSound, SnapshotSound, Agrees, WellKept, Swept, SweepLog, UpsertEvent, IdentityConflicts;
    hide Published;
    match step
    case Observe(device, at) =>
      ObserveLogged(w, device, at);
      var event := UpsertEvent(w.devices, device, at);
      LogGrows(w, w.devices[device.id := Observed(device, at)], if event.Some? then [event.value] else []);
      assert w.log + [] == w.log;
    case Expire(now, limits, events) =>
      ExpireLogged(w, now, limits, events);
      LogGrows(w, Swept(w.devices, now, limits), events);
    case PublishNext => PublishClients(w);
    case Join =>
      JoinClients(w);
      PublishedBounded(w);
      NoSnapshotYet(w.log, w.published);
    case TakeSnapshot(id, listing) => SnapshotClients(w, id, listing);
    case Forward(id) =>
      ForwardClients(w, id);
      SnapshotKept(w, id);
    case Leave(id) => LeaveClients(w, id);
  }

  lemma PublishedBounded(w: World)
    requires ClientsSound(w)
    ensures w.published <= |w.log|
  {
  }

  lemma NoSnapshotYet(log: seq<Event>, published: nat)
    ensures SnapshotSound(log, Client(published, None, []))
  {
  }

  lemma SnapshotKept(w: World, id: nat)
    requires SnapshotsSound(w.log, w.clients) && Enabled(w, Forward(id))
    ensures SnapshotSound(w.log, Apply(w, Forward(id)).clients[id])
  {
    assert SnapshotSound(w.log, w.clients[id]);
  }

  ghost predicate Valid(w: World, steps: seq<Step>)
    decreases |steps|
  {
    steps == [] || (Enabled(w, steps[0]) && Valid(Apply(w, steps[0]), steps[1..]))
  }

  ghost function Run(w: World, steps: seq<Step>): World
    requires Valid(w, steps)
    decreases |steps|
  {
    if steps == [] then w else Run(Apply(w, steps[0]), steps[1..])
  }

  lemma {:induction false} RunInv(w: World, steps: seq<Step>)
    requires Inv(w) && Valid(w, steps)
    ensures Inv(Run(w, steps))
    decreases |steps|
  {
    hide Inv, Enabled;
    if steps != [] {
      StepInv(w, steps[0]);
      RunInv(Apply(w, steps[0]), steps[1..]);
    }
  }

  // --- one Serve call ------------------------------------------------------------------

  // Subscribes, then writes the later snapshot device by device: what the client
  // holds is then exactly the registry.
  method Open(broker: Broker<Event>, registry: DeviceRegistry, lower: string -> string, now: int)
    returns (id: nat, written: seq<Event>)
    requires Sound(broker.State()) && WellKept(registry.devices)
    modifies broker
    ensures Sound(broker.State()) && broker.State() == Subscribed(old(broker.State())) && id == broker.nextId
    ensures FoldAll(map[], written) == registry.devices
    ensures forall e :: e in written ==> e.kind.DeviceDiscovered? && e.at == now
  {
    hide FoldAll, WellKept, Lists, Sound;
    id := broker.Subscribe();
    var listing := registry.List(lower);
    written := [];
    for i := 0 to |listing|
      invariant |written| == i
      invariant forall k :: 0 <= k < i ==> written[k] == Event(DeviceDiscovered, listing[k], now)
    {
      written := written + [Event(DeviceDiscovered, listing[i], now)];
    }
    SnapshotRebuilds(registry.devices, listing, written);
  }

  // The live loop up to the point where nothing is queued: what was buffered is
  // written, in order.
  method Pump(broker: Broker<Event>, id: nat) returns (written: seq<Event>)
    requires Sound(broker.State()) && id in broker.channels
    modifies broker
    ensures Sound(broker.State()) && broker.registered == old(broker.registered)
    ensures written == old(broker.channels[id].buffer)
    ensures broker.channels == old(broker.channels)[id := old(broker.channels[id]).(buffer := [])]
  {
    hide Sound;
    written := [];
    ghost var was := broker.channels;
    while broker.channels[id].buffer != []
      invariant Sound(broker.State()) && id in broker.channels && broker.registered == old(broker.registered)
      invariant Pumped(was, broker.channels, id, written)
      decreases |broker.channels[id].buffer|
    {
      ghost var before := broker.channels;
      var event := broker.Receive(id);
      PumpedMore(was, before, id, written);
      written := written + [event.value];
    }
  }

  ghost predicate Pumped(was: map<nat, Channel<Event>>, channels: map<nat, Channel<Event>>, id: nat,
      written: seq<Event>) {
    && id in was && id in channels && written + channels[id].buffer == was[id].buffer
    && channels == was[id := was[id].(buffer := channels[id].buffer)]
  }

  lemma PumpedMore(was: map<nat, Channel<Event>>, channels: map<nat, Channel<Event>>, id: nat, written: seq<Event>)
    requires Pumped(was, channels, id, written) && channels[id].buffer != []
    ensures Pumped(was, channels[id := channels[id].(buffer := channels[id].buffer[1..])], id, written + [channels[id].buffer[0]])
  {
    var buffer := channels[id].buffer;
    assert buffer == [buffer[0]] + buffer[1..];
    assert written + buffer == (written + [buffer[0]]) + buffer[1..];
  }

  // --- convergence ---------------------------------------------------------------------

  function View(c: Client): Devices {
    FoldAll(FoldAll(map[], if c.snapshot.Some? then Discovered(c.snapshot.value.listing) else []), c.written)
  }

  lemma {:induction false} LatestJoin(known: Option<Device>, a: seq<Event>, b: seq<Event>, id: string)
    ensures Latest(known, a + b, id) == Latest(Latest(known, a, id), b, id)
  {
    if b == [] {
      assert a + b == a;
    } else {
      LatestJoin(known, a, b[..|b| - 1], id);
      assert (a + b)[..|a + b| - 1] == a + b[..|b| - 1];
    }
  }

  // Folding events over knowledge that already includes a first part of them
  // changes nothing about the outcome.
  lemma {:induction false} LatestAbsorbs(known: Option<Device>, other: Option<Device>, a: seq<Event>,
      b: seq<Event>, id: string)
    requires SameEntry(other, Latest(known, a, id))
    ensures SameEntry(Latest(other, a + b, id), Latest(known, a + b, id))
  {
    LatestJoin(known, a, b, id);
    LatestJoin(other, a, b, id);
    LatestSame(other, known, a, id);
    LatestFrom(Latest(other, a, id), Latest(known, a, id), b, id);
  }

  lemma {:induction false} LatestSame(other: Option<Device>, known: Option<Device>, a: seq<Event>, id: string)
    requires SameEntry(other, Latest(known, a, id))
    ensures SameEntry(Latest(other, a, id), Latest(known, a, id))
  {
    if exists e :: e in a && e.device.id == id {
      LatestIgnores(other, known, a, id);
    } else {
      LatestOfNone(other, a, id);
    }
  }

  lemma {:induction false} LatestIgnores(x: Option<Device>, y: Option<Device>, a: seq<Event>, id: string)
    requires exists e :: e in a && e.device.id == id
    ensures Latest(x, a, id) == Latest(y, a, id)
  {
    if a[|a| - 1].device.id != id {
      assert exists e :: e in a[..|a| - 1] && e.device.id == id;
      LatestIgnores(x, y, a[..|a| - 1], id);
    }
  }

  lemma {:induction false} LatestFrom(x: Option<Device>, y: Option<Device>, b: seq<Event>, id: string)
    requires SameEntry(x, y)
    ensures SameEntry(Latest(x, b, id), Latest(y, b, id))
  {
    if b != [] {
      LatestFrom(x, y, b[..|b| - 1], id);
    }
  }

  // A snapshot of the log at q, then the events from an earlier point p up to n:
  // the same, up to LastSeen, as the whole log up to n.
  lemma SnapshotThenReplay(snapshot: Devices, log: seq<Event>, p: nat, q: nat, n: nat)
    requires p <= q <= n <= |log| && Agrees(snapshot, FoldAll(map[], log[..q]))
    ensures Agrees(FoldAll(snapshot, log[p..n]), FoldAll(map[], log[..n]))
  {
    hide FoldAll;
    var before, overlap, rest := log[..p], log[p..q], log[q..n];
    assert log[..q] == before + overlap && log[p..n] == overlap + rest && log[..n] == before + (overlap + rest);
    forall id ensures SameEntry(Entry(FoldAll(snapshot, log[p..n]), id), Entry(FoldAll(map[], log[..n]), id)) {
      assert SameEntry(Entry(snapshot, id), Entry(FoldAll(map[], log[..q]), id));
      FoldIsLatest(snapshot, log[p..n], id);
      FoldIsLatest(map[], log[..n], id);
      FoldIsLatest(map[], log[..q], id);
      LatestJoin(None, before, overlap, id);
      LatestJoin(None, before, overlap + rest, id);
      LatestAbsorbs(Latest(None, before, id), Entry(snapshot, id), overlap, rest, id);
    }
  }

  // A client that has been sent as many events as its snapshot had seen shows
  // the registry's state at that point of the log.
  ghost predicate CaughtUp(w: World, c: Client) {
    c.snapshot.Some? && c.snapshot.value.at <= c.start + |c.written|
  }

  ghost predicate ShowsLog(log: seq<Event>, c: Client) {
    c.start + |c.written| <= |log| && Agrees(View(c), FoldAll(map[], log[..c.start + |c.written|]))
  }

  // Subscribed, with nothing left to publish or to receive.
  ghost predicate Drained(w: World, id: nat)
    requires id in w.clients
  {
    && w.clients[id].snapshot.Some? && id in w.hub.registered
    && id in w.hub.channels && w.hub.channels[id].buffer == [] && w.published == |w.log|
  }

  lemma CaughtUpShowsLog(log: seq<Event>, published: nat, c: Client, channel: Channel<Event>, subscribed: bool)
    requires published <= |log| && GapFree(log, published, c, channel, subscribed) && SnapshotSound(log, c)
    requires c.snapshot.Some? && c.snapshot.value.at <= c.start + |c.written|
    ensures ShowsLog(log, c)
  {
    hide FoldAll, Agrees, GapFree;
    WrittenIs(log, published, c, channel, subscribed);
    SnapshotThenReplay(FoldAll(map[], Discovered(c.snapshot.value.listing)), log, c.start, c.snapshot.value.at,
      c.start + |c.written|);
  }

  lemma DrainedShowsRegistry(w: World, id: nat)
    requires Inv(w) && id in w.clients && Drained(w, id)
    ensures Agrees(View(w.clients[id]), w.devices)
  {
    hide FoldAll, Agrees, View, Sound, WellKept;
    var c := w.clients[id];
    assert GapFree(w.log, w.published, c, w.hub.channels[id], true);
    assert SnapshotSound(w.log, c);
    CaughtUpShowsLog(w.log, w.published, c, w.hub.channels[id], true);
    assert w.log[..|w.log|] == w.log;
    AgreesSymmetric(w.devices, FoldAll(map[], w.log));
    AgreesTransitive(View(c), FoldAll(map[], w.log), w.devices);
  }

  // In every run, whatever the overlap of log and snapshot: a client that has
  // caught up with its snapshot shows a point of the log, and a drained one shows
  // the registry itself, up to LastSeen.
  lemma Convergence(steps: seq<Step>, id: nat)
    requires Valid(EMPTY, steps) && id in Run(EMPTY, steps).clients
    ensures var w := Run(EMPTY, steps);
      && (CaughtUp(w, w.clients[id]) ==> ShowsLog(w.log, w.clients[id]))
      && (Drained(w, id) ==> Agrees(View(w.clients[id]), w.devices))
  {
    hide Valid, Run, FoldAll, Agrees, Logged, View, ShowsLog, GapFree, Drained, Sound, SnapshotSound;
    NothingHappened();
    RunInv(EMPTY, steps);
    var w := Run(EMPTY, steps);
    var c := w.clients[id];
    if CaughtUp(w, c) {
      CaughtUpShowsLog(w.log, w.published, c, w.hub.channels[id], id in w.hub.registered);
    }
    if Drained(w, id) {
      DrainedShowsRegistry(w, id);
    }
  }

  // In every run: what a client was sent and has queued is the stretch of the
  // published events from its subscription on, without a gap; an open queue
  // reaches the last published event, and only a queue that was full, or was
  // cancelled, is closed earlier.
  lemma StreamsAreGapFree(steps: seq<Step>, id: nat)
    requires Valid(EMPTY, steps) && id in Run(EMPTY, steps).clients
    ensures var w := Run(EMPTY, steps);
      && w.published <= |w.log| && id in w.hub.channels
      && GapFree(w.log, w.published, w.clients[id], w.hub.channels[id], !w.hub.channels[id].closed)
      && |w.hub.channels[id].buffer| <= SUBSCRIBER_BUFFER
  {
    hide Valid, Run, FoldAll, Agrees, GapFree;
    NothingHappened();
    RunInv(EMPTY, steps);
    var w := Run(EMPTY, steps);
    assert GapFree(w.log, w.published, w.clients[id], w.hub.channels[id], id in w.hub.registered);
  }

  lemma NothingHappened()
    ensures Inv(EMPTY)
  {
  }

  lemma WrittenIs(log: seq<Event>, published: nat, c: Client, channel: Channel<Event>, subscribed: bool)
    requires published <= |log| && GapFree(log, published, c, channel, subscribed)
    ensures c.start + |c.written| <= |log| && c.written == log[c.start..c.start + |c.written|]
  {
    var reach := c.start + |c.written| + |channel.buffer|;
    assert c.written == (c.written + channel.buffer)[..|c.written|];
    assert log[c.start..reach][..|c.written|] == log[c.start..c.start + |c.written|];
  }

  // --- catching up is always possible ---------------------------------------------------

  lemma NobodyListed()
    ensures Lists(map[], [])
  {
  }

  lemma OneMore(devices: Devices, id: string, rest: seq<Device>)
    requires id in devices && devices[id].id == id && Lists(devices - {id}, rest)
    ensures Lists(devices, [devices[id]] + rest)
  {
    var listing := [devices[id]] + rest;
    forall k | k in devices ensures devices[k] in listing {
      if k != id {
        assert (devices - {id})[k] in rest;
      }
    }
    assert forall i :: 0 < i < |listing| ==> listing[i] == rest[i - 1] && rest[i - 1] in rest;
  }

  lemma {:induction false} Enumerated(devices: Devices) returns (listing: seq<Device>)
    requires forall id :: id in devices ==> devices[id].id == id
    ensures Lists(devices, listing)
    decreases |devices|
  {
    hide Lists;
    listing := [];
    NobodyListed();
    if devices != map[] {
      var id :| id in devices;
      var rest := Enumerated(devices - {id});
      listing := [devices[id]] + rest;
      OneMore(devices, id, rest);
    }
  }

  lemma FirstStep(w: World, step: Step, rest: seq<Step>)
    requires Enabled(w, step) && Valid(Apply(w, step), rest)
    ensures Valid(w, [step] + rest) && Run(w, [step] + rest) == Run(Apply(w, step), rest)
  {
    hide Enabled, Apply;
    assert ([step] + rest)[1..] == rest;
  }

  lemma {:induction false} RunJoins(w: World, steps: seq<Step>, more: seq<Step>)
    requires Valid(w, steps) && Valid(Run(w, steps), more)
    ensures Valid(w, steps + more) && Run(w, steps + more) == Run(Run(w, steps), more)
    decreases |steps|
  {
    hide Enabled, Apply;
    if steps == [] {
      assert steps + more == more;
    } else {
      assert (steps + more)[1..] == steps[1..] + more;
      RunJoins(Apply(w, steps[0]), steps[1..], more);
    }
  }

  // An open subscriber whose queue is empty has room for the next event.
  lemma {:induction false} Drains(w: World, id: nat) returns (steps: seq<Step>)
    requires Inv(w) && id in w.clients && w.clients[id].snapshot.Some? && id in w.hub.registered
    ensures Valid(w, steps) && Run(w, steps).devices == w.devices
    ensures id in Run(w, steps).clients && Drained(Run(w, steps), id)
    decreases |w.log| - w.published, |w.hub.channels[id].buffer|
  {
    steps := [];
    if w.hub.channels[id].buffer != [] || w.published < |w.log| {
      var step := if w.hub.channels[id].buffer != [] then Forward(id) else PublishNext;
      StepInv(w, step);
      hide Logged, SnapshotsSound, GapFree;
      var rest := Drains(Apply(w, step), id);
      FirstStep(w, step, rest);
      steps := [step] + rest;
    }
  }

  // In every reachable state an open client is some steps away from showing the
  // registry as it stands: its snapshot, the publications that are due, and its own
  // reading, in between which its queue does not overflow.
  lemma CatchesUp(past: seq<Step>, id: nat) returns (steps: seq<Step>)
    requires Valid(EMPTY, past) && id in Run(EMPTY, past).clients && id in Run(EMPTY, past).hub.registered
    ensures Valid(EMPTY, past + steps) && id in Run(EMPTY, past + steps).clients
    ensures var (b, w) := (Run(EMPTY, past), Run(EMPTY, past + steps));
      w.devices == b.devices && Agrees(View(w.clients[id]), b.devices)
  {
    NothingHappened();
    RunInv(EMPTY, past);
    var w := Run(EMPTY, past);
    steps := [];
    hide FoldAll, Agrees, View, Drained, Sound, SnapshotSound, GapFree;
    if w.clients[id].snapshot.None? {
      var listing := Enumerated(w.devices);
      var step := TakeSnapshot(id, listing);
      StepInv(w, step);
      var rest := Drains(Apply(w, step), id);
      FirstStep(w, step, rest);
      steps := [step] + rest;
    } else {
      steps := Drains(w, id);
    }
    RunJoins(EMPTY, past, steps);
    Convergence(past + steps, id);
  }
}
