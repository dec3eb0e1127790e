// The discovery registry: peers observed and swept in place, and the event log
// that tells a subscriber everything about them except when they were last seen.
module Registry {
  import opened Results
  import opened Sorting

  datatype Connection = ConnectionOnline | ConnectionOffline

  datatype Device = Device(
    id: string, name: string, hostname: string, kind: string, platform: string,
    localIp: string, port: int, appVersion: string,
    lastSeen: int, online: bool, connection: Connection,
    availableStorage: int, transferCapability: bool, protocolVersion: int,
    maximumChunkSize: int, compressionSupport: bool, identityHint: string, pairingAvailable: bool)

  datatype EventKind = DeviceDiscovered | DeviceUpdated | DeviceOffline | DeviceRemoved

  datatype Event = Event(kind: EventKind, device: Device, at: int)

  type Devices = map<string, Device>

  // The parsers the validation calls.
  datatype Checks = Checks(isUuid: string -> bool, isIp: string -> bool, isBlank: string -> bool)

  predicate Labelled(checks: Checks, value: string, limit: nat) {
    !checks.isBlank(value) && |value| <= limit
  }

  predicate ValidDevice(checks: Checks, d: Device) {
    && checks.isUuid(d.id) && Labelled(checks, d.name, 128) && |d.hostname| <= 255
    && Labelled(checks, d.kind, 32) && Labelled(checks, d.platform, 32) && Labelled(checks, d.appVersion, 64)
    && |d.identityHint| <= 32 && checks.isIp(d.localIp) && 1 <= d.port <= 65535
  }

  predicate IdentityConflicts(existing: Device, incoming: Device) {
    existing.identityHint != "" && (incoming.identityHint == "" || existing.identityHint != incoming.identityHint)
  }

  predicate MetadataChanged(existing: Device, incoming: Device) {
    || existing.name != incoming.name
    || existing.hostname != incoming.hostname
    || existing.kind != incoming.kind
    || existing.platform != incoming.platform
    || existing.localIp != incoming.localIp
    || existing.port != incoming.port
    || existing.appVersion != incoming.appVersion
    || existing.availableStorage != incoming.availableStorage
    || existing.transferCapability != incoming.transferCapability
    || existing.protocolVersion != incoming.protocolVersion
    || existing.maximumChunkSize != incoming.maximumChunkSize
    || existing.compressionSupport != incoming.compressionSupport
    || existing.identityHint != incoming.identityHint
    || existing.pairingAvailable != incoming.pairingAvailable
  }

  function Observed(d: Device, at: int): Device {
    d.(lastSeen := at, online := true, connection := ConnectionOnline)
  }

  function WentOffline(d: Device): Device {
    d.(online := false, connection := ConnectionOffline)
  }

  // Everything a subscriber is told about a device.
  function Essence(d: Device): Device {
    d.(lastSeen := 0)
  }

  ghost predicate WellKept(devices: Devices) {
    forall id :: id in devices ==> devices[id].id == id && (devices[id].online <==> devices[id].connection.ConnectionOnline?)
  }

  // --- what a subscriber folds ---------------------------------------------------

  function Entry(devices: Devices, id: string): Option<Device> {
    if id in devices then Some(devices[id]) else None
  }

  function Told(e: Event): Option<Device> {
    if e.kind.DeviceRemoved? then None else Some(e.device)
  }

  function Fold(view: Devices, e: Event): Devices {
    if e.kind.DeviceRemoved? then view - {e.device.id} else view[e.device.id := e.device]
  }

  function FoldAll(view: Devices, events: seq<Event>): Devices {
    if events == [] then view else Fold(FoldAll(view, events[..|events| - 1]), events[|events| - 1])
  }

  // What the last event about a device says, or else what was known before.
  function Latest(known: Option<Device>, events: seq<Event>, id: string): Option<Device> {
    if events == [] then known
    else if events[|events| - 1].device.id == id then Told(events[|events| - 1])
    else Latest(known, events[..|events| - 1], id)
  }

  lemma {:induction false} FoldIsLatest(view: Devices, events: seq<Event>, id: string)
    ensures Entry(FoldAll(view, events), id) == Latest(Entry(view, id), events, id)
  {
    if events != [] {
      FoldIsLatest(view, events[..|events| - 1], id);
    }
  }

  predicate SameEntry(a: Option<Device>, b: Option<Device>) {
    match (a, b)
    case (Some(x), Some(y)) => Essence(x) == Essence(y)
    case (None, None) => true
    case _ => false
  }

  // Equal up to LastSeen.
  ghost predicate Agrees(a: Devices, b: Devices) {
    forall id :: SameEntry(Entry(a, id), Entry(b, id))
  }

  // --- Upsert ----------------------------------------------------------------------

  function UpsertEvent(devices: Devices, device: Device, at: int): Option<Event> {
    var incoming := Observed(device, at);
    if device.id !in devices then Some(Event(DeviceDiscovered, incoming, at))
    else if !devices[device.id].online || MetadataChanged(devices[device.id], incoming)
    then Some(Event(DeviceUpdated, incoming, at))
    else None
  }

  predicate UpsertApplies(checks: Checks, selfId: string, devices: Devices, device: Device) {
    && ValidDevice(checks, device) && device.id != selfId
    && (device.id in devices ==> !IdentityConflicts(devices[device.id], device))
  }

  // What may be said about a peer at all.
  predicate Presentable(checks: Checks, d: Device) {
    && checks.isUuid(d.id) && checks.isIp(d.localIp) && 1 <= d.port <= 65535
    && |d.name| <= 128 && |d.hostname| <= 255 && |d.identityHint| <= 32
    && |d.kind| <= 32 && |d.platform| <= 32 && |d.appVersion| <= 64
    && forall v :: v in [d.name, d.kind, d.platform, d.appVersion] ==> !checks.isBlank(v)
  }

  // A presentable observation of another device is refused exactly when its ID is
  // listed with a non-empty identity hint that is not the observed one.
  lemma RefusedIff(checks: Checks, selfId: string, devices: Devices, device: Device)
    ensures ValidDevice(checks, device) <==> Presentable(checks, device)
    ensures Presentable(checks, device) && device.id != selfId ==>
      (UpsertApplies(checks, selfId, devices, device) <==>
         !(device.id in devices && devices[device.id].identityHint !in {"", device.identityHint}))
    ensures !Presentable(checks, device) || device.id == selfId ==> !UpsertApplies(checks, selfId, devices, device)
  {
    var labels := [device.name, device.kind, device.platform, device.appVersion];
    assert labels[0] in labels && labels[1] in labels && labels[2] in labels && labels[3] in labels;
  }

  // What an applied observation records and tells: the device as observed, online
  // and seen now, under the kind of news it is.
  lemma ObservationRecords(devices: Devices, device: Device, at: int)
    requires WellKept(devices)
    ensures var d := Observed(device, at);
      && d.online && d.connection == ConnectionOnline && d.lastSeen == at
      && Essence(d) == Essence(device.(online := true, connection := ConnectionOnline))
    ensures var e := UpsertEvent(devices, device, at);
      && (device.id !in devices ==> e == Some(Event(DeviceDiscovered, Observed(device, at), at)))
      && (device.id in devices && e.Some? ==> e == Some(Event(DeviceUpdated, Observed(device, at), at)))
      && (device.id in devices && !devices[device.id].online ==> e.Some?)
  {
  }

  // The comparison of fields leaves nothing out: an observation is silent exactly
  // when it changes nothing but the time.
  lemma SilentIff(devices: Devices, device: Device, at: int)
    requires WellKept(devices)
    ensures UpsertEvent(devices, device, at).None?
            <==> device.id in devices && Essence(devices[device.id]) == Essence(Observed(device, at))
  {
    if device.id in devices {
      var e := devices[device.id];
      assert e.online <==> e.connection.ConnectionOnline?;
      if UpsertEvent(devices, device, at).None? {
        assert Essence(e) == Essence(Observed(device, at));
      }
    }
  }

  // --- Sweep -----------------------------------------------------------------------

  datatype Timeouts = Timeouts(offlineAfter: int, removeAfter: int)

  function SweepEvent(d: Device, now: int, limits: Timeouts): Option<Event> {
    var age := now - d.lastSeen;
    if limits.removeAfter <= age then Some(Event(DeviceRemoved, WentOffline(d), now))
    else if d.online && limits.offlineAfter <= age then Some(Event(DeviceOffline, WentOffline(d), now))
    else None
  }

  function Swept(devices: Devices, now: int, limits: Timeouts): Devices {
    map id | id in devices && now - devices[id].lastSeen < limits.removeAfter ::
      if devices[id].online && limits.offlineAfter <= now - devices[id].lastSeen then WentOffline(devices[id])
      else devices[id]
  }

  // A sweep keeps a device exactly when it was seen within the removal timeout, and
  // leaves it online exactly when it was and was seen within the offline timeout;
  // each removal and each going offline is told as such, and nothing else is.
  lemma SweptIff(devices: Devices, now: int, limits: Timeouts, id: string)
    requires WellKept(devices) && id in devices
    ensures id in Swept(devices, now, limits) <==> now - devices[id].lastSeen < limits.removeAfter
    ensures id in Swept(devices, now, limits) ==>
      && var d := Swept(devices, now, limits)[id];
      && (d.online <==> devices[id].online && now - devices[id].lastSeen < limits.offlineAfter)
      && (d.connection == ConnectionOnline <==> d.online) && d.lastSeen == devices[id].lastSeen
      && d == devices[id].(online := d.online, connection := d.connection)
    ensures var e := SweepEvent(devices[id], now, limits);
      && (e.None? <==> id in Swept(devices, now, limits) && Swept(devices, now, limits)[id] == devices[id])
      && (e.Some? ==> e.value.device == devices[id].(online := false, connection := ConnectionOffline) && e.value.at == now)
      && (e.Some? ==> e.value.kind == if id in Swept(devices, now, limits) then DeviceOffline else DeviceRemoved)
  {
  }

  // One event for every device the sweep changes, in the order of the map walk.
  ghost predicate SweepLog(devices: Devices, now: int, limits: Timeouts, events: seq<Event>) {
    && (forall e :: e in events ==> e.device.id in devices && SweepEvent(devices[e.device.id], now, limits) == Some(e))
    && (forall id :: id in devices && SweepEvent(devices[id], now, limits).Some?
          ==> SweepEvent(devices[id], now, limits).value in events)
    && (forall i, j :: 0 <= i < j < |events| ==> events[i].device.id != events[j].device.id)
  }

  // List: every device once, in some order.
  ghost predicate Lists(devices: Devices, listing: seq<Device>) {
    && (forall d :: d in listing ==> d.id in devices && devices[d.id] == d)
    && (forall id :: id in devices ==> devices[id] in listing)
    && (forall i, j :: 0 <= i < j < |listing| ==> listing[i].id != listing[j].id)
  }

  // By lower-cased name, then by ID.
  predicate Before(lower: string -> string, a: Device, b: Device) {
    if lower(a.name) == lower(b.name) then Less(a.id, b.id) else Less(lower(a.name), lower(b.name))
  }

  function ByName(lower: string -> string): (Device, Device) -> bool {
    (a: Device, b: Device) => !Before(lower, b, a)
  }

  lemma ByNamePreorder(lower: string -> string)
    ensures Preorder(ByName(lower))
  {
    var le := ByName(lower);
    forall x, y ensures le(x, y) || le(y, x) {
      LessTotal(x.id, y.id);
      LessTotal(lower(x.name), lower(y.name));
    }
    forall x, y, z | le(x, y) && le(y, z) ensures le(x, z) {
      LessTotal(lower(x.name), lower(y.name));
      LessTotal(lower(y.name), lower(z.name));
      NotBefore(lower(y.name), lower(x.name), lower(z.name));
      if lower(x.name) == lower(z.name) {
        NotBefore(y.id, x.id, z.id);
      }
    }
  }

  // By folded name, and by ID where these are equal.
  lemma ListedInOrder(lower: string -> string, a: Device, b: Device)
    ensures ByName(lower)(a, b) && a.id != b.id ==>
      ListedBefore(lower, a, b)
  {
    LessTotal(a.id, b.id);
    LessTotal(lower(a.name), lower(b.name));
  }

  predicate ListedBefore(lower: string -> string, a: Device, b: Device) {
    Less(lower(a.name), lower(b.name)) || (lower(a.name) == lower(b.name) && Less(a.id, b.id))
  }

  lemma ListingInOrder(devices: Devices, listing: seq<Device>, lower: string -> string)
    requires Lists(devices, listing) && Sorted(listing, ByName(lower))
    ensures forall i, j :: 0 <= i < j < |listing| ==> ListedBefore(lower, listing[i], listing[j])
  {
    hide ListedBefore, ByName;
    forall i, j | 0 <= i < j < |listing| ensures ListedBefore(lower, listing[i], listing[j]) {
      ListedInOrder(lower, listing[i], listing[j]);
    }
  }

  lemma NotBefore(b: string, a: string, c: string)
    requires !Less(b, a) && !Less(c, b)
    ensures !Less(c, a) && (a == c ==> a == b)
  {
    LessTotal(a, b);
    LessTotal(b, c);
    if a != b && b != c {
      LessTransitive(a, b, c);
      LessTotal(a, c);
    }
  }

  lemma ListsOne(done: Devices, listing: seq<Device>, d: Device)
    requires Lists(done, listing) && d.id !in done
    ensures Lists(done[d.id := d], listing + [d])
  {
  }

  lemma ListsPermuted(devices: Devices, a: seq<Device>, b: seq<Device>)
    requires Lists(devices, a) && multiset(a) == multiset(b)
    ensures Lists(devices, b)
  {
    SameMembers(a, b);
    var key := (d: Device) => d.id;
    assert DistinctBy(a, key);
    DistinctPermuted(a, b, key);
    forall i, j | 0 <= i < j < |b| ensures b[i].id != b[j].id {
      assert key(b[i]) != key(b[j]);
    }
  }

  lemma ListsSorted(devices: Devices, listing: seq<Device>, lower: string -> string)
    requires Lists(devices, listing)
    ensures Lists(devices, Sort(listing, ByName(lower))) && Sorted(Sort(listing, ByName(lower)), ByName(lower))
  {
    hide Lists, ByName, Sort, Sorted;
    ByNamePreorder(lower);
    SortCorrect(listing, ByName(lower));
    ListsPermuted(devices, listing, Sort(listing, ByName(lower)));
  }

  class DeviceRegistry {
    const selfId: string
    const checks: Checks
    const limits: Timeouts
    var devices: Devices

    constructor (selfId: string, checks: Checks, limits: Timeouts)
      ensures devices == map[] && this.selfId == selfId && this.checks == checks && this.limits == limits
    {
      this.selfId := selfId;
      this.checks := checks;
      this.limits := limits;
      devices := map[];
    }

    // Records an observation; the event, if any, is published after the lock.
    method Upsert(device: Device, at: int) returns (ok: bool, event: Option<Event>)
      requires WellKept(devices)
      modifies this
      ensures WellKept(devices)
      ensures UpsertApplies(checks, selfId, old(devices), device) ==>
        ok && devices == old(devices)[device.id := Observed(device, at)] && event == UpsertEvent(old(devices), device, at)
      ensures !UpsertApplies(checks, selfId, old(devices), device) ==>
        event.None? && devices == old(devices) && (ok <==> ValidDevice(checks, device) && device.id == selfId)
      ensures !ok <==>
        (!Presentable(checks, device)
         || (device.id != selfId && device.id in old(devices)
             && old(devices)[device.id].identityHint !in {"", device.identityHint}))
      ensures ok && device.id != selfId ==>
        devices == old(devices)[device.id := device.(lastSeen := at, online := true, connection := ConnectionOnline)]
    {
      RefusedIff(checks, selfId, devices, device);
      hide Presentable;

      event := None;
      if !ValidDevice(checks, device) { return false, None; }
      if device.id == selfId { return true, None; }
      var incoming := device.(lastSeen := at, online := true, connection := ConnectionOnline);
      if device.id !in devices {
        devices := devices[device.id := incoming];
        event := Some(Event(DeviceDiscovered, incoming, at));
      } else {
        var existing := devices[device.id];
        if IdentityConflicts(existing, incoming) { return false, None; }
        devices := devices[device.id := incoming];
        if !existing.online || MetadataChanged(existing, incoming) {
          event := Some(Event(DeviceUpdated, incoming, at));
        }
      }
      return true, event;
    }

    // List: a snapshot in a stable order.
    method List(lower: string -> string) returns (listing: seq<Device>)
      requires WellKept(devices)
      ensures Lists(devices, listing) && Sorted(listing, ByName(lower))
      ensures forall i, j :: 0 <= i < j < |listing| ==> ListedBefore(lower, listing[i], listing[j])
    {
      hide ListedBefore;
      hide Lists, Sorted, ByName, Sort;
      listing := [];
      ghost var done: Devices := map[];
      assert Lists(done, listing) by { NothingListed(); }
      var pending := devices.Keys;
      while pending != {}
        invariant pending <= devices.Keys && done.Keys == devices.Keys - pending
        invariant forall id :: id in done ==> done[id] == devices[id]
        invariant Lists(done, listing)
        decreases |pending|
      {
        var id :| id in pending;
        pending := pending - {id};
        ListsOne(done, listing, devices[id]);
        done := done[id := devices[id]];
        listing := listing + [devices[id]];
      }
      assert done == devices;
      ListsSorted(devices, listing, lower);
      listing := Sort(listing, ByName(lower));
      ListingInOrder(devices, listing, lower);
    }

    // What a sweep does to one device.
    method SweepOne(id: string, now: int) returns (event: Option<Event>)
      requires id in devices
      modifies this
      ensures event == SweepEvent(old(devices)[id], now, limits)
      ensures devices == if event.None? then old(devices)
                         else if event.value.kind.DeviceRemoved? then old(devices) - {id}
                         else old(devices)[id := event.value.device]
    {
      var device := devices[id];
      var age := now - device.lastSeen;
      if limits.removeAfter <= age {
        devices := devices - {id};
        return Some(Event(DeviceRemoved, device.(online := false, connection := ConnectionOffline), now));
      }
      if device.online && limits.offlineAfter <= age {
        device := device.(online := false, connection := ConnectionOffline);
        devices := devices[id := device];
        return Some(Event(DeviceOffline, device, now));
      }
      return None;
    }

    method Sweep(now: int) returns (events: seq<Event>)
      requires WellKept(devices)
      modifies this
      ensures WellKept(devices)
      ensures devices == Swept(old(devices), now, limits)
      ensures SweepLog(old(devices), now, limits, events)
    {
      hide SweepLog, SweepEvent, WellKept, Swept, Halfway;
      events := [];
      ghost var was := devices;
      ghost var done: Devices := map[];
      NothingSwept(was, now, limits);
      var pending := devices.Keys;
      while pending != {}
        invariant Halfway(was, pending, done, devices, now, limits)
        invariant SweepLog(done, now, limits, events)
        decreases |pending|
      {
        var id :| id in pending;
        HalfwayPending(was, pending, done, devices, now, limits, id);
        ghost var before := devices;
        var event := SweepOne(id, now);
        LogExtends(done, now, limits, events, id, was[id]);
        HalfwayStep(was, pending, done, before, now, limits, id, devices);
        pending := pending - {id};
        done := done[id := was[id]];
        if event.Some? {
          events := events + [event.value];
        }
      }
      HalfwayEnd(was, done, devices, now, limits);
    }
  }

  lemma NothingListed()
    ensures Lists(map[], [])
  {
  }

  // A sweep in progress: the pending devices are as they were, the others done.
  ghost predicate Halfway(was: Devices, pending: set<string>, done: Devices, devices: Devices, now: int,
      limits: Timeouts) {
    && WellKept(was) && pending <= was.Keys && done.Keys == was.Keys - pending
    && (forall id :: id in done ==> done[id] == was[id])
    && EntriesHalfway(was, pending, done, devices, now, limits)
  }

  ghost predicate EntryHalfway(was: Devices, pending: set<string>, done: Devices, devices: Devices, now: int,
      limits: Timeouts, id: string) {
    Entry(devices, id) == if id in pending then Entry(was, id) else Entry(Swept(done, now, limits), id)
  }

  ghost predicate EntriesHalfway(was: Devices, pending: set<string>, done: Devices, devices: Devices, now: int,
      limits: Timeouts) {
    forall id :: EntryHalfway(was, pending, done, devices, now, limits, id)
  }

  lemma HalfwayPending(was: Devices, pending: set<string>, done: Devices, devices: Devices, now: int,
      limits: Timeouts, id: string)
    requires Halfway(was, pending, done, devices, now, limits) && id in pending
    ensures id in was && id in devices && devices[id] == was[id] && was[id].id == id && id !in done
  {
    hide Swept;
    assert EntryHalfway(was, pending, done, devices, now, limits, id);
  }

  lemma HalfwayStep(was: Devices, pending: set<string>, done: Devices, devices: Devices, now: int,
      limits: Timeouts, id: string, after: Devices)
    requires Halfway(was, pending, done, devices, now, limits) && id in pending
    requires var event := SweepEvent(was[id], now, limits);
      after == if event.None? then devices
               else if event.value.kind.DeviceRemoved? then devices - {id}
               else devices[id := event.value.device]
    ensures Halfway(was, pending - {id}, done[id := was[id]], after, now, limits)
  {
    HalfwayPending(was, pending, done, devices, now, limits, id);
    var others, more := pending - {id}, done[id := was[id]];
    assert EntriesHalfway(was, others, more, after, now, limits) by {
      hide Swept, SweepEvent, WellKept;
      forall k ensures EntryHalfway(was, others, more, after, now, limits, k) {
        assert EntryHalfway(was, pending, done, devices, now, limits, k);
        SweptAt(done, now, limits, k);
        SweptAt(more, now, limits, k);
      }
    }
  }

  lemma HalfwayEnd(was: Devices, done: Devices, devices: Devices, now: int, limits: Timeouts)
    requires Halfway(was, {}, done, devices, now, limits)
    ensures done == was && devices == Swept(was, now, limits) && WellKept(devices)
  {
    assert done == was;
    forall id ensures Entry(devices, id) == Entry(Swept(was, now, limits), id) {
      assert EntryHalfway(was, {}, done, devices, now, limits, id);
    }
    EntriesEqual(devices, Swept(was, now, limits));
  }

  lemma NothingSwept(devices: Devices, now: int, limits: Timeouts)
    requires WellKept(devices)
    ensures SweepLog(map[], now, limits, []) && Halfway(devices, devices.Keys, map[], devices, now, limits)
  {
  }

  lemma EntriesEqual(a: Devices, b: Devices)
    requires forall id :: Entry(a, id) == Entry(b, id)
    ensures a == b
  {
    forall id | id in a ensures id in b && a[id] == b[id] {
      assert Entry(a, id) == Entry(b, id);
    }
    forall id | id in b ensures id in a {
      assert Entry(a, id) == Entry(b, id);
    }
  }

  lemma LogExtends(done: Devices, now: int, limits: Timeouts, events: seq<Event>, id: string, d: Device)
    requires SweepLog(done, now, limits, events) && id !in done && d.id == id
    ensures var event := SweepEvent(d, now, limits);
      SweepLog(done[id := d], now, limits, if event.Some? then events + [event.value] else events)
  {
    hide SweepEvent;
    var event := SweepEvent(d, now, limits);
    EventNamesDevice(d, now, limits);
  }

  lemma EventNamesDevice(d: Device, now: int, limits: Timeouts)
    ensures var event := SweepEvent(d, now, limits); event.Some? ==> event.value.device.id == d.id
  {
  }

  // What a sweep leaves of one device.
  function SweptEntry(known: Option<Device>, now: int, limits: Timeouts): Option<Device> {
    if known.None? then None
    else
      var event := SweepEvent(known.value, now, limits);
      if event.None? then known else Told(event.value)
  }

  lemma SweptAt(devices: Devices, now: int, limits: Timeouts, id: string)
    ensures Entry(Swept(devices, now, limits), id) == SweptEntry(Entry(devices, id), now, limits)
  {
    if id in devices {
      var age := now - devices[id].lastSeen;
    }
  }

  // --- the log tells everything -------------------------------------------------------

  // A view that agrees before an observation agrees after folding its event.
  lemma UpsertFolds(devices: Devices, view: Devices, device: Device, at: int)
    requires WellKept(devices) && Agrees(devices, view)
    ensures var event := UpsertEvent(devices, device, at);
      Agrees(devices[device.id := Observed(device, at)], if event.Some? then Fold(view, event.value) else view)
  {
    SilentIff(devices, device, at);
    hide WellKept, MetadataChanged;
    var event := UpsertEvent(devices, device, at);
    var after := if event.Some? then Fold(view, event.value) else view;
    forall id ensures SameEntry(Entry(devices[device.id := Observed(device, at)], id), Entry(after, id)) {
      assert SameEntry(Entry(devices, id), Entry(view, id));
    }
  }

  lemma {:induction false} LatestOfDistinct(known: Option<Device>, events: seq<Event>, id: string, e: Event)
    requires forall i, j :: 0 <= i < j < |events| ==> events[i].device.id != events[j].device.id
    requires e in events && e.device.id == id
    ensures Latest(known, events, id) == Told(e)
  {
    if events[|events| - 1] != e {
      LatestOfDistinct(known, events[..|events| - 1], id, e);
    }
  }

  lemma {:induction false} LatestOfNone(known: Option<Device>, events: seq<Event>, id: string)
    requires forall e :: e in events ==> e.device.id != id
    ensures Latest(known, events, id) == known
  {
    if events != [] {
      LatestOfNone(known, events[..|events| - 1], id);
    }
  }

  lemma SweepFolds(devices: Devices, view: Devices, now: int, limits: Timeouts, events: seq<Event>)
    requires WellKept(devices) && Agrees(devices, view) && SweepLog(devices, now, limits, events)
    ensures Agrees(Swept(devices, now, limits), FoldAll(view, events))
  {
    hide FoldAll;
    forall id ensures SameEntry(Entry(Swept(devices, now, limits), id), Entry(FoldAll(view, events), id)) {
      FoldIsLatest(view, events, id);
      assert SameEntry(Entry(devices, id), Entry(view, id));
      if id in devices && SweepEvent(devices[id], now, limits).Some? {
        LatestOfDistinct(Entry(view, id), events, id, SweepEvent(devices[id], now, limits).value);
      } else {
        LatestOfNone(Entry(view, id), events, id);
      }
    }
  }

  lemma FoldTwo(view: Devices, a: Event, b: Event)
    ensures FoldAll(view, [a, b]) == Fold(Fold(view, a), b)
  {
    assert [a, b][..1] == [a] && [a][..0] == [];
    assert FoldAll(view, [a]) == Fold(view, a);
  }

  // Two events may change places for every view exactly when they concern
  // different devices or say the same.
  lemma SwapIff(a: Event, b: Event)
    ensures (forall view :: FoldAll(view, [a, b]) == FoldAll(view, [b, a]))
            <==> a.device.id != b.device.id || Told(a) == Told(b)
  {
    hide FoldAll;
    if a.device.id == b.device.id && Told(a) != Told(b) {
      FoldTwo(map[], a, b);
      FoldTwo(map[], b, a);
      assert Entry(FoldAll(map[], [a, b]), a.device.id) == Told(b);
      assert Entry(FoldAll(map[], [b, a]), a.device.id) == Told(a);
    } else {
      forall view ensures FoldAll(view, [a, b]) == FoldAll(view, [b, a]) {
        FoldTwo(view, a, b);
        FoldTwo(view, b, a);
      }
    }
  }

  // --- runs of the registry ------------------------------------------------------------

  datatype Act = Observe(device: Device, at: int) | SweepAt(now: int)

  // The rules a registry was made with.
  datatype Rules = Rules(selfId: string, checks: Checks, limits: Timeouts)

  function Acted(rules: Rules, devices: Devices, act: Act): Devices {
    match act
    case Observe(device, at) =>
      if UpsertApplies(rules.checks, rules.selfId, devices, device) then devices[device.id := Observed(device, at)] else devices
    case SweepAt(now) => Swept(devices, now, rules.limits)
  }

  function ActedAll(rules: Rules, devices: Devices, acts: seq<Act>): Devices {
    if acts == [] then devices else Acted(rules, ActedAll(rules, devices, acts[..|acts| - 1]), acts[|acts| - 1])
  }

  lemma ActKeepsIdentity(rules: Rules, devices: Devices, act: Act, id: string)
    requires id in devices && devices[id].identityHint != "" && id in Acted(rules, devices, act)
    ensures Acted(rules, devices, act)[id].identityHint == devices[id].identityHint
  {
    hide ValidDevice, MetadataChanged;
  }

  // Over every run of observations and sweeps, a peer that has shown an identity
  // keeps it for as long as it is listed, whoever else announces its ID.
  lemma {:induction false} IdentityPinned(rules: Rules, devices: Devices, acts: seq<Act>, id: string)
    requires id in devices && devices[id].identityHint != ""
    requires forall k :: 0 <= k <= |acts| ==> id in ActedAll(rules, devices, acts[..k])
    ensures forall k :: 0 <= k <= |acts| ==>
      ActedAll(rules, devices, acts[..k])[id].identityHint == devices[id].identityHint
    decreases |acts|
  {
    hide Acted;
    assert acts[..0] == [] && acts[..|acts|] == acts;
    if acts != [] {
      var front := acts[..|acts| - 1];
      forall k | 0 <= k <= |front| ensures front[..k] == acts[..k] {}
      IdentityPinned(rules, devices, front, id);
      assert front[..|front|] == front;
      ActKeepsIdentity(rules, ActedAll(rules, devices, front), acts[|acts| - 1], id);
      forall k | 0 <= k <= |acts|
        ensures ActedAll(rules, devices, acts[..k])[id].identityHint == devices[id].identityHint
      {
        assert k <= |front| ==> acts[..k] == front[..k];
      }
    }
  }

  // And no longer: once a sweep has dropped it, its ID is anybody's.
  lemma IdentityReleased(rules: Rules, devices: Devices, id: string, now: int, other: Device, at: int)
    requires id in devices && rules.limits.removeAfter <= now - devices[id].lastSeen
    requires ValidDevice(rules.checks, other) && other.id == id != rules.selfId
    ensures ActedAll(rules, devices, [SweepAt(now), Observe(other, at)])[id].identityHint == other.identityHint
  {
    var acts := [SweepAt(now), Observe(other, at)];
    assert acts[..1] == [SweepAt(now)] && [SweepAt(now)][..0] == [];
    hide ValidDevice;
    assert ActedAll(rules, devices, [SweepAt(now)]) == Acted(rules, devices, SweepAt(now));
  }

  // --- who keeps announcing stays ------------------------------------------------------

  predicate Announces(rules: Rules, act: Act, id: string, hint: string) {
    act.Observe? && act.device.id == id && act.device.identityHint == hint && Presentable(rules.checks, act.device)
  }

  predicate Within(limits: Timeouts, age: int) {
    age < limits.offlineAfter && age < limits.removeAfter
  }

  // Every sweep comes soon after an announcement, and the clock does not go back.
  ghost predicate KeepsAnnouncing(rules: Rules, acts: seq<Act>, id: string, hint: string) {
    && (forall k :: 0 <= k < |acts| && acts[k].SweepAt? ==> AnnouncedBefore(rules, acts, k, id, hint))
    && (forall j, k :: 0 <= j < k < |acts| ==> TimeOf(acts[j]) <= TimeOf(acts[k]))
  }

  function TimeOf(act: Act): int {
    if act.Observe? then act.at else act.now
  }

  ghost predicate AnnouncedBefore(rules: Rules, acts: seq<Act>, k: nat, id: string, hint: string)
    requires k < |acts|
  {
    exists j ::
      0 <= j < k && Announces(rules, acts[j], id, hint) && Within(rules.limits, TimeOf(acts[k]) - TimeOf(acts[j]))
  }

  predicate ListedOnline(devices: Devices, id: string, hint: string, since: int) {
    id in devices && devices[id].online && devices[id].identityHint == hint && since <= devices[id].lastSeen
  }

  lemma AnnouncementLists(rules: Rules, devices: Devices, act: Act, id: string, hint: string)
    requires Announces(rules, act, id, hint) && id != rules.selfId
    requires id in devices ==> devices[id].identityHint in {"", hint}
    ensures ListedOnline(Acted(rules, devices, act), id, hint, TimeOf(act))
  {
    hide Presentable, ValidDevice;
    RefusedIff(rules.checks, rules.selfId, devices, act.device);
  }

  lemma ActKeepsListed(rules: Rules, devices: Devices, act: Act, id: string, hint: string, since: int)
    requires ListedOnline(devices, id, hint, since) && hint != "" && since <= TimeOf(act)
    requires act.SweepAt? ==> Within(rules.limits, TimeOf(act) - since)
    ensures ListedOnline(Acted(rules, devices, act), id, hint, since)
  {
    hide Presentable, ValidDevice;
    if act.Observe? {
      RefusedIff(rules.checks, rules.selfId, devices, act.device);
    }
  }

  // From an announcement on, up to the last one that still covers the run.
  lemma {:induction false} ListedSince(
      rules: Rules, devices: Devices, acts: seq<Act>, id: string, hint: string, j: nat, k: nat)
    requires j < k <= |acts| && KeepsAnnouncing(rules, acts, id, hint) && hint != "" && id != rules.selfId
    requires Announces(rules, acts[j], id, hint)
    requires id in devices ==> devices[id].identityHint in {"", hint}
    requires acts != [] && Announces(rules, acts[0], id, hint)
    ensures ListedOnline(ActedAll(rules, devices, acts[..k]), id, hint, TimeOf(acts[j]))
    decreases k
  {
    hide Acted, Announces, Within, KeepsAnnouncing, ListedOnline;
    assert acts[..k][..k - 1] == acts[..k - 1];
    var before := ActedAll(rules, devices, acts[..k - 1]);
    assert ActedAll(rules, devices, acts[..k]) == Acted(rules, before, acts[k - 1]);
    OrderedTimes(rules, acts, id, hint);
    if j == k - 1 {
      if k == 1 {
        assert before == devices;
      } else {
        ListedSince(rules, devices, acts, id, hint, 0, k - 1);
        HintOf(before, id, hint, TimeOf(acts[0]));
      }
      AnnouncementLists(rules, before, acts[j], id, hint);
    } else if acts[k - 1].SweepAt? {
      var i := LatestCover(rules, acts, id, hint, k - 1);
      var last := if i < j then j else i;
      CoverStays(rules, acts, id, hint, i, last, k - 1);
      ListedSince(rules, devices, acts, id, hint, last, k - 1);
      ActKeepsListed(rules, before, acts[k - 1], id, hint, TimeOf(acts[last]));
      Earlier(ActedAll(rules, devices, acts[..k]), id, hint, TimeOf(acts[j]), TimeOf(acts[last]));
    } else {
      ListedSince(rules, devices, acts, id, hint, j, k - 1);
      ActKeepsListed(rules, before, acts[k - 1], id, hint, TimeOf(acts[j]));
    }
  }

  lemma OrderedTimes(rules: Rules, acts: seq<Act>, id: string, hint: string)
    requires KeepsAnnouncing(rules, acts, id, hint)
    ensures forall j, k :: 0 <= j < k < |acts| ==> TimeOf(acts[j]) <= TimeOf(acts[k])
  {
  }

  lemma HintOf(devices: Devices, id: string, hint: string, since: int)
    requires ListedOnline(devices, id, hint, since)
    ensures devices[id].identityHint == hint
  {
  }

  lemma Earlier(devices: Devices, id: string, hint: string, since: int, later: int)
    requires ListedOnline(devices, id, hint, later) && since <= later
    ensures ListedOnline(devices, id, hint, since)
  {
  }

  lemma LatestCover(rules: Rules, acts: seq<Act>, id: string, hint: string, k: nat) returns (i: nat)
    requires KeepsAnnouncing(rules, acts, id, hint) && k < |acts| && acts[k].SweepAt?
    ensures i < k && Announces(rules, acts[i], id, hint) && Within(rules.limits, TimeOf(acts[k]) - TimeOf(acts[i]))
  {
    assert AnnouncedBefore(rules, acts, k, id, hint);
    var j :| 0 <= j < k && Announces(rules, acts[j], id, hint) && Within(rules.limits, TimeOf(acts[k]) - TimeOf(acts[j]));
    i := j;
  }

  lemma CoverStays(rules: Rules, acts: seq<Act>, id: string, hint: string, i: nat, last: nat, k: nat)
    requires i <= last < k < |acts| && Within(rules.limits, TimeOf(acts[k]) - TimeOf(acts[i]))
    requires KeepsAnnouncing(rules, acts, id, hint)
    ensures Within(rules.limits, TimeOf(acts[k]) - TimeOf(acts[last]))
    ensures TimeOf(acts[i]) <= TimeOf(acts[last]) <= TimeOf(acts[k])
  {
  }

  // A peer with an identity that announces itself more often than both timeouts is
  // listed and online after every observation and every sweep, whoever else
  // announces its ID and whatever else is observed.
  lemma AnnouncerStaysOnline(rules: Rules, devices: Devices, acts: seq<Act>, id: string, hint: string)
    requires KeepsAnnouncing(rules, acts, id, hint) && hint != "" && id != rules.selfId
    requires id in devices ==> devices[id].identityHint in {"", hint}
    requires acts != [] && Announces(rules, acts[0], id, hint)
    ensures forall k :: 1 <= k <= |acts| ==>
      && var now := ActedAll(rules, devices, acts[..k]);
      && id in now && now[id].online && now[id].identityHint == hint
  {
    hide Acted, Announces, KeepsAnnouncing;
    forall k | 1 <= k <= |acts|
      ensures ListedOnline(ActedAll(rules, devices, acts[..k]), id, hint, TimeOf(acts[0]))
    {
      ListedSince(rules, devices, acts, id, hint, 0, k);
    }
  }
}
