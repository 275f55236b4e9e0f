/**
 * The document store the endpoints read from and the seeding writes to:
 * one sequence of records per collection, in the order the records were
 * created. Reading a collection returns a copy of it; a query with an
 * exact-match filter keeps, in order, the records whose named fields equal
 * the given values.
 */
module Store {
  import opened Wrappers
  import opened Seqs
  import opened Schemas

  /** The contents of every collection at one moment. */
  datatype Collections = Collections(
    users: seq<User>,
    drivers: seq<Driver>,
    devices: seq<Device>,
    health: seq<HealthRecord>,
    sleep: seq<SleepRecord>,
    events: seq<Event>)

  const NoCollections := Collections([], [], [], [], [], [])

  /** A record handed to `create_document`. */
  datatype Doc =
    | UserDoc(user: User)
    | DriverDoc(driver: Driver)
    | DeviceDoc(device: Device)
    | HealthDoc(health: HealthRecord)
    | SleepDoc(sleep: SleepRecord)
    | EventDoc(event: Event)

  function KindOf(doc: Doc): Kind {
    match doc
    case UserDoc(_) => UserKind
    case DriverDoc(_) => DriverKind
    case DeviceDoc(_) => DeviceKind
    case HealthDoc(_) => HealthRecordKind
    case SleepDoc(_) => SleepRecordKind
    case EventDoc(_) => EventKind
  }

  /** The number of records of one kind. */
  function SizeOf(c: Collections, k: Kind): nat {
    match k
    case UserKind => |c.users|
    case DriverKind => |c.drivers|
    case DeviceKind => |c.devices|
    case HealthRecordKind => |c.health|
    case SleepRecordKind => |c.sleep|
    case EventKind => |c.events|
  }

  /** `len(get_documents(name))`: a collection that does not exist reads as empty. */
  function Size(c: Collections, name: string): (n: nat)
    ensures forall k :: CollectionName(k) == name ==> n == SizeOf(c, k)
    ensures (forall k :: CollectionName(k) != name) ==> n == 0
  {
    if name == CollectionName(UserKind) then |c.users|
    else if name == CollectionName(DriverKind) then |c.drivers|
    else if name == CollectionName(DeviceKind) then |c.devices|
    else if name == CollectionName(HealthRecordKind) then |c.health|
    else if name == CollectionName(SleepRecordKind) then |c.sleep|
    else if name == CollectionName(EventKind) then |c.events|
    else 0
  }

  /** The collections after `doc` is appended to the collection of its kind. */
  function Insert(c: Collections, doc: Doc): (r: Collections)
    ensures SizeOf(r, KindOf(doc)) == SizeOf(c, KindOf(doc)) + 1
    ensures forall k :: k != KindOf(doc) ==> SizeOf(r, k) == SizeOf(c, k)
    ensures r.users == if doc.UserDoc? then c.users + [doc.user] else c.users
    ensures r.drivers == if doc.DriverDoc? then c.drivers + [doc.driver] else c.drivers
    ensures r.devices == if doc.DeviceDoc? then c.devices + [doc.device] else c.devices
    ensures r.health == if doc.HealthDoc? then c.health + [doc.health] else c.health
    ensures r.sleep == if doc.SleepDoc? then c.sleep + [doc.sleep] else c.sleep
    ensures r.events == if doc.EventDoc? then c.events + [doc.event] else c.events
  {
    match doc
    case UserDoc(u) => c.(users := c.users + [u])
    case DriverDoc(d) => c.(drivers := c.drivers + [d])
    case DeviceDoc(d) => c.(devices := c.devices + [d])
    case HealthDoc(h) => c.(health := c.health + [h])
    case SleepDoc(s) => c.(sleep := c.sleep + [s])
    case EventDoc(e) => c.(events := c.events + [e])
  }

  /** The store itself: the only state that outlives a request. */
  class Store {
    var db: Collections

    constructor ()
      ensures db == NoCollections
    {
      db := NoCollections;
    }

    /** `create_document(name, doc)`: appends `doc` to its collection and changes nothing else. */
    method CreateDocument(doc: Doc)
      modifies this
      ensures db == Insert(old(db), doc)
    {
      db := Insert(db, doc);
    }

    /** `len(get_documents(name))`. */
    method CountDocuments(name: string) returns (n: nat)
      ensures n == Size(db, name)
    {
      n := Size(db, name);
    }
  }

  /** The exact-match condition `{"device_id": id}` on a device. */
  function DeviceIdIs(id: string): Device -> bool {
    (d: Device) => d.device_id == id
  }

  /** The exact-match condition `{"device_id": id}` on a health record. */
  function HealthDeviceIs(id: string): HealthRecord -> bool {
    (h: HealthRecord) => h.device_id == id
  }

  /** The exact-match condition `{"device_id": id}` on an event. */
  function EventDeviceIs(id: string): Event -> bool {
    (e: Event) => e.device_id == id
  }

  /**
   * The exact-match condition on a sleep record: each given field must
   * be equal, an absent one is not constrained.
   */
  function SleepMatches(device_id: Option<string>, date: Option<string>): SleepRecord -> bool {
    (s: SleepRecord) => (device_id.Some? ==> s.device_id == device_id.value) && (date.Some? ==> s.date == date.value)
  }

  /** `get_documents("sleeprecord", filter)`, in store order. */
  function QuerySleep(sleep: seq<SleepRecord>, device_id: Option<string>, date: Option<string>): (r: seq<SleepRecord>)
    ensures IsSubsequence(r, sleep)
    ensures forall s :: s in r <==>
      (s in sleep && (device_id.Some? ==> s.device_id == device_id.value) && (date.Some? ==> s.date == date.value))
    ensures forall s :: multiset(r)[s] ==
                      (if (device_id.Some? ==> s.device_id == device_id.value) && (date.Some? ==> s.date == date.value)
                       then multiset(sleep)[s] else 0)
    ensures device_id.None? && date.None? ==> r == sleep
  {
    var r := Filter(sleep, SleepMatches(device_id, date));
    assert forall s :: s in r <==> multiset(r)[s] > 0;
    if device_id.None? && date.None? then
      assert r == sleep by { FilterAll(sleep, SleepMatches(device_id, date)); }
      r
    else
      r
  }

  /** `get_documents("event", {"device_id": id})`, in store order. */
  function QueryEvents(events: seq<Event>, device_id: string): (r: seq<Event>)
    ensures IsSubsequence(r, events)
    ensures forall e :: e in r <==> e in events && e.device_id == device_id
    ensures forall e :: multiset(r)[e] == (if e.device_id == device_id then multiset(events)[e] else 0)
  {
    var r := Filter(events, EventDeviceIs(device_id));
    assert forall e :: e in r <==> multiset(r)[e] > 0;
    r
  }

  /** A query is the exact-match filter of its fields. */
  lemma QuerySleepIsFilter(sleep: seq<SleepRecord>, device_id: Option<string>, date: Option<string>)
    ensures QuerySleep(sleep, device_id, date) == Filter(sleep, SleepMatches(device_id, date))
  {
  }

  /** A condition that every element meets keeps the whole sequence. */
  lemma {:induction false} FilterAll<T(!new)>(s: seq<T>, p: T -> bool)
    requires forall x :: x in s ==> p(x)
    ensures Filter(s, p) == s
    decreases |s|
  {
    if s != [] {
      assert s == s[..|s| - 1] + [s[|s| - 1]];
      FilterAll(s[..|s| - 1], p);
    }
  }
}
