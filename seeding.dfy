/**
 * The helpers and the seeding endpoint: collection names from type names,
 * and `POST /seed`, which fills each of the five seeded collections
 * (drivers, devices, health records, sleep records, events) with two fixed
 * demo records when it is empty, and leaves every other collection, the
 * users included, as it is.
 */
module Seeding {
  import opened Wrappers
  import opened Text
  import opened Schemas
  import opened Store

  /** `to_collection(name)`: the collection name is the lower-cased name. */
  function ToCollection(name: string): (r: string)
    ensures |r| == |name| && IsLower(r)
    ensures forall i :: 0 <= i < |name| ==> r[i] == LowerChar(name[i])
    ensures IsLower(name) ==> r == name
  {
    LowerIdempotent(name);
    Lower(name)
  }

  /** A type name lower-cases to its collection name. */
  lemma TypeNameLowers(k: Kind)
    ensures Lower(TypeName(k)) == CollectionName(k)
  {
    match k
    case UserKind => LowerFrom("User", "user");
    case DriverKind => LowerFrom("Driver", "driver");
    case DeviceKind => LowerFrom("Device", "device");
    case HealthRecordKind => LowerFrom("HealthRecord", "healthrecord");
    case SleepRecordKind => LowerFrom("SleepRecord", "sleeprecord");
    case EventKind => LowerFrom("Event", "event");
  }

  /** A collection name is already lower case. */
  lemma CollectionNameIsLower(k: Kind)
    ensures IsLower(CollectionName(k))
  {
  }

  /**
   * Every record type is stored in the collection named by its lower-cased
   * type name, and naming a collection by its own name again changes nothing.
   */
  lemma CollectionNamesFromTypeNames(k: Kind)
    ensures ToCollection(TypeName(k)) == CollectionName(k)
    ensures ToCollection(CollectionName(k)) == CollectionName(k)
  {
    TypeNameLowers(k);
    CollectionNameIsLower(k);
  }

  const Minute: int := 60
  const Hour: int := 60 * Minute

  /** The two demo drivers: both take the default status, and their employee ids differ. */
  function SeedDrivers(): (r: seq<Driver>)
    ensures |r| == 2 && r[0].employee_id != r[1].employee_id
    ensures forall d :: d in r ==> d.status == Active && d.phone.Some?
  {
    [ MakeDriver("Budi Santoso", "DRV001", Some("081234567890"), None),
      MakeDriver("Siti Aminah", "DRV002", Some("081298765432"), None) ]
  }

  /** The two demo devices: one online, one offline, both located and without a driver id. */
  function SeedDevices(): (r: seq<Device>)
    ensures |r| == 2 && r[0].device_id != r[1].device_id
    ensures r[0].is_online && !r[1].is_online
    ensures forall d :: d in r ==> d.driver_id.None? && d.driver_name.Some? && d.last_location.Some?
  {
    [ MakeDevice("DEV-1001", None, Some("Budi Santoso"), Some(87), Some(true), Some(Location(-6.2, 106.82, "Jakarta"))),
      MakeDevice("DEV-1002", None, Some("Siti Aminah"), Some(22), Some(false), Some(Location(-6.21, 106.85, "Jakarta"))) ]
  }

  /**
   * The two demo health snapshots, taken at `now`: snapshot `i` belongs to
   * demo device `i` and to the driver named on it.
   */
  function SeedHealth(now: Timestamp): (r: seq<HealthRecord>)
    ensures |r| == 2 && r[0].driver_id != r[1].driver_id
    ensures forall i :: 0 <= i < 2 ==>
      r[i].timestamp == now && r[i].device_id == SeedDevices()[i].device_id &&
      SeedDevices()[i].driver_name == Some(r[i].driver_name)
  {
    [ HealthRecord("DRV001", "Budi Santoso", "DEV-1001", now, 78, 145, 95, 36.8, 1200, 9500, 75, 6.8),
      HealthRecord("DRV002", "Siti Aminah", "DEV-1002", now, 82, 118, 78, 36.6, 980, 7200, 60, 4.9) ]
  }

  /**
   * The segments follow each other without gaps, each starts before it
   * ends, and the last one ends before `now`.
   */
  ghost predicate Chronological(segs: seq<SleepSegment>, now: Timestamp) {
    && (forall j :: 0 <= j < |segs| ==> segs[j].start < segs[j].end < now)
    && (forall j :: 0 < j < |segs| ==> segs[j - 1].end == segs[j].start)
  }

  /**
   * The two demo sleep records of day `today`: record `i` belongs to the
   * driver and device of health snapshot `i`, and its segments are a
   * gapless night ending hours before `now`.
   */
  function SeedSleep(now: Timestamp, today: string): (r: seq<SleepRecord>)
    ensures |r| == 2
    ensures forall i :: 0 <= i < 2 ==>
      r[i].date == today && r[i].driver_id == SeedHealth(now)[i].driver_id &&
      r[i].device_id == SeedHealth(now)[i].device_id && Chronological(r[i].segments, now)
  {
    [ SleepRecord("DRV001", "Budi Santoso", "DEV-1001", today, 58, 320, [
        SleepSegment(now - 7 * Hour, now - (6 * Hour + 45 * Minute), Light),
        SleepSegment(now - (6 * Hour + 45 * Minute), now - 5 * Hour, Deep),
        SleepSegment(now - 5 * Hour, now - (4 * Hour + 30 * Minute), Rem),
        SleepSegment(now - (4 * Hour + 30 * Minute), now - (4 * Hour + 15 * Minute), Awake)]),
      SleepRecord("DRV002", "Siti Aminah", "DEV-1002", today, 82, 420, [
        SleepSegment(now - 8 * Hour, now - 6 * Hour, Deep),
        SleepSegment(now - 6 * Hour, now - 5 * Hour, Light),
        SleepSegment(now - 5 * Hour, now - 4 * Hour, Rem)]) ]
  }

  /** The two demo events, at `now`: event `i` happens on demo device `i`, where that device is. */
  function SeedEvents(now: Timestamp): (r: seq<Event>)
    ensures |r| == 2
    ensures forall i :: 0 <= i < 2 ==>
      r[i].timestamp == now && r[i].device_id == SeedDevices()[i].device_id &&
      r[i].location == SeedDevices()[i].last_location
  {
    [ Event("DRV001", "Budi Santoso", "DEV-1001", now, LowBattery, Some(Location(-6.2, 106.82, "Jakarta"))),
      Event("DRV002", "Siti Aminah", "DEV-1002", now, Sos, Some(Location(-6.21, 106.85, "Jakarta"))) ]
  }

  /** The collections after seeding: each seeded collection is filled only if it was empty. */
  function Seeded(c: Collections, now: Timestamp, today: string): (r: Collections)
    ensures r.users == c.users
    ensures r.drivers != [] && r.devices != [] && r.health != [] && r.sleep != [] && r.events != []
    ensures r.drivers == if c.drivers == [] then SeedDrivers() else c.drivers
    ensures r.devices == if c.devices == [] then SeedDevices() else c.devices
    ensures r.health == if c.health == [] then SeedHealth(now) else c.health
    ensures r.sleep == if c.sleep == [] then SeedSleep(now, today) else c.sleep
    ensures r.events == if c.events == [] then SeedEvents(now) else c.events
    ensures c.drivers != [] ==> r.drivers == c.drivers
    ensures c.devices != [] ==> r.devices == c.devices
    ensures c.health != [] ==> r.health == c.health
    ensures c.sleep != [] ==> r.sleep == c.sleep
    ensures c.events != [] ==> r.events == c.events
  {
    c.(drivers := if |c.drivers| == 0 then SeedDrivers() else c.drivers)
     .(devices := if |c.devices| == 0 then SeedDevices() else c.devices)
     .(health := if |c.health| == 0 then SeedHealth(now) else c.health)
     .(sleep := if |c.sleep| == 0 then SeedSleep(now, today) else c.sleep)
     .(events := if |c.events| == 0 then SeedEvents(now) else c.events)
  }

  /**
   * Seeding keeps every non-empty collection, fills every empty seeded
   * collection with exactly two records, and never touches the users.
   */
  lemma SeededSizes(c: Collections, now: Timestamp, today: string, k: Kind)
    ensures k == UserKind ==> SizeOf(Seeded(c, now, today), k) == SizeOf(c, k)
    ensures k != UserKind ==> SizeOf(Seeded(c, now, today), k) == if SizeOf(c, k) == 0 then 2 else SizeOf(c, k)
    ensures SizeOf(c, k) != 0 ==> SizeOf(Seeded(c, now, today), k) == SizeOf(c, k)
  {
  }

  /**
   * Running the seed again, even at another time, changes nothing: every
   * seeded collection is non-empty after the first run.
   */
  lemma SeedIdempotent(c: Collections, now: Timestamp, today: string, later: Timestamp, laterDay: string)
    ensures Seeded(Seeded(c, now, today), later, laterDay) == Seeded(c, now, today)
  {
  }

  /** Counting the collection `to_collection(name)` counts the records of kind `k`. */
  lemma SizeByName(c: Collections, name: string, k: Kind)
    requires name == CollectionName(k)
    ensures Size(c, ToCollection(name)) == SizeOf(c, k)
  {
    CollectionNamesFromTypeNames(k);
  }

  /** `len(get_documents(to_collection(name)))` for the collection of kind `k`. */
  method CountCollection(store: Store, name: string, ghost k: Kind) returns (n: nat)
    requires name == CollectionName(k)
    ensures n == SizeOf(store.db, k)
  {
    SizeByName(store.db, name, k);
    n := store.CountDocuments(ToCollection(name));
  }

  /** `POST /seed`: fills each empty collection, one collection at a time. */
  method Seed(store: Store, now: Timestamp, today: string) returns (status: string)
    modifies store
    ensures store.db == Seeded(old(store.db), now, today)
    ensures status == "ok"
  {
    SeedDriversIfEmpty(store);
    SeedDevicesIfEmpty(store);
    SeedHealthIfEmpty(store, now);
    SeedSleepIfEmpty(store, now, today);
    SeedEventsIfEmpty(store, now);
    status := "ok";
  }

  method SeedDriversIfEmpty(store: Store)
    modifies store
    ensures store.db == old(store.db).(drivers := if |old(store.db.drivers)| == 0 then SeedDrivers() else old(store.db.drivers))
  {
    var n := CountCollection(store, "driver", DriverKind);
    if n == 0 {
      var ds := SeedDrivers();
      assert ds == [ds[0], ds[1]];
      store.CreateDocument(DriverDoc(ds[0]));
      store.CreateDocument(DriverDoc(ds[1]));
    }
  }

  method SeedDevicesIfEmpty(store: Store)
    modifies store
    ensures store.db == old(store.db).(devices := if |old(store.db.devices)| == 0 then SeedDevices() else old(store.db.devices))
  {
    var n := CountCollection(store, "device", DeviceKind);
    if n == 0 {
      var ds := SeedDevices();
      assert ds == [ds[0], ds[1]];
      store.CreateDocument(DeviceDoc(ds[0]));
      store.CreateDocument(DeviceDoc(ds[1]));
    }
  }

  method SeedHealthIfEmpty(store: Store, now: Timestamp)
    modifies store
    ensures store.db == old(store.db).(health := if |old(store.db.health)| == 0 then SeedHealth(now) else old(store.db.health))
  {
    var n := CountCollection(store, "healthrecord", HealthRecordKind);
    if n == 0 {
      var hs := SeedHealth(now);
      assert hs == [hs[0], hs[1]];
      store.CreateDocument(HealthDoc(hs[0]));
      store.CreateDocument(HealthDoc(hs[1]));
    }
  }

  method SeedSleepIfEmpty(store: Store, now: Timestamp, today: string)
    modifies store
    ensures store.db == old(store.db).(sleep := if |old(store.db.sleep)| == 0 then SeedSleep(now, today) else old(store.db.sleep))
  {
    var n := CountCollection(store, "sleeprecord", SleepRecordKind);
    if n == 0 {
      var ss := SeedSleep(now, today);
      assert ss == [ss[0], ss[1]];
      store.CreateDocument(SleepDoc(ss[0]));
      store.CreateDocument(SleepDoc(ss[1]));
    }
  }

  method SeedEventsIfEmpty(store: Store, now: Timestamp)
    modifies store
    ensures store.db == old(store.db).(events := if |old(store.db.events)| == 0 then SeedEvents(now) else old(store.db.events))
  {
    var n := CountCollection(store, "event", EventKind);
    if n == 0 {
      var es := SeedEvents(now);
      assert es == [es[0], es[1]];
      store.CreateDocument(EventDoc(es[0]));
      store.CreateDocument(EventDoc(es[1]));
    }
  }
}
