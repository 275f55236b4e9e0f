/**
 * The dashboard endpoints: the summary counts, the driver readiness table,
 * the event table and the map points. Each reads whole collections (or the
 * sleep records of one day) and filters, counts, joins and projects them in
 * memory.
 */
module Dashboard {
  import opened Wrappers
  import opened Text
  import opened Seqs
  import opened Schemas
  import opened Store

  // ---------------------------------------------------------------- summary

  /** The query parameters of the summary, each with its default. */
  datatype Thresholds = Thresholds(bp_sys: int, bp_dia: int, sleep_score: int, sleep_duration: int)

  const DefaultThresholds := Thresholds(140, 90, 60, 360)

  datatype Summary = Summary(
    high_bp_count: nat,
    low_sleep_score_count: nat,
    under_sleep_duration_count: nat,
    online_devices: nat,
    offline_devices: nat)

  /** Blood pressure above either threshold. */
  function HighBp(t: Thresholds): HealthRecord -> bool {
    (h: HealthRecord) => h.bp_systolic > t.bp_sys || h.bp_diastolic > t.bp_dia
  }

  function LowSleepScore(t: Thresholds): SleepRecord -> bool {
    (s: SleepRecord) => s.score < t.sleep_score
  }

  function ShortSleep(t: Thresholds): SleepRecord -> bool {
    (s: SleepRecord) => s.duration_minutes < t.sleep_duration
  }

  predicate Online(d: Device) {
    d.is_online
  }

  predicate Offline(d: Device) {
    !d.is_online
  }

  /** Positions of the health records with blood pressure above either threshold. */
  function HighBpIndices(health: seq<HealthRecord>, t: Thresholds): set<int> {
    set i | 0 <= i < |health| && (health[i].bp_systolic > t.bp_sys || health[i].bp_diastolic > t.bp_dia)
  }

  /** Positions of the sleep records dated `today` with a score below the threshold. */
  function TodayLowScoreIndices(sleep: seq<SleepRecord>, today: string, t: Thresholds): set<int> {
    set i | 0 <= i < |sleep| && sleep[i].date == today && sleep[i].score < t.sleep_score
  }

  /** Positions of the sleep records dated `today` with a duration below the threshold. */
  function TodayShortSleepIndices(sleep: seq<SleepRecord>, today: string, t: Thresholds): set<int> {
    set i | 0 <= i < |sleep| && sleep[i].date == today && sleep[i].duration_minutes < t.sleep_duration
  }

  /** Positions of the devices that are online. */
  function OnlineIndices(devices: seq<Device>): set<int> {
    set i | 0 <= i < |devices| && devices[i].is_online
  }

  /** Positions of the devices that are offline. */
  function OfflineIndices(devices: seq<Device>): set<int> {
    set i | 0 <= i < |devices| && !devices[i].is_online
  }

  /**
   * `GET /dashboard/summary`: health records with high blood pressure,
   * today's sleep records with a low score and, separately, with a short
   * duration, and devices online and offline.
   */
  function DashboardSummary(db: Collections, today: string, t: Thresholds): (r: Summary)
    ensures r.high_bp_count == |HighBpIndices(db.health, t)|
    ensures r.low_sleep_score_count == |TodayLowScoreIndices(db.sleep, today, t)|
    ensures r.under_sleep_duration_count == |TodayShortSleepIndices(db.sleep, today, t)|
    ensures r.online_devices == |OnlineIndices(db.devices)|
    ensures r.offline_devices == |OfflineIndices(db.devices)|
    ensures r.online_devices + r.offline_devices == |db.devices|
  {
    var sleep := QuerySleep(db.sleep, None, Some(today));
    QuerySleepIsFilter(db.sleep, None, Some(today));
    HighBpCount(db.health, t);
    LowScoreTodayCount(db.sleep, today, t);
    ShortSleepTodayCount(db.sleep, today, t);
    DeviceCounts(db.devices);
    Summary(
      |Filter(db.health, HighBp(t))|,
      |Filter(sleep, LowSleepScore(t))|,
      |Filter(sleep, ShortSleep(t))|,
      |Filter(db.devices, Online)|,
      |Filter(db.devices, Offline)|)
  }

  /** The high blood pressure count is the number of health records above either threshold. */
  lemma HighBpCount(health: seq<HealthRecord>, t: Thresholds)
    ensures |Filter(health, HighBp(t))| == |HighBpIndices(health, t)|
  {
    FilterCount(health, HighBp(t));
    assert IndicesWhere(health, HighBp(t)) == HighBpIndices(health, t);
  }

  /**
   * The low-score count ranges over the sleep records dated `today` only.
   * It is independent of the duration count: one record may add to both.
   */
  lemma LowScoreTodayCount(sleep: seq<SleepRecord>, today: string, t: Thresholds)
    ensures |Filter(Filter(sleep, SleepMatches(None, Some(today))), LowSleepScore(t))| == |TodayLowScoreIndices(sleep, today, t)|
  {
    var onDate := SleepMatches(None, Some(today));
    FilterFilterCount(sleep, onDate, LowSleepScore(t));
    assert IndicesWhere(sleep, Both(onDate, LowSleepScore(t))) == TodayLowScoreIndices(sleep, today, t);
  }

  /** The short-sleep count ranges over the sleep records dated `today` only. */
  lemma ShortSleepTodayCount(sleep: seq<SleepRecord>, today: string, t: Thresholds)
    ensures |Filter(Filter(sleep, SleepMatches(None, Some(today))), ShortSleep(t))| == |TodayShortSleepIndices(sleep, today, t)|
  {
    var onDate := SleepMatches(None, Some(today));
    FilterFilterCount(sleep, onDate, ShortSleep(t));
    assert IndicesWhere(sleep, Both(onDate, ShortSleep(t))) == TodayShortSleepIndices(sleep, today, t);
  }

  /** Every device is counted exactly once, as online or as offline. */
  lemma DeviceCounts(devices: seq<Device>)
    ensures |Filter(devices, Online)| == |OnlineIndices(devices)|
    ensures |Filter(devices, Offline)| == |OfflineIndices(devices)|
    ensures multiset(Filter(devices, Online)) + multiset(Filter(devices, Offline)) == multiset(devices)
    ensures |Filter(devices, Online)| + |Filter(devices, Offline)| == |devices|
  {
    FilterCount(devices, Online);
    assert IndicesWhere(devices, Online) == OnlineIndices(devices);
    FilterCount(devices, Offline);
    assert IndicesWhere(devices, Offline) == OfflineIndices(devices);
    FilterPartition(devices, Online, Offline);
  }

  // -------------------------------------------------------------- readiness

  /** Approval limits of the readiness table, fixed and separate from the summary's parameters. */
  const ReadySystolicBelow := 140
  const ReadyDiastolicBelow := 90
  const ReadySleepScoreAtLeast := 60
  /** The score assumed for a driver with no sleep record. */
  const ScoreWithoutSleep := 100

  datatype ReadinessRow = ReadinessRow(
    datetime: Timestamp,
    driver_name: string,
    device_id: string,
    last_sleep_score: Option<int>,
    last_bp_systolic: int,
    last_bp_diastolic: int,
    status: string)

  function SleepDriver(s: SleepRecord): string {
    s.driver_id
  }

  /**
   * The approval rule, applied to a health record and the driver's sleep
   * record if any: no sleep record rates like a passing one, and a score
   * below 60 is never approved.
   */
  predicate ReadinessOk(h: HealthRecord, s: Option<SleepRecord>)
    ensures s.None? || s.value.score >= 60 ==> (ReadinessOk(h, s) <==> h.bp_systolic < 140 && h.bp_diastolic < 90)
    ensures s.Some? && s.value.score < 60 ==> !ReadinessOk(h, s)
  {
    && h.bp_systolic < ReadySystolicBelow
    && h.bp_diastolic < ReadyDiastolicBelow
    && (if s.Some? then s.value.score else ScoreWithoutSleep) >= ReadySleepScoreAtLeast
  }

  function StatusLabel(ok: bool): string {
    if ok then "approved" else "not approved"
  }

  /**
   * The row of one health record, joined to the sleep record kept for its
   * driver. Its status follows from the values it shows: approved iff the
   * pressures are below 140/90 and the score, when there is one, is at least 60.
   */
  function ReadinessRowOf(h: HealthRecord, sleepByDriver: map<string, SleepRecord>): (r: ReadinessRow)
    ensures r.last_sleep_score.Some? <==> h.driver_id in sleepByDriver
    ensures r.last_sleep_score.Some? ==> r.last_sleep_score.value == sleepByDriver[h.driver_id].score
    ensures r.status in ["approved", "not approved"]
    ensures r.status == "approved" <==>
      r.last_bp_systolic < 140 && r.last_bp_diastolic < 90 &&
      (r.last_sleep_score.Some? ==> r.last_sleep_score.value >= 60)
  {
    var s := if h.driver_id in sleepByDriver then Some(sleepByDriver[h.driver_id]) else None;
    ReadinessRow(
      h.timestamp, h.driver_name, h.device_id,
      if s.Some? then Some(s.value.score) else None,
      h.bp_systolic, h.bp_diastolic,
      StatusLabel(ReadinessOk(h, s)))
  }

  /** One row per health record, in store order, before any filter. */
  function ReadinessRows(health: seq<HealthRecord>, sleep: seq<SleepRecord>): (r: seq<ReadinessRow>)
    ensures |r| == |health|
    ensures forall i :: 0 <= i < |health| ==>
      r[i].driver_name == health[i].driver_name && r[i].device_id == health[i].device_id &&
      r[i].datetime == health[i].timestamp
  {
    var byDriver := LastBy(sleep, SleepDriver);
    seq(|health|, i requires 0 <= i < |health| => ReadinessRowOf(health[i], byDriver))
  }

  function ReadinessNameMatches(q: string): ReadinessRow -> bool {
    (r: ReadinessRow) => ContainsIgnoringCase(q, r.driver_name)
  }

  function ReadinessStatusIs(status: string): ReadinessRow -> bool {
    (r: ReadinessRow) => EqualsIgnoringCase(r.status, status)
  }

  /** The `q` filter: rows whose driver name contains `q`, ignoring case. */
  function FilterReadinessByName(rows: seq<ReadinessRow>, q: Option<string>): (r: seq<ReadinessRow>)
    ensures !Given(q) ==> r == rows
    ensures Given(q) ==> IsSubsequence(r, rows)
    ensures Given(q) ==>
      forall x :: multiset(r)[x] == (if ContainsIgnoringCase(q.value, x.driver_name) then multiset(rows)[x] else 0)
  {
    if Given(q) then Filter(rows, ReadinessNameMatches(q.value)) else rows
  }

  /** The `status` filter: rows whose status equals `status`, ignoring case. */
  function FilterReadinessByStatus(rows: seq<ReadinessRow>, status: Option<string>): (r: seq<ReadinessRow>)
    ensures !Given(status) ==> r == rows
    ensures Given(status) ==> IsSubsequence(r, rows)
    ensures Given(status) ==>
      forall x :: multiset(r)[x] == (if EqualsIgnoringCase(x.status, status.value) then multiset(rows)[x] else 0)
  {
    if Given(status) then Filter(rows, ReadinessStatusIs(status.value)) else rows
  }

  /** `GET /dashboard/readiness`. */
  method DriverReadiness(db: Collections, q: Option<string>, status: Option<string>) returns (items: seq<ReadinessRow>)
    ensures items == FilterReadinessByStatus(FilterReadinessByName(ReadinessRows(db.health, db.sleep), q), status)
  {
    var sleepByDriver := IndexLastBy(db.sleep, SleepDriver);
    var rows: seq<ReadinessRow> := [];
    var i := 0;
    while i < |db.health|
      invariant 0 <= i <= |db.health|
      invariant |rows| == i
      invariant forall k :: 0 <= k < i ==> rows[k] == ReadinessRowOf(db.health[k], sleepByDriver)
    {
      rows := rows + [ReadinessRowOf(db.health[i], sleepByDriver)];
      i := i + 1;
    }
    assert rows == ReadinessRows(db.health, db.sleep);
    items := FilterReadinessByName(rows, q);
    items := FilterReadinessByStatus(items, status);
  }

  /** At most one position is the last with a given key. */
  lemma LastWithUnique<T>(s: seq<T>, key: T -> string, k: string, i: int, j: int)
    requires IsLastWith(s, key, k, i) && IsLastWith(s, key, k, j)
    ensures i == j
  {
  }

  /**
   * Row `i` of the readiness table belongs to health record `i`; its sleep
   * score is that of the LAST sleep record of the same driver (none when
   * the driver has no sleep record); and it is approved iff systolic < 140,
   * diastolic < 90 and that sleep score is at least 60, a missing sleep
   * record counting as a score of 100.
   */
  lemma ReadinessRowFacts(health: seq<HealthRecord>, sleep: seq<SleepRecord>, i: int)
    requires 0 <= i < |health|
    ensures |ReadinessRows(health, sleep)| == |health|
    ensures ReadinessRows(health, sleep)[i].driver_name == health[i].driver_name
    ensures ReadinessRows(health, sleep)[i].device_id == health[i].device_id
    ensures ReadinessRows(health, sleep)[i].datetime == health[i].timestamp
    ensures ReadinessRows(health, sleep)[i].last_bp_systolic == health[i].bp_systolic
    ensures ReadinessRows(health, sleep)[i].last_bp_diastolic == health[i].bp_diastolic
    ensures ReadinessRows(health, sleep)[i].last_sleep_score.None? <==>
      forall j :: 0 <= j < |sleep| ==> sleep[j].driver_id != health[i].driver_id
    ensures ReadinessRows(health, sleep)[i].last_sleep_score.Some? ==>
      exists j :: IsLastWith(sleep, SleepDriver, health[i].driver_id, j) &&
        ReadinessRows(health, sleep)[i].last_sleep_score.value == sleep[j].score
    ensures ReadinessRows(health, sleep)[i].status == "approved" <==>
      && health[i].bp_systolic < 140
      && health[i].bp_diastolic < 90
      && forall j :: IsLastWith(sleep, SleepDriver, health[i].driver_id, j) ==> sleep[j].score >= 60
    ensures ReadinessRows(health, sleep)[i].status in ["approved", "not approved"]
  {
    var h := health[i];
    LastByLookup(sleep, SleepDriver, h.driver_id);
    if h.driver_id in LastBy(sleep, SleepDriver) {
      var j0 :| IsLastWith(sleep, SleepDriver, h.driver_id, j0) && LastBy(sleep, SleepDriver)[h.driver_id] == sleep[j0];
      forall j | IsLastWith(sleep, SleepDriver, h.driver_id, j) ensures sleep[j] == sleep[j0] {
        LastWithUnique(sleep, SleepDriver, h.driver_id, j, j0);
      }
    }
  }

  /** A driver without any sleep record and with normal blood pressure is approved. */
  lemma NoSleepRecordNormalBpApproved(health: seq<HealthRecord>, sleep: seq<SleepRecord>, i: int)
    requires 0 <= i < |health|
    requires forall j :: 0 <= j < |sleep| ==> sleep[j].driver_id != health[i].driver_id
    requires health[i].bp_systolic < 140 && health[i].bp_diastolic < 90
    ensures ReadinessRows(health, sleep)[i].status == "approved"
    ensures ReadinessRows(health, sleep)[i].last_sleep_score == None
  {
    ReadinessRowFacts(health, sleep, i);
  }

  /**
   * An approved driver is never counted as high blood pressure by the
   * summary's default thresholds; the converse fails, since the two rules
   * use `<` and `>` on the same limits.
   */
  lemma ApprovedIsNotHighBp(h: HealthRecord, s: Option<SleepRecord>)
    ensures ReadinessOk(h, s) ==> !HighBp(DefaultThresholds)(h)
    ensures h.bp_systolic == 140 && h.bp_diastolic < 90 ==> !ReadinessOk(h, s) && !HighBp(DefaultThresholds)(h)
  {
  }

  // ------------------------------------------------------------------ events

  datatype EventRow = EventRow(
    datetime: Timestamp,
    driver_name: string,
    device_id: string,
    status_event: string,
    address: Option<string>)

  /** The projection of one event; the address comes from its optional location. */
  function EventRowOf(e: Event): (r: EventRow)
    ensures ParseEventStatus(r.status_event) == Some(e.status_event)
    ensures r.address.None? <==> e.location.None?
    ensures e.location.Some? ==> r.address == Some(e.location.value.address)
    ensures r.driver_name == e.driver_name && r.device_id == e.device_id && r.datetime == e.timestamp
  {
    EventRow(
      e.timestamp, e.driver_name, e.device_id, EventStatusName(e.status_event),
      if e.location.Some? then Some(e.location.value.address) else None)
  }

  /** One row per event, in store order. */
  function EventRows(events: seq<Event>): (r: seq<EventRow>)
    ensures |r| == |events|
    ensures forall i :: 0 <= i < |events| ==>
      r[i].device_id == events[i].device_id && ParseEventStatus(r[i].status_event) == Some(events[i].status_event)
    ensures forall i :: 0 <= i < |events| ==> r[i] == EventRowOf(events[i])
  {
    seq(|events|, i requires 0 <= i < |events| => EventRowOf(events[i]))
  }

  function EventNameMatches(q: string): EventRow -> bool {
    (r: EventRow) => ContainsIgnoringCase(q, r.driver_name)
  }

  function EventStatusIs(status: string): EventRow -> bool {
    (r: EventRow) => EqualsIgnoringCase(r.status_event, status)
  }

  /** The `q` filter of the event table. */
  function FilterEventsByName(rows: seq<EventRow>, q: Option<string>): (r: seq<EventRow>)
    ensures !Given(q) ==> r == rows
    ensures Given(q) ==> IsSubsequence(r, rows)
    ensures Given(q) ==>
      forall x :: multiset(r)[x] == (if ContainsIgnoringCase(q.value, x.driver_name) then multiset(rows)[x] else 0)
  {
    if Given(q) then Filter(rows, EventNameMatches(q.value)) else rows
  }

  /** The `status_event` filter of the event table. */
  function FilterEventsByStatus(rows: seq<EventRow>, status_event: Option<string>): (r: seq<EventRow>)
    ensures !Given(status_event) ==> r == rows
    ensures Given(status_event) ==> IsSubsequence(r, rows)
    ensures Given(status_event) ==>
      forall x :: multiset(r)[x] == (if EqualsIgnoringCase(x.status_event, status_event.value) then multiset(rows)[x] else 0)
  {
    if Given(status_event) then Filter(rows, EventStatusIs(status_event.value)) else rows
  }

  /** `GET /dashboard/events`. */
  method EventsTable(db: Collections, q: Option<string>, status_event: Option<string>) returns (items: seq<EventRow>)
    ensures items == FilterEventsByStatus(FilterEventsByName(EventRows(db.events), q), status_event)
  {
    var rows: seq<EventRow> := [];
    var i := 0;
    while i < |db.events|
      invariant 0 <= i <= |db.events|
      invariant |rows| == i
      invariant forall k :: 0 <= k < i ==> rows[k] == EventRowOf(db.events[k])
    {
      rows := rows + [EventRowOf(db.events[i])];
      i := i + 1;
    }
    assert rows == EventRows(db.events);
    items := FilterEventsByName(rows, q);
    items := FilterEventsByStatus(items, status_event);
  }

  /** The four status names stay distinct when lower-cased. */
  lemma LowerStatusNamesDistinct(a: EventStatus, b: EventStatus)
    ensures Lower(EventStatusName(a)) == Lower(EventStatusName(b)) ==> a == b
  {
    // The four names have four different lengths, which lower-casing keeps.
    assert |Lower(EventStatusName(a))| == |EventStatusName(a)|;
    assert |Lower(EventStatusName(b))| == |EventStatusName(b)|;
  }

  /**
   * Filtering the event table by the name of one status, in any case,
   * keeps exactly the rows of events with that status.
   */
  lemma EventStatusFilterSelectsStatus(events: seq<Event>, status: string, k: EventStatus)
    requires EqualsIgnoringCase(status, EventStatusName(k))
    ensures forall x :: x in FilterEventsByStatus(EventRows(events), Some(status)) <==>
      exists j :: 0 <= j < |events| && events[j].status_event == k && x == EventRowOf(events[j])
  {
    var rows := EventRows(events);
    assert status != "" by {
      assert |Lower(status)| == |Lower(EventStatusName(k))| == |EventStatusName(k)|;
    }
    var r := FilterEventsByStatus(rows, Some(status));
    forall x ensures x in r <==> exists j :: 0 <= j < |events| && events[j].status_event == k && x == EventRowOf(events[j]) {
      assert x in r <==> multiset(r)[x] > 0;
      assert x in rows <==> multiset(rows)[x] > 0;
      EventRowsMembership(events, x, k);
    }
  }

  /** A row of the event table matches a status name iff it is the row of an event with that status. */
  lemma EventRowsMembership(events: seq<Event>, x: EventRow, k: EventStatus)
    ensures x in EventRows(events) && EqualsIgnoringCase(x.status_event, EventStatusName(k)) <==>
      exists j :: 0 <= j < |events| && events[j].status_event == k && x == EventRowOf(events[j])
  {
    var rows := EventRows(events);
    if x in rows {
      var j :| 0 <= j < |rows| && rows[j] == x;
      LowerStatusNamesDistinct(events[j].status_event, k);
    }
    if exists j :: 0 <= j < |events| && events[j].status_event == k && x == EventRowOf(events[j]) {
      var j :| 0 <= j < |events| && events[j].status_event == k && x == EventRowOf(events[j]);
      assert rows[j] == x;
    }
  }

  // --------------------------------------------------------------------- map

  datatype MapPoint = MapPoint(
    device_id: string,
    driver_name: Option<string>,
    battery: int,
    event: Option<string>,
    address: Option<string>,
    lat: Option<Float>,
    lng: Option<Float>)

  function EventDevice(e: Event): string {
    e.device_id
  }

  /** The point of one device, joined to the event kept for that device. */
  function PointOf(d: Device, latestByDevice: map<string, Event>): (r: MapPoint)
    ensures r.device_id == d.device_id && r.driver_name == d.driver_name && r.battery == d.battery
    ensures r.event.Some? <==> d.device_id in latestByDevice
    ensures r.event.Some? ==> ParseEventStatus(r.event.value) == Some(latestByDevice[d.device_id].status_event)
    ensures r.address.Some? <==> d.last_location.Some?
    ensures r.lat.Some? <==> d.last_location.Some?
    ensures r.lng.Some? <==> d.last_location.Some?
  {
    var ev := if d.device_id in latestByDevice then Some(latestByDevice[d.device_id]) else None;
    MapPoint(
      d.device_id, d.driver_name, d.battery,
      if ev.Some? then Some(EventStatusName(ev.value.status_event)) else None,
      if d.last_location.Some? then Some(d.last_location.value.address) else None,
      if d.last_location.Some? then Some(d.last_location.value.lat) else None,
      if d.last_location.Some? then Some(d.last_location.value.lng) else None)
  }

  /** One point per device, in store order. */
  function MapPointsOf(devices: seq<Device>, events: seq<Event>): (r: seq<MapPoint>)
    ensures |r| == |devices|
    ensures forall i :: 0 <= i < |devices| ==> r[i].device_id == devices[i].device_id
  {
    var latest := LastBy(events, EventDevice);
    seq(|devices|, i requires 0 <= i < |devices| => PointOf(devices[i], latest))
  }

  /** `GET /dashboard/map`. */
  method MapPoints(db: Collections) returns (items: seq<MapPoint>)
    ensures items == MapPointsOf(db.devices, db.events)
  {
    var latest := IndexLastBy(db.events, EventDevice);
    var points: seq<MapPoint> := [];
    var i := 0;
    while i < |db.devices|
      invariant 0 <= i <= |db.devices|
      invariant |points| == i
      invariant forall k :: 0 <= k < i ==> points[k] == PointOf(db.devices[k], latest)
    {
      points := points + [PointOf(db.devices[i], latest)];
      i := i + 1;
    }
    items := points;
  }

  /**
   * One point per device, in device order: its event is the status of the
   * LAST event with the same device id, or none when there is no such
   * event, and its address and coordinates are the device's last location.
   */
  lemma MapPointFacts(devices: seq<Device>, events: seq<Event>, i: int)
    requires 0 <= i < |devices|
    ensures |MapPointsOf(devices, events)| == |devices|
    ensures MapPointsOf(devices, events)[i].device_id == devices[i].device_id
    ensures MapPointsOf(devices, events)[i].driver_name == devices[i].driver_name
    ensures MapPointsOf(devices, events)[i].battery == devices[i].battery
    ensures MapPointsOf(devices, events)[i].event.None? <==>
      forall j :: 0 <= j < |events| ==> events[j].device_id != devices[i].device_id
    ensures MapPointsOf(devices, events)[i].event.Some? ==>
      exists j :: IsLastWith(events, EventDevice, devices[i].device_id, j) &&
        MapPointsOf(devices, events)[i].event.value == EventStatusName(events[j].status_event)
    ensures devices[i].last_location.Some? ==>
      var loc := devices[i].last_location.value;
      MapPointsOf(devices, events)[i].address == Some(loc.address) &&
      MapPointsOf(devices, events)[i].lat == Some(loc.lat) &&
      MapPointsOf(devices, events)[i].lng == Some(loc.lng)
    ensures devices[i].last_location.None? ==>
      MapPointsOf(devices, events)[i].address.None? &&
      MapPointsOf(devices, events)[i].lat.None? &&
      MapPointsOf(devices, events)[i].lng.None?
  {
    LastByLookup(events, EventDevice, devices[i].device_id);
  }
}
