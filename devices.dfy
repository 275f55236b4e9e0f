/**
 * The device endpoints: the device listing with its display numbers, the
 * detail of one device and its sleep history.
 */
module Devices {
  import opened Wrappers
  import opened Text
  import opened Seqs
  import opened Schemas
  import opened Store

  // ---------------------------------------------------------------- listing

  /** A listed device: the device document and the `no` key written into it. */
  datatype DeviceItem = DeviceItem(device: Device, no: Option<nat>)

  /** The text the `q` parameter is searched in: the id, a space and the driver's name. */
  function SearchText(d: Device): (r: string)
    ensures |r| == |d.device_id| + 1 + |d.driver_name.GetOr("")|
    ensures r[..|d.device_id|] == d.device_id && r[|d.device_id|] == ' '
    ensures r[|d.device_id| + 1..] == d.driver_name.GetOr("")
    ensures d.driver_name.None? ==> r == d.device_id + " "
  {
    d.device_id + " " + d.driver_name.GetOr("")
  }

  function DeviceMatches(q: string): Device -> bool {
    (d: Device) => ContainsIgnoringCase(q, SearchText(d))
  }

  /** The `q` filter of the listing. */
  function FilterDevices(devices: seq<Device>, q: Option<string>): (r: seq<Device>)
    ensures !Given(q) ==> r == devices
    ensures Given(q) ==> IsSubsequence(r, devices)
    ensures Given(q) ==>
      forall d :: multiset(r)[d] == (if ContainsIgnoringCase(q.value, SearchText(d)) then multiset(devices)[d] else 0)
  {
    if Given(q) then Filter(devices, DeviceMatches(q.value)) else devices
  }


  /** `for i, d in enumerate(devices, start=1): d["no"] = i`, in place. */
  method NumberInPlace(a: array<DeviceItem>)
    modifies a
    ensures forall k :: 0 <= k < a.Length ==> a[k] == old(a[k]).(no := Some(k + 1))
  {
    var i := 0;
    while i < a.Length
      invariant 0 <= i <= a.Length
      invariant forall k :: 0 <= k < i ==> a[k] == old(a[k]).(no := Some(k + 1))
      invariant forall k :: i <= k < a.Length ==> a[k] == old(a[k])
    {
      a[i] := a[i].(no := Some(i + 1));
      i := i + 1;
    }
  }

  /**
   * `GET /devices`: the matching devices in store order, row `k` (from 0)
   * numbered `k + 1` and otherwise unchanged.
   */
  method DevicesList(db: Collections, q: Option<string>) returns (items: seq<DeviceItem>)
    ensures |items| == |FilterDevices(db.devices, q)|
    ensures forall k :: 0 <= k < |items| ==> items[k] == DeviceItem(FilterDevices(db.devices, q)[k], Some(k + 1))
  {
    var devices := FilterDevices(db.devices, q);
    var a := new DeviceItem[|devices|](k requires 0 <= k < |devices| => DeviceItem(devices[k], None));
    NumberInPlace(a);
    items := a[..];
  }

  // ----------------------------------------------------------------- detail

  /** An HTTP error raised by an endpoint. */
  datatype HttpError = HttpError(status_code: int, detail: string)

  const DeviceNotFound := HttpError(404, "Device not found")

  /** The device, its first health record if any, and all its sleep records and events. */
  datatype DeviceDetail = DeviceDetail(
    device: Device,
    health: Option<HealthRecord>,
    sleep: seq<SleepRecord>,
    events: seq<Event>)

  /** `GET /devices/{device_id}`. */
  function DeviceDetailOf(db: Collections, device_id: string): (r: Result<DeviceDetail, HttpError>)
    ensures r.Failure? <==> forall i :: 0 <= i < |db.devices| ==> db.devices[i].device_id != device_id
    ensures r.Failure? ==> r.error == DeviceNotFound
    ensures r.Success? ==> r.value.device.device_id == device_id
    ensures r.Success? ==> exists i :: IsFirstWhere(db.devices, DeviceIdIs(device_id), i) && r.value.device == db.devices[i]
    ensures r.Success? ==>
      (r.value.health.None? <==> forall i :: 0 <= i < |db.health| ==> db.health[i].device_id != device_id)
    ensures r.Success? && r.value.health.Some? ==>
      exists i :: IsFirstWhere(db.health, HealthDeviceIs(device_id), i) && r.value.health.value == db.health[i]
    ensures r.Success? ==> IsSubsequence(r.value.sleep, db.sleep)
    ensures r.Success? ==> forall s :: s in r.value.sleep <==> s in db.sleep && s.device_id == device_id
    ensures r.Success? ==>
      forall s :: multiset(r.value.sleep)[s] == (if s.device_id == device_id then multiset(db.sleep)[s] else 0)
    ensures r.Success? ==> IsSubsequence(r.value.events, db.events)
    ensures r.Success? ==> forall e :: e in r.value.events <==> e in db.events && e.device_id == device_id
    ensures r.Success? ==>
      forall e :: multiset(r.value.events)[e] == (if e.device_id == device_id then multiset(db.events)[e] else 0)
  {
    var devices := Filter(db.devices, DeviceIdIs(device_id));
    FilterEmpty(db.devices, DeviceIdIs(device_id));
    if devices == [] then
      Failure(DeviceNotFound)
    else
      FilterFirst(db.devices, DeviceIdIs(device_id));
      var health := Filter(db.health, HealthDeviceIs(device_id));
      FilterEmpty(db.health, HealthDeviceIs(device_id));
      Success(DeviceDetail(
        devices[0],
        if health == [] then None else FilterFirst(db.health, HealthDeviceIs(device_id)); Some(health[0]),
        DeviceSleep(db, device_id, None),
        QueryEvents(db.events, device_id)))
  }

  /** `GET /devices/{device_id}/sleep`: the device's sleep records, of one date when a date is given. */
  function DeviceSleep(db: Collections, device_id: string, date: Option<string>): (r: seq<SleepRecord>)
    ensures IsSubsequence(r, db.sleep)
    ensures forall s :: s in r <==> s in db.sleep && s.device_id == device_id && (Given(date) ==> s.date == date.value)
    ensures forall s :: multiset(r)[s] ==
                      (if s.device_id == device_id && (Given(date) ==> s.date == date.value) then multiset(db.sleep)[s] else 0)
  {
    QuerySleep(db.sleep, Some(device_id), if Given(date) then date else None)
  }
}
