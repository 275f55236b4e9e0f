/**
 * The record shapes of the wearable-monitoring platform: one datatype per
 * collection, the enumerated string literals its fields may take, the
 * defaults of its optional fields, and the collection each record type is
 * stored in.
 */
module Schemas {
  import opened Wrappers

  /** A floating-point value, carried as is: the model does no arithmetic on it. */
  type Float = real

  /** A point in time, in whole seconds (UTC). */
  type Timestamp = int

  /** Role of a dashboard user. */
  datatype Role = Admin | Dispatcher | DriverRole

  function RoleName(r: Role): string {
    match r
    case Admin => "admin"
    case Dispatcher => "dispatcher"
    case DriverRole => "driver"
  }

  /** Validation of the `role` literal: only the three role names are accepted. */
  function ParseRole(s: string): (r: Option<Role>)
    ensures r.Some? ==> RoleName(r.value) == s
  {
    if s == "admin" then Some(Admin)
    else if s == "dispatcher" then Some(Dispatcher)
    else if s == "driver" then Some(DriverRole)
    else None
  }

  lemma RoleNamesParse(r: Role)
    ensures ParseRole(RoleName(r)) == Some(r)
  {
  }

  /** Employment status of a driver. */
  datatype DriverStatus = Active | Inactive

  function DriverStatusName(s: DriverStatus): string {
    match s
    case Active => "active"
    case Inactive => "inactive"
  }

  function ParseDriverStatus(s: string): (r: Option<DriverStatus>)
    ensures r.Some? ==> DriverStatusName(r.value) == s
  {
    if s == "active" then Some(Active)
    else if s == "inactive" then Some(Inactive)
    else None
  }

  lemma DriverStatusNamesParse(s: DriverStatus)
    ensures ParseDriverStatus(DriverStatusName(s)) == Some(s)
  {
  }

  /** Stage of one sleep segment. */
  datatype SleepStage = Light | Deep | Awake | Rem

  function SleepStageName(t: SleepStage): string {
    match t
    case Light => "light"
    case Deep => "deep"
    case Awake => "awake"
    case Rem => "rem"
  }

  function ParseSleepStage(s: string): (r: Option<SleepStage>)
    ensures r.Some? ==> SleepStageName(r.value) == s
  {
    if s == "light" then Some(Light)
    else if s == "deep" then Some(Deep)
    else if s == "awake" then Some(Awake)
    else if s == "rem" then Some(Rem)
    else None
  }

  /** A segment type is one of exactly four names, and every one of them is accepted. */
  lemma SleepStageNames(s: string)
    ensures ParseSleepStage(s).Some? <==> s in ["light", "deep", "awake", "rem"]
    ensures forall t :: ParseSleepStage(SleepStageName(t)) == Some(t)
  {
  }

  /** Kind of a device event. */
  datatype EventStatus = Sos | FallDown | LowBattery | RemoveSmartWearable

  function EventStatusName(e: EventStatus): string {
    match e
    case Sos => "SOS"
    case FallDown => "Fall Down"
    case LowBattery => "Low Battery"
    case RemoveSmartWearable => "Remove Smart Wearable"
  }

  function ParseEventStatus(s: string): (r: Option<EventStatus>)
    ensures r.Some? ==> EventStatusName(r.value) == s
  {
    if s == "SOS" then Some(Sos)
    else if s == "Fall Down" then Some(FallDown)
    else if s == "Low Battery" then Some(LowBattery)
    else if s == "Remove Smart Wearable" then Some(RemoveSmartWearable)
    else None
  }

  /** An event status is one of exactly four names, and every one of them is accepted. */
  lemma EventStatusNames(s: string)
    ensures ParseEventStatus(s).Some? <==> s in ["SOS", "Fall Down", "Low Battery", "Remove Smart Wearable"]
    ensures forall e :: ParseEventStatus(EventStatusName(e)) == Some(e)
  {
  }

  /** The `{lat, lng, address}` dictionary of a location. */
  datatype Location = Location(lat: Float, lng: Float, address: string)

  datatype User = User(email: string, password_hash: string, name: string, role: Role)

  datatype Driver = Driver(name: string, employee_id: string, phone: Option<string>, status: DriverStatus)

  datatype Device = Device(
    device_id: string,
    driver_id: Option<string>,
    driver_name: Option<string>,
    battery: int,
    is_online: bool,
    last_location: Option<Location>)

  datatype HealthRecord = HealthRecord(
    driver_id: string,
    driver_name: string,
    device_id: string,
    timestamp: Timestamp,
    heart_rate: int,
    bp_systolic: int,
    bp_diastolic: int,
    temperature: Float,
    calories: int,
    steps: int,
    duration_minutes: int,
    kilometers: Float)

  datatype ECGSample = ECGSample(device_id: string, timestamp: Timestamp, samples: seq<int>)

  datatype SleepSegment = SleepSegment(start: Timestamp, end: Timestamp, stage: SleepStage)

  datatype SleepRecord = SleepRecord(
    driver_id: string,
    driver_name: string,
    device_id: string,
    date: string,
    score: int,
    duration_minutes: int,
    segments: seq<SleepSegment>)

  datatype Event = Event(
    driver_id: string,
    driver_name: string,
    device_id: string,
    timestamp: Timestamp,
    status_event: EventStatus,
    location: Option<Location>)

  /** Field defaults of the record types. */
  const DefaultRole: Role := Admin
  const DefaultDriverStatus: DriverStatus := Active
  const DefaultBattery: int := 100
  const DefaultIsOnline: bool := true

  /**
   * Building a record from keyword arguments: an argument passed as `None`
   * is one the caller left out, and the field takes its default.
   */
  function MakeUser(email: string, password_hash: string, name: string, role: Option<Role>): (u: User)
    ensures u.role == role.GetOr(Admin)
    ensures u.email == email && u.password_hash == password_hash && u.name == name
  {
    User(email, password_hash, name, role.GetOr(DefaultRole))
  }

  function MakeDriver(name: string, employee_id: string, phone: Option<string>, status: Option<DriverStatus>): (d: Driver)
    ensures d.status == status.GetOr(Active) && d.phone == phone
    ensures d.name == name && d.employee_id == employee_id
  {
    Driver(name, employee_id, phone, status.GetOr(DefaultDriverStatus))
  }

  function MakeDevice(
    device_id: string,
    driver_id: Option<string>,
    driver_name: Option<string>,
    battery: Option<int>,
    is_online: Option<bool>,
    last_location: Option<Location>): (d: Device)
    ensures d.device_id == device_id && d.driver_id == driver_id && d.driver_name == driver_name
    ensures d.battery == battery.GetOr(100) && d.is_online == is_online.GetOr(true)
    ensures d.last_location == last_location
  {
    Device(device_id, driver_id, driver_name, battery.GetOr(DefaultBattery), is_online.GetOr(DefaultIsOnline), last_location)
  }

  /** A device given only its id has full battery, is online, and has no driver or location. */
  lemma DeviceDefaults(device_id: string)
    ensures MakeDevice(device_id, None, None, None, None, None) == Device(device_id, None, None, 100, true, None)
  {
  }

  /** A driver given no status is active; a user given no role is an admin. */
  lemma DriverAndUserDefaults(name: string, employee_id: string, email: string, hash: string)
    ensures MakeDriver(name, employee_id, None, None) == Driver(name, employee_id, None, Active)
    ensures MakeUser(email, hash, name, None).role == Admin
  {
  }

  /** The record types that are stored, one collection each. */
  datatype Kind = UserKind | DriverKind | DeviceKind | HealthRecordKind | SleepRecordKind | EventKind

  /** The name of the record type. */
  function TypeName(k: Kind): string {
    match k
    case UserKind => "User"
    case DriverKind => "Driver"
    case DeviceKind => "Device"
    case HealthRecordKind => "HealthRecord"
    case SleepRecordKind => "SleepRecord"
    case EventKind => "Event"
  }

  /** The name of the collection holding records of that type. */
  function CollectionName(k: Kind): string {
    match k
    case UserKind => "user"
    case DriverKind => "driver"
    case DeviceKind => "device"
    case HealthRecordKind => "healthrecord"
    case SleepRecordKind => "sleeprecord"
    case EventKind => "event"
  }

  /** Distinct record types are stored in distinct collections. */
  lemma CollectionNamesDistinct(a: Kind, b: Kind)
    ensures CollectionName(a) == CollectionName(b) ==> a == b
  {
  }
}
