# Smart Wearable Platform: aggregation and join layer

This project models the backend of a fleet and wearable monitoring
dashboard. The service keeps five record collections in a document store:
drivers, devices, health snapshots, sleep records and events. Its endpoints
read those collections, then filter, count, join and project them in memory.
The model covers:

- the record shapes, with their enumerated literals and field defaults, and
  the rule that names each record type's collection (`schemas.dfy`);
- the document store, which holds one sequence of records per collection.
  Creating a document appends to its collection. A query with an exact-match
  filter keeps the matching records in order (`store.dfy`);
- `POST /seed`, which fills each of the five seeded collections (drivers,
  devices, health records, sleep records, events) with two demo records when
  it is empty, never touches users, and changes nothing when it runs again
  (`seeding.dfy`);
- the dashboard endpoints (`dashboard.dfy`): the summary counts, the driver
  readiness table with its hard-coded approval rule, the event table and the
  map points;
- the device endpoints (`devices.dfy`): the listing with display numbers
  written into each row in place, the detail of one device (or 404), and a
  device's sleep history;
- the answers on a freshly seeded store (`seeded_examples.dfy`).

Shared building blocks:

- `seqs.dfy` holds list comprehensions with a condition, counting, and the
  "last one wins" dictionaries built by overwriting a key in a loop.
- `text.dfy` holds the case-insensitive substring and equality tests.

The store is a class with one field, `db`, holding every collection. Seeding
updates that field in place. The read-only endpoints take the collections
they read as a value and return their response items. Records keep the order
in which the store returned them, so the order-dependent "latest" joins
(a driver's sleep record, a device's event) are deterministic in the model.
The current time (`now`) and the current UTC date (`today`) are parameters.

## Model

| member | source | states |
|---|---|---|
| `Schemas.ParseRole` | schemas.py:22 | A role string is accepted only when it is the name of a role. |
| `Schemas.ParseDriverStatus` | schemas.py:29 | A driver status string is accepted only when it is "active" or "inactive". |
| `Schemas.SleepStageNames` | schemas.py:65 | A sleep segment type is accepted iff it is one of "light", "deep", "awake", "rem", and every stage's name is accepted as that stage. |
| `Schemas.EventStatusNames` | schemas.py:82 | An event status is accepted iff it is one of "SOS", "Fall Down", "Low Battery", "Remove Smart Wearable", and every status's name is accepted as that status. |
| `Schemas.MakeUser` | schemas.py:18-22 | A user built without a role is an admin; the other fields are the ones given. |
| `Schemas.MakeDriver` | schemas.py:25-29 | A driver built without a status is active; phone and the other fields are the ones given. |
| `Schemas.MakeDevice` | schemas.py:32-38 | A device's battery defaults to 100 and `is_online` defaults to true; the other fields are the ones given. |
| `Schemas.DeviceDefaults` | schemas.py:32-38 | A device given only its id has battery 100, is online, and has no driver and no location. |
| `Schemas.DriverAndUserDefaults` | schemas.py:22-29 | A driver given no phone and no status is active with no phone; a user given no role is an admin. |
| `Schemas.CollectionNamesDistinct` | schemas.py:4-10 | Distinct record types are stored in distinct collections. |
| `Store.Size` | main.py:54 | Counting a collection by name gives the size of the collection with that name, and 0 for a name that no collection has. |
| `Store.Insert` | main.py:57-58 | Creating a document appends exactly that record to the end of the collection of its type, and every other collection keeps its contents. |
| `Store.Store.constructor` | main.py:9 | A new store has every collection empty. |
| `Store.Store.CreateDocument` | main.py:57 | `create_document` appends the record to its collection and changes nothing else. |
| `Store.Store.CountDocuments` | main.py:54 | `len(get_documents(name))` is the size of the named collection. |
| `Store.QuerySleep` | main.py:136 | A sleep query returns an order-preserving subsequence holding every record whose given fields match, each as many times as it is stored, and nothing else. With no filter it returns the whole collection. |
| `Store.QueryEvents` | main.py:259 | An event query by device id returns, in order, every event of that device, each as many times as it is stored, and nothing else. |
| `Store.QuerySleepIsFilter` | main.py:268 | A bridge: a sleep query is the exact-match `Filter` of its fields, so the counting lemmas about `Filter` apply to it. Its meaning comes from the contracts of `QuerySleep` and `Filter`. |
| `Seeding.ToCollection` | main.py:45-46 | Each character of the collection name is the lower-cased character of the given name at the same position, so the result has no upper-case letter and an already lower-case name is kept as is. |
| `Seeding.TypeNameLowers` | schemas.py:4-10 | Each record type's name, lower-cased, is its collection name (Driver to "driver", HealthRecord to "healthrecord", and so on). |
| `Seeding.CollectionNamesFromTypeNames` | main.py:45-46 | `to_collection` maps each type name to its collection name, and leaves a collection name unchanged. |
| `Seeding.SeedDrivers` | main.py:55-56 | The two demo drivers have distinct employee ids, a phone, and the default status "active". |
| `Seeding.SeedDevices` | main.py:61-64 | The two demo devices have distinct ids, a driver name and a location, and no driver id; the first is online and the second offline. |
| `Seeding.SeedHealth` | main.py:71-80 | The two demo snapshots are taken at `now`. Snapshot i is on demo device i, and its driver is the one named on that device. |
| `Seeding.SeedSleep` | main.py:86-102 | The two demo sleep records are dated `today` and belong to the driver and device of health snapshot i. Their segments follow each other without gaps, each starts before it ends, and all end before `now`. |
| `Seeding.SeedEvents` | main.py:108-111 | The two demo events happen at `now`; event i is on demo device i and is located where that device is. |
| `Seeding.Seeded` | main.py:54-113 | After seeding, each of the five seeded collections that was empty holds exactly its demo records, one that was non-empty keeps its contents, and users are unchanged. |
| `Seeding.SeededSizes` | main.py:54-113 | Seeding fills each empty seeded collection with exactly two records, keeps the size of each non-empty collection, and never changes the number of users. |
| `Seeding.SeedIdempotent` | main.py:54-113 | Seeding a second time, at any time and date, leaves the collections as the first seeding left them. |
| `Seeding.SizeByName` | main.py:54 | Counting `to_collection(name)` counts the records of the type with that collection name. |
| `Seeding.CountCollection` | main.py:54 | The guard `len(get_documents(to_collection(name)))` reads the size of that type's collection. |
| `Seeding.Seed` | main.py:50-115 | `POST /seed` leaves the store in the seeded state of the old collections and answers "ok". |
| `Seeding.SeedDriversIfEmpty` | main.py:54-58 | Fills the drivers with the two demo drivers, in order, only when there are none. |
| `Seeding.SeedDevicesIfEmpty` | main.py:60-66 | Fills the devices with the two demo devices only when there are none. |
| `Seeding.SeedHealthIfEmpty` | main.py:70-82 | Fills the health records with the two demo snapshots only when there are none. |
| `Seeding.SeedSleepIfEmpty` | main.py:85-104 | Fills the sleep records with the two demo nights of `today` only when there are none. |
| `Seeding.SeedEventsIfEmpty` | main.py:107-113 | Fills the events with the two demo events only when there are none. |
| `Seqs.Filter` | main.py:139-143 | A comprehension with a condition keeps an order-preserving subsequence of its input. Every kept element meets the condition, and each one that does is kept as many times as it occurs. |
| `Seqs.LastBy` | main.py:168-169 | The last-wins dictionary has a key for every element, and each key maps to an element of the sequence carrying that key. |
| `Text.Lower` | main.py:186 | ASCII lower-casing (`str.lower()` on ASCII text): keeps the length and lower-cases each ASCII letter in place. |
| `Text.Contains` | main.py:186 | The substring test `p in s` fails when `p` is longer than `s` and always holds for the empty `p`; `Text.ContainsAt` shows it holds iff `p` occurs at some offset of `s`. |
| `Text.ContainsAt` | main.py:244 | `p in s` holds iff `p` occurs as a contiguous block of `s` at some offset. |
| `Seqs.IndexLastBy` | main.py:167-169 | The loop that overwrites `m[key(x)] = x` builds the last-wins dictionary of the sequence. |
| `Seqs.LastByLookup` | main.py:218-220 | A key is absent from the last-wins dictionary iff no element has it; when present, it maps to the element at the last position with that key. |
| `Dashboard.DashboardSummary` | main.py:126-151 | Each count is the number of positions that meet its rule. High blood pressure counts health records above either threshold. The two sleep counts cover only records dated `today`. Online and offline devices add up to the number of devices. |
| `Dashboard.HighBpCount` | main.py:139 | The high blood pressure list has one entry per health record whose systolic or diastolic value exceeds its threshold. |
| `Dashboard.LowScoreTodayCount` | main.py:136-140 | The low-score count is the number of sleep records dated `today` with a score below the threshold. |
| `Dashboard.ShortSleepTodayCount` | main.py:136-141 | The short-sleep count is the number of sleep records dated `today` with a duration below the threshold, independently of the score count. |
| `Dashboard.DeviceCounts` | main.py:142-150 | The online and offline lists split the devices: each device is in exactly one, and the two counts add up to the number of devices. |
| `Dashboard.ReadinessOk` | main.py:172-173 | A driver with no sleep record, or with a score of at least 60, is approved iff systolic < 140 and diastolic < 90. A score below 60 is never approved. |
| `Dashboard.ReadinessRowOf` | main.py:172-182 | A row has a sleep score iff its driver has a sleep record, and then it is that record's score. Its status is "approved" or "not approved", and it is "approved" iff the pressures it shows are below 140/90 and the score it shows, if any, is at least 60. |
| `Dashboard.ReadinessRows` | main.py:171-183 | There is one row per health record, in order, carrying that record's driver name, device id and timestamp. |
| `Dashboard.FilterReadinessByName` | main.py:185-186 | With a non-empty `q`, the rows kept are an order-preserving subsequence holding exactly the rows whose driver name contains `q`, ignoring case. An absent or empty `q` keeps every row. |
| `Dashboard.FilterReadinessByStatus` | main.py:187-188 | With a non-empty `status`, the rows kept are an order-preserving subsequence holding exactly the rows whose status equals `status`, ignoring case. An absent or empty `status` keeps every row. |
| `Dashboard.DriverReadiness` | main.py:163-190 | The readiness endpoint builds one row per health record through the last-wins sleep dictionary, then applies the `q` filter and then the `status` filter. |
| `Dashboard.ReadinessRowFacts` | main.py:167-183 | Row i comes from health record i. Its sleep score is that of the last sleep record of the same driver, or none if the driver has none. It is "approved" iff systolic < 140, diastolic < 90 and that score is at least 60. |
| `Dashboard.NoSleepRecordNormalBpApproved` | main.py:172-173 | A driver with no sleep record and blood pressure below 140/90 is approved, because the missing score counts as 100. |
| `Dashboard.ApprovedIsNotHighBp` | main.py:139 | An approved driver is never high blood pressure under the summary's default thresholds. A systolic of exactly 140 with a diastolic below 90 is neither approved nor high blood pressure. |
| `Dashboard.EventRowOf` | main.py:198-204 | An event row keeps the event's time, driver and device. Its status text parses back to the event's status, and its address is the address of the event's location, or absent exactly when the event has no location. |
| `Dashboard.EventRows` | main.py:197-204 | There is one event row per event, in order: row i is the projection of event i, so it has that event's time, driver name, device, status and location address. |
| `Dashboard.FilterEventsByName` | main.py:205-206 | With a non-empty `q`, exactly the event rows whose driver name contains `q` (ignoring case) are kept, in order. Otherwise every row is kept. |
| `Dashboard.FilterEventsByStatus` | main.py:207-208 | With a non-empty `status_event`, exactly the event rows whose status equals it (ignoring case) are kept, in order. Otherwise every row is kept. |
| `Dashboard.EventsTable` | main.py:193-209 | The event endpoint projects each event to a row and applies the `q` filter, then the `status_event` filter. |
| `Dashboard.LowerStatusNamesDistinct` | schemas.py:82 | The four event status names stay distinct when lower-cased. |
| `Dashboard.EventRowsMembership` | main.py:197-208 | An event-table row matches a status name, in any case, iff it is the row of an event with that status. |
| `Dashboard.EventStatusFilterSelectsStatus` | main.py:207-208 | Filtering the event table by a status name, in any case, keeps exactly the rows of the events with that status. |
| `Dashboard.PointOf` | main.py:224-235 | A point keeps the device's id, driver name and battery. It has an event iff the device id has an entry in the latest-event dictionary, and then that event's status. Address, lat and lng are present exactly when the device has a location. |
| `Dashboard.MapPointsOf` | main.py:222-235 | There is one point per device, in device order, with the device's id. |
| `Dashboard.MapPoints` | main.py:212-236 | The map endpoint builds one point per device, in device order, through the last-wins event dictionary. |
| `Dashboard.MapPointFacts` | main.py:218-235 | Point i belongs to device i. Its event is the status of the last event with that device id, or null when no event has it. Address, lat and lng come from the device's last location, and are null when the device has none. |
| `Devices.SearchText` | main.py:244 | The text searched by the listing's `q` is the device id, one space, then the driver name, which is empty when the device has none. |
| `Devices.FilterDevices` | main.py:243-244 | With a non-empty `q`, the listing keeps, in order, exactly the devices whose "device_id driver_name" contains `q`, ignoring case; otherwise every device. |
| `Devices.NumberInPlace` | main.py:246-247 | After numbering, row k (from 0) has `no = k + 1` and is otherwise unchanged. |
| `Devices.DevicesList` | main.py:240-248 | The listing has one row per matching device, in order; row k is that device numbered k + 1. |
| `Devices.DeviceDetailOf` | main.py:250-260 | Fails with 404 "Device not found" iff no device has the id. Otherwise it returns the first such device and the first health record of that device, or none exactly when there is none. It also returns all of the device's sleep records and events, in order, each as many times as it is stored. |
| `Devices.DeviceSleep` | main.py:263-269 | Returns, in order, every one of the device's sleep records, each as many times as it is stored, limited to the given date when a non-empty date is given. |
| `SeededExamples.SeededFromEmpty` | main.py:54-113 | Seeding an empty store leaves exactly two records in each seeded collection. |
| `SeededExamples.SeededSummary` | main.py:139-150 | On the seeded data with default thresholds, every summary count is 1. |
| `SeededExamples.SeededReadiness` | main.py:171-183 | On the seeded data, Budi Santoso (145/95) is "not approved", and Siti Aminah (118/78, score 82) is "approved". |
| `SeededExamples.SeededReadinessSearch` | main.py:185-186 | Searching the seeded readiness table for "budi" keeps exactly Budi Santoso's row. |
| `SeededExamples.SeededMapPoints` | main.py:218-235 | Each seeded device's point shows its own event's status and its own location. |

## Left out

- The web framework: app construction, CORS middleware, route decorators,
  the root message and the server bootstrap (main.py:12-24, main.py:313-316).
- `login` (main.py:36-41): the name is the email's local part passed through
  Python's Unicode-aware `str.title()`, and the rest is a constant response.
- `device_ecg` (main.py:272-278): its samples come from `math.sin` on floats
  truncated to int, and it reads the wall clock.
- `test_database` (main.py:282-311): environment-variable probes and
  exception-to-string handling.
- The `database` module is not part of this model. The store is modelled as
  one sequence per collection, and every read returns it in creation order.
  The real store promises no order. Store failures are not modelled.
- `health_by_device` in `map_points` (main.py:217, main.py:225) is computed
  and never used in the response, so it is omitted.
- `datetime.utcnow()` and its `strftime("%Y-%m-%d")` are parameters (`now`
  as whole seconds, `today` as the date string). The `timedelta` offsets of
  the seeded sleep segments are written as seconds subtracted from `now`.
- Float fields (`temperature`, `kilometers`, `lat`, `lng`) are carried as
  opaque reals with no arithmetic.
- Records are the typed schema records, so every field the schema requires
  is present. The `.get(field, 0)` and `.get("score", 100)` fallbacks only
  matter when a required field is missing, and the model keeps only the
  `score` one (a missing sleep record).
- `Device.last_location` and `Event.location` (schemas.py:38, schemas.py:83)
  are arbitrary dictionaries in the source. The model gives both the
  `{lat, lng, address}` shape their comments describe. So a location present
  without an `"address"` key cannot be expressed. In the source it shows as a
  null address in the event table (main.py:203) and on the map
  (main.py:232-234).
- `ToCollection`: lower-cases ASCII letters only, whereas Python's
  `str.lower()` follows Unicode case rules; the same holds for the
  case-insensitive filters (`ContainsIgnoringCase`, `EqualsIgnoringCase`).
- `Text.Lower`: lower-cases ASCII letters only and keeps the length. Python's
  `str.lower()` follows Unicode case rules and can change the length (`'İ'`
  lower-cases to two code points).
- Writing `no` into each listed device changes only the response rows in
  the model. Whether the store's own documents are aliased by that write
  depends on the `database` module, which is not part of this model.
- `ECGSample` (schemas.py:56-59) is declared as a record shape only; no
  endpoint stores or reads it.
