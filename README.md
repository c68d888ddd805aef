# Device map dashboard — a Dafny model

This project models the core of a small monitoring dashboard for network devices
(routers, sensors and cameras) spread over thirteen Mexican cities. It covers:

- The shared record shapes (`Schema`): users, cities and devices, their insert drafts, the
  closed device type and status enumerations, and the two read views the API returns.
  These are a city with live per-status device counts and a device with its city's name.
- The in-memory record store (`Storage.MemStorage`): a class whose fields are three id-keyed
  tables and three id counters. Each JavaScript `Map` is modelled as a Dafny `map` plus the
  sequence of its keys in insertion order. `Valid()` states the store's invariant:
  - ids are handed out by counters that start at 1 and only increase;
  - nothing is deleted, so the insertion order is the ascending order of the ids;
  - every key is below its counter;
  - every record's id is its key.
  Read operations are functions of the store. They are specified by the view functions
  `CityView`, `DeviceView` and `CityDeviceViews`, which are stated over the sequence of
  stored devices.
- The page's filter state (`MapPage`): three boolean membership maps, by city id, device
  type and device status. It includes the handlers that update them, the reset, and the
  one-time back-fill that selects every city once the city list has loaded. A key missing
  from a map reads as JavaScript `undefined`, which is falsy, so it does not pass.
- The info card (`InfoCard`) and the map panel (`MapContainer`):
  - which devices and cities pass the filters;
  - the per-status counts;
  - the three-device preview and its "show all" button;
  - where the card opens;
  - when the card is open.
- The display helpers (`MapData`, and the card's own helpers): relative time in minutes,
  hours and days, and the icon, colour and label of a type or status. Every one is total:
  a string outside the enumerations gets a neutral default.

Supporting modules are:

- `Options`: an optional value;
- `Lists`: `Array.prototype.filter`, `map`, `find` and `slice`, with their lemmas;
- `Text`: the decimal rendering of an integer by a template literal, with its parser and
  round-trip lemmas.

Where the code and its design description disagree, the model follows the code:

- `getDevicesByCity` returns an empty list for a city id that does not exist. It does not
  return an absence. `Storage.MemStorage.GetDevicesByCity` states this: the result is
  empty exactly when no device has that city id.
- The card's device filter looks at type and status only, never at the city map
  (`InfoCard.FilteredDevicesIgnoreCities`).
- `initializeCities` writes each seed city straight into the map with the next id. The
  model performs the same steps through `CreateCity`, which has the same effect.

Stored device `type` and `status` are text columns, and `updateDeviceStatus` stores any
string it is given. The model therefore keeps them as strings. The enumerations are
datatypes with a parser, and `Schema.ConformsToViewSchema` states when a view satisfies
the view schema.

Timestamps are integers counting milliseconds. The current time is a parameter
(`now`, or the difference `diffMs`).

## Model

| member | source | states |
|---|---|---|
| Schema.ParseType | shared/schema.ts:23-27 | exactly the three type names are accepted, and an accepted string is the name of the type returned |
| Schema.ParseStatus | shared/schema.ts:32-36 | exactly the three status names are accepted, and an accepted string is the name of the status returned |
| Schema.TypeNameRoundTrip | shared/schema.ts:23-27 | every type's name parses back to that type |
| Schema.StatusNameRoundTrip | shared/schema.ts:32-36 | every status's name parses back to that status |
| Schema.UserWithId | shared/schema.ts:92-99 | the stored user is the draft's fields plus the given id and nothing else (dropping the id gives the draft back) |
| Schema.CityWithId | shared/schema.ts:52-55 | the stored city is the draft plus the given id, and dropping the id gives the draft back |
| Schema.DeviceWithId | shared/schema.ts:57-60 | the stored device is the draft plus the given id, and dropping the id gives the draft back |
| Storage.CityNameOrUnknown | server/storage.ts:118-121 | the city name is never empty: it is the city's own name when the city exists and its name is non-empty, otherwise "Unknown City" |
| Storage.DeviceView | server/storage.ts:117-125 | the view copies every stored field and adds the city name. It satisfies the view schema whenever the stored type and status are enumeration values |
| Storage.CityStatusCount | server/storage.ts:71-76 | counting one status among the devices of a city equals counting the devices with both that city and that status |
| Storage.CityCountsComplete | server/storage.ts:74-83 | the three status counts of a city add up to its device count exactly when every device of that city has one of the three statuses |
| Storage.CityView | server/storage.ts:70-84 | the city view keeps the city's fields. Its device count is the live number of devices with that city id. Each status count is the number of those devices with that status. The counts sum to at most the device count, with equality exactly when all statuses are known |
| Storage.AllDeviceViews | server/storage.ts:116-127 | one view per device, in order: each entry is the full view of that device (every stored field copied) named after its own city, or "Unknown City" |
| Storage.CityDeviceViews | server/storage.ts:129-142 | one view per device of the city, in order: each entry is the full view of that device (every stored field copied) named after the looked-up city. The list is empty exactly when no device has that city id, and all entries are named "Unknown City" when the id is not a city |
| Storage.CityDevicesAreFilteredListing | server/storage.ts:129-142 | the per-city listing is the full device listing filtered to that city, in the same order |
| Storage.WithStatus | server/storage.ts:170 | the updated device has the new status and timestamp, and every other field unchanged |
| Storage.AppendKeepsDeviceIdsUnique | shared/schema.ts:44 | adding a device keeps device codes unique exactly when they were unique and the new code is not among them |
| Storage.MemStorage.constructor | server/storage.ts:37-48 | a valid store with no users and no devices. It holds the thirteen seed cities with ids 1 to 13 in seed order, and the city counter is at 14 |
| Storage.MemStorage.InitializeCities | server/storage.ts:176-197 | appends the thirteen seed cities with consecutive ids from the counter, in order, and keeps the store valid |
| Storage.MemStorage.CreateCities | server/storage.ts:193-196 | creating a list of drafts one by one appends them with consecutive ids from the counter, in order, and keeps the store valid |
| Storage.MemStorage.CreateUser | server/storage.ts:61-66 | the new user gets the counter's id, which is fresh and above every existing id. It is added at the end of the listing, the counter moves on by one, and the store stays valid |
| Storage.MemStorage.GetUser | server/storage.ts:51-53 | absent exactly when no user has the id; otherwise the user stored under it |
| Storage.MemStorage.GetUserByUsername | server/storage.ts:55-59 | absent exactly when no user has the name; otherwise the earliest-created user with that name |
| Storage.MemStorage.CreateCity | server/storage.ts:108-113 | the new city gets the counter's id, which is fresh and above every existing id. It is added at the end of the listing, the counter moves on by one, and the store stays valid |
| Storage.MemStorage.GetAllCities | server/storage.ts:69-86 | one view per stored city and no other, in ascending id order, each being the city view over the current devices |
| Storage.MemStorage.GetCityById | server/storage.ts:88-106 | absent exactly when the id is not a city; otherwise the city view, which is also the entry the full listing holds |
| Storage.MemStorage.CreateDevice | server/storage.ts:159-164 | the new device gets the counter's id, which is fresh and above every existing id. It is added at the end of the listing, the counter moves on by one, and its city is not checked |
| Storage.MemStorage.GetAllDevices | server/storage.ts:116-127 | one view per stored device and no other, in ascending id order, each named after its own city |
| Storage.MemStorage.GetDevicesByCity | server/storage.ts:129-142 | the full device listing filtered to the city, in order. It is empty exactly when no device has that city id, never absent. All entries are named "Unknown City" when the id is not a city |
| Storage.MemStorage.GetDeviceById | server/storage.ts:144-157 | absent exactly when the id is not a device; otherwise its view, which is also the entry the full listing holds |
| Storage.MemStorage.UpdateDeviceStatus | server/storage.ts:166-173 | an unknown id gives absence and changes nothing. A known id replaces that device alone with the given status, whatever string it is, and the timestamp `now`, and returns the updated device |
| MapData.Minutes | client/src/lib/mapData.ts:6-7 | the whole minutes are the floor of the milliseconds divided by 60000 |
| MapData.FormatTimeDifferenceBuckets | client/src/lib/mapData.ts:4-20 | under a minute gives "justo ahora"; then whole minutes below an hour, whole hours below a day, and whole days otherwise. The buckets are disjoint and cover every difference, and the number before the unit reads back as that count |
| MapData.TypeIcon | client/src/lib/mapData.ts:23-34 | "devices" exactly for a string outside the type enumeration; otherwise one of the three type icons |
| MapData.StatusColor | client/src/lib/mapData.ts:37-48 | the neutral grey exactly for a string outside the status enumeration |
| MapData.StatusText | client/src/lib/mapData.ts:51-62 | "Desconocido" exactly for a string outside the status enumeration |
| MapData.TypeIconInjective | client/src/lib/mapData.ts:23-34 | two types share an icon only if they are the same type |
| MapData.StatusDisplayInjective | client/src/lib/mapData.ts:37-62 | two statuses share a colour, or a label, only if they are the same status |
| MapPage.AllSelected | client/src/pages/MapPage.tsx:68 | the city map built from a list has exactly the listed ids as keys, all true |
| MapPage.UpdateCityFilter | client/src/pages/MapPage.tsx:35-43 | the city's entry becomes the given value and every other entry, as well as the type and status maps, stays as it was |
| MapPage.UpdateDeviceTypeFilter | client/src/pages/MapPage.tsx:45-53 | the type's entry becomes the given value; every other type, the city map and the status map stay as they were |
| MapPage.UpdateStatusFilter | client/src/pages/MapPage.tsx:55-63 | the status's entry becomes the given value; every other status, the city map and the type map stay as they were |
| MapPage.ResetFilters | client/src/pages/MapPage.tsx:66-80 | every loaded city is selected and no other key is present (none before loading); all types are on, online and warning are on, offline is off |
| MapPage.BackFill | client/src/pages/MapPage.tsx:89-94 | when the cities have loaded (an empty list included) and the city map has no key, the city map becomes every loaded id set to true and nothing else; otherwise nothing changes. The type and status maps never change |
| MapPage.EmptyListBackFillRefires | client/src/pages/MapPage.tsx:89-94 | with an empty loaded list and an empty city map, the back-fill condition still holds after any number of renders |
| MapPage.GuardedBackFill | client/src/pages/MapPage.tsx:89-94 | the back-fill guarded by a non-empty list: it selects every loaded city when it fires and changes nothing otherwise |
| MapPage.GuardedBackFillFiresAtMostOnce | client/src/pages/MapPage.tsx:89-94 | once the guarded back-fill has fired, it never fires again, whatever list a later render sees |
| MapPage.GuardedBackFillAgrees | client/src/pages/MapPage.tsx:89-94 | on a non-empty city list the guarded back-fill is the back-fill as written |
| MapPage.ApplyFilters | client/src/pages/MapPage.tsx:83-86 | applying leaves the filters as they are |
| MapPage.ResetIdempotent | client/src/pages/MapPage.tsx:66-80 | resetting twice is resetting once |
| MapPage.FirstBackFillIsReset | client/src/pages/MapPage.tsx:89-94 | the first back-fill from the initial filters yields exactly the reset filters |
| MapPage.BackFillAtMostOnce | client/src/pages/MapPage.tsx:89-94 | once a non-empty city list has been back-filled, later renders change nothing |
| MapPage.UpdatedCityMapIsNotRefilled | client/src/pages/MapPage.tsx:35-43 | after any city toggle, the back-fill never fires, so a user's unchecking is never undone |
| MapPage.UpdateCityLastWins | client/src/pages/MapPage.tsx:35-43 | two writes to one city's entry leave the second |
| MapPage.UpdateCityCommutes | client/src/pages/MapPage.tsx:35-43 | writes to two different cities commute |
| MapPage.FilterState.constructor | client/src/pages/MapPage.tsx:10-22 | the state starts with no city keys, every type on, and online and warning on with offline off |
| MapPage.FilterState.UpdateCity | client/src/pages/MapPage.tsx:35-43 | the new filters are the city update applied to the old ones |
| MapPage.FilterState.UpdateDeviceType | client/src/pages/MapPage.tsx:45-53 | the new filters are the type update applied to the old ones |
| MapPage.FilterState.UpdateStatus | client/src/pages/MapPage.tsx:55-63 | the new filters are the status update applied to the old ones |
| MapPage.FilterState.Reset | client/src/pages/MapPage.tsx:66-80 | the new filters are the reset state for the loaded cities |
| MapPage.FilterState.Render | client/src/pages/MapPage.tsx:89-94 | the new filters are the back-fill of the old ones |
| MapPage.FilterState.Apply | client/src/pages/MapPage.tsx:83-86 | the filters are unchanged |
| InfoCard.FilteredDevices | client/src/components/InfoCard.tsx:71-74 | the order-preserving sub-list of devices whose type and status are both enabled. Every such device is in it, and its length is the number of passing devices |
| InfoCard.FilteredDevicesIgnoreCities | client/src/components/InfoCard.tsx:71-74 | whatever the city map holds, the card lists the same devices |
| InfoCard.CountByStatus | client/src/components/InfoCard.tsx:77-79 | each count is the number of listed devices with exactly that status. They sum to at most the list's length, with equality exactly when every status is an enumeration value |
| InfoCard.DisplayedDevices | client/src/components/InfoCard.tsx:82 | a prefix of the filtered devices: all of them when "show all" is on, otherwise the first min(3, n) |
| InfoCard.ShowAllButtonMatters | client/src/components/InfoCard.tsx:192 | the button is shown exactly when there are more than three devices, which is exactly when it changes what is listed |
| InfoCard.InitialFiltersHideOffline | client/src/components/InfoCard.tsx:71-74 | under the initial filters a device is listed exactly when its type is an enumeration value and its status is online or warning |
| InfoCard.InitialFiltersExample | client/src/components/InfoCard.tsx:71-74 | two online, one warning and one offline device under the initial filters list as the first three |
| InfoCard.FormatTimeDiffBuckets | client/src/components/InfoCard.tsx:19-32 | whole minutes below an hour (zero and negative included), whole hours below a day, and whole days otherwise. The number before the unit reads back as that count |
| InfoCard.FormatTimeDiffAgreesWithMap | client/src/components/InfoCard.tsx:19-32 | from one minute on, the card's and the map's formatting agree; below a minute the map says "justo ahora" and the card prints the minutes |
| InfoCard.CardDeviceIcon | client/src/components/InfoCard.tsx:35-50 | "power_off" exactly when the status is offline, whatever the type; otherwise the type's icon |
| InfoCard.StatusColorClass | client/src/components/InfoCard.tsx:53-64 | the neutral class exactly for a string outside the status enumeration |
| InfoCard.StatusColorClassInjective | client/src/components/InfoCard.tsx:53-64 | two statuses share a class only if they are the same status |
| MapContainer.FilteredCities | client/src/components/MapContainer.tsx:105 | the order-preserving sub-list of cities whose id is mapped to true, every such city included, its length the number of passing positions; a city with no key is left out |
| MapContainer.NoCityBeforeBackFill | client/src/components/MapContainer.tsx:105 | with the initial empty city map no marker is drawn |
| MapContainer.AllCitiesAfterBackFill | client/src/components/MapContainer.tsx:105 | after the first back-fill with the loaded list, every loaded city is drawn, in order |
| MapContainer.UncheckedCityHidden | client/src/components/MapContainer.tsx:105 | unchecking a city removes exactly its markers and leaves the others in order |
| MapContainer.AtMostOneActiveMarker | client/src/components/MapContainer.tsx:146 | among cities with distinct ids, at most one marker is highlighted |
| MapContainer.InfoCardPosition | client/src/components/MapContainer.tsx:80-88 | the card goes 20 px to the right of the marker exactly when it fits in the map width, otherwise it ends 20 px to its left. It never covers the marker, and it is always 20 px above the point |
| MapContainer.MapView.constructor | client/src/components/MapContainer.tsx:59-60 | nothing is selected, the card is closed and its position is the origin |
| MapContainer.MapView.HandleCityClick | client/src/components/MapContainer.tsx:69-89 | the clicked city is selected, the card is open, and its position follows the placement rule, with an unreadable width counting as zero |
| MapContainer.MapView.HandleCloseInfoCard | client/src/components/MapContainer.tsx:91-93 | nothing is selected and the card is closed |
| MapContainer.MapView.HandleMapClick | client/src/components/MapContainer.tsx:95-102 | a click off every marker closes the card; a click on a marker leaves the selection as it was |

## Left out

- `initializeDevices` (server/storage.ts:200 on) draws device types, statuses and timestamps at random. The constructor therefore seeds only the cities, and leaves the device table empty.
- The `IStorage` interface and its `Promise`s: every operation is modelled as a synchronous call.
- `Date` and `toISOString`. Timestamps are integer milliseconds, and a view's `lastUpdated` is the stored number, not an ISO string.
- Storage.MemStorage.UpdateDeviceStatus: the new timestamp is the parameter `now`, not the clock. The model does not promise it is later than the old timestamp.
- Parsing of timestamp strings. `new Date(dateString)` and the NaN it gives for an unparseable string are not modelled: both time formatters take the millisecond difference directly.
- `JSON.parse` of device metadata and `parseFloat` of latitude and longitude: foreign calls and floating point.
- Leaflet rendering, the marker HTML and CSS, `MapAdjuster`, the map controls, and the loading and error screens.
- The sidebar toggle, and the query that fetches a city's devices (`cityDevices || []`).
- Pixel coordinates are integers here; in the browser they are floating point.
- The click target test `closest('.city-marker')` becomes a boolean parameter of `HandleMapClick`.
- InfoCard.TypeOn and InfoCard.StatusOn treat every string outside the enumerations as absent. In JavaScript, a string naming an inherited object member (such as "toString") reads a truthy value from the filter record.
- MapPage.BackFill: the model does not capture React's render loop. With an empty loaded city list the back-fill condition stays true (an empty array is truthy), so every render calls `setFilters` during render, and React re-renders after such an update with no equality check. After its limit it throws "Too many re-renders", so the page fails on an empty city list. `MapPage.EmptyListBackFillRefires` states the condition that stays true; the failure itself is described under "## Findings".
- The HTTP routes, including the 400 and 404 decisions around `getDevicesByCity`, are not part of this model.
- The database constraints (unique username, unique device code) are not enforced by the in-memory store. `Schema.DeviceIdsUnique` states the device-code constraint, and `Storage.AppendKeepsDeviceIdsUnique` states what a creation does to it.
- Schema.InsertDevice: `lastUpdated` is mandatory here. In the source the column is `notNull().defaultNow()` (shared/schema.ts:48), so the insert shape makes it optional, and `createDevice` applies no default (server/storage.ts:159-164). A device created without it would make `getAllDevices`, `getDevicesByCity` and `getDeviceById` throw on `.toISOString()` of `undefined` (server/storage.ts:122, 138, 153). The model does not capture that failure; nothing in this repository calls `createDevice`, because `initializeDevices` builds its devices with a timestamp directly.
- Zod validation of request bodies, and the drizzle table and insert-schema machinery.

## Findings

| source | as written | input that shows it | evidently intended | confidence | as-written member | corrected member |
|---|---|---|---|---|---|---|
| client/src/pages/MapPage.tsx:89-94 | the back-fill fires whenever the city list has loaded and the city map has no key; an empty list is truthy and writes an empty map | the city list loads as `[]`: the condition holds on every render, each render calls `setFilters`, and React stops with "Too many re-renders" | fill the city map once, only from a non-empty list | medium, not executed | MapPage.EmptyListBackFillRefires | MapPage.GuardedBackFillFiresAtMostOnce |
