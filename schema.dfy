/**
 * The shared record shapes: the closed device type and status
 * enumerations, the stored user, city and device records, the insert
 * shapes (a record without its id) and the two views the API returns.
 */
module Schema {
  import opened Options

  datatype DeviceType = Router | Sensor | Camera

  datatype DeviceStatus = Online | Warning | Offline

  function TypeName(t: DeviceType): string {
    match t
    case Router => "router"
    case Sensor => "sensor"
    case Camera => "camera"
  }

  function StatusName(s: DeviceStatus): string {
    match s
    case Online => "online"
    case Warning => "warning"
    case Offline => "offline"
  }

  /** Validation against the type enumeration: exactly its three names are accepted. */
  function ParseType(s: string): (r: Option<DeviceType>)
    ensures r.Some? ==> TypeName(r.value) == s
    ensures r.None? <==> forall t: DeviceType :: TypeName(t) != s
  {
    if s == "router" then Some(Router)
    else if s == "sensor" then Some(Sensor)
    else if s == "camera" then Some(Camera)
    else None
  }

  /** Validation against the status enumeration: exactly its three names are accepted. */
  function ParseStatus(s: string): (r: Option<DeviceStatus>)
    ensures r.Some? ==> StatusName(r.value) == s
    ensures r.None? <==> forall t: DeviceStatus :: StatusName(t) != s
  {
    if s == "online" then Some(Online)
    else if s == "warning" then Some(Warning)
    else if s == "offline" then Some(Offline)
    else None
  }

  lemma TypeNameRoundTrip(t: DeviceType)
    ensures ParseType(TypeName(t)) == Some(t)
  {
  }

  lemma StatusNameRoundTrip(s: DeviceStatus)
    ensures ParseStatus(StatusName(s)) == Some(s)
  {
  }

  datatype User = User(id: int, username: string, password: string)

  datatype InsertUser = InsertUser(username: string, password: string)

  /** `deviceCount` is a nullable column with no `notNull`: `None` is null or absent. */
  datatype City = City(id: int, name: string, state: string, latitude: string,
                       longitude: string, deviceCount: Option<int>)

  datatype InsertCity = InsertCity(name: string, state: string, latitude: string,
                                   longitude: string, deviceCount: Option<int>)

  /**
   * A stored device. `deviceType` and `status` are text columns: the store
   * keeps whatever string it is given. `lastUpdated` is a timestamp in
   * milliseconds.
   */
  datatype Device = Device(id: int, name: string, deviceId: string, deviceType: string,
                           status: string, cityId: int, lastUpdated: int, metadata: string)

  datatype InsertDevice = InsertDevice(name: string, deviceId: string, deviceType: string,
                                       status: string, cityId: int, lastUpdated: int,
                                       metadata: string)

  /** A city together with live counts of its devices by status. */
  datatype CityWithDeviceStatus = CityWithDeviceStatus(
    id: int, name: string, state: string, latitude: string, longitude: string,
    deviceCount: int, onlineCount: int, warningCount: int, offlineCount: int)

  /** A device together with the display name of its city. */
  datatype DeviceWithCity = DeviceWithCity(
    id: int, name: string, deviceId: string, deviceType: string, status: string,
    cityId: int, cityName: string, lastUpdated: int, metadata: string)

  function UserDraft(u: User): InsertUser {
    InsertUser(u.username, u.password)
  }

  function CityDraft(c: City): InsertCity {
    InsertCity(c.name, c.state, c.latitude, c.longitude, c.deviceCount)
  }

  function DeviceDraft(d: Device): InsertDevice {
    InsertDevice(d.name, d.deviceId, d.deviceType, d.status, d.cityId, d.lastUpdated, d.metadata)
  }

  /** `{ ...insertUser, id }`: the draft's fields and the id, nothing else. */
  function UserWithId(u: InsertUser, id: int): (r: User)
    ensures r.id == id && UserDraft(r) == u
  {
    User(id, u.username, u.password)
  }

  /** `{ ...insertCity, id }`: the draft's fields and the id, nothing else. */
  function CityWithId(c: InsertCity, id: int): (r: City)
    ensures r.id == id && CityDraft(r) == c
  {
    City(id, c.name, c.state, c.latitude, c.longitude, c.deviceCount)
  }

  /** `{ ...insertDevice, id }`: the draft's fields and the id, nothing else. */
  function DeviceWithId(d: InsertDevice, id: int): (r: Device)
    ensures r.id == id && DeviceDraft(r) == d
  {
    Device(id, d.name, d.deviceId, d.deviceType, d.status, d.cityId, d.lastUpdated, d.metadata)
  }

  /** The view schema restricts a device's type and status to the enumerations. */
  predicate ConformsToViewSchema(v: DeviceWithCity) {
    ParseType(v.deviceType).Some? && ParseStatus(v.status).Some?
  }

  /** The `unique()` constraint on the external device code; the in-memory store does not enforce it. */
  predicate DeviceIdsUnique(ds: seq<Device>) {
    forall i, j :: 0 <= i < j < |ds| ==> ds[i].deviceId != ds[j].deviceId
  }
}
