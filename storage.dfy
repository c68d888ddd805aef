/**
 * The in-memory record store: three integer-keyed tables (users, cities,
 * devices), each with its own id counter, and the two views computed on
 * every read: a city with live per-status device counts, and a device
 * with its city's display name.
 */
module Storage {
  import opened Options
  import opened Lists
  import opened Schema

  /** The name a device gets when its city is missing or has an empty name. */
  const UnknownCity: string := "Unknown City"

  /** `this.cities.get(id)`. */
  function LookupCity(cities: map<int, City>, id: int): (r: Option<City>)
    ensures r.Some? <==> id in cities
    ensures r.Some? ==> r.value == cities[id]
  {
    if id in cities then Some(cities[id]) else None
  }

  /** `city?.name || 'Unknown City'`: an empty name is falsy as well. */
  function CityNameOrUnknown(city: Option<City>): (n: string)
    ensures n != ""
    ensures city.Some? && city.value.name != "" ==> n == city.value.name
    ensures city.None? || city.value.name == "" ==> n == UnknownCity
  {
    if city.Some? && city.value.name != "" then city.value.name else UnknownCity
  }

  /** The device-with-city view: the stored device, and the name of `city`. */
  function DeviceView(d: Device, city: Option<City>): (v: DeviceWithCity)
    ensures v.id == d.id && v.name == d.name && v.deviceId == d.deviceId
    ensures v.deviceType == d.deviceType && v.status == d.status && v.cityId == d.cityId
    ensures v.lastUpdated == d.lastUpdated && v.metadata == d.metadata
    ensures v.cityName == CityNameOrUnknown(city)
    ensures ParseType(d.deviceType).Some? && ParseStatus(d.status).Some? ==> ConformsToViewSchema(v)
  {
    DeviceWithCity(d.id, d.name, d.deviceId, d.deviceType, d.status, d.cityId,
                   CityNameOrUnknown(city), d.lastUpdated, d.metadata)
  }

  function InCity(cityId: int): Device -> bool {
    (d: Device) => d.cityId == cityId
  }

  function HasStatus(status: string): Device -> bool {
    (d: Device) => d.status == status
  }

  function InCityWithStatus(cityId: int, status: string): Device -> bool {
    (d: Device) => d.cityId == cityId && d.status == status
  }

  function ViewInCity(cityId: int): DeviceWithCity -> bool {
    (v: DeviceWithCity) => v.cityId == cityId
  }

  predicate KnownStatus(d: Device) {
    ParseStatus(d.status).Some?
  }

  /** The number of devices in `ds` whose city is `cityId` and whose status is `status`. */
  lemma CityStatusCount(ds: seq<Device>, cityId: int, status: string)
    ensures |Filter(Filter(ds, InCity(cityId)), HasStatus(status))| == CountWhere(ds, InCityWithStatus(cityId, status))
  {
    FilterTwice(ds, InCity(cityId), HasStatus(status), InCityWithStatus(cityId, status));
    FilterLength(ds, InCityWithStatus(cityId, status));
  }

  /**
   * The three status counts of one city add up to its device count
   * exactly when every device of that city has one of the three statuses.
   */
  lemma {:induction false} CityCountsComplete(ds: seq<Device>, cityId: int)
    ensures var here := Filter(ds, InCity(cityId));
      |Filter(here, HasStatus("online"))| + |Filter(here, HasStatus("warning"))| + |Filter(here, HasStatus("offline"))| == |here|
      <==> forall i :: 0 <= i < |ds| && ds[i].cityId == cityId ==> KnownStatus(ds[i])
  {
    var here := Filter(ds, InCity(cityId));
    var p, q, r := HasStatus("online"), HasStatus("warning"), HasStatus("offline");
    ExclusiveCounts(here, p, q, r);
    if forall i :: 0 <= i < |ds| && ds[i].cityId == cityId ==> KnownStatus(ds[i]) {
      forall i | 0 <= i < |here|
        ensures p(here[i]) || q(here[i]) || r(here[i])
      {
        var d := here[i];
        assert InCity(cityId)(d) && d in ds;
        var j :| 0 <= j < |ds| && ds[j] == d;
        KnownStatusIsOneOfThree(d);
      }
    } else {
      var j :| 0 <= j < |ds| && ds[j].cityId == cityId && !KnownStatus(ds[j]);
      var d := ds[j];
      KnownStatusIsOneOfThree(d);
      assert !p(d) && !q(d) && !r(d);
      assert InCity(cityId)(d);
      assert d in here;
      var i :| 0 <= i < |here| && here[i] == d;
    }
  }

  /** A status is known exactly when it is one of the three the schema names. */
  lemma KnownStatusIsOneOfThree(d: Device)
    ensures KnownStatus(d) <==> d.status == "online" || d.status == "warning" || d.status == "offline"
  {
  }

  /**
   * The city-with-status view of `city` over the device list `ds`: the
   * stored `deviceCount` is replaced by the live number of devices whose
   * city is this one, and each status count is the number of those with
   * exactly that status. The three counts add up to the device count
   * exactly when every device of the city has one of the three statuses.
   */
  function CityView(city: City, ds: seq<Device>): (v: CityWithDeviceStatus)
    ensures v.id == city.id && v.name == city.name && v.state == city.state
    ensures v.latitude == city.latitude && v.longitude == city.longitude
    ensures v.deviceCount == CountWhere(ds, InCity(city.id))
    ensures v.onlineCount == CountWhere(ds, InCityWithStatus(city.id, "online"))
    ensures v.warningCount == CountWhere(ds, InCityWithStatus(city.id, "warning"))
    ensures v.offlineCount == CountWhere(ds, InCityWithStatus(city.id, "offline"))
    ensures v.onlineCount + v.warningCount + v.offlineCount <= v.deviceCount
    ensures v.onlineCount + v.warningCount + v.offlineCount == v.deviceCount <==>
              forall i :: 0 <= i < |ds| && ds[i].cityId == city.id ==> KnownStatus(ds[i])
  {
    var here := Filter(ds, InCity(city.id));
    var online := Filter(here, HasStatus("online"));
    var warning := Filter(here, HasStatus("warning"));
    var offline := Filter(here, HasStatus("offline"));
    FilterLength(ds, InCity(city.id));
    CityStatusCount(ds, city.id, "online");
    CityStatusCount(ds, city.id, "warning");
    CityStatusCount(ds, city.id, "offline");
    ExclusiveCounts(here, HasStatus("online"), HasStatus("warning"), HasStatus("offline"));
    CityCountsComplete(ds, city.id);
    CityWithDeviceStatus(city.id, city.name, city.state, city.latitude, city.longitude,
                         |here|, |online|, |warning|, |offline|)
  }

  /** The device-with-city view of every device, each with its own city's name. */
  function ViewWithOwnCity(cities: map<int, City>): Device -> DeviceWithCity {
    (d: Device) => DeviceView(d, LookupCity(cities, d.cityId))
  }

  /** `getAllDevices` over the device list `ds`. */
  function AllDeviceViews(ds: seq<Device>, cities: map<int, City>): (r: seq<DeviceWithCity>)
    ensures |r| == |ds|
    ensures forall i :: 0 <= i < |ds| ==> r[i].id == ds[i].id && r[i].cityId == ds[i].cityId
    ensures forall i :: 0 <= i < |ds| ==> r[i].cityName == CityNameOrUnknown(LookupCity(cities, ds[i].cityId))
    ensures forall i :: 0 <= i < |ds| ==> r[i] == DeviceView(ds[i], LookupCity(cities, ds[i].cityId))
  {
    MapSeq(ds, ViewWithOwnCity(cities))
  }

  /**
   * `getDevicesByCity` over the device list `ds`: the devices whose city is
   * `cityId`, in order, all named after that city's lookup. An unknown city
   * gives the empty list, never an absence.
   */
  function CityDeviceViews(ds: seq<Device>, cities: map<int, City>, cityId: int): (r: seq<DeviceWithCity>)
    ensures |r| == CountWhere(ds, InCity(cityId))
    ensures r == [] <==> forall i :: 0 <= i < |ds| ==> ds[i].cityId != cityId
    ensures forall i :: 0 <= i < |r| ==> r[i].cityId == cityId
    ensures forall i :: 0 <= i < |r| ==> r[i].cityName == CityNameOrUnknown(LookupCity(cities, cityId))
    ensures cityId !in cities ==> forall i :: 0 <= i < |r| ==> r[i].cityName == UnknownCity
    ensures var here := Filter(ds, InCity(cityId));
      |r| == |here| && forall i :: 0 <= i < |r| ==> r[i] == DeviceView(here[i], LookupCity(cities, cityId))
  {
    var city := LookupCity(cities, cityId);
    var here := Filter(ds, InCity(cityId));
    FilterLength(ds, InCity(cityId));
    MapSeq(here, (d: Device) => DeviceView(d, city))
  }

  /** The devices of one city are exactly the full listing filtered by city, in the same order. */
  lemma {:induction false} CityDevicesAreFilteredListing(ds: seq<Device>, cities: map<int, City>, cityId: int)
    ensures CityDeviceViews(ds, cities, cityId) == Filter(AllDeviceViews(ds, cities), ViewInCity(cityId))
  {
    if ds != [] {
      CityDevicesAreFilteredListing(ds[1..], cities, cityId);
      var city := LookupCity(cities, cityId);
      var g := (d: Device) => DeviceView(d, city);
      var all := AllDeviceViews(ds, cities);
      MapSeqCons(ds, ViewWithOwnCity(cities));
      assert all[1..] == AllDeviceViews(ds[1..], cities);
      if ds[0].cityId == cityId {
        assert Filter(ds, InCity(cityId)) == [ds[0]] + Filter(ds[1..], InCity(cityId));
        MapSeqCons(Filter(ds, InCity(cityId)), g);
        assert Filter(ds, InCity(cityId))[1..] == Filter(ds[1..], InCity(cityId));
      }
    }
  }

  /** A device with its status replaced and its timestamp set to `now`. */
  function WithStatus(d: Device, status: string, now: int): (r: Device)
    ensures r.status == status && r.lastUpdated == now
    ensures r.id == d.id && r.name == d.name && r.deviceId == d.deviceId
    ensures r.deviceType == d.deviceType && r.cityId == d.cityId && r.metadata == d.metadata
  {
    d.(status := status, lastUpdated := now)
  }

  /**
   * The store does not check the unique device code: appending a device
   * keeps the codes unique exactly when they were unique and the new code
   * is not among them.
   */
  lemma AppendKeepsDeviceIdsUnique(ds: seq<Device>, d: Device)
    ensures DeviceIdsUnique(ds + [d]) <==>
              DeviceIdsUnique(ds) && forall i :: 0 <= i < |ds| ==> ds[i].deviceId != d.deviceId
  {
    var s := ds + [d];
    assert forall i :: 0 <= i < |ds| ==> s[i] == ds[i];
    if DeviceIdsUnique(s) {
      forall i | 0 <= i < |ds|
        ensures ds[i].deviceId != d.deviceId
      {
        assert s[i] == ds[i] && s[|ds|] == d;
      }
    }
  }

  /**
   * A JavaScript Map's key order: ids come from a counter that only
   * increases and entries are never deleted, so the insertion order is the
   * ascending order of the keys, every key is below the counter, and the
   * first id handed out is 1.
   */
  ghost predicate OrderedKeys(keys: set<int>, order: seq<int>, next: int) {
    && 1 <= next
    && (forall i, j :: 0 <= i < j < |order| ==> order[i] < order[j])
    && (forall i :: 0 <= i < |order| ==> order[i] in keys)
    && (forall k :: k in keys ==> k in order && 1 <= k < next)
  }

  /** The `count` consecutive ids starting at `first`. */
  function IdsFrom(first: int, count: nat): (r: seq<int>)
    ensures |r| == count
  {
    if count == 0 then [] else IdsFrom(first, count - 1) + [first + count - 1]
  }

  /** The cities `drafts` become when created one after another, the first receiving id `first`. */
  function WithConsecutiveIds(drafts: seq<InsertCity>, first: int): (r: seq<City>)
    ensures |r| == |drafts|
  {
    if drafts == [] then []
    else WithConsecutiveIds(drafts[..|drafts| - 1], first) +
         [CityWithId(drafts[|drafts| - 1], first + |drafts| - 1)]
  }

  /** Creating one more draft appends one more city, with the next id. */
  lemma WithConsecutiveIdsStep(drafts: seq<InsertCity>, n: nat, first: int)
    requires n < |drafts|
    ensures WithConsecutiveIds(drafts[..n + 1], first) ==
            WithConsecutiveIds(drafts[..n], first) + [CityWithId(drafts[n], first + n)]
  {
    assert drafts[..n + 1][..n] == drafts[..n];
  }

  lemma {:induction false} IdsFromMembers(first: int, count: nat, k: int)
    ensures k in IdsFrom(first, count) <==> first <= k < first + count
  {
    if count > 0 {
      IdsFromMembers(first, count - 1, k);
    }
  }

  /** `Array.from(m.values())`. */
  function ValuesInOrder<V>(m: map<int, V>, order: seq<int>): (r: seq<V>)
    requires forall i :: 0 <= i < |order| ==> order[i] in m
    ensures |r| == |order|
    ensures forall i :: 0 <= i < |order| ==> r[i] == m[order[i]]
  {
    seq(|order|, i requires 0 <= i < |order| => m[order[i]])
  }

  /** The cities `initializeCities` seeds the store with, in order. */
  const SeedCities: seq<InsertCity> := [
    InsertCity("Monterrey", "Nuevo León", "25.6866", "-100.3161", Some(0)),
    InsertCity("Ciudad de México", "CDMX", "19.4326", "-99.1332", Some(0)),
    InsertCity("Guadalajara", "Jalisco", "20.6597", "-103.3496", Some(0)),
    InsertCity("Puebla", "Puebla", "19.0414", "-98.2063", Some(0)),
    InsertCity("León", "Guanajuato", "21.1167", "-101.6833", Some(0)),
    InsertCity("Torreón", "Coahuila", "25.5383", "-103.4526", Some(0)),
    InsertCity("Ciudad Juárez", "Chihuahua", "31.6904", "-106.4245", Some(0)),
    InsertCity("Tampico", "Tamaulipas", "22.2553", "-97.8686", Some(0)),
    InsertCity("Nuevo Laredo", "Tamaulipas", "27.4769", "-99.5424", Some(0)),
    InsertCity("Saltillo", "Coahuila", "25.4321", "-101.0053", Some(0)),
    InsertCity("Ciudad Victoria", "Tamaulipas", "23.7369", "-99.1411", Some(0)),
    InsertCity("Reynosa", "Tamaulipas", "26.0920", "-98.2852", Some(0)),
    InsertCity("Durango", "Durango", "24.0277", "-104.6532", Some(0))
  ]

  class MemStorage {
    var users: map<int, User>
    var cities: map<int, City>
    var devices: map<int, Device>
    // The insertion order of each Map (what `Array.from(map.values())` follows).
    var userOrder: seq<int>
    var cityOrder: seq<int>
    var deviceOrder: seq<int>
    // The id the next created record of each kind receives.
    var currentUserId: int
    var currentCityId: int
    var currentDeviceId: int

    /** Each table's keys are its records' ids, all below its counter and listed in creation order. */
    ghost predicate Valid()
      reads this
    {
      UsersValid() && CitiesValid() && DevicesValid()
    }

    ghost predicate UsersValid()
      reads this`users, this`userOrder, this`currentUserId
    {
      && OrderedKeys(users.Keys, userOrder, currentUserId)
      && (forall k :: k in users ==> users[k].id == k)
    }

    ghost predicate CitiesValid()
      reads this`cities, this`cityOrder, this`currentCityId
    {
      && OrderedKeys(cities.Keys, cityOrder, currentCityId)
      && (forall k :: k in cities ==> cities[k].id == k)
    }

    ghost predicate DevicesValid()
      reads this`devices, this`deviceOrder, this`currentDeviceId
    {
      && OrderedKeys(devices.Keys, deviceOrder, currentDeviceId)
      && (forall k :: k in devices ==> devices[k].id == k)
    }

    /** A store holding the seed cities, with ids 1 to 13, and nothing else. */
    constructor ()
      ensures Valid()
      ensures users == map[] && devices == map[] && userOrder == [] && deviceOrder == []
      ensures currentUserId == 1 && currentDeviceId == 1
      ensures currentCityId == |SeedCities| + 1 && cityOrder == IdsFrom(1, |SeedCities|)
      ensures CityList() == WithConsecutiveIds(SeedCities, 1)
      ensures forall id :: id in cities <==> 1 <= id <= |SeedCities|
    {
      users, cities, devices := map[], map[], map[];
      userOrder, cityOrder, deviceOrder := [], [], [];
      currentUserId, currentCityId, currentDeviceId := 1, 1, 1;
      new;
      InitializeCities();
      forall id | true
        ensures id in cities <==> 1 <= id <= |SeedCities|
      {
        IdsFromMembers(1, |SeedCities|, id);
        if id in cityOrder {
          var i :| 0 <= i < |cityOrder| && cityOrder[i] == id;
          assert id in cities.Keys;
        }
      }
    }

    /** `initializeCities`: creates the seed cities, in order. */
    method InitializeCities()
      requires CitiesValid()
      modifies this`cities, this`cityOrder, this`currentCityId
      ensures CitiesValid()
      ensures currentCityId == old(currentCityId) + |SeedCities|
      ensures cityOrder == old(cityOrder) + IdsFrom(old(currentCityId), |SeedCities|)
      ensures CityList() == old(CityList()) + WithConsecutiveIds(SeedCities, old(currentCityId))
    {
      CreateCities(SeedCities);
    }

    /** Creates one city per draft, in order, with consecutive ids. */
    method CreateCities(drafts: seq<InsertCity>)
      requires CitiesValid()
      modifies this`cities, this`cityOrder, this`currentCityId
      ensures CitiesValid()
      ensures currentCityId == old(currentCityId) + |drafts|
      ensures cityOrder == old(cityOrder) + IdsFrom(old(currentCityId), |drafts|)
      ensures CityList() == old(CityList()) + WithConsecutiveIds(drafts, old(currentCityId))
    {
      ghost var first, order0, list0 := currentCityId, cityOrder, CityList();
      for n := 0 to |drafts|
        invariant CitiesValid()
        invariant currentCityId == first + n
        invariant cityOrder == order0 + IdsFrom(first, n)
        invariant CityList() == list0 + WithConsecutiveIds(drafts[..n], first)
      {
        ghost var list := CityList();
        var city := CreateCity(drafts[n]);
        WithConsecutiveIdsStep(drafts, n, first);
        assert CityList() == list + [city];
      }
      assert drafts[..|drafts|] == drafts;
    }

    function UserList(): seq<User>
      reads this
      requires Valid()
    {
      ValuesInOrder(users, userOrder)
    }

    function CityList(): seq<City>
      reads this
      requires CitiesValid()
    {
      ValuesInOrder(cities, cityOrder)
    }

    function DeviceList(): seq<Device>
      reads this
      requires Valid()
    {
      ValuesInOrder(devices, deviceOrder)
    }

    /** `createUser`: the counter's value becomes the new user's id, then the counter moves on. */
    method CreateUser(draft: InsertUser) returns (user: User)
      requires Valid()
      modifies this`users, this`userOrder, this`currentUserId
      ensures Valid()
      ensures user == UserWithId(draft, old(currentUserId))
      ensures user.id !in old(users) && forall k :: k in old(users) ==> k < user.id
      ensures users == old(users)[user.id := user] && userOrder == old(userOrder) + [user.id]
      ensures UserList() == old(UserList()) + [user]
      ensures currentUserId == old(currentUserId) + 1
    {
      var id := currentUserId;
      currentUserId := currentUserId + 1;
      user := UserWithId(draft, id);
      users := users[id := user];
      userOrder := userOrder + [id];
    }

    /** `getUser`: absent exactly when no user has this id. */
    function GetUser(id: int): (r: Option<User>)
      reads this
      requires Valid()
      ensures r.None? <==> id !in users
      ensures r.Some? ==> r.value.id == id && r.value == users[id]
    {
      if id in users then Some(users[id]) else None
    }

    /** `getUserByUsername`: the earliest-created user with this name, or absent when there is none. */
    function GetUserByUsername(username: string): (r: Option<User>)
      reads this
      requires Valid()
      ensures r.None? <==> forall k :: k in users ==> users[k].username != username
      ensures r.Some? ==> r.value.id in users && users[r.value.id] == r.value && r.value.username == username
      ensures r.Some? ==> forall k :: k in users && k < r.value.id ==> users[k].username != username
    {
      var us := UserList();
      match FindIndex(us, (u: User) => u.username == username)
      case None => None
      case Some(i) => Some(us[i])
    }

    /** `createCity`: the counter's value becomes the new city's id, then the counter moves on. */
    method CreateCity(draft: InsertCity) returns (city: City)
      requires CitiesValid()
      modifies this`cities, this`cityOrder, this`currentCityId
      ensures CitiesValid()
      ensures city == CityWithId(draft, old(currentCityId))
      ensures city.id !in old(cities) && forall k :: k in old(cities) ==> k < city.id
      ensures cities == old(cities)[city.id := city] && cityOrder == old(cityOrder) + [city.id]
      ensures CityList() == old(CityList()) + [city]
      ensures currentCityId == old(currentCityId) + 1
    {
      var id := currentCityId;
      currentCityId := currentCityId + 1;
      city := CityWithId(draft, id);
      cities := cities[id := city];
      cityOrder := cityOrder + [id];
    }

    /**
     * `getAllCities`: one entry per stored city, in creation order, each
     * with its counts computed from the current devices.
     */
    function GetAllCities(): (r: seq<CityWithDeviceStatus>)
      reads this
      requires Valid()
      ensures forall id :: id in cities <==> exists i :: 0 <= i < |r| && r[i].id == id
      ensures forall i, j :: 0 <= i < j < |r| ==> r[i].id < r[j].id
      ensures forall i :: 0 <= i < |r| ==> r[i].id in cities && r[i] == CityView(cities[r[i].id], DeviceList())
    {
      var ds := DeviceList();
      var r := MapSeq(CityList(), (c: City) => CityView(c, ds));
      assert forall i :: 0 <= i < |r| ==> r[i].id == cityOrder[i];
      r
    }

    /** `getCityById`: absent exactly when no city has this id; otherwise the same entry `getAllCities` lists. */
    function GetCityById(id: int): (r: Option<CityWithDeviceStatus>)
      reads this
      requires Valid()
      ensures r.None? <==> id !in cities
      ensures r.Some? ==> r.value.id == id && r.value == CityView(cities[id], DeviceList())
      ensures r.Some? ==> r.value in GetAllCities()
    {
      if id in cities then
        var all := GetAllCities();
        assert exists i :: 0 <= i < |all| && all[i].id == id;
        Some(CityView(cities[id], DeviceList()))
      else None
    }

    /** `createDevice`: like `createCity`; the device's city is not checked against the stored cities. */
    method CreateDevice(draft: InsertDevice) returns (device: Device)
      requires Valid()
      modifies this`devices, this`deviceOrder, this`currentDeviceId
      ensures Valid()
      ensures device == DeviceWithId(draft, old(currentDeviceId))
      ensures device.id !in old(devices) && forall k :: k in old(devices) ==> k < device.id
      ensures devices == old(devices)[device.id := device] && deviceOrder == old(deviceOrder) + [device.id]
      ensures DeviceList() == old(DeviceList()) + [device]
      ensures currentDeviceId == old(currentDeviceId) + 1
    {
      var id := currentDeviceId;
      currentDeviceId := currentDeviceId + 1;
      device := DeviceWithId(draft, id);
      devices := devices[id := device];
      deviceOrder := deviceOrder + [id];
    }

    /** `getAllDevices`: one entry per stored device, in creation order, named after its own city. */
    function GetAllDevices(): (r: seq<DeviceWithCity>)
      reads this
      requires Valid()
      ensures forall id :: id in devices <==> exists i :: 0 <= i < |r| && r[i].id == id
      ensures forall i, j :: 0 <= i < j < |r| ==> r[i].id < r[j].id
      ensures forall i :: 0 <= i < |r| ==>
                r[i].id in devices && r[i] == DeviceView(devices[r[i].id], LookupCity(cities, devices[r[i].id].cityId))
    {
      var r := AllDeviceViews(DeviceList(), cities);
      assert forall i :: 0 <= i < |r| ==> r[i].id == deviceOrder[i];
      r
    }

    /**
     * `getDevicesByCity`: the full device listing restricted to one city, in
     * the same order; empty (never absent) when no device is in that city,
     * which includes every id that is not a city.
     */
    function GetDevicesByCity(cityId: int): (r: seq<DeviceWithCity>)
      reads this
      requires Valid()
      ensures r == Filter(GetAllDevices(), ViewInCity(cityId))
      ensures r == [] <==> forall k :: k in devices ==> devices[k].cityId != cityId
      ensures cityId !in cities ==> forall i :: 0 <= i < |r| ==> r[i].cityName == UnknownCity
    {
      CityDevicesAreFilteredListing(DeviceList(), cities, cityId);
      CityDeviceViews(DeviceList(), cities, cityId)
    }

    /** `getDeviceById`: absent exactly when no device has this id; otherwise the entry `getAllDevices` lists. */
    function GetDeviceById(id: int): (r: Option<DeviceWithCity>)
      reads this
      requires Valid()
      ensures r.None? <==> id !in devices
      ensures r.Some? ==> r.value.id == id && r.value == DeviceView(devices[id], LookupCity(cities, devices[id].cityId))
      ensures r.Some? ==> r.value in GetAllDevices()
    {
      if id in devices then
        var all := GetAllDevices();
        assert exists i :: 0 <= i < |all| && all[i].id == id;
        Some(DeviceView(devices[id], LookupCity(cities, devices[id].cityId)))
      else None
    }

    /**
     * `updateDeviceStatus`: on an unknown id, absent and nothing changes; on
     * a known id, that device alone gets the given status (any string, not
     * checked against the enumeration) and the timestamp `now`.
     */
    method UpdateDeviceStatus(id: int, status: string, now: int) returns (r: Option<Device>)
      requires Valid()
      modifies this`devices
      ensures Valid()
      ensures id !in old(devices) ==> r.None? && devices == old(devices)
      ensures id in old(devices) ==> r == Some(WithStatus(old(devices)[id], status, now))
      ensures id in old(devices) ==> devices == old(devices)[id := r.value]
    {
      if id !in devices {
        return None;
      }
      var updated := WithStatus(devices[id], status, now);
      devices := devices[id := updated];
      r := Some(updated);
    }
  }
}
