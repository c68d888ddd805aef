/**
 * The page's filter state: three boolean membership maps (by city id, by
 * device type, by device status), the pure transforms its handlers apply,
 * and the one-time back-fill of the city map once the cities have loaded.
 * A key that is missing from a map reads as `undefined`, which is falsy:
 * it does not pass the filter.
 */
module MapPage {
  import opened Options
  import opened Lists
  import opened Schema

  datatype Filters = Filters(cities: map<int, bool>,
                             deviceTypes: map<DeviceType, bool>,
                             deviceStatus: map<DeviceStatus, bool>)

  const DefaultTypes: map<DeviceType, bool> := map[Router := true, Sensor := true, Camera := true]

  const DefaultStatus: map<DeviceStatus, bool> := map[Online := true, Warning := true, Offline := false]

  /** The state before the cities have loaded: no city selected, every type, online and warning. */
  const InitialFilters: Filters := Filters(map[], DefaultTypes, DefaultStatus)

  predicate CityEnabled(f: Filters, id: int) {
    id in f.cities && f.cities[id]
  }

  predicate TypeEnabled(f: Filters, t: DeviceType) {
    t in f.deviceTypes && f.deviceTypes[t]
  }

  predicate StatusEnabled(f: Filters, s: DeviceStatus) {
    s in f.deviceStatus && f.deviceStatus[s]
  }

  /** `Array.isArray(cities) ? cities : []`: nothing before the city list has loaded. */
  function LoadedCities(loaded: Option<seq<CityWithDeviceStatus>>): seq<CityWithDeviceStatus> {
    loaded.GetOr([])
  }

  /** `Object.fromEntries(cities.map(city => [city.id, true]))`. */
  function AllSelected(cs: seq<CityWithDeviceStatus>): (m: map<int, bool>)
    ensures forall id :: id in m <==> exists i :: 0 <= i < |cs| && cs[i].id == id
    ensures forall id :: id in m ==> m[id]
  {
    map c | c in cs :: c.id := true
  }

  /** `updateCityFilter`: only the given city's entry changes. */
  function UpdateCityFilter(f: Filters, cityId: int, checked: bool): (r: Filters)
    ensures CityEnabled(r, cityId) == checked && cityId in r.cities
    ensures forall id :: id != cityId ==> (id in r.cities <==> id in f.cities) && CityEnabled(r, id) == CityEnabled(f, id)
    ensures r.deviceTypes == f.deviceTypes && r.deviceStatus == f.deviceStatus
  {
    f.(cities := f.cities[cityId := checked])
  }

  /** `updateDeviceTypeFilter`: only the given type's entry changes. */
  function UpdateDeviceTypeFilter(f: Filters, t: DeviceType, checked: bool): (r: Filters)
    ensures TypeEnabled(r, t) == checked
    ensures forall u :: u != t ==> TypeEnabled(r, u) == TypeEnabled(f, u)
    ensures r.cities == f.cities && r.deviceStatus == f.deviceStatus
  {
    f.(deviceTypes := f.deviceTypes[t := checked])
  }

  /** `updateStatusFilter`: only the given status's entry changes. */
  function UpdateStatusFilter(f: Filters, s: DeviceStatus, checked: bool): (r: Filters)
    ensures StatusEnabled(r, s) == checked
    ensures forall u :: u != s ==> StatusEnabled(r, u) == StatusEnabled(f, u)
    ensures r.cities == f.cities && r.deviceTypes == f.deviceTypes
  {
    f.(deviceStatus := f.deviceStatus[s := checked])
  }

  /**
   * `resetFilters`: every loaded city selected and no other key, and the
   * default type and status maps; the previous state plays no part.
   */
  function ResetFilters(f: Filters, loaded: Option<seq<CityWithDeviceStatus>>): (r: Filters)
    ensures forall id :: id in r.cities <==> exists i :: 0 <= i < |LoadedCities(loaded)| && LoadedCities(loaded)[i].id == id
    ensures forall id :: id in r.cities ==> r.cities[id]
    ensures TypeEnabled(r, Router) && TypeEnabled(r, Sensor) && TypeEnabled(r, Camera)
    ensures StatusEnabled(r, Online) && StatusEnabled(r, Warning) && !StatusEnabled(r, Offline)
  {
    Filters(AllSelected(LoadedCities(loaded)), DefaultTypes, DefaultStatus)
  }

  /**
   * The condition checked on every render: the cities have loaded (an
   * empty array is truthy as well) and the city map has no key.
   */
  predicate BackFillFires(f: Filters, loaded: Option<seq<CityWithDeviceStatus>>) {
    loaded.Some? && |f.cities| == 0
  }

  /**
   * The back-fill on render: when it fires, every loaded city is selected
   * and the city map holds no other key; otherwise nothing changes.
   */
  function BackFill(f: Filters, loaded: Option<seq<CityWithDeviceStatus>>): (r: Filters)
    ensures r.deviceTypes == f.deviceTypes && r.deviceStatus == f.deviceStatus
    ensures BackFillFires(f, loaded) ==> r.cities == AllSelected(loaded.value)
    ensures !BackFillFires(f, loaded) ==> r == f
  {
    if BackFillFires(f, loaded) then
      f.(cities := AllSelected(loaded.value))
    else f
  }

  /** The filters after `n` renders that each see the same city list. */
  function Renders(f: Filters, loaded: Option<seq<CityWithDeviceStatus>>, n: nat): Filters {
    if n == 0 then f else BackFill(Renders(f, loaded, n - 1), loaded)
  }

  /**
   * As written: with an empty city list the back-fill writes an empty
   * map, so its condition holds again on every later render and each
   * render asks for another state update.
   */
  lemma {:induction false} EmptyListBackFillRefires(f: Filters, n: nat)
    requires |f.cities| == 0
    ensures BackFillFires(Renders(f, Some([]), n), Some([]))
  {
    if n > 0 {
      EmptyListBackFillRefires(f, n - 1);
      var g := Renders(f, Some([]), n - 1);
      assert AllSelected([]) == map[];
      assert |BackFill(g, Some([])).cities| == 0;
    }
  }

  /** The condition the back-fill evidently means: a loaded, non-empty list and an empty city map. */
  predicate GuardedBackFillFires(f: Filters, loaded: Option<seq<CityWithDeviceStatus>>) {
    loaded.Some? && |loaded.value| > 0 && |f.cities| == 0
  }

  /** The back-fill with that guard. */
  function GuardedBackFill(f: Filters, loaded: Option<seq<CityWithDeviceStatus>>): (r: Filters)
    ensures r.deviceTypes == f.deviceTypes && r.deviceStatus == f.deviceStatus
    ensures GuardedBackFillFires(f, loaded) ==> r.cities == AllSelected(loaded.value)
    ensures !GuardedBackFillFires(f, loaded) ==> r == f
  {
    if GuardedBackFillFires(f, loaded) then
      f.(cities := AllSelected(loaded.value))
    else f
  }

  /** The guarded back-fill never fires twice, whatever list a later render sees. */
  lemma {:induction false} GuardedBackFillFiresAtMostOnce(f: Filters, loaded: Option<seq<CityWithDeviceStatus>>,
                                                          later: Option<seq<CityWithDeviceStatus>>)
    ensures GuardedBackFillFires(f, loaded) ==> !GuardedBackFillFires(GuardedBackFill(f, loaded), later)
  {
    if GuardedBackFillFires(f, loaded) {
      var cs := loaded.value;
      assert cs[0].id in GuardedBackFill(f, loaded).cities;
    }
  }

  /** On a non-empty list the guarded back-fill is the back-fill as written. */
  lemma GuardedBackFillAgrees(f: Filters, cs: seq<CityWithDeviceStatus>)
    requires |cs| > 0
    ensures GuardedBackFill(f, Some(cs)) == BackFill(f, Some(cs))
  {
  }

  /** `applyFilters` only logs: the state is what it was. */
  function ApplyFilters(f: Filters): (r: Filters)
    ensures r == f
  {
    f
  }

  /** Resetting twice is resetting once. */
  lemma ResetIdempotent(f: Filters, loaded: Option<seq<CityWithDeviceStatus>>)
    ensures ResetFilters(ResetFilters(f, loaded), loaded) == ResetFilters(f, loaded)
  {
  }

  /** The first back-fill from the initial state gives exactly the reset state. */
  lemma FirstBackFillIsReset(f: Filters, cs: seq<CityWithDeviceStatus>)
    ensures BackFill(InitialFilters, Some(cs)) == ResetFilters(f, Some(cs))
  {
  }

  /**
   * Once a non-empty city list has been back-filled, later renders leave
   * the city map alone, whatever list they see.
   */
  lemma {:induction false} BackFillAtMostOnce(f: Filters, cs: seq<CityWithDeviceStatus>,
                                              later: Option<seq<CityWithDeviceStatus>>)
    requires |cs| > 0
    ensures BackFill(BackFill(f, Some(cs)), later) == BackFill(f, Some(cs))
  {
    var g := BackFill(f, Some(cs));
    if |f.cities| == 0 {
      assert cs[0].id in g.cities;
    }
    assert |g.cities| != 0;
  }

  /** Unchecking (or checking) a city leaves a key behind, so the back-fill never fires again. */
  lemma {:induction false} UpdatedCityMapIsNotRefilled(f: Filters, cityId: int, checked: bool,
                                                       loaded: Option<seq<CityWithDeviceStatus>>)
    ensures BackFill(UpdateCityFilter(f, cityId, checked), loaded) == UpdateCityFilter(f, cityId, checked)
  {
    var g := UpdateCityFilter(f, cityId, checked);
    assert cityId in g.cities;
    assert |g.cities| != 0;
  }

  /** The last write to a city's entry wins. */
  lemma UpdateCityLastWins(f: Filters, cityId: int, first: bool, second: bool)
    ensures UpdateCityFilter(UpdateCityFilter(f, cityId, first), cityId, second) == UpdateCityFilter(f, cityId, second)
  {
  }

  /** Writes to different cities commute. */
  lemma UpdateCityCommutes(f: Filters, a: int, x: bool, b: int, y: bool)
    requires a != b
    ensures UpdateCityFilter(UpdateCityFilter(f, a, x), b, y) == UpdateCityFilter(UpdateCityFilter(f, b, y), a, x)
  {
  }

  /** The page component's filter state, replaced through `setFilters`. */
  class FilterState {
    var filters: Filters

    constructor ()
      ensures filters == InitialFilters
    {
      filters := InitialFilters;
    }

    method UpdateCity(cityId: int, checked: bool)
      modifies this
      ensures filters == UpdateCityFilter(old(filters), cityId, checked)
    {
      filters := UpdateCityFilter(filters, cityId, checked);
    }

    method UpdateDeviceType(t: DeviceType, checked: bool)
      modifies this
      ensures filters == UpdateDeviceTypeFilter(old(filters), t, checked)
    {
      filters := UpdateDeviceTypeFilter(filters, t, checked);
    }

    method UpdateStatus(s: DeviceStatus, checked: bool)
      modifies this
      ensures filters == UpdateStatusFilter(old(filters), s, checked)
    {
      filters := UpdateStatusFilter(filters, s, checked);
    }

    method Reset(loaded: Option<seq<CityWithDeviceStatus>>)
      modifies this
      ensures filters == ResetFilters(old(filters), loaded)
    {
      filters := ResetFilters(filters, loaded);
    }

    /** The check the component makes on every render, with the city list as it stands. */
    method Render(loaded: Option<seq<CityWithDeviceStatus>>)
      modifies this
      ensures filters == BackFill(old(filters), loaded)
    {
      if loaded.Some? && |filters.cities| == 0 {
        filters := filters.(cities := AllSelected(loaded.value));
      }
    }

    method Apply()
      ensures filters == ApplyFilters(old(filters))
    {
    }
  }
}
