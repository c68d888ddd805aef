/**
 * The map panel: which city markers are drawn, which one is highlighted,
 * where the info card opens, and when it is open.
 */
module MapContainer {
  import opened Options
  import opened Lists
  import opened Schema
  import opened MapPage

  function CityShown(f: Filters): CityWithDeviceStatus -> bool {
    (c: CityWithDeviceStatus) => CityEnabled(f, c.id)
  }

  /**
   * `filteredCities`: the cities whose id is mapped to true, in their
   * order; a city with no key in the map is not drawn.
   */
  function FilteredCities(cs: seq<CityWithDeviceStatus>, f: Filters): (r: seq<CityWithDeviceStatus>)
    ensures IsSubsequence(r, cs)
    ensures forall i :: 0 <= i < |r| ==> r[i].id in f.cities && f.cities[r[i].id]
    ensures forall i :: 0 <= i < |cs| && cs[i].id in f.cities && f.cities[cs[i].id] ==> cs[i] in r
    ensures |r| == CountWhere(cs, CityShown(f))
  {
    FilterIsSubsequence(cs, CityShown(f));
    FilterLength(cs, CityShown(f));
    Filter(cs, CityShown(f))
  }

  /** Before the back-fill the city map is empty, so no marker is drawn. */
  lemma NoCityBeforeBackFill(cs: seq<CityWithDeviceStatus>)
    ensures FilteredCities(cs, InitialFilters) == []
  {
  }

  /** After the first back-fill with the loaded list, every loaded city is drawn. */
  lemma AllCitiesAfterBackFill(cs: seq<CityWithDeviceStatus>)
    ensures FilteredCities(cs, BackFill(InitialFilters, Some(cs))) == cs
  {
    var f := BackFill(InitialFilters, Some(cs));
    forall i | 0 <= i < |cs|
      ensures CityShown(f)(cs[i])
    {
      assert cs[i].id in AllSelected(cs);
    }
    FilterKeepsAll(cs, CityShown(f));
  }

  /** Unchecking a city removes its marker and leaves every other marker as it was. */
  lemma UncheckedCityHidden(cs: seq<CityWithDeviceStatus>, f: Filters, cityId: int)
    ensures FilteredCities(cs, UpdateCityFilter(f, cityId, false)) ==
            Filter(FilteredCities(cs, f), (c: CityWithDeviceStatus) => c.id != cityId)
  {
    var g := UpdateCityFilter(f, cityId, false);
    FilterTwice(cs, CityShown(f), (c: CityWithDeviceStatus) => c.id != cityId, CityShown(g));
  }

  /** `createMarkerIcon(selectedCity?.id === city.id)`: the highlighted marker. */
  predicate MarkerActive(selected: Option<CityWithDeviceStatus>, c: CityWithDeviceStatus) {
    selected.Some? && selected.value.id == c.id
  }

  /** Among cities with distinct ids, at most one marker is highlighted. */
  lemma AtMostOneActiveMarker(selected: Option<CityWithDeviceStatus>, cs: seq<CityWithDeviceStatus>, i: int, j: int)
    requires forall k, l :: 0 <= k < l < |cs| ==> cs[k].id != cs[l].id
    requires 0 <= i < |cs| && 0 <= j < |cs|
    requires MarkerActive(selected, cs[i]) && MarkerActive(selected, cs[j])
    ensures i == j
  {
  }

  /** Width of the info card, in pixels. */
  const CardWidth: int := 280

  /** Distance between the marker and the card, in pixels. */
  const CardGap: int := 20

  datatype Point = Point(x: int, y: int)

  /**
   * Where the card opens for a click at (pointX, pointY) on a map
   * `mapWidth` pixels wide: to the right of the marker when the card fits,
   * otherwise to its left, always 20 pixels away and 20 pixels higher.
   */
  function InfoCardPosition(pointX: int, pointY: int, mapWidth: int): (p: Point)
    ensures p.y == pointY - CardGap
    ensures p.x == pointX + CardGap <==> pointX + CardGap + CardWidth <= mapWidth
    ensures p.x != pointX + CardGap ==> p.x + CardWidth + CardGap == pointX
    ensures p.x > pointX || p.x + CardWidth < pointX
  {
    var xPos := pointX + CardGap;
    if xPos + CardWidth > mapWidth then Point(pointX - CardWidth - CardGap, pointY - CardGap)
    else Point(xPos, pointY - CardGap)
  }

  /** The selected city and the card position of the map panel. */
  class MapView {
    var selectedCity: Option<CityWithDeviceStatus>
    var cardPosition: Point

    /** Nothing selected; the card position starts at the origin. */
    constructor()
      ensures selectedCity == None && cardPosition == Point(0, 0)
      ensures !InfoCardShown()
    {
      selectedCity := None;
      cardPosition := Point(0, 0);
    }

    /** The info card is rendered exactly when a city is selected. */
    predicate InfoCardShown()
      reads this
    {
      selectedCity.Some?
    }

    /**
     * `handleCityClick`: select the city and place the card by the click;
     * a map whose width cannot be read counts as zero wide.
     */
    method HandleCityClick(city: CityWithDeviceStatus, pointX: int, pointY: int, mapWidth: Option<int>)
      modifies this
      ensures selectedCity == Some(city)
      ensures cardPosition == InfoCardPosition(pointX, pointY, mapWidth.GetOr(0))
      ensures InfoCardShown()
    {
      selectedCity := Some(city);
      var width := mapWidth.GetOr(0);
      var xPos := pointX + CardGap;
      if xPos + CardWidth > width {
        xPos := pointX - CardWidth - CardGap;
      }
      cardPosition := Point(xPos, pointY - CardGap);
    }

    /** `handleCloseInfoCard`: deselect; the card closes and its position stays. */
    method HandleCloseInfoCard()
      modifies this`selectedCity
      ensures selectedCity == None
      ensures !InfoCardShown()
    {
      selectedCity := None;
    }

    /** `handleMapClick`: a click off every marker closes the card; one on a marker leaves it. */
    method HandleMapClick(onMarker: bool)
      modifies this`selectedCity
      ensures onMarker ==> selectedCity == old(selectedCity)
      ensures !onMarker ==> selectedCity == None && !InfoCardShown()
    {
      if !onMarker {
        selectedCity := None;
      }
    }
  }
}
