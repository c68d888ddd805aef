/**
 * The info card of a selected city: the devices that pass the type and
 * status filters, their counts by status, the three-device preview, and
 * the per-device display helpers.
 */
module InfoCard {
  import opened Lists
  import opened Schema
  import opened Text
  import opened MapPage
  import opened MapData

  /** `filters.deviceTypes[device.type]`: a type outside the enumeration finds no key. */
  predicate TypeOn(f: Filters, deviceType: string) {
    match ParseType(deviceType)
    case Some(t) => TypeEnabled(f, t)
    case None => false
  }

  /** `filters.deviceStatus[device.status]`: a status outside the enumeration finds no key. */
  predicate StatusOn(f: Filters, status: string) {
    match ParseStatus(status)
    case Some(s) => StatusEnabled(f, s)
    case None => false
  }

  /** The card's device predicate: type and status; the city map is not consulted. */
  function Passes(f: Filters): DeviceWithCity -> bool {
    (d: DeviceWithCity) => TypeOn(f, d.deviceType) && StatusOn(f, d.status)
  }

  function ViewHasStatus(status: string): DeviceWithCity -> bool {
    (d: DeviceWithCity) => d.status == status
  }

  /**
   * `filteredDevices`: the devices whose type and status are both enabled,
   * in their order, and no others.
   */
  function FilteredDevices(ds: seq<DeviceWithCity>, f: Filters): (r: seq<DeviceWithCity>)
    ensures IsSubsequence(r, ds)
    ensures forall i :: 0 <= i < |r| ==> TypeOn(f, r[i].deviceType) && StatusOn(f, r[i].status)
    ensures forall i :: 0 <= i < |ds| && TypeOn(f, ds[i].deviceType) && StatusOn(f, ds[i].status) ==> ds[i] in r
    ensures |r| == CountWhere(ds, Passes(f))
  {
    FilterIsSubsequence(ds, Passes(f));
    FilterLength(ds, Passes(f));
    Filter(ds, Passes(f))
  }

  /** Whatever the city map holds, the card shows the same devices. */
  lemma FilteredDevicesIgnoreCities(ds: seq<DeviceWithCity>, f: Filters, cities: map<int, bool>)
    ensures FilteredDevices(ds, f.(cities := cities)) == FilteredDevices(ds, f)
  {
    FilterCongruent(ds, Passes(f.(cities := cities)), Passes(f));
  }

  datatype StatusCounts = StatusCounts(online: nat, warning: nat, offline: nat)

  /**
   * The three counts shown on the card: each is the number of devices with
   * exactly that status, and together they account for every device
   * exactly when every status is one of the enumeration's.
   */
  function CountByStatus(filtered: seq<DeviceWithCity>): (c: StatusCounts)
    ensures c.online == CountWhere(filtered, ViewHasStatus("online"))
    ensures c.warning == CountWhere(filtered, ViewHasStatus("warning"))
    ensures c.offline == CountWhere(filtered, ViewHasStatus("offline"))
    ensures c.online + c.warning + c.offline <= |filtered|
    ensures c.online + c.warning + c.offline == |filtered| <==>
              forall i :: 0 <= i < |filtered| ==> ParseStatus(filtered[i].status).Some?
  {
    FilterLength(filtered, ViewHasStatus("online"));
    FilterLength(filtered, ViewHasStatus("warning"));
    FilterLength(filtered, ViewHasStatus("offline"));
    ExclusiveCounts(filtered, ViewHasStatus("online"), ViewHasStatus("warning"), ViewHasStatus("offline"));
    StatusCounts(|Filter(filtered, ViewHasStatus("online"))|,
                 |Filter(filtered, ViewHasStatus("warning"))|,
                 |Filter(filtered, ViewHasStatus("offline"))|)
  }

  /** How many devices the card lists before "show all". */
  const PreviewSize: nat := 3

  /** `displayedDevices`: all of them when `showAll`, otherwise the first three (or fewer). */
  function DisplayedDevices(filtered: seq<DeviceWithCity>, showAll: bool): (r: seq<DeviceWithCity>)
    ensures r <= filtered
    ensures showAll ==> r == filtered
    ensures !showAll ==> |r| == if |filtered| < PreviewSize then |filtered| else PreviewSize
  {
    if showAll then filtered else Take(filtered, PreviewSize)
  }

  /** The "show all" button is rendered when there are more than three devices. */
  predicate ShowAllButtonVisible(filtered: seq<DeviceWithCity>) {
    |filtered| > PreviewSize
  }

  /** The button is shown exactly when pressing it would change the list. */
  lemma ShowAllButtonMatters(filtered: seq<DeviceWithCity>)
    ensures ShowAllButtonVisible(filtered) <==> DisplayedDevices(filtered, true) != DisplayedDevices(filtered, false)
  {
    if ShowAllButtonVisible(filtered) {
      assert |DisplayedDevices(filtered, false)| == PreviewSize;
    }
  }

  /**
   * Under the initial filters a device is listed exactly when its type is
   * one of the enumeration's and its status is online or warning.
   */
  lemma InitialFiltersHideOffline(d: DeviceWithCity)
    ensures Passes(InitialFilters)(d) <==>
              ParseType(d.deviceType).Some? && (d.status == "online" || d.status == "warning")
  {
    StatusNameRoundTrip(Online);
    StatusNameRoundTrip(Warning);
  }

  /** A city with two online devices, one warning and one offline shows three of them at first. */
  lemma InitialFiltersExample(a: DeviceWithCity, b: DeviceWithCity, c: DeviceWithCity, d: DeviceWithCity)
    requires a.status == "online" && b.status == "online" && c.status == "warning" && d.status == "offline"
    requires ParseType(a.deviceType).Some? && ParseType(b.deviceType).Some?
    requires ParseType(c.deviceType).Some? && ParseType(d.deviceType).Some?
    ensures FilteredDevices([a, b, c, d], InitialFilters) == [a, b, c]
  {
    var f := Passes(InitialFilters);
    InitialFiltersHideOffline(a);
    InitialFiltersHideOffline(b);
    InitialFiltersHideOffline(c);
    InitialFiltersHideOffline(d);
    assert [c, d][1..] == [d];
    assert Filter([c, d], f) == [c];
    assert [b, c, d][1..] == [c, d];
    assert Filter([b, c, d], f) == [b, c];
    assert [a, b, c, d][1..] == [b, c, d];
  }

  /** `formatTimeDiff`, given the difference between now and the timestamp in milliseconds. */
  function FormatTimeDiff(diffMs: int): string {
    var diffMin := Minutes(diffMs);
    if diffMin < MinutesPerHour then IntToString(diffMin) + "m"
    else if diffMin < MinutesPerDay then NatToString(diffMin / MinutesPerHour) + "h"
    else NatToString(diffMin / MinutesPerDay) + "d"
  }

  /**
   * The three buckets of `formatTimeDiff`: whole minutes below an hour
   * (zero and negative differences included), whole hours below a day, and
   * whole days; the number before the unit reads back as that count.
   */
  lemma FormatTimeDiffBuckets(diffMs: int)
    ensures var r, m := FormatTimeDiff(diffMs), Minutes(diffMs);
      && r != []
      && (Unit(r) == 'm' <==> m < MinutesPerHour)
      && (Unit(r) == 'h' <==> MinutesPerHour <= m < MinutesPerDay)
      && (Unit(r) == 'd' <==> MinutesPerDay <= m)
      && (Unit(r) == 'm' ==> |Amount(r)| >= 1 && ParseInt(Amount(r)) == m)
      && (Unit(r) == 'h' ==> IsDigits(Amount(r)) && ParseNat(Amount(r)) == m / MinutesPerHour)
      && (Unit(r) == 'd' ==> IsDigits(Amount(r)) && ParseNat(Amount(r)) == m / MinutesPerDay)
  {
    var r, m := FormatTimeDiff(diffMs), Minutes(diffMs);
    if m < MinutesPerHour {
      assert Amount(r) == IntToString(m);
      IntRoundTrip(m);
    } else {
      var n := if m < MinutesPerDay then m / MinutesPerHour else m / MinutesPerDay;
      assert Amount(r) == NatToString(n);
      NatRoundTrip(n);
    }
  }

  /**
   * The card's and the map's formatting agree from one minute on; below a
   * minute the map says "justo ahora" and the card prints the minutes.
   */
  lemma FormatTimeDiffAgreesWithMap(diffMs: int)
    ensures Minutes(diffMs) >= 1 ==> FormatTimeDiff(diffMs) == FormatTimeDifference(diffMs)
    ensures Minutes(diffMs) < 1 ==>
              FormatTimeDifference(diffMs) == "justo ahora" &&
              FormatTimeDiff(diffMs) == IntToString(Minutes(diffMs)) + "m"
  {
  }

  /** The card's `getDeviceIcon`: a power-off icon for an offline device, else the type's icon. */
  function CardDeviceIcon(deviceType: string, status: string): (icon: string)
    ensures icon == "power_off" <==> status == "offline"
    ensures status != "offline" ==> icon == TypeIcon(deviceType)
  {
    if status == "offline" then "power_off" else TypeIcon(deviceType)
  }

  /** `getStatusColorClass`: a class per status, a neutral one for anything else. */
  function StatusColorClass(status: string): (cls: string)
    ensures cls == "text-neutral-400" <==> ParseStatus(status).None?
  {
    match ParseStatus(status)
    case Some(Online) => "text-success"
    case Some(Warning) => "text-warning"
    case Some(Offline) => "text-error"
    case None => "text-neutral-400"
  }

  /** Distinct statuses get distinct colour classes. */
  lemma StatusColorClassInjective(s: DeviceStatus, t: DeviceStatus)
    ensures StatusColorClass(StatusName(s)) == StatusColorClass(StatusName(t)) <==> s == t
  {
    StatusNameRoundTrip(s);
    StatusNameRoundTrip(t);
  }
}
