/**
 * The display helpers shared by the map: relative time, the icon of a
 * device type, and the colour and label of a device status. Each is a
 * total mapping: a string outside the enumerations gets a neutral default.
 */
module MapData {
  import opened Schema
  import opened Text

  const MsPerMinute: int := 60000
  const MinutesPerHour: int := 60
  const MinutesPerDay: int := 1440

  /** `Math.floor(diffMs / 60000)`: for a positive divisor Dafny's division rounds down, as `Math.floor` does. */
  function Minutes(diffMs: int): (m: int)
    ensures m * MsPerMinute <= diffMs < (m + 1) * MsPerMinute
  {
    diffMs / MsPerMinute
  }

  /** The last character of a non-empty string: the unit of a formatted duration. */
  function Unit(s: string): char
    requires s != []
  {
    s[|s| - 1]
  }

  /** Everything before the unit. */
  function Amount(s: string): string
    requires s != []
  {
    s[..|s| - 1]
  }

  /** `formatTimeDifference`, given the difference between now and the timestamp in milliseconds. */
  function FormatTimeDifference(diffMs: int): string {
    var diffMin := Minutes(diffMs);
    if diffMin < 1 then "justo ahora"
    else if diffMin < MinutesPerHour then NatToString(diffMin) + "m"
    else if diffMin < MinutesPerDay then NatToString(diffMin / MinutesPerHour) + "h"
    else NatToString(diffMin / MinutesPerDay) + "d"
  }

  /**
   * The four buckets of `formatTimeDifference` are disjoint and cover every
   * difference: under a minute is "justo ahora"; then whole minutes below
   * an hour, whole hours below a day, and whole days; the number before
   * the unit reads back as the count of that unit.
   */
  lemma FormatTimeDifferenceBuckets(diffMs: int)
    ensures var r, m := FormatTimeDifference(diffMs), Minutes(diffMs);
      && r != []
      && (r == "justo ahora" <==> m < 1)
      && (Unit(r) == 'm' <==> 1 <= m < MinutesPerHour)
      && (Unit(r) == 'h' <==> MinutesPerHour <= m < MinutesPerDay)
      && (Unit(r) == 'd' <==> MinutesPerDay <= m)
      && (Unit(r) in "mhd" ==> IsDigits(Amount(r)))
      && (Unit(r) == 'm' ==> ParseNat(Amount(r)) == m)
      && (Unit(r) == 'h' ==> ParseNat(Amount(r)) == m / MinutesPerHour)
      && (Unit(r) == 'd' ==> ParseNat(Amount(r)) == m / MinutesPerDay)
  {
    var r, m := FormatTimeDifference(diffMs), Minutes(diffMs);
    if m >= 1 {
      var n := if m < MinutesPerHour then m else if m < MinutesPerDay then m / MinutesPerHour else m / MinutesPerDay;
      assert Amount(r) == NatToString(n);
      NatRoundTrip(n);
    }
  }

  /** `getDeviceIcon` of the map helpers: the icon depends on the type alone. */
  function TypeIcon(deviceType: string): (icon: string)
    ensures icon == "devices" <==> ParseType(deviceType).None?
    ensures icon in {"wifi", "thermostat", "videocam", "devices"}
  {
    match ParseType(deviceType)
    case Some(Router) => "wifi"
    case Some(Sensor) => "thermostat"
    case Some(Camera) => "videocam"
    case None => "devices"
  }

  /** `getStatusColor`: the colour of a status, neutral grey for anything else. */
  function StatusColor(status: string): (colour: string)
    ensures colour == "#5F6368" <==> ParseStatus(status).None?
  {
    match ParseStatus(status)
    case Some(Online) => "#34A853"
    case Some(Warning) => "#FBBC04"
    case Some(Offline) => "#EA4335"
    case None => "#5F6368"
  }

  /** `getStatusText`: the label of a status, "Desconocido" for anything else. */
  function StatusText(status: string): (text: string)
    ensures text == "Desconocido" <==> ParseStatus(status).None?
  {
    match ParseStatus(status)
    case Some(Online) => "En línea"
    case Some(Warning) => "Advertencia"
    case Some(Offline) => "Fuera de línea"
    case None => "Desconocido"
  }

  /** Distinct device types get distinct icons. */
  lemma TypeIconInjective(t: DeviceType, u: DeviceType)
    ensures TypeIcon(TypeName(t)) == TypeIcon(TypeName(u)) <==> t == u
  {
    TypeNameRoundTrip(t);
    TypeNameRoundTrip(u);
  }

  /** Distinct statuses get distinct colours and distinct labels. */
  lemma StatusDisplayInjective(s: DeviceStatus, t: DeviceStatus)
    ensures StatusColor(StatusName(s)) == StatusColor(StatusName(t)) <==> s == t
    ensures StatusText(StatusName(s)) == StatusText(StatusName(t)) <==> s == t
  {
    StatusNameRoundTrip(s);
    StatusNameRoundTrip(t);
  }
}
