/**
 * The sentence whitelist and the per-sentence extraction table of
 * `handle_data`: which parsed attribute is copied to which snapshot key.
 */
module Nmea {

  /** The twelve NMEA 0183 talker+type codes the ingest loop accepts. */
  const Devices: seq<string> := [
    "$GPDPT", "$GPGGA", "$GPHDG", "$GPHDT", "$GPMTW", "$GPMWV",
    "$GPRMC", "$GPROT", "$GPVHW", "$GPVLW", "$GPVTG", "$GPZDA"
  ]

  /** `sentence[:6]`: the first six characters, or the whole line if it is shorter. */
  function DevicePrefix(line: string): (p: string)
    ensures |p| == if |line| < 6 then |line| else 6
    ensures p <= line
  {
    if |line| <= 6 then line else line[..6]
  }

  /** The whitelist test of the ingest loop: `device in devices`. */
  predicate IsKnown(line: string) {
    DevicePrefix(line) in Devices
  }

  /** One `if device_data.<attr>: sorted_data[<key>] = device_data.<attr>`. */
  datatype Field = Field(attr: string, key: string)

  /**
   * The copies `handle_data` performs for a device code, in source order.
   * A code without a `case` (such as "$GPHDT") copies nothing.
   */
  function Rule(device: string): seq<Field> {
    if device == "$GPDPT" then [Field("depth", "depth")]
    else if device == "$GPGGA" then
      [ Field("lat", "lat"), Field("lat_dir", "lat_dir"),
        Field("lon", "lon"), Field("lon_dir", "lon_dir"),
        Field("num_sats", "num_sats"), Field("horizontal_dil", "horizontal_dil"),
        Field("altitude", "altitude"), Field("geo_sep", "geo_sep") ]
    else if device == "$GPGSV" then [Field("geo_sep", "geo_sep")]
    else if device == "$GPHDG" then [Field("heading", "heading")]
    else if device == "$GPMTW" then [Field("temperature", "temperature")]
    else if device == "$GPMWV" then [Field("wind_angle", "AWA"), Field("wind_speed", "AWS")]
    else if device == "$GPRMC" then
      [ Field("spd_over_grnd", "speed"), Field("true_course", "true_course"),
        Field("mag_variation", "mag_var"), Field("mag_var_dir", "mag_var_dir") ]
    else if device == "$GPROT" then [Field("rate_of_turn", "rate_of_turn")]
    else if device == "$GPVHW" then
      [ Field("heading_true", "true_heading"), Field("heading_magnetic", "heading_magnetic"),
        Field("water_speed_knots", "water_speed") ]
    else if device == "$GPVLW" then [Field("trip_distance", "trip_distance")]
    else if device == "$GPVTG" then [Field("true_track", "true_track"), Field("mag_track", "mag_track")]
    else if device == "$GPZDA" then [Field("local_zone", "local_zone")]
    else []
  }

  /** The snapshot keys a device code may write. */
  function OutKeys(device: string): set<string> {
    set f | f in Rule(device) :: f.key
  }

  /** No device's table names the same key twice. */
  predicate DistinctKeys(rule: seq<Field>) {
    forall i, j :: 0 <= i < j < |rule| ==> rule[i].key != rule[j].key
  }

  /**
   * A line passes the whitelist exactly when it has at least six
   * characters and those six are one of the twelve codes: every code is
   * six characters long, so a shorter line never passes.
   */
  lemma KnownIff(line: string)
    ensures IsKnown(line) <==> |line| >= 6 && line[..6] in Devices
  {
    if |line| < 6 {
      assert forall c :: c in Devices ==> |c| == 6;
    } else if |line| == 6 {
      assert line[..6] == line;
    }
  }

  /** "$GPGSV" is not whitelisted, so its `case` never runs. */
  lemma GsvUnreachable(line: string)
    requires IsKnown(line)
    ensures DevicePrefix(line) != "$GPGSV"
  {
  }

  /** Within one device's table every key is written at most once. */
  lemma RuleKeysDistinct(device: string)
    ensures DistinctKeys(Rule(device))
  {
    match device {
      case "$GPDPT" =>
      case "$GPGGA" => GgaKeysDistinct();
      case "$GPGSV" =>
      case "$GPHDG" =>
      case "$GPMTW" =>
      case "$GPMWV" =>
      case "$GPRMC" =>
      case "$GPROT" =>
      case "$GPVHW" =>
      case "$GPVLW" =>
      case "$GPVTG" =>
      case "$GPZDA" =>
      case _ =>
    }
  }

  lemma GgaKeysDistinct()
    ensures DistinctKeys(Rule("$GPGGA"))
  {
    var rule := Rule("$GPGGA");
    assert forall i :: 0 <= i < |rule| ==> rule[i].key == rule[i].attr;
    assert forall i, j :: 0 <= i < j < |rule| ==> rule[i].attr != rule[j].attr;
  }

  /** Of the twelve whitelisted codes, only "$GPHDT" has no `case`. */
  lemma OnlyHdtUnhandled(device: string)
    requires device in Devices
    ensures Rule(device) == [] <==> device == "$GPHDT"
  {
    match device {
      case "$GPDPT" =>
      case "$GPGGA" =>
      case "$GPGSV" =>
      case "$GPHDG" =>
      case "$GPMTW" =>
      case "$GPMWV" =>
      case "$GPRMC" =>
      case "$GPROT" =>
      case "$GPVHW" =>
      case "$GPVLW" =>
      case "$GPVTG" =>
      case "$GPZDA" =>
      case _ =>
    }
  }

  /** No sentence writes the derived keys TWS and TWA; only the flush does. */
  lemma NoDeviceWritesTrueWind(device: string)
    ensures "TWS" !in OutKeys(device) && "TWA" !in OutKeys(device)
  {
    var rule := Rule(device);
    forall i | 0 <= i < |rule| ensures rule[i].key != "TWS" && rule[i].key != "TWA" {
      match device {
        case "$GPDPT" =>
        case "$GPGGA" =>
        case "$GPGSV" =>
        case "$GPHDG" =>
        case "$GPMTW" =>
        case "$GPMWV" =>
        case "$GPRMC" =>
        case "$GPROT" =>
        case "$GPVHW" =>
        case "$GPVLW" =>
        case "$GPVTG" =>
        case "$GPZDA" =>
        case _ =>
      }
    }
  }
}
