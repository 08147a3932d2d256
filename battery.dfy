/** The battery check of `Robot.BatteryDisplay`: the hub voltage (in mV) is
    rescaled to a percentage between LOW_VOLTAGE and HIGH_VOLTAGE and mapped
    to a status colour. */
module Battery {
  import opened Base
  import opened Rescaling

  const LOW_VOLTAGE: int := 7000
  const HIGH_VOLTAGE: int := 8000

  /** The value of the module-level `battery_status_light`. No statement of
      the script assigns the module-level name after its initialisation. */
  const BATTERY_STATUS_LIGHT: Color := Green

  /** `Rescale(v, LOW_VOLTAGE, HIGH_VOLTAGE, 1, 100)`. */
  function BatteryPercent(v: int): (p: real)
    requires v != 0
    ensures v > 0 ==> 1.0 <= p <= 100.0
    ensures v < 0 ==> -100.0 <= p <= -1.0
  {
    Rescale(v as real, LOW_VOLTAGE as real, HIGH_VOLTAGE as real, 1.0, 100.0)
  }

  /** An independent statement of the percentage for a positive voltage:
      1 up to LOW_VOLTAGE, 100 from HIGH_VOLTAGE on, and in between one
      percent per 10 mV above LOW_VOLTAGE, never below 1. */
  function ReferencePercent(v: int): real
  {
    if v <= LOW_VOLTAGE then 1.0
    else if v >= HIGH_VOLTAGE then 100.0
    else
      var p := (v - LOW_VOLTAGE) as real / 10.0;
      if p < 1.0 then 1.0 else p
  }

  lemma BatteryPercentFormula(v: int)
    requires v > 0
    ensures BatteryPercent(v) == ReferencePercent(v)
  {
  }

  /** The branches on `vPct` (the colour passed to `StatusLight`). The
      `vPct >= 70` branch reads `battery_status_light`, which the function's
      own assignments make a local name that this path never assigns: it
      raises NameError. */
  function StatusTier(vPct: real): (o: Outcome<Color>)
    ensures o == Ok(Red) <==> vPct < 10.0
    ensures o == Ok(Yellow) <==> 10.0 <= vPct < 70.0
    ensures o == Raised(NameError("battery_status_light")) <==> vPct >= 70.0
    ensures o != Ok(Green)
  {
    if vPct < 70.0 then
      if vPct < 10.0 then Ok(Red) else Ok(Yellow)
    else
      Raised(NameError("battery_status_light"))
  }

  /** `BatteryDisplay` for a hub voltage v, as written. In voltage terms the
      tiers are: below 7100 mV red, 7100 up to 7700 mV yellow, and from
      7700 mV on the read of the unbound local. */
  function BatteryDisplay(v: int): (o: Outcome<Color>)
    requires v != 0
    ensures v > 0 ==> (o == Ok(Red) <==> v < 7100)
    ensures v > 0 ==> (o == Ok(Yellow) <==> 7100 <= v < 7700)
    ensures v > 0 ==> (o.Raised? <==> v >= 7700)
    ensures v < 0 ==> o == Ok(Red)
  {
    if v > 0 then BatteryPercentFormula(v); StatusTier(BatteryPercent(v))
    else StatusTier(BatteryPercent(v))
  }

  /** A fully charged battery (8000 mV) makes the as-written BatteryDisplay raise. */
  lemma BatteryDisplayFullBatteryRaises()
    ensures BatteryDisplay(8000) == Raised(NameError("battery_status_light"))
  {
  }

  /** BatteryDisplay with `global battery_status_light` declared, as the
      initialisation of that global evidently intends: `current` is the value
      of the global before the call, the result its value afterwards, which
      is also the colour shown. */
  function BatteryDisplayWithGlobal(v: int, current: Color): (light: Color)
    requires v != 0
    ensures v > 0 ==> (light == Red <==> v < 7100 || (v >= 7700 && current == Red))
    ensures v > 0 ==> (light == Yellow <==> (7100 <= v < 7700) || (v >= 7700 && current == Yellow))
    ensures v >= 7700 ==> light == current
    // below 70 % the correction shows what the as-written code shows
    ensures v < 7700 ==> BatteryDisplay(v) == Ok(light)
  {
    var pct := BatteryPercent(v);
    if pct < 70.0 then
      if pct < 10.0 then Red else Yellow
    else current
  }

  /** Started from the initial global (GREEN), the corrected display never
      raises and picks all three tiers: red below 7100 mV, yellow up to
      7700 mV, green from there on. */
  lemma StartupLightTiers(v: int)
    requires v > 0
    ensures BatteryDisplayWithGlobal(v, BATTERY_STATUS_LIGHT) == Red <==> v < 7100
    ensures BatteryDisplayWithGlobal(v, BATTERY_STATUS_LIGHT) == Yellow <==> 7100 <= v < 7700
    ensures BatteryDisplayWithGlobal(v, BATTERY_STATUS_LIGHT) == Green <==> v >= 7700
  {
  }
}
