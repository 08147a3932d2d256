# FLL-2024 robot script: the logic core of `main.py`

`main.py` drives a LEGO Prime hub robot for a FIRST LEGO League season. Most
of the file is calls into the pybricks firmware and fixed motion scripts.
This project models the four pieces of plain logic in it and proves what
they do:

- **`Rescale`**: clamped linear rescaling that carries the sign of the
  input. The battery check uses it to turn the hub voltage (mV) into a
  percentage from 1 to 100.
- **The battery status tier of `Robot.BatteryDisplay`**: the percentage
  chooses RED (below 10), YELLOW (from 10 up to 70) or, from 70 on, a read of
  `battery_status_light`. The function itself assigns that name, so Python
  treats it as a local name. On this path it has not been assigned, so the
  read raises. pybricks runs MicroPython, which raises `NameError` ("local
  variable referenced before assignment"); CPython raises its subclass
  `UnboundLocalError`. The model calls the error `NameError`.
- **`RunMission`**: token `"1"` to `"7"` selects exactly one of
  `Run1`..`Run7`. The function returns the token. Token `"7"` always raises
  `NameError` for `all_start_time`, because only the `"1"` branch of the
  same call assigns that local.
- **The top-level menu loop**: it builds `current_menu`, which is
  `MENU_OPTIONS` rotated to start just after `last_run`. A pick of `"C"`
  leaves `last_run` as it is. Any other pick sets `last_run` to the value
  `RunMission` returns. An exception ends the script.

Layout: `base.dfy` (module `Base`: Option, the Python exceptions, Outcome,
colours), `rescale.dfy` (`Rescaling`), `battery.dfy` (`Battery`),
`missions.dfy` (`Missions`), `menu.dfy` (`Menu`, with the class
`Menu.MenuLoop` holding `last_run`).

What the code does, as the model states it:
- The tiers split at 10 % and 70 %. The message on line 96 mentions only
  the 70 % mark.
- The outcomes are RED, YELLOW, or the error on the `vPct >= 70` branch.
- Half-way between the reference voltages (7500 mV) the percentage is 50,
  because `out_min` does not enter the slope.
- `Battery.BATTERY_STATUS_LIGHT` is the module-level `battery_status_light`
  of line 19. No statement of `main.py` assigns the module-level name after
  that: lines 94 and 97 assign a local. So the constant is GREEN.
- The startup call `my_robot.BatteryDisplay()` (line 315) is outside any
  `try`. From 7700 mV on it raises, and the script stops before
  `last_run = "C"` (line 318). The menu loop is reached only below 7700 mV
  (`Menu.StartupReachesMenu`).

In voltage terms (`Battery.BatteryDisplay`): below 7100 mV the light is
red, from 7100 mV to just under 7700 mV it is yellow, and from 7700 mV on
the call raises.

## Model

| member | source | states |
|---|---|---|
| `Rescaling.Sign` | main.py:272 | `value / abs(value)` is 1 for a positive and -1 for a negative input |
| `Rescaling.Rescale` | main.py:271-279 | for a positive value the result is at least out_min, for a negative one at most -out_min; when out_min <= out_max the magnitude is also at most out_max; when 0 <= out_min the magnitude is at least out_min; when 0 < out_min the result has the sign of the input |
| `Rescaling.RescaleOdd` | main.py:272-279 | only abs(value) enters: Rescale(-v) == -Rescale(v) |
| `Rescaling.RescaleSaturatesHigh` | main.py:275-277 | when out_min <= out_max, abs(value) >= in_max gives sign(value) * out_max |
| `Rescaling.RescaleSaturatesLow` | main.py:274-278 | abs(value) <= in_min gives a raw value of 0, which the lower clamp turns into sign(value) * out_min when 0 <= out_min (whatever out_max is) |
| `Rescaling.RescaleLinear` | main.py:274-278 | between in_min and in_max the magnitude is (abs(value) - in_min) * out_max / (in_max - in_min), clamped into [out_min, out_max] |
| `Rescaling.MagnitudeMonotone` | main.py:273-278 | when out_max > 0 (any out_min), or when out_min >= 0 (any out_max), the clamped magnitude never decreases as abs(value) grows |
| `Rescaling.MagnitudeNonNegative` | main.py:273-278 | under the same condition the clamped magnitude is never negative |
| `Rescaling.RescaleMonotone` | main.py:271-279 | when out_max > 0 or out_min >= 0, Rescale is monotone over all non-zero inputs, including across 0 |
| `Battery.BatteryPercent` | main.py:89 | for a positive voltage the percentage lies in [1, 100], for a negative one in [-100, -1] |
| `Battery.BatteryPercentFormula` | main.py:89 | for v > 0 the percentage equals an independent formula: 1 up to 7000 mV, 100 from 8000 mV, otherwise (v - 7000) / 10 but at least 1 |
| `Battery.StatusTier` | main.py:91-100 | RED iff vPct < 10, YELLOW iff 10 <= vPct < 70, NameError("battery_status_light") iff vPct >= 70; never GREEN |
| `Battery.BatteryDisplay` | main.py:86-100 | for v > 0: RED iff v < 7100, YELLOW iff 7100 <= v < 7700, raises iff v >= 7700; for v < 0: RED |
| `Battery.BatteryDisplayFullBatteryRaises` | main.py:99-100 | at 8000 mV the as-written display raises NameError |
| `Battery.BatteryDisplayWithGlobal` | main.py:86-100 | with `global battery_status_light` declared: below 7700 mV it shows the same colour as the code as written; from 7700 mV on it keeps the global's current colour; it never raises |
| `Battery.StartupLightTiers` | main.py:19 | starting from the initial GREEN, the corrected display gives red below 7100 mV, yellow up to 7700 mV, green after |
| `Missions.RoutineFor` | main.py:287-301 | a routine runs iff the token is one of "1".."7", and it is the routine that the token names |
| `Missions.RoutineForToken` | main.py:287-301 | the token of each routine dispatches to that routine (inverse of Token) |
| `Missions.DispatchInjective` | main.py:287-301 | two tokens that dispatch to the same routine are equal |
| `Missions.RunMission` | main.py:281-306 | runs RoutineFor(selected); raises NameError("all_start_time") iff selected == "7"; otherwise returns selected and leaves the module-level light on |
| `Missions.SevenRaisesAfterOne` | main.py:287-304 | even right after run 1 returned, run 7 raises on all_start_time, so the total-time line is never reached |
| `Missions.RunMissionWithGlobal` | main.py:281-306 | with `global all_start_time`: "1" assigns it; "7" reports the total iff it was assigned before and raises otherwise; every other token behaves as written |
| `Missions.AllStartAfterSeesOne` | main.py:287-289 | after a sequence of corrected calls the global is assigned iff it was before or some pick was "1" |
| `Missions.TotalReportedAfterOne` | main.py:303-304 | with the correction, run 7 reports the total iff run 1 came earlier in the session |
| `Menu.IndexOf` | main.py:323 | `list.index`: a position holding x, with no earlier x |
| `Menu.RotateLeftAt` | main.py:323 | element i of s rotated by j is s[(i + j) % len(s)] |
| `Menu.RotateLeftPermutation` | main.py:321-323 | a rotation holds every element with the same multiplicity |
| `Menu.RotatedMenuAt` | main.py:323 | element i of the rotation after position k is s[(i + k + 1) % len(s)] |
| `Menu.RotationByIndex` | main.py:321-323 | a list built element by element as s[(i + k + 1) % len(s)] is s rotated to start after k |
| `Menu.RotatedMenu` | main.py:321-323 | the menu for last_run: ValueError iff there are options and last_run is not one of them; otherwise the rotation, as long as the options |
| `Menu.BuildMenu` | main.py:321-323 | the appending loop yields the rotated menu; with no options it yields [] without calling index, and a last_run that is missing gives ValueError |
| `Menu.MenuEnds` | main.py:321-323 | the menu has len(options) entries, ends with last_run, and starts with the option after it, wrapping around to the first |
| `Menu.MenuIsPermutation` | main.py:321-323 | whenever the menu is built, it is a permutation of options |
| `Menu.MenuOptionsDistinct` | main.py:12 | MENU_OPTIONS has no repeated token |
| `Menu.MenuEachOptionOnce` | main.py:321-323 | every option of MENU_OPTIONS appears exactly once in any menu |
| `Menu.InitialMenu` | main.py:318 | with the initial last_run "C" the menu is MENU_OPTIONS unchanged |
| `Menu.MenuAfterThree` | main.py:321-323 | after run 3 the menu is 4, 5, 6, 7, C, 1, 2, 3 |
| `Menu.NextLastRun` | main.py:325-328 | "C" keeps last_run; "7" raises NameError("all_start_time"); any other pick becomes last_run |
| `Menu.LastRunAfter` | main.py:318-328 | the loop over a sequence of picks, stopping at the first exception: it raises NameError("all_start_time") iff a pick is "7"; otherwise last_run ends as its old value or one of the picks |
| `Menu.LastRunAfterIsLastMission` | main.py:318-328 | over any sequence of picks the loop ends with NameError("all_start_time") iff some pick is "7"; otherwise last_run is the last pick that is not "C", or is unchanged |
| `Menu.LastRunAfterSplit` | main.py:318-328 | running the loop over picks a then b is running it over a and, unless that raised, continuing over b from the last_run it left; a raise in a ends the whole run with the same error |
| `Menu.LastRunAfterStep` | main.py:324-328 | one more pass of the loop applies the pick's effect on last_run (NextLastRun) to the state the earlier picks left |
| `Menu.MissionRestoresBatteryTier` | main.py:305 | with the corrected display, a mission that returns leaves the battery tier's colour on |
| `Menu.StartupReachesMenu` | main.py:315 | for v > 0 the startup display returns, and so the menu loop is reached, iff v < 7700 mV |
| `Menu.MissionLeavesGreen` | main.py:305 | as written, at every voltage that reaches the menu the startup light was red or yellow, and a mission that returns turns it GREEN, because the global is never reassigned |
| `Menu.MenuLoop.constructor` | main.py:318 | last_run starts as "C" (reached only below 7700 mV) |
| `Menu.MenuLoop.Iterate` | main.py:319-328 | one pass of the loop presents the rotated menu for the old last_run and updates last_run as NextLastRun says; last_run stays a menu option other than "7" |
| `Menu.MenuLoop.Run` | main.py:319-328 | the loop over a finite sequence of picks ends in the state LastRunAfter describes, stopping at the first exception; when a "7" raises, last_run is what LastRunAfter gives for the picks before that "7", since the assignment at line 326 never runs |

## Findings

| source | as written | input that shows it | evidently intended | confidence | as-written member | corrected member |
|---|---|---|---|---|---|---|
| main.py:91-100 | `BatteryDisplay` assigns `battery_status_light` at lines 94 and 97 without a `global` statement. So the name is local: the `vPct >= 70` branch reads it unbound and raises, and the module-level light (line 19) is never updated for later `RunMission` calls. The raise also hits the startup call at line 315, outside any `try`: from 7700 mV on the script stops before the menu (line 318) is ever shown | hub voltage 8000 mV (vPct = 100) | the function updates the module-level `battery_status_light`, keeps its GREEN value at 70 % and above, and shows it; missions then restore the battery colour | high; not executed | `Battery.BatteryDisplayFullBatteryRaises` | `Battery.BatteryDisplayWithGlobal` |
| main.py:287-304 | `all_start_time` is assigned in the `"1"` branch (line 289) and read in the `"7"` branch (line 304) without a `global` statement, so it is a local of each call: the read at line 304 always raises and the total time is never printed | run 1, then run 7 | `all_start_time` is a module-level name: run 1 sets it, and a later run 7 reports the time since then | high; not executed | `Missions.SevenRaisesAfterOne` | `Missions.RunMissionWithGlobal` |

The loop (`Menu.MenuLoop`) keeps the code as written: the module-level
light `Battery.BATTERY_STATUS_LIGHT`, which is GREEN, and `RunMission`, which
raises on "7". `Menu.MissionRestoresBatteryTier` states what the corrected
display gives the missions. `Missions.TotalReportedAfterOne` states what the
corrected `all_start_time` gives a session. The corrected `RunMissionWithGlobal`
also reads the stopwatch, which the model leaves out, so it only says whether
the total is reported.

## Left out

- pybricks hardware: `Motor`, `DriveBase`, `PrimeHub`, the stop button and `wait` are firmware calls. The hub voltage is a parameter of the battery functions. The menu pick that `hub_menu` returns is a parameter of `Menu.MenuLoop.Iterate` and `Menu.MenuLoop.Run`. Those two methods require it to be one of `MENU_OPTIONS`, as `hub_menu` always returns one of the options it is shown.
- Robot motion methods and `CleanMotors`: they only wrap firmware calls and toggle the gyro. A "C" pick is modelled only by its effect on `last_run`, which is none.
- `DisplayNumber`, `StatusLight`, the `Animations` frames and every `print`: output only. The colours passed at lines 98, 100 and 305 are modelled. The busy YELLOW of line 283 is output only and left out.
- `Missions.*` and `Run1`..`Run7`: fixed motion scripts or empty stubs. Only which routine runs is modelled.
- The stopwatch, the elapsed time and `round(... / 1000, 1)`: clock input and float rounding.
- Floating point: `Rescale` is modelled over exact reals. The ZeroDivisionError for value == 0 and for in_min == in_max is excluded by its requires rather than modelled.
- `Menu.BuildMenu` evaluates `MENU_OPTIONS.index(last_run)` once before the loop, where Python evaluates it on every pass. The value is the same each time, and the call has no other effect.
- The infinite `while True` loop is modelled by `Menu.MenuLoop.Run` over a finite sequence of picks.
