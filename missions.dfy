/** `RunMission`: the dispatch of a menu token to one of the run routines
    `Run1` .. `Run7`, its return value, and the read of `all_start_time`. */
module Missions {
  import opened Base

  /** The seven scripted runs. Their motions are not modelled. */
  datatype Routine = Run1 | Run2 | Run3 | Run4 | Run5 | Run6 | Run7

  /** The menu token that selects a routine. */
  function Token(r: Routine): string
  {
    match r
    case Run1 => "1"
    case Run2 => "2"
    case Run3 => "3"
    case Run4 => "4"
    case Run5 => "5"
    case Run6 => "6"
    case Run7 => "7"
  }

  /** The `if`/`elif` chain on `selected`: which routine, if any, runs. */
  function RoutineFor(selected: string): (o: Option<Routine>)
    ensures o.Some? <==> selected in {"1", "2", "3", "4", "5", "6", "7"}
    ensures o.Some? ==> Token(o.value) == selected
  {
    if selected == "1" then Some(Run1)
    else if selected == "2" then Some(Run2)
    else if selected == "3" then Some(Run3)
    else if selected == "4" then Some(Run4)
    else if selected == "5" then Some(Run5)
    else if selected == "6" then Some(Run6)
    else if selected == "7" then Some(Run7)
    else None
  }

  /** Each token selects exactly the routine it names. */
  lemma RoutineForToken(r: Routine)
    ensures RoutineFor(Token(r)) == Some(r)
  {
  }

  /** What a call of RunMission does: the routine it ran and then either the
      value it returned together with the light it left on, or the
      exception it raised after the routine. */
  datatype MissionOutcome =
    | Returned(ran: Option<Routine>, value: string, light: Color)
    | Failed(ran: Option<Routine>, error: PyError)

  /** RunMission(r, selected). `all_start_time` is a local of the call that
      only the "1" branch assigns; the "7" branch reads it afterwards.
      `globalLight` is the module-level `battery_status_light` restored at
      the end. */
  function RunMission(selected: string, globalLight: Color): (o: MissionOutcome)
    ensures o.ran == RoutineFor(selected)
    ensures o.Failed? <==> selected == "7"
    ensures o.Failed? ==> o.error == NameError("all_start_time")
    ensures o.Returned? ==> o.value == selected && o.light == globalLight
  {
    var ran := RoutineFor(selected);
    var allStartTimeBound := selected == "1";
    if selected == "7" && !allStartTimeBound then
      Failed(ran, NameError("all_start_time"))
    else
      Returned(ran, selected, globalLight)
  }

  /** Distinct tokens never dispatch to the same routine. */
  lemma DispatchInjective(s: string, t: string)
    requires RoutineFor(s).Some? && RoutineFor(s) == RoutineFor(t)
    ensures s == t
  {
  }

  /** Even right after run 1 has returned, run 7 raises on `all_start_time`:
      the "Total time" line can never be reached. */
  lemma SevenRaisesAfterOne(light: Color)
    ensures RunMission("1", light).Returned?
    ensures RunMission("7", light) == Failed(Some(Run7), NameError("all_start_time"))
  {
  }

  /** RunMission with `global all_start_time` declared, as the read in the
      "7" branch of a value set by the "1" branch evidently intends.
      `allStartSet` says whether an earlier call assigned the global; the
      result says whether it is assigned afterwards and whether the total
      time is reported. */
  datatype TimedOutcome = TimedOutcome(mission: MissionOutcome, allStartSet: bool, reportsTotal: bool)

  function RunMissionWithGlobal(selected: string, globalLight: Color, allStartSet: bool): (o: TimedOutcome)
    ensures o.mission.ran == RoutineFor(selected)
    ensures o.allStartSet <==> allStartSet || selected == "1"
    ensures o.mission.Failed? <==> selected == "7" && !allStartSet
    ensures o.mission.Failed? ==> o.mission.error == NameError("all_start_time")
    ensures o.reportsTotal <==> selected == "7" && allStartSet
    // every other token behaves as in the code as written
    ensures selected != "7" ==> o.mission == RunMission(selected, globalLight)
  {
    var ran := RoutineFor(selected);
    var isSet := allStartSet || selected == "1";
    if selected == "7" && !isSet then
      TimedOutcome(Failed(ran, NameError("all_start_time")), isSet, false)
    else
      TimedOutcome(Returned(ran, selected, globalLight), isSet, selected == "7")
  }

  /** Whether the global `all_start_time` is assigned after a sequence of
      corrected calls. */
  function AllStartAfter(allStartSet: bool, picks: seq<string>, light: Color): bool
    decreases |picks|
  {
    if picks == [] then allStartSet
    else AllStartAfter(RunMissionWithGlobal(picks[0], light, allStartSet).allStartSet, picks[1..], light)
  }

  lemma {:induction false} AllStartAfterSeesOne(allStartSet: bool, picks: seq<string>, light: Color)
    ensures AllStartAfter(allStartSet, picks, light) == (allStartSet || "1" in picks)
    decreases |picks|
  {
    if picks != [] {
      assert picks == [picks[0]] + picks[1..];
      AllStartAfterSeesOne(RunMissionWithGlobal(picks[0], light, allStartSet).allStartSet, picks[1..], light);
    }
  }

  /** With the correction, run 7 reports the total time exactly when run 1
      came earlier in the session. */
  lemma TotalReportedAfterOne(picks: seq<string>, light: Color)
    ensures RunMissionWithGlobal("7", light, AllStartAfter(false, picks, light)).reportsTotal <==> "1" in picks
  {
    AllStartAfterSeesOne(false, picks, light);
  }
}
