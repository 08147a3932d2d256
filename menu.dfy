/** The top-level menu loop: the rotation of MENU_OPTIONS that puts the last
    run option last, and the update of `last_run` after each selection. */
module Menu {
  import opened Base
  import opened Battery
  import opened Missions

  const MENU_OPTIONS: seq<string> := ["1", "2", "3", "4", "5", "6", "7", "C"]

  /** Python's `list.index`: the position of the first occurrence of x. */
  function IndexOf<T(==)>(s: seq<T>, x: T): (k: nat)
    requires x in s
    ensures k < |s| && s[k] == x
    ensures forall j :: 0 <= j < k ==> s[j] != x
  {
    if s[0] == x then 0 else 1 + IndexOf(s[1..], x)
  }

  /** s rotated left by j places: it starts with s[j]. */
  function RotateLeft<T>(s: seq<T>, j: nat): seq<T>
    requires j <= |s|
  {
    s[j..] + s[..j]
  }

  lemma RotateLeftAt<T>(s: seq<T>, j: nat, i: nat)
    requires j < |s| && i < |s|
    ensures |RotateLeft(s, j)| == |s|
    ensures RotateLeft(s, j)[i] == s[(i + j) % |s|]
  {
    if i + j < |s| {
      ModBelow(i + j, |s|);
    } else {
      ModWrap(i + j, |s|);
    }
  }

  lemma ModBelow(a: nat, n: nat)
    requires a < n
    ensures a % n == a
  {
  }

  lemma ModWrap(a: nat, n: nat)
    requires n <= a < 2 * n
    ensures a % n == a - n
  {
  }

  /** A rotation keeps every element with its multiplicity. */
  lemma RotateLeftPermutation<T>(s: seq<T>, j: nat)
    requires j <= |s|
    ensures multiset(RotateLeft(s, j)) == multiset(s)
  {
    assert s == s[..j] + s[j..];
  }

  /** The menu the loop presents for `options` after `lastRun`:
      `options[(i + options.index(lastRun) + 1) % len(options)]` for each i.
      `index` raises ValueError when lastRun is missing; with no options the
      loop body, and so `index`, never runs. */
  function RotatedMenu(options: seq<string>, lastRun: string): (r: Outcome<seq<string>>)
    ensures r.Raised? <==> |options| > 0 && lastRun !in options
    ensures r.Raised? ==> r.error == ValueError
    ensures r.Ok? ==> |r.value| == |options|
  {
    if |options| == 0 then Ok([])
    else if lastRun !in options then Raised(ValueError)
    else Ok(RotateLeft(options, (IndexOf(options, lastRun) + 1) % |options|))
  }

  lemma RotatedMenuAt(s: seq<string>, k: nat, i: nat)
    requires k < |s| && i < |s|
    ensures |RotateLeft(s, (k + 1) % |s|)| == |s|
    ensures RotateLeft(s, (k + 1) % |s|)[i] == s[(i + k + 1) % |s|]
  {
    var n := |s|;
    if k + 1 < n {
      ModBelow(k + 1, n);
      RotateLeftAt(s, k + 1, i);
    } else {
      ModWrap(k + 1, n);
      ModWrap(i + k + 1, n);
      ModBelow(i, n);
      RotateLeftAt(s, 0, i);
    }
  }

  /** A sequence whose element i is s[(i + k + 1) % |s|] is s rotated to
      start after position k. */
  lemma RotationByIndex(s: seq<string>, k: nat, m: seq<string>)
    requires k < |s| && |m| == |s|
    requires forall j :: 0 <= j < |s| ==> m[j] == s[(j + k + 1) % |s|]
    ensures m == RotateLeft(s, (k + 1) % |s|)
  {
    forall j | 0 <= j < |s|
      ensures m[j] == RotateLeft(s, (k + 1) % |s|)[j]
    {
      RotatedMenuAt(s, k, j);
    }
    RotatedMenuAt(s, k, 0);
  }

  /** The `for` loop that appends to `current_menu`. */
  method BuildMenu(options: seq<string>, lastRun: string) returns (menu: Outcome<seq<string>>)
    ensures menu == RotatedMenu(options, lastRun)
  {
    var n := |options|;
    if n > 0 && lastRun !in options {
      return Raised(ValueError);
    }
    var k := if n > 0 then IndexOf(options, lastRun) else 0;
    var current: seq<string> := [];
    var i := 0;
    while i < n
      invariant 0 <= i <= n
      invariant |current| == i
      invariant forall j :: 0 <= j < i ==> current[j] == options[(j + k + 1) % n]
    {
      current := current + [options[(i + k + 1) % n]];
      i := i + 1;
    }
    if n > 0 {
      RotationByIndex(options, k, current);
    }
    menu := Ok(current);
  }

  /** The menu ends with the last run option and begins with the option
      after it, wrapping around to the first. */
  lemma MenuEnds(options: seq<string>, lastRun: string)
    requires lastRun in options
    ensures RotatedMenu(options, lastRun).Ok?
    ensures var m := RotatedMenu(options, lastRun).value;
            var k := IndexOf(options, lastRun);
            |m| == |options| && m[|m| - 1] == lastRun &&
            m[0] == options[if k + 1 < |options| then k + 1 else 0]
  {
    var n, k := |options|, IndexOf(options, lastRun);
    RotatedMenuAt(options, k, n - 1);
    RotatedMenuAt(options, k, 0);
    ModWrap(n - 1 + k + 1, n);
    if k + 1 < n {
      ModBelow(k + 1, n);
    } else {
      ModWrap(k + 1, n);
    }
  }

  /** The menu holds every option exactly as often as `options` does. */
  lemma MenuIsPermutation(options: seq<string>, lastRun: string)
    ensures RotatedMenu(options, lastRun).Ok? ==>
              multiset(RotatedMenu(options, lastRun).value) == multiset(options)
  {
    if |options| > 0 && lastRun in options {
      RotateLeftPermutation(options, (IndexOf(options, lastRun) + 1) % |options|);
    }
  }

  /** Every option of MENU_OPTIONS appears exactly once in any menu. */
  lemma MenuEachOptionOnce(lastRun: string)
    requires lastRun in MENU_OPTIONS
    ensures RotatedMenu(MENU_OPTIONS, lastRun).Ok?
    ensures |RotatedMenu(MENU_OPTIONS, lastRun).value| == |MENU_OPTIONS|
    ensures forall x :: x in MENU_OPTIONS ==> multiset(RotatedMenu(MENU_OPTIONS, lastRun).value)[x] == 1
  {
    MenuEnds(MENU_OPTIONS, lastRun);
    MenuIsPermutation(MENU_OPTIONS, lastRun);
    MenuOptionsDistinct();
    forall x | x in MENU_OPTIONS
      ensures multiset(MENU_OPTIONS)[x] == 1
    {
      DistinctOnce(MENU_OPTIONS, x);
    }
  }

  lemma MenuOptionsDistinct()
    ensures Distinct(MENU_OPTIONS)
  {
  }

  ghost predicate Distinct<T>(s: seq<T>)
  {
    forall i, j :: 0 <= i < j < |s| ==> s[i] != s[j]
  }

  /** In a sequence without repetitions each element occurs once. */
  lemma {:induction false} DistinctOnce<T>(s: seq<T>, x: T)
    requires Distinct(s) && x in s
    ensures multiset(s)[x] == 1
  {
    assert s == [s[0]] + s[1..];
    assert Distinct(s[1..]);
    if s[0] == x {
      assert x !in s[1..];
    } else {
      DistinctOnce(s[1..], x);
    }
  }

  /** With the initial `last_run = "C"` the menu is MENU_OPTIONS unchanged. */
  lemma InitialMenu()
    ensures RotatedMenu(MENU_OPTIONS, "C") == Ok(MENU_OPTIONS)
  {
    IndexOfMenu("C", 7);
    assert MENU_OPTIONS[0..] + MENU_OPTIONS[..0] == MENU_OPTIONS;
  }

  /** The position of an option of MENU_OPTIONS, from the ensures of IndexOf. */
  lemma IndexOfMenu(x: string, k: nat)
    requires k < |MENU_OPTIONS| && MENU_OPTIONS[k] == x
    requires forall j :: 0 <= j < k ==> MENU_OPTIONS[j] != x
    ensures IndexOf(MENU_OPTIONS, x) == k
  {
  }

  /** After run 3 the menu starts with 4 and ends with 3. */
  lemma MenuAfterThree()
    ensures RotatedMenu(MENU_OPTIONS, "3") == Ok(["4", "5", "6", "7", "C", "1", "2", "3"])
  {
    assert MENU_OPTIONS[2] == "3";
    IndexOfMenu("3", 2);
    assert (IndexOf(MENU_OPTIONS, "3") + 1) % |MENU_OPTIONS| == 3;
    assert MENU_OPTIONS[3..] == ["4", "5", "6", "7", "C"];
    assert MENU_OPTIONS[..3] == ["1", "2", "3"];
    assert RotateLeft(MENU_OPTIONS, 3) == ["4", "5", "6", "7", "C"] + ["1", "2", "3"];
    assert ["4", "5", "6", "7", "C"] + ["1", "2", "3"] == ["4", "5", "6", "7", "C", "1", "2", "3"];
    assert RotatedMenu(MENU_OPTIONS, "3") == Ok(RotateLeft(MENU_OPTIONS, 3));
  }

  /** One pass of the `while True` body after the menu pick: "C" cleans the
      motors and keeps `last_run`; any other pick runs the mission and
      `last_run` becomes what RunMission returns, unless it raises. */
  function NextLastRun(lastRun: string, selected: string): (o: Outcome<string>)
    ensures selected == "C" ==> o == Ok(lastRun)
    ensures selected == "7" ==> o == Raised(NameError("all_start_time"))
    ensures selected != "C" && selected != "7" ==> o == Ok(selected)
  {
    if selected != "C" then
      match RunMission(selected, BATTERY_STATUS_LIGHT)
      case Returned(_, value, _) => Ok(value)
      case Failed(_, error) => Raised(error)
    else
      Ok(lastRun)
  }

  /** `last_run` after a sequence of picks, or the exception that ended the
      loop. */
  function LastRunAfter(lastRun: string, picks: seq<string>): (r: Outcome<string>)
    ensures r.Raised? <==> "7" in picks
    ensures r.Raised? ==> r.error == NameError("all_start_time")
    ensures r.Ok? ==> r.value == lastRun || r.value in picks
    decreases |picks|
  {
    if picks == [] then Ok(lastRun)
    else
      assert picks == [picks[0]] + picks[1..];
      match NextLastRun(lastRun, picks[0])
      case Ok(next) => LastRunAfter(next, picks[1..])
      case Raised(error) => Raised(error)
  }

  /** The picks other than "C", in order. */
  function WithoutClean(picks: seq<string>): seq<string>
  {
    if picks == [] then []
    else (if picks[0] == "C" then [] else [picks[0]]) + WithoutClean(picks[1..])
  }

  /** Reference statement of the loop: a "7" anywhere ends it with the
      unbound `all_start_time`; otherwise `last_run` is the last pick that
      was not "C", or its old value when every pick was "C". */
  lemma {:induction false} LastRunAfterIsLastMission(lastRun: string, picks: seq<string>)
    ensures LastRunAfter(lastRun, picks) ==
            if "7" in picks then Raised(NameError("all_start_time"))
            else
              var w := WithoutClean(picks);
              Ok(if w == [] then lastRun else w[|w| - 1])
    decreases |picks|
  {
    if picks != [] {
      var p, rest := picks[0], picks[1..];
      assert picks == [p] + rest;
      if p == "7" {
      } else if p == "C" {
        LastRunAfterIsLastMission(lastRun, rest);
        assert WithoutClean(picks) == WithoutClean(rest);
      } else {
        LastRunAfterIsLastMission(p, rest);
        assert WithoutClean(picks) == [p] + WithoutClean(rest);
      }
    }
  }

  /** The loop over `a + b` is the loop over `a`, then, unless that raised,
      the loop over `b` from the `last_run` it left. */
  lemma {:induction false} LastRunAfterSplit(lastRun: string, a: seq<string>, b: seq<string>)
    ensures LastRunAfter(lastRun, a + b) ==
            match LastRunAfter(lastRun, a)
            case Ok(mid) => LastRunAfter(mid, b)
            case Raised(error) => Raised(error)
    decreases |a|
  {
    if a == [] {
      assert a + b == b;
    } else {
      assert (a + b)[0] == a[0] && (a + b)[1..] == a[1..] + b;
      match NextLastRun(lastRun, a[0])
      case Ok(next) => LastRunAfterSplit(next, a[1..], b);
      case Raised(_) =>
    }
  }

  /** One more pass of the loop is one more NextLastRun. */
  lemma LastRunAfterStep(lastRun: string, picks: seq<string>, i: int, mid: string)
    requires 0 <= i < |picks| && LastRunAfter(lastRun, picks[..i]) == Ok(mid)
    ensures LastRunAfter(lastRun, picks[..i + 1]) == NextLastRun(mid, picks[i])
  {
    assert picks[..i + 1] == picks[..i] + [picks[i]];
    LastRunAfterSplit(lastRun, picks[..i], [picks[i]]);
    assert [picks[i]][1..] == [];
  }

  /** Starting from the battery-derived global (the corrected BatteryDisplay),
      a mission that returns leaves the battery tier's colour on. */
  lemma MissionRestoresBatteryTier(v: int, selected: string)
    requires v > 0 && selected != "7"
    ensures var light := BatteryDisplayWithGlobal(v, BATTERY_STATUS_LIGHT);
            RunMission(selected, light).Returned? &&
            RunMission(selected, light).light ==
              if v < 7100 then Red else if v < 7700 then Yellow else Green
  {
  }

  /** The startup call `my_robot.BatteryDisplay()` stands outside any
      `try`, so the script reaches `last_run = "C"` and the menu loop
      exactly when that call returns: below 7700 mV. */
  lemma StartupReachesMenu(v: int)
    requires v > 0
    ensures BatteryDisplay(v).Ok? <==> v < 7700
  {
  }

  /** As written, the module-level light is never reassigned. At every
      voltage that reaches the menu the startup display showed red or
      yellow, and every mission that returns turns the light green. */
  lemma MissionLeavesGreen(v: int, selected: string)
    requires v > 0 && BatteryDisplay(v).Ok?
    requires selected != "7"
    ensures BatteryDisplay(v).value != Green
    ensures RunMission(selected, BATTERY_STATUS_LIGHT) == Returned(RoutineFor(selected), selected, Green)
  {
  }

  /** The state of the top-level loop: `last_run`. */
  class MenuLoop {
    var lastRun: string

    /** `last_run` always names a menu option, and never "7", which raises
        before RunMission can return it. */
    ghost predicate Valid()
      reads this
    {
      lastRun in MENU_OPTIONS && lastRun != "7"
    }

    /** `last_run = "C"`, reached only when the startup battery display
        returned (StartupReachesMenu). */
    constructor ()
      ensures Valid() && lastRun == "C"
    {
      lastRun := "C";
    }

    /** One iteration: build and present the menu, apply the pick that the
        hub menu returns (always one of the options it was shown). */
    method Iterate(selected: string) returns (menu: seq<string>, o: Outcome<string>)
      requires Valid()
      requires selected in MENU_OPTIONS
      modifies this
      ensures Ok(menu) == RotatedMenu(MENU_OPTIONS, old(lastRun))
      ensures o == NextLastRun(old(lastRun), selected)
      ensures lastRun == if o.Ok? then o.value else old(lastRun)
      ensures Valid()
    {
      var built := BuildMenu(MENU_OPTIONS, lastRun);
      menu := built.value;
      if selected != "C" {
        var r := RunMission(selected, BATTERY_STATUS_LIGHT);
        match r
        case Returned(_, value, _) =>
          lastRun := value;
          o := Ok(value);
        case Failed(_, error) =>
          o := Raised(error);
      } else {
        o := Ok(lastRun);
      }
    }

    /** The `while True` loop fed with a finite sequence of menu picks; it
        stops at the first exception, which ends the script. On that path
        `last_run` is what the picks before the first "7" left. */
    method Run(picks: seq<string>) returns (o: Outcome<string>)
      requires Valid()
      requires forall p :: p in picks ==> p in MENU_OPTIONS
      modifies this
      ensures o == LastRunAfter(old(lastRun), picks)
      ensures o.Ok? ==> lastRun == o.value
      ensures o.Raised? ==> exists k :: 0 <= k < |picks| && picks[k] == "7" &&
                                       LastRunAfter(old(lastRun), picks[..k]) == Ok(lastRun)
      ensures Valid()
    {
      var i := 0;
      while i < |picks|
        invariant 0 <= i <= |picks|
        invariant Valid()
        invariant LastRunAfter(old(lastRun), picks) == LastRunAfter(lastRun, picks[i..])
        invariant LastRunAfter(old(lastRun), picks[..i]) == Ok(lastRun)
      {
        assert picks[i..][0] == picks[i] && picks[i..][1..] == picks[i + 1..];
        LastRunAfterStep(old(lastRun), picks, i, lastRun);
        var _, step := Iterate(picks[i]);
        if step.Raised? {
          assert picks[i] == "7";
          return step;
        }
        i := i + 1;
      }
      assert picks[..i] == picks;
      o := Ok(lastRun);
    }
  }
}
