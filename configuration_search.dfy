/**
 * The arm-configuration panel of the planner window.
 *
 * A pose of the arm can usually be reached in several configurations, named
 * by three binary flags: direction (the bot looks to the front or to the
 * back), flip (the kinematics triangle is flipped) and turn (the forearm is
 * turned).  The inverse kinematics produces a list of valid solutions, each
 * with its configuration.  Clicking a flag's checkbox inverts that flag and
 * searches the solutions for one with the new configuration; if none
 * matches, the two other flags are stepped Gray-code style.  A checkbox is
 * enabled only when some solution differs from the current configuration in
 * that flag.
 *
 * Widgets are replaced by plain values: the solution list is an input and the
 * callbacks return what they would write into the widgets.
 */
module ConfigurationSearch {
  import Spatial
  import opened Wrappers

  /** One binary configuration flag, stored as 0 or 1. */
  type Flag = x: int | 0 <= x <= 1

  /** The flag with its other value, 1 - f. */
  function Invert(f: Flag): (g: Flag)
    ensures g != f && 1 - g == f
  {
    1 - f
  }

  /** The control ids of the three checkboxes. */
  const DirectionId: int := 0
  const FlipId: int := 1
  const TurnId: int := 2

  datatype Configuration = Configuration(poseDirection: Flag, poseFlip: Flag, poseTurn: Flag)

  /** The solver's output for one configuration: the configuration and its joint angles. */
  datatype KinematicsSolution = KinematicsSolution(config: Configuration, angles: Spatial.AngleVector)

  /** The flag a control id stands for. */
  function FlagOf(c: Configuration, id: int): Flag
    requires 0 <= id < 3
  {
    if id == DirectionId then c.poseDirection
    else if id == FlipId then c.poseFlip
    else c.poseTurn
  }

  /** Two configurations are equal exactly when all three flags are. */
  lemma ConfigurationByFlags(c: Configuration, d: Configuration)
    ensures c == d <==> forall id :: 0 <= id < 3 ==> FlagOf(c, id) == FlagOf(d, id)
  {
    if forall id :: 0 <= id < 3 ==> FlagOf(c, id) == FlagOf(d, id) {
      assert FlagOf(c, 0) == FlagOf(d, 0);
      assert FlagOf(c, 1) == FlagOf(d, 1);
      assert FlagOf(c, 2) == FlagOf(d, 2);
    }
  }

  /** The switch on a control id: invert that flag, and leave an unknown id unchanged. */
  function Toggle(c: Configuration, id: int): (r: Configuration)
    ensures 0 <= id < 3 ==> forall j :: 0 <= j < 3 ==>
      FlagOf(r, j) == if j == id then Invert(FlagOf(c, j)) else FlagOf(c, j)
    ensures !(0 <= id < 3) ==> r == c
  {
    if id == DirectionId then c.(poseDirection := Invert(c.poseDirection))
    else if id == FlipId then c.(poseFlip := Invert(c.poseFlip))
    else if id == TurnId then c.(poseTurn := Invert(c.poseTurn))
    else c
  }

  // ---------------------------------------------------------------------------
  // The configurations the search examines
  // ---------------------------------------------------------------------------

  /** `c` with exactly the flags whose ids are in `ids` inverted. */
  function InvertedAt(c: Configuration, ids: set<int>): (r: Configuration)
    ensures forall j :: 0 <= j < 3 ==> FlagOf(r, j) == if j in ids then Invert(FlagOf(c, j)) else FlagOf(c, j)
  {
    Configuration(
      if DirectionId in ids then Invert(c.poseDirection) else c.poseDirection,
      if FlipId in ids then Invert(c.poseFlip) else c.poseFlip,
      if TurnId in ids then Invert(c.poseTurn) else c.poseTurn)
  }

  /** The control after the clicked one, and the one after that. */
  function Other1(clicked: int): int { (clicked + 1) % 3 }
  function Other2(clicked: int): int { (clicked + 2) % 3 }

  /**
   * The k-th configuration the search examines (k < 4): the clicked flag is
   * always inverted, and the two other flags run through the Gray code
   * 00, 10, 11, 01.
   */
  function Candidate(current: Configuration, clicked: int, k: nat): Configuration
    requires 0 <= clicked < 3 && k < 4
  {
    InvertedAt(current,
      {clicked}
      + (if k == 1 || k == 2 then {Other1(clicked)} else {})
      + (if k == 2 || k == 3 then {Other2(clicked)} else {}))
  }

  /** Every examined configuration has the clicked flag inverted. */
  lemma CandidateInvertsClicked(current: Configuration, clicked: int, k: nat)
    requires 0 <= clicked < 3 && k < 4
    ensures FlagOf(Candidate(current, clicked, k), clicked) == Invert(FlagOf(current, clicked))
  {
  }

  /** The four examined configurations are pairwise distinct. */
  lemma CandidatesDistinct(current: Configuration, clicked: int, k1: nat, k2: nat)
    requires 0 <= clicked < 3 && k1 < 4 && k2 < 4
    ensures Candidate(current, clicked, k1) == Candidate(current, clicked, k2) <==> k1 == k2
  {
    var o1, o2 := Other1(clicked), Other2(clicked);
    if k1 != k2 {
      if (k1 == 1 || k1 == 2) != (k2 == 1 || k2 == 2) {
        assert FlagOf(Candidate(current, clicked, k1), o1) != FlagOf(Candidate(current, clicked, k2), o1);
      } else {
        assert FlagOf(Candidate(current, clicked, k1), o2) != FlagOf(Candidate(current, clicked, k2), o2);
      }
    }
  }

  /** They are all the configurations with the clicked flag inverted. */
  lemma CandidatesCover(current: Configuration, clicked: int, c: Configuration) returns (k: nat)
    requires 0 <= clicked < 3
    requires FlagOf(c, clicked) != FlagOf(current, clicked)
    ensures k < 4 && Candidate(current, clicked, k) == c
  {
    var o1, o2 := Other1(clicked), Other2(clicked);
    var d1, d2 := FlagOf(c, o1) != FlagOf(current, o1), FlagOf(c, o2) != FlagOf(current, o2);
    assert o1 != clicked && o2 != clicked && o1 != o2 && 0 <= o1 < 3 && 0 <= o2 < 3;
    k := if !d1 && !d2 then 0 else if d1 && !d2 then 1 else if d1 && d2 then 2 else 3;
    ConfigurationByFlags(Candidate(current, clicked, k), c);
  }

  /** The control step of the search: the next control, skipping the clicked one. */
  function NextControl(control: int, clicked: int): int
  {
    var next := (control + 1) % 3;
    if next == clicked then (next + 1) % 3 else next
  }

  /** Stepping the controls from the clicked one gives Other1, Other2, Other1 again. */
  lemma ControlSequence(clicked: int)
    requires 0 <= clicked < 3
    ensures NextControl(clicked, clicked) == Other1(clicked)
    ensures NextControl(Other1(clicked), clicked) == Other2(clicked)
    ensures NextControl(Other2(clicked), clicked) == Other1(clicked)
    ensures clicked != Other1(clicked) && clicked != Other2(clicked) && Other1(clicked) != Other2(clicked)
  {
  }

  /** The control the search has reached after examining k + 1 configurations. */
  function ControlAfter(clicked: int, k: nat): int
    requires 0 <= clicked < 3 && k < 4
  {
    if k == 0 then clicked else if k == 2 then Other2(clicked) else Other1(clicked)
  }

  /** One control step followed by a toggle turns the k-th candidate into the next one. */
  lemma StepGivesNextCandidate(current: Configuration, clicked: int, k: nat)
    requires 0 <= clicked < 3 && k < 3
    ensures NextControl(ControlAfter(clicked, k), clicked) == ControlAfter(clicked, k + 1)
    ensures Toggle(Candidate(current, clicked, k), ControlAfter(clicked, k + 1)) == Candidate(current, clicked, k + 1)
  {
    ControlSequence(clicked);
    var next := Toggle(Candidate(current, clicked, k), ControlAfter(clicked, k + 1));
    ConfigurationByFlags(next, Candidate(current, clicked, k + 1));
  }

  // ---------------------------------------------------------------------------
  // The search
  // ---------------------------------------------------------------------------

  /** The index of the first solution with configuration `c`. */
  function FirstMatch(solutions: seq<KinematicsSolution>, c: Configuration): (r: Option<nat>)
    ensures r.Some? ==> r.value < |solutions| && solutions[r.value].config == c
    ensures r.Some? ==> forall j :: 0 <= j < r.value ==> solutions[j].config != c
    ensures r.None? <==> forall j :: 0 <= j < |solutions| ==> solutions[j].config != c
    decreases |solutions|
  {
    if solutions == [] then None
    else if solutions[0].config == c then Some(0)
    else
      match FirstMatch(solutions[1..], c)
      case None => None
      case Some(i) => Some(i + 1)
  }

  /** What the click leads to: the solution applied to the angle spinners, or none. */
  datatype SearchResult = Found(index: nat, config: Configuration) | NotFound

  /** The search from the k-th candidate on. */
  function SearchFrom(current: Configuration, clicked: int, solutions: seq<KinematicsSolution>, k: nat): SearchResult
    requires 0 <= clicked < 3 && k <= 4
    decreases 4 - k
  {
    if k == 4 then NotFound
    else
      match FirstMatch(solutions, Candidate(current, clicked, k))
      case Some(i) => Found(i, Candidate(current, clicked, k))
      case None => SearchFrom(current, clicked, solutions, k + 1)
  }

  /** The candidates in order, each looked up in list order. */
  function Search(current: Configuration, clicked: int, solutions: seq<KinematicsSolution>): SearchResult
    requires 0 <= clicked < 3
  {
    SearchFrom(current, clicked, solutions, 0)
  }

  /** The inner loop of configurationViewCallback: the first solution, in list order, with configuration `config`. */
  method FindSolution(solutions: seq<KinematicsSolution>, config: Configuration) returns (r: Option<nat>)
    ensures r == FirstMatch(solutions, config)
  {
    for i := 0 to |solutions|
      invariant forall j :: 0 <= j < i ==> solutions[j].config != config
    {
      var sol := solutions[i];
      if sol.config.poseDirection == config.poseDirection
        && sol.config.poseFlip == config.poseFlip
        && sol.config.poseTurn == config.poseTurn
      {
        assert FirstMatch(solutions, config) == Some(i);
        return Some(i);
      }
    }
    return None;
  }

  /**
   * configurationViewCallback: invert the clicked flag, then up to four times
   * look for a solution with the current candidate and step another flag.
   */
  method ConfigurationViewCallback(current: Configuration, controlNo: int, solutions: seq<KinematicsSolution>)
    returns (r: SearchResult)
    requires 0 <= controlNo < 3
    ensures r == Search(current, controlNo, solutions)
  {
    var config := Toggle(current, controlNo);
    assert config == Candidate(current, controlNo, 0) by {
      ConfigurationByFlags(config, Candidate(current, controlNo, 0));
    }
    var changeConfigurationTries := 0;
    var changeConfigurationControl := controlNo;
    while true
      invariant 0 <= changeConfigurationTries <= 3
      invariant config == Candidate(current, controlNo, changeConfigurationTries)
      invariant changeConfigurationControl == ControlAfter(controlNo, changeConfigurationTries)
      invariant Search(current, controlNo, solutions) == SearchFrom(current, controlNo, solutions, changeConfigurationTries)
      decreases 3 - changeConfigurationTries
    {
      ghost var k := changeConfigurationTries;
      changeConfigurationTries := changeConfigurationTries + 1;
      var found := FindSolution(solutions, config);
      if found.Some? {
        return Found(found.value, config);
      }
      assert SearchFrom(current, controlNo, solutions, k) == SearchFrom(current, controlNo, solutions, k + 1);
      if k < 3 {
        StepGivesNextCandidate(current, controlNo, k);
      }
      ghost var previous := changeConfigurationControl;
      changeConfigurationControl := (changeConfigurationControl + 1) % 3;
      if changeConfigurationControl == controlNo {
        changeConfigurationControl := (changeConfigurationControl + 1) % 3;
      }
      assert changeConfigurationControl == NextControl(previous, controlNo);
      config := Toggle(config, changeConfigurationControl);
      if changeConfigurationTries > 3 {
        break;
      }
    }
    // valid configuration not found
    return NotFound;
  }

  /** A result found from the k-th candidate on is the first match of the earliest candidate from k on that has one. */
  lemma {:induction false} SearchFromFound(current: Configuration, clicked: int, solutions: seq<KinematicsSolution>, k: nat)
    requires 0 <= clicked < 3 && k <= 4
    requires SearchFrom(current, clicked, solutions, k).Found?
    ensures var r := SearchFrom(current, clicked, solutions, k);
      exists m :: k <= m < 4 && r.config == Candidate(current, clicked, m)
        && FirstMatch(solutions, r.config) == Some(r.index)
        && forall m' :: k <= m' < m ==> FirstMatch(solutions, Candidate(current, clicked, m')).None?
    decreases 4 - k
  {
    var r := SearchFrom(current, clicked, solutions, k);
    if FirstMatch(solutions, Candidate(current, clicked, k)).None? {
      SearchFromFound(current, clicked, solutions, k + 1);
      var m :| k + 1 <= m < 4 && r.config == Candidate(current, clicked, m)
        && FirstMatch(solutions, r.config) == Some(r.index)
        && forall m' :: k + 1 <= m' < m ==> FirstMatch(solutions, Candidate(current, clicked, m')).None?;
      assert forall m' :: k <= m' < m ==> FirstMatch(solutions, Candidate(current, clicked, m')).None?;
    } else {
      assert r.config == Candidate(current, clicked, k);
    }
  }

  /** The search from the k-th candidate on fails exactly when none of those candidates has a match. */
  lemma {:induction false} SearchFromNotFound(current: Configuration, clicked: int, solutions: seq<KinematicsSolution>, k: nat)
    requires 0 <= clicked < 3 && k <= 4
    ensures SearchFrom(current, clicked, solutions, k).NotFound? <==>
      forall m :: k <= m < 4 ==> FirstMatch(solutions, Candidate(current, clicked, m)).None?
    decreases 4 - k
  {
    if k < 4 {
      SearchFromNotFound(current, clicked, solutions, k + 1);
    }
  }

  /**
   * A found solution has the clicked flag inverted, its configuration is the
   * earliest candidate any solution has, and it is the first solution in list
   * order with that configuration.
   */
  lemma SearchFoundIsFirstMatch(current: Configuration, clicked: int, solutions: seq<KinematicsSolution>)
    requires 0 <= clicked < 3
    requires Search(current, clicked, solutions).Found?
    ensures var r := Search(current, clicked, solutions);
      r.index < |solutions| && solutions[r.index].config == r.config
      && FlagOf(r.config, clicked) == Invert(FlagOf(current, clicked))
      && (forall j :: 0 <= j < r.index ==> solutions[j].config != r.config)
      && (exists m :: 0 <= m < 4 && r.config == Candidate(current, clicked, m)
            && forall m' :: 0 <= m' < m ==> FirstMatch(solutions, Candidate(current, clicked, m')).None?)
  {
    SearchFromFound(current, clicked, solutions, 0);
    var r := Search(current, clicked, solutions);
    var m :| 0 <= m < 4 && r.config == Candidate(current, clicked, m) && FirstMatch(solutions, r.config) == Some(r.index);
    CandidateInvertsClicked(current, clicked, m);
  }

  /** The search fails exactly when no solution has the clicked flag inverted. */
  lemma SearchNotFoundIff(current: Configuration, clicked: int, solutions: seq<KinematicsSolution>)
    requires 0 <= clicked < 3
    ensures Search(current, clicked, solutions).NotFound? <==>
      forall j :: 0 <= j < |solutions| ==> FlagOf(solutions[j].config, clicked) == FlagOf(current, clicked)
  {
    SearchFromNotFound(current, clicked, solutions, 0);
    if Search(current, clicked, solutions).NotFound? {
      forall j | 0 <= j < |solutions| ensures FlagOf(solutions[j].config, clicked) == FlagOf(current, clicked) {
        if FlagOf(solutions[j].config, clicked) != FlagOf(current, clicked) {
          var m := CandidatesCover(current, clicked, solutions[j].config);
          assert false;
        }
      }
    } else {
      SearchFoundIsFirstMatch(current, clicked, solutions);
    }
  }

  // ---------------------------------------------------------------------------
  // The checkboxes
  // ---------------------------------------------------------------------------

  /** A checkbox shows 1 - flag. */
  function ViewValue(f: Flag): (v: Flag)
    ensures v == Invert(f)
  {
    1 - f
  }

  /** getConfigurationView: the configuration the three checkbox values stand for. */
  function GetConfigurationView(directionLive: Flag, flipLive: Flag, turnLive: Flag): (c: Configuration)
    ensures ViewValue(c.poseDirection) == directionLive
    ensures ViewValue(c.poseFlip) == flipLive
    ensures ViewValue(c.poseTurn) == turnLive
  {
    Configuration(1 - directionLive, 1 - flipLive, 1 - turnLive)
  }

  /** Decoding the checkbox values a configuration is shown with gives the configuration back. */
  lemma ViewRoundTrip(c: Configuration)
    ensures GetConfigurationView(ViewValue(c.poseDirection), ViewValue(c.poseFlip), ViewValue(c.poseTurn)) == c
  {
  }

  /** What one checkbox is set to. */
  datatype Checkbox = Checkbox(value: Flag, enabled: bool)

  /** True when some solution differs from `config` in flag `id`. */
  predicate SomeSolutionDiffers(config: Configuration, solutions: seq<KinematicsSolution>, id: int)
    requires 0 <= id < 3
  {
    exists j :: 0 <= j < |solutions| && FlagOf(solutions[j].config, id) != FlagOf(config, id)
  }

  /**
   * copyConfigurationToView: each checkbox shows 1 - flag and is enabled
   * when some solution differs from the current configuration in that flag.
   */
  method CopyConfigurationToView(config: Configuration, solutions: seq<KinematicsSolution>)
    returns (direction: Checkbox, flip: Checkbox, turn: Checkbox)
    ensures direction.value == ViewValue(config.poseDirection)
    ensures flip.value == ViewValue(config.poseFlip)
    ensures turn.value == ViewValue(config.poseTurn)
    ensures direction.enabled <==> SomeSolutionDiffers(config, solutions, DirectionId)
    ensures flip.enabled <==> SomeSolutionDiffers(config, solutions, FlipId)
    ensures turn.enabled <==> SomeSolutionDiffers(config, solutions, TurnId)
  {
    var dir, fl, tu := false, false, false;
    for i := 0 to |solutions|
      invariant dir <==> exists j :: 0 <= j < i && solutions[j].config.poseDirection != config.poseDirection
      invariant fl <==> exists j :: 0 <= j < i && solutions[j].config.poseFlip != config.poseFlip
      invariant tu <==> exists j :: 0 <= j < i && solutions[j].config.poseTurn != config.poseTurn
    {
      var possibleConfig := solutions[i].config;
      if possibleConfig.poseDirection != config.poseDirection {
        dir := true;
      }
      if possibleConfig.poseFlip != config.poseFlip {
        fl := true;
      }
      if possibleConfig.poseTurn != config.poseTurn {
        tu := true;
      }
    }
    direction := Checkbox(1 - config.poseDirection, dir);
    flip := Checkbox(1 - config.poseFlip, fl);
    turn := Checkbox(1 - config.poseTurn, tu);
  }

  /** A checkbox is enabled exactly when clicking it finds a solution. */
  lemma EnabledIffSearchSucceeds(config: Configuration, solutions: seq<KinematicsSolution>, id: int)
    requires 0 <= id < 3
    ensures SomeSolutionDiffers(config, solutions, id) <==> Search(config, id, solutions).Found?
  {
    SearchNotFoundIff(config, id, solutions);
  }

  // ---------------------------------------------------------------------------
  // Rounding of the angle spinners
  // ---------------------------------------------------------------------------

  /** sgn: -1, 0 or 1. */
  function Sign(x: real): (s: real)
    ensures s == -1.0 || s == 0.0 || s == 1.0
    ensures (s > 0.0 <==> x > 0.0) && (s < 0.0 <==> x < 0.0)
  {
    if x > 0.0 then 1.0 else if x < 0.0 then -1.0 else 0.0
  }

  /** sgn(v) * (int)(abs(v) + 0.5); the cast truncates a non-negative value, i.e. takes its floor. */
  function RoundHalfAway(v: real): real
  {
    Sign(v) * ((Spatial.Abs(v) + 0.5).Floor as real)
  }

  /**
   * The result is a whole number within 1/2 of v, its magnitude is |v| rounded to
   * the nearest whole number with halves rounded up, so a tie goes away from zero,
   * and rounding is symmetric about zero.
   */
  lemma RoundHalfAwayProperties(v: real)
    ensures RoundHalfAway(v) == (RoundHalfAway(v).Floor as real)
    ensures Spatial.Abs(RoundHalfAway(v) - v) <= 0.5
    ensures Spatial.Abs(RoundHalfAway(v)) == (Spatial.Abs(v) + 0.5).Floor as real
    ensures Spatial.Abs(RoundHalfAway(v) - v) == 0.5 ==> Spatial.Abs(RoundHalfAway(v)) == Spatial.Abs(v) + 0.5
    ensures RoundHalfAway(-v) == -RoundHalfAway(v)
  {
    var a := Spatial.Abs(v);
    var n := (a + 0.5).Floor;
    assert (n as real) <= a + 0.5 < (n as real) + 1.0;
    assert Spatial.Abs(-v) == a && Sign(-v) == -Sign(v);
    if v < 0.0 {
      assert RoundHalfAway(v) == -(n as real);
      assert (-(n as real)).Floor == -n;
    } else if v == 0.0 {
      assert n == 0;
    } else {
      assert RoundHalfAway(v) == n as real;
    }
  }

  /** Halves round away from zero. */
  lemma RoundHalfAwayExamples()
    ensures RoundHalfAway(2.5) == 3.0 && RoundHalfAway(-2.5) == -3.0
    ensures RoundHalfAway(2.4) == 2.0 && RoundHalfAway(0.0) == 0.0
  {
    assert (3.0).Floor == 3;
    assert (2.9).Floor == 2;
    assert (0.5).Floor == 0;
  }

  /** The spinners holding whole numbers: only the gripper's. */
  const AngleSpinnerInt: seq<bool> := [false, false, false, false, false, false, true]

  /**
   * The rounding rule of angleSpinnerCallback. `rounded` is roundValue(value)
   * for a float spinner.  An integer spinner rounds half away from zero.  If
   * rounding would give back the last value although the spinner moved, the
   * value is nudged one step (1, or 0.1) in the direction of the change.
   */
  function SpinnerValue(value: real, lastValue: real, isInt: bool, rounded: real): real
  {
    var r := if isInt then RoundHalfAway(value) else rounded;
    if r == lastValue && r != value then
      r + (if isInt then Sign(value - lastValue) else Sign(value - lastValue) * 0.1)
    else r
  }

  /** A spinner that was moved never shows its last value again. */
  lemma MovedSpinnerChanges(value: real, lastValue: real, isInt: bool, rounded: real)
    requires value != lastValue
    ensures SpinnerValue(value, lastValue, isInt, rounded) != lastValue
  {
  }

  /** A nudge goes in the direction the spinner was moved; without one the rounded value is kept. */
  lemma NudgeFollowsChange(value: real, lastValue: real, isInt: bool, rounded: real)
    ensures var r := if isInt then RoundHalfAway(value) else rounded;
      var s := SpinnerValue(value, lastValue, isInt, rounded);
      (r == lastValue && r != value ==> Sign(s - lastValue) == Sign(value - lastValue))
      && (r != lastValue || r == value ==> s == r)
  {
  }

  /** The last value of each of the seven angle spinners. */
  class AngleSpinners {
    var lastSpinnerVal: array<real>

    ghost predicate Valid()
      reads this
    {
      lastSpinnerVal.Length == Spatial.NumberOfActuators
    }

    constructor()
      ensures Valid() && fresh(lastSpinnerVal)
      ensures forall i :: 0 <= i < Spatial.NumberOfActuators ==> lastSpinnerVal[i] == 0.0
    {
      lastSpinnerVal := new real[Spatial.NumberOfActuators](_ => 0.0);
    }

    /**
     * angleSpinnerCallback for spinner `angleControlNumber` showing `value`;
     * `rounded` is roundValue(value).  Returns the value the spinner is
     * rounded to and whether it is written back to the widget.
     */
    method AngleSpinnerCallback(angleControlNumber: int, value: real, rounded: real)
      returns (roundedValue: real, written: bool)
      requires Valid() && 0 <= angleControlNumber < Spatial.NumberOfActuators
      modifies lastSpinnerVal
      ensures Valid()
      ensures roundedValue == SpinnerValue(value, old(lastSpinnerVal[angleControlNumber]),
        AngleSpinnerInt[angleControlNumber], rounded)
      ensures written <==> roundedValue != old(lastSpinnerVal[angleControlNumber])
      ensures lastSpinnerVal[..] == old(lastSpinnerVal[..])[angleControlNumber := roundedValue]
    {
      var lastValue := lastSpinnerVal[angleControlNumber];
      roundedValue := rounded;
      var isIntType := AngleSpinnerInt[angleControlNumber];
      if isIntType {
        roundedValue := RoundHalfAway(value);
      }
      if roundedValue == lastValue && roundedValue != value {
        if isIntType {
          roundedValue := roundedValue + Sign(value - lastValue);
        } else {
          roundedValue := roundedValue + Sign(value - lastValue) * 0.1;
        }
      }
      lastSpinnerVal[angleControlNumber] := roundedValue;
      written := lastValue != roundedValue;
    }
  }
}
