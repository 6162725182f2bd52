# Snorre robot-arm core, modelled in Dafny

This project models four pieces of the Snorre robot arm and proves their
properties:

- **Geometry types** (`spatial.dfy`, module `Spatial`). `Point` and `Rotation` are values.
  - `JointAngles` is a class over a fixed array with one angle per actuator (seven).
    Its compound operators (`+=`, `-=`, `*=`, `/=`), `null`, `isNull`, `==` and
    copy/assignment loop over that array in place.
    Pure functions (`Add`, `Sub`, `Scale`, `Div`, `AnglesEqual`, …) state the meaning.
  - `Pose` and `TrajectoryNode` are classes whose fields the operators overwrite.
    Each one's `Value()` is a datatype snapshot (`PoseValue`, `NodeValue`).
    Every method is stated against a pure function of that snapshot.
- **Rotary-encoder angle filter** (`rotary_encoder.dfy`, module `RotaryEncoderModel`).
  - A read nulls the raw angle, wraps it into ±180° and counts failures with saturation.
    When filtering is on, it blends the new angle in with a first-order complementary
    low-pass filter.
  - The calibration takes unfiltered samples into an array and computes their mean and
    population variance.
- **Arm-configuration search** (`configuration_search.dfy`, module `ConfigurationSearch`).
  - The configuration-checkbox callback of the planner window inverts the clicked flag
    and looks through at most four configurations over a list of IK solutions.
  - The other pieces are the checkbox enabling and value encoding, and the rounding and
    nudge rule of the angle spinners.
- **Error-state service** (`error_state.dfy`, module `ErrorState`).
  - The error-code enumeration, with its numeric ranges per subsystem.
  - The last-error register with set, reset and query-once semantics. It is a state
    machine (`Apply`, `Run`) and a class.

The `Option` type shared by the lookups lives in `wrappers.dfy` (module `Wrappers`).

Floating-point numbers (`rational`, `float`) are modelled as reals. Widgets, the
sensor and the clock are replaced by values:
- The IK solutions are an input list.
- A sensor read is a `Reading` (raw angle, transmission status, clock value).
- A callback returns what it would write into its widgets.

Constants whose values are defined in files outside this model are positive constants
chosen here. The proofs do not depend on their values:
- `FloatPrecision`,
- `EncoderFilterResponseTime`,
- `EncoderCheckMaxVariance`,
- `EncoderCheckNoOfSamples`.

`Point[idx]` falls back to `x` for an unknown index. `JointAngles[idx]` has no
fallback: its guard is always true, so it reads `a[idx]` unchecked (see Findings).
The model follows the code.

`fetchSample` ignores the result of `readNewAngleFromSensor` (RotaryEncoder.cpp:133).
A failed read leaves the previous angle in place, and that angle is recorded as the
sample. An encoder whose every read fails therefore yields n equal samples with
variance 0, and `checkEncoderVariance` passes it. `FailedCalibrationPasses` proves
this. The model keeps the behaviour as written.

Assumptions about code whose bodies are in files outside this model:
- `almostEqual(a, b, p)` is taken as `|a - b| < p`.
- `Point::isNull` is taken to test all three coordinates against zero. `Point::null` is
  taken to set them to zero.
- `Point::mirrorAt` is a parameter of `Pose.MirrorAt`.
- `failedReadingCounter` is taken as an unsigned 32-bit counter. `max(c, c+1)` therefore
  saturates at 2^32 - 1.
- `millis()` returns an unsigned 32-bit clock, so elapsed time is `(now - last) mod 2^32`.
- `resetError` is taken to clear the pending flag with the code.
- The `abs` in the spinner rounding (WindowController.cpp:394) is taken to be the
  floating-point overload. An integer `abs` would truncate the value before 0.5 is added.
- `sgn` is taken to return -1, 0 or 1 with the sign of its argument.
- The coordinate ids `X`, `Y` and `Z` are taken to be 0, 1 and 2. `Coord`, `Slot` and
  `SetCoord` hard-code these values, whose definitions are outside this model.

## Model

| member | source | states |
|---|---|---|
| Spatial.Slot | code/WalterKinematics/src/spatial.h:124-144 | Point indices 0, 1 and 2 select their own coordinate; every other index selects x |
| Spatial.Coord | code/WalterKinematics/src/spatial.h:135-144 | reading `Point[idx]` gives the coordinate in the slot the index selects, and x for any index other than 0, 1 and 2 |
| Spatial.SetCoord | code/WalterKinematics/src/spatial.h:124-133 | writing through `Point[idx]` sets the selected coordinate (x for an unknown index) and leaves the other two |
| Spatial.CoordBySlot | code/WalterKinematics/src/spatial.h:135-144 | two indices that select the same coordinate read the same value |
| Spatial.PointEqualsReflexiveSymmetric | code/WalterKinematics/src/spatial.h:115-117 | Point `==` (tolerance on every coordinate) is reflexive and symmetric |
| Spatial.PointEqualsIsTolerant | code/WalterKinematics/src/spatial.h:115-117 | two different points within the tolerance compare equal |
| Spatial.PointEquals | code/WalterKinematics/src/spatial.h:115-117 | two points compare equal exactly when each of the coordinates read through indices 0, 1 and 2 agrees within the tolerance |
| Spatial.RotationEquals | code/WalterKinematics/src/spatial.h:232-234 | Rotation `==` holds exactly when the rotations are identical |
| Spatial.CoordOfArithmetic | code/WalterKinematics/src/spatial.h:65-88 | each coordinate of a point sum, difference, multiple or quotient is that operation on the coordinates |
| Spatial.Add | code/WalterKinematics/src/spatial.h:340-344 | JointAngles `+` applies `+=` to a copy; `Sub` undoes it (AddSubCancel) |
| Spatial.Sub | code/WalterKinematics/src/spatial.h:345-349 | JointAngles `-` applies `-=` to a copy; `Add` undoes it (AddSubCancel) |
| Spatial.Scale | code/WalterKinematics/src/spatial.h:328-332 | JointAngles `*` applies `*=` to a copy; `Div` by the same non-zero factor undoes it (ScaleDivCancel) |
| Spatial.Div | code/WalterKinematics/src/spatial.h:334-338 | JointAngles `/` applies `/=` to a copy, for a non-zero divisor (ScaleDivCancel) |
| Spatial.AddSubCancel | code/WalterKinematics/src/spatial.h:309-349 | joint-angle `+` and `-` act slot by slot, so `(u + v) - v == u` and `(u - v) + v == u` |
| Spatial.ScaleDivCancel | code/WalterKinematics/src/spatial.h:319-338 | multiplying all slots by a non-zero factor and dividing by it restores the vector |
| Spatial.AnglesEqualReflexiveSymmetric | code/WalterKinematics/src/spatial.h:274-279 | JointAngles `==` (no slot differs by more than the tolerance) is reflexive and symmetric |
| Spatial.AnglesEqualNotTransitive | code/WalterKinematics/src/spatial.h:274-279 | three vectors whose neighbours compare equal while the outer two do not |
| Spatial.DefaultPositionIsNotNull | code/WalterKinematics/src/spatial.h:252-262 | the default position has slots 0..5 zero and an opened gripper, so it is not null; the zero vector is null |
| Spatial.MirrorAnglesTwice | code/WalterKinematics/src/spatial.h:412 | reflecting an angle vector at `m` twice gives it back |
| Spatial.IndexGuardAlwaysTrue | code/WalterKinematics/src/spatial.h:285-296 | the guard of `JointAngles[idx]` as written holds for every index, index 7 included |
| Spatial.GetChecked | code/WalterKinematics/src/spatial.h:285-296 | with the intended guard, an index in range reads its slot and any other index the static dummy, which reads 0 as long as nothing was written through the reference it returns |
| Spatial.JointAngles.constructor | code/WalterKinematics/src/spatial.h:248-250 | a new vector has every slot zero |
| Spatial.JointAngles.Copy | code/WalterKinematics/src/spatial.h:264-267 | the copy holds the same seven angles in a fresh array |
| Spatial.JointAngles.Assign | code/WalterKinematics/src/spatial.h:269-272 | after assignment the vector holds the other vector's angles (aliasing included) |
| Spatial.JointAngles.Null | code/WalterKinematics/src/spatial.h:298-301 | every slot becomes zero |
| Spatial.JointAngles.IsNull | code/WalterKinematics/src/spatial.h:302-307 | true exactly when every slot is zero |
| Spatial.JointAngles.Equals | code/WalterKinematics/src/spatial.h:274-279 | true exactly when no slot differs by more than the tolerance |
| Spatial.JointAngles.SetDefaultPosition | code/WalterKinematics/src/spatial.h:252-260 | the vector becomes the default position |
| Spatial.JointAngles.GetDefaultPosition | code/WalterKinematics/src/spatial.h:262 | a fresh vector in the default position |
| Spatial.JointAngles.Get | code/WalterKinematics/src/spatial.h:291-296 | reading an index within the array gives its slot |
| Spatial.JointAngles.Set | code/WalterKinematics/src/spatial.h:285-290 | writing through the reference changes that slot alone |
| Spatial.JointAngles.AddAssign | code/WalterKinematics/src/spatial.h:309-312 | the new vector is the slot-wise sum of the old one and the argument, also when both are the same object |
| Spatial.JointAngles.SubAssign | code/WalterKinematics/src/spatial.h:314-317 | the new vector is the slot-wise difference |
| Spatial.JointAngles.MulAssign | code/WalterKinematics/src/spatial.h:319-322 | every slot is multiplied by the factor |
| Spatial.JointAngles.DivAssign | code/WalterKinematics/src/spatial.h:323-326 | every slot is divided by the non-zero factor |
| Spatial.PoseEqualsIgnoresAnglesAndTcp | code/WalterKinematics/src/spatial.h:426-431 | Pose `==` is unaffected by the cached angles and the tcp deviation of either side |
| Spatial.PoseEqualsReflexiveSymmetric | code/WalterKinematics/src/spatial.h:426-431 | Pose `==` is reflexive and symmetric |
| Spatial.PoseEquals | code/WalterKinematics/src/spatial.h:426-431 | Pose `==` on values: positions within the tolerance, orientation and gripper distance identical; its properties are PoseEqualsIgnoresAnglesAndTcp and PoseEqualsReflexiveSymmetric |
| Spatial.PoseAdd | code/WalterKinematics/src/spatial.h:437-442 | Pose `+=` and `+` keep the angles and the tcp deviation |
| Spatial.PoseSub | code/WalterKinematics/src/spatial.h:443-448 | Pose `-=` and `-` keep the angles and the tcp deviation |
| Spatial.PoseScale | code/WalterKinematics/src/spatial.h:450-457 | Pose `*=` and `*` keep the angles and the tcp deviation |
| Spatial.PoseDiv | code/WalterKinematics/src/spatial.h:458-463 | Pose `/=` and `/` keep the angles and the tcp deviation |
| Spatial.PoseAddSubCancel | code/WalterKinematics/src/spatial.h:437-448 | adding and then subtracting a pose restores every field |
| Spatial.PoseScaleDivCancel | code/WalterKinematics/src/spatial.h:450-463 | scaling by a non-zero factor and dividing by it restores every field |
| Spatial.PoseMirror | code/WalterKinematics/src/spatial.h:408-414 | the gripper distance is reflected at the mirror's, the angles become `m + (m - angles)`, the tcp deviation is the mirror's |
| Spatial.PoseMirrorTwice | code/WalterKinematics/src/spatial.h:408-414 | mirroring twice at the same pose restores gripper distance and angles |
| Spatial.Pose.constructor | code/WalterKinematics/src/spatial.h:363-365 | a new pose is the null pose |
| Spatial.Pose.Copy | code/WalterKinematics/src/spatial.h:366-372 | the copy holds every field of the original, with its own angle array |
| Spatial.Pose.FromParts | code/WalterKinematics/src/spatial.h:373-379 | position, orientation and gripper distance as given; tcp deviation and angles null |
| Spatial.Pose.FromAll | code/WalterKinematics/src/spatial.h:380-386 | all five fields as given, the angles copied |
| Spatial.Pose.Assign | code/WalterKinematics/src/spatial.h:388-394 | every field of the other pose, copied into the existing angle array |
| Spatial.Pose.Null | code/WalterKinematics/src/spatial.h:396-402 | every field becomes zero |
| Spatial.Pose.IsNull | code/WalterKinematics/src/spatial.h:404-406 | true exactly when every coordinate of the position, read through indices 0, 1 and 2, is zero |
| Spatial.Pose.Equals | code/WalterKinematics/src/spatial.h:426-431 | true exactly when the positions agree within the tolerance and the orientations and gripper distances are identical; angles and tcp deviation are not compared |
| Spatial.Pose.AddAssign | code/WalterKinematics/src/spatial.h:437-442 | the new pose is `PoseAdd` of the old one: only position, orientation (coordinate by coordinate) and gripper distance change |
| Spatial.Pose.SubAssign | code/WalterKinematics/src/spatial.h:443-448 | the new pose is `PoseSub` of the old one |
| Spatial.Pose.MulAssign | code/WalterKinematics/src/spatial.h:450-457 | the new pose is `PoseScale` of the old one |
| Spatial.Pose.DivAssign | code/WalterKinematics/src/spatial.h:458-463 | the new pose is `PoseDiv` of the old one |
| Spatial.Pose.MirrorAt | code/WalterKinematics/src/spatial.h:408-414 | the new pose is `PoseMirror` of the old one, computed through two temporary vectors |
| Spatial.InterpolationKinds | code/WalterKinematics/src/spatial.h:539-540 | `isPoseInterpolation` is the negation of `isJointInterpolation`, which holds exactly for JOINT_LINEAR |
| Spatial.NulledNode | code/WalterKinematics/src/spatial.h:547-559 | null sets Bezier interpolation and `continouslyDef`, and leaves `minDuration` and `name` alone |
| Spatial.CopiedNode | code/WalterKinematics/src/spatial.h:509-537 | copying keeps the destination's `minDuration` |
| Spatial.CopyAndNullProperties | code/WalterKinematics/src/spatial.h:509-559 | a copy differs from its source in `minDuration` alone; copying and nulling are idempotent; a nulled node uses pose interpolation |
| Spatial.TrajectoryNode.constructor | code/WalterKinematics/src/spatial.h:506-508 | a new node is a nulled node with an empty name |
| Spatial.TrajectoryNode.Copy | code/WalterKinematics/src/spatial.h:509-521 | every field of the original except `minDuration` |
| Spatial.TrajectoryNode.Assign | code/WalterKinematics/src/spatial.h:523-537 | every field of the other node except `minDuration`, which keeps its value |
| Spatial.TrajectoryNode.Null | code/WalterKinematics/src/spatial.h:547-559 | the node becomes `NulledNode` of its old value |
| Spatial.TrajectoryNode.IsNull | code/WalterKinematics/src/spatial.h:546 | a node is null exactly when its pose's position is the origin |
| Spatial.TrajectoryNode.IsJointInterpolation | code/WalterKinematics/src/spatial.h:540 | true exactly for JOINT_LINEAR |
| Spatial.TrajectoryNode.IsPoseInterpolation | code/WalterKinematics/src/spatial.h:539 | true exactly for the two pose interpolations, linear and cubic Bezier |
| RotaryEncoderModel.NulledAngle | code/BotCortex/RotaryEncoder.cpp:87-92 | the nulled angle is raw minus null, unshifted when already within ±180, one turn lower when above 180 and one turn higher when below -180 |
| RotaryEncoderModel.NulledAngleRange | code/BotCortex/RotaryEncoder.cpp:87-92 | for raw and null angles in [0, 360) the nulled angle lies in [-180, 180] |
| RotaryEncoderModel.NulledAngleExamples | code/BotCortex/RotaryEncoder.cpp:87-92 | raw 10 with null 0 gives 10; raw 359 with null 0 gives -1 |
| RotaryEncoderModel.ElapsedMillis | code/BotCortex/RotaryEncoder.cpp:108 | the unsigned clock difference, correct across a wrap of the clock |
| RotaryEncoderModel.SaturatingIncrement | code/BotCortex/RotaryEncoder.cpp:95 | the failure counter grows by one and stops at its maximum instead of wrapping to zero |
| RotaryEncoderModel.Alpha | code/BotCortex/RotaryEncoder.cpp:111-113 | the filter weight lies in (0, 1] and is 1 exactly when no time elapsed |
| RotaryEncoderModel.Filtered | code/BotCortex/RotaryEncoder.cpp:106-115 | one low-pass step blending the nulled angle in with weight 1 - alpha; its properties are FilteredBetween, FilteredZeroElapsed and FilteredContracts |
| RotaryEncoderModel.FilteredBetween | code/BotCortex/RotaryEncoder.cpp:106-115 | the filtered angle lies between the previous angle and the new nulled one |
| RotaryEncoderModel.FilteredZeroElapsed | code/BotCortex/RotaryEncoder.cpp:106-115 | with no time elapsed the angle does not change |
| RotaryEncoderModel.FilteredContracts | code/BotCortex/RotaryEncoder.cpp:106-115 | the distance to the new angle shrinks by the factor alpha |
| RotaryEncoderModel.FilterIterateDistance | code/BotCortex/RotaryEncoder.cpp:106-115 | after k reads of the same angle the distance is alpha^k times the initial one |
| RotaryEncoderModel.FilterConverges | code/BotCortex/RotaryEncoder.cpp:106-115 | enough steps of the filter recurrence on the same angle at a fixed positive interval bring the filtered angle within any tolerance of it (FilteredReadsConverge states it for reads) |
| RotaryEncoderModel.Read | code/BotCortex/RotaryEncoder.cpp:86-121 | a failed read keeps the angle and increments the counter with saturation; a successful one resets the counter and sets the nulled angle, filtered or not; only a filtered read updates the time of the last read |
| RotaryEncoderModel.ReadFiltered | code/BotCortex/RotaryEncoder.cpp:106-115 | a filtered read blends in the nulled angle by the time since the last filtered read |
| RotaryEncoderModel.ReadAll | code/BotCortex/RotaryEncoder.cpp:86-121 | reading a sequence of readings in order keeps the failure counter within 32 bits (SteadyReadsIterateFilter and SampleIsNulledOrStale relate it to the filter and the samples) |
| RotaryEncoderModel.SteadyReadsIterateFilter | code/BotCortex/RotaryEncoder.cpp:86-121 | filtered reads that all succeed with the same raw angle, each d milliseconds after the one before, give the filter recurrence at d/1000 seconds, and the last read's clock becomes lastSensorRead |
| RotaryEncoderModel.FilteredReadsConverge | code/BotCortex/RotaryEncoder.cpp:86-121 | for a positive interval and any tolerance, there is a number of such steady filtered reads after which the angle is within the tolerance of the nulled raw angle |
| RotaryEncoderModel.Samples | code/BotCortex/RotaryEncoder.cpp:126-137 | one sample per read, each the angle recorded after that read with filtering off |
| RotaryEncoderModel.SampleIsNulledOrStale | code/BotCortex/RotaryEncoder.cpp:124-134 | each calibration sample is the nulled angle of its read, or the previous sample when that read failed |
| RotaryEncoderModel.FailedReadsGiveStaleSamples | code/BotCortex/RotaryEncoder.cpp:124-134 | when every read fails every sample is the angle held before the calibration |
| RotaryEncoderModel.SumSquaresZero | code/BotCortex/RotaryEncoder.cpp:142-148 | a sum of squared deviations is non-negative and zero exactly when all values equal the mean used |
| RotaryEncoderModel.VarianceZeroIffConstant | code/BotCortex/RotaryEncoder.cpp:140-148 | the population variance is non-negative and zero exactly when all samples equal their mean |
| RotaryEncoderModel.MeanBounds | code/BotCortex/RotaryEncoder.cpp:128-140 | the mean of samples within bounds is within the same bounds |
| RotaryEncoderModel.Mean | code/BotCortex/RotaryEncoder.cpp:140 | the mean taken as many times as there are samples gives their sum |
| RotaryEncoderModel.PopulationVariance | code/BotCortex/RotaryEncoder.cpp:142-147 | squared deviations from the mean divided by the sample count; VarianceZeroIffConstant states its sign and when it is zero |
| RotaryEncoderModel.FailedCalibrationPasses | code/BotCortex/RotaryEncoder.cpp:124-149 | a calibration in which every read fails has variance zero and passes the check |
| RotaryEncoderModel.RotaryEncoder.GetAngle | code/BotCortex/RotaryEncoder.cpp:63-68 | the angle plus the configured offset is the current sensor angle |
| RotaryEncoderModel.RotaryEncoder.SetNullAngle | code/BotCortex/RotaryEncoder.cpp:70-80 | `getNullAngle` afterwards returns the angle set |
| RotaryEncoderModel.RotaryEncoder.GetNullAngle | code/BotCortex/RotaryEncoder.cpp:78-80 | the null angle last stored, which SetNullAngle sets and every read subtracts |
| RotaryEncoderModel.RotaryEncoder.GetAngleOffset | code/BotCortex/RotaryEncoder.cpp:74-76 | the configured offset, which GetAngle subtracts from the current sensor angle |
| RotaryEncoderModel.RotaryEncoder.GetLastRawSensorAngle | code/BotCortex/RotaryEncoder.cpp:82-84 | the current angle before the offset is applied |
| RotaryEncoderModel.RotaryEncoder.ReadNewAngleFromSensor | code/BotCortex/RotaryEncoder.cpp:86-121 | returns whether the transmission succeeded; the new state is `Read` of the old one |
| RotaryEncoderModel.RotaryEncoder.TakeSamples | code/BotCortex/RotaryEncoder.cpp:128-137 | the sampling loop: the state becomes `ReadAll` of the n reads with filtering off, the first n array slots hold `Samples`, the rest is untouched, and the returned sum is the sum of the samples |
| RotaryEncoderModel.RotaryEncoder.SquaredDeviations | code/BotCortex/RotaryEncoder.cpp:142-146 | the variance loop returns the sum of the squared deviations of the first n samples from the mean, `SumSquares` |
| RotaryEncoderModel.RotaryEncoder.FetchSample | code/BotCortex/RotaryEncoder.cpp:124-149 | the first n array slots hold the unfiltered samples, the rest is untouched; mean and population variance of them; the verdict is variance within the limit (false for n = 0); filtering is on afterwards |
| RotaryEncoderModel.RotaryEncoder.FetchSampleDefault | code/BotCortex/RotaryEncoder.cpp:151-155 | the same over the default sample count, in a local buffer |
| RotaryEncoderModel.RotaryEncoder.CheckEncoderVariance | code/BotCortex/RotaryEncoder.cpp:157-178 | `passedCheck` becomes the verdict of a full sample and the non-negative variance is returned |
| ConfigurationSearch.Toggle | code/WalterPlanner/src/WindowController.cpp:477-490 | the switch inverts the flag of a known control id and leaves the configuration alone otherwise |
| ConfigurationSearch.Candidate | code/WalterPlanner/src/WindowController.cpp:477-534 | the k-th configuration examined: the clicked flag inverted and the other two stepped in Gray-code order; CandidateInvertsClicked, CandidatesDistinct and CandidatesCover are its properties |
| ConfigurationSearch.CandidateInvertsClicked | code/WalterPlanner/src/WindowController.cpp:477-534 | every examined configuration has the clicked flag inverted |
| ConfigurationSearch.CandidatesDistinct | code/WalterPlanner/src/WindowController.cpp:518-534 | the four examined configurations are pairwise distinct |
| ConfigurationSearch.CandidatesCover | code/WalterPlanner/src/WindowController.cpp:518-534 | every configuration with the clicked flag inverted is examined |
| ConfigurationSearch.ControlSequence | code/WalterPlanner/src/WindowController.cpp:518-520 | the control step skipping the clicked id visits the other two ids alternately |
| ConfigurationSearch.StepGivesNextCandidate | code/WalterPlanner/src/WindowController.cpp:518-534 | one control step and toggle turn each examined configuration into the next one (Gray code) |
| ConfigurationSearch.FirstMatch | code/WalterPlanner/src/WindowController.cpp:496-501 | the index of the first solution in list order with the given configuration, or none when no solution has it |
| ConfigurationSearch.FindSolution | code/WalterPlanner/src/WindowController.cpp:497-514 | the inner loop returns exactly `FirstMatch`: the first solution in list order with the examined configuration, or none |
| ConfigurationSearch.SearchFrom | code/WalterPlanner/src/WindowController.cpp:493-537 | the search from the k-th candidate on; SearchFromFound and SearchFromNotFound state what it returns |
| ConfigurationSearch.Search | code/WalterPlanner/src/WindowController.cpp:493-537 | the whole search from the first candidate; SearchFoundIsFirstMatch and SearchNotFoundIff state what it returns |
| ConfigurationSearch.ConfigurationViewCallback | code/WalterPlanner/src/WindowController.cpp:476-538 | the do-while search returns exactly `Search`: the first solution of the earliest candidate that has one, or not found |
| ConfigurationSearch.SearchFromFound | code/WalterPlanner/src/WindowController.cpp:493-536 | a result found from candidate k on is the first match of the earliest such candidate with one |
| ConfigurationSearch.SearchFromNotFound | code/WalterPlanner/src/WindowController.cpp:493-537 | the search from candidate k on fails exactly when none of those candidates has a match |
| ConfigurationSearch.SearchFoundIsFirstMatch | code/WalterPlanner/src/WindowController.cpp:497-513 | a found solution has the clicked flag inverted, belongs to the earliest candidate with a match, and is first in list order |
| ConfigurationSearch.SearchNotFoundIff | code/WalterPlanner/src/WindowController.cpp:493-537 | the search fails exactly when no solution differs from the current configuration in the clicked flag |
| ConfigurationSearch.ViewValue | code/WalterPlanner/src/WindowController.cpp:147-149 | a checkbox shows the inverted flag |
| ConfigurationSearch.GetConfigurationView | code/WalterPlanner/src/WindowController.cpp:134-141 | the configuration decoded from the checkbox values shows those values again |
| ConfigurationSearch.ViewRoundTrip | code/WalterPlanner/src/WindowController.cpp:136-149 | decoding the values a configuration is shown with gives the configuration back |
| ConfigurationSearch.CopyConfigurationToView | code/WalterPlanner/src/WindowController.cpp:144-176 | each checkbox shows 1 - flag and is enabled exactly when some solution differs in that flag |
| ConfigurationSearch.EnabledIffSearchSucceeds | code/WalterPlanner/src/WindowController.cpp:151-175 | a checkbox is enabled exactly when clicking it finds a solution |
| ConfigurationSearch.RoundHalfAwayProperties | code/WalterPlanner/src/WindowController.cpp:393-394 | integer rounding gives a whole number within 1/2 of the value whose magnitude is the magnitude of the value rounded with halves up, so a tie rounds away from zero; it is symmetric about zero |
| ConfigurationSearch.RoundHalfAwayExamples | code/WalterPlanner/src/WindowController.cpp:393-394 | 2.5 rounds to 3, -2.5 to -3, 2.4 to 2 |
| ConfigurationSearch.Sign | code/WalterPlanner/src/WindowController.cpp:394-399 | `sgn` gives -1, 0 or 1, positive exactly for a positive argument and negative exactly for a negative one |
| ConfigurationSearch.RoundHalfAway | code/WalterPlanner/src/WindowController.cpp:393-394 | integer rounding of a spinner value, half away from zero; RoundHalfAwayProperties proves the nearest whole number, the tie-break away from zero and the symmetry |
| ConfigurationSearch.MovedSpinnerChanges | code/WalterPlanner/src/WindowController.cpp:395-400 | a spinner moved away from its last value never rounds back to it |
| ConfigurationSearch.NudgeFollowsChange | code/WalterPlanner/src/WindowController.cpp:395-400 | a nudge goes in the direction of the change; without a nudge the rounded value is kept |
| ConfigurationSearch.SpinnerValue | code/WalterPlanner/src/WindowController.cpp:389-400 | the value a spinner is set to from its live value and its last value; MovedSpinnerChanges and NudgeFollowsChange state its properties |
| ConfigurationSearch.AngleSpinners.constructor | code/WalterPlanner/src/WindowController.cpp:388 | the static last values start at zero |
| ConfigurationSearch.AngleSpinners.AngleSpinnerCallback | code/WalterPlanner/src/WindowController.cpp:383-409 | the rounded value follows the rounding and nudge rule, it is stored as the spinner's last value, and it is written back exactly when it differs from the previous last value |
| ErrorState.FromCode | code/WalterCommon/src/core.h:17-43 | a code that decodes to an enumerator is that enumerator's value |
| ErrorState.FromCodeOfCode | code/WalterCommon/src/core.h:17-43 | decoding an enumerator's value gives the enumerator |
| ErrorState.Code | code/WalterCommon/src/core.h:17-43 | the numeric value of each enumerator; FromCodeOfCode and CodesDistinct show it is injective and decoded back by FromCode |
| ErrorState.CodesDistinct | code/WalterCommon/src/core.h:17-43 | the enumerators have distinct values and only NO_ERROR is 0 |
| ErrorState.CodeRange | code/WalterCommon/src/core.h:18-42 | each subsystem's range is non-empty |
| ErrorState.CodeInOwnRangeOnly | code/WalterCommon/src/core.h:18-42 | every code lies in its own subsystem's range and in no other |
| ErrorState.RangesDisjoint | code/WalterCommon/src/core.h:18-42 | the subsystem ranges do not overlap |
| ErrorState.SubsystemOf | code/WalterCommon/src/core.h:18-42 | the subsystem whose comment group lists the enumerator; CodeInOwnRangeOnly places every code in that subsystem's range only |
| ErrorState.Apply | code/WalterCommon/src/core.h:45-59 | setError records the error and marks it pending; resetError gives NO_ERROR; isError clears the pending mark |
| ErrorState.Run | code/WalterCommon/src/core.h:45-59 | the register after a sequence of calls, in order; IsErrorReportsOnce and LastErrorIsMostRecent state what it holds |
| ErrorState.IsErrorReportsOnce | code/WalterCommon/src/core.h:58-59 | after any call sequence, `isError` answers true exactly when an error was set after the last query or reset |
| ErrorState.SecondQueryAnswersFalse | code/WalterCommon/src/core.h:58-59 | a query right after a query answers false and keeps the last error |
| ErrorState.LastErrorIsMostRecent | code/WalterCommon/src/core.h:48-52 | `getLastError` returns the error most recently set when only queries followed |
| ErrorState.ErrorRegister.constructor | code/WalterCommon/src/core.h:45-49 | the register starts with NO_ERROR and nothing pending |
| ErrorState.ErrorRegister.SetError | code/WalterCommon/src/core.h:51-52 | `getLastError` afterwards returns the error set |
| ErrorState.ErrorRegister.ResetError | code/WalterCommon/src/core.h:45-46 | `getLastError` afterwards returns NO_ERROR |
| ErrorState.ErrorRegister.GetLastError | code/WalterCommon/src/core.h:48-49 | the last error recorded, which SetError and ResetError set |
| ErrorState.ErrorRegister.IsError | code/WalterCommon/src/core.h:58-59 | answers whether an error is pending and clears the pending mark |

## Left out

- Floating-point rounding, overflow and NaN are not modelled. Reals are exact.
  - Division by zero, which gives inf or NaN in the source, is excluded by the `requires` of the division operators.
  - `fetchSample` with n = 0 divides 0 by 0. The model returns `false` with mean and variance 0. The source's verdict, `NaN <= limit`, is also false.
- The `(int)` cast in the spinner rounding is taken as exact truncation. Overflow of values beyond the int range is not modelled.
- `roundValue`, the non-integer rounding of the spinners, is defined in a file that is not part of this model. Its result is a parameter.
- `Point::null`, `Point::isNull` and `Point::mirrorAt` are defined in a file that is not part of this model. The first two are assumed to zero and test all coordinates; the third is a parameter of `Pose.MirrorAt`.
- `toString`, `fromString`, `getText`, `distance` and `length`: string formatting and square roots, outside the model. So are `orthogonalProjection` and the `HomVector`/matrix library.
- The IK solver, forward kinematics and trajectory compilation are not part of this model. The IK solutions are an input list.
- The spinner writes of `configurationViewCallback` and the `changedAnglesCallback` follow-ups are not modelled. These are widget side effects; the callback returns the chosen solution's index and configuration instead.
- The logging of all modules is not modelled, including the "valid configuration not found" message, which is represented by the `NotFound` result.
- `delay(10)` between calibration samples, `millis()` and the sensor bus are replaced by the clock value and status carried in each `Reading`.
- `RotaryEncoder::setup` (I2C probing) is not modelled. So are the rest of the window code (GLUT/GLUI, rendering, mouse handling, the UI thread) and the Arduino main loop.
- `getErrorMessage`/`getLastErrorMessage` texts are defined in a file that is not part of this model, and so are the bodies of `setError`, `resetError`, `getLastError` and `isError`. The register is modelled from their documented contracts.
- `ConfigurationSearch.ConfigurationViewCallback`: requires a control id 0, 1 or 2. The callback is registered only for the three checkboxes with those ids (WindowController.cpp:619-621).
- `RotaryEncoderModel.RotaryEncoder`: `nullAngle` and `angleOffset` are plain fields of the encoder. The source reads and writes them through the shared `configData` and `actuatorConfig` blocks (RotaryEncoder.cpp:66, 71, 75, 79), so other code holding those blocks could change them; that sharing is not modelled.
- `Spatial.GetChecked`: reads the out-of-range dummy as 0. The source's dummy is a function-level `static` returned by non-const reference (spatial.h:288-289), so a value written through it would persist and be read back by later out-of-range accesses; that shared state is not modelled.
- `poseSpinnerCallback` (WindowController.cpp:411-437) applies the same rounding and nudge rule to the pose spinners. It is not modelled separately; it differs only in storing the last value inside the write branch.

## Findings

| source | as written | input that shows it | evidently intended | confidence | as-written member | corrected member |
|---|---|---|---|---|---|---|
| code/WalterKinematics/src/spatial.h:286 | the guard of `JointAngles[idx]` joins its two bounds with `\|\|`, so it holds for every index and `a[idx]` is read unchecked | idx = 7 (or -1) passes the guard and indexes past the array of seven slots | join the bounds with `&&`, so an out-of-range index returns the static dummy, which reads 0 until something is written through the returned reference | high, not executed | Spatial.IndexGuardAlwaysTrue | Spatial.GetChecked |
