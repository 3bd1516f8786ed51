# Pheasant WRO 2021 motion layer, in Dafny

This project models the motion layer of Team Pheasant's LEGO EV3 robot for the World Robot
Olympiad 2021, and proves properties of that model. The layer has four parts.

- **PID controllers.** There are three generations:
  - `PIDController` (pheasant/ev3pid/utils) clamps the accumulator before taking the I term, clamps the output, and takes an `integralMultiplier`;
  - `PIDLoop` (ev3pid/base) takes the I term before the clamp, and its constructor stores the output limit as the integral limit;
  - `PIDLoop` (movement) has one class-wide `INTEGRAL_LIMIT` and never clamps its output.

  Each is a Dafny `class` with the gains and limits as `Option<real>` constants. `integral` and `prevError` change in place. Each class has a pure `Step` function that specifies `Update`.
- **Default registries.** These are the class attributes that the `setDefault*` class methods assign: default motors, gyro and colour sensors, gain tuples and the known-threshold table.
  - Each registry is a class holding one `map` from class name to value for each attribute.
  - A read through `self.__class__` searches a *lineage*: the class and its bases, most derived first (`ClassAttributes.Lookup`).
  - Constructors resolve "argument, else registered default" as functions over `Option`s.
- **Movement primitives.** These are GyroTurn, GyroStraight, LineTrack and LineSquare, each in the versions the repository keeps.
  - Each is a `while not <exit test>` loop: it polls sensors, feeds an error to its controller(s) and commands the two drive motors.
  - The hardware is a finite sequence of readings, one per evaluation of the exit test.
  - The motors are a trace of `MotorEvent`s (`Drive(left, right)` or `HoldBoth`) in the object's `commands` field.
  - Each loop is a `method` proved against a specification function built from `Polling.Poll`. Lemmas then say what that function issues: the command shape, the exact exit reading, the controller history, and whether a hold follows.
- **Side-scan classifier.** `SideScan` models the pure colour and presence tests on a raw (r, g, b) triple.

The model follows the code where the code and its documentation disagree.
- `ev3pid/base/PIDLoop.py:30` assigns the resolved output limit to `integralLimit`, and the raw `outputLimit` argument is stored (line 38). The model keeps this overwrite (`BasePidLoop.ResolveTuning`), and every primitive built on that class inherits it.

Four source files that these modules import are not part of this model. A file with the same constructor signature stands in for each one.
- `ev3pid/utils/PIDController.py` is not part of this model; `pheasant/ev3pid/utils/PIDController.py` stands in for it.
- `pheasant/ev3pid/utils/GyroInput.py` and `pheasant/ev3pid/utils/DoubleColorInput.py` are not part of this model; the `ev3pid/utils` versions stand in for them.
- `ev3pid/base/GyroMovement.py` is not part of this model; `movement/base/GyroMovement.py` (`GyroMovementBase`) stands in for it.
- `movement/base/PIDLoop.py` is not part of this model; `ev3pid/base/PIDLoop.py` stands in for it.

In Python each GyroTurn module declares its own SINGLE and DOUBLE class attributes and
setters. The model shares only their type: `PheasantGyroTurn.TurnDefaults` is one class, and
each GyroTurn constructor takes its own instance of it as a parameter.

Some mixins repeat in several files, and each repeated one is modelled once:
- `ev3move/utils/DoubleMotorBase.py` behaves as `pheasant/ev3move/utils/DoubleMotorBase.py`. Its `!= None` tests agree with `is not None` on pybricks devices, so `DoubleMotorBaseEv3move.MotorDefaults` names the same class.
- `ev3pid/base/GyroInput.py` and `movement/base/GyroMovement.py` behave as `ev3pid/utils/GyroInput.py`. `GyroInputBase.GyroDefaults` and `GyroMovementBase.GyroDefaults` name its class, and its `SetDefaultSensor` stands for the movement setter `setDefaultGyroSensor`.
- The six-argument `PIDLoop` calls of the movement GyroTurn and GyroStraight are both corrected to the same four-argument call, `MovementPidLoop.InitWithGains` (see Findings).

`speed` is a mutable field in both GyroStraight versions and both LineTrack versions, as the
plain attribute `self.speed` is in Python. Each run reads its current value, so a caller can
ramp the speed between runs of one object, and the controller state carries over.

## Model

| member | source | states |
|---|---|---|
| ClassAttributes.Find | pheasant/ev3move/utils/DoubleMotorBase.py:18-19 | the value read is `None` exactly when no class of the lineage assigned the attribute; otherwise it is some class's assignment |
| ClassAttributes.OwnAssignmentWins | pheasant/ev3move/utils/DoubleMotorBase.py:18-24 | an assignment on the object's own class shadows every assignment on its bases |
| ClassAttributes.AssignmentInherited | pheasant/ev3move/utils/DoubleMotorBase.py:18-24 | a setter called on a base class is seen by a subclass whose chain to it assigned nothing |
| ClassAttributes.AssignmentElsewhere | pheasant/ev3move/utils/DoubleMotorBase.py:21-24 | a setter called on a class outside the lineage changes nothing that the lineage reads |
| ClassAttributes.Resolve | pheasant/ev3move/utils/DoubleMotorBase.py:18-19 | an explicit argument wins; otherwise the own class's registration decides; with nothing registered the result is `None` and nothing raises |
| PidCommon.Clamp | pheasant/ev3pid/utils/PIDController.py:52-53 | `min` then `max` keeps the value in [-L, L] for L >= 0, leaves values inside unchanged, and answers `-L` for a negative limit |
| PidCommon.ClampTo | pheasant/ev3pid/utils/PIDController.py:62-64 | no clamp when the limit is `None`; within [-M, M] when it is M >= 0 |
| PidCommon.Tuning.Or | pheasant/ev3pid/utils/PIDController.py:26-30 | each of the five values is the argument when it is not `None`, else the fallback |
| PidCommon.TuningDefaults.constructor | pheasant/ev3pid/utils/PIDController.py:11-15 | all five defaults start unassigned (`None`) |
| PidCommon.TuningDefaults.SetDefaultTuning | pheasant/ev3pid/utils/PIDController.py:72-76 | assigns the three gain defaults on the class it is called on and leaves both limit defaults alone |
| PidCommon.TuningDefaults.SetDefaultIntegralLimit | pheasant/ev3pid/utils/PIDController.py:78-80 | assigns only the integral-limit default on that class |
| PidCommon.TuningDefaults.SetDefaultOutputLimit | pheasant/ev3pid/utils/PIDController.py:82-84 | assigns only the output-limit default on that class |
| PidController.Step | pheasant/ev3pid/utils/PIDController.py:44-66 | `prevError` becomes the error; the accumulator is in [-L, L] for a limit L >= 0; the output is in [-M, M] for a limit M >= 0 |
| PidController.UnlimitedOutputIsSum | pheasant/ev3pid/utils/PIDController.py:46-61 | with no output limit the output is P + I + D, the I term taken from the accumulator after its clamp |
| PidController.ZeroMultiplierForgets | pheasant/ev3pid/utils/PIDController.py:50-53 | with `integralMultiplier` 0 the new accumulator is the clamped current error alone; the history is discarded |
| PidController.OutputLinearInGains | pheasant/ev3pid/utils/PIDController.py:46-61 | with no output limit the output is linear in the gains (summed gains give the summed outputs, scaled gains the scaled output), and the new state does not depend on the gains |
| PidController.ProportionalPassThrough | pheasant/ev3pid/utils/PIDController.py:47-61 | with kp=1, ki=0, kd=0 and no output limit, every call in any sequence returns its error exactly |
| PidController.OutputAlwaysWithinLimit | pheasant/ev3pid/utils/PIDController.py:61-64 | with an output limit M >= 0, no response in any sequence of calls leaves [-M, M] |
| PidController.IntegralStaysWithinLimit | pheasant/ev3pid/utils/PIDController.py:50-53 | with an integral limit L >= 0, the accumulator stays in [-L, L] after any sequence of calls |
| PidController.PIDController.constructor | pheasant/ev3pid/utils/PIDController.py:17-42 | each `None` argument becomes the class default read along the lineage; the setpoint is kept; the state is zero |
| PidController.PIDController.Update | pheasant/ev3pid/utils/PIDController.py:44-66 | when configured, the result and new state are `Step`'s; a `None` gain raises TypeError, with the state partly updated where Python has already written it |
| PidController.PIDController.Reset | pheasant/ev3pid/utils/PIDController.py:68-70 | `integral` and `prevError` become 0 and nothing else changes |
| PidController.ResetMatchesFresh | pheasant/ev3pid/utils/PIDController.py:41-70 | after any history, `reset` then `update(e)` answers as a newly built controller does |
| PidController.ProportionalScenario | pheasant/ev3pid/utils/PIDController.py:47-61 | a proportional controller with kp=2 answers 10 to 5 and then -10 to -5 |
| BasePidLoop.ResolveTuning | ev3pid/base/PIDLoop.py:26-38 | gains resolve as usual; `integralLimit` holds the output limit (argument, else `OUTPUT_LIMIT_DEFAULT`); `outputLimit` is the raw argument |
| BasePidLoop.IntegralLimitIgnored | ev3pid/base/PIDLoop.py:29-30 | neither the integral-limit argument nor `INTEGRAL_LIMIT_DEFAULT` changes what is stored |
| BasePidLoop.OutputDefaultNeverStored | ev3pid/base/PIDLoop.py:30-38 | with no output-limit argument, no output limit is stored, and the output default becomes the integral limit |
| BasePidLoop.Step | ev3pid/base/PIDLoop.py:44-66 | `prevError` becomes the error; the stored accumulator is the clamped sum; the I term uses the unclamped sum; the output is within an output limit M >= 0 |
| BasePidLoop.OutputLinearInGains | ev3pid/base/PIDLoop.py:46-61 | with no output limit the output is linear in the gains, and the new state does not depend on the gains |
| BasePidLoop.ClampOrderDiffers | ev3pid/base/PIDLoop.py:50-54 | on one concrete state this controller answers 2 where the later one answers 1, with the same stored accumulator |
| BasePidLoop.IntegralStaysWithinLimit | ev3pid/base/PIDLoop.py:52-54 | with an integral limit L >= 0, the stored accumulator stays in [-L, L] over any run |
| BasePidLoop.OutputAlwaysWithinLimit | ev3pid/base/PIDLoop.py:61-64 | with an output limit M >= 0, no response of any run leaves [-M, M] |
| BasePidLoop.PIDLoop.constructor | ev3pid/base/PIDLoop.py:17-42 | stores `ResolveTuning` of the arguments and the lineage's defaults, keeps the setpoint, and zeroes the state |
| BasePidLoop.PIDLoop.Update | ev3pid/base/PIDLoop.py:44-66 | when configured, gives `Step`'s result and state; a `None` gain raises TypeError after the writes Python has already made |
| BasePidLoop.PIDLoop.Reset | ev3pid/base/PIDLoop.py:68-70 | zeroes the two running terms only |
| BasePidLoop.LimitsAsStored | ev3pid/base/PIDLoop.py:29-38 | an output limit of 1 is stored as both limits; an integral limit of 1 alone is stored as neither |
| MovementPidLoop.Step | movement/PIDLoop.py:26-43 | the output is P + I + D on the unclamped accumulator, with no output clamp; `prevError` is the error; the stored accumulator is within [-L, L] for L >= 0 |
| MovementPidLoop.AccumulatorIsSumOfErrors | movement/PIDLoop.py:32 | with no integral limit, the accumulator is the plain sum of every error fed |
| MovementPidLoop.PidLoopClasses.constructor | movement/PIDLoop.py:10 | `INTEGRAL_LIMIT` starts unassigned and no gain default exists |
| MovementPidLoop.PidLoopClasses.SetIntegralLimit | movement/PIDLoop.py:51-53 | assigns `INTEGRAL_LIMIT` on that class only |
| MovementPidLoop.PidLoopClasses.SetDefaultTuning | movement/PIDLoop.py:45-49 | assigns the three gain defaults on that class and nothing else |
| MovementPidLoop.InitWithGains | movement/PIDLoop.py:12-21 | the four-argument call binds, keeps the three gains as passed and stores no limit |
| MovementPidLoop.BindInit | movement/PIDLoop.py:12-16 | a call binds without error exactly when it passes four positional arguments; otherwise TypeError |
| MovementPidLoop.PIDLoop.constructor | movement/PIDLoop.py:12-24 | gains and setpoint are stored exactly as passed, with no defaults read; the state is zero |
| MovementPidLoop.PIDLoop.Update | movement/PIDLoop.py:26-43 | reads the class's current `INTEGRAL_LIMIT` and gives `Step`'s result; a `None` gain raises TypeError |
| MovementPidLoop.ClassSettersSeenByInstances | movement/PIDLoop.py:34-53 | `setIntegralLimit` affects the next update of an object built earlier; `setDefaultTuning` changes nothing that a later construction stores |
| ColorInputUtils.CheckKnownThresholds | ev3pid/utils/ColorInput.py:45-55 | `None` exactly when no pair names the sensor; otherwise the threshold of the first pair naming it |
| ColorInputUtils.ExtendKeepsEarlierAnswers | ev3pid/utils/ColorInput.py:43-53 | after `extend`, a sensor already known keeps its answer (first match shadows); an unknown sensor is answered by the new pairs |
| ColorInputUtils.ColorDefaults.constructor | ev3pid/utils/ColorInput.py:25-27 | starts with an empty shared list and no default sensor |
| ColorInputUtils.ColorDefaults.SetDefaultSensor | ev3pid/utils/ColorInput.py:34-36 | assigns `DEFAULT_COLOR` on that class; the threshold list is unchanged |
| ColorInputUtils.ColorDefaults.SetKnownThresholds | ev3pid/utils/ColorInput.py:38-43 | appends the pairs to the one shared list, keeping existing pairs in place |
| ColorInputUtils.ColorDefaults.Sensor | ev3pid/utils/ColorInput.py:31 | an explicit sensor is kept; an omitted one is the first `DEFAULT_COLOR` registration along the lineage, else `None` |
| ColorInputUtils.ColorDefaults.Threshold | ev3pid/utils/ColorInput.py:31-32 | an explicit threshold is kept; otherwise it is looked up for the resolved sensor, default included |
| ColorInputUtils.DefaultSensorThreshold | ev3pid/utils/ColorInput.py:31-53 | a default sensor finds its known threshold, and a second registration for it does not change that answer |
| ColorInputBase.CheckKnownThresholds | ev3pid/base/ColorInput.py:30-35 | answers exactly for the sensors in the dictionary, with their mapped value; `None` on a miss |
| ColorInputBase.UpdateOverwrites | ev3pid/base/ColorInput.py:26-28 | after `update`, the new keys get their new thresholds and every other key keeps its answer |
| ColorInputBase.ColorDefaults.constructor | ev3pid/base/ColorInput.py:14-15 | starts with an empty shared dictionary and no default sensor |
| ColorInputBase.ColorDefaults.SetDefaultSensor | ev3pid/base/ColorInput.py:22-24 | assigns `DEFAULT_COLOR` on that class only |
| ColorInputBase.ColorDefaults.SetKnownThresholds | ev3pid/base/ColorInput.py:26-28 | merges into the shared dictionary, the new values winning |
| ColorInputBase.ColorDefaults.Sensor | ev3pid/base/ColorInput.py:19 | an explicit sensor is kept; an omitted one is the first `DEFAULT_COLOR` registration along the lineage, else `None` |
| ColorInputBase.ColorDefaults.Threshold | ev3pid/base/ColorInput.py:19-20 | an explicit threshold is kept; otherwise it is looked up for the sensor argument, not the resolved default |
| ColorInputBase.DefaultSensorNotLookedUp | ev3pid/base/ColorInput.py:19-28 | with a default sensor whose threshold is known, omitting both arguments still gives no threshold |
| DoubleColorInputUtils.SideDefaults.constructor | ev3pid/utils/DoubleColorInput.py:14-15 | both side defaults start unassigned |
| DoubleColorInputUtils.SideDefaults.SetDefaultSensors | ev3pid/utils/DoubleColorInput.py:27-30 | assigns both side defaults on that class |
| DoubleColorInputUtils.SideDefaults.Fields | ev3pid/utils/DoubleColorInput.py:17-25 | explicit sensors and thresholds are kept; an omitted sensor is that side's first registration along the lineage, else `None`; an omitted threshold is looked up for that side's resolved sensor |
| DoubleColorInputUtils.SidesIndependent | ev3pid/utils/DoubleColorInput.py:19-25 | changing one side's arguments never changes the other side's sensor or threshold |
| DoubleColorInputBase.SideDefaults.constructor | ev3pid/base/DoubleColorInput.py:16-17 | both side defaults start unassigned |
| DoubleColorInputBase.SideDefaults.SetDefaultSensors | ev3pid/base/DoubleColorInput.py:27-30 | assigns both side defaults on that class |
| DoubleColorInputBase.SideDefaults.Fields | ev3pid/base/DoubleColorInput.py:19-25 | explicit values are kept; an omitted sensor is that side's first registration along the lineage, else `None`; an omitted threshold is looked up for the raw sensor argument, so an omitted sensor looks up `None` |
| DoubleColorInputBase.SidesIndependent | ev3pid/base/DoubleColorInput.py:21-25 | the two sides resolve independently |
| DoubleMotorBasePheasant.MotorDefaults.constructor | pheasant/ev3move/utils/DoubleMotorBase.py:12-13 | no motor default is registered |
| DoubleMotorBasePheasant.MotorDefaults.SetDefaultMotors | pheasant/ev3move/utils/DoubleMotorBase.py:21-24 | assigns both defaults on that class |
| DoubleMotorBasePheasant.MotorDefaults.Motors | pheasant/ev3move/utils/DoubleMotorBase.py:15-19 | explicit motors are stored unchanged; an omitted motor is that side's first registration along the lineage, else `None` |
| DoubleMotorBasePheasant.SidesIndependent | pheasant/ev3move/utils/DoubleMotorBase.py:18-19 | each side's motor does not depend on the other side's argument |
| DoubleMotorBasePheasant.RegisteredOnBaseReachesSubclass | pheasant/ev3move/utils/DoubleMotorBase.py:12-24 | with nothing registered, omitted motors stay `None` without error; motors registered on a base reach a subclass |
| GyroInputUtils.GyroDefaults.constructor | ev3pid/utils/GyroInput.py:12 | no default gyro is registered |
| GyroInputUtils.GyroDefaults.SetDefaultSensor | ev3pid/utils/GyroInput.py:19-21 | assigns `DEFAULT_GYRO` on that class |
| GyroInputUtils.GyroDefaults.Sensor | ev3pid/utils/GyroInput.py:17 | an explicit gyro is kept; an omitted one is the first `DEFAULT_GYRO` registration along the lineage, else `None` |
| GyroInputUtils.SetterAffectsLaterConstructions | ev3pid/utils/GyroInput.py:12-21 | with nothing registered, an omitted sensor is `None`; after the setter it is the registered gyro; an explicit sensor still wins |
| Polling.FirstDone | ev3pid/GyroStraight.py:42 | the index of the first reading that passes the exit test (or the count of readings); none before it passes |
| Polling.PollExitsAtFirstDone | ev3pid/GyroStraight.py:41-47 | a polling loop leaves exactly at the first reading that passes its exit test, after one command per earlier reading |
| Polling.PollThroughController | ev3pid/GyroStraight.py:42-47 | a loop that feeds each reading's error to one controller issues exactly that controller's responses and leaves it in the state those errors lead to |
| Polling.PollThroughTwoControllers | pheasant/ev3pid/LineSquare.py:61-69 | with one controller per side, each side's outputs and final state depend only on its own errors |
| Polling.PollMapsCommands | ev3pid/LineTrack.py:50-54 | two loops whose ticks differ by a fixed rewrite of the command issue the rewritten trace and end in the same state |
| Polling.Reversed | pheasant/ev3pid/LineSquare.py:59-69 | negates both wheel speeds of a drive command and leaves a hold alone |
| PheasantGyroTurn.TurnAdvance | pheasant/ev3pid/GyroTurn.py:78-84 | one iteration: on a reading that fails the exit test, the controller steps on `heading - angle` and the command from its output is issued |
| PheasantGyroTurn.CommandsTurnOnTheSpot | pheasant/ev3pid/GyroTurn.py:83-84 | every command gives an undriven wheel 0, and with both wheels driven left = -right |
| PheasantGyroTurn.TurnFollowsController | pheasant/ev3pid/GyroTurn.py:75-84 | exits at the first reading within the tolerance (0/0 if precisely, else 1/25); the commands are `-leftDriven*out`, `rightDriven*out` on the controller's responses to the heading errors |
| PheasantGyroTurn.CommandsWithinOutputLimit | pheasant/ev3pid/GyroTurn.py:81-84 | with an output limit M >= 0, no wheel is commanded faster than M |
| PheasantGyroTurn.TurnDefaults.constructor | pheasant/ev3pid/GyroTurn.py:18-30 | all ten SINGLE and DOUBLE defaults start `None` |
| PheasantGyroTurn.TurnDefaults.SetDefaultTuning | pheasant/ev3pid/GyroTurn.py:92-107 | sets the three SINGLE and three DOUBLE gains and keeps both limits |
| PheasantGyroTurn.TurnDefaults.SetDefaultIntegralLimit | pheasant/ev3pid/GyroTurn.py:109-112 | sets both integral limits only |
| PheasantGyroTurn.TurnDefaults.SetDefaultOutputLimit | pheasant/ev3pid/GyroTurn.py:114-117 | sets both output limits only |
| PheasantGyroTurn.TurnDefaults.Selected | pheasant/ev3pid/GyroTurn.py:46-57 | the DOUBLE tuple exactly when both wheels are driven, else SINGLE |
| PheasantGyroTurn.GyroTurn.constructor | pheasant/ev3pid/GyroTurn.py:32-71 | each tuning value is the argument, else SINGLE/DOUBLE, else the controller's generic default; devices resolve through the mixins; nothing runs |
| PheasantGyroTurn.GyroTurn.Run | pheasant/ev3pid/GyroTurn.py:73-87 | issues the commands of `Turn`, then holds both motors when the exit test held |
| PheasantGyroTurn.GyroTurn.RawControllerOutput | pheasant/ev3pid/GyroTurn.py:89-90 | one controller update on `heading - angle`, as a tick of `run` performs it |
| Ev3pidGyroTurn.ExactIsPrecise | ev3pid/GyroTurn.py:83 | the exact exit test is the competition version's `precisely` test, and it implies the relaxed one |
| Ev3pidGyroTurn.TurnAdvance | ev3pid/GyroTurn.py:83-88 | one iteration of the loop |
| Ev3pidGyroTurn.CommandsTurnOnTheSpot | ev3pid/GyroTurn.py:87-88 | undriven wheel 0; both driven gives left = -right |
| Ev3pidGyroTurn.TurnFollowsController | ev3pid/GyroTurn.py:81-88 | exits exactly on target with both speeds 0; the commands are built from the controller's responses to the heading errors |
| Ev3pidGyroTurn.StoredTuning | ev3pid/GyroTurn.py:52-77 | each argument, else SINGLE/DOUBLE, else the controller default, with the base constructor's limit overwrite |
| Ev3pidGyroTurn.GyroTurn.constructor | ev3pid/GyroTurn.py:38-79 | resolves tuning and devices, then runs the turn at once: its commands are those of `Turn` from a zero state, with a hold when it exits |
| Ev3pidGyroTurn.GyroTurn.Run | ev3pid/GyroTurn.py:81-91 | issues the commands of `Turn`, then holds both motors when the exit test held |
| MovementGyroTurn.InitAsWrittenRaises | movement/GyroTurn.py:59-72 | building a GyroTurn as written always raises TypeError |
| MovementGyroTurn.OppositeConvention | movement/GyroTurn.py:82-83 | each command is the later versions' command reversed, and it still turns on the spot |
| MovementGyroTurn.TurnAdvance | movement/GyroTurn.py:78-83 | one iteration of the loop |
| MovementGyroTurn.TurnFollowsController | movement/GyroTurn.py:76-83 | exits exactly on target with both speeds 0; the commands are `leftDriven*out`, `-rightDriven*out` on the controller's responses |
| MovementGyroTurn.GyroTurn.constructor | movement/GyroTurn.py:33-74 | devices stored as passed; gains from the argument or SINGLE/DOUBLE; the turn runs at once |
| MovementGyroTurn.GyroTurn.Run | movement/GyroTurn.py:76-83 | issues the commands of `Turn` and no hold |
| Ev3pidGyroStraight.StraightAdvance | ev3pid/GyroStraight.py:42-47 | one iteration of the loop |
| Ev3pidGyroStraight.StraightFollowsController | ev3pid/GyroStraight.py:41-47 | one command per reading before the first stop; each is `speed - out`, `speed + out` on the controller's responses to `heading - angle`, so the wheels average `speed`; none if stopped at entry |
| Ev3pidGyroStraight.GyroStraight.constructor | ev3pid/GyroStraight.py:18-39 | devices through the mixins, the controller through the base constructor with its overwrite; nothing runs |
| Ev3pidGyroStraight.GyroStraight.RunUntil | ev3pid/GyroStraight.py:41-47 | issues the commands of `Straight`, with no hold |
| Ev3pidGyroStraight.RampSpeed | ev3pid/GyroStraight.py:31-47 | after `speed` is reassigned between two runs, the second run's commands are centred on the new speed and its controller continues from the first run's final state |
| MovementGyroStraight.InitAsWrittenRaises | movement/GyroStraight.py:46 | building a GyroStraight as written always raises TypeError |
| MovementGyroStraight.OppositeCorrection | movement/GyroStraight.py:55-56 | a command is the later version's command for the negated output, and still averages `speed` |
| MovementGyroStraight.StraightAdvance | movement/GyroStraight.py:51-56 | one iteration of the loop |
| MovementGyroStraight.StraightFollowsController | movement/GyroStraight.py:50-56 | one command per reading before the first stop: `speed + out`, `speed - out` on the controller's responses |
| MovementGyroStraight.GyroStraight.constructor | movement/GyroStraight.py:20-48 | everything stored as passed; the drive runs at once |
| MovementGyroStraight.GyroStraight.Run | movement/GyroStraight.py:50-56 | issues the commands of `Straight`, with no hold |
| Ev3pidLineTrack.Sign | ev3pid/LineTrack.py:50-51 | the multiplier is +1 or -1, and +1 exactly for the left edge |
| Ev3pidLineTrack.SteerIs | ev3pid/LineTrack.py:50-54 | a command adds the signed output to the left wheel and takes it off the right; the two sum to `2*speed` |
| Ev3pidLineTrack.TrackAdvance | ev3pid/LineTrack.py:48-54 | one iteration of the loop |
| Ev3pidLineTrack.TrackFollowsController | ev3pid/LineTrack.py:47-54 | one command per reading before the first stop, built from the responses to `reflection - threshold`, signed by the edge |
| Ev3pidLineTrack.EdgesMirror | ev3pid/LineTrack.py:50-54 | the right edge gives the same controller history with the wheels exchanged in every command |
| Ev3pidLineTrack.LineTrack.constructor | ev3pid/LineTrack.py:23-45 | the sensor and threshold resolve through the colour mixin and the motors through theirs; the controller's setpoint is the threshold argument; nothing runs |
| Ev3pidLineTrack.LineTrack.RunUntil | ev3pid/LineTrack.py:47-54 | issues the commands of `Track` on the resolved threshold, with no hold |
| Ev3pidLineTrack.LineTrack.RawControllerOutput | ev3pid/LineTrack.py:56-58 | one signed update, the same offset a tick applies; with no threshold the subtraction raises TypeError before any update |
| MovementLineTrack.TrackAdvance | movement/LineTrack.py:60-65 | one iteration of the loop |
| MovementLineTrack.TrackFollowsController | movement/LineTrack.py:56-65 | one command per reading before the first stop: `speed + out*m`, `speed - out*m` on the controller's responses |
| MovementLineTrack.EdgesMirror | movement/LineTrack.py:58-65 | the right edge exchanges the wheels in every command and keeps the controller history |
| MovementLineTrack.LineTrack.constructor | movement/LineTrack.py:24-54 | everything stored as passed; the controller uses the threshold as setpoint; the loop runs at once |
| MovementLineTrack.LineTrack.Run | movement/LineTrack.py:56-65 | issues the commands of `Track`, with no hold |
| PheasantLineSquare.Multiplier | pheasant/ev3pid/LineSquare.py:59 | +1 or -1, and +1 exactly for AHEAD |
| PheasantLineSquare.InBand | pheasant/ev3pid/LineSquare.py:61-64 | `x in range(t - tol, t + tol + 1)` holds exactly when \|x - t\| <= tol |
| PheasantLineSquare.SquareAdvance | pheasant/ev3pid/LineSquare.py:61-69 | one iteration of the loop, updating each side's controller on its own error |
| PheasantLineSquare.CommandDrives | pheasant/ev3pid/LineSquare.py:67-69 | each wheel is driven at its own controller's output times the multiplier |
| PheasantLineSquare.TickSplits | pheasant/ev3pid/LineSquare.py:61-69 | one pass of the loop body updates each side's controller on that side's error alone |
| PheasantLineSquare.SquareExit | pheasant/ev3pid/LineSquare.py:61-66 | exits at the first reading with both reflections within 1 of their thresholds, after one command per earlier reading, each of which had a reflection outside that band |
| PheasantLineSquare.SquareFollowsControllers | pheasant/ev3pid/LineSquare.py:23-69 | each wheel gets its own controller's responses to its own side's errors times the multiplier; each controller ends where its own errors lead |
| PheasantLineSquare.BehindNegates | pheasant/ev3pid/LineSquare.py:59-69 | BEHIND reverses every command and changes nothing else |
| PheasantLineSquare.LineSquare.constructor | pheasant/ev3pid/LineSquare.py:25-55 | two distinct controllers with the same tuning (argument, else `LineSquare` default, else controller default); the setpoints are the raw threshold arguments; nothing runs |
| PheasantLineSquare.LineSquare.RunOnce | pheasant/ev3pid/LineSquare.py:66-69 | one pass of the loop body: each controller steps on its own side's error and the command is both outputs times the multiplier |
| PheasantLineSquare.LineSquare.Run | pheasant/ev3pid/LineSquare.py:57-72 | issues the commands of `Square`, then holds both motors when the band test held |
| Ev3pidLineSquare.ApproachLeavesControllers | ev3pid/LineSquare.py:25-72 | the approach issues `250*m` to both wheels once per reading until both sensors see BLACK, and leaves both controllers untouched |
| Ev3pidLineSquare.AlignAdvance | ev3pid/LineSquare.py:77-80 | one iteration of the second loop |
| Ev3pidLineSquare.AlignTickSplits | ev3pid/LineSquare.py:77-80 | one pass of the alignment body updates each side's controller on that side's error alone |
| Ev3pidLineSquare.AlignExit | ev3pid/LineSquare.py:77-80 | the alignment exits at the first reading with both reflections within 2 of their thresholds, after one command per earlier reading, each of which had a reflection outside that band |
| Ev3pidLineSquare.AlignFollowsControllers | ev3pid/LineSquare.py:28-80 | during the alignment each wheel gets its own controller's responses times the multiplier; each controller ends where its own errors lead |
| Ev3pidLineSquare.BehindNegates | ev3pid/LineSquare.py:67-80 | BEHIND reverses every command of both phases and changes nothing else |
| Ev3pidLineSquare.LineSquare.constructor | ev3pid/LineSquare.py:30-63 | two controllers with the same tuning (argument, else `LineSquare` default, then the base constructor with its overwrite); the thresholds are the setpoints; nothing runs |
| Ev3pidLineSquare.LineSquare.RunUntil | ev3pid/LineSquare.py:65-83 | issues the approach, a hold, then the alignment on the later readings and a second hold, as `SquareUp` says |
| Ev3pidLineSquare.LineSquare.DriveToLine | ev3pid/LineSquare.py:70-72 | issues the commands of `Approach` and reports how many readings it took |
| Ev3pidLineSquare.LineSquare.AlignOnLine | ev3pid/LineSquare.py:77-80 | issues the commands of `Align` |
| MovementLineSquare.BehindAsWrittenDrivesAhead | movement/LineSquare.py:18-67 | as written, BEHIND and AHEAD both give the multiplier 1, so BEHIND never reverses |
| MovementLineSquare.ReadDefault | movement/LineSquare.py:51-55 | the argument if given, else the registered default; AttributeError when no class assigned it |
| MovementLineSquare.InitAsWrittenAlwaysRaises | movement/LineSquare.py:50-61 | the constructor as written always raises: TypeError exactly when every value was readable, otherwise AttributeError |
| MovementLineSquare.InitIntended | movement/LineSquare.py:50-61 | succeeds exactly when each gain is given or registered, keeps the given gains, and passes no limits |
| MovementLineSquare.SquareAdvance | movement/LineSquare.py:69-72 | one iteration of the loop |
| MovementLineSquare.TickSplits | movement/LineSquare.py:69-72 | one pass of the loop body updates each side's controller on that side's error alone |
| MovementLineSquare.SquareExit | movement/LineSquare.py:65-72 | exits only where both reflections equal their thresholds and both speeds are 0, after one command per earlier reading |
| MovementLineSquare.SquareFollowsControllers | movement/LineSquare.py:65-72 | each wheel gets its own controller's responses times the multiplier; each controller ends where its own errors lead |
| MovementLineSquare.BehindReverses | movement/LineSquare.py:67-72 | with the positions told apart, BEHIND reverses every command and nothing else |
| MovementLineSquare.LineSquare.constructor | movement/LineSquare.py:24-63 | stores the fields as passed and builds two controllers with `InitIntended`'s gains; the loop runs at once |
| MovementLineSquare.LineSquare.RunOnce | movement/LineSquare.py:71-72 | one pass of the loop body: each controller steps on its own side's error and the command is both outputs times the multiplier |
| MovementLineSquare.LineSquare.Run | movement/LineSquare.py:65-72 | issues the commands of `Square`, with no hold |
| SideScan.SideScanColor | pheasant_utils/SideScan.py:13-22 | YELLOW, BLUE or GREEN exactly when that channel leads both others by at least 3, whatever the branch order; `None` exactly when no channel does |
| SideScan.AtMostOneDominant | pheasant_utils/SideScan.py:17-22 | no two channels can both lead by 3, so the three tests never compete |
| SideScan.ColorIgnoresCommonOffset | pheasant_utils/SideScan.py:17-22 | adding the same amount to all three channels never changes the colour |
| SideScan.SideScanPresence | pheasant_utils/SideScan.py:24-26 | present exactly when r + g + b >= 16 |
| SideScan.PresenceMonotone | pheasant_utils/SideScan.py:26 | a reading brighter on every channel never loses presence |
| SideScan.ColorWithoutPresence | pheasant_utils/SideScan.py:13-26 | colour and presence are independent: (3, 0, 0) is yellow but absent, and (10, 10, 10) is present but colourless |

## Left out

- Hardware I/O is left out. `Motor.run/hold/speed`, `GyroSensor.angle`, `ColorSensor.reflection/color/read` and `stopCondition()` become readings and a command trace. Each loop reads one snapshot per evaluation of its exit test, so a sensor read twice within one iteration is taken to give the same value both times.
- `wait(LINE_WAIT_TIME)` is left out. There is no clock; the constant is recorded as `LineWaitTime` in both LineSquare versions.
- Termination is left out. The loops poll until a physical condition holds. The model runs them over a finite reading sequence and reports whether the exit test was reached before the readings ran out.
- Floating point is left out. Gains, limits and outputs are exact `real`s, and IEEE rounding is not modelled.
- Python's multiple inheritance and method resolution order are left out. Each primitive owns its controller(s) and reads class attributes along a fixed lineage list.
- Only the attributes and setters the code reads are modelled. Assignments through a subclass that Python would make are modelled per class name.
- `hash("...")` enum workarounds become datatypes (`LineEdge`, `LinePosition`). In the movement LineSquare the values as written are kept as integers for the Finding.
- Calls on `None` devices are left out. A motor or sensor left `None` would raise AttributeError on first use. The loops take their devices as given, and the readings stand for whatever the devices return.
- PheasantGyroTurn.GyroTurn.Run, Ev3pidGyroTurn.GyroTurn.Run, Ev3pidGyroStraight.GyroStraight.RunUntil and the other loop methods require a configured controller (no `None` gain). The constructors that run the loop at once require the same: Ev3pidGyroTurn.GyroTurn.constructor, MovementGyroTurn.GyroTurn.constructor, MovementGyroStraight.GyroStraight.constructor, MovementLineTrack.LineTrack.constructor and MovementLineSquare.LineSquare.constructor. The TypeError path of a `None` gain is modelled once, in each controller's `Update`, and not again inside the loops. In Python a `None` gain raises only once the first exit test has failed, so a loop whose exit test holds at entry returns normally even with `None` gains; the model does not cover that case.
- ColorInputBase.CheckKnownThresholds assumes that sensor handles are hashable and that two handles are the same key exactly when they name the same port (`ColorSensor(port)` is a value). The comments at ev3pid/utils/ColorInput.py:11-24 say that pybricks `ColorSensor` objects were not made hashable and that a list stands in for that dictionary. On the device, `KNOWN_THRESHOLDS[sensor]` in ev3pid/base/ColorInput.py may therefore raise TypeError, or match keys by identity rather than by port; neither outcome is modelled.
- Ev3pidLineTrack.LineTrack.RunUntil and PheasantLineSquare.LineSquare.Run require resolved thresholds. With a `None` threshold, Python raises TypeError at the first subtraction; that path is modelled only in `RawControllerOutput`.
- MovementLineSquare.LineSquare.constructor, MovementGyroTurn.GyroTurn.constructor and MovementGyroStraight.GyroStraight.constructor use the corrected controller construction (see Findings). The as-written constructor always raises, so it is modelled only as a function.
- The mission scripts, claws, drive wrappers, testware, mission bookkeeping, `pidmove.py`, `movement/EncoderStraight.py` and package `__init__` files are outside the motion layer and are not modelled.

## Findings

| source | as written | input that shows it | evidently intended | confidence | as-written member | corrected member |
|---|---|---|---|---|---|---|
| movement/GyroTurn.py:59-72 | passes six positional arguments to the four-parameter `PIDLoop.__init__(setpoint, kp, ki, kd)` | any `GyroTurn(...)` call | pass the setpoint and the three resolved gains | high (not executed) | MovementGyroTurn.InitAsWrittenRaises | MovementPidLoop.InitWithGains |
| movement/GyroStraight.py:46 | `super().__init__(angle, kp, ki, kd, integralLimit, outputLimit)` on the four-parameter `PIDLoop.__init__` | any `GyroStraight(...)` call | pass the setpoint and the three gains | high (not executed) | MovementGyroStraight.InitAsWrittenRaises | MovementPidLoop.InitWithGains |
| movement/LineSquare.py:50-61 | builds each `PIDLoop` with six arguments, reading `LineSquare.INTEGRAL_LIMIT_DEFAULT`, which no class defines | any `LineSquare(...)` call: AttributeError when a limit is omitted, TypeError otherwise | build each controller from the threshold and the three gains | high (not executed) | MovementLineSquare.InitAsWrittenAlwaysRaises | MovementLineSquare.InitIntended |
| movement/LineSquare.py:19-20 | `AHEAD = 0` and `BEHIND = 0` | `linePosition = LinePosition.BEHIND` gives the multiplier 1 | BEHIND distinct, giving the multiplier -1 | high (not executed) | MovementLineSquare.BehindAsWrittenDrivesAhead | MovementLineSquare.BehindReverses |
