# Medicine box door controller, modelled in Dafny

The firmware of the medicine box drives a servo-actuated lid and reports
temperature and humidity from three sensors, under single-character commands
received over a wireless serial link. Its controller state is two integers:
the current door angle (0 at power-on) and the selected sensor (1 at
power-on). This project models that controller:

- `door_motion.dfy`, module `DoorMotion`: the smooth door motion as a pure
  specification. The servo steps half a degree at a time from the current
  angle toward the target while more than half a degree remains, writing the
  truncated position at every step, and then snaps to the target. Every
  position the loop reaches is a whole number of half degrees, so positions
  are exact integers counting half degrees; the C cast `(int)` is truncation
  toward zero (`TruncateHalf`). `Writes(from, to)` is the list of angles the
  servo receives. Lemmas give its length, its last element, its bounds and its
  monotonicity.
- `commands.dfy`, module `Commands`: the dispatcher as a pure specification.
  `Step` is the effect of one command character on the state, on the servo and
  on the output lines. `Exec` is the effect of a sequence of polled commands.
  `LastDoorTarget` and `LastSelection` are independent accounts of "the door
  angle is the last commanded angle" and "the selected sensor is the last one
  selected". Sensor hardware is an oracle: each polled command carries the
  reading its sensor would return. A reading is two samples, each a number or
  not-a-number, and only whether either failed decides between the failure
  line and the data line.
- `controller.dfy`, module `MedicineBox`: the class `Controller` with the two
  mutable fields, the stepping `while` loop (`MoveServoSmooth`), the report
  (`ReadAndSendDHTData`), the command switch (`Dispatch`) and the polling loop
  run over a sequence of commands (`Run`). Each method is proved against the
  specification functions above. The angles written to the servo form the
  ghost trace `servoLog`; the lines sent to the two outputs form `output`.

Where the comments of `main.cpp` and its code disagree (line 61 speaks of a
2 degree step and line 70 of a 10 ms delay), the model follows the code: a
step of 0.5 degree.

The loop guard uses Arduino's `abs` on a float difference. All differences
the loop meets are whole multiples of 0.5, so the guard is the same whether
`abs` keeps the fraction or truncates it first. In half units it reads
`|2 * pos - 2 * target| > 1`.

## Model

| member | source | states |
|---|---|---|
| `DoorMotion.WritesEndAtTarget` | Medicine_box/src/main.cpp:73-74 | one motion writes one angle per loop iteration plus the snap, and the last angle written is the target |
| `DoorMotion.NoStepsAtTarget` | Medicine_box/src/main.cpp:63-73 | when the door is already at the target the loop runs zero times and only the target is written |
| `DoorMotion.StepCount` | Medicine_box/src/main.cpp:60-71 | between different angles the loop runs 2·\|to − from\| − 1 times and stops half a degree short of the target |
| `DoorMotion.PositionsStrictlyBetween` | Medicine_box/src/main.cpp:60-71 | every loop position lies strictly between start and target, and each step is exactly half a degree closer to the target |
| `DoorMotion.TruncateHalfMonotone` | Medicine_box/src/main.cpp:69 | the `(int)` cast of a position preserves the order of positions |
| `DoorMotion.TruncateHalfBetween` | Medicine_box/src/main.cpp:69 | a position between two whole angles is cast to an angle between them |
| `DoorMotion.WritesWithinRange` | Medicine_box/src/main.cpp:61-73 | every angle written during a motion lies between start and target |
| `DoorMotion.WritesMonotone` | Medicine_box/src/main.cpp:61-73 | the written angles never decrease while opening toward a larger angle and never increase while closing toward a smaller one |
| `DoorMotion.FullTraverseLength` | Medicine_box/src/main.cpp:12-13 | a full traverse between the closed and the open angle writes 180 angles (179 steps and the snap) |
| `Commands.ReportOutcome` | Medicine_box/src/main.cpp:78-90 | a report names its sensor, is the failure line exactly when humidity or temperature is not-a-number, and otherwise is the data line carrying both values |
| `Commands.DoorCommands` | Medicine_box/src/main.cpp:97-107 | 'O' leaves the angle at 90 and 'C' at 0, neither changes the selected sensor, the servo ends on that angle, and the matching door line is emitted |
| `Commands.RepeatedDoorCommandHasNoSteps` | Medicine_box/src/main.cpp:97-107 | re-issuing 'O' with the door open, or 'C' with it closed, writes only the snap |
| `Commands.SelectCommand` | Medicine_box/src/main.cpp:109-122 | '1', '2' or '3' selects that sensor, leaves the door and servo alone and emits exactly that sensor's report |
| `Commands.ReadCommand` | Medicine_box/src/main.cpp:124-130 | 'R' changes nothing and emits exactly the report of the selected sensor |
| `Commands.SelectThenReadAgrees` | Medicine_box/src/main.cpp:109-130 | selecting a sensor and then sending 'R' reports what selecting it directly reports |
| `Commands.UnknownCommandIsNoOp` | Medicine_box/src/main.cpp:96-131 | any other character changes neither field, writes nothing to the servo and emits nothing |
| `Commands.StepPreservesInv` | Medicine_box/src/main.cpp:96-131 | one command keeps the angle in {0, 90} and the sensor in {1, 2, 3} |
| `Commands.ExecPreservesInv` | Medicine_box/src/main.cpp:92-133 | any sequence of commands keeps the angle in {0, 90} and the sensor in {1, 2, 3} |
| `Commands.ReachableStatesValid` | Medicine_box/src/main.cpp:14-32 | from the power-on values (angle 0, sensor 1) every reachable state has the angle in {0, 90} and the sensor in {1, 2, 3} |
| `Commands.AngleIsLastDoorTarget` | Medicine_box/src/main.cpp:97-107 | after any commands the angle is the target of the last 'O' or 'C', or the starting angle if there was none |
| `Commands.SensorIsLastSelection` | Medicine_box/src/main.cpp:109-122 | after any commands the selected sensor is the last one selected by '1', '2' or '3', or the starting one if none was |
| `Commands.AngleIsLastWrite` | Medicine_box/src/main.cpp:73-74 | after any commands that moved the door, the angle is the last angle written to the servo |
| `Commands.ReportsValidSensors` | Medicine_box/src/main.cpp:109-129 | from any start state every report emitted names sensor 1, 2 or 3 (an 'R' with no valid selection reports nothing) |
| `Commands.OpenSelectClose` | Medicine_box/src/main.cpp:97-122 | from power-on, 'O' then '2' then 'C' ends closed with sensor 2 selected, the servo having made both traverses, with the open line, sensor 2's report and the close line emitted |
| `MedicineBox.Controller.constructor` | Medicine_box/src/main.cpp:14-55 | power-on gives angle 0 and sensor 1, with the closed angle written to the servo and the two start-up lines of `setup` (link ready, sensors ready) emitted, and establishes the controller invariant |
| `MedicineBox.Controller.MoveServoSmooth` | Medicine_box/src/main.cpp:59-75 | the loop terminates after the stated number of iterations, the servo receives exactly `Writes(start, target)` ending with the target, and the angle becomes the target |
| `MedicineBox.Controller.ReadAndSendDHTData` | Medicine_box/src/main.cpp:78-90 | exactly one line is emitted: the failure line if either value is not-a-number, otherwise the data line |
| `MedicineBox.Controller.Dispatch` | Medicine_box/src/main.cpp:96-131 | the new fields, servo writes and output lines are those of `Step`, and the controller invariant is kept |
| `MedicineBox.Controller.Run` | Medicine_box/src/main.cpp:92-133 | processing commands in order gives the state, servo writes and output lines of `Exec`, and keeps the controller invariant |
| `MedicineBox.RunFromPowerOn` | Medicine_box/src/main.cpp:92-133 | after power-on and any commands the angle is 0 or 90 and is the last commanded angle, and the sensor is 1, 2 or 3 and is the last selected one; the ranges follow from the invariant the constructor sets up and `Run` keeps |

## Left out

- Wireless and serial I/O (starting the link, polling for bytes, printing): a command is a character handed to `Dispatch`, and a printed line is an `Event` appended to `output`. Each command's line goes to both outputs in the firmware; the model records it once. The two start-up lines of `setup` go to the debug console only and are recorded as `LinkReady` and `SensorsReady`, without their text.
- Polls that find no byte available: they change nothing, so `Run` takes only the commands that arrive.
- Servo, PWM and sensor driver calls: the servo is the ghost trace of written angles, and sensor reads are an oracle value carried with each command.
- The delays of 20 ms per step and 500 ms at start-up: real time is not modelled.
- The formatting of temperature and humidity to one decimal and the NaN semantics of floats: a sample is either not-a-number or a number, and a data line carries the number unformatted.
- `MedicineBox.Controller.MoveServoSmooth`: positions are unbounded integers in half-degree units; a float holds them exactly only while their magnitude is below 2^23 (a 24-bit significand), which every angle the dispatcher uses (0 and 90) satisfies.
- The compile-time check that Bluetooth is enabled.
- Commands arriving while a motion or a read is in progress: the model is sequential, as the firmware is, and what the link does with bytes that overflow its buffer is outside the program.
