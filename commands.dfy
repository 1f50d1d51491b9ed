/**
 * The command dispatcher of the medicine box, as a pure specification: the
 * two pieces of controller state, the effect of one command character, and
 * the effect of a whole sequence of polled commands.
 *
 * Sensor hardware is an oracle: each polled command carries the reading the
 * addressed sensor would return, and only whether that reading failed
 * (either value not-a-number) decides which report line is emitted.
 */
module Commands {
  import opened DoorMotion

  const OpenAngle: int := 90
  const CloseAngle: int := 0
  const InitialAngle: int := 0
  const InitialSensor: int := 1

  /** One value returned by a sensor driver: not-a-number on a failed read. */
  datatype Sample = NaN | Number(value: real)

  /** A humidity and a temperature read from one sensor. */
  datatype Reading = Reading(humidity: Sample, temperature: Sample)

  predicate ReadFailed(r: Reading) {
    r.humidity.NaN? || r.temperature.NaN?
  }

  /**
   * The lines the controller prints. The two start-up lines go to the debug
   * console only; every other line goes to the debug and wireless outputs.
   */
  datatype Event =
    | LinkReady
    | SensorsReady
    | DoorOpened
    | DoorClosed
    | SensorFailed(sensor: int)
    | SensorData(sensor: int, temperature: real, humidity: real)

  predicate IsReport(e: Event) {
    e.SensorFailed? || e.SensorData?
  }

  /** The line reported for sensor `sensor` after reading `r`. */
  function Report(sensor: int, r: Reading): Event {
    if ReadFailed(r) then SensorFailed(sensor)
    else SensorData(sensor, r.temperature.value, r.humidity.value)
  }

  /** The controller state: current door angle and selected sensor. */
  datatype State = State(angle: int, sensor: int)

  const Initial: State := State(InitialAngle, InitialSensor)

  /** The door is open or closed, and one of the three sensors is selected. */
  predicate Inv(s: State) {
    (s.angle == OpenAngle || s.angle == CloseAngle) && 1 <= s.sensor <= 3
  }

  /** The state after some commands, the angles written to the servo and the lines emitted. */
  datatype Outcome = Outcome(next: State, writes: seq<int>, events: seq<Event>)

  /** One polled command together with the reading its sensor would return. */
  datatype Poll = Poll(command: char, reading: Reading)

  /** The effect of one command character. */
  function Step(s: State, cmd: char, r: Reading): Outcome {
    match cmd
    case 'O' => Outcome(State(OpenAngle, s.sensor), Writes(s.angle, OpenAngle), [DoorOpened])
    case 'C' => Outcome(State(CloseAngle, s.sensor), Writes(s.angle, CloseAngle), [DoorClosed])
    case '1' => Outcome(State(s.angle, 1), [], [Report(1, r)])
    case '2' => Outcome(State(s.angle, 2), [], [Report(2, r)])
    case '3' => Outcome(State(s.angle, 3), [], [Report(3, r)])
    case 'R' => Outcome(s, [], if 1 <= s.sensor <= 3 then [Report(s.sensor, r)] else [])
    case _ => Outcome(s, [], [])
  }

  /** The effect of polling the commands of `polls` in order, starting in `s`. */
  function Exec(s: State, polls: seq<Poll>): Outcome
    decreases |polls|
  {
    if polls == [] then Outcome(s, [], [])
    else
      var before := Exec(s, polls[..|polls| - 1]);
      var last := polls[|polls| - 1];
      var step := Step(before.next, last.command, last.reading);
      Outcome(step.next, before.writes + step.writes, before.events + step.events)
  }

  /** An independent account of the door angle: the target of the last 'O' or 'C', else `angle`. */
  function LastDoorTarget(angle: int, polls: seq<Poll>): int
    decreases |polls|
  {
    if polls == [] then angle
    else
      var c := polls[|polls| - 1].command;
      if c == 'O' then OpenAngle
      else if c == 'C' then CloseAngle
      else LastDoorTarget(angle, polls[..|polls| - 1])
  }

  /** An independent account of the selection: the digit of the last '1', '2' or '3', else `sensor`. */
  function LastSelection(sensor: int, polls: seq<Poll>): int
    decreases |polls|
  {
    if polls == [] then sensor
    else
      var c := polls[|polls| - 1].command;
      if c == '1' then 1
      else if c == '2' then 2
      else if c == '3' then 3
      else LastSelection(sensor, polls[..|polls| - 1])
  }

  /** A report names its sensor and is the failure line exactly when either value failed. */
  lemma ReportOutcome(sensor: int, r: Reading)
    ensures IsReport(Report(sensor, r)) && Report(sensor, r).sensor == sensor
    ensures Report(sensor, r).SensorFailed? <==> ReadFailed(r)
    ensures !ReadFailed(r) ==>
      Report(sensor, r) == SensorData(sensor, r.temperature.value, r.humidity.value)
  {
  }

  /** 'O' and 'C' drive the door to their angle, leave the selection alone and end on that angle. */
  lemma DoorCommands(s: State, r: Reading)
    ensures var o := Step(s, 'O', r);
      o.next == State(OpenAngle, s.sensor) && o.writes == Writes(s.angle, OpenAngle)
      && o.writes[|o.writes| - 1] == OpenAngle && o.events == [DoorOpened]
    ensures var c := Step(s, 'C', r);
      c.next == State(CloseAngle, s.sensor) && c.writes == Writes(s.angle, CloseAngle)
      && c.writes[|c.writes| - 1] == CloseAngle && c.events == [DoorClosed]
  {
    WritesEndAtTarget(s.angle, OpenAngle);
    WritesEndAtTarget(s.angle, CloseAngle);
  }

  /** Re-issuing the command for the angle the door already has performs no steps. */
  lemma RepeatedDoorCommandHasNoSteps(s: State, r: Reading)
    ensures s.angle == OpenAngle ==> Step(s, 'O', r).writes == [OpenAngle]
    ensures s.angle == CloseAngle ==> Step(s, 'C', r).writes == [CloseAngle]
  {
    NoStepsAtTarget(s.angle);
  }

  /** Digit n in '1'..'3' selects sensor n, reports it, and leaves the door alone. */
  lemma SelectCommand(s: State, n: int, r: Reading)
    requires 1 <= n <= 3
    ensures var o := Step(s, ('0' as int + n) as char, r);
      o == Outcome(State(s.angle, n), [], [Report(n, r)])
  {
  }

  /** 'R' reports the selected sensor and changes nothing. */
  lemma ReadCommand(s: State, r: Reading)
    requires Inv(s)
    ensures Step(s, 'R', r) == Outcome(s, [], [Report(s.sensor, r)])
  {
  }

  /** Selecting a sensor and then sending 'R' reports what selecting it directly reports. */
  lemma SelectThenReadAgrees(s: State, cmd: char, r1: Reading, r2: Reading)
    requires cmd == '1' || cmd == '2' || cmd == '3'
    ensures Step(Step(s, cmd, r1).next, 'R', r2).events == Step(s, cmd, r2).events
  {
  }

  /** A character outside the vocabulary changes nothing and emits nothing. */
  lemma UnknownCommandIsNoOp(s: State, cmd: char, r: Reading)
    requires cmd !in {'O', 'C', '1', '2', '3', 'R'}
    ensures Step(s, cmd, r) == Outcome(s, [], [])
  {
  }

  /** One command keeps the door open or closed and one of the three sensors selected. */
  lemma StepPreservesInv(s: State, cmd: char, r: Reading)
    requires Inv(s)
    ensures Inv(Step(s, cmd, r).next)
  {
  }

  /** Any sequence of commands keeps the controller invariant. */
  lemma {:induction false} ExecPreservesInv(s: State, polls: seq<Poll>)
    requires Inv(s)
    ensures Inv(Exec(s, polls).next)
    decreases |polls|
  {
    if polls != [] {
      var prefix := polls[..|polls| - 1];
      ExecPreservesInv(s, prefix);
      var last := polls[|polls| - 1];
      StepPreservesInv(Exec(s, prefix).next, last.command, last.reading);
    }
  }

  /** Every state reached from power-on has the door at 0 or 90 and sensor 1, 2 or 3 selected. */
  lemma ReachableStatesValid(polls: seq<Poll>)
    ensures Exec(Initial, polls).next.angle in {OpenAngle, CloseAngle}
    ensures Exec(Initial, polls).next.sensor in {1, 2, 3}
  {
    ExecPreservesInv(Initial, polls);
  }

  /** The door angle is the target of the last door command, the start angle if there was none. */
  lemma {:induction false} AngleIsLastDoorTarget(s: State, polls: seq<Poll>)
    ensures Exec(s, polls).next.angle == LastDoorTarget(s.angle, polls)
    decreases |polls|
  {
    if polls != [] {
      AngleIsLastDoorTarget(s, polls[..|polls| - 1]);
    }
  }

  /** The selected sensor is the last one explicitly selected, the start selection if none was. */
  lemma {:induction false} SensorIsLastSelection(s: State, polls: seq<Poll>)
    ensures Exec(s, polls).next.sensor == LastSelection(s.sensor, polls)
    decreases |polls|
  {
    if polls != [] {
      SensorIsLastSelection(s, polls[..|polls| - 1]);
    }
  }

  /** Whenever the servo has been written, the door angle is the last angle written to it. */
  lemma {:induction false} AngleIsLastWrite(s: State, polls: seq<Poll>)
    ensures var o := Exec(s, polls);
      o.writes != [] ==> o.writes[|o.writes| - 1] == o.next.angle
    decreases |polls|
  {
    if polls != [] {
      var prefix := polls[..|polls| - 1];
      AngleIsLastWrite(s, prefix);
      DoorCommands(Exec(s, prefix).next, polls[|polls| - 1].reading);
    }
  }

  /** Every report among `es` names sensor 1, 2 or 3. */
  predicate ReportsNameValidSensors(es: seq<Event>) {
    forall i :: 0 <= i < |es| && IsReport(es[i]) ==> 1 <= es[i].sensor <= 3
  }

  /** Every report emitted, from any start state, names sensor 1, 2 or 3. */
  lemma {:induction false} ReportsValidSensors(s: State, polls: seq<Poll>)
    ensures ReportsNameValidSensors(Exec(s, polls).events)
    decreases |polls|
  {
    if polls != [] {
      var prefix := polls[..|polls| - 1];
      ReportsValidSensors(s, prefix);
      var before := Exec(s, prefix);
      var last := polls[|polls| - 1];
      var step := Step(before.next, last.command, last.reading);
      assert ReportsNameValidSensors(step.events);
      assert Exec(s, polls).events == before.events + step.events;
    }
  }

  /** Opening, selecting sensor 2 and closing, from power-on. */
  lemma OpenSelectClose(r1: Reading, r2: Reading, r3: Reading)
    ensures var o := Exec(Initial, [Poll('O', r1), Poll('2', r2), Poll('C', r3)]);
      o.next == State(CloseAngle, 2)
      && o.writes == Writes(InitialAngle, OpenAngle) + Writes(OpenAngle, CloseAngle)
      && o.events == [DoorOpened, Report(2, r2), DoorClosed]
  {
    var polls := [Poll('O', r1), Poll('2', r2), Poll('C', r3)];
    assert polls[..2][..1][..0] == [];
    assert Exec(Initial, polls[..2][..1]) == Step(Initial, 'O', r1);
    assert Exec(Initial, polls[..2]).next == State(OpenAngle, 2);
    assert Exec(Initial, polls[..2]).events == [DoorOpened, Report(2, r2)];
  }
}
