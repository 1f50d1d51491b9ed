/**
 * The medicine box controller: the door angle and the selected sensor as
 * mutable fields, the stepping loop that moves the door, and the dispatcher
 * run once per polled command character.
 *
 * The servo and the serial outputs are not modelled as devices: the angles
 * written to the servo are kept in the ghost trace `servoLog`, and the lines
 * sent to the outputs are kept in `output`.
 */
module MedicineBox {
  import opened DoorMotion
  import opened Commands

  class Controller {
    var currentAngle: int
    var currentSensor: int
    ghost var servoLog: seq<int>
    var output: seq<Event>

    /** The controller state as a value of the dispatcher's specification. */
    function Snapshot(): State
      reads this
    {
      State(currentAngle, currentSensor)
    }

    /** The door is open or closed, a sensor is selected, and the servo was last told the door angle. */
    ghost predicate Valid()
      reads this
    {
      Inv(Snapshot()) && servoLog != [] && servoLog[|servoLog| - 1] == currentAngle
    }

    /**
     * Power-on: the initial values of the two globals, then `setup` with its
     * start-up line for the wireless link, the closing write to the servo and
     * its start-up line for the sensors.
     */
    constructor ()
      ensures Snapshot() == Initial
      ensures servoLog == [CloseAngle] && output == [LinkReady, SensorsReady]
      ensures Valid()
    {
      currentAngle := InitialAngle;
      currentSensor := InitialSensor;
      output := [LinkReady];
      servoLog := [CloseAngle];
      output := output + [SensorsReady];
    }

    /**
     * Moves the door from `currentAngle` to `targetAngle` half a degree at a
     * time, writing each truncated position, then snaps to the target.
     * Positions are held in half units, so `pos` is twice the position.
     */
    method MoveServoSmooth(targetAngle: int) returns (ghost iterations: nat)
      modifies this`currentAngle, this`servoLog
      ensures currentAngle == targetAngle
      ensures servoLog == old(servoLog) + Writes(old(currentAngle), targetAngle)
      ensures servoLog[|servoLog| - 1] == targetAngle
      ensures iterations == Iterations(old(currentAngle), targetAngle)
      ensures old(currentAngle) != targetAngle ==>
        iterations == 2 * Abs(targetAngle - old(currentAngle)) - 1
      ensures old(currentAngle) == targetAngle ==>
        iterations == 0 && servoLog == old(servoLog) + [targetAngle]
    {
      ghost var start := currentAngle;
      var pos := 2 * currentAngle;
      var step := 1;
      if targetAngle < currentAngle {
        step := -1;
      }
      iterations := 0;
      while Abs(pos - 2 * targetAngle) > 1
        invariant step == Direction(start, targetAngle)
        invariant iterations <= Iterations(start, targetAngle)
        invariant pos == HalfPosition(start, targetAngle, iterations)
        invariant servoLog == old(servoLog) + Path(start, targetAngle)[..iterations]
        decreases Abs(pos - 2 * targetAngle)
      {
        pos := pos + step;
        iterations := iterations + 1;
        servoLog := servoLog + [TruncateHalf(pos)];
      }
      assert Path(start, targetAngle)[..iterations] == Path(start, targetAngle);
      servoLog := servoLog + [targetAngle];
      currentAngle := targetAngle;
    }

    /** Reads sensor `sensorNum` (the oracle's `reading`) and emits its report line. */
    method ReadAndSendDHTData(sensorNum: int, reading: Reading)
      modifies this`output
      ensures output == old(output) + [Report(sensorNum, reading)]
      ensures ReadFailed(reading) ==> output[|output| - 1] == SensorFailed(sensorNum)
      ensures !ReadFailed(reading) ==>
        output[|output| - 1] == SensorData(sensorNum, reading.temperature.value, reading.humidity.value)
    {
      if reading.humidity.NaN? || reading.temperature.NaN? {
        output := output + [SensorFailed(sensorNum)];
        return;
      }
      output := output + [SensorData(sensorNum, reading.temperature.value, reading.humidity.value)];
    }

    /** Handles one command character received over the wireless link. */
    method Dispatch(command: char, reading: Reading)
      modifies this
      ensures Snapshot() == Step(old(Snapshot()), command, reading).next
      ensures servoLog == old(servoLog) + Step(old(Snapshot()), command, reading).writes
      ensures output == old(output) + Step(old(Snapshot()), command, reading).events
      ensures old(Valid()) ==> Valid()
    {
      match command
      case 'O' =>
        var _ := MoveServoSmooth(OpenAngle);
        output := output + [DoorOpened];
      case 'C' =>
        var _ := MoveServoSmooth(CloseAngle);
        output := output + [DoorClosed];
      case '1' =>
        currentSensor := 1;
        ReadAndSendDHTData(1, reading);
      case '2' =>
        currentSensor := 2;
        ReadAndSendDHTData(2, reading);
      case '3' =>
        currentSensor := 3;
        ReadAndSendDHTData(3, reading);
      case 'R' =>
        match currentSensor {
          case 1 => ReadAndSendDHTData(1, reading);
          case 2 => ReadAndSendDHTData(2, reading);
          case 3 => ReadAndSendDHTData(3, reading);
          case _ =>
        }
      case _ =>
    }

    /** The polling loop, run over the commands that arrive, in order. */
    method Run(polls: seq<Poll>)
      modifies this
      ensures Snapshot() == Exec(old(Snapshot()), polls).next
      ensures servoLog == old(servoLog) + Exec(old(Snapshot()), polls).writes
      ensures output == old(output) + Exec(old(Snapshot()), polls).events
      ensures old(Valid()) ==> Valid()
    {
      var i := 0;
      while i < |polls|
        invariant i <= |polls|
        invariant Snapshot() == Exec(old(Snapshot()), polls[..i]).next
        invariant servoLog == old(servoLog) + Exec(old(Snapshot()), polls[..i]).writes
        invariant output == old(output) + Exec(old(Snapshot()), polls[..i]).events
        invariant old(Valid()) ==> Valid()
      {
        assert polls[..i + 1][..i] == polls[..i];
        Dispatch(polls[i].command, polls[i].reading);
        i := i + 1;
      }
      assert polls[..i] == polls;
    }
  }

  /** Power-on followed by any commands leaves the door open or closed and a valid sensor selected. */
  method RunFromPowerOn(polls: seq<Poll>) returns (angle: int, sensor: int)
    ensures angle == OpenAngle || angle == CloseAngle
    ensures sensor == 1 || sensor == 2 || sensor == 3
    ensures angle == LastDoorTarget(InitialAngle, polls)
    ensures sensor == LastSelection(InitialSensor, polls)
  {
    var box := new Controller();
    box.Run(polls);
    assert box.Valid();
    AngleIsLastDoorTarget(Initial, polls);
    SensorIsLastSelection(Initial, polls);
    angle, sensor := box.currentAngle, box.currentSensor;
  }
}
