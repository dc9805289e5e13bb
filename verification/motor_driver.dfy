/** The H-bridge motor driver: two direction inputs select forward or
    backward, the PWM input carries the speed. Commands are the driver-call
    traces of `run`, `stop` and `brake`; their lemmas state what the traces
    leave on the pins. */
module MotorDriver {
  import opened Units
  import opened Pins
  import opened PinConfig

  /** The levels `run` writes to IN1 and IN2: forward is (1, 0), backward is
      (0, 1). */
  function In1Level(dir: Direction): Bit { if dir == Forward then 1 else 0 }
  function In2Level(dir: Direction): Bit { if dir == Forward then 0 else 1 }

  /** Every event of t writes a direction pin or the PWM pin of mp. */
  predicate TargetsMotor(t: seq<Event>, mp: MotorPins)
  {
    forall e <- t :: (e.DigitalWrite? && e.pin in {mp.in1, mp.in2}) || (e.AnalogWrite? && e.pin == mp.pwm)
  }

  /** `run`: write the direction pins, then the PWM duty for the clamped
      speed. Exactly one of the two direction writes is high, IN1 being the
      high one going forward, and the duty lies in [0, 1023]. */
  function Run(cfg: Config, motor: Motor, dir: Direction, speed: real): (t: seq<Event>)
    ensures TargetsMotor(t, MotorPinsOf(cfg, motor))
    ensures |t| == 3 && t[0].DigitalWrite? && t[1].DigitalWrite? && t[2].AnalogWrite?
    ensures t[0].pin == MotorPinsOf(cfg, motor).in1 && t[1].pin == MotorPinsOf(cfg, motor).in2
    ensures t[0].level + t[1].level == 1 && (t[0].level == 1 <==> dir == Forward)
    ensures 0.0 <= t[2].duty <= PwmFullScale
  {
    var mp := MotorPinsOf(cfg, motor);
    [DigitalWrite(mp.in1, In1Level(dir)), DigitalWrite(mp.in2, In2Level(dir)),
     AnalogWrite(mp.pwm, MotorDuty(speed))]
  }

  /** `stop`: both direction pins low, duty 0. */
  function Stop(cfg: Config, motor: Motor): (t: seq<Event>)
    ensures TargetsMotor(t, MotorPinsOf(cfg, motor))
    ensures forall e <- t :: (e.DigitalWrite? ==> e.level == 0) && (e.AnalogWrite? ==> e.duty == 0.0)
    ensures PinSet(MotorPinsOf(cfg, motor)) <= set e | e in t :: e.pin
  {
    var mp := MotorPinsOf(cfg, motor);
    [DigitalWrite(mp.in1, 0), DigitalWrite(mp.in2, 0), AnalogWrite(mp.pwm, 0.0)]
  }

  /** `brake`: both direction pins high (short brake), duty 0. */
  function Brake(cfg: Config, motor: Motor): (t: seq<Event>)
    ensures TargetsMotor(t, MotorPinsOf(cfg, motor))
    ensures forall e <- t :: (e.DigitalWrite? ==> e.level == 1) && (e.AnalogWrite? ==> e.duty == 0.0)
    ensures PinSet(MotorPinsOf(cfg, motor)) <= set e | e in t :: e.pin
  {
    var mp := MotorPinsOf(cfg, motor);
    [DigitalWrite(mp.in1, 1), DigitalWrite(mp.in2, 1), AnalogWrite(mp.pwm, 0.0)]
  }

  /** A motor command wrote IN1 := l1, IN2 := l2 (in that order) and the
      duty d on the motor's pins, and touched nothing else. */
  predicate MotorWrite(s: PinState, r: PinState, mp: MotorPins, l1: Bit, l2: Bit, d: real)
  {
    && r.digital == s.digital[mp.in1 := l1][mp.in2 := l2]
    && r.duty == s.duty[mp.pwm := d]
    && r.period == s.period && r.pull == s.pull
  }

  /** What a motor write means pin by pin: IN2 holds its level, IN1 holds
      its level unless it is wired to the same pin as IN2, the PWM pin holds
      the duty, and every pin outside the motor's three is as before. */
  lemma MotorWriteFrame(s: PinState, r: PinState, mp: MotorPins, l1: Bit, l2: Bit, d: real)
    requires MotorWrite(s, r, mp, l1, l2, d)
    ensures mp.in2 in r.digital && r.digital[mp.in2] == l2
    ensures mp.in1 != mp.in2 ==> mp.in1 in r.digital && r.digital[mp.in1] == l1
    ensures mp.pwm in r.duty && r.duty[mp.pwm] == d
    ensures forall p :: p !in PinSet(mp) ==> SameAt(s, r, p)
  {
  }

  /** `run` sets IN1/IN2 to (1, 0) going forward and (0, 1) going backward,
      so exactly one direction pin is high, and writes the duty
      `clamp(speed, 0, 100) * 1023 / 100`; only the selected motor's pins
      change. */
  lemma RunEffect(cfg: Config, s: PinState, motor: Motor, dir: Direction, speed: real)
    ensures var mp := MotorPinsOf(cfg, motor);
            var r := Exec(s, Run(cfg, motor, dir, speed));
            && MotorWrite(s, r, mp, In1Level(dir), In2Level(dir), MotorDuty(speed))
            && mp.in2 in r.digital && mp.pwm in r.duty
            && r.digital[mp.in2] == (if dir == Backward then 1 else 0)
            && (mp.in1 != mp.in2 ==>
                  mp.in1 in r.digital && r.digital[mp.in1] == (if dir == Forward then 1 else 0)
                  && r.digital[mp.in1] + r.digital[mp.in2] == 1)
            && 0.0 <= r.duty[mp.pwm] <= PwmFullScale
            && (0.0 <= speed <= MaxSpeed ==> r.duty[mp.pwm] * MaxSpeed == speed * PwmFullScale)
            && (forall p :: p !in PinSet(mp) ==> SameAt(s, r, p))
  {
    var mp := MotorPinsOf(cfg, motor);
    var d := MotorDuty(speed);
    ExecThree(s, DigitalWrite(mp.in1, In1Level(dir)), DigitalWrite(mp.in2, In2Level(dir)), AnalogWrite(mp.pwm, d));
    MotorWriteFrame(s, Exec(s, Run(cfg, motor, dir, speed)), mp, In1Level(dir), In2Level(dir), d);
  }

  /** The duty `run` writes is non-decreasing in the speed: 0 at speed 0 (and
      below) and 1023 at speed 100 (and above). */
  lemma RunDutyMonotone(cfg: Config, s: PinState, motor: Motor, dir: Direction, a: real, b: real)
    requires a <= b
    ensures var pwm := MotorPinsOf(cfg, motor).pwm;
            var ra := Exec(s, Run(cfg, motor, dir, a));
            var rb := Exec(s, Run(cfg, motor, dir, b));
            && pwm in ra.duty && pwm in rb.duty
            && ra.duty[pwm] <= rb.duty[pwm]
            && (a <= 0.0 ==> ra.duty[pwm] == 0.0)
            && (MaxSpeed <= b ==> rb.duty[pwm] == PwmFullScale)
  {
    RunEffect(cfg, s, motor, dir, a);
    RunEffect(cfg, s, motor, dir, b);
    MotorDutyMonotone(a, b);
  }

  /** `stop` leaves both direction pins low and the duty 0; only the
      selected motor's pins change. */
  lemma StopEffect(cfg: Config, s: PinState, motor: Motor)
    ensures var mp := MotorPinsOf(cfg, motor);
            var r := Exec(s, Stop(cfg, motor));
            && mp.in1 in r.digital && mp.in2 in r.digital && mp.pwm in r.duty
            && r.digital[mp.in1] == 0 && r.digital[mp.in2] == 0 && r.duty[mp.pwm] == 0.0
            && r.period == s.period && r.pull == s.pull
            && (forall p :: p !in PinSet(mp) ==> SameAt(s, r, p))
  {
    var mp := MotorPinsOf(cfg, motor);
    ExecThree(s, DigitalWrite(mp.in1, 0), DigitalWrite(mp.in2, 0), AnalogWrite(mp.pwm, 0.0));
    MotorWriteFrame(s, Exec(s, Stop(cfg, motor)), mp, 0, 0, 0.0);
  }

  /** `brake` leaves both direction pins high and the duty 0; only the
      selected motor's pins change. */
  lemma BrakeEffect(cfg: Config, s: PinState, motor: Motor)
    ensures var mp := MotorPinsOf(cfg, motor);
            var r := Exec(s, Brake(cfg, motor));
            && mp.in1 in r.digital && mp.in2 in r.digital && mp.pwm in r.duty
            && r.digital[mp.in1] == 1 && r.digital[mp.in2] == 1 && r.duty[mp.pwm] == 0.0
            && r.period == s.period && r.pull == s.pull
            && (forall p :: p !in PinSet(mp) ==> SameAt(s, r, p))
  {
    var mp := MotorPinsOf(cfg, motor);
    ExecThree(s, DigitalWrite(mp.in1, 1), DigitalWrite(mp.in2, 1), AnalogWrite(mp.pwm, 0.0));
    MotorWriteFrame(s, Exec(s, Brake(cfg, motor)), mp, 1, 1, 0.0);
  }

  /** Moving from s to r left the other motor's pins, both servo pins and
      both ultrasonic pins as they were. */
  predicate LeavesOtherChannels(cfg: Config, s: PinState, r: PinState, motor: Motor)
  {
    && (forall p :: p in PinSet(MotorPinsOf(cfg, Other(motor))) ==> SameAt(s, r, p))
    && SameAt(s, r, cfg.servoS1) && SameAt(s, r, cfg.servoS2)
    && SameAt(s, r, cfg.usTrig) && SameAt(s, r, cfg.usEcho)
  }

  lemma FrameIsolatesMotor(cfg: Config, s: PinState, r: PinState, motor: Motor)
    requires NoAliasing(cfg)
    requires forall p :: p !in PinSet(MotorPinsOf(cfg, motor)) ==> SameAt(s, r, p)
    ensures LeavesOtherChannels(cfg, s, r, motor)
  {
    NoAliasingSeparatesChannels(cfg, motor);
    assert PortToServoPin(cfg, S1) == cfg.servoS1 && PortToServoPin(cfg, S2) == cfg.servoS2;
  }

  /** On an alias-free table a command to one motor leaves the other motor,
      both servos and both ultrasonic pins exactly as they were. */
  lemma MotorCommandsAreIsolated(cfg: Config, s: PinState, motor: Motor, dir: Direction, speed: real)
    requires NoAliasing(cfg)
    ensures LeavesOtherChannels(cfg, s, Exec(s, Run(cfg, motor, dir, speed)), motor)
    ensures LeavesOtherChannels(cfg, s, Exec(s, Stop(cfg, motor)), motor)
    ensures LeavesOtherChannels(cfg, s, Exec(s, Brake(cfg, motor)), motor)
  {
    RunEffect(cfg, s, motor, dir, speed);
    FrameIsolatesMotor(cfg, s, Exec(s, Run(cfg, motor, dir, speed)), motor);
    StopEffect(cfg, s, motor);
    FrameIsolatesMotor(cfg, s, Exec(s, Stop(cfg, motor)), motor);
    BrakeEffect(cfg, s, motor);
    FrameIsolatesMotor(cfg, s, Exec(s, Brake(cfg, motor)), motor);
  }

  /** After `mapMotorPins(m, a, b, c)` the commands to m drive a, b and c. */
  lemma RemappedMotorDrivesNewPins(cfg: Config, s: PinState, motor: Motor, a: Pin, b: Pin, c: Pin,
                                   dir: Direction, speed: real)
    ensures var r := Exec(s, Run(MapMotorPins(cfg, motor, a, b, c), motor, dir, speed));
            MotorWrite(s, r, MotorPins(a, b, c), In1Level(dir), In2Level(dir), MotorDuty(speed))
    ensures var r := Exec(s, Brake(MapMotorPins(cfg, motor, a, b, c), motor));
            MotorWrite(s, r, MotorPins(a, b, c), 1, 1, 0.0)
    ensures var r := Exec(s, Stop(MapMotorPins(cfg, motor, a, b, c), motor));
            MotorWrite(s, r, MotorPins(a, b, c), 0, 0, 0.0)
  {
    var cfg' := MapMotorPins(cfg, motor, a, b, c);
    RunEffect(cfg', s, motor, dir, speed);
    ExecThree(s, DigitalWrite(a, 1), DigitalWrite(b, 1), AnalogWrite(c, 0.0));
    ExecThree(s, DigitalWrite(a, 0), DigitalWrite(b, 0), AnalogWrite(c, 0.0));
  }
}
