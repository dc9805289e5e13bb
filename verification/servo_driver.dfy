/** The servo driver: a 50 Hz PWM frame whose pulse width encodes the angle.
    Commands are the driver-call traces of `servoPulseUs_`, `servoAnglePin`
    and `servoAngle`; their lemmas state what the traces leave on the pins. */
module ServoDriver {
  import opened Units
  import opened Pins
  import opened PinConfig

  /** `servoPulseUs_`: set the pin's period to 20000 µs, then write the
      rounded duty for the clamped pulse. */
  function ServoPulseUs(pin: Pin, pulse: real): (t: seq<Event>)
    ensures forall e <- t :: (e.SetPeriod? || e.AnalogWrite?) && e.pin == pin
    ensures |t| > 0 && t[0] == SetPeriod(pin, ServoPeriodUs)
    ensures forall i :: 0 <= i < |t| && t[i].AnalogWrite? ==>
              0 < i && 26.0 <= t[i].duty <= 128.0
  {
    [SetPeriod(pin, ServoPeriodUs), AnalogWrite(pin, ServoDuty(pulse) as real)]
  }

  /** `servoAnglePin`: drive the servo on a raw pin to an angle. */
  function ServoAnglePin(pin: Pin, angle: real): (t: seq<Event>)
    ensures forall e <- t :: (e.SetPeriod? || e.AnalogWrite?) && e.pin == pin
    ensures forall e <- t :: e.AnalogWrite? ==>
              e.duty == Round(AnglePulseUs(angle) / ServoPeriodUs as real * PwmFullScale) as real
  {
    PulseClampIsNoOp(angle);
    ServoPulseUs(pin, AnglePulseUs(angle))
  }

  /** `servoAngle`: drive the servo on a logical port to an angle. */
  function ServoAngle(cfg: Config, port: ServoPort, angle: real): (t: seq<Event>)
    ensures forall e <- t :: (e.SetPeriod? || e.AnalogWrite?) && e.pin == PortToServoPin(cfg, port)
    ensures cfg == Default ==>
              forall e <- t :: (e.SetPeriod? || e.AnalogWrite?) && e.pin == (if port == S1 then Pin(8) else Pin(12))
  {
    ServoAnglePin(PortToServoPin(cfg, port), angle)
  }

  /** The period is configured before the duty is written, and afterwards the
      pin runs a 20000 µs frame with a duty in [26, 128]; no other pin and no
      digital or pull setting changes. */
  lemma ServoPulseEffect(s: PinState, pin: Pin, pulse: real)
    ensures ServoPulseUs(pin, pulse)[0] == SetPeriod(pin, ServoPeriodUs)
    ensures var r := Exec(s, ServoPulseUs(pin, pulse));
            && r.period == s.period[pin := ServoPeriodUs]
            && pin in r.duty && 26.0 <= r.duty[pin] <= 128.0
            && r.duty[pin] == ServoDuty(pulse) as real
            && r.duty - {pin} == s.duty - {pin}
            && r.digital == s.digital && r.pull == s.pull
  {
    ExecTwo(s, SetPeriod(pin, ServoPeriodUs), AnalogWrite(pin, ServoDuty(pulse) as real));
  }

  /** On the angle path the duty written is the rounded scaled pulse with no
      second clamp: 26 counts at 0 degrees and below, 128 at 180 and above. */
  lemma ServoAnglePinEffect(s: PinState, pin: Pin, angle: real)
    ensures var r := Exec(s, ServoAnglePin(pin, angle));
            && pin in r.period && r.period[pin] == ServoPeriodUs
            && pin in r.duty
            && r.duty[pin] == Round(AnglePulseUs(angle) / ServoPeriodUs as real * PwmFullScale) as real
            && (angle <= 0.0 ==> r.duty[pin] == 26.0)
            && (ServoMaxAngle <= angle ==> r.duty[pin] == 128.0)
  {
    ServoPulseEffect(s, pin, AnglePulseUs(angle));
    PulseClampIsNoOp(angle);
  }

  /** A larger angle never leaves a smaller duty on the pin. */
  lemma ServoAnglePinMonotone(s: PinState, pin: Pin, a: real, b: real)
    requires a <= b
    ensures var ra := Exec(s, ServoAnglePin(pin, a));
            var rb := Exec(s, ServoAnglePin(pin, b));
            pin in ra.duty && pin in rb.duty && ra.duty[pin] <= rb.duty[pin]
  {
    ServoPulseEffect(s, pin, AnglePulseUs(a));
    ServoPulseEffect(s, pin, AnglePulseUs(b));
    AngleDutyMonotone(a, b);
  }

  /** `servoAngle(port, a)` drives only the pin the port resolves to (P8 for
      S1 and P12 for S2 on the default table). */
  lemma ServoAngleEffect(cfg: Config, s: PinState, port: ServoPort, angle: real)
    ensures var pin := PortToServoPin(cfg, port);
            var r := Exec(s, ServoAngle(cfg, port, angle));
            && pin in r.period && r.period[pin] == ServoPeriodUs
            && pin in r.duty && r.duty[pin] == ServoDuty(AnglePulseUs(angle)) as real
            && (forall p :: p != pin ==> SameAt(s, r, p))
    ensures cfg == Default ==> PortToServoPin(cfg, port) == (if port == S1 then Pin(8) else Pin(12))
  {
    var pin := PortToServoPin(cfg, port);
    ServoPulseEffect(s, pin, AnglePulseUs(angle));
    var r := Exec(s, ServoAngle(cfg, port, angle));
    forall p | p != pin
      ensures SameAt(s, r, p)
    {
      assert p !in {pin};
      assert p in r.duty - {pin} <==> p in s.duty - {pin};
    }
  }

  /** Driving a servo twice with the same arguments leaves the pins as
      driving it once. */
  lemma ServoAngleIdempotent(cfg: Config, s: PinState, port: ServoPort, angle: real)
    ensures var t := ServoAngle(cfg, port, angle);
            Exec(Exec(s, t), t) == Exec(s, t)
  {
    ExecIdempotent(s, ServoAngle(cfg, port, angle));
  }

  /** After `mapServoPins(s1, s2)` a servo command on S1 drives s1 and one on
      S2 drives s2. */
  lemma RemappedServoDrivesNewPin(cfg: Config, s: PinState, s1: Pin, s2: Pin, port: ServoPort, angle: real)
    ensures var pin := if port == S1 then s1 else s2;
            var r := Exec(s, ServoAngle(MapServoPins(cfg, s1, s2), port, angle));
            pin in r.period && r.period[pin] == ServoPeriodUs
            && pin in r.duty && r.duty[pin] == ServoDuty(AnglePulseUs(angle)) as real
  {
    ServoAngleEffect(MapServoPins(cfg, s1, s2), s, port, angle);
  }
}
