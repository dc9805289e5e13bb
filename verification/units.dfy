/** Pure unit conversions of the PTKidsBIT extension: saturation, servo angle
    to pulse width to PWM duty, motor speed to PWM duty, echo time to
    centimetres. Numbers are exact reals; JavaScript's `Math.round` is
    `Floor(x + 1/2)` and pxt's `Math.map` is the unclamped linear rescale. */
module Units {

  /** Servo frame period written before every servo duty (50 Hz). */
  const ServoPeriodUs: nat := 20000
  const ServoMinPulseUs: real := 500.0
  const ServoMaxPulseUs: real := 2500.0
  const ServoMaxAngle: real := 180.0
  /** Full-scale value of `analogWritePin` (10-bit PWM). */
  const PwmFullScale: real := 1023.0
  const MaxSpeed: real := 100.0
  /** Round-trip echo microseconds per centimetre used by MakeCode. */
  const EchoUsPerCm: real := 58.0

  function Min(a: real, b: real): real { if a <= b then a else b }
  function Max(a: real, b: real): real { if a <= b then b else a }

  /** `Math.max(lo, Math.min(hi, v))`: v saturated into [lo, hi]. When the
      range is empty the outer `max` wins and the result is lo. */
  function Clamp(v: real, lo: real, hi: real): (r: real)
    ensures lo <= hi ==> lo <= r <= hi
    ensures lo <= v <= hi ==> r == v
    ensures lo <= hi && v < lo ==> r == lo
    ensures lo <= hi && hi < v ==> r == hi
    ensures hi < lo ==> r == lo
  {
    Max(lo, Min(hi, v))
  }

  lemma ClampIdempotent(v: real, lo: real, hi: real)
    ensures Clamp(Clamp(v, lo, hi), lo, hi) == Clamp(v, lo, hi)
  {
  }

  lemma ClampMonotone(v: real, w: real, lo: real, hi: real)
    requires v <= w
    ensures Clamp(v, lo, hi) <= Clamp(w, lo, hi)
  {
  }

  /** JavaScript's `Math.round` on a finite number: the integer nearest to x,
      halves rounding up. */
  function Round(x: real): (r: int)
    ensures x - 0.5 < r as real <= x + 0.5
  {
    (x + 0.5).Floor
  }

  lemma RoundMonotone(x: real, y: real)
    requires x <= y
    ensures Round(x) <= Round(y)
  {
  }

  /** pxt's `Math.map`: rescales value linearly from [fromLow, fromHigh] onto
      [toLow, toHigh], with neither clamping nor rounding. */
  function MathMap(value: real, fromLow: real, fromHigh: real, toLow: real, toHigh: real): (r: real)
    requires fromLow != fromHigh
    ensures (r - toLow) * (fromHigh - fromLow) == (value - fromLow) * (toHigh - toLow)
  {
    (value - fromLow) * (toHigh - toLow) / (fromHigh - fromLow) + toLow
  }

  // ---------------------------------------------------------------- servo

  /** Pulse width in µs for a servo angle in degrees: the angle is clamped to
      [0, 180] and spread linearly over [500, 2500]. */
  function AnglePulseUs(angle: real): (pulse: real)
    ensures ServoMinPulseUs <= pulse <= ServoMaxPulseUs
    ensures angle <= 0.0 ==> pulse == ServoMinPulseUs
    ensures ServoMaxAngle <= angle ==> pulse == ServoMaxPulseUs
    ensures 0.0 <= angle <= ServoMaxAngle ==> PulseAngle(pulse) == angle
  {
    var a := Clamp(angle, 0.0, ServoMaxAngle);
    ServoMinPulseUs + (a / ServoMaxAngle) * (ServoMaxPulseUs - ServoMinPulseUs)
  }

  /** The angle a pulse width encodes: the inverse of AnglePulseUs on [0, 180]. */
  function PulseAngle(pulse: real): real
  {
    (pulse - ServoMinPulseUs) / (ServoMaxPulseUs - ServoMinPulseUs) * ServoMaxAngle
  }

  /** Every pulse in [500, 2500] is produced by exactly the angle it encodes. */
  lemma PulseAngleRoundTrip(pulse: real)
    requires ServoMinPulseUs <= pulse <= ServoMaxPulseUs
    ensures 0.0 <= PulseAngle(pulse) <= ServoMaxAngle
    ensures AnglePulseUs(PulseAngle(pulse)) == pulse
  {
  }

  lemma AnglePulseMonotone(a: real, b: real)
    requires a <= b
    ensures AnglePulseUs(a) <= AnglePulseUs(b)
  {
    ClampMonotone(a, b, 0.0, ServoMaxAngle);
  }

  /** The second clamp applied to a pulse computed from an angle changes
      nothing: the pulse already lies in [500, 2500]. */
  lemma PulseClampIsNoOp(angle: real)
    ensures Clamp(AnglePulseUs(angle), ServoMinPulseUs, ServoMaxPulseUs) == AnglePulseUs(angle)
  {
  }

  /** Duty counts written for a servo pulse: the pulse clamped to [500, 2500]
      as a fraction of the 20000 µs period, scaled to 1023 and rounded. */
  function ServoDuty(pulse: real): (duty: int)
    ensures 26 <= duty <= 128
    ensures pulse <= ServoMinPulseUs ==> duty == 26
    ensures ServoMaxPulseUs <= pulse ==> duty == 128
    ensures var exact := Clamp(pulse, ServoMinPulseUs, ServoMaxPulseUs) / ServoPeriodUs as real * PwmFullScale;
            exact - 0.5 < duty as real <= exact + 0.5
  {
    var p := Clamp(pulse, ServoMinPulseUs, ServoMaxPulseUs);
    var fraction := p / ServoPeriodUs as real;
    RoundMonotone(ServoMinPulseUs / ServoPeriodUs as real * PwmFullScale, fraction * PwmFullScale);
    RoundMonotone(fraction * PwmFullScale, ServoMaxPulseUs / ServoPeriodUs as real * PwmFullScale);
    Round(fraction * PwmFullScale)
  }

  lemma ServoDutyMonotone(p: real, q: real)
    requires p <= q
    ensures ServoDuty(p) <= ServoDuty(q)
  {
    ClampMonotone(p, q, ServoMinPulseUs, ServoMaxPulseUs);
    var fp := Clamp(p, ServoMinPulseUs, ServoMaxPulseUs) / ServoPeriodUs as real * PwmFullScale;
    var fq := Clamp(q, ServoMinPulseUs, ServoMaxPulseUs) / ServoPeriodUs as real * PwmFullScale;
    RoundMonotone(fp, fq);
  }

  /** Duty counts for a servo angle: 26 at 0 degrees, 128 at 180 degrees,
      non-decreasing in between. */
  lemma AngleDutyMonotone(a: real, b: real)
    requires a <= b
    ensures ServoDuty(AnglePulseUs(a)) <= ServoDuty(AnglePulseUs(b))
    ensures ServoDuty(AnglePulseUs(0.0)) == 26
    ensures ServoDuty(AnglePulseUs(ServoMaxAngle)) == 128
  {
    AnglePulseMonotone(a, b);
    ServoDutyMonotone(AnglePulseUs(a), AnglePulseUs(b));
  }

  // ---------------------------------------------------------------- motor

  /** PWM duty for a motor speed: the speed clamped to [0, 100] and mapped
      linearly onto [0, 1023] by `Math.map`, left unrounded. */
  function MotorDuty(speed: real): (duty: real)
    ensures 0.0 <= duty <= PwmFullScale
    ensures speed <= 0.0 ==> duty == 0.0
    ensures MaxSpeed <= speed ==> duty == PwmFullScale
    ensures 0.0 <= speed <= MaxSpeed ==> duty * MaxSpeed == speed * PwmFullScale
  {
    MathMap(Clamp(speed, 0.0, MaxSpeed), 0.0, MaxSpeed, 0.0, PwmFullScale)
  }

  /** The speed a motor duty encodes: the inverse of MotorDuty on [0, 100]. */
  function DutySpeed(duty: real): real
  {
    duty * MaxSpeed / PwmFullScale
  }

  lemma MotorDutyRoundTrip(speed: real, duty: real)
    requires 0.0 <= speed <= MaxSpeed
    requires 0.0 <= duty <= PwmFullScale
    ensures DutySpeed(MotorDuty(speed)) == speed
    ensures 0.0 <= DutySpeed(duty) <= MaxSpeed && MotorDuty(DutySpeed(duty)) == duty
  {
  }

  lemma MotorDutyMonotone(s: real, t: real)
    requires s <= t
    ensures MotorDuty(s) <= MotorDuty(t)
  {
    ClampMonotone(s, t, 0.0, MaxSpeed);
  }

  // ----------------------------------------------------------- ultrasonic

  /** Distance in cm for an echo pulse of d µs: d / 58 when that is
      positive, and 0 otherwise (0 is also what a timed-out echo reports). */
  function EchoCm(d: int): (cm: real)
    ensures 0.0 <= cm
    ensures d <= 0 ==> cm == 0.0
    ensures 0 < d ==> cm * EchoUsPerCm == d as real
  {
    var cm := d as real / EchoUsPerCm;
    if cm > 0.0 then cm else 0.0
  }

  lemma EchoCmMonotone(d: int, e: int)
    requires d <= e
    ensures EchoCm(d) <= EchoCm(e)
    ensures EchoCm(580) == 10.0
  {
  }
}
