# PTKidsBIT signal layer in Dafny

A model of the signal-generation and unit-conversion core of the PTKidsBIT
MakeCode extension for the micro:bit robot board. It covers:

- the pin configuration table: the servo ports S1/S2, the IN1/IN2/PWM pins of motors M1/M2, and the ultrasonic trigger and echo pins;
- the servo driver: angle to pulse width (500–2500 µs) to a rounded 10-bit duty in a 20000 µs frame;
- the motor driver: `run`, `stop`, `brake` on an H-bridge;
- the ultrasonic ranger: the trigger pulse, then the echo time over 58;
- the remapping setters.

Modules, one per component:

- `Units` (units.dfy): `clamp`, `Math.round`, `Math.map` and the four conversions, over exact reals. `Math.round(x)` is `Floor(x + 1/2)`.
- `Pins` (pins.dfy): the abstract pin driver. Each driver call (`setPull`, `digitalWritePin`, `analogSetPeriod`, `analogWritePin`, `waitMicros`, `pulseIn`) is an `Event`. A command is the ordered trace of its events. `Exec` folds a trace into a `PinState`: the last pull mode, digital level, PWM period and PWM duty written to each pin. `Waveform` reads off the levels a trace holds on one pin during its waits.
- `PinConfig` (pin_config.dfy): the table as an immutable `Config` record. It holds the board defaults, the port and motor resolution (`portToServoPin`, `motorPins`) and the three remap setters. Each setter returns the updated table.
- `ServoDriver`, `MotorDriver`, `UltrasonicRanger`: the commands as traces, with lemmas about the state each one leaves.

The pin driver is a parameter, not code: `pulseIn`'s measured duration is an argument of `UltrasonicCM`. The model has no clock or I/O.

Three behaviours of the code are easy to miss:

- `run` takes an unsigned speed clamped to [0, 100] and a separate `Direction`.
- `run`'s duty comes from `Math.map` and is not rounded.
- `stop` drives both direction pins low.

## Model

| member | source | states |
|---|---|---|
| Units.Clamp | PTKidsBIT.ts:52-54 | With lo ≤ hi the result lies in [lo, hi]. It is v itself when v is in range, lo below the range and hi above it. For an empty range (hi < lo) it is lo. |
| Units.ClampIdempotent | PTKidsBIT.ts:52-54 | Clamping twice gives the same value as clamping once. |
| Units.ClampMonotone | PTKidsBIT.ts:52-54 | Clamping is non-decreasing in the clamped value. |
| Units.Round | PTKidsBIT.ts:73 | `Math.round` returns the integer within half a unit of x, rounding halves up. |
| Units.MathMap | PTKidsBIT.ts:115 | `Math.map` puts value at the same fraction of the target range as it has in the source range. |
| Units.AnglePulseUs | PTKidsBIT.ts:79-81 | The pulse lies in [500, 2500] µs. Angles ≤ 0 give 500 and angles ≥ 180 give 2500. On [0, 180] the pulse encodes exactly the angle (PulseAngle inverts it). |
| Units.PulseAngleRoundTrip | PTKidsBIT.ts:80-81 | Every pulse in [500, 2500] is produced by the angle in [0, 180] that it encodes. |
| Units.AnglePulseMonotone | PTKidsBIT.ts:80-81 | The pulse is non-decreasing in the angle. |
| Units.PulseClampIsNoOp | PTKidsBIT.ts:71 | The clamp to [500, 2500] inside `servoPulseUs_` does not change a pulse computed from an angle. |
| Units.ServoDuty | PTKidsBIT.ts:69-74 | The servo duty lies in [26, 128]. It is 26 at or below 500 µs and 128 at or above 2500 µs. It is the integer nearest to clamp(pulse)/20000·1023. |
| Units.ServoDutyMonotone | PTKidsBIT.ts:71-73 | The servo duty is non-decreasing in the pulse width. |
| Units.AngleDutyMonotone | PTKidsBIT.ts:79-83 | The duty for an angle is non-decreasing in the angle. It is 26 at 0 degrees and 128 at 180 degrees. |
| Units.MotorDuty | PTKidsBIT.ts:108-115 | The motor duty lies in [0, 1023]. It is 0 for speed ≤ 0 and 1023 for speed ≥ 100. On [0, 100] it equals speed·1023/100 exactly, with no rounding. |
| Units.MotorDutyRoundTrip | PTKidsBIT.ts:115 | On [0, 100] ↔ [0, 1023], speed-to-duty and duty-to-speed are inverse to each other. |
| Units.MotorDutyMonotone | PTKidsBIT.ts:108-115 | The motor duty is non-decreasing in the speed. |
| Units.EchoCm | PTKidsBIT.ts:148-151 | The distance is never negative. An echo ≤ 0 µs (including the timeout value 0) gives 0. A positive echo of d µs gives exactly d/58 cm. |
| Units.EchoCmMonotone | PTKidsBIT.ts:150-151 | The distance is non-decreasing in the echo time, and 580 µs gives 10 cm. |
| PinConfig.PortToServoPin | PTKidsBIT.ts:85-88 | A port resolves to one of the table's two servo entries. When S1 and S2 are different pins, a port resolves to S1's pin exactly when it is S1. Its values are fixed by `DefaultResolution` and by the `MapServoPins`, `MapMotorPins` and `MapUltrasonicPins` postconditions. |
| PinConfig.MotorPinsOf | PTKidsBIT.ts:98-101 | A motor resolves to one of the table's two triples, all of whose pins are table entries. When the triples differ, a motor resolves to M1's triple exactly when it is M1. Its values are fixed by `DefaultResolution` and by the three `Map*` postconditions. |
| PinConfig.DefaultResolution | PTKidsBIT.ts:11-26 | The default table puts S1→P8, S2→P12, M1→(P13, P14, P1), M2→(P15, P16, P2), trigger→P0 and echo→P11, and no two channels share a pin. |
| PinConfig.NoAliasingSeparatesChannels | PTKidsBIT.ts:85-101 | On an alias-free table, each motor's resolved pins are disjoint from the other motor's, from both servo pins and from the trigger and echo pins. |
| PinConfig.MapServoPins | PTKidsBIT.ts:157-162 | After the remap, S1 resolves to s1 and S2 to s2. The motor and ultrasonic entries are unchanged. |
| PinConfig.MapMotorPins | PTKidsBIT.ts:165-181 | After the remap, the chosen motor resolves to (in1, in2, pwm). The other motor, the servos and the ultrasonic pins are unchanged. |
| PinConfig.MapUltrasonicPins | PTKidsBIT.ts:184-189 | After the remap, the trigger and echo entries are the new pins. The servo and motor resolutions are unchanged. |
| PinConfig.RemapLastWins | PTKidsBIT.ts:166-180 | Remapping a motor to its current pins changes nothing, and a second remap of the same motor overrides the first. |
| ServoDriver.ServoPulseUs | PTKidsBIT.ts:69-74 | Every call sets the period or writes the duty of the given pin. The first call sets the period to 20000 µs. Every duty write comes after it and lies in [26, 128]. |
| ServoDriver.ServoAnglePin | PTKidsBIT.ts:79-83 | Every call targets the given pin. The duty written is round(pulse/20000·1023), with no second clamp. |
| ServoDriver.ServoAngle | PTKidsBIT.ts:93-95 | Every call targets the pin the port resolves to. On the default table that is P8 for S1 and P12 for S2. |
| ServoDriver.ServoPulseEffect | PTKidsBIT.ts:69-74 | The period is set before the duty. Afterwards the pin has period 20000 µs and duty ServoDuty(pulse), in [26, 128]. No other pin's period or duty changes, and no digital level or pull mode changes. |
| ServoDriver.ServoAnglePinEffect | PTKidsBIT.ts:79-83 | On a raw pin, the pin gets period 20000 µs and duty round(pulse/20000·1023), with no second clamp. The duty is 26 at angles ≤ 0 and 128 at angles ≥ 180. |
| ServoDriver.ServoAnglePinMonotone | PTKidsBIT.ts:79-83 | A larger angle never leaves a smaller duty on the pin. |
| ServoDriver.ServoAngleEffect | PTKidsBIT.ts:85-95 | `servoAngle(port, a)` changes only the pin the port resolves to. On the default table that is P8 for S1 and P12 for S2. |
| ServoDriver.ServoAngleIdempotent | PTKidsBIT.ts:93-95 | Issuing the same servo command twice leaves the same pin state as issuing it once. |
| ServoDriver.RemappedServoDrivesNewPin | PTKidsBIT.ts:157-162 | After `mapServoPins(s1, s2)`, servo commands on S1 and S2 drive s1 and s2. |
| MotorDriver.Run | PTKidsBIT.ts:106-117 | Only the motor's pins are written. The two direction writes come first, on IN1 then IN2. Exactly one of them is high, and IN1 is the high one exactly when going forward. The duty is written last and lies in [0, 1023]. |
| MotorDriver.Stop | PTKidsBIT.ts:121-126 | All three of the motor's pins are written, and no others. Every direction write is 0 and the duty is 0. |
| MotorDriver.Brake | PTKidsBIT.ts:130-136 | All three of the motor's pins are written, and no others. Every direction write is 1 and the duty is 0. |
| MotorDriver.MotorWriteFrame | PTKidsBIT.ts:111-116 | The write order decides the levels. IN2 holds the level written to it. IN1 holds its written level unless it is the same pin as IN2. The PWM pin holds the duty, and pins outside the motor's three keep their state. |
| MotorDriver.RunEffect | PTKidsBIT.ts:106-117 | Forward gives IN1=1 and IN2=0; backward gives IN1=0 and IN2=1. With distinct direction pins exactly one is high. The duty is in [0, 1023] and equals speed·1023/100 on [0, 100]. Only the selected motor's pins change. |
| MotorDriver.RunDutyMonotone | PTKidsBIT.ts:108-116 | The duty `run` writes is non-decreasing in the speed. It is 0 for speeds ≤ 0 and 1023 for speeds ≥ 100. |
| MotorDriver.StopEffect | PTKidsBIT.ts:121-126 | `stop` leaves IN1=0, IN2=0 and duty 0, and changes only the selected motor's pins. |
| MotorDriver.BrakeEffect | PTKidsBIT.ts:130-136 | `brake` leaves IN1=1, IN2=1 and duty 0, and changes only the selected motor's pins. |
| MotorDriver.MotorCommandsAreIsolated | PTKidsBIT.ts:98-136 | On an alias-free table, `run`, `stop` and `brake` on one motor leave the other motor's pins, both servo pins and both ultrasonic pins unchanged. |
| MotorDriver.RemappedMotorDrivesNewPins | PTKidsBIT.ts:165-181 | After `mapMotorPins(m, a, b, c)`, `run`, `stop` and `brake` on m write to a, b and c. |
| UltrasonicRanger.TriggerTrace | PTKidsBIT.ts:141-148 | Only the trigger pin is written. Its pull resistor is released first. No PWM call is made. The one echo measurement, `pulseIn(echo, High, 30000)`, comes last. |
| UltrasonicRanger.UltrasonicCM | PTKidsBIT.ts:140-152 | The distance is ≥ 0. It is 0 when the echo is ≤ 0 µs (timeout) and echo/58 otherwise. The trigger pin is held low for 2 µs, then high for 10 µs, and `pulseIn(echo, High, 30000)` is the last driver call and the only measurement. |
| UltrasonicRanger.TriggerWaveform | PTKidsBIT.ts:141-146 | Whatever its initial level, the trigger pin is low for 2 µs and then high for 10 µs. |
| UltrasonicRanger.TriggerEffect | PTKidsBIT.ts:141-148 | The trigger leaves its pin with no pull resistor and driven low, and changes nothing else. The echo measurement writes nothing. |
| UltrasonicRanger.DistanceReadings | PTKidsBIT.ts:148-151 | A timed-out echo reads 0 cm and 580 µs reads 10 cm. A longer echo never reads shorter. The trigger trace does not depend on the echo. |

## Left out

- `init` (PTKidsBIT.ts:59-66): it only probes the `music` API to switch off the V2 speaker. It has no behaviour in this layer.
- Block and enum annotations: they are editor metadata. `Motor`, `Direction` and `ServoPort` are two-constructor datatypes. In the source, a numeric enum value other than `M1`/`S1` takes the `M2`/`S2` branch; the datatypes have no such values.
- The real pin driver: `pins.*`, `control.waitMicros` and `pulseIn`'s timing are abstract events, and `pulseIn`'s result is a parameter. Hardware interplay between calls is not modelled. On the device a digital write to a PWM pin stops its PWM, and `pulseIn` reconfigures the echo pin as an input. The conversion of `run`'s unrounded duty to an integer inside `analogWritePin` is also not modelled.
- Floating point: all arithmetic is exact over reals, and `Math.round` is `Floor(x + 1/2)`. IEEE rounding of the intermediate quotients is not modelled.
- Units.MathMap: requires fromLow ≠ fromHigh. JavaScript would return NaN or Infinity in that case, and the extension only calls it with the range 0..100.
- Reassigning the `const` bindings in the remap setters (PTKidsBIT.ts:159-188): the model takes the evident intent, a mutable table whose new entries later commands see. Whether the MakeCode compiler inlines those constants, which would make the remaps ineffective, is not modelled.
