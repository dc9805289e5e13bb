/** The pin configuration table: which physical pin serves each logical
    channel (servo ports S1/S2, the three H-bridge pins of motors M1/M2, the
    ultrasonic trigger and echo), the board defaults, channel resolution and
    the remapping setters. The table is an immutable record; a remap returns
    the updated table. */
module PinConfig {
  import opened Pins

  datatype Motor = M1 | M2
  datatype Direction = Forward | Backward
  datatype ServoPort = S1 | S2

  /** An H-bridge channel: two direction inputs and a PWM speed input. */
  datatype MotorPins = MotorPins(in1: Pin, in2: Pin, pwm: Pin)

  datatype Config = Config(
    servoS1: Pin,
    servoS2: Pin,
    m1: MotorPins,
    m2: MotorPins,
    usTrig: Pin,
    usEcho: Pin)

  /** The board defaults: servos on P8/P12, motor 1 on P13/P14/P1, motor 2 on
      P15/P16/P2, ultrasonic trigger on P0 and echo on P11. */
  const Default: Config := Config(
    Pin(8), Pin(12),
    MotorPins(Pin(13), Pin(14), Pin(1)),
    MotorPins(Pin(15), Pin(16), Pin(2)),
    Pin(0), Pin(11))

  /** `portToServoPin`: the table's pin for a servo port. Distinct ports
      resolve to distinct pins whenever the table keeps S1 and S2 apart. */
  function PortToServoPin(cfg: Config, port: ServoPort): (pin: Pin)
    ensures pin in {cfg.servoS1, cfg.servoS2}
    ensures cfg.servoS1 != cfg.servoS2 ==> (pin == cfg.servoS1 <==> port == S1)
  {
    if port == S1 then cfg.servoS1 else cfg.servoS2
  }

  /** `motorPins`: the table's (IN1, IN2, PWM) triple for a motor. Distinct
      motors resolve to distinct triples whenever the table keeps them apart. */
  function MotorPinsOf(cfg: Config, m: Motor): (mp: MotorPins)
    ensures mp in {cfg.m1, cfg.m2}
    ensures cfg.m1 != cfg.m2 ==> (mp == cfg.m1 <==> m == M1)
    ensures PinSet(mp) <= set p | p in AllPins(cfg)
  {
    if m == M1 then cfg.m1 else cfg.m2
  }

  function Other(m: Motor): Motor
  {
    if m == M1 then M2 else M1
  }

  function PinSet(mp: MotorPins): set<Pin>
  {
    {mp.in1, mp.in2, mp.pwm}
  }

  /** Every channel's pin, in table order. */
  function AllPins(cfg: Config): seq<Pin>
  {
    [cfg.servoS1, cfg.servoS2,
     cfg.m1.in1, cfg.m1.in2, cfg.m1.pwm,
     cfg.m2.in1, cfg.m2.in2, cfg.m2.pwm,
     cfg.usTrig, cfg.usEcho]
  }

  /** No two logical channels share a physical pin. The table does not
      enforce this; callers of the remapping setters are expected to keep it. */
  predicate NoAliasing(cfg: Config)
  {
    forall i, j :: 0 <= i < j < |AllPins(cfg)| ==> AllPins(cfg)[i] != AllPins(cfg)[j]
  }

  /** On an alias-free table each motor's pins are apart from the other
      motor's, from the servo pins and from the ultrasonic pins. */
  lemma NoAliasingSeparatesChannels(cfg: Config, m: Motor)
    requires NoAliasing(cfg)
    ensures PinSet(MotorPinsOf(cfg, m)) !! PinSet(MotorPinsOf(cfg, Other(m)))
    ensures forall port :: PortToServoPin(cfg, port) !in PinSet(MotorPinsOf(cfg, m))
    ensures MotorPinsOf(cfg, m).in1 != MotorPinsOf(cfg, m).in2
    ensures cfg.usTrig !in PinSet(MotorPinsOf(cfg, m)) && cfg.usTrig != cfg.usEcho
    ensures cfg.usEcho !in PinSet(MotorPinsOf(cfg, m))
    ensures cfg.servoS1 != cfg.servoS2
  {
    var ps := AllPins(cfg);
    forall i, j | 0 <= i < j < 10
      ensures ps[i] != ps[j]
    {
    }
    assert ps[2] != ps[5] && ps[2] != ps[6] && ps[2] != ps[7];
    assert ps[3] != ps[5] && ps[3] != ps[6] && ps[3] != ps[7];
    assert ps[4] != ps[5] && ps[4] != ps[6] && ps[4] != ps[7];
    assert ps[0] != ps[2] && ps[0] != ps[3] && ps[0] != ps[4] && ps[0] != ps[5] && ps[0] != ps[6] && ps[0] != ps[7];
    assert ps[1] != ps[2] && ps[1] != ps[3] && ps[1] != ps[4] && ps[1] != ps[5] && ps[1] != ps[6] && ps[1] != ps[7];
    assert ps[8] != ps[2] && ps[8] != ps[3] && ps[8] != ps[4] && ps[8] != ps[5] && ps[8] != ps[6] && ps[8] != ps[7];
    assert ps[9] != ps[2] && ps[9] != ps[3] && ps[9] != ps[4] && ps[9] != ps[5] && ps[9] != ps[6] && ps[9] != ps[7];
    assert ps[0] != ps[1] && ps[2] != ps[3] && ps[5] != ps[6] && ps[8] != ps[9];
  }

  lemma DefaultResolution()
    ensures NoAliasing(Default)
    ensures PortToServoPin(Default, S1) == Pin(8) && PortToServoPin(Default, S2) == Pin(12)
    ensures MotorPinsOf(Default, M1) == MotorPins(Pin(13), Pin(14), Pin(1))
    ensures MotorPinsOf(Default, M2) == MotorPins(Pin(15), Pin(16), Pin(2))
    ensures Default.usTrig == Pin(0) && Default.usEcho == Pin(11)
  {
  }

  // ------------------------------------------------------------ remapping

  /** `mapServoPins`: S1 and S2 now resolve to s1 and s2; nothing else moves. */
  function MapServoPins(cfg: Config, s1: Pin, s2: Pin): (r: Config)
    ensures PortToServoPin(r, S1) == s1 && PortToServoPin(r, S2) == s2
    ensures forall m :: MotorPinsOf(r, m) == MotorPinsOf(cfg, m)
    ensures r.usTrig == cfg.usTrig && r.usEcho == cfg.usEcho
  {
    cfg.(servoS1 := s1, servoS2 := s2)
  }

  /** `mapMotorPins`: the chosen motor now resolves to (in1, in2, pwm); the
      other motor, the servos and the ultrasonic pins keep their pins. */
  function MapMotorPins(cfg: Config, motor: Motor, in1: Pin, in2: Pin, pwm: Pin): (r: Config)
    ensures MotorPinsOf(r, motor) == MotorPins(in1, in2, pwm)
    ensures MotorPinsOf(r, Other(motor)) == MotorPinsOf(cfg, Other(motor))
    ensures forall port :: PortToServoPin(r, port) == PortToServoPin(cfg, port)
    ensures r.usTrig == cfg.usTrig && r.usEcho == cfg.usEcho
  {
    if motor == M1 then cfg.(m1 := MotorPins(in1, in2, pwm))
    else cfg.(m2 := MotorPins(in1, in2, pwm))
  }

  /** `mapUltrasonicPins`: the trigger and echo entries are replaced; the
      servo and motor entries keep their pins. */
  function MapUltrasonicPins(cfg: Config, trig: Pin, echo: Pin): (r: Config)
    ensures r.usTrig == trig && r.usEcho == echo
    ensures forall port :: PortToServoPin(r, port) == PortToServoPin(cfg, port)
    ensures forall m :: MotorPinsOf(r, m) == MotorPinsOf(cfg, m)
  {
    cfg.(usTrig := trig, usEcho := echo)
  }

  /** Remapping a channel to the pins it already has changes nothing, and a
      later remap of the same channel overrides an earlier one. */
  lemma RemapLastWins(cfg: Config, motor: Motor, a: MotorPins, b: MotorPins)
    ensures MapMotorPins(cfg, motor, MotorPinsOf(cfg, motor).in1, MotorPinsOf(cfg, motor).in2,
                         MotorPinsOf(cfg, motor).pwm) == cfg
    ensures MapMotorPins(MapMotorPins(cfg, motor, a.in1, a.in2, a.pwm), motor, b.in1, b.in2, b.pwm)
            == MapMotorPins(cfg, motor, b.in1, b.in2, b.pwm)
  {
  }
}
