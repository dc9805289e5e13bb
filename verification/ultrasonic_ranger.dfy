/** The ultrasonic ranger: a 10 µs trigger pulse on the trigger pin, then a
    timed measurement of the echo pin's high pulse, converted to centimetres.
    The measured duration comes from the pin driver and is a parameter. */
module UltrasonicRanger {
  import opened Units
  import opened Pins
  import opened PinConfig

  /** Low time before the trigger pulse, width of the trigger pulse, and the
      longest wait for an echo. */
  const TriggerSettleUs: nat := 2
  const TriggerPulseUs: nat := 10
  const EchoTimeoutUs: nat := 30000

  /** The driver calls of `ultrasonicCM`, in order: only the trigger pin is
      written, its pull resistor is released before it is first driven, and
      the one echo measurement comes last, bounded by 30000 µs. */
  function TriggerTrace(trig: Pin, echo: Pin): (t: seq<Event>)
    ensures forall e <- t :: (e.SetPull? || e.DigitalWrite?) ==> e.pin == trig
    ensures |t| > 1 && t[0] == SetPull(trig, PullNone)
    ensures t[|t| - 1] == PulseIn(echo, High, EchoTimeoutUs)
    ensures forall i :: 0 <= i < |t| - 1 ==> !t[i].PulseIn? && !t[i].AnalogWrite? && !t[i].SetPeriod?
  {
    [SetPull(trig, PullNone),
     DigitalWrite(trig, 0), WaitMicros(TriggerSettleUs),
     DigitalWrite(trig, 1), WaitMicros(TriggerPulseUs),
     DigitalWrite(trig, 0),
     PulseIn(echo, High, EchoTimeoutUs)]
  }

  /** A ranging: the driver calls issued and the distance reported. */
  datatype Reading = Reading(trace: seq<Event>, cm: real)

  /** `ultrasonicCM`, given the duration `pulseIn` reports (0 on timeout):
      the distance is that duration over 58, or 0 when that is not positive,
      and never negative. The trigger pin is held low for 2 µs and high for
      10 µs, and the echo is measured last, with a 30000 µs bound. */
  function UltrasonicCM(cfg: Config, echoUs: int): (r: Reading)
    ensures 0.0 <= r.cm
    ensures echoUs <= 0 ==> r.cm == 0.0
    ensures 0 < echoUs ==> r.cm * EchoUsPerCm == echoUs as real
    ensures |r.trace| > 0 && r.trace[|r.trace| - 1] == PulseIn(cfg.usEcho, High, EchoTimeoutUs)
    ensures forall i :: 0 <= i < |r.trace| - 1 ==> !r.trace[i].PulseIn?
    ensures forall level :: Waveform(r.trace, cfg.usTrig, level)
                            == [Segment(0, TriggerSettleUs), Segment(1, TriggerPulseUs)]
  {
    var t := TriggerTrace(cfg.usTrig, cfg.usEcho);
    TriggerWaveform(cfg.usTrig, cfg.usEcho);
    Reading(t, EchoCm(echoUs))
  }

  /** Whatever level the trigger pin starts at, the trace drives it low for
      2 µs and then high for 10 µs. */
  lemma TriggerWaveform(trig: Pin, echo: Pin)
    ensures forall level :: Waveform(TriggerTrace(trig, echo), trig, level)
                            == [Segment(0, TriggerSettleUs), Segment(1, TriggerPulseUs)]
  {
    var t := TriggerTrace(trig, echo);
    forall level: Bit
      ensures Waveform(t, trig, level) == [Segment(0, TriggerSettleUs), Segment(1, TriggerPulseUs)]
    {
      var t6 := [PulseIn(echo, High, EchoTimeoutUs)];
      var t5 := [DigitalWrite(trig, 0)] + t6;
      var t4 := [WaitMicros(TriggerPulseUs)] + t5;
      var t3 := [DigitalWrite(trig, 1)] + t4;
      var t2 := [WaitMicros(TriggerSettleUs)] + t3;
      var t1 := [DigitalWrite(trig, 0)] + t2;
      assert t == [SetPull(trig, PullNone)] + t1;
      assert t[1..] == t1 && t1[1..] == t2 && t2[1..] == t3 && t3[1..] == t4;
      assert t4[1..] == t5 && t5[1..] == t6 && t6[1..] == [];
      assert Waveform(t6, trig, 0) == [];
      assert Waveform(t4, trig, 1) == [Segment(1, TriggerPulseUs)];
      assert Waveform(t2, trig, 0) == [Segment(0, TriggerSettleUs), Segment(1, TriggerPulseUs)];
    }
  }

  /** The trigger leaves its pin with no pull resistor and driven low, and
      changes nothing on any other pin; the echo measurement writes nothing. */
  lemma TriggerEffect(cfg: Config, s: PinState)
    ensures var r := Exec(s, UltrasonicCM(cfg, 0).trace);
            && r.pull == s.pull[cfg.usTrig := PullNone]
            && r.digital == s.digital[cfg.usTrig := 0]
            && r.period == s.period && r.duty == s.duty
  {
    var trig, echo := cfg.usTrig, cfg.usEcho;
    var t := TriggerTrace(trig, echo);
    var tail := [DigitalWrite(trig, 1), WaitMicros(TriggerPulseUs), DigitalWrite(trig, 0),
                 PulseIn(echo, High, EchoTimeoutUs)];
    assert t == [SetPull(trig, PullNone), DigitalWrite(trig, 0), WaitMicros(TriggerSettleUs)] + tail;
    ExecAppend(s, [SetPull(trig, PullNone), DigitalWrite(trig, 0), WaitMicros(TriggerSettleUs)], tail);
    ExecThree(s, SetPull(trig, PullNone), DigitalWrite(trig, 0), WaitMicros(TriggerSettleUs));
    var mid := Exec(s, [SetPull(trig, PullNone), DigitalWrite(trig, 0), WaitMicros(TriggerSettleUs)]);
    ExecAppend(mid, [DigitalWrite(trig, 1), WaitMicros(TriggerPulseUs), DigitalWrite(trig, 0)],
               [PulseIn(echo, High, EchoTimeoutUs)]);
    assert tail == [DigitalWrite(trig, 1), WaitMicros(TriggerPulseUs), DigitalWrite(trig, 0)]
                   + [PulseIn(echo, High, EchoTimeoutUs)];
    ExecThree(mid, DigitalWrite(trig, 1), WaitMicros(TriggerPulseUs), DigitalWrite(trig, 0));
    var last := Exec(mid, [DigitalWrite(trig, 1), WaitMicros(TriggerPulseUs), DigitalWrite(trig, 0)]);
    assert [PulseIn(echo, High, EchoTimeoutUs)][1..] == [];
    assert Exec(last, [PulseIn(echo, High, EchoTimeoutUs)]) == last;
  }

  /** A timed-out echo reads 0 cm, a 580 µs echo reads 10 cm, and a longer
      echo never reads a shorter distance. */
  lemma DistanceReadings(cfg: Config, a: int, b: int)
    requires a <= b
    ensures UltrasonicCM(cfg, 0).cm == 0.0
    ensures UltrasonicCM(cfg, 580).cm == 10.0
    ensures UltrasonicCM(cfg, a).cm <= UltrasonicCM(cfg, b).cm
    ensures UltrasonicCM(cfg, a).trace == UltrasonicCM(cfg, b).trace
  {
    EchoCmMonotone(a, b);
  }
}
