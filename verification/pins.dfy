/** The abstract pin driver the extension writes to. Every driver call the
    extension makes (`pins.setPull`, `pins.digitalWritePin`,
    `pins.analogSetPeriod`, `pins.analogWritePin`, `control.waitMicros`,
    `pins.pulseIn`) is an Event; a command is the ordered trace of its events,
    and the pins' outputs are the state that folding the trace leaves. */
module Pins {

  /** A physical edge-connector pin, by number (P0 is Pin(0)). */
  datatype Pin = Pin(id: nat)

  /** A digital level as `digitalWritePin` takes it. */
  type Bit = b: int | 0 <= b <= 1

  datatype PullMode = PullNone | PullDown | PullUp

  datatype PulseValue = High | Low

  datatype Event =
    | SetPull(pin: Pin, mode: PullMode)
    | DigitalWrite(pin: Pin, level: Bit)
    | SetPeriod(pin: Pin, periodUs: nat)
    | AnalogWrite(pin: Pin, duty: real)
    | WaitMicros(us: nat)
    | PulseIn(pin: Pin, value: PulseValue, timeoutUs: nat)

  /** The last value each pin was given through each kind of write; a pin
      absent from a map has not been written that way. */
  datatype PinState = PinState(
    pull: map<Pin, PullMode>,
    digital: map<Pin, Bit>,
    period: map<Pin, nat>,
    duty: map<Pin, real>)

  const Untouched: PinState := PinState(map[], map[], map[], map[])

  /** s with every entry that w holds written over it. */
  function Overlay(s: PinState, w: PinState): PinState
  {
    PinState(s.pull + w.pull, s.digital + w.digital, s.period + w.period, s.duty + w.duty)
  }

  /** The effect of one driver call. Waiting and measuring write nothing. */
  function Step(s: PinState, e: Event): PinState
  {
    match e
    case SetPull(p, m) => s.(pull := s.pull[p := m])
    case DigitalWrite(p, b) => s.(digital := s.digital[p := b])
    case SetPeriod(p, us) => s.(period := s.period[p := us])
    case AnalogWrite(p, d) => s.(duty := s.duty[p := d])
    case WaitMicros(_) => s
    case PulseIn(_, _, _) => s
  }

  /** The effect of a trace of driver calls, issued in order. */
  function Exec(s: PinState, t: seq<Event>): PinState
    decreases |t|
  {
    if |t| == 0 then s else Exec(Step(s, t[0]), t[1..])
  }

  lemma StepIsOverlay(s: PinState, e: Event)
    ensures Step(s, e) == Overlay(s, Step(Untouched, e))
  {
  }

  lemma UnionAssociative<K, V>(a: map<K, V>, b: map<K, V>, c: map<K, V>)
    ensures (a + b) + c == a + (b + c)
  {
  }

  lemma OverlayAssociative(a: PinState, b: PinState, c: PinState)
    ensures Overlay(Overlay(a, b), c) == Overlay(a, Overlay(b, c))
  {
    UnionAssociative(a.pull, b.pull, c.pull);
    UnionAssociative(a.digital, b.digital, c.digital);
    UnionAssociative(a.period, b.period, c.period);
    UnionAssociative(a.duty, b.duty, c.duty);
  }

  /** Last write wins: running a trace from any state writes over that state
      exactly what running it from the untouched state produces. */
  lemma {:induction false} ExecIsOverlay(s: PinState, t: seq<Event>)
    ensures Exec(s, t) == Overlay(s, Exec(Untouched, t))
    decreases |t|
  {
    if |t| == 0 {
      assert Exec(Untouched, t) == Untouched;
      assert Overlay(s, Untouched) == s;
    } else {
      var e0 := Step(Untouched, t[0]);
      var rest := Exec(Untouched, t[1..]);
      ExecIsOverlay(Step(s, t[0]), t[1..]);
      ExecIsOverlay(e0, t[1..]);
      StepIsOverlay(s, t[0]);
      OverlayAssociative(s, e0, rest);
    }
  }

  /** Issuing the same trace twice leaves the pins as issuing it once. */
  lemma ExecIdempotent(s: PinState, t: seq<Event>)
    ensures Exec(Exec(s, t), t) == Exec(s, t)
  {
    var w := Exec(Untouched, t);
    ExecIsOverlay(s, t);
    ExecIsOverlay(Exec(s, t), t);
    OverlayAssociative(s, w, w);
    assert Overlay(w, w) == w;
  }

  /** Issuing two traces one after the other is issuing their concatenation. */
  lemma {:induction false} ExecAppend(s: PinState, t: seq<Event>, u: seq<Event>)
    ensures Exec(s, t + u) == Exec(Exec(s, t), u)
    decreases |t|
  {
    if |t| == 0 {
      assert t + u == u;
    } else {
      assert (t + u)[1..] == t[1..] + u;
      ExecAppend(Step(s, t[0]), t[1..], u);
    }
  }

  lemma ExecTwo(s: PinState, a: Event, b: Event)
    ensures Exec(s, [a, b]) == Step(Step(s, a), b)
  {
    var t := [a, b];
    assert t[1..] == [b] && [b][1..] == [];
    calc {
      Exec(s, t);
      Exec(Step(s, a), [b]);
      Exec(Step(Step(s, a), b), []);
    }
  }

  lemma ExecThree(s: PinState, a: Event, b: Event, c: Event)
    ensures Exec(s, [a, b, c]) == Step(Step(Step(s, a), b), c)
  {
    assert [a, b, c][1..] == [b, c];
    ExecTwo(Step(s, a), b, c);
  }

  // ------------------------------------------------------- trace readings

  /** The two writes agree on pin p: both leave it unwritten, or both hold
      the same value. */
  predicate SameEntry<V(==)>(a: map<Pin, V>, b: map<Pin, V>, p: Pin)
  {
    (p in a <==> p in b) && (p in a ==> a[p] == b[p])
  }

  /** Pin p is in the same state in s and r, for every kind of write. */
  predicate SameAt(s: PinState, r: PinState, p: Pin)
  {
    SameEntry(s.pull, r.pull, p) && SameEntry(s.digital, r.digital, p)
    && SameEntry(s.period, r.period, p) && SameEntry(s.duty, r.duty, p)
  }

  /** A stretch of time during which a pin holds one level. */
  datatype Segment = Segment(level: Bit, us: nat)

  /** The waveform a trace drives on a pin: one segment per wait, carrying
      the level the pin holds during that wait, starting from `level`. */
  function Waveform(t: seq<Event>, pin: Pin, level: Bit): seq<Segment>
    decreases |t|
  {
    if |t| == 0 then []
    else match t[0]
      case DigitalWrite(p, b) => Waveform(t[1..], pin, if p == pin then b else level)
      case WaitMicros(us) => [Segment(level, us)] + Waveform(t[1..], pin, level)
      case _ => Waveform(t[1..], pin, level)
  }
}
