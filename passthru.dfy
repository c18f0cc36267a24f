/** The passthrough controller, `main`: pin set-up, then on every iteration
    sample the motor control lines, compare each line sensor against the
    trimpot and write the decisions and motor lines to PORTD and PORTB. */
module Passthru {
  import opened Avr
  import opened Adc

  /** Pin directions set at start-up (bit set: output). PD0 is an input,
      PD1-PD7 are outputs; PB0, PB2 and PB3 are outputs, the rest inputs. */
  const DDRD_SETUP: bv8 := 0xFE
  const DDRB_SETUP: bv8 := 0x0D

  /** PORTB at start-up and the constant part of every PORTB write: pull-ups
      on PB1, PB4 and PB5, buzzer (PB2) low. */
  const PORTB_PULLUPS: bv8 := 0x32

  /** The PORTB bits no iteration varies: all but PB0 and PB3. */
  const PORTB_FIXED: bv8 := 0xF6

  /** The pull-up on PD0. */
  const PORTD_PULLUPS: bv8 := 0x01

  /** Number of line sensors. */
  const SENSOR_COUNT: nat := 5

  /** The four sampled motor control lines, each 0 or 1 once sampled. */
  datatype MotorState = MotorState(m1a: bv8, m1b: bv8, m2a: bv8, m2b: bv8)

  /** What the two output ports carry: the five sensor decisions and the four
      motor lines. */
  datatype Signals = Signals(sensorBool: seq<bv8>, motors: MotorState)

  predicate MotorBits(m: MotorState) {
    m.m1a <= 1 && m.m1b <= 1 && m.m2a <= 1 && m.m2b <= 1
  }

  predicate DecisionBits(sensorBool: seq<bv8>) {
    |sensorBool| == SENSOR_COUNT && forall i :: 0 <= i < |sensorBool| ==> sensorBool[i] <= 1
  }

  /** Signals whose every entry is a single bit: what one iteration produces. */
  predicate WellFormed(s: Signals) {
    DecisionBits(s.sensorBool) && MotorBits(s.motors)
  }

  /** Motor sampling: M1A from PD0, M1B from PB1, M2A from PB4, M2B from PB5. */
  function Motors(pind: bv8, pinb: bv8): (m: MotorState)
    ensures MotorBits(m)
    ensures m.m1a == 1 <==> pind & 0x01 != 0
    ensures m.m1b == 1 <==> pinb & 0x02 != 0
    ensures m.m2a == 1 <==> pinb & 0x10 != 0
    ensures m.m2b == 1 <==> pinb & 0x20 != 0
  {
    MotorState(Bit(pind, 0), Bit(pinb, 1), Bit(pinb, 4), Bit(pinb, 5))
  }

  /** One sensor decision: the raw count shifted right by two, compared
      strictly against the trimpot reading. */
  function Decide(sensor: Word, trimpot: Word): (d: bv8)
    ensures d <= 1
    ensures d == 1 <==> sensor >= 4 * trimpot + 4
  {
    // C's `>>` on an unsigned operand is the floor of the quotient by 2^2.
    if sensor / 4 > trimpot then 1 else 0
  }

  /** All five decisions, entry i from sensor i alone. */
  function DecideAll(sensors: seq<Word>, trimpot: Word): (sensorBool: seq<bv8>)
    requires |sensors| == SENSOR_COUNT
    ensures DecisionBits(sensorBool)
    ensures forall i :: 0 <= i < SENSOR_COUNT ==>
              (sensorBool[i] == 1 <==> sensors[i] >= 4 * trimpot + 4)
  {
    seq(SENSOR_COUNT, i requires 0 <= i < SENSOR_COUNT => Decide(sensors[i], trimpot))
  }

  /** Equality of the shifted count and the trimpot gives 0. */
  lemma DecideIsStrict(sensor: Word, trimpot: Word)
    requires sensor / 4 == trimpot
    ensures Decide(sensor, trimpot) == 0
  {
  }

  /** No coupling between sensors: decision i is the same for any two readings
      that agree on sensor i. */
  lemma DecisionIsPerSensor(sensors: seq<Word>, others: seq<Word>, trimpot: Word, i: nat)
    requires |sensors| == SENSOR_COUNT && |others| == SENSOR_COUNT
    requires i < SENSOR_COUNT && sensors[i] == others[i]
    ensures DecideAll(sensors, trimpot)[i] == DecideAll(others, trimpot)[i]
  {
  }

  /** The `sensor_bool` loop: fills the five-entry buffer in place. */
  method Threshold(sensors: seq<Word>, trimpot: Word) returns (sensorBool: seq<bv8>)
    requires |sensors| == SENSOR_COUNT
    ensures sensorBool == DecideAll(sensors, trimpot)
  {
    var buffer := new bv8[SENSOR_COUNT] [0, 0, 0, 0, 0];
    for i := 0 to SENSOR_COUNT
      invariant forall j :: 0 <= j < i ==> buffer[j] == Decide(sensors[j], trimpot)
    {
      buffer[i] := Decide(sensors[i], trimpot);
    }
    sensorBool := buffer[..];
  }

  /** The PORTD value of one iteration. Bit 0 is always set. */
  function PackD(sensorBool: seq<bv8>, m: MotorState): (d: bv8)
    requires |sensorBool| == SENSOR_COUNT
    ensures d & PORTD_PULLUPS == PORTD_PULLUPS
  {
    (sensorBool[0] << 7) | (m.m1b << 6) | (m.m1a << 5) | (sensorBool[3] << 4)
      | (m.m2a << 3) | (sensorBool[2] << 2) | (sensorBool[1] << 1) | 1
  }

  /** The PORTB value of one iteration. The pull-up bits are always set. */
  function PackB(sensorBool: seq<bv8>, m: MotorState): (b: bv8)
    requires |sensorBool| == SENSOR_COUNT
    ensures b & PORTB_PULLUPS == PORTB_PULLUPS
  {
    PORTB_PULLUPS | (m.m2b << 3) | (sensorBool[4] << 0)
  }

  /** Reading the signals back from the two port values. */
  function Unpack(portd: bv8, portb: bv8): (s: Signals)
    ensures WellFormed(s)
  {
    Signals([Bit(portd, 7), Bit(portd, 1), Bit(portd, 2), Bit(portd, 4), Bit(portb, 0)],
            MotorState(Bit(portd, 5), Bit(portd, 6), Bit(portd, 3), Bit(portb, 3)))
  }

  /** The PORTD layout, bit by bit from 7 down to 0: sensor 0, M1B, M1A,
      sensor 3, M2A, sensor 2, sensor 1, and the PD0 pull-up. */
  lemma PortDLayout(s: Signals)
    requires WellFormed(s)
    ensures var d := PackD(s.sensorBool, s.motors);
            Bit(d, 7) == s.sensorBool[0] && Bit(d, 6) == s.motors.m1b && Bit(d, 5) == s.motors.m1a
            && Bit(d, 4) == s.sensorBool[3] && Bit(d, 3) == s.motors.m2a
            && Bit(d, 2) == s.sensorBool[2] && Bit(d, 1) == s.sensorBool[1] && Bit(d, 0) == 1
  {
  }

  /** The PORTB layout: sensor 4 on bit 0, M2B on bit 3, the pull-ups on bits
      1, 4 and 5, and bits 2 (the buzzer), 6 and 7 low. */
  lemma PortBLayout(s: Signals)
    requires WellFormed(s)
    ensures var b := PackB(s.sensorBool, s.motors);
            Bit(b, 0) == s.sensorBool[4] && Bit(b, 3) == s.motors.m2b
            && Bit(b, 1) == 1 && Bit(b, 4) == 1 && Bit(b, 5) == 1
            && Bit(b, 2) == 0 && Bit(b, 6) == 0 && Bit(b, 7) == 0
  {
  }

  /** Reading back what one iteration wrote gives its signals. */
  lemma UnpackPack(s: Signals)
    requires WellFormed(s)
    ensures Unpack(PackD(s.sensorBool, s.motors), PackB(s.sensorBool, s.motors)) == s
  {
  }

  /** Every pair of port values with the constant bits in place is what some
      iteration writes: the one whose signals are read back from them. */
  lemma PackUnpack(portd: bv8, portb: bv8)
    requires portd & PORTD_PULLUPS == PORTD_PULLUPS
    requires portb & PORTB_FIXED == PORTB_PULLUPS
    ensures var s := Unpack(portd, portb);
            PackD(s.sensorBool, s.motors) == portd && PackB(s.sensorBool, s.motors) == portb
  {
  }

  /** Two iterations that write the same ports had the same signals. */
  lemma PackIsInjective(s: Signals, t: Signals)
    requires WellFormed(s) && WellFormed(t)
    requires PackD(s.sensorBool, s.motors) == PackD(t.sensorBool, t.motors)
    requires PackB(s.sensorBool, s.motors) == PackB(t.sensorBool, t.motors)
    ensures s == t
  {
  }

  /** The four motor lines are input pins; every PORT bit an iteration varies is
      an output pin, and so is the buzzer pin it holds low. */
  lemma PinRoles()
    ensures Bit(DDRD_SETUP, 0) == 0
    ensures Bit(DDRB_SETUP, 1) == 0 && Bit(DDRB_SETUP, 4) == 0 && Bit(DDRB_SETUP, 5) == 0
    ensures forall k :: 1 <= k < 8 ==> Bit(DDRD_SETUP, k) == 1
    ensures Bit(DDRB_SETUP, 0) == 1 && Bit(DDRB_SETUP, 3) == 1 && Bit(DDRB_SETUP, 2) == 1
  {
  }

  /** Any two iterations write ports that differ only on output pins: the
      levels on input pins, which select their pull-ups, are the start-up ones. */
  lemma OnlyOutputsVary(s: Signals, t: Signals)
    requires WellFormed(s) && WellFormed(t)
    ensures (PackD(s.sensorBool, s.motors) ^ PackD(t.sensorBool, t.motors)) & !DDRD_SETUP == 0
    ensures (PackB(s.sensorBool, s.motors) ^ PackB(t.sensorBool, t.motors)) & !DDRB_SETUP == 0
    ensures PackD(s.sensorBool, s.motors) & !DDRD_SETUP == PORTD_PULLUPS
    ensures PackB(s.sensorBool, s.motors) & !DDRB_SETUP == PORTB_PULLUPS
  {
  }

  /** Sensor readings [400, 0, 400, 0, 400] against trimpot 50 give decisions
      [1, 0, 1, 0, 1]. */
  lemma ExampleDecisions()
    ensures DecideAll([400, 0, 400, 0, 400], 50) == [1, 0, 1, 0, 1]
  {
  }

  /** Motor lines (0, 1, 0, 1) and no sensor over the threshold. */
  lemma ExampleMotorsOnly()
    ensures PackD([0, 0, 0, 0, 0], MotorState(0, 1, 0, 1)) == 0x41
    ensures PackB([0, 0, 0, 0, 0], MotorState(0, 1, 0, 1)) == 0x3A
  {
  }

  /** The device as start-up leaves it and every iteration keeps it: the pin
      directions, the pull-ups on the input pins, and on PORTB every bit but
      PB0 and PB3 at its start-up value, so the buzzer (PB2) stays low. The
      PORTB pull-up clause follows from the PORTB_FIXED one; it is kept to name
      the input-pin pull-ups the way the PORTD clause does. */
  predicate Configured(dev: Device)
    reads dev
  {
    dev.ddrd == DDRD_SETUP && dev.ddrb == DDRB_SETUP
    && dev.portd & !DDRD_SETUP == PORTD_PULLUPS
    && dev.portb & !DDRB_SETUP == PORTB_PULLUPS
    && dev.portb & PORTB_FIXED == PORTB_PULLUPS
  }

  /** Start-up: pin directions and pull-ups. */
  method Setup(dev: Device)
    modifies dev`ddrd, dev`ddrb, dev`portb, dev`portd
    ensures Configured(dev)
    ensures dev.ddrd == DDRD_SETUP && dev.ddrb == DDRB_SETUP
    ensures dev.portb == PORTB_PULLUPS && dev.portd == old(dev.portd) | PORTD_PULLUPS
  {
    dev.ddrd := DDRD_SETUP;
    dev.ddrb := DDRB_SETUP;
    dev.portb := PORTB_PULLUPS;
    dev.portd := dev.portd | PORTD_PULLUPS;
  }

  /** The signals one iteration forwards, given the pin levels, the line
      sensor reading and the trimpot sample. */
  function Forwarded(pind: bv8, pinb: bv8, sensors: seq<Word>, trimpot: Word): (s: Signals)
    requires |sensors| == SENSOR_COUNT
    ensures WellFormed(s)
    ensures s.motors == Motors(pind, pinb)
    ensures forall i :: 0 <= i < SENSOR_COUNT ==>
              (s.sensorBool[i] == 1 <==> sensors[i] >= 4 * trimpot + 4)
  {
    Signals(DecideAll(sensors, trimpot), Motors(pind, pinb))
  }

  /** One iteration of the loop. The line sensor reading and the trimpot
      sample come from the hardware and are parameters. */
  method Step(dev: Device, sensors: seq<Word>, trimpotSample: AdcSample)
    requires |sensors| == SENSOR_COUNT
    requires Configured(dev)
    modifies dev`portd, dev`portb, dev`adcsra, dev`admux, dev`adcl, dev`adch
    ensures Configured(dev)
    ensures var s := Forwarded(old(dev.pind), old(dev.pinb), sensors, trimpotSample as int);
            dev.portd == PackD(s.sensorBool, s.motors) && dev.portb == PackB(s.sensorBool, s.motors)
    ensures Unpack(dev.portd, dev.portb) == Forwarded(old(dev.pind), old(dev.pinb), sensors, trimpotSample as int)
    ensures dev.admux == ADMUX_TRIMPOT && dev.adcsra == ADCSRA_DONE
    ensures (dev.adcl, dev.adch) == DataRegisters(trimpotSample, false)
  {
    var m := Motors(dev.pind, dev.pinb);
    var trimpot := ReadTrimpot(dev, trimpotSample);
    var sensorBool := Threshold(sensors, trimpot);
    dev.portd := PackD(sensorBool, m);
    dev.portb := PackB(sensorBool, m);
    ghost var s := Signals(sensorBool, m);
    UnpackPack(s);
    OnlyOutputsVary(s, s);
    PortBLayout(s);
  }

  /** What the environment supplies to one iteration: the pin levels, the line
      sensor reading and the trimpot sample. */
  datatype Frame = Frame(pind: bv8, pinb: bv8, sensors: seq<Word>, trimpot: AdcSample)

  /** `main` over finitely many iterations: start-up, then one Step per frame. */
  method Run(dev: Device, frames: seq<Frame>)
    requires forall i :: 0 <= i < |frames| ==> |frames[i].sensors| == SENSOR_COUNT
    modifies dev
    ensures Configured(dev)
    ensures Bit(dev.portb, 2) == 0
    ensures frames != [] ==>
              var f := frames[|frames| - 1];
              var s := Forwarded(f.pind, f.pinb, f.sensors, f.trimpot as int);
              dev.portd == PackD(s.sensorBool, s.motors) && dev.portb == PackB(s.sensorBool, s.motors)
              && Unpack(dev.portd, dev.portb) == s
  {
    Setup(dev);
    for i := 0 to |frames|
      invariant Configured(dev)
      invariant i > 0 ==>
                  var f := frames[i - 1];
                  var s := Forwarded(f.pind, f.pinb, f.sensors, f.trimpot as int);
                  dev.portd == PackD(s.sensorBool, s.motors) && dev.portb == PackB(s.sensorBool, s.motors)
                  && Unpack(dev.portd, dev.portb) == s
    {
      dev.DrivePins(frames[i].pind, frames[i].pinb);
      Step(dev, frames[i].sensors, frames[i].trimpot);
    }
  }
}
