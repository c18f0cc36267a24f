# passthru: a Dafny model of the Pololu 3pi signal passthrough

`passthru/passthru.c` runs on the ATmega328P of a Pololu 3pi robot and lets
an external board drive the robot. It takes four motor command lines on the
input pins PD0, PB1, PB4 and PB5 and passes them to the robot's own motor
driver on PD5, PD6, PD3 and PB3. It also turns the five line sensors into
on/off decisions and puts them out on PD7, PD1, PD2, PD4 and PB0 for the
external board to read. At start-up it sets the pin directions and the
pull-ups. Then it loops forever. Each iteration:

- samples the four motor control lines M1A, M1B, M2A and M2B from PIND and PINB;
- reads the five line sensors;
- reads the trimpot through the analog-to-digital converter (`read_trimpot`);
- gives each sensor a decision: its count shifted right by two, compared
  strictly against the trimpot;
- packs the decisions and motor lines into PORTD and PORTB at fixed bit positions.

The model has three modules:

- `Avr` (`registers.dfy`) is the register file, a `Device` class with one
  `bv8` field per register. It also holds the hardware's side of the
  converter: what a store to ADCSRA does, and what ADCL and ADCH hold after
  a conversion.
- `Adc` (`adc.dfy`) is `read_trimpot`. It covers the meaning of its
  configuration constants and the assembly of the 10-bit result.
- `Passthru` (`passthru.dfy`) is `main`. It has the pure pieces: motor
  sampling, the decisions, and the packing of PORTD and PORTB with their
  inverse. It also has the imperative ones: `Setup`, the `sensor_bool` loop,
  one loop iteration `Step`, and a bounded `Run`.

Registers are `bv8`. The program's `unsigned int` is 16 bits wide on this
target and appears in two forms:

- The sensor counts, the trimpot reading and the decisions use `Word`, an
  integer in `[0, 65536)`. On such a value C's `x >> 2` is the floor of
  `x / 4`, and the model writes it that way. The solver cannot relate the
  order of 16-bit bitvectors to the order of integers at an acceptable cost,
  and the decisions are comparisons.
- The converter's sample (`AdcSample`, below 1024) and the assembled result
  (`Adc.AdcResult`) are `bv16`, because they are built from register bytes
  by shifts and ORs. `Adc.ReadTrimpot` returns the result as a `Word`.

A store to ADCSRA follows the ATmega328P's rules:

- writing a one to ADIF clears it;
- writing a zero to ADIF leaves it unchanged;
- writing a zero to ADSC does not stop a running conversion.

So the plain store `ADCSRA = 0x87` leaves standing a completion flag raised
by the previous call (`Adc.ConfigStoreKeepsStaleFlag`). The read-modify-write
`ADCSRA |= 1 << ADSC` writes that flag back as a one, which clears it
(`Adc.StartClearsStaleFlag`). This is why the wait for ADIF waits for the
conversion just started. `Adc.ReadTrimpot` relies on it to prove that it
returns exactly that conversion's sample.

The pin map in the comment at `passthru/passthru.c:37-50` matches the code pin
for pin. The code reads M1A, M1B, M2A and M2B on PD0, PB1, PB4 and PB5 (lines
81-84). It writes LS1 to LS5 to PD7, PD1, PD2, PD4 and PB0 (lines 98 and 101).
The one thing open to misreading is the arrow on the motor rows, which names
the pin a line is read from, not where it goes. The code writes the motor lines
to PD5, PD6, PD3 and PB3, the motor-driver inputs of the comment at lines
16-28. The pull-ups on the input pins make the robot brake when nothing drives
them (line 70). The model follows the stores at lines 98 and 101: PORTD bits 7 to 1 carry sensor 0, M1B, M1A, sensor 3, M2A,
sensor 2 and sensor 1, and bit 0 is always 1. PORTB carries sensor 4 on bit 0
and M2B on bit 3. Its bits 1, 4 and 5 are always 1 and all its other bits are 0.
The converter reference is AVCC: the code stores ADMUX bits 7-6 = 01.
Bits 7-6 = 00 would select the external AREF pin instead.

## Model

| member | source | states |
|---|---|---|
| `Avr.Bit` | passthru/passthru.c:81-84 | the shift-and-mask sample `(x >> k) & 1` is 0 or 1, and is 1 exactly when bit k of x is set |
| `Avr.AdcsraAfterStore` | passthru/passthru.c:132 | after a store to ADCSRA: ADIF is cleared by a written one and kept by a written zero; ADSC is set by a written one and kept by a written zero; every other bit takes the stored value |
| `Avr.DataRegisters` | passthru/passthru.c:126 | right-adjusted, ADCL + 256·ADCH is the sample and ADCH ≤ 3; left-adjusted, 4·ADCH + ADCL/64 is the sample and ADCL's low six bits are 0 |
| `Avr.Device.constructor` | passthru/passthru.c:52-62 | the ATmega328P reset state: every register modelled here is 0, and the pins are at the given levels. `Passthru.Run` does not rely on it: it starts from any register state |
| `Avr.Device.DrivePins` | passthru/passthru.c:81-84 | the outside world sets the levels PIND and PINB read, and nothing else changes |
| `Avr.Device.StoreAdcsra` | passthru/passthru.c:122 | a CPU store to ADCSRA follows AdcsraAfterStore |
| `Avr.Device.FinishPendingConversion` | passthru/passthru.c:113 | the event the first wait waits for: ADSC drops, ADIF rises, the other ADCSRA bits stay |
| `Avr.Device.CompleteConversion` | passthru/passthru.c:133 | the event the second wait waits for: ADSC drops, ADIF rises, the data registers take the sample in the layout ADMUX bit 5 selects |
| `Adc.ReferenceOf` | passthru/passthru.c:124-125 | ADMUX bits 7-6 select AVCC exactly when they are 01 |
| `Adc.ChannelOf` | passthru/passthru.c:128 | the channel is ADMUX bits 3-0, below 16 |
| `Adc.PrescalerOf` | passthru/passthru.c:121 | the clock divider is between 2 and 128, and is 128 exactly when ADCSRA bits 2-0 are 111 |
| `Adc.TrimpotConfiguration` | passthru/passthru.c:115-129 | 0x47 selects channel 7, AVCC and right adjustment; 0x87 enables the converter with ADSC, auto-trigger and interrupt off and the largest divider any setting gives |
| `Adc.AdcResult` | passthru/passthru.c:134 | the OR of ADCL and ADCH shifted left by 8 equals ADCL + 256·ADCH; its low byte is ADCL and its high byte ADCH; it is at most 1023 when ADCH ≤ 3 |
| `Adc.ResultRoundTrip` | passthru/passthru.c:134 | assembling the right-adjusted data registers returns the converted sample |
| `Adc.LeftAdjustedMisreads` | passthru/passthru.c:126 | with left adjustment the same assembly would read sample 1 as 64 |
| `Adc.ConfigStoreKeepsStaleFlag` | passthru/passthru.c:122 | storing 0x87 leaves an earlier completion flag set |
| `Adc.StartClearsStaleFlag` | passthru/passthru.c:122-133 | from an idle converter, the store of 0x87 followed by the ADSC read-modify-write leaves ADIF clear and ADSC set, whatever ADIF was, with the configuration bits of 0x87 |
| `Adc.ReadTrimpot` | passthru/passthru.c:108-136 | returns exactly the converted sample; afterwards ADMUX is 0x47, ADCSRA 0x97 (enabled, idle, flag set, divider 128) and the data registers hold the sample right-adjusted |
| `Passthru.Motors` | passthru/passthru.c:81-84 | each motor sample is 0 or 1; M1A is 1 exactly when PD0 is high, M1B when PB1 is, M2A when PB4 is, M2B when PB5 is |
| `Passthru.Decide` | passthru/passthru.c:94 | a decision is 0 or 1, and is 1 exactly when the raw count is at least 4·trimpot + 4 |
| `Passthru.DecideAll` | passthru/passthru.c:91-95 | all five decisions are bits, and decision i is 1 exactly when sensor i is at least 4·trimpot + 4 |
| `Passthru.DecideIsStrict` | passthru/passthru.c:94 | a shifted count equal to the trimpot gives 0 |
| `Passthru.DecisionIsPerSensor` | passthru/passthru.c:91-95 | decision i depends on sensor i only: two readings that agree on sensor i give the same decision i |
| `Passthru.Threshold` | passthru/passthru.c:91-95 | the in-place loop over the five-entry buffer yields DecideAll of the readings |
| `Passthru.PackD` | passthru/passthru.c:98 | PORTD bit 0, the PD0 pull-up, is set for every input |
| `Passthru.PackB` | passthru/passthru.c:101 | the PORTB pull-up bits 1, 4 and 5 are set for every input |
| `Passthru.Unpack` | passthru/passthru.c:98-101 | reading the signals back from PORTD and PORTB yields single bits |
| `Passthru.PortDLayout` | passthru/passthru.c:98 | PORTD bits 7..0 read back sensor 0, M1B, M1A, sensor 3, M2A, sensor 2, sensor 1 and 1 |
| `Passthru.PortBLayout` | passthru/passthru.c:101 | PORTB bit 0 reads back sensor 4, bit 3 M2B; bits 1, 4, 5 are 1; bit 2 (buzzer), 6 and 7 are 0 |
| `Passthru.UnpackPack` | passthru/passthru.c:98-101 | unpacking the two port values an iteration writes returns its decisions and motor lines |
| `Passthru.PackUnpack` | passthru/passthru.c:98-101 | every port pair with the constant bits in place is what the iteration with the unpacked signals writes |
| `Passthru.PackIsInjective` | passthru/passthru.c:98-101 | two iterations that write the same port values had the same decisions and motor lines |
| `Passthru.PinRoles` | passthru/passthru.c:64-68 | PD0, PB1, PB4, PB5 (the motor lines) are inputs; PD1-PD7, PB0, PB3 and the buzzer PB2 are outputs |
| `Passthru.OnlyOutputsVary` | passthru/passthru.c:67-101 | two iterations' port values differ only on output pins, and on the input pins they hold the start-up pull-ups (PD0; PB1, PB4, PB5) |
| `Passthru.ExampleDecisions` | passthru/passthru.c:91-95 | readings [400, 0, 400, 0, 400] against trimpot 50 give decisions [1, 0, 1, 0, 1] |
| `Passthru.ExampleMotorsOnly` | passthru/passthru.c:98-101 | motor lines (0, 1, 0, 1) with all decisions 0 give PORTD 0x41 and PORTB 0x3A |
| `Passthru.Setup` | passthru/passthru.c:64-72 | DDRD 0xFE, DDRB 0x0D, PORTB 0x32, PORTD gains bit 0; the device is then Configured: those directions, the pull-ups on the input pins, and PORTB's bits other than PB0 and PB3 at 0x32's values |
| `Passthru.Forwarded` | passthru/passthru.c:80-95 | the signals one iteration forwards are bits: the motors sampled from the pins, and decision i is 1 exactly when sensor i is at least 4·trimpot + 4 |
| `Passthru.Step` | passthru/passthru.c:79-102 | one iteration keeps the device Configured, writes PackD/PackB of the forwarded signals, so that the ports read back exactly those signals, and leaves the converter as ReadTrimpot does |
| `Passthru.Run` | passthru/passthru.c:52-103 | start-up followed by finitely many iterations leaves the device Configured (pin directions, pull-ups, PORTB's fixed bits), with the buzzer PB2 low and PORTD/PORTB equal to PackD/PackB of the last iteration's signals, which they read back as |

## Left out

- `pololu_3pi_init(5000)` is a call into the Pololu library and is not modelled. The timing budget it configures has no logical content here. The model assumes the call leaves DDRD, DDRB, PORTD and PORTB as the set-up stores left them: `Passthru.Run` goes from `Passthru.Setup` straight into the loop. No such assumption is made about ADCSRA and ADMUX, because `Adc.ReadTrimpot` works from any converter state.
- `read_line_sensors` is a call into the Pololu library. Its five counts are a parameter of `Passthru.Step`: any five 16-bit values. The model assumes the call does not touch DDRD, DDRB, PORTD or PORTB (`Passthru.Step` requires `Passthru.Configured`). It makes no such assumption about ADCSRA and ADMUX, which `Adc.ReadTrimpot` works from in any state.
- The infinite `while(1)` is not modelled. `Passthru.Run` runs start-up and then one `Step` per supplied frame.
- No timing is modelled for the two busy-waits in `read_trimpot`. Each loop's body is the hardware event it waits for, so each runs at most once. Whether real hardware finishes in bounded time is a hardware question.
- Avr.Device.FinishPendingConversion: a conversion that was already running at entry only clears ADSC and sets ADIF. The data it latches is not modelled, because the trimpot conversion overwrites it.
- Avr.AdcsraAfterStore: covers stores that keep ADEN set, as both of the program's stores do (0x87 and the OR with ADSC). A store that clears ADEN also ends a running conversion on the ATmega328P; the model does not capture that.
- Passthru.Motors: the source reads PIND once and the volatile PINB three separate times (lines 82-84), so on the device M1B, M2A and M2B can come from different instants if a line changes between the reads. The model takes one snapshot of PIND and PINB per iteration and assumes the inputs steady for the whole iteration: pins change only through `DrivePins`, between iterations.
- Which PIN bits read back an output pin's own level is electrical behaviour and is not modelled. PIND and PINB are whatever `DrivePins` last set.
- Adc.ReadTrimpot: the order of the two data-register reads is not modelled, and neither is the ATmega328P's data-register lock. Reading ADCL blocks updates to ADCL and ADCH until ADCH is read, so the hardware needs ADCL to be read first. The C source does not fix that order: the operands of `|` at `passthru/passthru.c:134` are unsequenced, so the program relies on the compiler reading ADCL first. The model assumes that order. In the model `Avr.Device.CompleteConversion` always refreshes both registers. If a compiler read ADCH first, the device would stay locked after each call, and every later call would return the first conversion's value. The model does not capture that.
- C's integer promotion in `ADCH << 8` is not modelled. The shift happens in a 16-bit signed `int` and would overflow for ADCH ≥ 128. A right-adjusted 10-bit result has ADCH ≤ 3, so this cannot arise.
- `sensor_bool` is modelled as a local buffer of `Passthru.Threshold`. In the source it lives across iterations, but every iteration overwrites all five entries before reading them.
- Electrical behaviour is not modelled: what pull-ups do, IR emitter timing, analog noise.
