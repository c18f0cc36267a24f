/** The ATmega328P registers that the passthrough program reads and writes, and
    the converter hardware's side of an analog-to-digital conversion. Registers
    are 8-bit; the program's `unsigned int` is 16-bit on this target. */
module Avr {

  /** The program's `unsigned int`, 16 bits wide on this target. */
  type Word = x: int | 0 <= x < 0x1_0000

  /** A 10-bit converter output. */
  type AdcSample = s: bv16 | s < 1024

  /** Bit positions in ADCSRA (ADC control and status register A). */
  const ADEN: nat := 7    // converter enable
  const ADSC: nat := 6    // start conversion; reads one while a conversion runs
  const ADATE: nat := 5   // auto-trigger enable
  const ADIF: nat := 4    // conversion-complete flag
  const ADIE: nat := 3    // conversion-complete interrupt enable

  /** Bit position in ADMUX of the left-adjust-result selector. */
  const ADLAR: nat := 5

  /** Bit k of x as 0 or 1, the way the program samples a pin: `(x >> k) & 1`. */
  function Bit(x: bv8, k: nat): (b: bv8)
    requires k < 8
    ensures b <= 1
    ensures b == 1 <==> x & (1 << k) != 0
  {
    (x >> k) & 1
  }

  /** The value ADCSRA reads back after the CPU stores v into it while it read
      cur. ADIF is cleared by writing a one to it and left alone by writing a
      zero; writing a zero to ADSC does not stop a conversion that is running;
      every other bit takes the stored value. This covers stores that keep ADEN
      set, as both of the program's stores do; a store that clears ADEN would
      also end a running conversion, which is not modelled. */
  function AdcsraAfterStore(cur: bv8, v: bv8): (r: bv8)
    ensures Bit(r, ADIF) == (if Bit(v, ADIF) == 1 then 0 else Bit(cur, ADIF))
    ensures Bit(r, ADSC) == (if Bit(v, ADSC) == 1 then 1 else Bit(cur, ADSC))
    ensures r & 0xAF == v & 0xAF
  {
    (v & 0xAF) | ((v | cur) & 0x40) | (cur & !v & 0x10)
  }

  /** ADCL and ADCH once a conversion has produced sample. Right-adjusted, ADCL
      holds bits 7-0 and ADCH bits 9-8; left-adjusted, ADCH holds bits 9-2 and
      ADCL holds bits 1-0 in its top two positions. */
  function DataRegisters(sample: AdcSample, leftAdjust: bool): (regs: (bv8, bv8))
    ensures !leftAdjust ==> regs.1 <= 3 && regs.0 as int + 256 * regs.1 as int == sample as int
    ensures leftAdjust ==> regs.0 & 0x3F == 0 && 4 * regs.1 as int + regs.0 as int / 64 == sample as int
  {
    if leftAdjust then (((sample << 6) & 0xFF) as bv8, (sample >> 2) as bv8)
    else ((sample & 0xFF) as bv8, (sample >> 8) as bv8)
  }

  /** The register file. Port and direction registers are plain storage; PIND
      and PINB hold the levels the outside world drives onto the pins; ADCSRA
      follows AdcsraAfterStore when the program stores to it. */
  class Device {
    var ddrb: bv8
    var ddrd: bv8
    var portb: bv8
    var portd: bv8
    var pinb: bv8
    var pind: bv8
    var adcsra: bv8
    var admux: bv8
    var adcl: bv8
    var adch: bv8

    /** Power-on reset: every register reads zero except the pin levels. */
    constructor (pind0: bv8, pinb0: bv8)
      ensures ddrb == 0 && ddrd == 0 && portb == 0 && portd == 0
      ensures adcsra == 0 && admux == 0 && adcl == 0 && adch == 0
      ensures pind == pind0 && pinb == pinb0
    {
      ddrb, ddrd, portb, portd := 0, 0, 0, 0;
      adcsra, admux, adcl, adch := 0, 0, 0, 0;
      pind, pinb := pind0, pinb0;
    }

    /** The outside world changes the levels on the pins. */
    method DrivePins(pind1: bv8, pinb1: bv8)
      modifies this`pind, this`pinb
      ensures pind == pind1 && pinb == pinb1
    {
      pind, pinb := pind1, pinb1;
    }

    /** A CPU store into ADCSRA. */
    method StoreAdcsra(v: bv8)
      modifies this`adcsra
      ensures adcsra == AdcsraAfterStore(old(adcsra), v)
    {
      adcsra := AdcsraAfterStore(adcsra, v);
    }

    /** The hardware ends a conversion that some earlier request started: ADSC
        drops and ADIF rises. The data that conversion latches is not modelled:
        the registers keep their values. */
    method FinishPendingConversion()
      modifies this`adcsra
      ensures Bit(adcsra, ADSC) == 0 && Bit(adcsra, ADIF) == 1
      ensures adcsra & 0xAF == old(adcsra) & 0xAF
    {
      adcsra := (adcsra & 0xBF) | 0x10;
    }

    /** The hardware ends the running conversion with result sample: the data
        registers take it in the layout ADMUX selects, ADSC drops and ADIF rises. */
    method CompleteConversion(sample: AdcSample)
      modifies this`adcsra, this`adcl, this`adch
      ensures (adcl, adch) == DataRegisters(sample, Bit(admux, ADLAR) == 1)
      ensures Bit(adcsra, ADSC) == 0 && Bit(adcsra, ADIF) == 1
      ensures adcsra & 0xAF == old(adcsra) & 0xAF
    {
      adcsra := (adcsra & 0xBF) | 0x10;
      var regs := DataRegisters(sample, Bit(admux, ADLAR) == 1);
      adcl, adch := regs.0, regs.1;
    }
  }
}
