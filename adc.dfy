/** The trimpot driver, `read_trimpot`: configure the converter, start one
    conversion on channel ADC7, wait for it and assemble the 10-bit result. */
module Adc {
  import opened Avr

  /** ADCSRA as `read_trimpot` configures it: enabled, not started, no
      auto-trigger, interrupt disabled, prescaler bits 111. */
  const ADCSRA_CONFIG: bv8 := 0x87

  /** ADMUX as `read_trimpot` configures it: AVCC reference, right-adjusted
      result, channel ADC7. */
  const ADMUX_TRIMPOT: bv8 := 0x47

  /** The converter input the trimpot is wired to. */
  const TRIMPOT_CHANNEL: nat := 7

  /** What ADCSRA reads once a conversion started by `read_trimpot` is over. */
  const ADCSRA_DONE: bv8 := 0x97

  /** The voltage reference selected by ADMUX bits 7-6. */
  datatype Reference = Aref | Avcc | ReservedReference | Internal1V1

  function ReferenceOf(admux: bv8): (ref: Reference)
    ensures ref == Avcc <==> admux & 0xC0 == 0x40
  {
    var refs := admux >> 6;
    if refs == 0 then Aref
    else if refs == 1 then Avcc
    else if refs == 2 then ReservedReference
    else Internal1V1
  }

  /** The input channel selected by ADMUX bits 3-0. */
  function ChannelOf(admux: bv8): (ch: nat)
    ensures ch < 16
  {
    (admux & 0x0F) as nat
  }

  /** The division factor from the CPU clock to the converter clock selected by
      ADCSRA bits 2-0: 2, 2, 4, 8, 16, 32, 64, 128. */
  function PrescalerOf(adcsra: bv8): (div: nat)
    ensures 2 <= div <= 128
    ensures div == 128 <==> adcsra & 7 == 7
  {
    var ps := adcsra & 7;
    if ps == 0 then 2 else ((1 as bv8) << ps) as nat
  }

  /** The configuration constants mean what their comments say: channel ADC7,
      AVCC reference, right adjustment, converter enabled, ADSC, auto-trigger
      and interrupt off, and the slowest prescaler there is. */
  lemma TrimpotConfiguration()
    ensures ChannelOf(ADMUX_TRIMPOT) == TRIMPOT_CHANNEL
    ensures ReferenceOf(ADMUX_TRIMPOT) == Avcc
    ensures Bit(ADMUX_TRIMPOT, ADLAR) == 0
    ensures Bit(ADCSRA_CONFIG, ADEN) == 1
    ensures Bit(ADCSRA_CONFIG, ADSC) == 0 && Bit(ADCSRA_CONFIG, ADATE) == 0 && Bit(ADCSRA_CONFIG, ADIE) == 0
    ensures PrescalerOf(ADCSRA_CONFIG) == 128
    ensures forall v: bv8 :: PrescalerOf(v) <= PrescalerOf(ADCSRA_CONFIG)
  {
  }

  /** The result `ADCL | (ADCH << 8)`, computed in the program's 16-bit
      `unsigned int`. */
  function AdcResult(adcl: bv8, adch: bv8): (r: bv16)
    ensures r as int == adcl as int + 256 * adch as int
    ensures (r & 0xFF) as bv8 == adcl && (r >> 8) as bv8 == adch
    ensures adch <= 3 ==> r <= 1023
  {
    var r := (adcl as bv16) | ((adch as bv16) << 8);
    // The two bytes do not overlap, so the OR is a sum.
    assert r == adcl as bv16 + adch as bv16 * 256;
    r
  }

  /** Assembling the right-adjusted data registers gives back the converted
      sample. */
  lemma ResultRoundTrip(sample: AdcSample)
    ensures AdcResult(DataRegisters(sample, false).0, DataRegisters(sample, false).1) == sample
  {
  }

  /** The same assembly over left-adjusted registers would not: sample 1 would
      read back as 64. This is why ADMUX bit 5 must be clear. */
  lemma LeftAdjustedMisreads()
    ensures AdcResult(DataRegisters(1, true).0, DataRegisters(1, true).1) == 64
  {
  }

  /** Storing the configuration leaves a completion flag raised by an earlier
      conversion standing, because a zero written to ADIF does not clear it. */
  lemma ConfigStoreKeepsStaleFlag(cur: bv8)
    requires Bit(cur, ADIF) == 1
    ensures Bit(AdcsraAfterStore(cur, ADCSRA_CONFIG), ADIF) == 1
  {
  }

  /** From an idle converter, the configuration store followed by the
      read-modify-write that sets ADSC starts a conversion with ADIF clear,
      whatever ADIF was before: the wait for ADIF waits for this conversion. */
  lemma StartClearsStaleFlag(cur: bv8)
    requires Bit(cur, ADSC) == 0
    ensures var configured := AdcsraAfterStore(cur, ADCSRA_CONFIG);
            var started := AdcsraAfterStore(configured, configured | (1 << ADSC));
            Bit(started, ADIF) == 0 && Bit(started, ADSC) == 1 && started & 0xAF == ADCSRA_CONFIG
  {
  }

  /** `read_trimpot`. The two busy-waits poll ADSC and ADIF; the hardware event
      each one waits for is the body of its loop, so each runs at most once and
      says nothing about timing. */
  method ReadTrimpot(dev: Device, sample: AdcSample) returns (r: Word)
    modifies dev`adcsra, dev`admux, dev`adcl, dev`adch
    ensures r == sample as int
    ensures dev.admux == ADMUX_TRIMPOT && dev.adcsra == ADCSRA_DONE
    ensures (dev.adcl, dev.adch) == DataRegisters(sample, false)
  {
    // Wait for any current conversion to finish.
    while Bit(dev.adcsra, ADSC) == 1
      decreases Bit(dev.adcsra, ADSC)
    {
      dev.FinishPendingConversion();
    }
    StartClearsStaleFlag(dev.adcsra);
    dev.StoreAdcsra(ADCSRA_CONFIG);
    dev.admux := ADMUX_TRIMPOT;
    // Start the conversion: a load, an OR and a store of ADCSRA.
    dev.StoreAdcsra(dev.adcsra | (1 << ADSC));
    // Wait until the conversion is complete.
    while Bit(dev.adcsra, ADIF) == 0
      invariant dev.admux == ADMUX_TRIMPOT
      invariant Bit(dev.adcsra, ADIF) == 1 ==>
                  (dev.adcl, dev.adch) == DataRegisters(sample, false) && dev.adcsra == ADCSRA_DONE
      invariant dev.adcsra & 0xAF == ADCSRA_CONFIG
      decreases 1 - Bit(dev.adcsra, ADIF)
    {
      dev.CompleteConversion(sample);
    }
    r := AdcResult(dev.adcl, dev.adch) as int;
  }
}
