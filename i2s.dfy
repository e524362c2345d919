/** The I2S transmit driver (src/i2s.rs): initialisation for 32-bit stereo at 44.1 kHz,
    switching the peripheral on and off, and the blocking left/right write. */
module I2sDriver {
  import opened Common
  import opened Registers

  /** Two slots per frame: left and right. */
  const Slots: nat := 2
  /** Divider of generic clock 3. */
  const Divide: nat := 17
  /** GCLK generator 3 (`ClockGenId::GCLK3`). */
  const Gclk3: nat := 3

  const SourceHz: nat := 48_000_000
  const SampleRate: nat := 44_100
  const SlotWidth: nat := 32

  /** `DIVIDE` is 48 MHz divided by 44,100 frames of `SLOTS` 32-bit slots, rounded down. The
      division leaves a remainder, so the bit clock it yields is not exactly the target. */
  lemma DivideFromRate()
    ensures Divide == SourceHz / (SampleRate * SlotWidth * Slots)
    ensures SourceHz % (SampleRate * SlotWidth * Slots) != 0
    ensures SourceHz / Divide != SampleRate * SlotWidth * Slots
  {
  }

  /** The clock unit configuration `init` programs: master clock from the generic clock, serial
      clock from the master-clock divider, frame sync from the serial-clock divider, the
      one-bit I2S delay, `SLOTS` slots of 32 bits. */
  function ClockConfig(): (c: ClkCtrl)
    ensures c.nbslots + 1 == Slots && SlotBits(c.slotsize) == SlotWidth
    ensures c.bitdelay == OneBit && c.mcksel == MckGclk && c.scksel == SckMckDiv && c.fssel == FsSckDiv
  {
    ClkCtrl(MckGclk, SckMckDiv, FsSckDiv, OneBit, Slots - 1, Slot32)
  }

  /** Single DMA channel, stereo, MSB first, zero-filled, right-adjusted 32-bit data words in
      right-adjusted slots, clock unit 0. */
  function SerialFormat(): SerFormat {
    SerFormat(DmaSingle, Stereo, MsbFirst, ZeroFill, AdjustRight, Data32, AdjustRight, ClockUnit0)
  }

  /** The serializer configuration `init` programs: `SerialFormat` in transmit mode. */
  function SerializerConfig(): (s: SerCtrl)
    ensures s.mode == Transmit && s.format.mono == Stereo && s.format.datasize == Data32
    ensures s.format.clksel == ClockUnit0
  {
    SerCtrl(SerialFormat(), Transmit)
  }

  /** The register accesses of `init`, in order: clock set-up through the HAL, bus clock on,
      all three enable bits off, a full sync wait, and only then the two configuration writes
      followed by another full sync wait. */
  function InitAccesses(): seq<Event> {
    [ HalGclkConfigure(Gclk3, Divide, Dfll48m, true),
      HalI2s0Clock(Gclk3),
      ApbcI2sWrite,
      CtrlaWrite(SetAll(false)),
      I2sSyncWait(AllBits),
      ClkctrlWrite(ClockConfig()),
      SerctrlWrite(Some(SerialFormat()), Some(Transmit)),
      I2sSyncWait(AllBits) ]
  }

  /** The register accesses of `switch(state)`: one CTRLA write naming all three bits, then a
      full sync wait. */
  function SwitchAccesses(state: bool): seq<Event> {
    [CtrlaWrite(SetAll(state)), I2sSyncWait(AllBits)]
  }

  /** The driver. It owns the I2S register block for its whole life; pins and the clock token it
      also holds carry no state of their own. */
  class I2s {
    const hw: Peripherals

    /** Between calls no CTRLA synchronisation is pending. */
    ghost predicate Valid()
      reads this, hw
    {
      hw.syncBusy == {}
    }

    ghost predicate Enabled()
      reads this, hw
    {
      hw.ctrla == AllOn
    }

    /** `I2s::init`. Generic clock 3 divides the 48 MHz DFLL by `DIVIDE` and feeds I2S0 (the
        same GCLK state `main` sets up by hand); whatever the I2S block held before, afterwards
        the three enable bits are off and CLKCTRL[0] and SERCTRL[0] hold the transmit
        configuration. */
    constructor Init(hw: Peripherals)
      requires hw.syncBusy == {}
      modifies hw
      ensures this.hw == hw && Valid()
      ensures hw.ctrla == AllOff
      ensures hw.clkctrl0 == ClockConfig() && hw.serctrl0 == SerializerConfig()
      ensures hw.apbcI2s
      ensures hw.trace == old(hw.trace) + InitAccesses()
      ensures hw.gendiv == old(hw.gendiv)[Gclk3 := Divide]
      ensures hw.genctrl == old(hw.genctrl)[Gclk3 := GenCtrl(Dfll48m, true, true)]
      ensures hw.routes == old(hw.routes)[I2s0 := ClockRoute(Gclk3, true)]
      ensures hw.txur0 == old(hw.txur0) && hw.txReady == old(hw.txReady)
      ensures hw.gclkSettled == old(hw.gclkSettled)
    {
      this.hw := hw;
      new;
      hw.HalConfigureGclk(Gclk3, Divide, Dfll48m, true);
      hw.HalI2s0(Gclk3);
      hw.WriteApbcI2s();
      ghost var clocks := (hw.gendiv, hw.genctrl, hw.routes, hw.gclkSettled);
      hw.WriteCtrla(SetAll(false));
      hw.I2sSync(AllBits);
      assert hw.syncBusy == {} && hw.ctrla == AllOff;
      hw.WriteClkctrl0(ClockConfig());
      hw.WriteSerctrl0(Some(SerialFormat()), Some(Transmit));
      hw.I2sSync(AllBits);
      assert (hw.gendiv, hw.genctrl, hw.routes, hw.gclkSettled) == clocks;
    }

    /** `switch(state)`: the three enable bits all become `state` in one write; the
        configuration registers are left alone. */
    method Switch(state: bool)
      requires Valid()
      modifies hw`ctrla, hw`syncBusy, hw`trace
      ensures Valid()
      ensures hw.ctrla == Ctrla(state, state, state)
      ensures hw.clkctrl0 == old(hw.clkctrl0) && hw.serctrl0 == old(hw.serctrl0)
      ensures hw.trace == old(hw.trace) + SwitchAccesses(state)
    {
      hw.WriteCtrla(SetAll(state));
      hw.I2sSync(AllBits);
    }

    method Enable()
      requires Valid()
      modifies hw`ctrla, hw`syncBusy, hw`trace
      ensures Valid() && Enabled()
      ensures hw.clkctrl0 == old(hw.clkctrl0) && hw.serctrl0 == old(hw.serctrl0)
      ensures hw.trace == old(hw.trace) + SwitchAccesses(true)
    {
      Switch(true);
    }

    method Disable()
      requires Valid()
      modifies hw`ctrla, hw`syncBusy, hw`trace
      ensures Valid() && hw.ctrla == AllOff
      ensures hw.clkctrl0 == old(hw.clkctrl0) && hw.serctrl0 == old(hw.serctrl0)
      ensures hw.trace == old(hw.trace) + SwitchAccesses(false)
    {
      Switch(false);
    }

    /** `write(left, right)`: for `left` and then `right`, wait until the transmitter is ready,
        clear the underrun flag and write the word. Exactly two data writes are appended, in that
        order, each straight after a clear; the enable bits and configuration do not change. */
    method Write(left: U32, right: U32)
      requires Valid() && Enabled()
      modifies hw`txReady, hw`txur0, hw`trace
      ensures Valid() && Enabled() && !hw.txReady && !hw.txur0
      ensures hw.clkctrl0 == old(hw.clkctrl0) && hw.serctrl0 == old(hw.serctrl0)
      ensures hw.trace == old(hw.trace) + SendWords([left, right])
      ensures DataWrites(hw.trace) == DataWrites(old(hw.trace)) + [left, right]
      ensures ClearedBeforeData(old(hw.trace)) ==> ClearedBeforeData(hw.trace)
    {
      var words := [left, right];
      for k := 0 to 2
        invariant hw.syncBusy == {} && hw.ctrla == AllOn
        invariant k > 0 ==> !hw.txReady && !hw.txur0
        invariant hw.trace == old(hw.trace) + SendWords(words[..k])
      {
        hw.WaitTxReady();
        hw.ClearUnderrun();
        hw.WriteData0(words[k]);
        assert words[..k + 1][..k] == words[..k];
      }
      assert words[..2] == words;
      SendAfter(old(hw.trace), words);
    }
  }

  /** A client of the driver: enabling, disabling and enabling again needs no re-`init`. The
      disabled state has all bits off with the configuration as it was, and the second enable
      reproduces the registers of the first. */
  method EnableDisableEnable(d: I2s)
    requires d.Valid()
    modifies d.hw`ctrla, d.hw`syncBusy, d.hw`trace
    ensures d.Valid() && d.Enabled()
    ensures d.hw.clkctrl0 == old(d.hw.clkctrl0) && d.hw.serctrl0 == old(d.hw.serctrl0)
  {
    d.Enable();
    var first := (d.hw.ctrla, d.hw.clkctrl0, d.hw.serctrl0);
    d.Disable();
    assert d.hw.ctrla == AllOff && d.hw.clkctrl0 == old(d.hw.clkctrl0) && d.hw.serctrl0 == old(d.hw.serctrl0);
    d.Enable();
    assert (d.hw.ctrla, d.hw.clkctrl0, d.hw.serctrl0) == first;
    d.Enable();
    assert (d.hw.ctrla, d.hw.clkctrl0, d.hw.serctrl0) == first;
  }
}
