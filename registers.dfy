/** The memory-mapped registers that the audio pipeline touches on the SAMD21: the generic
    clock controller (GCLK), the power manager's APBC mask (PM) and the I2S peripheral.
    Every register access goes through one primitive of `Peripherals`, which appends an
    `Event` to a single access trace; the hardware's busy flags are abstracted to "settled"
    flags that a wait event sets, and the primitives' preconditions are the sequencing rules
    the hardware imposes. */
module Registers {
  import opened Common

  // ---------------------------------------------------------------- GCLK

  datatype ClockSource = Xosc | Gclkin | GclkGen1 | Osculp32k | Osc32k | Xosc32k | Osc8m | Dfll48m | Fdpll96m

  /** GENCTRL fields for one generator: source, improve duty cycle, generator enable. */
  datatype GenCtrl = GenCtrl(src: ClockSource, idc: bool, genen: bool)

  /** Peripheral clock consumers a GCLK CLKCTRL write can route. */
  datatype ClockUser = I2s0 | I2s1

  /** GCLK CLKCTRL fields for one consumer: which generator feeds it, and whether it is on. */
  datatype ClockRoute = ClockRoute(gen: nat, clken: bool)

  // ---------------------------------------------------------------- I2S

  /** The three I2S CTRLA enable bits the driver uses. */
  datatype Ctrla = Ctrla(enable: bool, cken0: bool, seren0: bool)

  const AllOff := Ctrla(false, false, false)
  const AllOn := Ctrla(true, true, true)

  /** One write to CTRLA: the bits the write names get the given value, the others keep theirs. */
  datatype CtrlaUpdate = CtrlaUpdate(enable: Option<bool>, cken0: Option<bool>, seren0: Option<bool>)

  function Pick(u: Option<bool>, b: bool): bool {
    if u.Some? then u.value else b
  }

  function ApplyCtrla(c: Ctrla, u: CtrlaUpdate): Ctrla {
    Ctrla(Pick(u.enable, c.enable), Pick(u.cken0, c.cken0), Pick(u.seren0, c.seren0))
  }

  /** A CTRLA write naming all three bits with the same value. */
  function SetAll(b: bool): CtrlaUpdate {
    CtrlaUpdate(Some(b), Some(b), Some(b))
  }

  datatype MckSel = MckGclk | MckPin
  datatype SckSel = SckMckDiv | SckPin
  datatype FsSel = FsSckDiv | FsPin
  /** Frame-sync to data delay: left-justified (none) or the one-bit delay of I2S framing. */
  datatype BitDelay = LeftJustified | OneBit
  datatype SlotSize = Slot8 | Slot16 | Slot24 | Slot32

  function SlotBits(s: SlotSize): nat {
    match s
    case Slot8 => 8
    case Slot16 => 16
    case Slot24 => 24
    case Slot32 => 32
  }

  /** CLKCTRL[0]: the clock unit's configuration. `nbslots` is the slot count minus one. */
  datatype ClkCtrl = ClkCtrl(mcksel: MckSel, scksel: SckSel, fssel: FsSel, bitdelay: BitDelay,
                             nbslots: nat, slotsize: SlotSize)

  datatype DmaMode = DmaSingle | DmaMultiple
  datatype ChannelMode = Stereo | Mono
  datatype BitOrder = MsbFirst | LsbFirst
  datatype Extend = ZeroFill | OneFill | MsbFill | LsbFill
  datatype Adjust = AdjustRight | AdjustLeft
  datatype DataSize = Data32 | Data24 | Data20 | Data18 | Data16 | Data16C | Data8 | Data8C
  datatype ClockUnit = ClockUnit0 | ClockUnit1
  datatype SerMode = Receive | Transmit | Pdm2

  /** The data-format fields of SERCTRL[0], everything except the serializer mode. */
  datatype SerFormat = SerFormat(dma: DmaMode, mono: ChannelMode, bitrev: BitOrder, extend: Extend,
                                 wordadj: Adjust, datasize: DataSize, slotadj: Adjust, clksel: ClockUnit)

  /** SERCTRL[0]: the serializer's configuration. */
  datatype SerCtrl = SerCtrl(format: SerFormat, mode: SerMode)

  /** A SERCTRL[0] write may name the format fields, the mode, or both. */
  function ApplySerctrl(s: SerCtrl, format: Option<SerFormat>, mode: Option<SerMode>): SerCtrl {
    SerCtrl(if format.Some? then format.value else s.format,
            if mode.Some? then mode.value else s.mode)
  }

  /** Which SYNCBUSY bits a busy-wait polls: all of them, or one named bit. */
  datatype SyncBits = AllBits | EnableBit | Cken0Bit | Seren0Bit

  /** The CTRLA bits whose synchronisation SYNCBUSY reports. */
  datatype CtrlaBit = EnableSync | Cken0Sync | Seren0Sync

  /** The bits a CTRLA write synchronises: those it names. */
  function Named(u: CtrlaUpdate): set<CtrlaBit> {
    (if u.enable.Some? then {EnableSync} else {}) + (if u.cken0.Some? then {Cken0Sync} else {})
      + (if u.seren0.Some? then {Seren0Sync} else {})
  }

  /** The SYNCBUSY bits a wait polls: all of them (`bits() != 0`) or a single one. */
  function Polled(b: SyncBits): set<CtrlaBit> {
    match b
    case AllBits => {EnableSync, Cken0Sync, Seren0Sync}
    case EnableBit => {EnableSync}
    case Cken0Bit => {Cken0Sync}
    case Seren0Bit => {Seren0Sync}
  }

  // ---------------------------------------------------------------- trace

  datatype Event =
    | GclkSyncWait                                   // spin until GCLK STATUS.SYNCBUSY is clear
    | GendivWrite(id: nat, div: nat)
    | GenctrlWrite(id: nat, ctrl: GenCtrl)
    | ClockRouteWrite(user: ClockUser, route: ClockRoute)
    | HalGclkConfigure(id: nat, div: nat, src: ClockSource, idc: bool)  // HAL call, GCLK writes inside
    | HalI2s0Clock(gen: nat)                                            // HAL call, GCLK write inside
    | ApbcI2sWrite                                   // PM APBCMASK: turn the I2S bus clock on
    | CtrlaWrite(update: CtrlaUpdate)
    | I2sSyncWait(bits: SyncBits)                    // spin until the polled SYNCBUSY bits are clear
    | ClkctrlWrite(clk: ClkCtrl)
    | SerctrlWrite(format: Option<SerFormat>, mode: Option<SerMode>)
    | TxReadyWait                                    // spin until TXRDY0 is set and DATA0 is not syncing
    | UnderrunClear                                  // write one to INTFLAG.TXUR0
    | DataWrite(word: U32, underrun: bool)           // DATA[0] write, with TXUR0 as it stood

  /** The words written to DATA[0], in order. */
  function DataWrites(t: seq<Event>): seq<U32> {
    if t == [] then []
    else DataWrites(t[..|t| - 1]) + (if t[|t| - 1].DataWrite? then [t[|t| - 1].word] else [])
  }

  lemma {:induction false} DataWritesAppend(a: seq<Event>, b: seq<Event>)
    ensures DataWrites(a + b) == DataWrites(a) + DataWrites(b)
    decreases |b|
  {
    if b == [] {
      assert a + b == a;
    } else {
      var b' := b[..|b| - 1];
      assert (a + b)[..|a + b| - 1] == a + b';
      DataWritesAppend(a, b');
    }
  }

  /** Every DATA[0] write comes straight after a TXUR0 clear, so the underrun flag is clear
      at the moment of the write. */
  predicate ClearedBeforeData(t: seq<Event>) {
    forall k :: 0 <= k < |t| && t[k].DataWrite? ==> 0 < k && t[k - 1] == UnderrunClear && !t[k].underrun
  }

  lemma ClearedBeforeDataAppend(a: seq<Event>, b: seq<Event>)
    requires ClearedBeforeData(a) && ClearedBeforeData(b)
    ensures ClearedBeforeData(a + b)
  {
    forall k | 0 <= k < |a + b| && (a + b)[k].DataWrite?
      ensures 0 < k && (a + b)[k - 1] == UnderrunClear && !(a + b)[k].underrun
    {
      if k >= |a| {
        assert (a + b)[k] == b[k - |a|];
        assert 0 < k - |a|;
        assert (a + b)[k - 1] == b[k - 1 - |a|];
      } else {
        assert (a + b)[k] == a[k];
      }
    }
  }

  /** A trace without DATA[0] writes has an empty data log, and the clear-before-write
      property holds of it vacuously. */
  lemma {:induction false} NoDataWrites(t: seq<Event>)
    requires forall k :: 0 <= k < |t| ==> !t[k].DataWrite?
    ensures DataWrites(t) == [] && ClearedBeforeData(t)
  {
    if t != [] {
      NoDataWrites(t[..|t| - 1]);
    }
  }

  /** The accesses that send one word: wait for the transmitter, clear a pending underrun,
      write the word (with the flag now clear). */
  function SendWord(w: U32): seq<Event> {
    [TxReadyWait, UnderrunClear, DataWrite(w, false)]
  }

  /** The accesses that send `ws`, one word after another into the single data register. */
  function SendWords(ws: seq<U32>): seq<Event> {
    if ws == [] then [] else SendWords(ws[..|ws| - 1]) + SendWord(ws[|ws| - 1])
  }

  lemma {:induction false} SendWordsSpec(ws: seq<U32>)
    ensures |SendWords(ws)| == 3 * |ws|
    ensures DataWrites(SendWords(ws)) == ws
    ensures ClearedBeforeData(SendWords(ws))
  {
    if ws != [] {
      var init := ws[..|ws| - 1];
      SendWordsSpec(init);
      var w := ws[|ws| - 1];
      DataWritesAppend(SendWords(init), SendWord(w));
      assert DataWrites(SendWord(w)) == [w] by {
        var s := SendWord(w);
        assert s[..2][..1] == [TxReadyWait] && [TxReadyWait][..0] == [];
        assert DataWrites([TxReadyWait]) == [];
        assert DataWrites(s[..2]) == [];
      }
      assert ClearedBeforeData(SendWord(w));
      ClearedBeforeDataAppend(SendWords(init), SendWord(w));
      assert init + [w] == ws;
    }
  }

  /** Sending `ws` after any trace appends exactly `ws` to the data-register log and keeps
      every data write preceded by an underrun clear. */
  lemma SendAfter(t: seq<Event>, ws: seq<U32>)
    ensures DataWrites(t + SendWords(ws)) == DataWrites(t) + ws
    ensures ClearedBeforeData(t) ==> ClearedBeforeData(t + SendWords(ws))
  {
    SendWordsSpec(ws);
    DataWritesAppend(t, SendWords(ws));
    if ClearedBeforeData(t) {
      ClearedBeforeDataAppend(t, SendWords(ws));
    }
  }

  /** The register block, with every register the pipeline touches and the access trace. */
  class Peripherals {
    // GCLK
    var gendiv: map<nat, nat>
    var genctrl: map<nat, GenCtrl>
    var routes: map<ClockUser, ClockRoute>
    var gclkSettled: bool
    // PM
    var apbcI2s: bool
    // I2S
    var ctrla: Ctrla
    /** The CTRLA bits still synchronising (set in SYNCBUSY). */
    var syncBusy: set<CtrlaBit>
    var clkctrl0: ClkCtrl
    var serctrl0: SerCtrl
    var txur0: bool
    var txReady: bool
    /** Every register access since `Take`, in order. */
    var trace: seq<Event>

    /** `Peripherals::take`: the register block in whatever state the platform bootstrap left it.
        No I2S write has been issued since reset, so no I2S synchronisation is pending; the GCLK
        may still be synchronising the bootstrap's own clock set-up. */
    constructor Take(gendiv: map<nat, nat>, genctrl: map<nat, GenCtrl>, routes: map<ClockUser, ClockRoute>,
                     ctrla: Ctrla, clkctrl0: ClkCtrl, serctrl0: SerCtrl, txur0: bool)
      ensures this.gendiv == gendiv && this.genctrl == genctrl && this.routes == routes
      ensures this.ctrla == ctrla && this.clkctrl0 == clkctrl0 && this.serctrl0 == serctrl0
      ensures this.txur0 == txur0 && syncBusy == {} && !txReady && !gclkSettled && !apbcI2s
      ensures trace == []
    {
      this.gendiv, this.genctrl, this.routes := gendiv, genctrl, routes;
      this.ctrla, this.clkctrl0, this.serctrl0, this.txur0 := ctrla, clkctrl0, serctrl0, txur0;
      syncBusy, txReady, gclkSettled, apbcI2s := {}, false, false, false;
      trace := [];
    }

    method GclkSync()
      modifies this`gclkSettled, this`trace
      ensures gclkSettled && trace == old(trace) + [GclkSyncWait]
    {
      gclkSettled := true;
      trace := trace + [GclkSyncWait];
    }

    /** A GCLK register write: allowed only once the previous one has synchronised. */
    method WriteGendiv(id: nat, div: nat)
      requires gclkSettled
      modifies this`gendiv, this`gclkSettled, this`trace
      ensures gendiv == old(gendiv)[id := div] && !gclkSettled
      ensures trace == old(trace) + [GendivWrite(id, div)]
    {
      gendiv := gendiv[id := div];
      gclkSettled := false;
      trace := trace + [GendivWrite(id, div)];
    }

    method WriteGenctrl(id: nat, ctrl: GenCtrl)
      requires gclkSettled
      modifies this`genctrl, this`gclkSettled, this`trace
      ensures genctrl == old(genctrl)[id := ctrl] && !gclkSettled
      ensures trace == old(trace) + [GenctrlWrite(id, ctrl)]
    {
      genctrl := genctrl[id := ctrl];
      gclkSettled := false;
      trace := trace + [GenctrlWrite(id, ctrl)];
    }

    method WriteClockRoute(user: ClockUser, route: ClockRoute)
      requires gclkSettled
      modifies this`routes, this`gclkSettled, this`trace
      ensures routes == old(routes)[user := route] && !gclkSettled
      ensures trace == old(trace) + [ClockRouteWrite(user, route)]
    {
      routes := routes[user := route];
      gclkSettled := false;
      trace := trace + [ClockRouteWrite(user, route)];
    }

    /** The HAL's `configure_gclk_divider_and_source(id, div, src, idc)`: generator `id` divides
        `src` by `div` and is enabled, with the duty-cycle correction `idc`. The HAL performs
        its own GCLK writes and synchronisation waits; they are one step here. */
    method HalConfigureGclk(id: nat, div: nat, src: ClockSource, idc: bool)
      modifies this`gendiv, this`genctrl, this`trace
      ensures gendiv == old(gendiv)[id := div]
      ensures genctrl == old(genctrl)[id := GenCtrl(src, idc, true)]
      ensures trace == old(trace) + [HalGclkConfigure(id, div, src, idc)]
    {
      gendiv := gendiv[id := div];
      genctrl := genctrl[id := GenCtrl(src, idc, true)];
      trace := trace + [HalGclkConfigure(id, div, src, idc)];
    }

    /** The HAL's `clocks.i2s0(&gclk)`: the I2S0 peripheral clock is fed from generator `gen`
        and enabled, again with the HAL's own synchronisation. */
    method HalI2s0(gen: nat)
      modifies this`routes, this`trace
      ensures routes == old(routes)[I2s0 := ClockRoute(gen, true)]
      ensures trace == old(trace) + [HalI2s0Clock(gen)]
    {
      routes := routes[I2s0 := ClockRoute(gen, true)];
      trace := trace + [HalI2s0Clock(gen)];
    }

    method WriteApbcI2s()
      modifies this`apbcI2s, this`trace
      ensures apbcI2s && trace == old(trace) + [ApbcI2sWrite]
    {
      apbcI2s := true;
      trace := trace + [ApbcI2sWrite];
    }

    /** A CTRLA write synchronises the bits it names; it may not be issued while any
        synchronisation is pending. */
    method WriteCtrla(u: CtrlaUpdate)
      requires syncBusy == {}
      modifies this`ctrla, this`syncBusy, this`trace
      ensures ctrla == ApplyCtrla(old(ctrla), u) && syncBusy == Named(u)
      ensures trace == old(trace) + [CtrlaWrite(u)]
    {
      ctrla := ApplyCtrla(ctrla, u);
      syncBusy := Named(u);
      trace := trace + [CtrlaWrite(u)];
    }

    /** A busy-wait on SYNCBUSY, abstracted to the step at which the polled bits have cleared;
        bits it does not poll may still be synchronising. */
    method I2sSync(bits: SyncBits)
      modifies this`syncBusy, this`trace
      ensures syncBusy == old(syncBusy) - Polled(bits) && trace == old(trace) + [I2sSyncWait(bits)]
    {
      syncBusy := syncBusy - Polled(bits);
      trace := trace + [I2sSyncWait(bits)];
    }

    /** CLKCTRL[0] is enable-protected: written only while clock unit 0 is off. */
    method WriteClkctrl0(c: ClkCtrl)
      requires syncBusy == {} && !ctrla.cken0
      modifies this`clkctrl0, this`trace
      ensures clkctrl0 == c && trace == old(trace) + [ClkctrlWrite(c)]
    {
      clkctrl0 := c;
      trace := trace + [ClkctrlWrite(c)];
    }

    /** SERCTRL[0] is enable-protected: written only while serializer 0 is off. */
    method WriteSerctrl0(format: Option<SerFormat>, mode: Option<SerMode>)
      requires syncBusy == {} && !ctrla.seren0
      modifies this`serctrl0, this`trace
      ensures serctrl0 == ApplySerctrl(old(serctrl0), format, mode)
      ensures trace == old(trace) + [SerctrlWrite(format, mode)]
    {
      serctrl0 := ApplySerctrl(serctrl0, format, mode);
      trace := trace + [SerctrlWrite(format, mode)];
    }

    /** The spin on TXRDY0 / SYNCBUSY.DATA0. It ends only when the transmitter runs, that is
        when all three enable bits are on and synchronised. */
    method WaitTxReady()
      requires syncBusy == {} && ctrla == AllOn
      modifies this`txReady, this`trace
      ensures txReady && trace == old(trace) + [TxReadyWait]
    {
      txReady := true;
      trace := trace + [TxReadyWait];
    }

    /** The hardware raising the underrun flag because a word came too late. */
    method RaiseUnderrun()
      modifies this`txur0
      ensures txur0
    {
      txur0 := true;
    }

    /** INTFLAG is write-one-to-clear: writing TXUR0 clears the underrun flag. */
    method ClearUnderrun()
      modifies this`txur0, this`trace
      ensures !txur0 && trace == old(trace) + [UnderrunClear]
    {
      txur0 := false;
      trace := trace + [UnderrunClear];
    }

    /** A DATA[0] write, accepted only when the transmitter is ready; the hardware advances to
        the next slot by itself. */
    method WriteData0(w: U32)
      requires txReady
      modifies this`txReady, this`trace
      ensures !txReady && trace == old(trace) + [DataWrite(w, txur0)]
    {
      txReady := false;
      trace := trace + [DataWrite(w, txur0)];
    }
  }
}
