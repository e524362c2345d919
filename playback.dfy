/** `main` (src/main.rs): the inline clock and I2S set-up, then the playback loop that walks the
    embedded payload cyclically, widens each 16-bit sample to a 32-bit slot word and writes it
    to the left and the right slot. The loop runs forever on the target; here it runs `m`
    iterations. */
module Playback {
  import opened Common
  import opened Registers
  import opened Wav
  import I2sDriver

  const Slots: nat := 2

  // ---------------------------------------------------------------- payload

  /** `&wave[44..]`: the same header skip as `Wav16::new`, panicking (None) on a short file. */
  function Payload(wave: seq<Byte>): (r: Option<seq<Byte>>)
    ensures r.Some? <==> New(wave).Some?
    ensures r.Some? ==> r.value == New(wave).value.payload
  {
    if |wave| < HeaderSize then None else Some(wave[HeaderSize..])
  }

  // ---------------------------------------------------------------- widening

  /** `x << 16` on an `i32`: Rust shifts the bit pattern, so overflow would wrap. For every
      `i16` the shift is exact: no bit of the sample is lost. */
  function ShiftLeft16(x: I32): (r: I32)
    ensures (r - x * 0x10000) % 0x1_0000_0000 == 0
    ensures -0x8000 <= x < 0x8000 ==> -0x8000_0000 <= x * 0x10000 < 0x8000_0000 && r == x * 0x10000
  {
    WrapI32(x * 0x10000)
  }

  /** `((word as i32) << 16) as u32`: the low half is zero and the high half is the 16-bit
      two's-complement pattern of `word`, so the word's top bit is the sample's sign. */
  function Widen(word: I16): (scaled: U32)
    ensures scaled % 0x10000 == 0
    ensures scaled / 0x10000 == (word + 0x10000) % 0x10000
    ensures scaled >= 0x8000_0000 <==> word < 0
  {
    AsU32(ShiftLeft16(word))
  }

  /** Reading the sample back from the high half of a slot word. */
  function Narrow(scaled: U32): I16 {
    var h := scaled / 0x10000;
    if h < 0x8000 then h else h - 0x10000
  }

  /** Widening loses nothing: the sample is recovered from its slot word. */
  lemma NarrowWiden(word: I16)
    ensures Narrow(Widen(word)) == word
  {
  }

  lemma WidenExamples()
    ensures Widen(-1) == 0xFFFF_0000
    ensures Widen(1) == 0x0001_0000
    ensures Widen(0) == 0
  {
  }

  // ---------------------------------------------------------------- cyclic index

  /** How many offsets `(0..len).step_by(2)` yields: 0, 2, ..., the last even offset below `len`. */
  function EvenCount(len: nat): nat {
    (len + 1) / 2
  }

  /** The offset returned by the `k`-th call of `cycle.next()` on
      `(0..len).step_by(2).cycle()`, for a non-empty range: the first call returns 0, and each
      later one the previous offset plus two, or 0 again once that is not below `len`. */
  function CycleIndex(len: nat, k: nat): (i: nat)
    requires len > 0
    ensures i % 2 == 0 && i < len
  {
    if k == 0 then 0
    else
      var i := CycleIndex(len, k - 1);
      if i + 2 < len then i + 2 else 0
  }

  /** The first lap visits 0, 2, 4, ... up to the last even offset below `len`. */
  lemma {:induction false} CycleFirstLap(len: nat, k: nat)
    requires len > 0 && k < EvenCount(len)
    ensures CycleIndex(len, k) == 2 * k
  {
    if k > 0 {
      CycleFirstLap(len, k - 1);
    }
  }

  /** Then it starts over: the walk repeats with period `EvenCount(len)`. */
  lemma {:induction false} CyclePeriodic(len: nat, k: nat)
    requires len > 0
    ensures CycleIndex(len, k + EvenCount(len)) == CycleIndex(len, k)
  {
    var c := EvenCount(len);
    if k == 0 {
      CycleFirstLap(len, c - 1);
    } else {
      CyclePeriodic(len, k - 1);
      assert k + c - 1 == (k - 1) + c;
    }
  }

  /** Taken together: the `k`-th offset is `2 * (k mod EvenCount(len))`. */
  lemma CycleIndexMod(len: nat, k: nat)
    requires len > 0
    ensures CycleIndex(len, k) == 2 * (k % EvenCount(len))
  {
    var c := EvenCount(len);
    var q, r := k / c, k % c;
    assert k == q * c + r;
    CycleLaps(len, q, r);
  }

  lemma {:induction false} CycleLaps(len: nat, q: nat, r: nat)
    requires len > 0 && r < EvenCount(len)
    ensures CycleIndex(len, q * EvenCount(len) + r) == 2 * r
  {
    var c := EvenCount(len);
    if q == 0 {
      CycleFirstLap(len, r);
    } else {
      CycleLaps(len, q - 1, r);
      assert q * c + r == ((q - 1) * c + r) + c;
      CyclePeriodic(len, (q - 1) * c + r);
    }
  }

  // ---------------------------------------------------------------- frames

  /** `m` iterations of the loop run without a panic: the payload is non-empty (otherwise
      `cycle.next().unwrap()` fails) and, if its length is odd, `m` stays within the first
      lap (on the last offset of an odd payload `data[i + 1]` is out of bounds). */
  predicate Playable(len: nat, m: nat) {
    m == 0 || (len > 0 && (len % 2 == 0 || m <= len / 2))
  }

  /** The number of frames the loop sends when asked for `m`: all of them, or as many as it
      gets through before it panics. */
  function Completed(len: nat, m: nat): nat {
    if len > 0 && len % 2 == 0 then m else if m <= len / 2 then m else len / 2
  }

  /** The `k`-th frame can be read exactly when the loop can run `k + 1` iterations (on a first
      lap of an odd payload). */
  lemma FrameInBounds(len: nat, k: nat)
    requires len > 0 && (len % 2 == 1 ==> k <= len / 2)
    ensures Playable(len, k + 1) <==> CycleIndex(len, k) + 1 < len
  {
    if len % 2 == 1 {
      CycleFirstLap(len, k);
    }
  }

  /** The loop stops after `k` frames, by a panic or because it was asked for no more, exactly
      when `k` is the number of frames it completes. */
  lemma Stopped(len: nat, m: nat, k: nat)
    requires k <= m && Playable(len, k)
    ensures (k == m || !Playable(len, k + 1)) <==> k == Completed(len, m)
  {
  }

  /** The slot word of the `k`-th frame: it carries, in its high half, the sample at the `k`-th
      offset of the cycle. */
  function FrameWord(data: seq<Byte>, k: nat): (w: U32)
    requires Playable(|data|, k + 1)
    ensures w % 0x10000 == 0
    ensures CycleIndex(|data|, k) + 1 < |data| &&
      Narrow(w) == FromLeBytes(data[CycleIndex(|data|, k)], data[CycleIndex(|data|, k) + 1])
  {
    FrameInBounds(|data|, k);
    var i := CycleIndex(|data|, k);
    Widen(FromLeBytes(data[i], data[i + 1]))
  }

  /** The register accesses of the first `n` iterations: each sends its frame's word to the
      left and then the right slot. */
  function PlayAccesses(data: seq<Byte>, n: nat): seq<Event>
    requires Playable(|data|, n)
  {
    if n == 0 then []
    else PlayAccesses(data, n - 1) + SendWords([FrameWord(data, n - 1), FrameWord(data, n - 1)])
  }

  /** The words the data register receives in the first `n` iterations: each frame's word
      for the left slot and again for the right. */
  function PlayedWords(data: seq<Byte>, n: nat): seq<U32>
    requires Playable(|data|, n)
  {
    if n == 0 then [] else PlayedWords(data, n - 1) + [FrameWord(data, n - 1), FrameWord(data, n - 1)]
  }

  /** `2n` words, the `k`-th frame's word twice in a row. */
  lemma {:induction false} PlayedWordsAt(data: seq<Byte>, n: nat)
    requires Playable(|data|, n)
    ensures |PlayedWords(data, n)| == 2 * n
    ensures forall k :: 0 <= k < n ==>
      PlayedWords(data, n)[2 * k] == FrameWord(data, k) && PlayedWords(data, n)[2 * k + 1] == FrameWord(data, k)
  {
    if n > 0 {
      PlayedWordsAt(data, n - 1);
      var prev := PlayedWords(data, n - 1);
      var w := FrameWord(data, n - 1);
      assert PlayedWords(data, n) == prev + [w, w];
      forall k | 0 <= k < n - 1
        ensures PlayedWords(data, n)[2 * k] == FrameWord(data, k) && PlayedWords(data, n)[2 * k + 1] == FrameWord(data, k)
      {
        assert PlayedWords(data, n)[2 * k] == prev[2 * k];
        assert PlayedWords(data, n)[2 * k + 1] == prev[2 * k + 1];
      }
    }
  }

  /** The data writes among the loop's register accesses are exactly `PlayedWords`. */
  lemma {:induction false} PlayLog(data: seq<Byte>, n: nat)
    requires Playable(|data|, n)
    ensures DataWrites(PlayAccesses(data, n)) == PlayedWords(data, n)
  {
    if n > 0 {
      var w := FrameWord(data, n - 1);
      var prev := PlayAccesses(data, n - 1);
      assert PlayAccesses(data, n) == prev + SendWords([w, w]);
      assert PlayedWords(data, n) == PlayedWords(data, n - 1) + [w, w];
      PlayLog(data, n - 1);
      SendAfter(prev, [w, w]);
    }
  }

  /** Every data write of the loop comes straight after an underrun clear. */
  lemma {:induction false} PlayClearsUnderrun(data: seq<Byte>, n: nat)
    requires Playable(|data|, n)
    ensures ClearedBeforeData(PlayAccesses(data, n))
  {
    if n > 0 {
      PlayClearsUnderrun(data, n - 1);
      var w := FrameWord(data, n - 1);
      SendAfter(PlayAccesses(data, n - 1), [w, w]);
    }
  }

  /** On an even, non-empty payload the `k`-th frame is sample `k mod N` of `Wav16::stream`,
      N being the number of samples: the loop decodes exactly what the decoder does. */
  lemma FrameWordIsStreamSample(data: seq<Byte>, k: nat)
    requires |data| > 0 && |data| % 2 == 0
    ensures |Stream(Wav16(data)).items| == |data| / 2
    ensures FrameWord(data, k) == Widen(Stream(Wav16(data)).items[k % (|data| / 2)])
  {
    StreamShape(Wav16(data));
    assert EvenCount(|data|) == |data| / 2;
    CycleIndexMod(|data|, k);
  }

  /** On an odd payload the loop panics on the last lap's final offset, which the decoder
      reports as a panic after its samples; before that the `k`-th frame is sample `k` of
      `Wav16::stream`. */
  lemma FrameWordIsStreamSampleOdd(data: seq<Byte>, k: nat)
    requires |data| % 2 == 1 && k < |data| / 2
    ensures Stream(Wav16(data)).PanicAfter? && |Stream(Wav16(data)).items| == |data| / 2
    ensures FrameWord(data, k) == Widen(Stream(Wav16(data)).items[k])
  {
    StreamShape(Wav16(data));
    CycleFirstLap(|data|, k);
    NarrowWiden(Stream(Wav16(data)).items[k]);
  }

  /** On a non-empty, even payload the first `n` iterations write the widened samples of the
      decoded stream, each twice (left, right), taken cyclically. */
  lemma PlayedWordsCycle(data: seq<Byte>, n: nat)
    requires |data| > 0 && |data| % 2 == 0
    ensures Playable(|data|, n)
    ensures |PlayedWords(data, n)| == 2 * n
    ensures |Stream(Wav16(data)).items| == |data| / 2
    ensures forall k :: 0 <= k < n ==>
      PlayedWords(data, n)[2 * k] == Widen(Stream(Wav16(data)).items[k % (|data| / 2)]) &&
      PlayedWords(data, n)[2 * k + 1] == Widen(Stream(Wav16(data)).items[k % (|data| / 2)])
  {
    PlayedWordsAt(data, n);
    StreamShape(Wav16(data));
    forall k | 0 <= k < n
      ensures FrameWord(data, k) == Widen(Stream(Wav16(data)).items[k % (|data| / 2)])
    {
      FrameWordIsStreamSample(data, k);
    }
  }

  /** End to end: for a file with a 44-byte header and a non-empty, even payload, the first `n`
      iterations write the widened samples that `Wav16::new` followed by `stream` decodes,
      each twice, taken cyclically. */
  lemma PlaybackStreamsWave(wave: seq<Byte>, n: nat, k: nat)
    requires Payload(wave).Some?
    requires |Payload(wave).value| > 0 && |Payload(wave).value| % 2 == 0
    requires k < n
    ensures Playable(|Payload(wave).value|, n)
    ensures |PlayedWords(Payload(wave).value, n)| == 2 * n
    ensures |Stream(New(wave).value).items| > 0
    ensures PlayedWords(Payload(wave).value, n)[2 * k]
         == PlayedWords(Payload(wave).value, n)[2 * k + 1]
         == Widen(Stream(New(wave).value).items[k % |Stream(New(wave).value).items|])
  {
    PlayedWordsCycle(Payload(wave).value, n);
  }

  /** Frame `k`, the `r`-th of lap `q` (of `N` frames each, `N` the number of samples), carries
      sample `r`. */
  lemma FrameOfLap(data: seq<Byte>, k: nat, q: nat, r: nat)
    requires |data| > 0 && |data| % 2 == 0 && r < |data| / 2 && k == q * (|data| / 2) + r
    ensures |Stream(Wav16(data)).items| == |data| / 2
    ensures FrameWord(data, k) == Widen(Stream(Wav16(data)).items[r])
  {
    StreamShape(Wav16(data));
    assert EvenCount(|data|) == |data| / 2;
    CycleLaps(|data|, q, r);
  }

  /** Hence the words written for that frame. */
  lemma PlayedFrameOfLap(data: seq<Byte>, n: nat, k: nat, q: nat, r: nat)
    requires |data| > 0 && |data| % 2 == 0 && k < n
    requires r < |data| / 2 && k == q * (|data| / 2) + r
    ensures Playable(|data|, n) && |PlayedWords(data, n)| == 2 * n
    ensures |Stream(Wav16(data)).items| == |data| / 2
    ensures PlayedWords(data, n)[2 * k] == Widen(Stream(Wav16(data)).items[r])
    ensures PlayedWords(data, n)[2 * k + 1] == Widen(Stream(Wav16(data)).items[r])
  {
    PlayedWordsAt(data, n);
    FrameOfLap(data, k, q, r);
  }

  /** A payload that decodes to four samples (100, -200, 300, -400, say: `StreamEncode`): the
      first five frames of any run of at least five send each sample widened to both channels,
      wrapping back to the first sample after the fourth frame. */
  lemma FourSampleCycle(data: seq<Byte>, a: I16, b: I16, c: I16, d: I16, n: nat)
    requires Stream(Wav16(data)) == Complete([a, b, c, d]) && n >= 5
    ensures Playable(|data|, n) && |PlayedWords(data, n)| == 2 * n
    ensures PlayedWords(data, n)[..10] ==
      [Widen(a), Widen(a), Widen(b), Widen(b), Widen(c), Widen(c), Widen(d), Widen(d), Widen(a), Widen(a)]
  {
    assert |data| == 8;
    PlayedFrameOfLap(data, n, 0, 0, 0);
    PlayedFrameOfLap(data, n, 1, 0, 1);
    PlayedFrameOfLap(data, n, 2, 0, 2);
    PlayedFrameOfLap(data, n, 3, 0, 3);
    PlayedFrameOfLap(data, n, 4, 1, 0);
  }

  // ---------------------------------------------------------------- set-up and loop

  /** The data-format fields `main` writes to SERCTRL[0] before it selects the mode. */
  function MainSerialFormat(): SerFormat {
    SerFormat(DmaSingle, Stereo, MsbFirst, ZeroFill, AdjustRight, Data32, AdjustRight, ClockUnit0)
  }

  function MainClockConfig(): ClkCtrl {
    ClkCtrl(MckGclk, SckMckDiv, FsSckDiv, OneBit, Slots - 1, Slot32)
  }

  function Clear(enable: bool, cken0: bool, seren0: bool): CtrlaUpdate {
    CtrlaUpdate(if enable then Some(false) else None, if cken0 then Some(false) else None,
                if seren0 then Some(false) else None)
  }

  /** The GCLK accesses of `main`'s set-up, in order: divider, generator, routing to I2S0, each
      after a sync wait, and a last sync wait. */
  function ClockSetupAccesses(): seq<Event> {
    [ GclkSyncWait, GendivWrite(I2sDriver.Gclk3, 17),
      GclkSyncWait, GenctrlWrite(I2sDriver.Gclk3, GenCtrl(Dfll48m, true, true)),
      GclkSyncWait, ClockRouteWrite(I2s0, ClockRoute(I2sDriver.Gclk3, true)),
      GclkSyncWait ]
  }

  /** The I2S accesses of lines 93-141 of `main`: each enable bit is cleared and waited for
      before the register it protects is configured. */
  function I2sConfigureAccesses(): seq<Event> {
    [ CtrlaWrite(Clear(true, false, false)), I2sSyncWait(EnableBit),
      CtrlaWrite(Clear(false, true, false)), I2sSyncWait(Cken0Bit),
      ClkctrlWrite(MainClockConfig()),
      CtrlaWrite(Clear(false, false, true)), I2sSyncWait(Seren0Bit),
      SerctrlWrite(Some(MainSerialFormat()), None) ]
  }

  /** The I2S accesses of lines 145-168 of `main`: transmit mode is selected while the
      peripheral is off, then the three bits are set together in one write, followed by a wait
      on all of them. */
  function I2sEnableTxAccesses(): seq<Event> {
    [ CtrlaWrite(Clear(true, false, false)), I2sSyncWait(EnableBit),
      SerctrlWrite(None, Some(Transmit)),
      CtrlaWrite(SetAll(true)), I2sSyncWait(AllBits) ]
  }

  function SetupAccesses(): seq<Event> {
    ClockSetupAccesses() + [ApbcI2sWrite] + I2sConfigureAccesses() + I2sEnableTxAccesses()
  }

  /** The set-up writes nothing to DATA[0]. */
  lemma SetupLog()
    ensures DataWrites(SetupAccesses()) == [] && ClearedBeforeData(SetupAccesses())
  {
    NoDataWrites(SetupAccesses());
  }

  /** The data-register log of a whole run is the played words, and every data write in it
      comes straight after an underrun clear. */
  lemma RunLog(data: seq<Byte>, n: nat)
    requires Playable(|data|, n)
    ensures DataWrites(SetupAccesses() + PlayAccesses(data, n)) == PlayedWords(data, n)
    ensures ClearedBeforeData(SetupAccesses() + PlayAccesses(data, n))
  {
    SetupLog();
    DataWritesAppend(SetupAccesses(), PlayAccesses(data, n));
    PlayLog(data, n);
    PlayClearsUnderrun(data, n);
    ClearedBeforeDataAppend(SetupAccesses(), PlayAccesses(data, n));
  }

  /** Lines 49-83 of `main`: generic clock 3 divides the 48 MHz DFLL by 17 (the driver's
      `DIVIDE`) and feeds I2S0; each GCLK write waits for the previous one to synchronise. */
  method SetupClocks(p: Peripherals)
    modifies p`gendiv, p`genctrl, p`routes, p`gclkSettled, p`trace
    ensures p.gendiv == old(p.gendiv)[I2sDriver.Gclk3 := I2sDriver.Divide]
    ensures p.genctrl == old(p.genctrl)[I2sDriver.Gclk3 := GenCtrl(Dfll48m, true, true)]
    ensures p.routes == old(p.routes)[I2s0 := ClockRoute(I2sDriver.Gclk3, true)]
    ensures p.gclkSettled
    ensures p.trace == old(p.trace) + ClockSetupAccesses()
  {
    p.GclkSync();
    p.WriteGendiv(I2sDriver.Gclk3, 17);
    p.GclkSync();
    p.WriteGenctrl(I2sDriver.Gclk3, GenCtrl(Dfll48m, true, true));
    p.GclkSync();
    p.WriteClockRoute(I2s0, ClockRoute(I2sDriver.Gclk3, true));
    p.GclkSync();
  }

  /** Lines 93-141 of `main`: whatever the I2S registers held before, afterwards all three
      enable bits are off and CLKCTRL[0] and the SERCTRL[0] format fields hold the driver's
      configuration. */
  method ConfigureI2s(p: Peripherals)
    requires p.syncBusy == {}
    modifies p`ctrla, p`syncBusy, p`clkctrl0, p`serctrl0, p`trace
    ensures p.syncBusy == {} && p.ctrla == AllOff
    ensures p.clkctrl0 == I2sDriver.ClockConfig()
    ensures p.serctrl0 == SerCtrl(I2sDriver.SerialFormat(), old(p.serctrl0).mode)
    ensures p.trace == old(p.trace) + I2sConfigureAccesses()
  {
    p.WriteCtrla(Clear(true, false, false));
    p.I2sSync(EnableBit);
    p.WriteCtrla(Clear(false, true, false));
    p.I2sSync(Cken0Bit);
    p.WriteClkctrl0(MainClockConfig());
    p.WriteCtrla(Clear(false, false, true));
    p.I2sSync(Seren0Bit);
    p.WriteSerctrl0(Some(MainSerialFormat()), None);
  }

  /** Lines 145-168 of `main`: transmit mode, then everything on. */
  method EnableTx(p: Peripherals)
    requires p.syncBusy == {} && !p.ctrla.seren0
    modifies p`ctrla, p`syncBusy, p`serctrl0, p`trace
    ensures p.syncBusy == {} && p.ctrla == AllOn
    ensures p.serctrl0 == SerCtrl(old(p.serctrl0).format, Transmit)
    ensures p.trace == old(p.trace) + I2sEnableTxAccesses()
  {
    p.WriteCtrla(Clear(true, false, false));
    p.I2sSync(EnableBit);
    p.WriteSerctrl0(None, Some(Transmit));
    p.WriteCtrla(SetAll(true));
    p.I2sSync(AllBits);
  }

  /** Lines 49-168 of `main`: clocks, then the I2S bus clock, then the I2S block. */
  method Setup(p: Peripherals)
    requires p.syncBusy == {}
    modifies p
    ensures p.gendiv == old(p.gendiv)[I2sDriver.Gclk3 := I2sDriver.Divide]
    ensures p.genctrl == old(p.genctrl)[I2sDriver.Gclk3 := GenCtrl(Dfll48m, true, true)]
    ensures p.routes == old(p.routes)[I2s0 := ClockRoute(I2sDriver.Gclk3, true)]
    ensures p.gclkSettled && p.apbcI2s && p.syncBusy == {}
    ensures p.ctrla == AllOn
    ensures p.clkctrl0 == I2sDriver.ClockConfig() && p.serctrl0 == I2sDriver.SerializerConfig()
    ensures p.txur0 == old(p.txur0) && p.txReady == old(p.txReady)
    ensures p.trace == old(p.trace) + SetupAccesses()
  {
    SetupClocks(p);
    p.WriteApbcI2s();
    ConfigureI2s(p);
    EnableTx(p);
  }

  /** Lines 171-199 of `main`, for `m` iterations of the loop. Returns the number of frames
      sent: `m`, or fewer when the loop panics first (fewer than `m` means it panicked). After
      every frame the data register has received its word twice, each after an underrun
      clear. */
  method Play(p: Peripherals, data: seq<Byte>, m: nat) returns (frames: nat)
    requires p.syncBusy == {} && p.ctrla == AllOn
    modifies p`txReady, p`txur0, p`trace
    ensures frames == Completed(|data|, m) && Playable(|data|, frames)
    ensures p.trace == old(p.trace) + PlayAccesses(data, frames)
    ensures p.ctrla == AllOn && p.clkctrl0 == old(p.clkctrl0) && p.serctrl0 == old(p.serctrl0)
    ensures frames > 0 ==> !p.txReady && !p.txur0
    ensures frames == 0 ==> p.txReady == old(p.txReady) && p.txur0 == old(p.txur0)
  {
    frames := 0;
    var next := 0;  // the offset the next `cycle.next()` returns
    while frames < m
      invariant frames <= m && Playable(|data|, frames)
      invariant |data| > 0 ==> next == CycleIndex(|data|, frames)
      invariant p.syncBusy == {} && p.ctrla == AllOn
      invariant p.trace == old(p.trace) + PlayAccesses(data, frames)
      invariant frames > 0 ==> !p.txReady && !p.txur0
      invariant frames == 0 ==> p.txReady == old(p.txReady) && p.txur0 == old(p.txur0)
    {
      var sent;
      sent, next := PlayFrame(p, data, frames, next, old(p.trace));
      if !sent {
        Stopped(|data|, m, frames);
        return;  // the iteration panicked
      }
      frames := frames + 1;
    }
    Stopped(|data|, m, frames);
  }

  /** One pass of the loop body, lines 173-198 of `main`, as iteration `k`: `next` is what the
      `k`-th `cycle.next()` returns. The pass panics before touching a register (`sent` false)
      exactly when the loop cannot run `k + 1` iterations; otherwise frame `k` has gone to both
      slots (the trace, `start` followed by the first `k` iterations' accesses, gains those of
      iteration `k`) and `after` is what the following `cycle.next()` returns. */
  method PlayFrame(p: Peripherals, data: seq<Byte>, k: nat, next: nat, ghost start: seq<Event>)
    returns (sent: bool, after: nat)
    requires p.syncBusy == {} && p.ctrla == AllOn && Playable(|data|, k)
    requires |data| > 0 ==> next == CycleIndex(|data|, k)
    requires p.trace == start + PlayAccesses(data, k)
    modifies p`txReady, p`txur0, p`trace
    ensures sent <==> Playable(|data|, k + 1)
    ensures sent ==> (after == CycleIndex(|data|, k + 1) && !p.txReady && !p.txur0 &&
                      p.trace == start + PlayAccesses(data, k + 1))
    ensures !sent ==> p.txReady == old(p.txReady) && p.txur0 == old(p.txur0) && p.trace == old(p.trace)
  {
    after := 0;
    if |data| == 0 {
      return false, after;  // the cycle over an empty range yields None: `unwrap` panics
    }
    var i := next;
    after := if next + 2 < |data| then next + 2 else 0;
    FrameInBounds(|data|, k);
    if i + 1 >= |data| {
      return false, after;  // last offset of an odd payload: `data[i + 1]` panics
    }
    var word := FromLeBytes(data[i], data[i + 1]);
    var scaled := Widen(word);
    assert scaled == FrameWord(data, k);
    WriteBothSlots(p, scaled);
    assert PlayAccesses(data, k + 1) == PlayAccesses(data, k) + SendWords([scaled, scaled]);
    sent := true;
  }

  /** Lines 180-198 of `main`: the same word to the left and then the right slot, each write
      after a ready wait and an underrun clear. */
  method WriteBothSlots(p: Peripherals, scaled: U32)
    requires p.syncBusy == {} && p.ctrla == AllOn
    modifies p`txReady, p`txur0, p`trace
    ensures !p.txReady && !p.txur0
    ensures p.trace == old(p.trace) + SendWords([scaled, scaled])
  {
    var slots := [scaled, scaled];
    for c := 0 to 2
      invariant c > 0 ==> !p.txReady && !p.txur0
      invariant p.trace == old(p.trace) + SendWords(slots[..c])
    {
      p.WaitTxReady();
      p.ClearUnderrun();
      p.WriteData0(scaled);
      assert slots[..c + 1][..c] == slots[..c];
    }
    assert slots[..2] == slots;
  }

  /** `main` for `m` loop iterations on the embedded file `wave`, given the register state the
      bootstrap left. A file shorter than the header panics before anything is touched (None);
      otherwise the trace is the set-up followed by the frames the loop completes. */
  method Run(wave: seq<Byte>, gendiv: map<nat, nat>, genctrl: map<nat, GenCtrl>,
             routes: map<ClockUser, ClockRoute>, ctrla: Ctrla, clkctrl0: ClkCtrl, serctrl0: SerCtrl,
             txur0: bool, m: nat)
    returns (p: Peripherals, frames: Option<nat>)
    ensures frames.Some? <==> Payload(wave).Some?
    ensures frames.Some? ==> frames.value == Completed(|Payload(wave).value|, m)
    ensures frames.Some? ==> (Playable(|Payload(wave).value|, frames.value) &&
      p.trace == SetupAccesses() + PlayAccesses(Payload(wave).value, frames.value))
    ensures frames.Some? ==> DataWrites(p.trace) == PlayedWords(Payload(wave).value, frames.value)
    ensures frames.Some? ==> ClearedBeforeData(p.trace)
    ensures frames.None? ==> p.trace == []
  {
    var payload := Payload(wave);
    p := new Peripherals.Take(gendiv, genctrl, routes, ctrla, clkctrl0, serctrl0, txur0);
    if payload.None? {
      frames := None;
      return;
    }
    var data := payload.value;
    Setup(p);
    assert p.trace == SetupAccesses();
    var n := Play(p, data, m);
    assert p.trace == SetupAccesses() + PlayAccesses(data, n);
    RunLog(data, n);
    frames := Some(n);
  }
}
