/**
 * The NEO430 firmware's VCTCXO tamer driver.  The firmware keeps a cached
 * copy of the tamer's 8-bit control register, changes it bit by bit and
 * writes every change through to the register over the Wishbone bus.
 *
 * The `VT_*` register addresses and bit masks and the values of the tune
 * mode enumeration come from vctcxo_tamer.h, which is not part of this
 * model; they are the fields of a `Config`.  Only their low eight bits
 * reach the 8-bit cache, the 8-bit status byte and the 8-bit addresses, so
 * each is a `bv8`.  The properties that need the masks not to overlap say
 * so in their preconditions.
 *
 * The bus is an oracle `bus`: given the position of an access in the trace
 * and the address, it yields the byte a read returns.  That covers any
 * device, and also the read that times out and returns 0.
 */
module Tamer {

  datatype Config = Config(
    ctrlAddr: bv8, stateAddr: bv8,
    dacAddr0: bv8, dacAddr1: bv8,
    err1sAddr: bv8, err10sAddr: bv8, err100sAddr: bv8,
    statAddr: bv8,
    ctrlReset: bv8, ctrlIrqEn: bv8, ctrlIrqClr: bv8, ctrlTuneMode: bv8,
    statErr1s: bv8, statErr10s: bv8, statErr100s: bv8,
    modeDisabled: int, mode1Pps: int, mode10Mhz: int)

  /** Bits 6 and 7 of the control register, where the mode is shifted to. */
  const ModeField: bv8 := 0xC0

  /**
   * The control bits the tune-mode sequence touches do not overlap: reset,
   * interrupt enable and tune mode are separate fields, and the mode's two
   * bits are neither the reset nor the interrupt-enable bit.
   */
  predicate MasksDisjoint(cfg: Config)
  {
    && cfg.ctrlReset & cfg.ctrlIrqEn == 0
    && cfg.ctrlReset & cfg.ctrlTuneMode == 0
    && cfg.ctrlIrqEn & cfg.ctrlTuneMode == 0
    && (cfg.ctrlReset | cfg.ctrlIrqEn) & ModeField == 0
  }

  /** The three case labels of the mode switch are distinct, as C requires. */
  predicate ModesDistinct(cfg: Config)
  {
    cfg.modeDisabled != cfg.mode1Pps && cfg.modeDisabled != cfg.mode10Mhz && cfg.mode1Pps != cfg.mode10Mhz
  }

  /** One Wishbone access: the byte written, or the byte a read returned. */
  datatype Access = BusWrite(addr: bv8, data: bv8) | BusRead(addr: bv8, data: bv8)

  /** The byte a read returns, given how many accesses precede it and its address. */
  type Bus = (nat, bv8) -> bv8

  // ---------------------------------------------------------------------
  // The byte operations of the driver, one function per C operator.

  /** `c | m`. */
  function SetBits(c: bv8, m: bv8): bv8
  {
    c | m
  }

  /** `c & ~m`. */
  function ClearBits(c: bv8, m: bv8): bv8
  {
    c & !m
  }

  /** Setting `m` turns its bits on, clearing turns them off, and neither touches any other bit. */
  lemma SetClearBits(c: bv8, m: bv8)
    ensures SetBits(c, m) & m == m && SetBits(c, m) & !m == c & !m
    ensures ClearBits(c, m) & m == 0 && ClearBits(c, m) & !m == c & !m
  {
    SetTurnsOn(c, m);
    SetKeepsOthers(c, m);
    ClearTurnsOff(c, m);
    ClearKeepsOthers(c, m);
  }

  lemma SetTurnsOn(c: bv8, m: bv8)
    ensures SetBits(c, m) & m == m
  {
  }

  lemma SetKeepsOthers(c: bv8, m: bv8)
    ensures SetBits(c, m) & !m == c & !m
  {
  }

  lemma ClearTurnsOff(c: bv8, m: bv8)
    ensures ClearBits(c, m) & m == 0
  {
  }

  lemma ClearKeepsOthers(c: bv8, m: bv8)
    ensures ClearBits(c, m) & !m == c & !m
  {
  }

  /** `(x & m) ? true : false`. */
  predicate Has(x: bv8, m: bv8)
  {
    x & m != 0
  }

  /** `offset++` on a `uint8_t`: 0xFF is followed by 0x00. */
  function Inc(a: bv8): bv8
  {
    a + 1
  }

  /**
   * `((uint8_t) mode) << 6` or-ed into the 8-bit cache: the cast keeps the mode
   * modulo 256, the shift multiplies the promoted `int` by 64, and the store
   * keeps the result modulo 256.
   */
  function ModeBits(mode: int): bv8
  {
    ((mode % 0x100) * 0x40 % 0x100) as bv8
  }

  /** The cast to 8 bits keeps the mode's two lowest bits. */
  lemma CastKeepsLowBits(mode: int)
    ensures mode % 0x100 % 4 == mode % 4
  {
    var q, k := mode / 0x100, mode % 0x100;
    var a, r := k / 4, k % 4;
    assert k == 4 * a + r;
    assert mode == 0x100 * q + k;
    assert mode == 4 * (0x40 * q + a) + r;
    assert 0 <= r < 4;
  }

  /** Shifting a byte left by 6 within 8 bits keeps only its two lowest bits. */
  lemma ShiftKeepsLowBits(k: int)
    requires 0 <= k < 0x100
    ensures k * 0x40 % 0x100 == 0x40 * (k % 4)
  {
    var a, r := k / 4, k % 4;
    assert k * 0x40 == 0x100 * a + 0x40 * r;
  }

  /** Of the cast mode only the two lowest bits survive the shift and the store. */
  lemma ModeBitsValue(mode: int)
    ensures (mode % 0x100) * 0x40 % 0x100 == 0x40 * (mode % 4)
  {
    CastKeepsLowBits(mode);
    ShiftKeepsLowBits(mode % 0x100);
  }

  /** A mode that fits in two bits is shifted unchanged into bits 6 and 7. */
  lemma SmallModeValue(r: int)
    requires 0 <= r < 4
    ensures (r % 0x100) * 0x40 % 0x100 == 0x40 * r
  {
    assert r % 0x100 == r;
  }

  /** A value that is a multiple of 64 below 256 sets no bit outside bits 6 and 7. */
  lemma TopBitsField(v: int)
    requires v == 0x00 || v == 0x40 || v == 0x80 || v == 0xC0
    ensures (v as bv8) & !ModeField == 0
  {
    if v == 0x00 {
      assert (v as bv8) == 0x00;
    } else if v == 0x40 {
      assert (v as bv8) == 0x40;
    } else if v == 0x80 {
      assert (v as bv8) == 0x80;
    } else {
      assert (v as bv8) == 0xC0;
    }
  }

  /** The mode's bits lie in bits 6 and 7, and every mode is cut to its two lowest bits (4 acts as 0, 5 as 1). */
  lemma ModeBitsField(mode: int)
    ensures ModeBits(mode) & !ModeField == 0
    ensures ModeBits(mode) == ModeBits(mode % 4)
  {
    ModeBitsValue(mode);
    SmallModeValue(mode % 4);
    TopBitsField((mode % 0x100) * 0x40 % 0x100);
  }

  /** A byte widened to the 32-bit accumulator of read_count. */
  function Widen(b: bv8): bv32
  {
    b as bv32
  }

  /** `w | (b << k)`: the byte `b` or'ed into `w` at bit `k`. */
  function Merge(w: bv32, b: bv8, k: nat): bv32
    requires k <= 24
  {
    w | (b as bv32 << k)
  }

  /** `val & 0x00FF`. */
  function LowByte(val: bv16): bv8
  {
    (val & 0x00FF) as bv8
  }

  /** `(val & 0xFF00) >> 8`. */
  function HighByte(val: bv16): bv8
  {
    ((val & 0xFF00) >> 8) as bv8
  }

  // ---------------------------------------------------------------------
  // set_tune_mode.

  predicate Recognised(cfg: Config, mode: int)
  {
    mode == cfg.modeDisabled || mode == cfg.mode1Pps || mode == cfg.mode10Mhz
  }

  /** The modes in which the tamer raises its interrupt. */
  predicate InterruptMode(cfg: Config, mode: int)
  {
    mode == cfg.mode1Pps || mode == cfg.mode10Mhz
  }

  /**
   * The control values set_tune_mode writes, in order: none for an
   * unrecognised mode; otherwise the cache with the interrupt disabled,
   * then with the new mode, then with the counters in reset, then (unless
   * the mode is 0) with them released, then (in an interrupt mode) with
   * the interrupt enabled again.
   */
  function TuneModeSteps(cfg: Config, c: bv8, mode: int): (cs: seq<bv8>)
    ensures Recognised(cfg, mode) <==> cs != []
  {
    if !Recognised(cfg, mode) then []
    else ModeSequence(c, cfg.ctrlIrqEn, cfg.ctrlReset, cfg.ctrlTuneMode, ModeBits(mode), mode != 0, InterruptMode(cfg, mode))
  }

  /**
   * The writes of a recognised mode, over the masks `irqEn`, `reset` and
   * `tune`, the shifted mode `mb`, whether the counters are released and
   * whether the interrupt is enabled again.
   */
  function ModeSequence(c: bv8, irqEn: bv8, reset: bv8, tune: bv8, mb: bv8, release: bool, interrupt: bool): (cs: seq<bv8>)
    ensures |cs| == 3 + (if release then 1 else 0) + (if interrupt then 1 else 0)
  {
    var c1 := ClearBits(c, irqEn);
    var c2 := SetBits(ClearBits(c1, tune), mb);
    var c3 := SetBits(c2, reset);
    var c4 := if release then ClearBits(c3, reset) else c3;
    var c5 := if interrupt then SetBits(c4, irqEn) else c4;
    Picked(c1, c2, c3, c4, c5, release, interrupt)
  }

  /**
   * The values written of the five a mode sequence computes: the first
   * three always, the fourth when the counters are released, the fifth
   * when the interrupt is enabled again.
   */
  function Picked(c1: bv8, c2: bv8, c3: bv8, c4: bv8, c5: bv8, release: bool, interrupt: bool): (cs: seq<bv8>)
    ensures |cs| == 3 + (if release then 1 else 0) + (if interrupt then 1 else 0)
  {
    var s3 := [c1] + [c2] + [c3];
    var s4 := if release then s3 + [c4] else s3;
    if interrupt then s4 + [c5] else s4
  }

  /** At the end of ModeSequence the interrupt is enabled exactly when asked, given non-overlapping masks. */
  lemma ModeSequenceInterrupt(c: bv8, irqEn: bv8, reset: bv8, tune: bv8, mb: bv8, release: bool, interrupt: bool)
    requires reset & irqEn == 0 && irqEn & tune == 0 && irqEn & mb == 0
    ensures LastOr(c, ModeSequence(c, irqEn, reset, tune, mb, release, interrupt)) & irqEn == (if interrupt then irqEn else 0)
  {
  }

  /** At the end of ModeSequence the counters are released exactly when asked, given non-overlapping masks. */
  lemma ModeSequenceReset(c: bv8, irqEn: bv8, reset: bv8, tune: bv8, mb: bv8, release: bool, interrupt: bool)
    requires reset & irqEn == 0 && reset & mb == 0
    ensures LastOr(c, ModeSequence(c, irqEn, reset, tune, mb, release, interrupt)) & reset == (if release then 0 else reset)
  {
  }

  /** At the end of ModeSequence the tune field holds the mode, given non-overlapping masks. */
  lemma ModeSequenceTune(c: bv8, irqEn: bv8, reset: bv8, tune: bv8, mb: bv8, release: bool, interrupt: bool)
    requires reset & tune == 0 && irqEn & tune == 0
    ensures LastOr(c, ModeSequence(c, irqEn, reset, tune, mb, release, interrupt)) & tune == mb & tune
  {
  }

  /** At the end of ModeSequence every bit of the mode is set, given non-overlapping masks. */
  lemma ModeSequenceMode(c: bv8, irqEn: bv8, reset: bv8, tune: bv8, mb: bv8, release: bool, interrupt: bool)
    requires reset & mb == 0 && irqEn & mb == 0
    ensures LastOr(c, ModeSequence(c, irqEn, reset, tune, mb, release, interrupt)) & mb == mb
  {
  }

  /** The cache after writing the values `cs` through it: the last one, or `c` if there is none. */
  function LastOr(c: bv8, cs: seq<bv8>): bv8
  {
    if cs == [] then c else cs[|cs| - 1]
  }

  /** Writes of the values `cs` to the address `addr`, one after the other. */
  function WritesTo(addr: bv8, cs: seq<bv8>): (es: seq<Access>)
    ensures |es| == |cs|
    ensures forall i :: 0 <= i < |cs| ==> es[i] == BusWrite(addr, cs[i])
  {
    if cs == [] then [] else [BusWrite(addr, cs[0])] + WritesTo(addr, cs[1..])
  }

  /** The values set_tune_mode writes, named step by step, are those of TuneModeSteps. */
  lemma TuneModeValues(cfg: Config, mode: int, c: bv8, c1: bv8, c2: bv8, c3: bv8, c4: bv8, c5: bv8)
    requires Recognised(cfg, mode)
    requires c1 == ClearBits(c, cfg.ctrlIrqEn)
    requires c2 == SetBits(ClearBits(c1, cfg.ctrlTuneMode), ModeBits(mode))
    requires c3 == SetBits(c2, cfg.ctrlReset)
    requires c4 == if mode != 0 then ClearBits(c3, cfg.ctrlReset) else c3
    requires c5 == if InterruptMode(cfg, mode) then SetBits(c4, cfg.ctrlIrqEn) else c4
    ensures TuneModeSteps(cfg, c, mode) == Picked(c1, c2, c3, c4, c5, mode != 0, InterruptMode(cfg, mode))
  {
  }

  /** Writes of the picked values, appended one call after another, are the writes of Picked. */
  lemma PickedWrites(t: seq<Access>, a: bv8, c1: bv8, c2: bv8, c3: bv8, c4: bv8, c5: bv8, release: bool, interrupt: bool)
    ensures var t3 := t + [BusWrite(a, c1)] + [BusWrite(a, c2)] + [BusWrite(a, c3)];
            var t4 := if release then t3 + [BusWrite(a, c4)] else t3;
            (if interrupt then t4 + [BusWrite(a, c5)] else t4) == t + WritesTo(a, Picked(c1, c2, c3, c4, c5, release, interrupt))
  {
    var s3 := [c1] + [c2] + [c3];
    var s4 := if release then s3 + [c4] else s3;
    ThreeWrites(t, a, c1, c2, c3);
    if release {
      AppendWrite(t, a, s3, c4);
    }
    if interrupt {
      AppendWrite(t, a, s4, c5);
    }
  }

  /** When a skipped step leaves the value as it was, the last picked value is the fifth. */
  lemma PickedLast(c: bv8, c1: bv8, c2: bv8, c3: bv8, c4: bv8, c5: bv8, release: bool, interrupt: bool)
    requires !release ==> c4 == c3
    requires !interrupt ==> c5 == c4
    ensures LastOr(c, Picked(c1, c2, c3, c4, c5, release, interrupt)) == c5
  {
  }

  /**
   * The cache values and traces set_tune_mode passes through, step by
   * step, end in the writes and the cache TuneModeSteps describes.
   */
  lemma TuneModeTrace(cfg: Config, mode: int, a: bv8, t: seq<Access>, c: bv8, c1: bv8, c2: bv8, c3: bv8, c4: bv8, c5: bv8,
                      t1: seq<Access>, t2: seq<Access>, t3: seq<Access>, t4: seq<Access>, t5: seq<Access>)
    requires Recognised(cfg, mode)
    requires c1 == ClearBits(c, cfg.ctrlIrqEn) && t1 == t + [BusWrite(a, c1)]
    requires c2 == SetBits(ClearBits(c1, cfg.ctrlTuneMode), ModeBits(mode)) && t2 == t1 + [BusWrite(a, c2)]
    requires c3 == SetBits(c2, cfg.ctrlReset) && t3 == t2 + [BusWrite(a, c3)]
    requires mode != 0 ==> c4 == ClearBits(c3, cfg.ctrlReset) && t4 == t3 + [BusWrite(a, c4)]
    requires mode == 0 ==> c4 == c3 && t4 == t3
    requires InterruptMode(cfg, mode) ==> c5 == SetBits(c4, cfg.ctrlIrqEn) && t5 == t4 + [BusWrite(a, c5)]
    requires !InterruptMode(cfg, mode) ==> c5 == c4 && t5 == t4
    ensures t5 == t + WritesTo(a, TuneModeSteps(cfg, c, mode))
    ensures c5 == LastOr(c, TuneModeSteps(cfg, c, mode))
  {
    TuneModeValues(cfg, mode, c, c1, c2, c3, c4, c5);
    PickedWrites(t, a, c1, c2, c3, c4, c5, mode != 0, InterruptMode(cfg, mode));
    PickedLast(c, c1, c2, c3, c4, c5, mode != 0, InterruptMode(cfg, mode));
  }

  lemma ThreeWrites(t: seq<Access>, a: bv8, c1: bv8, c2: bv8, c3: bv8)
    ensures t + [BusWrite(a, c1)] + [BusWrite(a, c2)] + [BusWrite(a, c3)] == t + WritesTo(a, [c1] + [c2] + [c3])
  {
    assert t + WritesTo(a, [c1]) == t + [BusWrite(a, c1)];
    AppendWrite(t, a, [c1], c2);
    AppendWrite(t, a, [c1] + [c2], c3);
  }

  /** One more write appended to a trace of writes of `cs`. */
  lemma AppendWrite(t: seq<Access>, a: bv8, cs: seq<bv8>, x: bv8)
    ensures t + WritesTo(a, cs) + [BusWrite(a, x)] == t + WritesTo(a, cs + [x])
  {
    WritesToSnoc(a, cs, x);
  }

  lemma WritesToSnoc(addr: bv8, cs: seq<bv8>, x: bv8)
    ensures WritesTo(addr, cs + [x]) == WritesTo(addr, cs) + [BusWrite(addr, x)]
  {
    if cs != [] {
      assert (cs + [x])[1..] == cs[1..] + [x];
      WritesToSnoc(addr, cs[1..], x);
    }
  }

  /**
   * A recognised mode writes three, four or five values: one more when the
   * mode is not 0 (the release of the counters), one more in an interrupt
   * mode (the interrupt enabled again).
   */
  lemma TuneModeLength(cfg: Config, c: bv8, mode: int)
    requires Recognised(cfg, mode)
    ensures |TuneModeSteps(cfg, c, mode)| == 3 + (if mode != 0 then 1 else 0) + (if InterruptMode(cfg, mode) then 1 else 0)
  {
  }

  /**
   * The order of the writes: the first disables the interrupt, the third
   * puts the counters into reset, and for a mode other than 0 the fourth
   * releases them.
   */
  lemma TuneModeOrder(cfg: Config, c: bv8, mode: int)
    requires Recognised(cfg, mode)
    ensures var cs := TuneModeSteps(cfg, c, mode);
            && cs[0] & cfg.ctrlIrqEn == 0
            && cs[2] & cfg.ctrlReset == cfg.ctrlReset
            && (mode != 0 ==> cs[3] & cfg.ctrlReset == 0)
  {
    var c1 := ClearBits(c, cfg.ctrlIrqEn);
    var c2 := SetBits(ClearBits(c1, cfg.ctrlTuneMode), ModeBits(mode));
    var c3 := SetBits(c2, cfg.ctrlReset);
    var c4 := if mode != 0 then ClearBits(c3, cfg.ctrlReset) else c3;
    var c5 := if InterruptMode(cfg, mode) then SetBits(c4, cfg.ctrlIrqEn) else c4;
    TuneModeValues(cfg, mode, c, c1, c2, c3, c4, c5);
    ClearTurnsOff(c, cfg.ctrlIrqEn);
    SetTurnsOn(c2, cfg.ctrlReset);
    ClearTurnsOff(c3, cfg.ctrlReset);
  }

  /** The shifted mode shares no bit with the reset and interrupt-enable masks. */
  lemma ModeDisjoint(cfg: Config, mode: int)
    requires MasksDisjoint(cfg)
    ensures cfg.ctrlIrqEn & ModeBits(mode) == 0 && cfg.ctrlReset & ModeBits(mode) == 0
  {
    var mb := ModeBits(mode);
    assert (cfg.ctrlReset | cfg.ctrlIrqEn) & mb == 0 by {
      ModeBitsField(mode);
      FieldDisjoint(cfg.ctrlReset | cfg.ctrlIrqEn, mb);
    }
    SplitDisjoint(cfg.ctrlReset, cfg.ctrlIrqEn, mb);
  }

  /** At the end of a recognised mode the interrupt is enabled exactly in the 1 PPS and 10 MHz modes. */
  lemma TuneModeInterrupt(cfg: Config, c: bv8, mode: int)
    requires MasksDisjoint(cfg) && Recognised(cfg, mode)
    ensures LastOr(c, TuneModeSteps(cfg, c, mode)) & cfg.ctrlIrqEn == (if InterruptMode(cfg, mode) then cfg.ctrlIrqEn else 0)
  {
    ModeDisjoint(cfg, mode);
    ModeSequenceInterrupt(c, cfg.ctrlIrqEn, cfg.ctrlReset, cfg.ctrlTuneMode, ModeBits(mode), mode != 0, InterruptMode(cfg, mode));
  }

  /** At the end of a recognised mode the counters are held in reset exactly when the mode is 0. */
  lemma TuneModeCounters(cfg: Config, c: bv8, mode: int)
    requires MasksDisjoint(cfg) && Recognised(cfg, mode)
    ensures LastOr(c, TuneModeSteps(cfg, c, mode)) & cfg.ctrlReset == (if mode != 0 then 0 else cfg.ctrlReset)
  {
    ModeDisjoint(cfg, mode);
    ModeSequenceReset(c, cfg.ctrlIrqEn, cfg.ctrlReset, cfg.ctrlTuneMode, ModeBits(mode), mode != 0, InterruptMode(cfg, mode));
  }

  /** At the end of a recognised mode the tune field holds the shifted mode. */
  lemma TuneModeField(cfg: Config, c: bv8, mode: int)
    requires MasksDisjoint(cfg) && Recognised(cfg, mode)
    ensures LastOr(c, TuneModeSteps(cfg, c, mode)) & cfg.ctrlTuneMode == ModeBits(mode) & cfg.ctrlTuneMode
  {
    ModeSequenceTune(c, cfg.ctrlIrqEn, cfg.ctrlReset, cfg.ctrlTuneMode, ModeBits(mode), mode != 0, InterruptMode(cfg, mode));
  }

  /** At the end of a recognised mode every bit of the shifted mode is set. */
  lemma TuneModeBitsSet(cfg: Config, c: bv8, mode: int)
    requires MasksDisjoint(cfg) && Recognised(cfg, mode)
    ensures LastOr(c, TuneModeSteps(cfg, c, mode)) & ModeBits(mode) == ModeBits(mode)
  {
    ModeDisjoint(cfg, mode);
    ModeSequenceMode(c, cfg.ctrlIrqEn, cfg.ctrlReset, cfg.ctrlTuneMode, ModeBits(mode), mode != 0, InterruptMode(cfg, mode));
  }

  lemma SplitDisjoint(a: bv8, b: bv8, mb: bv8)
    requires (a | b) & mb == 0
    ensures b & mb == 0 && a & mb == 0
  {
  }

  lemma FieldDisjoint(k: bv8, mb: bv8)
    requires k & ModeField == 0 && mb & !ModeField == 0
    ensures k & mb == 0
  {
  }

  // ---------------------------------------------------------------------
  // Counts, the DAC value and the interrupt packet.

  /** `b0 | b1 << 8 | b2 << 16 | b3 << 24`, accumulated as read_count does. */
  function Assemble(b0: bv8, b1: bv8, b2: bv8, b3: bv8): bv32
  {
    Merge(Merge(Merge(Widen(b0), b1, 8), b2, 16), b3, 24)
  }

  /** The word holds the four bytes little-endian: each is recovered from its own eight bits. */
  lemma AssembleLittleEndian(b0: bv8, b1: bv8, b2: bv8, b3: bv8)
    ensures var w := Assemble(b0, b1, b2, b3);
            && (w & 0xFF) as bv8 == b0
            && ((w >> 8) & 0xFF) as bv8 == b1
            && ((w >> 16) & 0xFF) as bv8 == b2
            && (w >> 24) as bv8 == b3
  {
  }

  /** The `int32_t` a 32-bit pattern stands for, in two's complement. */
  function Int32(w: bv32): (r: int)
    ensures -0x8000_0000 <= r < 0x8000_0000
    ensures (r - w as int) % 0x1_0000_0000 == 0
  {
    var n := w as int;
    if n < 0x8000_0000 then n else n - 0x1_0000_0000
  }

  /** read_count's four reads from position `pos`: addresses `a` to `a + 3`, wrapping round within 8 bits. */
  function CountReads(bus: Bus, pos: nat, a: bv8): (es: seq<Access>)
    ensures |es| == 4
  {
    [BusRead(a, bus(pos, a)), BusRead(Inc(a), bus(pos + 1, Inc(a))),
     BusRead(Inc(Inc(a)), bus(pos + 2, Inc(Inc(a)))), BusRead(Inc(Inc(Inc(a))), bus(pos + 3, Inc(Inc(Inc(a)))))]
  }

  /** The count read_count returns when its first read is the access at position `pos`. */
  function CountAt(bus: Bus, pos: nat, a: bv8): int
  {
    var es := CountReads(bus, pos, a);
    Int32(Assemble(es[0].data, es[1].data, es[2].data, es[3].data))
  }

  /** The four reads are of the consecutive addresses `a` to `a + 3`, in that order. */
  lemma CountReadsAddresses(bus: Bus, pos: nat, a: bv8)
    ensures var es := CountReads(bus, pos, a);
            && es[0].addr == a && es[1].addr == a + 1 && es[2].addr == a + 2 && es[3].addr == a + 3
  {
  }

  /** The DAC's two bytes join back into the value: `msb << 8 | lsb == val`. */
  lemma DacBytesJoin(val: bv16)
    ensures (HighByte(val) as bv16 << 8) | LowByte(val) as bv16 == val
  {
  }

  /** The cache once the interrupt routine has disabled the interrupt and stopped the counters. */
  function IsrCtrl(cfg: Config, c: bv8): bv8
  {
    SetBits(ClearBits(c, cfg.ctrlIrqEn), cfg.ctrlReset)
  }

  /** The position of the status read among the interrupt routine's accesses. */
  const StatusIndex: nat := 14

  /**
   * The accesses of the interrupt routine starting at position `pos`: two
   * control writes, the three counts, the status byte, and the write that
   * clears the interrupt.
   */
  function IsrAccesses(cfg: Config, bus: Bus, pos: nat, c: bv8): (es: seq<Access>)
    ensures |es| == 16
  {
    [BusWrite(cfg.ctrlAddr, ClearBits(c, cfg.ctrlIrqEn))] + [BusWrite(cfg.ctrlAddr, IsrCtrl(cfg, c))]
      + CountReads(bus, pos + 2, cfg.err1sAddr)
      + CountReads(bus, pos + 6, cfg.err10sAddr)
      + CountReads(bus, pos + 10, cfg.err100sAddr)
      + [BusRead(cfg.statAddr, bus(pos + StatusIndex, cfg.statAddr))]
      + [BusWrite(cfg.ctrlAddr, SetBits(IsrCtrl(cfg, c), cfg.ctrlIrqClr))]
  }

  /** The accesses of the interrupt routine, as its calls append them one after another. */
  lemma IsrTrace(t: seq<Access>, cfg: Config, bus: Bus, c: bv8)
    ensures var pos := |t|;
            t + [BusWrite(cfg.ctrlAddr, ClearBits(c, cfg.ctrlIrqEn))] + [BusWrite(cfg.ctrlAddr, IsrCtrl(cfg, c))]
              + CountReads(bus, pos + 2, cfg.err1sAddr)
              + CountReads(bus, pos + 6, cfg.err10sAddr)
              + CountReads(bus, pos + 10, cfg.err100sAddr)
              + [BusRead(cfg.statAddr, bus(pos + StatusIndex, cfg.statAddr))]
              + [BusWrite(cfg.ctrlAddr, SetBits(IsrCtrl(cfg, c), cfg.ctrlIrqClr))]
            == t + IsrAccesses(cfg, bus, pos, c)
  {
    var pos := |t|;
    var x2 := [BusWrite(cfg.ctrlAddr, ClearBits(c, cfg.ctrlIrqEn))] + [BusWrite(cfg.ctrlAddr, IsrCtrl(cfg, c))];
    var x3 := x2 + CountReads(bus, pos + 2, cfg.err1sAddr);
    var x4 := x3 + CountReads(bus, pos + 6, cfg.err10sAddr);
    var x5 := x4 + CountReads(bus, pos + 10, cfg.err100sAddr);
    var x6 := x5 + [BusRead(cfg.statAddr, bus(pos + StatusIndex, cfg.statAddr))];
    AppendAssoc(t, [BusWrite(cfg.ctrlAddr, ClearBits(c, cfg.ctrlIrqEn))], [BusWrite(cfg.ctrlAddr, IsrCtrl(cfg, c))]);
    AppendAssoc(t, x2, CountReads(bus, pos + 2, cfg.err1sAddr));
    AppendAssoc(t, x3, CountReads(bus, pos + 6, cfg.err10sAddr));
    AppendAssoc(t, x4, CountReads(bus, pos + 10, cfg.err100sAddr));
    AppendAssoc(t, x5, [BusRead(cfg.statAddr, bus(pos + StatusIndex, cfg.statAddr))]);
    AppendAssoc(t, x6, [BusWrite(cfg.ctrlAddr, SetBits(IsrCtrl(cfg, c), cfg.ctrlIrqClr))]);
  }

  lemma AppendAssoc(a: seq<Access>, b: seq<Access>, c: seq<Access>)
    ensures a + (b + c) == a + b + c
  {
  }

  /** The interrupt routine leaves the interrupt disabled and the counters in reset in the cache. */
  lemma IsrCtrlFacts(cfg: Config, c: bv8)
    requires cfg.ctrlReset & cfg.ctrlIrqEn == 0
    ensures IsrCtrl(cfg, c) & cfg.ctrlIrqEn == 0
    ensures IsrCtrl(cfg, c) & cfg.ctrlReset == cfg.ctrlReset
  {
  }

  /** The interrupt routine's last access writes the cache with the clear bits set and no other bit changed. */
  lemma IsrClears(cfg: Config, bus: Bus, pos: nat, c: bv8)
    ensures var es := IsrAccesses(cfg, bus, pos, c);
            && es[15].BusWrite? && es[15].addr == cfg.ctrlAddr
            && es[15].data & cfg.ctrlIrqClr == cfg.ctrlIrqClr
            && es[15].data & !cfg.ctrlIrqClr == IsrCtrl(cfg, c) & !cfg.ctrlIrqClr
  {
    SetClearBits(IsrCtrl(cfg, c), cfg.ctrlIrqClr);
  }

  /**
   * Of the interrupt routine's accesses, the 15th reads the status byte,
   * and all its writes go to the control register.
   */
  lemma IsrAccessesFacts(cfg: Config, bus: Bus, pos: nat, c: bv8)
    ensures var es := IsrAccesses(cfg, bus, pos, c);
            && es[StatusIndex] == BusRead(cfg.statAddr, bus(pos + StatusIndex, cfg.statAddr))
            && forall i :: 0 <= i < 16 && es[i].BusWrite? ==> es[i].addr == cfg.ctrlAddr
  {
    var es := IsrAccesses(cfg, bus, pos, c);
    var r1 := CountReads(bus, pos + 2, cfg.err1sAddr);
    var r2 := CountReads(bus, pos + 6, cfg.err10sAddr);
    var r3 := CountReads(bus, pos + 10, cfg.err100sAddr);
    forall i | 2 <= i < 14
      ensures es[i].BusRead?
    {
      if i < 6 {
        assert es[i] == r1[i - 2];
      } else if i < 10 {
        assert es[i] == r2[i - 6];
      } else {
        assert es[i] == r3[i - 10];
      }
    }
  }

  /** The packet the interrupt routine fills for the main loop. */
  class PacketBuffer {
    var pps1sError: int
    var pps10sError: int
    var pps100sError: int
    var pps1sErrorFlag: bool
    var pps10sErrorFlag: bool
    var pps100sErrorFlag: bool
    var ready: bool

    constructor ()
      ensures !ready
    {
      ready := false;
    }

    /** The six result fields of the interrupt routine, written in one step; `ready` is left alone. */
    method Fill(e1: int, e10: int, e100: int, f1: bool, f10: bool, f100: bool)
      modifies this
      ensures pps1sError == e1 && pps10sError == e10 && pps100sError == e100
      ensures pps1sErrorFlag == f1 && pps10sErrorFlag == f10 && pps100sErrorFlag == f100
      ensures ready == old(ready)
    {
      pps1sError, pps10sError, pps100sError := e1, e10, e100;
      pps1sErrorFlag, pps10sErrorFlag, pps100sErrorFlag := f1, f10, f100;
    }

    /** Raise the flag the main loop polls. */
    method MarkReady()
      modifies this
      ensures ready
      ensures pps1sError == old(pps1sError) && pps10sError == old(pps10sError) && pps100sError == old(pps100sError)
      ensures pps1sErrorFlag == old(pps1sErrorFlag) && pps10sErrorFlag == old(pps10sErrorFlag)
      ensures pps100sErrorFlag == old(pps100sErrorFlag)
    {
      ready := true;
    }
  }

  // ---------------------------------------------------------------------
  // The driver state.

  class TamerDriver {
    const cfg: Config
    const bus: Bus
    /** The cached control register, `vctcxo_tamer_ctrl_reg`. */
    var ctrl: bv8
    /** Every Wishbone access so far. */
    var trace: seq<Access>

    /** The cache starts at 0x00 and nothing has been accessed. */
    constructor (cfg: Config, bus: Bus)
      ensures this.cfg == cfg && this.bus == bus
      ensures ctrl == 0 && trace == []
    {
      this.cfg := cfg;
      this.bus := bus;
      ctrl := 0;
      trace := [];
    }

    /** vctcxo_tamer_read: the byte at `addr` (0 when the bus times out). */
    method Read(addr: bv8) returns (data: bv8)
      modifies this
      ensures data == bus(|old(trace)|, addr)
      ensures trace == old(trace) + [BusRead(addr, data)] && ctrl == old(ctrl)
    {
      data := bus(|trace|, addr);
      trace := trace + [BusRead(addr, data)];
    }

    /** vctcxo_tamer_write: one write, complete or abandoned on timeout. */
    method Write(addr: bv8, data: bv8)
      modifies this
      ensures trace == old(trace) + [BusWrite(addr, data)] && ctrl == old(ctrl)
    {
      trace := trace + [BusWrite(addr, data)];
    }

    /** vctcxo_tamer_reset_counters: set or clear the reset bits in the cache, then write it. */
    method ResetCounters(reset: bool)
      modifies this
      ensures ctrl == if reset then SetBits(old(ctrl), cfg.ctrlReset) else ClearBits(old(ctrl), cfg.ctrlReset)
      ensures trace == old(trace) + [BusWrite(cfg.ctrlAddr, ctrl)]
    {
      if reset {
        ctrl := SetBits(ctrl, cfg.ctrlReset);
      } else {
        ctrl := ClearBits(ctrl, cfg.ctrlReset);
      }
      Write(cfg.ctrlAddr, ctrl);
    }

    /** vctcxo_tamer_enable_isr: set or clear the interrupt-enable bits in the cache, then write it. */
    method EnableIsr(enable: bool)
      modifies this
      ensures ctrl == if enable then SetBits(old(ctrl), cfg.ctrlIrqEn) else ClearBits(old(ctrl), cfg.ctrlIrqEn)
      ensures trace == old(trace) + [BusWrite(cfg.ctrlAddr, ctrl)]
    {
      if enable {
        ctrl := SetBits(ctrl, cfg.ctrlIrqEn);
      } else {
        ctrl := ClearBits(ctrl, cfg.ctrlIrqEn);
      }
      Write(cfg.ctrlAddr, ctrl);
    }

    /** vctcxo_tamer_clear_isr: write the cache with the clear bits set, leaving the cache as it is. */
    method ClearIsr()
      modifies this
      ensures ctrl == old(ctrl)
      ensures trace == old(trace) + [BusWrite(cfg.ctrlAddr, SetBits(ctrl, cfg.ctrlIrqClr))]
    {
      Write(cfg.ctrlAddr, SetBits(ctrl, cfg.ctrlIrqClr));
    }

    /** vctcxo_tamer_set_tune_mode; the TuneMode lemmas state what its writes achieve. */
    method SetTuneMode(mode: int)
      modifies this
      ensures trace == old(trace) + WritesTo(cfg.ctrlAddr, TuneModeSteps(cfg, old(ctrl), mode))
      ensures ctrl == LastOr(old(ctrl), TuneModeSteps(cfg, old(ctrl), mode))
    {
      if !Recognised(cfg, mode) {
        return;
      }
      ghost var t, c := trace, ctrl;
      EnableIsr(false);
      ghost var t1, c1 := trace, ctrl;
      WriteTuneField(mode);
      ghost var t2, c2 := trace, ctrl;
      ResetCounters(true);
      ghost var t3, c3 := trace, ctrl;
      if mode != 0 {
        ResetCounters(false);
      }
      ghost var t4, c4 := trace, ctrl;
      if InterruptMode(cfg, mode) {
        EnableIsr(true);
      }
      TuneModeTrace(cfg, mode, cfg.ctrlAddr, t, c, c1, c2, c3, c4, ctrl, t1, t2, t3, t4, trace);
    }

    /** The tuning-mode block of set_tune_mode: replace the tune field of the cache by the shifted mode, then write it. */
    method WriteTuneField(mode: int)
      modifies this
      ensures ctrl == SetBits(ClearBits(old(ctrl), cfg.ctrlTuneMode), ModeBits(mode))
      ensures trace == old(trace) + [BusWrite(cfg.ctrlAddr, ctrl)]
    {
      ctrl := ClearBits(ctrl, cfg.ctrlTuneMode);
      ctrl := SetBits(ctrl, ModeBits(mode));
      Write(cfg.ctrlAddr, ctrl);
    }

    /** vctcxo_tamer_read_count: four byte reads from `addr` upwards, or'ed together little-endian. */
    method ReadCount(addr: bv8) returns (value: int)
      modifies this
      ensures trace == old(trace) + CountReads(bus, |old(trace)|, addr) && ctrl == old(ctrl)
      ensures value == CountAt(bus, |old(trace)|, addr)
    {
      var offset := addr;
      var b := Read(offset);
      var w := Widen(b);
      offset := Inc(offset);
      b := Read(offset);
      w := Merge(w, b, 8);
      offset := Inc(offset);
      b := Read(offset);
      w := Merge(w, b, 16);
      offset := Inc(offset);
      b := Read(offset);
      w := Merge(w, b, 24);
      value := Int32(w);
    }

    /** vctcxo_trim_dac_write: the low byte to one register, then the high byte to the other; `cmd` is unused. */
    method TrimDacWrite(cmd: bv8, val: bv16)
      modifies this
      ensures trace == old(trace) + [BusWrite(cfg.dacAddr0, LowByte(val)), BusWrite(cfg.dacAddr1, HighByte(val))]
      ensures ctrl == old(ctrl)
    {
      var lsb := LowByte(val);
      var msb := HighByte(val);
      Write(cfg.dacAddr0, lsb);
      Write(cfg.dacAddr1, msb);
    }

    /**
     * vctcxo_tamer_isr: stop the interrupt and the counters, read the three
     * counts and the status byte into the packet, clear the interrupt and
     * mark the packet ready.
     */
    method Isr(pkt: PacketBuffer)
      modifies this, pkt
      ensures trace == old(trace) + IsrAccesses(cfg, bus, |old(trace)|, old(ctrl))
      ensures ctrl == IsrCtrl(cfg, old(ctrl))
      ensures pkt.pps1sError == CountAt(bus, |old(trace)| + 2, cfg.err1sAddr)
      ensures pkt.pps10sError == CountAt(bus, |old(trace)| + 6, cfg.err10sAddr)
      ensures pkt.pps100sError == CountAt(bus, |old(trace)| + 10, cfg.err100sAddr)
      ensures var status := bus(|old(trace)| + StatusIndex, cfg.statAddr);
              && pkt.pps1sErrorFlag == Has(status, cfg.statErr1s)
              && pkt.pps10sErrorFlag == Has(status, cfg.statErr10s)
              && pkt.pps100sErrorFlag == Has(status, cfg.statErr100s)
      ensures pkt.ready
    {
      ghost var t, c := trace, ctrl;
      EnableIsr(false);
      ResetCounters(true);
      var error1s := ReadCount(cfg.err1sAddr);
      var error10s := ReadCount(cfg.err10sAddr);
      var error100s := ReadCount(cfg.err100sAddr);
      var status := Read(cfg.statAddr);
      pkt.Fill(error1s, error10s, error100s, Has(status, cfg.statErr1s), Has(status, cfg.statErr10s), Has(status, cfg.statErr100s));
      ClearIsr();
      IsrTrace(t, cfg, bus, c);
      pkt.MarkReady();
    }

    /** vctcxo_tamer_init: clear the state register, then select the 1 PPS mode. */
    method Init()
      modifies this
      ensures trace == old(trace) + [BusWrite(cfg.stateAddr, 0)]
                       + WritesTo(cfg.ctrlAddr, TuneModeSteps(cfg, old(ctrl), cfg.mode1Pps))
      ensures ctrl == LastOr(old(ctrl), TuneModeSteps(cfg, old(ctrl), cfg.mode1Pps))
    {
      Write(cfg.stateAddr, 0);
      SetTuneMode(cfg.mode1Pps);
    }

    /** vctcxo_tamer_dis: select the disabled mode, then clear the state register. */
    method Dis()
      modifies this
      ensures trace == old(trace) + WritesTo(cfg.ctrlAddr, TuneModeSteps(cfg, old(ctrl), cfg.modeDisabled))
                       + [BusWrite(cfg.stateAddr, 0)]
      ensures ctrl == LastOr(old(ctrl), TuneModeSteps(cfg, old(ctrl), cfg.modeDisabled))
    {
      SetTuneMode(cfg.modeDisabled);
      Write(cfg.stateAddr, 0);
    }
  }

  /** After init the interrupt is enabled, and the counters run unless the 1 PPS mode is 0. */
  lemma InitFacts(cfg: Config, c: bv8)
    requires MasksDisjoint(cfg)
    ensures var f := LastOr(c, TuneModeSteps(cfg, c, cfg.mode1Pps));
            && f & cfg.ctrlIrqEn == cfg.ctrlIrqEn
            && f & cfg.ctrlReset == (if cfg.mode1Pps != 0 then 0 else cfg.ctrlReset)
  {
    TuneModeInterrupt(cfg, c, cfg.mode1Pps);
    TuneModeCounters(cfg, c, cfg.mode1Pps);
  }

  /** After dis the interrupt is disabled, and the counters stay in reset when the disabled mode is 0. */
  lemma DisFacts(cfg: Config, c: bv8)
    requires MasksDisjoint(cfg) && ModesDistinct(cfg)
    ensures var f := LastOr(c, TuneModeSteps(cfg, c, cfg.modeDisabled));
            && f & cfg.ctrlIrqEn == 0
            && f & cfg.ctrlReset == (if cfg.modeDisabled != 0 then 0 else cfg.ctrlReset)
  {
    TuneModeInterrupt(cfg, c, cfg.modeDisabled);
    TuneModeCounters(cfg, c, cfg.modeDisabled);
  }
}
