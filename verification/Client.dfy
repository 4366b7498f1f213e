/**
 * The value-level half of the GPSDO driver: joining a low/high register
 * pair into a signed 32-bit error, decoding STATUS into its three fields
 * and labels, and reading or changing the EN bit of CONTROL.
 */
module Client {
  import opened Bits
  import opened Registers

  // ---------------------------------------------------------------------
  // Signed 32-bit values split over two registers.

  /**
   * get_signed_32bit's arithmetic: `value = (high << 16) | low`, minus 2^32
   * when bit 31 (`(value >> 31) & 1`) is set.  The result is the 32-bit
   * two's-complement reading of the register pair.
   */
  function Signed32(low: int, high: int): (r: int)
    requires 0 <= low < 0x1_0000 && 0 <= high < 0x1_0000
    ensures -0x8000_0000 <= r < 0x8000_0000
    ensures r % 0x1_0000_0000 == high * 0x1_0000 + low
    ensures r < 0 <==> high >= 0x8000
  {
    var value := high * 0x1_0000 + low;
    assert 0 <= value < 0x1_0000_0000 by {
      MulMonotone(high, 0xFFFF, 0x1_0000);
    }
    assert value / 0x8000_0000 == (if high >= 0x8000 then 1 else 0) by {
      if high >= 0x8000 {
        MulMonotone(0x8000, high, 0x1_0000);
        DivModUnique(value, 0x8000_0000, 1, value - 0x8000_0000);
      } else {
        MulMonotone(high, 0x7FFF, 0x1_0000);
        DivModUnique(value, 0x8000_0000, 0, value);
      }
    }
    DivModUnique(value, 0x1_0000_0000, 0, value);
    DivModUnique(value - 0x1_0000_0000, 0x1_0000_0000, -1, value);
    if (value / 0x8000_0000) % 2 == 1 then value - 0x1_0000_0000 else value
  }

  /** Two 32-bit two's-complement values with the same low 32 bits are equal. */
  lemma Int32Unique(x: int, y: int)
    requires -0x8000_0000 <= x < 0x8000_0000 && -0x8000_0000 <= y < 0x8000_0000
    requires x % 0x1_0000_0000 == y % 0x1_0000_0000
    ensures x == y
  {
    var m := 0x1_0000_0000;
    assert x == (x / m) * m + x % m;
    assert y == (y / m) * m + y % m;
    assert x / m == (if x < 0 then -1 else 0) by {
      if x < 0 { DivModUnique(x, m, -1, x + m); } else { DivModUnique(x, m, 0, x); }
    }
    assert y / m == (if y < 0 then -1 else 0) by {
      if y < 0 { DivModUnique(y, m, -1, y + m); } else { DivModUnique(y, m, 0, y); }
    }
  }

  /**
   * Splitting a 32-bit signed value into the two 16-bit halves the hardware
   * exposes, and reading them back, gives the value again.
   */
  lemma Signed32OfHalves(x: int)
    requires -0x8000_0000 <= x < 0x8000_0000
    ensures Signed32(x % 0x1_0000, (x / 0x1_0000) % 0x1_0000) == x
  {
    Pow2Constants();
    assert x % 0x1_0000 == GetField(x, 0, 16);
    assert (x / 0x1_0000) % 0x1_0000 == GetField(x, 16, 16);
    var low := GetField(x, 0, 16);
    var high := GetField(x, 16, 16);
    ConcatFields(x, 16, 16);
    assert high * 0x1_0000 + low == GetField(x, 0, 32);
    assert GetField(x, 0, 32) == x % 0x1_0000_0000;
    var r := Signed32(low, high);
    Int32Unique(r, x);
  }

  /** Sign reconstruction of the all-ones, the sign-bit-only and the unit register pairs. */
  lemma Signed32Examples()
    ensures Signed32(0xFFFF, 0xFFFF) == -1
    ensures Signed32(0x0000, 0x8000) == -0x8000_0000
    ensures Signed32(0x0001, 0x0000) == 1
  {
  }

  // ---------------------------------------------------------------------
  // STATUS: state (bits 0-3), accuracy (bits 4-7), TPULSE (bit 8).

  /** The state label: "Coarse Tune", "Fine Tune" or "Unknown (n)". */
  datatype State = CoarseTune | FineTune | UnknownState(code: int)

  /** The accuracy label: one of the four table entries or "Unknown (n)". */
  datatype Accuracy = DisabledLowest | Tune1s | Tune2s | Tune3sHighest | UnknownAccuracy(code: int)

  datatype Status = Status(state: State, accuracy: Accuracy, tpulseActive: bool)

  /** The 4-bit code a state label stands for. */
  function StateCode(s: State): int
  {
    match s
    case CoarseTune => 0
    case FineTune => 1
    case UnknownState(n) => n
  }

  function AccuracyCode(a: Accuracy): int
  {
    match a
    case DisabledLowest => 0
    case Tune1s => 1
    case Tune2s => 2
    case Tune3sHighest => 3
    case UnknownAccuracy(n) => n
  }

  /** A label as decoding can produce it: "Unknown" only for codes the table does not name. */
  predicate ValidStatus(s: Status)
  {
    && 0 <= StateCode(s.state) < 16
    && (s.state.UnknownState? ==> s.state.code >= 2)
    && 0 <= AccuracyCode(s.accuracy) < 16
    && (s.accuracy.UnknownAccuracy? ==> s.accuracy.code >= 4)
  }

  /** get_status's state label: the code it carries back, "Unknown (n)" exactly for codes other than 0 and 1. */
  function StateOf(code: int): (s: State)
    ensures StateCode(s) == code
    ensures s.UnknownState? <==> code != 0 && code != 1
  {
    if code == 0 then CoarseTune else if code == 1 then FineTune else UnknownState(code)
  }

  /**
   * get_status's accuracy label: the code it carries back, and for a field value
   * (never negative) "Unknown (n)" exactly when the code is 4 or more.
   */
  function AccuracyOf(code: int): (a: Accuracy)
    ensures AccuracyCode(a) == code
    ensures code >= 0 ==> (a.UnknownAccuracy? <==> code >= 4)
  {
    if code == 0 then DisabledLowest
    else if code == 1 then Tune1s
    else if code == 2 then Tune2s
    else if code == 3 then Tune3sHighest
    else UnknownAccuracy(code)
  }

  /**
   * get_status's decoding of a STATUS value.  It is total: every value
   * decodes, and the labels carry back exactly the three fields.
   */
  function DecodeStatus(status: int): (s: Status)
    ensures ValidStatus(s)
    ensures StateCode(s.state) == GetField(status, STATUS_STATE_OFFSET, STATUS_STATE_SIZE)
    ensures AccuracyCode(s.accuracy) == GetField(status, STATUS_ACCURACY_OFFSET, STATUS_ACCURACY_SIZE)
    ensures s.tpulseActive <==> Bit(status, 8) == 1
  {
    assert Pow2(4) == 16 && Pow2(1) == 2;
    GetFieldBit(status, STATUS_TPULSE_OFFSET, STATUS_TPULSE_SIZE, 0);
    Status(StateOf(GetField(status, STATUS_STATE_OFFSET, STATUS_STATE_SIZE)),
           AccuracyOf(GetField(status, STATUS_ACCURACY_OFFSET, STATUS_ACCURACY_SIZE)),
           GetField(status, STATUS_TPULSE_OFFSET, STATUS_TPULSE_SIZE) != 0)
  }

  /** The STATUS value (bits 0-8) that decodes to `s`. */
  function EncodeStatus(s: Status): int
    requires ValidStatus(s)
  {
    ((if s.tpulseActive then 1 else 0) * 16 + AccuracyCode(s.accuracy)) * 16 + StateCode(s.state)
  }

  /** The three STATUS fields of a packed value. */
  lemma PackedStatusFields(t: int, a: int, c: int)
    requires 0 <= t < 2 && 0 <= a < 16 && 0 <= c < 16
    ensures GetField((t * 16 + a) * 16 + c, 0, 4) == c
    ensures GetField((t * 16 + a) * 16 + c, 4, 4) == a
    ensures Bit((t * 16 + a) * 16 + c, 8) == t
  {
    var x := (t * 16 + a) * 16 + c;
    ConcatLow(t * 16 + a, c, 4);
    ConcatLow(t, a, 4);
    assert Pow2(8) == 256;
    DivModUnique(x, 256, t, a * 16 + c);
    assert Bit(x, 8) == (x / 256) % 2;
  }

  /** Decoding inverts encoding: labels are determined by their codes. */
  lemma DecodeEncodeStatus(s: Status)
    requires ValidStatus(s)
    ensures DecodeStatus(EncodeStatus(s)) == s
  {
    var t := if s.tpulseActive then 1 else 0;
    PackedStatusFields(t, AccuracyCode(s.accuracy), StateCode(s.state));
    var d := DecodeStatus(EncodeStatus(s));
    assert d.state == s.state;
    assert d.accuracy == s.accuracy;
  }

  /** Only bits 0-8 of STATUS matter, and they are recovered from the decoding. */
  lemma EncodeDecodeStatus(status: int)
    ensures EncodeStatus(DecodeStatus(status)) == GetField(status, 0, 9)
  {
    Pow2Constants();
    assert Pow2(4) == 16 && Pow2(5) == 32 && Pow2(9) == 512;
    var s := DecodeStatus(status);
    var t := GetField(status, 8, 1);
    GetFieldBit(status, 8, 1, 0);
    assert t == Bit(t, 0);
    ConcatFields(status, 4, 4);
    ConcatFields(status, 8, 1);
    assert GetField(status, 0, 9) == Concat(t, GetField(status, 0, 8), 8);
    assert GetField(status, 0, 8) == Concat(GetField(status, 4, 4), GetField(status, 0, 4), 4);
  }

  // ---------------------------------------------------------------------
  // CONTROL: EN (bit 0) and CLK_SEL (bit 1).

  /** get_enabled: `bool(control & 0x0001)`. */
  function IsEnabled(control: int): (en: bool)
    ensures en <==> Bit(control, CONTROL_EN_OFFSET) == 1
  {
    GetFieldBit(control, CONTROL_EN_OFFSET, CONTROL_EN_SIZE, 0);
    assert Pow2(1) == 2;
    GetField(control, CONTROL_EN_OFFSET, CONTROL_EN_SIZE) != 0
  }

  /** set_enabled's new CONTROL value: the EN field set to `enable`. */
  function WithEnable(control: int, enable: bool): int
  {
    SetField(control, CONTROL_EN_OFFSET, CONTROL_EN_SIZE, if enable then 1 else 0)
  }

  /**
   * set_enabled changes bit 0 only: the written value has EN equal to
   * `enable`, reads back as `enable`, and keeps every other bit (CLK_SEL
   * and the reserved bits); a 16-bit CONTROL stays 16-bit.
   */
  lemma WithEnableBits(control: int, enable: bool, i: nat)
    ensures Bit(WithEnable(control, enable), i) == if i == 0 then (if enable then 1 else 0) else Bit(control, i)
    ensures IsEnabled(WithEnable(control, enable)) == enable
    ensures 0 <= control < 0x1_0000 ==> 0 <= WithEnable(control, enable) < 0x1_0000
  {
    assert Pow2(1) == 2;
    SetFieldBit(control, CONTROL_EN_OFFSET, CONTROL_EN_SIZE, if enable then 1 else 0, i);
    SetFieldBit(control, CONTROL_EN_OFFSET, CONTROL_EN_SIZE, if enable then 1 else 0, 0);
  }

  /** A CONTROL of 0x02 (CLK_SEL set, EN clear) is written back as 0x03, not 0x01. */
  lemma WithEnableExample()
    ensures WithEnable(0x02, true) == 0x03
  {
    assert Pow2(1) == 2;
  }
}
