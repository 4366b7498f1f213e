/**
 * The 4-byte SPI frames of the register protocol.  A request is
 * [command, address, value high byte, value low byte]; the command byte is
 * 0x80 for a write and 0x00 for a read.  The value of a read is taken from
 * the last two bytes the device shifts back during the same transfer.
 */
module Wire {
  import opened Bits

  type Byte = x: int | 0 <= x < 0x100
  type Frame = s: seq<Byte> | |s| == 4 witness [0, 0, 0, 0]

  /** What a request frame asks of the register file. */
  datatype Request = ReadOf(addr: int) | WriteOf(addr: int, value: int)

  /** The register-file reading of a request frame. */
  function DecodeRequest(tx: Frame): Request
  {
    if tx[0] == 0x80 then WriteOf(tx[1], tx[2] as int * 0x100 + tx[3] as int) else ReadOf(tx[1])
  }

  /**
   * The host's masks are the bit fields of the codec: `x & 0xFF` is bits
   * 0-7, `(x >> 8) & 0xFF` bits 8-15 and `x & 0xFFFF` bits 0-15.
   */
  lemma MasksAreFields(x: int)
    ensures x % 0x100 == GetField(x, 0, 8)
    ensures (x / 0x100) % 0x100 == GetField(x, 8, 8)
    ensures x % 0x1_0000 == GetField(x, 0, 16)
  {
    Pow2Constants();
  }

  /** read_register's request: `[0x00, addr & 0xFF, 0x00, 0x00]`. */
  function ReadRequest(addr: int): (tx: Frame)
    ensures DecodeRequest(tx) == ReadOf(addr % 0x100)
  {
    [0x00, addr % 0x100, 0x00, 0x00]
  }

  /**
   * write_register's request: `[0x80, addr & 0xFF, (value >> 8) & 0xFF, value & 0xFF]`.
   * The register receives the low 16 bits of `value`; wider values are cut.
   */
  function WriteRequest(addr: int, value: int): (tx: Frame)
    ensures DecodeRequest(tx) == WriteOf(addr % 0x100, value % 0x1_0000)
  {
    var hi := (value / 0x100) % 0x100;
    var lo := value % 0x100;
    assert hi * 0x100 + lo == value % 0x1_0000 by {
      DivModUnique(value, 0x1_0000, value / 0x1_0000, hi * 0x100 + lo);
    }
    [0x80, addr % 0x100, hi, lo]
  }

  /** The value read_register returns: `(rx[2] << 8) | rx[3]`. */
  function ResponseValue(rx: Frame): (v: int)
    ensures 0 <= v < 0x1_0000
    ensures v / 0x100 == rx[2] && v % 0x100 == rx[3]
  {
    var v := rx[2] as int * 0x100 + rx[3] as int;
    DivModUnique(v, 0x100, rx[2], rx[3]);
    v
  }

  /** A 16-bit value written and read back through the frame bytes is unchanged. */
  lemma WriteThenRespond(addr: int, value: int)
    requires 0 <= value < 0x1_0000
    ensures var tx := WriteRequest(addr, value);
            ResponseValue([0, 0, tx[2], tx[3]]) == value
  {
    DivModUnique(value, 0x1_0000, 0, value);
  }

  /** The frames of a write of 0x1234 to register 0x11 and of a read of register 0x05. */
  lemma FrameExamples()
    ensures WriteRequest(0x11, 0x1234) == [0x80, 0x11, 0x12, 0x34]
    ensures ReadRequest(0x05) == [0x00, 0x05, 0x00, 0x00]
  {
  }
}
