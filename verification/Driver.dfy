/**
 * GPSDODriver: the host's handle on the gpsdocfg register file over SPI.
 *
 * The SPI device is an oracle `dev`: given the position of a transfer in
 * the trace and the frame the host shifts out, it yields the frame shifted
 * back.  Nothing is assumed of it; a run is one sequence of transfers, so
 * whatever a device answers along a run is such a function, and the model
 * covers any device behaviour, including registers that change between
 * two reads.  Everything the
 * process does to the outside world (opening and closing the device, SPI
 * transfers, sleeps, printed lines) is appended to one trace, and each
 * operation is specified by the events it appends, as a function of the
 * trace before it.
 */
module Driver {
  import opened Bits
  import opened Registers
  import opened Wire
  import opened Client

  /** The values one line of the monitor shows. */
  datatype Snapshot = Snapshot(
    enabled: bool,
    error1s: int, error10s: int, error100s: int,
    dac: int,
    status: Status)

  /**
   * The lines the commands print, without their formatting.  A register
   * line carries only the address: the name it is printed with,
   * `Registers.Name(addr)`, is a function of that address alone.
   */
  datatype Line =
    | MonitorBanner
    | Header
    | SnapshotLine(dump: int, snapshot: Snapshot)
    | DumpBanner
    | DumpTitle(dump: int)
    | RegisterLine(addr: int, value: int)
    | ResetStarted
    | ResetComplete
    | EnabledReport(clkSel: int, clkFreqMhz: real, ppm: real, tol1s: int, tol10s: int, tol100s: int)
    | DisabledReport

  datatype Event =
    | Open
    | Xfer(tx: Frame, rx: Frame)
    | Sleep(seconds: real)
    | Print(line: Line)
    | Close

  /** The SPI device: the frame it shifts back, given how many events precede the transfer and the frame it receives. */
  type Device = (nat, Frame) -> Frame

  // ---------------------------------------------------------------------
  // The events of register accesses.

  function ReadEvent(dev: Device, h: seq<Event>, addr: int): Event
  {
    Xfer(ReadRequest(addr), dev(|h|, ReadRequest(addr)))
  }

  function WriteEvent(dev: Device, h: seq<Event>, addr: int, value: int): Event
  {
    Xfer(WriteRequest(addr, value), dev(|h|, WriteRequest(addr, value)))
  }

  /** The value read_register takes from a transfer (0 for an event that is not one). */
  function RxValue(e: Event): (v: int)
    ensures 0 <= v < 0x1_0000
  {
    if e.Xfer? then ResponseValue(e.rx) else 0
  }

  /** Reading the registers `addrs` one after the other, starting from history `h`. */
  function Reads(dev: Device, h: seq<Event>, addrs: seq<int>): (es: seq<Event>)
    ensures |es| == |addrs|
    decreases |addrs|
  {
    if addrs == [] then []
    else
      var e := ReadEvent(dev, h, addrs[0]);
      [e] + Reads(dev, h + [e], addrs[1..])
  }

  /** Writing the (address, value) pairs `ws` one after the other. */
  function Writes(dev: Device, h: seq<Event>, ws: seq<(int, int)>): (es: seq<Event>)
    ensures |es| == |ws|
    decreases |ws|
  {
    if ws == [] then []
    else
      var e := WriteEvent(dev, h, ws[0].0, ws[0].1);
      [e] + Writes(dev, h + [e], ws[1..])
  }

  /** set_enabled: read CONTROL, then write it back with EN replaced. */
  function SetEnabledEvents(dev: Device, h: seq<Event>, enable: bool): seq<Event>
  {
    var r := ReadEvent(dev, h, CONTROL);
    [r, WriteEvent(dev, h + [r], CONTROL, WithEnable(RxValue(r), enable))]
  }

  // ---------------------------------------------------------------------
  // What the host asks of the register file.

  /** The requests of the transfers among `es`, in order. */
  function Requests(es: seq<Event>): seq<Request>
  {
    if es == [] then []
    else (if es[0].Xfer? then [DecodeRequest(es[0].tx)] else []) + Requests(es[1..])
  }

  /** The read requests for `addrs`, each address cut to its low byte. */
  function ReadRequests(addrs: seq<int>): (rs: seq<Request>)
    ensures |rs| == |addrs|
    ensures forall i :: 0 <= i < |addrs| ==> rs[i] == ReadOf(addrs[i] % 0x100)
  {
    if addrs == [] then [] else [ReadOf(addrs[0] % 0x100)] + ReadRequests(addrs[1..])
  }

  /** The write requests for the pairs `ws`, each address cut to 8 bits and each value to 16. */
  function WriteRequests(ws: seq<(int, int)>): (rs: seq<Request>)
    ensures |rs| == |ws|
    ensures forall i :: 0 <= i < |ws| ==> rs[i] == WriteOf(ws[i].0 % 0x100, ws[i].1 % 0x1_0000)
  {
    if ws == [] then [] else [WriteOf(ws[0].0 % 0x100, ws[0].1 % 0x1_0000)] + WriteRequests(ws[1..])
  }

  /** The number of times `e` occurs in `es`. */
  function Occurrences(es: seq<Event>, e: Event): nat
  {
    if es == [] then 0 else (if es[0] == e then 1 else 0) + Occurrences(es[1..], e)
  }

  lemma {:induction false} RequestsAppend(a: seq<Event>, b: seq<Event>)
    ensures Requests(a + b) == Requests(a) + Requests(b)
  {
    if a != [] {
      assert (a + b)[1..] == a[1..] + b;
      RequestsAppend(a[1..], b);
    } else {
      assert a + b == b;
    }
  }

  lemma {:induction false} OccurrencesAppend(a: seq<Event>, b: seq<Event>, e: Event)
    ensures Occurrences(a + b, e) == Occurrences(a, e) + Occurrences(b, e)
  {
    if a != [] {
      assert (a + b)[1..] == a[1..] + b;
      OccurrencesAppend(a[1..], b, e);
    } else {
      assert a + b == b;
    }
  }

  /** Reading a list of registers in two parts is reading it at once. */
  lemma {:induction false} ReadsAppend(dev: Device, h: seq<Event>, a: seq<int>, b: seq<int>)
    ensures Reads(dev, h, a + b) == Reads(dev, h, a) + Reads(dev, h + Reads(dev, h, a), b)
    decreases |a|
  {
    if a != [] {
      var e := ReadEvent(dev, h, a[0]);
      var rest := Reads(dev, h + [e], a[1..]);
      assert (a + b)[0] == a[0] && (a + b)[1..] == a[1..] + b;
      assert h + [e] + rest == h + Reads(dev, h, a);
      calc {
        Reads(dev, h, a + b);
        [e] + Reads(dev, h + [e], a[1..] + b);
        { ReadsAppend(dev, h + [e], a[1..], b); }
        [e] + (rest + Reads(dev, h + [e] + rest, b));
        ([e] + rest) + Reads(dev, h + Reads(dev, h, a), b);
      }
    } else {
      assert a + b == b && h + [] == h;
    }
  }

  /** The reads `b` after the reads `a` from `h`, made from the history `t` that `a` leaves. */
  lemma ReadsThen(dev: Device, h: seq<Event>, a: seq<int>, b: seq<int>, t: seq<Event>)
    requires t == h + Reads(dev, h, a)
    ensures Reads(dev, h, a + b) == Reads(dev, h, a) + Reads(dev, t, b)
    ensures h + Reads(dev, h, a + b) == t + Reads(dev, t, b)
  {
    ReadsAppend(dev, h, a, b);
  }

  /** Writing a list of pairs in two parts is writing it at once. */
  lemma {:induction false} WritesAppend(dev: Device, h: seq<Event>, a: seq<(int, int)>, b: seq<(int, int)>)
    ensures Writes(dev, h, a + b) == Writes(dev, h, a) + Writes(dev, h + Writes(dev, h, a), b)
    decreases |a|
  {
    if a != [] {
      var e := WriteEvent(dev, h, a[0].0, a[0].1);
      var rest := Writes(dev, h + [e], a[1..]);
      assert (a + b)[0] == a[0] && (a + b)[1..] == a[1..] + b;
      assert h + [e] + rest == h + Writes(dev, h, a);
      calc {
        Writes(dev, h, a + b);
        [e] + Writes(dev, h + [e], a[1..] + b);
        { WritesAppend(dev, h + [e], a[1..], b); }
        [e] + (rest + Writes(dev, h + [e] + rest, b));
        ([e] + rest) + Writes(dev, h + Writes(dev, h, a), b);
      }
    } else {
      assert a + b == b && h + [] == h;
    }
  }

  /** The writes `b` after the writes `a` from `h`, made from the history `t` that `a` leaves. */
  lemma WritesThen(dev: Device, h: seq<Event>, a: seq<(int, int)>, b: seq<(int, int)>, t: seq<Event>)
    requires t == h + Writes(dev, h, a)
    ensures h + Writes(dev, h, a + b) == t + Writes(dev, t, b)
  {
    WritesAppend(dev, h, a, b);
  }

  /** Reads put exactly the read requests of their addresses on the bus. */
  lemma {:induction false} RequestsOfReads(dev: Device, h: seq<Event>, addrs: seq<int>)
    ensures Requests(Reads(dev, h, addrs)) == ReadRequests(addrs)
    decreases |addrs|
  {
    if addrs != [] {
      var e := ReadEvent(dev, h, addrs[0]);
      assert Reads(dev, h, addrs) == [e] + Reads(dev, h + [e], addrs[1..]);
      RequestsAppend([e], Reads(dev, h + [e], addrs[1..]));
      RequestsOfReads(dev, h + [e], addrs[1..]);
    }
  }

  /** Writes put exactly the write requests of their pairs on the bus. */
  lemma {:induction false} RequestsOfWrites(dev: Device, h: seq<Event>, ws: seq<(int, int)>)
    ensures Requests(Writes(dev, h, ws)) == WriteRequests(ws)
    decreases |ws|
  {
    if ws != [] {
      var e := WriteEvent(dev, h, ws[0].0, ws[0].1);
      assert Writes(dev, h, ws) == [e] + Writes(dev, h + [e], ws[1..]);
      RequestsAppend([e], Writes(dev, h + [e], ws[1..]));
      RequestsOfWrites(dev, h + [e], ws[1..]);
    }
  }

  /**
   * set_enabled asks for CONTROL and writes CONTROL once; the written value
   * is the value read with EN (bit 0) equal to `enable` and every other bit
   * as read, and it fits the 16-bit register unchanged.
   */
  lemma SetEnabledWrites(dev: Device, h: seq<Event>, enable: bool)
    ensures var es := SetEnabledEvents(dev, h, enable);
            var v := RxValue(es[0]);
            && Requests(es) == [ReadOf(CONTROL), WriteOf(CONTROL, WithEnable(v, enable))]
            && IsEnabled(WithEnable(v, enable)) == enable
            && forall i: nat :: 0 < i ==> Bit(WithEnable(v, enable), i) == Bit(v, i)
  {
    var es := SetEnabledEvents(dev, h, enable);
    var v := RxValue(es[0]);
    var w := WithEnable(v, enable);
    WithEnableBits(v, enable, 0);
    assert 0 <= w < 0x1_0000;
    DivModUnique(w, 0x1_0000, 0, w);
    RequestsAppend([es[0]], [es[1]]);
    assert es == [es[0]] + [es[1]];
    forall i: nat | 0 < i
      ensures Bit(w, i) == Bit(v, i)
    {
      WithEnableBits(v, enable, i);
    }
  }

  // ---------------------------------------------------------------------
  // The driver object.

  class GpsdoDriver {
    /** The SPI device the driver opened. */
    const dev: Device
    /** Everything done to the outside world so far. */
    var trace: seq<Event>

    /** __init__: open the SPI device. */
    constructor (dev: Device)
      ensures this.dev == dev && trace == [Open]
    {
      this.dev := dev;
      trace := [Open];
    }

    method ReadRegister(addr: int) returns (value: int)
      modifies this
      ensures trace == old(trace) + Reads(dev, old(trace), [addr])
      ensures value == RxValue(Reads(dev, old(trace), [addr])[0])
    {
      var tx := ReadRequest(addr);
      var rx := dev(|trace|, tx);
      trace := trace + [Xfer(tx, rx)];
      value := ResponseValue(rx);
    }

    method WriteRegister(addr: int, value: int)
      modifies this
      ensures trace == old(trace) + Writes(dev, old(trace), [(addr, value)])
    {
      var tx := WriteRequest(addr, value);
      var rx := dev(|trace|, tx);
      trace := trace + [Xfer(tx, rx)];
    }

    /** get_signed_32bit: the low register, then the high one, joined and sign-extended. */
    method GetSigned32(lowAddr: int, highAddr: int) returns (value: int)
      modifies this
      ensures trace == old(trace) + Reads(dev, old(trace), [lowAddr, highAddr])
      ensures var es := Reads(dev, old(trace), [lowAddr, highAddr]);
              value == Signed32(RxValue(es[0]), RxValue(es[1]))
    {
      var low := ReadRegister(lowAddr);
      var high := ReadRegister(highAddr);
      ReadsAppend(dev, old(trace), [lowAddr], [highAddr]);
      assert [lowAddr] + [highAddr] == [lowAddr, highAddr];
      value := Signed32(low, high);
    }

    method Get1sError() returns (value: int)
      modifies this
      ensures trace == old(trace) + Reads(dev, old(trace), [PPS_1S_ERR_L, PPS_1S_ERR_H])
      ensures var es := Reads(dev, old(trace), [PPS_1S_ERR_L, PPS_1S_ERR_H]);
              value == Signed32(RxValue(es[0]), RxValue(es[1]))
    {
      value := GetSigned32(PPS_1S_ERR_L, PPS_1S_ERR_H);
    }

    method Get10sError() returns (value: int)
      modifies this
      ensures trace == old(trace) + Reads(dev, old(trace), [PPS_10S_ERR_L, PPS_10S_ERR_H])
      ensures var es := Reads(dev, old(trace), [PPS_10S_ERR_L, PPS_10S_ERR_H]);
              value == Signed32(RxValue(es[0]), RxValue(es[1]))
    {
      value := GetSigned32(PPS_10S_ERR_L, PPS_10S_ERR_H);
    }

    method Get100sError() returns (value: int)
      modifies this
      ensures trace == old(trace) + Reads(dev, old(trace), [PPS_100S_ERR_L, PPS_100S_ERR_H])
      ensures var es := Reads(dev, old(trace), [PPS_100S_ERR_L, PPS_100S_ERR_H]);
              value == Signed32(RxValue(es[0]), RxValue(es[1]))
    {
      value := GetSigned32(PPS_100S_ERR_L, PPS_100S_ERR_H);
    }

    method GetDacValue() returns (value: int)
      modifies this
      ensures trace == old(trace) + Reads(dev, old(trace), [DAC_TUNED_VAL])
      ensures value == RxValue(Reads(dev, old(trace), [DAC_TUNED_VAL])[0])
    {
      value := ReadRegister(DAC_TUNED_VAL);
    }

    method GetStatus() returns (status: Status)
      modifies this
      ensures trace == old(trace) + Reads(dev, old(trace), [STATUS])
      ensures status == DecodeStatus(RxValue(Reads(dev, old(trace), [STATUS])[0]))
    {
      var value := ReadRegister(STATUS);
      status := DecodeStatus(value);
    }

    method GetEnabled() returns (enabled: bool)
      modifies this
      ensures trace == old(trace) + Reads(dev, old(trace), [CONTROL])
      ensures enabled == IsEnabled(RxValue(Reads(dev, old(trace), [CONTROL])[0]))
    {
      var control := ReadRegister(CONTROL);
      enabled := IsEnabled(control);
    }

    method SetEnabled(enable: bool)
      modifies this
      ensures trace == old(trace) + SetEnabledEvents(dev, old(trace), enable)
    {
      var control := ReadRegister(CONTROL);
      var r := ReadEvent(dev, old(trace), CONTROL);
      assert Reads(dev, old(trace), [CONTROL]) == [r];
      control := WithEnable(control, enable);
      WriteRegister(CONTROL, control);
      assert Writes(dev, old(trace) + [r], [(CONTROL, control)]) == [WriteEvent(dev, old(trace) + [r], CONTROL, control)];
    }

    method Close()
      modifies this
      ensures trace == old(trace) + [Event.Close]
    {
      trace := trace + [Event.Close];
    }
  }
}
