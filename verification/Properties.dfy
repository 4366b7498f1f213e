/**
 * What the commands of the test script do, over every device: the requests
 * each one puts on the bus, how often the monitor and the dump pause and
 * repeat the header, and how main frames the session between opening and
 * closing the device.
 */
module Properties {
  import opened Bits
  import opened Registers
  import opened Wire
  import opened Client
  import opened Planner
  import opened Driver
  import opened Commands

  // ---------------------------------------------------------------------
  // Kinds of events.

  /** Every event of `es` is an SPI transfer. */
  predicate AllTransfers(es: seq<Event>)
  {
    forall i :: 0 <= i < |es| ==> es[i].Xfer?
  }

  /** No event of `es` opens or closes the device. */
  predicate Quiet(es: seq<Event>)
  {
    forall i :: 0 <= i < |es| ==> !es[i].Open? && !es[i].Close?
  }

  /** `k` copies of `s`, one after the other. */
  function Repeat<T>(s: seq<T>, k: nat): seq<T>
  {
    if k == 0 then [] else s + Repeat(s, k - 1)
  }

  lemma {:induction false} Absent(es: seq<Event>, e: Event)
    requires forall i :: 0 <= i < |es| ==> es[i] != e
    ensures Occurrences(es, e) == 0
  {
    if es != [] {
      Absent(es[1..], e);
    }
  }

  /** Events that are not transfers ask nothing of the register file. */
  lemma {:induction false} RequestsOfNoTransfers(es: seq<Event>)
    requires forall i :: 0 <= i < |es| ==> !es[i].Xfer?
    ensures Requests(es) == []
  {
    if es != [] {
      RequestsOfNoTransfers(es[1..]);
    }
  }

  /** Transfers are quiet, and an event that is no transfer does not occur among them. */
  lemma TransfersOnly(es: seq<Event>, e: Event)
    requires AllTransfers(es) && !e.Xfer?
    ensures Occurrences(es, e) == 0 && Quiet(es)
  {
    Absent(es, e);
  }

  /** What a concatenation asks for, contains, and starts and ends with. */
  lemma Parts(a: seq<Event>, b: seq<Event>, e: Event)
    ensures Requests(a + b) == Requests(a) + Requests(b)
    ensures Occurrences(a + b, e) == Occurrences(a, e) + Occurrences(b, e)
    ensures Quiet(a) && Quiet(b) ==> Quiet(a + b)
    ensures b != [] ==> (a + b)[|a + b| - 1] == b[|b| - 1]
    ensures a != [] ==> (a + b)[0] == a[0]
  {
    RequestsAppend(a, b);
    OccurrencesAppend(a, b, e);
  }

  lemma {:induction false} ReadsAreTransfers(dev: Device, h: seq<Event>, addrs: seq<int>)
    ensures AllTransfers(Reads(dev, h, addrs))
    decreases |addrs|
  {
    if addrs != [] {
      ReadsAreTransfers(dev, h + [ReadEvent(dev, h, addrs[0])], addrs[1..]);
    }
  }

  lemma {:induction false} WritesAreTransfers(dev: Device, h: seq<Event>, ws: seq<(int, int)>)
    ensures AllTransfers(Writes(dev, h, ws))
    decreases |ws|
  {
    if ws != [] {
      WritesAreTransfers(dev, h + [WriteEvent(dev, h, ws[0].0, ws[0].1)], ws[1..]);
    }
  }

  // ---------------------------------------------------------------------
  // run_monitoring

  /** The registers read for one monitor line, as the bus sees them. */
  lemma SnapshotRequests()
    ensures ReadRequests(SnapshotOrder)
         == [ReadOf(0x00), ReadOf(0x0A), ReadOf(0x0B), ReadOf(0x0C), ReadOf(0x0D),
             ReadOf(0x0E), ReadOf(0x0F), ReadOf(0x10), ReadOf(0x11)]
  {
  }

  /** The monitor lines still to be printed after `count` of them. */
  function LinesLeft(n: int, banner: int, count: nat): nat
    requires MonitoringEnds(n, banner)
  {
    if n != 0 && count >= n then 0 else if banner == 0 then 1 else n - count
  }

  /** Line `line` of the monitor is followed by the header: its number is a multiple of the interval. */
  predicate HeaderDue(line: int, banner: int)
  {
    banner != 0 && line % banner == 0
  }

  /**
   * One monitor line reads the nine snapshot registers and nothing else;
   * the header follows when the line number is a multiple of the interval,
   * and the line ends with a pause exactly when it is not the last.
   */
  lemma MonitorStepFacts(dev: Device, h: seq<Event>, n: int, delay: real, banner: int, count: nat)
    ensures var step := MonitorStep(dev, h, n, delay, banner, count);
            && Requests(step) == ReadRequests(SnapshotOrder)
            && Occurrences(step, Sleep(delay)) == (if banner != 0 && (n == 0 || count + 1 < n) then 1 else 0)
            && Quiet(step)
            && |step| > 0
            && (step[|step| - 1].Sleep? <==> banner != 0 && (n == 0 || count + 1 < n))
  {
    var r := Reads(dev, h, SnapshotOrder);
    var line := SnapshotLine(count + 1, SnapshotOf(r));
    var t := StepTail(line, n, delay, banner, count);
    MonitorStepShape(dev, h, n, delay, banner, count);
    ReadsAreTransfers(dev, h, SnapshotOrder);
    RequestsOfReads(dev, h, SnapshotOrder);
    StepTailFacts(line, n, delay, banner, count);
    TransfersThenTail(r, t, Sleep(delay));
  }

  /** A monitor line is followed by the header exactly when its number is a multiple of the interval. */
  lemma MonitorStepHeaders(dev: Device, h: seq<Event>, n: int, delay: real, banner: int, count: nat)
    ensures Occurrences(MonitorStep(dev, h, n, delay, banner, count), Print(Header))
         == (if HeaderDue(count + 1, banner) then 1 else 0)
  {
    var r := Reads(dev, h, SnapshotOrder);
    var line := SnapshotLine(count + 1, SnapshotOf(r));
    var t := StepTail(line, n, delay, banner, count);
    MonitorStepShape(dev, h, n, delay, banner, count);
    ReadsAreTransfers(dev, h, SnapshotOrder);
    StepTailFacts(line, n, delay, banner, count);
    TransfersThenTail(r, t, Print(Header));
  }

  /** What follows the nine reads of a monitor line. */
  function StepTail(line: Line, n: int, delay: real, banner: int, count: nat): seq<Event>
  {
    [Print(line)]
      + (if HeaderDue(count + 1, banner) then [Print(Header)] else [])
      + (if banner != 0 && (n == 0 || count + 1 < n) then [Sleep(delay)] else [])
  }

  lemma MonitorStepShape(dev: Device, h: seq<Event>, n: int, delay: real, banner: int, count: nat)
    ensures var r := Reads(dev, h, SnapshotOrder);
            MonitorStep(dev, h, n, delay, banner, count)
            == r + StepTail(SnapshotLine(count + 1, SnapshotOf(r)), n, delay, banner, count)
  {
  }

  lemma StepTailFacts(line: Line, n: int, delay: real, banner: int, count: nat)
    requires line != Header
    ensures var t := StepTail(line, n, delay, banner, count);
            && (forall i :: 0 <= i < |t| ==> !t[i].Xfer?)
            && Occurrences(t, Sleep(delay)) == (if banner != 0 && (n == 0 || count + 1 < n) then 1 else 0)
            && Occurrences(t, Print(Header)) == (if HeaderDue(count + 1, banner) then 1 else 0)
            && Quiet(t)
            && |t| > 0
            && (t[|t| - 1].Sleep? <==> banner != 0 && (n == 0 || count + 1 < n))
  {
    var hd := if HeaderDue(count + 1, banner) then [Print(Header)] else [];
    var sl := if banner != 0 && (n == 0 || count + 1 < n) then [Sleep(delay)] else [];
    Parts([Print(line)], hd, Sleep(delay));
    Parts([Print(line)] + hd, sl, Sleep(delay));
    Parts([Print(line)], hd, Print(Header));
    Parts([Print(line)] + hd, sl, Print(Header));
  }

  /** Transfers followed by events that are not: the requests are the transfers', the rest is the tail's. */
  lemma TransfersThenTail(r: seq<Event>, t: seq<Event>, e: Event)
    requires AllTransfers(r) && !e.Xfer?
    requires forall i :: 0 <= i < |t| ==> !t[i].Xfer?
    ensures Requests(r + t) == Requests(r)
    ensures Occurrences(r + t, e) == Occurrences(t, e)
    ensures Quiet(t) ==> Quiet(r + t)
    ensures t != [] ==> (r + t)[|r + t| - 1] == t[|t| - 1]
  {
    TransfersOnly(r, e);
    RequestsOfNoTransfers(t);
    Parts(r, t, e);
  }

  /**
   * `es` holds `k` monitor lines: the nine snapshot reads each, a pause
   * between two lines and none after the last, and the device neither
   * opened nor closed.
   */
  predicate MonitorLines(es: seq<Event>, k: nat, delay: real)
  {
    && Requests(es) == Repeat(ReadRequests(SnapshotOrder), k)
    && Occurrences(es, Sleep(delay)) == (if k > 0 then k - 1 else 0)
    && Quiet(es)
    && (es == [] <==> k == 0)
    && (es != [] ==> !es[|es| - 1].Sleep?)
  }

  /** One more line in front of `k - 1` lines makes `k`; the line pauses exactly when more follow. */
  lemma MonitorLinesCons(step: seq<Event>, rest: seq<Event>, k: nat, delay: real)
    requires k > 0
    requires Requests(step) == ReadRequests(SnapshotOrder) && Quiet(step) && |step| > 0
    requires Occurrences(step, Sleep(delay)) == (if k > 1 then 1 else 0)
    requires step[|step| - 1].Sleep? <==> k > 1
    requires MonitorLines(rest, k - 1, delay)
    ensures MonitorLines(step + rest, k, delay)
  {
    Parts(step, rest, Sleep(delay));
  }

  /** The monitor loop after `count` lines, when it goes on: line `count + 1`, then the loop after it. */
  lemma MonitorLoopCons(dev: Device, h: seq<Event>, n: int, delay: real, banner: int, count: nat)
      returns (step: seq<Event>)
    requires MonitoringEnds(n, banner) && banner != 0 && !(n != 0 && count >= n)
    ensures step == MonitorStep(dev, h, n, delay, banner, count)
    ensures MonitorLoop(dev, h, n, delay, banner, count) == step + MonitorLoop(dev, h + step, n, delay, banner, count + 1)
  {
    step := MonitorStep(dev, h, n, delay, banner, count);
  }

  /** The remaining lines of the monitor, from line `count + 1` on. */
  lemma {:induction false} MonitorLoopFacts(dev: Device, h: seq<Event>, n: int, delay: real, banner: int, count: nat)
    requires MonitoringEnds(n, banner)
    ensures MonitorLines(MonitorLoop(dev, h, n, delay, banner, count), LinesLeft(n, banner, count), delay)
    decreases if n > count then n - count else 0
  {
    if n != 0 && count >= n {
    } else if banner == 0 {
      MonitorStepFacts(dev, h, n, delay, banner, count);
      assert Repeat(ReadRequests(SnapshotOrder), 1) == ReadRequests(SnapshotOrder) + [];
    } else {
      var step := MonitorLoopCons(dev, h, n, delay, banner, count);
      MonitorStepFacts(dev, h, n, delay, banner, count);
      MonitorLoopFacts(dev, h + step, n, delay, banner, count + 1);
      MonitorLinesCons(step, MonitorLoop(dev, h + step, n, delay, banner, count + 1), n - count, delay);
    }
  }

  /** The lines run_monitoring prints when it stops on its own. */
  function MonitorLineCount(n: int, banner: int): nat
  {
    if n < 0 then 0 else if banner == 0 then 1 else n
  }

  /** run_monitoring is its two header lines, then the loop's lines. */
  lemma MonitoringSplit(dev: Device, h: seq<Event>, n: int, delay: real, banner: int)
    requires MonitoringEnds(n, banner)
    ensures var p := [Print(MonitorBanner), Print(Header)];
            var rest := MonitorLoop(dev, h + p, n, delay, banner, 0);
            && Monitoring(dev, h, n, delay, banner) == p + rest
            && MonitorLines(rest, MonitorLineCount(n, banner), delay)
  {
    MonitorLoopFacts(dev, h + [Print(MonitorBanner), Print(Header)], n, delay, banner, 0);
  }

  /**
   * run_monitoring only reads: each line asks for the nine snapshot
   * registers, one line when the interval is 0 (it raises after it), `n`
   * lines otherwise, none for a negative `n`.
   */
  lemma MonitoringRequests(dev: Device, h: seq<Event>, n: int, delay: real, banner: int)
    requires MonitoringEnds(n, banner)
    ensures Requests(Monitoring(dev, h, n, delay, banner))
         == Repeat(ReadRequests(SnapshotOrder), MonitorLineCount(n, banner))
  {
    var p := [Print(MonitorBanner), Print(Header)];
    MonitoringSplit(dev, h, n, delay, banner);
    RequestsOfNoTransfers(p);
    RequestsAppend(p, MonitorLoop(dev, h + p, n, delay, banner, 0));
  }

  /** run_monitoring pauses between two lines and never after the last; it leaves the device open. */
  lemma MonitoringPauses(dev: Device, h: seq<Event>, n: int, delay: real, banner: int)
    requires MonitoringEnds(n, banner)
    ensures var es := Monitoring(dev, h, n, delay, banner);
            var lines := MonitorLineCount(n, banner);
            && Occurrences(es, Sleep(delay)) == (if lines > 0 then lines - 1 else 0)
            && !es[|es| - 1].Sleep?
            && Quiet(es)
  {
    var p := [Print(MonitorBanner), Print(Header)];
    MonitoringSplit(dev, h, n, delay, banner);
    BannerThenLines(MonitorLoop(dev, h + p, n, delay, banner, 0), MonitorLineCount(n, banner), delay);
  }

  /** The two header lines in front of `k` monitor lines add no pause and do not end in one. */
  lemma BannerThenLines(rest: seq<Event>, k: nat, delay: real)
    requires MonitorLines(rest, k, delay)
    ensures var es := [Print(MonitorBanner), Print(Header)] + rest;
            && Occurrences(es, Sleep(delay)) == (if k > 0 then k - 1 else 0)
            && !es[|es| - 1].Sleep?
            && Quiet(es)
  {
    var p := [Print(MonitorBanner), Print(Header)];
    Absent(p, Sleep(delay));
    Parts(p, rest, Sleep(delay));
  }

  // ---------------------------------------------------------------------
  // dump_registers

  /** Reading the addresses 0, 1, 2, ... asks for exactly those registers. */
  lemma IdentityRequests(addrs: seq<int>)
    requires |addrs| <= 0x100
    requires forall i :: 0 <= i < |addrs| ==> addrs[i] == i
    ensures forall i :: 0 <= i < |addrs| ==> ReadRequests(addrs)[i] == ReadOf(i)
  {
    forall i | 0 <= i < |addrs|
      ensures ReadRequests(addrs)[i] == ReadOf(i)
    {
      DivModUnique(i, 0x100, 0, i);
    }
  }

  /** A dump asks for the registers 0x00 to 0x11 in ascending order. */
  lemma DumpOrderRequests()
    ensures |ReadRequests(DumpOrder)| == 18
    ensures forall i :: 0 <= i < 18 ==> ReadRequests(DumpOrder)[i] == ReadOf(i)
  {
    DumpOrderAscending();
    IdentityRequests(DumpOrder);
  }

  /** One pass reads `addrs` in order and prints; it neither pauses nor closes the device. */
  lemma {:induction false} DumpPassFacts(dev: Device, h: seq<Event>, addrs: seq<int>)
    ensures var es := DumpPass(dev, h, addrs);
            && Requests(es) == ReadRequests(addrs)
            && Quiet(es)
            && forall i :: 0 <= i < |es| ==> !es[i].Sleep?
    decreases |addrs|
  {
    if addrs != [] {
      var r := ReadEvent(dev, h, addrs[0]);
      var p := Print(RegisterLine(addrs[0], RxValue(r)));
      DumpPassFacts(dev, h + [r, p], addrs[1..]);
      RequestsAppend([r, p], DumpPass(dev, h + [r, p], addrs[1..]));
      assert Requests([r, p]) == [ReadOf(addrs[0] % 0x100)] + Requests([p]);
    }
  }

  /** `es` holds `k` full passes over the registers and `sleeps` pauses, and leaves the device open. */
  predicate DumpPasses(es: seq<Event>, k: nat, delay: real, sleeps: nat)
  {
    && Requests(es) == Repeat(ReadRequests(DumpOrder), k)
    && Occurrences(es, Sleep(delay)) == sleeps
    && Quiet(es)
  }

  /** The pauses of dumps `i + 1` to `i + k`: one before each but the very first. */
  function DumpSleeps(i: nat, k: nat): nat
  {
    if i > 0 || k == 0 then k else k - 1
  }

  /** A pass, with what precedes it, in front of `k - 1` further passes. */
  lemma DumpPassesCons(pre: seq<Event>, pass: seq<Event>, rest: seq<Event>, k: nat, delay: real, i: nat)
    requires k > 0 && pre == DumpPre(delay, i)
    requires Requests(pass) == ReadRequests(DumpOrder) && Quiet(pass)
    requires forall j :: 0 <= j < |pass| ==> !pass[j].Sleep?
    requires DumpPasses(rest, k - 1, delay, k - 1)
    ensures DumpPasses(pre + pass + rest, k, delay, DumpSleeps(i, k))
  {
    DumpPreFacts(delay, i);
    Absent(pass, Sleep(delay));
    Parts(pre, pass, Sleep(delay));
    Parts(pre + pass, rest, Sleep(delay));
    assert Repeat(ReadRequests(DumpOrder), k) == ReadRequests(DumpOrder) + Repeat(ReadRequests(DumpOrder), k - 1);
  }

  /** What precedes a dump asks for nothing and pauses once, except before the first dump. */
  lemma DumpPreFacts(delay: real, i: nat)
    ensures Requests(DumpPre(delay, i)) == []
    ensures Occurrences(DumpPre(delay, i), Sleep(delay)) == if i > 0 then 1 else 0
    ensures Quiet(DumpPre(delay, i))
  {
    RequestsOfNoTransfers(DumpPre(delay, i));
    if i > 0 {
      var pre := DumpPre(delay, i);
      assert pre[1..][1..] == [];
      assert Occurrences(pre[1..], Sleep(delay)) == 0;
    }
  }

  /** Dumps `i + 1` to `n`: a full pass each, with a pause before every dump but the first. */
  lemma {:induction false} DumpLoopFacts(dev: Device, h: seq<Event>, n: int, delay: real, i: nat)
    ensures var k := if n > i then n - i else 0;
            DumpPasses(DumpLoop(dev, h, n, delay, i), k, delay, DumpSleeps(i, k))
    decreases n - i
  {
    if i < n {
      var pre := DumpPre(delay, i);
      var pass := DumpPass(dev, h + pre, DumpOrder);
      var rest := DumpLoop(dev, h + pre + pass, n, delay, i + 1);
      DumpPassFacts(dev, h + pre, DumpOrder);
      DumpLoopFacts(dev, h + pre + pass, n, delay, i + 1);
      assert DumpLoop(dev, h, n, delay, i) == pre + pass + rest;
      DumpPassesCons(pre, pass, rest, n - i, delay, i);
    }
  }

  /**
   * dump_registers reads the 18 registers once per dump and nothing else,
   * pausing only between dumps; a count that is not positive prints the
   * banner alone.
   */
  lemma DumpFacts(dev: Device, h: seq<Event>, n: int, delay: real)
    ensures var es := Dump(dev, h, n, delay);
            && Requests(es) == Repeat(ReadRequests(DumpOrder), if n > 0 then n else 0)
            && Occurrences(es, Sleep(delay)) == (if n > 1 then n - 1 else 0)
            && Quiet(es)
            && (n <= 0 ==> es == [Print(DumpBanner)])
  {
    var b := [Print(DumpBanner)];
    var rest := DumpLoop(dev, h + b, n, delay, 0);
    DumpLoopFacts(dev, h + b, n, delay, 0);
    RequestsOfNoTransfers(b);
    Parts(b, rest, Sleep(delay));
  }

  // ---------------------------------------------------------------------
  // reset_gpsdo, enable_gpsdo, disable_gpsdo

  /** What five pieces in a row ask for and contain. */
  lemma FiveParts(a: seq<Event>, b: seq<Event>, c: seq<Event>, d: seq<Event>, e: seq<Event>, x: Event)
    ensures Requests(a + b + c + d + e) == Requests(a) + Requests(b) + Requests(c) + Requests(d) + Requests(e)
    ensures Occurrences(a + b + c + d + e, x)
         == Occurrences(a, x) + Occurrences(b, x) + Occurrences(c, x) + Occurrences(d, x) + Occurrences(e, x)
    ensures Quiet(a) && Quiet(b) && Quiet(c) && Quiet(d) && Quiet(e) ==> Quiet(a + b + c + d + e)
  {
    Parts(a, b, x);
    Parts(a + b, c, x);
    Parts(a + b + c, d, x);
    Parts(a + b + c + d, e, x);
  }

  /** reset_gpsdo is its five steps: report, clear EN, pause, set EN, report. */
  lemma ResetSplit(dev: Device, h: seq<Event>, resetDelay: real)
    ensures var a := [Print(ResetStarted)];
            var b := SetEnabledEvents(dev, h + a, false);
            var c := [Sleep(resetDelay)];
            var d := SetEnabledEvents(dev, h + a + b + c, true);
            var es := Reset(dev, h, resetDelay);
            && es == a + b + c + d + [Print(ResetComplete)]
            && es[1] == b[0] && es[4] == d[0]
  {
  }

  /**
   * reset_gpsdo clears EN and then sets it, each by reading CONTROL and
   * writing it back with the other bits as read.
   */
  lemma ResetRequests(dev: Device, h: seq<Event>, resetDelay: real)
    ensures var es := Reset(dev, h, resetDelay);
            var off := WithEnable(RxValue(es[1]), false);
            var on := WithEnable(RxValue(es[4]), true);
            && Requests(es) == [ReadOf(CONTROL), WriteOf(CONTROL, off), ReadOf(CONTROL), WriteOf(CONTROL, on)]
            && !IsEnabled(off) && IsEnabled(on)
  {
    var a := [Print(ResetStarted)];
    var b := SetEnabledEvents(dev, h + a, false);
    var c := [Sleep(resetDelay)];
    var d := SetEnabledEvents(dev, h + a + b + c, true);
    var e := [Print(ResetComplete)];
    ResetSplit(dev, h, resetDelay);
    SetEnabledWrites(dev, h + a, false);
    SetEnabledWrites(dev, h + a + b + c, true);
    RequestsOfNoTransfers(a);
    RequestsOfNoTransfers(c);
    RequestsOfNoTransfers(e);
    FiveParts(a, b, c, d, e, Sleep(resetDelay));
  }

  /** reset_gpsdo pauses once, between the two writes, and leaves the device open. */
  lemma ResetPauses(dev: Device, h: seq<Event>, resetDelay: real)
    ensures Occurrences(Reset(dev, h, resetDelay), Sleep(resetDelay)) == 1
    ensures Quiet(Reset(dev, h, resetDelay))
  {
    var a := [Print(ResetStarted)];
    var b := SetEnabledEvents(dev, h + a, false);
    var c := [Sleep(resetDelay)];
    var d := SetEnabledEvents(dev, h + a + b + c, true);
    var e := [Print(ResetComplete)];
    ResetSplit(dev, h, resetDelay);
    Absent(b, Sleep(resetDelay));
    Absent(d, Sleep(resetDelay));
    FiveParts(a, b, c, d, e, Sleep(resetDelay));
  }

  /** The CONTROL value enable_gpsdo writes fits the register: it arrives as `(clk_sel << 1) | 1`. */
  lemma ControlWritten(clkSel: int)
    requires clkSel == 0 || clkSel == 1
    ensures ControlValue(clkSel) % 0x1_0000 == 2 * clkSel + 1
  {
    ControlValueIs(clkSel);
    SmallRemainder(ControlValue(clkSel));
  }

  lemma SmallRemainder(v: int)
    requires 0 <= v < 0x1_0000
    ensures v % 0x1_0000 == v
  {
    DivModUnique(v, 0x1_0000, 0, v);
  }

  /**
   * What the register file receives for one interval: the target's low
   * half, its high half cut to 16 bits, and the tolerance cut to 16 bits.
   */
  function IntervalRequests(lowAddr: int, highAddr: int, tolAddr: int, target: int, tol: int): seq<Request>
  {
    [WriteOf(lowAddr, target % 0x1_0000), WriteOf(highAddr, (target / 0x1_0000) % 0x1_0000), WriteOf(tolAddr, tol % 0x1_0000)]
  }

  lemma IntervalRequestsOf(lowAddr: int, highAddr: int, tolAddr: int, target: int, tol: int)
    requires 0 <= lowAddr < 0x100 && 0 <= highAddr < 0x100 && 0 <= tolAddr < 0x100
    ensures WriteRequests(IntervalWrites(lowAddr, highAddr, tolAddr, target, tol))
         == IntervalRequests(lowAddr, highAddr, tolAddr, target, tol)
  {
  }

  lemma {:induction false} WriteRequestsAppend(a: seq<(int, int)>, b: seq<(int, int)>)
    ensures WriteRequests(a + b) == WriteRequests(a) + WriteRequests(b)
  {
    assert forall i :: 0 <= i < |b| ==> (a + b)[|a| + i] == b[i];
  }

  /** What the register file receives for a configuration: the three intervals in order, then CONTROL. */
  function ConfigRequests(p: Plan): seq<Request>
  {
    IntervalRequests(PPS_1S_TARGET_L, PPS_1S_TARGET_H, PPS_1S_ERR_TOL, p.target1s, p.tol1s)
      + IntervalRequests(PPS_10S_TARGET_L, PPS_10S_TARGET_H, PPS_10S_ERR_TOL, p.target10s, p.tol10s)
      + IntervalRequests(PPS_100S_TARGET_L, PPS_100S_TARGET_H, PPS_100S_ERR_TOL, p.target100s, p.tol100s)
      + [WriteOf(CONTROL, 2 * p.clkSel + 1)]
  }

  /** The requests of writing a configuration `p`: the three intervals in order, then CONTROL. */
  lemma PlanRequests(p: Plan)
    requires p.clkSel == 0 || p.clkSel == 1
    ensures WriteRequests(PlanWrites(p)) == ConfigRequests(p)
  {
    var w1 := IntervalWrites(PPS_1S_TARGET_L, PPS_1S_TARGET_H, PPS_1S_ERR_TOL, p.target1s, p.tol1s);
    var w2 := IntervalWrites(PPS_10S_TARGET_L, PPS_10S_TARGET_H, PPS_10S_ERR_TOL, p.target10s, p.tol10s);
    var w3 := IntervalWrites(PPS_100S_TARGET_L, PPS_100S_TARGET_H, PPS_100S_ERR_TOL, p.target100s, p.tol100s);
    var wc := [(CONTROL, ControlValue(p.clkSel))];
    WriteRequestsAppend(w1, w2);
    WriteRequestsAppend(w1 + w2, w3);
    WriteRequestsAppend(w1 + w2 + w3, wc);
    IntervalRequestsOf(PPS_1S_TARGET_L, PPS_1S_TARGET_H, PPS_1S_ERR_TOL, p.target1s, p.tol1s);
    IntervalRequestsOf(PPS_10S_TARGET_L, PPS_10S_TARGET_H, PPS_10S_ERR_TOL, p.target10s, p.tol10s);
    IntervalRequestsOf(PPS_100S_TARGET_L, PPS_100S_TARGET_H, PPS_100S_ERR_TOL, p.target100s, p.tol100s);
    ControlWritten(p.clkSel);
  }

  /** Writing a configuration and printing one report line asks for the configuration's writes. */
  lemma ConfigEventsRequests(dev: Device, h: seq<Event>, p: Plan, report: Line)
    requires p.clkSel == 0 || p.clkSel == 1
    ensures Requests(Writes(dev, h, PlanWrites(p)) + [Print(report)]) == ConfigRequests(p)
  {
    RequestsOfNoTransfers([Print(report)]);
    RequestsAppend(Writes(dev, h, PlanWrites(p)), [Print(report)]);
    RequestsOfWrites(dev, h, PlanWrites(p));
    PlanRequests(p);
  }

  /**
   * enable_gpsdo writes, in order, the low and high halves of each target
   * and its tolerance for 1 s, 10 s and 100 s, then CONTROL =
   * `(clk_sel << 1) | 1`; it reads nothing.
   */
  lemma EnableRequests(dev: Device, h: seq<Event>, clkFreqMhz: real, ppm: real)
    ensures Requests(Enable(dev, h, clkFreqMhz, ppm)) == ConfigRequests(PlanFor(clkFreqMhz, ppm))
  {
    var p := PlanFor(clkFreqMhz, ppm);
    ConfigEventsRequests(dev, h, p, EnabledReport(p.clkSel, clkFreqMhz, ppm, p.tol1s, p.tol10s, p.tol100s));
  }

  /** The two halves a target is written as join back into its low 32 bits. */
  lemma WrittenTargetsJoin(lowAddr: int, highAddr: int, tolAddr: int, target: int, tol: int)
    ensures var rs := IntervalRequests(lowAddr, highAddr, tolAddr, target, tol);
            rs[1].value * 0x1_0000 + rs[0].value == target % 0x1_0000_0000
  {
    TargetHalvesJoin(target);
  }

  /** disable_gpsdo writes 0 to CONTROL and nothing else. */
  lemma DisableFacts(dev: Device, h: seq<Event>)
    ensures Requests(Disable(dev, h)) == [WriteOf(CONTROL, 0)]
    ensures Quiet(Disable(dev, h))
  {
    var e := WriteEvent(dev, h, CONTROL, 0);
    RequestsAppend([e], [Print(DisabledReport)]);
  }

  // ---------------------------------------------------------------------
  // main

  lemma EnableQuiet(dev: Device, h: seq<Event>, clkFreqMhz: real, ppm: real)
    ensures Quiet(Enable(dev, h, clkFreqMhz, ppm))
  {
    WritesAreTransfers(dev, h, PlanWrites(PlanFor(clkFreqMhz, ppm)));
  }

  /** No command opens or closes the device. */
  lemma StagesQuiet(dev: Device, h: seq<Event>, a: Args)
    requires RunEnds(a)
    ensures Quiet(DumpStage(dev, h, a)) && Quiet(EnableStage(dev, h, a))
    ensures Quiet(DisableStage(dev, h, a)) && Quiet(ResetStage(dev, h, a))
    ensures Quiet(CheckStage(dev, h, a))
  {
    DumpFacts(dev, h, DumpCount(a.num), a.delay);
    EnableQuiet(dev, h, a.clkFreqMhz, a.ppm);
    DisableFacts(dev, h);
    ResetPauses(dev, h, a.resetDelay);
    if a.check {
      MonitoringPauses(dev, h, a.num, a.delay, a.banner);
    }
  }

  /** `es` starts with the one opening of the device and has not closed it. */
  predicate OpenedOnce(es: seq<Event>)
  {
    && es != [] && es[0] == Open
    && Occurrences(es, Open) == 1 && Occurrences(es, Close) == 0
  }

  /** A quiet piece after the opening leaves the device opened once and not closed. */
  lemma OpenedThen(es: seq<Event>, s: seq<Event>)
    requires OpenedOnce(es) && Quiet(s)
    ensures OpenedOnce(es + s)
  {
    Absent(s, Open);
    Absent(s, Close);
    Parts(es, s, Open);
    Parts(es, s, Close);
  }

  /** Closing after the one opening: the device is opened first and closed last, once each. */
  lemma OpenedThenClosed(es: seq<Event>)
    requires OpenedOnce(es)
    ensures var t := es + [Close];
            && t[0] == Open && t[|t| - 1] == Close
            && Occurrences(t, Open) == 1 && Occurrences(t, Close) == 1
  {
    Parts(es, [Close], Open);
    Parts(es, [Close], Close);
  }

  /**
   * main opens the device first and closes it last, once each, whichever
   * commands are selected and also when the monitor raises.
   */
  lemma RunFramed(dev: Device, a: Args)
    requires RunEnds(a)
    ensures var es := Run(dev, a);
            && es[0] == Open && es[|es| - 1] == Close
            && Occurrences(es, Open) == 1 && Occurrences(es, Close) == 1
  {
    var t0 := [Open];
    var t1 := t0 + DumpStage(dev, t0, a);
    var t2 := t1 + EnableStage(dev, t1, a);
    var t3 := t2 + DisableStage(dev, t2, a);
    var t4 := t3 + ResetStage(dev, t3, a);
    var t5 := t4 + CheckStage(dev, t4, a);
    RunOfStages(dev, a, t0, t1, t2, t3, t4, t5);
    assert OpenedOnce(t0);
    StagesQuiet(dev, t0, a);
    OpenedThen(t0, DumpStage(dev, t0, a));
    StagesQuiet(dev, t1, a);
    OpenedThen(t1, EnableStage(dev, t1, a));
    StagesQuiet(dev, t2, a);
    OpenedThen(t2, DisableStage(dev, t2, a));
    StagesQuiet(dev, t3, a);
    OpenedThen(t3, ResetStage(dev, t3, a));
    StagesQuiet(dev, t4, a);
    OpenedThen(t4, CheckStage(dev, t4, a));
    OpenedThenClosed(t5);
  }
}
