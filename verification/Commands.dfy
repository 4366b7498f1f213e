/**
 * The test script's commands over a GpsdoDriver: the monitor loop, the
 * register dump, reset, enable, disable, and the dispatcher that runs the
 * selected commands in a fixed order and always closes the device.
 * Each command is specified by the events it appends to the trace.
 */
module Commands {
  import opened Bits
  import opened Registers
  import opened Wire
  import opened Client
  import opened Planner
  import opened Driver

  // ---------------------------------------------------------------------
  // run_monitoring

  /**
   * The registers one monitor line reads, one piece per getter in the order
   * they are called: get_enabled, the three error getters, get_dac_value,
   * get_status.
   */
  const SnapshotOrder: seq<int> :=
    [CONTROL]
      + [PPS_1S_ERR_L, PPS_1S_ERR_H]
      + [PPS_10S_ERR_L, PPS_10S_ERR_H]
      + [PPS_100S_ERR_L, PPS_100S_ERR_H]
      + [DAC_TUNED_VAL]
      + [STATUS]

  /** The values a monitor line shows, from the nine reads behind it. */
  function SnapshotOf(es: seq<Event>): Snapshot
    requires |es| == 9
  {
    Snapshot(
      IsEnabled(RxValue(es[0])),
      Signed32(RxValue(es[1]), RxValue(es[2])),
      Signed32(RxValue(es[3]), RxValue(es[4])),
      Signed32(RxValue(es[5]), RxValue(es[6])),
      RxValue(es[7]),
      DecodeStatus(RxValue(es[8])))
  }

  /** run_monitoring stops on its own: a bound on the lines, or a zero interval that raises after the first. */
  predicate MonitoringEnds(n: int, banner: int)
  {
    n != 0 || banner == 0
  }

  /**
   * The iterations after the first `count` of the monitor loop, from history
   * `h`.  The loop runs while `n == 0 or count < n`.  After iteration k the
   * header follows when `k % banner == 0` (for a negative banner Python's
   * `%` and Dafny's agree on a zero remainder), and a sleep follows unless k
   * is the last.  A zero banner raises ZeroDivisionError right after the
   * first line: nothing more happens.
   */
  function MonitorLoop(dev: Device, h: seq<Event>, n: int, delay: real, banner: int, count: nat): seq<Event>
    requires MonitoringEnds(n, banner)
    decreases if n > count then n - count else 0
  {
    if n != 0 && count >= n then []
    else if banner == 0 then MonitorStep(dev, h, n, delay, banner, count)
    else
      var step := MonitorStep(dev, h, n, delay, banner, count);
      step + MonitorLoop(dev, h + step, n, delay, banner, count + 1)
  }

  /** Iteration `count + 1` of the monitor loop. */
  function MonitorStep(dev: Device, h: seq<Event>, n: int, delay: real, banner: int, count: nat): seq<Event>
  {
    var r := Reads(dev, h, SnapshotOrder);
    var line := r + [Print(SnapshotLine(count + 1, SnapshotOf(r)))];
    if banner == 0 then line
    else
      var header := if (count + 1) % banner == 0 then line + [Print(Header)] else line;
      if n == 0 || count + 1 < n then header + [Sleep(delay)] else header
  }

  /** run_monitoring, when it stops on its own. */
  function Monitoring(dev: Device, h: seq<Event>, n: int, delay: real, banner: int): seq<Event>
    requires MonitoringEnds(n, banner)
  {
    var p := [Print(MonitorBanner), Print(Header)];
    p + MonitorLoop(dev, h + p, n, delay, banner, 0)
  }

  /** run_monitoring ends with ZeroDivisionError exactly when a line is printed and the banner is 0. */
  predicate MonitoringRaises(n: int, banner: int)
  {
    n >= 0 && banner == 0
  }

  /** A monitor line shows what the six getters return. */
  lemma SnapshotValues(r1: seq<Event>, r2: seq<Event>, r3: seq<Event>, r4: seq<Event>, r5: seq<Event>, r6: seq<Event>)
    requires |r1| == 1 && |r2| == 2 && |r3| == 2 && |r4| == 2 && |r5| == 1 && |r6| == 1
    ensures SnapshotOf(r1 + r2 + r3 + r4 + r5 + r6)
         == Snapshot(IsEnabled(RxValue(r1[0])),
                     Signed32(RxValue(r2[0]), RxValue(r2[1])),
                     Signed32(RxValue(r3[0]), RxValue(r3[1])),
                     Signed32(RxValue(r4[0]), RxValue(r4[1])),
                     RxValue(r5[0]),
                     DecodeStatus(RxValue(r6[0])))
  {
    var all := r1 + r2 + r3 + r4 + r5 + r6;
    assert all[0] == r1[0];
    assert all[1] == r2[0] && all[2] == r2[1];
    assert all[3] == r3[0] && all[4] == r3[1];
    assert all[5] == r4[0] && all[6] == r4[1];
    assert all[7] == r5[0] && all[8] == r6[0];
  }

  /** The six getter calls behind one monitor line. */
  method TakeSnapshot(driver: GpsdoDriver) returns (s: Snapshot)
    modifies driver
    ensures driver.trace == old(driver.trace) + Reads(driver.dev, old(driver.trace), SnapshotOrder)
    ensures s == SnapshotOf(Reads(driver.dev, old(driver.trace), SnapshotOrder))
  {
    ghost var dev := driver.dev;
    ghost var h := driver.trace;
    ghost var a := [CONTROL];
    ghost var r1 := Reads(dev, h, a);
    ghost var got := r1;
    var enabled := driver.GetEnabled();

    ghost var b := [PPS_1S_ERR_L, PPS_1S_ERR_H];
    ReadsThen(dev, h, a, b, driver.trace);
    ghost var r2 := Reads(dev, driver.trace, b);
    var error1s := driver.Get1sError();
    a := a + b;
    got := got + r2;
    assert Reads(dev, h, a) == got;

    b := [PPS_10S_ERR_L, PPS_10S_ERR_H];
    ReadsThen(dev, h, a, b, driver.trace);
    ghost var r3 := Reads(dev, driver.trace, b);
    var error10s := driver.Get10sError();
    a := a + b;
    got := got + r3;
    assert Reads(dev, h, a) == got;

    b := [PPS_100S_ERR_L, PPS_100S_ERR_H];
    ReadsThen(dev, h, a, b, driver.trace);
    ghost var r4 := Reads(dev, driver.trace, b);
    var error100s := driver.Get100sError();
    a := a + b;
    got := got + r4;
    assert Reads(dev, h, a) == got;

    b := [DAC_TUNED_VAL];
    ReadsThen(dev, h, a, b, driver.trace);
    ghost var r5 := Reads(dev, driver.trace, b);
    var dac := driver.GetDacValue();
    a := a + b;
    got := got + r5;
    assert Reads(dev, h, a) == got;

    b := [STATUS];
    ReadsThen(dev, h, a, b, driver.trace);
    ghost var r6 := Reads(dev, driver.trace, b);
    var status := driver.GetStatus();
    a := a + b;
    got := got + r6;
    assert Reads(dev, h, a) == got;

    SnapshotValues(r1, r2, r3, r4, r5, r6);
    s := Snapshot(enabled, error1s, error10s, error100s, dac, status);
  }

  /** One more iteration done: the iterations still to come start after it. */
  lemma MonitorAdvance(dev: Device, h: seq<Event>, n: int, delay: real, banner: int, count: nat)
    requires count < n && banner != 0
    ensures var step := MonitorStep(dev, h, n, delay, banner, count);
            h + MonitorLoop(dev, h, n, delay, banner, count)
            == (h + step) + MonitorLoop(dev, h + step, n, delay, banner, count + 1)
  {
  }

  lemma MonitoringStart(dev: Device, h: seq<Event>, n: int, delay: real, banner: int)
    requires MonitoringEnds(n, banner)
    ensures var p := [Print(MonitorBanner), Print(Header)];
            h + Monitoring(dev, h, n, delay, banner) == (h + p) + MonitorLoop(dev, h + p, n, delay, banner, 0)
  {
  }

  /**
   * One pass of run_monitoring's loop body after `count` lines: the six
   * getters, the printed line, the header when the new count is a multiple
   * of the banner interval, and the pause unless this was the last line.
   * `ok` is false when the modulo by a zero interval raises.
   */
  method MonitorIteration(driver: GpsdoDriver, numDumps: int, delay: real, bannerInterval: int, count: nat) returns (ok: bool)
    modifies driver
    ensures driver.trace == old(driver.trace) + MonitorStep(driver.dev, old(driver.trace), numDumps, delay, bannerInterval, count)
    ensures ok <==> bannerInterval != 0
  {
    ghost var h := driver.trace;
    var s := TakeSnapshot(driver);
    ghost var done := Reads(driver.dev, h, SnapshotOrder);
    var dumpCount := count + 1;
    driver.trace := driver.trace + [Print(SnapshotLine(dumpCount, s))];
    done := done + [Print(SnapshotLine(dumpCount, s))];
    assert driver.trace == h + done;
    if bannerInterval == 0 {
      return false;
    }
    if dumpCount % bannerInterval == 0 {
      driver.trace := driver.trace + [Print(Header)];
      done := done + [Print(Header)];
      assert driver.trace == h + done;
    }
    if numDumps == 0 || dumpCount < numDumps {
      driver.trace := driver.trace + [Sleep(delay)];
      done := done + [Sleep(delay)];
      assert driver.trace == h + done;
    }
    return true;
  }

  /**
   * run_monitoring, when it stops on its own (a zero `numDumps` with a
   * nonzero interval runs until interrupted).  `ok` is false when the loop
   * ends with ZeroDivisionError.
   */
  method RunMonitoring(driver: GpsdoDriver, numDumps: int, delay: real, bannerInterval: int) returns (ok: bool)
    requires MonitoringEnds(numDumps, bannerInterval)
    modifies driver
    ensures driver.trace == old(driver.trace) + Monitoring(driver.dev, old(driver.trace), numDumps, delay, bannerInterval)
    ensures ok <==> !MonitoringRaises(numDumps, bannerInterval)
  {
    ghost var dev := driver.dev;
    ghost var whole := driver.trace + Monitoring(dev, driver.trace, numDumps, delay, bannerInterval);
    MonitoringStart(dev, driver.trace, numDumps, delay, bannerInterval);
    driver.trace := driver.trace + [Print(MonitorBanner), Print(Header)];
    var dumpCount := 0;
    ok := true;
    while numDumps == 0 || dumpCount < numDumps
      invariant 0 <= dumpCount
      invariant ok && (dumpCount > 0 ==> bannerInterval != 0 && numDumps > 0)
      invariant whole == driver.trace + MonitorLoop(dev, driver.trace, numDumps, delay, bannerInterval, dumpCount)
      decreases if numDumps > dumpCount then numDumps - dumpCount else 0
    {
      ghost var h := driver.trace;
      ok := MonitorIteration(driver, numDumps, delay, bannerInterval, dumpCount);
      if !ok {
        return;
      }
      MonitorAdvance(dev, h, numDumps, delay, bannerInterval, dumpCount);
      dumpCount := dumpCount + 1;
    }
  }

  // ---------------------------------------------------------------------
  // dump_registers

  /** One pass of the dump: each register read, then its line printed. */
  function DumpPass(dev: Device, h: seq<Event>, addrs: seq<int>): (es: seq<Event>)
    ensures |es| == 2 * |addrs|
    decreases |addrs|
  {
    if addrs == [] then []
    else
      var r := ReadEvent(dev, h, addrs[0]);
      var p := Print(RegisterLine(addrs[0], RxValue(r)));
      [r, p] + DumpPass(dev, h + [r, p], addrs[1..])
  }

  /** What precedes dump `i + 1`: nothing for the first, a sleep and its title for the others. */
  function DumpPre(delay: real, i: nat): seq<Event>
  {
    if i > 0 then [Sleep(delay), Print(DumpTitle(i + 1))] else []
  }

  /** Dumps `i + 1` to `n`. */
  function DumpLoop(dev: Device, h: seq<Event>, n: int, delay: real, i: nat): seq<Event>
    decreases n - i
  {
    if i >= n then []
    else
      var pre := DumpPre(delay, i);
      var pass := DumpPass(dev, h + pre, DumpOrder);
      pre + pass + DumpLoop(dev, h + pre + pass, n, delay, i + 1)
  }

  function Dump(dev: Device, h: seq<Event>, n: int, delay: real): seq<Event>
  {
    [Print(DumpBanner)] + DumpLoop(dev, h + [Print(DumpBanner)], n, delay, 0)
  }

  /** One register of a pass read and printed: the rest of the pass follows it. */
  lemma DumpPassStep(dev: Device, h: seq<Event>, addrs: seq<int>)
    requires addrs != []
    ensures var r := ReadEvent(dev, h, addrs[0]);
            var p := Print(RegisterLine(addrs[0], RxValue(r)));
            h + DumpPass(dev, h, addrs) == (h + [r, p]) + DumpPass(dev, h + [r, p], addrs[1..])
  {
  }

  /** One more dump done, ending at `t`: the dumps still to come start after it. */
  lemma DumpAdvance(dev: Device, h: seq<Event>, n: int, delay: real, i: nat, t: seq<Event>)
    requires i < n
    requires t == (h + DumpPre(delay, i)) + DumpPass(dev, h + DumpPre(delay, i), DumpOrder)
    ensures h + DumpLoop(dev, h, n, delay, i) == t + DumpLoop(dev, t, n, delay, i + 1)
  {
    var pre := DumpPre(delay, i);
    var pass := DumpPass(dev, h + pre, DumpOrder);
    assert h + (pre + pass + DumpLoop(dev, h + pre + pass, n, delay, i + 1))
        == ((h + pre) + pass) + DumpLoop(dev, h + pre + pass, n, delay, i + 1);
  }

  /** The inner loop of dump_registers: each register of `addrs` read, then its line printed. */
  method DumpPassOver(driver: GpsdoDriver, addrs: seq<int>)
    modifies driver
    ensures driver.trace == old(driver.trace) + DumpPass(driver.dev, old(driver.trace), addrs)
  {
    ghost var dev := driver.dev;
    ghost var hp := driver.trace;
    var j := 0;
    while j < |addrs|
      invariant 0 <= j <= |addrs|
      invariant hp + DumpPass(dev, hp, addrs) == driver.trace + DumpPass(dev, driver.trace, addrs[j..])
    {
      var addr := addrs[j];
      ghost var t := driver.trace;
      ghost var e := ReadEvent(dev, t, addr);
      DumpPassStep(dev, t, addrs[j..]);
      assert addrs[j..][1..] == addrs[j + 1..];
      assert Reads(dev, t, [addr]) == [e];
      var value := driver.ReadRegister(addr);
      driver.trace := driver.trace + [Print(RegisterLine(addr, value))];
      assert driver.trace == t + [e, Print(RegisterLine(addr, value))];
      j := j + 1;
    }
    assert addrs[j..] == [];
  }

  /** dump_registers: `numDumps` passes over the 18 registers (none when it is not positive). */
  method DumpRegisters(driver: GpsdoDriver, numDumps: int, delay: real)
    modifies driver
    ensures driver.trace == old(driver.trace) + Dump(driver.dev, old(driver.trace), numDumps, delay)
  {
    ghost var dev := driver.dev;
    ghost var whole := driver.trace + Dump(dev, driver.trace, numDumps, delay);
    driver.trace := driver.trace + [Print(DumpBanner)];
    var i := 0;
    while i < numDumps
      invariant 0 <= i
      invariant whole == driver.trace + DumpLoop(dev, driver.trace, numDumps, delay, i)
      decreases numDumps - i
    {
      ghost var h := driver.trace;
      if i > 0 {
        driver.trace := driver.trace + [Sleep(delay)];
        driver.trace := driver.trace + [Print(DumpTitle(i + 1))];
      }
      assert driver.trace == h + DumpPre(delay, i);
      DumpPassOver(driver, DumpOrder);
      DumpAdvance(dev, h, numDumps, delay, i, driver.trace);
      i := i + 1;
    }
  }

  // ---------------------------------------------------------------------
  // reset_gpsdo, enable_gpsdo, disable_gpsdo

  function Reset(dev: Device, h: seq<Event>, resetDelay: real): seq<Event>
  {
    var a := [Print(ResetStarted)];
    var b := SetEnabledEvents(dev, h + a, false);
    var c := [Sleep(resetDelay)];
    var d := SetEnabledEvents(dev, h + a + b + c, true);
    a + b + c + d + [Print(ResetComplete)]
  }

  method ResetGpsdo(driver: GpsdoDriver, resetDelay: real)
    modifies driver
    ensures driver.trace == old(driver.trace) + Reset(driver.dev, old(driver.trace), resetDelay)
  {
    driver.trace := driver.trace + [Print(ResetStarted)];
    driver.SetEnabled(false);
    driver.trace := driver.trace + [Sleep(resetDelay)];
    driver.SetEnabled(true);
    driver.trace := driver.trace + [Print(ResetComplete)];
  }

  function Enable(dev: Device, h: seq<Event>, clkFreqMhz: real, ppm: real): seq<Event>
  {
    var p := PlanFor(clkFreqMhz, ppm);
    Writes(dev, h, PlanWrites(p))
      + [Print(EnabledReport(p.clkSel, clkFreqMhz, ppm, p.tol1s, p.tol10s, p.tol100s))]
  }

  /** One "Configure ... Target and Tolerance" block of enable_gpsdo. */
  method ConfigureInterval(driver: GpsdoDriver, lowAddr: int, highAddr: int, tolAddr: int, target: int, tol: int)
    modifies driver
    ensures driver.trace
         == old(driver.trace) + Writes(driver.dev, old(driver.trace), IntervalWrites(lowAddr, highAddr, tolAddr, target, tol))
  {
    ghost var dev := driver.dev;
    ghost var h := driver.trace;
    driver.WriteRegister(lowAddr, target % 0x1_0000);
    ghost var a := [(lowAddr, target % 0x1_0000)];
    WritesThen(dev, h, a, [(highAddr, target / 0x1_0000)], driver.trace);
    driver.WriteRegister(highAddr, target / 0x1_0000);
    a := a + [(highAddr, target / 0x1_0000)];
    WritesThen(dev, h, a, [(tolAddr, tol)], driver.trace);
    driver.WriteRegister(tolAddr, tol);
    a := a + [(tolAddr, tol)];
    assert a == IntervalWrites(lowAddr, highAddr, tolAddr, target, tol);
  }

  method EnableGpsdo(driver: GpsdoDriver, clkFreqMhz: real, ppm: real)
    modifies driver
    ensures driver.trace == old(driver.trace) + Enable(driver.dev, old(driver.trace), clkFreqMhz, ppm)
  {
    ghost var dev := driver.dev;
    ghost var h := driver.trace;
    var p := PlanFor(clkFreqMhz, ppm);
    ghost var w1 := IntervalWrites(PPS_1S_TARGET_L, PPS_1S_TARGET_H, PPS_1S_ERR_TOL, p.target1s, p.tol1s);
    ghost var w2 := IntervalWrites(PPS_10S_TARGET_L, PPS_10S_TARGET_H, PPS_10S_ERR_TOL, p.target10s, p.tol10s);
    ghost var w3 := IntervalWrites(PPS_100S_TARGET_L, PPS_100S_TARGET_H, PPS_100S_ERR_TOL, p.target100s, p.tol100s);

    ConfigureInterval(driver, PPS_1S_TARGET_L, PPS_1S_TARGET_H, PPS_1S_ERR_TOL, p.target1s, p.tol1s);
    WritesThen(dev, h, w1, w2, driver.trace);
    ConfigureInterval(driver, PPS_10S_TARGET_L, PPS_10S_TARGET_H, PPS_10S_ERR_TOL, p.target10s, p.tol10s);
    WritesThen(dev, h, w1 + w2, w3, driver.trace);
    ConfigureInterval(driver, PPS_100S_TARGET_L, PPS_100S_TARGET_H, PPS_100S_ERR_TOL, p.target100s, p.tol100s);

    var control := SetField(0, CONTROL_CLK_SEL_OFFSET, CONTROL_CLK_SEL_SIZE, p.clkSel);
    control := SetField(control, CONTROL_EN_OFFSET, CONTROL_EN_SIZE, 1);
    WritesThen(dev, h, w1 + w2 + w3, [(CONTROL, control)], driver.trace);
    driver.WriteRegister(CONTROL, control);
    assert w1 + w2 + w3 + [(CONTROL, control)] == PlanWrites(p);

    driver.trace := driver.trace + [Print(EnabledReport(p.clkSel, clkFreqMhz, ppm, p.tol1s, p.tol10s, p.tol100s))];
  }

  function Disable(dev: Device, h: seq<Event>): seq<Event>
  {
    [WriteEvent(dev, h, CONTROL, 0), Print(DisabledReport)]
  }

  method DisableGpsdo(driver: GpsdoDriver)
    modifies driver
    ensures driver.trace == old(driver.trace) + Disable(driver.dev, old(driver.trace))
  {
    driver.WriteRegister(CONTROL, 0x0000);
    driver.trace := driver.trace + [Print(DisabledReport)];
  }

  // ---------------------------------------------------------------------
  // main

  /** The parsed command line; argparse itself is not modelled. */
  datatype Args = Args(
    check: bool, dump: bool, reset: bool, enable: bool, disable: bool,
    num: int, delay: real, banner: int, resetDelay: real,
    clkFreqMhz: real, ppm: real)

  /** The number of dumps main asks for: `num` when positive, else 1. */
  function DumpCount(num: int): (n: int)
    ensures n >= 1
    ensures num > 0 ==> n == num
    ensures num <= 0 ==> n == 1
  {
    if num > 0 then num else 1
  }

  /** main stops on its own: monitoring, when selected, stops on its own. */
  predicate RunEnds(a: Args)
  {
    a.check ==> MonitoringEnds(a.num, a.banner)
  }

  /** main ends with ZeroDivisionError exactly when the monitor raises it. */
  predicate RunRaises(a: Args)
  {
    a.check && MonitoringRaises(a.num, a.banner)
  }

  /** The events of each selectable command of main, from history `h`: none when it is not selected. */
  function DumpStage(dev: Device, h: seq<Event>, a: Args): seq<Event>
  {
    if a.dump then Dump(dev, h, DumpCount(a.num), a.delay) else []
  }

  function EnableStage(dev: Device, h: seq<Event>, a: Args): seq<Event>
  {
    if a.enable then Enable(dev, h, a.clkFreqMhz, a.ppm) else []
  }

  function DisableStage(dev: Device, h: seq<Event>, a: Args): seq<Event>
  {
    if a.disable then Disable(dev, h) else []
  }

  function ResetStage(dev: Device, h: seq<Event>, a: Args): seq<Event>
  {
    if a.reset then Reset(dev, h, a.resetDelay) else []
  }

  function CheckStage(dev: Device, h: seq<Event>, a: Args): seq<Event>
    requires RunEnds(a)
  {
    if a.check then Monitoring(dev, h, a.num, a.delay, a.banner) else []
  }

  /**
   * The whole trace of one run of main: open the device, then dump,
   * enable, disable, reset and check, each when selected, in that fixed
   * order, and close the device last, also when the monitor raised.
   */
  function Run(dev: Device, a: Args): seq<Event>
    requires RunEnds(a)
  {
    var t0 := [Open];
    var t1 := t0 + DumpStage(dev, t0, a);
    var t2 := t1 + EnableStage(dev, t1, a);
    var t3 := t2 + DisableStage(dev, t2, a);
    var t4 := t3 + ResetStage(dev, t3, a);
    var t5 := t4 + CheckStage(dev, t4, a);
    t5 + [Close]
  }

  /** A run whose stages left the histories `t0` to `t5` is the run of main. */
  lemma RunOfStages(dev: Device, a: Args, t0: seq<Event>, t1: seq<Event>, t2: seq<Event>,
                    t3: seq<Event>, t4: seq<Event>, t5: seq<Event>)
    requires RunEnds(a)
    requires t0 == [Open]
    requires t1 == t0 + DumpStage(dev, t0, a)
    requires t2 == t1 + EnableStage(dev, t1, a)
    requires t3 == t2 + DisableStage(dev, t2, a)
    requires t4 == t3 + ResetStage(dev, t3, a)
    requires t5 == t4 + CheckStage(dev, t4, a)
    ensures Run(dev, a) == t5 + [Close]
  {
  }

  /** main's `if args.dump:` block. */
  method MainDump(driver: GpsdoDriver, args: Args)
    modifies driver
    ensures driver.trace == old(driver.trace) + DumpStage(driver.dev, old(driver.trace), args)
  {
    if args.dump {
      var numDumps := if args.num > 0 then args.num else 1;
      DumpRegisters(driver, numDumps, args.delay);
    }
  }

  /** main's `if args.enable:` block. */
  method MainEnable(driver: GpsdoDriver, args: Args)
    modifies driver
    ensures driver.trace == old(driver.trace) + EnableStage(driver.dev, old(driver.trace), args)
  {
    if args.enable {
      EnableGpsdo(driver, args.clkFreqMhz, args.ppm);
    }
  }

  /** main's `if args.disable:` block. */
  method MainDisable(driver: GpsdoDriver, args: Args)
    modifies driver
    ensures driver.trace == old(driver.trace) + DisableStage(driver.dev, old(driver.trace), args)
  {
    if args.disable {
      DisableGpsdo(driver);
    }
  }

  /** main's `if args.reset:` block. */
  method MainReset(driver: GpsdoDriver, args: Args)
    modifies driver
    ensures driver.trace == old(driver.trace) + ResetStage(driver.dev, old(driver.trace), args)
  {
    if args.reset {
      ResetGpsdo(driver, args.resetDelay);
    }
  }

  /** main's `if args.check:` block; `ok` is false when the monitor raised. */
  method MainCheck(driver: GpsdoDriver, args: Args) returns (ok: bool)
    requires RunEnds(args)
    modifies driver
    ensures driver.trace == old(driver.trace) + CheckStage(driver.dev, old(driver.trace), args)
    ensures ok <==> !RunRaises(args)
  {
    ok := true;
    if args.check {
      ok := RunMonitoring(driver, args.num, args.delay, args.banner);
    }
  }

  /**
   * main over a device, with the arguments already parsed.  `ok` is false
   * when the run ends with ZeroDivisionError; the device is closed either way.
   */
  method RunMain(dev: Device, args: Args) returns (trace: seq<Event>, ok: bool)
    requires RunEnds(args)
    ensures trace == Run(dev, args)
    ensures ok <==> !RunRaises(args)
  {
    var driver := new GpsdoDriver(dev);
    ghost var t0 := driver.trace;
    MainDump(driver, args);
    ghost var t1 := driver.trace;
    MainEnable(driver, args);
    ghost var t2 := driver.trace;
    MainDisable(driver, args);
    ghost var t3 := driver.trace;
    MainReset(driver, args);
    ghost var t4 := driver.trace;
    ok := MainCheck(driver, args);
    ghost var t5 := driver.trace;
    driver.Close();
    trace := driver.trace;
    RunOfStages(dev, args, t0, t1, t2, t3, t4, t5);
  }
}
