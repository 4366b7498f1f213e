/**
 * The configuration enable_gpsdo derives from a clock frequency in MHz and
 * a tolerance in ppm: three counter targets (1 s, 10 s, 100 s), three
 * tolerances in Hz, the CLK_SEL bit, and the ordered list of register
 * writes that programs them.  The host computes in binary floating point;
 * here the same formulas are evaluated on exact reals, with `int()`
 * (truncation toward zero), `round()` (half to even) and `math.isclose`
 * (relative tolerance 1e-9) written out.
 */
module Planner {
  import opened Bits
  import opened Registers

  /** `int(x)` of a float: truncation toward zero. */
  function Trunc(x: real): (r: int)
    ensures x >= 0.0 ==> r as real <= x < r as real + 1.0
    ensures x < 0.0 ==> r as real - 1.0 < x <= r as real
  {
    if x >= 0.0 then x.Floor else -((-x).Floor)
  }

  /** `round(x)`: the nearest integer, ties going to the even one. */
  function RoundHalfEven(x: real): (r: int)
    ensures -0.5 <= x - r as real <= 0.5
    ensures (x - r as real == 0.5 || x - r as real == -0.5) ==> r % 2 == 0
  {
    var f := x.Floor;
    var d := x - f as real;
    if d < 0.5 then f
    else if d > 0.5 then f + 1
    else if f % 2 == 0 then f
    else f + 1
  }

  function Abs(x: real): real
  {
    if x < 0.0 then -x else x
  }

  /** `math.isclose(a, b)` with its defaults: relative tolerance 1e-9, no absolute tolerance. */
  predicate IsClose(a: real, b: real): (close: bool)
    ensures a == b ==> close
    ensures close && b == 0.0 ==> a == 0.0
  {
    var m := if Abs(a) > Abs(b) then Abs(a) else Abs(b);
    Abs(a - b) <= 0.000000001 * m
  }

  /** The derived configuration of enable_gpsdo. */
  datatype Plan = Plan(
    target1s: int, target10s: int, target100s: int,
    tol1s: int, tol10s: int, tol100s: int,
    clkSel: int)

  /**
   * enable_gpsdo's arithmetic: `freq = clk_freq_mhz * 1e6`, targets
   * `int(N * freq)`, `tol_1s = round(freq * ppm / 1e6)`, the 10 s and 100 s
   * tolerances derived from it by multiplication, and CLK_SEL = 1 exactly
   * when the frequency is close to 10 MHz.
   */
  function PlanFor(clkFreqMhz: real, ppm: real): (p: Plan)
    ensures p.tol10s == 10 * p.tol1s && p.tol100s == 100 * p.tol1s
    ensures -0.5 <= clkFreqMhz * ppm - p.tol1s as real <= 0.5
    ensures (clkFreqMhz * ppm - p.tol1s as real == 0.5 || clkFreqMhz * ppm - p.tol1s as real == -0.5) ==>
              p.tol1s % 2 == 0
    ensures clkFreqMhz >= 0.0 ==>
              && p.target1s as real <= clkFreqMhz * 1000000.0 < p.target1s as real + 1.0
              && p.target10s as real <= clkFreqMhz * 10000000.0 < p.target10s as real + 1.0
              && p.target100s as real <= clkFreqMhz * 100000000.0 < p.target100s as real + 1.0
    ensures clkFreqMhz < 0.0 ==>
              && p.target1s as real - 1.0 < clkFreqMhz * 1000000.0 <= p.target1s as real
              && p.target10s as real - 1.0 < clkFreqMhz * 10000000.0 <= p.target10s as real
              && p.target100s as real - 1.0 < clkFreqMhz * 100000000.0 <= p.target100s as real
    ensures p.clkSel == (if IsClose(clkFreqMhz, 10.0) then 1 else 0)
  {
    var freq := clkFreqMhz * 1000000.0;
    var scaled := freq * ppm / 1000000.0;
    assert scaled == clkFreqMhz * ppm by {
      assert freq * ppm == (clkFreqMhz * ppm) * 1000000.0;
    }
    var tol1s := RoundHalfEven(scaled);
    Plan(Trunc(freq), Trunc(10.0 * freq), Trunc(100.0 * freq),
         tol1s, tol1s * 10, tol1s * 100,
         if IsClose(clkFreqMhz, 10.0) then 1 else 0)
  }

  /** The CONTROL value enable_gpsdo writes: CLK_SEL set into 0, then EN set to 1. */
  function ControlValue(clkSel: int): int
  {
    SetField(SetField(0, CONTROL_CLK_SEL_OFFSET, CONTROL_CLK_SEL_SIZE, clkSel), CONTROL_EN_OFFSET, CONTROL_EN_SIZE, 1)
  }

  /** CONTROL is built from 0, not read back: it is `(clk_sel << 1) | 1`. */
  lemma ControlValueIs(clkSel: int)
    requires clkSel == 0 || clkSel == 1
    ensures ControlValue(clkSel) == 2 * clkSel + 1
  {
    assert GetField(0, 1, 1) == 0 && GetField(0, 0, 1) == 0;
    assert GetField(1, 0, 1) == 1 && GetField(2, 0, 1) == 0;
    assert SetField(0, 1, 1, clkSel) == 2 * clkSel;
  }

  /**
   * The writes that configure one interval: the target's low half
   * (`target & 0xFFFF`), its high half (`target >> 16`), then the tolerance.
   */
  function IntervalWrites(lowAddr: int, highAddr: int, tolAddr: int, target: int, tol: int): (w: seq<(int, int)>)
    ensures |w| == 3
    ensures w[0].0 == lowAddr && w[1].0 == highAddr && w[2].0 == tolAddr
  {
    [(lowAddr, target % 0x1_0000), (highAddr, target / 0x1_0000), (tolAddr, tol)]
  }

  /** The register writes of enable_gpsdo in issue order: 1 s, 10 s and 100 s, then CONTROL. */
  function PlanWrites(p: Plan): (w: seq<(int, int)>)
    ensures |w| == 10
    ensures forall i :: 0 <= i < 9 ==> w[i].0 == i + 1
    ensures w[9] == (CONTROL, ControlValue(p.clkSel))
  {
    IntervalWrites(PPS_1S_TARGET_L, PPS_1S_TARGET_H, PPS_1S_ERR_TOL, p.target1s, p.tol1s)
      + IntervalWrites(PPS_10S_TARGET_L, PPS_10S_TARGET_H, PPS_10S_ERR_TOL, p.target10s, p.tol10s)
      + IntervalWrites(PPS_100S_TARGET_L, PPS_100S_TARGET_H, PPS_100S_ERR_TOL, p.target100s, p.tol100s)
      + [(CONTROL, ControlValue(p.clkSel))]
  }

  /**
   * The two 16-bit registers a target is written to (each write keeping
   * the low 16 bits of its value) join back into the target's low 32 bits:
   * a target below 2^32 arrives intact, a larger one is silently cut.
   */
  lemma TargetHalvesJoin(t: int)
    ensures ((t / 0x1_0000) % 0x1_0000) * 0x1_0000 + t % 0x1_0000 == t % 0x1_0000_0000
    ensures 0 <= t < 0x1_0000_0000 ==> t % 0x1_0000_0000 == t
  {
    var q := t / 0x1_0000;
    var v := (q % 0x1_0000) * 0x1_0000 + t % 0x1_0000;
    assert t == (q / 0x1_0000) * 0x1_0000_0000 + v;
    assert 0 <= v < 0x1_0000_0000 by {
      MulMonotone(q % 0x1_0000, 0xFFFF, 0x1_0000);
    }
    DivModUnique(t, 0x1_0000_0000, q / 0x1_0000, v);
  }

  /** The default configuration: 30.72 MHz at 0.1 ppm. */
  lemma DefaultPlan()
    ensures PlanFor(30.72, 0.1) == Plan(30_720_000, 307_200_000, 3_072_000_000, 3, 30, 300, 0)
  {
    assert 30.72 * 1000000.0 == 30720000.0;
    assert !IsClose(30.72, 10.0);
    assert RoundHalfEven(30720000.0 * 0.1 / 1000000.0) == 3;
  }

  /** `round()` breaks a tie toward the even integer: 25 MHz at 0.1 ppm gives a 1 s tolerance of 2 Hz, not 3. */
  lemma TieRoundsToEven()
    ensures PlanFor(25.0, 0.1).tol1s == 2
  {
    var p := PlanFor(25.0, 0.1);
    assert 25.0 * 0.1 == 2.5;
    assert p.tol1s == 2 || p.tol1s == 3;
  }

  /** A 10 MHz reference selects CLK_SEL = 1. */
  lemma TenMegahertzPlan()
    ensures PlanFor(10.0, 0.1).clkSel == 1
    ensures PlanFor(10.0, 0.1).target1s == 10_000_000
  {
  }

  /**
   * With a whole number of Hz the three targets are multiples of the
   * first; the host computes each as `int(N * freq)`, so for a fractional
   * frequency they need not be.
   */
  lemma TargetsOfWholeHertz(clkFreqMhz: real, ppm: real)
    requires clkFreqMhz >= 0.0
    requires (clkFreqMhz * 1000000.0).Floor as real == clkFreqMhz * 1000000.0
    ensures PlanFor(clkFreqMhz, ppm).target10s == 10 * PlanFor(clkFreqMhz, ppm).target1s
    ensures PlanFor(clkFreqMhz, ppm).target100s == 100 * PlanFor(clkFreqMhz, ppm).target1s
  {
  }

  lemma TargetsOfFractionalHertz()
    ensures PlanFor(10.0000005, 0.1).target1s == 10_000_000
    ensures PlanFor(10.0000005, 0.1).target10s == 100_000_005
  {
    assert 10.0000005 * 1000000.0 == 10000000.5;
  }
}
