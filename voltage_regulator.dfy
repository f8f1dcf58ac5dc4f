/** The voltage-regulator tap controller: a per-regulator hysteresis state
    machine (Idle, over-voltage, under-voltage) with a control timer, a tap
    timer, a bounded tap position and a lifetime switch counter. One call of
    `Run` is one simulation tick. */
module VoltageRegulator {
  import opened Wrappers
  import opened Phasor

  datatype Mode = Idle | OV | UV

  /** The regulating voltage as numpy produces it: a number, or NaN when the
      mean is taken over no phasors at all. Every comparison with NaN is false. */
  datatype Sensed = Volts(v: real) | NaN

  /** Why the input conditioning raises instead of returning a voltage. */
  datatype VRError =
    | ZeroDivision            // a PT ratio or CT rating of zero divides a phasor
    | ShapeMismatch(n: nat, m: nat)  // numpy cannot broadcast the two phasor arrays

  /** Static settings of one regulator (the constructor's parameters). */
  datatype Config = Config(
    ts: real,          // sampling time (s)
    tdCtrl: real,      // control delay (s)
    tdTap: real,       // tap delay (s)
    vref: real,        // reference voltage on a 120 V base
    db: real,          // deadband on a 120 V base
    ldcR: real,        // line-drop compensation R (V)
    ldcX: real,        // line-drop compensation X (V)
    ptRatio: real,     // PT ratio, primary over secondary
    ctPrimary: real,   // CT primary rating (A)
    tapMax: real,
    tapMin: real)

  /** The constructor's keyword defaults around the obligatory sampling time. */
  function DefaultConfig(ts: real): (c: Config)
    ensures c.ts == ts && c.tdCtrl == 30.0 && c.tdTap == 2.0
    ensures c.vref == 120.0 && c.db == 2.0 && c.tapMax == 16.0 && c.tapMin == -16.0
  {
    Config(ts, 30.0, 2.0, 120.0, 2.0, 0.0, 0.0, 120.0, 100.0, 16.0, -16.0)
  }

  /** The run-time state one tick reads and writes; `v` is the last voltage used. */
  datatype State = State(mode: Mode, tiCtrl: real, tiTap: real, tap: real, totalSw: nat, v: Sensed)

  /** A new regulator: Idle, control timer at zero, tap timer pre-loaded with
      the tap delay, no switching yet, the caller's initial tap. */
  function Initial(cfg: Config, tapIni: real): State
  {
    State(Idle, 0.0, cfg.tdTap, tapIni, 0, Volts(0.0))
  }

  predicate AboveBand(cfg: Config, s: Sensed)
  {
    s.Volts? && s.v > cfg.vref + cfg.db / 2.0
  }

  predicate BelowBand(cfg: Config, s: Sensed)
  {
    s.Volts? && s.v < cfg.vref - cfg.db / 2.0
  }

  /** The closed deadband `[vref - db/2, vref + db/2]`, edges included. */
  predicate InBand(cfg: Config, s: Sensed)
  {
    s.Volts? && cfg.vref - cfg.db / 2.0 <= s.v <= cfg.vref + cfg.db / 2.0
  }

  /** A whole tap position (the controller only ever moves by whole steps). */
  predicate Whole(x: real)
  {
    x.Floor as real == x
  }

  /** The hysteresis half of a tick: the new mode and control timer. */
  function Hysteresis(cfg: Config, st: State, s: Sensed): (Mode, real)
  {
    if AboveBand(cfg, s) then
      (if st.mode == OV then (OV, st.tiCtrl + cfg.ts) else (OV, 0.0))
    else if BelowBand(cfg, s) then
      (if st.mode == UV then (UV, st.tiCtrl + cfg.ts) else (UV, 0.0))
    else (Idle, 0.0)
  }

  /** One tick of the controller on the regulating voltage `s`: the
      reference definition the class method `Run` is proved against. */
  function Step(cfg: Config, st: State, s: Sensed): (r: State)
    ensures r.v == s
    ensures r.tap == st.tap || r.tap == st.tap - 1.0 || r.tap == st.tap + 1.0
    ensures r.totalSw == st.totalSw + (if r.tap != st.tap then 1 else 0)
    ensures r.tiTap == (if r.tap != st.tap then 0.0 else st.tiTap + cfg.ts)
  {
    var (mode, tiCtrl) := Hysteresis(cfg, st, s);
    var tiTap := st.tiTap + cfg.ts;
    if tiCtrl > cfg.tdCtrl && mode == OV && tiTap >= cfg.tdTap && st.tap > cfg.tapMin then
      State(mode, tiCtrl, 0.0, st.tap - 1.0, st.totalSw + 1, s)
    else if tiCtrl > cfg.tdCtrl && mode == UV && tiTap >= cfg.tdTap && st.tap < cfg.tapMax then
      State(mode, tiCtrl, 0.0, st.tap + 1.0, st.totalSw + 1, s)
    else
      State(mode, tiCtrl, tiTap, st.tap, st.totalSw, s)
  }

  /** Whole positions one step apart: the next one up or down is whole, and
      a whole position above another is at least one step above it. */
  lemma WholeSteps(x: real, y: real)
    requires Whole(x) && Whole(y)
    ensures Whole(x - 1.0) && Whole(x + 1.0)
    ensures x > y ==> x - 1.0 >= y
    ensures x < y ==> x + 1.0 <= y
  {
    var n, m := x.Floor, y.Floor;
    assert x - 1.0 == (n - 1) as real && x + 1.0 == (n + 1) as real;
    assert x > y ==> n > m;
    assert x < y ==> n < m;
  }

  /** With whole limits, a whole tap that starts within them stays whole and
      within them. */
  lemma StepWithinLimits(cfg: Config, st: State, s: Sensed)
    requires Whole(st.tap) && Whole(cfg.tapMin) && Whole(cfg.tapMax)
    requires cfg.tapMin <= st.tap <= cfg.tapMax
    ensures var r := Step(cfg, st, s);
      Whole(r.tap) && cfg.tapMin <= r.tap <= cfg.tapMax
  {
    WholeSteps(st.tap, cfg.tapMin);
    WholeSteps(st.tap, cfg.tapMax);
  }

  /** A voltage in the closed deadband, or NaN, forces Idle and a zero control
      timer, and no tap moves; Idle happens for no other voltage. */
  lemma DeadbandForcesIdle(cfg: Config, st: State, s: Sensed)
    ensures Step(cfg, st, s).mode == Idle <==> !AboveBand(cfg, s) && !BelowBand(cfg, s)
    ensures (InBand(cfg, s) || s.NaN?) ==>
              var r := Step(cfg, st, s);
              r.mode == Idle && r.tiCtrl == 0.0 && r.tap == st.tap && r.totalSw == st.totalSw
  {
  }

  /** Above the band: entering OV starts the control timer at zero, staying in
      OV advances it by one sampling time. */
  lemma OverBandTimer(cfg: Config, st: State, s: Sensed)
    requires AboveBand(cfg, s)
    ensures Step(cfg, st, s).mode == OV
    ensures Step(cfg, st, s).tiCtrl == if st.mode == OV then st.tiCtrl + cfg.ts else 0.0
  {
  }

  /** Below the band (and not above it): the symmetric UV rule. */
  lemma UnderBandTimer(cfg: Config, st: State, s: Sensed)
    requires BelowBand(cfg, s) && !AboveBand(cfg, s)
    ensures Step(cfg, st, s).mode == UV
    ensures Step(cfg, st, s).tiCtrl == if st.mode == UV then st.tiCtrl + cfg.ts else 0.0
  {
  }

  /** A tap move needs the control timer strictly past the control delay and
      the tap timer at or past the tap delay; OV lowers the tap by one and UV
      raises it by one, each only while the bound is not reached. */
  lemma TapMoveRule(cfg: Config, st: State, s: Sensed)
    ensures var r := Step(cfg, st, s);
      r.tap == st.tap - 1.0 <==>
        r.tiCtrl > cfg.tdCtrl && r.mode == OV && st.tiTap + cfg.ts >= cfg.tdTap && st.tap > cfg.tapMin
    ensures var r := Step(cfg, st, s);
      r.tap == st.tap + 1.0 <==>
        r.tiCtrl > cfg.tdCtrl && r.mode == UV && st.tiTap + cfg.ts >= cfg.tdTap && st.tap < cfg.tapMax
  {
  }

  /** At a bound, an attempted move leaves the tap, the counter and the tap
      timer's growth exactly as if nothing had been attempted. */
  lemma BoundStopsMove(cfg: Config, st: State, s: Sensed)
    requires (Step(cfg, st, s).mode == OV && st.tap <= cfg.tapMin)
          || (Step(cfg, st, s).mode == UV && st.tap >= cfg.tapMax)
    ensures Step(cfg, st, s).tap == st.tap
    ensures Step(cfg, st, s).totalSw == st.totalSw
    ensures Step(cfg, st, s).tiTap == st.tiTap + cfg.ts
  {
  }

  // ---------------------------------------------------------------------------
  // Input conditioning

  /** `np.mean` over magnitudes: NaN for an empty array. */
  function Mean(xs: seq<real>): (r: Sensed)
    ensures r.NaN? <==> |xs| == 0
  {
    if |xs| == 0 then NaN else Volts(Sum(xs) / |xs| as real)
  }

  function Sum(xs: seq<real>): real
  {
    if |xs| == 0 then 0.0 else Sum(xs[..|xs| - 1]) + xs[|xs| - 1]
  }

  /** The line-drop compensation phasors: `I / CT * (R + jX)` per current
      phasor, or one zero per voltage phasor when no current is given. */
  function Compensation(cfg: Config, ipri: seq<Complex>, n: nat): (r: Result<seq<Complex>, VRError>)
    ensures r.Err? <==> |ipri| > 0 && cfg.ctPrimary == 0.0
    ensures r.Ok? && |ipri| == 0 ==> r.value == seq(n, k => Zero)
    ensures r.Ok? && |ipri| > 0 ==> |r.value| == |ipri|
  {
    if |ipri| > 0 then
      if cfg.ctPrimary == 0.0 then Err(ZeroDivision)
      else Ok(seq(|ipri|, k requires 0 <= k < |ipri| =>
                Mul(DivReal(ipri[k], cfg.ctPrimary), Complex(cfg.ldcR, cfg.ldcX))))
    else Ok(seq(n, k => Zero))
  }

  /** `np.array(a) - np.array(b)` with numpy's broadcasting of a length-one side. */
  function Broadcast(a: seq<Complex>, b: seq<Complex>): (r: Result<seq<Complex>, VRError>)
    ensures r.Err? <==> |a| != |b| && |a| != 1 && |b| != 1
    ensures r.Ok? && |a| == |b| ==> r.value == seq(|a|, k requires 0 <= k < |a| => Sub(a[k], b[k]))
  {
    if |a| == |b| then Ok(seq(|a|, k requires 0 <= k < |a| => Sub(a[k], b[k])))
    else if |a| == 1 then Ok(seq(|b|, k requires 0 <= k < |b| => Sub(a[0], b[k])))
    else if |b| == 1 then Ok(seq(|a|, k requires 0 <= k < |a| => Sub(a[k], b[0])))
    else Err(ShapeMismatch(|a|, |b|))
  }

  /** The secondary voltages `Vpri / PT_Ratio`. */
  function Secondary(cfg: Config, vpri: seq<Complex>): seq<Complex>
    requires |vpri| > 0 ==> cfg.ptRatio != 0.0
  {
    seq(|vpri|, k requires 0 <= k < |vpri| => DivReal(vpri[k], cfg.ptRatio))
  }

  /** The voltage one call regulates on: the supplied `Vreg` unchanged, or the
      mean magnitude of the compensated secondary voltages. `mag` is the
      complex absolute value. */
  function RegulatingVoltage(cfg: Config, vregIn: Option<real>, vpri: seq<Complex>,
                             ipri: seq<Complex>, mag: Complex -> real): (r: Result<Sensed, VRError>)
    ensures vregIn.Some? ==> r == Ok(Volts(vregIn.value))
    ensures vregIn.None? && |vpri| > 0 && cfg.ptRatio == 0.0 ==> r == Err(ZeroDivision)
  {
    if vregIn.Some? then Ok(Volts(vregIn.value))
    else if |vpri| > 0 && cfg.ptRatio == 0.0 then Err(ZeroDivision)
    else
      var vsec := Secondary(cfg, vpri);
      match Compensation(cfg, ipri, |vpri|)
      case Err(e) => Err(e)
      case Ok(vldc) =>
        match Broadcast(vsec, vldc)
        case Err(e) => Err(e)
        case Ok(d) => Ok(Mean(seq(|d|, k requires 0 <= k < |d| => mag(d[k]))))
  }

  /** Without current phasors there is no line-drop correction: the voltage is
      the mean magnitude of `Vpri / PT_Ratio`, and NaN when `Vpri` is empty too. */
  lemma NoCurrentNoCompensation(cfg: Config, vpri: seq<Complex>, mag: Complex -> real)
    requires cfg.ptRatio != 0.0
    ensures RegulatingVoltage(cfg, None, vpri, [], mag)
         == Ok(Mean(seq(|vpri|, k requires 0 <= k < |vpri| => mag(DivReal(vpri[k], cfg.ptRatio)))))
    ensures |vpri| == 0 ==> RegulatingVoltage(cfg, None, vpri, [], mag) == Ok(NaN)
  {
    var vsec := Secondary(cfg, vpri);
    var zeros := seq(|vpri|, k => Zero);
    assert Compensation(cfg, [], |vpri|) == Ok(zeros);
    var d := seq(|vsec|, k requires 0 <= k < |vsec| => Sub(vsec[k], zeros[k]));
    assert Broadcast(vsec, zeros) == Ok(d);
    assert forall k :: 0 <= k < |d| ==> d[k] == DivReal(vpri[k], cfg.ptRatio);
    assert seq(|d|, k requires 0 <= k < |d| => mag(d[k]))
        == seq(|vpri|, k requires 0 <= k < |vpri| => mag(DivReal(vpri[k], cfg.ptRatio)));
  }

  // ---------------------------------------------------------------------------
  // The regulator object

  class VRModel {
    const cfg: Config
    var mode: Mode
    var tiCtrl: real
    var tiTap: real
    var tap: real
    var totalSw: nat
    var v: Sensed
    var vreg: Option<Sensed>   // the `Vreg` attribute exists only after a first run

    function Snapshot(): State
      reads this
    {
      State(mode, tiCtrl, tiTap, tap, totalSw, v)
    }

    constructor (cfg: Config, tapIni: real)
      ensures this.cfg == cfg && vreg == None
      ensures Snapshot() == Initial(cfg, tapIni)
      ensures mode == Idle && tiCtrl == 0.0 && tiTap == cfg.tdTap && tap == tapIni && totalSw == 0
    {
      this.cfg := cfg;
      tap := tapIni;
      tiCtrl := 0.0;
      tiTap := cfg.tdTap;
      mode := Idle;
      totalSw := 0;
      v := Volts(0.0);
      vreg := None;
    }

    /** The hysteresis logic: over the band the mode becomes OV, under it UV,
        and the control timer counts on while the mode stays; otherwise the
        mode is Idle and the timer restarts. */
    method UpdateMode(s: Sensed)
      modifies this`mode, this`tiCtrl
      ensures (mode, tiCtrl) == Hysteresis(cfg, old(Snapshot()), s)
    {
      if AboveBand(cfg, s) {
        if mode == OV {
          tiCtrl := tiCtrl + cfg.ts;
        } else {
          mode := OV;
          tiCtrl := 0.0;
        }
      } else if BelowBand(cfg, s) {
        if mode == UV {
          tiCtrl := tiCtrl + cfg.ts;
        } else {
          mode := UV;
          tiCtrl := 0.0;
        }
      } else {
        mode := Idle;
        tiCtrl := 0.0;
      }
    }

    /** The tap operation: the tap timer advances, and once the control timer
        has passed its delay and the tap timer its own, OV lowers and UV
        raises the tap by one within its limits, restarting the tap timer. */
    method OperateTap()
      modifies this`tiTap, this`tap, this`totalSw
      ensures var t := old(tiTap) + cfg.ts;
        if tiCtrl > cfg.tdCtrl && mode == OV && t >= cfg.tdTap && old(tap) > cfg.tapMin then
          tap == old(tap) - 1.0 && tiTap == 0.0 && totalSw == old(totalSw) + 1
        else if tiCtrl > cfg.tdCtrl && mode == UV && t >= cfg.tdTap && old(tap) < cfg.tapMax then
          tap == old(tap) + 1.0 && tiTap == 0.0 && totalSw == old(totalSw) + 1
        else
          tap == old(tap) && tiTap == t && totalSw == old(totalSw)
    {
      tiTap := tiTap + cfg.ts;
      if tiCtrl > cfg.tdCtrl {
        if mode == OV && tiTap >= cfg.tdTap {
          if tap > cfg.tapMin {
            tap := tap - 1.0;
            tiTap := 0.0;
            totalSw := totalSw + 1;
          }
        }
        if mode == UV && tiTap >= cfg.tdTap {
          if tap < cfg.tapMax {
            tap := tap + 1.0;
            tiTap := 0.0;
            totalSw := totalSw + 1;
          }
        }
      }
    }

    /** One tick: condition the input, run the hysteresis, advance the timers,
        maybe move the tap, and return the tap. */
    method Run(vregIn: Option<real>, vpri: seq<Complex>, ipri: seq<Complex>, mag: Complex -> real)
      returns (r: Result<real, VRError>)
      modifies this
      ensures r.Err? <==> RegulatingVoltage(cfg, vregIn, vpri, ipri, mag).Err?
      ensures r.Err? ==> Snapshot() == old(Snapshot()) && vreg == old(vreg)
      ensures r.Ok? ==>
        var s := RegulatingVoltage(cfg, vregIn, vpri, ipri, mag).value;
        Snapshot() == Step(cfg, old(Snapshot()), s) && vreg == Some(s) && r.value == tap && v == s
    {
      var cond := RegulatingVoltage(cfg, vregIn, vpri, ipri, mag);
      if cond.Err? {
        return Err(cond.error);
      }
      var s := cond.value;
      v := s;
      UpdateMode(s);
      OperateTap();
      vreg := Some(s);
      r := Ok(tap);
    }
  }

  // ---------------------------------------------------------------------------
  // Repeated ticks under a constant over-band voltage

  /** `n` ticks on the same regulating voltage. */
  function Iterate(cfg: Config, st: State, s: Sensed, n: nat): State
    decreases n
  {
    if n == 0 then st else Step(cfg, Iterate(cfg, st, s, n - 1), s)
  }

  /** The default timing at a one-second sampling time. */
  predicate DefaultTiming(cfg: Config)
  {
    cfg.ts == 1.0 && cfg.tdCtrl == 30.0 && cfg.tdTap == 2.0
  }

  /** Calls 1 to 31: OV with the control timer at k-1, no move yet. */
  lemma {:induction false} BeforeFirstMove(cfg: Config, t: real, s: Sensed, k: nat)
    requires DefaultTiming(cfg) && AboveBand(cfg, s)
    requires 1 <= k <= 31
    ensures Iterate(cfg, Initial(cfg, t), s, k) == State(OV, (k - 1) as real, 2.0 + k as real, t, 0, s)
  {
    if k > 1 {
      BeforeFirstMove(cfg, t, s, k - 1);
    }
  }

  /** Once the first move happened on call 32, the j-th further move lands on
      call 32 + 2j, and the call between two moves only advances the timers. */
  lemma {:induction false} MoveCadence(cfg: Config, t: real, s: Sensed, j: nat)
    requires DefaultTiming(cfg) && AboveBand(cfg, s)
    requires j as real < t - cfg.tapMin
    ensures Iterate(cfg, Initial(cfg, t), s, 32 + 2 * j)
         == State(OV, (31 + 2 * j) as real, 0.0, t - 1.0 - j as real, j + 1, s)
    ensures Iterate(cfg, Initial(cfg, t), s, 33 + 2 * j)
         == State(OV, (32 + 2 * j) as real, 1.0, t - 1.0 - j as real, j + 1, s)
  {
    if j == 0 {
      BeforeFirstMove(cfg, t, s, 31);
    } else {
      MoveCadence(cfg, t, s, j - 1);
      var st := Iterate(cfg, Initial(cfg, t), s, 31 + 2 * j);
      assert st == State(OV, (30 + 2 * j) as real, 1.0, t - j as real, j, s);
      var st1 := Step(cfg, st, s);
      assert Iterate(cfg, Initial(cfg, t), s, 32 + 2 * j) == st1;
      assert st1 == State(OV, (31 + 2 * j) as real, 0.0, t - 1.0 - j as real, j + 1, s);
      assert Iterate(cfg, Initial(cfg, t), s, 33 + 2 * j) == Step(cfg, st1, s);
    }
  }

  /** From a tap `m` positions above `tapMin`, after the last possible move
      the tap sits at `tapMin` and the counter at `m`, however long the
      over-voltage lasts. */
  lemma {:induction false} SaturatesAtMin(cfg: Config, m: nat, s: Sensed, k: nat)
    requires DefaultTiming(cfg) && AboveBand(cfg, s)
    requires 0 < m && k >= 30 + 2 * m
    ensures var st := Iterate(cfg, Initial(cfg, cfg.tapMin + m as real), s, k);
      st.mode == OV && st.tap == cfg.tapMin && st.totalSw == m
    decreases k
  {
    var t := cfg.tapMin + m as real;
    if k == 30 + 2 * m {
      MoveCadence(cfg, t, s, m - 1);
      assert 32 + 2 * (m - 1) == k;
    } else {
      SaturatesAtMin(cfg, m, s, k - 1);
    }
  }

  /** The scenario of a regulator with the default settings (`Ts = 1`) held at
      a constant over-band voltage from a fresh start at tap 0: no move before
      the 32nd call, a tap-down on the 32nd, then one on every second call,
      and exactly 16 moves before `tap_min = -16` stops them. */
  lemma DefaultOverVoltageScenario(x: real)
    requires x > 121.0
    ensures var cfg := DefaultConfig(1.0);
      forall k: nat :: 1 <= k < 32 ==> Iterate(cfg, Initial(cfg, 0.0), Volts(x), k).tap == 0.0
    ensures var cfg := DefaultConfig(1.0);
      Iterate(cfg, Initial(cfg, 0.0), Volts(x), 32).tap == -1.0
    ensures var cfg := DefaultConfig(1.0);
      forall j: nat :: j < 16 ==>
        Iterate(cfg, Initial(cfg, 0.0), Volts(x), 32 + 2 * j).tap == -1.0 - j as real &&
        Iterate(cfg, Initial(cfg, 0.0), Volts(x), 33 + 2 * j).tap == -1.0 - j as real
    ensures var cfg := DefaultConfig(1.0);
      forall k: nat :: k >= 62 ==>
        Iterate(cfg, Initial(cfg, 0.0), Volts(x), k).tap == -16.0 &&
        Iterate(cfg, Initial(cfg, 0.0), Volts(x), k).totalSw == 16
  {
    var cfg := DefaultConfig(1.0);
    var s := Volts(x);
    forall k: nat | 1 <= k < 32
      ensures Iterate(cfg, Initial(cfg, 0.0), s, k).tap == 0.0
    {
      BeforeFirstMove(cfg, 0.0, s, k);
    }
    MoveCadence(cfg, 0.0, s, 0);
    forall j: nat | j < 16
      ensures Iterate(cfg, Initial(cfg, 0.0), s, 32 + 2 * j).tap == -1.0 - j as real
      ensures Iterate(cfg, Initial(cfg, 0.0), s, 33 + 2 * j).tap == -1.0 - j as real
    {
      MoveCadence(cfg, 0.0, s, j);
    }
    assert cfg.tapMin + 16 as real == 0.0;
    forall k: nat | k >= 62
      ensures Iterate(cfg, Initial(cfg, 0.0), s, k).tap == -16.0
      ensures Iterate(cfg, Initial(cfg, 0.0), s, k).totalSw == 16
    {
      SaturatesAtMin(cfg, 16, s, k);
    }
  }
}
