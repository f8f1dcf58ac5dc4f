/** The steady-state figures of `XYPlots`: the per-unit/physical-unit scaling
    of reactive and active power, the vertices of the volt-var curve and of
    the frequency-droop curves, and the two lists of operating points the
    figures scatter. Drawing is not part of this model. Arithmetic is on
    exact reals. */
module XyPlot {
  import opened Wrappers

  /** The settings-file fields the figures read (nameplate values in W and
      var, curve settings in pu and Hz). */
  datatype PlotFile = PlotFile(
    npVaMax: real, npPMax: real, npPMaxCharge: real, npPMinPu: real,
    qvV1: real, qvV2: real, qvV3: real, qvV4: real,
    qvQ1: real, qvQ2: real, qvQ3: real, qvQ4: real,
    uf2TripF: real, of2TripF: real,
    pfDbuf: real, pfDbof: real, pfKuf: real, pfKof: real)

  /** What a snapshot of a DER keeps for the figures: measured voltage (pu),
      frequency (Hz) and output powers (pu). */
  datatype OperatingPoint = OperatingPoint(vMeasPu: real, freqHz: real, pOutPu: real, qOutPu: real)

  /** One `{V, P, Q, F}` record; an argument left out is `None`. */
  datatype Measurement = Measurement(v: Option<real>, p: Option<real>, q: Option<real>, f: Option<real>)

  // ---------------------------------------------------------------- scaling

  /** A value in pu of the apparent-power rating, in pu (`pu`) or in kVA/kvar. */
  function CalcS(pu: bool, file: PlotFile, value: real): (r: real)
    ensures pu ==> r == value
    ensures !pu ==> r * 1000.0 == value * file.npVaMax
  {
    if pu then value else value * file.npVaMax / 1000.0
  }

  /** The scaling is linear, so it keeps zero, sums and negation. */
  lemma CalcSLinear(pu: bool, file: PlotFile, a: real, b: real)
    ensures CalcS(pu, file, 0.0) == 0.0
    ensures CalcS(pu, file, a + b) == CalcS(pu, file, a) + CalcS(pu, file, b)
    ensures CalcS(pu, file, -a) == -CalcS(pu, file, a)
  {
    if !pu {
      assert (a + b) * file.npVaMax == a * file.npVaMax + b * file.npVaMax;
      assert (-a) * file.npVaMax == -(a * file.npVaMax);
    }
  }

  /** The discharge or charge rating that scales an active power value of
      this sign. */
  function PRating(file: PlotFile, value: real): real
  {
    if value > 0.0 then file.npPMax else file.npPMaxCharge
  }

  /** What an active power value is divided by: the apparent-power rating
      in pu mode, 1000 for kW. */
  function Divisor(pu: bool, file: PlotFile): real
  {
    if pu then file.npVaMax else 1000.0
  }

  /** A value in pu of the active-power rating (charge rating for zero and
      negative values), in pu of the apparent-power rating (`pu`) or in kW.
      Python raises ZeroDivisionError in pu mode when the apparent-power
      rating is zero; that is `None`. */
  function CalcP(pu: bool, file: PlotFile, value: real): (r: Option<real>)
    ensures r.None? <==> pu && file.npVaMax == 0.0
    ensures r.Some? ==> r.value * Divisor(pu, file) == value * PRating(file, value)
  {
    if Divisor(pu, file) == 0.0 then None
    else Some(value * PRating(file, value) / Divisor(pu, file))
  }

  /** Ratings under which the active-power scaling is meaningful. */
  predicate PositiveRatings(pu: bool, file: PlotFile)
  {
    file.npPMax > 0.0 && file.npPMaxCharge > 0.0 && (pu ==> file.npVaMax > 0.0)
  }

  /** Zero maps to zero, and with positive ratings the sign is kept both ways. */
  lemma CalcPSign(pu: bool, file: PlotFile, value: real)
    requires CalcP(pu, file, value).Some?
    ensures value == 0.0 ==> CalcP(pu, file, value).value == 0.0
    ensures PositiveRatings(pu, file) ==>
      (CalcP(pu, file, value).value > 0.0 <==> value > 0.0) &&
      (CalcP(pu, file, value).value < 0.0 <==> value < 0.0)
  {
    var r := CalcP(pu, file, value).value;
    var d := Divisor(pu, file);
    var c := PRating(file, value);
    assert r * d == value * c;
    if PositiveRatings(pu, file) {
      assert d > 0.0 && c > 0.0;
      if value > 0.0 {
        assert value * c > 0.0;
      } else if value < 0.0 {
        assert value * c < 0.0;
      }
    }
  }

  /** Two values scaled by the same positive factor and divisor keep their order. */
  lemma ScaleMono(a: real, b: real, x: real, y: real, c: real, d: real)
    requires a <= b && c > 0.0 && d > 0.0 && x * d == a * c && y * d == b * c
    ensures x <= y
  {
    assert a * c <= b * c;
  }

  /** With positive ratings the scaling is monotone across the change of
      rating at zero. */
  lemma CalcPMonotone(pu: bool, file: PlotFile, a: real, b: real)
    requires PositiveRatings(pu, file) && a <= b
    ensures CalcP(pu, file, a).value <= CalcP(pu, file, b).value
  {
    var d := Divisor(pu, file);
    var ra, rb := CalcP(pu, file, a).value, CalcP(pu, file, b).value;
    if a > 0.0 {
      ScaleMono(a, b, ra, rb, file.npPMax, d);
    } else if b <= 0.0 {
      ScaleMono(a, b, ra, rb, file.npPMaxCharge, d);
    } else {
      CalcPSign(pu, file, a);
      CalcPSign(pu, file, b);
    }
  }

  // -------------------------------------------------------------- volt-var

  /** The volt-var setting pair number `k`, 1 to 4. */
  function SetpointV(file: PlotFile, k: nat): real
    requires 1 <= k <= 4
  {
    if k == 1 then file.qvV1 else if k == 2 then file.qvV2 else if k == 3 then file.qvV3 else file.qvV4
  }

  function SetpointQ(file: PlotFile, k: nat): real
    requires 1 <= k <= 4
  {
    if k == 1 then file.qvQ1 else if k == 2 then file.qvQ2 else if k == 3 then file.qvQ3 else file.qvQ4
  }

  /** The drawn volt-var curve: the four setting pairs as vertices, extended
      flat to 0.85 pu and to 1.15 pu. */
  function VqCurve(pu: bool, file: PlotFile): (r: (seq<real>, seq<real>))
    ensures |r.0| == 6 && |r.1| == 6
    ensures r.0[0] == 0.85 && r.0[5] == 1.15
    ensures forall k :: 1 <= k <= 4 ==> r.0[k] == SetpointV(file, k) && r.1[k] == CalcS(pu, file, SetpointQ(file, k))
    ensures r.1[0] == r.1[1] && r.1[5] == r.1[4]
  {
    var q := [file.qvQ1, file.qvQ1, file.qvQ2, file.qvQ3, file.qvQ4, file.qvQ4];
    ([0.85, file.qvV1, file.qvV2, file.qvV3, file.qvV4, 1.15],
     seq(6, i requires 0 <= i < 6 => CalcS(pu, file, q[i])))
  }

  // ---------------------------------------------------------- frequency droop

  /** The divisions of the droop computation are all defined (otherwise
      Python raises ZeroDivisionError). */
  predicate DroopDefined(file: PlotFile)
  {
    file.pfKuf != 0.0 && file.pfKof != 0.0 && (file.npPMinPu < 0.0 ==> file.npPMax != 0.0)
  }

  /** The under-frequency droop line through `(60 - DBUF, pPre)`. */
  function UfDroop(file: PlotFile, pPre: real, f: real): real
    requires file.pfKuf != 0.0
  {
    (60.0 - file.pfDbuf - f) / file.pfKuf / 60.0 + pPre
  }

  /** The over-frequency droop line through `(60 + DBOF, pPre)`. */
  function OfDroop(file: PlotFile, pPre: real, f: real): real
    requires file.pfKof != 0.0
  {
    -(f - 60.0 - file.pfDbof) / file.pfKof / 60.0 + pPre
  }

  /** The minimum active power in pu of the discharge rating: a negative
      minimum is given in pu of the charge rating. */
  function PMinEff(file: PlotFile): (r: real)
    requires file.npPMinPu < 0.0 ==> file.npPMax != 0.0
    ensures file.npPMinPu < 0.0 ==> r * file.npPMax == file.npPMinPu * file.npPMaxCharge
    ensures file.npPMinPu >= 0.0 ==> r == file.npPMinPu
  {
    if file.npPMinPu < 0.0 then file.npPMinPu * file.npPMaxCharge / file.npPMax else file.npPMinPu
  }

  function MinReal(a: real, b: real): real { if a <= b then a else b }
  function MaxReal(a: real, b: real): real { if a >= b then a else b }

  /** The under-frequency end of a droop curve: the frequency `f2` where the
      curve leaves the droop line, and the power `p1 = p2` it is flat at
      below `f2`. */
  function UfSide(file: PlotFile, pPre: real, pAvl: real): (real, real)
    requires file.pfKuf != 0.0
  {
    var f1 := file.uf2TripF;
    if UfDroop(file, pPre, f1) >= pAvl then
      (pAvl, (pPre - pAvl) * file.pfKuf * 60.0 + 60.0 - file.pfDbuf)
    else
      (UfDroop(file, pPre, f1), f1)
  }

  /** The over-frequency end: the power `p3 = p4` and the frequency `f3`. */
  function OfSide(file: PlotFile, pPre: real): (real, real)
    requires file.pfKof != 0.0 && (file.npPMinPu < 0.0 ==> file.npPMax != 0.0)
  {
    var f4 := file.of2TripF;
    if OfDroop(file, pPre, f4) <= PMinEff(file) then
      (PMinEff(file), (pPre - PMinEff(file)) * file.pfKof * 60.0 + 60.0 + file.pfDbof)
    else
      (OfDroop(file, pPre, f4), f4)
  }

  /** The under-frequency end is the droop line cut off at the available
      power: its power is the smaller of `pAvl` and the droop value at the
      trip frequency, and the corner `(f2, p2)` lies on the droop line. */
  lemma UfSideOnLine(file: PlotFile, pPre: real, pAvl: real)
    requires file.pfKuf != 0.0
    ensures UfSide(file, pPre, pAvl).0 == MinReal(pAvl, UfDroop(file, pPre, file.uf2TripF))
    ensures UfDroop(file, pPre, UfSide(file, pPre, pAvl).1) == UfSide(file, pPre, pAvl).0
  {
    var k := file.pfKuf;
    if UfDroop(file, pPre, file.uf2TripF) >= pAvl {
      var f2 := (pPre - pAvl) * k * 60.0 + 60.0 - file.pfDbuf;
      assert 60.0 - file.pfDbuf - f2 == (pAvl - pPre) * k * 60.0;
      assert (pAvl - pPre) * k * 60.0 / k / 60.0 == pAvl - pPre;
    }
  }

  /** The over-frequency end is the droop line cut off at the effective
      minimum power, with the corner `(f3, p3)` on the line. */
  lemma OfSideOnLine(file: PlotFile, pPre: real)
    requires file.pfKof != 0.0 && (file.npPMinPu < 0.0 ==> file.npPMax != 0.0)
    ensures OfSide(file, pPre).0 == MaxReal(PMinEff(file), OfDroop(file, pPre, file.of2TripF))
    ensures OfDroop(file, pPre, OfSide(file, pPre).1) == OfSide(file, pPre).0
  {
    var k := file.pfKof;
    var m := PMinEff(file);
    if OfDroop(file, pPre, file.of2TripF) <= m {
      var f3 := (pPre - m) * k * 60.0 + 60.0 + file.pfDbof;
      assert f3 - 60.0 - file.pfDbof == (pPre - m) * k * 60.0;
      assert (pPre - m) * k * 60.0 / k / 60.0 == pPre - m;
    }
  }

  /** A drawn curve: its frequencies and powers. */
  datatype Curve = Curve(f: seq<real>, p: seq<real>)

  /** The seven vertices of one droop curve in pu, before scaling. */
  function DroopPoints(file: PlotFile, pPre: real, pAvl: real): (r: Curve)
    requires DroopDefined(file)
    ensures |r.f| == 7 && |r.p| == 7
  {
    var (p12, f2) := UfSide(file, pPre, pAvl);
    var (p34, f3) := OfSide(file, pPre);
    Curve([file.uf2TripF, f2, 60.0 - file.pfDbuf, 60.0, 60.0 + file.pfDbof, f3, file.of2TripF],
          [p12, p12, pPre, pPre, pPre, p34, p34])
  }

  /** The curve runs from the under-frequency trip setting to the
      over-frequency one, is flat at `pPre` across the dead band, and every
      vertex after the first and before the last lies on its droop line. */
  lemma DroopShape(file: PlotFile, pPre: real, pAvl: real)
    requires DroopDefined(file)
    ensures var c := DroopPoints(file, pPre, pAvl);
      c.f[0] == file.uf2TripF && c.f[6] == file.of2TripF &&
      c.f[2] == 60.0 - file.pfDbuf && c.f[3] == 60.0 && c.f[4] == 60.0 + file.pfDbof &&
      c.p[2] == pPre && c.p[3] == pPre && c.p[4] == pPre &&
      c.p[0] == c.p[1] && c.p[5] == c.p[6] &&
      c.p[1] == MinReal(pAvl, UfDroop(file, pPre, file.uf2TripF)) &&
      c.p[5] == MaxReal(PMinEff(file), OfDroop(file, pPre, file.of2TripF)) &&
      UfDroop(file, pPre, c.f[1]) == c.p[1] && UfDroop(file, pPre, c.f[2]) == c.p[2] &&
      OfDroop(file, pPre, c.f[4]) == c.p[4] && OfDroop(file, pPre, c.f[5]) == c.p[5]
  {
    UfSideOnLine(file, pPre, pAvl);
    OfSideOnLine(file, pPre);
  }

  /** Settings under which a droop curve is a decreasing function of
      frequency: positive gains and dead bands, trip settings outside the
      dead band, and a pre-disturbance power between the minimum and the
      available power. */
  predicate DroopSane(file: PlotFile, pPre: real, pAvl: real)
  {
    file.pfKuf > 0.0 && file.pfKof > 0.0 && file.pfDbuf >= 0.0 && file.pfDbof >= 0.0 &&
    (file.npPMinPu < 0.0 ==> file.npPMax != 0.0) &&
    file.uf2TripF <= 60.0 - file.pfDbuf && file.of2TripF >= 60.0 + file.pfDbof &&
    PMinEff(file) <= pPre <= pAvl
  }

  /** A droop line with a positive gain falls as frequency rises. */
  lemma UfDroopFalls(file: PlotFile, pPre: real, a: real, b: real)
    requires file.pfKuf > 0.0 && a <= b
    ensures UfDroop(file, pPre, b) <= UfDroop(file, pPre, a)
    ensures a < b ==> UfDroop(file, pPre, b) < UfDroop(file, pPre, a)
  {
    var k := file.pfKuf;
    if a < b {
      assert (60.0 - file.pfDbuf - b) / k < (60.0 - file.pfDbuf - a) / k;
    }
  }

  lemma OfDroopFalls(file: PlotFile, pPre: real, a: real, b: real)
    requires file.pfKof > 0.0 && a <= b
    ensures OfDroop(file, pPre, b) <= OfDroop(file, pPre, a)
    ensures a < b ==> OfDroop(file, pPre, b) < OfDroop(file, pPre, a)
  {
    var k := file.pfKof;
    if a < b {
      assert (b - 60.0 - file.pfDbof) / k > (a - 60.0 - file.pfDbof) / k;
    }
  }

  /** A nonpositive quantity times a positive gain stays nonpositive. */
  lemma GainSign(x: real, k: real)
    requires k > 0.0
    ensures x <= 0.0 ==> x * k * 60.0 <= 0.0
    ensures x >= 0.0 ==> x * k * 60.0 >= 0.0
  {
  }

  /** With `DroopSane` settings the under-frequency end is in order:
      `f1 <= f2 <= 60 - DBUF`, at a power no lower than `pPre`. */
  lemma UfSideOrdered(file: PlotFile, pPre: real, pAvl: real)
    requires DroopSane(file, pPre, pAvl)
    ensures var (p12, f2) := UfSide(file, pPre, pAvl);
      file.uf2TripF <= f2 <= 60.0 - file.pfDbuf && pPre <= p12
  {
    var f1 := file.uf2TripF;
    var (p12, f2) := UfSide(file, pPre, pAvl);
    UfSideOnLine(file, pPre, pAvl);
    if UfDroop(file, pPre, f1) >= pAvl {
      GainSign(pPre - pAvl, file.pfKuf);
      if f2 < f1 {
        UfDroopFalls(file, pPre, f2, f1);
      }
    }
    UfDroopFalls(file, pPre, f1, 60.0 - file.pfDbuf);
  }

  /** With `DroopSane` settings the over-frequency end is in order:
      `60 + DBOF <= f3 <= f4`, at a power no higher than `pPre`. */
  lemma OfSideOrdered(file: PlotFile, pPre: real, pAvl: real)
    requires DroopSane(file, pPre, pAvl)
    ensures var (p34, f3) := OfSide(file, pPre);
      60.0 + file.pfDbof <= f3 <= file.of2TripF && p34 <= pPre
  {
    var f4 := file.of2TripF;
    var (p34, f3) := OfSide(file, pPre);
    OfSideOnLine(file, pPre);
    if OfDroop(file, pPre, f4) <= PMinEff(file) {
      GainSign(pPre - PMinEff(file), file.pfKof);
      if f3 > f4 {
        OfDroopFalls(file, pPre, f4, f3);
      }
    }
    OfDroopFalls(file, pPre, 60.0 + file.pfDbof, f4);
  }

  /** Under `DroopSane` settings the vertices are in order of frequency and
      the power never rises with frequency. */
  lemma DroopMonotone(file: PlotFile, pPre: real, pAvl: real)
    requires DroopSane(file, pPre, pAvl)
    ensures var c := DroopPoints(file, pPre, pAvl);
      forall i, j :: 0 <= i <= j < 7 ==> c.f[i] <= c.f[j] && c.p[j] <= c.p[i]
  {
    var c := DroopPoints(file, pPre, pAvl);
    UfSideOrdered(file, pPre, pAvl);
    OfSideOrdered(file, pPre, pAvl);
    assert forall i :: 0 <= i < 6 ==> c.f[i] <= c.f[i + 1] && c.p[i + 1] <= c.p[i];
  }

  /** One drawn droop curve: the vertices with the powers passed through
      `CalcS`. */
  function FpCurve(pu: bool, file: PlotFile, pPre: real, pAvl: real): (r: Curve)
    requires DroopDefined(file)
    ensures r.f == DroopPoints(file, pPre, pAvl).f && |r.p| == 7
    ensures forall i :: 0 <= i < 7 ==> r.p[i] == CalcS(pu, file, DroopPoints(file, pPre, pAvl).p[i])
  {
    var c := DroopPoints(file, pPre, pAvl);
    Curve(c.f, seq(7, i requires 0 <= i < 7 => CalcS(pu, file, c.p[i])))
  }

  /** The available power for curve `i`: 1 pu without a list, an
      IndexError (`None`) past the end of a short list. */
  function AvlAt(pAvls: Option<seq<real>>, i: nat): (r: Option<real>)
    ensures pAvls.None? ==> r == Some(1.0)
    ensures pAvls.Some? ==> (r.Some? <==> i < |pAvls.value|)
    ensures pAvls.Some? && i < |pAvls.value| ==> r == Some(pAvls.value[i])
  {
    match pAvls
    case None => Some(1.0)
    case Some(l) => if i < |l| then Some(l[i]) else None
  }

  /** The list of available powers reaches every pre-disturbance power. */
  predicate AvlsCover(pAvls: Option<seq<real>>, n: nat)
  {
    pAvls.None? || n <= |pAvls.value|
  }

  /** The droop curves of `prepare_fp_plot`, one per pre-disturbance power,
      or `None` when the loop raises (a division by zero or a short list of
      available powers); an empty list draws nothing and cannot fail. */
  method FpCurves(pu: bool, file: PlotFile, pPres: seq<real>, pAvls: Option<seq<real>>) returns (r: Option<seq<Curve>>)
    ensures r.Some? <==> |pPres| == 0 || (DroopDefined(file) && AvlsCover(pAvls, |pPres|))
    ensures r.Some? ==> |r.value| == |pPres|
    ensures r.Some? ==> forall i :: 0 <= i < |pPres| ==>
      DroopDefined(file) && AvlAt(pAvls, i).Some? && r.value[i] == FpCurve(pu, file, pPres[i], AvlAt(pAvls, i).value)
  {
    var curves: seq<Curve> := [];
    var i := 0;
    while i < |pPres|
      invariant 0 <= i <= |pPres| && |curves| == i
      invariant i > 0 ==> DroopDefined(file) && AvlsCover(pAvls, i)
      invariant forall j :: 0 <= j < i ==>
        DroopDefined(file) && AvlAt(pAvls, j).Some? && curves[j] == FpCurve(pu, file, pPres[j], AvlAt(pAvls, j).value)
    {
      var pAvl := AvlAt(pAvls, i);
      if pAvl.None? || !DroopDefined(file) {
        return None;
      }
      curves := curves + [FpCurve(pu, file, pPres[i], pAvl.value)];
      i := i + 1;
    }
    return Some(curves);
  }

  // ----------------------------------------------------------------- objects

  /** An OpenDER object as the figures see it: its settings file and its
      present operating point, which the simulation keeps changing. */
  class Der {
    const file: PlotFile
    var point: OperatingPoint

    constructor(file: PlotFile, point: OperatingPoint)
      ensures this.file == file && this.point == point
    {
      this.file := file;
      this.point := point;
    }
  }

  class XYPlots {
    const derObj: Der
    const file: PlotFile
    const pu: bool
    /** Deep copies of DER states taken by `AddPointToPlot`. */
    var plotPoints: seq<OperatingPoint>
    /** The records added by `AddMeasurementToPlot`. */
    var measPoints: seq<Measurement>

    constructor(der: Der, pu: bool)
      ensures derObj == der && file == der.file && this.pu == pu
      ensures plotPoints == [] && measPoints == []
    {
      derObj := der;
      file := der.file;
      this.pu := pu;
      plotPoints := [];
      measPoints := [];
    }

    /** The points the volt-var figure scatters for the saved snapshots:
        measured voltage against scaled reactive power. */
    function VqScatter(): (r: seq<(real, real)>)
      reads this
      ensures |r| == |plotPoints|
      ensures forall i :: 0 <= i < |r| ==> r[i] == (plotPoints[i].vMeasPu, CalcS(pu, file, plotPoints[i].qOutPu))
    {
      seq(|plotPoints|, i requires 0 <= i < |plotPoints| reads this =>
        (plotPoints[i].vMeasPu, CalcS(pu, file, plotPoints[i].qOutPu)))
    }

    /** Saves a copy of the given DER's present state, or of the
        constructor's DER when none is given. Later changes to that DER do
        not reach the saved copy. */
    method AddPointToPlot(der: Der?)
      modifies this`plotPoints
      ensures plotPoints == old(plotPoints) + [if der == null then derObj.point else der.point]
      ensures var d := if der == null then derObj.point else der.point;
        VqScatter() == old(VqScatter()) + [(d.vMeasPu, CalcS(pu, file, d.qOutPu))]
    {
      var d := if der == null then derObj else der;
      plotPoints := plotPoints + [d.point];
    }

    /** Saves one `{V, P, Q, F}` record. */
    method AddMeasurementToPlot(v: Option<real>, p: Option<real>, q: Option<real>, f: Option<real>)
      modifies this`measPoints
      ensures measPoints == old(measPoints) + [Measurement(v, p, q, f)]
    {
      measPoints := measPoints + [Measurement(v, p, q, f)];
    }
  }
}
