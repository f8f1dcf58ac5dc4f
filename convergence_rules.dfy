/** The DER/grid convergence bookkeeping that both DER interfaces share: the
    per-DER lists they keep, one iteration of the relaxed fixed-point scheme,
    the tolerance criteria, and the bounded sequence of iterations. The two
    interface classes update these lists in place; the functions here are the
    reference definitions their methods are proved against. */
module ConvergenceRules {
  import opened Wrappers

  /** Convergence tolerances on terminal voltage (pu), reactive power (kvar)
      and active power (kW); both interfaces use the same values. */
  const VTolerance: real := 0.000001
  const QTolerance: real := 0.00001
  const PTolerance: real := 0.01

  /** The mode-enable settings of one DER's settings file that decide its damping flags. */
  datatype ModeFlags = ModeFlags(qpModeEnable: bool, qvModeEnable: bool, pvModeEnable: bool)

  /** What one DER reports after an evaluation: measured voltage (pu), P (kW), Q (kvar). */
  datatype Sample = Sample(v: real, p: real, q: real)

  /** One write of output powers into the circuit. */
  datatype Write = Write(p: seq<real>, q: seq<real>)

  /** The bookkeeping lists of a convergence process, one entry per DER. */
  datatype Book = Book(
    n: nat,                      // number of DERs
    modes: seq<ModeFlags>,       // the DERs' settings files
    converged: bool,
    vConverged: seq<bool>, qConverged: seq<bool>, pConverged: seq<bool>,
    pOut: seq<real>, qOut: seq<real>,
    pInv: seq<real>, qInv: seq<real>,
    pPrevious: seq<real>, qPrevious: seq<real>,
    currentV: seq<real>, previousV: seq<real>,
    pCheck: seq<bool>, qCheck: seq<bool>,
    firstIteration: bool,
    deltaQ: real, deltaP: real)

  /** Every list holds exactly one entry per DER. */
  predicate Sized(b: Book)
  {
    |b.modes| == b.n &&
    |b.vConverged| == b.n && |b.qConverged| == b.n && |b.pConverged| == b.n &&
    |b.pOut| == b.n && |b.qOut| == b.n && |b.pInv| == b.n && |b.qInv| == b.n &&
    |b.pPrevious| == b.n && |b.qPrevious| == b.n &&
    |b.currentV| == b.n && |b.previousV| == b.n &&
    |b.pCheck| == b.n && |b.qCheck| == b.n
  }

  function Abs(x: real): (r: real)
    ensures r >= 0.0 && (r == x || r == -x)
  {
    if x < 0.0 then -x else x
  }

  function Falses(n: nat): (r: seq<bool>)
    ensures |r| == n && forall i :: 0 <= i < n ==> !r[i]
  {
    seq(n, i => false)
  }

  /** Python's `all` over a flag list. */
  predicate AllTrue(s: seq<bool>)
    decreases |s|
  {
    |s| == 0 || (s[0] && AllTrue(s[1..]))
  }

  lemma {:induction false} AllTrueIff(s: seq<bool>)
    ensures AllTrue(s) <==> forall i :: 0 <= i < |s| ==> s[i]
    decreases |s|
  {
    if |s| > 0 {
      AllTrueIff(s[1..]);
      assert forall i :: 1 <= i < |s| ==> s[i] == s[1..][i - 1];
    }
  }

  /** The relaxation step `(raw - prev) * d + prev`. */
  function Relax(raw: real, prev: real, d: real): real
  {
    (raw - prev) * d + prev
  }

  /** The damping comprehension over `zip(raw, prev)`. */
  function Damped(raw: seq<real>, prev: seq<real>, d: real): (r: seq<real>)
    ensures |r| == Min(|raw|, |prev|)
    ensures forall i :: 0 <= i < |r| ==> r[i] == Relax(raw[i], prev[i], d)
  {
    seq(Min(|raw|, |prev|), i requires 0 <= i < Min(|raw|, |prev|) => Relax(raw[i], prev[i], d))
  }

  /** A criterion loop: entry `i` of `flags` is set when `a[i]` and `b[i]` are within `tol`. */
  function MarkWithin(flags: seq<bool>, a: seq<real>, b: seq<real>, tol: real): (r: seq<bool>)
    requires |a| >= |flags| && |b| >= |flags|
    ensures |r| == |flags|
    ensures forall i :: 0 <= i < |r| ==> (r[i] <==> flags[i] || Abs(a[i] - b[i]) <= tol)
  {
    seq(|flags|, i requires 0 <= i < |flags| => flags[i] || Abs(a[i] - b[i]) <= tol)
  }

  /** The mode-flag loop: entry `i` of `flags` is set when `cond(modes[i])` holds. */
  function MarkModes(flags: seq<bool>, modes: seq<ModeFlags>, cond: ModeFlags -> bool): (r: seq<bool>)
    requires |modes| >= |flags|
    ensures |r| == |flags|
    ensures forall i :: 0 <= i < |r| ==> (r[i] <==> flags[i] || cond(modes[i]))
  {
    seq(|flags|, i requires 0 <= i < |flags| => flags[i] || cond(modes[i]))
  }

  predicate QEnabled(m: ModeFlags)
  {
    m.qpModeEnable || m.qvModeEnable
  }

  predicate PEnabled(m: ModeFlags)
  {
    m.pvModeEnable
  }

  /** Clearing the overall and per-DER convergence flags. */
  function Reset(b: Book): (r: Book)
    requires Sized(b)
    ensures Sized(r) && !r.converged && r.n == b.n
    ensures forall i :: 0 <= i < b.n ==> !r.vConverged[i] && !r.pConverged[i] && !r.qConverged[i]
  {
    b.(converged := false, vConverged := Falses(b.n), qConverged := Falses(b.n), pConverged := Falses(b.n))
  }

  function CheckQ(b: Book): (r: Book)
    requires Sized(b)
    ensures Sized(r)
  {
    b.(qCheck := MarkModes(b.qCheck, b.modes, QEnabled))
  }

  function CheckP(b: Book): (r: Book)
    requires Sized(b)
    ensures Sized(r)
  {
    b.(pCheck := MarkModes(b.pCheck, b.modes, PEnabled))
  }

  /** Start of a process: first-iteration marker, cleared flags, freshly built
      damping flags (P first, then Q). */
  function InitializeConvergence(b: Book): (r: Book)
    requires Sized(b)
    ensures Sized(r)
  {
    CheckQ(CheckP(Reset(b).(firstIteration := true, pCheck := Falses(b.n), qCheck := Falses(b.n))))
  }

  /** After initialising, each damping flag reflects its DER's modes exactly,
      and nothing counts as converged. */
  lemma InitializeSetsFlags(b: Book)
    requires Sized(b)
    ensures var r := InitializeConvergence(b);
      r.firstIteration && !r.converged && r.n == b.n && r.modes == b.modes &&
      (forall i :: 0 <= i < b.n ==> (r.qCheck[i] <==> b.modes[i].qpModeEnable || b.modes[i].qvModeEnable)) &&
      (forall i :: 0 <= i < b.n ==> (r.pCheck[i] <==> b.modes[i].pvModeEnable)) &&
      (forall i :: 0 <= i < b.n ==> !r.vConverged[i] && !r.pConverged[i] && !r.qConverged[i])
  {
    var c := Reset(b).(firstIteration := true, pCheck := Falses(b.n), qCheck := Falses(b.n));
    var r := InitializeConvergence(b);
    assert r == CheckQ(CheckP(c));
    forall i | 0 <= i < b.n
      ensures (r.pCheck[i] <==> b.modes[i].pvModeEnable)
      ensures (r.qCheck[i] <==> b.modes[i].qpModeEnable || b.modes[i].qvModeEnable)
    {
      assert r.pCheck[i] == (c.pCheck[i] || PEnabled(b.modes[i]));
      assert r.qCheck[i] == (c.qCheck[i] || QEnabled(b.modes[i]));
    }
  }

  /** The active-power damping; when the flag list is empty its else branch
      overwrites `qOut` rather than `pOut`. */
  function CalculatePOut(b: Book): Book
  {
    if |b.pCheck| > 0 then b.(pOut := Damped(b.pInv, b.pPrevious, b.deltaP))
    else b.(qOut := b.qInv)
  }

  function CalculateQOut(b: Book): Book
  {
    if |b.qCheck| > 0 then b.(qOut := Damped(b.qInv, b.qPrevious, b.deltaQ))
    else b.(qOut := b.qInv)
  }

  function CheckConverged(b: Book): (r: Book)
    requires Sized(b)
    ensures Sized(r)
  {
    var v := MarkWithin(b.vConverged, b.currentV, b.previousV, VTolerance);
    var p := MarkWithin(b.pConverged, b.pOut, b.pInv, PTolerance);
    var q := MarkWithin(b.qConverged, b.qOut, b.qInv, QTolerance);
    b.(vConverged := v, pConverged := p, qConverged := q,
       converged := b.converged || (AllTrue(v) && AllTrue(q) && AllTrue(p)))
  }

  function Voltages(s: seq<Sample>): seq<real> { seq(|s|, i requires 0 <= i < |s| => s[i].v) }
  function ActivePowers(s: seq<Sample>): seq<real> { seq(|s|, i requires 0 <= i < |s| => s[i].p) }
  function ReactivePowers(s: seq<Sample>): seq<real> { seq(|s|, i requires 0 <= i < |s| => s[i].q) }

  /** The start of every iteration: flags cleared, raw outputs and voltages read in. */
  function ReadRaw(b: Book, s: seq<Sample>): (r: Book)
    requires Sized(b) && |s| == b.n
    ensures Sized(r) && !r.converged
    ensures r == Reset(b).(pInv := ActivePowers(s), qInv := ReactivePowers(s), currentV := Voltages(s))
  {
    Reset(b).(pInv := ActivePowers(s), qInv := ReactivePowers(s), currentV := Voltages(s))
  }

  /** The first-iteration branch: the raw values seed both outputs and history. */
  function SeedHistory(raw: Book): (r: Book)
    requires Sized(raw)
    ensures Sized(r)
  {
    raw.(firstIteration := false, previousV := raw.currentV, pPrevious := raw.pInv, qPrevious := raw.qInv,
         pOut := raw.pInv, qOut := raw.qInv)
  }

  /** The later-iteration branch: damp P, damp Q, check, then shift the history. */
  function DampAndShift(raw: Book): (r: Book)
    requires Sized(raw)
    ensures Sized(r) && r.n == raw.n
  {
    var damped := CalculateQOut(CalculatePOut(raw));
    assert Sized(damped);
    var checked := CheckConverged(damped);
    checked.(previousV := checked.currentV, pPrevious := checked.pOut, qPrevious := checked.qOut)
  }

  /** What a later iteration does to the lists: both outputs damped toward the
      raw values (when there are DERs), a flag set for each criterion met, the
      overall flag set when every flag is, and the history shifted. */
  lemma DampAndShiftEffect(raw: Book)
    requires Sized(raw)
    ensures var r := DampAndShift(raw);
      r.modes == raw.modes && r.pCheck == raw.pCheck && r.qCheck == raw.qCheck &&
      r.deltaP == raw.deltaP && r.deltaQ == raw.deltaQ && r.firstIteration == raw.firstIteration &&
      r.pInv == raw.pInv && r.qInv == raw.qInv && r.currentV == raw.currentV &&
      r.previousV == raw.currentV && r.pPrevious == r.pOut && r.qPrevious == r.qOut &&
      (raw.n > 0 ==> r.pOut == Damped(raw.pInv, raw.pPrevious, raw.deltaP)) &&
      (raw.n > 0 ==> r.qOut == Damped(raw.qInv, raw.qPrevious, raw.deltaQ)) &&
      (r.converged <==> raw.converged || (AllTrue(r.vConverged) && AllTrue(r.qConverged) && AllTrue(r.pConverged)))
    ensures var r := DampAndShift(raw);
      forall i :: 0 <= i < raw.n ==>
        (r.vConverged[i] <==> raw.vConverged[i] || Abs(raw.currentV[i] - raw.previousV[i]) <= VTolerance) &&
        (r.pConverged[i] <==> raw.pConverged[i] || Abs(r.pOut[i] - r.pInv[i]) <= PTolerance) &&
        (r.qConverged[i] <==> raw.qConverged[i] || Abs(r.qOut[i] - r.qInv[i]) <= QTolerance)
  {
    var damped := CalculateQOut(CalculatePOut(raw));
    assert Sized(damped);
  }

  /** The raw outputs are read in, then either the history is seeded (first
      iteration) or the outputs are damped, checked and shifted into the history. */
  function Iteration(b: Book, s: seq<Sample>): (r: Book)
    requires Sized(b) && |s| == b.n
    ensures Sized(r) && r.n == b.n && r.modes == b.modes
    ensures r.pCheck == b.pCheck && r.qCheck == b.qCheck
    ensures r.deltaP == b.deltaP && r.deltaQ == b.deltaQ && !r.firstIteration
  {
    var raw := ReadRaw(b, s);
    if !b.firstIteration then DampAndShift(raw) else SeedHistory(raw)
  }

  /** The first iteration only seeds: outputs and history are the raw values
      and it never reports convergence. */
  lemma FirstIterationSeeds(b: Book, s: seq<Sample>)
    requires Sized(b) && |s| == b.n && b.firstIteration
    ensures var r := Iteration(b, s);
      !r.converged &&
      (forall i :: 0 <= i < b.n ==>
         r.pOut[i] == s[i].p && r.qOut[i] == s[i].q &&
         r.pPrevious[i] == s[i].p && r.qPrevious[i] == s[i].q && r.previousV[i] == s[i].v) &&
      (forall i :: 0 <= i < b.n ==> !r.vConverged[i] && !r.pConverged[i] && !r.qConverged[i])
  {
  }

  /** Any later iteration damps every DER, whatever its own mode flags say,
      as soon as one DER exists; then the new outputs and voltages become the history. */
  lemma LaterIterationDampsAll(b: Book, s: seq<Sample>)
    requires Sized(b) && |s| == b.n && !b.firstIteration
    ensures var r := Iteration(b, s);
      (forall i :: 0 <= i < b.n ==>
         r.pOut[i] == Relax(s[i].p, b.pPrevious[i], b.deltaP) &&
         r.qOut[i] == Relax(s[i].q, b.qPrevious[i], b.deltaQ) &&
         r.pInv[i] == s[i].p && r.qInv[i] == s[i].q &&
         r.previousV[i] == s[i].v && r.currentV[i] == s[i].v) &&
      r.pPrevious == r.pOut && r.qPrevious == r.qOut
  {
    var raw := ReadRaw(b, s);
    assert Iteration(b, s) == DampAndShift(raw);
  }

  /** `|x * y| = |x| * |y|`. */
  lemma AbsMul(x: real, y: real)
    ensures Abs(x * y) == Abs(x) * Abs(y)
  {
    if x >= 0.0 {
      if y >= 0.0 { assert x * y >= 0.0; } else { assert x * y <= 0.0; }
    } else {
      if y >= 0.0 { assert x * y <= 0.0; } else { assert x * y >= 0.0; }
    }
  }

  /** The residual a relaxation leaves: `|relaxed - raw| = |1 - d| * |raw - prev|`. */
  lemma RelaxResidual(raw: real, prev: real, d: real)
    ensures Abs(Relax(raw, prev, d) - raw) == Abs(1.0 - d) * Abs(raw - prev)
  {
    assert Relax(raw, prev, d) - raw == (1.0 - d) * (prev - raw);
    AbsMul(1.0 - d, prev - raw);
  }

  /** With a factor in `[0, 1]` the relaxed value lies between the previous
      and the raw value, so neither distance exceeds the raw step. */
  lemma RelaxBetween(raw: real, prev: real, d: real)
    requires 0.0 <= d <= 1.0
    ensures Abs(Relax(raw, prev, d) - raw) <= Abs(raw - prev)
    ensures Abs(Relax(raw, prev, d) - prev) <= Abs(raw - prev)
  {
    RelaxResidual(raw, prev, d);
    assert Abs(1.0 - d) <= 1.0;
    assert Abs(raw - prev) - Abs(1.0 - d) * Abs(raw - prev) == (1.0 - Abs(1.0 - d)) * Abs(raw - prev);
    assert Relax(raw, prev, d) - prev == d * (raw - prev);
    AbsMul(d, raw - prev);
    assert Abs(raw - prev) - d * Abs(raw - prev) == (1.0 - d) * Abs(raw - prev);
  }

  /** The per-DER convergence test of a later iteration, stated on the raw
      samples and the history it started from. */
  predicate DerSettled(b: Book, s: seq<Sample>, i: int)
    requires Sized(b) && |s| == b.n && 0 <= i < b.n
  {
    Abs(s[i].v - b.previousV[i]) <= VTolerance &&
    Abs(Relax(s[i].p, b.pPrevious[i], b.deltaP) - s[i].p) <= PTolerance &&
    Abs(Relax(s[i].q, b.qPrevious[i], b.deltaQ) - s[i].q) <= QTolerance
  }

  /** Entry `i` after a later iteration: raw values read in, damped outputs,
      and each flag set exactly when its criterion holds. */
  lemma LaterEntryAt(b: Book, s: seq<Sample>, i: int)
    requires Sized(b) && |s| == b.n && !b.firstIteration && 0 <= i < b.n
    ensures var r := Iteration(b, s);
      r.currentV[i] == s[i].v && r.pInv[i] == s[i].p && r.qInv[i] == s[i].q &&
      r.pOut[i] == Relax(s[i].p, b.pPrevious[i], b.deltaP) &&
      r.qOut[i] == Relax(s[i].q, b.qPrevious[i], b.deltaQ) &&
      (r.vConverged[i] <==> Abs(r.currentV[i] - b.previousV[i]) <= VTolerance) &&
      (r.pConverged[i] <==> Abs(r.pOut[i] - r.pInv[i]) <= PTolerance) &&
      (r.qConverged[i] <==> Abs(r.qOut[i] - r.qInv[i]) <= QTolerance)
  {
    var raw := ReadRaw(b, s);
    assert Iteration(b, s) == DampAndShift(raw);
    assert !raw.vConverged[i] && !raw.pConverged[i] && !raw.qConverged[i];
    assert raw.previousV[i] == b.previousV[i] && raw.pPrevious[i] == b.pPrevious[i] && raw.qPrevious[i] == b.qPrevious[i];
    assert raw.currentV[i] == s[i].v && raw.pInv[i] == s[i].p && raw.qInv[i] == s[i].q;
  }

  /** A later iteration sets all three of one DER's flags exactly when that DER is settled. */
  lemma LaterFlagsAt(b: Book, s: seq<Sample>, i: int)
    requires Sized(b) && |s| == b.n && !b.firstIteration && 0 <= i < b.n
    ensures var r := Iteration(b, s);
      (r.vConverged[i] && r.pConverged[i] && r.qConverged[i]) <==> DerSettled(b, s, i)
  {
    LaterEntryAt(b, s, i);
  }

  /** A later iteration reports convergence exactly when all three flag lists are all true. */
  lemma LaterConvergedFlags(b: Book, s: seq<Sample>)
    requires Sized(b) && |s| == b.n && !b.firstIteration
    ensures var r := Iteration(b, s);
      r.converged <==> AllTrue(r.vConverged) && AllTrue(r.qConverged) && AllTrue(r.pConverged)
  {
    var raw := ReadRaw(b, s);
    assert Iteration(b, s) == DampAndShift(raw);
  }

  /** A later iteration reports convergence exactly when every DER's voltage,
      damped active power and damped reactive power all pass their tolerances. */
  lemma ConvergedIff(b: Book, s: seq<Sample>)
    requires Sized(b) && |s| == b.n && !b.firstIteration
    ensures Iteration(b, s).converged <==> forall i :: 0 <= i < b.n ==> DerSettled(b, s, i)
  {
    var r := Iteration(b, s);
    LaterConvergedFlags(b, s);
    AllTrueIff(r.vConverged);
    AllTrueIff(r.pConverged);
    AllTrueIff(r.qConverged);
    forall i | 0 <= i < b.n
      ensures (r.vConverged[i] && r.pConverged[i] && r.qConverged[i]) <==> DerSettled(b, s, i)
    {
      LaterFlagsAt(b, s, i);
    }
  }

  /** With no DERs at all, the misdirected else branch of the active-power
      damping is the only one reachable and it changes nothing. */
  lemma EmptyBranchHarmless(b: Book)
    requires Sized(b)
    ensures |b.pCheck| == 0 <==> b.n == 0
    ensures b.n == 0 ==> CalculatePOut(b) == b && CalculateQOut(b) == b
  {
    if b.n == 0 {
      assert b.qOut == [] == b.qInv;
    }
  }

  // ---------------------------------------------------------------------------
  // The bounded iteration

  /** The outputs of every DER at one iteration, as evaluated after the writes so far. */
  function Samples(probe: (seq<Write>, nat) -> Sample, prior: seq<Write>, n: nat): (s: seq<Sample>)
    ensures |s| == n
  {
    seq(n, k requires 0 <= k < n => probe(prior, k))
  }

  /** The book and the writes after `k` iterations, each evaluated after the
      writes before it; `probe(prior, i)` is DER `i`'s evaluation after the
      writes `prior` and a solve. The processes run this until convergence or
      their iteration bound. */
  function After(b: Book, probe: (seq<Write>, nat) -> Sample, k: nat): (r: (Book, seq<Write>))
    requires Sized(b)
    ensures Sized(r.0) && r.0.n == b.n && |r.1| == k
    ensures k > 0 ==> !r.0.firstIteration
    decreases k
  {
    if k == 0 then (b, [])
    else
      var prev := After(b, probe, k - 1);
      var next := Iteration(prev.0, Samples(probe, prev.1, b.n));
      (next, prev.1 + [Write(next.pOut, next.qOut)])
  }

  /** One more iteration extends the run by one step. */
  lemma AfterNext(b: Book, probe: (seq<Write>, nat) -> Sample, k: nat, prev: (Book, seq<Write>), s: seq<Sample>)
    requires Sized(b) && prev == After(b, probe, k) && s == Samples(probe, prev.1, b.n)
    ensures After(b, probe, k + 1).0 == Iteration(prev.0, s)
    ensures After(b, probe, k + 1).1 == prev.1 + [Write(Iteration(prev.0, s).pOut, Iteration(prev.0, s).qOut)]
  {
  }

  /** No iteration before the `k`-th reported convergence. */
  predicate UnsettledBefore(b: Book, probe: (seq<Write>, nat) -> Sample, k: nat)
    requires Sized(b)
    decreases k
  {
    k == 0 || (UnsettledBefore(b, probe, k - 1) && !After(b, probe, k - 1).0.converged)
  }

  lemma {:induction false} UnsettledBeforeIff(b: Book, probe: (seq<Write>, nat) -> Sample, k: nat)
    requires Sized(b)
    ensures UnsettledBefore(b, probe, k) ==> forall j :: 0 <= j < k ==> !After(b, probe, j).0.converged
    ensures (forall j :: 0 <= j < k ==> !After(b, probe, j).0.converged) ==> UnsettledBefore(b, probe, k)
    decreases k
  {
    if k > 0 {
      UnsettledBeforeIff(b, probe, k - 1);
      var last := After(b, probe, k - 1);
      if last.0.converged {
        assert !(forall j :: 0 <= j < k ==> !After(b, probe, j).0.converged) by {
          assert 0 <= k - 1 < k && After(b, probe, k - 1) == last;
        }
      } else if UnsettledBefore(b, probe, k - 1) {
        forall j | 0 <= j < k
          ensures !After(b, probe, j).0.converged
        {
          if j == k - 1 {
            assert After(b, probe, j) == last;
          }
        }
      }
    }
  }

  /** A book in which every DER's three flags are set and the outputs are
      within tolerance of the raw values. */
  predicate AllSettled(f: Book)
  {
    Sized(f) &&
    forall i :: 0 <= i < f.n ==>
      f.vConverged[i] && f.pConverged[i] && f.qConverged[i] &&
      Abs(f.pOut[i] - f.pInv[i]) <= PTolerance && Abs(f.qOut[i] - f.qInv[i]) <= QTolerance
  }

  /** An iteration that reports convergence leaves every DER settled: only a
      damped iteration can report it, and only when all flags are set. */
  lemma ConvergedStepSettled(b: Book, s: seq<Sample>)
    requires Sized(b) && |s| == b.n && Iteration(b, s).converged
    ensures !b.firstIteration
    ensures AllSettled(Iteration(b, s))
  {
    if b.firstIteration {
      FirstIterationSeeds(b, s);
      assert false;
    }
    var r := Iteration(b, s);
    LaterConvergedFlags(b, s);
    AllTrueIff(r.vConverged);
    AllTrueIff(r.pConverged);
    AllTrueIff(r.qConverged);
    forall i | 0 <= i < b.n
      ensures Abs(r.pOut[i] - r.pInv[i]) <= PTolerance && Abs(r.qOut[i] - r.qInv[i]) <= QTolerance
    {
      LaterEntryAt(b, s, i);
    }
  }

  /** Whenever the process reports convergence it has left every DER settled,
      and the first iteration of a process never reports it, so convergence
      takes at least two iterations. */
  lemma ConvergedAfterSettled(b: Book, probe: (seq<Write>, nat) -> Sample, k: nat)
    requires Sized(b) && b.firstIteration && !b.converged
    ensures After(b, probe, k).0.converged ==> k >= 2 && AllSettled(After(b, probe, k).0)
  {
    if k > 0 {
      var prev := After(b, probe, k - 1);
      var s := Samples(probe, prev.1, b.n);
      assert After(b, probe, k).0 == Iteration(prev.0, s);
      if k == 1 {
        assert prev.0 == b;
        FirstIterationSeeds(b, s);
      } else if Iteration(prev.0, s).converged {
        ConvergedStepSettled(prev.0, s);
      }
    }
  }
}
