/** `OpenDERInterface`, the older DER interface: it creates OpenDER objects
    rated from the circuit's DER table and runs a convergence process that
    evaluates the DER objects themselves (no deep copies), with both damping
    factors 0.5 and at most 100 iterations. The power-flow solve and the DER
    evaluation are the `probe` oracle of `ConvergenceRules`. */
module OpenDerInterface {
  import opened Wrappers
  import opened Strings
  import opened ConvergenceRules
  import opened DerObjects

  /** The iteration bound of the convergence process. */
  const ClMaxIterations: nat := 100
  /** Both damping factors. */
  const ClDelta: real := 0.5
  /** The DER time step forced while the process iterates. */
  const LoopTimeStep: real := 10000.0

  // ---------------------------------------------------------------------------
  // Creating the DER objects

  /** The `DERtypes` argument: one type name for every circuit DER, or a list
      paired with the circuit DERs by position. */
  datatype TypesArg = OneType(t: string) | TypeList(ts: seq<string>)

  /** The type names `zip` pairs with the circuit DERs. */
  function TypesFor(arg: TypesArg, rows: seq<CircuitDer>): (r: seq<string>)
    ensures arg.OneType? ==> |r| == |rows| && forall i :: 0 <= i < |r| ==> r[i] == arg.t
    ensures arg.TypeList? ==> r == arg.ts
  {
    match arg
    case OneType(t) => seq(|rows|, i => t)
    case TypeList(ts) => ts
  }

  /** Only the exact type name `PV` gives a PV object; anything else a battery. */
  function KindForType(t: string): (k: DerKind)
    ensures k == PV <==> t == "PV"
  {
    if t == "PV" then PV else BESS
  }

  /** The settings file after the rating copy: apparent power, active power
      and both reactive-power ratings from the circuit's kVA, kW and kvar
      values times 1000, DC voltage kV times 1500 and nominal AC voltage kV
      times 1000; everything else as in `f`. */
  function Rated(f: DerFile, row: CircuitDer): (r: DerFile)
    ensures r.npVaMax == row.kVA * 1000.0 && r.npPMax == row.kw * 1000.0
    ensures r.npQMaxAbs == row.kvar * 1000.0 && r.npQMaxInj == row.kvarabs * 1000.0
    ensures r.npVDc == row.kV * 1500.0 && r.npAcVNom == row.kV * 1000.0
    ensures r.modes == f.modes && r.npResistance == f.npResistance && r.npReactance == f.npReactance
  {
    f.(npVaMax := row.kVA * 1000.0, npPMax := row.kw * 1000.0,
       npQMaxAbs := row.kvar * 1000.0, npQMaxInj := row.kvarabs * 1000.0,
       npVDc := row.kV * 1500.0, npAcVNom := row.kV * 1000.0)
  }

  /** The object made for circuit DER `row` with type name `t`: a fresh
      object of that class (settings `defaults(kind)`), rated from the row,
      then given the keyword `settings`, the available DC power `pDcPu` and
      60 Hz. */
  function RatedDer(row: CircuitDer, t: string, pDcPu: real,
                    settings: DerFile -> DerFile, defaults: DerKind -> DerFile): (o: DerObj)
    ensures o.kind == KindForType(t) && o.name == row.name && o.bus == row.bus
    ensures o.file == settings(Rated(defaults(o.kind), row))
    ensures o.pDcPu == Some(pDcPu) && o.freq == Some(60.0)
  {
    var kind := KindForType(t);
    DerObj(kind, row.name, row.bus, settings(Rated(defaults(kind), row)),
           Some(pDcPu), None, Some(60.0), None, None, 0.0)
  }

  /** The objects made for the rows and type names `zip` pairs up. */
  function Made(rows: seq<CircuitDer>, ts: seq<string>, pDcPu: real,
                settings: DerFile -> DerFile, defaults: DerKind -> DerFile): (r: seq<DerObj>)
    ensures |r| == Min(|rows|, |ts|)
  {
    seq(Min(|rows|, |ts|), i requires 0 <= i < Min(|rows|, |ts|) =>
      RatedDer(rows[i], ts[i], pDcPu, settings, defaults))
  }

  /** One type name makes exactly one object per circuit DER, all of that
      type's class, each named after and placed at its circuit DER; a list
      makes one per (circuit DER, type name) pair, in order. */
  lemma MadeVisits(rows: seq<CircuitDer>, arg: TypesArg, pDcPu: real,
                   settings: DerFile -> DerFile, defaults: DerKind -> DerFile)
    ensures var r := Made(rows, TypesFor(arg, rows), pDcPu, settings, defaults);
      (arg.OneType? ==>
         |r| == |rows| &&
         (forall i :: 0 <= i < |rows| ==>
            r[i].kind == KindForType(arg.t) && r[i].name == rows[i].name && r[i].bus == rows[i].bus)) &&
      (arg.TypeList? ==>
         |r| == Min(|rows|, |arg.ts|) &&
         (forall i :: 0 <= i < |r| ==> r[i].kind == KindForType(arg.ts[i]) && r[i].name == rows[i].name))
  {
    var ts := TypesFor(arg, rows);
    var r := Made(rows, ts, pDcPu, settings, defaults);
    forall i | 0 <= i < |r|
      ensures r[i] == RatedDer(rows[i], ts[i], pDcPu, settings, defaults)
    {
    }
  }

  /** Without keyword settings an object's ratings are the circuit's values
      converted to VA, W and var. */
  lemma MadeRatings(rows: seq<CircuitDer>, ts: seq<string>, pDcPu: real, defaults: DerKind -> DerFile, i: nat)
    requires i < Min(|rows|, |ts|)
    ensures var o := Made(rows, ts, pDcPu, f => f, defaults)[i];
      o.file.npVaMax == rows[i].kVA * 1000.0 && o.file.npPMax == rows[i].kw * 1000.0 &&
      o.file.npQMaxAbs == rows[i].kvar * 1000.0 && o.file.npQMaxInj == rows[i].kvarabs * 1000.0 &&
      o.file.npVDc == rows[i].kV * 1500.0 && o.file.npAcVNom == rows[i].kV * 1000.0 &&
      o.file.modes == defaults(o.kind).modes
  {
    var o := Made(rows, ts, pDcPu, f => f, defaults)[i];
    assert o == RatedDer(rows[i], ts[i], pDcPu, f => f, defaults);
  }

  // ---------------------------------------------------------------------------
  // The start of a time step

  /** `initialize_time_step`: the process start shared with `DERInterface`,
      with both damping factors 0.5. */
  function InitializeTimeStep(b: Book): (r: Book)
    requires Sized(b)
    ensures Sized(r) && r.n == b.n && r.deltaQ == ClDelta && r.deltaP == ClDelta
  {
    InitializeConvergence(b).(deltaQ := ClDelta, deltaP := ClDelta)
  }

  /** After `initialize_time_step` the flags reflect the DERs' modes, nothing
      counts as converged and the next iteration is the first. */
  lemma InitializeTimeStepFlags(b: Book)
    requires Sized(b)
    ensures var r := InitializeTimeStep(b);
      r.firstIteration && !r.converged && r.modes == b.modes &&
      (forall i :: 0 <= i < b.n ==> (r.qCheck[i] <==> b.modes[i].qpModeEnable || b.modes[i].qvModeEnable)) &&
      (forall i :: 0 <= i < b.n ==> (r.pCheck[i] <==> b.modes[i].pvModeEnable)) &&
      (forall i :: 0 <= i < b.n ==> !r.vConverged[i] && !r.pConverged[i] && !r.qConverged[i])
  {
    InitializeSetsFlags(b);
  }

  /** The value lists and damping factors a book holds before
      `initialize_time_step` are never read: it and the first iteration
      overwrite all of them, so books with the same DER modes give the same
      lists after both. */
  lemma StartForgetsValues(b1: Book, b2: Book, s: seq<Sample>)
    requires Sized(b1) && Sized(b2) && b1.modes == b2.modes && |s| == b1.n
    ensures Iteration(InitializeTimeStep(b1), s) == Iteration(InitializeTimeStep(b2), s)
  {
  }

  /** What `initialize_time_step` leaves on an interface whose DER objects
      were never created: the first-iteration marker and the cleared flags
      are set, then `_check_p` raises AttributeError on the missing
      `numberofders`, before any damping flag or factor is set. */
  function Begun(b: Book): (r: Book)
    requires Sized(b)
    ensures Sized(r) && r.n == b.n && r.firstIteration && !r.converged
    ensures r.pCheck == Falses(b.n) && r.qCheck == Falses(b.n)
    ensures r.deltaQ == b.deltaQ && r.deltaP == b.deltaP
  {
    Reset(b).(firstIteration := true, pCheck := Falses(b.n), qCheck := Falses(b.n))
  }

  /** The interrupted start and the full one agree on everything except the
      damping flags and factors. */
  lemma BegunAgrees(b: Book)
    requires Sized(b)
    ensures var r := InitializeTimeStep(b);
      r == Begun(b).(pCheck := r.pCheck, qCheck := r.qCheck, deltaQ := ClDelta, deltaP := ClDelta)
  {
  }

  /** With both damping factors 0.5 a DER is settled exactly when its voltage
      moved at most 1e-6 pu, and half its raw P change is within 0.01 kW and
      half its raw Q change within 1e-5 kvar. */
  lemma SettledWithHalfDamping(b: Book, s: seq<Sample>, i: int)
    requires Sized(b) && |s| == b.n && 0 <= i < b.n
    requires b.deltaQ == ClDelta && b.deltaP == ClDelta
    ensures DerSettled(b, s, i) <==>
      Abs(s[i].v - b.previousV[i]) <= VTolerance &&
      0.5 * Abs(s[i].p - b.pPrevious[i]) <= PTolerance &&
      0.5 * Abs(s[i].q - b.qPrevious[i]) <= QTolerance
  {
    RelaxResidual(s[i].p, b.pPrevious[i], 0.5);
    RelaxResidual(s[i].q, b.qPrevious[i], 0.5);
    assert Abs(1.0 - 0.5) == 0.5;
  }

  // ---------------------------------------------------------------------------
  // Clocks and direct runs

  /** Every DER's clock set back to 0, nothing else changed. */
  function ClocksReset(objs: seq<DerObj>): (r: seq<DerObj>)
    ensures |r| == |objs|
    ensures forall i :: 0 <= i < |objs| ==> r[i].time == 0.0 && r[i].(time := objs[i].time) == objs[i]
  {
    seq(|objs|, i requires 0 <= i < |objs| => objs[i].(time := 0.0))
  }

  /** The number of DERs `run` updates: the `zip` of the DERs with the read
      voltages and angles, and with the power list when there is one. */
  function RunCount(objs: seq<DerObj>, vs: seq<PhaseVoltages>, thetas: seq<PhaseAngles>, ps: Option<seq<real>>): nat
  {
    var k := Min(Min(|objs|, |vs|), |thetas|);
    if ps.Some? then Min(k, |ps.value|) else k
  }

  /** The inputs `run` gives DER `i`: its terminal voltage and angle and
      the available DC power, 1 pu when no list is given. */
  function RunInput(o: DerObj, v: PhaseVoltages, theta: PhaseAngles, p: real): (r: DerObj)
  {
    WithVoltage(o, v, theta).(pDcPu := Some(p))
  }

  /** The DER objects after `run`: the zipped ones get their inputs, the rest
      are untouched. */
  function RunInputs(objs: seq<DerObj>, vs: seq<PhaseVoltages>, thetas: seq<PhaseAngles>, ps: Option<seq<real>>): (r: seq<DerObj>)
    ensures |r| == |objs|
    ensures forall i :: 0 <= i < |objs| ==>
      r[i] == if i < RunCount(objs, vs, thetas, ps)
              then RunInput(objs[i], vs[i], thetas[i], if ps.Some? then ps.value[i] else 1.0)
              else objs[i]
  {
    var k := RunCount(objs, vs, thetas, ps);
    seq(|objs|, i requires 0 <= i < |objs| =>
      if i < k then RunInput(objs[i], vs[i], thetas[i], if ps.Some? then ps.value[i] else 1.0) else objs[i])
  }

  function Ones(n: nat): (r: seq<real>)
    ensures |r| == n && forall i :: 0 <= i < n ==> r[i] == 1.0
  {
    seq(n, i => 1.0)
  }

  /** Running without a power list is running with 1 pu for every DER. */
  lemma RunDefaultIsOne(objs: seq<DerObj>, vs: seq<PhaseVoltages>, thetas: seq<PhaseAngles>)
    ensures RunInputs(objs, vs, thetas, None) == RunInputs(objs, vs, thetas, Some(Ones(|objs|)))
  {
    var a := RunInputs(objs, vs, thetas, None);
    var b := RunInputs(objs, vs, thetas, Some(Ones(|objs|)));
    assert RunCount(objs, vs, thetas, None) == RunCount(objs, vs, thetas, Some(Ones(|objs|)));
    forall i | 0 <= i < |objs|
      ensures a[i] == b[i]
    {
    }
  }

  // ---------------------------------------------------------------------------
  // The convergence loop

  /** The iterations of the convergence process, run on the bookkeeping
      `b0`: each one solves the circuit, reads the system voltages and line
      flows, gives every DER `objs0` the terminal voltages `read` reports
      after the writes so far, evaluates the DERs, updates the lists and
      writes their damped outputs; the loop stops after the first converged
      iteration or after `ClMaxIterations`. `log` is the circuit calls made
      and `objs` the DERs with their last inputs. */
  method ClIterations(b0: Book, objs0: seq<DerObj>, probe: (seq<Write>, nat) -> Sample, read: seq<Write> -> Terminals)
    returns (b: Book, iterations: nat, writes: seq<Write>, log: seq<Event>, objs: seq<DerObj>)
    requires Sized(b0)
    ensures Sized(b) && b.n == b0.n
    ensures (b, writes) == After(b0, probe, iterations)
    ensures log == LoopCalls(OnDers, writes)
    ensures objs == Fed(objs0, read, writes)
    ensures iterations <= ClMaxIterations && (b.converged || iterations == ClMaxIterations)
    ensures UnsettledBefore(b0, probe, iterations)
  {
    b := b0;
    iterations := 0;
    writes := [];
    log := [];
    objs := objs0;
    while !b.converged && iterations < ClMaxIterations
      invariant 0 <= iterations <= ClMaxIterations
      invariant (b, writes) == After(b0, probe, iterations)
      invariant UnsettledBefore(b0, probe, iterations)
      invariant log == LoopCalls(OnDers, writes)
      invariant objs == Fed(objs0, read, writes)
    {
      LoopStep(OnDers, b0, probe, iterations, b, writes);
      objs := UpdateInputs(objs, read(writes));
      b := Iteration(b, Samples(probe, writes, b.n));
      var w := Write(b.pOut, b.qOut);
      log := log + IterationCalls(OnDers, w);
      writes := writes + [w];
      iterations := iterations + 1;
    }
  }

  /** In this scheme every iteration starts with a solve and ends with the
      write of its damped outputs, and its DER evaluation is on the DER
      objects themselves. */
  lemma OnDersIterationShape(ws: seq<Write>, k: nat)
    requires k < |ws|
    ensures 6 * k + 6 <= |LoopCalls(OnDers, ws)|
    ensures LoopCalls(OnDers, ws)[6 * k] == Solve
    ensures LoopCalls(OnDers, ws)[6 * k + 4] == RunDers(false)
    ensures LoopCalls(OnDers, ws)[6 * k + 5] == WriteOutputs(false, Some(ws[k].p), Some(ws[k].q))
  {
    LoopCallsBlock(OnDers, ws, k);
    var block := LoopCalls(OnDers, ws)[6 * k .. 6 * k + 6];
    assert block[0] == Solve && block[4] == RunDers(false);
    assert block[5] == WriteOutputs(false, Some(ws[k].p), Some(ws[k].q));
  }

  // ---------------------------------------------------------------------------
  /** The convergence process from the initialised lists `start`, with DERs
      `objs0`, calls `calls0` so far and DER time step `ts0`: the loop takes
      `iterations` iterations and makes `writes`, stopping at the first
      converged one or at `ClMaxIterations`; the calls are the forced time
      step, the loop's calls, a final solve and the restored time step; the
      DERs are fed every iteration and their clocks reset; the outputs are
      returned exactly when the process converged. */
  predicate Processed(start: Book, objs0: seq<DerObj>, calls0: seq<Event>, ts0: real,
                      probe: (seq<Write>, nat) -> Sample, read: seq<Write> -> Terminals,
                      iterations: nat, writes: seq<Write>,
                      b: Book, objs: seq<DerObj>, calls: seq<Event>, ts: real,
                      r: Option<(seq<real>, seq<real>)>)
    requires Sized(start)
  {
    (b, writes) == After(start, probe, iterations) &&
    calls == calls0 + [SetDerTimeStep(LoopTimeStep)] + LoopCalls(OnDers, writes) +
             [Solve] + [SetDerTimeStep(ts0)] &&
    ts == ts0 && objs == ClocksReset(Fed(objs0, read, writes)) &&
    iterations <= ClMaxIterations && (b.converged || iterations == ClMaxIterations) &&
    UnsettledBefore(start, probe, iterations) &&
    (r.Some? <==> b.converged) &&
    (r.Some? ==> r.value == (b.pOut, b.qOut))
  }

  // The interface

  /** The exception an operation raises on an attribute the object lacks. */
  datatype Raised = AttributeError(attribute: string)

  class OpenDERInterface {
    /** The OpenDSS circuit file, present when the path names a `.dss` file. */
    const ckt: Option<string>
    const tS: real

    // the circuit's DER table and the calls made into the circuit
    var cktDers: seq<CircuitDer>
    var calls: seq<Event>

    /** The DER class's shared time step `DER.t_s`. */
    var derTs: real

    /** Whether `create_opender_objs` has run, creating `numberofders`,
        `der_files`, `der_bus` and the `_` lists. */
    var created: bool

    var derObjs: seq<DerObj>

    /** The `_`-prefixed convergence lists, one record field per list. */
    var lists: Book

    /** One list entry per DER object. */
    predicate Valid()
      reads this
    {
      Sized(lists) && lists.n == |derObjs| && (created ==> ckt.Some?)
    }

    /** A circuit is attached only for a path containing `.dss`; either way
        the DER class's time step is set to `tS` and there are no DERs. */
    constructor(cktPath: string, tS: real, cktDers: seq<CircuitDer>)
      ensures Valid()
      ensures ckt == (if Contains(cktPath, ".dss") then Some(cktPath) else None)
      ensures this.tS == tS && derTs == tS && this.cktDers == cktDers
      ensures derObjs == [] && calls == [] && lists.n == 0 && !created
    {
      created := false;
      ckt := if Contains(cktPath, ".dss") then Some(cktPath) else None;
      this.tS := tS;
      this.cktDers := cktDers;
      calls := [];
      derTs := tS;
      derObjs := [];
      lists := Book(0, [], false, [], [], [], [], [], [], [], [], [], [], [], [], [], false, ClDelta, ClDelta);
    }

    /** Creates one object per (circuit DER, type name) pair, appends them to
        `derObjs` and rebuilds the lists for all objects; returns all objects.
        Without a circuit the first look at `ckt.DERs` raises AttributeError
        and nothing changes. */
    method CreateOpenderObjs(pDcPu: real, types: TypesArg,
                             settings: DerFile -> DerFile, defaults: DerKind -> DerFile)
      returns (r: Result<seq<DerObj>, Raised>)
      requires Valid()
      modifies this`derObjs, this`lists, this`derTs, this`created
      ensures Valid()
      ensures ckt.None? ==> (r == Err(AttributeError("ckt")) && created == old(created) &&
                             derObjs == old(derObjs) && lists == old(lists) && derTs == old(derTs))
      ensures ckt.Some? ==> (var made := Made(cktDers, TypesFor(types, cktDers), pDcPu, settings, defaults);
                             created && derObjs == old(derObjs) + made &&
                             derTs == (if |made| > 0 then tS else old(derTs)) &&
                             lists == FreshBook(old(lists), ModesOf(FilesOf(derObjs))) &&
                             r == Ok(derObjs))
    {
      if ckt.None? {
        r := Err(AttributeError("ckt"));
        return;
      }
      var ts := TypesFor(types, cktDers);
      var made: seq<DerObj> := [];
      var i := 0;
      while i < Min(|cktDers|, |ts|)
        invariant 0 <= i <= Min(|cktDers|, |ts|)
        invariant made == Made(cktDers, ts, pDcPu, settings, defaults)[..i]
        invariant derObjs == old(derObjs) && lists == old(lists) && derTs == old(derTs)
      {
        var kind := KindForType(ts[i]);
        var f := Rated(defaults(kind), cktDers[i]);
        var o := DerObj(kind, cktDers[i].name, cktDers[i].bus, settings(f),
                        Some(pDcPu), None, Some(60.0), None, None, 0.0);
        made := made + [o];
        i := i + 1;
      }
      assert made == Made(cktDers, ts, pDcPu, settings, defaults);
      if |made| > 0 {
        derTs := tS;
      }
      derObjs := derObjs + made;
      var n := |derObjs|;
      lists := lists.(n := n, modes := ModesOf(FilesOf(derObjs)), converged := false,
        vConverged := Falses(n), qConverged := Falses(n), pConverged := Falses(n),
        pOut := Zeros(n), qOut := Zeros(n), pInv := Zeros(n), qInv := Zeros(n),
        pPrevious := Zeros(n), qPrevious := Zeros(n), currentV := Zeros(n), previousV := Zeros(n),
        pCheck := Falses(n), qCheck := Falses(n));
      created := true;
      r := Ok(derObjs);
    }

    /** `initialize_time_step`: first-iteration marker, cleared convergence
        flags, damping flags rebuilt from the modes, both factors 0.5. Before
        any `create_opender_objs` it stops with AttributeError in `_check_p`. */
    method InitializeTimeStepLists() returns (raised: Option<Raised>)
      requires Valid()
      modifies this`lists
      ensures Valid()
      ensures !created ==> raised == Some(AttributeError("numberofders")) && lists == Begun(old(lists))
      ensures created ==> raised == None && lists == InitializeTimeStep(old(lists))
    {
      lists := lists.(firstIteration := true);
      lists := Reset(lists);
      lists := lists.(pCheck := Falses(lists.n), qCheck := Falses(lists.n));
      if !created {
        raised := Some(AttributeError("numberofders"));
        return;
      }
      raised := None;
      lists := CheckP(lists);
      lists := CheckQ(lists);
      lists := lists.(deltaQ := ClDelta, deltaP := ClDelta);
    }

    /** `control_loop_iteration` on the DERs' evaluation `samples`: the
        flags cleared and the raw values read in; on the first call the raw
        values seed outputs and history, on later calls P and Q are damped,
        the criteria checked and the history shifted. */
    method ControlLoopIteration(samples: seq<Sample>)
      requires Valid() && |samples| == lists.n
      modifies this`lists
      ensures Valid() && lists == Iteration(old(lists), samples)
    {
      lists := Reset(lists);
      lists := lists.(pInv := ActivePowers(samples), qInv := ReactivePowers(samples), currentV := Voltages(samples));
      if !lists.firstIteration {
        lists := CalculatePOut(lists);
        lists := CalculateQOut(lists);
        assert Sized(lists);
        lists := CheckConverged(lists);
        lists := lists.(previousV := lists.currentV, pPrevious := lists.pOut, qPrevious := lists.qOut);
      } else {
        lists := lists.(firstIteration := false, previousV := lists.currentV,
                        pPrevious := lists.pInv, qPrevious := lists.qInv,
                        pOut := lists.pInv, qOut := lists.qInv);
      }
    }

    /** Sets every DER's clock back to 0. */
    method ResetClocks()
      modifies this`derObjs
      ensures derObjs == ClocksReset(old(derObjs))
    {
      var objs := derObjs;
      var i := 0;
      while i < |objs|
        invariant 0 <= i <= |objs| && derObjs == old(derObjs) && |objs| == |derObjs|
        invariant forall k :: 0 <= k < i ==> objs[k] == derObjs[k].(time := 0.0)
        invariant forall k :: i <= k < |objs| ==> objs[k] == derObjs[k]
      {
        objs := objs[i := objs[i].(time := 0.0)];
        i := i + 1;
      }
      derObjs := objs;
    }

    /** The loop of the convergence process: iterations on the DER objects
        themselves until one reports convergence or `ClMaxIterations` have
        run, each feeding the DERs the terminal voltages `read` reports after
        the writes so far and making its calls into the circuit. */
    method IterateOnDers(probe: (seq<Write>, nat) -> Sample, read: seq<Write> -> Terminals)
      returns (iterations: nat, writes: seq<Write>)
      requires Valid()
      modifies this`lists, this`derObjs, this`calls
      ensures Valid()
      ensures (lists, writes) == After(old(lists), probe, iterations)
      ensures calls == old(calls) + LoopCalls(OnDers, writes)
      ensures derObjs == Fed(old(derObjs), read, writes)
      ensures iterations <= ClMaxIterations && (lists.converged || iterations == ClMaxIterations)
      ensures UnsettledBefore(old(lists), probe, iterations)
    {
      var b, log, objs;
      b, iterations, writes, log, objs := ClIterations(lists, derObjs, probe, read);
      Keep(b, objs, log);
    }

    /** Keeps the lists and DER objects the loop computed and the calls it made. */
    method Keep(b: Book, objs: seq<DerObj>, log: seq<Event>)
      requires Sized(b) && b.n == |objs| && (created ==> ckt.Some?)
      modifies this`lists, this`derObjs, this`calls
      ensures Valid() && lists == b && derObjs == objs && calls == old(calls) + log
    {
      lists, derObjs := b, objs;
      calls := calls + log;
    }

    /** `DER.t_s = t`: sets the DER class's shared time step. */
    method SetTimeStep(t: real)
      modifies this`derTs, this`calls
      ensures derTs == t && calls == old(calls) + [SetDerTimeStep(t)]
    {
      derTs := t;
      calls := calls + [SetDerTimeStep(t)];
    }

    /** `ckt.solve_power_flow()`. */
    method SolvePowerFlow()
      modifies this`calls
      ensures calls == old(calls) + [Solve]
    {
      calls := calls + [Solve];
    }

    /** The convergence process. With the DER time step forced to 10000 it
        iterates on the DER objects themselves, each iteration feeding them
        the terminal voltages `read` reports after the writes so far, until
        an iteration converges or `ClMaxIterations` have run; then it solves
        once more, restores the time step and resets every DER's clock. The
        damped outputs are returned only when the process converged. Before
        any `create_opender_objs` the AttributeError of `initialize_time_step`
        ends it there. */
    method DerConvergenceProcess(probe: (seq<Write>, nat) -> Sample, read: seq<Write> -> Terminals)
      returns (r: Result<Option<(seq<real>, seq<real>)>, Raised>,
               ghost iterations: nat, ghost writes: seq<Write>, ghost start: Book)
      requires Valid()
      modifies this`lists, this`calls, this`derTs, this`derObjs
      ensures Valid()
      ensures !created ==> (r == Err(AttributeError("numberofders")) && lists == Begun(old(lists)) &&
                            calls == old(calls) && derTs == old(derTs) && derObjs == old(derObjs))
      ensures created ==> (r.Ok? && start == InitializeTimeStep(old(lists)) &&
                           Processed(start, old(derObjs), old(calls), old(derTs), probe, read,
                                     iterations, writes, lists, derObjs, calls, derTs, r.value))
    {
      var raised := InitializeTimeStepLists();
      start := lists;
      if raised.Some? {
        iterations, writes := 0, [];
        r := Err(raised.value);
        return;
      }
      var out;
      out, iterations, writes := Converge(probe, read);
      r := Ok(out);
    }

    /** The process once `initialize_time_step` has succeeded: the loop under
        the forced time step, the final solve, the restored time step and the
        reset clocks. */
    method Converge(probe: (seq<Write>, nat) -> Sample, read: seq<Write> -> Terminals)
      returns (r: Option<(seq<real>, seq<real>)>, ghost iterations: nat, ghost writes: seq<Write>)
      requires Valid() && created
      modifies this`lists, this`calls, this`derTs, this`derObjs
      ensures Valid()
      ensures Processed(old(lists), old(derObjs), old(calls), old(derTs), probe, read,
                        iterations, writes, lists, derObjs, calls, derTs, r)
    {
      var saved := derTs;
      SetTimeStep(LoopTimeStep);
      iterations, writes := IterateOnDers(probe, read);
      SolvePowerFlow();
      SetTimeStep(saved);
      ResetClocks();
      if lists.converged {
        r := Some((lists.pOut, lists.qOut));
      } else {
        r := None;
      }
    }

    /** `run`: reads the DERs' voltages and angles (`vs`, `thetas`) and
        gives each zipped DER its voltage, angle and available DC power
        (1 pu without a list), evaluating it. Without a circuit the read
        raises AttributeError and nothing changes. */
    method Run(ps: Option<seq<real>>, vs: seq<PhaseVoltages>, thetas: seq<PhaseAngles>)
      returns (raised: Option<Raised>)
      requires Valid()
      modifies this`derObjs, this`calls
      ensures Valid()
      ensures ckt.None? ==> (raised == Some(AttributeError("ckt")) &&
                             derObjs == old(derObjs) && calls == old(calls))
      ensures ckt.Some? ==> (raised == None && derObjs == RunInputs(old(derObjs), vs, thetas, ps) &&
                             calls == old(calls) + [ReadDerVoltages, RunDers(false)])
    {
      if ckt.None? {
        raised := Some(AttributeError("ckt"));
        return;
      }
      raised := None;
      calls := calls + [ReadDerVoltages];
      var k := RunCount(derObjs, vs, thetas, ps);
      var objs := derObjs;
      var i := 0;
      while i < k
        invariant 0 <= i <= k && derObjs == old(derObjs) && |objs| == |derObjs|
        invariant calls == old(calls) + [ReadDerVoltages]
        invariant forall j :: 0 <= j < i ==>
          objs[j] == RunInput(derObjs[j], vs[j], thetas[j], if ps.Some? then ps.value[j] else 1.0)
        invariant forall j :: i <= j < |objs| ==> objs[j] == derObjs[j]
      {
        var p := if ps.Some? then ps.value[i] else 1.0;
        objs := objs[i := RunInput(objs[i], vs[i], thetas[i], p)];
        i := i + 1;
      }
      derObjs := objs;
      calls := calls + [RunDers(false)];
    }
  }
}
