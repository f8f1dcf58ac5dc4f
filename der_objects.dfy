/** The entities the DER interfaces pass between the OpenDER model and the
    circuit simulator: settings files, DER objects, rows of the circuit's DER
    table, and the log of calls made into the circuit. The OpenDER model's own
    computation is not part of this model. */
module DerObjects {
  import opened Wrappers
  import opened Strings
  import opened ConvergenceRules

  datatype DerKind = PV | BESS

  /** The settings-file fields the interfaces read or write (nameplate values
      in W, var, V and ohm-pu). */
  datatype DerFile = DerFile(
    modes: ModeFlags,
    npVaMax: real, npPMax: real, npQMaxAbs: real, npQMaxInj: real,
    npVDc: real, npAcVNom: real,
    npResistance: real, npReactance: real)

  /** An OpenDER object as the interfaces see it: its class, the circuit name
      and bus it was attached to, its settings file, and the inputs the
      interfaces set (available DC power, demanded power for BESS, grid
      frequency, terminal voltage and angle), plus its internal clock. */
  datatype DerObj = DerObj(
    kind: DerKind, name: string, bus: string, file: DerFile,
    pDcPu: Option<real>, pDemPu: Option<real>, freq: Option<real>,
    vPu: Option<PhaseVoltages>, theta: Option<PhaseAngles>, time: real)

  /** The voltage magnitudes (pu) of a DER bus's phases A, B and C, as
      `read_der_voltage` reports them; None is the NaN of a phase the bus
      does not have. */
  datatype PhaseVoltages = PhaseVoltages(a: Option<real>, b: Option<real>, c: Option<real>)

  /** The voltage angles (rad) of a DER bus's phases A, B and C. */
  datatype PhaseAngles = PhaseAngles(a: real, b: real, c: real)

  /** The DER terminal voltages and angles the circuit reports, one phase
      triple per DER bus in order. */
  datatype Terminals = Terminals(v: seq<PhaseVoltages>, theta: seq<PhaseAngles>)

  /** `update_der_input(v_pu=list(V), theta=list(theta))`: the DER's
      per-phase terminal voltages and angles are set, nothing else changes. */
  function WithVoltage(o: DerObj, v: PhaseVoltages, theta: PhaseAngles): (r: DerObj)
    ensures r.vPu == Some(v) && r.theta == Some(theta)
    ensures r.(vPu := o.vPu, theta := o.theta) == o
  {
    o.(vPu := Some(v), theta := Some(theta))
  }

  /** The number of DERs `zip` pairs with a reading. */
  function Paired(objs: seq<DerObj>, t: Terminals): nat
  {
    Min(Min(|objs|, |t.v|), |t.theta|)
  }

  /** The input update of every DER that `zip` pairs with the reading `t`;
      the DERs beyond the shortest of the three lists are untouched. */
  function WithVoltages(objs: seq<DerObj>, t: Terminals): (r: seq<DerObj>)
    ensures |r| == |objs|
    ensures forall i :: 0 <= i < |objs| ==> r[i].(vPu := objs[i].vPu, theta := objs[i].theta) == objs[i]
    ensures forall i :: 0 <= i < Paired(objs, t) ==> r[i].vPu == Some(t.v[i]) && r[i].theta == Some(t.theta[i])
    ensures forall i :: Paired(objs, t) <= i < |objs| ==> r[i] == objs[i]
  {
    var k := Paired(objs, t);
    seq(|objs|, i requires 0 <= i < |objs| => if i < k then WithVoltage(objs[i], t.v[i], t.theta[i]) else objs[i])
  }

  /** The `zip` loop of `update_der_input` calls over the DERs and a reading. */
  method UpdateInputs(objs: seq<DerObj>, t: Terminals) returns (r: seq<DerObj>)
    ensures r == WithVoltages(objs, t)
  {
    r := objs;
    var i := 0;
    while i < Paired(objs, t)
      invariant 0 <= i <= Paired(objs, t) && |r| == |objs|
      invariant forall k :: 0 <= k < i ==> r[k] == WithVoltage(objs[k], t.v[k], t.theta[k])
      invariant forall k :: i <= k < |objs| ==> r[k] == objs[k]
    {
      r := r[i := WithVoltage(r[i], t.v[i], t.theta[i])];
      i := i + 1;
    }
  }

  /** Two lists of DERs that differ at most in their terminal inputs. */
  predicate SameButVoltages(a: seq<DerObj>, b: seq<DerObj>)
  {
    |a| == |b| && forall i :: 0 <= i < |a| ==> a[i].(vPu := b[i].vPu, theta := b[i].theta) == b[i]
  }

  /** A reading that covers every DER overwrites all terminal inputs, so what
      they were before does not matter. */
  lemma CoveringReadingWins(a: seq<DerObj>, b: seq<DerObj>, t: Terminals)
    requires SameButVoltages(a, b) && Paired(a, t) == |a|
    ensures WithVoltages(a, t) == WithVoltages(b, t)
  {
    var ra, rb := WithVoltages(a, t), WithVoltages(b, t);
    forall i | 0 <= i < |a|
      ensures ra[i] == rb[i]
    {
      assert a[i].(vPu := b[i].vPu, theta := b[i].theta) == b[i];
    }
  }

  /** The DER objects after a loop that updates their inputs once per
      iteration: the update of iteration `k` uses `read(ws[..k])`, what the
      circuit reports after the writes of the iterations before it. */
  function Fed(objs: seq<DerObj>, read: seq<Write> -> Terminals, ws: seq<Write>): (r: seq<DerObj>)
    ensures |r| == |objs|
    decreases |ws|
  {
    if |ws| == 0 then objs else WithVoltages(Fed(objs, read, ws[..|ws| - 1]), read(ws[..|ws| - 1]))
  }

  /** However many iterations ran, only the terminal inputs changed: class,
      name, bus, settings, power inputs, frequency and clock are kept. */
  lemma {:induction false} FedKeeps(objs: seq<DerObj>, read: seq<Write> -> Terminals, ws: seq<Write>)
    ensures SameButVoltages(Fed(objs, read, ws), objs)
    decreases |ws|
  {
    if |ws| > 0 {
      var front := ws[..|ws| - 1];
      FedKeeps(objs, read, front);
      var f := Fed(objs, read, front);
      var r := Fed(objs, read, ws);
      forall i | 0 <= i < |objs|
        ensures r[i].(vPu := objs[i].vPu, theta := objs[i].theta) == objs[i]
      {
        assert r[i].(vPu := f[i].vPu, theta := f[i].theta) == f[i];
        assert f[i].(vPu := objs[i].vPu, theta := objs[i].theta) == objs[i];
      }
    }
  }

  /** When the last reading covers every DER, the objects are the original
      ones with that reading's voltages and angles: earlier iterations leave
      no trace. */
  lemma FedLastReading(objs: seq<DerObj>, read: seq<Write> -> Terminals, ws: seq<Write>)
    requires |ws| > 0 && Paired(objs, read(ws[..|ws| - 1])) == |objs|
    ensures Fed(objs, read, ws) == WithVoltages(objs, read(ws[..|ws| - 1]))
  {
    var front := ws[..|ws| - 1];
    FedKeeps(objs, read, front);
    CoveringReadingWins(Fed(objs, read, front), objs, read(front));
  }

  /** One row of the circuit's DER table (ratings in kVA, kW, kvar, kV). */
  datatype CircuitDer = CircuitDer(
    name: string, bus: string, kV: real, kVA: real, kw: real, kvar: real, kvarabs: real)

  /** A call made into the circuit simulator, or a change of the DER class's
      shared time step. */
  datatype Event =
    | UpdateDerInfo(key: string, kind: DerKind, file: DerFile)   // update_der_info(name, der_obj)
    | CopyDers                        // deep copy of the DER objects for one iteration
    | RunDers(onCopies: bool)         // evaluate the DERs (DERInterface also ticks its regulators)
    | WriteOutputs(onCopies: bool, p: Option<seq<real>>, q: Option<seq<real>>)
    | Solve
    | ReadSysVoltage
    | ReadLineFlow
    | UpdateDerInputs
    | WriteVr
    | ReadDerVoltages                 // read_der_voltage and read_der_voltage_angle
    | SetDerTimeStep(ts: real)        // DER.t_s := ts

  /** The damping-relevant modes of a list of settings files. */
  function ModesOf(files: seq<DerFile>): (r: seq<ModeFlags>)
    ensures |r| == |files| && forall i :: 0 <= i < |files| ==> r[i] == files[i].modes
  {
    seq(|files|, i requires 0 <= i < |files| => files[i].modes)
  }

  function FilesOf(objs: seq<DerObj>): (r: seq<DerFile>)
    ensures |r| == |objs| && forall i :: 0 <= i < |objs| ==> r[i] == objs[i].file
  {
    seq(|objs|, i requires 0 <= i < |objs| => objs[i].file)
  }

  function BusesOf(objs: seq<DerObj>): (r: seq<string>)
    ensures |r| == |objs| && forall i :: 0 <= i < |objs| ==> r[i] == objs[i].bus
  {
    seq(|objs|, i requires 0 <= i < |objs| => objs[i].bus)
  }

  function Zeros(n: nat): (r: seq<real>)
    ensures |r| == n && forall i :: 0 <= i < n ==> r[i] == 0.0
  {
    seq(n, i => 0.0)
  }

  /** The bookkeeping after a set of DERs is created: every list rebuilt with
      one cleared or zero entry per DER for the given modes; the
      first-iteration marker and the damping factors are kept. */
  function FreshBook(b: Book, modes: seq<ModeFlags>): (r: Book)
    ensures Sized(r) && r.n == |modes| && r.modes == modes && !r.converged
    ensures r.firstIteration == b.firstIteration && r.deltaQ == b.deltaQ && r.deltaP == b.deltaP
  {
    var n := |modes|;
    Book(n, modes, false, Falses(n), Falses(n), Falses(n),
         Zeros(n), Zeros(n), Zeros(n), Zeros(n), Zeros(n), Zeros(n), Zeros(n), Zeros(n),
         Falses(n), Falses(n), b.firstIteration, b.deltaQ, b.deltaP)
  }

  /** The two iteration schemes: `DERInterface` evaluates deep copies of the
      DER objects in each iteration, `OpenDERInterface` the DER objects
      themselves. */
  datatype Scheme = OnCopies | OnDers

  /** The number of circuit calls one iteration makes. */
  function Width(s: Scheme): nat
  {
    if s == OnCopies then 4 else 6
  }

  /** One iteration's calls, given the damped outputs `w` it writes. On
      copies: copy, evaluate the copies, write, solve. On the DERs
      themselves: solve, read the system voltages and line flows, update
      every DER's input, evaluate the DERs, write. */
  function IterationCalls(s: Scheme, w: Write): (r: seq<Event>)
    ensures |r| == Width(s)
  {
    match s
    case OnCopies => [CopyDers, RunDers(true), WriteOutputs(true, Some(w.p), Some(w.q)), Solve]
    case OnDers => [Solve, ReadSysVoltage, ReadLineFlow, UpdateDerInputs, RunDers(false),
                    WriteOutputs(false, Some(w.p), Some(w.q))]
  }

  /** The calls of a whole sequence of iterations, in order. */
  function LoopCalls(s: Scheme, ws: seq<Write>): seq<Event>
  {
    if |ws| == 0 then [] else LoopCalls(s, ws[..|ws| - 1]) + IterationCalls(s, ws[|ws| - 1])
  }

  /** Every iteration contributes the same number of calls. */
  lemma {:induction false} LoopCallsLength(s: Scheme, ws: seq<Write>)
    ensures |LoopCalls(s, ws)| == Width(s) * |ws|
    decreases |ws|
  {
    if |ws| > 0 {
      LoopCallsLength(s, ws[..|ws| - 1]);
    }
  }

  /** The `k`-th block of calls is exactly the `k`-th iteration's. */
  lemma {:induction false} LoopCallsBlock(s: Scheme, ws: seq<Write>, k: nat)
    requires k < |ws|
    ensures Width(s) * k + Width(s) <= |LoopCalls(s, ws)|
    ensures LoopCalls(s, ws)[Width(s) * k .. Width(s) * k + Width(s)] == IterationCalls(s, ws[k])
    decreases |ws|
  {
    var w := Width(s);
    var front := ws[..|ws| - 1];
    var f := LoopCalls(s, front);
    var last := IterationCalls(s, ws[|ws| - 1]);
    assert LoopCalls(s, ws) == f + last;
    LoopCallsLength(s, front);
    if k < |ws| - 1 {
      LoopCallsBlock(s, front, k);
      assert front[k] == ws[k];
      BlockBelow(w, k, |ws| - 1);
      SliceLeft(f, last, w * k, w * k + w);
      assert LoopCalls(s, ws)[w * k .. w * k + w] == f[w * k .. w * k + w];
    } else {
      SliceRight(f, last);
      assert w * k == |f| && |last| == w;
      assert LoopCalls(s, ws)[w * k .. w * k + w] == last;
    }
  }

  lemma {:induction false} BlockBelow(w: nat, k: nat, m: nat)
    requires k < m
    ensures w * k + w <= w * m
    decreases m
  {
    if m == k + 1 {
      assert w * m == w * k + w;
    } else {
      BlockBelow(w, k, m - 1);
      assert w * m == w * (m - 1) + w;
    }
  }

  lemma SliceLeft<T>(f: seq<T>, g: seq<T>, lo: nat, hi: nat)
    requires lo <= hi <= |f|
    ensures (f + g)[lo .. hi] == f[lo .. hi]
  {
  }

  lemma SliceRight<T>(f: seq<T>, g: seq<T>)
    ensures (f + g)[|f| .. |f| + |g|] == g
  {
  }

  /** One more unconverged iteration of a loop extends the run, the
      unconverged prefix and the call log by one step. */
  lemma LoopStep(s: Scheme, b0: Book, probe: (seq<Write>, nat) -> Sample, k: nat, b: Book, writes: seq<Write>)
    requires Sized(b0) && (b, writes) == After(b0, probe, k)
    requires UnsettledBefore(b0, probe, k) && !b.converged
    ensures var next := Iteration(b, Samples(probe, writes, b.n));
      var w := Write(next.pOut, next.qOut);
      (next, writes + [w]) == After(b0, probe, k + 1) &&
      UnsettledBefore(b0, probe, k + 1) &&
      LoopCalls(s, writes + [w]) == LoopCalls(s, writes) + IterationCalls(s, w)
  {
    AfterNext(b0, probe, k, (b, writes), Samples(probe, writes, b.n));
    var w := Write(Iteration(b, Samples(probe, writes, b.n)).pOut, Iteration(b, Samples(probe, writes, b.n)).qOut);
    assert (writes + [w])[..|writes|] == writes;
  }

  /** In the deep-copy scheme, every evaluation in the loop is on copies and
      every write is followed directly by a solve. */
  lemma {:induction false} CopyLoopShape(ws: seq<Write>)
    ensures forall k :: 0 <= k < |LoopCalls(OnCopies, ws)| ==>
      (LoopCalls(OnCopies, ws)[k].RunDers? ==> LoopCalls(OnCopies, ws)[k].onCopies) &&
      (LoopCalls(OnCopies, ws)[k].WriteOutputs? ==> k + 1 < |LoopCalls(OnCopies, ws)| && LoopCalls(OnCopies, ws)[k + 1] == Solve)
    decreases |ws|
  {
    if |ws| > 0 {
      CopyLoopShape(ws[..|ws| - 1]);
      var front := LoopCalls(OnCopies, ws[..|ws| - 1]);
      var r := LoopCalls(OnCopies, ws);
      assert r == front + IterationCalls(OnCopies, ws[|ws| - 1]);
      forall k | 0 <= k < |r|
        ensures (r[k].RunDers? ==> r[k].onCopies) && (r[k].WriteOutputs? ==> k + 1 < |r| && r[k + 1] == Solve)
      {
        if k < |front| {
          assert r[k] == front[k];
          if r[k].WriteOutputs? {
            assert r[k + 1] == front[k + 1];
          }
        }
      }
    }
  }

  /** The name rule that picks the DER class: `PV` anywhere in the upper-cased name. */
  function KindForName(name: string): (k: DerKind)
    ensures k == PV <==> Contains(Upper(name), "PV")
  {
    if Contains(Upper(name), "PV") then PV else BESS
  }
}
