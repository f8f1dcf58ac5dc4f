/** The circuit-level DER interface: it pairs OpenDER objects with the DERs of
    a circuit, keeps the convergence bookkeeping of `ConvergenceRules` in its
    own list fields, and runs the bounded relaxed iteration between DER
    evaluation and power-flow solution. The circuit is represented by the two
    tables the interface reads (DERs and voltage regulators) and by the log of
    calls made into it; DER evaluation after a sequence of writes is the
    `probe` parameter of the convergence process. */
module DerInterface {
  import opened Wrappers
  import opened Strings
  import opened ConvergenceRules
  import opened DerObjects
  import opened Phasor
  import VR = VoltageRegulator

  /** Iteration bound of the convergence process. */
  const MaxIterations: nat := 300

  // ---------------------------------------------------------------------------
  // Circuit selection

  /** What the constructor is given: a simulator-interface object (identified
      by a number here) or a path to a circuit file. */
  datatype CircuitArg = ToolObject(id: nat) | CircuitPath(path: string)

  datatype Circuit = ToolCircuit(id: nat) | OpenDssCircuit(path: string)

  datatype SetupError = PathIncorrect(path: string)

  /** A simulator-interface object is used as given; a path is wrapped in an
      OpenDSS circuit exactly when it names an existing file, and is refused
      otherwise. `isFile` stands for the file-system test. */
  function SelectCircuit(arg: CircuitArg, isFile: string -> bool): (r: Result<Circuit, SetupError>)
    ensures r.Ok? <==> arg.ToolObject? || isFile(arg.path)
    ensures r.Ok? ==> (r.value.ToolCircuit? <==> arg.ToolObject?)
    ensures r.Ok? && arg.ToolObject? ==> r.value.id == arg.id
    ensures r.Ok? && arg.CircuitPath? ==> r.value.path == arg.path
    ensures r.Err? ==> r.error.path == arg.path
  {
    match arg
    case ToolObject(id) => Ok(ToolCircuit(id))
    case CircuitPath(p) => if isFile(p) then Ok(OpenDssCircuit(p)) else Err(PathIncorrect(p))
  }

  // ---------------------------------------------------------------------------
  // Pairing settings files with the circuit's DERs

  /** The settings argument: one file for all DERs, or files keyed by DER name
      (a dictionary, so the keys are distinct and keep insertion order). */
  datatype DerConfig = OneFile(file: DerFile) | ByName(entries: seq<(string, DerFile)>)

  datatype CreateError = NoConfigurationFor(name: string)

  function NamesOf(rows: seq<CircuitDer>): (r: seq<string>)
    ensures |r| == |rows| && forall i :: 0 <= i < |rows| ==> r[i] == rows[i].name
  {
    seq(|rows|, i requires 0 <= i < |rows| => rows[i].name)
  }

  /** The keys of a dictionary built from `xs` in order: first occurrences only. */
  function Dedup(xs: seq<string>): (r: seq<string>)
    ensures |r| <= |xs|
  {
    if |xs| == 0 then []
    else
      var d := Dedup(xs[..|xs| - 1]);
      if xs[|xs| - 1] in d then d else d + [xs[|xs| - 1]]
  }

  /** The keys are the names, each once; names already distinct are kept as they are. */
  lemma {:induction false} DedupKeys(xs: seq<string>)
    ensures forall x :: x in Dedup(xs) <==> x in xs
    ensures forall i, j :: 0 <= i < j < |Dedup(xs)| ==> Dedup(xs)[i] != Dedup(xs)[j]
    ensures (forall i, j :: 0 <= i < j < |xs| ==> xs[i] != xs[j]) ==> Dedup(xs) == xs
    decreases |xs|
  {
    if |xs| > 0 {
      var front := xs[..|xs| - 1];
      assert xs == front + [xs[|xs| - 1]];
      DedupKeys(front);
    }
  }

  /** The same file under each key. */
  function Broadcast(keys: seq<string>, f: DerFile): (r: seq<(string, DerFile)>)
    ensures |r| == |keys| && forall i :: 0 <= i < |keys| ==> r[i] == (keys[i], f)
  {
    seq(|keys|, i requires 0 <= i < |keys| => (keys[i], f))
  }

  /** The dictionary the matching loop walks: a single file is broadcast under
      every circuit DER name. */
  function Entries(config: DerConfig, rows: seq<CircuitDer>): seq<(string, DerFile)>
  {
    match config
    case OneFile(f) => Broadcast(Dedup(NamesOf(rows)), f)
    case ByName(es) => es
  }

  /** Names are compared after upper-casing. */
  predicate NameMatch(key: string, name: string)
  {
    Upper(key) == Upper(name)
  }

  /** The entries, in order, whose key matches `name`. */
  function RowMatches(name: string, es: seq<(string, DerFile)>): (r: seq<(string, DerFile)>)
    ensures |r| <= |es|
  {
    if |es| == 0 then []
    else RowMatches(name, es[..|es| - 1]) + (if NameMatch(es[|es| - 1].0, name) then [es[|es| - 1]] else [])
  }

  /** The matches are exactly the entries whose key matches the name. */
  lemma {:induction false} RowMatchesMembers(name: string, es: seq<(string, DerFile)>)
    ensures forall e :: e in RowMatches(name, es) <==> e in es && NameMatch(e.0, name)
    decreases |es|
  {
    if |es| > 0 {
      var front := es[..|es| - 1];
      assert es == front + [es[|es| - 1]];
      RowMatchesMembers(name, front);
    }
  }

  /** The OpenDER object made for circuit DER `row` from settings `file`. */
  function NewDer(row: CircuitDer, file: DerFile, pPu: real): (o: DerObj)
    ensures o.name == row.name && o.bus == row.bus && o.kind == KindForName(row.name)
    ensures o.file == file.(npVDc := row.kV * 1500.0, npAcVNom := row.kV * 1000.0)
    ensures o.freq == Some(60.0)
    ensures o.kind == BESS ==> o.pDemPu == Some(pPu) && o.pDcPu == None
    ensures o.kind == PV ==> o.pDcPu == Some(pPu) && o.pDemPu == None
  {
    var kind := KindForName(row.name);
    var f := file.(npVDc := row.kV * 1500.0, npAcVNom := row.kV * 1000.0);
    if kind == BESS then DerObj(BESS, row.name, row.bus, f, None, Some(pPu), Some(60.0), None, None, 0.0)
    else DerObj(PV, row.name, row.bus, f, Some(pPu), None, Some(60.0), None, None, 0.0)
  }

  /** The objects made for one circuit DER, one per matching entry. */
  function RowObjects(row: CircuitDer, ms: seq<(string, DerFile)>, pPu: real): (r: seq<DerObj>)
    ensures |r| == |ms|
  {
    if |ms| == 0 then [] else RowObjects(row, ms[..|ms| - 1], pPu) + [NewDer(row, ms[|ms| - 1].1, pPu)]
  }

  /** Each object made for a DER comes from one of the entries given. */
  lemma {:induction false} RowObjectsFrom(row: CircuitDer, ms: seq<(string, DerFile)>, pPu: real)
    ensures forall o :: o in RowObjects(row, ms, pPu) ==> exists m :: m in ms && o == NewDer(row, m.1, pPu)
    decreases |ms|
  {
    if |ms| > 0 {
      var front := ms[..|ms| - 1];
      assert ms == front + [ms[|ms| - 1]];
      RowObjectsFrom(row, front, pPu);
    }
  }

  /** The circuit-information updates for one circuit DER, one per matching entry. */
  function RowCalls(row: CircuitDer, ms: seq<(string, DerFile)>): (r: seq<Event>)
    ensures |r| == |ms|
  {
    if |ms| == 0 then []
    else RowCalls(row, ms[..|ms| - 1]) + [UpdateDerInfo(ms[|ms| - 1].0, KindForName(row.name), ms[|ms| - 1].1)]
  }

  /** The objects made for the first `k` circuit DERs. */
  function Created(rows: seq<CircuitDer>, es: seq<(string, DerFile)>, pPu: real, k: nat): seq<DerObj>
    requires k <= |rows|
  {
    if k == 0 then []
    else Created(rows, es, pPu, k - 1) + RowObjects(rows[k - 1], RowMatches(rows[k - 1].name, es), pPu)
  }

  function CreatedCalls(rows: seq<CircuitDer>, es: seq<(string, DerFile)>, k: nat): seq<Event>
    requires k <= |rows|
  {
    if k == 0 then []
    else CreatedCalls(rows, es, k - 1) + RowCalls(rows[k - 1], RowMatches(rows[k - 1].name, es))
  }

  /** Some entry's key matches the name of circuit DER `i`. */
  predicate Matched(rows: seq<CircuitDer>, es: seq<(string, DerFile)>, i: nat)
    requires i < |rows|
  {
    |RowMatches(rows[i].name, es)| > 0
  }

  /** The first of the first `k` circuit DERs that no entry matches. */
  function FirstUnmatched(rows: seq<CircuitDer>, es: seq<(string, DerFile)>, k: nat): (r: Option<nat>)
    requires k <= |rows|
    ensures r.Some? ==> r.value < k
  {
    if k == 0 then None
    else
      var before := FirstUnmatched(rows, es, k - 1);
      if before.Some? then before
      else if !Matched(rows, es, k - 1) then Some(k - 1)
      else None
  }

  /** The walk finds no unmatched DER exactly when all are matched, and
      otherwise it finds the first unmatched one. */
  lemma {:induction false} FirstUnmatchedIsFirst(rows: seq<CircuitDer>, es: seq<(string, DerFile)>, k: nat)
    requires k <= |rows|
    ensures FirstUnmatched(rows, es, k) == None <==> forall i :: 0 <= i < k ==> Matched(rows, es, i)
    ensures FirstUnmatched(rows, es, k).Some? ==>
      var u := FirstUnmatched(rows, es, k).value;
      !Matched(rows, es, u) && forall i :: 0 <= i < u ==> Matched(rows, es, i)
  {
    if k > 0 {
      FirstUnmatchedIsFirst(rows, es, k - 1);
      var before := FirstUnmatched(rows, es, k - 1);
      if before.Some? {
        assert FirstUnmatched(rows, es, k) == before;
      } else if !Matched(rows, es, k - 1) {
        assert FirstUnmatched(rows, es, k) == Some(k - 1);
      } else {
        assert FirstUnmatched(rows, es, k) == None;
      }
    }
  }

  /** Once the walk has found an unmatched DER, walking further finds the same one. */
  lemma {:induction false} FirstUnmatchedStays(rows: seq<CircuitDer>, es: seq<(string, DerFile)>, k: nat, m: nat)
    requires k <= m <= |rows| && FirstUnmatched(rows, es, k).Some?
    ensures FirstUnmatched(rows, es, m) == FirstUnmatched(rows, es, k)
  {
    FirstUnmatchedIsFirst(rows, es, k);
    FirstUnmatchedIsFirst(rows, es, m);
    var u := FirstUnmatched(rows, es, k).value;
    assert !Matched(rows, es, u);
    var r := FirstUnmatched(rows, es, m);
    if r.Some? {
      assert !(r.value < u) && !(u < r.value);
    }
  }

  /** With one settings file every visited circuit DER finds its entry. */
  lemma OneFileMatchesEveryRow(rows: seq<CircuitDer>, f: DerFile)
    ensures var es := Entries(OneFile(f), rows);
      FirstUnmatched(rows, es, Min(|rows|, |es|)) == None
  {
    var keys := Dedup(NamesOf(rows));
    DedupKeys(NamesOf(rows));
    var es := Entries(OneFile(f), rows);
    forall i | 0 <= i < Min(|rows|, |es|)
      ensures Matched(rows, es, i)
    {
      var name := rows[i].name;
      assert NamesOf(rows)[i] == name;
      assert name in keys;
      var p :| 0 <= p < |keys| && keys[p] == name;
      assert es[p] == (name, f);
      RowMatchesMembers(name, es);
      assert es[p] in RowMatches(name, es);
    }
    FirstUnmatchedIsFirst(rows, es, Min(|rows|, |es|));
  }

  /** With one settings file the walk visits one circuit DER per distinct
      name, hence all of them when the names are distinct. */
  lemma OneFileVisits(rows: seq<CircuitDer>, f: DerFile)
    ensures var es := Entries(OneFile(f), rows);
      Min(|rows|, |es|) == |Dedup(NamesOf(rows))|
    ensures (forall i, j :: 0 <= i < j < |rows| ==> rows[i].name != rows[j].name) ==>
      Min(|rows|, |Entries(OneFile(f), rows)|) == |rows|
  {
    var names := NamesOf(rows);
    DedupKeys(names);
    if forall i, j :: 0 <= i < j < |rows| ==> rows[i].name != rows[j].name {
      assert forall i, j :: 0 <= i < j < |names| ==> names[i] != names[j];
    }
  }

  /** Every object made comes from a visited circuit DER and from an entry
      whose key matches that DER's name case-insensitively: it carries the
      DER's name and bus, the DER class picked by the name, the entry's
      settings with the DC and AC nominal voltages taken from the circuit's kV,
      and the initial power routed by class at 60 Hz. */
  lemma {:induction false} CreatedFromMatches(rows: seq<CircuitDer>, es: seq<(string, DerFile)>, pPu: real, k: nat)
    requires k <= |rows|
    ensures forall o :: o in Created(rows, es, pPu, k) ==>
      exists i, m :: (0 <= i < k && m in es && NameMatch(m.0, rows[i].name) &&
        o == NewDer(rows[i], m.1, pPu))
  {
    if k > 0 {
      CreatedFromMatches(rows, es, pPu, k - 1);
      var ms := RowMatches(rows[k - 1].name, es);
      RowMatchesMembers(rows[k - 1].name, es);
      RowObjectsFrom(rows[k - 1], ms, pPu);
      forall o | o in Created(rows, es, pPu, k)
        ensures exists i, m :: (0 <= i < k && m in es && NameMatch(m.0, rows[i].name) &&
          o == NewDer(rows[i], m.1, pPu))
      {
        if o in Created(rows, es, pPu, k - 1) {
          var i, m :| 0 <= i < k - 1 && m in es && NameMatch(m.0, rows[i].name) && o == NewDer(rows[i], m.1, pPu);
          assert 0 <= i < k;
        } else {
          assert o in RowObjects(rows[k - 1], ms, pPu);
          var m :| m in ms && o == NewDer(rows[k - 1], m.1, pPu);
          assert m in es && NameMatch(m.0, rows[k - 1].name);
        }
      }
    }
  }

  /** The inner walk over the entries for one circuit DER: one new object and
      one circuit-information update per entry whose key matches the DER's
      name, in entry order. The DER is matched when at least one was made. */
  method MatchRow(row: CircuitDer, es: seq<(string, DerFile)>, pPu: real)
    returns (objs: seq<DerObj>, log: seq<Event>)
    ensures objs == RowObjects(row, RowMatches(row.name, es), pPu)
    ensures log == RowCalls(row, RowMatches(row.name, es))
  {
    objs := [];
    log := [];
    var j := 0;
    while j < |es|
      invariant 0 <= j <= |es|
      invariant objs == RowObjects(row, RowMatches(row.name, es[..j]), pPu)
      invariant log == RowCalls(row, RowMatches(row.name, es[..j]))
    {
      assert es[..j + 1][..j] == es[..j];
      var (key, file) := es[j];
      ghost var ms := RowMatches(row.name, es[..j]);
      if Upper(key) == Upper(row.name) {
        assert RowMatches(row.name, es[..j + 1]) == ms + [es[j]];
        assert (ms + [es[j]])[..|ms|] == ms;
        log := log + [UpdateDerInfo(key, KindForName(row.name), file)];
        objs := objs + [NewDer(row, file, pPu)];
      } else {
        assert RowMatches(row.name, es[..j + 1]) == ms;
      }
      j := j + 1;
    }
    assert es[..|es|] == es;
  }

  /** The outer walk over the first min(#circuit DERs, #entries) circuit
      DERs, stopping at the first one no entry matches: the objects and
      updates made before the stop, and where it stopped. */
  method WalkRows(rows: seq<CircuitDer>, es: seq<(string, DerFile)>, pPu: real)
    returns (objs: seq<DerObj>, log: seq<Event>, miss: Option<nat>)
    ensures miss == FirstUnmatched(rows, es, Min(|rows|, |es|))
    ensures var k := if miss.Some? then miss.value else Min(|rows|, |es|);
      objs == Created(rows, es, pPu, k) && log == CreatedCalls(rows, es, k)
  {
    var visit := Min(|rows|, |es|);
    objs := [];
    log := [];
    miss := None;
    var i := 0;
    while i < visit && miss == None
      invariant 0 <= i <= visit
      invariant miss == None ==> FirstUnmatched(rows, es, i) == None
      invariant miss.Some? ==> i < visit && miss == Some(i) && FirstUnmatched(rows, es, i + 1) == miss
      invariant objs == Created(rows, es, pPu, i) && log == CreatedCalls(rows, es, i)
      decreases visit - i, if miss == None then 1 else 0
    {
      var rowObjs, rowLog := MatchRow(rows[i], es, pPu);
      assert FirstUnmatched(rows, es, i + 1) == if |rowObjs| == 0 then Some(i) else None;
      if |rowObjs| == 0 {
        miss := Some(i);
      } else {
        objs := objs + rowObjs;
        log := log + rowLog;
        i := i + 1;
      }
    }
    if miss.Some? {
      FirstUnmatchedStays(rows, es, i + 1, visit);
    }
  }

  // ---------------------------------------------------------------------------
  // Per-unit power inputs

  /** A DER's input after `update_der_p_pu`: demanded power for a battery,
      available DC power otherwise, and 60 Hz. */
  function WithPowerInput(o: DerObj, p: real): (r: DerObj)
    ensures r.kind == o.kind && r.name == o.name && r.bus == o.bus && r.file == o.file && r.time == o.time
    ensures r.freq == Some(60.0)
    ensures o.kind == BESS ==> r.pDemPu == Some(p) && r.pDcPu == o.pDcPu
    ensures o.kind != BESS ==> r.pDcPu == Some(p) && r.pDemPu == o.pDemPu
  {
    if o.kind == BESS then o.(pDemPu := Some(p), freq := Some(60.0))
    else o.(pDcPu := Some(p), freq := Some(60.0))
  }

  /** Values are paired with DERs by position; DERs past the end of the list
      keep their inputs. */
  function RoutePowers(objs: seq<DerObj>, ps: seq<real>): (r: seq<DerObj>)
    ensures |r| == |objs|
    ensures forall i :: 0 <= i < |objs| && i < |ps| ==> r[i] == WithPowerInput(objs[i], ps[i])
    ensures forall i :: |ps| <= i < |objs| ==> r[i] == objs[i]
  {
    seq(|objs|, i requires 0 <= i < |objs| => if i < |ps| then WithPowerInput(objs[i], ps[i]) else objs[i])
  }

  /** Giving the same values twice is the same as giving them once. */
  lemma RoutePowersIdempotent(objs: seq<DerObj>, ps: seq<real>)
    ensures RoutePowers(RoutePowers(objs, ps), ps) == RoutePowers(objs, ps)
  {
    var once := RoutePowers(objs, ps);
    var twice := RoutePowers(once, ps);
    forall i | 0 <= i < |objs|
      ensures twice[i] == once[i]
    {
      if i < |ps| {
        assert once[i] == WithPowerInput(objs[i], ps[i]);
      }
    }
  }

  // ---------------------------------------------------------------------------
  // Regulator taps

  /** A regulator model as the interface holds it: the circuit name it is
      looked up by, its settings and its controller state. */
  datatype VrHandle = VrHandle(name: string, cfg: VR.Config, st: VR.State)
  {
    /** The tap position `vr.tap`. */
    function Tap(): real
    {
      st.tap
    }

    /** The same regulator with its tap position set to `t`. */
    function WithTap(t: real): VrHandle
    {
      this.(st := st.(tap := t))
    }
  }

  type VrTable = map<string, map<string, real>>

  /** `VRs[vr.name]['tapPos'] = vr.tap` for each regulator in order; a name the
      table lacks stops the loop with a KeyError (returned as that name),
      keeping the writes made before it. */
  function WriteTaps(table: VrTable, vrs: seq<VrHandle>): (r: (VrTable, Option<string>))
    ensures r.0.Keys == table.Keys
    ensures r.1 == None <==> forall k :: 0 <= k < |vrs| ==> vrs[k].name in table
    ensures r.1.Some? ==> r.1.value !in table
    decreases |vrs|
  {
    if |vrs| == 0 then (table, None)
    else if vrs[0].name !in table then (table, Some(vrs[0].name))
    else
      var entry := table[vrs[0].name];
      var rest := WriteTaps(table[vrs[0].name := entry["tapPos" := vrs[0].Tap()]], vrs[1..]);
      assert forall k :: 1 <= k < |vrs| ==> vrs[k] == vrs[1..][k - 1];
      rest
  }

  /** A tap the table holds for a regulator, if any. */
  predicate HasTap(table: VrTable, name: string)
  {
    name in table && "tapPos" in table[name]
  }

  /** `vr.tap = VRs[vr.name]['tapPos']` for each regulator in order; a missing
      name or a missing `tapPos` stops the loop with a KeyError, keeping the
      taps read before it. */
  function ReadTaps(table: VrTable, vrs: seq<VrHandle>): (r: (seq<VrHandle>, Option<string>))
    ensures |r.0| == |vrs|
  {
    ReadTapsAfter(table, [], vrs)
  }

  /** Reading the taps of `rest` when those of `done` are already read. */
  function ReadTapsAfter(table: VrTable, done: seq<VrHandle>, rest: seq<VrHandle>): (r: (seq<VrHandle>, Option<string>))
    ensures |r.0| == |done| + |rest|
    decreases |rest|
  {
    if |rest| == 0 then (done, None)
    else if !HasTap(table, rest[0].name) then (done + rest, Some(rest[0].name))
    else ReadTapsAfter(table, done + [rest[0].WithTap(table[rest[0].name]["tapPos"])], rest[1..])
  }

  /** Reading taps keeps every regulator's name in its place. */
  lemma {:induction false} ReadTapsKeepsNames(table: VrTable, done: seq<VrHandle>, rest: seq<VrHandle>)
    ensures forall k :: 0 <= k < |done| + |rest| ==>
      ReadTapsAfter(table, done, rest).0[k].name == (done + rest)[k].name
    decreases |rest|
  {
    if |rest| > 0 && HasTap(table, rest[0].name) {
      var v := rest[0].WithTap(table[rest[0].name]["tapPos"]);
      ReadTapsKeepsNames(table, done + [v], rest[1..]);
      forall k | 0 <= k < |done| + |rest|
        ensures (done + [v] + rest[1..])[k].name == (done + rest)[k].name
      {
        if k > |done| {
          assert (done + [v] + rest[1..])[k] == rest[k - |done|];
        }
      }
    }
  }

  /** When the table holds each regulator's own tap, reading gives the
      regulators back unchanged and no error. */
  lemma {:induction false} ReadOwnTaps(table: VrTable, done: seq<VrHandle>, rest: seq<VrHandle>)
    requires forall k :: 0 <= k < |rest| ==> HasTap(table, rest[k].name) && table[rest[k].name]["tapPos"] == rest[k].Tap()
    ensures ReadTapsAfter(table, done, rest) == (done + rest, None)
    decreases |rest|
  {
    if |rest| > 0 {
      assert rest[0].WithTap(table[rest[0].name]["tapPos"]) == rest[0];
      assert forall k :: 0 <= k < |rest[1..]| ==> rest[1..][k] == rest[k + 1];
      ReadOwnTaps(table, done + [rest[0]], rest[1..]);
      assert done + [rest[0]] + rest[1..] == done + rest;
    } else {
      assert done + rest == done;
    }
  }

  predicate DistinctVrNames(vrs: seq<VrHandle>)
  {
    forall i, j :: 0 <= i < j < |vrs| ==> vrs[i].name != vrs[j].name
  }

  /** Writing never touches the entry of a regulator not written. */
  lemma {:induction false} WriteTapsOther(table: VrTable, vrs: seq<VrHandle>, name: string)
    requires name in table && forall k :: 0 <= k < |vrs| ==> vrs[k].name != name
    ensures name in WriteTaps(table, vrs).0 && WriteTaps(table, vrs).0[name] == table[name]
    decreases |vrs|
  {
    if |vrs| > 0 && vrs[0].name in table {
      var entry := table[vrs[0].name];
      WriteTapsOther(table[vrs[0].name := entry["tapPos" := vrs[0].Tap()]], vrs[1..], name);
    }
  }

  /** Writing regulators with distinct names that the table knows leaves
      each regulator's own tap in the table. */
  lemma {:induction false} WriteTapsSets(table: VrTable, vrs: seq<VrHandle>)
    requires DistinctVrNames(vrs)
    requires forall k :: 0 <= k < |vrs| ==> vrs[k].name in table
    ensures forall k :: 0 <= k < |vrs| ==>
      HasTap(WriteTaps(table, vrs).0, vrs[k].name) && WriteTaps(table, vrs).0[vrs[k].name]["tapPos"] == vrs[k].Tap()
    decreases |vrs|
  {
    if |vrs| > 0 {
      var v := vrs[0];
      var t1 := table[v.name := table[v.name]["tapPos" := v.Tap()]];
      var rest := vrs[1..];
      assert forall k :: 0 <= k < |rest| ==> rest[k] == vrs[k + 1];
      WriteTapsSets(t1, rest);
      WriteTapsOther(t1, rest, v.name);
    }
  }

  /** For regulators with distinct names that the table knows, writing the taps
      and reading them back gives the same regulators and no error. */
  lemma WriteThenReadTaps(table: VrTable, vrs: seq<VrHandle>)
    requires DistinctVrNames(vrs)
    requires forall k :: 0 <= k < |vrs| ==> vrs[k].name in table
    ensures WriteTaps(table, vrs).1 == None
    ensures ReadTaps(WriteTaps(table, vrs).0, vrs) == (vrs, None)
  {
    WriteTapsSets(table, vrs);
    ReadOwnTaps(WriteTaps(table, vrs).0, [], vrs);
    assert [] + vrs == vrs;
  }

  // ---------------------------------------------------------------------------
  // Regulator ticks

  /** What `read_vr_v_i(name)` reports: the regulator's primary voltage and
      current phasors. */
  datatype VrReading = VrReading(vpri: seq<Complex>, ipri: seq<Complex>)

  /** `vr.run(Vpri=…, Ipri=…)` without a supplied `Vreg`: one controller step
      on the voltage the reading conditions to, or the error conditioning
      raises. `mag` is the complex absolute value. */
  function Tick(h: VrHandle, at: VrReading, mag: Complex -> real): (r: Result<VrHandle, VR.VRError>)
    ensures r.Err? <==> VR.RegulatingVoltage(h.cfg, None, at.vpri, at.ipri, mag).Err?
    ensures r.Ok? ==> r.value.name == h.name && r.value.cfg == h.cfg
  {
    match VR.RegulatingVoltage(h.cfg, None, at.vpri, at.ipri, mag)
    case Err(e) => Err(e)
    case Ok(v) => Ok(h.(st := VR.Step(h.cfg, h.st, v)))
  }

  /** The regulator loop of `run` over the first `i` regulators, in order,
      each on what `vrAt(ws, name)` reports for it, the circuit once the
      writes `ws` are in: the first failing tick stops the loop with its
      error, leaving the regulators before it ticked and the rest untouched. */
  function TickFirst(vrs: seq<VrHandle>, vrAt: (seq<Write>, string) -> VrReading, ws: seq<Write>,
                     mag: Complex -> real, i: nat): (r: (seq<VrHandle>, Option<VR.VRError>))
    requires i <= |vrs|
    ensures |r.0| == |vrs|
    decreases i
  {
    if i == 0 then (vrs, None)
    else
      var p := TickFirst(vrs, vrAt, ws, mag, i - 1);
      if p.1.Some? then p
      else
        match Tick(vrs[i - 1], vrAt(ws, vrs[i - 1].name), mag)
        case Err(e) => (p.0, Some(e))
        case Ok(h) => (p.0[i - 1 := h], None)
  }

  /** The whole regulator loop of `run`. */
  function TickAll(vrs: seq<VrHandle>, vrAt: (seq<Write>, string) -> VrReading, ws: seq<Write>,
                   mag: Complex -> real): (r: (seq<VrHandle>, Option<VR.VRError>))
    ensures |r.0| == |vrs|
  {
    TickFirst(vrs, vrAt, ws, mag, |vrs|)
  }

  /** The regulators after the calls of `run` in the convergence loop that
      issued the writes `ws`: the call before write `k` reads the circuit
      after the writes `ws[..k]`. A call that fails ends the process, so no
      later call happens. */
  function Rounds(vrs: seq<VrHandle>, vrAt: (seq<Write>, string) -> VrReading, ws: seq<Write>,
                  mag: Complex -> real): (r: (seq<VrHandle>, Option<VR.VRError>))
    ensures |r.0| == |vrs|
    decreases |ws|
  {
    if |ws| == 0 then (vrs, None)
    else
      var p := Rounds(vrs, vrAt, ws[..|ws| - 1], mag);
      if p.1.Some? then p else TickAll(p.0, vrAt, ws[..|ws| - 1], mag)
  }

  /** One regulator ticked on its own readings after the write prefixes
      `ws[..0]`, …, `ws[..|ws|-1]`, or the first error. */
  function TickedAlone(h: VrHandle, vrAt: (seq<Write>, string) -> VrReading, ws: seq<Write>,
                       mag: Complex -> real): Result<VrHandle, VR.VRError>
    decreases |ws|
  {
    if |ws| == 0 then Ok(h)
    else
      match TickedAlone(h, vrAt, ws[..|ws| - 1], mag)
      case Err(e) => Err(e)
      case Ok(g) => Tick(g, vrAt(ws[..|ws| - 1], h.name), mag)
  }

  /** The loop goes through the regulators in order: the first `i` are ticked
      (or the loop stopped at the failing one), the rest untouched, and every
      regulator keeps its name and settings. */
  lemma {:induction false} TickFirstShape(vrs: seq<VrHandle>, vrAt: (seq<Write>, string) -> VrReading,
                                          ws: seq<Write>, mag: Complex -> real, i: nat)
    requires i <= |vrs|
    ensures var r := TickFirst(vrs, vrAt, ws, mag, i);
      (forall k :: 0 <= k < |vrs| ==> r.0[k].name == vrs[k].name && r.0[k].cfg == vrs[k].cfg) &&
      (r.1 == None ==> forall k :: 0 <= k < i ==> Tick(vrs[k], vrAt(ws, vrs[k].name), mag) == Ok(r.0[k])) &&
      (r.1 == None ==> forall k :: i <= k < |vrs| ==> r.0[k] == vrs[k])
    decreases i
  {
    if i > 0 {
      TickFirstShape(vrs, vrAt, ws, mag, i - 1);
    }
  }

  /** Once a tick failed, the loop result no longer changes. */
  lemma {:induction false} TickFirstStops(vrs: seq<VrHandle>, vrAt: (seq<Write>, string) -> VrReading,
                                          ws: seq<Write>, mag: Complex -> real, i: nat, m: nat)
    requires i <= m <= |vrs| && TickFirst(vrs, vrAt, ws, mag, i).1.Some?
    ensures TickFirst(vrs, vrAt, ws, mag, m) == TickFirst(vrs, vrAt, ws, mag, i)
    decreases m
  {
    if m > i {
      TickFirstStops(vrs, vrAt, ws, mag, i, m - 1);
    }
  }

  /** Without a failure, every regulator has ticked exactly once per call of
      `run`, each time on its own reading after the writes so far, and keeps
      its name and settings. */
  lemma {:induction false} RoundsPerRegulator(vrs: seq<VrHandle>, vrAt: (seq<Write>, string) -> VrReading,
                                              ws: seq<Write>, mag: Complex -> real)
    ensures var r := Rounds(vrs, vrAt, ws, mag);
      forall k :: 0 <= k < |vrs| ==> r.0[k].name == vrs[k].name && r.0[k].cfg == vrs[k].cfg
    ensures var r := Rounds(vrs, vrAt, ws, mag);
      r.1 == None ==> forall k :: 0 <= k < |vrs| ==> TickedAlone(vrs[k], vrAt, ws, mag) == Ok(r.0[k])
    decreases |ws|
  {
    if |ws| > 0 {
      var front := ws[..|ws| - 1];
      RoundsPerRegulator(vrs, vrAt, front, mag);
      var p := Rounds(vrs, vrAt, front, mag);
      if p.1.None? {
        TickFirstShape(p.0, vrAt, front, mag, |p.0|);
      }
    }
  }

  /** A regulator whose tap is a whole position within whole limits. */
  predicate InLimits(h: VrHandle)
  {
    VR.Whole(h.Tap()) && VR.Whole(h.cfg.tapMin) && VR.Whole(h.cfg.tapMax) &&
    h.cfg.tapMin <= h.Tap() <= h.cfg.tapMax
  }

  /** Ticking keeps a regulator within its limits. */
  lemma {:induction false} TickedAloneInLimits(h: VrHandle, vrAt: (seq<Write>, string) -> VrReading,
                                               ws: seq<Write>, mag: Complex -> real)
    requires InLimits(h)
    ensures TickedAlone(h, vrAt, ws, mag).Ok? ==> InLimits(TickedAlone(h, vrAt, ws, mag).value)
    decreases |ws|
  {
    if |ws| > 0 {
      var front := ws[..|ws| - 1];
      TickedAloneInLimits(h, vrAt, front, mag);
      var g := TickedAlone(h, vrAt, front, mag);
      if g.Ok? {
        var at := vrAt(front, h.name);
        var v := VR.RegulatingVoltage(g.value.cfg, None, at.vpri, at.ipri, mag);
        if v.Ok? {
          VR.StepWithinLimits(g.value.cfg, g.value.st, v.value);
        }
      }
    }
  }

  /** The regulator loop of `run`: each regulator in order is ticked on its
      reading; the first failure stops the loop. */
  method TickVrs(vrs: seq<VrHandle>, vrAt: (seq<Write>, string) -> VrReading, ws: seq<Write>, mag: Complex -> real)
    returns (r: seq<VrHandle>, err: Option<VR.VRError>)
    ensures (r, err) == TickAll(vrs, vrAt, ws, mag)
  {
    r := vrs;
    err := None;
    var i := 0;
    while i < |vrs| && err.None?
      invariant 0 <= i <= |vrs|
      invariant (r, err) == TickFirst(vrs, vrAt, ws, mag, i)
    {
      var t := Tick(vrs[i], vrAt(ws, vrs[i].name), mag);
      TickFirstNext(vrs, vrAt, ws, mag, i, t);
      if t.Err? {
        err := Some(t.error);
      } else {
        r := r[i := t.value];
      }
      i := i + 1;
    }
    if err.Some? {
      TickFirstStops(vrs, vrAt, ws, mag, i, |vrs|);
    }
  }

  lemma TickFirstNext(vrs: seq<VrHandle>, vrAt: (seq<Write>, string) -> VrReading, ws: seq<Write>,
                      mag: Complex -> real, i: nat, t: Result<VrHandle, VR.VRError>)
    requires i < |vrs| && TickFirst(vrs, vrAt, ws, mag, i).1 == None
    requires t == Tick(vrs[i], vrAt(ws, vrs[i].name), mag)
    ensures t.Err? ==> TickFirst(vrs, vrAt, ws, mag, i + 1) == (TickFirst(vrs, vrAt, ws, mag, i).0, Some(t.error))
    ensures t.Ok? ==> TickFirst(vrs, vrAt, ws, mag, i + 1) == (TickFirst(vrs, vrAt, ws, mag, i).0[i := t.value], None)
  {
  }

  // ---------------------------------------------------------------------------
  // The interface object

  class DERInterface {
    const ckt: Circuit
    const tS: real

    // the circuit's DER and regulator tables, and the calls made into it
    var cktDers: seq<CircuitDer>
    var cktVrs: VrTable
    var calls: seq<Event>

    var derObjs: seq<DerObj>
    var vrObjs: seq<VrHandle>
    var derObjsTemp: seq<DerObj>
    var derBus: seq<string>

    /** The private convergence lists (number of DERs, the DERs' mode
        settings, flags, outputs, history, damping flags, first-iteration
        marker and damping factors), one record field per list. */
    var lists: Book

    /** One list entry per DER object. */
    predicate Valid()
      reads this
    {
      Sized(lists) && |derObjs| == lists.n && |derBus| == lists.n
    }

    /** A new interface on an already selected circuit: no DERs, no
        regulators, damping factors 0.2 for Q and 0.5 for P. */
    constructor(ckt: Circuit, tS: real, cktDers: seq<CircuitDer>, cktVrs: VrTable)
      ensures Valid()
      ensures this.ckt == ckt && this.tS == tS
      ensures this.cktDers == cktDers && this.cktVrs == cktVrs && calls == []
      ensures derObjs == [] && derObjsTemp == [] && vrObjs == [] && derBus == []
      ensures lists.n == 0 && !lists.converged && lists.deltaQ == 0.2 && lists.deltaP == 0.5
    {
      this.ckt := ckt;
      this.tS := tS;
      this.cktDers := cktDers;
      this.cktVrs := cktVrs;
      calls := [];
      derObjs := [];
      vrObjs := [];
      derObjsTemp := [];
      derBus := [];
      lists := Book(0, [], false, [], [], [], [], [], [], [], [], [], [], [], [], [], false, 0.2, 0.5);
    }

    /** Creates one OpenDER object per matching (circuit DER, entry) pair over
        the first min(#circuit DERs, #entries) circuit DERs, appending them to
        `derObjs` and reporting each to the circuit. The first visited circuit
        DER with no matching entry stops the walk with an error, keeping what
        was appended before it. On success the convergence lists are rebuilt
        for all objects. */
    method CreateOpenderObjs(config: DerConfig, pPu: real) returns (r: Result<seq<DerObj>, CreateError>)
      requires Valid()
      modifies this`derObjs, this`calls, this`derBus, this`lists
      ensures r.Ok? ==> Valid()
      ensures var es := Entries(config, cktDers);
        match FirstUnmatched(cktDers, es, Min(|cktDers|, |es|))
        case Some(i) =>
          r == Err(NoConfigurationFor(cktDers[i].name)) &&
          derObjs == old(derObjs) + Created(cktDers, es, pPu, i) &&
          calls == old(calls) + CreatedCalls(cktDers, es, i) &&
          derBus == old(derBus) && lists == old(lists)
        case None =>
          r == Ok(derObjs) &&
          derObjs == old(derObjs) + Created(cktDers, es, pPu, Min(|cktDers|, |es|)) &&
          calls == old(calls) + CreatedCalls(cktDers, es, Min(|cktDers|, |es|)) &&
          derBus == BusesOf(derObjs) && lists == FreshBook(old(lists), ModesOf(FilesOf(derObjs)))
    {
      var es := Entries(config, cktDers);
      var objs, log, miss := WalkRows(cktDers, es, pPu);
      derObjs := derObjs + objs;
      calls := calls + log;
      if miss.Some? {
        r := Err(NoConfigurationFor(cktDers[miss.value].name));
        return;
      }
      var n := |derObjs|;
      derBus := BusesOf(derObjs);
      lists := lists.(n := n, modes := ModesOf(FilesOf(derObjs)), converged := false,
        vConverged := Falses(n), qConverged := Falses(n), pConverged := Falses(n),
        pOut := Zeros(n), qOut := Zeros(n), pInv := Zeros(n), qInv := Zeros(n),
        pPrevious := Zeros(n), qPrevious := Zeros(n), currentV := Zeros(n), previousV := Zeros(n),
        pCheck := Falses(n), qCheck := Falses(n));
      r := Ok(derObjs);
    }

    /** Routes per-unit powers to the DERs by position. */
    method UpdateDerPPu(ps: seq<real>)
      requires Valid()
      modifies this`derObjs
      ensures Valid() && derObjs == RoutePowers(old(derObjs), ps)
    {
      var objs := derObjs;
      var i := 0;
      while i < Min(|derObjs|, |ps|)
        invariant 0 <= i <= Min(|derObjs|, |ps|)
        invariant |objs| == |derObjs|
        invariant forall k :: 0 <= k < i ==> objs[k] == WithPowerInput(derObjs[k], ps[k])
        invariant forall k :: i <= k < |objs| ==> objs[k] == derObjs[k]
      {
        var der := objs[i];
        if der.kind == BESS {
          objs := objs[i := der.(pDemPu := Some(ps[i]), freq := Some(60.0))];
        } else {
          objs := objs[i := der.(pDcPu := Some(ps[i]), freq := Some(60.0))];
        }
        i := i + 1;
      }
      assert objs == RoutePowers(derObjs, ps);
      derObjs := objs;
    }

    /** Writes every regulator's tap into the circuit table, then asks the
        circuit to apply them; a regulator the table lacks fails with its name
        before the circuit is asked. */
    method WriteVrTaps() returns (r: Result<(), string>)
      modifies this`cktVrs, this`calls
      ensures var w := WriteTaps(old(cktVrs), vrObjs);
        cktVrs == w.0 &&
        (w.1.Some? ==> r == Err(w.1.value) && calls == old(calls)) &&
        (w.1.None? ==> r == Ok(()) && calls == old(calls) + [WriteVr])
    {
      var table := cktVrs;
      var i := 0;
      assert vrObjs[0..] == vrObjs;
      while i < |vrObjs|
        invariant 0 <= i <= |vrObjs|
        invariant WriteTaps(cktVrs, vrObjs) == WriteTaps(table, vrObjs[i..])
      {
        var vr := vrObjs[i];
        assert vrObjs[i..][1..] == vrObjs[i + 1..];
        if vr.name !in table {
          cktVrs := table;
          r := Err(vr.name);
          return;
        }
        table := table[vr.name := table[vr.name]["tapPos" := vr.Tap()]];
        i := i + 1;
      }
      cktVrs := table;
      calls := calls + [WriteVr];
      r := Ok(());
    }

    /** Reads every regulator's tap back from the circuit table; a missing
        entry fails with the regulator's name, keeping the taps read before it. */
    method UpdateVrTap() returns (r: Result<(), string>)
      modifies this`vrObjs
      ensures var t := ReadTaps(cktVrs, old(vrObjs));
        vrObjs == t.0 && (t.1.Some? ==> r == Err(t.1.value)) && (t.1.None? ==> r == Ok(()))
    {
      var done: seq<VrHandle> := [];
      var rest := vrObjs;
      var err: Option<string> := None;
      while |rest| > 0 && err == None
        invariant err == None ==> ReadTaps(cktVrs, vrObjs) == ReadTapsAfter(cktVrs, done, rest)
        invariant err.Some? ==> ReadTaps(cktVrs, vrObjs) == (done + rest, err)
        decreases |rest|, if err == None then 1 else 0
      {
        var vr := rest[0];
        if vr.name !in cktVrs || "tapPos" !in cktVrs[vr.name] {
          err := Some(vr.name);
        } else {
          done := done + [vr.WithTap(cktVrs[vr.name]["tapPos"])];
          rest := rest[1..];
        }
      }
      vrObjs := done + rest;
      r := if err.Some? then Err(err.value) else Ok(());
    }

    // -------------------------------------------------------------------------
    // Convergence helpers: each reassigns the lists as its `ConvergenceRules`
    // counterpart describes.

    method ResetConverged()
      requires Valid()
      modifies this`lists
      ensures Valid() && lists == Reset(old(lists))
    {
      lists := lists.(converged := false, vConverged := Falses(|derObjs|),
                      qConverged := Falses(|derObjs|), pConverged := Falses(|derObjs|));
    }

    method CheckQFlags()
      requires Valid()
      modifies this`lists
      ensures Valid() && lists == CheckQ(old(lists))
    {
      var flags := lists.qCheck;
      var i := 0;
      while i < lists.n
        invariant 0 <= i <= lists.n && |flags| == lists.n
        invariant forall k :: 0 <= k < i ==> (flags[k] <==> lists.qCheck[k] || QEnabled(lists.modes[k]))
        invariant forall k :: i <= k < lists.n ==> flags[k] == lists.qCheck[k]
      {
        if lists.modes[i].qpModeEnable || lists.modes[i].qvModeEnable {
          flags := flags[i := true];
        }
        i := i + 1;
      }
      lists := lists.(qCheck := flags);
    }

    method CheckPFlags()
      requires Valid()
      modifies this`lists
      ensures Valid() && lists == CheckP(old(lists))
    {
      var flags := lists.pCheck;
      var i := 0;
      while i < lists.n
        invariant 0 <= i <= lists.n && |flags| == lists.n
        invariant forall k :: 0 <= k < i ==> (flags[k] <==> lists.pCheck[k] || PEnabled(lists.modes[k]))
        invariant forall k :: i <= k < lists.n ==> flags[k] == lists.pCheck[k]
      {
        if lists.modes[i].pvModeEnable {
          flags := flags[i := true];
        }
        i := i + 1;
      }
      lists := lists.(pCheck := flags);
    }

    method InitializeConvergenceLists()
      requires Valid()
      modifies this`lists
      ensures Valid() && lists == InitializeConvergence(old(lists))
    {
      lists := lists.(firstIteration := true);
      ResetConverged();
      lists := lists.(pCheck := Falses(|derObjs|), qCheck := Falses(|derObjs|));
      CheckPFlags();
      CheckQFlags();
    }

    /** Marks `flags[i]` for every DER whose two values are within `tol`. */
    static method MarkCriteria(flags: seq<bool>, a: seq<real>, b: seq<real>, tol: real) returns (r: seq<bool>)
      requires |a| >= |flags| && |b| >= |flags|
      ensures r == MarkWithin(flags, a, b, tol)
    {
      r := flags;
      var i := 0;
      while i < |flags|
        invariant 0 <= i <= |flags| && |r| == |flags|
        invariant forall k :: 0 <= k < i ==> (r[k] <==> flags[k] || Abs(a[k] - b[k]) <= tol)
        invariant forall k :: i <= k < |flags| ==> r[k] == flags[k]
      {
        if Abs(a[i] - b[i]) <= tol {
          r := r[i := true];
        }
        i := i + 1;
      }
    }

    method CheckConvergedFlags()
      requires Valid()
      modifies this`lists
      ensures Valid() && lists == CheckConverged(old(lists))
    {
      var v := MarkCriteria(lists.vConverged, lists.currentV, lists.previousV, VTolerance);
      lists := lists.(vConverged := v);
      var p := MarkCriteria(lists.pConverged, lists.pOut, lists.pInv, PTolerance);
      lists := lists.(pConverged := p);
      var q := MarkCriteria(lists.qConverged, lists.qOut, lists.qInv, QTolerance);
      lists := lists.(qConverged := q);
      if AllTrue(lists.vConverged) && AllTrue(lists.qConverged) && AllTrue(lists.pConverged) {
        lists := lists.(converged := true);
      }
    }

    method CalculateQOutputs()
      requires Valid()
      modifies this`lists
      ensures Valid() && lists == CalculateQOut(old(lists))
    {
      if |lists.qCheck| > 0 {
        lists := lists.(qOut := Damped(lists.qInv, lists.qPrevious, lists.deltaQ));
      } else {
        lists := lists.(qOut := lists.qInv);
      }
    }

    method CalculatePOutputs()
      requires Valid()
      modifies this`lists
      ensures Valid() && lists == CalculatePOut(old(lists))
    {
      if |lists.pCheck| > 0 {
        lists := lists.(pOut := Damped(lists.pInv, lists.pPrevious, lists.deltaP));
      } else {
        lists := lists.(qOut := lists.qInv);
      }
    }

    /** One iteration on the copies' evaluation `samples`, as `Iteration` describes. */
    method ConvergenceIteration(samples: seq<Sample>)
      requires Valid() && |samples| == lists.n
      modifies this`lists
      ensures Valid() && lists == Iteration(old(lists), samples)
    {
      ResetConverged();
      lists := lists.(pInv := ActivePowers(samples), qInv := ReactivePowers(samples), currentV := Voltages(samples));
      if !lists.firstIteration {
        CalculatePOutputs();
        CalculateQOutputs();
        CheckConvergedFlags();
        lists := lists.(previousV := lists.currentV, pPrevious := lists.pOut, qPrevious := lists.qOut);
      } else {
        lists := lists.(firstIteration := false, previousV := lists.currentV,
                        pPrevious := lists.pInv, qPrevious := lists.qInv,
                        pOut := lists.pInv, qOut := lists.qInv);
      }
    }

    /** `run` on the DER objects themselves: every DER paired with the
        reading `t` gets its terminal voltage and angle and is evaluated,
        then every regulator is ticked in order on what `vrAt(ws, name)`
        reports for it; a failing tick stops the regulator loop with its
        error. */
    method Run(t: Terminals, vrAt: (seq<Write>, string) -> VrReading, ws: seq<Write>, mag: Complex -> real)
      returns (r: Result<(), VR.VRError>)
      requires Valid()
      modifies this`derObjs, this`vrObjs, this`calls
      ensures Valid()
      ensures derObjs == WithVoltages(old(derObjs), t)
      ensures var k := TickAll(old(vrObjs), vrAt, ws, mag);
        vrObjs == k.0 && (r.Err? <==> k.1.Some?) && (r.Err? ==> r.error == k.1.value)
      ensures calls == old(calls) + [RunDers(false)]
    {
      derObjs := UpdateInputs(derObjs, t);
      calls := calls + [RunDers(false)];
      var vrs, err := TickVrs(vrObjs, vrAt, ws, mag);
      vrObjs := vrs;
      r := if err.Some? then Err(err.value) else Ok(());
    }

    /** The convergence process. Each iteration deep-copies the DER objects,
        runs the copies on the terminal voltages `read` reports after the
        writes so far (ticking the regulators too), updates the lists, writes
        the copies' damped outputs and solves; it stops after the first
        converged iteration or after `MaxIterations`. Then the real DER
        objects are run, their own outputs written and the circuit solved
        once more. A failing regulator tick ends the process with its error;
        otherwise the damped outputs are returned when the process converged.
        `start` is the lists the loop starts from and `log` the calls made. */
    method DerConvergenceProcess(probe: (seq<Write>, nat) -> Sample, read: seq<Write> -> Terminals,
                                 vrAt: (seq<Write>, string) -> VrReading, mag: Complex -> real)
      returns (r: Result<Option<(seq<real>, seq<real>)>, VR.VRError>,
               ghost iterations: nat, writes: seq<Write>, ghost start: Book, log: seq<Event>)
      requires Valid()
      modifies this`lists, this`derObjs, this`derObjsTemp, this`vrObjs, this`calls
      ensures Valid()
      ensures Sized(start) && start == InitializeConvergence(old(lists))
      ensures Sized(lists) && lists.n == old(lists).n && |derObjs| == |old(derObjs)|
      ensures calls == old(calls) + log
      ensures Outcome(start, old(derObjs), old(vrObjs), probe, read, vrAt, mag,
                      r, iterations, writes, lists, log, derObjs, derObjsTemp, vrObjs)
    {
      InitializeConvergenceLists();
      start := lists;
      InitializedUnconverged(old(lists));
      var b, objs, temp, vrs;
      r, iterations, writes, b, log, objs, temp, vrs :=
        ConvergenceProcess(lists, derObjs, derObjsTemp, vrObjs, probe, read, vrAt, mag);
      Commit(b, objs, temp, vrs, log);
    }

    /** Keeps what a convergence process computed: its lists, DER objects,
        copies and regulators, and the calls it made. */
    method Commit(b: Book, objs: seq<DerObj>, temp: seq<DerObj>, vrs: seq<VrHandle>, log: seq<Event>)
      requires Sized(b) && |objs| == b.n && |derBus| == b.n
      modifies this`lists, this`derObjs, this`derObjsTemp, this`vrObjs, this`calls
      ensures Valid()
      ensures lists == b && derObjs == objs && derObjsTemp == temp && vrObjs == vrs
      ensures calls == old(calls) + log
    {
      lists, derObjs, derObjsTemp, vrObjs := b, objs, temp, vrs;
      calls := calls + log;
    }
  }

  /** The convergence process starts unconverged. */
  lemma InitializedUnconverged(b: Book)
    requires Sized(b)
    ensures !InitializeConvergence(b).converged
  {
    InitializeSetsFlags(b);
  }

  /** What the convergence process leaves behind, from the freshly
      initialized lists `b0`, the DER objects `objs` and the regulators
      `vrs0`: the lists and writes after `iterations` iterations on the
      copies, stopping at the first converged one or at `MaxIterations`;
      the regulators ticked once per iteration and once more in the final
      `run`, an error from a tick ending the process there; the copies fed
      the voltages read before the last iteration, the DER objects those
      after all of them; the calls in order; and the damped outputs
      returned exactly when the process converged. */
  predicate Outcome(b0: Book, objs: seq<DerObj>, vrs0: seq<VrHandle>,
                   probe: (seq<Write>, nat) -> Sample, read: seq<Write> -> Terminals,
                   vrAt: (seq<Write>, string) -> VrReading, mag: Complex -> real,
                   r: Result<Option<(seq<real>, seq<real>)>, VR.VRError>, iterations: nat, writes: seq<Write>,
                   b: Book, log: seq<Event>, objsOut: seq<DerObj>, temp: seq<DerObj>, vrs: seq<VrHandle>)
    requires Sized(b0)
  {
    && (b, writes) == After(b0, probe, iterations)
    && UnsettledBefore(b0, probe, iterations) && iterations <= MaxIterations
    && Rounds(vrs0, vrAt, writes, mag).1.None?
    && (var t := TickAll(Rounds(vrs0, vrAt, writes, mag).0, vrAt, writes, mag);
        vrs == t.0 && (r.Err? <==> t.1.Some?) && (r.Err? ==> r.error == t.1.value))
    && (!b.converged && iterations < MaxIterations ==>
          r.Err? && objsOut == objs && temp == WithVoltages(objs, read(writes)) &&
          log == LoopCalls(OnCopies, writes) + [CopyDers, RunDers(true)])
    && (b.converged || iterations == MaxIterations ==>
          0 < iterations && temp == WithVoltages(objs, read(writes[..iterations - 1])) &&
          objsOut == WithVoltages(objs, read(writes)))
    && ((b.converged || iterations == MaxIterations) && r.Err? ==>
          log == LoopCalls(OnCopies, writes) + [RunDers(false)])
    && (r.Ok? ==> log == LoopCalls(OnCopies, writes) + [RunDers(false), WriteOutputs(false, None, None), Solve])
    && (r.Ok? ==> (r.value.Some? <==> b.converged))
    && (r.Ok? && r.value.Some? ==> r.value.value == (b.pOut, b.qOut))
  }

  /** The convergence process on values, from the freshly initialized lists
      `b0`: the loop of `CopyIterations`, then, unless a regulator tick
      failed in it, `run` on the DER objects `objs` themselves (their
      terminal voltages after all the writes, one more round of regulator
      ticks), the write of their own outputs and a last solve. */
  method ConvergenceProcess(b0: Book, objs: seq<DerObj>, temp0: seq<DerObj>, vrs0: seq<VrHandle>,
                            probe: (seq<Write>, nat) -> Sample, read: seq<Write> -> Terminals,
                            vrAt: (seq<Write>, string) -> VrReading, mag: Complex -> real)
    returns (r: Result<Option<(seq<real>, seq<real>)>, VR.VRError>, iterations: nat, writes: seq<Write>,
             b: Book, log: seq<Event>, objsOut: seq<DerObj>, temp: seq<DerObj>, vrs: seq<VrHandle>)
    requires Sized(b0) && !b0.converged
    ensures Sized(b) && b.n == b0.n && |objsOut| == |objs|
    ensures Outcome(b0, objs, vrs0, probe, read, vrAt, mag, r, iterations, writes, b, log, objsOut, temp, vrs)
  {
    var err;
    b, iterations, writes, log, temp, vrs, err := CopyIterations(b0, objs, temp0, vrs0, probe, read, vrAt, mag);
    objsOut := objs;
    if err.Some? {
      r := Err(err.value);
      return;
    }
    objsOut := UpdateInputs(objs, read(writes));
    var e;
    vrs, e := TickVrs(vrs, vrAt, writes, mag);
    if e.Some? {
      r := Err(e.value);
      log := log + [RunDers(false)];
      return;
    }
    log := log + [RunDers(false), WriteOutputs(false, None, None), Solve];
    if b.converged {
      r := Ok(Some((b.pOut, b.qOut)));
    } else {
      r := Ok(None);
    }
  }

  /** The state of `CopyIterations` after `k` iterations from the lists
      `b0`, the DER objects `objs`, the copies `temp0` and the regulators
      `vrs0`: the lists and writes of `k` unconverged iterations; the
      regulators ticked once per iteration; the calls made; the copies fed
      the voltages read before the last iteration. An error `err` from a
      regulator tick in the next iteration leaves the regulators as
      `TickAll` left them, the copies fed and that iteration's first two
      calls made. */
  predicate Reached(b0: Book, objs: seq<DerObj>, temp0: seq<DerObj>, vrs0: seq<VrHandle>,
                    probe: (seq<Write>, nat) -> Sample, read: seq<Write> -> Terminals,
                    vrAt: (seq<Write>, string) -> VrReading, mag: Complex -> real,
                    k: nat, b: Book, writes: seq<Write>, log: seq<Event>, temp: seq<DerObj>,
                    vrs: seq<VrHandle>, err: Option<VR.VRError>)
    requires Sized(b0)
  {
    && (b, writes) == After(b0, probe, k)
    && UnsettledBefore(b0, probe, k) && k <= MaxIterations
    && (err.Some? ==> !b.converged && k < MaxIterations)
    && (err.None? ==> (vrs, None) == Rounds(vrs0, vrAt, writes, mag))
    && (err.Some? ==> Rounds(vrs0, vrAt, writes, mag).1.None? &&
                      (vrs, err) == TickAll(Rounds(vrs0, vrAt, writes, mag).0, vrAt, writes, mag))
    && (err.None? ==> log == LoopCalls(OnCopies, writes))
    && (err.Some? ==> log == LoopCalls(OnCopies, writes) + [CopyDers, RunDers(true)])
    && (err.Some? ==> temp == WithVoltages(objs, read(writes)))
    && (err.None? && k > 0 ==> temp == WithVoltages(objs, read(writes[..k - 1])))
    && (err.None? && k == 0 ==> temp == temp0)
  }

  /** The iterations of the convergence process, run on the bookkeeping
      `b0`: each one copies the DER objects `objs`, gives the copies the
      terminal voltages `read` reports after the writes so far, ticks the
      regulators on their readings, updates the lists, writes the copies'
      damped outputs and solves; the loop stops after the first converged
      iteration or after `MaxIterations`, or with the error of a failing
      regulator tick. `log` is the circuit calls made, `temp` the last copies
      and `vrs` the regulators. */
  method CopyIterations(b0: Book, objs: seq<DerObj>, temp0: seq<DerObj>, vrs0: seq<VrHandle>,
                        probe: (seq<Write>, nat) -> Sample, read: seq<Write> -> Terminals,
                        vrAt: (seq<Write>, string) -> VrReading, mag: Complex -> real)
    returns (b: Book, iterations: nat, writes: seq<Write>, log: seq<Event>,
             temp: seq<DerObj>, vrs: seq<VrHandle>, err: Option<VR.VRError>)
    requires Sized(b0)
    ensures Sized(b) && b.n == b0.n
    ensures Reached(b0, objs, temp0, vrs0, probe, read, vrAt, mag, iterations, b, writes, log, temp, vrs, err)
    ensures err.None? ==> b.converged || iterations == MaxIterations
  {
    b, iterations, writes, log, temp, vrs, err := b0, 0, [], [], temp0, vrs0, None;
    while !b.converged && iterations < MaxIterations && err.None?
      invariant Sized(b) && b.n == b0.n
      invariant Reached(b0, objs, temp0, vrs0, probe, read, vrAt, mag, iterations, b, writes, log, temp, vrs, err)
      decreases MaxIterations - iterations, if err.None? then 1 else 0
    {
      iterations, b, writes, log, temp, vrs, err :=
        CopyRound(b0, objs, temp0, vrs0, probe, read, vrAt, mag, iterations, b, writes, log, temp, vrs);
    }
  }

  /** One iteration of `CopyIterations` after `k` unconverged ones: the
      copies of `objs` get the terminal voltages `read` reports after
      `writes`, the regulators `vrs` are ticked on their readings and, unless
      a tick fails, the lists `b` are updated, the new damped outputs
      written and the circuit solved. */
  method CopyRound(b0: Book, objs: seq<DerObj>, temp0: seq<DerObj>, vrs0: seq<VrHandle>,
                   probe: (seq<Write>, nat) -> Sample, read: seq<Write> -> Terminals,
                   vrAt: (seq<Write>, string) -> VrReading, mag: Complex -> real,
                   k: nat, b: Book, writes: seq<Write>, log: seq<Event>, temp: seq<DerObj>, vrs: seq<VrHandle>)
    returns (k': nat, b': Book, writes': seq<Write>, log': seq<Event>, temp': seq<DerObj>,
             vrs': seq<VrHandle>, err': Option<VR.VRError>)
    requires Sized(b0) && Sized(b) && b.n == b0.n && !b.converged && k < MaxIterations
    requires Reached(b0, objs, temp0, vrs0, probe, read, vrAt, mag, k, b, writes, log, temp, vrs, None)
    ensures Sized(b') && b'.n == b0.n
    ensures Reached(b0, objs, temp0, vrs0, probe, read, vrAt, mag, k', b', writes', log', temp', vrs', err')
    ensures err'.None? ==> k' == k + 1
    ensures err'.Some? ==> k' == k
  {
    temp' := UpdateInputs(objs, read(writes));
    vrs', err' := TickVrs(vrs, vrAt, writes, mag);
    if err'.Some? {
      k', b', writes', log' := k, b, writes, log + [CopyDers, RunDers(true)];
    } else {
      LoopStep(OnCopies, b0, probe, k, b, writes);
      b' := Iteration(b, Samples(probe, writes, b.n));
      var w := Write(b'.pOut, b'.qOut);
      assert (writes + [w])[..|writes|] == writes;
      k', writes', log' := k + 1, writes + [w], log + IterationCalls(OnCopies, w);
    }
  }

  /** With this interface's damping factors a DER is settled exactly when its
      voltage moved at most 1e-6 pu, half its raw P change is within 0.01 kW
      and 0.8 of its raw Q change is within 1e-5 kvar. */
  lemma SettledWithInterfaceFactors(b: Book, s: seq<Sample>, i: int)
    requires Sized(b) && |s| == b.n && 0 <= i < b.n
    requires b.deltaQ == 0.2 && b.deltaP == 0.5
    ensures DerSettled(b, s, i) <==>
      Abs(s[i].v - b.previousV[i]) <= VTolerance &&
      0.5 * Abs(s[i].p - b.pPrevious[i]) <= PTolerance &&
      0.8 * Abs(s[i].q - b.qPrevious[i]) <= QTolerance
  {
    RelaxResidual(s[i].p, b.pPrevious[i], 0.5);
    RelaxResidual(s[i].q, b.qPrevious[i], 0.2);
    assert Abs(1.0 - 0.5) == 0.5;
    assert Abs(1.0 - 0.2) == 0.8;
  }
}
