/** The rules of the OpenDSS adapter `OpenDSSInterface` that do not belong to
    the OpenDSS engine: the dispatch of text commands, the check and the
    dispatch of the DER element type, the tables built from a compiled
    circuit (node indices, element names and buses, the regulators' buses),
    the regulator currents read back and the unit conversions of what is
    written back. The engine enters as an `Engine` value: the answers it
    gives to the adapter's queries. */
module OpenDssInterface {
  import opened Wrappers
  import opened Strings
  import opened Phasor
  import opened DerObjects
  import opened OpenDerInterface

  // ---------------------------------------------------------------------------
  // Text commands

  /** What `cmd` may be given: one command, a list of commands, or any other value. */
  datatype CmdLine = Text(line: string) | TextList(lines: seq<string>) | NotText

  datatype Reply = Single(out: string) | Each(outs: seq<string>)

  /** The engine's replies to `lines` sent one after the other; `engine(sent, c)`
      is its reply to `c` after it has received the commands `sent`. */
  function Replies(engine: (seq<string>, string) -> string, sent: seq<string>, lines: seq<string>): (r: seq<string>)
    ensures |r| == |lines|
    decreases |lines|
  {
    if |lines| == 0 then [] else [engine(sent, lines[0])] + Replies(engine, sent + [lines[0]], lines[1..])
  }

  /** The `i`-th reply is the answer to the `i`-th command, given after the
      commands before it. */
  lemma {:induction false} RepliesInOrder(engine: (seq<string>, string) -> string, sent: seq<string>, lines: seq<string>)
    ensures forall i :: 0 <= i < |lines| ==> Replies(engine, sent, lines)[i] == engine(sent + lines[..i], lines[i])
    decreases |lines|
  {
    if |lines| > 0 {
      var rest := Replies(engine, sent + [lines[0]], lines[1..]);
      RepliesInOrder(engine, sent + [lines[0]], lines[1..]);
      forall i | 0 <= i < |lines|
        ensures Replies(engine, sent, lines)[i] == engine(sent + lines[..i], lines[i])
      {
        if i > 0 {
          assert Replies(engine, sent, lines)[i] == rest[i - 1];
          assert (sent + [lines[0]]) + lines[1..][..i - 1] == sent + lines[..i];
        } else {
          assert sent + lines[..0] == sent;
        }
      }
    }
  }

  /** `cmd`, with the commands the engine has received afterwards. */
  function Cmd(engine: (seq<string>, string) -> string, sent: seq<string>, c: CmdLine): (r: Result<(Reply, seq<string>), string>)
  {
    match c
    case Text(line) => Ok((Single(engine(sent, line)), sent + [line]))
    case TextList(lines) => Ok((Each(Replies(engine, sent, lines)), sent + lines))
    case NotText => Err("OpenDSS Initializing cmd_list is not valid")
  }

  /** A list of commands is sent in order and answered by a list of the same
      length, reply `i` to command `i`; a single command gets its one reply;
      any other value is refused and nothing is sent. */
  lemma CmdDispatch(engine: (seq<string>, string) -> string, sent: seq<string>, c: CmdLine)
    ensures c.NotText? <==> Cmd(engine, sent, c).Err?
    ensures c.Text? ==> Cmd(engine, sent, c) == Ok((Single(engine(sent, c.line)), sent + [c.line]))
    ensures c.TextList? ==>
      var r := Cmd(engine, sent, c);
      r.Ok? && r.value.0.Each? && r.value.1 == sent + c.lines &&
      |r.value.0.outs| == |c.lines| &&
      forall i :: 0 <= i < |c.lines| ==> r.value.0.outs[i] == engine(sent + c.lines[..i], c.lines[i])
  {
    if c.TextList? {
      RepliesInOrder(engine, sent, c.lines);
    }
  }

  // ---------------------------------------------------------------------------
  // The DER element type

  /** The spellings `initialize` accepts, after lower-casing. */
  const SimTypes: seq<string> := ["pvsystem", "generator", "isource", "vsource"]

  /** The DER-initialising branch `initialize` takes. */
  datatype DerBranch = PVSystems | ISources | VSources | Generators | NoDerBranch

  /** The type is checked case-insensitively, but each branch compares the
      exact spelling. */
  function BranchFor(t: string): (r: Result<DerBranch, string>)
    ensures r.Err? <==> Lower(t) !in SimTypes
    ensures r == Ok(PVSystems) <==> t == "PVSystem"
    ensures r == Ok(ISources) <==> t == "isource"
    ensures r == Ok(VSources) <==> t == "vsource"
    ensures r == Ok(Generators) <==> t == "generator"
  {
    assert Lower("PVSystem") == "pvsystem";
    assert Lower("isource") == "isource" && Lower("vsource") == "vsource" && Lower("generator") == "generator";
    if Lower(t) !in SimTypes then Err("DER_sim_type should be 'pvsystem', 'generator', 'isource', 'vsource'")
    else if t == "PVSystem" then Ok(PVSystems)
    else if t == "isource" then Ok(ISources)
    else if t == "vsource" then Ok(VSources)
    else if t == "generator" then Ok(Generators)
    else Ok(NoDerBranch)
  }

  /** `'PVsystem'` passes the check but initialises no DERs. */
  lemma PVsystemInitialisesNothing()
    ensures BranchFor("PVsystem") == Ok(NoDerBranch)
  {
    assert Lower("PVsystem") == "pvsystem";
  }

  // ---------------------------------------------------------------------------
  // Names and buses

  /** `xs[k]` in Python: a negative `k` counts from the end; None stands for
      the IndexError. */
  function PyIndex<T>(xs: seq<T>, k: int): (r: Option<T>)
    ensures r.Some? <==> -|xs| <= k < |xs|
    ensures r.Some? ==> r.value == xs[if k < 0 then |xs| + k else k]
  {
    if 0 <= k < |xs| then Some(xs[k]) else if -|xs| <= k < 0 then Some(xs[|xs| + k]) else None
  }

  /** A name list whose first entry is `'NONE'` stands for no elements. */
  function ElementNames(names: seq<string>): (r: seq<string>)
    requires |names| > 0
    ensures names[0] == "NONE" ==> r == []
    ensures names[0] != "NONE" ==> r == names
  {
    if names[0] == "NONE" then [] else names
  }

  /** `s.split('.')[0].replace(' ', '')`: the bus of a terminal such as `"650.1.2"`. */
  function BusName(s: string): (r: string)
    ensures '.' !in r && ' ' !in r
  {
    RemoveAll(BeforeFirst(s, '.'), ' ')
  }

  lemma {:induction false} BeforeFirstWithout(s: string, c: char)
    requires c !in s
    ensures BeforeFirst(s, c) == s
    decreases |s|
  {
    if |s| > 0 {
      BeforeFirstWithout(s[1..], c);
    }
  }

  lemma {:induction false} RemoveAllWithout(s: string, c: char)
    requires c !in s
    ensures RemoveAll(s, c) == s
  {
  }

  /** The bus name is what `split('.')[0]` gives, spaces removed; and a bus
      name is its own bus name. */
  lemma BusNameNormal(s: string)
    ensures BusName(s) == RemoveAll(Split(s, '.')[0], ' ')
    ensures BusName(BusName(s)) == BusName(s)
  {
    SplitHead(s, '.');
    BeforeFirstWithout(BusName(s), '.');
    RemoveAllWithout(BusName(s), ' ');
  }

  /** The DER name of a per-phase source element such as `"pv1_a"`. */
  function SourcePrefix(s: string): (r: string)
    ensures '_' !in r && ' ' !in r
  {
    RemoveAll(BeforeFirst(s, '_'), ' ')
  }

  /** The set `{n.split('_')[0].replace(' ', '') for n in names}`. */
  function Prefixes(names: seq<string>): (r: set<string>)
    ensures forall n :: n in names ==> SourcePrefix(n) in r
    ensures forall p :: p in r ==> exists n :: n in names && SourcePrefix(n) == p
  {
    set n | n in names :: SourcePrefix(n)
  }

  /** `[*set(prefixes)]`: the distinct prefixes of `names`, each once, in an
      order the model leaves open (Python's set order). */
  method DistinctPrefixes(names: seq<string>) returns (r: seq<string>)
    ensures forall i, j :: 0 <= i < j < |r| ==> r[i] != r[j]
    ensures forall p :: p in r <==> p in Prefixes(names)
  {
    var left := Prefixes(names);
    r := [];
    while left != {}
      invariant forall i, j :: 0 <= i < j < |r| ==> r[i] != r[j]
      invariant forall p :: p in r ==> p in Prefixes(names) && p !in left
      invariant forall p :: p in Prefixes(names) ==> p in r || p in left
      invariant left <= Prefixes(names)
      decreases left
    {
      var p :| p in left;
      r := r + [p];
      left := left - {p};
    }
  }

  /** With no current sources OpenDSS reports the single name `'NONE'`, and
      the isource branch, which has no `'NONE'` check, makes a DER of it. */
  lemma NoISourcesGiveNoneDer()
    ensures Prefixes(["NONE"]) == {"NONE"}
  {
    assert SourcePrefix("NONE") == "NONE" by {
      BeforeFirstWithout("NONE", '_');
      RemoveAllWithout("NONE", ' ');
    }
  }

  /** The voltage sources considered as DERs: every name but the first,
      which is the substation; none when the circuit has no voltage source. */
  function VSourceNames(names: seq<string>): (r: seq<string>)
    ensures |names| > 0 ==> r == names[1..]
    ensures |names| == 0 ==> r == []
  {
    if |names| == 0 then [] else names[1..]
  }

  // ---------------------------------------------------------------------------
  // The regulators' buses

  /** `buses.replace('[', '').replace(']', '').split(',')[:-1]`: the bus of each
      winding in a transformer's `buses` text. */
  function WindingBuses(buses: string): (r: seq<string>)
  {
    var pieces := Split(RemoveAll(RemoveAll(buses, '['), ']'), ',');
    pieces[..|pieces| - 1]
  }

  /** The bus of winding `winding` (counted from 1, Python indexing), spaces
      removed; None for an IndexError. */
  function WindingBus(buses: string, winding: int): (r: Option<string>)
    ensures r.Some? <==> -|WindingBuses(buses)| <= winding - 1 < |WindingBuses(buses)|
    ensures r.Some? ==> ' ' !in r.value
  {
    match PyIndex(WindingBuses(buses), winding - 1)
    case Some(b) => Some(RemoveAll(b, ' '))
    case None => None
  }

  /** The node names `'{}.{}'.format(bus, k)` for phases 1 to 3. */
  function NodeName(bus: string, k: nat): string
    requires k < 10
  {
    bus + "." + DigitText(k)
  }

  /** The regulated nodes: the winding's bus itself for a single-phase
      regulator, otherwise the three phase nodes of its base bus. */
  function RegBuses(bus: string, phases: int): (r: seq<string>)
  {
    if phases == 1 then [bus]
    else [NodeName(BeforeFirst(bus, '.'), 1), NodeName(BeforeFirst(bus, '.'), 2), NodeName(BeforeFirst(bus, '.'), 3)]
  }

  /** The loop that fills `regBus`: for a three-phase regulator it cuts the
      bus at its first `.` again in every pass, which after the first pass
      changes nothing. */
  method FillRegBus(bus0: string, phases: int) returns (regBus: seq<string>)
    ensures regBus == RegBuses(bus0, phases)
  {
    regBus := [];
    if phases == 1 {
      regBus := regBus + [bus0];
    } else {
      var bus := bus0;
      var ph := 1;
      while ph <= 3
        invariant 1 <= ph <= 4
        invariant ph > 1 ==> bus == BeforeFirst(bus0, '.')
        invariant ph == 1 ==> bus == bus0
        invariant |regBus| == ph - 1
        invariant forall k :: 0 <= k < ph - 1 ==> regBus[k] == NodeName(BeforeFirst(bus0, '.'), k + 1)
      {
        if ph > 1 {
          BeforeFirstWithout(bus, '.');
        }
        bus := BeforeFirst(bus, '.');
        regBus := regBus + [NodeName(bus, ph)];
        ph := ph + 1;
      }
    }
  }

  /** A three-phase regulator watches the nodes `.1`, `.2`, `.3` of one bus,
      whatever node suffix its winding bus carried. */
  lemma ThreePhaseRegBus(bus: string, phases: int)
    requires phases != 1
    ensures |RegBuses(bus, phases)| == 3
    ensures forall k :: 0 <= k < 3 ==>
      RegBuses(bus, phases)[k] == BeforeFirst(bus, '.') + "." + DigitText(k + 1) &&
      '.' !in BeforeFirst(bus, '.')
    ensures RegBuses(BeforeFirst(bus, '.') + ".2", phases) == RegBuses(bus, phases)
  {
    var b := BeforeFirst(bus, '.');
    var s := b + ".2";
    assert BeforeFirst(s, '.') == b by {
      BeforeFirstKeeps(b, ".2", '.');
    }
  }

  lemma {:induction false} BeforeFirstKeeps(a: string, rest: string, c: char)
    requires c !in a && |rest| > 0 && rest[0] == c
    ensures BeforeFirst(a + rest, c) == a
    decreases |a|
  {
    if |a| > 0 {
      assert (a + rest)[1..] == a[1..] + rest;
      BeforeFirstKeeps(a[1..], rest, c);
    } else {
      assert a + rest == rest;
    }
  }

  // ---------------------------------------------------------------------------
  // Winding currents

  /** `wdgcurrents.split(',')[:-1]`: the fields of a transformer's winding
      currents text, magnitude and angle alternating. */
  function CurrentFields(wdg: string): seq<string>
  {
    var pieces := Split(wdg, ',');
    pieces[..|pieces| - 1]
  }

  /** The phasors of the (magnitude, angle) pairs; `parse` is `float` and
      `polar(m, a)` is `m·exp(jπa/180)`. Parentheses around an angle are dropped. */
  function WindingPhasors(wdg: string, parse: string -> real, polar: (real, real) -> Complex): (r: seq<Complex>)
    ensures |r| == |CurrentFields(wdg)| / 2
  {
    var f := CurrentFields(wdg);
    seq(|f| / 2, ii requires 0 <= ii < |f| / 2 =>
      polar(parse(f[2 * ii]), parse(RemoveAll(RemoveAll(f[2 * ii + 1], '('), ')'))))
  }

  /** The primary currents `read_vr_v_i` returns for a regulator on winding `winding`. */
  function WindingCurrents(wdg: string, winding: int, parse: string -> real, polar: (real, real) -> Complex): (r: seq<Complex>)
  {
    var ph := WindingPhasors(wdg, parse, polar);
    if winding == 1 then seq(|ph| / 2, ii requires 0 <= ii < |ph| / 2 => ph[2 * ii])
    else seq(|ph| / 2, ii requires 0 <= ii < |ph| / 2 => Neg(ph[2 * ii + 1]))
  }

  /** Winding 1 takes the even-positioned phasors, any other winding the
      odd-positioned ones negated; either way one current per two pairs. */
  lemma WindingSelection(wdg: string, winding: int, parse: string -> real, polar: (real, real) -> Complex)
    ensures var r := WindingCurrents(wdg, winding, parse, polar);
      var ph := WindingPhasors(wdg, parse, polar);
      |r| == |ph| / 2 && |r| == |CurrentFields(wdg)| / 4 &&
      (winding == 1 ==> forall i :: 0 <= i < |r| ==> r[i] == ph[2 * i]) &&
      (winding != 1 ==> forall i :: 0 <= i < |r| ==> r[i] == Neg(ph[2 * i + 1]) && 2 * i + 1 < |ph|)
  {
    var n := |CurrentFields(wdg)|;
    assert n / 2 / 2 == n / 4 by {
      var q, m := n / 4, n % 4;
      assert n == 4 * q + m && 0 <= m < 4;
      assert n / 2 == 2 * q + m / 2;
    }
  }

  // ---------------------------------------------------------------------------
  // Line phases

  /** `chr(n + 64)`; None where Python raises or the value is a surrogate. */
  function PhaseLetter(n: int): (r: Option<char>)
    ensures r.Some? ==> r.value as int == n + 64
    ensures 1 <= n <= 26 ==> r.Some? && 'A' <= r.value <= 'Z'
  {
    var c := n + 64;
    if 0 <= c < 0xD800 || 0xE000 <= c < 0x11_0000 then Some(c as char) else None
  }

  /** The phases of a line's first terminal: the letters of its node numbers
      (`toInt` is `int`), or `A`, `B`, `C` when it names none. */
  function LinePhases(terminal: string, toInt: string -> int): (r: Option<seq<char>>)
  {
    var nums := Split(terminal, '.')[1..];
    if |nums| == 0 then Some("ABC") else Letters(nums, toInt)
  }

  function Letters(nums: seq<string>, toInt: string -> int): (r: Option<seq<char>>)
    ensures r.Some? ==>
      |r.value| == |nums| &&
      (forall i :: 0 <= i < |nums| ==> r.value[i] as int == toInt(nums[i]) + 64)
    ensures r.None? ==> exists i :: 0 <= i < |nums| && PhaseLetter(toInt(nums[i])).None?
    decreases |nums|
  {
    if |nums| == 0 then Some([])
    else match (PhaseLetter(toInt(nums[0])), Letters(nums[1..], toInt))
      case (Some(c), Some(cs)) => Some([c] + cs)
      case (None, _) => None
      case (_, None) => None
  }

  lemma {:induction false} SplitSingle(s: string, c: char)
    ensures |Split(s, c)| == 1 <==> c !in s
    decreases |s|
  {
    if |s| > 0 {
      SplitSingle(s[1..], c);
    }
  }

  /** A terminal without node numbers is taken as all three phases; node
      numbers 1, 2 and 3 are the phases `A`, `B` and `C`. */
  lemma LinePhaseLetters(terminal: string, toInt: string -> int)
    ensures '.' !in terminal ==> LinePhases(terminal, toInt) == Some("ABC")
    ensures PhaseLetter(1) == Some('A') && PhaseLetter(2) == Some('B') && PhaseLetter(3) == Some('C')
  {
    SplitSingle(terminal, '.');
  }

  /** The phases of line `name` whose flow is recorded: those its name
      tags (`_a` or `_A` for phase A, and so on), or every phase of a line
      whose name tags none. */
  predicate PhaseRecorded(name: string, phase: char)
  {
    Contains(name, "_" + [LowerChar(phase)]) || Contains(name, "_" + [phase]) ||
    !(Contains(name, "_a") || Contains(name, "_b") || Contains(name, "_c"))
  }

  lemma UntaggedLineRecordsAll(name: string, phase: char)
    requires !(Contains(name, "_a") || Contains(name, "_b") || Contains(name, "_c"))
    ensures PhaseRecorded(name, phase)
  {
  }

  // ---------------------------------------------------------------------------
  // Unit conversions

  /** `np.sqrt(3)` as a double. */
  const Sqrt3: real := 1.7320508075688772
  /** The line-to-line factor the source branches write out. */
  const SourceSqrt3: real := 1.7320508075688
  const KmToMiles: real := 0.621371
  const RadToDeg: real := 57.29577951308232
  const PuLineToNeutral: real := 0.577350

  /** One property assignment sent to the engine: `element.property = value`. */
  datatype Setting = Setting(element: string, property: string, value: real)

  /** The impedance in ohms of a per-unit impedance `zPu` on the base of
      `kV` (line to line) and `kVA`. */
  function Ohms(zPu: real, kV: real, kVA: real): real
    requires kVA != 0.0
  {
    zPu * kV * kV / kVA * 1000.0
  }

  function PhaseElements(name: string): seq<string>
  {
    ["vsource." + name + "_a", "vsource." + name + "_b", "vsource." + name + "_c"]
  }

  /** The vsource part of `update_der_info`: R0, R1, X0, X1 on each of the
      three phase elements `es`, then the base MVA on the last one. */
  function ImpedanceSettings(es: seq<string>, rOhm: real, xOhm: real, mva: real): seq<Setting>
    requires |es| == 3
  {
    [Setting(es[0], "R0", rOhm), Setting(es[0], "R1", rOhm), Setting(es[0], "X0", xOhm), Setting(es[0], "X1", xOhm),
     Setting(es[1], "R0", rOhm), Setting(es[1], "R1", rOhm), Setting(es[1], "X0", xOhm), Setting(es[1], "X1", xOhm),
     Setting(es[2], "R0", rOhm), Setting(es[2], "R1", rOhm), Setting(es[2], "X0", xOhm), Setting(es[2], "X1", xOhm),
     Setting(es[2], "baseMVA", mva)]
  }

  /** Every resistance setting carries `rOhm`, every reactance `xOhm`, and
      only the last setting, on the last phase, is the base MVA. */
  lemma ImpedanceSettingsShape(es: seq<string>, rOhm: real, xOhm: real, mva: real)
    requires |es| == 3
    ensures var r := ImpedanceSettings(es, rOhm, xOhm, mva);
      |r| == 13 &&
      (forall k :: 0 <= k < 12 && (r[k].property == "R0" || r[k].property == "R1") ==> r[k].value == rOhm) &&
      (forall k :: 0 <= k < 12 && (r[k].property == "X0" || r[k].property == "X1") ==> r[k].value == xOhm) &&
      (forall k :: 0 <= k < 13 && r[k].property == "baseMVA" ==> k == 12 && r[k].element == es[2]) &&
      r[12].value == mva
  {
  }

  /** The vsource settings of `update_der_info` for a non-zero VA rating. */
  function VSourceSettings(name: string, f: DerFile, kvBase: real): seq<Setting>
    requires f.npVaMax != 0.0
  {
    var kVA := f.npVaMax / 1000.0;
    var kV := kvBase * SourceSqrt3;
    ImpedanceSettings(PhaseElements(name), Ohms(f.npResistance, kV, kVA), Ohms(f.npReactance, kV, kVA), kVA / 1000.0)
  }

  /** `update_der_info`: the settings that write a DER's nameplate into the
      circuit; `kvBase` is the line-to-neutral base of the source's bus.
      A zero `NP_VA_MAX` on a voltage source is the ZeroDivisionError of a
      Python float (a numpy float64 would give inf and a warning instead). */
  function DerInfoSettings(t: string, name: string, f: DerFile, kvBase: real): (r: Result<seq<Setting>, string>)
    ensures r.Err? <==> t == "vsource" && f.npVaMax == 0.0
  {
    if t == "PVSystem" then
      var e := "PVSystem." + name;
      Ok([Setting(e, "kVA", f.npVaMax / 1000.0), Setting(e, "Pmpp", f.npPMax / 1000.0),
          Setting(e, "kvarmax", f.npQMaxAbs / 1000.0), Setting(e, "kvarmaxabs", f.npQMaxInj / 1000.0)])
    else if t == "vsource" then
      if f.npVaMax == 0.0 then Err("float division by zero")
      else Ok(VSourceSettings(name, f, kvBase))
    else if t == "generator" then
      var e := "generator." + name;
      Ok([Setting(e, "kVA", f.npVaMax / 1000.0), Setting(e, "kW", f.npPMax / 1000.0),
          Setting(e, "maxkvar", f.npQMaxAbs / 1000.0), Setting(e, "minkvar", -f.npQMaxInj / 1000.0)])
    else Ok([])
  }

  /** A PV system rated from circuit row `row` writes back exactly the kVA,
      kW, kvar and kvarabs the circuit reported. */
  lemma PvRatingsRoundTrip(name: string, f: DerFile, row: CircuitDer, kvBase: real)
    ensures var r := DerInfoSettings("PVSystem", name, Rated(f, row), kvBase);
      r.Ok? && |r.value| == 4 &&
      r.value[0].value == row.kVA && r.value[1].value == row.kw &&
      r.value[2].value == row.kvar && r.value[3].value == row.kvarabs
  {
  }

  /** A voltage source gets the same resistance (and the same reactance) on
      R0 and R1 of all three phases: the per-unit value in ohms on the base
      of kV = √3·kvBase and kVA = NP_VA_MAX/1000 (`OhmsOnVaBase` writes it
      out); only phase c gets the base MVA, NP_VA_MAX/10⁶. */
  lemma VSourceImpedances(name: string, f: DerFile, kvBase: real)
    requires f.npVaMax != 0.0
    ensures DerInfoSettings("vsource", name, f, kvBase) == Ok(VSourceSettings(name, f, kvBase))
    ensures var r := VSourceSettings(name, f, kvBase);
      var kV, kVA := kvBase * SourceSqrt3, f.npVaMax / 1000.0;
      |r| == 13 &&
      (forall k :: 0 <= k < 12 && (r[k].property == "R0" || r[k].property == "R1") ==>
         r[k].value == Ohms(f.npResistance, kV, kVA)) &&
      (forall k :: 0 <= k < 12 && (r[k].property == "X0" || r[k].property == "X1") ==>
         r[k].value == Ohms(f.npReactance, kV, kVA)) &&
      (forall k :: 0 <= k < 13 && r[k].property == "baseMVA" ==> k == 12 && r[k].element == "vsource." + name + "_c") &&
      r[12].value == f.npVaMax / 1000000.0
  {
    var kV, kVA := kvBase * SourceSqrt3, f.npVaMax / 1000.0;
    ImpedanceSettingsShape(PhaseElements(name), Ohms(f.npResistance, kV, kVA), Ohms(f.npReactance, kV, kVA), kVA / 1000.0);
  }

  /** The impedance on a kVA base of `va / 1000` is the per-unit value times
      kV²·10⁶/va, the ohms the R0..X1 settings of a vsource carry. */
  lemma OhmsOnVaBase(zPu: real, kV: real, va: real)
    requires va != 0.0
    ensures Ohms(zPu, kV, va / 1000.0) == zPu * (kV * kV * 1000000.0 / va)
  {
    var b := kV * kV;
    assert zPu * kV * kV == zPu * b;
    assert zPu * b / (va / 1000.0) == zPu * (b * 1000.0 / va);
  }

  /** What an OpenDER object reports for `update_der_output_powers`: its
      name, its P and Q outputs (kW, kvar), and the three phase magnitudes
      and angles (rad) of its current or per-unit voltage output. */
  datatype DerOutput = DerOutput(name: string, pKw: real, qKvar: real,
                                 mag: (real, real, real), angle: (real, real, real))

  /** The settings written for one DER with power `p` and `q`. */
  function OutputOf(t: string, d: DerOutput, p: real, q: real): (r: seq<Setting>)
    ensures |r| == OutputWidth(t)
  {
    var e := t + "." + d.name;
    if t == "PVSystem" then [Setting(e, "Pmpp", p), Setting(e, "kvar", q)]
    else if t == "generator" then [Setting(e, "kW", p), Setting(e, "kvar", q)]
    else if t == "isource" then
      [Setting(e + "_a", "amps", d.mag.0), Setting(e + "_b", "amps", d.mag.1), Setting(e + "_c", "amps", d.mag.2),
       Setting(e + "_a", "angle", d.angle.0 * RadToDeg), Setting(e + "_b", "angle", d.angle.1 * RadToDeg),
       Setting(e + "_c", "angle", d.angle.2 * RadToDeg)]
    else if t == "vsource" then
      [Setting(e + "_a", "pu", d.mag.0 * PuLineToNeutral), Setting(e + "_b", "pu", d.mag.1 * PuLineToNeutral),
       Setting(e + "_c", "pu", d.mag.2 * PuLineToNeutral),
       Setting(e + "_a", "angle", d.angle.0 * RadToDeg), Setting(e + "_b", "angle", d.angle.1 * RadToDeg),
       Setting(e + "_c", "angle", d.angle.2 * RadToDeg)]
    else []
  }

  /** The number of settings one DER gets for DER type `t`. */
  function OutputWidth(t: string): nat
  {
    if t == "PVSystem" || t == "generator" then 2
    else if t == "isource" || t == "vsource" then 6
    else 0
  }

  function Concat<T>(xss: seq<seq<T>>): seq<T>
  {
    if |xss| == 0 then [] else Concat(xss[..|xss| - 1]) + xss[|xss| - 1]
  }

  /** The powers each DER is given: the list when there is one, otherwise
      each DER's own output. */
  function PowersOr(given: Option<seq<real>>, own: seq<real>): seq<real>
  {
    if given.Some? then given.value else own
  }

  function OwnP(ders: seq<DerOutput>): (r: seq<real>)
    ensures |r| == |ders| && forall i :: 0 <= i < |ders| ==> r[i] == ders[i].pKw
  {
    seq(|ders|, i requires 0 <= i < |ders| => ders[i].pKw)
  }

  function OwnQ(ders: seq<DerOutput>): (r: seq<real>)
    ensures |r| == |ders| && forall i :: 0 <= i < |ders| ==> r[i] == ders[i].qKvar
  {
    seq(|ders|, i requires 0 <= i < |ders| => ders[i].qKvar)
  }

  /** The blocks of settings of the DERs, powers and reactive powers `zip`
      pairs up. */
  function Zipped(t: string, ders: seq<DerOutput>, pl: seq<real>, ql: seq<real>): (r: seq<seq<Setting>>)
    ensures |r| == Min(Min(|ders|, |pl|), |ql|)
    ensures forall i :: 0 <= i < |r| ==> r[i] == OutputOf(t, ders[i], pl[i], ql[i])
  {
    var n := Min(Min(|ders|, |pl|), |ql|);
    seq(n, i requires 0 <= i < n => OutputOf(t, ders[i], pl[i], ql[i]))
  }

  /** `update_der_output_powers`: the settings for every zipped DER, in order. */
  function OutputSettings(t: string, ders: seq<DerOutput>, ps: Option<seq<real>>, qs: Option<seq<real>>): seq<Setting>
  {
    Concat(Zipped(t, ders, PowersOr(ps, OwnP(ders)), PowersOr(qs, OwnQ(ders))))
  }

  lemma ConcatUniform<T>(xss: seq<seq<T>>, w: nat)
    requires forall i :: 0 <= i < |xss| ==> |xss[i]| == w
    ensures |Concat(xss)| == w * |xss|
    ensures forall k :: 0 <= k < |xss| ==> w * k + w <= |Concat(xss)| && Concat(xss)[w * k .. w * k + w] == xss[k]
  {
    ConcatLength(xss, w);
    forall k | 0 <= k < |xss|
      ensures w * k + w <= |Concat(xss)| && Concat(xss)[w * k .. w * k + w] == xss[k]
    {
      ConcatBlock(xss, w, k);
    }
  }

  /** Blocks of width `w` concatenate to `w` times their number of elements. */
  lemma {:induction false} ConcatLength<T>(xss: seq<seq<T>>, w: nat)
    requires forall i :: 0 <= i < |xss| ==> |xss[i]| == w
    ensures |Concat(xss)| == w * |xss|
    decreases |xss|
  {
    if |xss| > 0 {
      ConcatLength(xss[..|xss| - 1], w);
      assert w * |xss| == w * (|xss| - 1) + w;
    }
  }

  /** Block `k` of the concatenation is the `k`-th sequence. */
  lemma {:induction false} ConcatBlock<T>(xss: seq<seq<T>>, w: nat, k: nat)
    requires forall i :: 0 <= i < |xss| ==> |xss[i]| == w
    requires k < |xss|
    ensures w * k + w <= |Concat(xss)| && Concat(xss)[w * k .. w * k + w] == xss[k]
    decreases |xss|
  {
    var n := |xss| - 1;
    var front := xss[..n];
    var f := Concat(front);
    assert Concat(xss) == f + xss[n];
    if k < n {
      ConcatBlock(front, w, k);
      ConcatFrontBlock(f, xss[n], w * k, w, front[k]);
    } else {
      ConcatLength(front, w);
      ConcatBackBlock(f, xss[n]);
    }
  }

  /** The last sequence of a concatenation is its final block. */
  lemma ConcatBackBlock<T>(f: seq<T>, last: seq<T>)
    ensures (f + last)[|f| .. |f| + |last|] == last
  {
  }

  /** A block inside the front of a concatenation is a block of the whole. */
  lemma ConcatFrontBlock<T>(f: seq<T>, last: seq<T>, lo: nat, w: nat, blk: seq<T>)
    requires lo + w <= |f| && f[lo .. lo + w] == blk
    ensures lo + w <= |f + last| && (f + last)[lo .. lo + w] == blk
  {
    assert (f + last)[lo .. lo + w] == f[lo .. lo + w];
  }

  lemma MulMono(w: nat, a: nat, b: nat)
    requires a <= b
    ensures w * a <= w * b
  {
  }

  /** Each zipped DER gets its own block of settings, in DER order; without
      lists the powers are the DERs' own outputs. */
  lemma OutputBlocks(t: string, ders: seq<DerOutput>, ps: Option<seq<real>>, qs: Option<seq<real>>, k: nat)
    requires k < |ders| && (ps.Some? ==> k < |ps.value|) && (qs.Some? ==> k < |qs.value|)
    ensures var w := OutputWidth(t);
      var r := OutputSettings(t, ders, ps, qs);
      w * k + w <= |r| &&
      r[w * k .. w * k + w] ==
        OutputOf(t, ders[k], if ps.Some? then ps.value[k] else ders[k].pKw,
                             if qs.Some? then qs.value[k] else ders[k].qKvar)
  {
    var pl := PowersOr(ps, OwnP(ders));
    var ql := PowersOr(qs, OwnQ(ders));
    var xss := Zipped(t, ders, pl, ql);
    ConcatUniform(xss, OutputWidth(t));
    MulMono(OutputWidth(t), k + 1, |xss|);
    assert pl[k] == if ps.Some? then ps.value[k] else ders[k].pKw;
    assert ql[k] == if qs.Some? then qs.value[k] else ders[k].qKvar;
  }

  /** The number of settings is the block width times the number of DERs
      `zip` pairs up. */
  lemma OutputCount(t: string, ders: seq<DerOutput>, ps: Option<seq<real>>, qs: Option<seq<real>>)
    ensures |OutputSettings(t, ders, ps, qs)| ==
      OutputWidth(t) * Min(Min(|ders|, |PowersOr(ps, OwnP(ders))|), |PowersOr(qs, OwnQ(ders))|)
  {
    ConcatUniform(Zipped(t, ders, PowersOr(ps, OwnP(ders)), PowersOr(qs, OwnQ(ders))), OutputWidth(t));
  }

  /** An isource DER's angles are written in degrees. */
  lemma ISourceAnglesInDegrees(d: DerOutput, p: real, q: real)
    ensures var r := OutputOf("isource", d, p, q);
      |r| == 6 && r[3].value == d.angle.0 * 57.29577951308232 &&
      r[4].value == d.angle.1 * 57.29577951308232 && r[5].value == d.angle.2 * 57.29577951308232
  {
  }

  // ---------------------------------------------------------------------------
  // The tables built from a compiled circuit

  /** What the engine reports about a bus: its line-to-neutral base kV, its
      number of nodes, its distance (km) and its coordinates. */
  datatype BusInfo = BusInfo(kvBase: real, numNodes: int, distanceKm: real, x: real, y: real)

  /** The answers of a compiled circuit: its node, bus and element names;
      `bus(b)` for the active bus `b`; `text(c, n, p)` is the answer to the
      query `? c.n.p`, and `number` and `count` give a property, read by
      query or through the API, as a float or an int. */
  datatype Engine = Engine(
    nodeNames: seq<string>, busNames: seq<string>, lineNames: seq<string>,
    loadNames: seq<string>, generatorNames: seq<string>, pvNames: seq<string>,
    isourceNames: seq<string>, vsourceNames: seq<string>, regNames: seq<string>,
    bus: string -> BusInfo,
    text: (string, string, string) -> string,
    number: (string, string, string) -> real,
    count: (string, string, string) -> int)

  /** OpenDSS names a class without elements `'NONE'`; the name lists the
      adapter indexes at 0 are never empty. */
  predicate Reported(e: Engine)
  {
    |e.loadNames| > 0 && |e.generatorNames| > 0 && |e.pvNames| > 0 && |e.regNames| > 0
  }

  /** One phase of a row of the `buses` table: the node's index in the node
      list (−1 when the bus has no such node), its voltage magnitude in pu
      (None for NaN) and its angle. */
  datatype PhaseCell = PhaseCell(nodeIndex: int, vpu: Option<real>, theta: real)

  datatype BusRow = BusRow(name: string, kVBaseLL: real, nPhases: int, distance: real,
                           x: real, y: real, phases: seq<PhaseCell>)

  /** `nodenames.index('{bus}.{k}')`, −1 for the ValueError. */
  function NodeIndex(nodeNames: seq<string>, bus: string, k: nat): (r: int)
    requires 1 <= k <= 3
    ensures -1 <= r < |nodeNames|
    ensures r == -1 <==> NodeName(bus, k) !in nodeNames
    ensures r >= 0 ==> nodeNames[r] == NodeName(bus, k) && NodeName(bus, k) !in nodeNames[..r]
  {
    IndexOf(nodeNames, NodeName(bus, k))
  }

  /** The row of bus `name`: line-to-line base kV, distance in miles, the
      node index of each phase, 1 pu and the balanced angles. */
  function BusRowOf(e: Engine, name: string): (r: BusRow)
    ensures |r.phases| == 3
  {
    var info := e.bus(name);
    BusRow(name, info.kvBase * Sqrt3, info.numNodes, info.distanceKm * KmToMiles, info.x, info.y,
      [PhaseCell(NodeIndex(e.nodeNames, name, 1), Some(1.0), 0.0),
       PhaseCell(NodeIndex(e.nodeNames, name, 2), Some(1.0), -2.0943951),
       PhaseCell(NodeIndex(e.nodeNames, name, 3), Some(1.0), 2.0943951)])
  }

  /** Phase `k` (0 for A) of a bus row indexes node `{bus}.{k+1}`, or is −1
      exactly when the circuit has no such node; the base is line to line
      and the distance in miles. */
  lemma BusRowNodes(e: Engine, name: string)
    ensures var r := BusRowOf(e, name);
      r.kVBaseLL == e.bus(name).kvBase * Sqrt3 && r.distance == e.bus(name).distanceKm * 0.621371 &&
      forall k :: 0 <= k < 3 ==>
        (r.phases[k].nodeIndex == -1 <==> NodeName(name, k + 1) !in e.nodeNames) &&
        (r.phases[k].nodeIndex >= 0 ==> e.nodeNames[r.phases[k].nodeIndex] == NodeName(name, k + 1))
  {
    var r := BusRowOf(e, name);
    assert r.phases[0].nodeIndex == NodeIndex(e.nodeNames, name, 1);
    assert r.phases[1].nodeIndex == NodeIndex(e.nodeNames, name, 2);
    assert r.phases[2].nodeIndex == NodeIndex(e.nodeNames, name, 3);
  }

  datatype LineRow = LineRow(name: string, bus1: string, bus2: string, kVBaseLN: real,
                             nPhases: int, length: real, normAmps: real, emergAmps: real)

  /** A line's buses are its terminals cut at the first `.`; spaces are kept. */
  function LineRowOf(e: Engine, name: string): (r: LineRow)
    ensures '.' !in r.bus1 && '.' !in r.bus2
  {
    var b1 := BeforeFirst(e.text("line", name, "bus1"), '.');
    var b2 := BeforeFirst(e.text("line", name, "bus2"), '.');
    LineRow(name, b1, b2, e.bus(b1).kvBase, e.count("line", name, "phases"),
            e.number("line", name, "length"), e.number("line", name, "normamps"), e.number("line", name, "emergamps"))
  }

  datatype LoadRow = LoadRow(name: string, kind: string, bus: string, nodes: string, phases: int, kw: real)

  function LoadRowOf(e: Engine, name: string): (r: LoadRow)
    ensures r.bus == BusName(r.nodes) && r.kind == "load"
  {
    var b := e.text("load", name, "bus1");
    LoadRow(name, "load", BusName(b), b, e.count("load", name, "phases"), e.number("load", name, "kw"))
  }

  /** A row of the generator or DER table; generators have no `kvarabs`. */
  datatype DerRow = DerRow(name: string, kind: string, bus: string, kw: real, kvar: real,
                           kvarabs: Option<real>, kVA: real, kV: real)

  function GeneratorRowOf(e: Engine, name: string): (r: DerRow)
    ensures r.name == name && r.kvarabs.None?
  {
    var b := e.text("generator", name, "bus1");
    DerRow(name, "generator", BusName(b), e.number("generator", name, "kw"), e.number("generator", name, "kvar"),
           None, e.number("generator", name, "kva"), e.number("generator", name, "kv"))
  }

  function PvRowOf(e: Engine, name: string): (r: DerRow)
    ensures r.name == name
  {
    var b := e.text("PVSystem", name, "bus1");
    DerRow(name, "PVSystem", BusName(b), e.number("PVSystem", name, "pmpp"), e.number("PVSystem", name, "kvar"),
           Some(e.number("PVSystem", name, "kvarmaxabs")), e.number("PVSystem", name, "kva"),
           e.number("PVSystem", name, "kv"))
  }

  /** The DER of the current sources `{p}_a`, `{p}_b`, `{p}_c`: fixed ratings
      of 100 kVA, 100 kW and 44 kvar, the line-to-line kV of phase a's bus. */
  function ISourceRowOf(e: Engine, p: string): (r: DerRow)
    ensures r.name == p && r.kw == 100.0 && r.kvar == 44.0 && r.kvarabs == Some(44.0) && r.kVA == 100.0
  {
    var b := e.text("isource", p + "_a", "bus1");
    DerRow(p, "isource", BusName(b), 100.0, 44.0, Some(44.0), 100.0, e.bus(b).kvBase * SourceSqrt3)
  }

  /** The DER of the voltage sources `{p}_a`, ...: every rating is phase a's
      base MVA in kVA. */
  function VSourceRowOf(e: Engine, p: string): (r: DerRow)
    ensures r.name == p && r.kvarabs == Some(r.kw) && r.kvar == r.kw && r.kVA == r.kw
    ensures r.kw == e.number("vsource", p + "_a", "baseMVA") * 1000.0
  {
    var b := e.text("vsource", p + "_a", "bus1");
    var kw := e.number("vsource", p + "_a", "baseMVA") * 1000.0;
    DerRow(p, "vsource", BusName(b), kw, kw, Some(kw), kw, e.bus(b).kvBase * SourceSqrt3)
  }

  function SourceRowOf(e: Engine, vsource: bool, p: string): DerRow
  {
    if vsource then VSourceRowOf(e, p) else ISourceRowOf(e, p)
  }

  function BusTable(e: Engine): (r: seq<BusRow>)
    ensures |r| == |e.busNames| && forall i :: 0 <= i < |r| ==> r[i] == BusRowOf(e, e.busNames[i])
  {
    seq(|e.busNames|, i requires 0 <= i < |e.busNames| => BusRowOf(e, e.busNames[i]))
  }

  function LineTable(e: Engine): (r: seq<LineRow>)
    ensures |r| == |e.lineNames| && forall i :: 0 <= i < |r| ==> r[i] == LineRowOf(e, e.lineNames[i])
  {
    seq(|e.lineNames|, i requires 0 <= i < |e.lineNames| => LineRowOf(e, e.lineNames[i]))
  }

  function LoadTable(e: Engine): (r: seq<LoadRow>)
    requires Reported(e)
    ensures var ns := ElementNames(e.loadNames);
      |r| == |ns| && forall i :: 0 <= i < |r| ==> r[i] == LoadRowOf(e, ns[i])
  {
    var ns := ElementNames(e.loadNames);
    seq(|ns|, i requires 0 <= i < |ns| => LoadRowOf(e, ns[i]))
  }

  function GeneratorTable(e: Engine): (r: seq<DerRow>)
    requires Reported(e)
    ensures var ns := ElementNames(e.generatorNames);
      |r| == |ns| && forall i :: 0 <= i < |r| ==> r[i] == GeneratorRowOf(e, ns[i])
  {
    var ns := ElementNames(e.generatorNames);
    seq(|ns|, i requires 0 <= i < |ns| => GeneratorRowOf(e, ns[i]))
  }

  function PvTable(e: Engine): (r: seq<DerRow>)
    requires Reported(e)
    ensures var ns := ElementNames(e.pvNames);
      |r| == |ns| && forall i :: 0 <= i < |r| ==> r[i] == PvRowOf(e, ns[i])
  {
    var ns := ElementNames(e.pvNames);
    seq(|ns|, i requires 0 <= i < |ns| => PvRowOf(e, ns[i]))
  }

  function RowBuses(rows: seq<DerRow>): (r: seq<string>)
    ensures |r| == |rows| && forall i :: 0 <= i < |rows| ==> r[i] == rows[i].bus
  {
    seq(|rows|, i requires 0 <= i < |rows| => rows[i].bus)
  }

  /** A circuit reporting `'NONE'` first has no loads, generators, PV
      systems or regulators; every element's bus is a normalised bus name. */
  lemma NoneMeansEmpty(e: Engine)
    requires Reported(e)
    ensures e.loadNames[0] == "NONE" ==> LoadTable(e) == []
    ensures e.generatorNames[0] == "NONE" ==> GeneratorTable(e) == []
    ensures e.pvNames[0] == "NONE" ==> PvTable(e) == []
    ensures e.regNames[0] == "NONE" ==> ElementNames(e.regNames) == []
    ensures forall i :: 0 <= i < |LoadTable(e)| ==> '.' !in LoadTable(e)[i].bus && ' ' !in LoadTable(e)[i].bus
    ensures forall i :: 0 <= i < |PvTable(e)| ==> '.' !in PvTable(e)[i].bus && ' ' !in PvTable(e)[i].bus
  {
  }

  /** A set of source DERs: distinct names, exactly `prefixes`, each row the
      one its name gives. */
  ghost predicate SourceTable(e: Engine, vsource: bool, prefixes: set<string>, rows: seq<DerRow>)
  {
    (forall i, j :: 0 <= i < j < |rows| ==> rows[i].name != rows[j].name) &&
    (forall p :: p in prefixes <==> exists i :: 0 <= i < |rows| && rows[i].name == p) &&
    (forall i :: 0 <= i < |rows| ==> rows[i] == SourceRowOf(e, vsource, rows[i].name))
  }

  /** The loop of every `__init_*`: one row per name, appended in order. */
  method Tabulate<R>(names: seq<string>, row: string -> R) returns (rows: seq<R>)
    ensures |rows| == |names| && forall i :: 0 <= i < |names| ==> rows[i] == row(names[i])
  {
    rows := [];
    for i := 0 to |names|
      invariant |rows| == i && forall k :: 0 <= k < i ==> rows[k] == row(names[k])
    {
      rows := rows + [row(names[i])];
    }
  }

  /** `__init_isources` (vsource false) and `__init_vsources` (vsource true):
      one DER per distinct name prefix, the substation skipped for voltage
      sources. */
  method SourceRows(e: Engine, vsource: bool) returns (rows: seq<DerRow>)
    ensures SourceTable(e, vsource, Prefixes(if vsource then VSourceNames(e.vsourceNames) else e.isourceNames), rows)
  {
    var names := if vsource then VSourceNames(e.vsourceNames) else e.isourceNames;
    var ps := DistinctPrefixes(names);
    rows := Tabulate(ps, p => SourceRowOf(e, vsource, p));
    assert forall i :: 0 <= i < |rows| ==> rows[i].name == ps[i];
    forall p | p in Prefixes(names)
      ensures exists i :: 0 <= i < |rows| && rows[i].name == p
    {
      var i :| 0 <= i < |ps| && ps[i] == p;
      assert rows[i].name == p;
    }
  }

  // ---------------------------------------------------------------------------
  // Regulators

  /** The `vrStates` entry of a regulator: its (fixed) time step, transformer,
      winding, settings, number of phases and regulated nodes. */
  datatype VrState = VrState(ts: real, xfmr: string, winding: int, vref: real, db: real,
                             ptRatio: real, ctPrimary: real, ldcR: real, ldcX: real,
                             phases: int, regBus: seq<string>)

  /** The entry built for regulator `name`; None when its winding picks no
      bus (an IndexError). */
  function VrStateOf(e: Engine, name: string): (r: Option<VrState>)
  {
    var x := e.text("regcontrol", name, "transformer");
    var w := e.count("regcontrol", name, "winding");
    var ph := e.count("transformer", x, "phases");
    match WindingBus(e.text("transformer", x, "buses"), w)
    case None => None
    case Some(b) =>
      Some(VrState(100000.0, x, w, e.number("regcontrol", name, "vreg"), e.number("regcontrol", name, "band"),
                   e.number("regcontrol", name, "ptratio"), e.number("regcontrol", name, "ctprim"),
                   e.number("regcontrol", name, "R"), e.number("regcontrol", name, "X"), ph, RegBuses(b, ph)))
  }

  function VrEntry(e: Engine): string -> Option<VrState>
  {
    name => VrStateOf(e, name)
  }

  /** The map after entering `names` one by one into `m`, `entry(n)` being
      the value of `n`, and whether all of them could be entered; the first
      name without a value stops the loop with the entries made before it. */
  function Entered<V>(entry: string -> Option<V>, m: map<string, V>, names: seq<string>): (r: (map<string, V>, bool))
    decreases |names|
  {
    if |names| == 0 then (m, true)
    else
      var prev := Entered(entry, m, names[..|names| - 1]);
      var last := names[|names| - 1];
      if !prev.1 then prev
      else match entry(last)
        case None => (prev.0, false)
        case Some(v) => (prev.0[last := v], true)
  }

  lemma {:induction false} EnteredStop<V>(entry: string -> Option<V>, m: map<string, V>, names: seq<string>, i: nat)
    requires i <= |names| && !Entered(entry, m, names[..i]).1
    ensures Entered(entry, m, names) == Entered(entry, m, names[..i])
    decreases |names| - i
  {
    if i < |names| {
      assert names[..i + 1][..i] == names[..i];
      EnteredStop(entry, m, names, i + 1);
    } else {
      assert names[..i] == names;
    }
  }

  /** Entering succeeds exactly when every name has a value. */
  lemma {:induction false} EnteredOk<V>(entry: string -> Option<V>, m: map<string, V>, names: seq<string>)
    ensures Entered(entry, m, names).1 <==> forall k :: 0 <= k < |names| ==> entry(names[k]).Some?
    decreases |names|
  {
    if |names| > 0 {
      var front := names[..|names| - 1];
      EnteredOk(entry, m, front);
      assert forall k :: 0 <= k < |front| ==> front[k] == names[k];
    }
  }

  /** After a successful run every name has its own entry and nothing else
      is added. */
  lemma {:induction false} EnteredEntries<V>(entry: string -> Option<V>, m: map<string, V>, names: seq<string>)
    requires Entered(entry, m, names).1
    ensures Entered(entry, m, names).0.Keys == m.Keys + (set n | n in names)
    ensures forall n :: n in names ==> entry(n).Some? && Entered(entry, m, names).0[n] == entry(n).value
    decreases |names|
  {
    if |names| > 0 {
      var front := names[..|names| - 1];
      var last := names[|names| - 1];
      assert Entered(entry, m, front).1;
      EnteredEntries(entry, m, front);
      assert entry(last).Some?;
      assert names == front + [last];
      assert (set n | n in names) == (set n | n in front) + {last};
    }
  }

  /** `__init_vr`: the loop entering each regulator into `m0`. */
  method VrRows(e: Engine, m0: map<string, VrState>, names: seq<string>) returns (m: map<string, VrState>, ok: bool)
    ensures (m, ok) == Entered(VrEntry(e), m0, names)
  {
    m := m0;
    ok := true;
    var i := 0;
    while i < |names| && ok
      invariant 0 <= i <= |names|
      invariant (m, ok) == Entered(VrEntry(e), m0, names[..i])
    {
      assert names[..i + 1][..i] == names[..i];
      var name := names[i];
      var x := e.text("regcontrol", name, "transformer");
      var w := e.count("regcontrol", name, "winding");
      var ph := e.count("transformer", x, "phases");
      var b := WindingBus(e.text("transformer", x, "buses"), w);
      if b.None? {
        ok := false;
      } else {
        var regBus := FillRegBus(b.value, ph);
        m := m[name := VrState(100000.0, x, w, e.number("regcontrol", name, "vreg"), e.number("regcontrol", name, "band"),
                               e.number("regcontrol", name, "ptratio"), e.number("regcontrol", name, "ctprim"),
                               e.number("regcontrol", name, "R"), e.number("regcontrol", name, "X"), ph, regBus)];
      }
      i := i + 1;
    }
    if !ok {
      EnteredStop(VrEntry(e), m0, names, i);
    } else {
      assert names[..i] == names;
    }
  }

  // ---------------------------------------------------------------------------
  // Reading bus voltages

  /** `np.array(xs)[i]`: a negative index counts from the end. */
  function NumpyAt(xs: seq<real>, i: int): real
    requires -|xs| <= i < |xs|
  {
    if i < 0 then xs[|xs| + i] else xs[i]
  }

  /** The node indices of `rows` all address the engine's arrays of length `n`. */
  predicate IndexedWithin(rows: seq<BusRow>, n: nat)
  {
    forall i :: 0 <= i < |rows| ==>
      |rows[i].phases| == 3 &&
      (forall k :: 0 <= k < 3 ==> -(n as int) <= rows[i].phases[k].nodeIndex < n)
  }

  /** A phase after `read_sys_voltage`: magnitude and angle of its node, the
      magnitude NaN when the bus has no such node. The angle of a missing
      node is numpy's index −1: the last node's. */
  function ReadCell(c: PhaseCell, vmag: seq<real>, angles: seq<real>): (r: PhaseCell)
    requires -|vmag| <= c.nodeIndex < |vmag| && |angles| == |vmag|
  {
    c.(vpu := if c.nodeIndex == -1 then None else Some(NumpyAt(vmag, c.nodeIndex)),
       theta := NumpyAt(angles, c.nodeIndex))
  }

  function ReadRows(rows: seq<BusRow>, vmag: seq<real>, angles: seq<real>): (r: seq<BusRow>)
    requires IndexedWithin(rows, |vmag|) && |angles| == |vmag|
  {
    seq(|rows|, i requires 0 <= i < |rows| =>
      rows[i].(phases := [ReadCell(rows[i].phases[0], vmag, angles), ReadCell(rows[i].phases[1], vmag, angles),
                          ReadCell(rows[i].phases[2], vmag, angles)]))
  }

  /** A bus row's phase reads NaN exactly when the bus has no node of that
      phase; otherwise its node's magnitude and angle. */
  lemma MissingNodesReadNaN(rows: seq<BusRow>, vmag: seq<real>, angles: seq<real>, i: nat, k: nat)
    requires IndexedWithin(rows, |vmag|) && |angles| == |vmag| && i < |rows| && k < 3
    ensures var c := rows[i].phases[k];
      var r := ReadRows(rows, vmag, angles)[i].phases[k];
      |ReadRows(rows, vmag, angles)| == |rows| &&
      (r.vpu.None? <==> c.nodeIndex == -1) &&
      (c.nodeIndex >= 0 ==> r.vpu == Some(vmag[c.nodeIndex]) && r.theta == angles[c.nodeIndex]) &&
      r.nodeIndex == c.nodeIndex
  {
  }

  /** Step one of `read_sys_voltage` for phase `k`: the column's magnitudes
      and angles from the node arrays. */
  function ReadColumn(rows: seq<BusRow>, k: nat, vmag: seq<real>, angles: seq<real>): (r: seq<BusRow>)
    requires k < 3 && IndexedWithin(rows, |vmag|) && |angles| == |vmag|
    ensures |r| == |rows| && IndexedWithin(r, |vmag|)
    ensures forall i :: 0 <= i < |rows| ==> r[i].phases[k].nodeIndex == rows[i].phases[k].nodeIndex
  {
    seq(|rows|, i requires 0 <= i < |rows| =>
      var c := rows[i].phases[k];
      rows[i].(phases := rows[i].phases[k := c.(vpu := Some(NumpyAt(vmag, c.nodeIndex)), theta := NumpyAt(angles, c.nodeIndex))]))
  }

  /** Step two for phase `k`: NaN where the node index is −1. */
  function MarkMissing(rows: seq<BusRow>, k: nat): (r: seq<BusRow>)
    requires k < 3 && forall i :: 0 <= i < |rows| ==> |rows[i].phases| == 3
    ensures |r| == |rows| && forall i :: 0 <= i < |rows| ==> |r[i].phases| == 3
  {
    seq(|rows|, i requires 0 <= i < |rows| =>
      var c := rows[i].phases[k];
      rows[i].(phases := rows[i].phases[k := if c.nodeIndex == -1 then c.(vpu := None) else c]))
  }

  // ---------------------------------------------------------------------------
  // The DERs' terminal readings

  /** Every row of the `buses` table has its three phases. */
  predicate ThreePhased(rows: seq<BusRow>)
  {
    forall i :: 0 <= i < |rows| ==> |rows[i].phases| == 3
  }

  /** The position of the row `buses.loc[bus]` selects; None for its
      KeyError when no row has that name. */
  function RowNamed(rows: seq<BusRow>, bus: string): (r: Option<nat>)
    ensures r.Some? ==> (r.value < |rows| && rows[r.value].name == bus &&
                         forall j :: 0 <= j < r.value ==> rows[j].name != bus)
    ensures r.None? ==> forall j :: 0 <= j < |rows| ==> rows[j].name != bus
    decreases |rows|
  {
    if |rows| == 0 then None
    else if rows[0].name == bus then Some(0)
    else match RowNamed(rows[1..], bus)
      case None => None
      case Some(j) => Some(j + 1)
  }

  /** Tables whose rows carry the same names select the same row. */
  lemma {:induction false} RowNamedByNames(a: seq<BusRow>, b: seq<BusRow>, bus: string)
    requires |a| == |b| && forall i :: 0 <= i < |a| ==> a[i].name == b[i].name
    ensures RowNamed(a, bus) == RowNamed(b, bus)
    decreases |a|
  {
    if |a| > 0 && a[0].name != bus {
      RowNamedByNames(a[1..], b[1..], bus);
    }
  }

  /** A row's `Vpu_A`, `Vpu_B`, `Vpu_C`. */
  function VoltagesOf(row: BusRow): (r: PhaseVoltages)
    requires |row.phases| == 3
    ensures r.a == row.phases[0].vpu && r.b == row.phases[1].vpu && r.c == row.phases[2].vpu
  {
    PhaseVoltages(row.phases[0].vpu, row.phases[1].vpu, row.phases[2].vpu)
  }

  /** A row's `Theta_A`, `Theta_B`, `Theta_C`. */
  function AnglesOf(row: BusRow): (r: PhaseAngles)
    requires |row.phases| == 3
    ensures r.a == row.phases[0].theta && r.b == row.phases[1].theta && r.c == row.phases[2].theta
  {
    PhaseAngles(row.phases[0].theta, row.phases[1].theta, row.phases[2].theta)
  }

  /** `read_der_voltage(der_bus_list)` with `read_der_voltage_angle`: the
      phase triple of each DER bus's row, in order, or the KeyError naming
      the first bus the table does not have. */
  function DerTerminals(rows: seq<BusRow>, derBuses: seq<string>): (r: Result<Terminals, string>)
    requires ThreePhased(rows)
    ensures r.Ok? ==> |r.value.v| == |derBuses| && |r.value.theta| == |derBuses|
    decreases |derBuses|
  {
    if |derBuses| == 0 then Ok(Terminals([], []))
    else
      match RowNamed(rows, derBuses[0])
      case None => Err(derBuses[0])
      case Some(j) =>
        var rest := DerTerminals(rows, derBuses[1..]);
        if rest.Err? then rest
        else Ok(Terminals([VoltagesOf(rows[j])] + rest.value.v, [AnglesOf(rows[j])] + rest.value.theta))
  }

  /** DER `i`'s reading is the phase triple of the row its bus names. */
  lemma {:induction false} DerTerminalsRead(rows: seq<BusRow>, derBuses: seq<string>, i: nat)
    requires ThreePhased(rows) && i < |derBuses| && DerTerminals(rows, derBuses).Ok?
    ensures RowNamed(rows, derBuses[i]).Some?
    ensures var t := DerTerminals(rows, derBuses).value;
      var row := rows[RowNamed(rows, derBuses[i]).value];
      t.v[i] == VoltagesOf(row) && t.theta[i] == AnglesOf(row)
    decreases i
  {
    if i > 0 {
      DerTerminalsRead(rows, derBuses[1..], i - 1);
      assert derBuses[1..][i - 1] == derBuses[i];
    }
  }

  /** The reading fails exactly when some DER bus has no row, and then it
      names the first such bus. */
  lemma {:induction false} DerTerminalsFails(rows: seq<BusRow>, derBuses: seq<string>)
    requires ThreePhased(rows)
    ensures var r := DerTerminals(rows, derBuses);
      r.Ok? <==> forall i :: 0 <= i < |derBuses| ==> RowNamed(rows, derBuses[i]).Some?
    ensures var r := DerTerminals(rows, derBuses);
      r.Err? ==> exists i :: 0 <= i < |derBuses| && derBuses[i] == r.error &&
                   RowNamed(rows, derBuses[i]).None? &&
                   forall k :: 0 <= k < i ==> RowNamed(rows, derBuses[k]).Some?
    decreases |derBuses|
  {
    if |derBuses| > 0 {
      var tail := derBuses[1..];
      DerTerminalsFails(rows, tail);
      assert forall k :: 0 <= k < |tail| ==> tail[k] == derBuses[k + 1];
      var r := DerTerminals(rows, derBuses);
      if RowNamed(rows, derBuses[0]).Some? && r.Err? {
        var i :| 0 <= i < |tail| && tail[i] == r.error && RowNamed(rows, tail[i]).None? &&
          forall k :: 0 <= k < i ==> RowNamed(rows, tail[k]).Some?;
        assert derBuses[i + 1] == r.error && RowNamed(rows, derBuses[i + 1]).None?;
        assert forall k :: 0 <= k < i + 1 ==> RowNamed(rows, derBuses[k]).Some? by {
          forall k | 0 <= k < i + 1
            ensures RowNamed(rows, derBuses[k]).Some?
          {
            if k > 0 {
              assert derBuses[k] == tail[k - 1];
            }
          }
        }
      }
    }
  }

  /** After `read_sys_voltage`, a DER's voltage on a phase is NaN exactly
      when its bus has no node of that phase; otherwise it is that node's
      magnitude, with that node's angle. */
  lemma DerPhaseReading(rows: seq<BusRow>, vmag: seq<real>, angles: seq<real>, derBuses: seq<string>, i: nat)
    requires IndexedWithin(rows, |vmag|) && |angles| == |vmag| && i < |derBuses|
    requires RowNamed(rows, derBuses[i]).Some?
    ensures ThreePhased(ReadRows(rows, vmag, angles))
    ensures var t := DerTerminals(ReadRows(rows, vmag, angles), derBuses);
      var c := rows[RowNamed(rows, derBuses[i]).value].phases;
      t.Ok? ==>
        (t.value.v[i].a.None? <==> c[0].nodeIndex == -1) &&
        (t.value.v[i].b.None? <==> c[1].nodeIndex == -1) &&
        (t.value.v[i].c.None? <==> c[2].nodeIndex == -1) &&
        (c[0].nodeIndex >= 0 ==> t.value.v[i].a == Some(vmag[c[0].nodeIndex]) && t.value.theta[i].a == angles[c[0].nodeIndex]) &&
        (c[1].nodeIndex >= 0 ==> t.value.v[i].b == Some(vmag[c[1].nodeIndex]) && t.value.theta[i].b == angles[c[1].nodeIndex]) &&
        (c[2].nodeIndex >= 0 ==> t.value.v[i].c == Some(vmag[c[2].nodeIndex]) && t.value.theta[i].c == angles[c[2].nodeIndex])
  {
    var rr := ReadRows(rows, vmag, angles);
    RowNamedByNames(rr, rows, derBuses[i]);
    if DerTerminals(rr, derBuses).Ok? {
      DerTerminalsRead(rr, derBuses, i);
    }
    var j := RowNamed(rows, derBuses[i]).value;
    MissingNodesReadNaN(rows, vmag, angles, j, 0);
    MissingNodesReadNaN(rows, vmag, angles, j, 1);
    MissingNodesReadNaN(rows, vmag, angles, j, 2);
  }

  // ---------------------------------------------------------------------------
  // The adapter

  class OpenDSSInterface {
    const dssFile: string
    /** `DER_sim_type`, absent until `initialize` gets past the regulators. */
    var derSimType: Option<string>
    var buses: seq<BusRow>
    var lines: seq<LineRow>
    var loads: seq<LoadRow>
    var generators: seq<DerRow>
    var genBusList: seq<string>
    var ders: seq<DerRow>
    var derBusList: seq<string>
    var vrStates: map<string, VrState>

    /** Compiling the file; no DERs and no regulators yet. */
    constructor(dssFile: string)
      ensures this.dssFile == dssFile && derSimType == None
      ensures ders == [] && derBusList == [] && vrStates == map[]
      ensures buses == [] && lines == [] && loads == [] && generators == [] && genBusList == []
    {
      this.dssFile := dssFile;
      derSimType := None;
      buses, lines, loads, generators, genBusList := [], [], [], [], [];
      ders, derBusList := [], [];
      vrStates := map[];
    }

    /** The tables `initialize` builds before the DERs: buses, lines, loads
        and generators, in the circuit's order. */
    method InitTables(e: Engine)
      requires Reported(e)
      modifies this`buses, this`lines, this`loads, this`generators, this`genBusList
      ensures buses == BusTable(e) && lines == LineTable(e) && loads == LoadTable(e)
      ensures generators == GeneratorTable(e) && genBusList == RowBuses(GeneratorTable(e))
    {
      var bs := Tabulate(e.busNames, n => BusRowOf(e, n));
      buses := bs;
      var ls := Tabulate(e.lineNames, n => LineRowOf(e, n));
      lines := ls;
      var lds := Tabulate(ElementNames(e.loadNames), n => LoadRowOf(e, n));
      loads := lds;
      var gs := Tabulate(ElementNames(e.generatorNames), n => GeneratorRowOf(e, n));
      generators := gs;
      genBusList := RowBuses(gs);
    }

    /** The DER-initialising branch: PV systems, current or voltage sources
        extend the DER bus list; generators replace the DERs and their bus
        list by the generator table's; no branch changes nothing. */
    method InitDers(branch: DerBranch, e: Engine)
      requires Reported(e)
      modifies this`ders, this`derBusList
      ensures branch == PVSystems ==> ders == PvTable(e) && derBusList == old(derBusList) + RowBuses(PvTable(e))
      ensures branch == ISources || branch == VSources ==>
        var vsource := branch == VSources;
        SourceTable(e, vsource, Prefixes(if vsource then VSourceNames(e.vsourceNames) else e.isourceNames), ders) &&
        derBusList == old(derBusList) + RowBuses(ders)
      ensures branch == Generators ==> ders == generators && derBusList == genBusList
      ensures branch == NoDerBranch ==> ders == old(ders) && derBusList == old(derBusList)
    {
      match branch
      case PVSystems =>
        var rows := Tabulate(ElementNames(e.pvNames), n => PvRowOf(e, n));
        ders := rows;
        derBusList := derBusList + RowBuses(rows);
      case ISources =>
        var rows := SourceRows(e, false);
        ders := rows;
        derBusList := derBusList + RowBuses(rows);
      case VSources =>
        var rows := SourceRows(e, true);
        ders := rows;
        derBusList := derBusList + RowBuses(rows);
      case Generators =>
        ders := generators;
        derBusList := genBusList;
      case NoDerBranch =>
    }

    /** `initialize`: the type check, the tables, the regulators, then the
        DERs of the branch the exact spelling selects. A regulator whose
        winding picks no bus stops it with the regulators entered so far. */
    method Initialize(t: string, e: Engine) returns (err: Option<string>)
      requires Reported(e)
      modifies this
      ensures BranchFor(t).Err? ==> err == Some(BranchFor(t).error) && unchanged(this)
      ensures BranchFor(t).Ok? ==>
        buses == BusTable(e) && lines == LineTable(e) && loads == LoadTable(e) &&
        generators == GeneratorTable(e) && genBusList == RowBuses(GeneratorTable(e)) &&
        (vrStates, err.None?) == Entered(VrEntry(e), old(vrStates), ElementNames(e.regNames))
      ensures err.Some? ==> derSimType == old(derSimType) && ders == old(ders) && derBusList == old(derBusList)
      ensures err.None? ==> derSimType == Some(t)
      ensures err.None? && BranchFor(t) == Ok(PVSystems) ==>
        ders == PvTable(e) && derBusList == old(derBusList) + RowBuses(PvTable(e))
      ensures err.None? && (BranchFor(t) == Ok(ISources) || BranchFor(t) == Ok(VSources)) ==>
        var vsource := BranchFor(t) == Ok(VSources);
        SourceTable(e, vsource, Prefixes(if vsource then VSourceNames(e.vsourceNames) else e.isourceNames), ders) &&
        derBusList == old(derBusList) + RowBuses(ders)
      ensures err.None? && BranchFor(t) == Ok(Generators) ==> ders == generators && derBusList == genBusList
      ensures err.None? && BranchFor(t) == Ok(NoDerBranch) ==> ders == old(ders) && derBusList == old(derBusList)
    {
      var branch := BranchFor(t);
      if branch.Err? {
        return Some(branch.error);
      }
      InitTables(e);
      var vrs, ok := VrRows(e, vrStates, ElementNames(e.regNames));
      vrStates := vrs;
      if !ok {
        return Some("list index out of range");
      }
      derSimType := Some(t);
      InitDers(branch.value, e);
      err := None;
    }

    /** `read_sys_voltage` on the engine's per-unit magnitudes `vmag` and
        angles `angles` of every node: each phase column read from the node
        arrays, then NaN where the bus has no node of that phase. */
    method ReadSysVoltage(vmag: seq<real>, angles: seq<real>)
      requires IndexedWithin(buses, |vmag|) && |angles| == |vmag|
      modifies this`buses
      ensures buses == ReadRows(old(buses), vmag, angles)
    {
      var rows := buses;
      for k := 0 to 3
        invariant IndexedWithin(rows, |vmag|) && |rows| == |buses|
        invariant forall i :: 0 <= i < |rows| ==>
          rows[i].name == buses[i].name && rows[i].kVBaseLL == buses[i].kVBaseLL &&
          rows[i].nPhases == buses[i].nPhases && rows[i].distance == buses[i].distance &&
          rows[i].x == buses[i].x && rows[i].y == buses[i].y
        invariant forall i, q :: 0 <= i < |rows| && 0 <= q < 3 ==>
          rows[i].phases[q] == (if q < k then
            buses[i].phases[q].(vpu := Some(NumpyAt(vmag, buses[i].phases[q].nodeIndex)),
                                theta := NumpyAt(angles, buses[i].phases[q].nodeIndex))
            else buses[i].phases[q])
      {
        rows := ReadColumn(rows, k, vmag, angles);
      }
      for k := 0 to 3
        invariant |rows| == |buses| && forall i :: 0 <= i < |rows| ==> |rows[i].phases| == 3
        invariant forall i :: 0 <= i < |rows| ==>
          rows[i].name == buses[i].name && rows[i].kVBaseLL == buses[i].kVBaseLL &&
          rows[i].nPhases == buses[i].nPhases && rows[i].distance == buses[i].distance &&
          rows[i].x == buses[i].x && rows[i].y == buses[i].y
        invariant forall i, q :: 0 <= i < |rows| && 0 <= q < 3 ==>
          rows[i].phases[q] == (if q < k then ReadCell(buses[i].phases[q], vmag, angles)
            else buses[i].phases[q].(vpu := Some(NumpyAt(vmag, buses[i].phases[q].nodeIndex)),
                                     theta := NumpyAt(angles, buses[i].phases[q].nodeIndex)))
      {
        rows := MarkMissing(rows, k);
      }
      assert forall i :: 0 <= i < |rows| ==> rows[i] == ReadRows(buses, vmag, angles)[i];
      buses := rows;
    }
  }
}
