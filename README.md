# OpenDER interface: a verified model of its core

OpenDER_interface couples the OpenDER model of distributed energy resources
(DERs) to a power-flow engine (OpenDSS). Each DER is evaluated by OpenDER.
The engine solves the circuit. The interface repeats both until voltages and
powers agree. This project models, in Dafny, the parts of the package that
hold their own logic:

- **Voltage regulator** (`voltage_regulator.dfy`). `VRModel` is the tap
  controller `VR_Model`: conditioning of the regulating voltage, the
  Idle/OV/UV hysteresis, the control and tap timers, bounded tap moves and
  the switch counter. `Step` gives one tick as a value. Scenario lemmas
  derive the tap-by-tap timeline for the default delays.
- **Convergence bookkeeping** (`convergence_rules.dfy`, `der_objects.dfy`).
  These are the per-DER lists that both interface classes keep: raw,
  damped and previous P/Q, voltages, check flags and converged flags. They
  are modelled as one value `Book`, with one function per private helper
  and `After`, the iteration run k times.
- **`DERInterface`** (`der_interface.dfy`): circuit selection, name matching
  in `create_opender_objs`, power routing, regulator-tap exchange with the
  circuit, `run` (the DERs fed the circuit's voltages, then every regulator
  ticked), and `der_convergence_process` (at most 300 iterations, each on
  copies of the DERs).
- **`OpenDERInterface`** (`opender_interface.dfy`): the older variant. It
  copies ratings from the circuit tables, damps with 0.5/0.5, runs at most
  100 iterations on the real DERs, forces the DER time step to 10000 during
  the loop and defaults `run`. It models the AttributeError raised when no
  circuit was opened, and the one raised when the DER objects were never
  created.
- **OpenDSS adapter rules** (`opendss_interface.dfy`):
  - `cmd` dispatch and DER-type validation in `initialize`;
  - node indices and `'NONE'` name lists;
  - bus and source name normalisation;
  - regulating buses and winding currents;
  - line phase letters;
  - the engine settings written by `update_der_info` and
    `update_der_output_powers`, with their unit conversions;
  - the tables `initialize` builds and the voltages `read_sys_voltage`
    stores.
- **XY plots** (`xy_plot.dfy`): the per-unit conversions `__calc_S` and
  `__calc_P`, the volt-var curve, the frequency-droop breakpoints, and the
  two point lists of `XYPlots`.
- **Time plots** (`time_plots.dfy`): the trace lists of `TimePlots`, their
  conversion to column tables (records to a frame), the y-limit padding, the
  time axis, animation frames and the column-wise combination done by
  `CombinedTimePlots`.
- `wrappers.dfy`, `strings.dfy` and `phasor.dfy` hold helpers:
  - Option/Result;
  - the Python string operations the adapter uses;
  - complex numbers.

The engine, OpenDER's evaluation of a DER, and transcendental functions
appear as function-valued parameters ("oracles"). The most important of
these is `probe(writes, i)`. It gives the `(v, p, q)` that DER `i` reports
after the circuit has received the sequence `writes` of P/Q set-points. The
interface classes record their calls on the circuit and on the DERs in a
`calls` log of `Event`s, so that the order of runs, writes and solves is
part of each contract.

Behaviour of the code worth noting:

- **Damping applies to every DER.** Damping is applied to every DER
  whenever at least one DER exists. The guard tests whether the check list
  is non-empty, not the DER's own flag.
- **The P-output fallback sets Q.** When the P check list is empty, the
  fallback of `__calculate_p_out` assigns `q_out := q_inv` (both classes).
- **Only volt-watt is damped in P.** `p_check` holds for volt-watt only,
  not for every voltage-dependent mode.
- **The regulators tick on every `run`.** DERInterface's `run` steps every
  regulator model also when it evaluates the copies, so one convergence
  process ticks each regulator once per iteration and once more at the end.
- **Convergence failure is silent.** A failed convergence returns nothing
  (`None`) after a message. It is not signalled as an error.
- **The branch dispatch is case-sensitive.** `initialize` validates the DER
  type case-insensitively but dispatches case-sensitively, so `'PVsystem'`
  initialises no DER table.

## Model

All source paths are below `src/opender_interface/`, except where a path
says otherwise.

| member | source | states |
|---|---|---|
| VoltageRegulator.DefaultConfig | src/opender_interface/voltage_regulator.py:23-36 | the default delays 30 s and 2 s, reference 120 V, deadband 2 V and tap range ±16 |
| VoltageRegulator.VRModel.constructor | src/opender_interface/voltage_regulator.py:37-54 | a new regulator is Idle with Ti_ctrl = 0, Ti_tap = Td_tap, no switches and tap = tap_ini |
| VoltageRegulator.Step | src/opender_interface/voltage_regulator.py:76-103 | one tick records the sensed voltage, moves the tap by at most one, counts a switch exactly when the tap changes, and zeroes Ti_tap exactly on a move (otherwise adds Ts) |
| VoltageRegulator.StepWithinLimits | src/opender_interface/voltage_regulator.py:93-103 | with whole limits, a whole tap between them stays whole and between them after a tick |
| VoltageRegulator.DeadbandForcesIdle | src/opender_interface/voltage_regulator.py:76-93 | the state is Idle iff the voltage is neither above nor below the band; inside the band (edges included) or with a NaN voltage, Ti_ctrl is 0 and the tap and counter do not change |
| VoltageRegulator.OverBandTimer | src/opender_interface/voltage_regulator.py:76-81 | above the band the state is OV; Ti_ctrl grows by Ts when already OV and restarts at 0 when entering OV |
| VoltageRegulator.UnderBandTimer | src/opender_interface/voltage_regulator.py:82-87 | the symmetric rule for UV below the band |
| VoltageRegulator.TapMoveRule | src/opender_interface/voltage_regulator.py:92-103 | the tap moves down iff Ti_ctrl > Td_ctrl (strict), the state is OV, Ti_tap + Ts >= Td_tap and tap > tap_min; it moves up under the UV counterpart |
| VoltageRegulator.BoundStopsMove | src/opender_interface/voltage_regulator.py:93-103 | at a bound an attempted move leaves tap and counter unchanged and Ti_tap still grows by Ts |
| VoltageRegulator.Mean | src/opender_interface/voltage_regulator.py:73 | the mean of an empty array is NaN, of a non-empty one a number |
| VoltageRegulator.Compensation | src/opender_interface/voltage_regulator.py:69-72 | the line-drop term fails (division by zero) iff currents are given and CT_Primary is 0; it is all zeros, one per voltage, when no current is given |
| VoltageRegulator.Broadcast | src/opender_interface/voltage_regulator.py:73 | numpy broadcasting of Vsec − Vldc fails iff the lengths differ and neither is 1; equal lengths subtract elementwise |
| VoltageRegulator.RegulatingVoltage | src/opender_interface/voltage_regulator.py:65-74 | a supplied Vreg is used unchanged; otherwise a zero PT ratio with voltages present is a division error |
| VoltageRegulator.NoCurrentNoCompensation | src/opender_interface/voltage_regulator.py:68-73 | without currents the regulating voltage is the mean magnitude of Vpri/PT_Ratio, and NaN without voltages |
| VoltageRegulator.VRModel.Run | src/opender_interface/voltage_regulator.py:59-106 | run fails exactly when the voltage conditioning fails and then changes nothing; otherwise the new state is Step of the old one, V and Vreg record the voltage used and the new tap is returned |
| VoltageRegulator.VRModel.UpdateMode | src/opender_interface/voltage_regulator.py:75-90 | the mode and control timer become the hysteresis of the old state: OV over the band, UV under it, the timer counting on only while the mode stays, Idle with a zero timer otherwise |
| VoltageRegulator.VRModel.OperateTap | src/opender_interface/voltage_regulator.py:91-103 | the tap timer advances by Ts; past both delays OV lowers and UV raises the tap by one if within its limits, counting a switch and zeroing the tap timer; otherwise tap and count stay |
| VoltageRegulator.BeforeFirstMove | src/opender_interface/voltage_regulator.py:76-98 | with the default delays and a constant over-band voltage, the first 31 calls enter and stay in OV with Ti_ctrl = k − 1 and no tap move |
| VoltageRegulator.MoveCadence | src/opender_interface/voltage_regulator.py:92-98 | after the first move on call 32, a tap-down follows every second call while the tap is above tap_min |
| VoltageRegulator.SaturatesAtMin | src/opender_interface/voltage_regulator.py:93-98 | from call 30 + 2·(tap_ini − tap_min) on, the tap rests at tap_min with exactly tap_ini − tap_min switches |
| VoltageRegulator.DefaultOverVoltageScenario | src/opender_interface/voltage_regulator.py:24-98 | defaults, Ts = 1 and tap_ini = 0: no move before call 32, then 16 moves two calls apart, then tap −16 and 16 switches forever |
| ConvergenceRules.AllTrueIff | src/opender_interface/der_interface.py:429 | `all(flags)` holds iff every flag holds |
| ConvergenceRules.Damped | src/opender_interface/der_interface.py:437-438 | the damped list pairs raw and previous values (zip length) and gives previous + δ·(raw − previous) for each |
| ConvergenceRules.MarkWithin | src/opender_interface/der_interface.py:397-419 | a criterion flag ends true iff it was true or the two values are within the tolerance |
| ConvergenceRules.MarkModes | src/opender_interface/der_interface.py:336-347 | a check flag ends true iff it was true or the DER's mode condition holds |
| ConvergenceRules.Reset | src/opender_interface/der_interface.py:388-395 | converged is false and every V, P and Q flag is false, one per DER |
| ConvergenceRules.InitializeSetsFlags | src/opender_interface/der_interface.py:349-359 | after initialisation: first iteration, not converged, q_check iff watt-var or volt-var, p_check iff volt-watt, and all converged flags false |
| ConvergenceRules.ReadRaw | src/opender_interface/der_interface.py:366-370 | an iteration starts from the reset flags and the raw P, Q and V read from the DERs |
| ConvergenceRules.DampAndShiftEffect | src/opender_interface/der_interface.py:372-378 | a later iteration damps all P and Q whenever a DER exists, marks each criterion, converges iff it already was or all three flag lists are all true, then shifts voltages and outputs into the history |
| ConvergenceRules.Iteration | src/opender_interface/der_interface.py:361-386 | an iteration keeps the list sizes, modes, check flags and damping factors and always leaves the first-iteration phase |
| ConvergenceRules.FirstIterationSeeds | src/opender_interface/der_interface.py:379-386 | the first iteration copies the raw values into outputs and history, copies the voltages, and does not converge |
| ConvergenceRules.LaterIterationDampsAll | src/opender_interface/der_interface.py:372-378 | later iterations give every DER its damped P and Q and move outputs and voltages into the history |
| ConvergenceRules.RelaxResidual | src/opender_interface/der_interface.py:437-448 | the damped output misses the raw value by exactly abs(1 − δ)·abs(raw − previous) |
| ConvergenceRules.RelaxBetween | src/opender_interface/der_interface.py:437-448 | for 0 ≤ δ ≤ 1 the damped value lies no farther from raw or previous than they lie from each other |
| ConvergenceRules.LaterEntryAt | src/opender_interface/der_interface.py:366-419 | per DER, a later iteration's new entries and its three criterion flags, each an iff with its tolerance test |
| ConvergenceRules.LaterFlagsAt | src/opender_interface/der_interface.py:397-419 | a DER's three flags all hold iff the DER settled: voltage, P and Q each within tolerance |
| ConvergenceRules.LaterConvergedFlags | src/opender_interface/der_interface.py:421-430 | converged iff all three flag lists are all true |
| ConvergenceRules.ConvergedIff | src/opender_interface/der_interface.py:397-430 | a later iteration converges iff every DER settled |
| ConvergenceRules.EmptyBranchHarmless | src/opender_interface/der_interface.py:432-450 | a check list is empty only without DERs, when the fallback branches (including the one that sets q_out) change nothing |
| ConvergenceRules.After | src/opender_interface/der_interface.py:460-469 | k iterations keep the list sizes, yield k writes and leave the first-iteration phase once k > 0 |
| ConvergenceRules.AfterNext | src/opender_interface/der_interface.py:460-469 | iteration k + 1 applies Iteration to the samples read after the first k writes and appends its outputs as the next write |
| ConvergenceRules.UnsettledBeforeIff | src/opender_interface/der_interface.py:460 | the loop reaches iteration k iff none of the first k iterations converged |
| ConvergenceRules.ConvergedStepSettled | src/opender_interface/der_interface.py:421-430 | a converging iteration is never the first and leaves every DER settled |
| ConvergenceRules.ConvergedAfterSettled | src/opender_interface/der_interface.py:457-469 | a fresh run converges no earlier than the second iteration, and then with every DER settled |
| DerObjects.WithVoltage | src/opender_interface/der_interface.py:318 | `update_der_input(v_pu=list(V), theta=list(theta))` sets the DER's per-phase voltages (NaN phases included) and angles and nothing else |
| DerObjects.WithVoltages | src/opender_interface/der_interface.py:316-318 | every DER the zip pairs with the reading gets its bus's voltage and angle triples, the others are untouched, and nothing else changes |
| DerObjects.UpdateInputs | src/opender_interface/der_interface.py:316-318 | the zip loop over the DERs and a reading computes WithVoltages |
| DerObjects.CoveringReadingWins | src/opender_interface/der_interface.py:316-318 | a reading that covers every DER makes the earlier terminal inputs irrelevant |
| DerObjects.FedKeeps | src/opender_interface/opender_interface.py:224-227 | however many iterations fed the DERs, only their terminal voltages and angles changed |
| DerObjects.FedLastReading | src/opender_interface/opender_interface.py:218-227 | when the last reading covers every DER, the DERs after the loop are the original ones with that reading's voltages and angles |
| DerObjects.ModesOf | src/opender_interface/der_interface.py:155 | one mode record per DER file, in order |
| DerObjects.FreshBook | src/opender_interface/der_interface.py:153-176 | the lists are rebuilt with one entry per DER and not converged; the first-iteration flag and damping factors are kept |
| DerObjects.IterationCalls | src/opender_interface/der_interface.py:462-468 | one iteration issues a fixed number of calls on the DERs and the circuit |
| DerObjects.LoopCallsLength | src/opender_interface/der_interface.py:460-469 | k iterations issue exactly k times that many calls |
| DerObjects.LoopCallsBlock | src/opender_interface/der_interface.py:460-469 | the calls of iteration k form the k-th block of the log |
| DerObjects.LoopStep | src/opender_interface/der_interface.py:460-469 | one more unconverged iteration extends the writes, the reached-iteration predicate and the log consistently |
| DerObjects.CopyLoopShape | src/opender_interface/der_interface.py:462-468 | inside the loop every DER run is on the copies and every write is followed directly by a solve |
| DerObjects.KindForName | src/opender_interface/der_interface.py:128-133 | a DER is PV iff its upper-cased name contains "PV", otherwise BESS |
| DerInterface.SelectCircuit | src/opender_interface/der_interface.py:45-50 | a tool object is used as given; a path that names a file becomes an OpenDSS circuit; any other path is an error naming it |
| DerInterface.DedupKeys | src/opender_interface/der_interface.py:122 | the dictionary built from circuit DER names holds each name once, in first-seen order, and equals the names when they are distinct |
| DerInterface.Broadcast | src/opender_interface/der_interface.py:121-122 | a single file is entered under every key |
| DerInterface.RowMatchesMembers | src/opender_interface/der_interface.py:126-127 | the entries matched for a row are exactly those whose name equals the row's, ignoring case |
| DerInterface.NewDer | src/opender_interface/der_interface.py:128-146 | a created DER takes the row's name and bus, PV/BESS by name, NP_V_DC = kV·1500 and NP_AC_V_NOM = kV·1000, f = 60 and the power as p_dem_pu (BESS) or p_dc_pu (PV) |
| DerInterface.RowObjectsFrom | src/opender_interface/der_interface.py:126-148 | every DER created for a row comes from one of its matches |
| DerInterface.FirstUnmatchedIsFirst | src/opender_interface/der_interface.py:150-151 | the error names the first visited row without a match, and there is none iff every visited row matched |
| DerInterface.FirstUnmatchedStays | src/opender_interface/der_interface.py:150-151 | a row without a match stays the first one as more rows are visited |
| DerInterface.OneFileMatchesEveryRow | src/opender_interface/der_interface.py:121-127 | a broadcast file matches every visited row |
| DerInterface.OneFileVisits | src/opender_interface/der_interface.py:122-124 | with one file the zip visits as many rows as there are distinct names, so all rows when names are distinct |
| DerInterface.CreatedFromMatches | src/opender_interface/der_interface.py:124-151 | every created DER comes from a visited row and a matching entry |
| DerInterface.MatchRow | src/opender_interface/der_interface.py:126-149 | the inner loop creates one DER, and logs one info update, per match of the row |
| DerInterface.WalkRows | src/opender_interface/der_interface.py:124-151 | the outer loop stops at the first unmatched row and reports it; otherwise it has walked min(rows, entries) rows |
| DerInterface.WithPowerInput | src/opender_interface/der_interface.py:487-491 | the power goes to p_dem_pu for BESS and p_dc_pu otherwise, with f = 60; nothing else changes |
| DerInterface.RoutePowers | src/opender_interface/der_interface.py:487-491 | DERs paired with a power receive it; those past the end of the list are unchanged |
| DerInterface.RoutePowersIdempotent | src/opender_interface/der_interface.py:487-491 | routing the same powers twice is routing them once |
| DerInterface.WriteTaps | src/opender_interface/der_interface.py:283-284 | writing taps keeps the table's regulators and fails, naming a regulator absent from the table, iff one is missing |
| DerInterface.ReadTaps | src/opender_interface/der_interface.py:292-293 | reading taps keeps one regulator per regulator |
| DerInterface.ReadTapsKeepsNames | src/opender_interface/der_interface.py:292-293 | reading taps changes no regulator's name |
| DerInterface.ReadOwnTaps | src/opender_interface/der_interface.py:292-293 | reading taps that the table already holds changes nothing and does not fail |
| DerInterface.WriteTapsOther | src/opender_interface/der_interface.py:283-284 | table entries of other regulators are untouched |
| DerInterface.WriteTapsSets | src/opender_interface/der_interface.py:283-284 | with distinct names present in the table, each regulator's tapPos becomes its tap |
| DerInterface.WriteThenReadTaps | src/opender_interface/der_interface.py:279-293 | writing taps and reading them back returns the same regulators without error |
| DerInterface.Tick | src/opender_interface/der_interface.py:323-327 | a regulator's tick fails iff conditioning its reading fails; otherwise the regulator keeps its name and settings |
| DerInterface.TickFirstShape | src/opender_interface/der_interface.py:323-327 | the regulator loop goes in order: without a failure the first i regulators are ticked each on its own reading and the rest untouched; names and settings are kept |
| DerInterface.TickFirstStops | src/opender_interface/der_interface.py:323-327 | a failing tick ends the loop: later regulators are never ticked |
| DerInterface.RoundsPerRegulator | src/opender_interface/der_interface.py:460-469 | without a failure, every regulator is ticked once per call of `run` in the loop, each time on its reading after the writes so far |
| DerInterface.TickedAloneInLimits | src/opender_interface/der_interface.py:323-327 | a regulator with a whole tap between whole limits keeps it there through any number of ticks |
| DerInterface.TickVrs | src/opender_interface/der_interface.py:323-327 | the regulator loop of `run` computes TickAll: each regulator ticked in order, the first error stopping it |
| DerInterface.DERInterface.constructor | src/opender_interface/der_interface.py:34-62 | an interface starts without DERs or regulators and with δq = 0.2, δp = 0.5 |
| DerInterface.DERInterface.CreateOpenderObjs | src/opender_interface/der_interface.py:106-178 | on a missing configuration: ValueError for the first unmatched row, with the DERs created before it kept and the lists untouched; otherwise all DERs created, buses and the fresh per-DER lists rebuilt and the DERs returned |
| DerInterface.DERInterface.UpdateDerPPu | src/opender_interface/der_interface.py:481-491 | the DERs become RoutePowers of the old DERs |
| DerInterface.DERInterface.WriteVrTaps | src/opender_interface/der_interface.py:279-285 | the taps go into the circuit's table; the write call follows only when no regulator was missing |
| DerInterface.DERInterface.UpdateVrTap | src/opender_interface/der_interface.py:287-293 | regulator taps become those in the circuit's table, failing on a missing one |
| DerInterface.DERInterface.ResetConverged | src/opender_interface/der_interface.py:388-395 | the lists become Reset of the old ones |
| DerInterface.DERInterface.CheckQFlags | src/opender_interface/der_interface.py:331-338 | the index loop sets q_check as CheckQ does |
| DerInterface.DERInterface.CheckPFlags | src/opender_interface/der_interface.py:340-347 | the index loop sets p_check as CheckP does |
| DerInterface.DERInterface.InitializeConvergenceLists | src/opender_interface/der_interface.py:349-359 | the lists become InitializeConvergence of the old ones |
| DerInterface.DERInterface.CheckConvergedFlags | src/opender_interface/der_interface.py:421-430 | the three criterion loops and the conjunction compute CheckConverged |
| DerInterface.DERInterface.CalculateQOutputs | src/opender_interface/der_interface.py:432-440 | q_out is computed as CalculateQOut |
| DerInterface.DERInterface.CalculatePOutputs | src/opender_interface/der_interface.py:442-450 | p_out is computed as CalculatePOut, including the fallback that sets q_out |
| DerInterface.DERInterface.ConvergenceIteration | src/opender_interface/der_interface.py:361-386 | one iteration on samples read from the copies is Iteration |
| DerInterface.DERInterface.Run | src/opender_interface/der_interface.py:303-327 | every DER paired with the reading gets its voltage and angle and is run; then the regulators become TickAll of the old ones, and `run` fails iff a tick failed, with that tick's error |
| DerInterface.InitializedUnconverged | src/opender_interface/der_interface.py:457-459 | the process starts unconverged, so the loop runs at least once |
| DerInterface.CopyRound | src/opender_interface/der_interface.py:461-469 | one pass of the loop body: the copies fed the latest reading and the regulators ticked; a failing tick ends the loop with its error, otherwise one more iteration of After is reached with its write and calls |
| DerInterface.CopyIterations | src/opender_interface/der_interface.py:460-469 | the while loop runs After for its iteration count, stops at the first converged iteration, at 300 or at the first failing regulator tick; the regulators are ticked once per iteration, the copies hold the inputs of the last iteration, and each iteration logs copy, run-copies, write and solve |
| DerInterface.ConvergenceProcess | src/opender_interface/der_interface.py:452-479 | the loop as above, then `run` on the real DERs with the reading after all the writes and one more regulator round, the write of their outputs and a solve; a tick error ends the process there; (p_out, q_out) is returned iff it converged |
| DerInterface.DERInterface.DerConvergenceProcess | src/opender_interface/der_interface.py:452-479 | initialise the lists, then ConvergenceProcess on the object's lists, DERs, copies and regulators, all of which take its results, with its calls appended to the log |
| DerInterface.SettledWithInterfaceFactors | src/opender_interface/der_interface.py:432-448 | with δq = 0.2 and δp = 0.5 a DER settles iff its voltage is still, 0.5·abs(p_raw − p_prev) ≤ P_TOL and 0.8·abs(q_raw − q_prev) ≤ Q_TOL |
| OpenDerInterface.TypesFor | src/opender_interface/opender_interface.py:26-27 | a single type is repeated for every circuit DER; a list is used as given |
| OpenDerInterface.KindForType | src/opender_interface/opender_interface.py:32-35 | the type "PV" gives DER_PV, anything else DER_BESS |
| OpenDerInterface.Rated | src/opender_interface/opender_interface.py:37-44 | the ratings are the circuit kVA, kw, kvar and kvarabs times 1000, NP_V_DC = kV·1500, NP_AC_V_NOM = kV·1000; modes and impedances are kept |
| OpenDerInterface.RatedDer | src/opender_interface/opender_interface.py:31-50 | a created DER has its kind, name, bus, rated file with settings applied, p_dc_pu and f = 60 |
| OpenDerInterface.Made | src/opender_interface/opender_interface.py:31-57 | the zip creates min(rows, types) DERs |
| OpenDerInterface.MadeVisits | src/opender_interface/opender_interface.py:26-31 | one type gives one DER per row; a type list gives min(rows, types) DERs of the listed kinds |
| OpenDerInterface.MadeRatings | src/opender_interface/opender_interface.py:37-44 | without settings each created DER carries the circuit's ratings and the default file's modes |
| OpenDerInterface.InitializeTimeStep | src/opender_interface/opender_interface.py:121-131 | lists keep their size; both damping factors become 0.5 |
| OpenDerInterface.InitializeTimeStepFlags | src/opender_interface/opender_interface.py:111-131 | first iteration, not converged, q_check iff watt-var or volt-var, p_check iff volt-watt, all flags cleared |
| OpenDerInterface.StartForgetsValues | src/opender_interface/opender_interface.py:70-83 | what create_opender_objs leaves in the value lists and damping factors is overwritten by initialize_time_step and the first iteration before anything reads it |
| OpenDerInterface.SettledWithHalfDamping | src/opender_interface/opender_interface.py:186-207 | with δ = 0.5 a DER settles iff its voltage is still and half the raw-to-previous P and Q steps are within tolerance |
| OpenDerInterface.ClocksReset | src/opender_interface/opender_interface.py:240-241 | every DER's time becomes 0 and nothing else changes |
| OpenDerInterface.RunInputs | src/opender_interface/opender_interface.py:247-258 | DERs paired by the zip receive their voltage and angle triples and p_dc_pu (1 without a list); the rest are untouched |
| OpenDerInterface.RunDefaultIsOne | src/opender_interface/opender_interface.py:250-252 | running without a list equals running with all ones |
| OpenDerInterface.ClIterations | src/opender_interface/opender_interface.py:218-236 | the while loop runs After for its count, stops at the first converged iteration or at 100, feeds the DERs each iteration's reading (Fed) and logs the calls of each iteration |
| OpenDerInterface.OnDersIterationShape | src/opender_interface/opender_interface.py:219-236 | each iteration solves first, runs the real DERs, then writes that iteration's outputs |
| OpenDerInterface.OpenDERInterface.constructor | src/opender_interface/opender_interface.py:13-21 | a circuit is opened only for a path containing ".dss"; no DERs yet, and nothing created |
| OpenDerInterface.OpenDERInterface.CreateOpenderObjs | src/opender_interface/opender_interface.py:24-91 | without a circuit, AttributeError and nothing changes; otherwise the made DERs are appended, the lists rebuilt for them, DER.t_s set when one was made, and the interface counts as created |
| OpenDerInterface.Begun | src/opender_interface/opender_interface.py:111-127 | what initialize_time_step leaves before `_check_p` fails: first iteration, flags cleared, damping flags all false, factors untouched |
| OpenDerInterface.BegunAgrees | src/opender_interface/opender_interface.py:121-131 | the interrupted start and the full one differ only in the damping flags and factors |
| OpenDerInterface.OpenDERInterface.InitializeTimeStepLists | src/opender_interface/opender_interface.py:116-131 | before any create, AttributeError on numberofders with the lists left as Begun; otherwise the lists become InitializeTimeStep of the old ones |
| OpenDerInterface.OpenDERInterface.ControlLoopIteration | src/opender_interface/opender_interface.py:133-154 | one iteration on samples read from the real DERs is Iteration |
| OpenDerInterface.OpenDERInterface.ResetClocks | src/opender_interface/opender_interface.py:240-241 | the DERs become ClocksReset of the old ones |
| OpenDerInterface.OpenDERInterface.IterateOnDers | src/opender_interface/opender_interface.py:218-236 | the loop on the object's lists and DERs, as ClIterations: the lists are After, the DERs Fed with each iteration's reading |
| OpenDerInterface.OpenDERInterface.Converge | src/opender_interface/opender_interface.py:214-244 | after a successful initialisation: the loop's result, its calls bracketed by the forced and restored time step and a final solve, DERs fed and clocks reset, outputs iff converged |
| OpenDerInterface.OpenDERInterface.DerConvergenceProcess | src/opender_interface/opender_interface.py:209-244 | before any create, the AttributeError of initialize_time_step and nothing else changed; otherwise the DER time step is 10000 during the loop and restored after one final solve; the DERs end with the inputs of the last iteration's reading and their clocks reset; (p_out, q_out) is returned iff converged |
| OpenDerInterface.OpenDERInterface.Run | src/opender_interface/opender_interface.py:247-258 | without a circuit, AttributeError and nothing changes; otherwise voltages are read, the DERs get RunInputs, and the DERs are run |
| OpenDssInterface.Replies | src/opender_interface/opendss_interface.py:54 | a list command gives one reply per line |
| OpenDssInterface.RepliesInOrder | src/opender_interface/opendss_interface.py:54 | the i-th reply is the engine's answer to line i after lines 0..i−1 |
| OpenDssInterface.CmdDispatch | src/opender_interface/opendss_interface.py:53-58 | a string gives one reply, a list one reply per line in order, anything else a ValueError |
| OpenDssInterface.BranchFor | src/opender_interface/opendss_interface.py:71-93 | a type is rejected iff its lower case is not one of the four; each branch is taken for exactly its case-sensitive name |
| OpenDssInterface.PVsystemInitialisesNothing | src/opender_interface/opendss_interface.py:71-93 | "PVsystem" passes validation and takes no DER branch |
| OpenDssInterface.PyIndex | src/opender_interface/opendss_interface.py:555 | Python list indexing: defined iff −len ≤ k < len, negative k counting from the end |
| OpenDssInterface.ElementNames | src/opender_interface/opendss_interface.py:179-181 | a list starting with 'NONE' means no elements, otherwise all names |
| OpenDssInterface.BusName | src/opender_interface/opendss_interface.py:196 | a DER bus name holds no '.' and no space |
| OpenDssInterface.BusNameNormal | src/opender_interface/opendss_interface.py:196 | the bus is the text before the first '.' without spaces, and normalising twice changes nothing |
| OpenDssInterface.SourcePrefix | src/opender_interface/opendss_interface.py:275 | a source DER name holds no '_' and no space |
| OpenDssInterface.Prefixes | src/opender_interface/opendss_interface.py:275-276 | the prefix set holds exactly the prefixes of the names |
| OpenDssInterface.DistinctPrefixes | src/opender_interface/opendss_interface.py:275-276 | the loop lists each prefix once and exactly the prefixes |
| OpenDssInterface.NoISourcesGiveNoneDer | src/opender_interface/opendss_interface.py:273-276 | without isources the name 'NONE' is not filtered out and becomes a DER |
| OpenDssInterface.VSourceNames | src/opender_interface/opendss_interface.py:307 | the first vsource (the substation) is skipped |
| OpenDssInterface.WindingBus | src/opender_interface/opendss_interface.py:554-556 | the winding's bus exists iff winding − 1 indexes the bracket-stripped list without its last element; it holds no space |
| OpenDssInterface.FillRegBus | src/opender_interface/opendss_interface.py:557-563 | the loop builds the regulating buses RegBuses |
| OpenDssInterface.ThreePhaseRegBus | src/opender_interface/opendss_interface.py:558-563 | a regulator without one phase gets base.1, base.2, base.3 from the text before the first '.', whatever node suffix it had |
| OpenDssInterface.WindingPhasors | src/opender_interface/opendss_interface.py:599-602 | one phasor per (magnitude, angle) pair of fields |
| OpenDssInterface.WindingSelection | src/opender_interface/opendss_interface.py:603-606 | winding 1 takes the even phasors, any other the negated odd ones; half as many as phasors |
| OpenDssInterface.PhaseLetter | src/opender_interface/opendss_interface.py:508 | chr(n + 64), a capital letter for 1..26 |
| OpenDssInterface.Letters | src/opender_interface/opendss_interface.py:507-508 | each node number maps to its letter, failing iff some number has no character |
| OpenDssInterface.LinePhaseLetters | src/opender_interface/opendss_interface.py:507-510 | a terminal without node numbers yields phases A, B, C; 1, 2, 3 are A, B, C |
| OpenDssInterface.UntaggedLineRecordsAll | src/opender_interface/opendss_interface.py:512-513 | a line whose name has no _a/_b/_c tag records every phase |
| OpenDssInterface.DerInfoSettings | src/opender_interface/opendss_interface.py:340-378 | the info update fails (division by zero) iff it is a vsource with zero NP_VA_MAX |
| OpenDssInterface.PvRatingsRoundTrip | src/opender_interface/opendss_interface.py:342-345 | ratings copied from a circuit row (×1000) are written back as the row's kVA, kw, kvar, kvarabs |
| OpenDssInterface.VSourceImpedances | src/opender_interface/opendss_interface.py:351-372 | a vsource's info update is the vsource settings: R0 and R1 carry NP_RESISTANCE in ohms on the base kV = √3·kvBase, kVA = NP_VA_MAX/1000, X0 and X1 likewise NP_REACTANCE, on all three phases, then baseMVA = NP_VA_MAX/10⁶ on phase c only |
| OpenDssInterface.OhmsOnVaBase | src/opender_interface/opendss_interface.py:352-358 | the ohmic value zPu·kV²/kVA·1000 on the kVA base NP_VA_MAX/1000 is zPu·kV²·10⁶/NP_VA_MAX |
| OpenDssInterface.OutputOf | src/opender_interface/opendss_interface.py:418-447 | a DER's output update has the fixed width of its type |
| OpenDssInterface.OwnP | src/opender_interface/opendss_interface.py:412-413 | the default P list is each DER's p_out_kw |
| OpenDssInterface.OwnQ | src/opender_interface/opendss_interface.py:415-416 | the default Q list is each DER's q_out_kvar |
| OpenDssInterface.Zipped | src/opender_interface/opendss_interface.py:418 | the zip pairs min(ders, p, q) entries, each giving that DER's update |
| OpenDssInterface.OutputBlocks | src/opender_interface/opendss_interface.py:412-447 | the k-th block of settings is DER k's update with its given or own P and Q |
| OpenDssInterface.OutputCount | src/opender_interface/opendss_interface.py:418 | the settings written number width × min(ders, p, q) |
| OpenDssInterface.ISourceAnglesInDegrees | src/opender_interface/opendss_interface.py:430-437 | isource angles are written in degrees: radians × 57.29577951308232 |
| OpenDssInterface.NodeIndex | src/opender_interface/opendss_interface.py:104-115 | the first position of "bus.k" in the node list, −1 iff absent |
| OpenDssInterface.BusRowOf | src/opender_interface/opendss_interface.py:102-132 | a bus row has three phases |
| OpenDssInterface.BusRowNodes | src/opender_interface/opendss_interface.py:116-131 | kVBaseLL = kv_base·√3, distance in miles (×0.621371) and each phase's node index, −1 iff the node is missing |
| OpenDssInterface.LineRowOf | src/opender_interface/opendss_interface.py:148-156 | line ends are bus names without node suffixes |
| OpenDssInterface.LoadRowOf | src/opender_interface/opendss_interface.py:183-200 | a load is of type 'load' with its bus normalised from its nodes |
| OpenDssInterface.GeneratorRowOf | src/opender_interface/opendss_interface.py:214-230 | a generator row keeps its name and has no kvarabs |
| OpenDssInterface.PvRowOf | src/opender_interface/opendss_interface.py:244-263 | a PV row keeps its name |
| OpenDssInterface.ISourceRowOf | src/opender_interface/opendss_interface.py:277-297 | an isource DER has the fixed ratings 100 kW, 44 kvar, 44 kvarabs, 100 kVA |
| OpenDssInterface.VSourceRowOf | src/opender_interface/opendss_interface.py:311-329 | a vsource DER's kw is baseMVA·1000 of its phase a, and kvar, kvarabs and kVA equal it |
| OpenDssInterface.BusTable | src/opender_interface/opendss_interface.py:100-133 | one row per bus name, in order |
| OpenDssInterface.LineTable | src/opender_interface/opendss_interface.py:146-169 | one row per line name, in order |
| OpenDssInterface.LoadTable | src/opender_interface/opendss_interface.py:179-201 | one row per load name after the 'NONE' rule |
| OpenDssInterface.GeneratorTable | src/opender_interface/opendss_interface.py:209-233 | one row per generator name after the 'NONE' rule |
| OpenDssInterface.PvTable | src/opender_interface/opendss_interface.py:240-266 | one row per PV name after the 'NONE' rule |
| OpenDssInterface.RowBuses | src/opender_interface/opendss_interface.py:231 | the bus list holds each row's bus, in order |
| OpenDssInterface.NoneMeansEmpty | src/opender_interface/opendss_interface.py:180-242 | 'NONE' lists give empty load, generator, PV and regulator tables; load and PV buses are normalised |
| OpenDssInterface.Tabulate | src/opender_interface/opendss_interface.py:100-133 | the append loop builds one row per name, in order |
| OpenDssInterface.SourceRows | src/opender_interface/opendss_interface.py:272-332 | the source loop yields a row for each distinct isource or vsource prefix |
| OpenDssInterface.EnteredOk | src/opender_interface/opendss_interface.py:540-565 | filling vrStates succeeds iff every regulator's entry can be built |
| OpenDssInterface.EnteredEntries | src/opender_interface/opendss_interface.py:540-565 | on success vrStates gains exactly the regulators' names, each mapped to its entry |
| OpenDssInterface.VrRows | src/opender_interface/opendss_interface.py:540-565 | the loop fills vrStates in place as Entered does, stopping at the first failing regulator |
| OpenDssInterface.MissingNodesReadNaN | src/opender_interface/opendss_interface.py:471-477 | a phase reads NaN iff its node index is −1; otherwise its node's magnitude and angle |
| OpenDssInterface.ReadColumn | src/opender_interface/opendss_interface.py:471-473 | reading a phase column keeps every row and node index |
| OpenDssInterface.MarkMissing | src/opender_interface/opendss_interface.py:476-477 | marking NaNs keeps every row's three phases |
| OpenDssInterface.RowNamed | src/opender_interface/opendss_interface.py:487 | `buses.loc[bus]` selects the first row named `bus`, or fails when no row has that name |
| OpenDssInterface.VoltagesOf | src/opender_interface/opendss_interface.py:487 | a DER's voltage reading is its bus row's Vpu_A, Vpu_B and Vpu_C |
| OpenDssInterface.AnglesOf | src/opender_interface/opendss_interface.py:495 | a DER's angle reading is its bus row's Theta_A, Theta_B and Theta_C |
| OpenDssInterface.DerTerminals | src/opender_interface/opendss_interface.py:484-495 | on success, one voltage triple and one angle triple per DER bus |
| OpenDssInterface.DerTerminalsRead | src/opender_interface/opendss_interface.py:484-495 | DER i's triples are those of the row its bus names, in DER order |
| OpenDssInterface.DerTerminalsFails | src/opender_interface/opendss_interface.py:484-495 | the reading fails iff some DER bus has no row, and then names the first such bus |
| OpenDssInterface.DerPhaseReading | src/opender_interface/opendss_interface.py:465-495 | after read_sys_voltage a DER's phase voltage is NaN iff its bus has no node of that phase, otherwise that node's magnitude and angle |
| OpenDssInterface.OpenDSSInterface.constructor | src/opender_interface/opendss_interface.py:40-47 | a new adapter has no DERs, no bus list and no regulators |
| OpenDssInterface.OpenDSSInterface.InitTables | src/opender_interface/opendss_interface.py:74-77 | buses, lines, loads and generators are the engine's tables, and the generator bus list their buses |
| OpenDssInterface.OpenDSSInterface.InitDers | src/opender_interface/opendss_interface.py:81-93 | each branch installs its DER table and extends the DER bus list as the source does; generators reuse their table |
| OpenDssInterface.OpenDSSInterface.Initialize | src/opender_interface/opendss_interface.py:71-93 | an invalid type fails with nothing changed; otherwise all tables and vrStates are built, then the DER branch runs (vrStates failing stops it) |
| OpenDssInterface.OpenDSSInterface.ReadSysVoltage | src/opender_interface/opendss_interface.py:463-477 | the bus table's phases become ReadRows of the engine's magnitudes and angles |
| XyPlot.CalcS | src/opender_interface/xy_plot.py:170-179 | the identity in pu, otherwise times NP_VA_MAX/1000 |
| XyPlot.CalcSLinear | src/opender_interface/xy_plot.py:176-179 | the conversion maps 0 to 0 and preserves sums and negation |
| XyPlot.CalcP | src/opender_interface/xy_plot.py:181-191 | the conversion fails iff pu with zero NP_VA_MAX; otherwise result × divisor = value × (NP_P_MAX if value > 0 else NP_P_MAX_CHARGE) |
| XyPlot.CalcPSign | src/opender_interface/xy_plot.py:187-191 | zero maps to zero; with positive ratings the sign is kept both ways |
| XyPlot.CalcPMonotone | src/opender_interface/xy_plot.py:187-191 | with positive ratings the conversion is monotone |
| XyPlot.VqCurve | src/opender_interface/xy_plot.py:340-346 | six points from V = 0.85 to 1.15 through the setpoints V1..V4, Q converted, flat Q1 and Q4 at the ends |
| XyPlot.XYPlots.VqScatter | src/opender_interface/xy_plot.py:349-350 | one scatter point per saved DER: its voltage and converted Q |
| XyPlot.PMinEff | src/opender_interface/xy_plot.py:503-506 | a negative minimum is rescaled by NP_P_MAX_CHARGE/NP_P_MAX, otherwise kept |
| XyPlot.UfSideOnLine | src/opender_interface/xy_plot.py:492-499 | p1 = p2 = min(p_avl, droop at UF2_TRIP_F), and (f2, p2) lies on the under-frequency droop line |
| XyPlot.OfSideOnLine | src/opender_interface/xy_plot.py:501-514 | p3 = p4 = max(effective minimum, droop at OF2_TRIP_F), and (f3, p3) lies on the over-frequency droop line |
| XyPlot.DroopPoints | src/opender_interface/xy_plot.py:516-518 | seven frequencies against seven powers |
| XyPlot.DroopShape | src/opender_interface/xy_plot.py:492-518 | end points at the trip frequencies, p_pre across the dead band 60−DBUF..60+DBOF, flat ends, corners on the droop lines |
| XyPlot.UfDroopFalls | src/opender_interface/xy_plot.py:493 | for positive PF_KUF the under-frequency droop strictly falls with frequency |
| XyPlot.OfDroopFalls | src/opender_interface/xy_plot.py:508 | for positive PF_KOF the over-frequency droop strictly falls with frequency |
| XyPlot.UfSideOrdered | src/opender_interface/xy_plot.py:492-499 | for sane settings f1 ≤ f2 ≤ 60 − DBUF and p2 ≥ p_pre |
| XyPlot.OfSideOrdered | src/opender_interface/xy_plot.py:501-514 | for sane settings 60 + DBOF ≤ f3 ≤ f4 and p3 ≤ p_pre |
| XyPlot.DroopMonotone | src/opender_interface/xy_plot.py:492-518 | for sane settings frequencies rise and powers fall along the seven points |
| XyPlot.FpCurve | src/opender_interface/xy_plot.py:516-518 | the plotted curve keeps the frequencies and converts every power |
| XyPlot.AvlAt | src/opender_interface/xy_plot.py:487-490 | p_avl is 1 without a list, else the i-th entry, an IndexError past its end |
| XyPlot.FpCurves | src/opender_interface/xy_plot.py:486-518 | the loop succeeds iff there is nothing to plot or the droop is defined and every p_avl exists; then one curve per p_pre |
| XyPlot.XYPlots.constructor | src/opender_interface/xy_plot.py:42-86 | a plot keeps its DER, file and pu choice, with no saved points |
| XyPlot.XYPlots.AddPointToPlot | src/opender_interface/xy_plot.py:124-132 | exactly one snapshot is appended (of the constructor's DER by default), adding one scatter point |
| XyPlot.XYPlots.AddMeasurementToPlot | src/opender_interface/xy_plot.py:149-162 | exactly one {V, P, Q, F} record is appended |
| TimeSeries.Get | src/opender_interface/time_plots.py:83 | a record's cell is NaN iff it has no such key |
| TimeSeries.AddNames | src/opender_interface/time_plots.py:83 | new keys extend the column list after the old ones, each once |
| TimeSeries.Names | src/opender_interface/time_plots.py:83 | the columns are the keys of all records, each once |
| TimeSeries.NamesSnoc | src/opender_interface/time_plots.py:83 | one more record adds only its new keys at the end |
| TimeSeries.CellsFor | src/opender_interface/time_plots.py:83 | a column holds each record's value for its key |
| TimeSeries.FrameOf | src/opender_interface/time_plots.py:83 | the frame has one row per record and one column per key in order |
| TimeSeries.CellsForSnoc | src/opender_interface/time_plots.py:83 | one more record adds one cell to a column |
| TimeSeries.CellsForAbsent | src/opender_interface/time_plots.py:83 | a key no record has gives an all-NaN column |
| TimeSeries.FrameOfSnoc | src/opender_interface/time_plots.py:67-83 | after one more add_to_traces, old columns gain the new value and new ones start with NaNs |
| TimeSeries.SeqMin | src/opender_interface/time_plots.py:161 | the minimum of the data |
| TimeSeries.SeqMax | src/opender_interface/time_plots.py:162 | the maximum of the data |
| TimeSeries.YLimitsContain | src/opender_interface/time_plots.py:160-171 | ymin < ymax with every value strictly inside; [−0.1, 1.1] without data; 10% padding each side; ±0.1 for constant data |
| TimeSeries.YLimitsOf | src/opender_interface/time_plots.py:160-172 | the limits of a frame exist iff no cell is NaN, and then contain every cell |
| TimeSeries.TimeAxis | src/opender_interface/time_plots.py:87 | sample i is at time i·t_s |
| TimeSeries.AnimFrameShows | src/opender_interface/time_plots.py:190-191 | frame ii shows exactly the first ii samples (all of them from the trace length on), and frames only grow |
| TimeSeries.Appended | src/opender_interface/time_plots.py:67-68 | argument i is appended to trace list i; lists past the arguments are unchanged |
| TimeSeries.TraceCount | src/opender_interface/time_plots.py:41-49 | rows·cols trace lists, at least one |
| TimeSeries.TimePlots.constructor | src/opender_interface/time_plots.py:34-49 | the plot holds TraceCount(rows, cols) empty trace lists |
| TimeSeries.TimePlots.AddToTraces | src/opender_interface/time_plots.py:51-68 | the loop appends each argument; it fails (IndexError) iff there are more arguments than lists, after appending the ones that fit |
| TimeSeries.TimePlots.Frames | src/opender_interface/time_plots.py:82-83 | prepare turns every trace list into its frame |
| TimeSeries.MaxRows | src/opender_interface/time_plots.py:233 | the concatenation has as many rows as the longest frame |
| TimeSeries.Pad | src/opender_interface/time_plots.py:233 | a shorter column keeps its cells and is filled with NaN |
| TimeSeries.ConcatFrames | src/opender_interface/time_plots.py:233 | the concatenation holds all columns in order, padded to the longest frame |
| TimeSeries.ConcatFramesColumns | src/opender_interface/time_plots.py:232-233 | column k of source j sits at its offset with its name and cells, NaN below |
| TimeSeries.SourceFrames | src/opender_interface/time_plots.py:228-233 | subplot i of every source plot, as frames |
| TimeSeries.ListFrames | src/opender_interface/time_plots.py:239-240 | subplot i of every trace list |
| TimeSeries.Reach | src/opender_interface/time_plots.py:239-240 | the subplots written before an IndexError: all of them iff every source has enough |
| TimeSeries.CombinedTimePlots.constructor | src/opender_interface/time_plots.py:214-221 | rows·cols empty subplots |
| TimeSeries.CombinedTimePlots.CombinePlots | src/opender_interface/time_plots.py:227-233 | succeeds iff every source has every subplot, and then subplot i is the concatenation of subplot i of every source; nothing changes on failure |
| TimeSeries.CombinedTimePlots.CombineLists | src/opender_interface/time_plots.py:235-240 | succeeds iff every list has every subplot; subplots up to the failing one are concatenated |
| TimeSeries.CombinedTimePlots.CombineTimePlots | src/opender_interface/time_plots.py:223-240 | plots first, then trace lists overwrite, with the failure of either as above |

## Left out

- The OpenDSS engine and OpenDER's DER model are not modelled; they are
  oracles. Covered by this: `py_dss_interface`, `solve`, `der.run`,
  `update_der_input`, `ridethroughperf` and `get_der_output`.
- Floating point is not modelled. Reals are exact, so rounding, `np.sqrt`,
  `np.exp`, `cmath.phase`, `np.abs` of phasors and complex division are
  not modelled.
- The phasor arithmetic of the regulator input is partly modelled.
  Magnitudes and arctangents are oracle parameters; the mean is exact.
- Copies of DER objects are values. `deepcopy` is therefore not modelled,
  nor is any aliasing between objects.
- Plotting and file output are left out:
  - matplotlib rendering, titles and labels;
  - `savefig`, pickle, ffmpeg animation objects;
  - every `print`.
- Only part of OpenDSSInterface is modelled. Not modelled:
  - `load_scaling` and `set_source_voltage`;
  - `enable/disable_control`, and `read_vr`/`write_vr` of the adapter;
  - the line-current formula `conj(s/v)` in `read_line_flow`.
  The reason is that they only pass data to or from the engine.
- The plain passes of DERInterface and OpenDERInterface to the circuit are
  not modelled. Those are `cmd`, `initialize`, `read_*`,
  `solve_power_flow`, `load_scaling` and OpenDERInterface's
  `create_vr_objs`. DERInterface's `run` is modelled (DERInterface.Run),
  with the regulator readings as an oracle.
- DERInterface's `create_vr_objs` is not modelled. It passes `name=` to
  `VR_Model`, whose constructor has no such parameter
  (der_interface.py:237-250, voltage_regulator.py:24-37), so as written it
  raises TypeError for any circuit with a regulator. The model takes the
  regulator list `vrObjs` as given, each regulator with a name.
- DerInterface.RowMatchesMembers and DerInterface.DERInterface.CreateOpenderObjs
  compare names upper-cased with ASCII letters only. Python's `str.upper()`
  is full Unicode, so it matches names such as "Straße" with "STRASSE"
  ('ß' becomes "SS") and "pıv" with "PIV" ('ı' becomes 'I'); the model
  reports the ValueError for such a row where the source creates a DER.
- OpenDerInterface.OpenDERInterface.CreateOpenderObjs stores zeros in the
  value lists and keeps the damping factors, where the source stores lists
  of None in both (opender_interface.py:70-83) and never sets
  `_cl_first_iteration` before `initialize_time_step`. Python therefore
  fails in a `control_loop_iteration` called straight after creation,
  where the model computes. `der_convergence_process` always calls
  `initialize_time_step` first, and OpenDerInterface.StartForgetsValues
  shows that the values dropped are never read on that path.
- OpenDerInterface.OpenDERInterface.ControlLoopIteration does not model its
  AttributeError before any `create_opender_objs`. A later iteration's
  `_check_v_criteria` then reads the missing `numberofders`
  (opender_interface.py:162-163), where the model computes one on no DERs.
- DerInterface.DERInterface.UpdateVrTap stores the table's `tapPos` as a
  real, as Python stores whatever the table holds. The tap bounds of
  DerInterface.TickedAloneInLimits and VoltageRegulator.StepWithinLimits
  hold for whole taps between whole limits only.
- The DER time step in DERInterface is not modelled. The global `DER.t_s`
  assignments in the DERInterface constructor and `create_opender_objs`
  (der_interface.py:54, 142) are left out. OpenDERInterface models that
  global as its field `derTs`.
- DERInterface.CreateOpenderObjs does not model the BESS file conversion
  `DERCommonFileFormatBESS(convert=...)`. It keeps one file record for
  both kinds of DER.
- The regulator tables of the two sides are each modelled as written.
  DERInterface writes and reads `ckt.VRs[name]['tapPos']`, while the
  OpenDSS adapter keeps `vrStates` and writes `'UpdatedTap'`. The model
  does not treat them as one working pipeline.
- The isource/vsource output branches of `update_der_output_powers` are
  partly modelled. The currents and voltages written come from the DER
  model as oracle values; only the unit factors are modelled.
- XYPlots models only the named parts. Left out:
  - the P-Q, V-P and three-phase voltage plots;
  - the `_kva`-style rating fields;
  - the other `prepare_*` material.
  The DER file is treated as fixed during a plot's life.
- XyPlot.CalcP models division by a zero NP_VA_MAX as an error. It does not
  model numpy's inf/nan. The same holds for FpCurves when PF_KUF, PF_KOF
  or NP_P_MAX is zero.
- TimeSeries.CombinedTimePlots.CombinePlots does not model a side effect.
  The source does convert each source plot's lists to DataFrames in place.
- TimeSeries.FrameOf builds pandas frames only from records with
  range-indexed rows. Titles, labels and the leaked loop variable `trace`
  in `set_xlim` are left out.
- TimeSeries.TimePlots.Frames is modelled as a function and not as a
  replacement. `prepare` replaces each trace list with its frame.
- TimeSeries.CombinedTimePlots.constructor starts from empty frames. The
  source starts from the empty trace lists of `TimePlots.__init__`.
- OpenDssInterface.PhaseLetter returns None for a surrogate code point,
  because a Dafny `char` cannot hold one; Python's `chr` returns it and
  `read_line_flow` goes on. OpenDssInterface.PhaseRecorded lower-cases
  ASCII letters only, where `phase.lower()` is full Unicode, so for node
  numbers of 128 and above (chr(192) is 'À') it tests a different tag.
- The interfaces' terminal readings `read(writes)` are oracles for what
  OpenDssInterface.DerTerminals gives on the buses table after the engine
  has solved with those writes; the engine's solve itself is not modelled.
- OpenDssInterface.OpenDSSInterface.ReadSysVoltage requires every node
  index to address the engine's arrays. numpy would raise IndexError
  otherwise, and that error path is not modelled.
- OpenDssInterface.LoadTable, GeneratorTable, PvTable, InitTables and
  Initialize require `Reported`. The name lists read at index 0 are never
  empty, because OpenDSS reports `'NONE'` for a class without elements.
- DerInterface.DERInterface.ConvergenceIteration and
  OpenDerInterface.OpenDERInterface.ControlLoopIteration take one sample
  per DER. The raw values come from the DER list itself.
- XyPlot.PMinEff requires NP_P_MAX ≠ 0 for a negative minimum. FpCurves
  returns None for that case instead.
- TimeSeries.SeqMin and TimeSeries.SeqMax require data. The empty case is
  the ValueError branch of YLimits.
