/** The time-series figures of `TimePlots` and `CombinedTimePlots`: one list
    of per-step records per subplot, their conversion to data frames, the
    y-axis limits of the animation, the time axis and animation frames, and
    the column-wise combination of several simulations. Drawing is not part
    of this model. Arithmetic is on exact reals. */
module TimeSeries {
  import opened Wrappers

  /** One named value of a record. */
  datatype Entry = Entry(name: string, value: real)

  /** The dictionary one subplot receives at one time step, in the order
      its keys were written. */
  type Record = seq<Entry>

  /** A data-frame column; `None` is a missing cell (NaN). */
  datatype Column = Column(name: string, cells: seq<Option<real>>)

  /** A data frame with a range index of `rows` rows. */
  datatype Frame = Frame(columns: seq<Column>, rows: nat)

  ghost predicate WellFormed(f: Frame)
  {
    forall k :: 0 <= k < |f.columns| ==> |f.columns[k].cells| == f.rows
  }

  predicate Distinct(s: seq<string>)
  {
    forall i, j :: 0 <= i < j < |s| ==> s[i] != s[j]
  }

  function NamesIn(r: Record): set<string>
  {
    set e | e in r :: e.name
  }

  function Nones(n: nat): (r: seq<Option<real>>)
    ensures |r| == n && forall i :: 0 <= i < n ==> r[i].None?
  {
    seq(n, i => None)
  }

  // ---------------------------------------------------------- records to frames

  /** The value a record holds for a name: the last entry with that name
      wins, as in a dictionary display. */
  function Get(r: Record, name: string): (v: Option<real>)
    ensures v.None? <==> name !in NamesIn(r)
  {
    if |r| == 0 then None
    else if r[|r| - 1].name == name then Some(r[|r| - 1].value)
    else
      assert NamesIn(r) == NamesIn(r[..|r| - 1]) + {r[|r| - 1].name} by {
        assert r == r[..|r| - 1] + [r[|r| - 1]];
      }
      Get(r[..|r| - 1], name)
  }

  /** The names of a record appended to `acc` in order of first appearance,
      skipping those already there. */
  function AddNames(acc: seq<string>, r: Record): (out: seq<string>)
    ensures |acc| <= |out| && out[..|acc|] == acc
    ensures forall n :: n in out <==> n in acc || n in NamesIn(r)
    ensures Distinct(acc) ==> Distinct(out)
    decreases |r|
  {
    if |r| == 0 then acc
    else
      var a := if r[0].name in acc then acc else acc + [r[0].name];
      assert NamesIn(r) == {r[0].name} + NamesIn(r[1..]) by {
        assert r == [r[0]] + r[1..];
      }
      AddNames(a, r[1..])
  }

  /** Every name some record of the list holds. */
  function AllNames(records: seq<Record>): set<string>
  {
    if |records| == 0 then {} else AllNames(records[..|records| - 1]) + NamesIn(records[|records| - 1])
  }

  lemma {:induction false} AllNamesHas(records: seq<Record>, j: nat)
    requires j < |records|
    ensures NamesIn(records[j]) <= AllNames(records)
    decreases |records|
  {
    if j < |records| - 1 {
      AllNamesHas(records[..|records| - 1], j);
    }
  }

  /** The columns of the frame built from a list of records: every name
      that occurs, once, in order of first appearance. */
  function Names(records: seq<Record>): (r: seq<string>)
    ensures Distinct(r)
    ensures forall n :: n in r <==> n in AllNames(records)
  {
    if |records| == 0 then [] else AddNames(Names(records[..|records| - 1]), records[|records| - 1])
  }

  lemma NamesSnoc(records: seq<Record>, r: Record)
    ensures Names(records + [r]) == AddNames(Names(records), r)
    ensures AllNames(records + [r]) == AllNames(records) + NamesIn(r)
  {
    assert (records + [r])[..|records|] == records;
  }

  /** The cells of the column for `name`, one per record. */
  function CellsFor(records: seq<Record>, name: string): (c: seq<Option<real>>)
    ensures |c| == |records| && forall j :: 0 <= j < |records| ==> c[j] == Get(records[j], name)
  {
    seq(|records|, j requires 0 <= j < |records| => Get(records[j], name))
  }

  /** `pd.DataFrame(records)`: one row per record, one column per name, a
      missing cell where a record lacks the name. */
  function FrameOf(records: seq<Record>): (f: Frame)
    ensures WellFormed(f) && f.rows == |records| && |f.columns| == |Names(records)|
    ensures forall k :: 0 <= k < |f.columns| ==>
      f.columns[k] == Column(Names(records)[k], CellsFor(records, Names(records)[k]))
  {
    var names := Names(records);
    Frame(seq(|names|, k requires 0 <= k < |names| => Column(names[k], CellsFor(records, names[k]))),
          |records|)
  }

  lemma CellsForSnoc(records: seq<Record>, r: Record, name: string)
    ensures CellsFor(records + [r], name) == CellsFor(records, name) + [Get(r, name)]
  {
    var all := records + [r];
    assert forall j :: 0 <= j < |records| ==> all[j] == records[j];
  }

  /** A name no earlier record holds has a missing cell in every earlier row. */
  lemma {:induction false} CellsForAbsent(records: seq<Record>, name: string)
    requires name !in AllNames(records)
    ensures CellsFor(records, name) == Nones(|records|)
  {
    forall j | 0 <= j < |records|
      ensures Get(records[j], name).None?
    {
      AllNamesHas(records, j);
    }
  }

  /** Appending a record adds one row: the existing columns keep their
      cells and gain the record's value, the record's new names become
      columns after them that are missing in every earlier row. */
  lemma FrameOfSnoc(records: seq<Record>, r: Record)
    ensures var f, g := FrameOf(records), FrameOf(records + [r]);
      g.rows == f.rows + 1 && |f.columns| <= |g.columns| &&
      (forall k :: 0 <= k < |f.columns| ==>
        g.columns[k].name == f.columns[k].name &&
        g.columns[k].cells == f.columns[k].cells + [Get(r, f.columns[k].name)]) &&
      (forall k :: |f.columns| <= k < |g.columns| ==>
        g.columns[k].name in NamesIn(r) &&
        g.columns[k].cells == Nones(f.rows) + [Get(r, g.columns[k].name)])
  {
    NamesSnoc(records, r);
    var acc, out := Names(records), Names(records + [r]);
    assert out[..|acc|] == acc;
    forall k | 0 <= k < |acc|
      ensures out[k] == acc[k]
      ensures CellsFor(records + [r], out[k]) == CellsFor(records, acc[k]) + [Get(r, acc[k])]
    {
      assert out[k] == out[..|acc|][k];
      CellsForSnoc(records, r, acc[k]);
    }
    forall k | |acc| <= k < |out|
      ensures out[k] in NamesIn(r)
      ensures CellsFor(records + [r], out[k]) == Nones(|records|) + [Get(r, out[k])]
    {
      NewName(acc, out, r, k);
      CellsForSnoc(records, r, out[k]);
      CellsForAbsent(records, out[k]);
    }
  }

  /** A name past the old names in `AddNames` is new and comes from the record. */
  lemma NewName(acc: seq<string>, out: seq<string>, r: Record, k: nat)
    requires out == AddNames(acc, r) && Distinct(out) && |acc| <= k < |out|
    ensures out[k] !in acc && out[k] in NamesIn(r)
  {
    assert out[..|acc|] == acc;
  }

  // ------------------------------------------------------------ y-limits

  function SeqMin(s: seq<real>): (m: real)
    requires |s| > 0
    ensures m in s && forall i :: 0 <= i < |s| ==> m <= s[i]
  {
    if |s| == 1 then s[0]
    else
      var m := SeqMin(s[1..]);
      assert forall i :: 1 <= i < |s| ==> s[i] == s[1..][i - 1];
      if s[0] <= m then s[0] else m
  }

  function SeqMax(s: seq<real>): (m: real)
    requires |s| > 0
    ensures m in s && forall i :: 0 <= i < |s| ==> s[i] <= m
  {
    if |s| == 1 then s[0]
    else
      var m := SeqMax(s[1..]);
      assert forall i :: 1 <= i < |s| ==> s[i] == s[1..][i - 1];
      if s[0] >= m then s[0] else m
  }

  /** The y-axis limits for a subplot's values: the data range padded by
      10% on each side, +-0.1 around a constant, and `[-0.1, 1.1]` when
      there is nothing to take a minimum of. */
  function YLimits(values: seq<real>): (real, real)
  {
    if |values| == 0 then (-0.1, 1.1)
    else
      var lo, hi := SeqMin(values), SeqMax(values);
      var ymin, ymax := lo - (hi - lo) * 0.1, hi + (hi - lo) * 0.1;
      if ymin == ymax then (ymin - 0.1, ymax + 0.1) else (ymin, ymax)
  }

  /** The limits always form a proper range and every value lies strictly
      inside it; the padding is a tenth of the data range on each side
      unless the data are constant. */
  lemma YLimitsContain(values: seq<real>)
    ensures YLimits(values).0 < YLimits(values).1
    ensures forall i :: 0 <= i < |values| ==> YLimits(values).0 < values[i] < YLimits(values).1
    ensures |values| == 0 ==> YLimits(values) == (-0.1, 1.1)
    ensures |values| > 0 && SeqMin(values) < SeqMax(values) ==>
      YLimits(values).1 - YLimits(values).0 == (SeqMax(values) - SeqMin(values)) * 1.2 &&
      YLimits(values).0 == SeqMin(values) - (SeqMax(values) - SeqMin(values)) * 0.1
    ensures |values| > 0 && SeqMin(values) == SeqMax(values) ==>
      YLimits(values) == (SeqMin(values) - 0.1, SeqMin(values) + 0.1)
  {
    if |values| > 0 {
      var lo, hi := SeqMin(values), SeqMax(values);
      assert lo <= values[0] <= hi;
    }
  }

  /** Every cell of a frame, column by column. */
  function Cells(cols: seq<Column>): (r: seq<Option<real>>)
    ensures forall k, j :: 0 <= k < |cols| && 0 <= j < |cols[k].cells| ==> cols[k].cells[j] in r
    ensures forall c :: c in r ==> exists k :: 0 <= k < |cols| && c in cols[k].cells
  {
    if |cols| == 0 then []
    else
      var front := cols[..|cols| - 1];
      var r := Cells(front) + cols[|cols| - 1].cells;
      assert forall k :: 0 <= k < |front| ==> front[k] == cols[k];
      r
  }

  predicate AllPresent(cells: seq<Option<real>>)
  {
    forall i :: 0 <= i < |cells| ==> cells[i].Some?
  }

  function Present(cells: seq<Option<real>>): (r: seq<real>)
    requires AllPresent(cells)
    ensures |r| == |cells| && forall i :: 0 <= i < |cells| ==> r[i] == cells[i].value
  {
    seq(|cells|, i requires 0 <= i < |cells| => cells[i].value)
  }

  /** The limits `prepare_ani` sets for one subplot. A missing cell makes
      the minimum NaN and setting NaN limits raises: `None`. */
  function YLimitsOf(f: Frame): (r: Option<(real, real)>)
    ensures r.None? <==> !AllPresent(Cells(f.columns))
    ensures r.Some? ==> r.value.0 < r.value.1
    ensures r.Some? ==> forall k, j :: 0 <= k < |f.columns| && 0 <= j < |f.columns[k].cells| ==>
      f.columns[k].cells[j].Some? && r.value.0 < f.columns[k].cells[j].value < r.value.1
  {
    var cells := Cells(f.columns);
    if !AllPresent(cells) then None
    else
      var v := Present(cells);
      YLimitsContain(v);
      forall k, j | 0 <= k < |f.columns| && 0 <= j < |f.columns[k].cells|
        ensures f.columns[k].cells[j].Some? && YLimits(v).0 < f.columns[k].cells[j].value < YLimits(v).1
      {
        var i :| 0 <= i < |cells| && cells[i] == f.columns[k].cells[j];
        assert v[i] == cells[i].value;
      }
      Some(YLimits(v))
  }

  // ------------------------------------------------------ time and animation

  /** The time stamps of a trace of `n` samples at step `ts`. */
  function TimeAxis(n: nat, ts: real): (r: seq<real>)
    ensures |r| == n && forall i :: 0 <= i < n ==> r[i] == (i as real) * ts
  {
    seq(n, i => (i as real) * ts)
  }

  /** What animation frame `ii` draws of one trace: the first `ii` samples
      and their time stamps (a slice past the end stops at the end). */
  function AnimFrame(cells: seq<Option<real>>, ii: nat, ts: real): (r: (seq<real>, seq<Option<real>>))
  {
    var m := if ii <= |cells| then ii else |cells|;
    (TimeAxis(|cells|, ts)[..m], cells[..m])
  }

  /** Frame `ii` shows exactly the first `min(ii, n)` samples at their time
      stamps, each frame extends the previous one, and from frame `n` on the
      whole trace is shown. */
  lemma AnimFrameShows(cells: seq<Option<real>>, ii: nat, ts: real)
    ensures var (x, y) := AnimFrame(cells, ii, ts);
      |x| == |y| == (if ii <= |cells| then ii else |cells|) &&
      (forall i :: 0 <= i < |x| ==> x[i] == (i as real) * ts && y[i] == cells[i])
    ensures AnimFrame(cells, ii, ts).0 <= AnimFrame(cells, ii + 1, ts).0
    ensures AnimFrame(cells, ii, ts).1 <= AnimFrame(cells, ii + 1, ts).1
    ensures ii >= |cells| ==> AnimFrame(cells, ii, ts) == (TimeAxis(|cells|, ts), cells)
  {
    if ii >= |cells| {
      assert TimeAxis(|cells|, ts)[..|cells|] == TimeAxis(|cells|, ts);
      assert cells[..|cells|] == cells;
    }
  }

  // ----------------------------------------------------------- one figure

  /** `add_to_traces(*args)`: argument `i` appended to list `i`, lists past
      the last argument unchanged; arguments past the last list are not
      stored. */
  function Appended(traces: seq<seq<Record>>, args: seq<Record>): (r: seq<seq<Record>>)
    ensures |r| == |traces|
    ensures forall i :: 0 <= i < |traces| && i < |args| ==> r[i] == traces[i] + [args[i]]
    ensures forall i :: |args| <= i < |traces| ==> r[i] == traces[i]
  {
    seq(|traces|, i requires 0 <= i < |traces| => if i < |args| then traces[i] + [args[i]] else traces[i])
  }

  /** The number of trace lists allocated for a `rows` by `cols` figure:
      one list is always there, even for an empty grid. */
  function TraceCount(rows: int, cols: int): (r: nat)
    ensures r >= 1 && (rows * cols >= 1 ==> r == rows * cols)
  {
    if rows * cols >= 1 then rows * cols else 1
  }

  class TimePlots {
    const rows: int
    const cols: int
    const numOfSubplots: int
    /** One list of records per subplot. */
    var traces: seq<seq<Record>>

    ghost predicate Valid()
      reads this
    {
      numOfSubplots == rows * cols && |traces| == TraceCount(rows, cols)
    }

    constructor(rows: int, cols: int)
      ensures Valid() && this.rows == rows && this.cols == cols
      ensures forall i :: 0 <= i < |traces| ==> traces[i] == []
    {
      this.rows := rows;
      this.cols := cols;
      numOfSubplots := rows * cols;
      var t: seq<seq<Record>> := [[]];
      var i := 0;
      while i < rows * cols - 1
        invariant 0 <= i && |t| == i + 1
        invariant i > 0 ==> i <= rows * cols - 1
        invariant forall k :: 0 <= k < |t| ==> t[k] == []
      {
        t := t + [[]];
        i := i + 1;
      }
      traces := t;
    }

    /** Appends argument `i` to list `i`. More arguments than lists raise
        an IndexError (`ok` false) after the earlier lists have been
        extended. */
    method AddToTraces(args: seq<Record>) returns (ok: bool)
      requires Valid()
      modifies this`traces
      ensures Valid()
      ensures ok <==> |args| <= |old(traces)|
      ensures traces == Appended(old(traces), args)
    {
      var i := 0;
      while i < |args|
        invariant 0 <= i <= |args| && i <= |traces| && |traces| == |old(traces)|
        invariant traces == Appended(old(traces), args[..i])
      {
        if i >= |traces| {
          assert Appended(old(traces), args[..i]) == Appended(old(traces), args);
          return false;
        }
        traces := traces[i := traces[i] + [args[i]]];
        i := i + 1;
      }
      assert args[..i] == args;
      ok := true;
    }

    /** The frames `prepare` turns the subplots' lists into. */
    function Frames(): (r: seq<Frame>)
      reads this
      ensures |r| == |traces| && forall i :: 0 <= i < |r| ==> r[i] == FrameOf(traces[i])
    {
      seq(|traces|, i requires 0 <= i < |traces| reads this => FrameOf(traces[i]))
    }
  }

  // ------------------------------------------------------ combining figures

  /** All columns of a list of frames, in order. */
  function AllColumns(fs: seq<Frame>): (r: seq<Column>)
  {
    if |fs| == 0 then [] else AllColumns(fs[..|fs| - 1]) + fs[|fs| - 1].columns
  }

  function MaxRows(fs: seq<Frame>): (m: nat)
    ensures forall j :: 0 <= j < |fs| ==> fs[j].rows <= m
  {
    if |fs| == 0 then 0
    else
      var m := MaxRows(fs[..|fs| - 1]);
      assert forall j :: 0 <= j < |fs| - 1 ==> fs[..|fs| - 1][j] == fs[j];
      if fs[|fs| - 1].rows >= m then fs[|fs| - 1].rows else m
  }

  /** A column extended with missing cells to `rows` rows. */
  function Pad(c: Column, rows: nat): (r: Column)
    ensures r.name == c.name
    ensures |c.cells| <= rows ==>
      (|r.cells| == rows && r.cells[..|c.cells|] == c.cells &&
       forall j :: |c.cells| <= j < rows ==> r.cells[j].None?)
  {
    if |c.cells| <= rows then Column(c.name, c.cells + Nones(rows - |c.cells|)) else c
  }

  /** `pd.concat(frames, axis=1)` of range-indexed frames: every column of
      every frame side by side, the shorter ones padded with missing cells. */
  function ConcatFrames(fs: seq<Frame>): (r: Frame)
    ensures r.rows == MaxRows(fs) && |r.columns| == |AllColumns(fs)|
    ensures forall k :: 0 <= k < |r.columns| ==> r.columns[k] == Pad(AllColumns(fs)[k], MaxRows(fs))
  {
    var all := AllColumns(fs);
    Frame(seq(|all|, k requires 0 <= k < |all| => Pad(all[k], MaxRows(fs))), MaxRows(fs))
  }

  /** Where the columns of frame `j` start in the combination. */
  function Offset(fs: seq<Frame>, j: nat): nat
    requires j <= |fs|
  {
    |AllColumns(fs[..j])|
  }

  /** The columns of a prefix of the frames are a prefix of all columns. */
  lemma {:induction false} AllColumnsPrefix(fs: seq<Frame>, m: nat)
    requires m <= |fs|
    ensures |AllColumns(fs[..m])| <= |AllColumns(fs)|
    ensures AllColumns(fs)[..|AllColumns(fs[..m])|] == AllColumns(fs[..m])
    decreases |fs|
  {
    if m < |fs| {
      var front := fs[..|fs| - 1];
      assert front[..m] == fs[..m];
      AllColumnsPrefix(front, m);
      assert AllColumns(fs) == AllColumns(front) + fs[|fs| - 1].columns;
    } else {
      assert fs[..m] == fs;
    }
  }

  /** Column `k` of frame `j` sits at `Offset(fs, j) + k` of the
      combination, keeps its name, keeps its cells as the first rows and is
      missing below them. */
  lemma ConcatFramesColumns(fs: seq<Frame>, j: nat, k: nat)
    requires j < |fs| && WellFormed(fs[j]) && k < |fs[j].columns|
    ensures Offset(fs, j) + k < |ConcatFrames(fs).columns|
    ensures var c := ConcatFrames(fs).columns[Offset(fs, j) + k];
      c.name == fs[j].columns[k].name && |c.cells| == MaxRows(fs) &&
      c.cells[..fs[j].rows] == fs[j].columns[k].cells &&
      forall i :: fs[j].rows <= i < MaxRows(fs) ==> c.cells[i].None?
  {
    assert fs[..j + 1][..j] == fs[..j];
    assert AllColumns(fs[..j + 1]) == AllColumns(fs[..j]) + fs[j].columns;
    AllColumnsPrefix(fs, j + 1);
    assert AllColumns(fs)[Offset(fs, j) + k] == fs[j].columns[k];
  }

  /** The frames that `combine_time_plots` joins for subplot `i` from a
      list of figures' record lists. */
  function SourceFrames(plots: seq<seq<seq<Record>>>, i: nat): (r: seq<Frame>)
    requires forall t :: 0 <= t < |plots| ==> i < |plots[t]|
    ensures |r| == |plots| && forall t :: 0 <= t < |plots| ==> r[t] == FrameOf(plots[t][i])
  {
    seq(|plots|, t requires 0 <= t < |plots| => FrameOf(plots[t][i]))
  }

  /** The frames joined for subplot `i` from a list of saved frame lists. */
  function ListFrames(lists: seq<seq<Frame>>, i: nat): (r: seq<Frame>)
    requires forall t :: 0 <= t < |lists| ==> i < |lists[t]|
    ensures |r| == |lists| && forall t :: 0 <= t < |lists| ==> r[t] == lists[t][i]
  {
    seq(|lists|, t requires 0 <= t < |lists| => lists[t][i])
  }

  /** Every source holds at least `n` subplots. */
  predicate Reaches<T>(sources: seq<seq<T>>, n: int)
  {
    forall t :: 0 <= t < |sources| ==> n <= |sources[t]|
  }

  /** How many subplots the saved-lists pass writes before it raises: none
      for an empty list (nothing to concatenate), otherwise up to the
      shortest source. */
  function Reach<T>(sources: seq<seq<T>>, n: int): (r: nat)
    ensures |sources| == 0 ==> r == 0
    ensures |sources| > 0 ==> r <= |sources[0]|
    ensures Reaches(sources, r) && (n >= 0 ==> r <= n)
    ensures |sources| > 0 && Reaches(sources, n) && n >= 0 ==> r == n
    ensures |sources| > 0 && n >= 0 && r < n ==> exists t :: 0 <= t < |sources| && |sources[t]| == r
  {
    if |sources| == 0 || n <= 0 then 0
    else
      var s := MinLen(sources);
      if s <= n then s else n
  }

  function MinLen<T>(sources: seq<seq<T>>): (m: nat)
    requires |sources| > 0
    ensures Reaches(sources, m) && exists t :: 0 <= t < |sources| && |sources[t]| == m
  {
    if |sources| == 1 then |sources[0]|
    else
      var m := MinLen(sources[1..]);
      assert forall t :: 1 <= t < |sources| ==> sources[t] == sources[1..][t - 1];
      if |sources[0]| <= m then |sources[0]| else m
  }

  /** A list of sources the combination takes `n` subplots from without
      raising. */
  predicate Combinable<T>(sources: seq<seq<T>>, n: int)
  {
    n <= 0 || (|sources| > 0 && Reaches(sources, n))
  }

  class CombinedTimePlots {
    const numOfSubplots: int
    /** One frame per subplot; an empty list is the empty frame. */
    var traces: seq<Frame>

    ghost predicate Valid()
      reads this
    {
      |traces| == (if numOfSubplots >= 1 then numOfSubplots else 1)
    }

    constructor(rows: int, cols: int)
      ensures Valid() && numOfSubplots == rows * cols
      ensures forall i :: 0 <= i < |traces| ==> traces[i] == Frame([], 0)
    {
      numOfSubplots := rows * cols;
      traces := seq(TraceCount(rows, cols), i => Frame([], 0));
    }

    /** The figure-list pass: subplot `i` becomes the column-wise join of
        subplot `i` of every figure. A figure with fewer subplots raises an
        IndexError, an empty list a ValueError; either leaves every subplot
        as it was. */
    method CombinePlots(plots: seq<seq<seq<Record>>>) returns (ok: bool)
      requires Valid()
      modifies this`traces
      ensures Valid()
      ensures ok <==> Combinable(plots, numOfSubplots)
      ensures !ok ==> traces == old(traces)
      ensures ok ==> forall i :: 0 <= i < |traces| ==>
        traces[i] == if i < numOfSubplots then ConcatFrames(SourceFrames(plots, i)) else old(traces)[i]
    {
      if numOfSubplots <= 0 {
        return true;
      }
      var t := 0;
      while t < |plots|
        invariant 0 <= t <= |plots| && Reaches(plots[..t], numOfSubplots)
      {
        if |plots[t]| < numOfSubplots {
          return false;
        }
        t := t + 1;
      }
      assert plots[..t] == plots;
      if |plots| == 0 {
        return false;
      }
      var i := 0;
      while i < numOfSubplots
        invariant 0 <= i <= numOfSubplots && |traces| == numOfSubplots
        invariant forall k :: 0 <= k < |traces| ==>
          traces[k] == if k < i then ConcatFrames(SourceFrames(plots, k)) else old(traces)[k]
      {
        traces := traces[i := ConcatFrames(SourceFrames(plots, i))];
        i := i + 1;
      }
      ok := true;
    }

    /** The saved-lists pass: subplot `i` becomes the column-wise join of
        entry `i` of every list. It raises at the first subplot some list
        lacks (or at once for an empty list), after the subplots before it
        have been set. */
    method CombineLists(lists: seq<seq<Frame>>) returns (ok: bool)
      requires Valid()
      modifies this`traces
      ensures Valid()
      ensures ok <==> Combinable(lists, numOfSubplots)
      ensures forall i :: 0 <= i < |traces| ==>
        traces[i] == if i < Reach(lists, numOfSubplots) then ConcatFrames(ListFrames(lists, i)) else old(traces)[i]
    {
      var n := Reach(lists, numOfSubplots);
      var i := 0;
      while i < n
        invariant 0 <= i <= n && |traces| == |old(traces)|
        invariant forall k :: 0 <= k < |traces| ==>
          traces[k] == if k < i then ConcatFrames(ListFrames(lists, k)) else old(traces)[k]
      {
        traces := traces[i := ConcatFrames(ListFrames(lists, i))];
        i := i + 1;
      }
      ok := numOfSubplots <= 0 || (|lists| > 0 && n == numOfSubplots);
    }

    /** `combine_time_plots`: the figure-list pass when figures are given,
        then the saved-lists pass when lists are given; an exception in the
        first pass skips the second. */
    method CombineTimePlots(plots: Option<seq<seq<seq<Record>>>>, lists: Option<seq<seq<Frame>>>) returns (ok: bool)
      requires Valid()
      modifies this`traces
      ensures Valid()
      ensures plots.Some? && !Combinable(plots.value, numOfSubplots) ==> !ok && traces == old(traces)
      ensures plots.None? || Combinable(plots.value, numOfSubplots) ==>
        (ok <==> lists.None? || Combinable(lists.value, numOfSubplots)) &&
        forall i :: 0 <= i < |traces| ==>
          traces[i] == if lists.Some? && i < Reach(lists.value, numOfSubplots) then ConcatFrames(ListFrames(lists.value, i))
                       else if plots.Some? && i < numOfSubplots then ConcatFrames(SourceFrames(plots.value, i))
                       else old(traces)[i]
    {
      ok := true;
      if plots.Some? {
        ok := CombinePlots(plots.value);
        if !ok {
          return;
        }
      }
      if lists.Some? {
        ok := CombineLists(lists.value);
      }
    }
  }
}
