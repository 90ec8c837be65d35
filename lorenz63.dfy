/**
 The Lorenz-63 plugin: the vector field, the forward-Euler trajectory, the
 rule that picks the trajectory file, the writer, and the plugin object
 whose `Predict` ties them together. Doubles are modelled as exact reals.
 */
module Plugin {
  import opened Decimal
  import opened PluginTypes

  // ---------------------------------------------------------------------------
  // Vector field and integrator
  // ---------------------------------------------------------------------------

  /**
   `Lorenz63::system`: the Lorenz (1963) vector field at `s`. The time step
   `dt` is accepted and never read.
   */
  function Field(p: Param, s: State, dt: real): (d: State)
    ensures s.x == s.y ==> d.x == 0.0
    ensures s.x == 0.0 && s.y == 0.0 ==> d.x == 0.0 && d.y == 0.0 && d.z == -p.beta * s.z
  {
    State(p.sigma * (s.y - s.x), (p.rho - s.z) * s.x - s.y, s.x * s.y - p.beta * s.z)
  }

  /** The field is autonomous: the `dt` argument has no effect. */
  lemma FieldIgnoresDt(p: Param, s: State, dt1: real, dt2: real)
    ensures Field(p, s, dt1) == Field(p, s, dt2)
  {
  }

  /** The mirror image (x, y, z) -> (-x, -y, z). */
  function Mirror(s: State): State {
    State(-s.x, -s.y, s.z)
  }

  /** The Lorenz field is symmetric under the mirror map, for every parameter. */
  lemma FieldMirror(p: Param, s: State, dt: real)
    ensures Field(p, Mirror(s), dt) == Mirror(Field(p, s, dt))
  {
    MirrorX(p, s, dt);
    MirrorY(p, s, dt);
    MirrorZ(p, s, dt);
  }

  lemma MirrorX(p: Param, s: State, dt: real)
    ensures Field(p, Mirror(s), dt).x == -Field(p, s, dt).x
  {
  }

  lemma MirrorY(p: Param, s: State, dt: real)
    ensures Field(p, Mirror(s), dt).y == -Field(p, s, dt).y
  {
  }

  lemma MirrorZ(p: Param, s: State, dt: real)
    ensures Field(p, Mirror(s), dt).z == Field(p, s, dt).z
  {
  }

  /**
   The equilibria: the origin for every parameter, and the two points
   x = y = ±sqrt(beta * (rho - 1)), z = rho - 1.
   */
  lemma FieldEquilibria(p: Param, s: State, dt: real)
    requires s == Origin || (s.x * s.x == p.beta * (p.rho - 1.0) && s.y == s.x && s.z == p.rho - 1.0)
    ensures Field(p, s, dt) == Origin
  {
    if s != Origin {
      assert (p.rho - s.z) * s.x == s.x;
    }
  }

  /**
   One pass of the loop in `Lorenz63::predict`: the derivative is evaluated
   at the pre-update state, then each component is advanced by
   `derivative * dt`.
   */
  function Step(p: Param, s: State): (r: State)
    ensures p.dt == 0.0 ==> r == s
    ensures s.x == 0.0 && s.y == 0.0 ==> r.x == 0.0 && r.y == 0.0
  {
    var d := Field(p, s, p.dt);
    State(s.x + d.x * p.dt, s.y + d.y * p.dt, s.z + d.z * p.dt)
  }

  /** The number of passes of the loop in `predict`: `step`, or none when it is negative. */
  function Passes(p: Param): nat {
    if p.step < 0 then 0 else p.step
  }

  /**
   The step as the loop in `predict` performs it: `x.at(0)`, `x.at(1)` and
   `x.at(2)` are updated in place one after another, each update reading the
   partly updated triple and the derivative taken before the first.
   */
  lemma StepByComponents(p: Param, s: State)
    ensures var d := Field(p, s, p.dt);
      var x1 := s.(x := s.x + d.x * p.dt);
      var x2 := x1.(y := x1.y + d.y * p.dt);
      var x3 := x2.(z := x2.z + d.z * p.dt);
      Step(p, s) == x3
  {
    var d := Field(p, s, p.dt);
    var x1 := s.(x := s.x + d.x * p.dt);
    var x2 := x1.(y := x1.y + d.y * p.dt);
    var x3 := x2.(z := x2.z + d.z * p.dt);
    assert x1.y == s.y && x2.z == s.z;
    assert Step(p, s) == State(s.x + d.x * p.dt, s.y + d.y * p.dt, s.z + d.z * p.dt);
  }

  /** A state where the field vanishes is not moved by a step. */
  lemma StepAtRest(p: Param, s: State)
    requires Field(p, s, p.dt) == Origin
    ensures Step(p, s) == s
  {
  }

  /**
   The trajectory of `k` Euler steps from `start`: `k + 1` states, the first
   being `start`, each later one the step of the one before it.
   */
  function Trajectory(p: Param, start: State, k: nat): (h: seq<State>)
    ensures |h| == k + 1 && h[0] == start
    ensures forall i :: 0 <= i < k ==> h[i + 1] == Step(p, h[i])
  {
    if k == 0 then [start]
    else
      var prev := Trajectory(p, start, k - 1);
      prev + [Step(p, prev[k - 1])]
  }

  /** Integrating longer only extends the trajectory: its first `j + 1` states do not change. */
  lemma {:induction false} TrajectoryPrefix(p: Param, start: State, j: nat, k: nat)
    requires j <= k
    ensures Trajectory(p, start, k)[..j + 1] == Trajectory(p, start, j)
  {
    if j < k {
      TrajectoryPrefix(p, start, j, k - 1);
      assert Trajectory(p, start, k)[..k] == Trajectory(p, start, k - 1);
      assert Trajectory(p, start, k)[..j + 1] == Trajectory(p, start, k)[..k][..j + 1];
    }
  }

  /**
   Restarting from an intermediate state continues the same trajectory: the
   run of `j + k` steps, from its `j`-th state on, is the run of `k` steps
   from that state.
   */
  lemma {:induction false} TrajectoryRestart(p: Param, start: State, j: nat, k: nat)
    ensures Trajectory(p, start, j + k)[j..] == Trajectory(p, Trajectory(p, start, j)[j], k)
  {
    var whole, tail := Trajectory(p, start, j + k), Trajectory(p, Trajectory(p, start, j)[j], k);
    TrajectoryPrefix(p, start, j, j + k);
    assert whole[j] == Trajectory(p, start, j)[j];
    if k > 0 {
      TrajectoryRestart(p, start, j, k - 1);
      var shorter := Trajectory(p, start, j + k - 1);
      assert whole == shorter + [Step(p, shorter[j + k - 1])];
      assert whole[j..] == shorter[j..] + [Step(p, shorter[j + k - 1])];
      assert tail == Trajectory(p, Trajectory(p, start, j)[j], k - 1) + [Step(p, tail[k - 1])];
    }
  }

  /** Starting where the field vanishes, every state of the trajectory is the start. */
  lemma {:induction false} TrajectoryAtRest(p: Param, start: State, k: nat)
    requires Field(p, start, p.dt) == Origin
    ensures forall i :: 0 <= i < |Trajectory(p, start, k)| ==> Trajectory(p, start, k)[i] == start
  {
    if k > 0 {
      TrajectoryAtRest(p, start, k - 1);
      StepAtRest(p, start);
    }
  }

  /** The origin is a fixed point: from (0, 0, 0) every state is (0, 0, 0), whatever the parameters. */
  lemma OriginFixedPoint(p: Param, k: nat)
    ensures forall i :: 0 <= i < |Trajectory(p, Origin, k)| ==> Trajectory(p, Origin, k)[i] == Origin
  {
    FieldEquilibria(p, Origin, p.dt);
    TrajectoryAtRest(p, Origin, k);
  }

  /**
   One step from (1, 3, 5) with sigma 10, rho 32, beta 8/3 and dt 0.01, in
   exact arithmetic: derivative (20, 24, -31/3), next state (1.2, 3.24, 5 - 31/300).
   */
  lemma SingleStepExample()
    ensures Field(Param(10.0, 32.0, 8.0 / 3.0, 0.01, 1), State(1.0, 3.0, 5.0), 0.01)
         == State(20.0, 24.0, -31.0 / 3.0)
    ensures Trajectory(Param(10.0, 32.0, 8.0 / 3.0, 0.01, 1), State(1.0, 3.0, 5.0), 1)
         == [State(1.0, 3.0, 5.0), State(1.2, 3.24, 5.0 - 31.0 / 300.0)]
  {
  }

  // ---------------------------------------------------------------------------
  // Where the trajectory goes
  // ---------------------------------------------------------------------------

  const TrajectoryFile := "trajectory.dat"

  /** `Lorenz63::name`, the model's name in every path it writes. */
  const ModelName := "lorenz63"

  /** `path` lies under the directory `dir` and names a `trajectory.dat` there. */
  predicate FileUnder(path: string, dir: string) {
    |path| > |dir| + |TrajectoryFile| && path[..|dir|] == dir &&
    path[|path| - |TrajectoryFile| - 1..] == "/" + TrajectoryFile
  }

  /**
   `Lorenz63::yieldHistoryFilename`: under `predict`, a directory named after
   the model, its id (4 digits) and the simulation time (6 digits) under
   `output/state`; under `obsgen`, one named after the model and the
   simulation time under `output/obs`; otherwise the path already set
   (possibly empty).
   */
  function HistoryPath(ctx: Context, name: string, id: nat, sysTim: nat, preset: string): (r: string)
    ensures ctx == None ==> r == preset
    ensures ctx == Predict ==> FileUnder(r, "output/state/")
    ensures ctx == Obsgen ==> FileUnder(r, "output/obs/")
  {
    match ctx
    case Predict =>
      var r := "output/state/" + name + "_" + Pad(id, 4) + "_" + Pad(sysTim, 6) + "/" + TrajectoryFile;
      assert FileUnder(r, "output/state/") by {
        StatePathFrame(name, Pad(id, 4), Pad(sysTim, 6));
      }
      r
    case Obsgen =>
      var r := "output/obs/" + name + "_obs_" + Pad(sysTim, 6) + "/" + TrajectoryFile;
      assert FileUnder(r, "output/obs/") by {
        ObsPathFrame(name, Pad(sysTim, 6));
      }
      r
    case None => preset
  }

  lemma StatePathFrame(name: string, a: string, b: string)
    ensures FileUnder("output/state/" + name + "_" + a + "_" + b + "/" + TrajectoryFile, "output/state/")
  {
    var r := "output/state/" + name + "_" + a + "_" + b + "/" + TrajectoryFile;
    var dir := "output/state/" + name + "_" + a + "_" + b;
    assert r == dir + ("/" + TrajectoryFile);
    StartsWith("output/state/", name + "_" + a + "_" + b + "/" + TrajectoryFile);
    assert r == "output/state/" + (name + "_" + a + "_" + b + "/" + TrajectoryFile);
    EndsWith(dir, "/" + TrajectoryFile);
  }

  lemma ObsPathFrame(name: string, b: string)
    ensures FileUnder("output/obs/" + name + "_obs_" + b + "/" + TrajectoryFile, "output/obs/")
  {
    var r := "output/obs/" + name + "_obs_" + b + "/" + TrajectoryFile;
    var dir := "output/obs/" + name + "_obs_" + b;
    assert r == dir + ("/" + TrajectoryFile);
    StartsWith("output/obs/", name + "_obs_" + b + "/" + TrajectoryFile);
    assert r == "output/obs/" + (name + "_obs_" + b + "/" + TrajectoryFile);
    EndsWith(dir, "/" + TrajectoryFile);
  }

  /** The `predict` path for model `lorenz63`, id 7, simulation time 42. */
  lemma PredictPathExample(preset: string)
    ensures HistoryPath(Predict, ModelName, 7, 42, preset) == "output/state/lorenz63_0007_000042/trajectory.dat"
  {
    PadExamples();
    PredictPathText();
  }

  lemma PredictPathText()
    ensures "output/state/" + "lorenz63" + "_" + "0007" + "_" + "000042" + "/" + TrajectoryFile
         == "output/state/lorenz63_0007_000042/trajectory.dat"
  {
    assert "output/state/" + "lorenz63" == "output/state/lorenz63";
    assert "output/state/lorenz63" + "_" + "0007" == "output/state/lorenz63_0007";
    assert "output/state/lorenz63_0007" + "_" + "000042" == "output/state/lorenz63_0007_000042";
    assert "output/state/lorenz63_0007_000042" + "/" + "trajectory.dat"
        == "output/state/lorenz63_0007_000042/trajectory.dat";
  }

  /** The `obsgen` path of the same example, and the empty path of context `none` with nothing set. */
  lemma ObsgenPathExample(preset: string)
    ensures HistoryPath(Obsgen, ModelName, 7, 42, preset) == "output/obs/lorenz63_obs_000042/trajectory.dat"
    ensures HistoryPath(None, ModelName, 7, 42, "") == ""
  {
    PadExamples();
    ObsgenPathText();
  }

  lemma ObsgenPathText()
    ensures "output/obs/" + "lorenz63" + "_obs_" + "000042" + "/" + TrajectoryFile
         == "output/obs/lorenz63_obs_000042/trajectory.dat"
  {
    assert "output/obs/" + "lorenz63" + "_obs_" == "output/obs/lorenz63_obs_";
    assert "output/obs/lorenz63_obs_" + "000042" == "output/obs/lorenz63_obs_000042";
    assert "output/obs/lorenz63_obs_000042" + "/" + "trajectory.dat"
        == "output/obs/lorenz63_obs_000042/trajectory.dat";
  }

  lemma PadExamples()
    ensures Pad(7, 4) == "0007" && Pad(42, 6) == "000042"
  {
    assert Digits(7) == "7";
    assert Digits(4) == "4";
    assert Digits(42) == "42";
    assert Zeros(3) == "000";
    assert Zeros(4) == "0000";
  }

  /**
   The pre-set path is kept exactly when the context is neither `predict`
   nor `obsgen`; under those two it has no influence, and the obsgen path
   does not depend on the id either.
   */
  lemma HistoryPathPreset(ctx: Context, name: string, id1: nat, id2: nat, sysTim: nat, preset1: string, preset2: string)
    ensures ctx == None ==> HistoryPath(ctx, name, id1, sysTim, preset1) == preset1
    ensures ctx != None ==> HistoryPath(ctx, name, id1, sysTim, preset1) == HistoryPath(ctx, name, id1, sysTim, preset2)
    ensures ctx != None ==> HistoryPath(ctx, name, id1, sysTim, preset1) != ""
    ensures HistoryPath(Obsgen, name, id1, sysTim, preset1) == HistoryPath(Obsgen, name, id2, sysTim, preset2)
  {
  }

  /** `h + x == h + y` determines `x`. */
  lemma CancelPrefix(h: string, x: string, y: string)
    requires h + x == h + y
    ensures x == y
  {
    assert x == (h + x)[|h|..];
    assert y == (h + y)[|h|..];
  }

  /** The length of the run of digits at the front of `s`. */
  function LeadingDigits(s: string): (k: nat)
    ensures k <= |s|
  {
    if s == [] || !IsDigit(s[0]) then 0 else 1 + LeadingDigits(s[1..])
  }

  lemma {:induction false} LeadingDigitsOf(d: string, sep: char, rest: string)
    requires AllDigits(d) && !IsDigit(sep)
    ensures LeadingDigits(d + [sep] + rest) == |d|
  {
    if d != [] {
      assert (d + [sep] + rest)[1..] == d[1..] + [sep] + rest;
      LeadingDigitsOf(d[1..], sep, rest);
    }
  }

  /** A digit string ended by a non-digit separator can be split off unambiguously. */
  lemma SplitDigitField(d1: string, d2: string, sep: char, rest1: string, rest2: string)
    requires AllDigits(d1) && AllDigits(d2) && !IsDigit(sep)
    requires d1 + [sep] + rest1 == d2 + [sep] + rest2
    ensures d1 == d2 && rest1 == rest2
  {
    var s1, s2 := d1 + [sep] + rest1, d2 + [sep] + rest2;
    LeadingDigitsOf(d1, sep, rest1);
    LeadingDigitsOf(d2, sep, rest2);
    assert d1 == s1[..|d1|] && d2 == s2[..|d2|];
    assert rest1 == s1[|d1| + 1..] && rest2 == s2[|d2| + 1..];
  }

  /**
   The `predict` naming scheme is one-to-one: two ensemble members with
   different ids, or the same member at different simulation times, never
   write to the same file.
   */
  lemma PredictPathInjective(name: string, id1: nat, id2: nat, t1: nat, t2: nat, preset: string)
    requires HistoryPath(Predict, name, id1, t1, preset) == HistoryPath(Predict, name, id2, t2, preset)
    ensures id1 == id2 && t1 == t2
  {
    var head := "output/state/" + name + "_";
    var a1, b1, a2, b2 := Pad(id1, 4), Pad(t1, 6), Pad(id2, 4), Pad(t2, 6);
    Regroup(head + a1 + ['_'], b1, '/', TrajectoryFile);
    Regroup(head + a2 + ['_'], b2, '/', TrajectoryFile);
    Regroup(head, a1, '_', b1 + ['/'] + TrajectoryFile);
    Regroup(head, a2, '_', b2 + ['/'] + TrajectoryFile);
    CancelPrefix(head, a1 + ['_'] + (b1 + ['/'] + TrajectoryFile), a2 + ['_'] + (b2 + ['/'] + TrajectoryFile));
    SplitDigitField(a1, a2, '_', b1 + ['/'] + TrajectoryFile, b2 + ['/'] + TrajectoryFile);
    SplitDigitField(b1, b2, '/', TrajectoryFile, TrajectoryFile);
    PadInjective(id1, id2, 4);
    PadInjective(t1, t2, 6);
  }

  /** The `obsgen` naming scheme is one-to-one in the simulation time. */
  lemma ObsgenPathInjective(name: string, id1: nat, id2: nat, t1: nat, t2: nat, preset: string)
    requires HistoryPath(Obsgen, name, id1, t1, preset) == HistoryPath(Obsgen, name, id2, t2, preset)
    ensures t1 == t2
  {
    var head := "output/obs/" + name + "_obs_";
    var b1, b2 := Pad(t1, 6), Pad(t2, 6);
    Regroup(head, b1, '/', TrajectoryFile);
    Regroup(head, b2, '/', TrajectoryFile);
    CancelPrefix(head, b1 + ['/'] + TrajectoryFile, b2 + ['/'] + TrajectoryFile);
    SplitDigitField(b1, b2, '/', TrajectoryFile, TrajectoryFile);
    PadInjective(t1, t2, 6);
  }

  /** Re-association of a path built left to right. */
  lemma Regroup(head: string, field: string, sep: char, rest: string)
    ensures head + field + [sep] + rest == head + (field + [sep] + rest)
  {
  }

  /** A `predict` file and an `obsgen` file are never the same file. */
  lemma StateAndObsPathsDiffer(name: string, id1: nat, id2: nat, t1: nat, t2: nat, preset: string)
    ensures HistoryPath(Predict, name, id1, t1, preset) != HistoryPath(Obsgen, name, id2, t2, preset)
  {
    var s, o := HistoryPath(Predict, name, id1, t1, preset), HistoryPath(Obsgen, name, id2, t2, preset);
    assert s[7] == 's' && o[7] == 'o';
  }

  // ---------------------------------------------------------------------------
  // What the writer produces
  // ---------------------------------------------------------------------------

  /** The effect of `saveHistory` on the file system. */
  datatype Write =
    | NoWrite                                  // empty path: nothing is attempted
    | OpenFailed(path: string)                 // the stream did not open: reported, nothing written
    | Wrote(path: string, lines: seq<string>)  // the file holds these lines, in order

  /** One line of the trajectory file: `x y z` and a newline. */
  function FormatLine(s: State, fmt: real -> string): (line: string)
    ensures NoNewline(Row(s, fmt)) ==> SplitLines(line) == [Row(s, fmt), ""]
  {
    var row := Row(s, fmt);
    assert NoNewline(row) ==> SplitLines(row + "\n") == [row, ""] by {
      if NoNewline(row) {
        SplitAtNewline(row, "");
        assert row + "\n" + "" == row + "\n";
      }
    }
    row + "\n"
  }

  /** The lines of the trajectory file: one per state, in the trajectory's order. */
  function HistoryLines(history: seq<State>, fmt: real -> string): (lines: seq<string>)
    ensures |lines| == |history|
    ensures forall i :: 0 <= i < |history| ==> lines[i] == FormatLine(history[i], fmt)
  {
    if history == [] then []
    else HistoryLines(history[..|history| - 1], fmt) + [FormatLine(history[|history| - 1], fmt)]
  }

  /** What writing `history` to `path` does, given whether the stream opens. */
  function Persisted(path: string, history: seq<State>, fmt: real -> string, canOpen: bool): (w: Write)
    ensures w.NoWrite? <==> path == ""
    ensures w.OpenFailed? <==> path != "" && !canOpen
    ensures !w.NoWrite? ==> w.path == path
    ensures w.Wrote? ==>
      |w.lines| == |history| && forall i :: 0 <= i < |history| ==> w.lines[i] == FormatLine(history[i], fmt)
  {
    if path == "" then NoWrite
    else if !canOpen then OpenFailed(path)
    else Wrote(path, HistoryLines(history, fmt))
  }

  function Concat(lines: seq<string>): string {
    if lines == [] then "" else lines[0] + Concat(lines[1..])
  }

  /** The text of one state's line without its newline. */
  function Row(s: State, fmt: real -> string): string {
    fmt(s.x) + " " + fmt(s.y) + " " + fmt(s.z)
  }

  function Rows(history: seq<State>, fmt: real -> string): (rows: seq<string>)
    ensures |rows| == |history|
    ensures forall i :: 0 <= i < |history| ==> rows[i] == Row(history[i], fmt)
  {
    if history == [] then [] else [Row(history[0], fmt)] + Rows(history[1..], fmt)
  }

  predicate RowsPrintable(history: seq<State>, fmt: real -> string) {
    forall i :: 0 <= i < |history| ==> NoNewline(Row(history[i], fmt))
  }

  /** The file's first line is the first state's row; the rest are the lines of the other states. */
  lemma HistoryLinesHead(history: seq<State>, fmt: real -> string)
    requires history != []
    ensures Concat(HistoryLines(history, fmt)) ==
      Row(history[0], fmt) + "\n" + Concat(HistoryLines(history[1..], fmt))
  {
    var lines := HistoryLines(history, fmt);
    assert lines[1..] == HistoryLines(history[1..], fmt);
  }

  lemma RowsPrintableTail(history: seq<State>, fmt: real -> string)
    requires history != [] && RowsPrintable(history, fmt)
    ensures NoNewline(Row(history[0], fmt)) && RowsPrintable(history[1..], fmt)
  {
    var rest := history[1..];
    forall i | 0 <= i < |rest| ensures NoNewline(Row(rest[i], fmt)) {
      assert rest[i] == history[i + 1];
    }
  }

  /**
   The trajectory file read back line by line: one `x y z` line per state,
   in order, each newline-terminated, and nothing after the last newline.
   */
  lemma {:induction false} TrajectoryFileLines(history: seq<State>, fmt: real -> string)
    requires RowsPrintable(history, fmt)
    ensures SplitLines(Concat(HistoryLines(history, fmt))) == Rows(history, fmt) + [""]
  {
    if history != [] {
      var rest := history[1..];
      HistoryLinesHead(history, fmt);
      RowsPrintableTail(history, fmt);
      TrajectoryFileLines(rest, fmt);
      SplitAtNewline(Row(history[0], fmt), Concat(HistoryLines(rest, fmt)));
    }
  }

  // ---------------------------------------------------------------------------
  // The plugin object
  // ---------------------------------------------------------------------------

  /**
   `douka_plugin::Lorenz63`. `ctx`, `id` and `sysTim` belong to the host
   interface, which sets them before calling `Predict`; their initial values
   are not part of this model, so the constructor leaves them unconstrained.
   */
  class Lorenz63 {
    const name: string := ModelName
    var param: Param
    var historyFilename: string
    var ctx: Context
    var id: nat
    var sysTim: nat

    /** A fresh plugin: every parameter zero and no trajectory path. */
    constructor ()
      ensures param == ZeroParam && historyFilename == ""
    {
      param := ZeroParam;
      historyFilename := "";
    }

    /**
     `Lorenz63::saveHistory`: nothing when the path is empty; otherwise the
     file holds one `x y z` line per state, in order, unless it cannot be
     opened. `canOpen` says whether the stream opened.
     */
    method SaveHistory(history: seq<State>, fmt: real -> string, canOpen: bool) returns (w: Write)
      ensures historyFilename == "" ==> w == NoWrite
      ensures historyFilename != "" && !canOpen ==> w == OpenFailed(historyFilename)
      ensures historyFilename != "" && canOpen ==>
        w.Wrote? && w.path == historyFilename && |w.lines| == |history| &&
        forall i :: 0 <= i < |history| ==> w.lines[i] == FormatLine(history[i], fmt)
      ensures w == Persisted(historyFilename, history, fmt, canOpen)
    {
      if historyFilename == "" {
        return NoWrite;
      }
      if !canOpen {
        return OpenFailed(historyFilename);
      }
      var lines := [];
      for i := 0 to |history|
        invariant lines == HistoryLines(history[..i], fmt)
      {
        assert history[..i + 1][..i] == history[..i];
        lines := lines + [FormatLine(history[i], fmt)];
      }
      assert history[..|history|] == history;
      w := Wrote(historyFilename, lines);
    }

    /**
     `Lorenz63::predict`: re-derives the trajectory path, integrates `step`
     Euler steps (none when `step` is negative) from `s + n`, writes the
     trajectory and leaves its last state in `s[0..3]`. It always reports
     success. The source throws when `s` or `n` is shorter than three and
     when `step + 1` is negative (`reserve` of a huge size), and `step + 1`
     overflows the 32-bit `int` when `step` is `INT_MAX`; those calls are
     excluded.
     */
    method Predict(s: array<real>, n: seq<real>, fmt: real -> string, canOpen: bool) returns (ok: bool, w: Write)
      requires s.Length >= 3 && |n| >= 3 && -1 <= param.step < 0x7fff_ffff
      modifies this`historyFilename, s
      ensures ok
      ensures param == old(param) && ctx == old(ctx) && id == old(id) && sysTim == old(sysTim)
      ensures historyFilename == HistoryPath(ctx, name, id, sysTim, old(historyFilename))
      ensures var h := Trajectory(param, State(old(s[0]) + n[0], old(s[1]) + n[1], old(s[2]) + n[2]), Passes(param));
        w == Persisted(historyFilename, h, fmt, canOpen) &&
        State(s[0], s[1], s[2]) == h[Passes(param)]
      ensures forall j :: 3 <= j < s.Length ==> s[j] == old(s[j])
    {
      historyFilename := HistoryPath(ctx, name, id, sysTim, historyFilename);
      var p := param;
      var x := State(s[0] + n[0], s[1] + n[1], s[2] + n[2]);
      ghost var start := x;
      assert start == State(old(s[0]) + n[0], old(s[1]) + n[1], old(s[2]) + n[2]);
      var history := [x];
      var i := 0;
      while i < p.step
        invariant 0 <= i <= Passes(p)
        invariant history == Trajectory(p, start, i)
        invariant x == history[i]
      {
        // the three in-place component updates, as StepByComponents shows
        x := Step(p, x);
        history := history + [x];
        i := i + 1;
      }
      assert history == Trajectory(param, start, Passes(param));
      w := SaveHistory(history, fmt, canOpen);
      assert w == Persisted(historyFilename, Trajectory(param, start, Passes(param)), fmt, canOpen);
      s[0] := x.x;
      s[1] := x.y;
      s[2] := x.z;
      ok := true;
    }
  }

  /** A fresh plugin in context `none` writes nothing: its path starts empty. */
  method FreshPredictWritesNothing(s: array<real>, n: seq<real>, fmt: real -> string, canOpen: bool) returns (w: Write)
    requires s.Length >= 3 && |n| >= 3
    modifies s
    ensures w == NoWrite
  {
    var model := new Lorenz63();
    model.ctx := None;
    var ok;
    ok, w := model.Predict(s, n, fmt, canOpen);
  }
}
