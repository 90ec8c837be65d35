/**
 The bundled driver: `get_args`, which reads the command line left to right
 with a pending-flag state, and `main`, which fixes the defaults, configures
 one plugin and runs a single `Predict` in context `none`.
 */
module Cli {
  import opened PluginTypes
  import opened Plugin

  // ---------------------------------------------------------------------------
  // get_args
  // ---------------------------------------------------------------------------

  /** `struct Args` with its default member initialisers. */
  datatype Args = Args(pluginParam: string, output: string, x: real, y: real, z: real)

  const DefaultArgs := Args("", "", 1.0, 3.0, 5.0)

  /** The flag whose value the next token supplies (`Context` inside `get_args`). */
  datatype Pending = Nothing | PluginParamValue | XValue | YValue | ZValue | OutputValue

  /** What `std::stod` does with a token: a number, `invalid_argument`, or `out_of_range`. */
  datatype Conversion = Converted(value: real) | InvalidArgument | OutOfRange

  /**
   How reading the command line ends: with the arguments, or by leaving the
   process: `exit(EXIT_SUCCESS)` after the help text, `exit(EXIT_FAILURE)`,
   or termination by the uncaught `std::out_of_range`.
   */
  datatype Outcome = Parsed(args: Args) | HelpShown | Failed | Terminated

  /** The scanner between two tokens: still reading, or already stopped. */
  datatype Scan = Scanning(pending: Pending, args: Args) | Stopped(outcome: Outcome)

  const Init := Scanning(Nothing, DefaultArgs)

  /** `!strncmp(t, "--", 2)`. */
  predicate IsFlag(t: string) {
    |t| >= 2 && t[0] == '-' && t[1] == '-'
  }

  /** The five flags that take a value. */
  predicate IsValueFlag(t: string) {
    t == "--plugin_param" || t == "--output" || t == "--x" || t == "--y" || t == "--z"
  }

  predicate IsKnownFlag(t: string) {
    IsValueFlag(t) || t == "--help"
  }

  /** A real-valued field's token: stored when `stod` converts it, otherwise the process ends. */
  function ConvertInto(c: Conversion, args: Args, which: Pending): Scan
    requires which == XValue || which == YValue || which == ZValue
  {
    match c
    case Converted(v) =>
      Scanning(Nothing, if which == XValue then args.(x := v) else if which == YValue then args.(y := v) else args.(z := v))
    case InvalidArgument => Stopped(Failed)
    case OutOfRange => Stopped(Terminated)
  }

  /**
   One iteration of the loop in `get_args`. A stopped scanner reads nothing
   more; a flag the scanner survives is one of the five value flags, and it
   leaves the arguments as they were.
   */
  function Feed(s: Scan, t: string, stod: string -> Conversion): (r: Scan)
    ensures s.Stopped? ==> r == s
    ensures r.Scanning? ==> s.Scanning?
    ensures s.Scanning? && r.Stopped? ==> !r.outcome.Parsed?
    ensures r.Scanning? && IsFlag(t) ==> IsValueFlag(t) && r.args == s.args
  {
    match s
    case Stopped(_) => s
    case Scanning(pending, args) =>
      if IsFlag(t) then
        if t == "--plugin_param" then Scanning(PluginParamValue, args)
        else if t == "--output" then Scanning(OutputValue, args)
        else if t == "--x" then Scanning(XValue, args)
        else if t == "--y" then Scanning(YValue, args)
        else if t == "--z" then Scanning(ZValue, args)
        else if t == "--help" then Stopped(HelpShown)
        else Stopped(Failed)
      else
        match pending
        case PluginParamValue => Scanning(Nothing, args.(pluginParam := t))
        case OutputValue => Scanning(Nothing, args.(output := t))
        case XValue => ConvertInto(stod(t), args, XValue)
        case YValue => ConvertInto(stod(t), args, YValue)
        case ZValue => ConvertInto(stod(t), args, ZValue)
        case Nothing => Stopped(Failed)
  }

  /**
   The scanner after reading `tokens` in order. It is still reading only if
   it started reading and every flag among the tokens takes a value; a
   scanner that started reading and stopped has no arguments to return.
   */
  function Run(s: Scan, tokens: seq<string>, stod: string -> Conversion): (r: Scan)
    ensures r.Scanning? ==> s.Scanning?
    ensures s.Scanning? && r.Stopped? ==> !r.outcome.Parsed?
    ensures r.Scanning? ==> forall i :: 0 <= i < |tokens| && IsFlag(tokens[i]) ==> IsValueFlag(tokens[i])
  {
    if tokens == [] then s
    else
      var init, last := tokens[..|tokens| - 1], tokens[|tokens| - 1];
      var r := Feed(Run(s, init, stod), last, stod);
      assert forall i :: 0 <= i < |init| ==> init[i] == tokens[i];
      r
  }

  function Finish(s: Scan): Outcome {
    match s
    case Scanning(_, args) => Parsed(args)
    case Stopped(o) => o
  }

  /**
   How `get_args` ends on the tokens after the program name: it returns its
   arguments only when every flag among the tokens is one of the five value
   flags, so never after `--help` or an unknown flag.
   */
  function ParseTokens(tokens: seq<string>, stod: string -> Conversion): (o: Outcome)
    ensures o.Parsed? ==> forall i :: 0 <= i < |tokens| && IsFlag(tokens[i]) ==> IsValueFlag(tokens[i])
    ensures o.Parsed? ==> forall i :: 0 <= i < |tokens| ==> tokens[i] != "--help"
  {
    Finish(Run(Init, tokens, stod))
  }

  /** The tokens `get_args` reads: `argv[1]` to `argv[argc - 1]`. */
  function Tokens(argv: seq<string>): seq<string> {
    if argv == [] then [] else argv[1..]
  }

  /**
   `get_args`: reads `argv[1..]` left to right; a flag sets the pending field
   (or ends the process), a value fills the pending field and clears it.
   */
  method GetArgs(argv: seq<string>, stod: string -> Conversion) returns (outcome: Outcome)
    ensures outcome == ParseTokens(Tokens(argv), stod)
  {
    var ctx := Nothing;
    var args := DefaultArgs;
    var i := 1;
    while i < |argv|
      invariant 1 <= i <= |Tokens(argv)| + 1
      invariant Run(Init, Tokens(argv)[..i - 1], stod) == Scanning(ctx, args)
    {
      var t := argv[i];
      assert Tokens(argv)[..i] == Tokens(argv)[..i - 1] + [t];
      if IsFlag(t) {
        ctx := Nothing;
        if t == "--plugin_param" {
          ctx := PluginParamValue;
        } else if t == "--output" {
          ctx := OutputValue;
        } else if t == "--x" {
          ctx := XValue;
        } else if t == "--y" {
          ctx := YValue;
        } else if t == "--z" {
          ctx := ZValue;
        } else if t == "--help" {
          StopAt(argv, i, HelpShown, stod);
          return HelpShown;
        } else {
          StopAt(argv, i, Failed, stod);
          return Failed;
        }
      } else {
        match ctx
        case PluginParamValue =>
          args := args.(pluginParam := t);
          ctx := Nothing;
        case OutputValue =>
          args := args.(output := t);
          ctx := Nothing;
        case XValue =>
          var c := stod(t);
          if c.InvalidArgument? {
            StopAt(argv, i, Failed, stod);
            return Failed;
          } else if c.OutOfRange? {
            StopAt(argv, i, Terminated, stod);
            return Terminated;
          }
          args := args.(x := c.value);
          ctx := Nothing;
        case YValue =>
          var c := stod(t);
          if c.InvalidArgument? {
            StopAt(argv, i, Failed, stod);
            return Failed;
          } else if c.OutOfRange? {
            StopAt(argv, i, Terminated, stod);
            return Terminated;
          }
          args := args.(y := c.value);
          ctx := Nothing;
        case ZValue =>
          var c := stod(t);
          if c.InvalidArgument? {
            StopAt(argv, i, Failed, stod);
            return Failed;
          } else if c.OutOfRange? {
            StopAt(argv, i, Terminated, stod);
            return Terminated;
          }
          args := args.(z := c.value);
          ctx := Nothing;
        case Nothing =>
          StopAt(argv, i, Failed, stod);
          return Failed;
      }
      i := i + 1;
    }
    assert Tokens(argv)[..i - 1] == Tokens(argv);
    outcome := Parsed(args);
  }

  /** Leaving the process at `argv[i]`: whatever follows is never read. */
  lemma StopAt(argv: seq<string>, i: nat, o: Outcome, stod: string -> Conversion)
    requires 1 <= i < |argv|
    requires Run(Init, Tokens(argv)[..i], stod) == Stopped(o)
    ensures ParseTokens(Tokens(argv), stod) == o
  {
    StoppedStays(o, Tokens(argv)[i..], stod);
    RunAppend(Init, Tokens(argv)[..i], Tokens(argv)[i..], stod);
    assert Tokens(argv)[..i] + Tokens(argv)[i..] == Tokens(argv);
  }

  /** Reading `a + b` is reading `a`, then `b`. */
  lemma {:induction false} RunAppend(s: Scan, a: seq<string>, b: seq<string>, stod: string -> Conversion)
    ensures Run(s, a + b, stod) == Run(Run(s, a, stod), b, stod)
  {
    if b == [] {
      assert a + b == a;
    } else {
      assert (a + b)[..|a + b| - 1] == a + b[..|b| - 1];
      RunAppend(s, a, b[..|b| - 1], stod);
    }
  }

  /** Once the process has left, later tokens change nothing. */
  lemma {:induction false} StoppedStays(o: Outcome, tokens: seq<string>, stod: string -> Conversion)
    ensures Run(Stopped(o), tokens, stod) == Stopped(o)
  {
    if tokens != [] {
      StoppedStays(o, tokens[..|tokens| - 1], stod);
    }
  }

  lemma RunPair(s: Scan, pre: seq<string>, t1: string, t2: string, stod: string -> Conversion)
    ensures Run(s, pre + [t1, t2], stod) == Feed(Feed(Run(s, pre, stod), t1, stod), t2, stod)
  {
    assert (pre + [t1, t2])[..|pre| + 1] == pre + [t1];
    assert (pre + [t1])[..|pre|] == pre;
  }

  /** A token that ends the process decides the outcome, whatever follows it. */
  lemma StopDecides(pre: seq<string>, t: string, post: seq<string>, stod: string -> Conversion)
    requires Feed(Run(Init, pre, stod), t, stod).Stopped?
    ensures ParseTokens(pre + [t] + post, stod) == Feed(Run(Init, pre, stod), t, stod).outcome
  {
    assert (pre + [t])[..|pre|] == pre;
    RunAppend(Init, pre + [t], post, stod);
    StoppedStays(Feed(Run(Init, pre, stod), t, stod).outcome, post, stod);
  }

  /** With no arguments every field keeps its default. */
  lemma NoArguments(program: string, stod: string -> Conversion)
    ensures ParseTokens(Tokens([]), stod) == Parsed(DefaultArgs)
    ensures ParseTokens(Tokens([program]), stod) == Parsed(Args("", "", 1.0, 3.0, 5.0))
  {
    assert Tokens([program]) == [];
  }

  /**
   A value right after `--plugin_param` becomes that field, and no other
   field changes; the pending flag is cleared. A later occurrence overrides
   an earlier one, since the field's old value plays no part.
   */
  lemma PluginParamThenValue(pre: seq<string>, v: string, stod: string -> Conversion)
    requires Run(Init, pre, stod).Scanning? && !IsFlag(v)
    ensures Run(Init, pre + ["--plugin_param", v], stod) ==
      Scanning(Nothing, Run(Init, pre, stod).args.(pluginParam := v))
  {
    RunPair(Init, pre, "--plugin_param", v, stod);
  }

  /** The same for `--output`. */
  lemma OutputThenValue(pre: seq<string>, v: string, stod: string -> Conversion)
    requires Run(Init, pre, stod).Scanning? && !IsFlag(v)
    ensures Run(Init, pre + ["--output", v], stod) ==
      Scanning(Nothing, Run(Init, pre, stod).args.(output := v))
  {
    RunPair(Init, pre, "--output", v, stod);
  }

  /**
   A value right after `--x` that `stod` converts becomes `x`, and no other
   field changes; the pending flag is cleared, and the old `x` plays no part.
   A value it rejects ends the process.
   */
  lemma XFlagThenValue(pre: seq<string>, v: string, stod: string -> Conversion)
    requires Run(Init, pre, stod).Scanning? && !IsFlag(v)
    ensures var a := Run(Init, pre, stod).args;
      && (stod(v).Converted? ==> Run(Init, pre + ["--x", v], stod) == Scanning(Nothing, a.(x := stod(v).value)))
      && (stod(v) == InvalidArgument ==> Run(Init, pre + ["--x", v], stod) == Stopped(Failed))
      && (stod(v) == OutOfRange ==> Run(Init, pre + ["--x", v], stod) == Stopped(Terminated))
  {
    RunPair(Init, pre, "--x", v, stod);
  }

  /**
   A value right after `--y` that `stod` converts becomes `y`, and no other
   field changes; the pending flag is cleared, and the old `y` plays no part.
   A value it rejects ends the process.
   */
  lemma YFlagThenValue(pre: seq<string>, v: string, stod: string -> Conversion)
    requires Run(Init, pre, stod).Scanning? && !IsFlag(v)
    ensures var a := Run(Init, pre, stod).args;
      && (stod(v).Converted? ==> Run(Init, pre + ["--y", v], stod) == Scanning(Nothing, a.(y := stod(v).value)))
      && (stod(v) == InvalidArgument ==> Run(Init, pre + ["--y", v], stod) == Stopped(Failed))
      && (stod(v) == OutOfRange ==> Run(Init, pre + ["--y", v], stod) == Stopped(Terminated))
  {
    RunPair(Init, pre, "--y", v, stod);
  }

  /**
   A value right after `--z` that `stod` converts becomes `z`, and no other
   field changes; the pending flag is cleared, and the old `z` plays no part.
   A value it rejects ends the process.
   */
  lemma ZFlagThenValue(pre: seq<string>, v: string, stod: string -> Conversion)
    requires Run(Init, pre, stod).Scanning? && !IsFlag(v)
    ensures var a := Run(Init, pre, stod).args;
      && (stod(v).Converted? ==> Run(Init, pre + ["--z", v], stod) == Scanning(Nothing, a.(z := stod(v).value)))
      && (stod(v) == InvalidArgument ==> Run(Init, pre + ["--z", v], stod) == Stopped(Failed))
      && (stod(v) == OutOfRange ==> Run(Init, pre + ["--z", v], stod) == Stopped(Terminated))
  {
    RunPair(Init, pre, "--z", v, stod);
  }

  /** A token starting with `--` that is not one of the six flags ends with failure. */
  lemma UnknownFlagFails(pre: seq<string>, t: string, post: seq<string>, stod: string -> Conversion)
    requires Run(Init, pre, stod).Scanning? && IsFlag(t) && !IsKnownFlag(t)
    ensures ParseTokens(pre + [t] + post, stod) == Failed
  {
    StopDecides(pre, t, post, stod);
  }

  /**
   A token that is not a flag while no flag is pending ends with failure:
   in particular a first argument that is not a flag, and a second value
   after a flag's value.
   */
  lemma StrayValueFails(pre: seq<string>, t: string, post: seq<string>, stod: string -> Conversion)
    requires Run(Init, pre, stod).Scanning? && Run(Init, pre, stod).pending == Nothing && !IsFlag(t)
    ensures ParseTokens(pre + [t] + post, stod) == Failed
  {
    StopDecides(pre, t, post, stod);
  }

  lemma FirstTokenNotAFlag(t: string, post: seq<string>, stod: string -> Conversion)
    requires !IsFlag(t)
    ensures ParseTokens([t] + post, stod) == Failed
  {
    StrayValueFails([], t, post, stod);
    assert [] + [t] + post == [t] + post;
  }

  lemma SecondValueFails(pre: seq<string>, f: string, v: string, w: string, post: seq<string>, stod: string -> Conversion)
    requires Run(Init, pre, stod).Scanning? && IsValueFlag(f) && !IsFlag(v) && !IsFlag(w)
    requires (f == "--x" || f == "--y" || f == "--z") ==> stod(v).Converted?
    ensures ParseTokens(pre + [f, v, w] + post, stod) == Failed
  {
    if f == "--plugin_param" {
      PluginParamThenValue(pre, v, stod);
    } else if f == "--output" {
      OutputThenValue(pre, v, stod);
    } else if f == "--x" {
      XFlagThenValue(pre, v, stod);
    } else if f == "--y" {
      YFlagThenValue(pre, v, stod);
    } else {
      ZFlagThenValue(pre, v, stod);
    }
    StrayValueFails(pre + [f, v], w, post, stod);
    assert pre + [f, v] + [w] + post == pre + [f, v, w] + post;
  }

  /** A flag right after a value flag discards the pending value: the first flag might as well be absent. */
  lemma FlagAfterFlag(pre: seq<string>, f: string, g: string, stod: string -> Conversion)
    requires Run(Init, pre, stod).Scanning? && IsValueFlag(f) && IsFlag(g)
    ensures Run(Init, pre + [f, g], stod) == Run(Init, pre + [g], stod)
  {
    RunPair(Init, pre, f, g, stod);
    assert (pre + [g])[..|pre|] == pre;
    var s := Run(Init, pre, stod);
    ValueFlagKeepsArgs(s, f, stod);
    FlagIgnoresPending(Feed(s, f, stod), s, g, stod);
  }

  /** A value flag only sets the pending field. */
  lemma ValueFlagKeepsArgs(s: Scan, f: string, stod: string -> Conversion)
    requires s.Scanning? && IsValueFlag(f)
    ensures Feed(s, f, stod).Scanning? && Feed(s, f, stod).args == s.args
  {
  }

  /** What a flag does depends on the arguments read so far, not on the pending field. */
  lemma FlagIgnoresPending(s1: Scan, s2: Scan, g: string, stod: string -> Conversion)
    requires s1.Scanning? && s2.Scanning? && s1.args == s2.args && IsFlag(g)
    ensures Feed(s1, g, stod) == Feed(s2, g, stod)
  {
  }

  /** A value flag at the very end is ignored: its field keeps what it had. */
  lemma TrailingFlagIgnored(pre: seq<string>, f: string, stod: string -> Conversion)
    requires Run(Init, pre, stod).Scanning? && IsValueFlag(f)
    ensures ParseTokens(pre + [f], stod) == ParseTokens(pre, stod)
  {
    assert (pre + [f])[..|pre|] == pre;
  }

  /**
   `--help` ends with success exactly when nothing before it has already
   ended the process; otherwise the earlier outcome stands.
   */
  lemma HelpOutcome(pre: seq<string>, post: seq<string>, stod: string -> Conversion)
    ensures ParseTokens(pre + ["--help"] + post, stod) ==
      if Run(Init, pre, stod).Scanning? then HelpShown else Run(Init, pre, stod).outcome
  {
    assert (pre + ["--help"])[..|pre|] == pre;
    RunAppend(Init, pre + ["--help"], post, stod);
    StoppedStays(Feed(Run(Init, pre, stod), "--help", stod).outcome, post, stod);
  }

  // ---------------------------------------------------------------------------
  // main
  // ---------------------------------------------------------------------------

  /** What reading a parameter file yields: `read_json` followed by the conversion to `Param`. */
  datatype Loaded = LoadFailed | Loaded(param: Param)

  /** How the process ends. */
  datatype Exit = ExitSuccess | ExitFailure | Abnormal

  /** The model `main` is about to run, or the failed parameter load that stops it first. */
  datatype Setup = LoadAborted | Ready(param: Param, historyFilename: string, start: State, noise: State)

  /** `8 / 3` is evaluated in `int` before it becomes a double. */
  const DefaultBeta: real := (8 / 3) as real

  /** `model.name + "_trajectory.dat"`. */
  const TrajectoryName := ModelName + "_trajectory.dat"

  /**
   `dir / file` of `std::filesystem` for a relative `file`: a separator is
   inserted unless `dir` is empty or already ends in one.
   */
  function JoinPath(dir: string, file: string): (r: string)
    ensures |r| >= |dir| + |file| && r[..|dir|] == dir && r[|r| - |file|..] == file
    ensures r[|dir|..] == file || r[|dir|..] == "/" + file
    ensures dir != [] && dir[|dir| - 1] != '/' ==> r[|dir|..] == "/" + file
    ensures dir == [] || dir[|dir| - 1] == '/' ==> r == dir + file
  {
    if dir == [] || dir[|dir| - 1] == '/' then dir + file else dir + "/" + file
  }

  /**
   `main` between `get_args` and the call of `predict`: defaults sigma 10,
   rho 32, beta `8 / 3`; the parameter file, when one was named, replaces all
   five fields; dt and step are then forced; the trajectory goes to
   `lorenz63_trajectory.dat` in the output directory (the current one when
   none was given). `load` is what reading a file yields, `cwd` the current
   directory.
   */
  function Configure(a: Args, load: string -> Loaded, cwd: string): (r: Setup)
    ensures r.LoadAborted? <==> a.pluginParam != "" && load(a.pluginParam).LoadFailed?
    ensures r.Ready? ==> r.param.dt == 0.01 && r.param.step == 10000
    ensures r.Ready? ==> r.start == State(a.x, a.y, a.z) && r.noise == Origin
    ensures r.Ready? ==> var dir, path := if a.output == "" then cwd else a.output, r.historyFilename;
      && |path| >= |dir| && path[..|dir|] == dir
      && (dir == [] || dir[|dir| - 1] == '/' ==> path[|dir|..] == TrajectoryName)
      && (dir != [] && dir[|dir| - 1] != '/' ==> path[|dir|..] == "/" + TrajectoryName)
  {
    var defaults := ZeroParam.(sigma := 10.0, rho := 32.0, beta := DefaultBeta);
    var chosen := if a.pluginParam == "" then Loaded(defaults) else load(a.pluginParam);
    match chosen
    case LoadFailed => LoadAborted
    case Loaded(p) =>
      var dir := if a.output == "" then cwd else a.output;
      Ready(p.(dt := 0.01, step := 10000), JoinPath(dir, TrajectoryName),
            State(a.x, a.y, a.z), Origin)
  }

  /**
   Without a parameter file main runs sigma 10, rho 32, beta 2 (not 8/3),
   dt 0.01 and 10000 steps from the arguments' (x, y, z) with zero noise.
   */
  lemma ConfigureDefaults(a: Args, load: string -> Loaded, cwd: string)
    requires a.pluginParam == ""
    ensures Configure(a, load, cwd).Ready?
    ensures Configure(a, load, cwd).param == Param(10.0, 32.0, 2.0, 0.01, 10000)
    ensures Configure(a, load, cwd).start == State(a.x, a.y, a.z)
    ensures Configure(a, load, cwd).noise == State(0.0, 0.0, 0.0)
  {
  }

  /**
   With a parameter file, a failed load stops main, and a successful one
   supplies sigma, rho and beta while dt and step are still forced to 0.01
   and 10000.
   */
  lemma ConfigureLoaded(a: Args, load: string -> Loaded, cwd: string)
    requires a.pluginParam != ""
    ensures Configure(a, load, cwd) == LoadAborted <==> load(a.pluginParam) == LoadFailed
    ensures load(a.pluginParam).Loaded? ==>
      var p, q := load(a.pluginParam).param, Configure(a, load, cwd).param;
      q == Param(p.sigma, p.rho, p.beta, 0.01, 10000)
  {
  }

  /**
   The trajectory path main sets is never empty and names
   `lorenz63_trajectory.dat`; since main runs in context `none`, the path
   rule keeps it.
   */
  lemma MainTrajectoryPath(a: Args, load: string -> Loaded, cwd: string, id: nat, sysTim: nat)
    requires Configure(a, load, cwd).Ready?
    ensures var path := Configure(a, load, cwd).historyFilename;
      && path != ""
      && path[|path| - |TrajectoryName|..] == TrajectoryName
      && HistoryPath(None, ModelName, id, sysTim, path) == path
  {
  }

  /** So, when the file opens, main's whole trajectory of 10001 states is written to that path. */
  lemma MainWritesWholeTrajectory(a: Args, load: string -> Loaded, cwd: string, fmt: real -> string)
    requires Configure(a, load, cwd).Ready?
    ensures var r := Configure(a, load, cwd);
      var h := Trajectory(r.param, r.start, Passes(r.param));
      && Persisted(r.historyFilename, h, fmt, true) == Wrote(r.historyFilename, HistoryLines(h, fmt))
      && |HistoryLines(h, fmt)| == 10001
  {
    assert Configure(a, load, cwd).historyFilename != "";
  }

  /**
   `main` from the construction of the plugin to the choice of the
   trajectory path: the defaults, the parameter file, the forced dt and
   step, context `none`, and the path in the output directory. `loaded` is
   false when the parameter file fails to load, where `main` returns
   `EXIT_FAILURE`.
   */
  method SetUpModel(args: Args, load: string -> Loaded, cwd: string) returns (model: Lorenz63, loaded: bool)
    ensures fresh(model)
    ensures loaded <==> Configure(args, load, cwd).Ready?
    ensures loaded ==>
      && model.param == Configure(args, load, cwd).param
      && model.historyFilename == Configure(args, load, cwd).historyFilename
      && model.ctx == None
  {
    model := new Lorenz63();
    model.param := model.param.(sigma := 10.0);
    model.param := model.param.(rho := 32.0);
    model.param := model.param.(beta := DefaultBeta);
    if args.pluginParam != "" {
      var l := load(args.pluginParam);
      if l.LoadFailed? {
        return model, false;
      }
      model.param := l.param;
    }
    model.param := model.param.(dt := 0.01);
    model.param := model.param.(step := 10000);
    model.ctx := None;
    var output := if args.output == "" then cwd else args.output;
    model.historyFilename := JoinPath(output, model.name + "_trajectory.dat");
    loaded := true;
  }

  /**
   `main` once `get_args` has returned: sets up a fresh plugin, integrates
   from (x, y, z) with zero noise and writes the trajectory, unless the
   parameter file fails to load.
   */
  method RunModel(args: Args, load: string -> Loaded, cwd: string, fmt: real -> string, canOpen: bool)
    returns (status: Exit, w: Write)
    ensures match Configure(args, load, cwd)
      case LoadAborted => status == ExitFailure && w == NoWrite
      case Ready(p, path, start, _) =>
        status == ExitSuccess && w == Persisted(path, Trajectory(p, start, Passes(p)), fmt, canOpen)
  {
    var state := new real[3];
    var model, loaded := SetUpModel(args, load, cwd);
    if !loaded {
      return ExitFailure, NoWrite;
    }
    ghost var setup := Configure(args, load, cwd);
    state[0] := args.x;
    state[1] := args.y;
    state[2] := args.z;
    var noise := [0.0, 0.0, 0.0];
    assert State(state[0] + noise[0], state[1] + noise[1], state[2] + noise[2]) == setup.start;
    HistoryPathPreset(None, model.name, model.id, model.id, model.sysTim, setup.historyFilename, "");
    var ok;
    ok, w := model.Predict(state, noise, fmt, canOpen);
    status := ExitSuccess;
  }

  /**
   `main`: reads the arguments, then runs the model. Help, a bad argument or
   a value `stod` cannot represent end it before anything is written.
   */
  method RunMain(argv: seq<string>, stod: string -> Conversion, load: string -> Loaded, cwd: string,
                 fmt: real -> string, canOpen: bool) returns (status: Exit, w: Write)
    ensures match ParseTokens(Tokens(argv), stod)
      case HelpShown => status == ExitSuccess && w == NoWrite
      case Failed => status == ExitFailure && w == NoWrite
      case Terminated => status == Abnormal && w == NoWrite
      case Parsed(a) =>
        match Configure(a, load, cwd)
        case LoadAborted => status == ExitFailure && w == NoWrite
        case Ready(p, path, start, _) =>
          status == ExitSuccess && w == Persisted(path, Trajectory(p, start, Passes(p)), fmt, canOpen)
  {
    var outcome := GetArgs(argv, stod);
    match outcome
    case HelpShown => return ExitSuccess, NoWrite;
    case Failed => return ExitFailure, NoWrite;
    case Terminated => return Abnormal, NoWrite;
    case Parsed(args) => status, w := RunModel(args, load, cwd, fmt, canOpen);
  }
}
