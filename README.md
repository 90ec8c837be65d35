# Lorenz-63 data-assimilation plugin, modelled in Dafny

`douka_plugin_lorenz63` is a model plugin for the `douka` data-assimilation
host. It integrates the Lorenz (1963) system with forward Euler and writes
the trajectory to a file. Where the file goes depends on the execution
context the host sets: `predict`, `obsgen` or `none`. The repository also
holds a small driver program. Its `get_args` reads the command line, and its
`main` runs one prediction with fixed step settings.

This project models that core. It has four modules, one per file:

- `decimal.dfy` (`Decimal`): the decimal text of integers. It gives `os << n`
  and the zero padding of `std::setfill('0') << std::setw(w) << n`.
- `plugin_types.dfy` (`PluginTypes`): the `Param` record, the three-component
  state and the host's contexts. It also gives the text `operator<<` prints
  for a `Param`, and a line splitter used to read texts back.
- `lorenz63.dfy` (`Plugin`): the vector field and the Euler step. It has the
  trajectory as a specification function, the trajectory-path rule and what
  the writer produces. The class `Lorenz63` has the fields of the C++ class.
  Its method `Predict` changes what the source's `predict` changes:
  - it sets the field `historyFilename`;
  - its integration loop grows a `seq` of states;
  - it overwrites the caller's vector, an `array<real>`.

  `SaveHistory` is `const` in the source. It changes no field and returns
  what it writes.
- `cli.dfy` (`Cli`): `get_args` has two forms:
  - a step function `Feed`, folded over the tokens by `Run`, as its
    specification;
  - the imperative `GetArgs` loop, proved equal to that specification.

  `main` is a pure configuration function `Configure`. The methods
  `SetUpModel`, `RunModel` and `RunMain` follow the source's step-by-step
  updates of the plugin object.

Things outside the program are parameters of the model:
- doubles are exact `real`s;
- the stream's text for a double is a function `fmt: real -> string`;
- whether the output file opens is a flag `canOpen`;
- `std::stod` is a function `stod: string -> Conversion` (`Converted(v)`,
  `InvalidArgument` or `OutOfRange`);
- `read_json` with the JSON-to-`Param` conversion is one function
  `load: string -> Loaded`;
- `std::filesystem::current_path()` is a string `cwd`.

A run that leaves the process is a `Stopped` state of the scanner. This
covers `exit(EXIT_SUCCESS)` after the help text, `exit(EXIT_FAILURE)`, and
termination by the uncaught `std::out_of_range` that `std::stod` throws.

A few choices are worth knowing:
- `main`'s default `beta` is `8 / 3`. That is integer division, so the model
  uses 2.0, as the code does (`Cli.ConfigureDefaults`).
- The loop in `predict` updates the three components of `x` in place, one
  after another. Each update uses the derivative computed before the first one.
  - The model's loop body is `x := Step(p, x)`.
  - `Plugin.StepByComponents` states the three updates one after another: each
    reads the triple as the previous update left it. It proves that the result
    is `Step`.
- From (1, 3, 5) the formula in `system` gives dy/dt = (32 - 5) * 1 - 3 = 24,
  so the next y is 3.24 (`Plugin.SingleStepExample`).

## Model

| member | source | states |
|---|---|---|
| `Decimal.Digits` | src/lorenz63.hh:29 | the text of a natural number is decimal digits whose value is that number, with no leading zero |
| `Decimal.Pad` | src/lorenz63.cc:86-87 | `setfill('0') << setw(w)` gives exactly `max(w, digits)` characters: '0's followed by the number's own digits, and the value is the number (never truncated) |
| `Decimal.PadInjective` | src/lorenz63.cc:86-87 | two numbers padded to the same width give the same text only if they are equal |
| `Decimal.IntText` | src/lorenz63.hh:29 | `os << step` starts with '-' exactly when the value is negative; the rest are digits whose value is its magnitude |
| `PluginTypes.ParamText` | src/lorenz63.hh:24-31 | `os << param`, read back by lines, is exactly `sigma v`, `rho v`, `beta v`, `dt v`, `step n` in that order; the first four end in a newline and nothing follows `step` |
| `Plugin.Field` | src/lorenz63.cc:53-58 | the x-component vanishes on the plane x = y; on the z-axis the field points along it, with dz/dt = -beta z |
| `Plugin.FieldIgnoresDt` | src/lorenz63.cc:53-58 | the derivative does not depend on the `dt` argument |
| `Plugin.FieldMirror` | src/lorenz63.cc:53-58 | the field is symmetric under (x, y, z) -> (-x, -y, z), for every parameter |
| `Plugin.FieldEquilibria` | src/lorenz63.cc:53-58 | the field vanishes at the origin and at x = y with x^2 = beta (rho - 1), z = rho - 1 |
| `Plugin.Step` | src/lorenz63.cc:37-41 | a step with `dt = 0` leaves the state alone; a state on the z-axis stays on it |
| `Plugin.StepByComponents` | src/lorenz63.cc:37-41 | the three in-place updates done in order, each on the triple the previous one left and all with the derivative taken before the first, give one Euler step |
| `Plugin.StepAtRest` | src/lorenz63.cc:37-41 | a state where the field vanishes is not moved by a step |
| `Plugin.Trajectory` | src/lorenz63.cc:34-43 | `k` steps give `k + 1` states, the first the start, each later one the Euler step of the one before |
| `Plugin.TrajectoryPrefix` | src/lorenz63.cc:34-43 | integrating longer only extends the trajectory: its first `j + 1` states are unchanged |
| `Plugin.TrajectoryRestart` | src/lorenz63.cc:34-43 | the run of `j + k` steps, from state `j` on, is the run of `k` steps started at state `j` |
| `Plugin.TrajectoryAtRest` | src/lorenz63.cc:30-43 | from a state where the field vanishes, every state of the trajectory is that state |
| `Plugin.OriginFixedPoint` | src/lorenz63.cc:30-43 | from (0, 0, 0) every state of the trajectory is (0, 0, 0), whatever the parameters |
| `Plugin.SingleStepExample` | src/lorenz63.cc:36-42 | from (1, 3, 5) with sigma 10, rho 32, beta 8/3, dt 0.01 the derivative is (20, 24, -31/3) and the next state (1.2, 3.24, 5 - 31/300) |
| `Plugin.HistoryPath` | src/lorenz63.cc:82-103 | under `predict` the path lies under `output/state/` and under `obsgen` under `output/obs/`, each time a file `trajectory.dat`; under any other context it is the path already set |
| `Plugin.PredictPathExample` | src/lorenz63.cc:83-90 | under `predict`, model `lorenz63`, id 7, time 42 writes to `output/state/lorenz63_0007_000042/trajectory.dat` |
| `Plugin.ObsgenPathExample` | src/lorenz63.cc:91-102 | under `obsgen` the same run writes to `output/obs/lorenz63_obs_000042/trajectory.dat`; under `none` with no path set the path is empty |
| `Plugin.HistoryPathPreset` | src/lorenz63.cc:82-103 | a pre-set path is kept exactly under `none`; under `predict` and `obsgen` it plays no part and the path is never empty; the `obsgen` path does not depend on the id |
| `Plugin.PredictPathInjective` | src/lorenz63.cc:83-90 | two `predict` paths are equal only for the same id and the same simulation time |
| `Plugin.ObsgenPathInjective` | src/lorenz63.cc:91-98 | two `obsgen` paths are equal only for the same simulation time |
| `Plugin.StateAndObsPathsDiffer` | src/lorenz63.cc:82-98 | a `predict` file and an `obsgen` file are never the same |
| `Plugin.FormatLine` | src/lorenz63.cc:76-78 | when the row `x y z` holds no newline, the line read back is that row followed by an empty rest: one newline, at the end |
| `Plugin.Persisted` | src/lorenz63.cc:60-79 | nothing is written exactly when the path is empty; the open fails exactly when the path is set and the stream does not open; otherwise the file at that path holds one formatted line per state, in order |
| `Plugin.HistoryLines` | src/lorenz63.cc:75-79 | one line per state, in order, each `x y z` with a newline |
| `Plugin.TrajectoryFileLines` | src/lorenz63.cc:75-79 | the written file, read back by lines, is one `x y z` row per state in order, followed only by the empty rest after the last newline |
| `Plugin.Lorenz63.constructor` | src/lorenz63.hh:39-44 | a fresh plugin has every parameter zero and an empty trajectory path |
| `Plugin.Lorenz63.SaveHistory` | src/lorenz63.cc:60-80 | nothing is written for an empty path; if the stream does not open, the failure is reported and nothing is written; otherwise the file holds one `x y z` line per state, in order |
| `Plugin.Lorenz63.Predict` | src/lorenz63.cc:26-51 | the path is re-derived; the trajectory of `step` steps (none when `step` is negative) from `s + n` is written; `s[0..3]` becomes its last state and the rest of `s` is unchanged; `param`, `ctx`, `id` and `sysTim` are unchanged; the result is `true` |
| `Plugin.FreshPredictWritesNothing` | src/lorenz63.hh:41 | a fresh plugin in context `none` writes nothing |
| `Cli.Feed` | src/main.cc:40-99 | a stopped scan reads nothing more; a scan that stops never yields arguments; a flag the scan survives is a value flag and leaves the arguments as they were |
| `Cli.Run` | src/main.cc:39-101 | a scan still reading after the tokens started reading, and every flag among the tokens is a value flag; a scan that started reading and stopped yields no arguments |
| `Cli.ParseTokens` | src/main.cc:18-102 | `get_args` returns only when every flag among the tokens is one of the five value flags, never after `--help` |
| `Cli.GetArgs` | src/main.cc:18-102 | the argv loop ends exactly as the token-by-token specification `ParseTokens` does on `argv[1..]` |
| `Cli.StoppedStays` | src/main.cc:52-58 | once the process has exited, later tokens change nothing |
| `Cli.StopDecides` | src/main.cc:52-58 | a token that exits the process decides the outcome, whatever follows |
| `Cli.NoArguments` | src/main.cc:10-16 | with no arguments the result is the defaults: empty paths and x = 1, y = 3, z = 5 |
| `Cli.PluginParamThenValue` | src/main.cc:61-64 | a value after `--plugin_param` becomes that field, clears the pending flag and changes nothing else; the field's old value plays no part |
| `Cli.OutputThenValue` | src/main.cc:65-68 | the same for `--output` |
| `Cli.XFlagThenValue` | src/main.cc:69-77 | a value after `--x` that converts becomes `x` and changes nothing else; `invalid_argument` fails; `out_of_range` terminates |
| `Cli.YFlagThenValue` | src/main.cc:78-86 | the same for `--y` |
| `Cli.ZFlagThenValue` | src/main.cc:87-95 | the same for `--z` |
| `Cli.UnknownFlagFails` | src/main.cc:55-57 | a token starting with `--` that is none of the six flags ends in failure |
| `Cli.StrayValueFails` | src/main.cc:96-98 | a non-flag token while no flag is pending ends in failure, whatever follows |
| `Cli.FirstTokenNotAFlag` | src/main.cc:96-98 | a first argument that is not a flag ends in failure |
| `Cli.SecondValueFails` | src/main.cc:96-98 | a second value after a flag's value ends in failure; for `--x`, `--y` and `--z` the first value must be one `stod` converts, since otherwise the run already ended |
| `Cli.FlagAfterFlag` | src/main.cc:40-41 | a flag right after a value flag discards it: the state is as if the first flag were absent |
| `Cli.FlagIgnoresPending` | src/main.cc:40-58 | what a flag does depends on the arguments read so far, not on the pending flag |
| `Cli.TrailingFlagIgnored` | src/main.cc:39-101 | a value flag as the last token is ignored |
| `Cli.HelpOutcome` | src/main.cc:52-54 | `--help` ends in success exactly when no earlier token has already ended the run; otherwise the earlier outcome stands |
| `Cli.JoinPath` | src/main.cc:143 | `dir / file` is `dir` followed by `file` when `dir` is empty or already ends in `/`, and `dir`, one `/` and `file` otherwise |
| `Cli.Configure` | src/main.cc:112-143 | a run aborts exactly when a named parameter file fails to load; otherwise dt 0.01, step 10000, the start (x, y, z), zero noise, and the path is `lorenz63_trajectory.dat` inside the output directory (the current one when none was given) |
| `Cli.ConfigureDefaults` | src/main.cc:115-150 | without a parameter file, main runs sigma 10, rho 32, beta 2 (the integer `8 / 3`), dt 0.01 and 10000 steps from (x, y, z) with zero noise |
| `Cli.ConfigureLoaded` | src/main.cc:119-134 | with a parameter file, main stops exactly when loading fails; otherwise the file supplies sigma, rho and beta, while dt and step are still forced to 0.01 and 10000 |
| `Cli.MainTrajectoryPath` | src/main.cc:135-143 | main's path is non-empty and ends in `lorenz63_trajectory.dat`, and the path rule keeps it under context `none` |
| `Cli.MainWritesWholeTrajectory` | src/main.cc:133-153 | when the file opens, main's whole trajectory of 10001 states is written to that path |
| `Cli.SetUpModel` | src/main.cc:112-143 | the fresh plugin's parameters, context and path are those `Configure` chooses, and it reports a failed load |
| `Cli.RunModel` | src/main.cc:108-153 | after the arguments: a failed load gives `EXIT_FAILURE` and no write; otherwise success, and the trajectory from (x, y, z) is written to the configured path |
| `Cli.RunMain` | src/main.cc:104-161 | help gives success and no write; a bad option or value gives failure; an out-of-range number terminates; otherwise as `RunModel` |

## Left out

- Floating point: doubles are exact reals. Rounding, overflow and NaN are not modelled.
- Text of doubles: the stream's default formatting (six significant digits) is the parameter `fmt`.
- File system: `std::filesystem::exists` and `create_directories` are not modelled (src/lorenz63.cc:65-67 and src/main.cc:139-141), and neither are their errors. Whether the `std::ofstream` opens is the parameter `canOpen`.
- Messages: the `std::clog` messages, the help text (src/main.cc:19-28) and `main`'s final printout (src/main.cc:155-158) are not modelled. `ParamText` describes the text that printout starts with.
- `set_option` (src/lorenz63.cc:14-24) reads JSON through nlohmann and is not part of this model.
- Parameter files in `main`: `read_json` and the JSON-to-`Param` conversion (src/main.cc:119-131) are foreign code. They are the parameter `load`, and both failure paths are the single value `LoadFailed`.
- `std::stod`: it is the parameter `stod`. Its prefix parsing and the double it returns are not modelled.
- Host interface: the plugin registration (src/lorenz63.cc:106-107) and `douka::PluginInterface` are not shown. `ctx` is an enumeration and `id`, `sysTim` are naturals, so negative values, which would pad as `00-7`, are excluded.
- Plugin.Lorenz63.constructor: it leaves `ctx`, `id` and `sysTim` unconstrained, because their initial values belong to the host class.
- Plugin.Lorenz63.Predict: it requires `s` and `n` to hold three values, since `.at` throws `std::out_of_range` otherwise. It also requires `step >= -1`, since `reserve(step + 1)` throws `std::length_error` below that. With `step == -1` the loop makes no pass. It requires `step < 2147483647` as well: at `INT_MAX` the 32-bit `step + 1` overflows, which is undefined behaviour.
- Plugin.Lorenz63.Predict: `s` is an array of fixed length, where the source uses a `std::vector`. `reserve` is not modelled.
- PluginTypes.Param: `step` is an unbounded integer, not a 32-bit `int`. The width matters only for `step + 1` in `predict`, which `Predict`'s precondition keeps in range. The step counts `main` uses are far below it.
- Cli.JoinPath: only a relative file name in a POSIX path is modelled. Root names and absolute second operands are not.
- Command line: tokens are strings without NUL characters, so `strcmp` and `strncmp` are string equality and a prefix test.
- `scripts/plot.py` is plotting code and is not part of this model.
