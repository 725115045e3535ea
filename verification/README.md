# utils: logger configuration and OS probes

A Dafny model of the utility package `utils` of `mxlxm/common`:

- **Logger configuration** (`LogUtils`, `log.dfy`). `InitLogConfig` merges a
  partial `LogConfig` with fixed defaults. The defaults are the file name
  `default.log`, 1024 MB per file, 7 days, 3 backups, local time, compression
  and the debug level. It also builds the option list: caller capture,
  error-level stack traces, a one-second sampler, and the injection of the
  initial fields, always last. It picks a JSON or console encoder with
  ISO-8601 timestamps and capitalised levels. It turns the initial-field map
  into a field list, or uses the single field `app` naming the program when
  the map is empty. `LogInit` moves a relative log file name under
  `<executable dir>/../logs/`, updating the configuration in place. It then
  assembles the logger from the encoder, a rotating file writer and the level.
- **OS probes** (`OsUtils`, `os.dfy`):
  - `ExecDir` gives the directory of the running executable. It splits the
    absolute path on `/` and joins every piece but the last.
  - `IsDirExist` answers whether a path is an existing directory. It fails
    open: a stat error other than "does not exist" answers true.
  - `GetLocalIP` gives the first non-loopback IPv4 interface address, or "".
- `Outcomes` (`outcomes.dfy`) holds `Option`, `Result` and the Go errors the
  code distinguishes.

`LogConfig` is a class because `LogInit` updates it through a pointer. The zap
and lumberjack settings it embeds are datatypes. A Go panic is an `Err`
result, or the `Panicked` outcome of `LogInit`. These library calls are
parameters of the operations that make them:

- `exec.LookPath(os.Args[0])` is `lookPath`;
- `filepath.Abs` is `abs`;
- `path.Clean` is `clean`;
- `os.Stat` is `stat`;
- `net.InterfaceAddrs()` is `addrs`;
- `GetProgramName()` is `programName`.

The lemma about the log path takes two assumptions as hypotheses: `abs` yields
rooted paths, and `clean` keeps them rooted.

The writer that `LogInit` builds gets the file name, the size, age and backup
limits, and local time. It does not get the compression flag, so the writer it
builds never compresses, although the configuration says `compress`. The
model follows the code here.

## Model

| member | source | states |
|---|---|---|
| `OsUtils.LastIndexOf` | utils/os.go:24 | the index returned holds the separator, and no separator follows it |
| `OsUtils.Split` | utils/os.go:24 | `strings.Split` on one character: at least one piece, and no piece contains the separator |
| `OsUtils.SplitCount` | utils/os.go:24 | the split yields exactly one piece more than the string has separators |
| `OsUtils.JoinSplit` | utils/os.go:24-25 | round trip: joining the pieces of a split with the same separator gives back the string |
| `OsUtils.SplitJoin` | utils/os.go:25 | `strings.Join` (`Join`) is undone by a split: at least one piece, none holding the separator, joined and split again, come back unchanged |
| `OsUtils.Dir` | utils/os.go:24-25 | dropping the last piece and re-joining gives the text before the last `/`, or "" when there is none |
| `OsUtils.DirRoundTrip` | utils/os.go:24-25 | the directory, a `/` and the last segment rebuild the path, and the last segment has no `/` |
| `OsUtils.DirOfRootLevel` | utils/os.go:24-25 | a file directly under the root has the directory "" and not "/" |
| `OsUtils.DirOfAbsolute` | utils/os.go:24-25 | the directory of an absolute path is "" or absolute |
| `OsUtils.ExecDir` | utils/os.go:15-26 | a LookPath or Abs failure becomes that error (the panic); otherwise it succeeds and returns the directory of the absolute path, which rebuilds the path with its last segment |
| `OsUtils.IsDirExist` | utils/os.go:28-34 | an existing path answers whether it is a directory; "does not exist" answers false; any other stat error answers true |
| `OsUtils.IsDirExistFalse` | utils/os.go:28-34 | the answer is false exactly when the path is missing, or exists and is not a directory |
| `OsUtils.GetLocalIP` | utils/os.go:36-50 | "" when enumeration fails or no address passes the test of lines 43-44 (`Qualifies`: an `*net.IPNet`, not loopback, with a 4-byte form); otherwise the text of the first address that passes it, in enumeration order |
| `LogUtils.LogConfig.constructor` | utils/log.go:43-62 | the new configuration holds the five given parts |
| `LogUtils.NewEncoder` | utils/log.go:91-108 | a console encoder exactly for "console" and JSON otherwise, both with the timestamp key, ISO-8601 time, capital levels, string durations and short callers over the production keys |
| `LogUtils.OptionListShape` | utils/log.go:80-90 | the caller option is present iff caller capture is on; the error-level stack-trace option iff stack traces are on; the one-second sampler with the configured counts iff sampling is set; the field injection is always present, once, and last |
| `LogUtils.OptionList` | utils/log.go:116 | the option list is never empty and ends with the injection of the resolved fields |
| `LogUtils.OptionOrder` | utils/log.go:80-90 | no option occurs twice, and caller comes before stack trace, which comes before the sampler |
| `LogUtils.FieldMapHoldsFields` | utils/log.go:109-112 | with distinct keys, the map read back from a field list holds every field with its value and nothing else, and has as many entries as the list |
| `LogUtils.BuildFields` | utils/log.go:109-115 | a non-empty initial map gives one field per entry, no key twice, reading back as the map, in any order; an empty map gives the single field `app` with the program name |
| `LogUtils.InitLogConfig` | utils/log.go:42-118 | a new, resolved configuration: file name, level, size, age and backups taken from the partial one when set, defaults otherwise; local time and compression on; the other zap settings at their defaults; the encoder chosen by the encoding; the initial fields; the conditional options followed by the field injection |
| `LogUtils.LogPath` | utils/log.go:121-123 | an absolute file name is kept; a relative one becomes the cleaned `<execDir>/../logs/<name>`, and fails exactly when the executable's directory cannot be found |
| `LogUtils.LogPathSettles` | utils/log.go:121-123 | when Abs yields rooted paths and Clean keeps them rooted, the resolved path is absolute, so resolving it again leaves it unchanged |
| `LogUtils.LogInit` | utils/log.go:120-133 | panics exactly when a relative name cannot be resolved, and then changes nothing; otherwise it stores the resolved file name, changes nothing else, reports no error, and returns the logger over the encoder, a writer with the name, limits and local time but no compression, and the level, with the configuration's options |

## Left out

- What zap and lumberjack do at logging time is left out: encoding records, sampling, writing, rotating, compressing and deleting files. The model stops at the values the code hands them.
- `path.Clean`, `exec.LookPath`, `filepath.Abs`, `os.Stat`, `net.InterfaceAddrs` and `GetProgramName` are parameters, not models of those functions. Only the rootedness of `Abs` and `Clean` results is assumed, by the lemma that needs it.
- `IP.IsLoopback`, `IP.To4` and `IP.String` are left out. An address carries their answers as data, and the text is never empty.
- Values of initial fields are carried opaquely, apart from the program-name string. `zap.Any`'s choice of field type is left out.
- `BuildFields`: Go's map iteration order is unspecified. The model picks keys in an arbitrary order and promises only what holds for every order.
- `InitLogConfig`: builds the new configuration in local variables and allocates it once. Go allocates it first and assigns its fields one by one. Nothing else can see the object in between, so the result is the same.
- `LogUtils.ZapConfig` keeps only the `zap.Config` fields this code reads or sets. `Development` is left out: the literal never sets it, and the declared `defaultDevelopment` constant is unused. Output paths, error output paths and hooks are left out too.
- `InitLogConfig`: the sampler option copies the sampling counts when the configuration is built. In Go the `zap.WrapCore` closure captures `c` and reads `c.Sampling`, a pointer shared with the caller, only when `zap.New` applies the option inside `LogInit`. A change the caller makes to `*Sampling` between `InitLogConfig` and `LogInit`, or between two `LogInit` calls, reaches the Go sampler but not the model.
- `zap.AtomicLevel` is a shared, mutable handle in Go; copying it copies the handle. The model treats a level as a value, so a later change of the level through another copy is not captured.
- The `DefaultDirMode` constant in `utils/os.go` is not used by the modelled functions and is left out.
- `SugarInit` is a wrapper over `LogInit` and is left out.
- Concurrency is left out: nothing here is shared between goroutines by the code itself.
- The production encoder settings (`msg`, `level`, `ts`, `logger`, `caller`, `stacktrace`, epoch time, lowercase levels, seconds durations, short callers) are taken from zap's documentation. zap is not part of this model.
