/** Logger configuration of package `utils`: `InitLogConfig` merges a partial
    configuration with fixed defaults, and `LogInit` resolves the log file's path
    and assembles the logger from the result. The zap and lumberjack values the
    code builds are represented by the datatypes below; what those libraries do
    with them at logging time is not part of this model. */
module LogUtils {
  import opened Outcomes
  import OsUtils

  // ---------------------------------------------------------------------------
  // Defaults
  // ---------------------------------------------------------------------------

  const DefaultSize := 1024
  const DefaultAge := 7
  const DefaultBackup := 3
  const DefaultLocalTime := true
  const DefaultCompress := true
  const DefaultDisableCaller := false
  const DefaultDisableStacktrace := false
  const DefaultEncoding := "json"
  const DefaultFilename := "default.log"

  /** `time.Second`, in nanoseconds. */
  const Second := 1_000_000_000

  // ---------------------------------------------------------------------------
  // zap and lumberjack values
  // ---------------------------------------------------------------------------

  datatype Level = DebugLevel | InfoLevel | WarnLevel | ErrorLevel | DPanicLevel | PanicLevel | FatalLevel

  /** A `zap.AtomicLevel`: `None` is the zero value `zap.AtomicLevel{}`, `Some(l)` a
      level handle created at `l`. */
  type AtomicLevel = Option<Level>

  /** `zap.NewAtomicLevelAt(zap.DebugLevel)`. */
  const DefaultLevel: AtomicLevel := Some(DebugLevel)

  /** The value of an initial field (`interface{}` in Go). Only the program name,
      a string, is built by the code itself; other values are carried opaquely. */
  datatype Value = Str(s: string) | Opaque(id: nat)

  /** `zap.Any(key, value)`. */
  datatype Field = Field(key: string, value: Value)

  /** `zap.SamplingConfig`. */
  datatype SamplingConfig = SamplingConfig(initial: int, thereafter: int)

  datatype LevelEncoder = NilLevelEncoder | LowercaseLevel | CapitalLevel
  datatype TimeEncoder = NilTimeEncoder | EpochTime | ISO8601Time
  datatype DurationEncoder = NilDurationEncoder | SecondsDuration | StringDuration
  datatype CallerEncoder = NilCallerEncoder | ShortCaller | FullCaller

  /** `zapcore.EncoderConfig`: the record keys and the value encoders. */
  datatype EncoderConfig = EncoderConfig(
    messageKey: string, levelKey: string, timeKey: string, nameKey: string,
    callerKey: string, stacktraceKey: string,
    encodeLevel: LevelEncoder, encodeTime: TimeEncoder,
    encodeDuration: DurationEncoder, encodeCaller: CallerEncoder)

  /** The zero `zapcore.EncoderConfig{}`. */
  const ZeroEncoderConfig := EncoderConfig("", "", "", "", "", "",
    NilLevelEncoder, NilTimeEncoder, NilDurationEncoder, NilCallerEncoder)

  /** `zap.NewProductionEncoderConfig()`, with zap's documented keys and encoders. */
  const ProductionEncoderConfig := EncoderConfig("msg", "level", "ts", "logger", "caller", "stacktrace",
    LowercaseLevel, EpochTime, SecondsDuration, ShortCaller)

  /** `zapcore.NewJSONEncoder(cfg)` and `zapcore.NewConsoleEncoder(cfg)`. */
  datatype Encoder = Json(config: EncoderConfig) | Console(config: EncoderConfig)

  /** The `zap.Option` values the code builds: `zap.AddCaller()`,
      `zap.AddStacktrace(level)`, `zap.WrapCore` with a sampler over a window of
      `tick` nanoseconds, and `zap.Fields(fields...)`. */
  datatype ZapOption =
    | AddCaller
    | AddStacktrace(level: Level)
    | WrapSampler(tick: int, initial: int, thereafter: int)
    | InjectFields(fields: seq<Field>)

  /** The embedded `lumberjack.Logger`: the rotating file writer's settings. */
  datatype Lumberjack = Lumberjack(
    filename: string, maxSize: int, maxAge: int, maxBackups: int, localTime: bool, compress: bool)

  /** The zero `lumberjack.Logger{}`. */
  const ZeroLumberjack := Lumberjack("", 0, 0, 0, false, false)

  /** The embedded `zap.Config`, restricted to the fields this code reads or sets. */
  datatype ZapConfig = ZapConfig(
    level: AtomicLevel, disableCaller: bool, disableStacktrace: bool,
    sampling: Option<SamplingConfig>, encoding: string, encoderConfig: EncoderConfig,
    initialFields: map<string, Value>)

  /** The zero `zap.Config{}`. */
  const ZeroZapConfig := ZapConfig(None, false, false, None, "", ZeroEncoderConfig, map[])

  /** `zapcore.AddSync(&lumberjack.Logger{...})`. */
  datatype WriteSyncer = Synced(file: Lumberjack)

  /** `zapcore.NewCore(encoder, writer, level)`; a nil encoder interface is `None`. */
  datatype Core = Core(encoder: Option<Encoder>, writer: WriteSyncer, level: AtomicLevel)

  /** `zap.New(core, options...)`. */
  datatype Logger = Logger(core: Core, options: seq<ZapOption>)

  /** What a call of `LogInit` comes to: its two results, or the panic that
      `ExecDir` raises inside it. */
  datatype InitOutcome = Returned(logger: Logger, err: Option<GoError>) | Panicked(cause: GoError)

  // ---------------------------------------------------------------------------
  // LogConfig
  // ---------------------------------------------------------------------------

  /** `LogConfig`: the embedded `lumberjack.Logger` and `zap.Config`, the encoder,
      the initial fields and the option list. Callers fill in a partial one;
      `InitLogConfig` returns a new, resolved one, which `LogInit` updates. */
  class LogConfig {
    var rotation: Lumberjack
    var zap: ZapConfig
    var encoder: Option<Encoder>
    var fields: seq<Field>
    var options: seq<ZapOption>

    /** The composite literal `&LogConfig{rotation, zap, encoder, fields, options}`. */
    constructor (rotation: Lumberjack, zap: ZapConfig, encoder: Option<Encoder>,
                 fields: seq<Field>, options: seq<ZapOption>)
      ensures this.rotation == rotation && this.zap == zap && this.encoder == encoder
      ensures this.fields == fields && this.options == options
    {
      this.rotation := rotation;
      this.zap := zap;
      this.encoder := encoder;
      this.fields := fields;
      this.options := options;
    }

    /** A resolved configuration: a file name, a level, an encoder, at least one
        initial field, and the option list ending in the injection of those fields. */
    predicate Resolved()
      reads this
    {
      && rotation.filename != ""
      && zap.level.Some?
      && encoder.Some?
      && |fields| >= 1
      && |options| >= 1
      && options[|options| - 1] == InjectFields(fields)
    }
  }

  // ---------------------------------------------------------------------------
  // InitLogConfig
  // ---------------------------------------------------------------------------

  /** The settings both encoders are built with: production settings, with
      ISO-8601 timestamps under "timestamp", capitalised levels, string durations
      and short caller locations. */
  const LogEncoderConfig := ProductionEncoderConfig.(
    timeKey := "timestamp", encodeTime := ISO8601Time, encodeLevel := CapitalLevel,
    encodeDuration := StringDuration, encodeCaller := ShortCaller)

  /** The encoder chosen by the `switch` on the encoding name. */
  function NewEncoder(encoding: string): (e: Encoder)
    ensures e.Console? <==> encoding == "console"
    ensures e.Json? <==> encoding != "console"
    ensures e.config.timeKey == "timestamp" && e.config.encodeTime == ISO8601Time
    ensures e.config.encodeLevel == CapitalLevel && e.config.encodeDuration == StringDuration
    ensures e.config.encodeCaller == ShortCaller
    ensures e.config.messageKey == ProductionEncoderConfig.messageKey
    ensures e.config.levelKey == ProductionEncoderConfig.levelKey
    ensures e.config.nameKey == ProductionEncoderConfig.nameKey
    ensures e.config.callerKey == ProductionEncoderConfig.callerKey
    ensures e.config.stacktraceKey == ProductionEncoderConfig.stacktraceKey
  {
    match encoding
    case "console" => Console(LogEncoderConfig)
    case _ => Json(LogEncoderConfig)
  }

  /** The option list `InitLogConfig` assembles: the enabled options, then the
      injection of the resolved fields. */
  function OptionList(disableCaller: bool, disableStacktrace: bool,
                      sampling: Option<SamplingConfig>, fields: seq<Field>): (opts: seq<ZapOption>)
    ensures |opts| >= 1 && opts[|opts| - 1] == InjectFields(fields)
  {
    (if disableCaller then [] else [AddCaller])
    + (if disableStacktrace then [] else [AddStacktrace(ErrorLevel)])
    + (match sampling
       case None => []
       case Some(s) => [WrapSampler(Second, s.initial, s.thereafter)])
    + [InjectFields(fields)]
  }

  /** The option list holds the caller option exactly when caller capture is not
      disabled, the error-level stack-trace option exactly when stack traces are
      not disabled, and the one-second sampler with the configured counts exactly
      when sampling is configured; the field injection is always there, once, and
      last. */
  lemma OptionListShape(disableCaller: bool, disableStacktrace: bool,
                        sampling: Option<SamplingConfig>, fields: seq<Field>)
    ensures var opts := OptionList(disableCaller, disableStacktrace, sampling, fields);
      && |opts| == 1 + (if disableCaller then 0 else 1) + (if disableStacktrace then 0 else 1)
                     + (if sampling.Some? then 1 else 0)
      && opts[|opts| - 1] == InjectFields(fields)
      && (forall k :: 0 <= k < |opts| - 1 ==> !opts[k].InjectFields?)
      && (AddCaller in opts <==> !disableCaller)
      && (AddStacktrace(ErrorLevel) in opts <==> !disableStacktrace)
      && (forall o :: o in opts && o.AddStacktrace? ==> o.level == ErrorLevel)
      && (sampling.Some? ==> WrapSampler(Second, sampling.value.initial, sampling.value.thereafter) in opts)
      && (forall o :: o in opts && o.WrapSampler? ==>
            sampling.Some? && o == WrapSampler(Second, sampling.value.initial, sampling.value.thereafter))
  {
  }

  /** Each option occurs at most once, and caller comes before stack trace, which
      comes before the sampler. */
  lemma OptionOrder(disableCaller: bool, disableStacktrace: bool,
                    sampling: Option<SamplingConfig>, fields: seq<Field>, i: int, j: int)
    requires 0 <= i < j < |OptionList(disableCaller, disableStacktrace, sampling, fields)|
    ensures var opts := OptionList(disableCaller, disableStacktrace, sampling, fields);
      && (opts[j].AddCaller? ==> !opts[i].AddStacktrace? && !opts[i].WrapSampler? && !opts[i].AddCaller?)
      && (opts[j].AddStacktrace? ==> !opts[i].WrapSampler? && !opts[i].AddStacktrace?)
      && (opts[j].WrapSampler? ==> !opts[i].WrapSampler?)
  {
  }

  /** A field list read back as a map from key to value (a later field wins). */
  function FieldMap(fields: seq<Field>): map<string, Value>
  {
    if |fields| == 0 then map[]
    else FieldMap(fields[..|fields| - 1])[fields[|fields| - 1].key := fields[|fields| - 1].value]
  }

  /** No key occurs twice in the list. */
  predicate DistinctKeys(fields: seq<Field>) {
    forall i, j :: 0 <= i < j < |fields| ==> fields[i].key != fields[j].key
  }

  /** When no key repeats, the map read back holds every field of the list, and
      nothing else. */
  lemma {:induction false} FieldMapHoldsFields(fields: seq<Field>)
    requires DistinctKeys(fields)
    ensures forall k :: 0 <= k < |fields| ==>
      fields[k].key in FieldMap(fields) && FieldMap(fields)[fields[k].key] == fields[k].value
    ensures forall key :: key in FieldMap(fields) ==> exists k :: 0 <= k < |fields| && fields[k].key == key
    ensures |FieldMap(fields)| == |fields|
  {
    if |fields| > 0 {
      var init, last := fields[..|fields| - 1], fields[|fields| - 1];
      assert DistinctKeys(init);
      FieldMapHoldsFields(init);
      assert last.key !in FieldMap(init);
      forall k | 0 <= k < |fields|
        ensures fields[k].key in FieldMap(fields) && FieldMap(fields)[fields[k].key] == fields[k].value
      {
        if k < |fields| - 1 {
          assert fields[k] == init[k];
        }
      }
      forall key | key in FieldMap(fields)
        ensures exists k :: 0 <= k < |fields| && fields[k].key == key
      {
        if key != last.key {
          var k :| 0 <= k < |init| && init[k].key == key;
          assert fields[k] == init[k];
        }
      }
    }
  }

  /** The initial fields: one field per entry of `initial`, no key twice, in the
      map's (unspecified) iteration order; or, when the map is empty, the single
      field "app" naming the program. */
  predicate InitialFieldsOf(fields: seq<Field>, initial: map<string, Value>, programName: string) {
    if |initial| > 0 then FieldMap(fields) == initial && |fields| == |initial| && DistinctKeys(fields)
    else fields == [Field("app", Str(programName))]
  }

  /** The field loop of `InitLogConfig`. */
  method BuildFields(initial: map<string, Value>, programName: string) returns (fields: seq<Field>)
    ensures InitialFieldsOf(fields, initial, programName)
  {
    fields := [];
    if |initial| > 0 {
      var pending := initial.Keys;
      while pending != {}
        invariant pending <= initial.Keys
        invariant FieldMap(fields) == initial - pending
        invariant |fields| + |pending| == |initial|
        invariant forall k :: 0 <= k < |fields| ==> fields[k].key !in pending
        invariant DistinctKeys(fields)
        decreases pending
      {
        var key :| key in pending;
        var next := fields + [Field(key, initial[key])];
        assert next[..|next| - 1] == fields;
        assert FieldMap(next) == (initial - pending)[key := initial[key]];
        fields := next;
        pending := pending - {key};
      }
      assert initial - {} == initial;
    } else {
      fields := fields + [Field("app", Str(programName))];
    }
  }

  /** `InitLogConfig(c)`: a new configuration holding the defaults, with the
      file name, level and rotation limits taken from `c` where `c` sets them,
      the option list, the encoder chosen by `c`'s encoding and the initial fields.
      `programName` is what `GetProgramName()` returns. */
  method InitLogConfig(c: LogConfig, programName: string) returns (l: LogConfig)
    ensures fresh(l)
    ensures l.Resolved()
    ensures l.rotation.filename == if c.rotation.filename != "" then c.rotation.filename else DefaultFilename
    ensures l.rotation.maxSize == if c.rotation.maxSize != 0 then c.rotation.maxSize else DefaultSize
    ensures l.rotation.maxAge == if c.rotation.maxAge != 0 then c.rotation.maxAge else DefaultAge
    ensures l.rotation.maxBackups == if c.rotation.maxBackups != 0 then c.rotation.maxBackups else DefaultBackup
    ensures l.rotation.localTime && l.rotation.compress
    ensures l.zap.level == if c.zap.level.Some? then c.zap.level else DefaultLevel
    ensures l.zap.(level := DefaultLevel) ==
      ZapConfig(DefaultLevel, DefaultDisableCaller, DefaultDisableStacktrace,
                None, DefaultEncoding, ProductionEncoderConfig, map[])
    ensures l.encoder == Some(NewEncoder(c.zap.encoding))
    ensures InitialFieldsOf(l.fields, c.zap.initialFields, programName)
    ensures l.options == OptionList(c.zap.disableCaller, c.zap.disableStacktrace, c.zap.sampling, l.fields)
  {
    // Go passes the partial configuration by value.
    var given, zap := c.rotation, c.zap;
    // The literal's fields, overwritten one condition at a time below.
    var rotation := Lumberjack("", DefaultSize, DefaultAge, DefaultBackup, DefaultLocalTime, DefaultCompress);
    var config := ZapConfig(DefaultLevel, DefaultDisableCaller, DefaultDisableStacktrace,
                            None, DefaultEncoding, ProductionEncoderConfig, map[]);
    var encoder := Json(ProductionEncoderConfig);
    var fields: seq<Field> := [];
    var options: seq<ZapOption> := [];
    if given.filename != "" {
      rotation := rotation.(filename := given.filename);
    } else {
      rotation := rotation.(filename := DefaultFilename);
    }
    if zap.level != None {
      config := config.(level := zap.level);
    }
    if given.maxSize != 0 {
      rotation := rotation.(maxSize := given.maxSize);
    }
    if given.maxAge != 0 {
      rotation := rotation.(maxAge := given.maxAge);
    }
    if given.maxBackups != 0 {
      rotation := rotation.(maxBackups := given.maxBackups);
    }
    if !zap.disableCaller {
      options := options + [AddCaller];
    }
    if !zap.disableStacktrace {
      options := options + [AddStacktrace(ErrorLevel)];
    }
    if zap.sampling.Some? {
      options := options + [WrapSampler(Second, zap.sampling.value.initial, zap.sampling.value.thereafter)];
    }
    encoder := NewEncoder(zap.encoding);
    // `fields` is still empty here, so appending the collected fields to it
    // yields exactly those.
    fields := BuildFields(zap.initialFields, programName);
    options := options + [InjectFields(fields)];
    assert options == OptionList(zap.disableCaller, zap.disableStacktrace, zap.sampling, fields);
    l := new LogConfig(rotation, config, Some(encoder), fields, options);
  }

  // ---------------------------------------------------------------------------
  // LogInit
  // ---------------------------------------------------------------------------

  /** The path `LogInit` writes to: an absolute file name as it is, any other one
      placed under `<execDir>/../logs/` and cleaned. `execDir` is what `ExecDir()`
      would produce; it is consulted only for a relative name, and an `Err` there
      is its panic. `clean` stands for `path.Clean`. */
  function LogPath(filename: string, execDir: Result<string, GoError>, clean: string -> string)
    : (r: Result<string, GoError>)
    ensures "/" <= filename ==> r == Ok(filename)
    ensures !("/" <= filename) ==>
      (r.Ok? <==> execDir.Ok?) &&
      (r.Ok? ==> r.value == clean(execDir.value + "/../logs/" + filename)) &&
      (r.Err? ==> r.error == execDir.error)
  {
    if "/" <= filename then Ok(filename)
    else
      match execDir
      case Err(e) => Err(e)
      case Ok(dir) => Ok(clean(dir + "/../logs/" + filename))
  }

  /** `path.Clean` keeps a rooted path rooted. */
  ghost predicate KeepsRoot(clean: string -> string) {
    forall p :: "/" <= p ==> "/" <= clean(p)
  }

  /** `filepath.Abs` yields rooted paths. */
  ghost predicate YieldsRooted(abs: string -> Result<string, GoError>) {
    forall p :: abs(p).Ok? ==> "/" <= abs(p).value
  }

  /** The resolved path is absolute, so resolving it again leaves it alone: a
      second `LogInit` on the same configuration does not move the file again. */
  lemma LogPathSettles(filename: string, lookPath: Result<string, GoError>,
                       abs: string -> Result<string, GoError>, clean: string -> string)
    requires KeepsRoot(clean) && YieldsRooted(abs)
    ensures var r := LogPath(filename, OsUtils.ExecDir(lookPath, abs), clean);
      r.Ok? ==> "/" <= r.value && LogPath(r.value, OsUtils.ExecDir(lookPath, abs), clean) == r
  {
  }

  /** `LogInit(c)`: moves a relative file name under the executable's `../logs`
      directory (updating `c`), then builds the logger from `c`'s encoder, a
      synchronised rotating writer and `c`'s level, with `c`'s options. The
      writer gets the file name, size, backup and age limits and local time, but
      not the compression flag. `err` is never set; the only failure is the panic
      of `ExecDir`, before anything changes. */
  method LogInit(c: LogConfig, lookPath: Result<string, GoError>,
                 abs: string -> Result<string, GoError>, clean: string -> string)
    returns (outcome: InitOutcome)
    modifies c
    ensures c.zap == old(c.zap) && c.encoder == old(c.encoder)
    ensures c.fields == old(c.fields) && c.options == old(c.options)
    ensures c.rotation == old(c.rotation).(filename := c.rotation.filename)
    ensures var path := LogPath(old(c.rotation.filename), OsUtils.ExecDir(lookPath, abs), clean);
      && (outcome.Panicked? <==> path.Err?)
      && (outcome.Panicked? ==> outcome.cause == path.error && c.rotation == old(c.rotation))
      && (outcome.Returned? ==> c.rotation.filename == path.value)
    ensures outcome.Returned? ==> outcome.err == None
    ensures outcome.Returned? ==> outcome.logger == Logger(
      Core(c.encoder,
           Synced(Lumberjack(c.rotation.filename, c.rotation.maxSize, c.rotation.maxAge,
                             c.rotation.maxBackups, true, false)),
           c.zap.level),
      c.options)
  {
    if !("/" <= c.rotation.filename) {
      var dir := OsUtils.ExecDir(lookPath, abs);
      if dir.Err? {
        return Panicked(dir.error);
      }
      c.rotation := c.rotation.(filename := clean(dir.value + "/../logs/" + c.rotation.filename));
    }
    var w := Synced(Lumberjack(
      c.rotation.filename, c.rotation.maxSize, c.rotation.maxAge, c.rotation.maxBackups, true, false));
    outcome := Returned(Logger(Core(c.encoder, w, c.zap.level), c.options), None);
  }

  /** The worked example of a partial configuration that sets only five backups. */
  method DefaultsScenario(programName: string)
  {
    var c := new LogConfig(ZeroLumberjack.(maxBackups := 5), ZeroZapConfig, None, [], []);
    var l := InitLogConfig(c, programName);
    assert l.rotation.filename == "default.log";
    assert l.zap.level == Some(DebugLevel);
    assert l.rotation.maxSize == 1024 && l.rotation.maxAge == 7 && l.rotation.maxBackups == 5;
    assert l.encoder == Some(Json(LogEncoderConfig));
    assert l.fields == [Field("app", Str(programName))];
    assert l.options == [AddCaller, AddStacktrace(ErrorLevel), InjectFields(l.fields)];
  }
}
