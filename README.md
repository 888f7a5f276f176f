# levelzap in Dafny

A model of levelzap, a levelled logging facade over the zap engine. It covers:

- the logger object `loggingT` as the class `Logging.LoggingT`. The class holds
  the destination flags, the file path pieces, the rotation limits, the caller
  skip, the optional encoder configuration, the verbosity cell and the lazily
  built engine logger (`logger: Option<Logger>`).
- the rule that the engine logger is built at most once. It is built from the
  settings of the moment of the first gated write or flush. Later changes do
  not reach it. A ghost history `built` holds every logger ever built, and
  `Valid()` keeps it at length one or less.
- the topology choice: stderr only, file only, or a tee of file and stderr.
  Also the encoder default, caller annotation and stack-trace options.
- the verbosity gate `V`. It returns a handle iff the threshold is at most the
  requested level, and only a handle causes the logger to be built.
- `Level`, an int32 cell, with its decimal text form. `Set` is modelled on
  `strconv.Atoi`, `String` on `strconv.FormatInt`. Both round trips are proved,
  with the exact conditions under which text survives one.
- the nil-guarded `Verbose` writers and the six named writers. A write is the
  list of records it emits.
- `New` and the package-level global instance (`Facade.Package`), which differs
  from a fresh instance by one extra caller skip.

The zap engine is an opaque descriptor (module `Zap`). A logger is a value made
of its cores, sinks, encoders, level thresholds, caller options and stack-trace
level. `Zap.Outputs` says which sinks an entry of a given severity reaches.

Modules: `Wrappers` (Option, Result), `Zap`, `Levels` (levelzap.go's `Level`
and interface.go's constants), `Verbose` (levelzap.go's `Verbose`), `Logging`
(logging.go), `Facade` (interface.go, the package `init` and the named writers
of levelzap.go).

Two consequences of the code that the model makes explicit:

- The named `Panic` and `Fatal` go through `V(PANIC)` and `V(FATAL)`
  (levelzap.go:88, levelzap.go:91), like the other named writers. So they
  emit nothing when the threshold is above 4 or 5.
- Text survives `Set` then `String` exactly when it is canonical decimal within
  int32 range (`Levels.StoreThenFormat` for one direction,
  `Levels.SurvivesOnlyIf` for the other). `Levels.TextsThatDoNotRoundTrip`
  shows `+7`, `07` and 4294967296, which `Set` accepts and stores as 7, 7 and 0.

## Model

| member | source | states |
|---|---|---|
| Levels.NamedLevels | interface.go:35-42 | DEBUG < INFO < WARN < ERROR < PANIC < FATAL, with zap's values -1, 0, 1, 2, 4, 5 |
| Levels.ToInt32 | levelzap.go:46 | int32(n) agrees with n modulo 2^32 and is n itself when n fits in 32 bits |
| Levels.Atoi | levelzap.go:42-45 | a rejected text yields an error naming that text; the empty text is never accepted |
| Levels.FormatInt | levelzap.go:32 | the decimal text of a value is canonical, and begins with a minus sign iff the value is negative |
| Levels.ParseFormat | levelzap.go:31-48 | the decimal text of every 64-bit value is canonical and Atoi parses it back to the same value |
| Levels.FormatParse | levelzap.go:31-48 | a canonical decimal text that Atoi accepts is printed back exactly by FormatInt |
| Levels.StoreThenFormat | levelzap.go:31-48 | a canonical text within int32 range, parsed, truncated to int32 and printed, is the original text |
| Levels.SurvivesOnlyIf | levelzap.go:31-48 | a text that survives parsing, truncation to int32 and printing is canonical and within int32 range |
| Levels.TextsThatDoNotRoundTrip | levelzap.go:41-48 | "+7" and "07" parse to 7, which prints as "7"; 2^32 parses but its int32 truncation is 0 |
| Levels.Level.Load | levelzap.go:21-23 | get returns the stored level |
| Levels.Level.Store | levelzap.go:26-28 | set stores exactly the given level |
| Levels.Level.String | levelzap.go:31-33 | the text is the signed decimal form of the level, canonical, and Atoi parses it back to the level |
| Levels.Level.Get | levelzap.go:36-38 | Get returns the stored level |
| Levels.Level.Set | levelzap.go:41-48 | error iff Atoi rejects the text; on error the level is unchanged and the error names the text; otherwise the level becomes int32 of the parsed value |
| Levels.RestoreFromText | levelzap.go:31-48 | Set(String()) succeeds and leaves the level as it was |
| Levels.StoreThenLoad | levelzap.go:21-28 | set(v) followed by get() returns v |
| Verbose.Info | levelzap.go:55-59 | a nil handle emits nothing; a non-nil handle emits exactly one Info record with the message, to that logger |
| Verbose.Panic | levelzap.go:62-66 | a nil handle emits nothing; a non-nil handle emits exactly one Panic record with the message, to that logger |
| Verbose.Fatal | levelzap.go:69-73 | a nil handle emits nothing; a non-nil handle emits exactly one Fatal record with the message, to that logger |
| Logging.DefaultEncoderConfig | logging.go:102-106 | the default encoder configuration is zap's production configuration with the ISO-8601 time encoder |
| Logging.NewLogger | logging.go:107-136 | every severity reaches stderr alone if toStderr (whatever alsoToStderr is), else the rotating file and stderr if alsoToStderr, else the file alone; the file sink carries the configured dir, name, max size, backups and age; every core is a console encoder over the configuration at Info level; caller annotation with callerSkip iff addCaller; the stack-trace level is PanicLevel in both branches, so Panic and Fatal, not Info, carry stack traces |
| Logging.LoggingT.constructor | interface.go:46 | the zero value: every flag false, every string empty, every number 0, no logger, no encoder configuration |
| Logging.LoggingT.InitDefault | logging.go:83-92 | addCaller on, caller skip 1, limits 1024/7/7, verbosity INFO, file `<program>.log` in the program's directory; destination flags, logger and encoder configuration untouched |
| Logging.LoggingT.GetLogger | logging.go:95-142 | with a logger stored, returns it and changes nothing; otherwise fills in the default encoder configuration if none was set, builds NewLogger from the current settings, stores it and records it as the one construction |
| Logging.LoggingT.ApplyFlag | logging.go:146-159 | each flag sets exactly its bound field; `-v` goes through Level.Set with its error and no-change-on-error rule; the logger is never touched |
| Logging.LoggingT.AddCallerSkip | logging.go:162 | caller skip grows by the argument; every other field is unchanged |
| Logging.LoggingT.SetEncoderConfig | logging.go:165-168 | the encoder configuration becomes the given one; settings and logger are unchanged |
| Logging.LoggingT.SetLevel | logging.go:171 | the verbosity cell holds the given level; the object itself is unchanged |
| Logging.LoggingT.V | logging.go:174-180 | a handle iff verbosity <= level; a handle is the logger getLogger yields, built if necessary; no handle means nothing changed |
| Logging.LoggingT.Flush | logging.go:183 | afterwards the logger exists; it is the stored one or the one built now |
| Logging.BuiltOnce | logging.go:95-142 | after the first construction, changing caller skip, encoder configuration or any flag (including `-v`) does not change the logger that V hands out, and no second logger is built |
| Logging.AddCallerSkipTwice | logging.go:162 | two AddCallerSkip calls add d1 + d2 |
| Facade.New | interface.go:45-49 | a fresh, independent object in the initDefault state with caller skip 1 and no logger |
| Facade.Package.Init | logging.go:31-34 | the global object is in the initDefault state except caller skip 2 |
| Facade.Package.InitFlags | interface.go:55-57 | delegates to the global object's flag assignment |
| Facade.Package.SetEncoderConfig | interface.go:60-62 | delegates to the global object's SetEncoderConfig |
| Facade.Package.SetLevel | interface.go:65-67 | delegates to the global object's SetLevel |
| Facade.Package.V | interface.go:70-72 | delegates to the global object's V: a handle iff verbosity <= level |
| Facade.Package.Flush | interface.go:75-77 | delegates to the global object's Flush |
| Facade.Package.Debug | levelzap.go:76 | one Info record iff verbosity <= DEBUG, else nothing and no change |
| Facade.Package.Info | levelzap.go:79 | one Info record iff verbosity <= INFO, else nothing and no change |
| Facade.Package.Warn | levelzap.go:82 | one Info record iff verbosity <= WARN, else nothing and no change |
| Facade.Package.Error | levelzap.go:85 | one Info record iff verbosity <= ERROR, else nothing and no change |
| Facade.Package.Panic | levelzap.go:88 | one Panic record iff verbosity <= PANIC, else nothing and no change |
| Facade.Package.Fatal | levelzap.go:91 | one Fatal record iff verbosity <= FATAL, else nothing and no change |
| Facade.NewIsIndependent | interface.go:45-77 | package-level InitFlags, SetEncoderConfig, SetLevel, Info and Flush leave an object from New in its initial state |
| Facade.WarnThreshold | logging.go:174-180 | with the threshold at WARN, V(DEBUG) is nil, V(ERROR) is a handle, and an Error write through it emits exactly one record |

## Left out

- Writing, formatting and syncing records is left out. These belong to the zap
  engine and the lumberjack rotating writer. A logger is a descriptor; `Flush`
  only builds it, and `Sync` is not modelled.
- Rotation (size, age, backup count) is left out. The sink only carries the
  limits it was built with.
- `os.Args`, `filepath.Base/Dir/Abs/Join` are left out. The program's base name
  and absolute directory are parameters of `InitDefault`, `New` and
  `Package.Init`. The file sink keeps directory and name apart, not joined.
- The error `filepath.Abs` may return, which initDefault drops, is left out.
- `sync/atomic` and the mutex are left out. The model is sequential. The
  double-checked lock becomes two checks of the same field.
- zap's `Field` arguments of every write are left out.
- Panic unwinding and Fatal process exit are left out. They show only as the
  record's severity.
- Caller frame computation is left out. Only the skip count is kept.
- Logging.LoggingT.ApplyFlag: the flag package itself is left out. That means
  registration, usage text and the parsing of bool and int flag values. A flag
  arrives already parsed as one assignment. Only `-v` text goes through the
  modelled `Level.Set`.
- Logging.LoggingT.AddCallerSkip: Go's `callerSkip` is a 64-bit `int` and
  `+=` wraps on overflow; the model's integer is unbounded, so the sum (and
  `Logging.AddCallerSkipTwice`'s d1 + d2) agrees with Go only modulo 2^64. The
  rotation limits, also Go `int`, are likewise unbounded here.
- Levels.Atoi: Go's `int` is taken to be 64 bits. The error does not tell a
  syntax error from a range error, only that the text was rejected.
- Levels.Level.Get: `Get` returns `interface{}` in Go. Here it returns the
  int32 level it boxes.
- Zap: zap's other logger fields are left out: name, development mode, error
  output, clock and hooks. So is `NopCore` (an empty tee stands for it).
