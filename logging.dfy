/**
 * The logger object: its settings, the verbosity cell, and the lazily built
 * engine logger. The engine is built at most once, on the first gated write or
 * flush, from the settings of that moment; later changes to the settings do not
 * reach it.
 */
module Logging {
  import opened Wrappers
  import opened Zap
  import opened Levels

  const LogFileDefaultMaxSizeMB: int := 1024
  const LogFileDefaultMaxBackups: int := 7
  const LogFileDefaultMaxAge: int := 7

  /** The settings the engine is built from. */
  datatype Settings = Settings(
    toStderr: bool,
    alsoToStderr: bool,
    addCaller: bool,
    logDir: string,
    logFile: string,
    maxSizeMB: int,
    maxBackups: int,
    maxAge: int,
    callerSkip: int)

  /** The rotating file the settings name, with their rotation limits. */
  function FileSink(s: Settings): WriteSyncer
  {
    RotatingFile(s.logDir, s.logFile, s.maxSizeMB, s.maxBackups, s.maxAge)
  }

  /** The encoder configuration used when none was supplied: production settings, ISO-8601 time. */
  function DefaultEncoderConfig(): (c: EncoderConfig)
    ensures c.encodeTime == ISO8601TimeEncoder
    ensures c.settings == NewProductionEncoderConfig().settings
  {
    NewProductionEncoderConfig().(encodeTime := ISO8601TimeEncoder)
  }

  /** The sinks, in order, of the chosen topology. */
  function TopologySinks(s: Settings): seq<WriteSyncer>
  {
    if s.toStderr then [Stderr]
    else if s.alsoToStderr then [FileSink(s), Stderr]
    else [FileSink(s)]
  }

  lemma EnabledOutputsAllInfo(leaves: seq<IoCore>, level: int)
    requires forall c :: c in leaves ==> c.enabler == InfoLevel
    requires level >= InfoLevel
    ensures EnabledOutputs(leaves, level) == seq(|leaves|, i requires 0 <= i < |leaves| => leaves[i].out)
    decreases |leaves|
  {
    if leaves != [] {
      EnabledOutputsAllInfo(leaves[1..], level);
    }
  }

  /**
   * The engine logger built from settings `s` and encoder configuration `enc`:
   * every record of every severity goes to stderr alone when toStderr is set
   * (whatever alsoToStderr says), else to the rotating file and stderr when
   * alsoToStderr is set, else to the rotating file alone; every core is a console
   * encoder over `enc` at Info level; the call site is annotated, skipping
   * callerSkip frames, exactly when addCaller is set; Panic and Fatal records,
   * and no Info record, carry a stack trace.
   */
  function NewLogger(s: Settings, enc: EncoderConfig): (r: Logger)
    ensures forall sev :: Outputs(r, sev) == TopologySinks(s)
    ensures Stderr in Outputs(r, InfoSeverity) <==> s.toStderr || s.alsoToStderr
    ensures FileSink(s) in Outputs(r, InfoSeverity) <==> !s.toStderr
    ensures forall c :: c in Leaves(r.core) ==> c.encoder == ConsoleEncoder(enc) && c.enabler == InfoLevel
    ensures r.addCaller == s.addCaller
    ensures r.callerSkip == (if s.addCaller then s.callerSkip else 0)
    ensures r.addStack == PanicLevel
    ensures forall sev :: HasStacktrace(r, sev) <==> sev != InfoSeverity
  {
    var encoder := ConsoleEncoder(enc);
    var file := FileSink(s);
    var core :=
      if s.toStderr then Io(IoCore(encoder, Stderr, InfoLevel))
      else if !s.alsoToStderr then Io(IoCore(encoder, file, InfoLevel))
      else NewTee([Io(IoCore(encoder, file, InfoLevel)), Io(IoCore(encoder, Stderr, InfoLevel))]);
    var leaves := Leaves(core);
    assert s.toStderr ==> leaves == [IoCore(encoder, Stderr, InfoLevel)];
    assert !s.toStderr && !s.alsoToStderr ==> leaves == [IoCore(encoder, file, InfoLevel)];
    assert !s.toStderr && s.alsoToStderr ==> leaves == [IoCore(encoder, file, InfoLevel), IoCore(encoder, Stderr, InfoLevel)] by {
      if !s.toStderr && s.alsoToStderr {
        var a, b := IoCore(encoder, file, InfoLevel), IoCore(encoder, Stderr, InfoLevel);
        var cs := [Io(a), Io(b)];
        assert core == Tee(cs);
        assert cs[1..] == [Io(b)] && cs[1..][1..] == [];
        assert LeavesOf(cs[1..]) == Leaves(Io(b)) + LeavesOf([]) == [b];
        assert LeavesOf(cs) == Leaves(Io(a)) + LeavesOf(cs[1..]) == [a, b];
      }
    }
    EnabledOutputsAllInfo(leaves, InfoLevel);
    EnabledOutputsAllInfo(leaves, PanicLevel);
    EnabledOutputsAllInfo(leaves, FatalLevel);
    var base := Logger(core, false, 0, FatalLevel + 1);
    var withCaller := [AddCaller, AddCallerSkip(s.callerSkip), AddStacktrace(PanicLevel)];
    var withoutCaller := [AddStacktrace(PanicLevel)];
    assert ApplyOptions(base, withCaller) == Logger(core, true, s.callerSkip, PanicLevel) by {
      var l1 := ApplyOption(base, AddCaller);
      var l2 := ApplyOption(l1, AddCallerSkip(s.callerSkip));
      var l3 := ApplyOption(l2, AddStacktrace(PanicLevel));
      assert withCaller[1..] == [AddCallerSkip(s.callerSkip), AddStacktrace(PanicLevel)];
      assert withCaller[1..][1..] == [AddStacktrace(PanicLevel)];
      assert withCaller[1..][1..][1..] == [];
      assert ApplyOptions(l3, []) == l3;
      assert ApplyOptions(l2, withCaller[1..][1..]) == l3;
      assert ApplyOptions(l1, withCaller[1..]) == l3;
    }
    assert ApplyOptions(base, withoutCaller) == Logger(core, false, 0, PanicLevel) by {
      assert withoutCaller[1..] == [];
    }
    if s.addCaller then New(core, withCaller) else New(core, withoutCaller)
  }

  /** One parsed command-line flag, assigned to the field InitFlags binds it to. */
  datatype Flag =
    | LogToStderr(b: bool)
    | LogAlsoToStderr(b: bool)
    | LogAddCaller(b: bool)
    | LogDir(path: string)
    | LogFile(name: string)
    | LogFileMaxSize(n: int)
    | LogFileMaxBackups(n: int)
    | LogFileMaxAge(n: int)
    | Verbosity(text: string)

  /** The settings after one non-verbosity flag has been assigned. */
  function WithFlag(s: Settings, f: Flag): Settings
  {
    match f
    case LogToStderr(b) => s.(toStderr := b)
    case LogAlsoToStderr(b) => s.(alsoToStderr := b)
    case LogAddCaller(b) => s.(addCaller := b)
    case LogDir(path) => s.(logDir := path)
    case LogFile(name) => s.(logFile := name)
    case LogFileMaxSize(n) => s.(maxSizeMB := n)
    case LogFileMaxBackups(n) => s.(maxBackups := n)
    case LogFileMaxAge(n) => s.(maxAge := n)
    case Verbosity(_) => s
  }

  class LoggingT {
    var toStderr: bool
    var alsoToStderr: bool
    var addCaller: bool
    const verbosity: Level
    var logDir: string
    var logFile: string
    var logFileMaxSizeMB: int
    var logFileMaxBackups: int
    var logFileMaxAge: int
    var callerSkip: int
    var logger: Option<Logger>
    var encoderConfig: Option<EncoderConfig>

    /** Every engine logger this object has built, in order. */
    ghost var built: seq<Logger>

    /** At most one logger is ever built, and it is the one stored. */
    ghost predicate Valid()
      reads this
    {
      |built| <= 1 &&
      (logger.None? <==> built == []) &&
      (logger.Some? ==> logger.value == built[0] && encoderConfig.Some?)
    }

    function Config(): Settings
      reads this
    {
      Settings(toStderr, alsoToStderr, addCaller, logDir, logFile,
               logFileMaxSizeMB, logFileMaxBackups, logFileMaxAge, callerSkip)
    }

    /** The encoder configuration a construction right now would use. */
    function EncoderToUse(): EncoderConfig
      reads this
    {
      if encoderConfig.Some? then encoderConfig.value else DefaultEncoderConfig()
    }

    /** The logger getLogger would return right now. */
    function Resolved(): Logger
      reads this
    {
      if logger.Some? then logger.value else NewLogger(Config(), EncoderToUse())
    }

    /** The state of a fresh object after initDefault, with the given caller skip. */
    ghost predicate Initial(programName: string, programDir: string, skip: int)
      reads this, verbosity
    {
      Config() == Settings(false, false, true, programDir, programName + ".log",
                           LogFileDefaultMaxSizeMB, LogFileDefaultMaxBackups, LogFileDefaultMaxAge, skip) &&
      verbosity.value == INFO && logger.None? && encoderConfig.None? && built == []
    }

    /** What one getLogger call that returned `r` did: build once if needed, otherwise nothing. */
    twostate predicate Obtained(r: Logger)
      reads this
    {
      r == old(Resolved()) && logger == Some(r) && Config() == old(Config()) &&
      (old(logger).Some? ==> encoderConfig == old(encoderConfig) && built == old(built)) &&
      (old(logger).None? ==> encoderConfig == Some(old(EncoderToUse())) && built == old(built) + [r])
    }

    /** The zero value &loggingT{}. */
    constructor ()
      ensures Valid() && fresh(verbosity)
      ensures Config() == Settings(false, false, false, "", "", 0, 0, 0, 0)
      ensures verbosity.value == 0 && logger == None && encoderConfig == None && built == []
    {
      toStderr, alsoToStderr, addCaller := false, false, false;
      verbosity := new Level(0);
      logDir, logFile := "", "";
      logFileMaxSizeMB, logFileMaxBackups, logFileMaxAge := 0, 0, 0;
      callerSkip := 0;
      logger := None;
      encoderConfig := None;
      built := [];
    }

    /**
     * initDefault. The program's base name and absolute directory come from the
     * program path, which is outside the model.
     */
    method InitDefault(programName: string, programDir: string)
      requires Valid()
      modifies this, verbosity
      ensures Valid()
      ensures Config() == Settings(old(toStderr), old(alsoToStderr), true, programDir, programName + ".log",
                                   LogFileDefaultMaxSizeMB, LogFileDefaultMaxBackups, LogFileDefaultMaxAge, 1)
      ensures verbosity.value == INFO
      ensures logger == old(logger) && encoderConfig == old(encoderConfig) && built == old(built)
    {
      addCaller := true;
      callerSkip := 1;
      logFileMaxSizeMB := LogFileDefaultMaxSizeMB;
      logFileMaxBackups := LogFileDefaultMaxBackups;
      logFileMaxAge := LogFileDefaultMaxAge;
      verbosity.value := INFO;
      logFile := programName + ".log";
      logDir := programDir;
    }

    /**
     * getLogger: the double-checked construction, run sequentially. The stored
     * logger is returned if there is one; otherwise the default encoder
     * configuration is filled in if none was set, the logger is built from the
     * current settings (NewLogger) and stored.
     */
    method GetLogger() returns (r: Logger)
      requires Valid()
      modifies this
      ensures Valid() && Obtained(r)
      ensures old(logger).Some? ==> unchanged(this)
    {
      var lg := logger;
      if lg.None? {
        lg := logger;
        if lg.None? {
          if encoderConfig.None? {
            encoderConfig := Some(DefaultEncoderConfig());
          }
          var l := NewLogger(Config(), encoderConfig.value);
          logger := Some(l);
          built := built + [l];
          lg := logger;
        }
      }
      r := lg.value;
    }

    /** InitFlags followed by the flag package assigning one parsed flag. */
    method ApplyFlag(f: Flag) returns (err: Option<NumError>)
      requires Valid()
      modifies this, verbosity
      ensures Valid()
      ensures Config() == WithFlag(old(Config()), f)
      ensures logger == old(logger) && encoderConfig == old(encoderConfig) && built == old(built)
      ensures !f.Verbosity? ==> err.None? && verbosity.value == old(verbosity.value)
      ensures f.Verbosity? ==> (err.None? <==> Atoi(f.text).Ok?)
      ensures f.Verbosity? && err.Some? ==> verbosity.value == old(verbosity.value)
      ensures f.Verbosity? && err.None? ==> verbosity.value == ToInt32(Atoi(f.text).value)
    {
      err := None;
      match f
      case LogToStderr(b) => toStderr := b;
      case LogAlsoToStderr(b) => alsoToStderr := b;
      case LogAddCaller(b) => addCaller := b;
      case LogDir(path) => logDir := path;
      case LogFile(name) => logFile := name;
      case LogFileMaxSize(n) => logFileMaxSizeMB := n;
      case LogFileMaxBackups(n) => logFileMaxBackups := n;
      case LogFileMaxAge(n) => logFileMaxAge := n;
      case Verbosity(text) => err := verbosity.Set(text);
    }

    /** AddCallerSkip: add `skip` to the caller skip; nothing else changes. */
    method AddCallerSkip(skip: int)
      requires Valid()
      modifies this
      ensures Valid()
      ensures callerSkip == old(callerSkip) + skip
      ensures Config() == old(Config()).(callerSkip := old(callerSkip) + skip)
      ensures logger == old(logger) && encoderConfig == old(encoderConfig) && built == old(built)
    {
      callerSkip := callerSkip + skip;
    }

    /** SetEncoderConfig: replace the encoder configuration; nothing else changes. */
    method SetEncoderConfig(config: EncoderConfig)
      requires Valid()
      modifies this
      ensures Valid()
      ensures encoderConfig == Some(config)
      ensures Config() == old(Config()) && logger == old(logger) && built == old(built)
    {
      encoderConfig := Some(config);
    }

    /** SetLevel: store the threshold in the verbosity cell. */
    method SetLevel(level: int32)
      modifies verbosity
      ensures verbosity.value == level
    {
      verbosity.Store(level);
    }

    /**
     * V: a handle exactly when the threshold is at most `level`. Only a
     * non-nil handle makes the logger be built.
     */
    method V(level: int32) returns (h: Option<Logger>)
      requires Valid()
      modifies this
      ensures Valid()
      ensures h.Some? <==> verbosity.value <= level
      ensures h.Some? ==> Obtained(h.value)
      ensures h.None? ==> unchanged(this)
    {
      var threshold := verbosity.Load();
      if threshold <= level {
        var l := GetLogger();
        return Some(l);
      }
      h := None;
    }

    /** Flush: build the logger if needed; syncing its sinks is outside the model. */
    method Flush()
      requires Valid()
      modifies this
      ensures Valid() && logger.Some? && Obtained(logger.value)
    {
      var _ := GetLogger();
    }
  }

  /** Changing skip, flags or encoder after the first construction leaves the logger as it was. */
  method BuiltOnce(l: LoggingT, skip: int, config: EncoderConfig, f: Flag, level: int32) returns (first: Logger, later: Option<Logger>)
    requires l.Valid()
    modifies l, l.verbosity
    ensures first == old(l.Resolved()) && l.Valid() && |l.built| == 1
    ensures later.Some? <==> level >= l.verbosity.value
    ensures later.Some? ==> later.value == first
  {
    first := l.GetLogger();
    l.AddCallerSkip(skip);
    l.SetEncoderConfig(config);
    var _ := l.ApplyFlag(f);
    later := l.V(level);
  }

  /** Two AddCallerSkip calls accumulate. */
  method AddCallerSkipTwice(l: LoggingT, d1: int, d2: int)
    requires l.Valid()
    modifies l
    ensures l.Valid() && l.callerSkip == old(l.callerSkip) + d1 + d2
  {
    l.AddCallerSkip(d1);
    l.AddCallerSkip(d2);
  }
}
