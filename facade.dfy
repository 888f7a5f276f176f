/**
 * The package level: New, the one global logger set up by the package's init,
 * the package functions that act on it, and the named convenience writers.
 */
module Facade {
  import opened Wrappers
  import opened Zap
  import opened Levels
  import opened Logging
  import Verbose

  /** New: an independent logger in the initDefault state, with no engine built. */
  method New(programName: string, programDir: string) returns (l: LoggingT)
    ensures fresh(l) && fresh(l.verbosity)
    ensures l.Valid() && l.Initial(programName, programDir, 1)
  {
    l := new LoggingT();
    l.InitDefault(programName, programDir);
  }

  /** The package's state: the global logger. */
  class Package {
    const logging: LoggingT

    ghost predicate Valid()
      reads this, logging
    {
      logging.Valid()
    }

    /** The package's init: defaults, then one extra caller skip for the package functions. */
    constructor Init(programName: string, programDir: string)
      ensures Valid() && fresh(logging) && fresh(logging.verbosity)
      ensures logging.Initial(programName, programDir, 2)
    {
      var l := new LoggingT();
      l.InitDefault(programName, programDir);
      l.AddCallerSkip(1);
      logging := l;
    }

    /** One write through a named function: a record of severity `sev` iff the threshold admits `level`. */
    twostate predicate Emitted(out: seq<Record>, level: int32, sev: Severity, msg: string)
      reads this, logging, logging.verbosity
    {
      if old(logging.verbosity.value) <= level then
        out == [Record(old(logging.Resolved()), sev, msg)] && logging.Obtained(out[0].logger)
      else
        out == [] && unchanged(logging)
    }

    method InitFlags(f: Flag) returns (err: Option<NumError>)
      requires Valid()
      modifies logging, logging.verbosity
      ensures Valid()
      ensures logging.Config() == WithFlag(old(logging.Config()), f)
      ensures logging.logger == old(logging.logger) && logging.encoderConfig == old(logging.encoderConfig)
      ensures !f.Verbosity? ==> err.None? && logging.verbosity.value == old(logging.verbosity.value)
      ensures f.Verbosity? ==> (err.None? <==> Atoi(f.text).Ok?)
      ensures f.Verbosity? && err.Some? ==> logging.verbosity.value == old(logging.verbosity.value)
      ensures f.Verbosity? && err.None? ==> logging.verbosity.value == ToInt32(Atoi(f.text).value)
    {
      err := logging.ApplyFlag(f);
    }

    method SetEncoderConfig(config: EncoderConfig)
      requires Valid()
      modifies logging
      ensures Valid()
      ensures logging.encoderConfig == Some(config)
      ensures logging.Config() == old(logging.Config()) && logging.logger == old(logging.logger)
    {
      logging.SetEncoderConfig(config);
    }

    method SetLevel(level: int32)
      modifies logging.verbosity
      ensures logging.verbosity.value == level
    {
      logging.SetLevel(level);
    }

    method V(level: int32) returns (h: Option<Logger>)
      requires Valid()
      modifies logging
      ensures Valid()
      ensures h.Some? <==> logging.verbosity.value <= level
      ensures h.Some? ==> logging.Obtained(h.value)
      ensures h.None? ==> unchanged(logging)
    {
      h := logging.V(level);
    }

    method Flush()
      requires Valid()
      modifies logging
      ensures Valid() && logging.logger.Some? && logging.Obtained(logging.logger.value)
    {
      logging.Flush();
    }

    method Debug(msg: string) returns (out: seq<Record>)
      requires Valid()
      modifies logging
      ensures Valid() && Emitted(out, DEBUG, InfoSeverity, msg)
    {
      var h := V(DEBUG);
      out := Verbose.Info(h, msg);
    }

    method Info(msg: string) returns (out: seq<Record>)
      requires Valid()
      modifies logging
      ensures Valid() && Emitted(out, INFO, InfoSeverity, msg)
    {
      var h := V(INFO);
      out := Verbose.Info(h, msg);
    }

    method Warn(msg: string) returns (out: seq<Record>)
      requires Valid()
      modifies logging
      ensures Valid() && Emitted(out, WARN, InfoSeverity, msg)
    {
      var h := V(WARN);
      out := Verbose.Info(h, msg);
    }

    method Error(msg: string) returns (out: seq<Record>)
      requires Valid()
      modifies logging
      ensures Valid() && Emitted(out, ERROR, InfoSeverity, msg)
    {
      var h := V(ERROR);
      out := Verbose.Info(h, msg);
    }

    method Panic(msg: string) returns (out: seq<Record>)
      requires Valid()
      modifies logging
      ensures Valid() && Emitted(out, PANIC, PanicSeverity, msg)
    {
      var h := V(PANIC);
      out := Verbose.Panic(h, msg);
    }

    method Fatal(msg: string) returns (out: seq<Record>)
      requires Valid()
      modifies logging
      ensures Valid() && Emitted(out, FATAL, FatalSeverity, msg)
    {
      var h := V(FATAL);
      out := Verbose.Fatal(h, msg);
    }
  }

  /** The package functions leave an instance from New untouched. */
  method NewIsIndependent(p: Package, programName: string, programDir: string, level: int32, config: EncoderConfig, f: Flag)
    returns (n: LoggingT)
    requires p.Valid()
    modifies p.logging, p.logging.verbosity
    ensures n.Valid() && n.Initial(programName, programDir, 1)
    ensures p.logging.verbosity.value == level && p.logging.logger.Some?
  {
    n := New(programName, programDir);
    var _ := p.InitFlags(f);
    p.SetEncoderConfig(config);
    p.SetLevel(level);
    var _ := p.Info("message");
    p.Flush();
  }

  /**
   * With the threshold at WARN, V(DEBUG) is nil, V(ERROR) is not, and an
   * Error-level write emits exactly one record.
   */
  method WarnThreshold(p: Package) returns (debugHandle: Option<Logger>, errorHandle: Option<Logger>, out: seq<Record>)
    requires p.Valid()
    modifies p.logging, p.logging.verbosity
    ensures debugHandle.None? && errorHandle.Some?
    ensures |out| == 1 && out[0].severity == InfoSeverity && out[0].msg == "disk full"
    ensures out[0].logger == errorHandle.value
  {
    p.SetLevel(WARN);
    debugHandle := p.V(DEBUG);
    errorHandle := p.V(ERROR);
    out := Verbose.Info(errorHandle, "disk full");
  }
}
