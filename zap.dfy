/**
 * The structured-logging engine (zap) as an opaque descriptor. Nothing here
 * formats or writes a record: a logger is the value that describes its cores,
 * their sinks, encoders and level thresholds, and the options it was built with.
 */
module Zap {

  /** zapcore's level numbers. */
  const DebugLevel: int := -1
  const InfoLevel: int := 0
  const WarnLevel: int := 1
  const ErrorLevel: int := 2
  const DPanicLevel: int := 3
  const PanicLevel: int := 4
  const FatalLevel: int := 5

  /** How timestamps are written; only the two encoders the logger uses are named. */
  datatype TimeEncoder = EpochTimeEncoder | ISO8601TimeEncoder | OtherTimeEncoder(name: string)

  /** An encoder configuration: its time encoder, and the remaining settings left abstract. */
  datatype EncoderConfig = EncoderConfig(settings: string, encodeTime: TimeEncoder)

  /** zap.NewProductionEncoderConfig: the production settings, with epoch timestamps. */
  function NewProductionEncoderConfig(): EncoderConfig
  {
    EncoderConfig("production", EpochTimeEncoder)
  }

  datatype Encoder = ConsoleEncoder(config: EncoderConfig)

  /**
   * A destination. RotatingFile is a lumberjack writer whose file name is
   * filepath.Join(dir, name); the join itself is not modelled.
   */
  datatype WriteSyncer =
    | Stderr
    | RotatingFile(dir: string, name: string, maxSize: int, maxBackups: int, maxAge: int)

  /** zapcore.NewCore: one encoder writing to one sink at or above `enabler`. */
  datatype IoCore = IoCore(encoder: Encoder, out: WriteSyncer, enabler: int)

  /** A core is a single ioCore or a tee that duplicates every entry into its parts. */
  datatype Core = Io(leaf: IoCore) | Tee(cores: seq<Core>)

  /** zapcore.NewTee: no core gives an empty tee, one core is returned as it is. */
  function NewTee(cores: seq<Core>): Core
  {
    if |cores| == 1 then cores[0] else Tee(cores)
  }

  /** The single cores a core writes through, in tee order. */
  function Leaves(c: Core): seq<IoCore>
    decreases c
  {
    match c
    case Io(leaf) => [leaf]
    case Tee(cores) => LeavesOf(cores)
  }

  function LeavesOf(cores: seq<Core>): seq<IoCore>
    decreases cores
  {
    if cores == [] then [] else Leaves(cores[0]) + LeavesOf(cores[1..])
  }

  /** The options passed to zap.New. */
  datatype LoggerOption = AddCaller | AddCallerSkip(skip: int) | AddStacktrace(level: int)

  /**
   * A built logger: its core, whether it annotates the call site, how many frames
   * it skips when it does, and the lowest level that carries a stack trace.
   */
  datatype Logger = Logger(core: Core, addCaller: bool, callerSkip: int, addStack: int)

  function ApplyOption(l: Logger, o: LoggerOption): Logger
  {
    match o
    case AddCaller => l.(addCaller := true)
    case AddCallerSkip(skip) => l.(callerSkip := l.callerSkip + skip)
    case AddStacktrace(level) => l.(addStack := level)
  }

  function ApplyOptions(l: Logger, opts: seq<LoggerOption>): Logger
    decreases |opts|
  {
    if opts == [] then l else ApplyOptions(ApplyOption(l, opts[0]), opts[1..])
  }

  /**
   * zap.New: no caller annotation, no extra skip and stack traces switched off
   * (FatalLevel + 1) unless the options say otherwise, applied in order.
   */
  function New(core: Core, opts: seq<LoggerOption>): Logger
  {
    ApplyOptions(Logger(core, false, 0, FatalLevel + 1), opts)
  }

  /** The severities the levelled facade writes with. */
  datatype Severity = InfoSeverity | PanicSeverity | FatalSeverity

  function SeverityLevel(sev: Severity): int
  {
    match sev
    case InfoSeverity => InfoLevel
    case PanicSeverity => PanicLevel
    case FatalSeverity => FatalLevel
  }

  /** One write handed to a logger. */
  datatype Record = Record(logger: Logger, severity: Severity, msg: string)

  /** The sinks of the given single cores that accept an entry at `level`. */
  function EnabledOutputs(leaves: seq<IoCore>, level: int): seq<WriteSyncer>
  {
    if leaves == [] then []
    else (if leaves[0].enabler <= level then [leaves[0].out] else []) + EnabledOutputs(leaves[1..], level)
  }

  /** Where an entry of severity `sev` written to `l` ends up. */
  function Outputs(l: Logger, sev: Severity): seq<WriteSyncer>
  {
    EnabledOutputs(Leaves(l.core), SeverityLevel(sev))
  }

  /** Whether an entry of severity `sev` written to `l` carries a stack trace. */
  predicate HasStacktrace(l: Logger, sev: Severity)
  {
    SeverityLevel(sev) >= l.addStack
  }
}
