/**
 * The handle V returns: a logger, or nil when the verbosity gate is closed.
 * Each write method checks for nil and otherwise hands one record of its own
 * severity to the logger. A write is modelled as the list of records it emits.
 */
module Verbose {
  import opened Wrappers
  import opened Zap

  /** Verbose.Info: one Info record when the handle is non-nil, nothing otherwise. */
  function Info(v: Option<Logger>, msg: string): (out: seq<Record>)
    ensures |out| == (if v.Some? then 1 else 0)
    ensures forall r :: r in out ==> Some(r.logger) == v && r.severity == InfoSeverity && r.msg == msg
  {
    if v.Some? then [Record(v.value, InfoSeverity, msg)] else []
  }

  /** Verbose.Panic: one Panic record when the handle is non-nil, nothing otherwise. */
  function Panic(v: Option<Logger>, msg: string): (out: seq<Record>)
    ensures |out| == (if v.Some? then 1 else 0)
    ensures forall r :: r in out ==> Some(r.logger) == v && r.severity == PanicSeverity && r.msg == msg
  {
    if v.Some? then [Record(v.value, PanicSeverity, msg)] else []
  }

  /** Verbose.Fatal: one Fatal record when the handle is non-nil, nothing otherwise. */
  function Fatal(v: Option<Logger>, msg: string): (out: seq<Record>)
    ensures |out| == (if v.Some? then 1 else 0)
    ensures forall r :: r in out ==> Some(r.logger) == v && r.severity == FatalSeverity && r.msg == msg
  {
    if v.Some? then [Record(v.value, FatalSeverity, msg)] else []
  }
}
