/** The logger (Sources/Core/Logging/Logger.swift): info, warning and
    error lines always reach the sink, warnings and errors with a level
    prefix; debug lines reach it only in verbose mode. The sink is the list
    of lines written so far; printing to the console is not modelled. */
module Logging {

  datatype Logger = Logger(verbose: bool, sink: seq<string>) {
    /** `isVerbose`. */
    predicate IsVerbose() {
      verbose
    }
  }

  /** `init(verbose:sink:)`, with a sink that has seen nothing yet. */
  function NewLogger(verbose: bool): (l: Logger)
    ensures l.IsVerbose() == verbose && l.sink == []
  {
    Logger(verbose, [])
  }

  const WARN_PREFIX: string := "WARN: "
  const ERROR_PREFIX: string := "ERROR: "
  const DEBUG_PREFIX: string := "DEBUG: "

  /** `info(_:)`: the message exactly as given. */
  function Info(l: Logger, message: string): (r: Logger)
    ensures r.verbose == l.verbose
    ensures |r.sink| == |l.sink| + 1 && r.sink[..|l.sink|] == l.sink
    ensures r.sink[|l.sink|] == message
  {
    l.(sink := l.sink + [message])
  }

  /** `warn(_:)`: the message after the warning prefix. */
  function Warn(l: Logger, message: string): (r: Logger)
    ensures r.verbose == l.verbose
    ensures |r.sink| == |l.sink| + 1 && r.sink[..|l.sink|] == l.sink
    ensures |r.sink[|l.sink|]| == |WARN_PREFIX| + |message|
      && r.sink[|l.sink|][..|WARN_PREFIX|] == WARN_PREFIX && r.sink[|l.sink|][|WARN_PREFIX|..] == message
  {
    l.(sink := l.sink + [WARN_PREFIX + message])
  }

  /** `error(_:)`: the message after the error prefix. */
  function Error(l: Logger, message: string): (r: Logger)
    ensures r.verbose == l.verbose
    ensures |r.sink| == |l.sink| + 1 && r.sink[..|l.sink|] == l.sink
    ensures |r.sink[|l.sink|]| == |ERROR_PREFIX| + |message|
      && r.sink[|l.sink|][..|ERROR_PREFIX|] == ERROR_PREFIX && r.sink[|l.sink|][|ERROR_PREFIX|..] == message
  {
    l.(sink := l.sink + [ERROR_PREFIX + message])
  }

  /** `debug(_:)`: the message after the debug prefix in verbose mode,
      nothing otherwise. */
  function Debug(l: Logger, message: string): (r: Logger)
    ensures !l.verbose ==> r == l
    ensures l.verbose ==>
      && r.verbose == l.verbose
      && |r.sink| == |l.sink| + 1 && r.sink[..|l.sink|] == l.sink
      && |r.sink[|l.sink|]| == |DEBUG_PREFIX| + |message|
      && r.sink[|l.sink|][..|DEBUG_PREFIX|] == DEBUG_PREFIX && r.sink[|l.sink|][|DEBUG_PREFIX|..] == message
  {
    if !l.verbose then l else l.(sink := l.sink + [DEBUG_PREFIX + message])
  }

  datatype Level = InfoLevel | WarnLevel | ErrorLevel | DebugLevel

  datatype Call = Call(level: Level, message: string)

  function Apply(l: Logger, c: Call): Logger {
    match c.level
    case InfoLevel => Info(l, c.message)
    case WarnLevel => Warn(l, c.message)
    case ErrorLevel => Error(l, c.message)
    case DebugLevel => Debug(l, c.message)
  }

  /** A sequence of calls, in order. */
  function Run(l: Logger, calls: seq<Call>): (r: Logger)
    ensures r.verbose == l.verbose
    ensures |l.sink| <= |r.sink| <= |l.sink| + |calls|
    ensures r.sink[..|l.sink|] == l.sink
    decreases |calls|
  {
    if |calls| == 0 then l
    else
      var l1 := Apply(l, calls[0]);
      var r := Run(l1, calls[1..]);
      assert r.sink[..|l.sink|] == r.sink[..|l1.sink|][..|l.sink|];
      r
  }

  function DebugCount(calls: seq<Call>): (n: nat)
    ensures n <= |calls|
  {
    if |calls| == 0 then 0
    else (if calls[0].level == DebugLevel then 1 else 0) + DebugCount(calls[1..])
  }

  /** Every call writes one line, except the debug calls of a quiet logger,
      which write none. */
  lemma {:induction false} RunCountsLines(l: Logger, calls: seq<Call>)
    ensures |Run(l, calls).sink| == |l.sink| + |calls| - (if l.verbose then 0 else DebugCount(calls))
    decreases |calls|
  {
    if |calls| > 0 {
      RunCountsLines(Apply(l, calls[0]), calls[1..]);
    }
  }

  /** Verbosity only affects debug lines: a quiet and a verbose logger given
      the same calls without debug lines write the same lines. */
  lemma {:induction false} VerbosityOnlyAffectsDebug(sink: seq<string>, calls: seq<Call>)
    requires DebugCount(calls) == 0
    ensures Run(Logger(false, sink), calls).sink == Run(Logger(true, sink), calls).sink
    decreases |calls|
  {
    if |calls| > 0 {
      var q, v := Apply(Logger(false, sink), calls[0]), Apply(Logger(true, sink), calls[0]);
      assert q.sink == v.sink;
      VerbosityOnlyAffectsDebug(q.sink, calls[1..]);
    }
  }
}
