/** The older `Open` (open.go): the 9600-8N1 defaults are written straight
    into the port record, then the caller's options run in order, stopping
    at the first error, and only then is the platform port opened. */
module LegacyOpen {
  import opened Words
  import opened Results
  import opened SerialPort
  import opened Options
  import opened SerialOpen
  import LegacyOptions
  import LegacyWindowsOptions
  import WindowsValues

  /** Go's lookup in a map that may be nil: a missing key reads as 0. */
  function Lookup(m: map<int, Word>, key: int): (w: Word)
    ensures key in m ==> w == m[key]
    ensures key !in m ==> w == {}
  {
    if key in m then m[key] else {}
  }

  /** The platform constants the defaults read. */
  datatype Constants = Constants(rates: map<int, Word>, parityNone: Word, stopBitOne: Word)

  /** The port open.go starts from. The stop-bits byte is the literal 1,
      not `StopBitOne`. */
  function InitialPort(k: Constants): (p: Port)
    ensures p.dataBits == 8 && p.stopBits == 1 && p.parity == LowByte(k.parityNone)
    ensures p.controlOptions == Lookup(k.rates, 9600) + k.parityNone + k.stopBitOne
    ensures p.baudRate == WordOf(9600) && p.readTimeout == 0
    ensures p.f == NoFile && p.dev == "" && p.inputOptions == {}
  {
    Port(NoFile, "", 0, WordOf(9600), 8, 1, LowByte(k.parityNone), {},
         Lookup(k.rates, 9600) + k.parityNone + k.stopBitOne)
  }

  /** The starting port with the stop-bits byte taken from `StopBitOne`. */
  function InitialPortFixed(k: Constants): (p: Port)
    ensures p.stopBits == LowByte(k.stopBitOne)
    ensures p.(stopBits := 1) == InitialPort(k)
  {
    InitialPort(k).(stopBits := LowByte(k.stopBitOne))
  }

  function Open(k: Constants, apply: (LegacyOptions.Option, Port) -> Step,
                options: seq<LegacyOptions.Option>, open: Port -> Result<Port>): (r: OpenReport)
    ensures var run := RunOptions(apply, options, InitialPort(k));
            && (r.openCalled <==> run.status.Pass?)
            && (run.status.Pass? ==> r.result == open(run.port))
            && (run.status.Fail? ==> r.result == Err(run.status.error) && r.optionsRan == run.ran)
    ensures r.openCalled ==> r.optionsRan == |options|
    ensures !r.openCalled ==> r.result.Err? && 0 < r.optionsRan <= |options|
  {
    var run := RunOptions(apply, options, InitialPort(k));
    if run.status.Fail? then OpenReport(Err(run.status.error), run.ran, false)
    else OpenReport(open(run.port), |options|, true)
  }

  /** A failing `Open` returns the error of option number `optionsRan`,
      every earlier option having succeeded; no later option ran and the
      port was never opened. */
  lemma OpenStopsAtFirstError(k: Constants, apply: (LegacyOptions.Option, Port) -> Step,
                              options: seq<LegacyOptions.Option>, open: Port -> Result<Port>)
    requires !Open(k, apply, options, open).openCalled
    ensures var r := Open(k, apply, options, open);
            var before := RunOptions(apply, options[..r.optionsRan - 1], InitialPort(k));
            && before.status.Pass?
            && apply(options[r.optionsRan - 1], before.port).status == Fail(r.result.error)
  {
    RunFailsAtLast(apply, options, InitialPort(k));
  }

  /** The Windows constants: nil table, None and One both 0. */
  function WindowsConstants(): Constants {
    Constants(map[], {}, {})
  }

  /** On Windows the literal 1 is `StopBitOneHalf`: with no options, the
      port reaching the platform open asks for one and a half stop bits,
      and running the default `WithStopBits(StopBitOne)` would change it. */
  lemma WindowsDefaultIsOneAndAHalf(open: Port -> Result<Port>)
    ensures var p := InitialPort(WindowsConstants());
            && Open(WindowsConstants(), LegacyWindowsOptions.Applier(map[]), [], open) == OpenReport(open(p), 0, true)
            && p.stopBits == WindowsValues.StopBitOneHalf
            && LegacyWindowsOptions.WithStopBits({}, p).port != p
  {
    var p := InitialPort(WindowsConstants());
    assert LegacyWindowsOptions.WithStopBits({}, p).port.stopBits == 0;
  }

  /** With the stop-bits byte taken from `StopBitOne`, the Windows starting
      port already holds what the three enumerated default options would
      write: running them changes nothing. */
  lemma FixedDefaultsAreFixedPoint()
    ensures var p := InitialPortFixed(WindowsConstants());
            && p.stopBits == WindowsValues.StopBitOne
            && LegacyWindowsOptions.WithStopBits({}, p) == Step(p, Pass)
            && LegacyWindowsOptions.WithParity({}, p) == Step(p, Pass)
            && LegacyWindowsOptions.WithDataBits(8, p) == Step(p, Pass)
  {
    WindowsValues.EnumerationBytes();
  }
}
